/** The data conversion tools: the commands `handleDataConversionTool`
    builds for gr2dt, dt2gr, parse.gr, parse.grl, seg2gr, si2gr and
    gr.string. */
module DataConversion {
  import opened Js
  import opened Genomic
  import opened Bridge
  import opened RCall

  /** The arguments these handlers read; a field is None when the client
      leaves it undefined. `data` and `segments` are plain objects handed
      to formatRObject as they are, so an undefined one is written like
      null, as `NULL`. `seqlengths` lists the object's entries in the order
      `Object.entries` yields them (array-index keys first, ascending, then
      the others in insertion order). */
  datatype ConversionArgs = ConversionArgs(
    ranges: Option<seq<GenomicRange>>,
    data: Json,
    segments: Json,
    seqlengths: Option<seq<(string, int)>>,
    coordinates: Option<seq<string>>,
    chromosomes: Option<seq<string>>,
    genome: Option<string>,
    addStrand: Option<bool>)

  /** The names `createDataConversionTools` declares, in its order. */
  const Tools: seq<string> := [
    "gutils_gr2dt", "gutils_dt2gr", "gutils_parse_gr", "gutils_parse_grl",
    "gutils_seg2gr", "gutils_si2gr", "gutils_gr_string"]

  /** `"${chr}" = ${len}`, one per entry, in entry order. */
  function LengthEntries(es: seq<(string, int)>): (r: seq<string>)
    ensures |r| == |es|
    ensures forall i :: 0 <= i < |es| ==> r[i] == Quote(es[i].0) + " = " + IntToString(es[i].1)
  {
    seq(|es|, i requires 0 <= i < |es| => Quote(es[i].0) + " = " + IntToString(es[i].1))
  }

  /** `if (args.seqlengths)`: any object, the empty one included, as a
      named numeric vector. */
  function SeqlengthsVector(o: Option<seq<(string, int)>>): (r: Option<string>)
    ensures r.Some? <==> o.Some?
    ensures o.Some? ==> r.value == Vector(LengthEntries(o.value))
  {
    if o.Some? then Some(Vector(LengthEntries(o.value))) else None
  }

  /** `if (args.add_strand) cmd += ', add.strand = TRUE'`: only true adds
      the argument, and it is never written FALSE. */
  function AddStrand(o: Option<bool>): (r: Option<string>)
    ensures r.Some? <==> o == Some(true)
    ensures r.Some? ==> r.value == "TRUE"
  {
    if o == Some(true) then Some("TRUE") else None
  }

  function Dt2grCall(data: string, a: ConversionArgs): Call
  {
    Call("dt2gr(" + data,
      [Clause("seqlengths", SeqlengthsVector(a.seqlengths)), Clause("genome", QuotedIfTruthy(a.genome))])
  }

  /** parse.gr and parse.grl (`fn` is the R function name) over the
      coordinate vector's text. */
  function ParseCall(fn: string, coordinates: string, a: ConversionArgs): Call
  {
    Call(fn + "(" + coordinates, [Clause("genome", QuotedIfTruthy(a.genome))])
  }

  function GrStringCall(ranges: string, a: ConversionArgs): Call
  {
    Call("gr.string(" + ranges, [Clause("add.strand", AddStrand(a.addStrand))])
  }

  /** si2gr: the genome's seqinfo, or, given a chromosome list, a three
      line R block that subsets it first; the list replaces the whole
      command. */
  function Si2grCommand(a: ConversionArgs): string
  {
    if a.chromosomes.Some? then
      "\n          genome_obj <- " + GenomeObject(a.genome)
        + "\n          seqinfo_subset <- seqinfo(genome_obj)[" + QuotedVector(a.chromosomes.value) + "]"
        + "\n          si2gr(seqinfo_subset)\n        "
    else "si2gr(" + GenomeObject(a.genome) + ")"
  }

  /** The cases of handleDataConversionTool's switch. */
  datatype Tool = Gr2dt | Dt2gr | ParseGr | ParseGrl | Seg2gr | Si2gr | GrString

  function ToolNamed(name: string): Option<Tool>
  {
    if name == "gutils_gr2dt" then Some(Gr2dt)
    else if name == "gutils_dt2gr" then Some(Dt2gr)
    else if name == "gutils_parse_gr" then Some(ParseGr)
    else if name == "gutils_parse_grl" then Some(ParseGrl)
    else if name == "gutils_seg2gr" then Some(Seg2gr)
    else if name == "gutils_si2gr" then Some(Si2gr)
    else if name == "gutils_gr_string" then Some(GrString)
    else None
  }

  function CommandFor(t: Tool, a: ConversionArgs): Result<string, string>
  {
    match t
    case Gr2dt => Ok("gr2dt(" + GR(a.ranges) + ")")
    case Dt2gr => Ok(Render(Dt2grCall(FormatJson(a.data), a)))
    case ParseGr =>
      if a.coordinates.None? then Err(MapOfUndefined)
      else Ok(Render(ParseCall("parse.gr", QuotedVector(a.coordinates.value), a)))
    case ParseGrl =>
      if a.coordinates.None? then Err(MapOfUndefined)
      else Ok(Render(ParseCall("parse.grl", QuotedVector(a.coordinates.value), a)))
    case Seg2gr => Ok("seg2gr(" + FormatJson(a.segments) + ")")
    case Si2gr => Ok(Si2grCommand(a))
    case GrString => Ok(Render(GrStringCall(GR(a.ranges), a)))
  }

  function Command(name: string, a: ConversionArgs): Result<string, string>
  {
    match ToolNamed(name)
    case None => Err(UnknownTool(name))
    case Some(t) => CommandFor(t, a)
  }

  method BuildDt2gr(data: string, a: ConversionArgs) returns (cmd: string)
    ensures cmd == Render(Dt2grCall(data, a))
  {
    cmd := "dt2gr(" + data;
    cmd := AppendClause(cmd, Clause("seqlengths", SeqlengthsVector(a.seqlengths)));
    cmd := AppendClause(cmd, Clause("genome", QuotedIfTruthy(a.genome)));
    cmd := cmd + ")";
    Expand2(Dt2grCall(data, a).head, Dt2grCall(data, a).clauses);
  }

  /** si2gr as the source writes it: `cmd` is started, then either
      replaced by the block or closed. */
  method BuildSi2gr(a: ConversionArgs) returns (cmd: string)
    ensures cmd == Si2grCommand(a)
  {
    cmd := "si2gr(" + GenomeObject(a.genome);
    if a.chromosomes.Some? {
      cmd := "\n          genome_obj <- " + GenomeObject(a.genome)
        + "\n          seqinfo_subset <- seqinfo(genome_obj)[" + QuotedVector(a.chromosomes.value) + "]"
        + "\n          si2gr(seqinfo_subset)\n        ";
    } else {
      cmd := cmd + ")";
    }
  }

  /** handleDataConversionTool's switch. */
  method BuildCommand(name: string, a: ConversionArgs) returns (r: Result<string, string>)
    ensures r == Command(name, a)
  {
    var tool := ToolNamed(name);
    if tool.None? {
      return Err(UnknownTool(name));
    }
    var cmd: string;
    match tool.value {
      case Gr2dt => cmd := "gr2dt(" + GR(a.ranges) + ")";
      case Dt2gr => cmd := BuildDt2gr(FormatJson(a.data), a);
      case ParseGr =>
        if a.coordinates.None? {
          return Err(MapOfUndefined);
        }
        cmd := BuildOneOption(ParseCall("parse.gr", QuotedVector(a.coordinates.value), a));
      case ParseGrl =>
        if a.coordinates.None? {
          return Err(MapOfUndefined);
        }
        cmd := BuildOneOption(ParseCall("parse.grl", QuotedVector(a.coordinates.value), a));
      case Seg2gr => cmd := "seg2gr(" + FormatJson(a.segments) + ")";
      case Si2gr => cmd := BuildSi2gr(a);
      case GrString => cmd := BuildOneOption(GrStringCall(GR(a.ranges), a));
    }
    r := Ok(cmd);
  }

  // ---------------------------------------------------------------------
  // Properties

  /** Any name outside the declared list is refused with `Unknown tool:
      <name>`; every declared tool builds a command, except parse.gr and
      parse.grl, which fail on `.map` when the coordinates are undefined. */
  lemma HandlesExactlyTools(name: string, a: ConversionArgs)
    ensures name !in Tools ==> Command(name, a) == Err("Unknown tool: " + name)
    ensures name in Tools && a.coordinates.Some? ==> Command(name, a).Ok?
    ensures name in Tools && name != "gutils_parse_gr" && name != "gutils_parse_grl" ==> Command(name, a).Ok?
  {
  }

  /** Undefined coordinates make both parsers fail with the TypeError. */
  lemma ParsersNeedCoordinates(a: ConversionArgs)
    requires a.coordinates.None?
    ensures Command("gutils_parse_gr", a) == Err(MapOfUndefined)
    ensures Command("gutils_parse_grl", a) == Err(MapOfUndefined)
  {
  }

  /** dt2gr writes seqlengths, then genome; the seqlengths vector names
      each length by its chromosome, in entry order. */
  lemma Dt2grOptions(data: string, a: ConversionArgs, es: seq<(string, int)>, genome: string)
    requires a.seqlengths == Some(es) && a.genome == Some(genome) && genome != ""
    ensures Render(Dt2grCall(data, a)) ==
      "dt2gr(" + data + Arg("seqlengths", Vector(LengthEntries(es))) + Arg("genome", Quote(genome)) + ")"
  {
    Expand2(Dt2grCall(data, a).head, Dt2grCall(data, a).clauses);
  }

  /** An empty or undefined genome is left out of dt2gr; an empty
      seqlengths object is still written, as `c()`. */
  lemma Dt2grEmptySeqlengths(data: string, a: ConversionArgs)
    requires a.seqlengths == Some([]) && !TruthyText(a.genome)
    ensures Render(Dt2grCall(data, a)) == "dt2gr(" + data + Arg("seqlengths", "c()") + ")"
  {
    Expand2(Dt2grCall(data, a).head, Dt2grCall(data, a).clauses);
    assert Vector(LengthEntries([])) == "c()";
  }

  /** si2gr without chromosomes is a single call on the genome package. */
  lemma Si2grWholeGenome(a: ConversionArgs, g: string)
    requires a.genome == Some(g) && a.chromosomes.None?
    ensures Si2grCommand(a) == "si2gr(" + "BSgenome.Hsapiens.UCSC." + g + "::BSgenome.Hsapiens.UCSC." + g + ")"
  {
  }

  /** With a chromosome list, even an empty one, si2gr becomes the block
      that subsets the genome's seqinfo by the quoted chromosome names. */
  lemma Si2grChromosomes(a: ConversionArgs, g: string, chrs: seq<string>)
    requires a.genome == Some(g) && a.chromosomes == Some(chrs)
    ensures Si2grCommand(a) ==
      "\n          genome_obj <- " + "BSgenome.Hsapiens.UCSC." + g + "::BSgenome.Hsapiens.UCSC." + g
        + "\n          seqinfo_subset <- seqinfo(genome_obj)[" + Vector(Quoted(chrs)) + "]"
        + "\n          si2gr(seqinfo_subset)\n        "
  {
  }

  /** gr.string adds `add.strand = TRUE` for true only: false and
      undefined give the same command. */
  lemma GrStringAddStrand(r: string, a: ConversionArgs)
    ensures a.addStrand == Some(true) ==> Render(GrStringCall(r, a)) == "gr.string(" + r + ", add.strand = TRUE)"
    ensures a.addStrand != Some(true) ==> Render(GrStringCall(r, a)) == "gr.string(" + r + ")"
  {
    Expand1(GrStringCall(r, a).head, GrStringCall(r, a).clauses);
  }

  /** Every declared tool builds its command or fails only on the `.map`
      of a list argument left undefined. */
  lemma DeclaredToolsBuild(name: string, a: ConversionArgs)
    requires name in Tools
    ensures Command(name, a).Ok? || Command(name, a) == Err(MapOfUndefined)
  {
    if a.coordinates.None? && (name == "gutils_parse_gr" || name == "gutils_parse_grl") {
      ParsersNeedCoordinates(a);
    } else {
      HandlesExactlyTools(name, a);
    }
  }
}
