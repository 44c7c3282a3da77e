/** The range tools: the commands `handleRangeManipulationTool` builds for
    start, end, mid, flipstrand, stripstrand, trim, pairflip, noval, tile,
    rand and sample. */
module RangeManipulation {
  import opened Js
  import opened Genomic
  import opened Bridge
  import opened RCall

  /** A width argument: one number, or (for gr.rand) a list of numbers. */
  datatype Width = Scalar(w: int) | Widths(ws: seq<int>)

  /** The arguments these handlers read; a field is None when the client
      leaves it undefined. */
  datatype RangeArgs = RangeArgs(
    ranges: Option<seq<GenomicRange>>,
    territory: Option<seq<GenomicRange>>,
    width: Option<Width>,
    force: Option<bool>,
    ignoreStrand: Option<bool>,
    clip: Option<bool>,
    stranded: Option<bool>,
    replace: Option<bool>,
    start: Option<int>,
    end: Option<int>,
    n: Option<int>,
    genome: Option<string>)

  /** The names `createRangeManipulationTools` declares, in its order. */
  const Tools: seq<string> := [
    "gutils_gr_start", "gutils_gr_end", "gutils_gr_mid", "gutils_gr_flipstrand",
    "gutils_gr_stripstrand", "gutils_gr_trim", "gutils_gr_pairflip", "gutils_gr_noval",
    "gutils_gr_tile", "gutils_gr_rand", "gutils_gr_sample"]

  /** `${width}`: a number in decimal; a list as JavaScript writes an
      array into a template, its elements joined by "," with no space. */
  function WidthText(w: Width): string
  {
    match w
    case Scalar(x) => IntToString(x)
    case Widths(ws) => Join(Numerals(ws), ",")
  }

  /** `if (args.width !== undefined)`. */
  function WidthArg(o: Option<Width>): (r: Option<string>)
    ensures r.Some? <==> o.Some?
  {
    if o.Some? then Some(WidthText(o.value)) else None
  }

  /** gr.rand's width: a list as a numeric vector, anything else as the
      template writes it (so undefined is the word `undefined`). */
  function RandWidth(o: Option<Width>): string
  {
    match o
    case Some(Widths(ws)) => NumberVector(ws)
    case Some(Scalar(x)) => IntToString(x)
    case None => "undefined"
  }

  /** gr.start and gr.end (`fn` is the R function name). */
  function EndpointCall(fn: string, ranges: string, a: RangeArgs): Call
  {
    Call(fn + "(" + ranges,
      [Clause("width", WidthArg(a.width)),
       Clause("force", Flag(a.force)),
       Clause("ignore.strand", Flag(a.ignoreStrand)),
       Clause("clip", Flag(a.clip))])
  }

  function TrimCall(ranges: string, a: RangeArgs): Call
  {
    Call("gr.trim(" + ranges, [Clause("start", Number(a.start)), Clause("end", Number(a.end))])
  }

  function TileCall(ranges: string, a: RangeArgs): Call
  {
    Call("gr.tile(" + ranges, [Clause("width", WidthArg(a.width)), Clause("stranded", Flag(a.stranded))])
  }

  function SampleCall(territory: string, a: RangeArgs): Call
  {
    Call("gr.sample(" + territory + ", N = " + IntText(a.n), [Clause("replace", Flag(a.replace))])
  }

  /** gr.rand: a single template. */
  function RandCommand(a: RangeArgs): string
  {
    "gr.rand(N = " + IntText(a.n) + ", width = " + RandWidth(a.width) + ", genome = " + GenomeObject(a.genome) + ")"
  }

  /** The cases of handleRangeManipulationTool's switch. */
  datatype Tool = Start | End | Mid | FlipStrand | StripStrand | Trim | PairFlip | NoVal | Tile | Rand | Sample

  function ToolNamed(name: string): Option<Tool>
  {
    if name == "gutils_gr_start" then Some(Start)
    else if name == "gutils_gr_end" then Some(End)
    else if name == "gutils_gr_mid" then Some(Mid)
    else if name == "gutils_gr_flipstrand" then Some(FlipStrand)
    else if name == "gutils_gr_stripstrand" then Some(StripStrand)
    else if name == "gutils_gr_trim" then Some(Trim)
    else if name == "gutils_gr_pairflip" then Some(PairFlip)
    else if name == "gutils_gr_noval" then Some(NoVal)
    else if name == "gutils_gr_tile" then Some(Tile)
    else if name == "gutils_gr_rand" then Some(Rand)
    else if name == "gutils_gr_sample" then Some(Sample)
    else None
  }

  function CommandFor(t: Tool, a: RangeArgs): string
  {
    match t
    case Start => Render(EndpointCall("gr.start", GR(a.ranges), a))
    case End => Render(EndpointCall("gr.end", GR(a.ranges), a))
    case Trim => Render(TrimCall(GR(a.ranges), a))
    case Tile => Render(TileCall(GR(a.ranges), a))
    case Rand => RandCommand(a)
    case Sample => Render(SampleCall(GR(a.territory), a))
    case Mid => "gr.mid(" + GR(a.ranges) + ")"
    case FlipStrand => "gr.flipstrand(" + GR(a.ranges) + ")"
    case StripStrand => "gr.stripstrand(" + GR(a.ranges) + ")"
    case PairFlip => "gr.pairflip(" + GR(a.ranges) + ")"
    case NoVal => "gr.noval(" + GR(a.ranges) + ")"
  }

  function Command(name: string, a: RangeArgs): Result<string, string>
  {
    match ToolNamed(name)
    case None => Err(UnknownTool(name))
    case Some(t) => Ok(CommandFor(t, a))
  }

  method BuildEndpoint(fn: string, ranges: string, a: RangeArgs) returns (cmd: string)
    ensures cmd == Render(EndpointCall(fn, ranges, a))
  {
    cmd := fn + "(" + ranges;
    cmd := AppendClause(cmd, Clause("width", WidthArg(a.width)));
    cmd := AppendClause(cmd, Clause("force", Flag(a.force)));
    cmd := AppendClause(cmd, Clause("ignore.strand", Flag(a.ignoreStrand)));
    cmd := AppendClause(cmd, Clause("clip", Flag(a.clip)));
    cmd := cmd + ")";
    Expand4(EndpointCall(fn, ranges, a).head, EndpointCall(fn, ranges, a).clauses);
  }

  method BuildTrim(ranges: string, a: RangeArgs) returns (cmd: string)
    ensures cmd == Render(TrimCall(ranges, a))
  {
    cmd := "gr.trim(" + ranges;
    cmd := AppendClause(cmd, Clause("start", Number(a.start)));
    cmd := AppendClause(cmd, Clause("end", Number(a.end)));
    cmd := cmd + ")";
    Expand2(TrimCall(ranges, a).head, TrimCall(ranges, a).clauses);
  }

  method BuildTile(ranges: string, a: RangeArgs) returns (cmd: string)
    ensures cmd == Render(TileCall(ranges, a))
  {
    cmd := "gr.tile(" + ranges;
    cmd := AppendClause(cmd, Clause("width", WidthArg(a.width)));
    cmd := AppendClause(cmd, Clause("stranded", Flag(a.stranded)));
    cmd := cmd + ")";
    Expand2(TileCall(ranges, a).head, TileCall(ranges, a).clauses);
  }

  method BuildSample(territory: string, a: RangeArgs) returns (cmd: string)
    ensures cmd == Render(SampleCall(territory, a))
  {
    cmd := "gr.sample(" + territory + ", N = " + IntText(a.n);
    cmd := AppendClause(cmd, Clause("replace", Flag(a.replace)));
    cmd := cmd + ")";
    Expand1(SampleCall(territory, a).head, SampleCall(territory, a).clauses);
  }

  /** handleRangeManipulationTool's switch. */
  method BuildCommand(name: string, a: RangeArgs) returns (r: Result<string, string>)
    ensures r == Command(name, a)
  {
    var tool := ToolNamed(name);
    if tool.None? {
      return Err(UnknownTool(name));
    }
    var cmd: string;
    match tool.value {
      case Start => cmd := BuildEndpoint("gr.start", GR(a.ranges), a);
      case End => cmd := BuildEndpoint("gr.end", GR(a.ranges), a);
      case Trim => cmd := BuildTrim(GR(a.ranges), a);
      case Tile => cmd := BuildTile(GR(a.ranges), a);
      case Rand => cmd := RandCommand(a);
      case Sample => cmd := BuildSample(GR(a.territory), a);
      case Mid => cmd := "gr.mid(" + GR(a.ranges) + ")";
      case FlipStrand => cmd := "gr.flipstrand(" + GR(a.ranges) + ")";
      case StripStrand => cmd := "gr.stripstrand(" + GR(a.ranges) + ")";
      case PairFlip => cmd := "gr.pairflip(" + GR(a.ranges) + ")";
      case NoVal => cmd := "gr.noval(" + GR(a.ranges) + ")";
    }
    r := Ok(cmd);
  }

  // ---------------------------------------------------------------------
  // Properties

  /** Every declared range tool is handled and any other name is refused
      with `Unknown tool: <name>`. */
  lemma HandlesExactlyTools(name: string, a: RangeArgs)
    ensures Command(name, a).Ok? <==> name in Tools
    ensures name !in Tools ==> Command(name, a) == Err("Unknown tool: " + name)
  {
  }

  /** gr.start and gr.end write width, force, ignore.strand and clip in
      that order, the three flags as TRUE/FALSE (false included). */
  lemma EndpointAllOptions(fn: string, ranges: string, a: RangeArgs, w: int, force: bool, ignore: bool, clip: bool)
    requires a.width == Some(Scalar(w)) && a.force == Some(force) && a.ignoreStrand == Some(ignore) && a.clip == Some(clip)
    ensures Render(EndpointCall(fn, ranges, a))
         == fn + "(" + ranges + Arg("width", IntToString(w)) + Arg("force", Logical(force))
          + Arg("ignore.strand", Logical(ignore)) + Arg("clip", Logical(clip)) + ")"
  {
    Expand4(EndpointCall(fn, ranges, a).head, EndpointCall(fn, ranges, a).clauses);
  }

  /** mid, flipstrand, stripstrand, pairflip and noval are exactly
      `fn(<GRanges>)`, whatever other arguments are given. */
  lemma RangesOnlyTools(a: RangeArgs, b: RangeArgs)
    requires a.ranges == b.ranges
    ensures CommandFor(Mid, a) == CommandFor(Mid, b) == "gr.mid(" + GR(a.ranges) + ")"
    ensures CommandFor(FlipStrand, a) == CommandFor(FlipStrand, b) == "gr.flipstrand(" + GR(a.ranges) + ")"
    ensures CommandFor(StripStrand, a) == CommandFor(StripStrand, b) == "gr.stripstrand(" + GR(a.ranges) + ")"
    ensures CommandFor(PairFlip, a) == CommandFor(PairFlip, b) == "gr.pairflip(" + GR(a.ranges) + ")"
    ensures CommandFor(NoVal, a) == CommandFor(NoVal, b) == "gr.noval(" + GR(a.ranges) + ")"
  {
    BareCommand(Mid, "gr.mid(", a, b);
    BareCommand(FlipStrand, "gr.flipstrand(", a, b);
    BareCommand(StripStrand, "gr.stripstrand(", a, b);
    BareCommand(PairFlip, "gr.pairflip(", a, b);
    BareCommand(NoVal, "gr.noval(", a, b);
  }

  lemma BareCommand(t: Tool, head: string, a: RangeArgs, b: RangeArgs)
    requires a.ranges == b.ranges
    requires || (t == Mid && head == "gr.mid(")
             || (t == FlipStrand && head == "gr.flipstrand(")
             || (t == StripStrand && head == "gr.stripstrand(")
             || (t == PairFlip && head == "gr.pairflip(")
             || (t == NoVal && head == "gr.noval(")
    ensures CommandFor(t, a) == CommandFor(t, b) == head + GR(a.ranges) + ")"
  {
  }

  /** gr.trim writes start, then end, each only when it is defined (0
      included): here both are. */
  lemma TrimBounds(ranges: string, a: RangeArgs, start: int, end: int)
    requires a.start == Some(start) && a.end == Some(end)
    ensures Render(TrimCall(ranges, a)) == "gr.trim(" + ranges + Arg("start", IntToString(start)) + Arg("end", IntToString(end)) + ")"
  {
    var call := TrimCall(ranges, a);
    Expand2(call.head, call.clauses);
  }

  /** An undefined end is left out ... */
  lemma TrimStartOnly(ranges: string, a: RangeArgs, start: int)
    requires a.start == Some(start) && a.end.None?
    ensures Render(TrimCall(ranges, a)) == "gr.trim(" + ranges + Arg("start", IntToString(start)) + ")"
  {
    var call := TrimCall(ranges, a);
    Expand2(call.head, call.clauses);
  }

  /** ... and so is an undefined start. */
  lemma TrimEndOnly(ranges: string, a: RangeArgs, end: int)
    requires a.start.None? && a.end == Some(end)
    ensures Render(TrimCall(ranges, a)) == "gr.trim(" + ranges + Arg("end", IntToString(end)) + ")"
  {
    var call := TrimCall(ranges, a);
    Expand2(call.head, call.clauses);
  }

  /** With neither bound, gr.trim has the ranges alone. */
  lemma TrimNoBounds(ranges: string, a: RangeArgs)
    requires a.start.None? && a.end.None?
    ensures Render(TrimCall(ranges, a)) == "gr.trim(" + ranges + ")"
  {
    var call := TrimCall(ranges, a);
    Expand2(call.head, call.clauses);
  }

  /** gr.rand writes a list of widths as `c(w1, w2, ...)` and one width as
      it is, and names the genome package twice. */
  lemma RandWidths(a: RangeArgs, n: int, g: string)
    requires a.n == Some(n) && a.genome == Some(g) && a.width.Some?
    ensures a.width.value.Widths? ==>
      (RandCommand(a) == "gr.rand(N = " + IntToString(n) + ", width = " + NumberVector(a.width.value.ws)
        + ", genome = " + ("BSgenome.Hsapiens.UCSC." + g + "::BSgenome.Hsapiens.UCSC." + g) + ")")
    ensures a.width.value.Scalar? ==>
      (RandCommand(a) == "gr.rand(N = " + IntToString(n) + ", width = " + IntToString(a.width.value.w)
        + ", genome = " + ("BSgenome.Hsapiens.UCSC." + g + "::BSgenome.Hsapiens.UCSC." + g) + ")")
  {
  }

  /** gr.sample always writes `N = n` after the territory (the word
      `undefined` when n is missing), and replace only when it is defined. */
  lemma SampleAlwaysN(territory: string, a: RangeArgs)
    ensures a.replace.None? ==> Render(SampleCall(territory, a)) == "gr.sample(" + territory + ", N = " + IntText(a.n) + ")"
    ensures a.replace.Some? ==>
      (Render(SampleCall(territory, a)) == "gr.sample(" + territory + ", N = " + IntText(a.n) + Arg("replace", Logical(a.replace.value)) + ")")
  {
    Expand1(SampleCall(territory, a).head, SampleCall(territory, a).clauses);
  }
}
