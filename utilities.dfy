/** The utility tools: the commands `handleUtilityTool` builds for
    hg_seqlengths, gr.fix, gr.fixseq, gr.chr, gr.nochr, gr.sub, gr.dice,
    gr.dist, gr.duplicated, gr.flatten, grbind and rrbind. */
module Utilities {
  import opened Js
  import opened Genomic
  import opened Bridge
  import opened RCall

  /** The arguments these handlers read; a field is None when the client
      leaves it undefined. Each table is the plain object the client sends,
      column name to values. */
  datatype UtilityArgs = UtilityArgs(
    ranges: Option<seq<GenomicRange>>,
    x: Option<seq<GenomicRange>>,
    y: Option<seq<GenomicRange>>,
    rangesList: Option<seq<seq<GenomicRange>>>,
    tables: Option<seq<Json>>,
    genome: Option<string>,
    pattern: Option<string>,
    replacement: Option<string>,
    chr: Option<bool>,
    includeJunk: Option<bool>,
    ignoreStrand: Option<bool>,
    fill: Option<bool>,
    byColumns: Option<seq<string>>)

  /** The names `createUtilityTools` declares, in its order. */
  const Tools: seq<string> := [
    "gutils_hg_seqlengths", "gutils_gr_fix", "gutils_gr_fixseq", "gutils_gr_chr",
    "gutils_gr_nochr", "gutils_gr_sub", "gutils_gr_dice", "gutils_gr_dist",
    "gutils_gr_duplicated", "gutils_gr_flatten", "gutils_grbind", "gutils_rrbind"]

  /** hg_seqlengths: genome is its first argument, so it has no leading
      comma; chr and include.junk follow with one, whether or not a genome
      was written before them. */
  function SeqlengthsCall(a: UtilityArgs): Call
  {
    Call("hg_seqlengths(",
      [Lead("genome", QuotedIfTruthy(a.genome)), Clause("chr", Flag(a.chr)),
       Clause("include.junk", Flag(a.includeJunk))])
  }

  /** gr.fix and gr.fixseq (`fn` is the R function name). */
  function FixCall(fn: string, ranges: string, a: UtilityArgs): Call
  {
    Call(fn + "(" + ranges, [Clause("genome", QuotedIfTruthy(a.genome))])
  }

  function DistCall(x: string, y: string, a: UtilityArgs): Call
  {
    Call("gr.dist(x = " + x + ", y = " + y, [Clause("ignore.strand", Flag(a.ignoreStrand))])
  }

  function DuplicatedCall(ranges: string, a: UtilityArgs): Call
  {
    Call("gr.duplicated(" + ranges,
      [Clause("by", NamesIfNonEmpty(a.byColumns)), Clause("ignore.strand", Flag(a.ignoreStrand))])
  }

  /** rrbind: `tables` is the text of the tables already joined. */
  function RrbindCall(tables: string, a: UtilityArgs): Call
  {
    Call("rrbind(list(" + tables + ")", [Clause("fill", Flag(a.fill))])
  }

  function SubCommand(ranges: string, a: UtilityArgs): string
  {
    "gr.sub(" + ranges + ", pattern = " + Quote(StrText(a.pattern))
      + ", replacement = " + Quote(StrText(a.replacement)) + ")"
  }

  /** `ranges_list.map(gr => formatRObject({type: 'GRanges', data: gr}))`. */
  function RangeSetTexts(rss: seq<seq<GenomicRange>>): (r: seq<string>)
    ensures |r| == |rss|
  {
    seq(|rss|, i requires 0 <= i < |rss| => FormatGRanges(rss[i]))
  }

  /** `tables.map(table => formatRObject(table))`. */
  function TableTexts(ts: seq<Json>): (r: seq<string>)
    ensures |r| == |ts|
  {
    seq(|ts|, i requires 0 <= i < |ts| => FormatJson(ts[i]))
  }

  /** The cases of handleUtilityTool's switch. */
  datatype Tool =
    | Seqlengths | Fix | Fixseq | Chr | Nochr | Sub | Dice | Dist | Duplicated | Flatten | Grbind | Rrbind

  function ToolNamed(name: string): Option<Tool>
  {
    if name == "gutils_hg_seqlengths" then Some(Seqlengths)
    else if name == "gutils_gr_fix" then Some(Fix)
    else if name == "gutils_gr_fixseq" then Some(Fixseq)
    else if name == "gutils_gr_chr" then Some(Chr)
    else if name == "gutils_gr_nochr" then Some(Nochr)
    else if name == "gutils_gr_sub" then Some(Sub)
    else if name == "gutils_gr_dice" then Some(Dice)
    else if name == "gutils_gr_dist" then Some(Dist)
    else if name == "gutils_gr_duplicated" then Some(Duplicated)
    else if name == "gutils_gr_flatten" then Some(Flatten)
    else if name == "gutils_grbind" then Some(Grbind)
    else if name == "gutils_rrbind" then Some(Rrbind)
    else None
  }

  function CommandFor(t: Tool, a: UtilityArgs): Result<string, string>
  {
    match t
    case Seqlengths => Ok(Render(SeqlengthsCall(a)))
    case Fix => Ok(Render(FixCall("gr.fix", GR(a.ranges), a)))
    case Fixseq => Ok(Render(FixCall("gr.fixseq", GR(a.ranges), a)))
    case Chr => Ok("gr.chr(" + GR(a.ranges) + ")")
    case Nochr => Ok("gr.nochr(" + GR(a.ranges) + ")")
    case Sub => Ok(SubCommand(GR(a.ranges), a))
    case Dice => Ok("gr.dice(" + GR(a.ranges) + ")")
    case Dist => Ok(Render(DistCall(GR(a.x), GR(a.y), a)))
    case Duplicated => Ok(Render(DuplicatedCall(GR(a.ranges), a)))
    case Flatten => Ok("gr.flatten(" + GR(a.ranges) + ")")
    case Grbind =>
      if a.rangesList.None? then Err(MapOfUndefined)
      else Ok("grbind(" + Join(RangeSetTexts(a.rangesList.value), ", ") + ")")
    case Rrbind =>
      if a.tables.None? then Err(MapOfUndefined)
      else Ok(Render(RrbindCall(Join(TableTexts(a.tables.value), ", "), a)))
  }

  function Command(name: string, a: UtilityArgs): Result<string, string>
  {
    match ToolNamed(name)
    case None => Err(UnknownTool(name))
    case Some(t) => CommandFor(t, a)
  }

  method BuildSeqlengths(a: UtilityArgs) returns (cmd: string)
    ensures cmd == Render(SeqlengthsCall(a))
  {
    cmd := "hg_seqlengths(";
    cmd := AppendClause(cmd, Lead("genome", QuotedIfTruthy(a.genome)));
    cmd := AppendClause(cmd, Clause("chr", Flag(a.chr)));
    cmd := AppendClause(cmd, Clause("include.junk", Flag(a.includeJunk)));
    cmd := cmd + ")";
    Expand3(SeqlengthsCall(a).head, SeqlengthsCall(a).clauses);
  }

  method BuildDuplicated(ranges: string, a: UtilityArgs) returns (cmd: string)
    ensures cmd == Render(DuplicatedCall(ranges, a))
  {
    cmd := "gr.duplicated(" + ranges;
    cmd := AppendClause(cmd, Clause("by", NamesIfNonEmpty(a.byColumns)));
    cmd := AppendClause(cmd, Clause("ignore.strand", Flag(a.ignoreStrand)));
    cmd := cmd + ")";
    Expand2(DuplicatedCall(ranges, a).head, DuplicatedCall(ranges, a).clauses);
  }

  /** handleUtilityTool's switch. */
  method BuildCommand(name: string, a: UtilityArgs) returns (r: Result<string, string>)
    ensures r == Command(name, a)
  {
    var tool := ToolNamed(name);
    if tool.None? {
      return Err(UnknownTool(name));
    }
    var cmd: string;
    match tool.value {
      case Seqlengths => cmd := BuildSeqlengths(a);
      case Fix => cmd := BuildOneOption(FixCall("gr.fix", GR(a.ranges), a));
      case Fixseq => cmd := BuildOneOption(FixCall("gr.fixseq", GR(a.ranges), a));
      case Chr => cmd := "gr.chr(" + GR(a.ranges) + ")";
      case Nochr => cmd := "gr.nochr(" + GR(a.ranges) + ")";
      case Sub => cmd := SubCommand(GR(a.ranges), a);
      case Dice => cmd := "gr.dice(" + GR(a.ranges) + ")";
      case Dist => cmd := BuildOneOption(DistCall(GR(a.x), GR(a.y), a));
      case Duplicated => cmd := BuildDuplicated(GR(a.ranges), a);
      case Flatten => cmd := "gr.flatten(" + GR(a.ranges) + ")";
      case Grbind =>
        if a.rangesList.None? {
          return Err(MapOfUndefined);
        }
        cmd := "grbind(" + Join(RangeSetTexts(a.rangesList.value), ", ") + ")";
      case Rrbind =>
        if a.tables.None? {
          return Err(MapOfUndefined);
        }
        cmd := BuildOneOption(RrbindCall(Join(TableTexts(a.tables.value), ", "), a));
    }
    r := Ok(cmd);
  }

  // ---------------------------------------------------------------------
  // Properties

  /** Any name outside the declared list is refused with `Unknown tool:
      <name>`; every declared tool builds a command, except grbind and
      rrbind, which fail on `.map` when their list is undefined. */
  lemma HandlesExactlyTools(name: string, a: UtilityArgs)
    ensures name !in Tools ==> Command(name, a) == Err("Unknown tool: " + name)
    ensures name in Tools && name != "gutils_grbind" && name != "gutils_rrbind" ==> Command(name, a).Ok?
  {
  }

  /** grbind and rrbind fail exactly when their list is undefined. */
  lemma BindsNeedTheirList(a: UtilityArgs)
    ensures ToolNamed("gutils_grbind") == Some(Grbind) && ToolNamed("gutils_rrbind") == Some(Rrbind)
    ensures CommandFor(Grbind, a).Err? <==> a.rangesList.None?
    ensures CommandFor(Rrbind, a).Err? <==> a.tables.None?
  {
  }

  /** hg_seqlengths writes the genome first, without a comma, and chr and
      include.junk after it. */
  lemma SeqlengthsWithGenome(a: UtilityArgs, genome: string, chr: bool, junk: bool)
    requires a.genome == Some(genome) && genome != "" && a.chr == Some(chr) && a.includeJunk == Some(junk)
    ensures Render(SeqlengthsCall(a)) == "hg_seqlengths(" + LeadArg("genome", Quote(genome))
        + Arg("chr", Logical(chr)) + Arg("include.junk", Logical(junk)) + ")"
  {
    Expand3(SeqlengthsCall(a).head, SeqlengthsCall(a).clauses);
  }

  /** Without a genome, the first argument written still starts with a
      comma, leaving R an empty first argument. */
  lemma SeqlengthsWithoutGenome(a: UtilityArgs, chr: bool)
    requires !TruthyText(a.genome) && a.chr == Some(chr) && a.includeJunk.None?
    ensures Render(SeqlengthsCall(a)) == "hg_seqlengths(" + Arg("chr", Logical(chr)) + ")"
  {
    Expand3(SeqlengthsCall(a).head, SeqlengthsCall(a).clauses);
  }

  /** With no option at all, hg_seqlengths is called bare: the schema's
      default genome is not supplied by the handler. */
  lemma SeqlengthsBare(a: UtilityArgs)
    requires !TruthyText(a.genome) && a.chr.None? && a.includeJunk.None?
    ensures Render(SeqlengthsCall(a)) == "hg_seqlengths()"
  {
    NoOptionsBare(SeqlengthsCall(a));
  }

  /** gr.fix and gr.fixseq pass a non-empty genome as a quoted name and
      nothing otherwise. */
  lemma FixGenome(fn: string, r: string, a: UtilityArgs)
    ensures TruthyText(a.genome) ==> Render(FixCall(fn, r, a)) == fn + "(" + r + Arg("genome", Quote(a.genome.value)) + ")"
    ensures !TruthyText(a.genome) ==> Render(FixCall(fn, r, a)) == fn + "(" + r + ")"
  {
    Expand1(FixCall(fn, r, a).head, FixCall(fn, r, a).clauses);
  }

  /** gr.duplicated writes by, for a non-empty column list, before
      ignore.strand ... */
  lemma DuplicatedBy(r: string, a: UtilityArgs, cols: seq<string>, ignore: bool)
    requires a.byColumns == Some(cols) && |cols| > 0 && a.ignoreStrand == Some(ignore)
    ensures Render(DuplicatedCall(r, a)) == "gr.duplicated(" + r + Arg("by", Vector(Quoted(cols))) + Arg("ignore.strand", Logical(ignore)) + ")"
  {
    var call := DuplicatedCall(r, a);
    Expand2(call.head, call.clauses);
  }

  /** ... and leaves an empty column list out. */
  lemma DuplicatedEmptyBy(r: string, a: UtilityArgs, ignore: bool)
    requires a.byColumns == Some([]) && a.ignoreStrand == Some(ignore)
    ensures Render(DuplicatedCall(r, a)) == "gr.duplicated(" + r + Arg("ignore.strand", Logical(ignore)) + ")"
  {
    var call := DuplicatedCall(r, a);
    Expand2(call.head, call.clauses);
  }

  /** rrbind wraps the tables in `list(...)` and adds fill, TRUE or FALSE,
      whenever it is defined. */
  lemma RrbindFill(tables: string, a: UtilityArgs)
    ensures a.fill.Some? ==> Render(RrbindCall(tables, a)) == "rrbind(list(" + tables + ")" + Arg("fill", Logical(a.fill.value)) + ")"
    ensures a.fill.None? ==> Render(RrbindCall(tables, a)) == "rrbind(list(" + tables + ")" + ")"
  {
    Expand1(RrbindCall(tables, a).head, RrbindCall(tables, a).clauses);
  }

  /** The first range set's text leads the grbind arguments, the others'
      follow in order. */
  lemma RangeSetTextsCons(rss: seq<seq<GenomicRange>>, first: seq<GenomicRange>, rest: seq<seq<GenomicRange>>)
    requires rss == [first] + rest
    ensures RangeSetTexts(rss)[0] == FormatGRanges(first)
    ensures RangeSetTexts(rss)[1..] == RangeSetTexts(rest)
  {
    var texts := RangeSetTexts(rss);
    forall i | 0 <= i < |rest|
      ensures texts[1..][i] == RangeSetTexts(rest)[i]
    {
      assert rss[i + 1] == rest[i];
    }
  }

  /** grbind's arguments are the range sets' GRanges texts in input
      order, separated by ", ". */
  lemma GrbindInOrder(rss: seq<seq<GenomicRange>>, first: seq<GenomicRange>, rest: seq<seq<GenomicRange>>)
    requires rss == [first] + rest
    ensures |rest| == 0 ==> Join(RangeSetTexts(rss), ", ") == FormatGRanges(first)
    ensures |rest| > 0 ==> Join(RangeSetTexts(rss), ", ") == FormatGRanges(first) + ", " + Join(RangeSetTexts(rest), ", ")
  {
    RangeSetTextsCons(rss, first, rest);
  }

  /** gr.sub always writes pattern and replacement between quotes,
      "undefined" for a missing one. */
  lemma SubQuoted(r: string, a: UtilityArgs)
    requires a.pattern.None?
    ensures SubCommand(r, a) == "gr.sub(" + r + ", pattern = \"undefined\", replacement = " + Quote(StrText(a.replacement)) + ")"
  {
  }

  /** Every declared tool builds its command or fails only on the `.map`
      of a list argument left undefined. */
  lemma DeclaredToolsBuild(name: string, a: UtilityArgs)
    requires name in Tools
    ensures Command(name, a).Ok? || Command(name, a) == Err(MapOfUndefined)
  {
    HandlesExactlyTools(name, a);
    BindsNeedTheirList(a);
  }
}
