/** The overlap tools: the commands `handleOverlapOperationTool` builds for
    findoverlaps, in, match, reduce, disjoin, setdiff, simplify, collapse
    and overlaps. */
module OverlapOperations {
  import opened Js
  import opened Genomic
  import opened Bridge
  import opened RCall

  /** The arguments these handlers read; a field is None when the client
      leaves it undefined. `overlapType` is the `type` argument. */
  datatype OverlapArgs = OverlapArgs(
    query: Option<seq<GenomicRange>>,
    subject: Option<seq<GenomicRange>>,
    x: Option<seq<GenomicRange>>,
    table: Option<seq<GenomicRange>>,
    y: Option<seq<GenomicRange>>,
    ranges: Option<seq<GenomicRange>>,
    ra1: Option<seq<GRangesList>>,
    ra2: Option<seq<GRangesList>>,
    maxgap: Option<int>,
    minoverlap: Option<int>,
    pad: Option<int>,
    thresh: Option<int>,
    overlapType: Option<string>,
    select: Option<string>,
    ignoreStrand: Option<bool>,
    byNames: Option<seq<string>>)

  /** The names `createOverlapOperationTools` declares, in its order. */
  const Tools: seq<string> := [
    "gutils_gr_findoverlaps", "gutils_gr_in", "gutils_gr_match", "gutils_gr_reduce",
    "gutils_gr_disjoin", "gutils_gr_setdiff", "gutils_gr_simplify", "gutils_gr_collapse",
    "gutils_gr_overlaps"]

  /** gr.findoverlaps, given the R text of the query and subject ranges. */
  function FindOverlapsCall(query: string, subject: string, a: OverlapArgs): Call
  {
    Call("gr.findoverlaps(query = " + query + ", subject = " + subject,
      [Clause("maxgap", Number(a.maxgap)),
       Clause("minoverlap", Number(a.minoverlap)),
       Clause("type", QuotedIfTruthy(a.overlapType)),
       Clause("select", QuotedIfTruthy(a.select)),
       Clause("ignore.strand", Flag(a.ignoreStrand))])
  }

  /** gr.in, gr.match, gr.disjoin and gr.setdiff: a head and one optional
      ignore.strand. */
  function StrandOnlyCall(head: string, a: OverlapArgs): Call
  {
    Call(head, [Clause("ignore.strand", Flag(a.ignoreStrand))])
  }

  function ReduceCall(ranges: string, a: OverlapArgs): Call
  {
    Call("gr.reduce(" + ranges,
      [Clause("by", NamesIfNonEmpty(a.byNames)),
       Clause("ignore.strand", Flag(a.ignoreStrand)),
       Clause("pad", Number(a.pad))])
  }

  function CollapseCall(ranges: string, a: OverlapArgs): Call
  {
    Call("gr.collapse(" + ranges,
      [Clause("maxgap", Number(a.maxgap)),
       Clause("ignore.strand", Flag(a.ignoreStrand))])
  }

  function OverlapsCall(ra1: string, ra2: string, a: OverlapArgs): Call
  {
    Call("gr.overlaps(ra1 = " + ra1 + ", ra2 = " + ra2,
      [Clause("thresh", Number(a.thresh))])
  }

  /** The cases of handleOverlapOperationTool's switch. */
  datatype Tool = FindOverlaps | In | Match | Reduce | Disjoin | Setdiff | Simplify | Collapse | Overlaps

  /** The case a tool name selects, if any. */
  function ToolNamed(name: string): Option<Tool>
  {
    if name == "gutils_gr_findoverlaps" then Some(FindOverlaps)
    else if name == "gutils_gr_in" then Some(In)
    else if name == "gutils_gr_match" then Some(Match)
    else if name == "gutils_gr_reduce" then Some(Reduce)
    else if name == "gutils_gr_disjoin" then Some(Disjoin)
    else if name == "gutils_gr_setdiff" then Some(Setdiff)
    else if name == "gutils_gr_simplify" then Some(Simplify)
    else if name == "gutils_gr_collapse" then Some(Collapse)
    else if name == "gutils_gr_overlaps" then Some(Overlaps)
    else None
  }

  /** The command each case builds. */
  function CommandFor(t: Tool, a: OverlapArgs): string
  {
    match t
    case FindOverlaps => Render(FindOverlapsCall(GR(a.query), GR(a.subject), a))
    case In => Render(StrandOnlyCall("gr.in(query = " + GR(a.query) + ", subject = " + GR(a.subject), a))
    case Match => Render(StrandOnlyCall("gr.match(x = " + GR(a.x) + ", table = " + GR(a.table), a))
    case Reduce => Render(ReduceCall(GR(a.ranges), a))
    case Disjoin => Render(StrandOnlyCall("gr.disjoin(" + GR(a.ranges), a))
    case Setdiff => Render(StrandOnlyCall("gr.setdiff(x = " + GR(a.x) + ", y = " + GR(a.y), a))
    case Simplify => "gr.simplify(" + GR(a.ranges) + ")"
    case Collapse => Render(CollapseCall(GR(a.ranges), a))
    case Overlaps => Render(OverlapsCall(GRL(a.ra1), GRL(a.ra2), a))
  }

  /** The command for a tool name, or the error the handler throws. */
  function Command(name: string, a: OverlapArgs): Result<string, string>
  {
    match ToolNamed(name)
    case None => Err(UnknownTool(name))
    case Some(t) => Ok(CommandFor(t, a))
  }

  method BuildFindOverlaps(query: string, subject: string, a: OverlapArgs) returns (cmd: string)
    ensures cmd == Render(FindOverlapsCall(query, subject, a))
  {
    cmd := "gr.findoverlaps(query = " + query + ", subject = " + subject;
    cmd := AppendClause(cmd, Clause("maxgap", Number(a.maxgap)));
    cmd := AppendClause(cmd, Clause("minoverlap", Number(a.minoverlap)));
    cmd := AppendClause(cmd, Clause("type", QuotedIfTruthy(a.overlapType)));
    cmd := AppendClause(cmd, Clause("select", QuotedIfTruthy(a.select)));
    cmd := AppendClause(cmd, Clause("ignore.strand", Flag(a.ignoreStrand)));
    cmd := cmd + ")";
    Expand5(FindOverlapsCall(query, subject, a).head, FindOverlapsCall(query, subject, a).clauses);
  }

  method BuildStrandOnly(head: string, a: OverlapArgs) returns (cmd: string)
    ensures cmd == Render(StrandOnlyCall(head, a))
  {
    cmd := head;
    cmd := AppendClause(cmd, Clause("ignore.strand", Flag(a.ignoreStrand)));
    cmd := cmd + ")";
    Expand1(head, StrandOnlyCall(head, a).clauses);
  }

  method BuildReduce(ranges: string, a: OverlapArgs) returns (cmd: string)
    ensures cmd == Render(ReduceCall(ranges, a))
  {
    cmd := "gr.reduce(" + ranges;
    cmd := AppendClause(cmd, Clause("by", NamesIfNonEmpty(a.byNames)));
    cmd := AppendClause(cmd, Clause("ignore.strand", Flag(a.ignoreStrand)));
    cmd := AppendClause(cmd, Clause("pad", Number(a.pad)));
    cmd := cmd + ")";
    Expand3(ReduceCall(ranges, a).head, ReduceCall(ranges, a).clauses);
  }

  method BuildCollapse(ranges: string, a: OverlapArgs) returns (cmd: string)
    ensures cmd == Render(CollapseCall(ranges, a))
  {
    cmd := "gr.collapse(" + ranges;
    cmd := AppendClause(cmd, Clause("maxgap", Number(a.maxgap)));
    cmd := AppendClause(cmd, Clause("ignore.strand", Flag(a.ignoreStrand)));
    cmd := cmd + ")";
    Expand2(CollapseCall(ranges, a).head, CollapseCall(ranges, a).clauses);
  }

  method BuildOverlaps(ra1: string, ra2: string, a: OverlapArgs) returns (cmd: string)
    ensures cmd == Render(OverlapsCall(ra1, ra2, a))
  {
    cmd := "gr.overlaps(ra1 = " + ra1 + ", ra2 = " + ra2;
    cmd := AppendClause(cmd, Clause("thresh", Number(a.thresh)));
    cmd := cmd + ")";
    Expand1(OverlapsCall(ra1, ra2, a).head, OverlapsCall(ra1, ra2, a).clauses);
  }

  /** handleOverlapOperationTool's switch: the command for the named tool,
      or `Unknown tool: <name>`. */
  method BuildCommand(name: string, a: OverlapArgs) returns (r: Result<string, string>)
    ensures r == Command(name, a)
  {
    var tool := ToolNamed(name);
    if tool.None? {
      return Err(UnknownTool(name));
    }
    var cmd: string;
    match tool.value {
      case FindOverlaps => cmd := BuildFindOverlaps(GR(a.query), GR(a.subject), a);
      case In => cmd := BuildStrandOnly("gr.in(query = " + GR(a.query) + ", subject = " + GR(a.subject), a);
      case Match => cmd := BuildStrandOnly("gr.match(x = " + GR(a.x) + ", table = " + GR(a.table), a);
      case Reduce => cmd := BuildReduce(GR(a.ranges), a);
      case Disjoin => cmd := BuildStrandOnly("gr.disjoin(" + GR(a.ranges), a);
      case Setdiff => cmd := BuildStrandOnly("gr.setdiff(x = " + GR(a.x) + ", y = " + GR(a.y), a);
      case Simplify => cmd := "gr.simplify(" + GR(a.ranges) + ")";
      case Collapse => cmd := BuildCollapse(GR(a.ranges), a);
      case Overlaps => cmd := BuildOverlaps(GRL(a.ra1), GRL(a.ra2), a);
    }
    r := Ok(cmd);
  }

  // ---------------------------------------------------------------------
  // Properties

  /** Every name the handler accepts is a declared overlap tool, every
      declared tool is handled, and any other name is refused with
      `Unknown tool: <name>`. */
  lemma HandlesExactlyTools(name: string, a: OverlapArgs)
    ensures Command(name, a).Ok? <==> name in Tools
    ensures name !in Tools ==> Command(name, a) == Err("Unknown tool: " + name)
  {
  }

  /** With every option set, gr.findoverlaps carries maxgap, minoverlap,
      type, select and ignore.strand in that order, the two strings quoted
      and the flag as TRUE/FALSE. */
  lemma FindOverlapsAllOptions(query: string, subject: string, a: OverlapArgs, gap: int, overlap: int, t: string, s: string, b: bool)
    requires a.maxgap == Some(gap) && a.minoverlap == Some(overlap)
    requires a.overlapType == Some(t) && a.select == Some(s) && a.ignoreStrand == Some(b)
    requires t != "" && s != ""
    ensures Render(FindOverlapsCall(query, subject, a))
         == "gr.findoverlaps(query = " + query + ", subject = " + subject
          + Arg("maxgap", IntToString(gap)) + Arg("minoverlap", IntToString(overlap))
          + Arg("type", Quote(t)) + Arg("select", Quote(s)) + Arg("ignore.strand", Logical(b)) + ")"
  {
    Expand5(FindOverlapsCall(query, subject, a).head, FindOverlapsCall(query, subject, a).clauses);
  }

  /** maxgap and minoverlap are kept when 0 (they are tested against
      undefined), while an empty type or select is dropped exactly as an
      undefined one (they are tested for truthiness). */
  lemma FindOverlapsZeroKeptEmptyDropped(query: string, subject: string, a: OverlapArgs)
    requires a.maxgap == Some(0) && a.minoverlap == None && a.ignoreStrand == None
    requires a.overlapType == Some("") && a.select == Some("")
    ensures Render(FindOverlapsCall(query, subject, a))
         == Render(FindOverlapsCall(query, subject, a.(overlapType := None, select := None)))
    ensures Render(FindOverlapsCall(query, subject, a))
         == "gr.findoverlaps(query = " + query + ", subject = " + subject + Arg("maxgap", "0") + ")"
  {
    Expand5(FindOverlapsCall(query, subject, a).head, FindOverlapsCall(query, subject, a).clauses);
    var b := a.(overlapType := None, select := None);
    Expand5(FindOverlapsCall(query, subject, b).head, FindOverlapsCall(query, subject, b).clauses);
  }

  /** gr.reduce writes `by` only for a non-empty list, as a vector of the
      quoted names in input order, before ignore.strand and pad; an empty
      list is dropped like an undefined one. */
  lemma ReduceBy(ranges: string, a: OverlapArgs, names: seq<string>)
    requires a.byNames == Some(names) && a.ignoreStrand == None && a.pad == None
    ensures |names| == 0 ==> Render(ReduceCall(ranges, a)) == Render(ReduceCall(ranges, a.(byNames := None)))
    ensures |names| == 0 ==> Render(ReduceCall(ranges, a)) == "gr.reduce(" + ranges + ")"
    ensures |names| > 0 ==>
      (Render(ReduceCall(ranges, a)) == "gr.reduce(" + ranges + Arg("by", Vector(Quoted(names))) + ")")
  {
    Expand3(ReduceCall(ranges, a).head, ReduceCall(ranges, a).clauses);
    var b := a.(byNames := None);
    Expand3(ReduceCall(ranges, b).head, ReduceCall(ranges, b).clauses);
  }

  /** gr.overlaps writes both arguments as GRangesList calls. */
  lemma OverlapsAsLists(a: OverlapArgs, l1: seq<GRangesList>, l2: seq<GRangesList>)
    requires a.ra1 == Some(l1) && a.ra2 == Some(l2)
    ensures Command("gutils_gr_overlaps", a) == Ok(Render(OverlapsCall(FormatGRangesList(l1), FormatGRangesList(l2), a)))
  {
  }

  /** thresh is written whenever it is defined, 0 included, and is the
      only option of gr.overlaps. */
  lemma OverlapsThresh(ra1: string, ra2: string, a: OverlapArgs)
    ensures a.thresh.Some? ==>
      (Render(OverlapsCall(ra1, ra2, a)) == "gr.overlaps(ra1 = " + ra1 + ", ra2 = " + ra2 + Arg("thresh", IntToString(a.thresh.value)) + ")")
    ensures a.thresh.None? ==>
      (Render(OverlapsCall(ra1, ra2, a)) == "gr.overlaps(ra1 = " + ra1 + ", ra2 = " + ra2 + ")")
  {
    Expand1(OverlapsCall(ra1, ra2, a).head, OverlapsCall(ra1, ra2, a).clauses);
  }
}
