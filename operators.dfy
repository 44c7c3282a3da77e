/** The operator tools: each names one of gUtils' infix operators, and
    `handleOperatorTool` writes the operands on both sides of it. */
module Operators {
  import opened Js
  import opened Genomic
  import opened Bridge
  import opened RCall

  /** The arguments these handlers read; a field is None when the client
      leaves it undefined. */
  datatype OperatorArgs = OperatorArgs(
    ranges: Option<seq<GenomicRange>>,
    query: Option<seq<GenomicRange>>,
    subject: Option<seq<GenomicRange>>,
    x: Option<seq<GenomicRange>>,
    y: Option<seq<GenomicRange>>,
    territories: Option<seq<GenomicRange>>,
    data: Option<seq<GenomicRange>>,
    width: Option<int>,
    shift: Option<int>,
    expression: Option<string>,
    column: Option<string>,
    fun: Option<string>)

  /** The names `createOperatorTools` declares, in its order. */
  const Tools: seq<string> := [
    "gutils_op_left_side", "gutils_op_right_side", "gutils_op_intersect_agnostic",
    "gutils_op_intersect_specific", "gutils_op_fraction_overlap", "gutils_op_base_overlap",
    "gutils_op_count_overlaps", "gutils_op_set_difference", "gutils_op_shift",
    "gutils_op_query_metadata", "gutils_op_aggregate_metadata"]

  /** The cases of handleOperatorTool's switch. */
  datatype Tool =
    | LeftSide | RightSide | IntersectAgnostic | IntersectSpecific | FractionOverlap
    | BaseOverlap | CountOverlaps | SetDifference | Shift | QueryMetadata | AggregateMetadata

  function ToolNamed(name: string): Option<Tool>
  {
    if name == "gutils_op_left_side" then Some(LeftSide)
    else if name == "gutils_op_right_side" then Some(RightSide)
    else if name == "gutils_op_intersect_agnostic" then Some(IntersectAgnostic)
    else if name == "gutils_op_intersect_specific" then Some(IntersectSpecific)
    else if name == "gutils_op_fraction_overlap" then Some(FractionOverlap)
    else if name == "gutils_op_base_overlap" then Some(BaseOverlap)
    else if name == "gutils_op_count_overlaps" then Some(CountOverlaps)
    else if name == "gutils_op_set_difference" then Some(SetDifference)
    else if name == "gutils_op_shift" then Some(Shift)
    else if name == "gutils_op_query_metadata" then Some(QueryMetadata)
    else if name == "gutils_op_aggregate_metadata" then Some(AggregateMetadata)
    else None
  }

  /** The gUtils operator each tool stands for. */
  function OperatorOf(t: Tool): string
  {
    match t
    case LeftSide => "%(%"
    case RightSide => "%)%"
    case IntersectAgnostic => "%&%"
    case IntersectSpecific => "%&&%"
    case FractionOverlap => "%O%"
    case BaseOverlap => "%o%"
    case CountOverlaps => "%N%"
    case SetDifference => "%-%"
    case Shift => "%+%"
    case QueryMetadata => "%Q%"
    case AggregateMetadata => "%$%"
  }

  /** `${left} op ${right}`. */
  function Infix(left: string, op: string, right: string): string
  {
    left + " " + op + " " + right
  }

  /** `${args.width || 1}`: an undefined or zero width becomes 1. */
  function WidthOrOne(o: Option<int>): (r: int)
    ensures r != 0
    ensures o.Some? && o.value != 0 ==> r == o.value
    ensures o.None? || o.value == 0 ==> r == 1
  {
    if o.Some? && o.value != 0 then o.value else 1
  }

  /** `${args.fun || 'sum'}`: an undefined or empty function name becomes
      sum. */
  function FunOrSum(o: Option<string>): (r: string)
    ensures r != ""
    ensures TruthyText(o) ==> r == o.value
    ensures !TruthyText(o) ==> r == "sum"
  {
    if TruthyText(o) then o.value else "sum"
  }

  /** The right operand of %$%. */
  function AggregateSpec(data: string, a: OperatorArgs): string
  {
    "list(data = " + data + ", column = " + Quote(StrText(a.column)) + ", fun = " + FunOrSum(a.fun) + ")"
  }

  /** The left operand: the query, x, territories or the ranges. */
  function LeftOperand(t: Tool, a: OperatorArgs): string
  {
    match t
    case LeftSide => GR(a.ranges)
    case RightSide => GR(a.ranges)
    case Shift => GR(a.ranges)
    case QueryMetadata => GR(a.ranges)
    case SetDifference => GR(a.x)
    case AggregateMetadata => GR(a.territories)
    case _ => GR(a.query)
  }

  /** The right operand: the width, the shift, the parenthesised
      expression, y, the aggregation spec or the subject. */
  function RightOperand(t: Tool, a: OperatorArgs): string
  {
    match t
    case LeftSide => IntToString(WidthOrOne(a.width))
    case RightSide => IntToString(WidthOrOne(a.width))
    case Shift => IntText(a.shift)
    case QueryMetadata => "(" + StrText(a.expression) + ")"
    case SetDifference => GR(a.y)
    case AggregateMetadata => AggregateSpec(GR(a.data), a)
    case _ => GR(a.subject)
  }

  function CommandFor(t: Tool, a: OperatorArgs): string
  {
    Infix(LeftOperand(t, a), OperatorOf(t), RightOperand(t, a))
  }

  function Command(name: string, a: OperatorArgs): Result<string, string>
  {
    match ToolNamed(name)
    case None => Err(UnknownTool(name))
    case Some(t) => Ok(CommandFor(t, a))
  }

  // ---------------------------------------------------------------------
  // Properties

  /** Any name outside the declared list is refused with `Unknown tool:
      <name>`; every declared name builds a command. */
  lemma HandlesExactlyTools(name: string, a: OperatorArgs)
    ensures Command(name, a).Ok? <==> name in Tools
    ensures name !in Tools ==> Command(name, a) == Err("Unknown tool: " + name)
  {
  }

  /** No two tools share an operator, so the command's operator tells
      which tool built it. */
  lemma OperatorsDistinct(s: Tool, t: Tool)
    ensures OperatorOf(s) == OperatorOf(t) <==> s == t
  {
  }

  /** The five overlap operators put the query on the left and the
      subject on the right, each as a GRanges call. */
  lemma OverlapOperands(t: Tool, a: OperatorArgs, q: seq<GenomicRange>, s: seq<GenomicRange>)
    requires t in {IntersectAgnostic, IntersectSpecific, FractionOverlap, BaseOverlap, CountOverlaps}
    requires a.query == Some(q) && a.subject == Some(s)
    ensures CommandFor(t, a) == FormatGRanges(q) + " " + OperatorOf(t) + " " + FormatGRanges(s)
  {
  }

  /** The side operators write width 1 when the width is undefined or
      zero, and the given width otherwise. */
  lemma SideWidthDefault(t: Tool, a: OperatorArgs)
    requires t == LeftSide || t == RightSide
    ensures a.width.None? || a.width == Some(0) ==> RightOperand(t, a) == "1"
    ensures a.width.Some? && a.width.value != 0 ==> RightOperand(t, a) == IntToString(a.width.value)
  {
  }

  /** %$% aggregates with sum unless a non-empty function name is given;
      the column is always quoted. */
  lemma AggregateDefaultFun(data: string, a: OperatorArgs, col: string)
    requires a.column == Some(col)
    ensures !TruthyText(a.fun) ==>
      (AggregateSpec(data, a) == "list(data = " + data + ", column = " + Quote(col) + ", fun = sum)")
    ensures TruthyText(a.fun) ==>
      (AggregateSpec(data, a) == "list(data = " + data + ", column = " + Quote(col) + ", fun = " + a.fun.value + ")")
  {
  }
}
