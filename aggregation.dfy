/** The aggregation tools: the commands `handleAggregationTool` builds for
    gr.val, gr.sum, gr.quantile and gr.breaks. */
module Aggregation {
  import opened Js
  import opened Genomic
  import opened Bridge
  import opened RCall

  /** A column argument the schema declares as a string or an array of
      strings. */
  datatype Names = One(name: string) | Many(names: seq<string>)

  /** The arguments these handlers read; a field is None when the client
      leaves it undefined. Each probability is the text JavaScript writes
      for the number. */
  datatype AggregationArgs = AggregationArgs(
    query: Option<seq<GenomicRange>>,
    target: Option<seq<GenomicRange>>,
    ranges: Option<seq<GenomicRange>>,
    val: Option<Names>,
    byColumns: Option<Names>,
    fun: Option<string>,
    naRm: Option<bool>,
    weighted: Option<bool>,
    mean: Option<bool>,
    ignoreStrand: Option<bool>,
    probs: Option<seq<string>>,
    n: Option<int>)

  /** The names `createAggregationTools` declares, in its order. */
  const Tools: seq<string> := ["gutils_gr_val", "gutils_gr_sum", "gutils_gr_quantile", "gutils_gr_breaks"]

  /** `if (x)`: an undefined or empty string is falsy; an array, even an
      empty one, is truthy. */
  predicate NamesTruthy(o: Option<Names>)
  {
    o.Some? && (o.value.Many? || o.value.name != "")
  }

  /** `${x}`: a string as it is, an array joined with ",", undefined as
      "undefined". */
  function Template(o: Option<Names>): (r: string)
    ensures o == Some(One("")) ==> r == ""
  {
    if o.None? then "undefined"
    else if o.value.One? then o.value.name
    else Join(o.value.names, ",")
  }

  /** `if (x) cmd += `, key = "${x}"``. */
  function QuotedTemplateIfTruthy(o: Option<Names>): (r: Option<string>)
    ensures r.Some? <==> NamesTruthy(o)
    ensures r.Some? ==> r.value == Quote(Template(o))
  {
    if NamesTruthy(o) then Some(Quote(Template(o))) else None
  }

  /** `if (x)`, then an array as `c("a", "b")` and a string as `"a"`. */
  function NamesIfTruthy(o: Option<Names>): (r: Option<string>)
    ensures r.Some? <==> NamesTruthy(o)
    ensures NamesTruthy(o) && o.value.One? ==> r.value == Quote(o.value.name)
    ensures NamesTruthy(o) && o.value.Many? ==> r.value == QuotedVector(o.value.names)
  {
    if !NamesTruthy(o) then None
    else if o.value.One? then Some(Quote(o.value.name))
    else Some(QuotedVector(o.value.names))
  }

  /** `if (args.probs)`: any array, the empty one included, as
      `c(p1, p2)`. */
  function Probabilities(o: Option<seq<string>>): (r: Option<string>)
    ensures r.Some? <==> o.Some?
    ensures o.Some? ==> r.value == Vector(o.value)
  {
    if o.Some? then Some(Vector(o.value)) else None
  }

  function ValCall(query: string, target: string, a: AggregationArgs): Call
  {
    Call("gr.val(query = " + query + ", target = " + target,
      [Clause("val", NamesIfTruthy(a.val)), Clause("by", QuotedTemplateIfTruthy(a.byColumns)),
       Clause("FUN", RawIfTruthy(a.fun)), Clause("na.rm", Flag(a.naRm)),
       Clause("weighted", Flag(a.weighted)), Clause("mean", Flag(a.mean)),
       Clause("ignore.strand", Flag(a.ignoreStrand))])
  }

  function SumCall(ranges: string, a: AggregationArgs): Call
  {
    Call("gr.sum(" + ranges + ", val = " + Quote(Template(a.val)),
      [Clause("by", NamesIfTruthy(a.byColumns)), Clause("na.rm", Flag(a.naRm))])
  }

  function QuantileCall(ranges: string, a: AggregationArgs): Call
  {
    Call("gr.quantile(" + ranges + ", val = " + Quote(Template(a.val)),
      [Clause("probs", Probabilities(a.probs)), Clause("na.rm", Flag(a.naRm))])
  }

  function BreaksCall(ranges: string, a: AggregationArgs): Call
  {
    Call("gr.breaks(" + ranges, [Clause("n", Number(a.n)), Clause("by", QuotedTemplateIfTruthy(a.byColumns))])
  }

  /** The cases of handleAggregationTool's switch. */
  datatype Tool = Val | Sum | Quantile | Breaks

  function ToolNamed(name: string): Option<Tool>
  {
    if name == "gutils_gr_val" then Some(Val)
    else if name == "gutils_gr_sum" then Some(Sum)
    else if name == "gutils_gr_quantile" then Some(Quantile)
    else if name == "gutils_gr_breaks" then Some(Breaks)
    else None
  }

  function CommandFor(t: Tool, a: AggregationArgs): string
  {
    match t
    case Val => Render(ValCall(GR(a.query), GR(a.target), a))
    case Sum => Render(SumCall(GR(a.ranges), a))
    case Quantile => Render(QuantileCall(GR(a.ranges), a))
    case Breaks => Render(BreaksCall(GR(a.ranges), a))
  }

  function Command(name: string, a: AggregationArgs): Result<string, string>
  {
    match ToolNamed(name)
    case None => Err(UnknownTool(name))
    case Some(t) => Ok(CommandFor(t, a))
  }

  method BuildVal(query: string, target: string, a: AggregationArgs) returns (cmd: string)
    ensures cmd == Render(ValCall(query, target, a))
  {
    cmd := "gr.val(query = " + query + ", target = " + target;
    cmd := AppendClause(cmd, Clause("val", NamesIfTruthy(a.val)));
    cmd := AppendClause(cmd, Clause("by", QuotedTemplateIfTruthy(a.byColumns)));
    cmd := AppendClause(cmd, Clause("FUN", RawIfTruthy(a.fun)));
    cmd := AppendClause(cmd, Clause("na.rm", Flag(a.naRm)));
    cmd := AppendClause(cmd, Clause("weighted", Flag(a.weighted)));
    cmd := AppendClause(cmd, Clause("mean", Flag(a.mean)));
    cmd := AppendClause(cmd, Clause("ignore.strand", Flag(a.ignoreStrand)));
    cmd := cmd + ")";
    Expand7(ValCall(query, target, a).head, ValCall(query, target, a).clauses);
  }

  /** gr.sum, gr.quantile and gr.breaks: a head and two optional
      arguments. */
  method BuildTwoOptions(call: Call) returns (cmd: string)
    requires |call.clauses| == 2
    ensures cmd == Render(call)
  {
    cmd := call.head;
    cmd := AppendClause(cmd, call.clauses[0]);
    cmd := AppendClause(cmd, call.clauses[1]);
    cmd := cmd + ")";
    Expand2(call.head, call.clauses);
  }

  /** handleAggregationTool's switch. */
  method BuildCommand(name: string, a: AggregationArgs) returns (r: Result<string, string>)
    ensures r == Command(name, a)
  {
    var tool := ToolNamed(name);
    if tool.None? {
      return Err(UnknownTool(name));
    }
    var cmd: string;
    match tool.value {
      case Val => cmd := BuildVal(GR(a.query), GR(a.target), a);
      case Sum => cmd := BuildTwoOptions(SumCall(GR(a.ranges), a));
      case Quantile => cmd := BuildTwoOptions(QuantileCall(GR(a.ranges), a));
      case Breaks => cmd := BuildTwoOptions(BreaksCall(GR(a.ranges), a));
    }
    r := Ok(cmd);
  }

  // ---------------------------------------------------------------------
  // Properties

  /** Any name outside the declared list is refused with `Unknown tool:
      <name>`; every declared name builds a command. */
  lemma HandlesExactlyTools(name: string, a: AggregationArgs)
    ensures Command(name, a).Ok? <==> name in Tools
    ensures name !in Tools ==> Command(name, a) == Err("Unknown tool: " + name)
  {
  }

  /** gr.val writes its options in the order val, by, FUN, na.rm,
      weighted, mean, ignore.strand; a list of value columns becomes a
      character vector, FUN is written unquoted. */
  lemma ValAllOptions(q: string, t: string, a: AggregationArgs, vals: seq<string>, column: string, fun: string,
                      naRm: bool, weighted: bool, mean: bool, ignore: bool)
    requires a.val == Some(Many(vals)) && a.byColumns == Some(One(column)) && a.fun == Some(fun)
    requires column != "" && fun != ""
    requires a.naRm == Some(naRm) && a.weighted == Some(weighted) && a.mean == Some(mean)
    requires a.ignoreStrand == Some(ignore)
    ensures Render(ValCall(q, t, a)) ==
      "gr.val(query = " + q + ", target = " + t
        + Arg("val", QuotedVector(vals)) + Arg("by", Quote(column)) + Arg("FUN", fun)
        + Arg("na.rm", Logical(naRm)) + Arg("weighted", Logical(weighted))
        + Arg("mean", Logical(mean)) + Arg("ignore.strand", Logical(ignore)) + ")"
  {
    Expand7(ValCall(q, t, a).head, ValCall(q, t, a).clauses);
  }

  /** gr.val with nothing but the two range sets: an empty value column
      name is dropped like an undefined one. */
  lemma ValBare(q: string, t: string, a: AggregationArgs)
    requires a.val == Some(One("")) || a.val.None?
    requires a.byColumns.None? && a.fun.None? && a.naRm.None? && a.weighted.None? && a.mean.None? && a.ignoreStrand.None?
    ensures Render(ValCall(q, t, a)) == "gr.val(query = " + q + ", target = " + t + ")"
  {
    NoOptionsBare(ValCall(q, t, a));
  }

  /** An empty list of value columns is truthy and written as `c()`. */
  lemma ValEmptyColumns(q: string, t: string, a: AggregationArgs)
    requires a.val == Some(Many([]))
    requires a.byColumns.None? && a.fun.None? && a.naRm.None? && a.weighted.None? && a.mean.None? && a.ignoreStrand.None?
    ensures Render(ValCall(q, t, a)) == "gr.val(query = " + q + ", target = " + t + Arg("val", "c()") + ")"
  {
    Expand7(ValCall(q, t, a).head, ValCall(q, t, a).clauses);
    assert QuotedVector([]) == "c()";
  }

  /** gr.sum always writes val between quotes, "undefined" when it is
      missing; by is a vector for a list and a quoted name for a string. */
  lemma SumValAndBy(r: string, a: AggregationArgs)
    requires a.naRm.None?
    ensures a.val.None? && a.byColumns.None? ==> Render(SumCall(r, a)) == "gr.sum(" + r + ", val = \"undefined\")"
    ensures a.byColumns.Some? && a.byColumns.value.Many? ==>
      (Render(SumCall(r, a)) == "gr.sum(" + r + ", val = " + Quote(Template(a.val)) + Arg("by", QuotedVector(a.byColumns.value.names)) + ")")
    ensures a.byColumns.Some? && a.byColumns.value.One? && a.byColumns.value.name != "" ==>
      (Render(SumCall(r, a)) == "gr.sum(" + r + ", val = " + Quote(Template(a.val)) + Arg("by", Quote(a.byColumns.value.name)) + ")")
  {
    Expand2(SumCall(r, a).head, SumCall(r, a).clauses);
  }

  /** gr.quantile writes any given probabilities as a numeric vector, in
      order, before na.rm. */
  lemma QuantileProbs(r: string, a: AggregationArgs, ps: seq<string>, naRm: bool)
    requires a.probs == Some(ps) && a.naRm == Some(naRm)
    ensures Render(QuantileCall(r, a)) ==
      "gr.quantile(" + r + ", val = " + Quote(Template(a.val)) + Arg("probs", Vector(ps)) + Arg("na.rm", Logical(naRm)) + ")"
  {
    Expand2(QuantileCall(r, a).head, QuantileCall(r, a).clauses);
  }

  /** gr.breaks writes n whenever it is defined, 0 included, and by only
      when it is non-empty. */
  lemma BreaksOptions(r: string, a: AggregationArgs, n: int)
    requires a.n == Some(n) && (a.byColumns.None? || a.byColumns == Some(One("")))
    ensures Render(BreaksCall(r, a)) == "gr.breaks(" + r + Arg("n", IntToString(n)) + ")"
  {
    Expand2(BreaksCall(r, a).head, BreaksCall(r, a).clauses);
  }
}
