/** The GRangesList tools: the commands `handleGRangesListTool` builds for
    reduce, string, unlist, pivot, eval, expand, shrink, start, end, in and
    bind. */
module GRangesListOperations {
  import opened Js
  import opened Genomic
  import opened Bridge
  import opened RCall

  /** The arguments these handlers read; a field is None when the client
      leaves it undefined. `lists` holds one GRangesList per element. */
  datatype ListArgs = ListArgs(
    grl: Option<seq<GRangesList>>,
    windows: Option<seq<GenomicRange>>,
    lists: Option<seq<seq<GRangesList>>>,
    pad: Option<int>,
    width: Option<int>,
    clip: Option<bool>,
    keepNames: Option<bool>,
    ignoreStrand: Option<bool>,
    sep: Option<string>,
    expr: Option<string>,
    condition: Option<string>)

  /** The names `createGRangesListTools` declares, in its order. */
  const Tools: seq<string> := [
    "gutils_grl_reduce", "gutils_grl_string", "gutils_grl_unlist", "gutils_grl_pivot",
    "gutils_grl_eval", "gutils_grl_expand", "gutils_grl_shrink", "gutils_grl_start",
    "gutils_grl_end", "gutils_grl_in", "gutils_grl_bind"]

  /** `if (x)` on an R expression: written as `expression(x)`. */
  function ExpressionIfTruthy(o: Option<string>): (r: Option<string>)
    ensures r.Some? <==> TruthyText(o)
    ensures r.Some? ==> r.value == "expression(" + o.value + ")"
  {
    if TruthyText(o) then Some("expression(" + o.value + ")") else None
  }

  function ReduceCall(grl: string, a: ListArgs): Call
  {
    Call("grl.reduce(" + grl, [Clause("pad", Number(a.pad)), Clause("clip", Flag(a.clip))])
  }

  function StringCall(grl: string, a: ListArgs): Call
  {
    Call("grl.string(" + grl, [Clause("sep", QuotedIfTruthy(a.sep))])
  }

  function UnlistCall(grl: string, a: ListArgs): Call
  {
    Call("grl.unlist(" + grl, [Clause("keep.names", Flag(a.keepNames))])
  }

  function EvalCall(grl: string, a: ListArgs): Call
  {
    Call("grl.eval(" + grl + ", expr = expression(" + StrText(a.expr) + ")",
      [Clause("condition", ExpressionIfTruthy(a.condition))])
  }

  /** grl.start and grl.end (`fn` is the R function name). */
  function EndpointCall(fn: string, grl: string, a: ListArgs): Call
  {
    Call(fn + "(" + grl, [Clause("width", Number(a.width)), Clause("ignore.strand", Flag(a.ignoreStrand))])
  }

  function InCall(grl: string, windows: string, a: ListArgs): Call
  {
    Call("grl.in(" + grl + ", windows = " + windows, [Clause("ignore.strand", Flag(a.ignoreStrand))])
  }

  /** `lists.map(grl => formatRObject({type: 'GRangesList', data: grl}))`:
      the GRangesList text of each input, in input order. */
  function BoundLists(ls: seq<seq<GRangesList>>): (r: seq<string>)
    ensures |r| == |ls|
  {
    seq(|ls|, i requires 0 <= i < |ls| => FormatGRangesList(ls[i]))
  }

  /** grl.bind: `lists.map(...)` throws when `lists` is undefined. */
  function BindCommand(lists: Option<seq<seq<GRangesList>>>): Result<string, string>
  {
    if lists.None? then Err(MapOfUndefined)
    else Ok("grl.bind(" + Join(BoundLists(lists.value), ", ") + ")")
  }

  /** The cases of handleGRangesListTool's switch. */
  datatype Tool = Reduce | AsString | Unlist | Pivot | Eval | Expand | Shrink | Start | End | In | Bind

  function ToolNamed(name: string): Option<Tool>
  {
    if name == "gutils_grl_reduce" then Some(Reduce)
    else if name == "gutils_grl_string" then Some(AsString)
    else if name == "gutils_grl_unlist" then Some(Unlist)
    else if name == "gutils_grl_pivot" then Some(Pivot)
    else if name == "gutils_grl_eval" then Some(Eval)
    else if name == "gutils_grl_expand" then Some(Expand)
    else if name == "gutils_grl_shrink" then Some(Shrink)
    else if name == "gutils_grl_start" then Some(Start)
    else if name == "gutils_grl_end" then Some(End)
    else if name == "gutils_grl_in" then Some(In)
    else if name == "gutils_grl_bind" then Some(Bind)
    else None
  }

  function CommandFor(t: Tool, a: ListArgs): Result<string, string>
  {
    match t
    case Reduce => Ok(Render(ReduceCall(GRL(a.grl), a)))
    case AsString => Ok(Render(StringCall(GRL(a.grl), a)))
    case Unlist => Ok(Render(UnlistCall(GRL(a.grl), a)))
    case Pivot => Ok("grl.pivot(" + GRL(a.grl) + ")")
    case Eval => Ok(Render(EvalCall(GRL(a.grl), a)))
    case Expand => Ok("grl.expand(" + GRL(a.grl) + ", width = " + IntText(a.width) + ")")
    case Shrink => Ok("grl.shrink(" + GRL(a.grl) + ", width = " + IntText(a.width) + ")")
    case Start => Ok(Render(EndpointCall("grl.start", GRL(a.grl), a)))
    case End => Ok(Render(EndpointCall("grl.end", GRL(a.grl), a)))
    case In => Ok(Render(InCall(GRL(a.grl), GR(a.windows), a)))
    case Bind => BindCommand(a.lists)
  }

  function Command(name: string, a: ListArgs): Result<string, string>
  {
    match ToolNamed(name)
    case None => Err(UnknownTool(name))
    case Some(t) => CommandFor(t, a)
  }

  method BuildReduce(grl: string, a: ListArgs) returns (cmd: string)
    ensures cmd == Render(ReduceCall(grl, a))
  {
    cmd := "grl.reduce(" + grl;
    cmd := AppendClause(cmd, Clause("pad", Number(a.pad)));
    cmd := AppendClause(cmd, Clause("clip", Flag(a.clip)));
    cmd := cmd + ")";
    Expand2(ReduceCall(grl, a).head, ReduceCall(grl, a).clauses);
  }

  method BuildEndpoint(fn: string, grl: string, a: ListArgs) returns (cmd: string)
    ensures cmd == Render(EndpointCall(fn, grl, a))
  {
    cmd := fn + "(" + grl;
    cmd := AppendClause(cmd, Clause("width", Number(a.width)));
    cmd := AppendClause(cmd, Clause("ignore.strand", Flag(a.ignoreStrand)));
    cmd := cmd + ")";
    Expand2(EndpointCall(fn, grl, a).head, EndpointCall(fn, grl, a).clauses);
  }

  /** handleGRangesListTool's switch. */
  method BuildCommand(name: string, a: ListArgs) returns (r: Result<string, string>)
    ensures r == Command(name, a)
  {
    var tool := ToolNamed(name);
    if tool.None? {
      return Err(UnknownTool(name));
    }
    var cmd: string;
    match tool.value {
      case Reduce => cmd := BuildReduce(GRL(a.grl), a);
      case AsString => cmd := BuildOneOption(StringCall(GRL(a.grl), a));
      case Unlist => cmd := BuildOneOption(UnlistCall(GRL(a.grl), a));
      case Pivot => cmd := "grl.pivot(" + GRL(a.grl) + ")";
      case Eval => cmd := BuildOneOption(EvalCall(GRL(a.grl), a));
      case Expand => cmd := "grl.expand(" + GRL(a.grl) + ", width = " + IntText(a.width) + ")";
      case Shrink => cmd := "grl.shrink(" + GRL(a.grl) + ", width = " + IntText(a.width) + ")";
      case Start => cmd := BuildEndpoint("grl.start", GRL(a.grl), a);
      case End => cmd := BuildEndpoint("grl.end", GRL(a.grl), a);
      case In => cmd := BuildOneOption(InCall(GRL(a.grl), GR(a.windows), a));
      case Bind =>
        if a.lists.None? {
          return Err(MapOfUndefined);
        }
        cmd := "grl.bind(" + Join(BoundLists(a.lists.value), ", ") + ")";
    }
    r := Ok(cmd);
  }

  // ---------------------------------------------------------------------
  // Properties

  /** Any name outside the declared list is refused with `Unknown tool:
      <name>`; every declared tool builds a command, except grl.bind
      without `lists`, which fails on `lists.map`. */
  lemma HandlesExactlyTools(name: string, a: ListArgs)
    ensures name !in Tools ==> Command(name, a) == Err("Unknown tool: " + name)
    ensures name in Tools && name != "gutils_grl_bind" ==> Command(name, a).Ok?
    ensures ToolNamed("gutils_grl_bind") == Some(Bind)
    ensures CommandFor(Bind, a).Err? <==> a.lists.None?
  {
  }

  /** grl.reduce writes pad, then clip, each only when defined. */
  lemma ReduceOptions(grl: string, a: ListArgs)
    ensures a.pad.Some? && a.clip.Some? ==>
      (Render(ReduceCall(grl, a)) == "grl.reduce(" + grl + Arg("pad", IntToString(a.pad.value)) + Arg("clip", Logical(a.clip.value)) + ")")
    ensures a.pad.None? && a.clip.None? ==> Render(ReduceCall(grl, a)) == "grl.reduce(" + grl + ")"
  {
    Expand2(ReduceCall(grl, a).head, ReduceCall(grl, a).clauses);
  }

  /** grl.string writes `sep = "<sep>"`, unescaped, only for a non-empty
      separator; an empty one is dropped like an undefined one. */
  lemma StringSep(grl: string, a: ListArgs)
    ensures TruthyText(a.sep) ==> Render(StringCall(grl, a)) == "grl.string(" + grl + Arg("sep", "\"" + a.sep.value + "\"") + ")"
    ensures !TruthyText(a.sep) ==> Render(StringCall(grl, a)) == "grl.string(" + grl + ")"
  {
    Expand1(StringCall(grl, a).head, StringCall(grl, a).clauses);
  }

  /** grl.eval wraps expr in `expression(...)` and adds the condition,
      also wrapped, only when it is non-empty. */
  lemma EvalCondition(grl: string, a: ListArgs, e: string)
    requires a.expr == Some(e)
    ensures TruthyText(a.condition) ==>
      (Render(EvalCall(grl, a)) == "grl.eval(" + grl + ", expr = expression(" + e + ")"
        + Arg("condition", "expression(" + a.condition.value + ")") + ")")
    ensures !TruthyText(a.condition) ==> Render(EvalCall(grl, a)) == "grl.eval(" + grl + ", expr = expression(" + e + ")" + ")"
  {
    Expand1(EvalCall(grl, a).head, EvalCall(grl, a).clauses);
  }

  /** grl.in writes its windows as a GRanges call, not a GRangesList. */
  lemma InWindowsAsGRanges(a: ListArgs, lists: seq<GRangesList>, windows: seq<GenomicRange>)
    requires a.grl == Some(lists) && a.windows == Some(windows)
    ensures ToolNamed("gutils_grl_in") == Some(In)
    ensures CommandFor(In, a) == Ok(Render(InCall(FormatGRangesList(lists), FormatGRanges(windows), a)))
  {
  }

  /** The first list's text leads, the others' follow in order. */
  lemma BoundListsCons(ls: seq<seq<GRangesList>>, first: seq<GRangesList>, rest: seq<seq<GRangesList>>)
    requires ls == [first] + rest
    ensures BoundLists(ls)[0] == FormatGRangesList(first)
    ensures BoundLists(ls)[1..] == BoundLists(rest)
  {
    var texts := BoundLists(ls);
    assert ls[0] == first;
    var tail := BoundLists(rest);
    forall i | 0 <= i < |rest|
      ensures texts[1..][i] == tail[i]
    {
      assert ls[i + 1] == rest[i];
      assert texts[1..][i] == texts[i + 1] == FormatGRangesList(ls[i + 1]);
    }
    assert texts[1..] == tail;
  }

  /** grl.bind lists each input's GRangesList text in input order,
      separated by ", ". */
  lemma BindInOrder(ls: seq<seq<GRangesList>>, first: seq<GRangesList>, rest: seq<seq<GRangesList>>)
    requires ls == [first] + rest
    ensures BindCommand(Some(ls)) == Ok("grl.bind(" + Join(BoundLists(ls), ", ") + ")")
    ensures |rest| == 0 ==> Join(BoundLists(ls), ", ") == FormatGRangesList(first)
    ensures |rest| > 0 ==> Join(BoundLists(ls), ", ") == FormatGRangesList(first) + ", " + Join(BoundLists(rest), ", ")
  {
    BoundListsCons(ls, first, rest);
  }

  /** Every declared tool builds its command or fails only on the `.map`
      of a list argument left undefined. */
  lemma DeclaredToolsBuild(name: string, a: ListArgs)
    requires name in Tools
    ensures Command(name, a).Ok? || Command(name, a) == Err(MapOfUndefined)
  {
    HandlesExactlyTools(name, a);
  }
}
