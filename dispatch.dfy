/** The server: the registry that maps each tool name to its definition,
    the router that picks a handler module from the tokens of the name, and
    the CallTool handler that wraps every outcome in a response or an MCP
    error. */
module Dispatch {
  import opened Js
  import opened Bridge
  import RCall
  import DataConversion
  import RangeManipulation
  import OverlapOperations
  import GRangesListOperations
  import Aggregation
  import Operators
  import Utilities

  /** The seven handler modules. */
  datatype Handler =
    | DataConversionTools | RangeTools | OverlapTools | GRangesListTools
    | AggregationTools | OperatorTools | UtilityTools

  /** A tool definition as the registry stores it: its name and the module
      that declares it (descriptions and input schemas are not modelled). */
  datatype ToolDef = ToolDef(name: string, handler: Handler)

  /** The call's `args`, as each handler module reads it. */
  datatype ToolArgs = ToolArgs(
    conversion: DataConversion.ConversionArgs,
    ranges: RangeManipulation.RangeArgs,
    overlaps: OverlapOperations.OverlapArgs,
    lists: GRangesListOperations.ListArgs,
    aggregation: Aggregation.AggregationArgs,
    operators: Operators.OperatorArgs,
    utilities: Utilities.UtilityArgs)

  /** An MCP error: a JSON-RPC 2.0 error code and its message. */
  datatype McpError = McpError(code: int, message: string)

  /** One content item: its type and the value handed to
      `JSON.stringify(result, null, 2)`; None stands for an undefined
      result, for which the text is undefined too. */
  datatype Content = Content(kind: string, result: Option<Parsed>)

  datatype Response = Response(content: seq<Content>)

  /** The JSON-RPC 2.0 codes for "method not found" and "internal error"
      (section 5.1 of the JSON-RPC 2.0 specification). */
  const MethodNotFound: int := -32601
  const InternalError: int := -32603

  // ---------------------------------------------------------------------
  // Registry

  /** The definitions of one module's tools, in its order. */
  function Defs(names: seq<string>, h: Handler): (ds: seq<ToolDef>)
    ensures |ds| == |names|
    ensures forall i :: 0 <= i < |names| ==> ds[i].name == names[i] && ds[i].handler == h
  {
    seq(|names|, i requires 0 <= i < |names| => ToolDef(names[i], h))
  }

  /** registerTools' list: every module's tools, modules in creation
      order. */
  const AllTools: seq<ToolDef> :=
    Defs(DataConversion.Tools, DataConversionTools)
    + Defs(RangeManipulation.Tools, RangeTools)
    + Defs(OverlapOperations.Tools, OverlapTools)
    + Defs(GRangesListOperations.Tools, GRangesListTools)
    + Defs(Aggregation.Tools, AggregationTools)
    + Defs(Operators.Tools, OperatorTools)
    + Defs(Utilities.Tools, UtilityTools)

  /** The map after `set(tool.name, tool)` for each definition in turn. */
  function Registry(m: map<string, ToolDef>, defs: seq<ToolDef>): map<string, ToolDef>
    decreases |defs|
  {
    if |defs| == 0 then m
    else
      var last := defs[|defs| - 1];
      Registry(m, defs[..|defs| - 1])[last.name := last]
  }

  /** The names of some definitions. */
  function NameSet(defs: seq<ToolDef>): set<string>
  {
    set i | 0 <= i < |defs| :: defs[i].name
  }

  /** The registry's keys are the names registered, nothing else. */
  lemma {:induction false} RegistryKeys(m: map<string, ToolDef>, defs: seq<ToolDef>)
    ensures Registry(m, defs).Keys == m.Keys + NameSet(defs)
    decreases |defs|
  {
    if |defs| > 0 {
      var init := defs[..|defs| - 1];
      RegistryKeys(m, init);
      assert NameSet(defs) == NameSet(init) + {defs[|defs| - 1].name} by {
        forall k | k in NameSet(defs)
          ensures k in NameSet(init) + {defs[|defs| - 1].name}
        {
          var i :| 0 <= i < |defs| && defs[i].name == k;
          if i < |defs| - 1 {
            assert init[i] == defs[i];
          }
        }
        forall k | k in NameSet(init)
          ensures k in NameSet(defs)
        {
          var i :| 0 <= i < |init| && init[i].name == k;
          assert defs[i] == init[i];
        }
      }
    }
  }

  /** So the registry has one entry per distinct name: a duplicate name
      adds no entry. */
  lemma RegistrySize(defs: seq<ToolDef>)
    ensures |Registry(map[], defs).Keys| == |NameSet(defs)|
  {
    var empty: map<string, ToolDef> := map[];
    RegistryKeys(empty, defs);
    assert empty.Keys == {};
  }

  /** The definition stored under a name is its last definition: a later
      duplicate overwrites an earlier one. */
  lemma {:induction false} RegistryLastWins(m: map<string, ToolDef>, defs: seq<ToolDef>, j: nat)
    requires j < |defs|
    requires forall l :: j < l < |defs| ==> defs[l].name != defs[j].name
    ensures defs[j].name in Registry(m, defs)
    ensures Registry(m, defs)[defs[j].name] == defs[j]
    decreases |defs|
  {
    if j < |defs| - 1 {
      var init := defs[..|defs| - 1];
      assert init[j] == defs[j];
      forall l | j < l < |init|
        ensures init[l].name != init[j].name
      {
        assert init[l] == defs[l];
      }
      RegistryLastWins(m, init, j);
    }
  }

  /** An entry no definition names keeps its value. */
  lemma {:induction false} RegistryKeepsOthers(m: map<string, ToolDef>, defs: seq<ToolDef>, k: string)
    requires k in m
    requires forall i :: 0 <= i < |defs| ==> defs[i].name != k
    ensures k in Registry(m, defs) && Registry(m, defs)[k] == m[k]
    decreases |defs|
  {
    if |defs| > 0 {
      RegistryKeepsOthers(m, defs[..|defs| - 1], k);
    }
  }

  // ---------------------------------------------------------------------
  // Routing

  /** `parts[i]`, undefined past the end. */
  function Piece(parts: seq<string>, i: nat): (r: Option<string>)
    ensures r.Some? <==> i < |parts|
    ensures r.Some? ==> r.value == parts[i]
  {
    if i < |parts| then Some(parts[i]) else None
  }

  /** `name.split('_')[1]`. */
  function Category(name: string): Option<string>
  {
    Piece(Split(name, '_'), 1)
  }

  /** `name.split('_')[2]`. */
  function Operation(name: string): Option<string>
  {
    Piece(Split(name, '_'), 2)
  }

  const ConversionCategories: seq<string> := ["gr2dt", "dt2gr", "parse", "seg2gr", "si2gr"]
  const UtilityCategories: seq<string> := ["grbind", "rrbind", "hg"]

  /** The four lists the `gr` category checks, in the order it checks
      them. */
  const RangeOps: seq<string> := [
    "start", "end", "mid", "flipstrand", "stripstrand", "trim", "pairflip", "noval", "tile", "rand", "sample"]
  const OverlapOps: seq<string> := [
    "findoverlaps", "in", "match", "reduce", "disjoin", "setdiff", "simplify", "collapse", "overlaps"]
  const AggregationOps: seq<string> := ["val", "sum", "quantile", "breaks"]
  const UtilityOps: seq<string> := ["dist", "duplicated", "flatten", "dice", "fix", "fixseq", "chr", "nochr", "sub"]

  /** The `gr` case as written: the first list holding the operation picks
      the handler; an operation in none of them picks none. */
  function GrHandler(op: Option<string>): Option<Handler>
  {
    if op.Some? && op.value in RangeOps then Some(RangeTools)
    else if op.Some? && op.value in OverlapOps then Some(OverlapTools)
    else if op.Some? && op.value in AggregationOps then Some(AggregationTools)
    else if op.Some? && op.value in UtilityOps then Some(UtilityTools)
    else None
  }

  /** The `gr` case with gr.string sent to the data conversion module that
      declares it. */
  function GrHandlerFixed(op: Option<string>): Option<Handler>
  {
    if op == Some("string") then Some(DataConversionTools) else GrHandler(op)
  }

  /** The switch on the category, given the choice the `gr` case makes. An
      unknown category is an error; Ok(None) means no handler runs. */
  function RouteBy(category: Option<string>, gr: Option<Handler>): Result<Option<Handler>, string>
  {
    if category.Some? && category.value in ConversionCategories then Ok(Some(DataConversionTools))
    else if category == Some("gr") then Ok(gr)
    else if category == Some("grl") then Ok(Some(GRangesListTools))
    else if category == Some("op") then Ok(Some(OperatorTools))
    else if category.Some? && category.value in UtilityCategories then Ok(Some(UtilityTools))
    else Err("Unknown tool category: " + StrText(category))
  }

  /** The routing as written. */
  function Route(name: string): Result<Option<Handler>, string>
  {
    RouteBy(Category(name), GrHandler(Operation(name)))
  }

  /** The routing the server uses: as written, except for gr.string. */
  function RouteFixed(name: string): Result<Option<Handler>, string>
  {
    RouteBy(Category(name), GrHandlerFixed(Operation(name)))
  }

  /** The category of `gutils_<c>_<rest>` is c. */
  lemma CategoryToken(name: string, c: string, rest: string)
    requires name == "gutils_" + c + "_" + rest && '_' !in c
    ensures Category(name) == Some(c)
  {
    assert name == "gutils" + ['_'] + (c + ['_'] + rest);
    SplitCons("gutils", c + ['_'] + rest, '_');
    SplitCons(c, rest, '_');
  }

  /** The tokens of `gutils_<c>_<rest>`: the category is c, and the
      operation is the first token of rest. */
  lemma NameTokens(name: string, c: string, rest: string)
    requires name == "gutils_" + c + "_" + rest && '_' !in c
    ensures Category(name) == Some(c)
    ensures Operation(name) == Some(Split(rest, '_')[0])
  {
    assert name == "gutils" + ['_'] + (c + ['_'] + rest);
    SplitCons("gutils", c + ['_'] + rest, '_');
    SplitCons(c, rest, '_');
    assert Split(name, '_') == ["gutils"] + ([c] + Split(rest, '_'));
  }

  /** The tokens of `gutils_<c>`: the category is c and there is no
      operation. */
  lemma ShortNameTokens(name: string, c: string)
    requires name == "gutils_" + c && '_' !in c
    ensures Category(name) == Some(c) && Operation(name).None?
  {
    assert name == "gutils" + ['_'] + c;
    Split2("gutils", c, '_');
  }

  /** The names `<prefix><op>` for each op, in order. */
  function Prefixed(prefix: string, ops: seq<string>): (r: seq<string>)
    ensures |r| == |ops|
    ensures forall i :: 0 <= i < |ops| ==> r[i] == prefix + ops[i]
  {
    seq(|ops|, i requires 0 <= i < |ops| => prefix + ops[i])
  }

  /** A `gr` name routes by its operation token: to the handler whose
      list holds it, and, as written, to no handler for `string`. */
  lemma GrNameRoutes(op: string)
    requires '_' !in op
    ensures Route("gutils_gr_" + op) == Ok(GrHandler(Some(op)))
    ensures RouteFixed("gutils_gr_" + op) == Ok(GrHandlerFixed(Some(op)))
  {
    assert "gutils_gr_" + op == "gutils_" + "gr" + "_" + op;
    NameTokens("gutils_gr_" + op, "gr", op);
  }

  /** No operation is in two of the `gr` lists, so the order in which
      they are checked does not matter. */
  lemma OpListsDisjoint(op: string)
    ensures op in RangeOps ==> op !in OverlapOps && op !in AggregationOps && op !in UtilityOps
    ensures op in OverlapOps ==> op !in AggregationOps && op !in UtilityOps
    ensures op in AggregationOps ==> op !in UtilityOps
  {
  }

  /** `string` is in none of the `gr` lists. */
  lemma StringInNoList()
    ensures GrHandler(Some("string")).None?
  {
  }

  /** The range module declares exactly `gutils_gr_<op>` for the range
      list, in order. */
  lemma RangeNames()
    ensures RangeManipulation.Tools == Prefixed("gutils_gr_", RangeOps)
  {
    var p := Prefixed("gutils_gr_", RangeOps);
    assert p[0] == "gutils_gr_start";
    assert p[1] == "gutils_gr_end";
    assert p[2] == "gutils_gr_mid";
    assert p[3] == "gutils_gr_flipstrand";
    assert p[4] == "gutils_gr_stripstrand";
    assert p[5] == "gutils_gr_trim";
    assert p[6] == "gutils_gr_pairflip";
    assert p[7] == "gutils_gr_noval";
    assert p[8] == "gutils_gr_tile";
    assert p[9] == "gutils_gr_rand";
    assert p[10] == "gutils_gr_sample";
  }

  /** The overlap module declares exactly `gutils_gr_<op>` for the
      overlap list, in order. */
  lemma OverlapNames()
    ensures OverlapOperations.Tools == Prefixed("gutils_gr_", OverlapOps)
  {
    var p := Prefixed("gutils_gr_", OverlapOps);
    assert p[0] == "gutils_gr_findoverlaps";
    assert p[1] == "gutils_gr_in";
    assert p[2] == "gutils_gr_match";
    assert p[3] == "gutils_gr_reduce";
    assert p[4] == "gutils_gr_disjoin";
    assert p[5] == "gutils_gr_setdiff";
    assert p[6] == "gutils_gr_simplify";
    assert p[7] == "gutils_gr_collapse";
    assert p[8] == "gutils_gr_overlaps";
  }

  /** The aggregation module declares exactly `gutils_gr_<op>` for the
      aggregation list, in order. */
  lemma AggregationNames()
    ensures Aggregation.Tools == Prefixed("gutils_gr_", AggregationOps)
  {
    var p := Prefixed("gutils_gr_", AggregationOps);
    assert p[0] == "gutils_gr_val";
    assert p[1] == "gutils_gr_sum";
    assert p[2] == "gutils_gr_quantile";
    assert p[3] == "gutils_gr_breaks";
  }

  /** Every name of the form `gutils_gr_<op>` with op from one of the
      lists reaches the handler for that list, as written and fixed. */
  lemma {:induction false} PrefixedRoutes(ops: seq<string>, h: Handler)
    requires forall i :: 0 <= i < |ops| ==> '_' !in ops[i] && GrHandler(Some(ops[i])) == Some(h)
    ensures forall n :: n in Prefixed("gutils_gr_", ops) ==> Route(n) == Ok(Some(h)) && RouteFixed(n) == Ok(Some(h))
  {
    var names := Prefixed("gutils_gr_", ops);
    forall n | n in names
      ensures Route(n) == Ok(Some(h)) && RouteFixed(n) == Ok(Some(h))
    {
      var i :| 0 <= i < |names| && names[i] == n;
      GrNameRoutes(ops[i]);
      StringInNoList();
    }
  }

  /** No operation in the lists has an underscore. */
  lemma OpsAreTokens()
    ensures forall i :: 0 <= i < |RangeOps| ==> '_' !in RangeOps[i]
    ensures forall i :: 0 <= i < |OverlapOps| ==> '_' !in OverlapOps[i]
    ensures forall i :: 0 <= i < |AggregationOps| ==> '_' !in AggregationOps[i]
  {
  }

  /** Every range, overlap and aggregation tool reaches its own module. */
  lemma GrToolsRouted()
    ensures forall n :: n in RangeManipulation.Tools ==> Route(n) == Ok(Some(RangeTools)) && RouteFixed(n) == Ok(Some(RangeTools))
    ensures forall n :: n in OverlapOperations.Tools ==> Route(n) == Ok(Some(OverlapTools)) && RouteFixed(n) == Ok(Some(OverlapTools))
    ensures forall n :: n in Aggregation.Tools ==> Route(n) == Ok(Some(AggregationTools)) && RouteFixed(n) == Ok(Some(AggregationTools))
  {
    OpsAreTokens();
    RangeNames();
    OverlapNames();
    AggregationNames();
    forall i | 0 <= i < |OverlapOps|
      ensures GrHandler(Some(OverlapOps[i])) == Some(OverlapTools)
    {
      OpListsDisjoint(OverlapOps[i]);
    }
    forall i | 0 <= i < |AggregationOps|
      ensures GrHandler(Some(AggregationOps[i])) == Some(AggregationTools)
    {
      OpListsDisjoint(AggregationOps[i]);
    }
    PrefixedRoutes(RangeOps, RangeTools);
    PrefixedRoutes(OverlapOps, OverlapTools);
    PrefixedRoutes(AggregationOps, AggregationTools);
  }

  /** A name `gutils_<c>_<rest>` in a category other than `gr` routes by
      its category alone, as written and fixed. */
  lemma {:induction false} CategoryRoutes(prefix: string, c: string, ops: seq<string>, h: Handler)
    requires prefix == "gutils_" + c + "_" && '_' !in c && c != "gr"
    requires RouteBy(Some(c), None) == Ok(Some(h))
    ensures forall n :: n in Prefixed(prefix, ops) ==> Route(n) == Ok(Some(h)) && RouteFixed(n) == Ok(Some(h))
  {
    var names := Prefixed(prefix, ops);
    forall n | n in names
      ensures Route(n) == Ok(Some(h)) && RouteFixed(n) == Ok(Some(h))
    {
      var i :| 0 <= i < |names| && names[i] == n;
      CategoryToken(n, c, ops[i]);
    }
  }

  /** A one-token name `gutils_<c>` routes by its category alone. */
  lemma {:induction false} ShortNameRoutes(cs: seq<string>, h: Handler)
    requires forall i :: 0 <= i < |cs| ==> '_' !in cs[i] && cs[i] != "gr" && RouteBy(Some(cs[i]), None) == Ok(Some(h))
    ensures forall n :: n in Prefixed("gutils_", cs) ==> Route(n) == Ok(Some(h)) && RouteFixed(n) == Ok(Some(h))
  {
    var names := Prefixed("gutils_", cs);
    forall n | n in names
      ensures Route(n) == Ok(Some(h)) && RouteFixed(n) == Ok(Some(h))
    {
      var i :| 0 <= i < |names| && names[i] == n;
      ShortNameTokens(n, cs[i]);
    }
  }

  const ListOps: seq<string> := [
    "reduce", "string", "unlist", "pivot", "eval", "expand", "shrink", "start", "end", "in", "bind"]

  /** The GRangesList module declares exactly `gutils_grl_<op>` for these
      operations, in order. */
  lemma ListNames()
    ensures GRangesListOperations.Tools == Prefixed("gutils_grl_", ListOps)
  {
    var p := Prefixed("gutils_grl_", ListOps);
    assert p[0] == "gutils_grl_reduce";
    assert p[1] == "gutils_grl_string";
    assert p[2] == "gutils_grl_unlist";
    assert p[3] == "gutils_grl_pivot";
    assert p[4] == "gutils_grl_eval";
    assert p[5] == "gutils_grl_expand";
    assert p[6] == "gutils_grl_shrink";
    assert p[7] == "gutils_grl_start";
    assert p[8] == "gutils_grl_end";
    assert p[9] == "gutils_grl_in";
    assert p[10] == "gutils_grl_bind";
  }

  const OperatorOps: seq<string> := [
    "left_side", "right_side", "intersect_agnostic", "intersect_specific", "fraction_overlap",
    "base_overlap", "count_overlaps", "set_difference", "shift", "query_metadata", "aggregate_metadata"]

  /** The operator module declares `gutils_op_<op>` for these operations,
      in order (split in four for the solver's sake). */
  lemma OperatorNames0()
    ensures |Operators.Tools| == |OperatorOps|
    ensures forall i :: 0 <= i < 3 ==> Operators.Tools[i] == "gutils_op_" + OperatorOps[i]
  {
    var p := Operators.Tools;
    assert p[0] == "gutils_op_" + "left_side";
    assert p[1] == "gutils_op_" + "right_side";
    assert p[2] == "gutils_op_" + "intersect_agnostic";
  }

  lemma OperatorNames1()
    ensures forall i :: 3 <= i < 6 ==> Operators.Tools[i] == "gutils_op_" + OperatorOps[i]
  {
    var p := Operators.Tools;
    assert p[3] == "gutils_op_" + "intersect_specific";
    assert p[4] == "gutils_op_" + "fraction_overlap";
    assert p[5] == "gutils_op_" + "base_overlap";
  }

  lemma OperatorNames2()
    ensures forall i :: 6 <= i < 9 ==> Operators.Tools[i] == "gutils_op_" + OperatorOps[i]
  {
    var p := Operators.Tools;
    assert p[6] == "gutils_op_" + "count_overlaps";
    assert p[7] == "gutils_op_" + "set_difference";
    assert p[8] == "gutils_op_" + "shift";
  }

  lemma OperatorNames3()
    ensures forall i :: 9 <= i < 11 ==> Operators.Tools[i] == "gutils_op_" + OperatorOps[i]
  {
    var p := Operators.Tools;
    assert p[9] == "gutils_op_" + "query_metadata";
    assert p[10] == "gutils_op_" + "aggregate_metadata";
  }

  /** The operator module declares exactly `gutils_op_<op>` for these
      operations, in order. */
  lemma OperatorNames()
    ensures Operators.Tools == Prefixed("gutils_op_", OperatorOps)
  {
    OperatorNames0();
    OperatorNames1();
    OperatorNames2();
    OperatorNames3();
  }

  /** Every GRangesList tool reaches its own module. */
  lemma ListToolsRouted()
    ensures forall n :: n in GRangesListOperations.Tools ==> Route(n) == Ok(Some(GRangesListTools)) && RouteFixed(n) == Ok(Some(GRangesListTools))
  {
    ListNames();
    CategoryRoutes("gutils_grl_", "grl", ListOps, GRangesListTools);
  }

  /** Every operator tool reaches its own module. */
  lemma OperatorToolsRouted()
    ensures forall n :: n in Operators.Tools ==> Route(n) == Ok(Some(OperatorTools)) && RouteFixed(n) == Ok(Some(OperatorTools))
  {
    OperatorNames();
    CategoryRoutes("gutils_op_", "op", OperatorOps, OperatorTools);
  }

  /** The `gr` operations of the utilities module, in its declaration
      order. */
  const UtilityGrOps: seq<string> := ["fix", "fixseq", "chr", "nochr", "sub", "dice", "dist", "duplicated", "flatten"]

  /** Each of them is a token that the `gr` case sends to the utilities
      module. */
  lemma UtilityGrOpsHandled()
    ensures forall i :: 0 <= i < |UtilityGrOps| ==> '_' !in UtilityGrOps[i] && GrHandler(Some(UtilityGrOps[i])) == Some(UtilityTools)
  {
    forall i | 0 <= i < |UtilityGrOps|
      ensures '_' !in UtilityGrOps[i] && GrHandler(Some(UtilityGrOps[i])) == Some(UtilityTools)
    {
      assert UtilityGrOps[i] in UtilityOps;
      OpListsDisjoint(UtilityGrOps[i]);
    }
  }

  /** The utilities module's names: hg_seqlengths, then the `gr` ones ... */
  lemma UtilityNamesHead()
    ensures |Utilities.Tools| == 12
    ensures Utilities.Tools[0] == "gutils_hg_" + "seqlengths"
    ensures forall i :: 1 <= i < 5 ==> Utilities.Tools[i] == "gutils_gr_" + UtilityGrOps[i - 1]
  {
    var p := Utilities.Tools;
    assert p[1] == "gutils_gr_" + "fix";
    assert p[2] == "gutils_gr_" + "fixseq";
    assert p[3] == "gutils_gr_" + "chr";
    assert p[4] == "gutils_gr_" + "nochr";
  }

  /** ... the rest of the `gr` ones, and the two bind tools. */
  lemma UtilityNamesTail()
    ensures forall i :: 5 <= i < 10 ==> Utilities.Tools[i] == "gutils_gr_" + UtilityGrOps[i - 1]
    ensures Utilities.Tools[10] == "gutils_" + "grbind"
    ensures Utilities.Tools[11] == "gutils_" + "rrbind"
  {
    var p := Utilities.Tools;
    assert p[5] == "gutils_gr_" + "sub";
    assert p[6] == "gutils_gr_" + "dice";
    assert p[7] == "gutils_gr_" + "dist";
    assert p[8] == "gutils_gr_" + "duplicated";
    assert p[9] == "gutils_gr_" + "flatten";
  }

  /** Every utilities tool reaches the utilities module: hg_seqlengths by
      its category, the `gr` ones through the last list, the bind tools by
      their one token. */
  lemma UtilityToolsRouted()
    ensures forall n :: n in Utilities.Tools ==> Route(n) == Ok(Some(UtilityTools)) && RouteFixed(n) == Ok(Some(UtilityTools))
  {
    UtilityNamesHead();
    UtilityNamesTail();
    UtilityGrOpsHandled();
    PrefixedRoutes(UtilityGrOps, UtilityTools);
    CategoryRoutes("gutils_hg_", "hg", ["seqlengths"], UtilityTools);
    ShortNameRoutes(["grbind", "rrbind"], UtilityTools);
    var p := Utilities.Tools;
    forall n | n in p
      ensures Route(n) == Ok(Some(UtilityTools)) && RouteFixed(n) == Ok(Some(UtilityTools))
    {
      var i :| 0 <= i < |p| && p[i] == n;
      if i == 0 {
        assert n == Prefixed("gutils_hg_", ["seqlengths"])[0];
      } else if i < 10 {
        assert n == Prefixed("gutils_gr_", UtilityGrOps)[i - 1];
      } else {
        assert n == Prefixed("gutils_", ["grbind", "rrbind"])[i - 10];
      }
    }
  }

  /** The data conversion module's names: five one-token ones, the two
      parsers ... */
  lemma ConversionNamesHead()
    ensures |DataConversion.Tools| == 7
    ensures DataConversion.Tools[0] == "gutils_" + "gr2dt"
    ensures DataConversion.Tools[1] == "gutils_" + "dt2gr"
    ensures DataConversion.Tools[2] == "gutils_" + "parse" + "_" + "gr"
    ensures DataConversion.Tools[3] == "gutils_" + "parse" + "_" + "grl"
  {
  }

  /** ... and gr.string, which is named like a `gr` tool. */
  lemma ConversionNamesTail()
    ensures DataConversion.Tools[4] == "gutils_" + "seg2gr"
    ensures DataConversion.Tools[5] == "gutils_" + "si2gr"
    ensures DataConversion.Tools[6] == "gutils_gr_" + "string"
  {
  }

  /** Every data conversion tool but gr.string reaches its module as
      written; with the fix, all of them do. */
  lemma ConversionToolsRouted()
    ensures forall n :: n in DataConversion.Tools ==> RouteFixed(n) == Ok(Some(DataConversionTools))
    ensures forall n :: n in DataConversion.Tools && n != "gutils_gr_string" ==> Route(n) == Ok(Some(DataConversionTools))
  {
    ConversionNamesHead();
    ConversionNamesTail();
    var p := DataConversion.Tools;
    forall n | n in p
      ensures RouteFixed(n) == Ok(Some(DataConversionTools))
      ensures n != "gutils_gr_string" ==> Route(n) == Ok(Some(DataConversionTools))
    {
      var i :| 0 <= i < |p| && p[i] == n;
      if i == 0 {
        ShortNameTokens(n, "gr2dt");
      } else if i == 1 {
        ShortNameTokens(n, "dt2gr");
      } else if i == 2 {
        CategoryToken(n, "parse", "gr");
      } else if i == 3 {
        CategoryToken(n, "parse", "grl");
      } else if i == 4 {
        ShortNameTokens(n, "seg2gr");
      } else if i == 5 {
        ShortNameTokens(n, "si2gr");
      } else {
        GrNameRoutes("string");
      }
    }
  }

  /** A definition in one module's list has that module's handler and one
      of its names. */
  lemma DefsMember(d: ToolDef, names: seq<string>, h: Handler)
    requires d in Defs(names, h)
    ensures d.name in names && d.handler == h
  {
    var ds := Defs(names, h);
    var i :| 0 <= i < |ds| && ds[i] == d;
  }

  /** With gr.string sent to its module, every registered definition is
      routed to the module that declares it; as written, every one but
      gr.string is. */
  lemma AllToolsRouted()
    ensures forall d :: d in AllTools ==> RouteFixed(d.name) == Ok(Some(d.handler))
    ensures forall d :: d in AllTools && d.name != "gutils_gr_string" ==> Route(d.name) == Ok(Some(d.handler))
  {
    ConversionToolsRouted();
    GrToolsRouted();
    ListToolsRouted();
    OperatorToolsRouted();
    UtilityToolsRouted();
    forall d | d in AllTools
      ensures RouteFixed(d.name) == Ok(Some(d.handler))
      ensures d.name != "gutils_gr_string" ==> Route(d.name) == Ok(Some(d.handler))
    {
      if d in Defs(DataConversion.Tools, DataConversionTools) {
        DefsMember(d, DataConversion.Tools, DataConversionTools);
      } else if d in Defs(RangeManipulation.Tools, RangeTools) {
        DefsMember(d, RangeManipulation.Tools, RangeTools);
      } else if d in Defs(OverlapOperations.Tools, OverlapTools) {
        DefsMember(d, OverlapOperations.Tools, OverlapTools);
      } else if d in Defs(GRangesListOperations.Tools, GRangesListTools) {
        DefsMember(d, GRangesListOperations.Tools, GRangesListTools);
      } else if d in Defs(Aggregation.Tools, AggregationTools) {
        DefsMember(d, Aggregation.Tools, AggregationTools);
      } else if d in Defs(Operators.Tools, OperatorTools) {
        DefsMember(d, Operators.Tools, OperatorTools);
      } else {
        DefsMember(d, Utilities.Tools, UtilityTools);
      }
    }
  }

  /** The finding, as written: gr.string is registered by the data
      conversion module, yet the `gr` case finds `string` in none of its
      lists, so no handler runs and the call succeeds with an undefined
      result. */
  lemma GrStringUnrouted()
    ensures "gutils_gr_string" in DataConversion.Tools
    ensures Route("gutils_gr_string") == Ok(None)
  {
    GrNameRoutes("string");
    StringInNoList();
    assert "gutils_gr_" + "string" == "gutils_gr_string";
  }

  /** The fix: gr.string reaches the data conversion module. */
  lemma GrStringRoutedWhenFixed()
    ensures RouteFixed("gutils_gr_string") == Ok(Some(DataConversionTools))
  {
    GrNameRoutes("string");
    assert "gutils_gr_" + "string" == "gutils_gr_string";
  }

  /** The fix changes nothing but gr.string: the two routings differ
      exactly on names whose category is `gr` and operation `string`. */
  lemma RoutesDifferOnlyOnGrString(name: string)
    ensures Route(name) != RouteFixed(name) <==> Category(name) == Some("gr") && Operation(name) == Some("string")
  {
    StringInNoList();
  }

  // ---------------------------------------------------------------------
  // Calling a tool

  /** The command the handler module builds for a call. */
  function HandlerCommand(h: Handler, name: string, args: ToolArgs): Result<string, string>
  {
    match h
    case DataConversionTools => DataConversion.Command(name, args.conversion)
    case RangeTools => RangeManipulation.Command(name, args.ranges)
    case OverlapTools => OverlapOperations.Command(name, args.overlaps)
    case GRangesListTools => GRangesListOperations.Command(name, args.lists)
    case AggregationTools => Aggregation.Command(name, args.aggregation)
    case OperatorTools => Operators.Command(name, args.operators)
    case UtilityTools => Utilities.Command(name, args.utilities)
  }

  /** Every registered tool is known to the module it is routed to: its
      command is built, or it fails only on a list argument left
      undefined, never as an unknown tool. */
  lemma RegisteredToolsKnown(d: ToolDef, args: ToolArgs)
    requires d in AllTools
    ensures HandlerCommand(d.handler, d.name, args).Ok? || HandlerCommand(d.handler, d.name, args) == Err(RCall.MapOfUndefined)
  {
    if d in Defs(DataConversion.Tools, DataConversionTools) {
      DefsMember(d, DataConversion.Tools, DataConversionTools);
    } else if d in Defs(RangeManipulation.Tools, RangeTools) {
      DefsMember(d, RangeManipulation.Tools, RangeTools);
    } else if d in Defs(OverlapOperations.Tools, OverlapTools) {
      DefsMember(d, OverlapOperations.Tools, OverlapTools);
    } else if d in Defs(GRangesListOperations.Tools, GRangesListTools) {
      DefsMember(d, GRangesListOperations.Tools, GRangesListTools);
    } else if d in Defs(Aggregation.Tools, AggregationTools) {
      DefsMember(d, Aggregation.Tools, AggregationTools);
    } else if d in Defs(Operators.Tools, OperatorTools) {
      DefsMember(d, Operators.Tools, OperatorTools);
    } else {
      DefsMember(d, Utilities.Tools, UtilityTools);
    }
    HandlerKnowsItsTools(d.handler, d.name, args);
  }

  /** A handler given one of its own declared names builds a command or
      fails only on an undefined list argument. */
  lemma HandlerKnowsItsTools(h: Handler, name: string, args: ToolArgs)
    requires || (h == DataConversionTools && name in DataConversion.Tools)
             || (h == RangeTools && name in RangeManipulation.Tools)
             || (h == OverlapTools && name in OverlapOperations.Tools)
             || (h == GRangesListTools && name in GRangesListOperations.Tools)
             || (h == AggregationTools && name in Aggregation.Tools)
             || (h == OperatorTools && name in Operators.Tools)
             || (h == UtilityTools && name in Utilities.Tools)
    ensures HandlerCommand(h, name, args).Ok? || HandlerCommand(h, name, args) == Err(RCall.MapOfUndefined)
  {
    match h
    case DataConversionTools => DataConversion.DeclaredToolsBuild(name, args.conversion);
    case RangeTools => RangeManipulation.HandlesExactlyTools(name, args.ranges);
    case OverlapTools => OverlapOperations.HandlesExactlyTools(name, args.overlaps);
    case GRangesListTools => GRangesListOperations.DeclaredToolsBuild(name, args.lists);
    case AggregationTools => Aggregation.HandlesExactlyTools(name, args.aggregation);
    case OperatorTools => Operators.HandlesExactlyTools(name, args.operators);
    case UtilityTools => Utilities.DeclaredToolsBuild(name, args.utilities);
  }

  /** `Failed to execute <name>: <message>`. */
  function Failed(name: string, message: string): McpError
  {
    McpError(InternalError, "Failed to execute " + name + ": " + message)
  }

  /** The success envelope: one text item holding the result. */
  function Envelope(result: Option<Parsed>): Response
  {
    Response([Content("text", result)])
  }

  /** What a call of a registered tool comes to, given the routing, the
      command each handler would build, the interpreter and whether the
      bridge was already initialized: an unknown category fails; no
      handler answers with an undefined result; a handler first
      initializes the bridge, then builds its command and parses what the
      interpreter prints. Every failure on the way is reported as an
      internal error naming the tool. */
  function Outcome(route: Result<Option<Handler>, string>, name: string, build: Handler -> Result<string, string>,
                   exec: string -> RExecutionResult, wasInitialized: bool): Result<Response, McpError>
    requires forall c :: Parsable(exec(c))
  {
    match route
    case Err(message) => Err(Failed(name, message))
    case Ok(None) => Ok(Envelope(None))
    case Ok(Some(h)) =>
      if !wasInitialized && !exec(LoadScript).success then Err(Failed(name, InitError(exec(LoadScript))))
      else
        match build(h)
        case Err(message) => Err(Failed(name, message))
        case Ok(command) =>
          match ParseROutput(exec(command))
          case Err(message) => Err(Failed(name, message))
          case Ok(p) => Ok(Envelope(Some(p)))
  }

  /** Every outcome is a single text item or an internal error whose
      message names the tool. */
  lemma OutcomeShape(route: Result<Option<Handler>, string>, name: string, build: Handler -> Result<string, string>,
                     exec: string -> RExecutionResult, wasInitialized: bool)
    requires forall c :: Parsable(exec(c))
    ensures var o := Outcome(route, name, build, exec, wasInitialized);
      o.Ok? ==> |o.value.content| == 1 && o.value.content[0].kind == "text"
    ensures var o := Outcome(route, name, build, exec, wasInitialized);
      o.Err? ==> o.error.code == InternalError && o.error.message[..|"Failed to execute " + name + ": "|] == "Failed to execute " + name + ": "
  {
  }

  /** An unknown category fails whatever the bridge does, and the message
      names the category. */
  lemma UnknownCategoryFails(name: string, build: Handler -> Result<string, string>,
                             exec: string -> RExecutionResult, wasInitialized: bool)
    requires forall c :: Parsable(exec(c))
    requires Category(name).None? || Category(name).value !in ConversionCategories + ["gr", "grl", "op"] + UtilityCategories
    ensures Outcome(RouteFixed(name), name, build, exec, wasInitialized)
      == Err(Failed(name, "Unknown tool category: " + StrText(Category(name))))
  {
  }

  /** A call of gr.string, as written, succeeds with an undefined result
      without building a command or touching the interpreter. */
  lemma GrStringAnswersUndefined(build: Handler -> Result<string, string>,
                                 exec: string -> RExecutionResult, wasInitialized: bool)
    requires forall c :: Parsable(exec(c))
    ensures Outcome(Route("gutils_gr_string"), "gutils_gr_string", build, exec, wasInitialized) == Ok(Envelope(None))
  {
    GrStringUnrouted();
  }

  /** With the fix, a call of gr.string on an initialized bridge runs the
      command the data conversion module builds and returns what the
      output parses to. */
  lemma GrStringRunsWhenFixed(build: Handler -> Result<string, string>, exec: string -> RExecutionResult)
    requires forall c :: Parsable(exec(c))
    ensures Outcome(RouteFixed("gutils_gr_string"), "gutils_gr_string", build, exec, true)
      == match build(DataConversionTools)
         case Err(message) => Err(Failed("gutils_gr_string", message))
         case Ok(command) =>
           match ParseROutput(exec(command))
           case Err(message) => Err(Failed("gutils_gr_string", message))
           case Ok(p) => Ok(Envelope(Some(p)))
  {
    GrStringRoutedWhenFixed();
  }

  /** Every key of the registry maps to a definition of that name, taken
      from the list or kept from the starting map. */
  lemma {:induction false} RegistryFromList(m: map<string, ToolDef>, defs: seq<ToolDef>)
    requires forall k :: k in m ==> m[k].name == k
    ensures forall k :: k in Registry(m, defs) ==>
      Registry(m, defs)[k].name == k && (Registry(m, defs)[k] in defs || (k in m && Registry(m, defs)[k] == m[k]))
    decreases |defs|
  {
    if |defs| > 0 {
      var init := defs[..|defs| - 1];
      RegistryFromList(m, init);
      forall k | k in Registry(m, init) && Registry(m, init)[k] in init
        ensures Registry(m, init)[k] in defs
      {
        var i :| 0 <= i < |init| && init[i] == Registry(m, init)[k];
        assert defs[i] == init[i];
      }
    }
  }

  /** A registry built from definitions the router sends home sends every
      name in it to the module its stored definition comes from. */
  lemma RegistryRoutesHome(defs: seq<ToolDef>)
    requires forall d :: d in defs ==> RouteFixed(d.name) == Ok(Some(d.handler))
    ensures Registry(map[], defs).Keys == NameSet(defs)
    ensures forall k :: k in Registry(map[], defs) ==>
      Registry(map[], defs)[k].name == k && RouteFixed(k) == Ok(Some(Registry(map[], defs)[k].handler))
  {
    var empty: map<string, ToolDef> := map[];
    RegistryKeys(empty, defs);
    RegistryFromList(empty, defs);
  }

  /** So on the server's own list: the names registered are exactly the
      names the modules declare, and each is routed to its module. */
  lemma ServerRoutesHome()
    ensures forall k :: k in Registry(map[], AllTools) <==> k in NameSet(AllTools)
    ensures forall k :: k in Registry(map[], AllTools) ==> RouteFixed(k) == Ok(Some(Registry(map[], AllTools)[k].handler))
  {
    AllToolsRouted();
    RegistryRoutesHome(AllTools);
  }

  /** The MCP server: the registered tools and the bridge they share. */
  class Server {
    var tools: map<string, ToolDef>
    const bridge: RBridge

    /** A new server over an interpreter: a fresh, uninitialized bridge and
        every module's tools registered. */
    constructor(exec: string -> RExecutionResult)
      ensures tools == Registry(map[], AllTools)
      ensures fresh(bridge) && !bridge.initialized && bridge.exec == exec
    {
      bridge := new RBridge(exec);
      tools := map[];
      new;
      RegisterTools(AllTools);
    }

    /** registerTools: `set` each definition of the list in turn. */
    method RegisterTools(all: seq<ToolDef>)
      modifies this
      ensures tools == Registry(old(tools), all)
    {
      var i := 0;
      while i < |all|
        invariant 0 <= i <= |all|
        invariant tools == Registry(old(tools), all[..i])
      {
        var d := all[i];
        assert all[..i + 1][..i] == all[..i];
        tools := tools[d.name := d];
        i := i + 1;
      }
      assert all[..|all|] == all;
    }

    /** The switch's call of a handler module: the command it builds. */
    static method BuildHandlerCommand(h: Handler, name: string, args: ToolArgs) returns (r: Result<string, string>)
      ensures r == HandlerCommand(h, name, args)
    {
      match h {
        case DataConversionTools => r := DataConversion.BuildCommand(name, args.conversion);
        case RangeTools => r := RangeManipulation.BuildCommand(name, args.ranges);
        case OverlapTools => r := OverlapOperations.BuildCommand(name, args.overlaps);
        case GRangesListTools => r := GRangesListOperations.BuildCommand(name, args.lists);
        case AggregationTools => r := Aggregation.BuildCommand(name, args.aggregation);
        case OperatorTools => r := Operators.Command(name, args.operators);
        case UtilityTools => r := Utilities.BuildCommand(name, args.utilities);
      }
    }

    /** The CallTool handler: an unregistered name is "method not found"
        and touches nothing; a registered one is routed, run on the bridge
        and answered as Outcome says. */
    method CallTool(name: string, args: ToolArgs) returns (r: Result<Response, McpError>)
      requires forall c :: Parsable(bridge.exec(c))
      modifies bridge
      ensures name !in tools ==>
        r == Err(McpError(MethodNotFound, "Tool " + name + " not found")) && bridge.initialized == old(bridge.initialized)
      ensures name in tools ==>
        r == Outcome(RouteFixed(name), name, h => HandlerCommand(h, name, args), bridge.exec, old(bridge.initialized))
      ensures bridge.initialized <==>
        (old(bridge.initialized)
         || (name in tools && RouteFixed(name).Ok? && RouteFixed(name).value.Some? && bridge.exec(LoadScript).success))
    {
      if name !in tools {
        return Err(McpError(MethodNotFound, "Tool " + name + " not found"));
      }
      var route := RouteFixed(name);
      if route.Err? {
        return Err(Failed(name, route.error));
      }
      if route.value.None? {
        return Ok(Envelope(None));
      }
      var command := BuildHandlerCommand(route.value.value, name, args);
      var result := bridge.Run(command);
      if result.Err? {
        return Err(Failed(name, result.error));
      }
      r := Ok(Envelope(Some(result.value)));
    }
  }
}
