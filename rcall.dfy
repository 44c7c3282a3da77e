/** The shape shared by the R commands that the tool handlers build. A
    handler starts `cmd` with the function name and its required arguments,
    appends each optional argument as `, key = value` when the argument's
    condition holds, in a fixed order, and closes the call with `)`. A `Call`
    records that shape; `Render` is the text it stands for. */
module RCall {
  import opened Js
  import opened Genomic
  import opened Bridge

  /** One optional argument. `Clause` is written `, key = value`; `Lead` is
      an argument written first, as `key = value` with no comma. The value is
      None when the handler's condition for the argument does not hold. */
  datatype Clause =
    | Clause(key: string, value: Option<string>)
    | Lead(key: string, value: Option<string>)

  /** A call under construction: the text up to the optional arguments, and
      the optional arguments in the order the handler tries them. */
  datatype Call = Call(head: string, clauses: seq<Clause>)

  /** `, key = value`: an argument after the first. */
  function Arg(key: string, value: string): string
  {
    ", " + key + " = " + value
  }

  /** `key = value`: the first argument. */
  function LeadArg(key: string, value: string): string
  {
    key + " = " + value
  }

  function ClauseText(c: Clause): string
  {
    if c.value.None? then ""
    else if c.Clause? then Arg(c.key, c.value.value)
    else LeadArg(c.key, c.value.value)
  }

  /** `text` followed by the texts of the clauses, appended one at a time
      from the first. */
  function Fold(text: string, cs: seq<Clause>): string
    decreases |cs|
  {
    if |cs| == 0 then text else Fold(text + ClauseText(cs[0]), cs[1..])
  }

  /** The command a call stands for. */
  function Render(call: Call): string
  {
    Fold(call.head, call.clauses) + ")"
  }

  /** One `if (condition) cmd += ...` step of a handler. */
  method AppendClause(cmd: string, c: Clause) returns (r: string)
    ensures r == cmd + ClauseText(c)
  {
    r := cmd;
    if c.value.Some? {
      if c.Clause? {
        r := r + Arg(c.key, c.value.value);
      } else {
        r := r + LeadArg(c.key, c.value.value);
      }
    }
  }

  // ---------------------------------------------------------------------
  // Argument values and the conditions under which they are written

  /** `"${s}"`: the text between double quotes, nothing escaped. */
  function Quote(s: string): (r: string)
    ensures |r| == |s| + 2 && r[0] == '"' && r[|r| - 1] == '"' && r[1..|r| - 1] == s
  {
    "\"" + s + "\""
  }

  /** `b ? 'TRUE' : 'FALSE'`. */
  function Logical(b: bool): (r: string)
    ensures r == "TRUE" || r == "FALSE"
    ensures (r == "TRUE") <==> b
  {
    if b then "TRUE" else "FALSE"
  }

  /** `if (x !== undefined)` on a number: present whenever it is defined,
      0 included, written in decimal. */
  function Number(o: Option<int>): (r: Option<string>)
    ensures r.Some? <==> o.Some?
    ensures o.Some? ==> r.value == IntToString(o.value)
  {
    if o.Some? then Some(IntToString(o.value)) else None
  }

  /** `if (x !== undefined)` on a boolean: present whenever it is defined,
      false included, as TRUE or FALSE. */
  function Flag(o: Option<bool>): (r: Option<string>)
    ensures r.Some? <==> o.Some?
    ensures o.Some? ==> r.value == Logical(o.value)
  {
    if o.Some? then Some(Logical(o.value)) else None
  }

  /** `if (x)` on a string written between quotes: absent when the string
      is undefined or empty. */
  function QuotedIfTruthy(o: Option<string>): (r: Option<string>)
    ensures r.Some? <==> TruthyText(o)
    ensures TruthyText(o) ==> r.value == Quote(o.value)
  {
    if TruthyText(o) then Some(Quote(o.value)) else None
  }

  /** `if (x)` on a string written as it is (an R expression or name). */
  function RawIfTruthy(o: Option<string>): (r: Option<string>)
    ensures r.Some? <==> TruthyText(o)
    ensures TruthyText(o) ==> r.value == o.value
  {
    if TruthyText(o) then Some(o.value) else None
  }

  /** The quoted strings, in order. */
  function Quoted(xs: seq<string>): (r: seq<string>)
    ensures |r| == |xs| && forall i :: 0 <= i < |xs| ==> r[i] == Quote(xs[i])
  {
    seq(|xs|, i requires 0 <= i < |xs| => Quote(xs[i]))
  }

  /** `c("a", "b")`: a character vector of the strings, in order, with
      nothing escaped. */
  function QuotedVector(xs: seq<string>): string
  {
    Vector(Quoted(xs))
  }

  /** The decimal texts, in order. */
  function Numerals(xs: seq<int>): (r: seq<string>)
    ensures |r| == |xs| && forall i :: 0 <= i < |xs| ==> r[i] == IntToString(xs[i])
  {
    seq(|xs|, i requires 0 <= i < |xs| => IntToString(xs[i]))
  }

  /** `c(1, 2)`: a numeric vector of the numbers, in order. */
  function NumberVector(xs: seq<int>): string
  {
    Vector(Numerals(xs))
  }

  /** `if (xs && xs.length > 0)` on a list of names: present only when the
      list is defined and non-empty, as a quoted vector. */
  function NamesIfNonEmpty(o: Option<seq<string>>): (r: Option<string>)
    ensures r.Some? <==> o.Some? && |o.value| > 0
    ensures r.Some? ==> r.value == QuotedVector(o.value)
  {
    if o.Some? && |o.value| > 0 then Some(QuotedVector(o.value)) else None
  }

  /** `formatRObject({type: 'GRanges', data: x})`. */
  function GR(x: Option<seq<GenomicRange>>): string
  {
    FormatRObject(TaggedRanges(x))
  }

  /** `formatRObject({type: 'GRangesList', data: x})`. */
  function GRL(x: Option<seq<GRangesList>>): string
  {
    FormatRObject(TaggedLists(x))
  }

  /** `BSgenome.Hsapiens.UCSC.${g}::BSgenome.Hsapiens.UCSC.${g}`: the
      genome package, named twice as `pkg::pkg`. */
  function GenomeObject(g: Option<string>): string
  {
    "BSgenome.Hsapiens.UCSC." + StrText(g) + "::BSgenome.Hsapiens.UCSC." + StrText(g)
  }

  /** The message of the TypeError thrown by `x.map(...)` when `x` is
      undefined. */
  const MapOfUndefined: string := "Cannot read properties of undefined (reading 'map')"

  /** `throw new Error(`Unknown tool: ${toolName}`)`. */
  function UnknownTool(name: string): string
  {
    "Unknown tool: " + name
  }

  // ---------------------------------------------------------------------
  // What a rendered call contains

  /** The clauses' texts do not depend on the text before them. */
  lemma {:induction false} FoldFromHead(h: string, cs: seq<Clause>)
    ensures Fold(h, cs) == h + Fold("", cs)
    decreases |cs|
  {
    if |cs| > 0 {
      var t := ClauseText(cs[0]);
      FoldFromHead(h + t, cs[1..]);
      FoldFromHead("" + t, cs[1..]);
      assert "" + t == t;
    }
  }

  /** The text of a call splits at any clause boundary: the head and the
      first k clauses, then the remaining clauses. */
  lemma {:induction false} FoldSplit(h: string, cs: seq<Clause>, k: nat)
    requires k <= |cs|
    ensures Fold(h, cs) == Fold(h, cs[..k]) + Fold("", cs[k..])
    decreases k
  {
    if k == 0 {
      FoldFromHead(h, cs);
      assert cs[k..] == cs;
    } else {
      var t := ClauseText(cs[0]);
      FoldSplit(h + t, cs[1..], k - 1);
      assert cs[1..][..k - 1] == cs[..k][1..];
      assert cs[1..][k - 1..] == cs[k..];
    }
  }

  /** Clause i sits exactly after the head and the clauses before it, and
      before the clauses after it: the optional arguments appear in the
      handler's order. */
  lemma ClauseInPlace(call: Call, i: nat)
    requires i < |call.clauses|
    ensures Render(call) == Fold(call.head, call.clauses[..i]) + ClauseText(call.clauses[i]) + Fold("", call.clauses[i + 1..]) + ")"
  {
    var cs := call.clauses;
    var t := ClauseText(cs[i]);
    assert Fold("", cs[i..]) == t + Fold("", cs[i + 1..]) by {
      var rest := cs[i..];
      assert rest[0] == cs[i] && rest[1..] == cs[i + 1..];
      FoldFromHead("" + t, cs[i + 1..]);
      assert "" + t == t;
    }
    FoldSplit(call.head, cs, i);
  }

  /** The clauses whose condition holds, in order. */
  function Present(cs: seq<Clause>): (ps: seq<Clause>)
    ensures |ps| <= |cs|
    ensures forall i :: 0 <= i < |ps| ==> ps[i].value.Some? && ps[i] in cs
  {
    if |cs| == 0 then []
    else if cs[0].value.Some? then [cs[0]] + Present(cs[1..])
    else Present(cs[1..])
  }

  /** An argument whose condition fails leaves no trace: the command is
      the same as the one made of the present clauses alone. */
  lemma {:induction false} AbsentClausesVanish(h: string, cs: seq<Clause>)
    ensures Fold(h, cs) == Fold(h, Present(cs))
    decreases |cs|
  {
    if |cs| > 0 {
      AbsentClausesVanish(h + ClauseText(cs[0]), cs[1..]);
      if cs[0].value.Some? {
        assert ([cs[0]] + Present(cs[1..]))[1..] == Present(cs[1..]);
      } else {
        assert h + ClauseText(cs[0]) == h;
      }
    }
  }

  /** When no condition holds, the command is the head closed by `)`. */
  lemma {:induction false} NoOptionsBare(call: Call)
    requires forall i :: 0 <= i < |call.clauses| ==> call.clauses[i].value.None?
    ensures Render(call) == call.head + ")"
  {
    AbsentClausesVanish(call.head, call.clauses);
  }

  // ---------------------------------------------------------------------
  // Step-by-step expansions used by the handler methods

  lemma Expand1(h: string, cs: seq<Clause>)
    requires |cs| == 1
    ensures Fold(h, cs) == h + ClauseText(cs[0])
  {
  }

  lemma Expand2(h: string, cs: seq<Clause>)
    requires |cs| == 2
    ensures Fold(h, cs) == h + ClauseText(cs[0]) + ClauseText(cs[1])
  {
    Expand1(h + ClauseText(cs[0]), cs[1..]);
  }

  lemma Expand3(h: string, cs: seq<Clause>)
    requires |cs| == 3
    ensures Fold(h, cs) == h + ClauseText(cs[0]) + ClauseText(cs[1]) + ClauseText(cs[2])
  {
    Expand2(h + ClauseText(cs[0]), cs[1..]);
  }

  lemma Expand4(h: string, cs: seq<Clause>)
    requires |cs| == 4
    ensures Fold(h, cs) == h + ClauseText(cs[0]) + ClauseText(cs[1]) + ClauseText(cs[2]) + ClauseText(cs[3])
  {
    Expand3(h + ClauseText(cs[0]), cs[1..]);
  }

  lemma Expand5(h: string, cs: seq<Clause>)
    requires |cs| == 5
    ensures Fold(h, cs) == h + ClauseText(cs[0]) + ClauseText(cs[1]) + ClauseText(cs[2]) + ClauseText(cs[3]) + ClauseText(cs[4])
  {
    Expand4(h + ClauseText(cs[0]), cs[1..]);
  }

  lemma Expand6(h: string, cs: seq<Clause>)
    requires |cs| == 6
    ensures Fold(h, cs) == h + ClauseText(cs[0]) + ClauseText(cs[1]) + ClauseText(cs[2]) + ClauseText(cs[3]) + ClauseText(cs[4]) + ClauseText(cs[5])
  {
    Expand5(h + ClauseText(cs[0]), cs[1..]);
  }

  lemma Expand7(h: string, cs: seq<Clause>)
    requires |cs| == 7
    ensures Fold(h, cs) == h + ClauseText(cs[0]) + ClauseText(cs[1]) + ClauseText(cs[2]) + ClauseText(cs[3]) + ClauseText(cs[4]) + ClauseText(cs[5]) + ClauseText(cs[6])
  {
    Expand6(h + ClauseText(cs[0]), cs[1..]);
  }

  /** A call with a head and one optional argument, built the way the
      handlers write it: the head, one conditional append, then `)`. */
  method BuildOneOption(call: Call) returns (cmd: string)
    requires |call.clauses| == 1
    ensures cmd == Render(call)
  {
    cmd := call.head;
    cmd := AppendClause(cmd, call.clauses[0]);
    cmd := cmd + ")";
    Expand1(call.head, call.clauses);
  }
}
