/** The JavaScript values the server receives and the pieces of JavaScript
    string handling that the bridge relies on: truthiness, property lookup,
    Number.prototype.toString on integers, Array.prototype.join,
    String.prototype.split on one character and the quote escaping done by
    `replace(/"/g, '\\"')`. */
module Js {

  datatype Option<+T> = None | Some(value: T)

  /** A computation that either yields a value or throws an Error whose
      message is `error`. */
  datatype Result<+T, +E> = Ok(value: T) | Err(error: E)

  /** A JSON value as the tool-calling client sends it. An object's entries
      are listed in JavaScript's own-key order, the order in which
      `Object.keys` and `Object.entries` enumerate them: keys that are array
      indices ("0", "1", ...) first, in ascending numeric order, then the
      other keys in insertion order. */
  datatype Json =
    | Null
    | Bool(b: bool)
    | Num(n: int)
    | Str(s: string)
    | Arr(items: seq<Json>)
    | Obj(entries: seq<(string, Json)>)

  /** JavaScript truthiness of a value that may be undefined (None). */
  predicate Truthy(v: Option<Json>)
  {
    match v
    case None => false
    case Some(Null) => false
    case Some(Bool(b)) => b
    case Some(Num(n)) => n != 0
    case Some(Str(s)) => s != ""
    case Some(Arr(_)) => true
    case Some(Obj(_)) => true
  }

  /** Truthiness of an optional string argument: undefined and "" are falsy. */
  predicate TruthyText(o: Option<string>)
  {
    o.Some? && o.value != ""
  }

  /** `e || fallback` for an optional message. */
  function OrDefault(e: Option<string>, fallback: string): (r: string)
    ensures TruthyText(e) ==> r == e.value
    ensures !TruthyText(e) ==> r == fallback
  {
    if TruthyText(e) then e.value else fallback
  }

  /** `obj[key]` on an object's entries: the value stored under `key`, or
      undefined. */
  function Get(entries: seq<(string, Json)>, key: string): (r: Option<Json>)
    ensures r.Some? <==> exists i :: 0 <= i < |entries| && entries[i].0 == key
    ensures r.Some? ==> exists i :: 0 <= i < |entries| && entries[i] == (key, r.value)
  {
    if |entries| == 0 then None
    else if entries[0].0 == key then Some(entries[0].1)
    else
      var r := Get(entries[1..], key);
      assert forall i :: 0 <= i < |entries| - 1 ==> entries[1..][i] == entries[i + 1];
      r
  }

  /** `obj.key` on an arbitrary value: only objects have the fields looked
      up here, so on anything else it is undefined. */
  function Field(obj: Json, key: string): Option<Json>
  {
    if obj.Obj? then Get(obj.entries, key) else None
  }

  /** The first entry under `key` wins. */
  lemma GetFirst(entries: seq<(string, Json)>, key: string)
    requires |entries| > 0 && entries[0].0 == key
    ensures Get(entries, key) == Some(entries[0].1)
  {
  }

  lemma GetSkip(entries: seq<(string, Json)>, key: string)
    requires |entries| > 0 && entries[0].0 != key
    ensures Get(entries, key) == Get(entries[1..], key)
  {
  }

  lemma {:induction false} GetAppend(entries: seq<(string, Json)>, extra: seq<(string, Json)>, key: string)
    requires exists i :: 0 <= i < |entries| && entries[i].0 == key
    ensures Get(entries + extra, key) == Get(entries, key)
  {
    if entries[0].0 != key {
      assert (entries + extra)[1..] == entries[1..] + extra;
      assert exists i :: 0 <= i < |entries[1..]| && entries[1..][i].0 == key by {
        var i :| 0 <= i < |entries| && entries[i].0 == key;
        assert i != 0 && entries[1..][i - 1] == entries[i];
      }
      GetAppend(entries[1..], extra, key);
    }
  }

  // ---------------------------------------------------------------------
  // Number.prototype.toString on integers

  predicate IsDigit(c: char)
  {
    '0' <= c <= '9'
  }

  predicate AllDigits(s: string)
  {
    forall i :: 0 <= i < |s| ==> IsDigit(s[i])
  }

  function DigitChar(d: nat): (c: char)
    requires d < 10
    ensures IsDigit(c)
  {
    "0123456789"[d]
  }

  function DigitValue(c: char): (d: nat)
    requires IsDigit(c)
    ensures d < 10
  {
    (c as int - '0' as int) as nat
  }

  /** Decimal digits of a natural number, most significant first, with no
      leading zero. */
  function NatToString(n: nat): (r: string)
    ensures |r| > 0 && AllDigits(r)
    ensures (r[0] == '0') ==> n == 0
  {
    if n < 10 then [DigitChar(n)]
    else NatToString(n / 10) + [DigitChar(n % 10)]
  }

  /** The value of a string of decimal digits. */
  function NatValue(s: string): nat
    requires AllDigits(s)
  {
    if |s| == 0 then 0
    else NatValue(s[..|s| - 1]) * 10 + DigitValue(s[|s| - 1])
  }

  /** Reading the decimal text of `n` back gives `n`: the text of a number
      determines the number. */
  lemma {:induction false} NatValueOfNatToString(n: nat)
    ensures NatValue(NatToString(n)) == n
  {
    var s := NatToString(n);
    if n >= 10 {
      assert s[..|s| - 1] == NatToString(n / 10);
      NatValueOfNatToString(n / 10);
      assert DigitValue(s[|s| - 1]) == n % 10;
    } else {
      assert DigitValue(s[0]) == n;
    }
  }

  /** `String(n)` for an integer `n`. */
  function IntToString(n: int): (r: string)
    ensures |r| > 0
    ensures n >= 0 ==> r == NatToString(n)
    ensures n < 0 ==> r[0] == '-' && r[1..] == NatToString(-n)
  {
    if n < 0 then "-" + NatToString(-n) else NatToString(n)
  }

  /** Template-literal text of an optional number: `${x}` is "undefined"
      when `x` is undefined. */
  function IntText(o: Option<int>): (r: string)
    ensures o.None? <==> r == "undefined"
    ensures o.Some? ==> r == IntToString(o.value)
  {
    if o.Some? then IntToString(o.value) else "undefined"
  }

  /** Template-literal text of an optional string. */
  function StrText(o: Option<string>): (r: string)
    ensures o.Some? ==> r == o.value
    ensures o.None? ==> r == "undefined"
  {
    if o.Some? then o.value else "undefined"
  }

  // ---------------------------------------------------------------------
  // Array.prototype.join and String.prototype.split

  /** `xs.join(sep)`. */
  function Join(xs: seq<string>, sep: string): string
  {
    if |xs| == 0 then ""
    else if |xs| == 1 then xs[0]
    else xs[0] + sep + Join(xs[1..], sep)
  }

  lemma JoinCons(x: string, xs: seq<string>, sep: string)
    requires |xs| > 0
    ensures Join([x] + xs, sep) == x + sep + Join(xs, sep)
  {
    assert ([x] + xs)[1..] == xs;
  }

  /** Index of the first `c` in `s`. */
  function IndexOf(s: string, c: char): (i: nat)
    requires c in s
    ensures i < |s| && s[i] == c && c !in s[..i]
  {
    if s[0] == c then 0 else 1 + IndexOf(s[1..], c)
  }

  /** `s.split(c)` for a one-character separator: the maximal pieces of `s`
      between occurrences of `c`; there is always at least one piece. */
  function Split(s: string, c: char): (r: seq<string>)
    ensures |r| > 0
    decreases |s|
  {
    if c !in s then [s]
    else
      var i := IndexOf(s, c);
      [s[..i]] + Split(s[i + 1..], c)
  }

  lemma SplitCons(a: string, b: string, c: char)
    requires c !in a
    ensures Split(a + [c] + b, c) == [a] + Split(b, c)
  {
    var s := a + [c] + b;
    assert s[|a|] == c;
    var i := IndexOf(s, c);
    assert s[..|a|] == a;
    assert i == |a|;
    assert s[i + 1..] == b;
  }

  /** Splitting a joined list of separator-free pieces gives the pieces back. */
  lemma {:induction false} SplitJoin(xs: seq<string>, c: char)
    requires |xs| > 0
    requires forall i :: 0 <= i < |xs| ==> c !in xs[i]
    ensures Split(Join(xs, [c]), c) == xs
  {
    if |xs| > 1 {
      calc {
        Split(Join(xs, [c]), c);
        Split(xs[0] + [c] + Join(xs[1..], [c]), c);
        { SplitCons(xs[0], Join(xs[1..], [c]), c); }
        [xs[0]] + Split(Join(xs[1..], [c]), c);
        { SplitJoin(xs[1..], c); }
        [xs[0]] + xs[1..];
        xs;
      }
    }
  }

  /** The pieces of a split contain no separator and join back to the
      original string. */
  lemma {:induction false} JoinSplit(s: string, c: char)
    ensures Join(Split(s, c), [c]) == s
    ensures forall i :: 0 <= i < |Split(s, c)| ==> c !in Split(s, c)[i]
    decreases |s|
  {
    if c in s {
      var i := IndexOf(s, c);
      var rest := Split(s[i + 1..], c);
      JoinSplit(s[i + 1..], c);
      JoinCons(s[..i], rest, [c]);
      assert s == s[..i] + [c] + s[i + 1..];
      assert Split(s, c) == [s[..i]] + rest;
    }
  }

  /** Three underscore-free tokens joined by the separator split back into
      those tokens. */
  lemma Split3(a: string, b: string, d: string, c: char)
    requires c !in a && c !in b && c !in d
    ensures Split(a + [c] + b + [c] + d, c) == [a, b, d]
  {
    var bd := b + [c] + d;
    assert a + [c] + b + [c] + d == a + [c] + bd;
    calc {
      Split(a + [c] + bd, c);
      { SplitCons(a, bd, c); }
      [a] + Split(bd, c);
      { SplitCons(b, d, c); }
      [a] + ([b] + Split(d, c));
    }
  }

  lemma Split2(a: string, b: string, c: char)
    requires c !in a && c !in b
    ensures Split(a + [c] + b, c) == [a, b]
  {
    SplitCons(a, b, c);
  }

  // ---------------------------------------------------------------------
  // Quote escaping: s.replace(/"/g, '\\"')

  /** Every double quote of `s` preceded by a backslash; every other
      character kept as it is. */
  function EscapeQuotes(s: string): (r: string)
    ensures '"' !in s ==> r == s
    ensures |r| >= |s|
    ensures |s| > 0 && s[0] != '"' ==> |r| > 0 && r[0] == s[0]
    ensures forall i :: 0 <= i < |r| && r[i] == '"' ==> i > 0 && r[i - 1] == '\\'
  {
    if |s| == 0 then ""
    else
      var rest := EscapeQuotes(s[1..]);
      if s[0] == '"' then "\\\"" + rest else [s[0]] + rest
  }
}
