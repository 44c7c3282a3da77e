/** A reader for the R literals the serializer writes: NULL, TRUE, FALSE,
    integers, double-quoted strings with `\"` escapes, `c(...)` vectors and
    `list(name = value, ...)` lists. It stands for the part of R's parser
    that the commands rely on, and it is the inverse the serializer is
    proved against: reading `FormatJson(v)` gives `v` back. */
module RLiteral {
  import opened Js
  import opened Bridge

  predicate IsNameChar(c: char)
  {
    ('a' <= c <= 'z') || ('A' <= c <= 'Z') || IsDigit(c) || c == '.' || c == '_'
  }

  /** A syntactic R name as an argument of `list(...)`. */
  predicate IsName(k: string)
  {
    |k| > 0 && forall i :: 0 <= i < |k| ==> IsNameChar(k[i])
  }

  /** The values the reader can take back: strings without a backslash
      (the serializer escapes quotes only) and object keys that are R
      names (the serializer writes keys unquoted). */
  predicate Readable(v: Json)
    decreases v, 1
  {
    match v
    case Str(s) => '\\' !in s
    case Arr(xs) => ReadableItems(xs)
    case Obj(es) => ReadableEntries(es)
    case _ => true
  }

  predicate ReadableItems(xs: seq<Json>)
    decreases xs, 0
  {
    |xs| == 0 || (Readable(xs[0]) && ReadableItems(xs[1..]))
  }

  predicate ReadableEntries(es: seq<(string, Json)>)
    decreases es, 0
  {
    if |es| == 0 then true
    else
      var (k, x) := es[0];
      assert x < es[0];
      IsName(k) && Readable(x) && ReadableEntries(es[1..])
  }

  /** What may follow a literal inside a command: the end of the text, the
      next argument or the closing parenthesis. */
  predicate Delimited(rest: string)
  {
    |rest| == 0 || rest[0] == ',' || rest[0] == ')'
  }

  /** Length of the run of decimal digits that `s` starts with. */
  function DigitRun(s: string): (d: nat)
    ensures d <= |s| && AllDigits(s[..d])
    ensures d < |s| ==> !IsDigit(s[d])
  {
    if |s| > 0 && IsDigit(s[0]) then
      var d := 1 + DigitRun(s[1..]);
      assert s[..d] == [s[0]] + s[1..][..d - 1];
      d
    else 0
  }

  /** Length of the run of name characters that `s` starts with. */
  function NameRun(s: string): (d: nat)
    ensures d <= |s|
    ensures forall i :: 0 <= i < d ==> IsNameChar(s[i])
    ensures d < |s| ==> !IsNameChar(s[d])
  {
    if |s| > 0 && IsNameChar(s[0]) then 1 + NameRun(s[1..]) else 0
  }

  /** One literal at the start of `s`, and the text after it; the first
      character decides which kind of literal it is. */
  function ReadValue(s: string): (r: Option<(Json, string)>)
    ensures r.Some? ==> |r.value.1| < |s|
    decreases |s|, 1
  {
    if |s| == 0 then None
    else if s[0] == 'N' then
      if |s| >= 4 && s[..4] == "NULL" then Some((Null, s[4..])) else None
    else if s[0] == 'T' then
      if |s| >= 4 && s[..4] == "TRUE" then Some((Bool(true), s[4..])) else None
    else if s[0] == 'F' then
      if |s| >= 5 && s[..5] == "FALSE" then Some((Bool(false), s[5..])) else None
    else if s[0] == '"' then
      match ReadChars(s[1..])
      case None => None
      case Some((t, rest)) => Some((Str(t), rest))
    else if s[0] == 'c' then
      if |s| >= 2 && s[1] == '(' then
        match ReadItems(s[2..])
        case None => None
        case Some((xs, rest)) => Some((Arr(xs), rest))
      else None
    else if s[0] == 'l' then
      if |s| >= 5 && s[..5] == "list(" then
        match ReadEntries(s[5..])
        case None => None
        case Some((es, rest)) => Some((Obj(es), rest))
      else None
    else if s[0] == '-' then
      var d := DigitRun(s[1..]);
      if d == 0 then None else Some((Num(0 - NatValue(s[1..][..d]) as int), s[1 + d..]))
    else
      var d := DigitRun(s);
      if d == 0 then None else Some((Num(NatValue(s[..d])), s[d..]))
  }

  /** The characters of a string literal up to its closing quote, with
      `\"` read as a quote; any other backslash is not understood. */
  function ReadChars(s: string): (r: Option<(string, string)>)
    ensures r.Some? ==> |r.value.1| < |s|
  {
    if |s| == 0 then None
    else if s[0] == '"' then Some(("", s[1..]))
    else if s[0] == '\\' then
      if |s| >= 2 && s[1] == '"' then
        match ReadChars(s[2..])
        case None => None
        case Some((t, rest)) => Some(("\"" + t, rest))
      else None
    else
      match ReadChars(s[1..])
      case None => None
      case Some((t, rest)) => Some(([s[0]] + t, rest))
  }

  /** The elements of a vector after `c(`, through its `)`. */
  function ReadItems(s: string): (r: Option<(seq<Json>, string)>)
    ensures r.Some? ==> |r.value.1| < |s|
    decreases |s|, 3
  {
    if |s| > 0 && s[0] == ')' then Some(([], s[1..])) else ReadItemsTail(s)
  }

  /** One or more elements separated by ", ", then `)`. */
  function ReadItemsTail(s: string): (r: Option<(seq<Json>, string)>)
    ensures r.Some? ==> |r.value.1| < |s|
    decreases |s|, 2
  {
    match ReadValue(s)
    case None => None
    case Some((v, rest)) =>
      if |rest| > 0 && rest[0] == ')' then Some(([v], rest[1..]))
      else if |rest| >= 2 && rest[..2] == ", " then
        match ReadItemsTail(rest[2..])
        case None => None
        case Some((vs, rest')) => Some(([v] + vs, rest'))
      else None
  }

  /** The elements of a list after `list(`, through its `)`. */
  function ReadEntries(s: string): (r: Option<(seq<(string, Json)>, string)>)
    ensures r.Some? ==> |r.value.1| < |s|
    decreases |s|, 3
  {
    if |s| > 0 && s[0] == ')' then Some(([], s[1..])) else ReadEntriesTail(s)
  }

  /** One or more `name = value` elements separated by ", ", then `)`. */
  function ReadEntriesTail(s: string): (r: Option<(seq<(string, Json)>, string)>)
    ensures r.Some? ==> |r.value.1| < |s|
    decreases |s|, 2
  {
    var k := NameRun(s);
    if k == 0 || |s| < k + 3 || s[k..k + 3] != " = " then None
    else
      match ReadValue(s[k + 3..])
      case None => None
      case Some((v, rest)) =>
        if |rest| > 0 && rest[0] == ')' then Some(([(s[..k], v)], rest[1..]))
        else if |rest| >= 2 && rest[..2] == ", " then
          match ReadEntriesTail(rest[2..])
          case None => None
          case Some((es, rest')) => Some(([(s[..k], v)] + es, rest'))
        else None
  }

  // ---------------------------------------------------------------------
  // Round trip

  lemma {:induction false} DigitRunOfDigits(a: string, rest: string)
    requires AllDigits(a)
    requires |rest| == 0 || !IsDigit(rest[0])
    ensures DigitRun(a + rest) == |a|
    ensures (a + rest)[..|a|] == a
  {
    if |a| > 0 {
      assert (a + rest)[1..] == a[1..] + rest;
      DigitRunOfDigits(a[1..], rest);
    }
  }

  /** One ordinary character of a string literal is taken as it is. */
  lemma ReadCharsPlain(c: char, tail: string)
    requires c != '"' && c != '\\'
    ensures ReadChars([c] + tail) == match ReadChars(tail)
      case None => None
      case Some((t, rest)) => Some(([c] + t, rest))
  {
    assert ([c] + tail)[1..] == tail;
  }

  /** An escaped quote is read as a quote. */
  lemma ReadCharsQuote(tail: string)
    ensures ReadChars("\\\"" + tail) == match ReadChars(tail)
      case None => None
      case Some((t, rest)) => Some(("\"" + t, rest))
  {
    assert ("\\\"" + tail)[2..] == tail;
  }

  /** Regrouping a concatenation of four strings. */
  lemma Regroup4(a: string, b: string, c: string, d: string)
    ensures a + b + c + d == a + (b + c + d)
  {
  }

  lemma {:induction false} ReadEscaped(t: string, rest: string)
    requires '\\' !in t
    ensures ReadChars(EscapeQuotes(t) + "\"" + rest) == Some((t, rest))
  {
    if |t| == 0 {
      assert EscapeQuotes(t) + "\"" + rest == "\"" + rest;
    } else {
      var escaped := EscapeQuotes(t[1..]);
      var tail := escaped + "\"" + rest;
      assert '\\' !in t[1..];
      ReadEscaped(t[1..], rest);
      assert t == [t[0]] + t[1..];
      if t[0] == '"' {
        assert EscapeQuotes(t) == "\\\"" + escaped;
        Regroup4("\\\"", escaped, "\"", rest);
        ReadCharsQuote(tail);
      } else {
        assert EscapeQuotes(t) == [t[0]] + escaped;
        Regroup4([t[0]], escaped, "\"", rest);
        ReadCharsPlain(t[0], tail);
      }
    }
  }

  /** A run of digits followed by a delimiter is read as a number. */
  lemma ReadDigits(digits: string, rest: string)
    requires |digits| > 0 && AllDigits(digits)
    requires Delimited(rest)
    ensures ReadValue(digits + rest) == Some((Num(NatValue(digits)), rest))
  {
    var s := digits + rest;
    assert IsDigit(s[0]);
    DigitRunOfDigits(digits, rest);
    assert s[|digits|..] == rest;
  }

  /** A minus sign is read with the digit run after it. */
  lemma ReadValueMinus(s: string, d: nat)
    requires |s| > 0 && s[0] == '-' && 0 < d == DigitRun(s[1..])
    ensures ReadValue(s) == Some((Num(0 - NatValue(s[1..][..d]) as int), s[1 + d..]))
  {
  }

  /** A minus sign and a run of digits followed by a delimiter is read as a
      negative number. */
  lemma ReadMinusDigits(digits: string, rest: string)
    requires |digits| > 0 && AllDigits(digits)
    requires Delimited(rest)
    ensures ReadValue("-" + (digits + rest)) == Some((Num(0 - NatValue(digits) as int), rest))
  {
    var s := "-" + (digits + rest);
    assert s[0] == '-' && s[1..] == digits + rest;
    DigitRunOfDigits(digits, rest);
    assert DigitRun(s[1..]) == |digits| && s[1..][..|digits|] == digits;
    ReadValueMinus(s, |digits|);
    assert s[1 + |digits|..] == rest;
  }

  lemma ReadFormatNum(n: int, rest: string)
    requires Delimited(rest)
    ensures ReadValue(FormatJson(Num(n)) + rest) == Some((Num(n), rest))
  {
    if n < 0 {
      var digits := NatToString(-n);
      NatValueOfNatToString(-n);
      assert FormatJson(Num(n)) == "-" + digits;
      Regroup("-", digits, rest);
      ReadMinusDigits(digits, rest);
    } else {
      var digits := NatToString(n);
      NatValueOfNatToString(n);
      assert FormatJson(Num(n)) == digits;
      ReadDigits(digits, rest);
    }
  }

  /** A quote opens a string literal. */
  lemma ReadQuoted(body: string, t: string, rest: string)
    requires ReadChars(body) == Some((t, rest))
    ensures ReadValue("\"" + body) == Some((Str(t), rest))
  {
    assert ("\"" + body)[1..] == body;
  }

  lemma ReadFormatStr(t: string, rest: string)
    requires '\\' !in t
    ensures ReadValue(FormatJson(Str(t)) + rest) == Some((Str(t), rest))
  {
    var body := EscapeQuotes(t) + "\"" + rest;
    assert FormatJson(Str(t)) + rest == "\"" + body;
    ReadEscaped(t, rest);
    ReadQuoted(body, t, rest);
  }

  /** `c(` opens a vector. */
  lemma ReadVector(body: string, xs: seq<Json>, rest: string)
    requires ReadItems(body) == Some((xs, rest))
    ensures ReadValue("c(" + body) == Some((Arr(xs), rest))
  {
    assert ("c(" + body)[2..] == body;
  }

  /** `list(` opens a list. */
  lemma ReadList(body: string, es: seq<(string, Json)>, rest: string)
    requires ReadEntries(body) == Some((es, rest))
    ensures ReadValue("list(" + body) == Some((Obj(es), rest))
  {
    assert ("list(" + body)[..5] == "list(" && ("list(" + body)[5..] == body;
  }

  lemma ReadFormatConst(v: Json, rest: string)
    requires v.Null? || v.Bool?
    ensures ReadValue(FormatJson(v) + rest) == Some((v, rest))
  {
    var s := FormatJson(v) + rest;
    if v.Null? {
      assert s[..4] == "NULL" && s[4..] == rest;
    } else if v.b {
      assert s[..4] == "TRUE" && s[4..] == rest;
    } else {
      assert s[..5] == "FALSE" && s[5..] == rest;
    }
  }

  /** Regrouping of concatenations, stated on plain strings. */
  lemma Regroup(a: string, b: string, c: string)
    ensures a + b + c == a + (b + c)
  {
  }

  /** Reading the literal of a readable value, followed by a delimiter,
      gives the value and leaves the delimiter. */
  lemma {:induction false} ReadFormat(v: Json, rest: string)
    requires Readable(v)
    requires Delimited(rest)
    ensures ReadValue(FormatJson(v) + rest) == Some((v, rest))
    decreases v, 1
  {
    match v
    case Null =>
      ReadFormatConst(v, rest);
    case Bool(_) =>
      ReadFormatConst(v, rest);
    case Num(n) =>
      ReadFormatNum(n, rest);
    case Str(t) =>
      ReadFormatStr(t, rest);
    case Arr(xs) =>
      var j := Join(Items(xs), ", ");
      assert FormatJson(v) == "c(" + j + ")";
      Regroup("c(" + j, ")", rest);
      Regroup("c(", j, ")" + rest);
      Regroup(j, ")", rest);
      ReadFormatItems(xs, rest);
      ReadVector(j + ")" + rest, xs, rest);
    case Obj(es) =>
      var j := Join(Entries(es), ", ");
      assert FormatJson(v) == "list(" + j + ")";
      Regroup("list(" + j, ")", rest);
      Regroup("list(", j, ")" + rest);
      Regroup(j, ")", rest);
      ReadFormatEntries(es, rest);
      ReadList(j + ")" + rest, es, rest);
  }

  /** No literal starts with a closing parenthesis. */
  lemma FormatJsonStart(v: Json)
    ensures |FormatJson(v)| > 0 && FormatJson(v)[0] != ')'
  {
    match v
    case Num(n) =>
      assert IntToString(n)[0] == '-' || IsDigit(IntToString(n)[0]);
    case _ =>
  }

  lemma {:induction false} ReadFormatItems(xs: seq<Json>, rest: string)
    requires ReadableItems(xs)
    requires Delimited(rest)
    ensures ReadItems(Join(Items(xs), ", ") + ")" + rest) == Some((xs, rest))
    decreases xs, 2
  {
    if |xs| > 0 {
      FormatJsonStart(xs[0]);
      ReadFormatItemsTail(xs, rest);
    }
  }

  /** The last element of a vector: its literal is followed by `)`. */
  lemma ReadItemsTailLast(s: string, v: Json, rest: string)
    requires ReadValue(s) == Some((v, ")" + rest))
    ensures ReadItemsTail(s) == Some(([v], rest))
  {
    assert (")" + rest)[1..] == rest;
  }

  /** An element followed by ", " and more elements. */
  lemma ReadItemsTailMore(first: string, v: Json, more: string, vs: seq<Json>, rest: string)
    requires ReadValue(first + (", " + more)) == Some((v, ", " + more))
    requires ReadItemsTail(more) == Some((vs, rest))
    ensures ReadItemsTail(first + (", " + more)) == Some(([v] + vs, rest))
  {
    assert (", " + more)[..2] == ", " && (", " + more)[2..] == more;
  }

  /** The text of a vector's elements: the first literal, ", ", the rest. */
  lemma ItemsText(xs: seq<Json>, rest: string)
    requires |xs| > 1
    ensures Join(Items(xs), ", ") + ")" + rest
      == FormatJson(xs[0]) + (", " + (Join(Items(xs[1..]), ", ") + ")" + rest))
  {
    var f := FormatJson(xs[0]);
    var i := Items(xs[1..]);
    assert Items(xs) == [f] + i;
    JoinCons(f, i, ", ");
    RegroupItem(f, Join(i, ", "), rest);
  }

  lemma RegroupItem(f: string, j: string, rest: string)
    ensures f + ", " + j + ")" + rest == f + (", " + (j + ")" + rest))
  {
  }

  lemma RegroupEntry(k: string, f: string, j: string, rest: string)
    ensures k + " = " + f + ", " + j + ")" + rest == k + " = " + (f + (", " + (j + ")" + rest)))
  {
  }

  lemma {:induction false} ReadFormatItemsOne(xs: seq<Json>, rest: string)
    requires |xs| == 1
    requires ReadableItems(xs)
    requires Delimited(rest)
    ensures ReadItemsTail(Join(Items(xs), ", ") + ")" + rest) == Some((xs, rest))
    decreases xs, 0
  {
    var first := FormatJson(xs[0]);
    assert Join(Items(xs), ", ") + ")" + rest == first + (")" + rest) by {
      assert Items(xs) == [first];
    }
    assert ReadValue(first + (")" + rest)) == Some((xs[0], ")" + rest)) by {
      ReadFormat(xs[0], ")" + rest);
    }
    ReadItemsTailLast(first + (")" + rest), xs[0], rest);
    assert [xs[0]] == xs;
  }

  lemma {:induction false} ReadFormatItemsTail(xs: seq<Json>, rest: string)
    requires |xs| > 0
    requires ReadableItems(xs)
    requires Delimited(rest)
    ensures ReadItemsTail(Join(Items(xs), ", ") + ")" + rest) == Some((xs, rest))
    decreases xs, 1
  {
    if |xs| == 1 {
      ReadFormatItemsOne(xs, rest);
    } else {
      var first := FormatJson(xs[0]);
      var more := Join(Items(xs[1..]), ", ") + ")" + rest;
      ItemsText(xs, rest);
      ReadFormat(xs[0], ", " + more);
      ReadFormatItemsTail(xs[1..], rest);
      ReadItemsTailMore(first, xs[0], more, xs[1..], rest);
      assert [xs[0]] + xs[1..] == xs;
    }
  }

  lemma {:induction false} ReadFormatEntries(es: seq<(string, Json)>, rest: string)
    requires ReadableEntries(es)
    requires Delimited(rest)
    ensures ReadEntries(Join(Entries(es), ", ") + ")" + rest) == Some((es, rest))
    decreases es, 2
  {
    if |es| > 0 {
      ReadFormatEntriesTail(es, rest);
    }
  }

  /** A `name = ` prefix is read, and the value after it starts at the
      fourth character after the name. */
  lemma ReadEntriesTailName(k: string, body: string)
    requires IsName(k)
    ensures var s := k + " = " + body;
      && NameRun(s) == |k| && |s| >= |k| + 3 && s[|k|..|k| + 3] == " = "
      && s[..|k|] == k && s[|k| + 3..] == body
  {
    var s := k + " = " + body;
    assert s == k + (" = " + body);
    NameRunOfName(k, " = " + body);
  }

  /** The last element of a list: its value is followed by `)`. */
  lemma ReadEntriesTailLast(k: string, body: string, v: Json, rest: string)
    requires IsName(k)
    requires ReadValue(body) == Some((v, ")" + rest))
    ensures ReadEntriesTail(k + " = " + body) == Some(([(k, v)], rest))
  {
    ReadEntriesTailName(k, body);
    assert (")" + rest)[1..] == rest;
  }

  /** An element followed by ", " and more elements. */
  lemma ReadEntriesTailMore(k: string, body: string, v: Json, more: string, es: seq<(string, Json)>, rest: string)
    requires IsName(k)
    requires ReadValue(body) == Some((v, ", " + more))
    requires ReadEntriesTail(more) == Some((es, rest))
    ensures ReadEntriesTail(k + " = " + body) == Some(([(k, v)] + es, rest))
  {
    ReadEntriesTailName(k, body);
    assert (", " + more)[..2] == ", " && (", " + more)[2..] == more;
  }

  /** The text of a list's elements: the first `name = value`, ", ", the
      rest. */
  lemma EntriesText(es: seq<(string, Json)>, rest: string)
    requires |es| > 1
    ensures Join(Entries(es), ", ") + ")" + rest
      == es[0].0 + " = " + (FormatJson(es[0].1) + (", " + (Join(Entries(es[1..]), ", ") + ")" + rest)))
  {
    var (k, x) := es[0];
    assert x < es[0];
    var f := FormatJson(x);
    var first := k + " = " + f;
    var i := Entries(es[1..]);
    assert Entries(es) == [first] + i;
    JoinCons(first, i, ", ");
    RegroupEntry(k, f, Join(i, ", "), rest);
  }

  lemma {:induction false} ReadFormatEntriesOne(es: seq<(string, Json)>, rest: string)
    requires |es| == 1
    requires ReadableEntries(es)
    requires Delimited(rest)
    ensures ReadEntriesTail(Join(Entries(es), ", ") + ")" + rest) == Some((es, rest))
    decreases es, 0
  {
    var (k, x) := es[0];
    assert x < es[0];
    assert IsName(k) && Readable(x);
    var after := ")" + rest;
    assert Join(Entries(es), ", ") + ")" + rest == k + " = " + (FormatJson(x) + after) by {
      assert Entries(es) == [k + " = " + FormatJson(x)];
    }
    assert ReadValue(FormatJson(x) + after) == Some((x, after)) by {
      ReadFormat(x, after);
    }
    ReadEntriesTailLast(k, FormatJson(x) + after, x, rest);
    assert [(k, x)] == es;
  }

  lemma {:induction false} ReadFormatEntriesTail(es: seq<(string, Json)>, rest: string)
    requires |es| > 0
    requires ReadableEntries(es)
    requires Delimited(rest)
    ensures ReadEntriesTail(Join(Entries(es), ", ") + ")" + rest) == Some((es, rest))
    decreases es, 1
  {
    if |es| == 1 {
      ReadFormatEntriesOne(es, rest);
    } else {
      var (k, x) := es[0];
      assert x < es[0];
      assert IsName(k) && Readable(x) && ReadableEntries(es[1..]);
      var more := Join(Entries(es[1..]), ", ") + ")" + rest;
      var after := ", " + more;
      EntriesText(es, rest);
      ReadFormat(x, after);
      ReadFormatEntriesTail(es[1..], rest);
      ReadEntriesTailMore(k, FormatJson(x) + after, x, more, es[1..], rest);
      assert [(k, x)] + es[1..] == es;
    }
  }

  lemma {:induction false} NameRunOfName(k: string, rest: string)
    requires forall i :: 0 <= i < |k| ==> IsNameChar(k[i])
    requires |rest| > 0 && rest[0] == ' '
    ensures NameRun(k + rest) == |k|
  {
    if |k| > 0 {
      assert (k + rest)[1..] == k[1..] + rest;
      NameRunOfName(k[1..], rest);
    }
  }
}
