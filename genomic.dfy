/** The domain model shared by the bridge and the tools: a genomic range, a
    named list of ranges, a table, and the two type guards that recognise
    the first two among arbitrary JSON values. */
module Genomic {
  import opened Js

  /** The strand type: exactly one of "+", "-" and "*". Values read back
      from R are cast to it without a check, so records carry a string. */
  predicate IsStrand(s: string)
  {
    s == "+" || s == "-" || s == "*"
  }

  /** One interval on a named sequence. `strand`, `width` and `metadata`
      are optional fields; `width` is only ever filled in when a range is
      read back from R. */
  datatype GenomicRange = GenomicRange(
    seqnames: string,
    start: int,
    end: int,
    strand: Option<string>,
    width: Option<int>,
    metadata: Option<seq<(string, Json)>>)

  /** One labelled element of a GRangesList. */
  datatype GRangesList = GRangesList(
    id: string,
    ranges: seq<GenomicRange>,
    metadata: Option<seq<(string, Json)>>)

  /** A table: its columns in order, and the row count. */
  datatype DataTable = DataTable(columns: seq<(string, seq<Json>)>, nrows: nat)

  predicate IsStrValue(v: Option<Json>)
  {
    v.Some? && v.value.Str?
  }

  predicate IsNumValue(v: Option<Json>)
  {
    v.Some? && v.value.Num?
  }

  /** `isGenomicRange(obj)`: obj is truthy, `seqnames` is a string and
      `start` and `end` are numbers. */
  predicate IsGenomicRange(obj: Json)
  {
    && Truthy(Some(obj))
    && IsStrValue(Field(obj, "seqnames"))
    && IsNumValue(Field(obj, "start"))
    && IsNumValue(Field(obj, "end"))
  }

  /** `isGRangesList(obj)`: `id` is a string, `ranges` is an array and
      every element of it is a genomic range. */
  predicate IsGRangesList(obj: Json)
  {
    && Truthy(Some(obj))
    && IsStrValue(Field(obj, "id"))
    && Field(obj, "ranges").Some? && Field(obj, "ranges").value.Arr?
    && forall i :: 0 <= i < |Field(obj, "ranges").value.items| ==>
         IsGenomicRange(Field(obj, "ranges").value.items[i])
  }

  /** The JSON object a client sends for a range (its optional fields
      present exactly when they are set). */
  function RangeToJson(r: GenomicRange): (j: Json)
    ensures j.Obj? && |j.entries| >= 3
    ensures j.entries[..3] == [("seqnames", Str(r.seqnames)), ("start", Num(r.start)), ("end", Num(r.end))]
  {
    Obj([("seqnames", Str(r.seqnames)), ("start", Num(r.start)), ("end", Num(r.end))]
      + (if r.strand.Some? then [("strand", Str(r.strand.value))] else [])
      + (if r.width.Some? then [("width", Num(r.width.value))] else [])
      + (if r.metadata.Some? then [("metadata", Obj(r.metadata.value))] else []))
  }

  /** The JSON object a client sends for a GRangesList element. */
  function ListToJson(l: GRangesList): (j: Json)
    ensures j.Obj? && |j.entries| >= 2
    ensures j.entries[..2] == [("id", Str(l.id)), ("ranges", Arr(seq(|l.ranges|, i requires 0 <= i < |l.ranges| => RangeToJson(l.ranges[i]))))]
  {
    Obj([("id", Str(l.id)), ("ranges", Arr(seq(|l.ranges|, i requires 0 <= i < |l.ranges| => RangeToJson(l.ranges[i]))))]
      + (if l.metadata.Some? then [("metadata", Obj(l.metadata.value))] else []))
  }

  /** The guard looks at `seqnames`, `start` and `end` only: any object that
      carries a string and two numbers under those keys passes, whatever
      else it holds, with `start` after `end`, with any `strand`, `width`
      or `metadata` value. */
  lemma IsGenomicRangeLooksAtThreeFields(seqnames: string, start: int, end: int, extra: seq<(string, Json)>)
    ensures IsGenomicRange(Obj([("seqnames", Str(seqnames)), ("start", Num(start)), ("end", Num(end))] + extra))
  {
    var core := [("seqnames", Str(seqnames)), ("start", Num(start)), ("end", Num(end))];
    assert core[0].0 == "seqnames" && core[1].0 == "start" && core[2].0 == "end";
    GetAppend(core, extra, "seqnames");
    GetAppend(core, extra, "start");
    GetAppend(core, extra, "end");
  }

  /** The converse direction: a range whose `start` arrives as a string
      fails the guard, whatever else the object holds; so does null. */
  lemma IsGenomicRangeNeedsNumericStart(seqnames: string, start: string, end: int, extra: seq<(string, Json)>)
    ensures !IsGenomicRange(Obj([("seqnames", Str(seqnames)), ("start", Str(start)), ("end", Num(end))] + extra))
    ensures !IsGenomicRange(Null)
  {
    var core := [("seqnames", Str(seqnames)), ("start", Str(start)), ("end", Num(end))];
    assert core[0].0 == "seqnames" && core[1].0 == "start";
    GetSkip(core + extra, "start");
    GetFirst((core + extra)[1..], "start");
  }

  /** Every typed range, sent as JSON, passes the guard. */
  lemma RangeToJsonIsGenomicRange(r: GenomicRange)
    ensures IsGenomicRange(RangeToJson(r))
  {
    var j := RangeToJson(r);
    assert j.entries == j.entries[..3] + j.entries[3..];
    IsGenomicRangeLooksAtThreeFields(r.seqnames, r.start, r.end, j.entries[3..]);
  }

  /** Every typed GRangesList element, sent as JSON, passes the list guard,
      the empty list of ranges included. */
  lemma ListToJsonIsGRangesList(l: GRangesList)
    ensures IsGRangesList(ListToJson(l))
  {
    var j := ListToJson(l);
    var rs := seq(|l.ranges|, i requires 0 <= i < |l.ranges| => RangeToJson(l.ranges[i]));
    var core := [("id", Str(l.id)), ("ranges", Arr(rs))];
    assert j.entries == core + j.entries[2..];
    assert core[0].0 == "id" && core[1].0 == "ranges";
    GetAppend(core, j.entries[2..], "id");
    GetAppend(core, j.entries[2..], "ranges");
    assert Field(j, "ranges") == Some(Arr(rs));
    forall i | 0 <= i < |rs|
      ensures IsGenomicRange(rs[i])
    {
      RangeToJsonIsGenomicRange(l.ranges[i]);
    }
  }
}
