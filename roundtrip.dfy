/** How the two halves of the bridge fit together: the GRanges text carries
    the range columns as R vectors, the R wrapper exports those columns,
    and parseGRanges rebuilds the ranges from them with the strand the text
    wrote and the width derived from start and end. Also the error and
    pass-through behaviour of parseROutput. */
module RoundTrip {
  import opened Js
  import opened Genomic
  import opened Bridge
  import opened RLiteral

  // ---------------------------------------------------------------------
  // The columns of a list of ranges

  function SeqnamesColumn(rs: seq<GenomicRange>): seq<Json>
  {
    seq(|rs|, i requires 0 <= i < |rs| => Str(rs[i].seqnames))
  }

  function StartColumn(rs: seq<GenomicRange>): seq<Json>
  {
    seq(|rs|, i requires 0 <= i < |rs| => Num(rs[i].start))
  }

  function EndColumn(rs: seq<GenomicRange>): seq<Json>
  {
    seq(|rs|, i requires 0 <= i < |rs| => Num(rs[i].end))
  }

  /** The strand column as the GRanges text writes it: "*" for a missing
      or empty strand. */
  function StrandColumn(rs: seq<GenomicRange>): seq<Json>
  {
    seq(|rs|, i requires 0 <= i < |rs| => Str(StrandText(rs[i].strand)))
  }

  /** The metadata columns as the GRanges text writes them: one per key of
      the first range, holding every range's value for that key (null where
      a range lacks it). */
  function MetadataColumns(rs: seq<GenomicRange>): seq<(string, Json)>
  {
    var keys := MetadataKeys(rs);
    seq(|keys|, j requires 0 <= j < |keys| =>
      (keys[j], Arr(seq(|rs|, i requires 0 <= i < |rs| => MetaValue(rs[i], keys[j])))))
  }

  /** No character of the text needs escaping. */
  predicate Plain(s: string)
  {
    '"' !in s && '\\' !in s
  }

  // ---------------------------------------------------------------------
  // Element-wise views of Items and Entries

  lemma {:induction false} ItemsAt(xs: seq<Json>)
    ensures |Items(xs)| == |xs|
    ensures forall i :: 0 <= i < |xs| ==> Items(xs)[i] == FormatJson(xs[i])
  {
    if |xs| > 0 {
      ItemsAt(xs[1..]);
      assert Items(xs) == [FormatJson(xs[0])] + Items(xs[1..]);
    }
  }

  lemma {:induction false} EntriesAt(es: seq<(string, Json)>)
    ensures |Entries(es)| == |es|
    ensures forall j :: 0 <= j < |es| ==> Entries(es)[j] == es[j].0 + " = " + FormatJson(es[j].1)
  {
    if |es| > 0 {
      EntriesAt(es[1..]);
      var (k, x) := es[0];
      assert x < es[0];
      assert Entries(es) == [k + " = " + FormatJson(x)] + Entries(es[1..]);
    }
  }

  /** A vector of quote-free strings is written without escapes: it is the
      R literal of the array of those strings. */
  lemma StrVector(names: seq<string>)
    requires forall i :: 0 <= i < |names| ==> '"' !in names[i]
    ensures Vector(seq(|names|, i requires 0 <= i < |names| => "\"" + names[i] + "\""))
      == FormatJson(Arr(seq(|names|, i requires 0 <= i < |names| => Str(names[i]))))
  {
    var xs := seq(|names|, i requires 0 <= i < |names| => Str(names[i]));
    ItemsAt(xs);
    assert Items(xs) == seq(|names|, i requires 0 <= i < |names| => "\"" + names[i] + "\"");
  }

  lemma NumVector(ns: seq<int>)
    ensures Vector(seq(|ns|, i requires 0 <= i < |ns| => IntToString(ns[i])))
      == FormatJson(Arr(seq(|ns|, i requires 0 <= i < |ns| => Num(ns[i]))))
  {
    var xs := seq(|ns|, i requires 0 <= i < |ns| => Num(ns[i]));
    ItemsAt(xs);
    assert Items(xs) == seq(|ns|, i requires 0 <= i < |ns| => IntToString(ns[i]));
  }

  /** The metadata text is the inside of the R list of the metadata
      columns. */
  lemma MetadataAsList(rs: seq<GenomicRange>)
    ensures MetadataText(rs, MetadataKeys(rs)) == Join(Entries(MetadataColumns(rs)), ", ")
  {
    var keys := MetadataKeys(rs);
    var cols := MetadataColumns(rs);
    EntriesAt(cols);
    forall j | 0 <= j < |keys|
      ensures Entries(cols)[j] == keys[j] + " = " + Vector(seq(|rs|, i requires 0 <= i < |rs| => FormatJson(MetaValue(rs[i], keys[j]))))
    {
      var vals := seq(|rs|, i requires 0 <= i < |rs| => MetaValue(rs[i], keys[j]));
      ItemsAt(vals);
      assert Items(vals) == seq(|rs|, i requires 0 <= i < |rs| => FormatJson(MetaValue(rs[i], keys[j])));
    }
    assert Entries(cols) == seq(|keys|, j requires 0 <= j < |keys| =>
      keys[j] + " = " + Vector(seq(|rs|, i requires 0 <= i < |rs| => FormatJson(MetaValue(rs[i], keys[j])))));
  }

  /** The seqnames vector of the GRanges text is the R literal of the
      seqnames column. */
  lemma SeqnamesText(rs: seq<GenomicRange>)
    requires forall i :: 0 <= i < |rs| ==> '"' !in rs[i].seqnames
    ensures Vector(seq(|rs|, i requires 0 <= i < |rs| => "\"" + rs[i].seqnames + "\""))
      == FormatJson(Arr(SeqnamesColumn(rs)))
  {
    var names := seq(|rs|, i requires 0 <= i < |rs| => rs[i].seqnames);
    StrVector(names);
    assert SeqnamesColumn(rs) == seq(|names|, i requires 0 <= i < |names| => Str(names[i]));
    assert seq(|rs|, i requires 0 <= i < |rs| => "\"" + rs[i].seqnames + "\"")
      == seq(|names|, i requires 0 <= i < |names| => "\"" + names[i] + "\"");
  }

  /** The strand vector is the R literal of the strand column. */
  lemma StrandsText(rs: seq<GenomicRange>)
    requires forall i :: 0 <= i < |rs| ==> '"' !in StrandText(rs[i].strand)
    ensures Vector(seq(|rs|, i requires 0 <= i < |rs| => "\"" + StrandText(rs[i].strand) + "\""))
      == FormatJson(Arr(StrandColumn(rs)))
  {
    var strands := seq(|rs|, i requires 0 <= i < |rs| => StrandText(rs[i].strand));
    StrVector(strands);
    assert StrandColumn(rs) == seq(|strands|, i requires 0 <= i < |strands| => Str(strands[i]));
    assert seq(|rs|, i requires 0 <= i < |rs| => "\"" + StrandText(rs[i].strand) + "\"")
      == seq(|strands|, i requires 0 <= i < |strands| => "\"" + strands[i] + "\"");
  }

  /** The start and end vectors are the R literals of those columns. */
  lemma BoundsText(rs: seq<GenomicRange>)
    ensures Vector(seq(|rs|, i requires 0 <= i < |rs| => IntToString(rs[i].start))) == FormatJson(Arr(StartColumn(rs)))
    ensures Vector(seq(|rs|, i requires 0 <= i < |rs| => IntToString(rs[i].end))) == FormatJson(Arr(EndColumn(rs)))
  {
    var starts := seq(|rs|, i requires 0 <= i < |rs| => rs[i].start);
    var ends := seq(|rs|, i requires 0 <= i < |rs| => rs[i].end);
    NumVector(starts);
    NumVector(ends);
    assert StartColumn(rs) == seq(|starts|, i requires 0 <= i < |starts| => Num(starts[i]));
    assert EndColumn(rs) == seq(|ends|, i requires 0 <= i < |ends| => Num(ends[i]));
    assert seq(|rs|, i requires 0 <= i < |rs| => IntToString(rs[i].start))
      == seq(|starts|, i requires 0 <= i < |starts| => IntToString(starts[i]));
    assert seq(|rs|, i requires 0 <= i < |rs| => IntToString(rs[i].end))
      == seq(|ends|, i requires 0 <= i < |ends| => IntToString(ends[i]));
  }

  /** The four range columns of the GRanges text are the R literals of the
      seqnames, start, end and strand columns, in input order. */
  lemma HeadCarriesColumns(rs: seq<GenomicRange>)
    requires forall i :: 0 <= i < |rs| ==> '"' !in rs[i].seqnames && '"' !in StrandText(rs[i].strand)
    ensures GRangesHead(rs) ==
      "GRanges(\n      seqnames = " + FormatJson(Arr(SeqnamesColumn(rs)))
      + ",\n      ranges = IRanges(start = " + FormatJson(Arr(StartColumn(rs)))
      + ", end = " + FormatJson(Arr(EndColumn(rs)))
      + "),\n      strand = " + FormatJson(Arr(StrandColumn(rs)))
  {
    SeqnamesText(rs);
    StrandsText(rs);
    BoundsText(rs);
  }

  /** The GRanges text of non-empty ranges with quote-free names and
      strands is the constructor call whose arguments are the four columns
      written as R vectors, in input order, followed, when the first range
      has metadata keys, by the metadata columns written as the inside of
      an R list. */
  lemma GRangesCarriesColumns(rs: seq<GenomicRange>)
    requires |rs| > 0
    requires forall i :: 0 <= i < |rs| ==> '"' !in rs[i].seqnames && '"' !in StrandText(rs[i].strand)
    ensures |MetadataKeys(rs)| == 0 ==> (FormatGRanges(rs) ==
      "GRanges(\n      seqnames = " + FormatJson(Arr(SeqnamesColumn(rs)))
      + ",\n      ranges = IRanges(start = " + FormatJson(Arr(StartColumn(rs)))
      + ", end = " + FormatJson(Arr(EndColumn(rs)))
      + "),\n      strand = " + FormatJson(Arr(StrandColumn(rs)))
      + ")")
    ensures |MetadataKeys(rs)| > 0 ==> (FormatGRanges(rs) ==
      "GRanges(\n      seqnames = " + FormatJson(Arr(SeqnamesColumn(rs)))
      + ",\n      ranges = IRanges(start = " + FormatJson(Arr(StartColumn(rs)))
      + ", end = " + FormatJson(Arr(EndColumn(rs)))
      + "),\n      strand = " + FormatJson(Arr(StrandColumn(rs)))
      + ",\n      " + Join(Entries(MetadataColumns(rs)), ", ")
      + ")")
  {
    HeadCarriesColumns(rs);
    MetadataAsList(rs);
  }

  /** Every column of the GRanges text reads back, with the R literal
      reader, as the column it was written from. */
  lemma GRangesColumnsReadBack(rs: seq<GenomicRange>, rest: string)
    requires forall i :: 0 <= i < |rs| ==> Plain(rs[i].seqnames) && Plain(StrandText(rs[i].strand))
    requires Delimited(rest)
    ensures ReadValue(FormatJson(Arr(SeqnamesColumn(rs))) + rest) == Some((Arr(SeqnamesColumn(rs)), rest))
    ensures ReadValue(FormatJson(Arr(StartColumn(rs))) + rest) == Some((Arr(StartColumn(rs)), rest))
    ensures ReadValue(FormatJson(Arr(EndColumn(rs))) + rest) == Some((Arr(EndColumn(rs)), rest))
    ensures ReadValue(FormatJson(Arr(StrandColumn(rs))) + rest) == Some((Arr(StrandColumn(rs)), rest))
  {
    ReadableColumn(SeqnamesColumn(rs));
    ReadableColumn(StartColumn(rs));
    ReadableColumn(EndColumn(rs));
    ReadableColumn(StrandColumn(rs));
    ReadFormat(Arr(SeqnamesColumn(rs)), rest);
    ReadFormat(Arr(StartColumn(rs)), rest);
    ReadFormat(Arr(EndColumn(rs)), rest);
    ReadFormat(Arr(StrandColumn(rs)), rest);
  }

  /** A column of numbers and backslash-free strings is readable. */
  lemma {:induction false} ReadableColumn(xs: seq<Json>)
    requires forall i :: 0 <= i < |xs| ==> xs[i].Num? || (xs[i].Str? && '\\' !in xs[i].s)
    ensures ReadableItems(xs)
  {
    if |xs| > 0 {
      ReadableColumn(xs[1..]);
    }
  }

  // ---------------------------------------------------------------------
  // The export that parseGRanges reads

  /** The object the R wrapper writes for a GRanges: its seqnames, start,
      end and strand columns and its metadata, under those keys. */
  function Columns(names: seq<Json>, starts: seq<Json>, ends: seq<Json>, strands: seq<Json>, metadata: Json): Json
  {
    Obj([
      ("seqnames", Arr(names)),
      ("start", Arr(starts)),
      ("end", Arr(ends)),
      ("strand", Arr(strands)),
      ("metadata", metadata)])
  }

  /** The metadata columns as JSON entries. */
  function MetaEntries(meta: seq<(string, seq<Json>)>): seq<(string, Json)>
  {
    seq(|meta|, k requires 0 <= k < |meta| => (meta[k].0, Arr(meta[k].1)))
  }

  /** The export of a GRanges built from these ranges and metadata columns:
      the columns the GRanges text writes, and the metadata as an object of
      columns, or as an empty array when there are none. */
  function Export(rs: seq<GenomicRange>, meta: seq<(string, seq<Json>)>): Json
  {
    Columns(SeqnamesColumn(rs), StartColumn(rs), EndColumn(rs), StrandColumn(rs),
      if |meta| == 0 then Arr([]) else Obj(MetaEntries(meta)))
  }

  /** Metadata columns aligned with the ranges, under distinct names. */
  predicate AlignedMeta(meta: seq<(string, seq<Json>)>, n: nat)
  {
    && (forall k :: 0 <= k < |meta| ==> |meta[k].1| == n)
    && (forall a, b :: 0 <= a < b < |meta| ==> meta[a].0 != meta[b].0)
  }

  /** The range as parseGRanges returns it: strand filled in as the text
      wrote it, width derived, metadata row `i` of the columns. */
  function Reparsed(rs: seq<GenomicRange>, meta: seq<(string, seq<Json>)>, i: nat): GenomicRange
    requires i < |rs|
    requires AlignedMeta(meta, |rs|)
  {
    GenomicRange(rs[i].seqnames, rs[i].start, rs[i].end,
      Some(StrandText(rs[i].strand)),
      Some(rs[i].end - rs[i].start + 1),
      if |meta| == 0 then None
      else Some(seq(|meta|, k requires 0 <= k < |meta| => (meta[k].0, meta[k].1[i]))))
  }

  lemma ColumnsFront(names: seq<Json>, starts: seq<Json>, ends: seq<Json>, strands: seq<Json>, metadata: Json)
    ensures Column(Columns(names, starts, ends, strands, metadata), "seqnames") == names
    ensures Column(Columns(names, starts, ends, strands, metadata), "start") == starts
  {
    var es := Columns(names, starts, ends, strands, metadata).entries;
    GetFirst(es, "seqnames");
    GetSkip(es, "start");
    GetFirst(es[1..], "start");
  }

  lemma ColumnsEnd(names: seq<Json>, starts: seq<Json>, ends: seq<Json>, strands: seq<Json>, metadata: Json)
    ensures Column(Columns(names, starts, ends, strands, metadata), "end") == ends
  {
    var es := Columns(names, starts, ends, strands, metadata).entries;
    GetSkip(es, "end");
    GetSkip(es[1..], "end");
    assert es[1..][1..] == es[2..];
    GetFirst(es[2..], "end");
  }

  lemma ColumnsStrand(names: seq<Json>, starts: seq<Json>, ends: seq<Json>, strands: seq<Json>, metadata: Json)
    ensures Column(Columns(names, starts, ends, strands, metadata), "strand") == strands
  {
    var es := Columns(names, starts, ends, strands, metadata).entries;
    GetSkip(es, "strand");
    GetSkip(es[1..], "strand");
    assert es[1..][1..] == es[2..];
    GetSkip(es[2..], "strand");
    assert es[2..][1..] == es[3..];
    GetFirst(es[3..], "strand");
  }

  lemma ColumnsMetadata(names: seq<Json>, starts: seq<Json>, ends: seq<Json>, strands: seq<Json>, metadata: Json)
    ensures Field(Columns(names, starts, ends, strands, metadata), "metadata") == Some(metadata)
  {
    var es := Columns(names, starts, ends, strands, metadata).entries;
    GetSkip(es, "metadata");
    GetSkip(es[1..], "metadata");
    assert es[1..][1..] == es[2..];
    GetSkip(es[2..], "metadata");
    assert es[2..][1..] == es[3..];
    GetSkip(es[3..], "metadata");
    assert es[3..][1..] == es[4..];
    GetFirst(es[4..], "metadata");
  }

  /** The columns of the export are the columns of the ranges. */
  lemma ExportColumns(rs: seq<GenomicRange>, meta: seq<(string, seq<Json>)>)
    ensures Column(Export(rs, meta), "seqnames") == SeqnamesColumn(rs)
    ensures Column(Export(rs, meta), "start") == StartColumn(rs)
    ensures Column(Export(rs, meta), "end") == EndColumn(rs)
    ensures Column(Export(rs, meta), "strand") == StrandColumn(rs)
    ensures Field(Export(rs, meta), "metadata") == Some(if |meta| == 0 then Arr([]) else Obj(MetaEntries(meta)))
  {
    var metadata := if |meta| == 0 then Arr([]) else Obj(MetaEntries(meta));
    ColumnsFront(SeqnamesColumn(rs), StartColumn(rs), EndColumn(rs), StrandColumn(rs), metadata);
    ColumnsEnd(SeqnamesColumn(rs), StartColumn(rs), EndColumn(rs), StrandColumn(rs), metadata);
    ColumnsStrand(SeqnamesColumn(rs), StartColumn(rs), EndColumn(rs), StrandColumn(rs), metadata);
    ColumnsMetadata(SeqnamesColumn(rs), StartColumn(rs), EndColumn(rs), StrandColumn(rs), metadata);
  }

  /** Record `i` of the columns of the ranges is range `i` as parsed. */
  lemma RangeFromColumns(rs: seq<GenomicRange>, meta: seq<(string, seq<Json>)>, i: nat)
    requires AlignedMeta(meta, |rs|)
    requires i < |rs|
    ensures ShapeOk(SeqnamesColumn(rs), StartColumn(rs), EndColumn(rs), StrandColumn(rs),
      Some(if |meta| == 0 then Arr([]) else Obj(MetaEntries(meta))))
    ensures RangeFrom(SeqnamesColumn(rs), StartColumn(rs), EndColumn(rs), StrandColumn(rs),
      Some(if |meta| == 0 then Arr([]) else Obj(MetaEntries(meta))), i) == Reparsed(rs, meta, i)
  {
    var metadata := Some(if |meta| == 0 then Arr([]) else Obj(MetaEntries(meta)));
    assert MetaColumns(metadata) == if |meta| == 0 then [] else MetaEntries(meta);
    if |meta| > 0 {
      assert MetaRow(MetaEntries(meta), i) == seq(|meta|, k requires 0 <= k < |meta| => (meta[k].0, meta[k].1[i]));
    }
  }

  /** The export of ranges is in the shape parseGRanges expects, and
      parsing it gives back every range, in order, with its seqnames, start
      and end, the strand the text wrote ("*" for a missing one), width
      `end - start + 1`, and row `i` of the metadata columns. */
  lemma ParseExport(rs: seq<GenomicRange>, meta: seq<(string, seq<Json>)>)
    requires AlignedMeta(meta, |rs|)
    ensures RangeColumnsOk(Export(rs, meta))
    ensures |GRangesOf(Export(rs, meta))| == |rs|
    ensures forall i :: 0 <= i < |rs| ==> GRangesOf(Export(rs, meta))[i] == Reparsed(rs, meta, i)
  {
    ExportColumns(rs, meta);
    var metadata := Some(if |meta| == 0 then Arr([]) else Obj(MetaEntries(meta)));
    if |rs| > 0 {
      RangeFromColumns(rs, meta, 0);
    } else {
      assert ShapeOk(SeqnamesColumn(rs), StartColumn(rs), EndColumn(rs), StrandColumn(rs), metadata);
    }
    forall i | 0 <= i < |rs|
      ensures GRangesOf(Export(rs, meta))[i] == Reparsed(rs, meta, i)
    {
      RangeFromColumns(rs, meta, i);
    }
  }

  /** The element of a GRangesList export: its id and its ranges. */
  function ListItem(id: string, ranges: Json): Json
  {
    Obj([("id", Str(id)), ("ranges", ranges)])
  }

  /** The export of a GRangesList built from these named lists of ranges. */
  function ListExport(ids: seq<string>, lists: seq<seq<GenomicRange>>): Json
    requires |ids| == |lists|
  {
    Arr(seq(|ids|, i requires 0 <= i < |ids| => ListItem(ids[i], Export(lists[i], []))))
  }

  lemma ListItemFields(id: string, ranges: Json)
    ensures Field(ListItem(id, ranges), "id") == Some(Str(id))
    ensures Field(ListItem(id, ranges), "ranges") == Some(ranges)
    ensures Field(ListItem(id, ranges), "metadata") == None
  {
    var es := ListItem(id, ranges).entries;
    GetSkip(es, "ranges");
    GetSkip(es, "metadata");
    GetSkip(es[1..], "metadata");
  }

  /** The same for a list: the export is in the shape parseGRangesList
      expects, and its parse keeps the elements in order with their ids,
      and parses each element's ranges as above. */
  lemma ParseListExport(ids: seq<string>, lists: seq<seq<GenomicRange>>)
    requires |ids| == |lists|
    ensures ListColumnsOk(ListExport(ids, lists))
    ensures var ls := ParseGRangesList(ListExport(ids, lists));
      && |ls| == |ids|
      && forall i :: 0 <= i < |ls| ==>
           && ls[i].id == ids[i]
           && ls[i].metadata == None
           && |ls[i].ranges| == |lists[i]|
           && forall j :: 0 <= j < |lists[i]| ==> ls[i].ranges[j] == Reparsed(lists[i], [], j)
  {
    var items := ListExport(ids, lists).items;
    forall i | 0 <= i < |ids|
      ensures ListItemOk(items[i])
      ensures Field(items[i], "id") == Some(Str(ids[i]))
      ensures Field(items[i], "ranges") == Some(Export(lists[i], []))
      ensures Field(items[i], "metadata") == None
      ensures |GRangesOf(Export(lists[i], []))| == |lists[i]|
      ensures forall j :: 0 <= j < |lists[i]| ==> GRangesOf(Export(lists[i], []))[j] == Reparsed(lists[i], [], j)
    {
      ListItemFields(ids[i], Export(lists[i], []));
      ParseExport(lists[i], []);
    }
  }

  // ---------------------------------------------------------------------
  // parseROutput and parseDataTable

  /** parseROutput fails exactly when the run failed or its data is falsy
      (a generic result of 0, false, "" or null included), with the run's
      error message, or 'R execution failed' when there is none. */
  lemma ParseROutputFails(r: RExecutionResult)
    requires Parsable(r)
    ensures ParseROutput(r).Err? <==> !r.success || !Truthy(r.data)
    ensures ParseROutput(r).Err? && TruthyText(r.error) ==> ParseROutput(r).error == r.error.value
    ensures ParseROutput(r).Err? && !TruthyText(r.error) ==> ParseROutput(r).error == "R execution failed"
  {
  }

  /** Under any tag other than the three known ones, the data comes back
      unchanged; under a known tag it is parsed as that tag says. */
  lemma ParseROutputByTag(r: RExecutionResult)
    requires Parsable(r)
    requires r.success && Truthy(r.data)
    ensures r.kind !in {Some("GRanges"), Some("GRangesList"), Some("DataTable")} ==> ParseROutput(r) == Ok(Raw(r.data.value))
    ensures r.kind == Some("GRanges") ==> ParseROutput(r) == Ok(Ranges(GRangesOf(r.data.value)))
    ensures r.kind == Some("GRangesList") ==> ParseROutput(r) == Ok(Lists(ParseGRangesList(r.data.value)))
    ensures r.kind == Some("DataTable") ==> ParseROutput(r) == Ok(Table(ParseDataTable(r.data.value)))
  {
  }

  /** A table keeps its columns, in order, and its row count is the length
      of its first column, whatever the lengths of the others; a table
      without columns has no rows. */
  lemma DataTableRows(data: Json)
    requires TableColumnsOk(data)
    ensures data.Obj? ==> |ParseDataTable(data).columns| == |data.entries|
    ensures data.Obj? ==> forall k :: 0 <= k < |data.entries| ==>
      ParseDataTable(data).columns[k] == (data.entries[k].0, data.entries[k].1.items)
    ensures data.Arr? ==> ParseDataTable(data).columns == []
    ensures ParseDataTable(data).nrows == (if data.Obj? && |data.entries| > 0 then |data.entries[0].1.items| else 0)
  {
  }

  // ---------------------------------------------------------------------
  // GRangesList text

  /** Appending an element to a GRangesList appends its `"id" = GRanges`
      text after the others, with the same separator: elements keep their
      order and nothing is merged or dropped, whatever the ids. */
  lemma GRangesListAppend(ls: seq<GRangesList>, l: GRangesList)
    requires |ls| > 0
    ensures ListElements(ls + [l]) == ListElements(ls) + [ListElement(l)]
    ensures FormatGRangesList(ls + [l])
      == "GRangesList(\n  " + Join(ListElements(ls), ",\n  ") + ",\n  " + ListElement(l) + "\n)"
  {
    var els := ListElements(ls);
    ListElementsAppend(ls, l);
    JoinSnoc(els, ListElement(l), ",\n  ");
    var j := Join(els, ",\n  ");
    Regroup4Inner("GRangesList(\n  ", j + ",\n  ", ListElement(l), "\n)");
  }

  lemma ListElementsAppend(ls: seq<GRangesList>, l: GRangesList)
    ensures ListElements(ls + [l]) == ListElements(ls) + [ListElement(l)]
  {
  }

  /** Regrouping the inner pair of a concatenation of four strings. */
  lemma Regroup4Inner(a: string, b: string, c: string, d: string)
    ensures a + (b + c) + d == a + b + c + d
  {
  }

  lemma {:induction false} JoinSnoc(xs: seq<string>, x: string, sep: string)
    requires |xs| > 0
    ensures Join(xs + [x], sep) == Join(xs, sep) + sep + x
  {
    if |xs| == 1 {
      assert xs + [x] == [xs[0]] + [x];
      JoinCons(xs[0], [x], sep);
    } else {
      assert xs + [x] == [xs[0]] + (xs[1..] + [x]);
      JoinCons(xs[0], xs[1..] + [x], sep);
      JoinSnoc(xs[1..], x, sep);
      JoinCons(xs[0], xs[1..], sep);
      assert [xs[0]] + xs[1..] == xs;
    }
  }
}
