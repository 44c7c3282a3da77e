/** The bridge to the R interpreter: the serializer that turns values into R
    literal text, the deserializer that rebuilds typed records from the
    tagged columns R writes back, and the bridge object whose `initialized`
    flag records whether the gUtils library has been loaded. */
module Bridge {
  import opened Js
  import opened Genomic

  // ---------------------------------------------------------------------
  // Serializer (formatRObject and its two helpers)

  /** An argument of formatRObject. The tool handlers wrap their range
      arguments as `{type: 'GRanges', data: ranges}` and
      `{type: 'GRangesList', data: lists}`; those are the two tagged
      constructors. Every other value is plain JSON. */
  datatype RObject =
    | Value(v: Json)
    | GRangesObj(ranges: seq<GenomicRange>)
    | GRangesListObj(lists: seq<GRangesList>)

  /** The R literal for a JSON value: NULL, TRUE/FALSE, the decimal
      integer, a double-quoted string with its quotes escaped, `c(...)`
      for an array and `list(k = v, ...)` for an object. */
  function FormatJson(v: Json): (r: string)
    decreases v, 1
  {
    match v
    case Null => "NULL"
    case Bool(b) => if b then "TRUE" else "FALSE"
    case Num(n) => IntToString(n)
    case Str(s) => "\"" + EscapeQuotes(s) + "\""
    case Arr(xs) => "c(" + Join(Items(xs), ", ") + ")"
    case Obj(es) => "list(" + Join(Entries(es), ", ") + ")"
  }

  /** The literals of the elements of an array, in order. */
  function Items(xs: seq<Json>): (r: seq<string>)
    decreases xs, 0
    ensures |r| == |xs|
  {
    if |xs| == 0 then [] else [FormatJson(xs[0])] + Items(xs[1..])
  }

  /** The `key = value` pieces of an object, in key order. Keys are written
      as they are. */
  function Entries(es: seq<(string, Json)>): (r: seq<string>)
    decreases es, 0
    ensures |r| == |es|
  {
    if |es| == 0 then []
    else
      var (k, x) := es[0];
      assert x < es[0];
      [k + " = " + FormatJson(x)] + Entries(es[1..])
  }

  /** `r.strand || '*'`. */
  function StrandText(strand: Option<string>): (r: string)
    ensures r != ""
    ensures TruthyText(strand) ==> r == strand.value
    ensures !TruthyText(strand) ==> r == "*"
    ensures IsStrand(r) <==> !TruthyText(strand) || IsStrand(strand.value)
  {
    if TruthyText(strand) then strand.value else "*"
  }

  /** `r.metadata?.[col]`, with undefined written as null (both print as
      NULL). */
  function MetaValue(r: GenomicRange, col: string): Json
  {
    if r.metadata.Some? then
      match Get(r.metadata.value, col)
      case Some(v) => v
      case None => Null
    else Null
  }

  /** The metadata column names: the keys of the first range's metadata. */
  function MetadataKeys(rs: seq<GenomicRange>): (keys: seq<string>)
    ensures |rs| == 0 || rs[0].metadata.None? ==> keys == []
    ensures |rs| > 0 && rs[0].metadata.Some? ==> |keys| == |rs[0].metadata.value|
  {
    if |rs| > 0 && rs[0].metadata.Some? then
      var md := rs[0].metadata.value;
      seq(|md|, j requires 0 <= j < |md| => md[j].0)
    else []
  }

  /** An R vector `c(a, b, ...)` of already formatted elements. */
  function Vector(xs: seq<string>): string
  {
    "c(" + Join(xs, ", ") + ")"
  }

  /** formatGRanges: a GRanges(...) constructor call with four aligned
      vectors and one vector per metadata column. */
  function FormatGRanges(rs: seq<GenomicRange>): string
  {
    if |rs| == 0 then "GRanges()"
    else
      var keys := MetadataKeys(rs);
      if |keys| > 0 then GRangesHead(rs) + ",\n      " + MetadataText(rs, keys) + ")"
      else GRangesHead(rs) + ")"
  }

  /** The four range columns of formatGRanges: the seqnames quoted, the
      starts and ends as numbers, the strands quoted with `*` for a missing
      one. */
  function GRangesHead(rs: seq<GenomicRange>): string
  {
    "GRanges(\n      seqnames = " + Vector(seq(|rs|, i requires 0 <= i < |rs| => "\"" + rs[i].seqnames + "\""))
    + ",\n      ranges = IRanges(start = " + Vector(seq(|rs|, i requires 0 <= i < |rs| => IntToString(rs[i].start)))
    + ", end = " + Vector(seq(|rs|, i requires 0 <= i < |rs| => IntToString(rs[i].end)))
    + "),\n      strand = " + Vector(seq(|rs|, i requires 0 <= i < |rs| => "\"" + StrandText(rs[i].strand) + "\""))
  }

  /** The metadata columns: `col = c(v1, v2, ...)` per key, one value per
      range, NULL where a range lacks the key. */
  function MetadataText(rs: seq<GenomicRange>, keys: seq<string>): string
  {
    Join(seq(|keys|, j requires 0 <= j < |keys| =>
      keys[j] + " = " + Vector(seq(|rs|, i requires 0 <= i < |rs| => FormatJson(MetaValue(rs[i], keys[j]))))), ", ")
  }

  /** One element of a GRangesList call: the quoted id and the GRanges. */
  function ListElement(l: GRangesList): string
  {
    "\"" + l.id + "\" = " + FormatGRanges(l.ranges)
  }

  /** The element texts of a GRangesList call, in input order. */
  function ListElements(ls: seq<GRangesList>): (els: seq<string>)
    ensures |els| == |ls|
  {
    seq(|ls|, i requires 0 <= i < |ls| => ListElement(ls[i]))
  }

  /** formatGRangesList. */
  function FormatGRangesList(ls: seq<GRangesList>): string
  {
    "GRangesList(\n  " + Join(ListElements(ls), ",\n  ") + "\n)"
  }

  /** formatRObject. */
  function FormatRObject(o: RObject): string
  {
    match o
    case Value(v) => FormatJson(v)
    case GRangesObj(rs) => FormatGRanges(rs)
    case GRangesListObj(ls) => FormatGRangesList(ls)
  }

  /** What `formatRObject({type: tag, data: args.x})` receives when the
      argument `x` may be undefined: the tagged GRanges, or, when `x` is
      undefined, a plain object whose `data` is undefined. */
  function TaggedRanges(x: Option<seq<GenomicRange>>): RObject
  {
    if x.Some? then GRangesObj(x.value)
    else Value(Obj([("type", Str("GRanges")), ("data", Null)]))
  }

  function TaggedLists(x: Option<seq<GRangesList>>): RObject
  {
    if x.Some? then GRangesListObj(x.value)
    else Value(Obj([("type", Str("GRangesList")), ("data", Null)]))
  }

  /** formatGRanges as the source writes it: `cmd` starts with the four
      range columns and grows by `+=`, the metadata columns only when the
      first range has metadata keys. */
  method BuildGRanges(rs: seq<GenomicRange>) returns (cmd: string)
    ensures cmd == FormatGRanges(rs)
  {
    if |rs| == 0 {
      return "GRanges()";
    }
    cmd := GRangesHead(rs);
    if rs[0].metadata.Some? && |rs[0].metadata.value| > 0 {
      var keys := MetadataKeys(rs);
      cmd := cmd + ",\n      " + MetadataText(rs, keys);
    }
    cmd := cmd + ")";
  }

  // ---------------------------------------------------------------------
  // Deserializer (parseROutput and its helpers)

  /** What one run of the interpreter reports: `success`, the exported
      `data` (undefined when absent), the error message and the type tag. */
  datatype RExecutionResult = RExecutionResult(
    success: bool,
    data: Option<Json>,
    error: Option<string>,
    kind: Option<string>)

  /** What parseROutput returns, by type tag. */
  datatype Parsed =
    | Ranges(ranges: seq<GenomicRange>)
    | Lists(lists: seq<GRangesList>)
    | Table(table: DataTable)
    | Raw(data: Json)

  /** `data[key]` when it is an array, and no elements otherwise. */
  function Column(data: Json, key: string): seq<Json>
  {
    match Field(data, key)
    case Some(Arr(xs)) => xs
    case _ => []
  }

  predicate AllStr(xs: seq<Json>)
  {
    forall i :: 0 <= i < |xs| ==> xs[i].Str?
  }

  predicate AllNum(xs: seq<Json>)
  {
    forall i :: 0 <= i < |xs| ==> xs[i].Num?
  }

  /** Keys of a parsed JSON object are distinct. */
  predicate DistinctKeys(cols: seq<(string, Json)>)
  {
    forall a, b :: 0 <= a < b < |cols| ==> cols[a].0 != cols[b].0
  }

  /** The metadata columns of a GRanges export: the entries of `metadata`
      when it is an object, none otherwise (the wrapper writes an empty R
      list when there are no columns, which arrives as `[]`). */
  function MetaColumns(metadata: Option<Json>): seq<(string, Json)>
  {
    match metadata
    case Some(Obj(cols)) => cols
    case _ => []
  }

  /** The shape in which the R wrapper exports a GRanges, column by column:
      four parallel columns, and metadata that is absent, an empty array,
      or an object of columns as long as `seqnames` under distinct names. */
  predicate ShapeOk(names: seq<Json>, starts: seq<Json>, ends: seq<Json>, strands: seq<Json>, metadata: Option<Json>)
  {
    var n := |names|;
    && AllStr(names)
    && AllNum(starts) && |starts| == n
    && AllNum(ends) && |ends| == n
    && AllStr(strands) && |strands| == n
    && (match metadata
        case None => true
        case Some(Arr(xs)) => |xs| == 0
        case Some(Obj(cols)) =>
          && DistinctKeys(cols)
          && forall k :: 0 <= k < |cols| ==> cols[k].1.Arr? && |cols[k].1.items| == n
        case _ => false)
  }

  predicate RangeColumnsOk(data: Json)
  {
    && data.Obj?
    && ShapeOk(Column(data, "seqnames"), Column(data, "start"), Column(data, "end"),
         Column(data, "strand"), Field(data, "metadata"))
  }

  /** The metadata of record `i`: `metadata[key][i]` for every key, in key
      order. */
  function MetaRow(cols: seq<(string, Json)>, i: nat): (row: seq<(string, Json)>)
    requires forall k :: 0 <= k < |cols| ==> cols[k].1.Arr? && i < |cols[k].1.items|
    ensures |row| == |cols|
  {
    seq(|cols|, k requires 0 <= k < |cols| => (cols[k].0, cols[k].1.items[i]))
  }

  /** Record `i`: index `i` of every column, the width derived from start
      and end, and the metadata row when the metadata object has keys. */
  function RangeFrom(names: seq<Json>, starts: seq<Json>, ends: seq<Json>, strands: seq<Json>, metadata: Option<Json>, i: nat): GenomicRange
    requires ShapeOk(names, starts, ends, strands, metadata)
    requires i < |names|
  {
    var s := starts[i].n;
    var e := ends[i].n;
    var cols := MetaColumns(metadata);
    GenomicRange(names[i].s, s, e, Some(strands[i].s), Some(e - s + 1),
      if |cols| > 0 then Some(MetaRow(cols, i)) else None)
  }

  /** The records of a GRanges export, one per element of `seqnames`. */
  function GRangesOf(data: Json): (rs: seq<GenomicRange>)
    requires RangeColumnsOk(data)
  {
    var names := Column(data, "seqnames");
    var starts := Column(data, "start");
    var ends := Column(data, "end");
    var strands := Column(data, "strand");
    var metadata := Field(data, "metadata");
    seq(|names|, i requires 0 <= i < |names| => RangeFrom(names, starts, ends, strands, metadata, i))
  }

  /** The inner loop of parseGRanges: `metadata[key][i]` for each key in
      turn. */
  method ReadMetaRow(cols: seq<(string, Json)>, i: nat) returns (cells: seq<(string, Json)>)
    requires forall k :: 0 <= k < |cols| ==> cols[k].1.Arr? && i < |cols[k].1.items|
    ensures cells == MetaRow(cols, i)
  {
    cells := [];
    var k := 0;
    while k < |cols|
      invariant 0 <= k <= |cols|
      invariant cells == MetaRow(cols, i)[..k]
    {
      cells := cells + [(cols[k].0, cols[k].1.items[i])];
      k := k + 1;
    }
  }

  /** parseGRanges: one record per index of `seqnames`, built column by
      column and, for the metadata, key by key. */
  method ParseGRanges(data: Json) returns (ranges: seq<GenomicRange>)
    requires RangeColumnsOk(data)
    ensures ranges == GRangesOf(data)
  {
    var seqnames := Column(data, "seqnames");
    var start := Column(data, "start");
    var end := Column(data, "end");
    var strand := Column(data, "strand");
    var md := Field(data, "metadata");
    var metadata := MetaColumns(md);
    ranges := [];
    var i := 0;
    while i < |seqnames|
      invariant 0 <= i <= |seqnames|
      invariant |ranges| == i
      invariant forall j :: 0 <= j < i ==> ranges[j] == RangeFrom(seqnames, start, end, strand, md, j)
    {
      var row: Option<seq<(string, Json)>> := None;
      if |metadata| > 0 {
        var cells := ReadMetaRow(metadata, i);
        row := Some(cells);
      }
      var range := GenomicRange(seqnames[i].s, start[i].n, end[i].n, Some(strand[i].s),
        Some(end[i].n - start[i].n + 1), row);
      assert range == RangeFrom(seqnames, start, end, strand, md, i);
      ranges := ranges + [range];
      i := i + 1;
    }
  }

  /** The shape of a GRangesList export: an array of objects with a string
      `id` and `ranges` in the GRanges shape. */
  predicate ListItemOk(item: Json)
  {
    && item.Obj?
    && IsStrValue(Field(item, "id"))
    && Field(item, "ranges").Some? && RangeColumnsOk(Field(item, "ranges").value)
    && (Field(item, "metadata").None? || Field(item, "metadata").value.Obj?)
  }

  predicate ListColumnsOk(data: Json)
  {
    data.Arr? && forall i :: 0 <= i < |data.items| ==> ListItemOk(data.items[i])
  }

  /** parseGRangesList: each element keeps its id and metadata, and its
      ranges are parsed as a GRanges export. An element without `metadata`
      has none; the shape of the export excludes a non-object one. */
  function ParseGRangesList(data: Json): (ls: seq<GRangesList>)
    requires ListColumnsOk(data)
    ensures |ls| == |data.items|
    ensures forall i :: 0 <= i < |ls| ==>
      && Some(Str(ls[i].id)) == Field(data.items[i], "id")
      && ls[i].ranges == GRangesOf(Field(data.items[i], "ranges").value)
    ensures forall i :: 0 <= i < |ls| ==>
      (if ls[i].metadata.Some? then Field(data.items[i], "metadata") == Some(Obj(ls[i].metadata.value))
       else Field(data.items[i], "metadata") == None)
  {
    seq(|data.items|, i requires 0 <= i < |data.items| =>
      var item := data.items[i];
      GRangesList(
        Field(item, "id").value.s,
        GRangesOf(Field(item, "ranges").value),
        match Field(item, "metadata")
        case Some(Obj(md)) => Some(md)
        case _ => None))
  }

  /** The shape of a table export: an object of columns (or, for a table
      without columns, an empty array). */
  predicate TableColumnsOk(data: Json)
  {
    || (data.Arr? && |data.items| == 0)
    || (data.Obj? && forall k :: 0 <= k < |data.entries| ==> data.entries[k].1.Arr?)
  }

  /** parseDataTable: the columns unchanged; `nrows` is the length of the
      first column, 0 when there is none. */
  function ParseDataTable(data: Json): (t: DataTable)
    requires TableColumnsOk(data)
  {
    if data.Obj? then
      var cols := seq(|data.entries|, k requires 0 <= k < |data.entries| =>
        (data.entries[k].0, data.entries[k].1.items));
      DataTable(cols, if |cols| > 0 then |cols[0].1| else 0)
    else DataTable([], 0)
  }

  /** The exported data matches its type tag (the wrapper writes both). */
  predicate WellTagged(kind: Option<string>, data: Json)
  {
    && (kind == Some("GRanges") ==> RangeColumnsOk(data))
    && (kind == Some("GRangesList") ==> ListColumnsOk(data))
    && (kind == Some("DataTable") ==> TableColumnsOk(data))
  }

  predicate Parsable(r: RExecutionResult)
  {
    r.success && Truthy(r.data) ==> WellTagged(r.kind, r.data.value)
  }

  /** parseROutput: an error carrying `error` (or 'R execution failed')
      when the run failed or produced falsy data; otherwise the data parsed
      as its tag says, and returned unchanged under any other tag. */
  function ParseROutput(r: RExecutionResult): (p: Result<Parsed, string>)
    requires Parsable(r)
  {
    if !r.success || !Truthy(r.data) then Err(OrDefault(r.error, "R execution failed"))
    else if r.kind == Some("GRanges") then Ok(Ranges(GRangesOf(r.data.value)))
    else if r.kind == Some("GRangesList") then Ok(Lists(ParseGRangesList(r.data.value)))
    else if r.kind == Some("DataTable") then Ok(Table(ParseDataTable(r.data.value)))
    else Ok(Raw(r.data.value))
  }

  // ---------------------------------------------------------------------
  // The bridge object

  /** The script that loads gUtils (or its mock) in the interpreter. */
  const LoadScript: string :=
    "\n        if (!require(\"gUtils\", quietly = TRUE)) {\n"
    + "          # Try to load mock functions for testing\n"
    + "          if (file.exists(\"mock_gutils.RData\")) {\n"
    + "            load(\"mock_gutils.RData\")\n"
    + "            warning(\"Running in mock mode - limited functionality\")\n"
    + "          } else {\n"
    + "            stop(\"gUtils package not found. Please install it first or run setup-r-env.R\")\n"
    + "          }\n"
    + "        }\n"
    + "        \"gUtils environment ready\"\n      "

  /** The message of the error initialize throws when loading fails. */
  function InitError(load: RExecutionResult): string
  {
    "Failed to initialize R bridge: Error: " + OrDefault(load.error, "Failed to load gUtils")
  }

  /** The bridge: `initialized` records whether gUtils has been loaded;
      `exec` stands for executeRCommand, a run of the interpreter on one
      command. */
  class RBridge {
    var initialized: bool
    const exec: string -> RExecutionResult

    constructor(exec: string -> RExecutionResult)
      ensures !initialized
      ensures this.exec == exec
    {
      initialized := false;
      this.exec := exec;
    }

    /** initialize: nothing to do once initialized; otherwise run the load
        script and become initialized exactly when it succeeds. */
    method Initialize() returns (r: Result<(), string>)
      modifies this
      ensures old(initialized) ==> r.Ok? && initialized
      ensures !old(initialized) ==> (r.Ok? <==> exec(LoadScript).success)
      ensures initialized <==> r.Ok?
      ensures r.Err? ==> r.error == InitError(exec(LoadScript))
    {
      if initialized {
        return Ok(());
      }
      var load := exec(LoadScript);
      if load.success {
        initialized := true;
        r := Ok(());
      } else {
        r := Err(InitError(load));
      }
    }

    /** close: the bridge is no longer initialized. */
    method Close()
      modifies this
      ensures !initialized
    {
      initialized := false;
    }

    /** What every handler does once its command is built: initialize,
        then (for a known tool) run the command and parse the output. An
        initialization failure wins over an unknown tool name, because
        initialize is awaited before the switch. */
    method Run(command: Result<string, string>) returns (r: Result<Parsed, string>)
      requires forall c :: Parsable(exec(c))
      modifies this
      ensures initialized <==> (old(initialized) || exec(LoadScript).success)
      ensures !initialized ==> r == Err(InitError(exec(LoadScript)))
      ensures initialized && command.Err? ==> r == Err(command.error)
      ensures initialized && command.Ok? ==> r == ParseROutput(exec(command.value))
    {
      var init := Initialize();
      if init.Err? {
        return Err(init.error);
      }
      if command.Err? {
        return Err(command.error);
      }
      var result := exec(command.value);
      r := ParseROutput(result);
    }
  }
}
