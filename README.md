# gUtils MCP server: the R bridge, the dispatcher and the command builders

The gUtils MCP server exposes the gUtils R package as MCP tools. A client calls a tool by
name, for example `gutils_gr_findoverlaps`, and passes a record of arguments. The server then:

- looks the name up in its registry;
- routes the call to one of seven handler groups by the `_`-separated tokens of the name;
- builds one R command string from the arguments;
- runs that command in an R subprocess;
- turns the tagged JSON that R writes back into typed records.

This project models every step of that path except the R process itself.

- `js.dfy` (module `Js`): the JavaScript values and text operations the source relies on.
  - JSON values with objects as ordered key/value sequences, and truthiness.
  - `${n}` for integers and `${undefined}` interpolation.
  - `split`/`join`, and the `"` → `\"` replacement.
- `genomic.dfy` (module `Genomic`): the domain model of `src/types/genomic.ts`.
  - A range, a GRangesList element and a table.
  - The type guards `isGenomicRange` and `isGRangesList`.
- `rbridge.dfy` (module `Bridge`): the serializer, the deserializer and the `RBridge` class.
  - The serializer is `formatRObject`, `formatGRanges` and `formatGRangesList`.
  - The deserializer is `parseROutput`, `parseGRanges`, `parseGRangesList` and `parseDataTable`.
  - The `RBridge` class holds the `initialized` flag that `initialize`/`close` update.
  - `executeRCommand` is the function field `exec`, from a command to an `RExecutionResult`.
- `rliteral.dfy` (module `RLiteral`): a reader for the R literal text the serializer writes.
  - `ReadFormat` proves that reading back any serialized JSON value returns that value.
- `roundtrip.dfy` (module `RoundTrip`): what a serialized GRanges carries and what the parsers rebuild.
  - A `GRanges(...)` text is made of the JSON columns R exports.
  - Parsing exported columns gives back the ranges, with `width` derived and `*` for a missing strand.
  - A `parseROutput` failure happens exactly when `success` is false or `data` is falsy.
- `rcall.dfy` (module `RCall`): the shape every handler shares.
  - A fixed head, then optional `, key = value` clauses in a fixed order, then `)`.
  - Proved facts about it: absent clauses leave no trace, and each clause sits in its place.
- One module per tool file: `OverlapOperations`, `RangeManipulation`, `GRangesListOperations`,
  `Aggregation`, `Operators`, `Utilities` and `DataConversion`.
  - Each has its tool-name list and a `Command` function from name and arguments to a
    `Result`, with `Unknown tool: <name>` as the error.
  - Where the source grows `let cmd` by `+=`, a `method` does the same and is proved equal to the
    specification; the `BuildCommand` method of each module ties them together.
- `dispatch.dfy` (module `Dispatch`): `src/index.ts`.
  - The registry built by `registerTools`, the routing by `name.split('_')`, and the
    MethodNotFound / InternalError policy.
  - The class `Server` with its `tools` map, its `RegisterTools` loop and `CallTool`.

Some behaviour of the source is easy to misread. The model follows the code in each case:

- Metadata columns are taken from the first range's keys only. A later range that lacks a key
  contributes `NULL`.
- `parseROutput` also fails when `data` is falsy (0, `false`, `""`), not only when `success` is false.
- A round trip does not reproduce a range exactly:
  - a missing or empty strand comes back as `*`;
  - `width` is derived as `end - start + 1`.

## Model

| member | source | states |
|---|---|---|
| Js.OrDefault | gutils-mcp-server/src/utils/rbridge.ts:248 | `x \|\| fallback` on an optional string: the string itself when truthy (defined and non-empty), the fallback otherwise |
| Js.NatToString | gutils-mcp-server/src/utils/rbridge.ts:180-182 | the decimal text of a natural number is a non-empty run of digits with no leading zero except for 0 itself |
| Js.NatValueOfNatToString | gutils-mcp-server/src/utils/rbridge.ts:180-182 | reading the decimal text back gives the number: the text of a number determines the number |
| Js.IntToString | gutils-mcp-server/src/utils/rbridge.ts:180-182 | `number.toString()` on an integer: the digits of the absolute value, with a leading `-` exactly for a negative number |
| Js.IntText | gutils-mcp-server/src/tools/range-manipulation.ts:451 | `${x}` on an optional number: `undefined` exactly when it is absent, its decimal text otherwise |
| Js.StrText | gutils-mcp-server/src/tools/range-manipulation.ts:451 | `${s}` on an optional string: the string when present, `undefined` when absent |
| Js.Split | gutils-mcp-server/src/index.ts:118 | `split` always yields at least one piece |
| Js.SplitJoin | gutils-mcp-server/src/index.ts:118 | splitting the separator-join of separator-free pieces gives back the pieces |
| Js.JoinSplit | gutils-mcp-server/src/index.ts:118 | joining the pieces of a split gives back the string, and no piece contains the separator |
| Js.Split3 | gutils-mcp-server/src/index.ts:131 | a name with two separators splits into exactly its three separator-free tokens |
| Js.EscapeQuotes | gutils-mcp-server/src/utils/rbridge.ts:185 | the quote replacement leaves a quote-free string unchanged, never shortens, keeps the first character, and every `"` in its output is preceded by `\` |
| Genomic.RangeToJson | gutils-mcp-server/src/types/genomic.ts:7-14 | a range sent as JSON starts with its `seqnames` string and its `start` and `end` numbers |
| Genomic.ListToJson | gutils-mcp-server/src/types/genomic.ts:16-20 | a GRangesList element sent as JSON starts with its `id` string and its `ranges` array, one object per range in order |
| Genomic.IsGenomicRangeLooksAtThreeFields | gutils-mcp-server/src/types/genomic.ts:90-95 | any object with a string `seqnames` and numeric `start` and `end` passes `isGenomicRange`, whatever else it carries: `start > end`, any strand, width or metadata |
| Genomic.IsGenomicRangeNeedsNumericStart | gutils-mcp-server/src/types/genomic.ts:90-95 | an object whose `start` is a string fails `isGenomicRange`, and so does null |
| Genomic.RangeToJsonIsGenomicRange | gutils-mcp-server/src/types/genomic.ts:90-95 | every typed range, sent as JSON, passes `isGenomicRange` |
| Genomic.ListToJsonIsGRangesList | gutils-mcp-server/src/types/genomic.ts:97-102 | every typed GRangesList element, sent as JSON, passes `isGRangesList`, with an empty `ranges` array included |
| Bridge.Items | gutils-mcp-server/src/utils/rbridge.ts:188-190 | the element texts of an array: one per element |
| Bridge.Entries | gutils-mcp-server/src/utils/rbridge.ts:200-204 | the `key = value` texts of an object: one per entry |
| Bridge.StrandText | gutils-mcp-server/src/utils/rbridge.ts:215 | `r.strand \|\| '*'`: never empty; the strand itself when it is a non-empty string, `*` otherwise; the written strand is one of `+`, `-`, `*` (the Strand type of gutils-mcp-server/src/types/genomic.ts:5) exactly when the input strand is absent, empty or already one of them |
| Bridge.MetadataKeys | gutils-mcp-server/src/utils/rbridge.ts:223-224 | the metadata columns are the first range's keys: none for an empty list or a first range without metadata, one per key of the first range otherwise |
| Bridge.ListElements | gutils-mcp-server/src/utils/rbridge.ts:237-240 | one `"id" = GRanges(...)` element per list item |
| Bridge.BuildGRanges | gutils-mcp-server/src/utils/rbridge.ts:207-234 | the `cmd +=` construction of formatGRanges yields the GRanges text: `GRanges()` for no ranges, else the four columns, then the metadata columns only when the first range has metadata keys, then `)` |
| Bridge.MetaRow | gutils-mcp-server/src/utils/rbridge.ts:276-281 | the metadata of row i holds one entry per metadata column |
| Bridge.ReadMetaRow | gutils-mcp-server/src/utils/rbridge.ts:277-280 | the inner loop fills `range.metadata[key] = metadata[key][i]` for every key, in key order |
| Bridge.ParseGRanges | gutils-mcp-server/src/utils/rbridge.ts:263-287 | the loop that pushes one record per seqname returns exactly the rows of the columns, record i built from index i of each column |
| Bridge.ParseGRangesList | gutils-mcp-server/src/utils/rbridge.ts:289-295 | one element per item, in order, each keeping its id, holding its parsed ranges and carrying the item's metadata object unchanged (none when the item has none) |
| Bridge.RBridge.constructor | gutils-mcp-server/src/utils/rbridge.ts:18-28 | a new bridge is not initialized |
| Bridge.RBridge.Initialize | gutils-mcp-server/src/utils/rbridge.ts:30-59 | a no-op success when already initialized; otherwise the flag is set exactly when the gUtils load script succeeds, and a failure reports `Failed to initialize R bridge: Error: <error or 'Failed to load gUtils'>` |
| Bridge.RBridge.Close | gutils-mcp-server/src/utils/rbridge.ts:303-314 | after close the bridge is not initialized |
| Bridge.RBridge.Run | gutils-mcp-server/src/tools/overlap-operations.ts:384-401 | a handler call: initialize first; an initialization failure is the result; else a command-building error is the result; else the parsed output of running the command |
| RLiteral.ReadEscaped | gutils-mcp-server/src/utils/rbridge.ts:185 | the quote-escaped body of a backslash-free string reads back as that string |
| RLiteral.ReadFormatNum | gutils-mcp-server/src/utils/rbridge.ts:180-182 | a serialized integer, negative ones included, reads back as that integer |
| RLiteral.ReadFormatStr | gutils-mcp-server/src/utils/rbridge.ts:184-186 | a serialized backslash-free string reads back as that string |
| RLiteral.ReadFormatConst | gutils-mcp-server/src/utils/rbridge.ts:172-178 | `NULL`, `TRUE` and `FALSE` read back as null, true and false |
| RLiteral.ReadFormatItems | gutils-mcp-server/src/utils/rbridge.ts:188-190 | the comma-joined element texts of an array read back as the elements, in order |
| RLiteral.ReadFormatEntries | gutils-mcp-server/src/utils/rbridge.ts:200-204 | the comma-joined `key = value` texts of an object with plain keys read back as the entries, in order |
| RLiteral.ReadFormat | gutils-mcp-server/src/utils/rbridge.ts:171-205 | round trip: the R literal of any JSON value without backslashes and with plain object keys reads back as that value |
| RoundTrip.MetadataAsList | gutils-mcp-server/src/utils/rbridge.ts:222-230 | the metadata text is the `key = c(...)` list of the first range's keys, each column holding every range's value and null where a range lacks the key |
| RoundTrip.HeadCarriesColumns | gutils-mcp-server/src/utils/rbridge.ts:212-220 | the four range vectors of a GRanges text are the R literals of the seqnames, start, end and strand columns, aligned and in input order |
| RoundTrip.GRangesCarriesColumns | gutils-mcp-server/src/utils/rbridge.ts:207-234 | a non-empty GRanges text is exactly those four column literals, plus the metadata list only when the first range has metadata keys |
| RoundTrip.GRangesColumnsReadBack | gutils-mcp-server/src/utils/rbridge.ts:212-220 | each of the four column literals reads back as its column |
| RoundTrip.ExportColumns | gutils-mcp-server/src/utils/rbridge.ts:264 | the exported object hands each of `seqnames`, `start`, `end`, `strand`, `metadata` back to the parser unchanged |
| RoundTrip.RangeFromColumns | gutils-mcp-server/src/utils/rbridge.ts:268-281 | record i of exported columns is range i with its strand as written, `width = end - start + 1`, and metadata from index i of each column only when there are columns |
| RoundTrip.ParseExport | gutils-mcp-server/src/utils/rbridge.ts:263-287 | parsing the exported columns of any ranges returns as many records as ranges, record i rebuilt from range i |
| RoundTrip.ListItemFields | gutils-mcp-server/src/utils/rbridge.ts:290-294 | an exported list item hands its id and its ranges to the parser and carries no metadata |
| RoundTrip.ParseListExport | gutils-mcp-server/src/utils/rbridge.ts:289-295 | parsing an exported GRangesList keeps the element order, the ids and each element's ranges |
| RoundTrip.ParseROutputFails | gutils-mcp-server/src/utils/rbridge.ts:246-249 | parseROutput fails exactly when `success` is false or `data` is falsy, with `result.error` when it is truthy and `R execution failed` otherwise |
| RoundTrip.ParseROutputByTag | gutils-mcp-server/src/utils/rbridge.ts:251-260 | on success the tag picks the parser and its result is returned: the GRanges records, the parsed GRangesList elements, or the data table; any other tag returns the data unchanged |
| RoundTrip.DataTableRows | gutils-mcp-server/src/utils/rbridge.ts:297-301 | a table keeps its columns unchanged and in order, with `nrows` equal to the first column's length whatever the other columns' lengths, or 0 when there are no columns |
| RoundTrip.GRangesListAppend | gutils-mcp-server/src/utils/rbridge.ts:236-243 | appending a list item appends its `"id" = GRanges(...)` element at the end of the GRangesList text, after `,\n  ` |
| RCall.AppendClause | gutils-mcp-server/src/tools/overlap-operations.ts:393 | one conditional `cmd +=`: the command grows by the clause text, which is empty when the option is absent |
| RCall.Quote | gutils-mcp-server/src/tools/overlap-operations.ts:395 | `"${s}"`: the string between two quotes, unescaped |
| RCall.Logical | gutils-mcp-server/src/tools/overlap-operations.ts:397 | `b ? 'TRUE' : 'FALSE'`: always one of the two, TRUE exactly for true |
| RCall.Number | gutils-mcp-server/src/tools/range-manipulation.ts:414 | a `!== undefined` numeric option: present exactly when defined, 0 included, as its decimal text |
| RCall.Flag | gutils-mcp-server/src/tools/overlap-operations.ts:397 | a `!== undefined` boolean option: present exactly when defined, as TRUE or FALSE |
| RCall.QuotedIfTruthy | gutils-mcp-server/src/tools/overlap-operations.ts:395-396 | an `if (args.x)` string option: present exactly when the string is defined and non-empty, quoted |
| RCall.RawIfTruthy | gutils-mcp-server/src/tools/aggregation.ts:228 | an `if (args.x)` option written unquoted: present exactly when truthy, verbatim |
| RCall.Quoted | gutils-mcp-server/src/tools/overlap-operations.ts:435 | each name quoted, unescaped, in input order |
| RCall.Numerals | gutils-mcp-server/src/tools/range-manipulation.ts:448 | each number as its decimal text, in input order |
| RCall.NamesIfNonEmpty | gutils-mcp-server/src/tools/overlap-operations.ts:434-437 | `if (args.by && args.by.length > 0)`: present exactly for a non-empty list, as `c("a", "b")` |
| RCall.ClauseInPlace | gutils-mcp-server/src/tools/overlap-operations.ts:391-399 | in a rendered call, each clause's text sits after the texts of the clauses before it and before those after it |
| RCall.AbsentClausesVanish | gutils-mcp-server/src/tools/overlap-operations.ts:391-399 | absent options leave no trace: the command equals the one built from the present clauses alone |
| RCall.NoOptionsBare | gutils-mcp-server/src/tools/overlap-operations.ts:391-399 | with every option absent the command is the head closed by `)` |
| RCall.BuildOneOption | gutils-mcp-server/src/tools/grangeslist-operations.ts:352-440 | a head, a single conditional append and `)` (gr.fix, gr.fixseq, gr.dist, rrbind, parse.gr, parse.grl, gr.string, string, unlist, eval, in) equals the call with that one clause |
| OverlapOperations.BuildFindOverlaps | gutils-mcp-server/src/tools/overlap-operations.ts:387-402 | the `+=` construction equals the call: query and subject, then maxgap, minoverlap, type, select, ignore.strand |
| OverlapOperations.BuildStrandOnly | gutils-mcp-server/src/tools/overlap-operations.ts:404-468 | gr.in, gr.match, gr.disjoin and gr.setdiff: the head, then `ignore.strand` when defined |
| OverlapOperations.BuildReduce | gutils-mcp-server/src/tools/overlap-operations.ts:430-444 | the `+=` construction equals the call: ranges, then by, ignore.strand, pad |
| OverlapOperations.BuildCollapse | gutils-mcp-server/src/tools/overlap-operations.ts:476-486 | the `+=` construction equals the call: ranges, then maxgap, ignore.strand |
| OverlapOperations.BuildOverlaps | gutils-mcp-server/src/tools/overlap-operations.ts:488-499 | the `+=` construction equals the call: ra1 and ra2, then thresh |
| OverlapOperations.BuildCommand | gutils-mcp-server/src/tools/overlap-operations.ts:386-503 | the handler's switch builds the command of the named tool, or the Unknown tool error |
| OverlapOperations.HandlesExactlyTools | gutils-mcp-server/src/tools/overlap-operations.ts:386-503 | a command is built exactly for the names `createOverlapOperationTools` declares; any other name fails with `Unknown tool: <name>` |
| OverlapOperations.FindOverlapsAllOptions | gutils-mcp-server/src/tools/overlap-operations.ts:391-399 | with every option set, the clauses appear as maxgap, minoverlap, type, select, ignore.strand, with type and select quoted and the flag as TRUE/FALSE |
| OverlapOperations.FindOverlapsZeroKeptEmptyDropped | gutils-mcp-server/src/tools/overlap-operations.ts:393-396 | a maxgap of 0 is written, while an empty type or select is dropped as if absent |
| OverlapOperations.ReduceBy | gutils-mcp-server/src/tools/overlap-operations.ts:434-437 | an empty `by` list adds nothing; a non-empty one adds `by = c("a", ...)` in input order |
| OverlapOperations.OverlapsAsLists | gutils-mcp-server/src/tools/overlap-operations.ts:488-492 | gr.overlaps serializes ra1 and ra2 as GRangesList texts |
| OverlapOperations.OverlapsThresh | gutils-mcp-server/src/tools/overlap-operations.ts:492-496 | `thresh` is appended exactly when defined |
| RangeManipulation.WidthArg | gutils-mcp-server/src/tools/range-manipulation.ts:368 | the width clause is present exactly when the width is defined |
| RangeManipulation.BuildEndpoint | gutils-mcp-server/src/tools/range-manipulation.ts:364-390 | gr.start and gr.end: the `+=` construction equals the call with width, force, ignore.strand, clip |
| RangeManipulation.BuildTrim | gutils-mcp-server/src/tools/range-manipulation.ts:410-420 | the `+=` construction equals the call with start, end |
| RangeManipulation.BuildTile | gutils-mcp-server/src/tools/range-manipulation.ts:434-444 | the `+=` construction equals the call with width, stranded |
| RangeManipulation.BuildSample | gutils-mcp-server/src/tools/range-manipulation.ts:456-465 | the `+=` construction equals the call with `N = n` always, then replace |
| RangeManipulation.BuildCommand | gutils-mcp-server/src/tools/range-manipulation.ts:363-469 | the handler's switch builds the command of the named tool, or the Unknown tool error |
| RangeManipulation.HandlesExactlyTools | gutils-mcp-server/src/tools/range-manipulation.ts:363-469 | a command is built exactly for the declared names; any other name fails with `Unknown tool: <name>` |
| RangeManipulation.EndpointAllOptions | gutils-mcp-server/src/tools/range-manipulation.ts:364-390 | with every option set: width, force, ignore.strand, clip in that order, the flags as TRUE/FALSE |
| RangeManipulation.RangesOnlyTools | gutils-mcp-server/src/tools/range-manipulation.ts:392-432 | mid, flipstrand, stripstrand, pairflip and noval produce exactly `fn(<GRanges>)`, whatever the other arguments |
| RangeManipulation.TrimBounds | gutils-mcp-server/src/tools/range-manipulation.ts:410-420 | with both bounds: start, then end |
| RangeManipulation.TrimStartOnly | gutils-mcp-server/src/tools/range-manipulation.ts:414-415 | with start alone: only the start clause |
| RangeManipulation.TrimEndOnly | gutils-mcp-server/src/tools/range-manipulation.ts:414-415 | with end alone: only the end clause |
| RangeManipulation.TrimNoBounds | gutils-mcp-server/src/tools/range-manipulation.ts:410-420 | with neither bound: `gr.trim(<GRanges>)` |
| RangeManipulation.RandWidths | gutils-mcp-server/src/tools/range-manipulation.ts:446-454 | an array width is written as `c(w1, ...)` and a scalar verbatim; the genome is named twice as `BSgenome.Hsapiens.UCSC.<g>::BSgenome.Hsapiens.UCSC.<g>` |
| RangeManipulation.SampleAlwaysN | gutils-mcp-server/src/tools/range-manipulation.ts:456-465 | `N = n` is always written; `replace` follows exactly when defined |
| GRangesListOperations.ExpressionIfTruthy | gutils-mcp-server/src/tools/grangeslist-operations.ts:384 | the condition clause is present exactly when the condition is truthy, wrapped in `expression(...)` |
| GRangesListOperations.BoundLists | gutils-mcp-server/src/tools/grangeslist-operations.ts:443-445 | one GRangesList text per input list |
| GRangesListOperations.BuildReduce | gutils-mcp-server/src/tools/grangeslist-operations.ts:340-350 | the `+=` construction equals the call with pad, clip |
| GRangesListOperations.BuildEndpoint | gutils-mcp-server/src/tools/grangeslist-operations.ts:405-427 | grl.start and grl.end: the `+=` construction equals the call with width, ignore.strand |
| GRangesListOperations.BuildCommand | gutils-mcp-server/src/tools/grangeslist-operations.ts:339-454 | the handler's switch builds the command of the named tool, or its error |
| GRangesListOperations.HandlesExactlyTools | gutils-mcp-server/src/tools/grangeslist-operations.ts:339-454 | every declared name except grl.bind builds a command; grl.bind fails exactly when `lists` is undefined; any other name fails with `Unknown tool: <name>` |
| GRangesListOperations.DeclaredToolsBuild | gutils-mcp-server/src/tools/grangeslist-operations.ts:339-454 | a declared name either builds a command or fails with the TypeError of `.map` on undefined |
| GRangesListOperations.ReduceOptions | gutils-mcp-server/src/tools/grangeslist-operations.ts:340-350 | pad then clip when both are defined; nothing when neither is |
| GRangesListOperations.StringSep | gutils-mcp-server/src/tools/grangeslist-operations.ts:352-361 | `sep = "<sep>"`, unescaped, exactly when sep is truthy |
| GRangesListOperations.EvalCondition | gutils-mcp-server/src/tools/grangeslist-operations.ts:380-389 | `expr` is always wrapped in `expression(...)`; the condition clause appears exactly when truthy |
| GRangesListOperations.InWindowsAsGRanges | gutils-mcp-server/src/tools/grangeslist-operations.ts:429-440 | grl.in serializes the list as GRangesList and `windows` as GRanges |
| GRangesListOperations.BoundListsCons | gutils-mcp-server/src/tools/grangeslist-operations.ts:443-445 | the first text is the first list's GRangesList text, followed by the texts of the rest |
| GRangesListOperations.BindInOrder | gutils-mcp-server/src/tools/grangeslist-operations.ts:442-450 | grl.bind lists each input's GRangesList text in input order, joined by `, ` |
| Aggregation.QuotedTemplateIfTruthy | gutils-mcp-server/src/tools/aggregation.ts:227 | `if (args.by)` with `"${args.by}"`: present exactly when truthy, quoted |
| Aggregation.NamesIfTruthy | gutils-mcp-server/src/tools/aggregation.ts:218-225 | present exactly when truthy; a string becomes `"a"`, an array `c("a", "b")` |
| Aggregation.Probabilities | gutils-mcp-server/src/tools/aggregation.ts:263-266 | present exactly when given, as the unquoted vector `c(p1, ...)` in order |
| Aggregation.BuildVal | gutils-mcp-server/src/tools/aggregation.ts:212-237 | the `+=` construction, with its nested array/string branch, equals the gr.val call |
| Aggregation.BuildTwoOptions | gutils-mcp-server/src/tools/aggregation.ts:239-285 | gr.sum, gr.quantile and gr.breaks: two conditional appends equal the call with those two clauses |
| Aggregation.BuildCommand | gutils-mcp-server/src/tools/aggregation.ts:211-289 | the handler's switch builds the command of the named tool, or the Unknown tool error |
| Aggregation.HandlesExactlyTools | gutils-mcp-server/src/tools/aggregation.ts:211-289 | a command is built exactly for the declared names; any other name fails with `Unknown tool: <name>` |
| Aggregation.ValAllOptions | gutils-mcp-server/src/tools/aggregation.ts:216-234 | with every option: val, by (quoted), FUN (unquoted), na.rm, weighted, mean, ignore.strand in that order |
| Aggregation.ValBare | gutils-mcp-server/src/tools/aggregation.ts:216-234 | an empty-string or undefined val and no other option give just the query and target |
| Aggregation.ValEmptyColumns | gutils-mcp-server/src/tools/aggregation.ts:218-221 | an empty val array is truthy and gives `val = c()` |
| Aggregation.SumValAndBy | gutils-mcp-server/src/tools/aggregation.ts:241-250 | `val` is always written, as `"undefined"` when absent; `by` is a quoted string or a vector of quoted strings |
| Aggregation.QuantileProbs | gutils-mcp-server/src/tools/aggregation.ts:261-270 | quoted val, then `probs = c(...)` unquoted in order, then na.rm |
| Aggregation.BreaksOptions | gutils-mcp-server/src/tools/aggregation.ts:277-282 | `n` is written whenever defined, 0 included, and a falsy `by` is dropped |
| Operators.WidthOrOne | gutils-mcp-server/dist/tools/operators.js:414 | `args.width \|\| 1`: never 0; the width when it is defined and non-zero, 1 otherwise |
| Operators.FunOrSum | gutils-mcp-server/dist/tools/operators.js:481 | `args.fun \|\| 'sum'`: the function name when truthy, `sum` otherwise |
| Operators.HandlesExactlyTools | gutils-mcp-server/dist/tools/operators.js:411-487 | a command is built exactly for the declared names; any other name fails with `Unknown tool: <name>` |
| Operators.OperatorsDistinct | gutils-mcp-server/dist/tools/operators.js:412-484 | the eleven tools use eleven different operators, so the operator identifies the tool |
| Operators.OverlapOperands | gutils-mcp-server/dist/tools/operators.js:424-458 | the five overlap operators write `<query> OP <subject>`, both as GRanges texts |
| Operators.SideWidthDefault | gutils-mcp-server/dist/tools/operators.js:412-423 | left and right side write width 1 when it is undefined or 0, and the width otherwise |
| Operators.AggregateDefaultFun | gutils-mcp-server/dist/tools/operators.js:478-484 | the column is quoted, fun is unquoted and defaults to sum |
| Utilities.RangeSetTexts | gutils-mcp-server/dist/tools/utilities.js:435 | one GRanges text per input range set |
| Utilities.TableTexts | gutils-mcp-server/dist/tools/utilities.js:441 | one formatRObject text per table |
| Utilities.BuildSeqlengths | gutils-mcp-server/dist/tools/utilities.js:355-366 | the `+=` construction equals the call: genome with no leading comma, then chr, include.junk |
| Utilities.BuildDuplicated | gutils-mcp-server/dist/tools/utilities.js:416-428 | the `+=` construction equals the call with by, ignore.strand |
| Utilities.BuildCommand | gutils-mcp-server/dist/tools/utilities.js:354-451 | the handler's switch builds the command of the named tool, or its error |
| Utilities.HandlesExactlyTools | gutils-mcp-server/dist/tools/utilities.js:354-451 | every declared name except grbind and rrbind builds a command; any other name fails with `Unknown tool: <name>` |
| Utilities.BindsNeedTheirList | gutils-mcp-server/dist/tools/utilities.js:434-448 | grbind fails exactly when `ranges_list` is undefined, rrbind exactly when `tables` is |
| Utilities.DeclaredToolsBuild | gutils-mcp-server/dist/tools/utilities.js:354-451 | a declared name either builds a command or fails with the TypeError of `.map` on undefined |
| Utilities.SeqlengthsWithGenome | gutils-mcp-server/dist/tools/utilities.js:355-366 | `genome = "<g>"` directly after the parenthesis, then chr and include.junk with leading commas |
| Utilities.SeqlengthsWithoutGenome | gutils-mcp-server/dist/tools/utilities.js:357-363 | without a genome the chr clause still carries its comma: `hg_seqlengths(, chr = ...)` |
| Utilities.SeqlengthsBare | gutils-mcp-server/dist/tools/utilities.js:355-363 | with no option at all the command is `hg_seqlengths()` |
| Utilities.FixGenome | gutils-mcp-server/dist/tools/utilities.js:367-384 | `genome = "<g>"` is appended exactly when the genome is truthy |
| Utilities.DuplicatedBy | gutils-mcp-server/dist/tools/utilities.js:416-428 | a non-empty `by` gives `by = c(...)` before `ignore.strand` |
| Utilities.DuplicatedEmptyBy | gutils-mcp-server/dist/tools/utilities.js:419 | an empty `by` list adds nothing |
| Utilities.RrbindFill | gutils-mcp-server/dist/tools/utilities.js:440-448 | the tables are wrapped in `list(...)`; `fill` follows exactly when defined |
| Utilities.RangeSetTextsCons | gutils-mcp-server/dist/tools/utilities.js:435 | the first text is the first set's GRanges text, followed by the texts of the rest |
| Utilities.GrbindInOrder | gutils-mcp-server/dist/tools/utilities.js:434-439 | grbind serializes each GRanges in input order, joined by `, ` |
| Utilities.SubQuoted | gutils-mcp-server/dist/tools/utilities.js:395-400 | pattern and replacement are always quoted, unescaped; an undefined one is written `"undefined"` |
| DataConversion.LengthEntries | gutils-mcp-server/dist/tools/data-conversion.js:181-183 | one `"chr" = len` entry per seqlengths entry, in entry order |
| DataConversion.SeqlengthsVector | gutils-mcp-server/dist/tools/data-conversion.js:180-185 | present exactly when seqlengths is given (an empty object is truthy), as `c("chr" = len, ...)` |
| DataConversion.AddStrand | gutils-mcp-server/dist/tools/data-conversion.js:237-239 | the clause is present exactly when add_strand is true, and is always `TRUE` |
| DataConversion.BuildDt2gr | gutils-mcp-server/dist/tools/data-conversion.js:177-192 | the `+=` construction equals the call: data through formatRObject, then seqlengths, genome |
| DataConversion.BuildSi2gr | gutils-mcp-server/dist/tools/data-conversion.js:218-233 | the command that is started and then closed or replaced wholesale equals the si2gr command |
| DataConversion.BuildCommand | gutils-mcp-server/dist/tools/data-conversion.js:171-246 | the handler's switch builds the command of the named tool, or its error |
| DataConversion.HandlesExactlyTools | gutils-mcp-server/dist/tools/data-conversion.js:171-246 | any other name fails with `Unknown tool: <name>`; a declared name builds a command when coordinates are given, and always except for the two parsers |
| DataConversion.ParsersNeedCoordinates | gutils-mcp-server/dist/tools/data-conversion.js:193-212 | parse.gr and parse.grl without coordinates fail with the TypeError of `.map` on undefined |
| DataConversion.DeclaredToolsBuild | gutils-mcp-server/dist/tools/data-conversion.js:171-246 | a declared name either builds a command or fails with that TypeError |
| DataConversion.Dt2grOptions | gutils-mcp-server/dist/tools/data-conversion.js:177-192 | seqlengths as `c("chr" = len, ...)`, then a truthy genome quoted |
| DataConversion.Dt2grEmptySeqlengths | gutils-mcp-server/dist/tools/data-conversion.js:180-185 | an empty seqlengths object still adds `seqlengths = c()` |
| DataConversion.Si2grWholeGenome | gutils-mcp-server/dist/tools/data-conversion.js:219-230 | without chromosomes: one si2gr call on the genome package, closed by `)` |
| DataConversion.Si2grChromosomes | gutils-mcp-server/dist/tools/data-conversion.js:220-226 | with chromosomes the command is replaced by the three-statement subset block, chromosomes quoted in order |
| DataConversion.GrStringAddStrand | gutils-mcp-server/dist/tools/data-conversion.js:234-243 | `add.strand = TRUE` exactly when add_strand is true; FALSE is never written |
| Dispatch.Defs | gutils-mcp-server/src/index.ts:78-86 | one tool definition per declared name, in order, all with that module's handler |
| Dispatch.RegistryKeys | gutils-mcp-server/src/index.ts:88-90 | `tools.set` over the list: the keys are the old keys plus every listed name |
| Dispatch.RegistrySize | gutils-mcp-server/src/index.ts:88-92 | the registry size is the number of distinct names |
| Dispatch.RegistryLastWins | gutils-mcp-server/src/index.ts:88-90 | a name maps to its last definition in the list: a later duplicate overwrites an earlier one |
| Dispatch.RegistryKeepsOthers | gutils-mcp-server/src/index.ts:88-90 | a key the list does not name keeps its old definition |
| Dispatch.RegistryFromList | gutils-mcp-server/src/index.ts:88-90 | every entry is keyed by its own name and comes from the list or the old map |
| Dispatch.Piece | gutils-mcp-server/src/index.ts:118 | `parts[i]`: defined exactly when i is in range |
| Dispatch.CategoryToken | gutils-mcp-server/src/index.ts:118 | the category of `gutils_<c>_...` is c |
| Dispatch.NameTokens | gutils-mcp-server/src/index.ts:118-131 | for `gutils_<c>_<rest>` the category is c and the operation is the first token of rest |
| Dispatch.ShortNameTokens | gutils-mcp-server/src/index.ts:118-131 | for `gutils_<c>` the category is c and there is no operation |
| Dispatch.Prefixed | gutils-mcp-server/src/index.ts:132-141 | the prefixed names, one per operation, in order |
| Dispatch.GrNameRoutes | gutils-mcp-server/src/index.ts:129-144 | `gutils_gr_<op>` is routed by op alone |
| Dispatch.OpListsDisjoint | gutils-mcp-server/src/index.ts:132-141 | the range, overlap, aggregation and utility operation lists are pairwise disjoint |
| Dispatch.StringInNoList | gutils-mcp-server/src/index.ts:132-141 | `string` is in none of the four lists |
| Dispatch.RangeNames | gutils-mcp-server/src/tools/range-manipulation.ts:11-322 | the declared range tool names are `gutils_gr_` plus the range operation list |
| Dispatch.OverlapNames | gutils-mcp-server/src/tools/overlap-operations.ts:11-340 | the declared overlap tool names are `gutils_gr_` plus the overlap operation list |
| Dispatch.AggregationNames | gutils-mcp-server/src/tools/aggregation.ts:11-170 | the declared aggregation tool names are `gutils_gr_` plus the aggregation operation list |
| Dispatch.ListNames | gutils-mcp-server/src/tools/grangeslist-operations.ts:11-306 | the declared GRangesList tool names are `gutils_grl_` plus their operations |
| Dispatch.OperatorNames | gutils-mcp-server/dist/tools/operators.js:13-360 | the declared operator tool names are `gutils_op_` plus their operations |
| Dispatch.PrefixedRoutes | gutils-mcp-server/src/index.ts:129-144 | every `gutils_gr_<op>` with op in a list that selects a handler routes to that handler |
| Dispatch.CategoryRoutes | gutils-mcp-server/src/index.ts:118-158 | every name with a non-gr category routes to that category's handler |
| Dispatch.ShortNameRoutes | gutils-mcp-server/src/index.ts:154-158 | `gutils_grbind` and `gutils_rrbind` route by their single token |
| Dispatch.GrToolsRouted | gutils-mcp-server/src/index.ts:129-144 | every range, overlap and aggregation tool routes to its own handler |
| Dispatch.ListToolsRouted | gutils-mcp-server/src/index.ts:146-148 | every GRangesList tool routes to the GRangesList handler |
| Dispatch.OperatorToolsRouted | gutils-mcp-server/src/index.ts:150-152 | every operator tool routes to the operator handler |
| Dispatch.UtilityGrOpsHandled | gutils-mcp-server/src/index.ts:140-142 | the utility `gr` operations select the utility handler |
| Dispatch.UtilityToolsRouted | gutils-mcp-server/src/index.ts:140-158 | every utility tool routes to the utility handler |
| Dispatch.ConversionToolsRouted | gutils-mcp-server/src/index.ts:121-127 | every conversion tool routes to the conversion handler under the corrected routing, and all but `gutils_gr_string` under the routing as written |
| Dispatch.AllToolsRouted | gutils-mcp-server/src/index.ts:118-162 | every registered tool routes to the handler of the module that declared it; as written, every one except `gutils_gr_string` |
| Dispatch.GrStringUnrouted | gutils-mcp-server/src/index.ts:129-144 | `gutils_gr_string` is declared, but as written its route selects no handler |
| Dispatch.GrStringRoutedWhenFixed | gutils-mcp-server/dist/tools/data-conversion.js:139 | under the corrected routing `gutils_gr_string` reaches the conversion handler that declares it |
| Dispatch.RoutesDifferOnlyOnGrString | gutils-mcp-server/src/index.ts:129-144 | the corrected routing differs from the routing as written exactly on names with category gr and operation string |
| Dispatch.RegisteredToolsKnown | gutils-mcp-server/src/index.ts:118-162 | a registered tool's handler builds a command, or fails only with the TypeError of `.map` on undefined, never with Unknown tool |
| Dispatch.OutcomeShape | gutils-mcp-server/src/index.ts:166-181 | a success is exactly one `text` content item; every failure is an InternalError whose message starts with `Failed to execute <name>: ` |
| Dispatch.UnknownCategoryFails | gutils-mcp-server/src/index.ts:160-161 | a name outside every category fails with `Failed to execute <name>: Unknown tool category: <category>` |
| Dispatch.GrStringAnswersUndefined | gutils-mcp-server/src/index.ts:129-173 | as written, `gutils_gr_string` runs nothing and returns one text item with an undefined result |
| Dispatch.GrStringRunsWhenFixed | gutils-mcp-server/dist/tools/data-conversion.js:234-243 | under the corrected routing `gutils_gr_string` builds its command, runs it and returns the parsed output, or the wrapped error |
| Dispatch.RegistryRoutesHome | gutils-mcp-server/src/index.ts:76-93 | if every listed definition routes to its own handler, every registry entry does |
| Dispatch.ServerRoutesHome | gutils-mcp-server/src/index.ts:76-93 | the server's registry holds exactly the declared names, and each routes to the handler of its definition |
| Dispatch.Server.constructor | gutils-mcp-server/src/index.ts:69-74 | a new server has an uninitialized bridge and the registry of all declared tools |
| Dispatch.Server.RegisterTools | gutils-mcp-server/src/index.ts:88-90 | the `forEach`/`set` loop leaves the registry of the old map and the list |
| Dispatch.Server.BuildHandlerCommand | gutils-mcp-server/src/index.ts:121-158 | calling the selected handler builds that handler module's command |
| Dispatch.Server.CallTool | gutils-mcp-server/src/index.ts:104-182 | an unregistered name is MethodNotFound `Tool <name> not found` with the bridge untouched; a registered one gets the routed outcome; the bridge ends initialized exactly when it was, or a handler ran and the load script succeeded |

## Left out

- `executeRCommand` is the uninterpreted function `exec`. Temporary files, uuid names, spawning
  `Rscript`, reading the JSON file and cleanup are process I/O and are not modelled.
- The embedded R wrapper script and everything R computes are not modelled: the interval algebra,
  the type tag R chooses, and the `R.version.string` probe in `initialize`.
- `close` is modelled only for its effect on `initialized`. Killing the process and removing the
  temporary directory are I/O.
- The logger, the stdio transport, `start()` and the SIGINT handler are process lifecycle and are not modelled.
- The `inputSchema` literals and their defaults are static schema data. Only the tool names are modelled.
- The ListTools handler is not modelled: a map has no order, and it only lists the registry values.
- `JSON.stringify(result, null, 2)`: the success envelope holds the parsed value, not its JSON text.
- The MCP SDK adds its own prefix to an `McpError`'s message; the model keeps the message the server passes.
- A call whose `arguments` is itself undefined is not modelled: every handler receives a record,
  with each field possibly undefined.
- Handler arguments are records typed as their `inputSchema` declares, each field present or
  undefined. A JSON `null` or a value of another type cannot be represented, so the model does not
  show, for instance, `maxgap: null` passing `!== undefined` or the string `"false"` being truthy.
- Strands in client ranges are strings: the `Strand` union of `types/genomic.ts` is a compile-time
  type that nothing checks at run time. `Bridge.StrandText` states when a written strand is valid.
- Object entries are taken to be already in JavaScript's own-key order (array-index keys first,
  ascending, then insertion order). The reordering a JavaScript object applies to a client's keys,
  such as `seqlengths` `{"X": ..., "1": ...}` being written with `"1"` first, is not modelled.
- JSON objects are sequences of entries and may repeat a key. `JSON.parse` keeps the last value of
  a repeated key, whereas field lookup here (`Js.Get`) returns the first; objects read from R's
  output are taken to have distinct keys.
- Numbers are integers. JavaScript float formatting, as for `probs`, is out of scope; probabilities
  are opaque numeral strings.
- A client object that itself carries `type: 'GRanges'` and `data` is not recognised by the
  serializer model as a GRanges; such objects are plain JSON here.
- RLiteral.ReadFormat: the round trip is stated for values without backslashes and with plain keys.
  The serializer escapes only quotes, so a backslash or an arbitrary key does not read back.
- Bridge.ParseGRanges: requires the column shapes the R wrapper writes. Malformed payloads, where
  JavaScript would read `undefined` cells, are not modelled.
- Bridge.RBridge.Run: requires every result to be parsable in the sense above.
- Dispatch.Server.CallTool: requires every result to be parsable in the sense above.
- Dispatch.Server.CallTool: the `await`s are sequential; concurrent calls are not modelled.
- Dispatch.Server.CallTool: uses the corrected routing (see Findings). The routing as written is
  `Dispatch.Route`, with its consequences proved separately.

## Findings

| source | as written | input that shows it | evidently intended | confidence | as-written member | corrected member |
|---|---|---|---|---|---|---|
| gutils-mcp-server/src/index.ts:129-144 | a `gr` name whose operation is in none of the four lists calls no handler and falls out of the switch with `result` undefined | calling the registered tool `gutils_gr_string` (declared at gutils-mcp-server/dist/tools/data-conversion.js:139) returns a success with an undefined result and never runs `gr.string` | `gutils_gr_string` reaches the data conversion handler that declares it | not executed | Dispatch.GrStringUnrouted | Dispatch.GrStringRoutedWhenFixed |
