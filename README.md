# sqlmap in Dafny

A model of the in-memory core of `sqlmap`, a Go library that maps SQL
statements kept in XML files to database calls. Statements are registered
under a full id `namespace_id`. Each statement's text is a Go template.
Building a statement compiles its template once, caches it, renders it with
the caller's data and normalises the whitespace of the result. The rendered
SQL goes to the database, and the answer comes back as one column -> value
map per row, or is scanned into structs by reflection. A `Session` wraps a
database transaction with a nesting counter.

The model covers four parts:

- **The nested-transaction session** (`Sessions`). There is a functional
  step for each of `BeginTx`, `Commit` and `Rollback`, and a `Session` class
  whose methods are proved equal to those steps. The nesting counter is a
  wrapping `int8`, as in the source.
- **Statement lookup, the template cache and whitespace normalisation.**
  - `Text`: `strings.TrimSpace`, the regular-expression rewrite `\s+` ->
    `" "` and the normal form it produces.
  - `Templates`: the `Template` type of `engine/template.go` and a generic
    lookup-or-compile cache.
  - `Mapper`: the `SqlTemplate` record, which holds a lazily compiled
    template.
  - `Builder`: the `SqlBuilder` of `builder/sql_builder.go`.
  - One module per engine variant: `CoreEngine` (`engine/core.go`),
    `CommonEngine` (`engine/common.go`), `MapEngine` (`engine/engine.go`)
    and `BuilderEngine` (`engine/sql_engine.go`).
- **Result binding** (`Binding`, `RowScan`).
  - `Binding` covers scanning rows into `*[]byte` buffers and turning them
    into string or byte maps.
  - `RowScan` covers the type checks, field choice and record scanning of
    `scanRow` and `scanRows`.
- **Registry loading** (`XmlParser`, `Loader`). `XmlParser` covers parsing
  one statement file into a map of full ids. `Loader` covers merging files
  into a registry in order and stopping at the first failing file.

Some code is duplicated across the source files and is modelled once:

- `Binding` models `makeEmptyRow`, `convertRows2SliceInterface`,
  `convertMapString` and `convertMapBytes`. Copies of these appear in
  `engine/core.go` (lines 39-128), `engine/common.go` (28-110),
  `engine/engine.go` (`convertMap` 184-199, `makeEmptyRow` 202-208, the row
  loop of `Query` 100-116) and `engine/sql_engine.go` (`convertMap` 146-161,
  `makeEmptyRow` 164-170, the row loop of `Query` 91-107).
- `Mapper` models `SqlTemplate` and `getAndSetTemplate`, which appear in
  both `engine/core.go` and `engine/common.go`.
- `XmlParser.Parse` models both `parser/xml_parser.go` and the private
  `parse` of `engine/engine.go` (248-289). The only difference is which
  default namespace is passed.
- `Loader` models `initSql` and `initSqlMap`, shared by both engines.

Several things become parameters, because they are I/O or code outside the
model:

- opening the database (`open`);
- listing and reading the statement directory (`listing`);
- running a statement (`run`, `query`, `f`);
- compiling and executing a template (`parse`, `compile`, `exec`);
- converting a driver value into a struct field (`convert`).

A Go panic from `checkInit` is modelled as the precondition `init`.

## Model

| member | source | states |
|---|---|---|
| Sessions.Inc8 | engine/session.go:38 | `commit++` on an `int8`: one more below 127, and 127 wraps to -128 |
| Sessions.Dec8 | engine/session.go:75 | `commit--` on an `int8`: one less above -128, and -128 wraps to 127 |
| Sessions.Dec8Inc8 | engine/session.go:38-75 | a decrement undoes an increment for every counter value, the wrapping one included |
| Sessions.BeginTxStep | engine/session.go:35-50 | inside a transaction the counter goes up and nothing else changes; outside one, a started transaction is stored with counter 1; a failing start returns its error and stores nothing; rollback is enabled in every case |
| Sessions.CommitStep | engine/session.go:68-86 | rollback is disabled in every case; with no transaction nothing is committed; a nested commit only lowers the counter; the outermost commit returns the driver's outcome and, when it succeeds, clears the transaction, leaving the counter at 1 |
| Sessions.RollbackStep | engine/session.go:53-65 | a rollback with no transaction, or after a commit disabled it, changes nothing and succeeds; otherwise it returns the driver's outcome and clears the transaction, keeping the counter and the flag |
| Sessions.Step | engine/session.go:35-86 | every call except a `BeginTx` inside a transaction at counter 127 keeps the invariant (counter non-negative, and at least 1 inside a transaction); below 127 no call raises the counter by more than one |
| Sessions.RunKeepsInv | engine/session.go:35-86 | any sequence of calls, of any length, keeps the invariant as long as no `BeginTx` is made inside a transaction whose counter is at 127 |
| Sessions.ShortRunNeverWraps | engine/session.go:38 | fewer than `128 - commit` calls can never reach a wrapping `BeginTx` |
| Sessions.CounterWraps | engine/session.go:38 | a `BeginTx` inside a transaction whose counter is 127 wraps it to -128 with the transaction still open, breaking the invariant |
| Sessions.NestedCommit | engine/session.go:35-86 | on a fresh session, begin, begin, commit leaves the transaction open with counter 1; the next commit closes it; a rollback after that changes nothing; no step reports an error |
| Sessions.CommitDisablesRollback | engine/session.go:69 | after any commit, a rollback changes nothing and succeeds |
| Sessions.BeginTxEnablesRollback | engine/session.go:35-50 | after a successful begin, a rollback reaches the driver |
| Sessions.Session.constructor | engine/session.go:20-24 | a new session has no transaction, counter 0 and rollback disabled, on the factory's database |
| Sessions.Session.BeginTx | engine/session.go:35-50 | the session's new state and error are those of BeginTxStep |
| Sessions.Session.Rollback | engine/session.go:53-65 | the session's new state and error are those of RollbackStep |
| Sessions.Session.Commit | engine/session.go:68-86 | the session's new state and error are those of CommitStep |
| Sessions.SessionFactory.constructor | engine/session.go:13-17 | the factory keeps the database it was given |
| Sessions.SessionFactory.NewSession | engine/session.go:20-24 | a fresh session on the factory's database, in the initial state |
| Text.TrimLeftSpec | engine/core.go:149 | the left trim drops a prefix made only of `unicode.IsSpace` characters and keeps the rest exactly |
| Text.TrimRightSpec | engine/core.go:149 | the right trim drops a suffix made only of `unicode.IsSpace` characters and keeps the rest exactly |
| Text.TrimSpace | engine/core.go:149 | `strings.TrimSpace` never lengthens its input |
| Text.TrimSpaceSpec | engine/core.go:149 | the trimmed text is a contiguous part of the input, surrounded only by white space, and starts and ends with a non-space character |
| Text.TrimSpaceOfTrimmed | engine/core.go:149 | trimming an already trimmed text changes nothing |
| Text.TrimSpaceOfPadded | engine/core.go:149 | white space added around a trimmed text is removed again |
| Text.SkipRegexSpacesSpec | engine/core.go:150 | the skipped prefix is exactly the longest run of `\s` characters |
| Text.Collapse | engine/core.go:150 | replacing every `\s+` run by a single space never lengthens the text |
| Text.CollapseIsSingleSpaced | engine/core.go:150 | after the rewrite no `\s` character other than a lone space remains |
| Text.CollapseOfSingleSpaced | engine/core.go:150 | the rewrite leaves a single-spaced text unchanged |
| Text.CollapseKeepsVisible | engine/core.go:150 | the rewrite keeps every non-space character, in order |
| Text.TrimSpaceKeepsVisible | engine/core.go:149 | trimming keeps every non-space character, in order |
| Text.NormalizeSqlIsNormal | engine/core.go:149-150 | trim then collapse gives a trimmed, single-spaced text with the input's non-space characters in order |
| Text.NormalizeSqlOfNormal | engine/core.go:149-150 | a text already in normal form is unchanged |
| Text.NormalizeSqlIdempotent | engine/core.go:149-150 | normalising twice is normalising once |
| Text.CollapseWord | engine/core.go:150 | a run of non-space characters passes through the rewrite unchanged, followed by the rewrite of the rest |
| Text.CollapseRun | engine/core.go:150 | a maximal run of `\s` characters becomes exactly one space, followed by the rewrite of the rest |
| Text.CollapseTwoWords | engine/core.go:150 | a word, a `\s` run and a word become the two words joined by one space |
| Text.CollapseThreeWords | engine/core.go:150 | three words separated by two `\s` runs become the words joined by single spaces |
| Text.NormalizeSqlExample | engine/core.go:149-150 | `"  a\n\t b   c "` normalises to `"a b c"` |
| Text.ReplaceNewlines | parser/xml_parser.go:54 | same length; every `\n` becomes a space and every other character is kept |
| Text.TrimNewlinesNoop | parser/xml_parser.go:55 | once newlines have been replaced, `strings.Trim(val, "\n")` changes nothing |
| Text.CleanStatementShape | parser/xml_parser.go:53-56 | a cleaned statement has no newline, is trimmed, equals `TrimSpace` of the newline-replaced text and keeps the non-space characters |
| Text.ReplaceNewlinesKeepsVisible | parser/xml_parser.go:54 | replacing newlines keeps the non-space characters |
| Text.CleanStatementIdempotent | parser/xml_parser.go:53-56 | cleaning a cleaned statement changes nothing |
| Templates.NewTemplate | engine/template.go:20-40 | a type other than "default" is refused with an unsupported-type error; for "default" it succeeds exactly when parsing does, carrying the parsed template or the parse error |
| Templates.Execute | engine/template.go:43-49 | a "default" template renders through the template engine; any other type renders nothing and fails |
| Templates.NewTemplateExecutes | engine/template.go:20-49 | a template that was created renders exactly as its parsed template does |
| Templates.CacheGet | builder/sql_builder.go:40-53 | a hit answers the cached template and leaves the cache alone; a miss answers the compile result and stores it only on success; no entry is lost or changed, and at most the key is added |
| Templates.CacheGetTwice | builder/sql_builder.go:40-53 | after a successful lookup, a second lookup of the key hits, keeps the cache unchanged and ignores what compiling would give |
| Templates.CacheHitIgnoresContent | builder/sql_builder.go:41-43 | on a hit the content offered for compiling does not matter |
| Templates.Finish | engine/core.go:146-151 | the render error is passed through beside the text; the text is the rendering trimmed and with every `\s` run collapsed to one space; it is in normal form with the rendering's non-space characters; a rendering already in normal form is kept unchanged |
| Templates.FinishIdempotent | engine/core.go:146-151 | finishing a finished text changes nothing |
| Mapper.SqlTemplate.constructor | engine/core.go:30-33 | a registered statement starts with no compiled template |
| Mapper.SqlTemplate.Resolved | engine/core.go:157-169 | the cached template when there is one, otherwise what compiling the statement text gives |
| Mapper.SqlTemplate.GetAndSetTemplate | engine/core.go:157-169 | answers the resolved template; caches it only when compiling succeeds; never replaces a cached template |
| Mapper.ResolvedOnceCached | engine/core.go:158-160 | once a template is cached, the compiler is never consulted again |
| CoreEngine.BuildResult | engine/core.go:133-152 | the empty key, an unregistered key and a compile error each fail with their error and empty text; otherwise the answer is Finish of the rendering: the execute error beside the trimmed, collapsed rendering; the text is always in normal form |
| CoreEngine.BuildSql | engine/core.go:133-152 | answers BuildResult in the old state; only the looked-up statement's template changes, and only from absent to compiled |
| CoreEngine.BuildResultAfterCompile | engine/core.go:157-169 | once the statement's template is compiled, building renders that template whatever the compiler would give now |
| CoreEngine.Exec | engine/core.go:195-206 | a build error is returned and `f` is never called; otherwise `f` receives the built text and its answer is returned (also `queryRows`, 243-255) |
| CoreEngine.Query | engine/core.go:177-187 | build errors and `f`'s error are returned; otherwise the rows become one string map per row, as RowsToStringMaps promises |
| CoreEngine.SelectRow | engine/core.go:229-235 | build and query errors leave the destination alone; otherwise the destination and error are those of `scanRow` on the answered rows |
| CoreEngine.SelectRows | engine/core.go:214-221 | build, query and type errors leave the destination alone; otherwise the `scanRows` elements are appended after the old ones, with the error that stopped the scan |
| CommonEngine.BuildResult | engine/common.go:113-129 | as in `engine/core.go` without the empty-key check: unregistered key, compile error, or Finish of the rendering (the trimmed, collapsed text beside the execute error) |
| CommonEngine.BuildSql | engine/common.go:113-129 | answers BuildResult in the old state; only the looked-up statement's template changes, from absent to compiled |
| CommonEngine.EmptyKeyIsLookedUp | engine/common.go:113-118 | the empty key is looked up and rendered like any other key |
| CommonEngine.Exec | engine/common.go:169-183 | a build error is returned without calling `f`; otherwise `f`'s answer for the built text is returned |
| CommonEngine.Query | engine/common.go:147-166 | build and `f` errors are returned; otherwise one string map per row |
| Builder.BuildStep | builder/sql_builder.go:26-37 | the text is in normal form; a hit keeps the cache and passes on the execute error; a compile error returns empty text and keeps the cache; a compiled template is cached under the key; old entries are kept and only the key can be added |
| Builder.BuildStepRenders | builder/sql_builder.go:26-37 | a successful build renders, normalised, the template cached under the key afterwards |
| Builder.SecondBuildIgnoresContent | builder/sql_builder.go:40-53 | a second build of a key with other content renders the template the first build compiled, and leaves the cache as it was |
| Builder.SqlBuilder.constructor | builder/sql_builder.go:19-23 | a new builder has an empty cache |
| Builder.SqlBuilder.GetAndSetTemplate | builder/sql_builder.go:40-53 | the answer and new cache are those of CacheGet with the compile result |
| Builder.SqlBuilder.BuildSql | builder/sql_builder.go:26-37 | the answer and new cache are those of BuildStep |
| XmlParser.FullId | parser/xml_parser.go:49 | the full id is the namespace, `_`, then the id, with the parts recoverable |
| XmlParser.NamespaceOf | parser/xml_parser.go:34-37 | a missing or empty namespace attribute gives the default namespace |
| XmlParser.ParseFrom | parser/xml_parser.go:44-58 | the element loop always answers a map |
| XmlParser.ParseSpec | parser/xml_parser.go:20-61 | a malformed document gives an empty map and the read error; no `sqlmap` root gives no map and an error; a root without `sql` elements gives an empty map |
| XmlParser.Parse | parser/xml_parser.go:20-61 | the parse answers ParseSpec |
| XmlParser.ParseFromKeys | parser/xml_parser.go:44-58 | every new key is the full id of an element with a non-empty id, and the map only grows |
| XmlParser.ParseFromValues | parser/xml_parser.go:53-57 | every stored statement has no newline and is trimmed |
| XmlParser.ParseEntries | parser/xml_parser.go:20-61 | every key of a file's map is the full id of one of its elements, and every statement is newline-free and trimmed |
| XmlParser.ParseFromLastWins | parser/xml_parser.go:57 | of several elements with one id, the last one's cleaned text is stored |
| XmlParser.LaterKeysKept | parser/xml_parser.go:44-58 | an entry whose id no later element repeats keeps its value |
| XmlParser.FullIdInjective | parser/xml_parser.go:49 | in one namespace, distinct ids give distinct full ids |
| XmlParser.RepeatedIdOverwrites | parser/xml_parser.go:50-57 | a repeated id whose earlier text is not its own full id is overwritten silently, with no error |
| XmlParser.RepeatedIdRejected | parser/xml_parser.go:50-52 | a repeated id is rejected only when the earlier text equals the full id |
| XmlParser.MissingIdKeepsEarlier | parser/xml_parser.go:45-48 | an element without an id stops the parse with an error, keeping the elements before it |
| XmlParser.ParseFromAppend | parser/xml_parser.go:44-58 | parsing a list is parsing an error-free prefix, then the rest from the prefix's map |
| XmlParser.ParseFromStopsAtMissingId | parser/xml_parser.go:45-48 | an element at any position with a missing or empty id stops the parse with the missing-id error, answering exactly the entries of the elements before it |
| XmlParser.ParseFromStopsAtDuplicate | parser/xml_parser.go:50-52 | an element at any position whose full id already maps to that full id stops the parse with the duplicate error, answering the entries built so far |
| Loader.Merge | engine/sql_engine.go:200-204 | the merged registry has both key sets; the file's statements win; other statements are kept |
| Loader.LoadFile | engine/sql_engine.go:190-207 | a read or parse error leaves the registry alone and is returned; otherwise the file's statements are merged in |
| Loader.LoadDir | engine/sql_engine.go:173-187 | a listing error is returned with the registry unchanged; otherwise the files are loaded in order |
| Loader.LoadFilesStopsAtFirstError | engine/sql_engine.go:179-184 | when loading fails, some file fails after all earlier files loaded cleanly, and the registry is the one those earlier files built |
| Loader.LoadFilesAppend | engine/sql_engine.go:179-184 | loading two lists of files, the first error-free, is loading the first and then the second |
| Loader.LoadFilesKeepsKeys | engine/sql_engine.go:173-207 | loading never removes a registered key |
| BuilderEngine.BuildResult | engine/sql_engine.go:135-143 | a missing or empty statement is an unknown key and leaves the cache alone; otherwise the builder's step runs on the text; the text is in normal form |
| BuilderEngine.EmptyStatementIsUnknown | engine/sql_engine.go:138-140 | a key registered with empty text is rejected exactly like a missing key |
| BuilderEngine.SqlEngine.constructor | engine/sql_engine.go:22-28 | an empty registry, not initialised, with a fresh, empty builder |
| BuilderEngine.SqlEngine.GetDB | engine/sql_engine.go:31-34 | answers the engine's database once initialised |
| BuilderEngine.SqlEngine.Init | engine/sql_engine.go:37-51 | the engine is marked initialised in every case; an open error is returned with the registry unchanged; otherwise the registry and error are those of loading the listing |
| BuilderEngine.SqlEngine.InitSql | engine/sql_engine.go:173-187 | the registry and error are those of LoadDir |
| BuilderEngine.SqlEngine.InitSqlMap | engine/sql_engine.go:190-207 | the registry and error are those of LoadFile |
| BuilderEngine.SqlEngine.BuildSql | engine/sql_engine.go:135-143 | the answer and the builder's new cache are those of BuildResult |
| BuilderEngine.SqlEngine.Execute | engine/sql_engine.go:54-68 | on an engine with a database: -1 and the build error without running; -1 and the run error; otherwise the id the run answers |
| BuilderEngine.SqlEngine.Query | engine/sql_engine.go:71-110 | on an engine with a database: the build error without querying; the query error; otherwise one string map per row |
| MapEngine.Globals.constructor | engine/engine.go:19-21 | `SqlMap` and `TplMap` start empty |
| MapEngine.BuildResult | engine/engine.go:148-165 | a missing or empty statement is an unknown key; otherwise the cached or newly created template renders the text, and it is cached only when created; errors leave `TplMap` alone; old entries are kept; the text is in normal form |
| MapEngine.CachedTemplateOutlivesReload | engine/engine.go:168-181 | once a key's template is cached, reloading other text for the key changes nothing: the old template keeps rendering |
| MapEngine.UnsupportedTypeNeverCaches | engine/engine.go:168-181 | with a template type other than "default" nothing is ever cached and every registered key fails with the unsupported-type error |
| MapEngine.SqlEngine.constructor | engine/engine.go:34-37 | not initialised, no database and no session factory |
| MapEngine.SqlEngine.GetDB | engine/engine.go:40-43 | answers the engine's database once initialised |
| MapEngine.SqlEngine.Init | engine/engine.go:46-60 | the engine is marked initialised in every case; an open error is returned and no factory is made; otherwise a fresh factory on the database is made and `SqlMap` is loaded from the listing |
| MapEngine.SqlEngine.InitSql | engine/engine.go:211-225 | `SqlMap` and the error are those of LoadDir |
| MapEngine.SqlEngine.InitSqlMap | engine/engine.go:228-245 | `SqlMap` and the error are those of LoadFile |
| MapEngine.SqlEngine.GetAndSetTemplate | engine/engine.go:168-181 | the answer and the new `TplMap` are those of CacheGet with NewTemplate |
| MapEngine.SqlEngine.BuildSql | engine/engine.go:148-165 | the answer and the new `TplMap` are those of BuildResult |
| MapEngine.SqlEngine.Execute | engine/engine.go:63-77 | on an engine with a database: -1 and the build error without running; -1 and the run error; otherwise the id the run answers |
| MapEngine.SqlEngine.Query | engine/engine.go:80-119 | on an engine with a database: the build error without querying; the query error; otherwise one string map per row |
| MapEngine.SqlEngine.NewSession | engine/engine.go:122-125 | a fresh session on the engine's database, in the initial state |
| Binding.MakeEmptyRow | engine/core.go:86-92 | n slots, each an empty non-nil buffer |
| Binding.ScanBuffers | engine/core.go:74 | a scan into buffers succeeds exactly when there is one buffer per cell, each buffer then holding its cell; otherwise the count error |
| Binding.ReadRows | engine/core.go:65-82 | a columns error is returned; the read succeeds exactly when every row has one cell per column, giving each row's scanned buffers in order; otherwise the first bad row's count error, with every row before it well formed |
| Binding.RowMapKeys | engine/core.go:113-128 | a row's map has exactly the column names as keys |
| Binding.RowMapLastWins | engine/core.go:113-128 | a column's value comes from the last column with that name |
| Binding.ConvertMap | engine/core.go:95-128 | one map per row, in row order, each the row's RowMap |
| Binding.BytesToString | engine/core.go:122 | `string(bytes)`, one character per byte |
| Binding.StringToBytes | engine/core.go:122 | the inverse for byte-sized characters |
| Binding.BytesStringRoundTrip | engine/core.go:122 | converting bytes to a string and back gives the bytes |
| Binding.SlotString | engine/core.go:118-123 | a nil slot or a NULL buffer reads as ""; otherwise the buffer's bytes as a string |
| Binding.SlotBytes | engine/core.go:100-105 | a nil slot reads as nil; otherwise the buffer's contents |
| Binding.ConvertMapString | engine/core.go:113-128 | one map per row, each the row's RowMap with string values |
| Binding.ConvertMapBytes | engine/core.go:95-110 | one map per row, each the row's RowMap with byte values |
| Binding.RowsToStringMaps | engine/core.go:39-46 | the columns error; a count error exactly when some row is not one cell per column; otherwise one string map per row, in order |
| Binding.RowsToBytesMaps | engine/core.go:52-59 | the same for byte maps, NULL kept as nil |
| Binding.StringMapOfCells | engine/core.go:39-46 | end to end, every column is a key of the row's map, and its value is its last cell of that name as text, NULL as "" |
| Binding.BytesMapOfCells | engine/core.go:52-59 | end to end, every column is a key, and its value is its last cell of that name, NULL as nil |
| RowScan.DeRefType | engine/core.go:417-422 | a pointer type gives its element, and any other type is unchanged |
| RowScan.DeRefTypeStripsOne | engine/core.go:417-422 | only one pointer level is removed |
| RowScan.DetectBaseType | engine/core.go:408-414 | succeeds exactly when the dereferenced kind is the one expected, answering that type; otherwise an error naming both kinds |
| RowScan.CheckScanRowType | engine/core.go:395-405 | accepts exactly a pointer to a struct; a non-pointer and a pointer to a non-struct get their own errors |
| RowScan.CheckScanRowsType | engine/core.go:372-392 | accepts exactly `*[]S` and `*[]*S`; a non-pointer, a non-slice and a bad element type each get their own error |
| RowScan.CheckedRowType | engine/core.go:301-312 | after the check passes, `detectBaseType` cannot fail and gives a struct |
| RowScan.CheckedRowsType | engine/core.go:262-274 | after the check passes, `detectBaseType` gives the slice, its element is a struct once dereferenced, and `isPtr` means an element that is a pointer |
| RowScan.ChooseReflectField | engine/core.go:358-369 | the first field whose `db` tag equals the column, or the sink when no tag does |
| RowScan.ColumnTargets | engine/core.go:345-355 | one target per column, each chosen by tag, each a field that exists |
| RowScan.MakeReflectRow | engine/core.go:345-355 | one target per column, each ChooseReflectField of that column |
| RowScan.ZeroRecord | engine/core.go:277-278 | a new record has every field at its zero value |
| RowScan.ScanRecord | engine/core.go:283-286 | a target count other than the cell count gives the count error; the record keeps its field count |
| RowScan.ScanFromFails | engine/core.go:283-286 | the scan fails exactly when some converted cell fails, and then with that cell's error |
| RowScan.ScanFromUntouched | engine/core.go:283-286 | a field no column is bound to keeps its value |
| RowScan.ScanFromLastWins | engine/core.go:283-286 | when several columns are bound to one field, the last one's value stays |
| RowScan.ScanRecordMatched | engine/core.go:345-369 | a field matched by a column holds that column's cell, the last such column winning |
| RowScan.ScanRecordUnmatched | engine/core.go:345-369 | a field whose tag names no column keeps its zero value |
| RowScan.ScanRowResult | engine/core.go:299-342 | the type-check error; the columns error; no row: the iteration error, or else "no record"; success only with a checked type, good columns and exactly one row, the answer being that row's scanned record |
| RowScan.ScanRowCounts | engine/core.go:317-341 | with columns and a first row, for any converter: the first row's scan error is returned as it is, even when more rows follow; otherwise a second row gives "more than one record", and a single row gives its scanned record |
| RowScan.ScanRowConvertible | engine/core.go:317-337 | one row of converting cells succeeds, and more than one row fails with "more than one record" |
| RowScan.RowDest.constructor | engine/core.go:299 | a destination pointer of the given type |
| RowScan.ScanRow | engine/core.go:299-342 | on success the destination holds the scanned record; on any error it is left unchanged |
| RowScan.AppendRows | engine/core.go:276-292 | at most one element per row |
| RowScan.AppendRowsSpec | engine/core.go:276-292 | one element per row scanned without error, in row order, each the row's record, boxed exactly when the element type is a pointer; the first failing row's error ends the scan |
| RowScan.RowsDest.constructor | engine/core.go:260 | a destination slice of the given type |
| RowScan.ScanColumns | engine/core.go:275 | the error of `rows.Columns()` is ignored, giving no columns |
| RowScan.ScanRows | engine/core.go:260-294 | a type-check error leaves the slice unchanged; otherwise the rows' elements are appended after the old ones, and the error that stopped the scan is returned |

## Left out

- The database itself is not modelled. This covers `database/sql`, the
  driver, prepared statements, `LastInsertId` and the closing of statements
  and rows. Running a statement is a parameter (`run`, `query` or `f`).
- `BuilderEngine.SqlEngine.Execute`: the id is modelled as an unbounded
  `int` rather than an `int64`. `LastInsertId`'s own error is folded into
  the answer of `run`.
- `MapEngine.SqlEngine.Execute`: the same as for `BuilderEngine`.
- `BuilderEngine.SqlEngine.Query`: `Prepare` and `stmt.Query` are one
  `query` parameter, so their errors are not told apart.
- `MapEngine.SqlEngine.Query`: the same as for `BuilderEngine`.
- XML reading (`etree`) is outside the model. A file arrives as an
  `XmlInput`: a read error, or a document with its root, namespace
  attribute and `sql` elements.
- The template engines are outside the model. This covers `text/template`
  and the template package used by `builder/sql_builder.go`. Parsing,
  compiling and executing a template are parameters.
- Listing a directory and reading files (`util/files.go`) is outside the
  model. The result is the `listing` parameter.
- Locking and concurrency: `SqlEngine.lock` and concurrent access to the
  package-wide maps are not modelled.
- Logging, printing, `main.go` and the tests are not modelled. Logging
  covers `log.Info` and `fmt.Println` of the built statement.
- `Session.Exec` is not modelled, because it is an empty stub.
- Reflection internals are not modelled. A struct type is its list of
  tagged fields, and converting one driver value into one field is the
  opaque `convert` parameter. This includes how NULL is scanned into a
  field.
- RowScan.ScanRows: a `*[]*S` element is a `Boxed` value, not a pointer, so
  aliasing between the appended pointers and other references is not
  captured.
- Binding.BytesToString: `string(bytes)` reads each byte as the character
  with that code. Go decodes UTF-8, so the model matches only for ASCII
  text.
- Binding.ScanBuffers: only `[]byte` driver values are modelled. Other
  value kinds that `rows.Scan` converts are not.
- The `row[i] == nil` branch of `convertMapString` and `convertMapBytes` is
  modelled (`Slot.Nil`). It cannot be reached from ReadRows, whose rows
  hold only buffers.
- The stateless `XmlParser` object and its `New` are not modelled.
- BuilderEngine.SqlEngine.Execute, BuilderEngine.SqlEngine.Query,
  MapEngine.SqlEngine.Execute and MapEngine.SqlEngine.Query require a
  database (`db.Some?`), and MapEngine.SqlEngine.NewSession requires a
  session factory. After an `Init` whose open failed, the engine is marked
  initialised but has neither, and the Go code dereferences nil
  (`engine/sql_engine.go:62` and `80`, `engine/engine.go:71`, `89` and
  `124`). The model does not describe that panic; it excludes the case.
- The exported `DefaultNamespace` variables are treated as constants.
- `TemplateBuilder` and `Template`, the interfaces of `engine/core.go` and
  `engine/common.go`, are not part of this model. Compiling and executing
  are the parameters `compile` and `exec`.
- The tests look statements up as `my.selectALL`, but the parser registers
  ids as `namespace_id` (`parser/xml_parser.go:49`). The model follows the
  parser.
