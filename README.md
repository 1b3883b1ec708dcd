# ks-nav and the call-tree tools, modelled in Dafny

This project models the sequential core of ks-nav and of the Python
call-tree tools next to it, and proves what that code promises.

- **Navigator** (`ks-nav/nav`):
  - `navigate`, the recursive walk over a symbol's callees, and its list helpers (`db_util.dfy`, with its properties in `db_util_props.dfy`);
  - the `SqlDB` datasource, a cache of three maps in front of five queries (`sql_db.dfy`), and the tie between the graph `navigate` reads and that datasource's database (`db_view.dfy`);
  - the `sqlMock` replay datasource and its 32-bit `murmurHash3` (`sql_mock.dfy`, `murmur3.dfy`).
- **Older revision of the navigator**: `psql.go` (`psql.dfy`, `psql_props.dfy`), the output assembly of `nav.go` (`nav_main.dfy`) and the command-line parser of `config.go` (`nav_config.dfy`).
- **Indexer** (`ks-nav/kern_bin_db`):
  - the MAINTAINERS scanner (`maintainers.dfy`);
  - the list logic of the radare2 front end (`r2tool.dfy`);
  - the command-line parser (`kbd_config.dfy`);
  - the database-kind names (`kbd_db.dfy`).
- **Call-tree tool** (`call_tree_tool`):
  - the cflow indentation reader (`edge_processor.dfy`);
  - the depth-first tree printer (`graph_draw.dfy`);
  - the log names and the source rewrite done before cflow runs (`helper_functions.dfy`).
- **Source-file parser** (`funcParser_tool/domain.py`): the list merge and the '*' rule of the function formatter (`domain.dfy`).
- **Shared modules**: `wrappers.dfy` (Option, Result), `text.dfy` (the string operations the sources call), `keyed.dfy` (the keep-first deduplication and the stable sort several loops are proved against), `strconv.dfy` (Go's `strconv.Atoi`, `Itoa` and the quoting of its messages) and `nav_types.dfy` (the navigator's value types).

**How the model is built.**
- State the source changes in place is held by classes whose methods are proved against functional descriptions: `Navigator`, `SqlDB`, `SqlMockDB`, `OldCacheMaps`, `OldNavigator`, `EdgeProcessor`, `GraphDrawFile` and `ItemList`.
- Loops are `while` loops whose invariants tie the loop state to those descriptions.
- Lemmas state the properties of the descriptions.

**How `getSubsysFromSymbolName` is modelled.** Its comment (ks-nav/nav/sql_db.go:153) promises the larger subsystem. Its rows are ordered by decreasing count, but the scan loop overwrites the values on every row, so the last row, the least frequent one, decides the answer. The model follows the code, and `SqlDb.LastRowWins` states the behaviour.

## Model

| member | source | states |
|---|---|---|
| NavTypes.ModeOfCode | ks-nav/nav/db_util.go:24-35 | a number names an output mode exactly when it lies in 1 .. OutModeLast-1, and the mode it names has that number |
| NavTypes.ModeCodeRoundTrip | ks-nav/nav/db_util.go:28-35 | every mode's number is below OutModeLast and maps back to the same mode |
| NavTypes.Sprintf2 | ks-nav/nav/db_util.go:140-153 | the edge text has the template's length plus both names; a template with any literal text, or the empty template (Go's EXTRA suffix), never yields "" |
| DbUtil.NotIn | ks-nav/nav/db_util.go:76-85 | `notIn` is true exactly when v does not occur in the list |
| DbUtil.NotExcluded | ks-nav/nav/db_util.go:102-110 | `notExcluded` is true exactly when no pattern of the list matches the symbol |
| DbUtil.InTargets | ks-nav/nav/db_util.go:183-192 | `intargets` is true exactly when either name is a target |
| DbUtil.DedupFacts | ks-nav/nav/db_util.go:87-100 | the deduplicated list has strictly ascending ids, the same set of ids as the input, and for each id the entry that came first in the input |
| DbUtil.RemoveDuplicate | ks-nav/nav/db_util.go:87-100 | the stable sort and seen-map loop returns the deduplicated list: ascending distinct ids, no id lost, only input entries |
| DbUtil.NavFrom | ks-nav/nav/db_util.go:116-122 | a `navigate` call appends its own id to the visited list and only ever extends it |
| DbUtil.NavLoop | ks-nav/nav/db_util.go:126-180 | the successor loop only extends the visited list |
| DbUtil.NavStep | ks-nav/nav/db_util.go:128-177 | one successor's iteration only extends the visited list |
| DbUtil.Navigator.Navigate | ks-nav/nav/db_util.go:116-181 | the recursive method ends in exactly the state the functional description gives for the same call |
| DbUtil.Navigator.Walk | ks-nav/nav/db_util.go:126-180 | the loop over the successors ends in the state of the functional loop |
| DbUtil.Navigator.Visit | ks-nav/nav/db_util.go:128-177 | one iteration changes the state as the functional step does and carries on the same right node |
| DbUtil.Navigator.Follow | ks-nav/nav/db_util.go:173-177 | recurses exactly when the callee is unvisited, passes both exclusion lists and the depth bound |
| DbUtil.Navigator.Connect | ks-nav/nav/db_util.go:130-172 | the right node, the depth increment, the adjacency pair and the count/output update for one edge |
| DbUtilProps.ListForFromSource | ks-nav/nav/db_util.go:122-125 | the list iterated (deduplicated in printAll mode) holds only successors of the current id |
| DbUtilProps.LinkAdjCrosses | ks-nav/nav/db_util.go:152-155 | an adjacency pair is recorded only for an edge between two different subsystems |
| DbUtilProps.LinkCollapse | ks-nav/nav/db_util.go:138-159 | outside printAll, an edge between two subsystems records exactly that pair, writes the template on the two subsystem names and goes one level deeper, while an edge inside one subsystem records nothing, writes "" and stays at the same depth; with a template that does not print as "", the text is non-empty exactly when the subsystems differ; printAll records no pair and writes the template on the two symbols |
| DbUtilProps.LinkSubsys | ks-nav/nav/db_util.go:143-150 | in the subsystem modes the callee node gets its symbol's subsystem, or "The REST" when it has none |
| DbUtilProps.RecordGood | ks-nav/nav/db_util.go:163-172 | counting an edge text keeps every count positive and prints each non-empty text at most once, and in targeted mode only for a target |
| DbUtilProps.FromGood | ks-nav/nav/db_util.go:116-181 | a nested `navigate` keeps the state invariant (no id visited twice, crossing pairs, printed pieces distinct and counted) and visits only admitted ids |
| DbUtilProps.LoopGood | ks-nav/nav/db_util.go:126-180 | the successor loop keeps the same invariant |
| DbUtilProps.StepGood | ks-nav/nav/db_util.go:128-177 | one iteration keeps the same invariant |
| DbUtilProps.DescendGood | ks-nav/nav/db_util.go:173-177 | the recursive call keeps the invariant |
| DbUtilProps.StepFacts | ks-nav/nav/db_util.go:130-172 | recording one edge keeps the invariant and the visited list, and prints nothing in targeted mode without targets |
| DbUtilProps.NavigateVisitsOnce | ks-nav/nav/db_util.go:120-176 | from scratch, no id is visited twice, the root comes first, and every other visited id is a listed callee that neither exclusion list matches |
| DbUtilProps.NavigateOutputPieces | ks-nav/nav/db_util.go:163-172 | the output is the concatenation of distinct non-empty edge texts, each counted in prod; outside printTargeted every non-empty text counted in prod is one of them |
| DbUtilProps.NavigateAdjCrosses | ks-nav/nav/db_util.go:152-155 | every adjacency pair of a navigation joins two different subsystems |
| DbUtilProps.NavigateNoTargetsNoOutput | ks-nav/nav/db_util.go:168-192 | in targeted mode with no targets the output stays empty |
| DbUtilProps.NavigateOutputGrows | ks-nav/nav/db_util.go:169 | a nested call only appends to the output |
| SqlDb.ScanRowsNext | ks-nav/nav/sql_db.go:91-95 | one more row: after an earlier scan error nothing changes, a failing scan stops the loop with its message, a good row is folded in |
| SqlDb.ScanRowsStops | ks-nav/nav/sql_db.go:91-95 | the first scan error ends the loop with the value folded from the rows before it and that error |
| SqlDb.ScanRowsAllScanned | ks-nav/nav/sql_db.go:91-99 | a result set whose rows all scan reports no scan error |
| SqlDb.ScanLatest | ks-nav/nav/sql_db.go:180-185 | scanning every row into the same variables leaves the values of the last row (or the initial ones when there is none) |
| SqlDb.TagsSnoc | ks-nav/nav/sql_db.go:96-98 | one more row adds its tag to the subsystem list exactly when the tag is not null |
| SqlDb.ScanEntryRows | ks-nav/nav/sql_db.go:91-99 | the entry built from good rows has one subsystem per non-null tag in row order, the id, name and file of the last row, and no source or address |
| SqlDb.LastRowWins | ks-nav/nav/sql_db.go:153-202 | the scan keeps the last row: of two good rows with different subsystems (ordered by decreasing count) the answer is the second's, not the first's, although the comment at line 153 promises the larger subsystem |
| SqlDb.SubsysAnswerRows | ks-nav/nav/sql_db.go:180-202 | on good rows the answer is "" with no rows, otherwise the last row's subsystem, "indirect" for that symbol type, or "" when the subsystem is empty |
| SqlDb.Sym2NumCases | ks-nav/nav/sql_db.go:206-243 | `sym2num` succeeds exactly on a single good row and returns its id; no row gives -1 and several good rows the last id, both with "duplicate ID in the DB" |
| SqlDb.Quoted | ks-nav/nav/sql_db.go:280 | each subsystem name is written between double quotes |
| SqlDb.CloseObject | ks-nav/nav/sql_db.go:257-282 | trimming the trailing comma and closing with `]},` yields exactly the object for the symbol and its quoted subsystem names, followed by a comma |
| SqlDb.ObjectGetErrors | ks-nav/nav/sql_db.go:253-279 | each error one id can cause returns "" and a message starting with `symbSubsys` |
| SqlDb.SymbFoldShape | ks-nav/nav/sql_db.go:246-287 | without error there is one object per id, every error starts with `symbSubsys`, and an empty list gives "" and an unchanged cache |
| SqlDb.SymbFoldStops | ks-nav/nav/sql_db.go:254-279 | once an id fails, the ids after it change nothing |
| SqlDb.QuoteStep | ks-nav/nav/sql_db.go:280 | appending `"name",` extends the comma-terminated list of quoted names by that name |
| SqlDb.QuoteRows | ks-nav/nav/sql_db.go:274-281 | the inner loop fails exactly on a row that does not scan, and otherwise appends every scanned name quoted and followed by a comma |
| SqlDb.EntryGetTransparent | ks-nav/nav/sql_db.go:69-104 | with a cache holding only what the database answers, `getEntryById` returns the database's answer and the cache stays so |
| SqlDb.SubsysGetTransparent | ks-nav/nav/sql_db.go:158-200 | the same for `getSubsysFromSymbolName` |
| SqlDb.SuccScanTransparent | ks-nav/nav/sql_db.go:134-143 | the successor loop over a valid cache builds the list the database describes and touches only the entry cache |
| SqlDb.SuccessorsGetTransparent | ks-nav/nav/sql_db.go:115-148 | with a valid cache `getSuccessorsById` returns the database's successor list and the cache stays valid |
| DbView.NavigateSeesDatasource | ks-nav/nav/db_util.go:122-144 | when the graph `navigate` walks is the view of a `SqlDB`'s database, every successor list and subsystem it reads through a valid cache is what that view holds |
| SqlDb.SuccessorsAnswerRows | ks-nav/nav/sql_db.go:134-143 | on good rows the successor list has one entry per xref row: the callee's entry with that row's source line and address |
| SqlDb.SqlDB.constructor | ks-nav/nav/sql_db.go:31-34 | a new datasource has a nil handle and empty caches |
| SqlDb.SqlDB.Init | ks-nav/nav/sql_db.go:37-55 | a handle is taken as is; a token opens a connection; anything else is "invalid type"; the caches are reset only on success |
| SqlDb.SqlDB.GetExploredSubsystemByName | ks-nav/nav/sql_db.go:57-61 | a non-empty answer is the cached subsystem; an uncached symbol gives "" |
| SqlDb.SqlDB.GetEntryById | ks-nav/nav/sql_db.go:64-107 | a cached entry is returned without a query; otherwise the rows' entry, cached only on success |
| SqlDb.SqlDB.GetSuccessorsById | ks-nav/nav/sql_db.go:110-151 | a cached list is returned without a query; otherwise one entry per xref row, cached only on success; an error returns nil |
| SqlDb.SqlDB.GetSubsysFromSymbolName | ks-nav/nav/sql_db.go:154-203 | the answer from the rows; a non-empty answer is cached and then visible through GetExploredSubsystemByName; "" leaves the cache unchanged |
| SqlDb.SqlDB.Sym2Num | ks-nav/nav/sql_db.go:206-243 | returns what the id query's rows determine, as Sym2NumCases describes |
| SqlDb.SqlDB.AppendObject | ks-nav/nav/sql_db.go:253-282 | one id's object and a comma are appended, or the id's error is returned |
| SqlDb.SqlDB.SymbSubsys | ks-nav/nav/sql_db.go:246-287 | the objects of all ids joined by commas, or "" and the first error |
| Murmur3.LowBitsZero | ks-nav/nav/sql_mock.go:140-148 | Go's `uint32` conversion of 0 is the zero word |
| Murmur3.MurmurHash3 | ks-nav/nav/sql_mock.go:128-155 | the loop computes the hash of the whole list: one wrapping 32-bit round per element with its byte offset, then the finaliser |
| Murmur3.MurmurEmpty | ks-nav/nav/sql_mock.go:138-154 | the empty list skips the loop and hashes to the finaliser applied to the seed, 0xebb6c228 |
| SqlMock.Find | ks-nav/nav/sql_mock.go:86-123 | a stored key answers its stored pair; a key never stored answers the zero value with a nil error |
| SqlMock.FindStored | ks-nav/nav/sql_mock.go:40-64 | storing under one key changes the answer for that key only |
| SqlMock.LookupByHash | ks-nav/nav/sql_mock.go:56-117 | a symbSubsys lookup finds the answer loaded for any list with the same hash, and is unaffected by a load under another hash |
| SqlMock.SqlMockDB.constructor | ks-nav/nav/sql_mock.go:27-34 | a new mock holds six empty tables |
| SqlMock.SqlMockDB.Init | ks-nav/nav/sql_mock.go:66-74 | `init` empties all six tables and never fails |
| SqlMock.SqlMockDB.LoadExploredSubsystemByName | ks-nav/nav/sql_mock.go:36-38 | only that table changes, and the getter then answers the loaded name |
| SqlMock.SqlMockDB.LoadSuccessorsById | ks-nav/nav/sql_mock.go:40-43 | only that table changes, and getSuccessorsById then answers the loaded pair |
| SqlMock.SqlMockDB.LoadSubsysFromSymbolName | ks-nav/nav/sql_mock.go:45-48 | only that table changes, and getSubsysFromSymbolName then answers the loaded pair |
| SqlMock.SqlMockDB.LoadSym2Num | ks-nav/nav/sql_mock.go:50-54 | only that table changes, and sym2num then answers the loaded pair |
| SqlMock.SqlMockDB.LoadSymbSubsys | ks-nav/nav/sql_mock.go:56-59 | only that table changes, under the list's hash, and symbSubsys then answers the loaded pair |
| SqlMock.SqlMockDB.LoadEntryById | ks-nav/nav/sql_mock.go:61-64 | only that table changes, and getEntryById then answers the loaded pair |
| SqlMock.SqlMockDB.GetExploredSubsystemByName | ks-nav/nav/sql_mock.go:76-81 | the loaded name, or "" when none was loaded |
| SqlMock.SqlMockDB.SymbSubsys | ks-nav/nav/sql_mock.go:110-117 | hashes the list and answers the pair stored under that hash and instance, changing nothing |
| Psql.OldScanEntryRows | ks-nav/nav/psql.go:110-125 | the entry built from good rows has one subsystem per non-null tag in row order, the id, name and file of the last row, and `Exported`/`Type` never set |
| Psql.OldSubsysCachesEmpty | ks-nav/nav/psql.go:188-212 | on good rows the answer is the last row's name ("" with no row), it is cached even when "", and an error after the rows is not looked at |
| Psql.OldSym2NumCases | ks-nav/nav/psql.go:215-237 | `sym2num` succeeds exactly on a single good row; no row gives 0 and several good rows the last id, both with "id is not unique" |
| Psql.OldSym2Num | ks-nav/nav/psql.go:215-237 | the counting loop returns what the rows determine, as OldSym2NumCases describes |
| Psql.OldSymbFoldShape | ks-nav/nav/psql.go:310-335 | without error there is one object per id; the only errors are the two query messages, and they cannot occur when every tag query answers and scans |
| Psql.OldSymbFoldStops | ks-nav/nav/psql.go:319-328 | once an id fails, the ids after it change nothing |
| Psql.OldEntryGetTransparent | ks-nav/nav/psql.go:97-124 | with a cache holding only database answers, `get_entry_by_id` returns the database's answer and the cache stays so |
| Psql.OldSubsysGetTransparent | ks-nav/nav/psql.go:191-210 | the same for `get_subsys_from_symbol_name` |
| Psql.OldSuccScanTransparent | ks-nav/nav/psql.go:145-152 | the successor loop over a valid cache builds the list the database describes |
| Psql.OldSuccessorsGetTransparent | ks-nav/nav/psql.go:134-157 | with a valid cache `get_successors_by_id` returns the database's list and the cache stays valid |
| Psql.NavigateSeesGraph | ks-nav/nav/psql.go:251-280 | when g is the view of the database, every successor list, entry and subsystem `Navigate` reads through a valid shared cache is what g holds |
| Psql.OldSymbFoldTransparent | ks-nav/nav/psql.go:310-332 | the symbSubsys loop over any valid entries cache builds the same objects and stops with the same error as over an empty one, and the cache stays valid |
| Psql.OldObjectTransparent | ks-nav/nav/psql.go:316-331 | one id of symbSubsys gives the same object or error from any two valid entries caches, and both stay valid |
| Psql.OldSymbSubsysTransparent | ks-nav/nav/psql.go:310-336 | symbSubsys answers the same text or error from any valid entries cache as from an empty one |
| Psql.OldCacheMaps.constructor | ks-nav/nav/psql.go:72-76 | a new cache holds three empty maps |
| Psql.OldCacheMaps.GetEntryById | ks-nav/nav/psql.go:93-126 | the reply and the entry map are those of the cached lookup; the other two maps are untouched |
| Psql.OldCacheMaps.GetSuccessorsById | ks-nav/nav/psql.go:129-159 | the reply and the cache are those of the cached lookup: a cached list without a query, else one entry per xref row, cached on success |
| Psql.OldCacheMaps.GetSubsysFromSymbolName | ks-nav/nav/psql.go:188-212 | the reply and the subsystem map are those of the cached lookup, and any answer without error is cached |
| Psql.OldCacheMaps.AppendObject | ks-nav/nav/psql.go:316-331 | one id's object and a comma are appended, or the id's error is returned; only the entry map can change |
| Psql.OldCacheMaps.SymbSubsys | ks-nav/nav/psql.go:310-335 | the objects of all ids joined by commas, or "" and the first error |
| Psql.OldDedupFacts | ks-nav/nav/psql.go:173-185 | the deduplicated list has strictly ascending ids, the same set of ids as the input, and only input entries |
| Psql.OldRemoveDuplicate | ks-nav/nav/psql.go:173-185 | the stable sort and seen-map loop returns the deduplicated list |
| Psql.OldListInUniverse | ks-nav/nav/psql.go:257-258 | the deduplicated successor list holds only ids that occur in some successor list |
| Psql.OldNavFrom | ks-nav/nav/psql.go:251-258 | a `Navigate` call appends its own id to the visited list and only ever extends it |
| Psql.OldNavLoop | ks-nav/nav/psql.go:259-306 | the successor loop only extends the visited list |
| Psql.OldNavStep | ks-nav/nav/psql.go:291-304 | one successor's count and recursion only extend the visited list |
| Psql.OldNavFromUnfold | ks-nav/nav/psql.go:255-260 | a call is the loop over the deduplicated successors, with nothing carried yet, after its id is marked visited |
| Psql.OldNavLoopUnfold | ks-nav/nav/psql.go:260-305 | one loop iteration runs the switch and then the count and recursion with what the switch set |
| Psql.OldNavigator.constructor | ks-nav/nav/psql.go:251 | a navigation starts with nothing visited, no counts and no output |
| Psql.OldNavigator.Navigate | ks-nav/nav/psql.go:251-307 | the recursive method ends in exactly the state the functional description gives |
| Psql.OldNavigator.Walk | ks-nav/nav/psql.go:259-306 | the loop over the successors, with `s`, `ll` and `depthInc` carried across iterations, ends in the state of the functional loop |
| Psql.OldNavigator.Switch | ks-nav/nav/psql.go:261-290 | the callee lookup and the mode switch set `s`, `ll` and `depthInc` as the functional switch does |
| Psql.OldNavigator.Visit | ks-nav/nav/psql.go:291-304 | the count, the output and the recursion for one successor, as the functional step |
| Psql.OldNavigator.Tally | ks-nav/nav/psql.go:291-298 | counts the edge string and prints it on its first occurrence unless it is empty |
| Psql.OldNavigator.Follow | ks-nav/nav/psql.go:300-304 | recurses exactly when the callee is unvisited, not excluded and the current depth is within the bound |
| PsqlProps.CountGood | ks-nav/nav/psql.go:291-298 | counting keeps every count positive and prints each non-empty string at most once; "" is never printed |
| PsqlProps.OldFromGood | ks-nav/nav/psql.go:251-307 | a nested `Navigate` keeps the state invariant, visits only ids the exclusion list admits, and prints nothing in another mode |
| PsqlProps.OldLoopGood | ks-nav/nav/psql.go:259-306 | the successor loop keeps the same invariant |
| PsqlProps.OldStepGood | ks-nav/nav/psql.go:291-304 | one iteration keeps the same invariant |
| PsqlProps.OldDescendGood | ks-nav/nav/psql.go:300-304 | the recursive call keeps the invariant |
| PsqlProps.OldNavigateVisitsOnce | ks-nav/nav/psql.go:255-303 | from scratch, no id is visited twice, the root comes first, and every other visited id has a symbol the exclusion list does not match |
| PsqlProps.OldNavigateOutputPieces | ks-nav/nav/psql.go:291-298 | the output is the concatenation of distinct non-empty edge strings, each counted in prod, and every non-empty string counted in prod is one of them |
| PsqlProps.OldOtherModeSilent | ks-nav/nav/psql.go:267-290 | with a mode other than PRINT_ALL and PRINT_SUBSYS nothing is ever printed |
| PsqlProps.OldNavigateDedups | ks-nav/nav/psql.go:257-258 | in every mode the successors are walked deduplicated, by strictly ascending id |
| PsqlProps.OldSubsysEdge | ks-nav/nav/psql.go:273-288 | in PRINT_SUBSYS the right end is the callee's subsystem or "UNDEFINED SUBSYSTEM", and an edge is printed only between different ends |
| PsqlProps.OldDepthIncCarried | ks-nav/nav/psql.go:253-283 | `depthInc` is never reset: after an edge-printing successor, a same-subsystem successor still descends one level deeper |
| PsqlProps.OldPrintAllEdge | ks-nav/nav/psql.go:261-272 | in PRINT_ALL every successor prints the left name to its symbol, or to "Unknown" when its entry cannot be read |
| PsqlProps.OldDepthBound | ks-nav/nav/psql.go:301 | past the depth bound a successor is counted but never explored |
| NavMain.Opt2Num | ks-nav/nav/nav.go:68-80 | each of the four output-type names maps to its code 1-4, and exactly the other names map to 0 |
| NavMain.TablesCoverCodes | ks-nav/nav/nav.go:52-109 | both template tables have a row for every code `opt2num` returns; code 0 has the empty templates, and every known code a `digraph G {` header |
| NavMain.JsonOutputGraph | ks-nav/nav/nav.go:50-122 | the envelope holds the graph right after its fixed opening and the symbol data right before its closing |
| NavMain.GenerateOutput | ks-nav/nav/nav.go:82-143 | for a graph that is the database's view, the method answers what the functional description of `generate_output` gives: sym2num, the start entry, the navigation, symbSubsys, then the envelope of the output type |
| NavMain.GenerateSharedCache | ks-nav/nav/nav.go:90-113 | whatever valid entries `Navigate` leaves in the shared cache, symbSubsys answers what it answers from the cache holding only the start entry |
| NavMain.GenerateUnresolved | ks-nav/nav/nav.go:94-98 | a symbol that does not name exactly one id ends `generate_output` with "" and an error |
| NavMain.GenerateGraphAndJson | ks-nav/nav/nav.go:100-140 | when every query succeeds, GraphOnly answers `digraph G {\n`, the output and `}`, JsonOutputPlain wraps that text in the envelope, and an unknown name gives "Unknown output mode" |
| GoStrconv.DigitRun | ks-nav/nav/config.go:170 | the length of the leading run of decimal digits, never past the string's end, with every character of the run a digit |
| GoStrconv.Atoi | ks-nav/nav/config.go:170-200 | a success is always a value in the int64 range; a failure carries Go's syntax or range message for the input |
| GoStrconv.EscapeChar | ks-nav/nav/config.go:170-200 | in Go's quoted form of the input, quote and backslash get a backslash, printable ASCII is kept, and every ASCII control character and DEL becomes a printable escape starting with a backslash |
| GoStrconv.UnescapeEscape | ks-nav/nav/config.go:170-200 | the escapes read back to the input |
| GoStrconv.EscapeNoControl | ks-nav/nav/config.go:170-200 | the quoted input holds no ASCII control character and no DEL |
| GoStrconv.QuoteInjective | ks-nav/nav/config.go:170-200 | two inputs with the same quoted form are equal |
| GoStrconv.AtoiOk | ks-nav/nav/config.go:170-200 | Atoi succeeds exactly on an optional sign and a non-empty digit run whose value fits in an int64, and then answers that value with the sign applied |
| GoStrconv.Digits | ks-nav/kern_bin_db/config.go:164 | the decimal rendering of a natural number is non-empty and all digits |
| GoStrconv.ValueDigits | ks-nav/kern_bin_db/config.go:164 | reading the digits back gives the number |
| GoStrconv.DigitRunAll | ks-nav/kern_bin_db/config.go:164 | an all-digit string is one digit run |
| GoStrconv.AtoiItoa | ks-nav/kern_bin_db/config.go:164 | Atoi reads back every int64 Itoa writes |
| NavConfig.Push | ks-nav/nav/config.go:102-104 | `push_cmd_line_item` appends one item, numbered one past the items already in the table |
| NavConfig.CmdLineItemInit | ks-nav/nav/config.go:108-124 | the method builds exactly the eleven-switch table of `cmd_line_item_init` |
| NavConfig.CmdLineItemIds | ks-nav/nav/config.go:108-124 | items are numbered by position from one; only -s and -i are needed; -h alone takes no argument; the table is well formed |
| NavConfig.Apply | ks-nav/nav/config.go:126-209 | a handler never touches the needs map; `func_help` always fails with "Command Help" |
| NavConfig.DepthAndModeRanges | ks-nav/nav/config.go:178-209 | `-x` accepts exactly the non-negative integers and `-m` exactly the codes of the four output modes; an accepted depth is non-negative |
| NavConfig.InitNeedsMarks | ks-nav/nav/config.go:237-241 | the first loop of `args_parse` enters every needed switch as not yet seen and marks none as seen |
| NavConfig.InitNeedsKeeps | ks-nav/nav/config.go:237-241 | the first loop keeps every key already in the needs map |
| NavConfig.InitNeedsNoneNeeded | ks-nav/nav/config.go:237-241 | items that are not needed leave the needs map as it was |
| NavConfig.MatchToken | ks-nav/nav/config.go:245-259 | the inner loop over the table for one token ends as the functional description of the match says: the new configuration and pending handler, or the handler's error |
| NavConfig.ArgsParse | ks-nav/nav/config.go:232-284 | the method answers what the functional description of `args_parse` gives; on failure its configuration is the default one |
| NavConfig.MatchMarksOnlyTok | ks-nav/nav/config.go:245-259 | matching a token marks at most that token as seen and changes no other entry of the needs map |
| NavConfig.MatchAt | ks-nav/nav/config.go:245-259 | the first item spelling the token decides it: a needed switch is marked seen, one with an argument leaves its handler pending, one without runs `func_help` |
| NavConfig.UnknownTokenIgnored | ks-nav/nav/config.go:245-259 | a token that names no switch leaves the configuration unchanged and nothing pending |
| NavConfig.ParseFromNeedsSeen | ks-nav/nav/config.go:275-283 | parsing succeeds only when every switch entered in the needs map occurs among the arguments |
| NavConfig.ArgsParseNeedsSeen | ks-nav/nav/config.go:275-283 | a successful `args_parse` saw every needed switch of the table among the arguments |
| NavConfig.StandardTable | ks-nav/nav/config.go:108-124 | the table starts with -j, -s, -i, only -s and -i are needed, -h takes no argument, and the first -p is the password switch and the second the port switch |
| NavConfig.ArgsParseStart | ks-nav/nav/config.go:232-241 | with the standard table, the second loop starts from the default configuration with -s and -i needed and unseen |
| NavConfig.NoArguments | ks-nav/nav/config.go:275-283 | no arguments at all fail with "Missing needed arg" |
| NavConfig.HelpStops | ks-nav/nav/config.go:252-270 | `-h` where a switch is expected stops parsing with "Command Help" |
| NavConfig.ParseSwitch | ks-nav/nav/config.go:245-259 | a switch that takes a value leaves its handler pending for the next argument, marking it seen when needed |
| NavConfig.ParseValue | ks-nav/nav/config.go:263-269 | a pending handler consumes the next argument; its error ends parsing |
| NavConfig.SymbolStep | ks-nav/nav/config.go:149-152 | `-s v` sets the symbol to v and marks -s seen |
| NavConfig.InstanceStep | ks-nav/nav/config.go:190-197 | `-i v` sets the instance Atoi reads from v and marks -i seen, or fails with Atoi's error |
| NavConfig.SymbolAndInstance | ks-nav/nav/config.go:232-284 | `-s S -i N` gives the default configuration with symbol S and instance N, or Atoi's error for N |
| NavConfig.TrailingSwitch | ks-nav/nav/config.go:271-273 | a switch that needs a value as the last argument fails with "Missing switch arg" |
| NavConfig.PortSwitchShadowed | ks-nav/nav/config.go:116-118 | `-p` always matches the password item first, so it sets the password and the port switch is never reached |
| Maintainers.Seek2Data | ks-nav/kern_bin_db/maintainers.go:80-102 | the answer is one past the first empty line that follows a line starting with "..", and 0 exactly when no such empty line exists |
| Maintainers.Wildcard | ks-nav/kern_bin_db/maintainers.go:119-126 | the wildcard taken from a `F:` line holds no ':' and starts with neither a blank nor a tab |
| Maintainers.ParseMaintainers | ks-nav/kern_bin_db/maintainers.go:105-138 | the method answers the items of the functional description of the two-state scan, in input order |
| Maintainers.FoldTidy | ks-nav/kern_bin_db/maintainers.go:105-138 | the scan stays in states 0 and 1, never emits "THE REST" and keeps every wildcard trimmed and colon-free |
| Maintainers.MaintainersTidy | ks-nav/kern_bin_db/maintainers.go:128-135 | no emitted item is the "THE REST" entry, and every emitted wildcard is colon-free with its leading blanks trimmed |
| Maintainers.MaintainersPrefix | ks-nav/kern_bin_db/maintainers.go:130 | items are only appended: the items of a prefix of the file start the items of the whole file |
| Maintainers.LongLinesEmitNothing | ks-nav/kern_bin_db/maintainers.go:128-135 | lines of two bytes or more emit nothing, so a last entry with no short line after it is not returned |
| Maintainers.StepLong | ks-nav/kern_bin_db/maintainers.go:128 | one line of two bytes or more leaves the emitted items as they were |
| Maintainers.ShortNotFileLine | ks-nav/kern_bin_db/maintainers.go:118 | a line shorter than two bytes is never taken as a `F:` line |
| Maintainers.CloseEntry | ks-nav/kern_bin_db/maintainers.go:111-135 | a short line inside an entry emits it and starts the next one empty, except "THE REST", which is not emitted and whose wildcards carry into the next entry |
| R2Tool.Offset | ks-nav/kern_bin_db/r2tool.go:200 | the key get_function_by_addr compares: a function's offset |
| R2Tool.Name | ks-nav/kern_bin_db/r2tool.go:243 | the key get_f_relocs compares: a function's name |
| R2Tool.GetFunctionByAddr | ks-nav/kern_bin_db/r2tool.go:197-205 | a function is found exactly when some function sits at addr, and then it is the first one there |
| R2Tool.RemoveDuplicate | ks-nav/kern_bin_db/r2tool.go:314-331 | the first xref of each key (the target, or the source when the target is 0), in input order: keys pairwise different, the same key set as the input, each kept xref the first of its key |
| R2Tool.RemoveDuplicateAppended | ks-nav/kern_bin_db/r2tool.go:314-331 | a list with distinct keys comes back whole, and xrefs appended after it with keys it already has are exactly the ones removed |
| R2Tool.RemoveSDup | ks-nav/kern_bin_db/r2tool.go:224-235 | each string once, at its first position: no repeats, the same members as the input, in first-occurrence order |
| R2Tool.SDupFacts | ks-nav/kern_bin_db/r2tool.go:224-235 | deduplicating by value gives no repeats, the same members and first-occurrence order |
| R2Tool.FunctionNamed | ks-nav/kern_bin_db/r2tool.go:241-246 | the function picked is one of the list with that name when one exists, and the zero value otherwise |
| R2Tool.FindNamed | ks-nav/kern_bin_db/r2tool.go:241-246 | the first loop of get_f_relocs picks the first function named sym, or the zero value |
| R2Tool.CollectRelocNames | ks-nav/kern_bin_db/r2tool.go:250-254 | the second loop collects the names of the relocations inside the function, in order |
| R2Tool.GetFRelocs | ks-nav/kern_bin_db/r2tool.go:238-256 | the method answers what the functional description of get_f_relocs gives |
| R2Tool.FRelocsNotFound | ks-nav/kern_bin_db/r2tool.go:247-249 | get_f_relocs fails, with "symbol not found", exactly when the name is empty or no function has it |
| R2Tool.RelocNamesMembers | ks-nav/kern_bin_db/r2tool.go:250-254 | the names collected are exactly those of relocations with no symbol address and a virtual address within the function (offset + size wrapping as a uint64) |
| R2Tool.FRelocsContents | ks-nav/kern_bin_db/r2tool.go:238-256 | on success every name of a relocation inside the first function named sym is listed exactly once, and nothing else |
| R2Tool.Search | ks-nav/kern_bin_db/r2tool.go:364-419 | Go's `sort.Search` answers a position within the range it was given |
| R2Tool.SearchSorted | ks-nav/kern_bin_db/r2tool.go:364-419 | on a list sorted by offset the search stops at the first entry whose offset is at least addr |
| R2Tool.SearchIsFirst | ks-nav/kern_bin_db/r2tool.go:363-369 | on a sorted list the binary search finds what the linear get_function_by_addr finds, and finds an entry at addr exactly when one exists |
| R2Tool.IsFunc | ks-nav/kern_bin_db/r2tool.go:363-369 | is_func holds only when some function sits at addr |
| R2Tool.Addr2Sym | ks-nav/kern_bin_db/r2tool.go:418-424 | any answer but "Unknown" means some function sits at addr |
| R2Tool.LookupsSorted | ks-nav/kern_bin_db/r2tool.go:363-424 | on a sorted list, is_func holds exactly when the first function at addr has a `sym.` or thunk name, and Addr2Sym answers that function's name or "Unknown" when none sits at addr |
| R2Tool.RemoveNonFunc | ks-nav/kern_bin_db/r2tool.go:334-343 | the method answers what the functional description of remove_non_func gives |
| R2Tool.FuncXrefsMembers | ks-nav/kern_bin_db/r2tool.go:334-343 | remove_non_func keeps exactly the xrefs that are indirect calls or target a function |
| R2Tool.FuncXrefsAppend | ks-nav/kern_bin_db/r2tool.go:334-343 | remove_non_func splits over concatenation, so kept xrefs stay in input order |
| KbdConfig.Push | ks-nav/kern_bin_db/config.go:103-105 | `push_cmd_line_item` keeps the table and appends one item with that switch and handler, numbered one past the items already there |
| KbdConfig.CmdLineItemInit | ks-nav/kern_bin_db/config.go:109-122 | the method builds exactly the nine-switch table of `cmd_line_item_init` |
| KbdConfig.StandardTable | ks-nav/kern_bin_db/config.go:109-122 | items are numbered by position from one; only -c and -h take no value; the table is well formed and spells each switch once |
| KbdConfig.Apply | ks-nav/kern_bin_db/config.go:125-180 | `func_help` always fails with "Dummy", `func_check` changes nothing, `-o` succeeds exactly when Atoi reads its value, and every other setter changes only its own field |
| KbdConfig.MatchToken | ks-nav/kern_bin_db/config.go:207-219 | the inner loop over the table for one token ends as the functional description of the match says |
| KbdConfig.ArgsParse | ks-nav/kern_bin_db/config.go:200-234 | the method answers the configuration and error of the functional description of `args_parse` |
| KbdConfig.UnknownToken | ks-nav/kern_bin_db/config.go:207-219 | a token naming no switch leaves the configuration as it is and nothing pending |
| KbdConfig.UnknownTokensIgnored | ks-nav/kern_bin_db/config.go:205-228 | arguments none of which names a switch are ignored: the configuration comes back unchanged and without error |
| KbdConfig.NoArguments | ks-nav/kern_bin_db/config.go:202-234 | no arguments give the default configuration and no error |
| KbdConfig.ErrorsAnswerDefault | ks-nav/kern_bin_db/config.go:214-226 | every error except the missing value answers the default configuration, discarding what the switches set |
| KbdConfig.TrailingSwitch | ks-nav/kern_bin_db/config.go:229-231 | a switch that wants a value as the last argument answers the configuration built so far with "extra arg needed but none" |
| KbdConfig.MatchAt | ks-nav/kern_bin_db/config.go:207-213 | the first item spelling the token, when it takes a value, leaves its handler pending |
| KbdConfig.ValueStep | ks-nav/kern_bin_db/config.go:207-228 | a switch with a value applies its handler to the next argument; the handler's error answers the default configuration |
| KbdConfig.FlagStep | ks-nav/kern_bin_db/config.go:214-218 | a switch without a value runs its handler at once; its error answers the default configuration |
| KbdConfig.FlagAt | ks-nav/kern_bin_db/config.go:207-219 | the first item spelling the token, when it takes no value, runs its handler within the inner loop |
| KbdConfig.HelpAndCheck | ks-nav/kern_bin_db/config.go:125-180 | `-h` fails with "Dummy" and the default configuration; `-c` changes nothing |
| KbdConfig.Setters | ks-nav/kern_bin_db/config.go:143-175 | -s, -u, -p, -d and -n store the argument after them in their own field |
| KbdConfig.PortSwitch | ks-nav/kern_bin_db/config.go:163-170 | `-o v` sets the port Atoi reads from v, or answers Atoi's error with the default configuration |
| KbdConfig.SetThenTrailing | ks-nav/kern_bin_db/config.go:200-234 | `-s v -u` answers the default configuration with the strip binary v, and the missing-value error |
| KbdDb.DBSN2DBtype | ks-nav/kern_bin_db/db.go:118-131 | a spelling is accepted exactly when it names one of the four kinds, each kind answered exactly for its own spellings; any other string answers DBTYPE_Last and "Unknown Database type" |
| EdgeProcessing.LeadingSpaces | call_tree_tool/edgeprocessor.py:36 | the indentation is the length of the run of spaces the line starts with, stopping at the first other character |
| EdgeProcessing.WordPrefix | call_tree_tool/edgeprocessor.py:37 | the first word is a prefix of the text without separators, ended by a separator or the end of the text |
| EdgeProcessing.FirstWord | call_tree_tool/edgeprocessor.py:37 | `line.split()[0]` exists exactly when the line has a non-separator character, and is then a non-empty word without separators |
| EdgeProcessing.FuncName | call_tree_tool/edgeprocessor.py:39-41 | a trailing "()" is dropped from the word, and a word without one (a macro) is kept as it is |
| EdgeProcessing.CalledName | call_tree_tool/edgeprocessor.py:39-41 | a name followed by "()" reads back as that name |
| EdgeProcessing.Sibling | call_tree_tool/edgeprocessor.py:59-65 | above indentation 0 the line replaces the top of the stack and gets one edge from the entry under it; at 0 it is pushed with no edge; Python fails exactly when that entry does not exist |
| EdgeProcessing.Child | call_tree_tool/edgeprocessor.py:67-72 | the line gets one edge from the top of the stack, is pushed, and the indentation grows by four; Python fails exactly on an empty stack |
| EdgeProcessing.PopCount | call_tree_tool/edgeprocessor.py:77 | `range(indentation, current, 4)` has n steps, the least with indentation + 4n at or past current |
| EdgeProcessing.Parent | call_tree_tool/edgeprocessor.py:74-83 | the top and one entry per range step are popped, the line is pushed with the new indentation, and above indentation 0 it gets one edge from the entry then on top; Python fails exactly when the stack is too short |
| EdgeProcessing.CflowLinesCover | call_tree_tool/edgeprocessor.py:102-104 | the lines hold no newline, and each of them with its newline, followed by the dropped last piece, gives back the whole output |
| EdgeProcessing.EdgeProcessor.constructor | call_tree_tool/edgeprocessor.py:20-26 | a new processor has an empty stack, indentation 0 and no edges |
| EdgeProcessing.EdgeProcessor.ProcessSibling | call_tree_tool/edgeprocessor.py:59-65 | the new stack, indentation and edge log are those the functional description of `process_sibling` gives |
| EdgeProcessing.EdgeProcessor.ProcessChild | call_tree_tool/edgeprocessor.py:67-72 | the new stack, indentation and edge log are those the functional description of `process_child` gives |
| EdgeProcessing.EdgeProcessor.ProcessParent | call_tree_tool/edgeprocessor.py:74-83 | the new stack, indentation and edge log are those the functional description of `process_parent` gives |
| EdgeProcessing.EdgeProcessor.ProcessLine | call_tree_tool/edgeprocessor.py:34-57 | the new state is the one the functional description of `process_line` gives: child, parent or sibling by comparing the line's indentation with the current one |
| EdgeProcessing.EdgeProcessor.ProcessLines | call_tree_tool/edgeprocessor.py:106-109 | the stack and indentation are reset, then every line is processed in turn; edges already logged are kept |
| EdgeProcessing.EdgeProcessor.ProcessOutput | call_tree_tool/edgeprocessor.py:102-109 | cflow's output is split into lines, its last piece dropped, and the lines processed in turn |
| EdgeProcessing.LineStepTop | call_tree_tool/edgeprocessor.py:34-83 | after a line the top of the stack is that line's (path, name) |
| EdgeProcessing.LineStepEdges | call_tree_tool/edgeprocessor.py:34-83 | a line adds exactly one edge, ending at its own function, when it is indented and none otherwise; earlier edges are kept and the indentation stays non-negative |
| EdgeProcessing.RunEdges | call_tree_tool/edgeprocessor.py:106-109 | processing a file adds one edge per indented line and keeps the edges already logged |
| EdgeProcessing.SmallTree | call_tree_tool/edgeprocessor.py:34-109 | for lines a, b, c, d at indentations 0, 4, 8, 4 the edges are a→b, b→c, a→d and the stack ends [a, d] at indentation 4 |
| EdgeProcessing.TreeDown | call_tree_tool/edgeprocessor.py:59-72 | a root line at 0 is pushed with no edge, and the next line at 4 is its callee |
| EdgeProcessing.TreeOut | call_tree_tool/edgeprocessor.py:67-83 | one level further in, then back out two levels: the deeper entries are popped and the outer line is called by the root |
| EdgeProcessing.RunFour | call_tree_tool/edgeprocessor.py:108-109 | four lines, each taking one state to the next, take the first state to the last |
| EdgeProcessing.RunStep | call_tree_tool/edgeprocessor.py:108-109 | processing a file is the first line's step, then the rest of the file |
| HelperFunctions.LogFileNameInjective | call_tree_tool/helperfunctions.py:28-31 | two (folder, info) pairs give the same log file name only when they are equal, for folders without '/' |
| HelperFunctions.Flatten | call_tree_tool/edgeprocessor.py:30 | every '/' of the path becomes '-', every other character is kept, and no '/' is left |
| HelperFunctions.EdgesLogFlat | call_tree_tool/edgeprocessor.py:28-32 | the edges log of a source file lies directly in `calltreelog/edges/` |
| HelperFunctions.RewriteLine | call_tree_tool/helperfunctions.py:49-66 | exactly the `#include` lines are dropped; a line that is not a SYSCALL_DEFINE line, or has no '(', is written unchanged |
| HelperFunctions.SyscallRewrite | call_tree_tool/helperfunctions.py:53-62 | a SYSCALL_DEFINE line becomes `int [compat_]sys_<name>(<args>`, where the name and the comma-free arguments together rejoin to the macro's text up to the next '(' |
| HelperFunctions.SplitFirst | call_tree_tool/helperfunctions.py:57-58 | the first piece of a split is the text before the first separator |
| HelperFunctions.ConcatAvoids | call_tree_tool/helperfunctions.py:61 | joining pieces without a character gives a text without it |
| HelperFunctions.FixSourceLines | call_tree_tool/helperfunctions.py:47-67 | the written lines are the configuration include, then each input line's rewrite in order |
| HelperFunctions.RewrittenLength | call_tree_tool/helperfunctions.py:49-66 | every input line except an `#include` line gives exactly one output line |
| HelperFunctions.RewrittenCopies | call_tree_tool/helperfunctions.py:49-66 | a file without `#include` and SYSCALL_DEFINE lines is copied unchanged and in order |
| HelperFunctions.RewrittenAppend | call_tree_tool/helperfunctions.py:49-66 | rewriting distributes over concatenation: each line is rewritten on its own |
| GraphDraw.ReverseIndex | call_tree_tool/graphdraw.py:36-37 | reversing puts the element at index i at index n - 1 - i |
| GraphDraw.Tag | call_tree_tool/graphdraw.py:37 | every callee is paired with the same depth, in order |
| GraphDraw.Tabs | call_tree_tool/graphdraw.py:31 | `'\t' * depth` is depth tabs |
| GraphDraw.Render | call_tree_tool/graphdraw.py:31-33 | one line per visit, in order, each the visit's entry |
| GraphDraw.GraphDrawFile.constructor | call_tree_tool/graphdraw.py:12-19 | the drawer keeps its origin, depth bound and edge query |
| GraphDraw.GraphDrawFile.Dfs | call_tree_tool/graphdraw.py:21-37 | the written lines are the rendered depth-first walk from the origin at depth 0, callees expanded while the depth is within the bound |
| GraphDraw.PushAll | call_tree_tool/graphdraw.py:36-37 | inserting each callee at the front leaves them on the stack last first, above the old stack |
| GraphDraw.PendingAppend | call_tree_tool/graphdraw.py:25-37 | what two stacks still have to write, one above the other, is the first's lines then the second's |
| GraphDraw.PendingTag | call_tree_tool/graphdraw.py:36-37 | pushed callees still have to write their subtrees, one after the other |
| GraphDraw.PopStep | call_tree_tool/graphdraw.py:26-37 | taking the front entry writes it, then what its pushed callees write, then the rest of the stack |
| GraphDraw.Expand | call_tree_tool/graphdraw.py:34-37 | an entry within the bound writes itself and then its callees' subtrees |
| GraphDraw.FirstLineIsOrigin | call_tree_tool/graphdraw.py:24-31 | the first line written is the origin with no tab |
| GraphDraw.DepthBound | call_tree_tool/graphdraw.py:34 | every visit is at or below its start depth and at most one level past the bound |
| GraphDraw.DepthBoundAll | call_tree_tool/graphdraw.py:34 | every visit of the callees' walks lies between their depth and one level past the bound |
| GraphDraw.EntryDepth | call_tree_tool/graphdraw.py:31-33 | a line's leading tabs count its depth, and it ends with ")" and a newline |
| GraphDraw.LastCalleeFirst | call_tree_tool/graphdraw.py:36-37 | the walk enters the last callee `get_edges` lists first |
| GraphDraw.Diamond | call_tree_tool/graphdraw.py:25-37 | with no visited set, in the diamond a → [b, c], b → [x], c → [x] the walk writes a, c, x, b, x |
| Domain.ValuesMembers | funcParser_tool/domain.py:229-231 | the values are exactly the x with Some(x) in the subsidiary list |
| Domain.ItemList.MergeLists | funcParser_tool/domain.py:224-233 | the main list becomes the functional description of the merge, and the returned list is the main list itself |
| Domain.MergeIsKeepFirst | funcParser_tool/domain.py:224-233 | the merge appends the values of the subsidiary list not yet present, each once at its first occurrence |
| Domain.MergePrefix | funcParser_tool/domain.py:229-231 | the merge only appends: the main list's items keep their positions |
| Domain.MergeMembers | funcParser_tool/domain.py:229-231 | the merged list holds exactly the main list's items and the subsidiary list's values; None is never added |
| Domain.MergeNoDuplicates | funcParser_tool/domain.py:229-231 | a main list without duplicates stays without duplicates |
| Domain.MergeOrder | funcParser_tool/domain.py:229-231 | the appended items are the first occurrences of their values in the subsidiary list, in order |
| Domain.MoveStar | funcParser_tool/domain.py:101-104 | the name ends with no '*'; a name without '*' is kept; otherwise the type gains " *" and the name gets shorter; the parameters are untouched |
| Domain.StarRemoved | funcParser_tool/domain.py:102 | removing every '*' from a name that holds one shortens it |
| Domain.MoveStarIdempotent | funcParser_tool/domain.py:101-104 | applying the rule to its own result changes nothing |
| Domain.FormatFunctionDefinitions | funcParser_tool/domain.py:81-114 | the method answers what the functional description of the formatting loop gives |
| Domain.FormatFacts | funcParser_tool/domain.py:81-114 | formatting fails exactly when some line that is not skipped has a pattern without a match; on success earlier definitions are kept, at most one is added per line, and no new name holds '*' |
| Domain.Values | funcParser_tool/domain.py:229-231 | no more values than items |

## Left out

- SQL: the query text, `sql.Open`, `db.Query` and the driver are not modelled. Each query is a function from its arguments to a result set: the outcome of `rows.Scan` on each row, then the error `rows.Err()` reports.
- SqlDb.SqlDB.GetSuccessorsById, SqlDb.SqlDB.GetSubsysFromSymbolName, SqlDb.SqlDB.Sym2Num: these queries panic on error in the source. Their tables always answer a result set, so the panic path is not modelled. The same holds for every query of the older revision except the one behind `symbSubsys`.
- A failing `rows.Scan` is modelled as assigning nothing. Go may assign some columns before it fails.
- Errors from `rows.Close` are ignored, as the deferred closures in the source do for unnamed results.
- DbUtil.Navigator.Navigate, Psql.OldNavigator.Navigate: the datasource is a finite graph. The start symbol and every successor lie in its finite set of ids, which is what makes the walk terminate on cyclic graphs. A failed successor lookup answers the empty list, which `navigate` treats the same way.
- An output mode other than the four is not representable in `navigate` (the source panics there). `func_Mode` and `opt2num` are modelled with their range checks, so such a value is refused before navigation.
- Regular expressions: `regexp.MatchString` in `notExcluded` and `not_exluded` is the parameter `matches`. The `re`-based extractors of `funcParser_tool/domain.py` (`find_function_definitions`, `find_function_calls`, `find_macros`, `find_function_pointers`) are not modelled, nor are the three patterns and the whitespace replacements at domain.py:83-90. The formatter takes their matches as input.
- `fmt.Sprintf` is modelled only for the two-argument edge templates and the JSON envelope, as concatenation.
- Base64 and gzip in `generate_output` are the parameters `base64` and `gzipBase64`.
- radare2 and JSON: every `r2.Pipe` command of r2tool.go and the JSON decoding of its answers are not modelled (`get_all_funcdata`, `get_all_relocdata`, `Getxrefs`, `get_func_space`, `is_in_func`, `func_has_indirects`, `get_indirect_calls`, `init_fw`, `Move`, `Symb2Addr_r`). The records keep only the fields the modelled functions read.
- `func_jconf` in both command-line parsers is the parameter `jconf` (reading and decoding the JSON file).
- `print_help`, the debug printers of debug.go, `logging` calls and the `print` to standard output in `dfs` are not modelled.
- Files and processes are not modelled:
  - in `fix_source_file`: the permission check on the temporary file, and the file handles (lines are passed in, the written lines returned);
  - in edgeprocessor.py: the cflow subprocess and `write_to_log` in `process_file`, and `process`;
  - `create_log_dirs`, `pre_process_file` and `GraphDrawFile.draw`, which opens the output file;
  - maintainers.go's file reading (`get_FromFile`, `get_FromHttp`) and `generate_queries`.
- Database calls of the Python tools: `get_function_by_name` is the parameter `lookup`, `add_edge` appends to the field `edges`, and `get_edges` is the parameter `getEdges`.
- EdgeProcessing.EdgeProcessor.ProcessLine: where Python raises an uncaught `IndexError` (a line without a word, or a pop or `[-1]` on a stack that is too short), the functional description answers None, and the methods require that it does not. The methods are the raising-free path. The same holds for ProcessSibling, ProcessChild, ProcessParent, ProcessLines and ProcessOutput.
- `GraphDrawFile.__init__` also sets `indentation` and `stack`, which `dfs` never reads. They are not modelled.
- Domain.ItemList.MergeLists: the model returns the list object itself, as the source does. Other references to the same list that callers may hold are not modelled.
- Domain.FormatFunctionDefinitions: the `IndexError` of a `pop()` on an empty match list is the error result "pop from empty list". The dictionaries are the `FuncDef` records.
- `sqlMock` keys are `(id, instance)` pairs. The source's `"%04x%02x"` string keys are not injective: for ids above 0xffff or instances above 0xff, two keys can collide. That collision is not modelled.
- NavConfig.ArgsParse: `conf.cmdlineNeeds` is the same Go map as `Default_config.cmdlineNeeds`, so a failed parse returns a `Default_config` whose map the parse has filled in. The model treats the map as a value: a failure answers the declared default, with an empty map.
- The `-p` switch registered twice in `cmd_line_item_init` is modelled as written (`NavConfig.PortSwitchShadowed`).
- Test/source mismatches are not modelled, and neither is code known only from tests:
  - ks-nav/nav/main_test.go uses configuration fields and switches config.go does not have;
  - the nav tests use output-type keys nav.go does not have;
  - the source of `decorateLine`, `generateOutput`, `argsParse` and `valid_dot` is not part of this model.
- The `__x64_sys_getpid` scenario of ks-nav/nav/nav_test.go:146-186 is not restated as a concrete run: it depends on the test's full mock tables. DbUtilProps.NavigateOutputPieces states the property its expected text shows in printAll mode: the output holds each distinct non-empty edge text once, and nothing else. The order of the edges is not stated.
- GoStrconv.Atoi: the quoted input in its messages copies every character past ASCII. Go's `strconv.Quote` writes `\u` or `\U` escapes for the ones Unicode does not class as printable, which needs Unicode's printability tables. Bytes that are not valid UTF-8 cannot occur in a Dafny string.
- DbUtil.Navigator.Navigate: the walk reads a `Graph`, which stands for any datasource, `SqlDB` or `sqlMock`. DbView.IsGraphOf ties it to a `SqlDB`'s database, but the functional description of `navigate` takes the graph as given. Such a graph holds finitely many lists and subsystems, so only databases with finitely many non-empty answers have one.
- Strings are sequences of Unicode scalar values. Go indexes strings by byte: maintainers.go's length tests use the UTF-8 byte length, and the prefixes compared (`..`, `F:`) are ASCII, where bytes and characters agree. The edge processor's `str.split()` separators are Python's `str.isspace` characters.
- Go's `uint64` fields of r2tool.go are the subset type `U64`. The one sum in the source (`Offset + Size`) wraps around explicitly, and `murmurHash3`'s `uint32` arithmetic is `bv32`.
- Concurrency (addr2line.go), strip.go, kern_bin_db/main.go, kern_bin_db/psql.go's inserts, `Connect_db`, the cgo dot parser and edac_dummy_app are not part of this model.
