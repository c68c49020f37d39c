# DepVis dependency graph, modelled in Dafny

DepVis scans a folder for `.dll` and `.exe` files and builds a dependency graph. The graph is a
dictionary from a file to the list of modules it depends on. The graph is then shown in two ways:
as a WPF tree view, and as a Graphviz picture. There are two analysis strategies.

- **Debug symbols** (`SymbolDependecyAnalyzer`, the source's spelling). It asks the native symbol
  handler which modules a file loads. It then descends depth-first into every listed module that lies
  in the root folder. Each file is expanded at most once per run, ignoring case.
- **PE header** (`PFEHeaderDependencyAnalyzer`). It reads each file's import table, keeps the DLLs that
  exist in the root folder, and drops duplicates that differ only in case. There is no descent.

The project models:

- both strategies;
- the `DependencyAnalyzer.Create` factory and the state the analyzers share;
- the tree-view construction of `MainWin`;
- the edge loop of `Visualizer.VisualizeGraph`.

The operating system, the file system, the symbol handler and the PE parser are one `Platform` value
made of total functions. A run of the model fixes that value, so the same question always gets the
same answer. The log output (`Output.AppendLine`) and the `SymInitialize` and `SymCleanup` calls are recorded in
order in a `trace` of events. `SymLoadModuleEx` and `SymEnumerateModules` leave no event: only their
outcome, a `Platform` value, decides what `GetDependencies` returns and logs.

Module layout:

- `Text`: ordinal case folding, `Contains`, `EndsWith`, and the order used for sorting headers.
- `Sequences`, `Wrappers`: `Filter`, subsequences, `Option`, `Result`.
- `Dictionaries`: `Dictionary<string, List<string>>`. A value `Dict` keeps the key order and the map.
  A class `Dictionary` is the shared object.
- `Platform`: what the analyzers ask of the system.
- `AnalyzerBase`: the static state every analyzer shares (`_rootFolderPath`, `Output`, the process-wide
  symbol handler), and the `.dll`/`.exe` seed filter.
- `SymbolDependecyAnalyzer`: the traversal, as specification functions (`Process`, `ProcessAll`,
  `RunSeeds`, `Build`), and the class whose methods are proved to compute them.
- `SymbolTraversal`: what a traversal guarantees: the session invariant, at-most-once expansion,
  closure, and the redundancy of the per-branch `visited` set.
- `PFEHeaderDependencyAnalyzer`: the import pipeline, the graph the per-file loop builds, and the class.
- `DependencyAnalyzer`: `DependencyAnalyzerMode`, `Create` and the dispatch of `ExecuteDependencyCheck`.
- `MainWin`: `"[n] name"` headers, `CreateTreeViewItem`, root selection and sorting.
- `Visualizer`: the vertices and edges handed to QuickGraph.

## Model

| member | source | states |
|---|---|---|
| `Text.ContainsAt` | src/DepVis/SymbolDependecyAnalyzer.cs:144 | `Contains(s, t)` holds exactly when `t` occurs in `s` at some position |
| `Text.ContainsIgnoreCase` | src/DepVis/SymbolDependecyAnalyzer.cs:182 | `Contains(t, StringComparison.OrdinalIgnoreCase)`: `t` occurs in `s` once both are case-folded; `ContainsAt` gives its meaning |
| `Text.EndsWithIgnoreCase` | src/DepVis/SymbolDependecyAnalyzer.cs:22 | `EndsWith(suffix, StringComparison.OrdinalIgnoreCase)`: the final characters of `s`, as many as the suffix has, fold to the folded suffix |
| `Text.BelowTotal` | src/DepVis/MainWin.xaml.cs:82 | the header order is total: any two headers can be compared |
| `Text.BelowAntisymmetric` | src/DepVis/MainWin.xaml.cs:82 | two headers that are each at most the other are equal |
| `Text.BelowTransitive` | src/DepVis/MainWin.xaml.cs:82 | the header order is transitive, so sortedness is meaningful |
| `Dictionaries.Dict.Put` | src/DepVis/SymbolDependecyAnalyzer.cs:206 | `dict[key] = value`: the key maps to the new list, every other key keeps its list, no other key appears, a new key is appended to the key order, and duplicate-free keys stay duplicate-free |
| `Dictionaries.Dictionary.Set` | src/DepVis/PFEHeaderDependencyAnalyzer.cs:25 | the shared dictionary object now holds the contents after the indexer assignment |
| `Dictionaries.Dictionary.Clear` | src/DepVis/SymbolDependecyAnalyzer.cs:19 | the shared dictionary object becomes empty |
| `AnalyzerBase.Runtime.SetRootFolder` | src/DepVis/DependencyAnalyzer.cs:14 | the one static root folder is overwritten, so the last writer wins for every analyzer; the log is untouched |
| `AnalyzerBase.Runtime.SymInitialize` | src/DepVis/SymbolDependecyAnalyzer.cs:109 | initialisation succeeds exactly when the platform says so, is recorded in the trace, and leaves the handler active exactly on success |
| `AnalyzerBase.Runtime.SymCleanup` | src/DepVis/SymbolDependecyAnalyzer.cs:162 | cleanup is only called on an active handler, is recorded, and deactivates it |
| `AnalyzerBase.Runtime.Append` | src/DepVis/SymbolDependecyAnalyzer.cs:204 | `Output?.AppendLine`: the line is appended to the log and nothing else changes |
| `AnalyzerBase.IsCandidate` | src/DepVis/SymbolDependecyAnalyzer.cs:22 | the seed test: the name ends in `.dll` or `.exe`, ignoring case |
| `AnalyzerBase.Candidates` | src/DepVis/PFEHeaderDependencyAnalyzer.cs:15-16 | the enumerated files that pass the seed test, each taken from the enumeration |
| `AnalyzerBase.CandidatesExactly` | src/DepVis/SymbolDependecyAnalyzer.cs:21-22 | the seeds are exactly the enumerated files ending in `.dll` or `.exe` ignoring case, in enumeration order |
| `SymbolDependecyAnalyzer.IsIgnored` | src/DepVis/SymbolDependecyAnalyzer.cs:168-182 | the path contains `capi2032.dll` or `cphmpro.dll` (the `_filesToIgnore` list, constant `FilesToIgnore`), ignoring case |
| `SymbolDependecyAnalyzer.KeepModule` | src/DepVis/SymbolDependecyAnalyzer.cs:144 | the callback's test: a non-empty module name that the file path does not contain, ignoring case |
| `SymbolDependecyAnalyzer.ModuleFilter` | src/DepVis/SymbolDependecyAnalyzer.cs:142-148 | the names the callback appends, each one a reported name; `ModuleFilterExactly` gives both directions |
| `SymbolDependecyAnalyzer.ModuleFilterExactly` | src/DepVis/SymbolDependecyAnalyzer.cs:142-148 | the callback keeps a module exactly when its name is non-empty and not contained in the file path (ignoring case), and it keeps the callback order |
| `SymbolDependecyAnalyzer.OwnNameDropped` | src/DepVis/SymbolDependecyAnalyzer.cs:144 | a module whose name ends the file's path (ignoring case), such as the file itself, is never listed |
| `SymbolDependecyAnalyzer.SymbolDependencies` | src/DepVis/SymbolDependecyAnalyzer.cs:104-166 | every returned name is one the symbol handler reported; a failed initialisation or load yields the empty list |
| `SymbolDependecyAnalyzer.SymbolEvents` | src/DepVis/SymbolDependecyAnalyzer.cs:104-166 | the `SymInitialize` and `SymCleanup` calls and the log lines of `GetDependencies` for each behaviour of the symbol handler, in order; `CleanupBalanced` states their pairing |
| `SymbolDependecyAnalyzer.CleanupBalanced` | src/DepVis/SymbolDependecyAnalyzer.cs:109-163 | initialisation is attempted first; after a successful initialisation cleanup runs exactly once, as the last call, on every path; after a failed one it never runs |
| `SymbolDependecyAnalyzer.Skips` | src/DepVis/SymbolDependecyAnalyzer.cs:176-198 | the four early returns of `ProcessFile` in source order: on the branch (case-sensitive), ignore-listed, already processed (ignoring case), or outside the root folder |
| `SymbolDependecyAnalyzer.Process` | src/DepVis/SymbolDependecyAnalyzer.cs:173-221 | the state is unchanged exactly when the file is on the branch, ignore-listed, already processed (ignoring case) or outside the root folder, and then nothing is logged; otherwise the file ends up processed; the processed set only grows |
| `SymbolDependecyAnalyzer.ProcessAll` | src/DepVis/SymbolDependecyAnalyzer.cs:211-214 | processing a dependency list only ever grows the processed set |
| `SymbolDependecyAnalyzer.RunSeeds` | src/DepVis/SymbolDependecyAnalyzer.cs:21-25 | processing the seeds one by one, each with an empty branch set, only grows the processed set |
| `SymbolDependecyAnalyzer.Build` | src/DepVis/SymbolDependecyAnalyzer.cs:15-26 | the seed loop over the enumerated `.dll`/`.exe` files from a cleared session; `BuildIsWellFormed`, `BuildExpandsEachFileOnce` and `BuildIsClosed` state what it yields |
| `SymbolDependecyAnalyzer.SymbolDependecyAnalyzer.constructor` | src/DepVis/SymbolDependecyAnalyzer.cs:12 | a new analyzer has no processed files and a fresh, empty graph, and shares the given statics |
| `SymbolDependecyAnalyzer.SymbolDependecyAnalyzer.BuildDependencyGraph` | src/DepVis/SymbolDependecyAnalyzer.cs:15-26 | sets the root folder; the final session is `Build` of the platform and folder alone, whatever the session held before, so a re-run resets it and two runs give the same graph; the log gains exactly `Build`'s events |
| `SymbolDependecyAnalyzer.SymbolDependecyAnalyzer.ExecuteDependencyCheck` | src/DepVis/SymbolDependecyAnalyzer.cs:28-35 | builds the graph as above, then logs that it was saved to `DependencyGraph.xml` in the folder |
| `SymbolDependecyAnalyzer.SymbolDependecyAnalyzer.CollectModules` | src/DepVis/SymbolDependecyAnalyzer.cs:142-150 | the list the callback accumulates is the module filter of everything the enumeration reported |
| `SymbolDependecyAnalyzer.SymbolDependecyAnalyzer.GetDependencies` | src/DepVis/SymbolDependecyAnalyzer.cs:104-166 | returns `SymbolDependencies` for the handler's behaviour, logs exactly `SymbolEvents`, and leaves the handler inactive |
| `SymbolDependecyAnalyzer.SymbolDependecyAnalyzer.ProcessFile` | src/DepVis/SymbolDependecyAnalyzer.cs:173-221 | the new session and log are those of `Process` from the old session; the root folder is unchanged |
| `SymbolDependecyAnalyzer.SymbolDependecyAnalyzer.ProcessDependencies` | src/DepVis/SymbolDependecyAnalyzer.cs:211-214 | the recursion over a list, each entry with its own copy of the branch, computes `ProcessAll` |
| `SymbolTraversal.EmptyInv` | src/DepVis/SymbolDependecyAnalyzer.cs:18-19 | the cleared session satisfies the session invariant |
| `SymbolTraversal.ExpandKeepsInv` | src/DepVis/SymbolDependecyAnalyzer.cs:200-206 | marking an admitted, unprocessed file processed and storing its list keeps the invariant: processed equals the folded keys, keys are distinct ignoring case, every entry is an admitted file mapped to its unfiltered list |
| `SymbolTraversal.ProcessKeepsInv` | src/DepVis/SymbolDependecyAnalyzer.cs:173-221 | one `ProcessFile` keeps the invariant and never removes or overwrites an entry |
| `SymbolTraversal.ProcessAllKeepsInv` | src/DepVis/SymbolDependecyAnalyzer.cs:211-214 | the same for a dependency list |
| `SymbolTraversal.RunSeedsKeepsInv` | src/DepVis/SymbolDependecyAnalyzer.cs:21-25 | the same for the seed loop |
| `SymbolTraversal.BuildIsWellFormed` | src/DepVis/SymbolDependecyAnalyzer.cs:189-206 | after a run, every key is in the root folder and not ignore-listed, keys are distinct ignoring case, the processed set is exactly the folded keys, and each value is exactly what `GetDependencies` returned, in order, unfiltered and possibly naming files that are not keys |
| `SymbolTraversal.ProcessLogsNewKeys` | src/DepVis/SymbolDependecyAnalyzer.cs:204 | the `[info] file:` lines of one step name exactly the keys the step appended, in order |
| `SymbolTraversal.ProcessAllLogsNewKeys` | src/DepVis/SymbolDependecyAnalyzer.cs:211-214 | the same for a dependency list |
| `SymbolTraversal.RunSeedsLogsNewKeys` | src/DepVis/SymbolDependecyAnalyzer.cs:21-25 | the same for the seed loop |
| `SymbolTraversal.BuildExpandsEachFileOnce` | src/DepVis/SymbolDependecyAnalyzer.cs:189-205 | in a run, the files expanded (each one's `[info] file:` line, and so each `GetDependencies` call) are exactly the keys, so no file is expanded twice, even under another spelling of its case |
| `SymbolTraversal.ProcessIgnoresVisited` | src/DepVis/SymbolDependecyAnalyzer.cs:176-192 | two branch sets whose names are all processed give the same step |
| `SymbolTraversal.ProcessAllIgnoresVisited` | src/DepVis/SymbolDependecyAnalyzer.cs:211-214 | the same for a dependency list |
| `SymbolTraversal.VisitedIsRedundant` | src/DepVis/SymbolDependecyAnalyzer.cs:176-180 | the circular-dependency check on `visited` never changes the outcome: `_ProcessedFiles` already rejects every name on the branch |
| `SymbolTraversal.ProcessCloses` | src/DepVis/SymbolDependecyAnalyzer.cs:173-221 | after one step the file is dealt with (ignored, processed or outside the root), and so is every dependency of every key the step added |
| `SymbolTraversal.ProcessAllCloses` | src/DepVis/SymbolDependecyAnalyzer.cs:211-214 | after a list, each entry is dealt with, and so are the dependencies of the keys added |
| `SymbolTraversal.CompleteExtends` | src/DepVis/SymbolDependecyAnalyzer.cs:211-214 | a closed session stays closed when it grows by closed keys |
| `SymbolTraversal.RunSeedsCloses` | src/DepVis/SymbolDependecyAnalyzer.cs:21-25 | after the seed loop, every seed is dealt with and the graph is closed |
| `SymbolTraversal.BuildIsClosed` | src/DepVis/SymbolDependecyAnalyzer.cs:15-26 | a finished run is closed: every seed and every listed dependency is ignore-listed, outside the root folder, or a key (ignoring case) |
| `PFEHeaderDependencyAnalyzer.DistinctIgnoreCase` | src/DepVis/PFEHeaderDependencyAnalyzer.cs:58 | `Distinct(StringComparer.OrdinalIgnoreCase)`: never longer than its input; `DistinctIgnoreCaseCorrect` characterises it |
| `PFEHeaderDependencyAnalyzer.DistinctFromProperties` | src/DepVis/PFEHeaderDependencyAnalyzer.cs:58 | deduplication against the names seen so far yields distinct names (ignoring case), none of them seen, covering every input name, in input order |
| `PFEHeaderDependencyAnalyzer.DistinctFromKeepsFirst` | src/DepVis/PFEHeaderDependencyAnalyzer.cs:58 | each kept name is the first of its case class in the input |
| `PFEHeaderDependencyAnalyzer.DistinctIgnoreCaseCorrect` | src/DepVis/PFEHeaderDependencyAnalyzer.cs:58-59 | `Distinct(OrdinalIgnoreCase)` keeps the first occurrence of every case class, in order, with no two kept names equal ignoring case |
| `PFEHeaderDependencyAnalyzer.InRoot` | src/DepVis/PFEHeaderDependencyAnalyzer.cs:57 | the filter: the DLL exists when combined with the static root folder |
| `PFEHeaderDependencyAnalyzer.PeDependencies` | src/DepVis/PFEHeaderDependencyAnalyzer.cs:54-59 | the Select/Where/Distinct pipeline over the import table, or the empty list when parsing throws; `PeDependenciesCorrect` states its meaning |
| `PFEHeaderDependencyAnalyzer.PeDependenciesCorrect` | src/DepVis/PFEHeaderDependencyAnalyzer.cs:54-67 | when parsing throws, the list is empty; otherwise every entry is an imported DLL that exists in the root folder, entries are distinct ignoring case and in import order, and every such DLL appears up to case |
| `PFEHeaderDependencyAnalyzer.PeDependencyEvents` | src/DepVis/PFEHeaderDependencyAnalyzer.cs:44-68 | `GetDependencies` logs one `[error]` line exactly when the PE file cannot be parsed, and nothing otherwise |
| `PFEHeaderDependencyAnalyzer.FileEvents` | src/DepVis/PFEHeaderDependencyAnalyzer.cs:21-29 | the lines one seed file logs: those of `GetDependencies`, then `[info] File:` and the dependency count of the stored list |
| `PFEHeaderDependencyAnalyzer.PeGraph` | src/DepVis/PFEHeaderDependencyAnalyzer.cs:18-26 | the graph after the per-file loop from an empty graph: each file's list stored under its bare name, in file order; `PeGraphKeys`, `PeGraphValid` and `PeGraphLastWins` state its meaning |
| `PFEHeaderDependencyAnalyzer.PeEvents` | src/DepVis/PFEHeaderDependencyAnalyzer.cs:18-36 | the log lines of the per-file loop, file by file: any parse error, then the file and its dependency count |
| `PFEHeaderDependencyAnalyzer.PeGraphKeys` | src/DepVis/PFEHeaderDependencyAnalyzer.cs:24-25 | the keys are exactly the bare file names of the analysed files |
| `PFEHeaderDependencyAnalyzer.PeGraphValid` | src/DepVis/PFEHeaderDependencyAnalyzer.cs:25 | the graph's key order has no duplicates and matches its map |
| `PFEHeaderDependencyAnalyzer.PeGraphLastWins` | src/DepVis/PFEHeaderDependencyAnalyzer.cs:18-25 | of several files with the same name, the last one's list is the one stored |
| `PFEHeaderDependencyAnalyzer.PFEHeaderDependencyAnalyzer.constructor` | src/DepVis/DependencyAnalyzer.cs:11 | a new analyzer has a fresh, empty graph and shares the given statics |
| `PFEHeaderDependencyAnalyzer.PFEHeaderDependencyAnalyzer.GetDependencies` | src/DepVis/PFEHeaderDependencyAnalyzer.cs:44-68 | returns the pipeline's list for the current static root folder, and logs one error when parsing throws |
| `PFEHeaderDependencyAnalyzer.PFEHeaderDependencyAnalyzer.AnalyzeFile` | src/DepVis/PFEHeaderDependencyAnalyzer.cs:20-29 | the file's list is stored under its bare name, and the file and its dependency count are logged |
| `PFEHeaderDependencyAnalyzer.PFEHeaderDependencyAnalyzer.AnalyzeFiles` | src/DepVis/PFEHeaderDependencyAnalyzer.cs:18-36 | from an empty graph, each file is analysed exactly once in order, with no descent, giving `PeGraph` and `PeEvents` |
| `PFEHeaderDependencyAnalyzer.PFEHeaderDependencyAnalyzer.ExecuteDependencyCheck` | src/DepVis/PFEHeaderDependencyAnalyzer.cs:8-42 | sets the static root folder before any lookup reads it, clears the graph, and leaves `PeGraph` of the `.dll`/`.exe` files; logs their events and the save |
| `DependencyAnalyzer.StrategyFor` | src/DepVis/DependencyAnalyzer.cs:19-40 | mode 0 selects debug symbols, mode 1 the PE header, and every other value is rejected with "Invalid mode specified." |
| `DependencyAnalyzer.Analyzer.DependencyGraph` | src/DepVis/DependencyAnalyzer.cs:11-12 | the `DependencyGraph` property is the analyzer's own dictionary object, the one its check fills |
| `DependencyAnalyzer.Create` | src/DepVis/DependencyAnalyzer.cs:19-33 | creates an analyzer of the selected strategy with a fresh, empty graph over the shared statics, or returns the `ArgumentException` |
| `DependencyAnalyzer.ExecuteDependencyCheck` | src/DepVis/DependencyAnalyzer.cs:17 | running any analyzer sets the shared root folder and leaves the graph and log its strategy promises |
| `MainWin.NatToString` | src/DepVis/MainWin.xaml.cs:107 | the count is printed as a non-empty string of decimal digits |
| `MainWin.DigitsValueOfNat` | src/DepVis/MainWin.xaml.cs:107 | the printed count reads back as the count |
| `MainWin.Header` | src/DepVis/MainWin.xaml.cs:107-111 | the header text `"[n] name"`; `HeaderRoundTrip` and `HeaderInjective` state that it determines `n` and `name` |
| `MainWin.ParseHeader` | src/DepVis/MainWin.xaml.cs:107-111 | reads a header back into its count and name, the inverse used to state what a header says |
| `MainWin.HeaderRoundTrip` | src/DepVis/MainWin.xaml.cs:107-111 | a header `"[n] name"` parses back to `n` and `name` |
| `MainWin.HeaderInjective` | src/DepVis/MainWin.xaml.cs:107-111 | two equal headers have the same count and the same name |
| `MainWin.TreeOfShape` | src/DepVis/MainWin.xaml.cs:90-115 | a key's item has header `"[n] name"` with `n` its list length and one child per list entry, in order, duplicates included; a non-key's item is `"[0] name"` with no children |
| `MainWin.Layered` | src/DepVis/MainWin.xaml.cs:99-106 | a rank on keys that drops along every listed entry that is itself a key: the condition under which the unguarded recursion returns |
| `MainWin.TreeOf` | src/DepVis/MainWin.xaml.cs:90-115 | the item built for a node under such a rank; `TreeOfShape` states its header and children |
| `MainWin.IsPath` | src/DepVis/MainWin.xaml.cs:99-104 | a chain of keys along which the recursion descends, each key listing the next |
| `MainWin.RankDescends` | src/DepVis/MainWin.xaml.cs:99-104 | along such a chain from a ranked key, every key is ranked and the rank drops by at least one per step |
| `MainWin.CycleUnranked` | src/DepVis/MainWin.xaml.cs:99-106 | no key on a cycle of any length has a rank, so the model never claims a result where the source recurses forever |
| `MainWin.HeadersNameNodes` | src/DepVis/MainWin.xaml.cs:107-111 | the items of two different nodes have different headers |
| `MainWin.CreateTreeViewItem` | src/DepVis/MainWin.xaml.cs:90-115 | on a graph ranked below the node, the recursion builds exactly `TreeOf` the node |
| `MainWin.FilterText` | src/DepVis/MainWin.xaml.cs:70 | `filter ?? ""`: a missing filter becomes the empty string, which every key contains |
| `MainWin.IsRoot` | src/DepVis/MainWin.xaml.cs:69-72 | the two `Where` clauses: the key contains the filter ignoring case, and its list is not empty |
| `MainWin.RootKeys` | src/DepVis/MainWin.xaml.cs:69-72 | every selected root passes both filters |
| `MainWin.RootKeysExactly` | src/DepVis/MainWin.xaml.cs:69-72 | a key is a root exactly when it contains the filter (ignoring case) and has a non-empty list; a null or empty filter matches every key |
| `MainWin.Insert` | src/DepVis/MainWin.xaml.cs:82 | inserting an item adds exactly that item |
| `MainWin.SortByHeader` | src/DepVis/MainWin.xaml.cs:82 | sorting is a permutation |
| `MainWin.InsertSorted` | src/DepVis/MainWin.xaml.cs:82 | inserting into a sorted list keeps it sorted |
| `MainWin.SortByHeaderCorrect` | src/DepVis/MainWin.xaml.cs:82-85 | the items are added sorted by header and form a permutation of the root items |
| `MainWin.RootItems` | src/DepVis/MainWin.xaml.cs:77-81 | one item per root |
| `MainWin.CreateTreeViewFromDependencyGraph` | src/DepVis/MainWin.xaml.cs:43-88 | the view is the root items sorted by header |
| `MainWin.CreateRootItems` | src/DepVis/MainWin.xaml.cs:77-81 | the first loop builds one item per root node, in root order: exactly `RootItems` |
| `MainWin.AddItems` | src/DepVis/MainWin.xaml.cs:82-85 | the second loop adds every ordered item to the view, in order and nothing else |
| `MainWin.TreeViewCorrect` | src/DepVis/MainWin.xaml.cs:69-85 | the view is sorted, has one item per root, each item is some root's tree, and each root's tree is in the view |
| `Visualizer.AdjacencyGraph.AddVerticesAndEdge` | src/DepVis/Visualizer.cs:38 | both end points become vertices and the edge is appended even when an equal edge exists |
| `Visualizer.EdgesOf` | src/DepVis/Visualizer.cs:34-40 | the edges the two loops add for a key order: one per list entry, keys in order; `EdgesSound`, `EdgeMultiplicity` and `VerticesExactly` state their meaning |
| `Visualizer.DeriveGraph` | src/DepVis/Visualizer.cs:31-40 | a fresh graph whose edges are one per (key, entry) pair in dictionary-then-list order, and whose vertices are exactly the end points |
| `Visualizer.AddKeyEdges` | src/DepVis/Visualizer.cs:36-39 | the inner loop appends one edge per list entry, in list order |
| `Visualizer.EdgesSound` | src/DepVis/Visualizer.cs:38 | every edge runs from a key to an entry of that key's list |
| `Visualizer.EdgeMultiplicity` | src/DepVis/Visualizer.cs:34-40 | edge `(k, t)` is added exactly as many times as `t` occurs in `k`'s list, so repeated entries give repeated edges |
| `Visualizer.EdgePresent` | src/DepVis/Visualizer.cs:34-39 | every (key, entry) pair yields an edge |
| `Visualizer.VerticesExactly` | src/DepVis/Visualizer.cs:34-39 | the vertices are exactly the keys with a non-empty list plus all listed entries; a key with an empty list adds no vertex |

## Left out

- Native and foreign calls become `Platform` functions: `SymInitialize`, `SymLoadModuleEx`, `SymEnumerateModules`, `SymCleanup`, PeNet's `PeFile`, `Directory.EnumerateFiles`, `File.Exists`, `Path.GetFullPath`, `Path.GetDirectoryName`, `Path.GetFileName` and `Path.Combine`. Their own behaviour is not modelled. `NativeMethods.cs` is not part of this model.
- The traversal assumes a finite `universe` of names that holds every enumerated file and every reported module (`Platform.Closed`). This is what bounds the recursion.
- `SaveGraphAsXml` is not part of this model. Only the log line that follows it is kept.
- The Graphviz DOT file, the `dot` process, its output handlers and `MonitorProcessAsync` are process and file I/O, so only the edge loop of `VisualizeGraph` is modelled.
- The UI is left out: `MainViewModel`, `Program`, the event and Dispatcher wiring of `MainWin`, and threading. `TreeViewItem` becomes the value `Tree(header, children)`.
- `Output` is assumed to be set, so every log line is recorded. When it is null, the source logs nothing. Error codes, `ex.Message` texts and timestamps are not recorded.
- Case-insensitive comparison folds ASCII letters only. Unicode case mapping is not modelled.
- `OrderBy(item => item.Header)` is modelled as a stable sort in ordinal lexicographic order. The culture-sensitive order of the source is not modelled.
- Only an exception inside the `try` of the symbol strategy's `GetDependencies` (src/DepVis/SymbolDependecyAnalyzer.cs:116-158) is modelled, as `SymOutcome.Faulted`. In the PE strategy, an exception from the parser is modelled as `imports` returning `None`.
- An exception from `SymInitialize` itself (src/DepVis/SymbolDependecyAnalyzer.cs:109) is not modelled. It is thrown before that `try`, so it escapes `GetDependencies` and lands in `ProcessFile`'s `catch` (lines 216-220). The file then stays in `_ProcessedFiles` with no graph entry, and an "Error processing" line is logged. `SymbolTraversal.Inv` assumes this never happens, because it requires the processed set to equal the folded keys.
- An exception from `Path.GetFullPath` or `Path.GetDirectoryName` (src/DepVis/SymbolDependecyAnalyzer.cs:195) is not modelled. It is thrown outside the callee's `try`, so it leaves the callee. For a dependency it aborts the rest of the parent's dependency loop (lines 211-214), which the parent's `catch` then logs. For a seed file, called from `BuildDependencyGraph`'s loop (lines 21-25), which has no `try`, it ends `BuildDependencyGraph` and with it the whole run. The model treats these path functions as total.
- Exceptions caught by the PE loop's `catch` (src/DepVis/PFEHeaderDependencyAnalyzer.cs:31-35), for example from `Path.GetFileName`, are not modelled. The model's platform functions are total.
- `MainWin.CreateTreeViewItem`: the source recurses without a cycle guard and does not terminate on a cyclic graph, which the symbol strategy can produce. The model requires a rank on the keys that decreases along every listed entry. No key on a cycle has one (`CycleUnranked`), so the cyclic case is left out. The converse, that every acyclic graph has such a rank, is not proved.
- `allNodes` and `dependentNodes` in `CreateTreeViewFromDependencyGraph` are computed but never read, so they are left out.
- The abstract one-argument `ExecuteDependencyCheck(string)` does not match the two-argument overrides. The model gives every analyzer the two-argument form. The members `MainWin` uses that `MainViewModel` lacks are not modelled either.
- The commented-out `LoadLibraryEx` variant of `GetDependencies` is dead code.
