/**
 * The symbol-handler strategy (class SymbolDependecyAnalyzer, the source's spelling):
 * a depth-first traversal from every seed file that expands each file at most once
 * per run. The functions Process, ProcessAll, RunSeeds and Build state what a run
 * computes; the class's methods are proved to compute exactly that.
 */
module SymbolDependecyAnalyzer {
  import opened Text
  import opened Sequences
  import opened Dictionaries
  import opened Platform
  import opened AnalyzerBase

  /** `_filesToIgnore`: modules the symbol handler cannot load on their own. */
  const FilesToIgnore: seq<string> := ["capi2032.dll", "cphmpro.dll"]

  /** `_filesToIgnore.Any(item => path.Contains(item, OrdinalIgnoreCase))`. */
  predicate IsIgnored(path: string) {
    exists i | 0 <= i < |FilesToIgnore| :: ContainsIgnoreCase(path, FilesToIgnore[i])
  }

  /** The enumeration callback's test: a non-empty name that is not part of the file's own path. */
  predicate KeepModule(filePath: string, moduleName: string) {
    moduleName != "" && !ContainsIgnoreCase(filePath, moduleName)
  }

  /** The names the callback adds to the result list, in callback order. */
  function ModuleFilter(filePath: string, modules: seq<string>): (r: seq<string>)
    ensures forall m | m in r :: m in modules
  {
    Filter(modules, (m: string) => KeepModule(filePath, m))
  }

  /** The callback keeps exactly the acceptable names, in the order it is called with them. */
  lemma ModuleFilterExactly(filePath: string, modules: seq<string>)
    ensures forall m :: m in ModuleFilter(filePath, modules) <==> m in modules && KeepModule(filePath, m)
    ensures IsSubsequence(ModuleFilter(filePath, modules), modules)
  {
    forall m | m in modules && KeepModule(filePath, m) {
      FilterComplete(modules, (m: string) => KeepModule(filePath, m), m);
    }
    FilterIsSubsequence(modules, (m: string) => KeepModule(filePath, m));
  }

  /** A file never lists itself: a name the file's path ends with (ignoring case) is dropped. */
  lemma OwnNameDropped(filePath: string, moduleName: string)
    requires EndsWithIgnoreCase(filePath, moduleName)
    ensures !KeepModule(filePath, moduleName)
  {
    var f, m := Fold(filePath), Fold(moduleName);
    var i := |filePath| - |moduleName|;
    FoldSlice(filePath, i, |filePath|);
    assert OccursAt(f, m, i);
    ContainsAt(f, m);
  }

  /** What GetDependencies returns for a file, given the symbol handler's behaviour. */
  function SymbolDependencies(filePath: string, o: SymOutcome): (r: seq<string>)
    ensures forall m | m in r :: m in Reported(o)
    ensures o.InitFailed? || o.LoadFailed? ==> r == []
  {
    match o
    case Enumerated(modules, _) => ModuleFilter(filePath, modules)
    case Faulted(modules) => ModuleFilter(filePath, modules)
    case _ => []
  }

  /** What GetDependencies logs and calls natively for a file, in order. */
  function SymbolEvents(filePath: string, o: SymOutcome): seq<Event> {
    match o
    case InitFailed =>
      [Native(NativeCall.SymInitialize(false)), Log(SymInitializeFailed)]
    case LoadFailed =>
      [Native(NativeCall.SymInitialize(true)), Log(SymLoadModuleFailed(filePath)), Native(NativeCall.SymCleanup)]
    case Enumerated(_, completed) =>
      [Native(NativeCall.SymInitialize(true))]
      + (if completed then [] else [Log(EnumerateModulesFailed(filePath))])
      + [Native(NativeCall.SymCleanup)]
    case Faulted(_) =>
      [Native(NativeCall.SymInitialize(true)), Log(ParseFailed(filePath)), Native(NativeCall.SymCleanup)]
  }

  /**
   * SymInitialize is attempted first, and SymCleanup runs exactly once, as the last
   * call, whenever SymInitialize succeeded; a failed SymInitialize is never cleaned up.
   */
  lemma CleanupBalanced(filePath: string, o: SymOutcome)
    ensures |SymbolEvents(filePath, o)| > 0
    ensures SymbolEvents(filePath, o)[0] == Native(NativeCall.SymInitialize(!o.InitFailed?))
    ensures multiset(SymbolEvents(filePath, o))[Native(NativeCall.SymCleanup)] == if o.InitFailed? then 0 else 1
    ensures !o.InitFailed? ==> SymbolEvents(filePath, o)[|SymbolEvents(filePath, o)| - 1] == Native(NativeCall.SymCleanup)
  {
    if o.Enumerated? {
      var mid := if o.completed then [] else [Log(EnumerateModulesFailed(filePath))];
      assert multiset(SymbolEvents(filePath, o))
          == multiset{Native(NativeCall.SymInitialize(true))} + multiset(mid) + multiset{Native(NativeCall.SymCleanup)};
    }
  }

  /** The session state: `_ProcessedFiles` (as case-folded names) and `_DependencyGraph`. */
  datatype Scan = Scan(processed: set<string>, graph: Dict)

  /** The state after a step and the events the step produced. */
  datatype Step = Step(scan: Scan, events: seq<Event>)

  lemma MeasureShrinks(u: set<string>, before: set<string>, after: set<string>, x: string)
    requires x in u && x !in before && before + {x} <= after
    ensures |u - after| < |u - before|
  {
    assert u - after <= (u - before) - {x};
    SubsetCardinality(u - after, (u - before) - {x});
  }

  lemma MeasureMonotone(u: set<string>, before: set<string>, after: set<string>)
    requires before <= after
    ensures |u - after| <= |u - before|
  {
    SubsetCardinality(u - after, u - before);
  }

  lemma SubsetCardinality(a: set<string>, b: set<string>)
    requires a <= b
    ensures |a| <= |b|
  {
    assert b == a + (b - a);
  }

  /** The four early returns of ProcessFile, in the order it tests them. */
  predicate Skips(p: Platform, root: string, s: Scan, file: string, visited: set<string>) {
    file in visited || IsIgnored(file) || Fold(file) in s.processed || p.directoryOf(file) != root
  }

  /**
   * ProcessFile(file, visited) from state s with root folder `root`: skipped when the
   * file is on the current branch, ignore-listed, already processed (ignoring case) or
   * outside the root folder; otherwise marked processed, its dependency list stored
   * unfiltered, and every entry of that list processed with a copy of the branch.
   */
  function Process(p: Platform, root: string, s: Scan, file: string, visited: set<string>): (r: Step)
    requires Closed(p) && file in p.universe
    ensures s.processed <= r.scan.processed
    ensures Skips(p, root, s, file, visited) <==> r.scan == s
    ensures Skips(p, root, s, file, visited) ==> r.events == []
    ensures !Skips(p, root, s, file, visited) ==> Fold(file) in r.scan.processed
    decreases |FoldSet(p.universe) - s.processed|, 0, 0
  {
    if Skips(p, root, s, file, visited) then
      Step(s, [])
    else
      var deps := SymbolDependencies(file, p.symbols(file));
      var expanded := Scan(s.processed + {Fold(file)}, s.graph.Put(file, deps));
      var head := [Log(FileInfo(file))] + SymbolEvents(file, p.symbols(file)) + [Log(DependencyCount(|deps|))];
      MeasureShrinks(FoldSet(p.universe), s.processed, expanded.processed, Fold(file));
      var rest := ProcessAll(p, root, expanded, deps, visited + {file});
      Step(rest.scan, head + rest.events)
  }

  /** The `foreach` over one dependency list: each entry processed in turn with the same branch set. */
  function ProcessAll(p: Platform, root: string, s: Scan, deps: seq<string>, visited: set<string>): (r: Step)
    requires Closed(p) && forall d | d in deps :: d in p.universe
    ensures s.processed <= r.scan.processed
    decreases |FoldSet(p.universe) - s.processed|, 1, |deps|
  {
    if deps == [] then
      Step(s, [])
    else
      var first := Process(p, root, s, deps[0], visited);
      MeasureMonotone(FoldSet(p.universe), s.processed, first.scan.processed);
      var rest := ProcessAll(p, root, first.scan, deps[1..], visited);
      Step(rest.scan, first.events + rest.events)
  }

  /** The `foreach` over the seed files: each started with a fresh, empty branch set. */
  function RunSeeds(p: Platform, root: string, s: Scan, seeds: seq<string>): (r: Step)
    requires Closed(p) && forall f | f in seeds :: f in p.universe
    ensures s.processed <= r.scan.processed
    decreases |seeds|
  {
    if seeds == [] then
      Step(s, [])
    else
      var first := Process(p, root, s, seeds[0], {});
      var rest := RunSeeds(p, root, first.scan, seeds[1..]);
      Step(rest.scan, first.events + rest.events)
  }

  /** BuildDependencyGraph(folder, recursive): a run from an empty session over the seed files. */
  function Build(p: Platform, folder: string, recursive: bool): Step
    requires Closed(p)
  {
    RunSeeds(p, folder, Scan({}, Empty()), Candidates(p.enumerate(folder, recursive)))
  }

  class SymbolDependecyAnalyzer {
    /** `_DependencyGraph`, also exposed as `DependencyGraph`: the same object, never replaced. */
    const graph: Dictionary
    /** The statics shared with every other analyzer. */
    const runtime: Runtime
    /** `_ProcessedFiles`; its comparer ignores case, so it holds case-folded names. */
    var processed: set<string>

    constructor (runtime: Runtime)
      ensures this.runtime == runtime && fresh(graph)
      ensures graph.contents == Empty() && processed == {}
    {
      this.runtime := runtime;
      graph := new Dictionary();
      processed := {};
    }

    function State(): Scan
      reads this, graph
    {
      Scan(processed, graph.contents)
    }

    /** Clears the session, then processes every seed file with a new, empty branch set. */
    method BuildDependencyGraph(folderPath: string, recursive: bool)
      requires Closed(runtime.platform) && !runtime.symbolHandlerActive
      modifies this, graph, runtime
      ensures runtime.rootFolderPath == folderPath && !runtime.symbolHandlerActive
      ensures State() == Build(runtime.platform, folderPath, recursive).scan
      ensures runtime.trace == old(runtime.trace) + Build(runtime.platform, folderPath, recursive).events
    {
      runtime.SetRootFolder(folderPath);
      processed := {};
      graph.Clear();
      var files := Candidates(runtime.platform.enumerate(folderPath, recursive));
      ghost var whole := RunSeeds(runtime.platform, folderPath, State(), files);
      ghost var start := runtime.trace;
      ghost var done: seq<Event> := [];
      for i := 0 to |files|
        invariant runtime.rootFolderPath == folderPath && !runtime.symbolHandlerActive
        invariant whole.scan == RunSeeds(runtime.platform, folderPath, State(), files[i..]).scan
        invariant whole.events == done + RunSeeds(runtime.platform, folderPath, State(), files[i..]).events
        invariant runtime.trace == start + done
      {
        ghost var before := State();
        assert files[i..][0] == files[i] && files[i..][1..] == files[i + 1..];
        ProcessFile(files[i], {});
        ghost var step := Process(runtime.platform, folderPath, before, files[i], {}).events;
        AppendAssociative(done, step, RunSeeds(runtime.platform, folderPath, State(), files[i + 1..]).events);
        AppendAssociative(start, done, step);
        done := done + step;
      }
    }

    /** BuildDependencyGraph, then the XML file is written (not modelled) and announced. */
    method ExecuteDependencyCheck(folderPath: string, recursive: bool)
      requires Closed(runtime.platform) && !runtime.symbolHandlerActive
      modifies this, graph, runtime
      ensures runtime.rootFolderPath == folderPath && !runtime.symbolHandlerActive
      ensures State() == Build(runtime.platform, folderPath, recursive).scan
      ensures runtime.trace == old(runtime.trace) + Build(runtime.platform, folderPath, recursive).events
                               + [Log(GraphSaved(runtime.platform.combine(folderPath, "DependencyGraph.xml")))]
    {
      BuildDependencyGraph(folderPath, recursive);
      var xmlPath := runtime.platform.combine(folderPath, "DependencyGraph.xml");
      runtime.Append(GraphSaved(xmlPath));
    }

    /** The enumeration callback: appends each acceptable module name. */
    static method CollectModules(filePath: string, modules: seq<string>) returns (dependencies: seq<string>)
      ensures dependencies == ModuleFilter(filePath, modules)
    {
      dependencies := [];
      for i := 0 to |modules|
        invariant dependencies == ModuleFilter(filePath, modules[..i])
      {
        var moduleName := modules[i];
        if moduleName != "" && !ContainsIgnoreCase(filePath, moduleName) {
          dependencies := dependencies + [moduleName];
        }
        assert modules[..i + 1] == modules[..i] + [moduleName];
        FilterSnoc(modules[..i], moduleName, (m: string) => KeepModule(filePath, m));
      }
      assert modules[..|modules|] == modules;
    }

    /**
     * GetDependencies: SymInitialize, SymLoadModuleEx, SymEnumerateModules, and
     * SymCleanup in a finally block; a failure yields what was collected so far.
     */
    static method GetDependencies(runtime: Runtime, filePath: string) returns (dependencies: seq<string>)
      requires !runtime.symbolHandlerActive
      modifies runtime
      ensures dependencies == SymbolDependencies(filePath, runtime.platform.symbols(filePath))
      ensures runtime.trace == old(runtime.trace) + SymbolEvents(filePath, runtime.platform.symbols(filePath))
      ensures !runtime.symbolHandlerActive && runtime.rootFolderPath == old(runtime.rootFolderPath)
    {
      dependencies := [];
      var initialized := runtime.SymInitialize(filePath);
      if !initialized {
        runtime.Append(SymInitializeFailed);
        return;
      }
      var outcome := runtime.platform.symbols(filePath);
      if outcome.LoadFailed? {
        runtime.Append(SymLoadModuleFailed(filePath));
      } else if outcome.Enumerated? {
        dependencies := CollectModules(filePath, outcome.modules);
        if !outcome.completed {
          runtime.Append(EnumerateModulesFailed(filePath));
        }
      } else {
        dependencies := CollectModules(filePath, outcome.modules);
        runtime.Append(ParseFailed(filePath));
      }
      runtime.SymCleanup();
    }

    /** ProcessFile: see Process, which it is proved to compute. */
    method ProcessFile(filePath: string, visited: set<string>)
      requires Closed(runtime.platform) && filePath in runtime.platform.universe
      requires !runtime.symbolHandlerActive
      modifies this, graph, runtime
      ensures State() == Process(runtime.platform, runtime.rootFolderPath, old(State()), filePath, visited).scan
      ensures runtime.trace == old(runtime.trace) + Process(runtime.platform, runtime.rootFolderPath, old(State()), filePath, visited).events
      ensures runtime.rootFolderPath == old(runtime.rootFolderPath) && !runtime.symbolHandlerActive
      decreases |FoldSet(runtime.platform.universe) - processed|, 0
    {
      if filePath in visited {
        return;
      }
      if IsIgnored(filePath) {
        return;
      }
      if Fold(filePath) in processed {
        return;
      }
      var branch := visited + {filePath};
      if runtime.platform.directoryOf(filePath) != runtime.rootFolderPath {
        return;
      }
      processed := processed + {Fold(filePath)};
      runtime.Append(FileInfo(filePath));
      var dependencies := GetDependencies(runtime, filePath);
      graph.Set(filePath, dependencies);
      runtime.Append(DependencyCount(|dependencies|));
      ghost var p := runtime.platform;
      ghost var root := runtime.rootFolderPath;
      ghost var info := [Log(FileInfo(filePath))];
      ghost var symbolEvents := SymbolEvents(filePath, p.symbols(filePath));
      ghost var count := [Log(DependencyCount(|dependencies|))];
      ghost var head := info + symbolEvents + count;
      AppendAssociative(old(runtime.trace), info, symbolEvents);
      AppendAssociative(old(runtime.trace), info + symbolEvents, count);
      assert runtime.trace == old(runtime.trace) + head;
      MeasureShrinks(FoldSet(p.universe), old(processed), processed, Fold(filePath));
      ghost var expanded := State();
      ProcessDependencies(dependencies, branch);
      ghost var rest := ProcessAll(p, root, expanded, dependencies, branch);
      assert Process(p, root, old(State()), filePath, visited) == Step(rest.scan, head + rest.events);
      AppendAssociative(old(runtime.trace), head, rest.events);
    }

    /** The `foreach` over a dependency list; see ProcessAll, which it is proved to compute. */
    method ProcessDependencies(dependencies: seq<string>, branch: set<string>)
      requires Closed(runtime.platform) && forall d | d in dependencies :: d in runtime.platform.universe
      requires !runtime.symbolHandlerActive
      modifies this, graph, runtime
      ensures State() == ProcessAll(runtime.platform, runtime.rootFolderPath, old(State()), dependencies, branch).scan
      ensures runtime.trace == old(runtime.trace) + ProcessAll(runtime.platform, runtime.rootFolderPath, old(State()), dependencies, branch).events
      ensures runtime.rootFolderPath == old(runtime.rootFolderPath) && !runtime.symbolHandlerActive
      decreases |FoldSet(runtime.platform.universe) - processed|, 1
    {
      ghost var p := runtime.platform;
      ghost var root := runtime.rootFolderPath;
      ghost var whole := ProcessAll(p, root, State(), dependencies, branch);
      ghost var start := runtime.trace;
      ghost var done: seq<Event> := [];
      for i := 0 to |dependencies|
        invariant runtime.rootFolderPath == root && !runtime.symbolHandlerActive
        invariant old(processed) <= processed
        invariant whole.scan == ProcessAll(p, root, State(), dependencies[i..], branch).scan
        invariant whole.events == done + ProcessAll(p, root, State(), dependencies[i..], branch).events
        invariant runtime.trace == start + done
      {
        ghost var before := State();
        assert dependencies[i..][0] == dependencies[i] && dependencies[i..][1..] == dependencies[i + 1..];
        MeasureMonotone(FoldSet(p.universe), old(processed), processed);
        ProcessFile(dependencies[i], branch);
        ghost var step := Process(p, root, before, dependencies[i], branch).events;
        AppendAssociative(done, step, ProcessAll(p, root, State(), dependencies[i + 1..], branch).events);
        AppendAssociative(start, done, step);
        done := done + step;
      }
    }
  }
}
