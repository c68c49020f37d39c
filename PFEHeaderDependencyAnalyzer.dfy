/**
 * The PE-header strategy (class PFEHeaderDependencyAnalyzer): every seed file's
 * import table is read once, without recursion; the graph is keyed by bare file
 * name and lists the imported DLLs that exist in the root folder, one per
 * case-insensitive name.
 */
module PFEHeaderDependencyAnalyzer {
  import opened Wrappers
  import opened Text
  import opened Sequences
  import opened Dictionaries
  import opened Platform
  import opened AnalyzerBase

  /**
   * `Distinct(StringComparer.OrdinalIgnoreCase)` continued after the classes in
   * `seen` have been met: an entry is yielded when its class is new.
   */
  function DistinctFrom(xs: seq<string>, seen: set<string>): (r: seq<string>)
    ensures |r| <= |xs|
  {
    if xs == [] then []
    else if Fold(xs[0]) in seen then DistinctFrom(xs[1..], seen)
    else [xs[0]] + DistinctFrom(xs[1..], seen + {Fold(xs[0])})
  }

  /** `Distinct(StringComparer.OrdinalIgnoreCase)`. */
  function DistinctIgnoreCase(xs: seq<string>): (r: seq<string>)
    ensures |r| <= |xs|
  {
    DistinctFrom(xs, {})
  }

  /** xs[i] is the first entry of xs in its case-insensitive class. */
  predicate FirstOfClass(xs: seq<string>, i: int) {
    0 <= i < |xs| && forall j | 0 <= j < i :: Fold(xs[j]) != Fold(xs[i])
  }

  lemma {:induction false} DistinctFromProperties(xs: seq<string>, seen: set<string>)
    ensures FoldDistinct(DistinctFrom(xs, seen))
    ensures forall y | y in DistinctFrom(xs, seen) :: Fold(y) !in seen
    ensures forall x | x in xs :: Fold(x) in seen || Fold(x) in Folds(DistinctFrom(xs, seen))
    ensures IsSubsequence(DistinctFrom(xs, seen), xs)
  {
    if xs != [] {
      var r := DistinctFrom(xs, seen);
      if Fold(xs[0]) in seen {
        DistinctFromProperties(xs[1..], seen);
        assert xs == [xs[0]] + xs[1..];
      } else {
        var rest := DistinctFrom(xs[1..], seen + {Fold(xs[0])});
        DistinctFromProperties(xs[1..], seen + {Fold(xs[0])});
        assert r == [xs[0]] + rest;
        assert r[0] == xs[0] && r[1..] == rest;
        forall i, j | 0 <= i < j < |r|
          ensures Fold(r[i]) != Fold(r[j])
        {
          if i == 0 {
            assert r[j] in rest;
          } else {
            assert r[i] == rest[i - 1] && r[j] == rest[j - 1];
          }
        }
        assert xs == [xs[0]] + xs[1..];
        assert Folds(r) == {Fold(xs[0])} + Folds(rest);
      }
    }
  }

  /** Every entry kept by DistinctFrom is the first of its class in xs, and of a class not in seen. */
  lemma {:induction false} DistinctFromKeepsFirst(xs: seq<string>, seen: set<string>, y: string)
    requires y in DistinctFrom(xs, seen)
    ensures Fold(y) !in seen && exists i :: FirstOfClass(xs, i) && xs[i] == y
  {
    if Fold(xs[0]) in seen {
      DistinctFromKeepsFirst(xs[1..], seen, y);
      var i :| FirstOfClass(xs[1..], i) && xs[1..][i] == y;
      assert FirstOfClass(xs, i + 1) && xs[i + 1] == y by {
        forall j | 0 <= j < i + 1
          ensures Fold(xs[j]) != Fold(xs[i + 1])
        {
          if j > 0 {
            assert xs[j] == xs[1..][j - 1];
          }
        }
      }
    } else if y == xs[0] {
      assert FirstOfClass(xs, 0);
    } else {
      DistinctFromKeepsFirst(xs[1..], seen + {Fold(xs[0])}, y);
      var i :| FirstOfClass(xs[1..], i) && xs[1..][i] == y;
      assert FirstOfClass(xs, i + 1) && xs[i + 1] == y by {
        forall j | 0 <= j < i + 1
          ensures Fold(xs[j]) != Fold(xs[i + 1])
        {
          if j > 0 {
            assert xs[j] == xs[1..][j - 1];
          }
        }
      }
    }
  }

  /**
   * Distinct ignoring case keeps one entry per case-insensitive class, namely the
   * class's first entry, in input order, and loses no class.
   */
  lemma DistinctIgnoreCaseCorrect(xs: seq<string>)
    ensures FoldDistinct(DistinctIgnoreCase(xs))
    ensures IsSubsequence(DistinctIgnoreCase(xs), xs)
    ensures Folds(DistinctIgnoreCase(xs)) == Folds(xs)
    ensures forall y | y in DistinctIgnoreCase(xs) :: exists i :: FirstOfClass(xs, i) && xs[i] == y
  {
    DistinctFromProperties(xs, {});
    forall y | y in DistinctIgnoreCase(xs)
      ensures exists i :: FirstOfClass(xs, i) && xs[i] == y
    {
      DistinctFromKeepsFirst(xs, {}, y);
    }
  }

  /** The `Where` test: the DLL exists as a file directly in the root folder. */
  predicate InRoot(p: Platform, root: string, dll: string) {
    p.fileExists(p.combine(root, dll))
  }

  /** GetDependencies: imported DLL names that exist in the root folder, without case duplicates. */
  function PeDependencies(p: Platform, root: string, filePath: string): seq<string> {
    match p.imports(filePath)
    case None => []
    case Some(dlls) => DistinctIgnoreCase(Filter(dlls, (dll: string) => InRoot(p, root, dll)))
  }

  /** What GetDependencies logs: one line when PeNet throws. */
  function PeDependencyEvents(p: Platform, filePath: string): seq<Event> {
    if p.imports(filePath).None? then [Log(ParseFailed(filePath))] else []
  }

  /**
   * The dependency list of a file is empty when its headers cannot be read, and
   * otherwise names each imported DLL that exists in the root folder exactly once
   * ignoring case, as its first such import, in import order.
   */
  lemma PeDependenciesCorrect(p: Platform, root: string, filePath: string)
    ensures p.imports(filePath).None? ==> PeDependencies(p, root, filePath) == []
    ensures p.imports(filePath).Some? ==>
      var dlls := p.imports(filePath).value;
      var kept := Filter(dlls, (dll: string) => InRoot(p, root, dll));
      var r := PeDependencies(p, root, filePath);
      && FoldDistinct(r)
      && IsSubsequence(r, kept)
      && (forall d | d in r :: d in dlls && InRoot(p, root, d))
      && (forall d | d in dlls && InRoot(p, root, d) :: Fold(d) in Folds(r))
      && (forall d | d in r :: exists i :: FirstOfClass(kept, i) && kept[i] == d)
  {
    if p.imports(filePath).Some? {
      var dlls := p.imports(filePath).value;
      var keep := (dll: string) => InRoot(p, root, dll);
      var kept := Filter(dlls, keep);
      DistinctIgnoreCaseCorrect(kept);
      forall d | d in dlls && InRoot(p, root, d)
        ensures Fold(d) in Folds(kept)
      {
        FilterComplete(dlls, keep, d);
      }
    }
  }

  /** The lines logged for one seed file: GetDependencies' own, then the two info lines. */
  function FileEvents(p: Platform, root: string, file: string): seq<Event> {
    PeDependencyEvents(p, file)
    + [Log(FileAnalyzed(file)), Log(DependencyCount(|PeDependencies(p, root, file)|))]
  }

  /** The graph after the seed loop over `files`, from a cleared dictionary: keyed by file name. */
  function PeGraph(p: Platform, root: string, files: seq<string>): Dict {
    if files == [] then Empty()
    else
      var last := files[|files| - 1];
      PeGraph(p, root, files[..|files| - 1]).Put(p.fileName(last), PeDependencies(p, root, last))
  }

  /** The lines the seed loop logs over `files`. */
  function PeEvents(p: Platform, root: string, files: seq<string>): seq<Event> {
    if files == [] then []
    else PeEvents(p, root, files[..|files| - 1]) + FileEvents(p, root, files[|files| - 1])
  }

  /** files[i] is the last seed with its file name. */
  predicate LastWithName(p: Platform, files: seq<string>, i: int) {
    0 <= i < |files| && forall j | i < j < |files| :: p.fileName(files[j]) != p.fileName(files[i])
  }

  /** The file names of the seeds. */
  function Names(p: Platform, files: seq<string>): set<string> {
    set f | f in files :: p.fileName(f)
  }

  lemma NamesSnoc(p: Platform, files: seq<string>, f: string)
    ensures Names(p, files + [f]) == Names(p, files) + {p.fileName(f)}
  {
    assert forall g | g in files + [f] :: g in files || g == f;
  }

  /** The keys are exactly the seeds' file names. */
  lemma {:induction false} PeGraphKeys(p: Platform, root: string, files: seq<string>)
    ensures PeGraph(p, root, files).values.Keys == Names(p, files)
    decreases |files|
  {
    if files != [] {
      var n := |files| - 1;
      var init := files[..n];
      var g := PeGraph(p, root, init);
      var name := p.fileName(files[n]);
      PeGraphKeys(p, root, init);
      assert PeGraph(p, root, files) == g.Put(name, PeDependencies(p, root, files[n]));
      assert files == init + [files[n]];
      NamesSnoc(p, init, files[n]);
      PutKeys(g, name, PeDependencies(p, root, files[n]));
    }
  }

  /** The graph is a well-formed dictionary: distinct keys in insertion order, each mapped. */
  lemma {:induction false} PeGraphValid(p: Platform, root: string, files: seq<string>)
    ensures PeGraph(p, root, files).Valid()
    decreases |files|
  {
    if files != [] {
      PeGraphValid(p, root, files[..|files| - 1]);
    }
  }

  /** A name shared by seeds in different folders maps to the dependencies of the last such seed. */
  lemma {:induction false} PeGraphLastWins(p: Platform, root: string, files: seq<string>, i: int)
    requires LastWithName(p, files, i)
    ensures p.fileName(files[i]) in PeGraph(p, root, files).values
    ensures PeGraph(p, root, files).values[p.fileName(files[i])] == PeDependencies(p, root, files[i])
    decreases |files|
  {
    var n := |files| - 1;
    var init := files[..n];
    if i < n {
      assert init[i] == files[i];
      assert LastWithName(p, init, i) by {
        forall j | i < j < |init|
          ensures p.fileName(init[j]) != p.fileName(init[i])
        {
          assert init[j] == files[j];
        }
      }
      PeGraphLastWins(p, root, init, i);
    }
  }

  class PFEHeaderDependencyAnalyzer {
    /** `_DependencyGraph`, also exposed as `DependencyGraph`. */
    const graph: Dictionary
    /** The statics shared with every other analyzer. */
    const runtime: Runtime

    constructor (runtime: Runtime)
      ensures this.runtime == runtime && fresh(graph)
      ensures graph.contents == Empty()
    {
      this.runtime := runtime;
      graph := new Dictionary();
    }

    /** GetDependencies: PeNet's import list, filtered and de-duplicated; a parse failure is logged. */
    method GetDependencies(filePath: string) returns (dependencies: seq<string>)
      modifies runtime
      ensures dependencies == PeDependencies(runtime.platform, runtime.rootFolderPath, filePath)
      ensures runtime.trace == old(runtime.trace) + PeDependencyEvents(runtime.platform, filePath)
      ensures runtime.rootFolderPath == old(runtime.rootFolderPath)
      ensures runtime.symbolHandlerActive == old(runtime.symbolHandlerActive)
    {
      dependencies := [];
      var imports := runtime.platform.imports(filePath);
      if imports.None? {
        runtime.Append(ParseFailed(filePath));
        return;
      }
      var root := runtime.rootFolderPath;
      var platform := runtime.platform;
      dependencies := DistinctIgnoreCase(Filter(imports.value, (dll: string) => InRoot(platform, root, dll)));
    }

    /** The body of the seed loop: the file's dependencies stored under its file name, then logged. */
    method AnalyzeFile(file: string)
      modifies graph, runtime
      ensures graph.contents == old(graph.contents).Put(runtime.platform.fileName(file),
                                                       PeDependencies(runtime.platform, runtime.rootFolderPath, file))
      ensures runtime.trace == old(runtime.trace) + FileEvents(runtime.platform, runtime.rootFolderPath, file)
      ensures runtime.rootFolderPath == old(runtime.rootFolderPath)
      ensures runtime.symbolHandlerActive == old(runtime.symbolHandlerActive)
    {
      var dependencies := GetDependencies(file);
      var moduleName := runtime.platform.fileName(file);
      graph.Set(moduleName, dependencies);
      ghost var before := runtime.trace;
      runtime.Append(FileAnalyzed(file));
      runtime.Append(DependencyCount(|dependencies|));
      ghost var info: seq<Event> := [Log(FileAnalyzed(file)), Log(DependencyCount(|dependencies|))];
      AppendAssociative(before, [info[0]], [info[1]]);
      AppendAssociative(old(runtime.trace), PeDependencyEvents(runtime.platform, file), info);
    }

    /** The seed loop, run on a cleared graph. */
    method AnalyzeFiles(files: seq<string>)
      requires graph.contents == Empty()
      modifies graph, runtime
      ensures graph.contents == PeGraph(runtime.platform, runtime.rootFolderPath, files)
      ensures runtime.trace == old(runtime.trace) + PeEvents(runtime.platform, runtime.rootFolderPath, files)
      ensures runtime.rootFolderPath == old(runtime.rootFolderPath)
      ensures runtime.symbolHandlerActive == old(runtime.symbolHandlerActive)
    {
      ghost var p := runtime.platform;
      ghost var root := runtime.rootFolderPath;
      for i := 0 to |files|
        invariant runtime.rootFolderPath == root && runtime.symbolHandlerActive == old(runtime.symbolHandlerActive)
        invariant graph.contents == PeGraph(p, root, files[..i])
        invariant runtime.trace == old(runtime.trace) + PeEvents(p, root, files[..i])
      {
        var file := files[i];
        assert files[..i + 1][..i] == files[..i] && files[..i + 1][i] == file;
        AnalyzeFile(file);
        AppendAssociative(old(runtime.trace), PeEvents(p, root, files[..i]), FileEvents(p, root, file));
      }
      assert files[..|files|] == files;
    }

    /** ExecuteDependencyCheck: one pass over the seeds; the XML file is written (not modelled) and announced. */
    method ExecuteDependencyCheck(folderPath: string, recursive: bool)
      modifies graph, runtime
      ensures runtime.rootFolderPath == folderPath
      ensures runtime.symbolHandlerActive == old(runtime.symbolHandlerActive)
      ensures graph.contents == PeGraph(runtime.platform, folderPath, Candidates(runtime.platform.enumerate(folderPath, recursive)))
      ensures runtime.trace == old(runtime.trace)
                               + PeEvents(runtime.platform, folderPath, Candidates(runtime.platform.enumerate(folderPath, recursive)))
                               + [Log(GraphSaved(runtime.platform.combine(folderPath, "DependencyGraph.xml")))]
    {
      runtime.SetRootFolder(folderPath);
      graph.Clear();
      var files := Candidates(runtime.platform.enumerate(folderPath, recursive));
      AnalyzeFiles(files);
      var xmlPath := runtime.platform.combine(folderPath, "DependencyGraph.xml");
      runtime.Append(GraphSaved(xmlPath));
    }
  }
}
