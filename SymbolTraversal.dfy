/**
 * What a run of the symbol-handler traversal guarantees: the graph it builds is
 * well formed, every file is expanded at most once and its entry is never
 * overwritten, the per-branch `visited` set never changes the outcome, and the
 * finished graph is closed under its own dependency lists.
 */
module SymbolTraversal {
  import opened Text
  import opened Dictionaries
  import opened Platform
  import opened AnalyzerBase
  import opened SymbolDependecyAnalyzer
  import opened Sequences

  /** The case-folded names of the graph's keys. */
  function KeyFolds(d: Dict): (r: set<string>)
    ensures forall k | k in d.values :: Fold(k) in r
  {
    FoldSet(d.values.Keys)
  }

  /** A file that passes the ignore list and the root-folder test. */
  predicate Admitted(p: Platform, root: string, file: string) {
    !IsIgnored(file) && p.directoryOf(file) == root
  }

  /**
   * The session invariant: `_ProcessedFiles` holds exactly the graph's keys (ignoring
   * case), no two keys differ only in case, and every entry is an admitted file
   * mapped to what GetDependencies returns for it.
   */
  ghost predicate Inv(p: Platform, root: string, s: Scan) {
    && s.graph.Valid()
    && s.processed == KeyFolds(s.graph)
    && FoldDistinct(s.graph.keys)
    && forall k | k in s.graph.values ::
         Admitted(p, root, k) && s.graph.values[k] == SymbolDependencies(k, p.symbols(k))
  }

  /** t extends s: keys only appended, and no existing entry overwritten. */
  ghost predicate Grows(s: Scan, t: Scan) {
    && s.graph.keys <= t.graph.keys
    && forall k | k in s.graph.values :: k in t.graph.values && t.graph.values[k] == s.graph.values[k]
  }

  lemma EmptyInv(p: Platform, root: string)
    ensures Inv(p, root, Scan({}, Empty()))
  {
  }

  /** Expanding a file that is not yet processed appends it as a new key and keeps the invariant. */
  lemma {:induction false} ExpandKeepsInv(p: Platform, root: string, s: Scan, file: string)
    requires Inv(p, root, s) && Admitted(p, root, file) && Fold(file) !in s.processed
    ensures var e := Scan(s.processed + {Fold(file)}, s.graph.Put(file, SymbolDependencies(file, p.symbols(file))));
      && Inv(p, root, e) && Grows(s, e) && e.graph.keys == s.graph.keys + [file]
  {
    var deps := SymbolDependencies(file, p.symbols(file));
    var e := Scan(s.processed + {Fold(file)}, s.graph.Put(file, deps));
    assert file !in s.graph.values;
    assert e.graph == Dict(s.graph.keys + [file], s.graph.values[file := deps]);
    assert e.processed == KeyFolds(e.graph) by {
      forall x | x in KeyFolds(e.graph)
        ensures x in e.processed
      {
        var k :| k in e.graph.values && Fold(k) == x;
        if k != file {
          assert k in s.graph.values;
        }
      }
    }
    forall i, j | 0 <= i < j < |e.graph.keys|
      ensures Fold(e.graph.keys[i]) != Fold(e.graph.keys[j])
    {
      if j == |s.graph.keys| {
        assert s.graph.keys[i] in s.graph.values;
        assert Fold(s.graph.keys[i]) in s.processed;
      } else {
        assert e.graph.keys[i] == s.graph.keys[i] && e.graph.keys[j] == s.graph.keys[j];
      }
    }
  }

  lemma GrowsTransitive(a: Scan, b: Scan, c: Scan)
    requires Grows(a, b) && Grows(b, c)
    ensures Grows(a, c)
  {
  }

  /** Processing a file keeps the invariant and only appends to the graph. */
  lemma {:induction false} ProcessKeepsInv(p: Platform, root: string, s: Scan, file: string, visited: set<string>)
    requires Closed(p) && file in p.universe && Inv(p, root, s)
    ensures Inv(p, root, Process(p, root, s, file, visited).scan)
    ensures Grows(s, Process(p, root, s, file, visited).scan)
    decreases |FoldSet(p.universe) - s.processed|, 0, 0
  {
    if !Skips(p, root, s, file, visited) {
      var deps := SymbolDependencies(file, p.symbols(file));
      var expanded := Scan(s.processed + {Fold(file)}, s.graph.Put(file, deps));
      ExpandKeepsInv(p, root, s, file);
      MeasureShrinks(FoldSet(p.universe), s.processed, expanded.processed, Fold(file));
      ProcessAllKeepsInv(p, root, expanded, deps, visited + {file});
      GrowsTransitive(s, expanded, ProcessAll(p, root, expanded, deps, visited + {file}).scan);
    }
  }

  lemma {:induction false} ProcessAllKeepsInv(p: Platform, root: string, s: Scan, deps: seq<string>, visited: set<string>)
    requires Closed(p) && (forall d | d in deps :: d in p.universe) && Inv(p, root, s)
    ensures Inv(p, root, ProcessAll(p, root, s, deps, visited).scan)
    ensures Grows(s, ProcessAll(p, root, s, deps, visited).scan)
    decreases |FoldSet(p.universe) - s.processed|, 1, |deps|
  {
    if deps != [] {
      var first := Process(p, root, s, deps[0], visited);
      ProcessKeepsInv(p, root, s, deps[0], visited);
      MeasureMonotone(FoldSet(p.universe), s.processed, first.scan.processed);
      ProcessAllKeepsInv(p, root, first.scan, deps[1..], visited);
      GrowsTransitive(s, first.scan, ProcessAll(p, root, first.scan, deps[1..], visited).scan);
    }
  }

  lemma {:induction false} RunSeedsKeepsInv(p: Platform, root: string, s: Scan, seeds: seq<string>)
    requires Closed(p) && (forall f | f in seeds :: f in p.universe) && Inv(p, root, s)
    ensures Inv(p, root, RunSeeds(p, root, s, seeds).scan)
    ensures Grows(s, RunSeeds(p, root, s, seeds).scan)
    decreases |seeds|
  {
    if seeds != [] {
      var first := Process(p, root, s, seeds[0], {});
      ProcessKeepsInv(p, root, s, seeds[0], {});
      RunSeedsKeepsInv(p, root, first.scan, seeds[1..]);
      GrowsTransitive(s, first.scan, RunSeeds(p, root, first.scan, seeds[1..]).scan);
    }
  }

  /**
   * A finished BuildDependencyGraph: every entry is an admitted file in the root
   * folder mapped to its symbol-handler dependency list, no two keys differ only in
   * case, and `_ProcessedFiles` names exactly the keys.
   */
  lemma BuildIsWellFormed(p: Platform, folder: string, recursive: bool)
    requires Closed(p)
    ensures Inv(p, folder, Build(p, folder, recursive).scan)
  {
    EmptyInv(p, folder);
    RunSeedsKeepsInv(p, folder, Scan({}, Empty()), Candidates(p.enumerate(folder, recursive)));
  }

  /** The file an event names when it is an "[info] file:" line. */
  function Named(e: Event): seq<string> {
    if e.Log? && e.message.FileInfo? then [e.message.file] else []
  }

  /** The files named by the "[info] file:" lines among the events, in order. */
  function Expanded(events: seq<Event>): (r: seq<string>)
    ensures |r| <= |events|
  {
    if events == [] then [] else Named(events[0]) + Expanded(events[1..])
  }

  lemma {:induction false} ExpandedAppend(a: seq<Event>, b: seq<Event>)
    ensures Expanded(a + b) == Expanded(a) + Expanded(b)
  {
    if a == [] {
      assert a + b == b;
    } else {
      assert (a + b)[0] == a[0] && (a + b)[1..] == a[1..] + b;
      ExpandedAppend(a[1..], b);
      AppendAssociative(Named(a[0]), Expanded(a[1..]), Expanded(b));
    }
  }

  /** A sequence without "[info] file:" lines names no file. */
  lemma {:induction false} ExpandedNone(events: seq<Event>)
    requires forall i | 0 <= i < |events| :: !(events[i].Log? && events[i].message.FileInfo?)
    ensures Expanded(events) == []
  {
    if events != [] {
      ExpandedNone(events[1..]);
    }
  }

  /** GetDependencies itself logs no "[info] file:" line. */
  lemma NoFileInfoInSymbolEvents(file: string, o: SymOutcome)
    ensures Expanded(SymbolEvents(file, o)) == []
  {
    ExpandedNone(SymbolEvents(file, o));
  }

  /** The events of one expansion name the expanded file once. */
  lemma HeadNamesFile(file: string, o: SymOutcome, n: nat)
    ensures Expanded([Log(FileInfo(file))] + SymbolEvents(file, o) + [Log(DependencyCount(n))]) == [file]
  {
    var info: seq<Event> := [Log(FileInfo(file))];
    NoFileInfoInSymbolEvents(file, o);
    ExpandedAppend(info, SymbolEvents(file, o));
    ExpandedAppend(info + SymbolEvents(file, o), [Log(DependencyCount(n))]);
  }

  lemma SuffixSplit<T>(a: seq<T>, b: seq<T>, c: seq<T>)
    requires a <= b <= c
    ensures c[|a|..] == b[|a|..] + c[|b|..]
  {
  }

  /** `_ProcessedFiles` covers every key (ignoring case): a file not yet processed is not a key. */
  ghost predicate Tracked(s: Scan) {
    s.graph.Valid() && forall k | k in s.graph.values :: Fold(k) in s.processed
  }

  lemma {:induction false} ProcessKeepsTracked(p: Platform, root: string, s: Scan, file: string, visited: set<string>)
    requires Closed(p) && file in p.universe && Tracked(s)
    ensures Tracked(Process(p, root, s, file, visited).scan)
    ensures Grows(s, Process(p, root, s, file, visited).scan)
    decreases |FoldSet(p.universe) - s.processed|, 0, 0
  {
    if !Skips(p, root, s, file, visited) {
      var deps := SymbolDependencies(file, p.symbols(file));
      var expanded := Scan(s.processed + {Fold(file)}, s.graph.Put(file, deps));
      assert file !in s.graph.values;
      MeasureShrinks(FoldSet(p.universe), s.processed, expanded.processed, Fold(file));
      ProcessAllKeepsTracked(p, root, expanded, deps, visited + {file});
      GrowsTransitive(s, expanded, ProcessAll(p, root, expanded, deps, visited + {file}).scan);
    }
  }

  lemma {:induction false} ProcessAllKeepsTracked(p: Platform, root: string, s: Scan, deps: seq<string>, visited: set<string>)
    requires Closed(p) && (forall d | d in deps :: d in p.universe) && Tracked(s)
    ensures Tracked(ProcessAll(p, root, s, deps, visited).scan)
    ensures Grows(s, ProcessAll(p, root, s, deps, visited).scan)
    decreases |FoldSet(p.universe) - s.processed|, 1, |deps|
  {
    if deps != [] {
      var first := Process(p, root, s, deps[0], visited);
      ProcessKeepsTracked(p, root, s, deps[0], visited);
      MeasureMonotone(FoldSet(p.universe), s.processed, first.scan.processed);
      ProcessAllKeepsTracked(p, root, first.scan, deps[1..], visited);
      GrowsTransitive(s, first.scan, ProcessAll(p, root, first.scan, deps[1..], visited).scan);
    }
  }

  lemma {:induction false} RunSeedsKeepsTracked(p: Platform, root: string, s: Scan, seeds: seq<string>)
    requires Closed(p) && (forall f | f in seeds :: f in p.universe) && Tracked(s)
    ensures Tracked(RunSeeds(p, root, s, seeds).scan)
    ensures Grows(s, RunSeeds(p, root, s, seeds).scan)
    decreases |seeds|
  {
    if seeds != [] {
      var first := Process(p, root, s, seeds[0], {});
      ProcessKeepsTracked(p, root, s, seeds[0], {});
      RunSeedsKeepsTracked(p, root, first.scan, seeds[1..]);
      GrowsTransitive(s, first.scan, RunSeeds(p, root, first.scan, seeds[1..]).scan);
    }
  }

  /** The "[info] file:" lines of one processing step name exactly the keys it appended. */
  lemma {:induction false} ProcessLogsNewKeys(p: Platform, root: string, s: Scan, file: string, visited: set<string>)
    requires Closed(p) && file in p.universe && Tracked(s)
    ensures var r := Process(p, root, s, file, visited);
      |s.graph.keys| <= |r.scan.graph.keys| && Expanded(r.events) == r.scan.graph.keys[|s.graph.keys|..]
    decreases |FoldSet(p.universe) - s.processed|, 0, 0
  {
    ProcessKeepsTracked(p, root, s, file, visited);
    if !Skips(p, root, s, file, visited) {
      var deps := SymbolDependencies(file, p.symbols(file));
      var expanded := Scan(s.processed + {Fold(file)}, s.graph.Put(file, deps));
      var head := [Log(FileInfo(file))] + SymbolEvents(file, p.symbols(file)) + [Log(DependencyCount(|deps|))];
      assert file !in s.graph.values;
      MeasureShrinks(FoldSet(p.universe), s.processed, expanded.processed, Fold(file));
      var rest := ProcessAll(p, root, expanded, deps, visited + {file});
      ProcessAllLogsNewKeys(p, root, expanded, deps, visited + {file});
      ProcessAllKeepsTracked(p, root, expanded, deps, visited + {file});
      HeadNamesFile(file, p.symbols(file), |deps|);
      ExpandedAppend(head, rest.events);
      SuffixSplit(s.graph.keys, expanded.graph.keys, rest.scan.graph.keys);
      assert expanded.graph.keys[|s.graph.keys|..] == [file];
    }
  }

  lemma {:induction false} ProcessAllLogsNewKeys(p: Platform, root: string, s: Scan, deps: seq<string>, visited: set<string>)
    requires Closed(p) && (forall d | d in deps :: d in p.universe) && Tracked(s)
    ensures var r := ProcessAll(p, root, s, deps, visited);
      |s.graph.keys| <= |r.scan.graph.keys| && Expanded(r.events) == r.scan.graph.keys[|s.graph.keys|..]
    decreases |FoldSet(p.universe) - s.processed|, 1, |deps|
  {
    if deps != [] {
      var first := Process(p, root, s, deps[0], visited);
      ProcessLogsNewKeys(p, root, s, deps[0], visited);
      ProcessKeepsTracked(p, root, s, deps[0], visited);
      MeasureMonotone(FoldSet(p.universe), s.processed, first.scan.processed);
      var rest := ProcessAll(p, root, first.scan, deps[1..], visited);
      ProcessAllLogsNewKeys(p, root, first.scan, deps[1..], visited);
      ProcessAllKeepsTracked(p, root, first.scan, deps[1..], visited);
      ExpandedAppend(first.events, rest.events);
      SuffixSplit(s.graph.keys, first.scan.graph.keys, rest.scan.graph.keys);
    }
  }

  lemma {:induction false} RunSeedsLogsNewKeys(p: Platform, root: string, s: Scan, seeds: seq<string>)
    requires Closed(p) && (forall f | f in seeds :: f in p.universe) && Tracked(s)
    ensures var r := RunSeeds(p, root, s, seeds);
      |s.graph.keys| <= |r.scan.graph.keys| && Expanded(r.events) == r.scan.graph.keys[|s.graph.keys|..]
    decreases |seeds|
  {
    if seeds != [] {
      var first := Process(p, root, s, seeds[0], {});
      ProcessLogsNewKeys(p, root, s, seeds[0], {});
      ProcessKeepsTracked(p, root, s, seeds[0], {});
      var rest := RunSeeds(p, root, first.scan, seeds[1..]);
      RunSeedsLogsNewKeys(p, root, first.scan, seeds[1..]);
      RunSeedsKeepsTracked(p, root, first.scan, seeds[1..]);
      ExpandedAppend(first.events, rest.events);
      SuffixSplit(s.graph.keys, first.scan.graph.keys, rest.scan.graph.keys);
    }
  }

  /**
   * Every file is expanded at most once per run: the "[info] file:" lines of a
   * BuildDependencyGraph name exactly the graph's keys, in insertion order, and no
   * two of them are equal ignoring case.
   */
  lemma BuildExpandsEachFileOnce(p: Platform, folder: string, recursive: bool)
    requires Closed(p)
    ensures Expanded(Build(p, folder, recursive).events) == Build(p, folder, recursive).scan.graph.keys
    ensures FoldDistinct(Expanded(Build(p, folder, recursive).events))
  {
    var seeds := Candidates(p.enumerate(folder, recursive));
    var start := Scan({}, Empty());
    var r := RunSeeds(p, folder, start, seeds);
    assert Build(p, folder, recursive) == r;
    EmptyInv(p, folder);
    RunSeedsLogsNewKeys(p, folder, start, seeds);
    RunSeedsKeepsInv(p, folder, start, seeds);
    assert r.scan.graph.keys[|start.graph.keys|..] == r.scan.graph.keys;
  }

  /** Every name on the branch is already in `_ProcessedFiles` (ignoring case). */
  ghost predicate Seen(s: Scan, visited: set<string>) {
    forall v | v in visited :: Fold(v) in s.processed
  }

  /**
   * The per-branch `visited` set never decides anything: any two branch sets whose
   * names are already processed give the same step, because `_ProcessedFiles`
   * rejects every such name anyway.
   */
  lemma {:induction false} ProcessIgnoresVisited(p: Platform, root: string, s: Scan, file: string, v1: set<string>, v2: set<string>)
    requires Closed(p) && file in p.universe && Seen(s, v1) && Seen(s, v2)
    ensures Process(p, root, s, file, v1) == Process(p, root, s, file, v2)
    decreases |FoldSet(p.universe) - s.processed|, 0, 0
  {
    if !(file in v1 || IsIgnored(file) || Fold(file) in s.processed || p.directoryOf(file) != root) {
      var deps := SymbolDependencies(file, p.symbols(file));
      var expanded := Scan(s.processed + {Fold(file)}, s.graph.Put(file, deps));
      MeasureShrinks(FoldSet(p.universe), s.processed, expanded.processed, Fold(file));
      ProcessAllIgnoresVisited(p, root, expanded, deps, v1 + {file}, v2 + {file});
    }
  }

  lemma {:induction false} ProcessAllIgnoresVisited(p: Platform, root: string, s: Scan, deps: seq<string>, v1: set<string>, v2: set<string>)
    requires Closed(p) && (forall d | d in deps :: d in p.universe) && Seen(s, v1) && Seen(s, v2)
    ensures ProcessAll(p, root, s, deps, v1) == ProcessAll(p, root, s, deps, v2)
    decreases |FoldSet(p.universe) - s.processed|, 1, |deps|
  {
    if deps != [] {
      var first := Process(p, root, s, deps[0], v1);
      ProcessIgnoresVisited(p, root, s, deps[0], v1, v2);
      MeasureMonotone(FoldSet(p.universe), s.processed, first.scan.processed);
      ProcessAllIgnoresVisited(p, root, first.scan, deps[1..], v1, v2);
    }
  }

  /** In particular the cycle check could be dropped: the result is the one with an empty branch set. */
  lemma VisitedIsRedundant(p: Platform, root: string, s: Scan, file: string, visited: set<string>)
    requires Closed(p) && file in p.universe && Seen(s, visited)
    ensures Process(p, root, s, file, visited) == Process(p, root, s, file, {})
  {
    ProcessIgnoresVisited(p, root, s, file, visited, {});
  }

  /** A dependency the traversal has dealt with: ignore-listed, processed, or outside the root folder. */
  predicate Handled(p: Platform, root: string, s: Scan, d: string) {
    IsIgnored(d) || Fold(d) in s.processed || p.directoryOf(d) != root
  }

  /** Every dependency listed by the keys that t added to s has been dealt with in t. */
  ghost predicate NewKeysClosed(p: Platform, root: string, s: Scan, t: Scan) {
    forall k | k in t.graph.values && k !in s.graph.values ::
      forall d | d in t.graph.values[k] :: Handled(p, root, t, d)
  }

  /** Every dependency listed in the graph has been dealt with. */
  ghost predicate Complete(p: Platform, root: string, s: Scan) {
    forall k | k in s.graph.values :: forall d | d in s.graph.values[k] :: Handled(p, root, s, d)
  }

  lemma {:induction false} ProcessCloses(p: Platform, root: string, s: Scan, file: string, visited: set<string>)
    requires Closed(p) && file in p.universe && Tracked(s) && Seen(s, visited)
    ensures var r := Process(p, root, s, file, visited).scan;
      Handled(p, root, r, file) && NewKeysClosed(p, root, s, r)
    decreases |FoldSet(p.universe) - s.processed|, 0, 0
  {
    if !Skips(p, root, s, file, visited) {
      var deps := SymbolDependencies(file, p.symbols(file));
      var expanded := Scan(s.processed + {Fold(file)}, s.graph.Put(file, deps));
      assert file !in s.graph.values;
      MeasureShrinks(FoldSet(p.universe), s.processed, expanded.processed, Fold(file));
      ProcessAllCloses(p, root, expanded, deps, visited + {file});
      ProcessAllKeepsTracked(p, root, expanded, deps, visited + {file});
    }
  }

  lemma {:induction false} ProcessAllCloses(p: Platform, root: string, s: Scan, deps: seq<string>, visited: set<string>)
    requires Closed(p) && (forall d | d in deps :: d in p.universe) && Tracked(s) && Seen(s, visited)
    ensures var r := ProcessAll(p, root, s, deps, visited).scan;
      (forall d | d in deps :: Handled(p, root, r, d)) && NewKeysClosed(p, root, s, r)
    decreases |FoldSet(p.universe) - s.processed|, 1, |deps|
  {
    if deps != [] {
      var first := Process(p, root, s, deps[0], visited);
      ProcessCloses(p, root, s, deps[0], visited);
      ProcessKeepsTracked(p, root, s, deps[0], visited);
      MeasureMonotone(FoldSet(p.universe), s.processed, first.scan.processed);
      ProcessAllCloses(p, root, first.scan, deps[1..], visited);
      ProcessAllKeepsTracked(p, root, first.scan, deps[1..], visited);
      assert deps == [deps[0]] + deps[1..];
    }
  }

  /** A complete state stays complete when it only grows and its new keys are closed. */
  lemma CompleteExtends(p: Platform, root: string, s: Scan, t: Scan)
    requires Complete(p, root, s) && Grows(s, t) && s.processed <= t.processed && NewKeysClosed(p, root, s, t)
    ensures Complete(p, root, t)
  {
    forall k | k in t.graph.values
      ensures forall d | d in t.graph.values[k] :: Handled(p, root, t, d)
    {
      if k in s.graph.values {
        assert t.graph.values[k] == s.graph.values[k];
      }
    }
  }

  lemma {:induction false} RunSeedsCloses(p: Platform, root: string, s: Scan, seeds: seq<string>)
    requires Closed(p) && (forall f | f in seeds :: f in p.universe) && Tracked(s) && Complete(p, root, s)
    ensures var r := RunSeeds(p, root, s, seeds).scan;
      (forall f | f in seeds :: Handled(p, root, r, f)) && Complete(p, root, r)
    decreases |seeds|
  {
    if seeds != [] {
      var first := Process(p, root, s, seeds[0], {});
      ProcessCloses(p, root, s, seeds[0], {});
      ProcessKeepsTracked(p, root, s, seeds[0], {});
      CompleteExtends(p, root, s, first.scan);
      RunSeedsCloses(p, root, first.scan, seeds[1..]);
      RunSeedsKeepsTracked(p, root, first.scan, seeds[1..]);
      assert seeds == [seeds[0]] + seeds[1..];
    }
  }

  /**
   * A finished BuildDependencyGraph is closed: every seed and every listed
   * dependency is ignore-listed, outside the root folder, or itself a key
   * (ignoring case).
   */
  lemma BuildIsClosed(p: Platform, folder: string, recursive: bool)
    requires Closed(p)
    ensures var r := Build(p, folder, recursive).scan;
      && (forall f | f in Candidates(p.enumerate(folder, recursive)) :: Handled(p, folder, r, f))
      && Complete(p, folder, r)
  {
    EmptyInv(p, folder);
    RunSeedsCloses(p, folder, Scan({}, Empty()), Candidates(p.enumerate(folder, recursive)));
  }
}
