/**
 * The vertex and edge derivation at the start of Visualizer.VisualizeGraph: one
 * AddVerticesAndEdge call per (key, list entry) pair, in dictionary order and then
 * list order, into a QuickGraph AdjacencyGraph that allows parallel edges.
 */
module Visualizer {
  import opened Dictionaries
  import opened Sequences

  /** `Edge<string>(source, target)`. */
  datatype Edge = Edge(source: string, target: string)

  /** `AdjacencyGraph<string, Edge<string>>` with its default of allowing parallel edges. */
  class AdjacencyGraph {
    var vertices: set<string>
    var edges: seq<Edge>

    constructor ()
      ensures vertices == {} && edges == []
    {
      vertices := {};
      edges := [];
    }

    /** Adds whichever end points are missing, then the edge itself, even when an equal edge is present. */
    method AddVerticesAndEdge(e: Edge)
      modifies this
      ensures vertices == old(vertices) + {e.source, e.target}
      ensures edges == old(edges) + [e]
    {
      if e.source !in vertices {
        vertices := vertices + {e.source};
      }
      if e.target !in vertices {
        vertices := vertices + {e.target};
      }
      edges := edges + [e];
    }
  }

  /** The dependency list of a key as the dictionary enumerates it. */
  function Deps(d: Dict, k: string): seq<string> {
    if k in d.values then d.values[k] else []
  }

  /** The edges of one key, in list order. */
  function KeyEdges(k: string, deps: seq<string>): (r: seq<Edge>)
    ensures |r| == |deps|
    ensures forall j | 0 <= j < |deps| :: r[j] == Edge(k, deps[j])
  {
    seq(|deps|, j requires 0 <= j < |deps| => Edge(k, deps[j]))
  }

  /** The edges added for the keys `keys`, in order. */
  function EdgesOf(d: Dict, keys: seq<string>): seq<Edge> {
    if keys == [] then []
    else EdgesOf(d, keys[..|keys| - 1]) + KeyEdges(keys[|keys| - 1], Deps(d, keys[|keys| - 1]))
  }

  /** The end points of a list of edges. */
  function EndPoints(es: seq<Edge>): set<string> {
    (set e | e in es :: e.source) + (set e | e in es :: e.target)
  }

  /** The nested loop of VisualizeGraph, from a new graph. */
  method DeriveGraph(dependencyGraph: Dictionary) returns (graph: AdjacencyGraph)
    ensures fresh(graph)
    ensures graph.edges == EdgesOf(dependencyGraph.contents, dependencyGraph.contents.keys)
    ensures graph.vertices == EndPoints(graph.edges)
  {
    graph := new AdjacencyGraph();
    var d := dependencyGraph.contents;
    var keys := d.keys;
    for i := 0 to |keys|
      invariant graph.edges == EdgesOf(d, keys[..i])
      invariant graph.vertices == EndPoints(graph.edges)
    {
      AddKeyEdges(graph, keys[i], Deps(d, keys[i]));
      assert keys[..i + 1][..i] == keys[..i];
      assert EdgesOf(d, keys[..i + 1]) == EdgesOf(d, keys[..i]) + KeyEdges(keys[i], Deps(d, keys[i]));
    }
    assert keys[..|keys|] == keys;
  }

  /** The inner loop: one edge per entry of `dependencies`, in list order. */
  method AddKeyEdges(graph: AdjacencyGraph, key: string, dependencies: seq<string>)
    requires graph.vertices == EndPoints(graph.edges)
    modifies graph
    ensures graph.edges == old(graph.edges) + KeyEdges(key, dependencies)
    ensures graph.vertices == EndPoints(graph.edges)
  {
    for j := 0 to |dependencies|
      invariant graph.edges == old(graph.edges) + KeyEdges(key, dependencies[..j])
      invariant graph.vertices == EndPoints(graph.edges)
    {
      var e := Edge(key, dependencies[j]);
      EndPointsSnoc(graph.edges, e);
      graph.AddVerticesAndEdge(e);
      assert KeyEdges(key, dependencies[..j + 1]) == KeyEdges(key, dependencies[..j]) + [e];
      AppendAssociative(old(graph.edges), KeyEdges(key, dependencies[..j]), [e]);
    }
    assert dependencies[..|dependencies|] == dependencies;
  }

  lemma EndPointsSnoc(es: seq<Edge>, e: Edge)
    ensures EndPoints(es + [e]) == EndPoints(es) + {e.source, e.target}
  {
    assert forall x | x in es + [e] :: x in es || x == e;
  }

  /** Every edge runs from a key to an entry of that key's list. */
  lemma {:induction false} EdgesSound(d: Dict, keys: seq<string>)
    ensures forall e | e in EdgesOf(d, keys) :: e.source in keys && e.target in Deps(d, e.source)
    decreases |keys|
  {
    if keys != [] {
      var n := |keys| - 1;
      EdgesSound(d, keys[..n]);
      forall e | e in EdgesOf(d, keys)
        ensures e.source in keys && e.target in Deps(d, e.source)
      {
        if e in EdgesOf(d, keys[..n]) {
          assert e.source in keys[..n];
        } else {
          var j :| 0 <= j < |Deps(d, keys[n])| && KeyEdges(keys[n], Deps(d, keys[n]))[j] == e;
        }
      }
    }
  }

  /** Number of times x occurs in xs. */
  function Occurrences(xs: seq<string>, x: string): nat {
    multiset(xs)[x]
  }

  lemma KeyEdgesCount(k: string, deps: seq<string>, e: Edge)
    ensures multiset(KeyEdges(k, deps))[e] == if e.source == k then Occurrences(deps, e.target) else 0
    decreases |deps|
  {
    if deps != [] {
      var n := |deps| - 1;
      KeyEdgesCount(k, deps[..n], e);
      assert KeyEdges(k, deps) == KeyEdges(k, deps[..n]) + [Edge(k, deps[n])];
      assert deps == deps[..n] + [deps[n]];
    }
  }

  /**
   * With distinct keys, an edge (k, t) is added exactly as often as t occurs in k's
   * list: one call per (key, entry) pair, duplicates included, nothing else.
   */
  lemma {:induction false} EdgeMultiplicity(d: Dict, keys: seq<string>, e: Edge)
    requires forall i, j | 0 <= i < j < |keys| :: keys[i] != keys[j]
    ensures multiset(EdgesOf(d, keys))[e] == if e.source in keys then Occurrences(Deps(d, e.source), e.target) else 0
    decreases |keys|
  {
    if keys != [] {
      var n := |keys| - 1;
      EdgeMultiplicity(d, keys[..n], e);
      KeyEdgesCount(keys[n], Deps(d, keys[n]), e);
      if e.source == keys[n] {
        assert e.source !in keys[..n];
      }
      assert keys == keys[..n] + [keys[n]];
    }
  }

  /** An edge from a key to an entry of its list is among the edges. */
  lemma EdgePresent(d: Dict, k: string, t: string)
    requires d.Valid() && k in d.values && t in d.values[k]
    ensures Edge(k, t) in EdgesOf(d, d.keys)
  {
    EdgeMultiplicity(d, d.keys, Edge(k, t));
  }

  /**
   * The vertices are exactly the keys with a non-empty list and all listed entries;
   * a key whose list is empty contributes no vertex.
   */
  lemma VerticesExactly(d: Dict)
    requires d.Valid()
    ensures forall v :: v in EndPoints(EdgesOf(d, d.keys)) <==>
      (v in d.values && d.values[v] != []) || exists k | k in d.values :: v in d.values[k]
  {
    var es := EdgesOf(d, d.keys);
    EdgesSound(d, d.keys);
    forall v | v in EndPoints(es)
      ensures (v in d.values && d.values[v] != []) || exists k | k in d.values :: v in d.values[k]
    {
      var e :| e in es && (e.source == v || e.target == v);
      assert e.target in Deps(d, e.source);
    }
    forall v | v in d.values && d.values[v] != []
      ensures v in EndPoints(es)
    {
      EdgePresent(d, v, d.values[v][0]);
    }
    forall k, v | k in d.values && v in d.values[k]
      ensures v in EndPoints(es)
    {
      EdgePresent(d, k, v);
    }
  }
}
