/**
 * The dependency tree the main window shows: one root item per selected graph key,
 * each item headed "[n] name" and holding the items of its dependency entries,
 * roots sorted by header. TreeViewItem objects are modelled as Tree values: each
 * item is created fresh and owned by exactly one parent, so nothing is shared.
 */
module MainWin {
  import opened Wrappers
  import opened Text
  import opened Sequences
  import opened Dictionaries

  /** A TreeViewItem: its final Header and its Items, in insertion order. */
  datatype Tree = Node(header: string, children: seq<Tree>)

  predicate IsDigit(c: char) {
    '0' <= c <= '9'
  }

  function DigitChar(d: nat): (c: char)
    requires d < 10
    ensures IsDigit(c)
  {
    ('0' as int + d) as char
  }

  /** The decimal text of n, as string interpolation writes an int. */
  function NatToString(n: nat): (r: string)
    ensures r != [] && forall i | 0 <= i < |r| :: IsDigit(r[i])
    decreases n
  {
    if n < 10 then [DigitChar(n)] else NatToString(n / 10) + [DigitChar(n % 10)]
  }

  function DigitValue(c: char): nat
    requires IsDigit(c)
  {
    c as int - '0' as int
  }

  /** The value of a string of decimal digits. */
  function DigitsValue(s: string): nat
    requires forall i | 0 <= i < |s| :: IsDigit(s[i])
  {
    if s == [] then 0 else DigitsValue(s[..|s| - 1]) * 10 + DigitValue(s[|s| - 1])
  }

  lemma {:induction false} DigitsValueOfNat(n: nat)
    ensures DigitsValue(NatToString(n)) == n
    decreases n
  {
    if n >= 10 {
      DigitsValueOfNat(n / 10);
      var s := NatToString(n);
      assert s[..|s| - 1] == NatToString(n / 10);
    }
  }

  /** `$"[{n}] {name}"`. */
  function Header(n: nat, name: string): string {
    "[" + NatToString(n) + "] " + name
  }

  /** The longest prefix of decimal digits, and the rest. */
  function SplitDigits(s: string): (r: (string, string))
    ensures r.0 + r.1 == s && forall i | 0 <= i < |r.0| :: IsDigit(r.0[i])
  {
    if s == [] || !IsDigit(s[0]) then ([], s)
    else
      var rest := SplitDigits(s[1..]);
      ([s[0]] + rest.0, rest.1)
  }

  lemma {:induction false} SplitDigitsOf(ds: string, rest: string)
    requires forall i | 0 <= i < |ds| :: IsDigit(ds[i])
    requires rest == [] || !IsDigit(rest[0])
    ensures SplitDigits(ds + rest) == (ds, rest)
  {
    if ds == [] {
      assert ds + rest == rest;
    } else {
      assert (ds + rest)[0] == ds[0] && (ds + rest)[1..] == ds[1..] + rest;
      SplitDigitsOf(ds[1..], rest);
      assert [ds[0]] + ds[1..] == ds;
    }
  }

  /** Reads a header back: the count and the node name, or None when it is not of the form "[n] name". */
  function ParseHeader(h: string): Option<(nat, string)> {
    if h == [] || h[0] != '[' then None
    else
      var (ds, rest) := SplitDigits(h[1..]);
      if ds != [] && |rest| >= 2 && rest[0] == ']' && rest[1] == ' ' then Some((DigitsValue(ds), rest[2..]))
      else None
  }

  /** Headers are unambiguous: the count and the name can be read back from one. */
  lemma HeaderRoundTrip(n: nat, name: string)
    ensures ParseHeader(Header(n, name)) == Some((n, name))
  {
    var h := Header(n, name);
    var ds := NatToString(n);
    var rest := "] " + name;
    assert h[1..] == ds + rest;
    SplitDigitsOf(ds, rest);
    DigitsValueOfNat(n);
    assert rest[2..] == name;
  }

  lemma HeaderInjective(n1: nat, a: string, n2: nat, b: string)
    requires Header(n1, a) == Header(n2, b)
    ensures n1 == n2 && a == b
  {
    HeaderRoundTrip(n1, a);
    HeaderRoundTrip(n2, b);
  }

  /**
   * A rank on part of the keys that decreases along every dependency entry that is a
   * key. No node on a cycle has one (CycleUnranked), and CreateTreeViewItem, having
   * no cycle guard, needs one in order to return.
   */
  ghost predicate Layered(g: map<string, seq<string>>, rank: map<string, nat>) {
    forall k | k in rank && k in g ::
      forall d | d in g[k] && d in g :: d in rank && rank[d] < rank[k]
  }

  /** The item CreateTreeViewItem builds for a node. */
  function TreeOf(g: map<string, seq<string>>, rank: map<string, nat>, node: string): Tree
    requires Layered(g, rank) && (node in g ==> node in rank)
    decreases if node in g then rank[node] + 1 else 0
  {
    if node in g then
      var deps := g[node];
      Node(Header(|deps|, node), seq(|deps|, i requires 0 <= i < |deps| => TreeOf(g, rank, deps[i])))
    else
      Node(Header(0, node), [])
  }

  /**
   * An item's header names its node and counts its children; a key's children are
   * the items of its entries in list order, duplicates included; a non-key is a leaf
   * headed "[0]".
   */
  lemma TreeOfShape(g: map<string, seq<string>>, rank: map<string, nat>, node: string)
    requires Layered(g, rank) && (node in g ==> node in rank)
    ensures var t := TreeOf(g, rank, node);
      && ParseHeader(t.header) == Some((|t.children|, node))
      && (node in g ==>
            && |t.children| == |g[node]|
            && forall i | 0 <= i < |g[node]| ::
                 ParseHeader(t.children[i].header).Some? && ParseHeader(t.children[i].header).value.1 == g[node][i])
      && (node !in g ==> t.children == [])
  {
    var t := TreeOf(g, rank, node);
    HeaderRoundTrip(|t.children|, node);
    if node in g {
      forall i | 0 <= i < |g[node]|
        ensures ParseHeader(t.children[i].header).Some? && ParseHeader(t.children[i].header).value.1 == g[node][i]
      {
        var d := g[node][i];
        var c := TreeOf(g, rank, d);
        assert t.children[i] == c;
        HeaderRoundTrip(if d in g then |g[d]| else 0, d);
      }
    }
  }

  /** c is a path of keys, each listing the next. */
  predicate IsPath(g: map<string, seq<string>>, c: seq<string>)
    decreases |c|
  {
    |c| <= 1 || (c[0] in g && c[1] in g && c[1] in g[c[0]] && IsPath(g, c[1..]))
  }

  /** Along a path from a ranked key, the rank drops by at least one per step. */
  lemma {:induction false} RankDescends(g: map<string, seq<string>>, rank: map<string, nat>, c: seq<string>)
    requires Layered(g, rank) && IsPath(g, c) && c != []
    ensures c[0] in rank ==> c[|c| - 1] in rank && rank[c[|c| - 1]] + |c| - 1 <= rank[c[0]]
    decreases |c|
  {
    if |c| > 1 {
      RankDescends(g, rank, c[1..]);
    }
  }

  /** A key on a cycle of any length has no rank: the source would recurse forever on it. */
  lemma CycleUnranked(g: map<string, seq<string>>, rank: map<string, nat>, c: seq<string>)
    requires Layered(g, rank) && IsPath(g, c)
    requires |c| >= 2 && c[|c| - 1] == c[0]
    ensures c[0] !in rank
  {
    RankDescends(g, rank, c);
  }

  /** CreateTreeViewItem: the header is set, children are added in a loop, then the header is rewritten. */
  method CreateTreeViewItem(node: string, g: map<string, seq<string>>, ghost rank: map<string, nat>) returns (item: Tree)
    requires Layered(g, rank) && (node in g ==> node in rank)
    ensures item == TreeOf(g, rank, node)
    decreases if node in g then rank[node] + 1 else 0
  {
    var header := node;
    var items: seq<Tree> := [];
    if node in g {
      var dependencies := g[node];
      for i := 0 to |dependencies|
        invariant |items| == i
        invariant forall j | 0 <= j < i :: items[j] == TreeOf(g, rank, dependencies[j])
      {
        var childItem := CreateTreeViewItem(dependencies[i], g, rank);
        items := items + [childItem];
      }
      header := Header(|dependencies|, header);
    } else {
      header := Header(0, header);
    }
    item := Node(header, items);
  }

  /** `filter ?? ""`. */
  function FilterText(filter: Option<string>): string {
    match filter
    case None => ""
    case Some(f) => f
  }

  /** A root: its name contains the filter ignoring case, and its dependency list is not empty. */
  predicate IsRoot(d: Dict, filter: Option<string>, k: string) {
    k in d.values && ContainsIgnoreCase(k, FilterText(filter)) && |d.values[k]| != 0
  }

  /** The root keys in dictionary order. */
  function RootKeys(d: Dict, filter: Option<string>): (r: seq<string>)
    ensures forall k | k in r :: IsRoot(d, filter, k)
  {
    Filter(d.keys, (k: string) => IsRoot(d, filter, k))
  }

  /** Roots are exactly the keys that match the filter and have dependencies; a missing or empty filter matches every key. */
  lemma RootKeysExactly(d: Dict, filter: Option<string>)
    requires d.Valid()
    ensures forall k :: k in RootKeys(d, filter) <==> k in d.values && ContainsIgnoreCase(k, FilterText(filter)) && |d.values[k]| != 0
    ensures FilterText(filter) == "" ==> forall k :: k in RootKeys(d, filter) <==> k in d.values && |d.values[k]| != 0
  {
    forall k | k in d.keys && IsRoot(d, filter, k) {
      FilterComplete(d.keys, (k: string) => IsRoot(d, filter, k), k);
    }
    if FilterText(filter) == "" {
      forall k | k in d.values
        ensures ContainsIgnoreCase(k, FilterText(filter))
      {
        assert Fold("") == "";
        assert Contains(Fold(k), "");
      }
    }
  }

  /** Headers in ordinal order. */
  predicate SortedByHeader(ts: seq<Tree>) {
    forall i, j | 0 <= i < j < |ts| :: Below(ts[i].header, ts[j].header)
  }

  /** Insertion of one item before the first item it sorts below (ties keep the new item first). */
  function Insert(t: Tree, sorted: seq<Tree>): (r: seq<Tree>)
    ensures multiset(r) == multiset(sorted) + multiset{t}
  {
    if sorted == [] then [t]
    else if Below(t.header, sorted[0].header) then [t] + sorted
    else
      assert sorted == [sorted[0]] + sorted[1..];
      [sorted[0]] + Insert(t, sorted[1..])
  }

  /** `OrderBy(item => item.Header)`, stable, with the ordinal string order. */
  function SortByHeader(items: seq<Tree>): (r: seq<Tree>)
    ensures multiset(r) == multiset(items)
  {
    if items == [] then []
    else
      assert items == [items[0]] + items[1..];
      Insert(items[0], SortByHeader(items[1..]))
  }

  /** Every item's header is at or above h. */
  predicate AllAbove(h: string, ts: seq<Tree>) {
    forall i | 0 <= i < |ts| :: Below(h, ts[i].header)
  }

  lemma InsertAbove(h: string, t: Tree, sorted: seq<Tree>)
    requires AllAbove(h, sorted) && Below(h, t.header)
    ensures AllAbove(h, Insert(t, sorted))
  {
    var r := Insert(t, sorted);
    forall i | 0 <= i < |r|
      ensures Below(h, r[i].header)
    {
      assert r[i] in multiset(r);
      if r[i] != t {
        assert r[i] in multiset(sorted);
        var j :| 0 <= j < |sorted| && sorted[j] == r[i];
      }
    }
  }

  lemma SortedCons(t: Tree, ts: seq<Tree>)
    requires AllAbove(t.header, ts) && SortedByHeader(ts)
    ensures SortedByHeader([t] + ts)
  {
    var r := [t] + ts;
    forall i, j | 0 <= i < j < |r|
      ensures Below(r[i].header, r[j].header)
    {
      if i == 0 {
        assert r[j] == ts[j - 1];
      } else {
        assert r[i] == ts[i - 1] && r[j] == ts[j - 1];
      }
    }
  }

  lemma {:induction false} InsertSorted(t: Tree, sorted: seq<Tree>)
    requires SortedByHeader(sorted)
    ensures SortedByHeader(Insert(t, sorted))
  {
    if sorted == [] {
    } else if Below(t.header, sorted[0].header) {
      forall i | 0 <= i < |sorted|
        ensures Below(t.header, sorted[i].header)
      {
        if i > 0 {
          BelowTransitive(t.header, sorted[0].header, sorted[i].header);
        }
      }
      SortedCons(t, sorted);
    } else {
      var rest := sorted[1..];
      InsertSorted(t, rest);
      BelowTotal(t.header, sorted[0].header);
      assert AllAbove(sorted[0].header, rest) by {
        forall i | 0 <= i < |rest|
          ensures Below(sorted[0].header, rest[i].header)
        {
          assert rest[i] == sorted[i + 1];
        }
      }
      InsertAbove(sorted[0].header, t, rest);
      SortedCons(sorted[0], Insert(t, rest));
    }
  }

  /** The root items come out in header order and are a permutation of the items built. */
  lemma {:induction false} SortByHeaderCorrect(items: seq<Tree>)
    ensures SortedByHeader(SortByHeader(items))
    ensures multiset(SortByHeader(items)) == multiset(items)
  {
    if items != [] {
      SortByHeaderCorrect(items[1..]);
      InsertSorted(items[0], SortByHeader(items[1..]));
    }
  }

  /** The items built for the roots, in root order. */
  function RootItems(g: map<string, seq<string>>, rank: map<string, nat>, roots: seq<string>): (r: seq<Tree>)
    requires Layered(g, rank) && forall k | k in roots && k in g :: k in rank
    ensures |r| == |roots|
  {
    seq(|roots|, i requires 0 <= i < |roots| => TreeOf(g, rank, roots[i]))
  }

  /**
   * CreateTreeViewFromDependencyGraph: builds an item per root, then adds them to the
   * view sorted by header. The unused `allNodes` and `dependentNodes` sets are not
   * modelled; they have no effect on the view.
   */
  method CreateTreeViewFromDependencyGraph(dependencyGraph: Dictionary, filter: Option<string>, ghost rank: map<string, nat>)
    returns (view: seq<Tree>)
    requires Layered(dependencyGraph.contents.values, rank)
    requires forall k | k in RootKeys(dependencyGraph.contents, filter) :: k in rank
    ensures view == SortByHeader(RootItems(dependencyGraph.contents.values, rank, RootKeys(dependencyGraph.contents, filter)))
  {
    var rootNodes := RootKeys(dependencyGraph.contents, filter);
    var rootItems := CreateRootItems(rootNodes, dependencyGraph.contents.values, rank);
    view := AddItems(SortByHeader(rootItems));
  }

  /** The first loop: one item per root node, in root order. */
  method CreateRootItems(rootNodes: seq<string>, g: map<string, seq<string>>, ghost rank: map<string, nat>)
    returns (rootItems: seq<Tree>)
    requires Layered(g, rank) && forall k | k in rootNodes && k in g :: k in rank
    ensures rootItems == RootItems(g, rank, rootNodes)
  {
    rootItems := [];
    for i := 0 to |rootNodes|
      invariant |rootItems| == i
      invariant forall j | 0 <= j < i :: rootItems[j] == TreeOf(g, rank, rootNodes[j])
    {
      var item := CreateTreeViewItem(rootNodes[i], g, rank);
      rootItems := rootItems + [item];
    }
  }

  /** The second loop: `treeView.Items.Add` for each ordered item, in order. */
  method AddItems(ordered: seq<Tree>) returns (view: seq<Tree>)
    ensures view == ordered
  {
    view := [];
    for i := 0 to |ordered|
      invariant view == ordered[..i]
    {
      view := view + [ordered[i]];
    }
  }

  /** The view holds one item per root, each the root's full item, in header order. */
  lemma TreeViewCorrect(d: Dict, filter: Option<string>, rank: map<string, nat>)
    requires Layered(d.values, rank) && forall k | k in RootKeys(d, filter) :: k in rank
    ensures var roots := RootKeys(d, filter);
      var view := SortByHeader(RootItems(d.values, rank, roots));
      && SortedByHeader(view)
      && |view| == |roots|
      && (forall t | t in view :: exists k | k in roots :: t == TreeOf(d.values, rank, k))
      && (forall k | k in roots :: TreeOf(d.values, rank, k) in view)
  {
    var roots := RootKeys(d, filter);
    var items := RootItems(d.values, rank, roots);
    SortByHeaderCorrect(items);
    var view := SortByHeader(items);
    assert |view| == |multiset(view)| == |multiset(items)| == |items|;
    forall t | t in view
      ensures exists k | k in roots :: t == TreeOf(d.values, rank, k)
    {
      assert t in multiset(items);
      var i :| 0 <= i < |items| && items[i] == t;
      assert roots[i] in roots;
    }
    forall k | k in roots
      ensures TreeOf(d.values, rank, k) in view
    {
      var i :| 0 <= i < |roots| && roots[i] == k;
      assert items[i] in multiset(view);
    }
  }

  /** Items of different nodes have different headers, since a header names its node. */
  lemma HeadersNameNodes(g: map<string, seq<string>>, rank: map<string, nat>, a: string, b: string)
    requires Layered(g, rank) && (a in g ==> a in rank) && (b in g ==> b in rank)
    requires a != b
    ensures TreeOf(g, rank, a).header != TreeOf(g, rank, b).header
  {
    var na := if a in g then |g[a]| else 0;
    var nb := if b in g then |g[b]| else 0;
    if Header(na, a) == Header(nb, b) {
      HeaderInjective(na, a, nb, b);
    }
  }
}
