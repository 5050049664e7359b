/**
 * The directed graph the trainer works on, as a value: networkx's DiGraph
 * reduced to what the core observes. Nodes keep insertion order; edges are
 * iterated grouped by source node in node order, each group in the order its
 * edges were first added; every edge may carry a "weight" attribute.
 */
module DiGraph {
  import opened Wrappers
  import opened Sums

  /** An edge with its optional "weight" attribute (None: the attribute is absent). */
  datatype Edge<N> = Edge(source: N, target: N, weight: Option<real>)

  /** `nodes` in insertion order; `edges` in the graph's iteration order. */
  datatype Graph<N> = Graph(nodes: seq<N>, edges: seq<Edge<N>>)

  function Empty<N>(): Graph<N> { Graph([], []) }

  function Pair<N>(e: Edge<N>): (N, N) { (e.source, e.target) }

  ghost function Elements<T>(s: seq<T>): set<T> { set x | x in s }

  ghost predicate Distinct<T>(s: seq<T>) {
    forall i, j :: 0 <= i < j < |s| ==> s[i] != s[j]
  }

  /** Position of `x` in `s`, or `|s|` when it is absent. */
  function Rank<N(==)>(s: seq<N>, x: N): (i: nat)
    ensures i <= |s|
    ensures i < |s| <==> x in s
    ensures i < |s| ==> s[i] == x
    decreases |s|
  {
    if s == [] then 0
    else if s[0] == x then 0
    else 1 + Rank(s[1..], x)
  }

  /** `Rank` finds the first occurrence. */
  lemma {:induction false} RankFirst<N>(s: seq<N>, x: N, k: nat)
    requires k < Rank(s, x)
    ensures s[k] != x
    decreases |s|
  {
    if k > 0 {
      RankFirst(s[1..], x, k - 1);
    }
  }

  ghost predicate UniquePairs<N>(es: seq<Edge<N>>) {
    forall i, j :: 0 <= i < j < |es| ==> Pair(es[i]) != Pair(es[j])
  }

  /** Edges appear grouped by the rank of their source node. */
  ghost predicate Grouped<N>(es: seq<Edge<N>>, nodes: seq<N>) {
    forall i, j :: 0 <= i < j < |es| ==> Rank(nodes, es[i].source) <= Rank(nodes, es[j].source)
  }

  /** Edges whose neighbours are in source order are grouped. */
  lemma {:induction false} GroupedFromAdjacent<N>(es: seq<Edge<N>>, nodes: seq<N>)
    requires forall i :: 0 <= i < |es| - 1 ==> Rank(nodes, es[i].source) <= Rank(nodes, es[i + 1].source)
    ensures Grouped(es, nodes)
  {
    forall i, j | 0 <= i < j < |es| ensures Rank(nodes, es[i].source) <= Rank(nodes, es[j].source) {
      AdjacentChain(es, nodes, i, j);
    }
  }

  lemma {:induction false} AdjacentChain<N>(es: seq<Edge<N>>, nodes: seq<N>, i: nat, j: nat)
    requires forall i :: 0 <= i < |es| - 1 ==> Rank(nodes, es[i].source) <= Rank(nodes, es[i + 1].source)
    requires i <= j < |es|
    ensures Rank(nodes, es[i].source) <= Rank(nodes, es[j].source)
    decreases j - i
  {
    if i < j {
      AdjacentChain(es, nodes, i + 1, j);
    }
  }

  /** What every DiGraph satisfies. */
  ghost predicate Valid<N>(g: Graph<N>) {
    && Distinct(g.nodes)
    && (forall e :: e in g.edges ==> e.source in g.nodes && e.target in g.nodes)
    && UniquePairs(g.edges)
    && Grouped(g.edges, g.nodes)
  }

  ghost function PairSet<N>(g: Graph<N>): set<(N, N)> {
    set e | e in g.edges :: Pair(e)
  }

  function HasEdge<N(==)>(g: Graph<N>, u: N, v: N): bool {
    exists e :: e in g.edges && Pair(e) == (u, v)
  }

  // ---------------------------------------------------------------------
  // add_edge

  function AddNode<N(==)>(nodes: seq<N>, v: N): seq<N> {
    if v in nodes then nodes else nodes + [v]
  }

  /** Position of the edge from `u` to `v`, if there is one. */
  function FindEdge<N(==)>(es: seq<Edge<N>>, u: N, v: N): (r: Option<nat>)
    ensures r.Some? ==> r.value < |es| && Pair(es[r.value]) == (u, v)
    ensures r.None? ==> forall e :: e in es ==> Pair(e) != (u, v)
    decreases |es|
  {
    if es == [] then None
    else if Pair(es[0]) == (u, v) then Some(0)
    else
      match FindEdge(es[1..], u, v)
      case Some(i) => Some(i + 1)
      case None => None
  }

  /** Places `e` after the last edge whose source does not come after `e`'s. */
  function InsertInGroup<N(==)>(es: seq<Edge<N>>, e: Edge<N>, nodes: seq<N>): seq<Edge<N>>
    decreases |es|
  {
    if es == [] then [e]
    else if Rank(nodes, e.source) < Rank(nodes, es[0].source) then [e] + es
    else [es[0]] + InsertInGroup(es[1..], e, nodes)
  }

  /**
   * `add_edge(u, v, weight=w)`: missing endpoints are appended to the nodes
   * (u first); an existing edge keeps its place and gets the new weight; a new
   * edge joins the end of its source's group.
   */
  function AddEdge<N(==)>(g: Graph<N>, u: N, v: N, w: real): Graph<N> {
    var nodes := AddNode(AddNode(g.nodes, u), v);
    var e := Edge(u, v, Some(w));
    match FindEdge(g.edges, u, v)
    case Some(i) => Graph(nodes, g.edges[i := e])
    case None => Graph(nodes, InsertInGroup(g.edges, e, nodes))
  }

  /** `add_edge` for each (u, v, w) of `ebunch` in order. */
  function AddWeightedEdgesFrom<N(==)>(g: Graph<N>, ebunch: seq<(N, N, real)>): Graph<N>
    decreases |ebunch|
  {
    if ebunch == [] then g
    else
      var last := ebunch[|ebunch| - 1];
      AddEdge(AddWeightedEdgesFrom(g, ebunch[..|ebunch| - 1]), last.0, last.1, last.2)
  }

  /**
   * A loop that makes the `add_edge` calls of `ebunch` one at a time on an
   * empty graph has made the first i of them, leaving `g`. The prefix is
   * named under a quantifier over its length so that a proof unfolds the
   * calls only where it names a prefix of its own.
   */
  ghost predicate Loaded<N>(ebunch: seq<(N, N, real)>, i: int, g: Graph<N>) {
    && 0 <= i <= |ebunch|
    && forall n: nat | n == i && n <= |ebunch| :: g == AddWeightedEdgesFrom(Empty(), ebunch[..n])
  }

  /** Before the first call the graph is empty. */
  lemma {:induction false} LoadStart<N>(ebunch: seq<(N, N, real)>)
    ensures Loaded(ebunch, 0, Empty())
  {
    assert ebunch[..0] == [];
  }

  /** Call i extends the graph of the first i calls to that of the first i + 1. */
  lemma {:induction false} LoadStep<N>(ebunch: seq<(N, N, real)>, i: nat, g: Graph<N>, g': Graph<N>)
    requires i < |ebunch| && Loaded(ebunch, i, g)
    requires g' == AddEdge(g, ebunch[i].0, ebunch[i].1, ebunch[i].2)
    ensures Loaded(ebunch, i + 1, g')
  {
    assert ebunch[..i + 1][..i] == ebunch[..i];
  }

  /** After the last call the graph is that of the whole sequence. */
  lemma {:induction false} LoadEnd<N>(ebunch: seq<(N, N, real)>, g: Graph<N>)
    requires Loaded(ebunch, |ebunch|, g)
    ensures g == AddWeightedEdgesFrom(Empty(), ebunch)
  {
    assert ebunch[..|ebunch|] == ebunch;
  }

  // ---------------------------------------------------------------------
  // Lemmas about add_edge

  lemma {:induction false} InsertInGroupContents<N>(es: seq<Edge<N>>, e: Edge<N>, nodes: seq<N>)
    ensures multiset(InsertInGroup(es, e, nodes)) == multiset(es) + multiset{e}
    decreases |es|
  {
    if es != [] && Rank(nodes, e.source) >= Rank(nodes, es[0].source) {
      InsertInGroupContents(es[1..], e, nodes);
      assert es == [es[0]] + es[1..];
    }
  }

  lemma {:induction false} InsertInGroupMember<N>(es: seq<Edge<N>>, e: Edge<N>, nodes: seq<N>, x: Edge<N>)
    requires x in InsertInGroup(es, e, nodes)
    ensures x in es || x == e
  {
    InsertInGroupContents(es, e, nodes);
    assert x in multiset(InsertInGroup(es, e, nodes));
  }

  lemma {:induction false} InsertInGroupGrouped<N>(es: seq<Edge<N>>, e: Edge<N>, nodes: seq<N>)
    requires Grouped(es, nodes)
    ensures Grouped(InsertInGroup(es, e, nodes), nodes)
    decreases |es|
  {
    if es != [] && Rank(nodes, e.source) >= Rank(nodes, es[0].source) {
      InsertInGroupGrouped(es[1..], e, nodes);
      forall x | x in InsertInGroup(es[1..], e, nodes)
        ensures Rank(nodes, es[0].source) <= Rank(nodes, x.source)
      {
        InsertInGroupMember(es[1..], e, nodes, x);
        if x in es[1..] {
          var k :| 0 <= k < |es[1..]| && es[1..][k] == x;
          assert es[k + 1] == x;
          assert Rank(nodes, es[0].source) <= Rank(nodes, es[k + 1].source);
        }
      }
    }
  }

  lemma {:induction false} InsertInGroupUnique<N>(es: seq<Edge<N>>, e: Edge<N>, nodes: seq<N>)
    requires UniquePairs(es)
    requires forall x :: x in es ==> Pair(x) != Pair(e)
    ensures UniquePairs(InsertInGroup(es, e, nodes))
    decreases |es|
  {
    if es != [] && Rank(nodes, e.source) >= Rank(nodes, es[0].source) {
      InsertInGroupUnique(es[1..], e, nodes);
      forall x | x in InsertInGroup(es[1..], e, nodes)
        ensures Pair(es[0]) != Pair(x)
      {
        InsertInGroupMember(es[1..], e, nodes, x);
        if x in es[1..] {
          var k :| 0 <= k < |es[1..]| && es[1..][k] == x;
          assert es[k + 1] == x;
          assert Pair(es[0]) != Pair(es[k + 1]);
        } else {
          assert es[0] in es;
        }
      }
    } else if es != [] {
      assert forall k :: 0 <= k < |es| ==> es[k] in es;
    }
  }

  lemma {:induction false} RankPrefix<N>(s: seq<N>, t: seq<N>, x: N)
    requires s <= t && x in s
    ensures Rank(t, x) == Rank(s, x)
  {
    var i := Rank(s, x);
    assert t[i] == x;
    if Rank(t, x) < i {
      RankFirst(s, x, Rank(t, x));
    } else if Rank(t, x) > i {
      RankFirst(t, x, i);
    }
  }

  lemma {:induction false} GroupedExtend<N>(es: seq<Edge<N>>, nodes: seq<N>, nodes': seq<N>)
    requires Grouped(es, nodes) && nodes <= nodes'
    requires forall e :: e in es ==> e.source in nodes
    ensures Grouped(es, nodes')
  {
    forall i, j | 0 <= i < j < |es|
      ensures Rank(nodes', es[i].source) <= Rank(nodes', es[j].source)
    {
      RankPrefix(nodes, nodes', es[i].source);
      RankPrefix(nodes, nodes', es[j].source);
    }
  }

  lemma {:induction false} AddEdgeNodes<N>(g: Graph<N>, u: N, v: N, w: real)
    requires Distinct(g.nodes)
    ensures g.nodes <= AddEdge(g, u, v, w).nodes
    ensures Distinct(AddEdge(g, u, v, w).nodes)
    ensures Elements(AddEdge(g, u, v, w).nodes) == Elements(g.nodes) + {u, v}
  {
  }

  /** Re-adding an existing pair: the edge keeps its place and takes the new weight. */
  lemma {:induction false} AddExistingEdgeValid<N>(g: Graph<N>, u: N, v: N, w: real, i: nat)
    requires Valid(g) && FindEdge(g.edges, u, v) == Some(i)
    ensures AddEdge(g, u, v, w).edges == g.edges[i := Edge(u, v, Some(w))]
    ensures Valid(AddEdge(g, u, v, w))
  {
    var h := AddEdge(g, u, v, w);
    var e := Edge(u, v, Some(w));
    assert h.edges == g.edges[i := e];
    AddEdgeNodes(g, u, v, w);
    GroupedExtend(g.edges, g.nodes, h.nodes);
    assert Pair(g.edges[i]) == (u, v);
    forall x | x in h.edges
      ensures x.source in h.nodes && x.target in h.nodes
    {
      var k :| 0 <= k < |h.edges| && h.edges[k] == x;
      if k != i { assert x == g.edges[k]; }
    }
    forall a, b | 0 <= a < b < |h.edges|
      ensures Pair(h.edges[a]) != Pair(h.edges[b])
      ensures Rank(h.nodes, h.edges[a].source) <= Rank(h.nodes, h.edges[b].source)
    {
      assert Pair(h.edges[a]) == Pair(g.edges[a]) && Pair(h.edges[b]) == Pair(g.edges[b]);
    }
  }

  lemma {:induction false} AddExistingEdgePairs<N>(g: Graph<N>, u: N, v: N, w: real, i: nat)
    requires Valid(g) && FindEdge(g.edges, u, v) == Some(i)
    ensures PairSet(AddEdge(g, u, v, w)) == PairSet(g)
  {
    var h := AddEdge(g, u, v, w);
    var e := Edge(u, v, Some(w));
    assert h.edges == g.edges[i := e];
    assert Pair(g.edges[i]) == (u, v);
    forall p | p in PairSet(g) ensures p in PairSet(h) {
      var x :| x in g.edges && Pair(x) == p;
      var k :| 0 <= k < |g.edges| && g.edges[k] == x;
      assert h.edges[k] in h.edges && Pair(h.edges[k]) == p;
    }
    forall p | p in PairSet(h) ensures p in PairSet(g) {
      var x :| x in h.edges && Pair(x) == p;
      var k :| 0 <= k < |h.edges| && h.edges[k] == x;
      assert g.edges[k] in g.edges && Pair(g.edges[k]) == p;
    }
  }

  /** Adding a new pair: it joins the end of its source's group. */
  lemma {:induction false} AddNewEdgeValid<N>(g: Graph<N>, u: N, v: N, w: real)
    requires Valid(g) && FindEdge(g.edges, u, v) == None
    ensures AddEdge(g, u, v, w).edges == InsertInGroup(g.edges, Edge(u, v, Some(w)), AddEdge(g, u, v, w).nodes)
    ensures Valid(AddEdge(g, u, v, w))
  {
    var h := AddEdge(g, u, v, w);
    var e := Edge(u, v, Some(w));
    assert h.edges == InsertInGroup(g.edges, e, h.nodes);
    AddEdgeNodes(g, u, v, w);
    GroupedExtend(g.edges, g.nodes, h.nodes);
    InsertInGroupGrouped(g.edges, e, h.nodes);
    InsertInGroupUnique(g.edges, e, h.nodes);
    forall x | x in h.edges
      ensures x.source in h.nodes && x.target in h.nodes
    {
      InsertInGroupMember(g.edges, e, h.nodes, x);
    }
  }

  lemma {:induction false} AddNewEdgePairs<N>(g: Graph<N>, u: N, v: N, w: real)
    requires Valid(g) && FindEdge(g.edges, u, v) == None
    ensures PairSet(AddEdge(g, u, v, w)) == PairSet(g) + {(u, v)}
  {
    var h := AddEdge(g, u, v, w);
    var e := Edge(u, v, Some(w));
    assert h.edges == InsertInGroup(g.edges, e, h.nodes);
    InsertInGroupContents(g.edges, e, h.nodes);
    forall x | x in h.edges
      ensures Pair(x) in PairSet(g) + {(u, v)}
    {
      InsertInGroupMember(g.edges, e, h.nodes, x);
    }
    forall p | p in PairSet(g) + {(u, v)}
      ensures p in PairSet(h)
    {
      if p == (u, v) {
        assert e in multiset(h.edges);
        assert e in h.edges && Pair(e) == p;
      } else {
        var x :| x in g.edges && Pair(x) == p;
        assert x in multiset(h.edges);
        assert x in h.edges;
      }
    }
  }

  /** `add_edge` keeps the graph well formed and adds exactly the pair (u, v) and the endpoints. */
  lemma {:induction false} AddEdgeSpec<N>(g: Graph<N>, u: N, v: N, w: real)
    requires Valid(g)
    ensures Valid(AddEdge(g, u, v, w))
    ensures g.nodes <= AddEdge(g, u, v, w).nodes
    ensures Elements(AddEdge(g, u, v, w).nodes) == Elements(g.nodes) + {u, v}
    ensures PairSet(AddEdge(g, u, v, w)) == PairSet(g) + {(u, v)}
  {
    AddEdgeNodes(g, u, v, w);
    match FindEdge(g.edges, u, v)
    case Some(i) =>
      AddExistingEdgeValid(g, u, v, w, i);
      AddExistingEdgePairs(g, u, v, w, i);
    case None =>
      AddNewEdgeValid(g, u, v, w);
      AddNewEdgePairs(g, u, v, w);
  }

  /** Overwriting the edge at the place of e's pair with e leaves every edge of another pair in place. */
  lemma {:induction false} ReplaceEdgeMembers<N>(es: seq<Edge<N>>, i: nat, e: Edge<N>)
    requires UniquePairs(es) && i < |es| && Pair(es[i]) == Pair(e)
    ensures e in es[i := e]
    ensures forall x :: x in es[i := e] ==> x == e || (x in es && Pair(x) != Pair(e))
    ensures forall x :: x in es && Pair(x) != Pair(e) ==> x in es[i := e]
  {
    var h := es[i := e];
    assert h[i] == e;
    forall x | x in h
      ensures x == e || (x in es && Pair(x) != Pair(e))
    {
      var k :| 0 <= k < |h| && h[k] == x;
      if k != i {
        assert Pair(es[k]) != Pair(es[i]);
      }
    }
    forall x | x in es && Pair(x) != Pair(e)
      ensures x in h
    {
      var k :| 0 <= k < |es| && es[k] == x;
      assert h[k] == x;
    }
  }

  /** Inserting e, whose pair no edge has, adds e and keeps every other edge. */
  lemma {:induction false} InsertEdgeMembers<N>(es: seq<Edge<N>>, e: Edge<N>, nodes: seq<N>)
    requires forall x :: x in es ==> Pair(x) != Pair(e)
    ensures e in InsertInGroup(es, e, nodes)
    ensures forall x :: x in InsertInGroup(es, e, nodes) ==> x == e || (x in es && Pair(x) != Pair(e))
    ensures forall x :: x in es && Pair(x) != Pair(e) ==> x in InsertInGroup(es, e, nodes)
  {
    var h := InsertInGroup(es, e, nodes);
    InsertInGroupContents(es, e, nodes);
    assert e in multiset(h);
    forall x | x in h
      ensures x == e || (x in es && Pair(x) != Pair(e))
    {
      InsertInGroupMember(es, e, nodes, x);
    }
    forall x | x in es && Pair(x) != Pair(e)
      ensures x in h
    {
      assert x in multiset(h);
    }
  }

  /** After `add_edge` the edge (u, v) carries weight w, and every other edge is as it was. */
  lemma {:induction false} AddEdgeMembers<N>(g: Graph<N>, u: N, v: N, w: real)
    requires Valid(g)
    ensures Edge(u, v, Some(w)) in AddEdge(g, u, v, w).edges
    ensures forall e :: e in AddEdge(g, u, v, w).edges ==> e == Edge(u, v, Some(w)) || (e in g.edges && Pair(e) != (u, v))
    ensures forall e :: e in g.edges && Pair(e) != (u, v) ==> e in AddEdge(g, u, v, w).edges
  {
    var e := Edge(u, v, Some(w));
    match FindEdge(g.edges, u, v)
    case Some(i) =>
      ReplaceEdgeMembers(g.edges, i, e);
    case None =>
      InsertEdgeMembers(g.edges, e, AddNode(AddNode(g.nodes, u), v));
  }

  /** Counting form of `AddEdgeSpec`: number_of_nodes and number_of_edges after `add_edge`. */
  lemma {:induction false} AddEdgeCounts<N>(g: Graph<N>, u: N, v: N, w: real)
    requires Valid(g)
    ensures |AddEdge(g, u, v, w).nodes| == |g.nodes| + (if u in g.nodes then 0 else 1) + (if v in g.nodes || v == u then 0 else 1)
    ensures |AddEdge(g, u, v, w).edges| == |g.edges| + (if HasEdge(g, u, v) then 0 else 1)
  {
    match FindEdge(g.edges, u, v)
    case Some(i) =>
      assert g.edges[i] in g.edges;
    case None =>
      var h := AddEdge(g, u, v, w);
      InsertInGroupContents(g.edges, Edge(u, v, Some(w)), h.nodes);
      assert |multiset(h.edges)| == |h.edges|;
      assert |multiset(g.edges)| == |g.edges|;
      assert !HasEdge(g, u, v);
  }

  /** The endpoints and pairs of `init + [last]`, split off the last triple. */
  lemma {:induction false} EbunchSnoc<N>(init: seq<(N, N, real)>, last: (N, N, real))
    ensures (set t | t in init + [last] :: t.0) == (set t | t in init :: t.0) + {last.0}
    ensures (set t | t in init + [last] :: t.1) == (set t | t in init :: t.1) + {last.1}
    ensures (set t | t in init + [last] :: (t.0, t.1)) == (set t | t in init :: (t.0, t.1)) + {(last.0, last.1)}
  {
    assert last in init + [last];
    forall t | t in init + [last] ensures t in init || t == last { }
    forall t | t in init ensures t in init + [last] { }
  }

  lemma {:induction false} AddWeightedEdgesFromSpec<N>(g: Graph<N>, ebunch: seq<(N, N, real)>)
    requires Valid(g)
    ensures Valid(AddWeightedEdgesFrom(g, ebunch))
    ensures Elements(AddWeightedEdgesFrom(g, ebunch).nodes) == Elements(g.nodes) + (set t | t in ebunch :: t.0) + (set t | t in ebunch :: t.1)
    ensures PairSet(AddWeightedEdgesFrom(g, ebunch)) == PairSet(g) + (set t | t in ebunch :: (t.0, t.1))
    decreases |ebunch|
  {
    if ebunch == [] {
      assert (set t | t in ebunch :: t.0) == {};
      assert (set t | t in ebunch :: t.1) == {};
      assert (set t | t in ebunch :: (t.0, t.1)) == {};
    } else {
      var init := ebunch[..|ebunch| - 1];
      var last := ebunch[|ebunch| - 1];
      var before := AddWeightedEdgesFrom(g, init);
      AddWeightedEdgesFromSpec(g, init);
      AddEdgeSpec(before, last.0, last.1, last.2);
      assert AddWeightedEdgesFrom(g, ebunch) == AddEdge(before, last.0, last.1, last.2);
      assert ebunch == init + [last];
      EbunchSnoc(init, last);
    }
  }

  /**
   * Re-adding a pair overwrites its weight: the i-th triple of `ebunch` is an
   * edge of the result, with its own weight, when no later triple names the
   * same pair.
   */
  lemma {:induction false} LastWriteWins<N>(g: Graph<N>, ebunch: seq<(N, N, real)>, i: nat)
    requires Valid(g) && i < |ebunch|
    requires forall j :: i < j < |ebunch| ==> (ebunch[j].0, ebunch[j].1) != (ebunch[i].0, ebunch[i].1)
    ensures Edge(ebunch[i].0, ebunch[i].1, Some(ebunch[i].2)) in AddWeightedEdgesFrom(g, ebunch).edges
    decreases |ebunch|
  {
    var init := ebunch[..|ebunch| - 1];
    var last := ebunch[|ebunch| - 1];
    var before := AddWeightedEdgesFrom(g, init);
    AddWeightedEdgesFromSpec(g, init);
    AddEdgeMembers(before, last.0, last.1, last.2);
    if i < |ebunch| - 1 {
      LastWriteWins(g, init, i);
    }
  }

  // ---------------------------------------------------------------------
  // Counting

  lemma {:induction false} DistinctCardinality<T>(s: seq<T>)
    requires Distinct(s)
    ensures |Elements(s)| == |s|
    decreases |s|
  {
    if s != [] {
      var init := s[..|s| - 1];
      DistinctCardinality(init);
      assert Elements(s) == Elements(init) + {s[|s| - 1]};
      assert s[|s| - 1] !in Elements(init);
    }
  }

  lemma {:induction false} UniquePairsCardinality<N>(es: seq<Edge<N>>)
    requires UniquePairs(es)
    ensures |set e | e in es :: Pair(e)| == |es|
    decreases |es|
  {
    if es != [] {
      var init := es[..|es| - 1];
      var last := es[|es| - 1];
      UniquePairsCardinality(init);
      assert (set e | e in es :: Pair(e)) == (set e | e in init :: Pair(e)) + {Pair(last)};
      assert Pair(last) !in (set e | e in init :: Pair(e));
    }
  }

  /** `number_of_nodes` and `number_of_edges` count distinct nodes and distinct (source, target) pairs. */
  lemma {:induction false} ValidCounts<N>(g: Graph<N>)
    requires Valid(g)
    ensures |g.nodes| == |Elements(g.nodes)|
    ensures |g.edges| == |PairSet(g)|
  {
    DistinctCardinality(g.nodes);
    UniquePairsCardinality(g.edges);
  }

  // ---------------------------------------------------------------------
  // Degrees, as DiGraph.out_degree / in_degree / degree with or without weight="weight"

  /** The edge's "weight" attribute (default 1), or 1 when weights are not used. */
  function EdgeWeight<N>(e: Edge<N>, useWeight: bool): real {
    if useWeight && e.weight.Some? then e.weight.value else 1.0
  }

  /** `edges.data("weight", default=1)` values in edge order (all 1 when weights are not used). */
  function Weights<N>(es: seq<Edge<N>>, useWeight: bool): seq<real> {
    seq(|es|, i requires 0 <= i < |es| => EdgeWeight(es[i], useWeight))
  }

  function OutDegree<N(==)>(es: seq<Edge<N>>, v: N, useWeight: bool): real
    decreases |es|
  {
    if es == [] then 0.0
    else
      var last := es[|es| - 1];
      OutDegree(es[..|es| - 1], v, useWeight) + (if last.source == v then EdgeWeight(last, useWeight) else 0.0)
  }

  function InDegree<N(==)>(es: seq<Edge<N>>, v: N, useWeight: bool): real
    decreases |es|
  {
    if es == [] then 0.0
    else
      var last := es[|es| - 1];
      InDegree(es[..|es| - 1], v, useWeight) + (if last.target == v then EdgeWeight(last, useWeight) else 0.0)
  }

  /** Total degree: successors plus predecessors, so a self-loop counts twice. */
  function Degree<N(==)>(es: seq<Edge<N>>, v: N, useWeight: bool): real {
    OutDegree(es, v, useWeight) + InDegree(es, v, useWeight)
  }

  /** `[graph.out_degree(n) for n in graph.nodes()]`, and likewise for in- and total degree. */
  function OutDegrees<N(==)>(g: Graph<N>, useWeight: bool): seq<real> {
    seq(|g.nodes|, i requires 0 <= i < |g.nodes| => OutDegree(g.edges, g.nodes[i], useWeight))
  }

  function InDegrees<N(==)>(g: Graph<N>, useWeight: bool): seq<real> {
    seq(|g.nodes|, i requires 0 <= i < |g.nodes| => InDegree(g.edges, g.nodes[i], useWeight))
  }

  function Degrees<N(==)>(g: Graph<N>, useWeight: bool): seq<real> {
    seq(|g.nodes|, i requires 0 <= i < |g.nodes| => Degree(g.edges, g.nodes[i], useWeight))
  }

  ghost function Successors<N>(es: seq<Edge<N>>, v: N): set<N> {
    set e | e in es && e.source == v :: e.target
  }

  ghost function Predecessors<N>(es: seq<Edge<N>>, v: N): set<N> {
    set e | e in es && e.target == v :: e.source
  }

  // ---------------------------------------------------------------------
  // Degree lemmas

  /** Over distinct nodes, an amount `c` placed on the entry of `x` (and 0 elsewhere) sums to `c` if `x` is a node. */
  lemma {:induction false} SumIndicator<N>(ns: seq<N>, x: N, c: real, s: seq<real>)
    requires Distinct(ns) && |s| == |ns|
    requires forall i :: 0 <= i < |s| ==> s[i] == (if ns[i] == x then c else 0.0)
    ensures Sum(s) == (if x in ns then c else 0.0)
    decreases |ns|
  {
    if ns != [] {
      var n := |ns| - 1;
      SumIndicator(ns[..n], x, c, s[..n]);
      if ns[n] == x {
        assert x !in ns[..n] by {
          forall k | 0 <= k < n ensures ns[..n][k] != x { assert ns[k] != ns[n]; }
        }
      } else {
        assert x in ns <==> x in ns[..n] by {
          if x in ns { var k :| 0 <= k < |ns| && ns[k] == x; assert ns[..n][k] == x; }
        }
      }
    }
  }

  lemma {:induction false} WeightsSnoc<N>(es: seq<Edge<N>>, useWeight: bool)
    requires es != []
    ensures Sum(Weights(es, useWeight)) == Sum(Weights(es[..|es| - 1], useWeight)) + EdgeWeight(es[|es| - 1], useWeight)
  {
    assert Weights(es, useWeight)[..|es| - 1] == Weights(es[..|es| - 1], useWeight);
  }

  /** Per-node out-degrees over any distinct node list covering the sources add up to the total weight. */
  lemma {:induction false} OutDegreeSum<N>(ns: seq<N>, es: seq<Edge<N>>, useWeight: bool, d: seq<real>)
    requires Distinct(ns) && forall e :: e in es ==> e.source in ns
    requires |d| == |ns| && forall i :: 0 <= i < |ns| ==> d[i] == OutDegree(es, ns[i], useWeight)
    ensures Sum(d) == Sum(Weights(es, useWeight))
    decreases |es|
  {
    if es == [] {
      SumZeros(d);
    } else {
      var init := es[..|es| - 1];
      var last := es[|es| - 1];
      assert last in es;
      forall e | e in init ensures e.source in ns { assert e in es; }
      var a := seq(|ns|, i requires 0 <= i < |ns| => OutDegree(init, ns[i], useWeight));
      OutDegreeSum(ns, init, useWeight, a);
      var b := seq(|ns|, i requires 0 <= i < |ns| => if ns[i] == last.source then EdgeWeight(last, useWeight) else 0.0);
      SumPointwise(a, b, d);
      SumIndicator(ns, last.source, EdgeWeight(last, useWeight), b);
      WeightsSnoc(es, useWeight);
    }
  }

  lemma {:induction false} InDegreeSum<N>(ns: seq<N>, es: seq<Edge<N>>, useWeight: bool, d: seq<real>)
    requires Distinct(ns) && forall e :: e in es ==> e.target in ns
    requires |d| == |ns| && forall i :: 0 <= i < |ns| ==> d[i] == InDegree(es, ns[i], useWeight)
    ensures Sum(d) == Sum(Weights(es, useWeight))
    decreases |es|
  {
    if es == [] {
      SumZeros(d);
    } else {
      var init := es[..|es| - 1];
      var last := es[|es| - 1];
      assert last in es;
      forall e | e in init ensures e.target in ns { assert e in es; }
      var a := seq(|ns|, i requires 0 <= i < |ns| => InDegree(init, ns[i], useWeight));
      InDegreeSum(ns, init, useWeight, a);
      var b := seq(|ns|, i requires 0 <= i < |ns| => if ns[i] == last.target then EdgeWeight(last, useWeight) else 0.0);
      SumPointwise(a, b, d);
      SumIndicator(ns, last.target, EdgeWeight(last, useWeight), b);
      WeightsSnoc(es, useWeight);
    }
  }

  /**
   * Handshake: the out-degrees, and likewise the in-degrees, of a graph add up
   * to the total edge weight, and the total degrees to twice that.
   */
  lemma {:induction false} Handshake<N>(g: Graph<N>, useWeight: bool)
    requires Valid(g)
    ensures Sum(OutDegrees(g, useWeight)) == Sum(Weights(g.edges, useWeight))
    ensures Sum(InDegrees(g, useWeight)) == Sum(Weights(g.edges, useWeight))
    ensures Sum(Degrees(g, useWeight)) == 2.0 * Sum(Weights(g.edges, useWeight))
  {
    OutDegreeSum(g.nodes, g.edges, useWeight, OutDegrees(g, useWeight));
    InDegreeSum(g.nodes, g.edges, useWeight, InDegrees(g, useWeight));
    SumPointwise(OutDegrees(g, useWeight), InDegrees(g, useWeight), Degrees(g, useWeight));
  }

  /** The last of a list of edges with distinct pairs is the only one from its source to its target. */
  lemma {:induction false} LastPairIsNew<N>(es: seq<Edge<N>>)
    requires UniquePairs(es) && es != []
    ensures UniquePairs(es[..|es| - 1])
    ensures es[|es| - 1].target !in Successors(es[..|es| - 1], es[|es| - 1].source)
    ensures es[|es| - 1].source !in Predecessors(es[..|es| - 1], es[|es| - 1].target)
  {
    var init, last := es[..|es| - 1], es[|es| - 1];
    forall e | e in init && (e.source == last.source || e.target == last.target)
      ensures Pair(e) != Pair(last)
    {
      var k :| 0 <= k < |init| && init[k] == e;
      assert Pair(es[k]) != Pair(es[|es| - 1]);
    }
  }

  /** Without weights, out-degree counts the distinct successors and in-degree the distinct predecessors. */
  lemma {:induction false} UnweightedOutDegree<N>(es: seq<Edge<N>>, v: N)
    requires UniquePairs(es)
    ensures OutDegree(es, v, false) == |Successors(es, v)| as real
    decreases |es|
  {
    if es == [] {
      assert Successors(es, v) == {};
    } else {
      var init, last := es[..|es| - 1], es[|es| - 1];
      LastPairIsNew(es);
      UnweightedOutDegree(init, v);
      assert es == init + [last];
      if last.source == v {
        assert Successors(es, v) == Successors(init, v) + {last.target};
      } else {
        assert Successors(es, v) == Successors(init, v);
      }
    }
  }

  lemma {:induction false} UnweightedInDegree<N>(es: seq<Edge<N>>, v: N)
    requires UniquePairs(es)
    ensures InDegree(es, v, false) == |Predecessors(es, v)| as real
    decreases |es|
  {
    if es == [] {
      assert Predecessors(es, v) == {};
    } else {
      var init, last := es[..|es| - 1], es[|es| - 1];
      LastPairIsNew(es);
      UnweightedInDegree(init, v);
      assert es == init + [last];
      if last.target == v {
        assert Predecessors(es, v) == Predecessors(init, v) + {last.source};
      } else {
        assert Predecessors(es, v) == Predecessors(init, v);
      }
    }
  }
}
