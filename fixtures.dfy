/**
 * The session graph the sampler and distribution tests share: the edge list
 * [[1, 2, 0.1], [1, 3, 0.3], [2, 4, 0.2], [3, 4, 0.4]] loaded by the older
 * trainer, so node ids are the doubles 1.0 … 4.0.
 */
module Fixtures {
  import opened Wrappers
  import opened DiGraph

  /** The graph `mf_graph` as the value the edge list builds. */
  function MfGraph(): (g: Graph<real>)
    ensures |g.nodes| == 4 && |g.edges| == 4
  {
    Graph([1.0, 2.0, 3.0, 4.0],
          [Edge(1.0, 2.0, Some(0.1)), Edge(1.0, 3.0, Some(0.3)), Edge(2.0, 4.0, Some(0.2)), Edge(3.0, 4.0, Some(0.4))])
  }

  /** Positions of the fixture's nodes. */
  lemma MfGraphRanks()
    ensures Rank(MfGraph().nodes, 1.0) == 0 && Rank(MfGraph().nodes, 2.0) == 1
    ensures Rank(MfGraph().nodes, 3.0) == 2 && Rank(MfGraph().nodes, 4.0) == 3
  {
    var ns := MfGraph().nodes;
    assert ns[1..] == [2.0, 3.0, 4.0] && ns[1..][1..] == [3.0, 4.0] && ns[1..][1..][1..] == [4.0];
  }

  /** The fixture's edges come grouped by source in node order. */
  lemma MfGraphGrouped()
    ensures Grouped(MfGraph().edges, MfGraph().nodes)
  {
    MfGraphRanks();
    var g := MfGraph();
    assert g.edges[0].source == 1.0 && g.edges[1].source == 1.0 && g.edges[2].source == 2.0 && g.edges[3].source == 3.0;
    GroupedFromAdjacent(g.edges, g.nodes);
  }

  /** The fixture's nodes are distinct and so are its (source, target) pairs. */
  lemma MfGraphDistinct()
    ensures Distinct(MfGraph().nodes) && UniquePairs(MfGraph().edges)
  {
    var g := MfGraph();
    assert forall i :: 0 <= i < 4 ==> g.nodes[i] == (i + 1) as real;
    assert forall i :: 0 <= i < 4 ==> Pair(g.edges[i]) == [(1.0, 2.0), (1.0, 3.0), (2.0, 4.0), (3.0, 4.0)][i];
  }

  /** The fixture is a well-formed graph: distinct nodes, endpoints present, distinct pairs, edges grouped by source. */
  lemma MfGraphValid()
    ensures Valid(MfGraph())
  {
    MfGraphDistinct();
    MfGraphGrouped();
    var g := MfGraph();
    assert forall e :: e in g.edges ==> e.source in g.nodes && e.target in g.nodes;
  }

  /** The fixture's edge list seen one edge shorter at a time, as the degree folds see it. */
  lemma MfGraphPrefixes()
    ensures MfGraph().edges[..3] == [Edge(1.0, 2.0, Some(0.1)), Edge(1.0, 3.0, Some(0.3)), Edge(2.0, 4.0, Some(0.2))]
    ensures MfGraph().edges[..3][..2] == [Edge(1.0, 2.0, Some(0.1)), Edge(1.0, 3.0, Some(0.3))]
    ensures MfGraph().edges[..3][..2][..1] == [Edge(1.0, 2.0, Some(0.1))]
    ensures MfGraph().edges[..3][..2][..1][..0] == []
  {
  }

  /** Weighted out-degrees of the fixture: 0.1 + 0.3, 0.2, 0.4 and 0. */
  lemma MfGraphOutDegrees()
    ensures OutDegrees(MfGraph(), true) == [0.4, 0.2, 0.4, 0.0]
    ensures OutDegrees(MfGraph(), false) == [2.0, 1.0, 1.0, 0.0]
  {
    MfGraphPrefixes();
  }

  /** In-degrees of the fixture: 0, 0.1, 0.3 and 0.2 + 0.4. */
  lemma MfGraphInDegrees()
    ensures InDegrees(MfGraph(), true) == [0.0, 0.1, 0.3, 0.6]
    ensures InDegrees(MfGraph(), false) == [0.0, 1.0, 1.0, 2.0]
  {
    MfGraphPrefixes();
  }

  /** Total degrees of the fixture, each node's in- plus out-degree. */
  lemma MfGraphDegrees()
    ensures Degrees(MfGraph(), true) == [0.4, 0.3, 0.7, 0.6]
    ensures Degrees(MfGraph(), false) == [2.0, 2.0, 2.0, 2.0]
  {
    MfGraphOutDegrees();
    MfGraphInDegrees();
    var g := MfGraph();
    assert forall i :: 0 <= i < 4 ==> Degrees(g, true)[i] == OutDegrees(g, true)[i] + InDegrees(g, true)[i];
    assert forall i :: 0 <= i < 4 ==> Degrees(g, false)[i] == OutDegrees(g, false)[i] + InDegrees(g, false)[i];
  }

  /** Edge weights of the fixture in edge order. */
  lemma MfGraphWeights()
    ensures Weights(MfGraph().edges, true) == [0.1, 0.3, 0.2, 0.4]
    ensures Weights(MfGraph().edges, false) == [1.0, 1.0, 1.0, 1.0]
  {
  }
}
