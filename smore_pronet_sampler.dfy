/**
 * The older trainer's pronet edge sampler: it caches the raw total-degree
 * and in-degree lists of the graph and its raw edge weights. Its sampling
 * method is an empty stub.
 */
module SmorePronetSampler {
  import opened Wrappers
  import opened Sums
  import opened DiGraph
  import opened Fixtures
  import SmorePronetUtils

  /** `EdgeSampler(graph)` of the older pronet package. */
  class EdgeSampler<N(==)> {
    const graph: Graph<N>
    const nodeDistribution: seq<real>
    const negativeDistribution: seq<real>
    const edgeDistribution: seq<real>

    /**
     * The node lists are the weighted degree and in-degree lists of the graph,
     * and the edge list is `[w for _, _, w in graph.edges.data("weight", default=1)]`.
     */
    ghost predicate Cached() {
      && nodeDistribution == SmorePronetUtils.DegreeDistribution(graph)
      && negativeDistribution == SmorePronetUtils.InDegreeDistribution(graph)
      && edgeDistribution == Weights(graph.edges, true)
    }

    constructor(graph: Graph<N>)
      ensures this.graph == graph && Cached()
    {
      this.graph := graph;
      nodeDistribution := SmorePronetUtils.DegreeDistribution(graph);
      negativeDistribution := SmorePronetUtils.InDegreeDistribution(graph);
      edgeDistribution := Weights(graph.edges, true);
    }

    /** `sample_edge()`: its body is `pass`, so it returns None and changes nothing. */
    method SampleEdge() returns (r: Option<(N, N)>)
      ensures r.None?
    {
      r := None;
    }

    /**
     * One node entry per node and one edge entry per edge, none of them
     * normalised: the in-degree list adds up to the total edge weight and the
     * degree list to twice that.
     */
    lemma CachedTotals()
      requires Cached() && Valid(graph)
      ensures |nodeDistribution| == |negativeDistribution| == |graph.nodes| && |edgeDistribution| == |graph.edges|
      ensures Sum(negativeDistribution) == Sum(edgeDistribution)
      ensures Sum(nodeDistribution) == 2.0 * Sum(edgeDistribution)
    {
      SmorePronetUtils.RawTotals(graph, true);
    }

    /** Node i's entry is its weighted degree, the sum of its in- and out-weights. */
    lemma {:induction false} NodeEntries(i: nat)
      requires Cached() && i < |graph.nodes|
      ensures nodeDistribution[i] == InDegree(graph.edges, graph.nodes[i], true) + OutDegree(graph.edges, graph.nodes[i], true)
      ensures negativeDistribution[i] == InDegree(graph.edges, graph.nodes[i], true)
    {
    }
  }

  /** On the shared fixture: degrees [0.4, 0.3, 0.7, 0.6], in-degrees [0, 0.1, 0.3, 0.6], weights [0.1, 0.3, 0.2, 0.4]. */
  lemma {:induction false} SamplerFixture(s: EdgeSampler<real>)
    requires s.Cached() && s.graph == MfGraph()
    ensures && s.nodeDistribution == [0.4, 0.3, 0.7, 0.6]
      && s.negativeDistribution == [0.0, 0.1, 0.3, 0.6]
      && s.edgeDistribution == [0.1, 0.3, 0.2, 0.4]
  {
    MfGraphDegrees();
    MfGraphInDegrees();
    MfGraphWeights();
  }
}
