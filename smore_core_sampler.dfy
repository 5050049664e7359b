/**
 * The older trainer's core edge sampler: it caches the graph's counts, two
 * node distributions computed by `smore.core.utils` (not part of this model,
 * so they are passed in as functions) and the raw edge weights. Its sampling
 * method is an empty stub.
 */
module SmoreCoreSampler {
  import opened Wrappers
  import opened Sums
  import opened DiGraph
  import opened Fixtures

  /** `EdgeSampler(graph)` of the older core package. */
  class EdgeSampler<N(==)> {
    const graph: Graph<N>
    const nNodes: nat
    const nEdges: nat
    const nodeDistribution: seq<real>
    const negativeDistribution: seq<real>
    const edgeDistribution: seq<real>

    /**
     * The counts are the graph's, and the edge list is
     * `[w for _, _, w in graph.edges.data("weight", default=1)]`.
     */
    ghost predicate Cached() {
      nNodes == |graph.nodes| && nEdges == |graph.edges| && edgeDistribution == Weights(graph.edges, true)
    }

    /**
     * `degreeDistribution` and `inDegreeDistribution` stand for the functions
     * of the same names in `smore.core.utils`.
     */
    constructor(graph: Graph<N>, degreeDistribution: Graph<N> -> seq<real>, inDegreeDistribution: Graph<N> -> seq<real>)
      ensures this.graph == graph && Cached()
      ensures nodeDistribution == degreeDistribution(graph)
      ensures negativeDistribution == inDegreeDistribution(graph)
    {
      this.graph := graph;
      nNodes := |graph.nodes|;
      nEdges := |graph.edges|;
      edgeDistribution := Weights(graph.edges, true);
      nodeDistribution := degreeDistribution(graph);
      negativeDistribution := inDegreeDistribution(graph);
    }

    /** `sample_edge()`: a stub with only a docstring, so it returns None and changes nothing. */
    method SampleEdge() returns (r: Option<(N, N)>)
      ensures r.None?
    {
      r := None;
    }

    /**
     * The cached counts are those of distinct nodes and distinct pairs, the
     * edge list has one entry per edge holding its weight (1 when it has
     * none), and it is not normalised: it adds up to the total weight, which
     * is also the sum of the graph's out-degrees.
     */
    lemma CachedFields()
      requires Cached() && Valid(graph)
      ensures nNodes == |Elements(graph.nodes)| && nEdges == |PairSet(graph)|
      ensures |edgeDistribution| == nEdges
      ensures forall i :: 0 <= i < nEdges ==>
        edgeDistribution[i] == (if graph.edges[i].weight.Some? then graph.edges[i].weight.value else 1.0)
      ensures Sum(edgeDistribution) == Sum(OutDegrees(graph, true))
    {
      ValidCounts(graph);
      Handshake(graph, true);
    }
  }

  /** On the shared fixture the sampler counts 4 nodes and 4 edges and keeps the raw weights. */
  lemma {:induction false} SamplerFixture(s: EdgeSampler<real>)
    requires s.Cached() && s.graph == MfGraph()
    ensures s.nNodes == 4 && s.nEdges == 4 && s.edgeDistribution == [0.1, 0.3, 0.2, 0.4]
  {
    MfGraphWeights();
  }
}
