/**
 * The older trainer's distribution builders: the same per-node degree lists
 * as the newer trainer, returned as plain lists without normalisation.
 */
module SmorePronetUtils {
  import opened Sums
  import opened DiGraph
  import opened Fixtures
  import PysmoreSamplerUtils

  /** `out_degree_distribution(graph, use_weight)`: one out-degree per node, in node order. */
  function OutDegreeDistribution<N(==)>(g: Graph<N>, useWeight: bool := true): (d: seq<real>)
    ensures |d| == |g.nodes|
  {
    OutDegrees(g, useWeight)
  }

  /** `in_degree_distribution(graph, use_weight)`: one in-degree per node, in node order. */
  function InDegreeDistribution<N(==)>(g: Graph<N>, useWeight: bool := true): (d: seq<real>)
    ensures |d| == |g.nodes|
  {
    InDegrees(g, useWeight)
  }

  /** `degree_distribution(graph, use_weight)`: one total degree per node, in node order. */
  function DegreeDistribution<N(==)>(g: Graph<N>, useWeight: bool := true): (d: seq<real>)
    ensures |d| == |g.nodes|
  {
    Degrees(g, useWeight)
  }

  /**
   * The lists are not normalised: the out- and in-degree lists each add up to
   * the total edge weight (the edge count without weights) and the degree
   * list to twice that; node i's degree is its out- plus its in-degree.
   */
  lemma {:induction false} RawTotals<N>(g: Graph<N>, useWeight: bool)
    requires Valid(g)
    ensures Sum(OutDegreeDistribution(g, useWeight)) == Sum(Weights(g.edges, useWeight))
    ensures Sum(InDegreeDistribution(g, useWeight)) == Sum(Weights(g.edges, useWeight))
    ensures Sum(DegreeDistribution(g, useWeight)) == 2.0 * Sum(Weights(g.edges, useWeight))
    ensures forall i :: 0 <= i < |g.nodes| ==>
      DegreeDistribution(g, useWeight)[i] == OutDegreeDistribution(g, useWeight)[i] + InDegreeDistribution(g, useWeight)[i]
  {
    Handshake(g, useWeight);
  }

  /** Without weights the lists count edges: the degree list then adds up to twice the edge count. */
  lemma {:induction false} UnweightedTotals<N>(g: Graph<N>)
    requires Valid(g)
    ensures Sum(DegreeDistribution(g, false)) == 2.0 * |g.edges| as real
    ensures Sum(OutDegreeDistribution(g, false)) == |g.edges| as real
  {
    Handshake(g, false);
    SumOfOnes(Weights(g.edges, false));
  }

  /** Without weights node i's out-degree is its number of successors and its in-degree its number of predecessors. */
  lemma {:induction false} UnweightedCounts<N>(g: Graph<N>, i: nat)
    requires Valid(g) && i < |g.nodes|
    ensures OutDegreeDistribution(g, false)[i] == |Successors(g.edges, g.nodes[i])| as real
    ensures InDegreeDistribution(g, false)[i] == |Predecessors(g.edges, g.nodes[i])| as real
  {
    UnweightedOutDegree(g.edges, g.nodes[i]);
    UnweightedInDegree(g.edges, g.nodes[i]);
  }

  /** The newer trainer's distributions are exactly these lists, normalised. */
  lemma {:induction false} NormalisedInNewerTrainer<N>(g: Graph<N>, useWeight: bool)
    ensures PysmoreSamplerUtils.OutDegreeDistribution(g, useWeight) == PysmoreSamplerUtils.Normalize(OutDegreeDistribution(g, useWeight))
    ensures PysmoreSamplerUtils.InDegreeDistribution(g, useWeight) == PysmoreSamplerUtils.Normalize(InDegreeDistribution(g, useWeight))
    ensures PysmoreSamplerUtils.DegreeDistribution(g, useWeight) == PysmoreSamplerUtils.Normalize(DegreeDistribution(g, useWeight))
  {
  }

  /** The out-degree lists of the shared fixture, weighted by default. */
  lemma OutDegreeExample()
    ensures OutDegreeDistribution(MfGraph()) == [0.4, 0.2, 0.4, 0.0]
    ensures OutDegreeDistribution(MfGraph(), false) == [2.0, 1.0, 1.0, 0.0]
  {
    MfGraphOutDegrees();
  }

  /** The in-degree lists of the shared fixture. */
  lemma InDegreeExample()
    ensures InDegreeDistribution(MfGraph()) == [0.0, 0.1, 0.3, 0.6]
    ensures InDegreeDistribution(MfGraph(), false) == [0.0, 1.0, 1.0, 2.0]
  {
    MfGraphInDegrees();
  }

  /** The degree lists of the shared fixture. */
  lemma DegreeExample()
    ensures DegreeDistribution(MfGraph()) == [0.4, 0.3, 0.7, 0.6]
    ensures DegreeDistribution(MfGraph(), false) == [2.0, 2.0, 2.0, 2.0]
  {
    MfGraphDegrees();
  }
}
