/**
 * The newer trainer's distribution builders: per-node degree vectors and the
 * per-edge weight vector of a graph, each divided by its own sum so that it
 * can serve as the probability vector of a random draw.
 */
module PysmoreSamplerUtils {
  import opened Sums
  import opened DiGraph
  import opened Fixtures

  /**
   * A float array as `array / np.sum(array)` leaves it: finite entries, or,
   * when the sum is zero, an array of `size` entries that are all NaN or
   * infinite (0/0 and x/0), whose own sum is NaN.
   */
  datatype Distribution = Finite(values: seq<real>) | NonFinite(size: nat)

  function Length(d: Distribution): nat {
    match d
    case Finite(values) => |values|
    case NonFinite(size) => size
  }

  /**
   * `normalize(array)`: the array divided by its sum. An empty array stays
   * empty (numpy divides nothing), a non-empty one summing to zero becomes
   * non-finite.
   */
  function Normalize(a: seq<real>): (d: Distribution)
    ensures Length(d) == |a|
    ensures d.NonFinite? <==> a != [] && Sum(a) == 0.0
  {
    if a != [] && Sum(a) == 0.0 then NonFinite(|a|)
    else Finite(seq(|a|, i requires 0 <= i < |a| => a[i] / Sum(a)))
  }

  lemma {:induction false} NormalizeEntry(a: seq<real>, i: nat)
    requires i < |a| && Sum(a) != 0.0
    ensures Normalize(a).Finite? && Normalize(a).values[i] == a[i] / Sum(a)
  {
  }

  /** Multiplying a finite result back by the input's sum recovers the input. */
  lemma {:induction false} NormalizeInverse(a: seq<real>)
    requires Normalize(a).Finite?
    ensures forall i :: 0 <= i < |a| ==> Normalize(a).values[i] * Sum(a) == a[i]
  {
    forall i | 0 <= i < |a| ensures Normalize(a).values[i] * Sum(a) == a[i] {
      NormalizeEntry(a, i);
      DivTimes(a[i], Sum(a), Normalize(a).values[i]);
    }
  }

  /** A finite distribution adds up to one, unless it is empty. */
  lemma {:induction false} NormalizeSumsToOne(a: seq<real>)
    requires Sum(a) != 0.0
    ensures Normalize(a).Finite? && Sum(Normalize(a).values) == 1.0
  {
    SumDivided(a, Sum(a), Normalize(a).values);
    SelfRatio(Sum(a), Sum(Normalize(a).values));
  }

  /** Normalising keeps every ratio between entries. */
  lemma {:induction false} NormalizeRatios(a: seq<real>, i: nat, j: nat)
    requires i < |a| && j < |a| && Sum(a) != 0.0
    ensures a[i] * Normalize(a).values[j] == a[j] * Normalize(a).values[i]
  {
    NormalizeEntry(a, i);
    NormalizeEntry(a, j);
    CrossRatio(a[i], a[j], Sum(a), Normalize(a).values[i], Normalize(a).values[j]);
  }

  /** Non-negative weights with a positive total give probabilities in [0, 1]. */
  lemma {:induction false} NormalizeProbabilities(a: seq<real>)
    requires forall i :: 0 <= i < |a| ==> a[i] >= 0.0
    requires Sum(a) > 0.0
    ensures forall i :: 0 <= i < |a| ==> 0.0 <= Normalize(a).values[i] <= 1.0
  {
    forall i | 0 <= i < |a| ensures 0.0 <= Normalize(a).values[i] <= 1.0 {
      SumAtLeastEntry(a, i);
      DivAtMostOne(a[i], Sum(a));
    }
  }

  /** Scaling the input by a non-zero factor does not change the result. */
  lemma {:induction false} NormalizeScaled(a: seq<real>, c: real, b: seq<real>)
    requires c != 0.0
    requires |b| == |a| && forall i :: 0 <= i < |a| ==> b[i] == c * a[i]
    ensures Normalize(b) == Normalize(a)
  {
    SumScaled(a, c, b);
    if Sum(a) != 0.0 {
      forall i | 0 <= i < |a| ensures Normalize(b).values[i] == Normalize(a).values[i] {
        CancelFactor(a[i], Sum(a), c);
      }
    }
  }

  /** A distribution that sums to one is its own normalisation. */
  lemma {:induction false} NormalizeIdempotent(a: seq<real>)
    requires Sum(a) != 0.0
    ensures Normalize(Normalize(a).values) == Normalize(a)
  {
    NormalizeSumsToOne(a);
  }

  /** `normalize([2, 4, 4])` is `[0.2, 0.4, 0.4]`. */
  lemma NormalizeExample()
    ensures Normalize([2.0, 4.0, 4.0]) == Finite([0.2, 0.4, 0.4])
  {
    SumOfThree(2.0, 4.0, 4.0);
  }

  lemma {:induction false} DivTimes(x: real, s: real, v: real)
    requires s != 0.0 && v == x / s
    ensures v * s == x
  {
  }

  lemma {:induction false} CrossRatio(x: real, y: real, s: real, vx: real, vy: real)
    requires s != 0.0 && vx == x / s && vy == y / s
    ensures x * vy == y * vx
  {
  }

  lemma {:induction false} SelfRatio(s: real, v: real)
    requires s != 0.0 && v == s / s
    ensures v == 1.0
  {
  }

  lemma {:induction false} DivAtMostOne(x: real, s: real)
    requires 0.0 <= x <= s && s > 0.0
    ensures 0.0 <= x / s <= 1.0
  {
  }

  lemma {:induction false} CancelFactor(x: real, s: real, c: real)
    requires s != 0.0 && c != 0.0
    ensures (c * x) / (c * s) == x / s
  {
  }

  // ---------------------------------------------------------------------
  // The four builders

  /** `out_degree_distribution(graph, use_weight)`: out-degrees in node order, normalised. */
  function OutDegreeDistribution<N(==)>(g: Graph<N>, useWeight: bool := true): (d: Distribution)
    ensures Length(d) == |g.nodes|
  {
    Normalize(OutDegrees(g, useWeight))
  }

  /** `in_degree_distribution(graph, use_weight)`: in-degrees in node order, normalised. */
  function InDegreeDistribution<N(==)>(g: Graph<N>, useWeight: bool := true): (d: Distribution)
    ensures Length(d) == |g.nodes|
  {
    Normalize(InDegrees(g, useWeight))
  }

  /** `degree_distribution(graph, use_weight)`: total degrees in node order, normalised. */
  function DegreeDistribution<N(==)>(g: Graph<N>, useWeight: bool := true): (d: Distribution)
    ensures Length(d) == |g.nodes|
  {
    Normalize(Degrees(g, useWeight))
  }

  /** `edge_distribution(graph, use_weight)`: edge weights (default 1, or all 1) in edge order, normalised. */
  function EdgeDistribution<N>(g: Graph<N>, useWeight: bool := true): (d: Distribution)
    ensures Length(d) == |g.edges|
  {
    Normalize(Weights(g.edges, useWeight))
  }

  /**
   * Node distributions are finite exactly when the graph has no nodes or its
   * total edge weight is non-zero; the edge distribution when it has no edges
   * or the same total is non-zero.
   */
  lemma {:induction false} DistributionsFinite<N>(g: Graph<N>, useWeight: bool)
    requires Valid(g)
    ensures OutDegreeDistribution(g, useWeight).Finite? <==> g.nodes == [] || Sum(Weights(g.edges, useWeight)) != 0.0
    ensures InDegreeDistribution(g, useWeight).Finite? <==> g.nodes == [] || Sum(Weights(g.edges, useWeight)) != 0.0
    ensures DegreeDistribution(g, useWeight).Finite? <==> g.nodes == [] || Sum(Weights(g.edges, useWeight)) != 0.0
    ensures EdgeDistribution(g, useWeight).Finite? <==> g.edges == [] || Sum(Weights(g.edges, useWeight)) != 0.0
  {
    Handshake(g, useWeight);
  }

  /** With a non-zero total weight W, node i's out-probability is its out-degree over W. */
  lemma {:induction false} OutDegreeShare<N>(g: Graph<N>, useWeight: bool, i: nat)
    requires Valid(g) && Sum(Weights(g.edges, useWeight)) != 0.0 && i < |g.nodes|
    ensures OutDegreeDistribution(g, useWeight).Finite?
         && OutDegreeDistribution(g, useWeight).values[i] == OutDegree(g.edges, g.nodes[i], useWeight) / Sum(Weights(g.edges, useWeight))
  {
    Handshake(g, useWeight);
  }

  /** With a non-zero total weight W, node i's in-probability is its in-degree over W. */
  lemma {:induction false} InDegreeShare<N>(g: Graph<N>, useWeight: bool, i: nat)
    requires Valid(g) && Sum(Weights(g.edges, useWeight)) != 0.0 && i < |g.nodes|
    ensures InDegreeDistribution(g, useWeight).Finite?
         && InDegreeDistribution(g, useWeight).values[i] == InDegree(g.edges, g.nodes[i], useWeight) / Sum(Weights(g.edges, useWeight))
  {
    Handshake(g, useWeight);
  }

  /**
   * With a non-zero total weight W, node i's total-degree probability is its
   * degree over 2W, the mean of its out- and in-probabilities.
   */
  lemma {:induction false} DegreeShare<N>(g: Graph<N>, useWeight: bool, i: nat)
    requires Valid(g) && Sum(Weights(g.edges, useWeight)) != 0.0 && i < |g.nodes|
    ensures DegreeDistribution(g, useWeight).Finite?
         && DegreeDistribution(g, useWeight).values[i] == Degree(g.edges, g.nodes[i], useWeight) / (2.0 * Sum(Weights(g.edges, useWeight)))
    ensures OutDegreeDistribution(g, useWeight).Finite? && InDegreeDistribution(g, useWeight).Finite?
         && DegreeDistribution(g, useWeight).values[i]
            == (OutDegreeDistribution(g, useWeight).values[i] + InDegreeDistribution(g, useWeight).values[i]) / 2.0
  {
    Handshake(g, useWeight);
    OutDegreeShare(g, useWeight, i);
    InDegreeShare(g, useWeight, i);
    MeanOfShares(OutDegree(g.edges, g.nodes[i], useWeight), InDegree(g.edges, g.nodes[i], useWeight), Sum(Weights(g.edges, useWeight)));
  }

  lemma {:induction false} MeanOfShares(x: real, y: real, w: real)
    requires w != 0.0
    ensures (x + y) / (2.0 * w) == (x / w + y / w) / 2.0
  {
  }

  /**
   * With a non-zero total weight the edge distribution is a finite
   * probability vector that keeps the ratio of every two edges' weights:
   * edge i is drawn in proportion to its weight.
   */
  lemma {:induction false} EdgeDistributionProportional<N>(g: Graph<N>, useWeight: bool)
    requires Sum(Weights(g.edges, useWeight)) != 0.0
    ensures EdgeDistribution(g, useWeight).Finite?
    ensures Sum(EdgeDistribution(g, useWeight).values) == 1.0
    ensures forall i, j :: 0 <= i < |g.edges| && 0 <= j < |g.edges| ==>
      EdgeWeight(g.edges[i], useWeight) * EdgeDistribution(g, useWeight).values[j]
        == EdgeWeight(g.edges[j], useWeight) * EdgeDistribution(g, useWeight).values[i]
  {
    var a := Weights(g.edges, useWeight);
    NormalizeSumsToOne(a);
    forall i, j | 0 <= i < |g.edges| && 0 <= j < |g.edges|
      ensures a[i] * Normalize(a).values[j] == a[j] * Normalize(a).values[i]
    {
      NormalizeRatios(a, i, j);
    }
  }

  /** Without weights every edge is equally likely, and node distributions are finite iff there is an edge or no node. */
  lemma {:induction false} UnweightedDistributions<N>(g: Graph<N>)
    requires Valid(g)
    ensures g.edges != [] ==> EdgeDistribution(g, false) == Finite(seq(|g.edges|, i => 1.0 / |g.edges| as real))
    ensures OutDegreeDistribution(g, false).Finite? <==> g.nodes == [] || g.edges != []
  {
    SumOfOnes(Weights(g.edges, false));
    DistributionsFinite(g, false);
  }

  // ---------------------------------------------------------------------
  // The shared fixture graph

  /** Weighted out-degree distribution of the fixture: [0.4, 0.2, 0.4, 0]; unweighted: [2, 1, 1, 0] / 4. */
  lemma OutDegreeExample()
    ensures OutDegreeDistribution(MfGraph()) == Finite([0.4, 0.2, 0.4, 0.0])
    ensures OutDegreeDistribution(MfGraph(), false) == Finite([0.5, 0.25, 0.25, 0.0])
  {
    MfGraphOutDegrees();
    SumOfFour(0.4, 0.2, 0.4, 0.0);
    SumOfFour(2.0, 1.0, 1.0, 0.0);
  }

  /** In-degree distribution of the fixture: [0, 0.1, 0.3, 0.6]; unweighted: [0, 1, 1, 2] / 4. */
  lemma InDegreeExample()
    ensures InDegreeDistribution(MfGraph()) == Finite([0.0, 0.1, 0.3, 0.6])
    ensures InDegreeDistribution(MfGraph(), false) == Finite([0.0, 0.25, 0.25, 0.5])
  {
    MfGraphInDegrees();
    SumOfFour(0.0, 0.1, 0.3, 0.6);
    SumOfFour(0.0, 1.0, 1.0, 2.0);
  }

  /** Degree distribution of the fixture: [0.4, 0.3, 0.7, 0.6] / 2; unweighted: uniform. */
  lemma DegreeExample()
    ensures DegreeDistribution(MfGraph()) == Finite([0.2, 0.15, 0.35, 0.3])
    ensures DegreeDistribution(MfGraph(), false) == Finite([0.25, 0.25, 0.25, 0.25])
  {
    MfGraphDegrees();
    SumOfFour(0.4, 0.3, 0.7, 0.6);
    SumOfFour(2.0, 2.0, 2.0, 2.0);
  }

  /** Edge distribution of the fixture: [0.1, 0.3, 0.2, 0.4]; unweighted: uniform. */
  lemma EdgeExample()
    ensures EdgeDistribution(MfGraph()) == Finite([0.1, 0.3, 0.2, 0.4])
    ensures EdgeDistribution(MfGraph(), false) == Finite([0.25, 0.25, 0.25, 0.25])
  {
    MfGraphWeights();
    SumOfFour(0.1, 0.3, 0.2, 0.4);
    SumOfFour(1.0, 1.0, 1.0, 1.0);
  }
}
