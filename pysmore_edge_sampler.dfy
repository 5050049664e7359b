/**
 * The newer trainer's edge sampler: it caches the graph's counts and
 * distributions, and draws training edges with numpy's `Generator.choice`,
 * weighting each graph edge by its share of the total edge weight.
 *
 * The generator's randomness is an input: `choice` turns one uniform double
 * in [0, 1) per requested row into an index by searching the running totals
 * of the probabilities, and those doubles are what the caller supplies.
 */
module PysmoreEdgeSampler {
  import opened Wrappers
  import opened Sums
  import opened DiGraph
  import opened Fixtures
  import opened PysmoreSamplerUtils

  // ---------------------------------------------------------------------
  // numpy's Generator.choice(a, size, p=p) with replacement

  /** The ValueErrors `choice` raises, in the order it checks for them. */
  datatype ChoiceError =
    | EmptyPopulation     // a is empty and samples were requested
    | SizeMismatch        // a and p differ in length
    | ContainsNaN         // the probabilities add up to NaN
    | Negative            // some probability is below zero
    | NotSumToOne         // the probabilities do not add up to one
    | NegativeDimensions  // the requested size is negative

  predicate Sorted(c: seq<real>) {
    forall i, j :: 0 <= i < j < |c| ==> c[i] <= c[j]
  }

  predicate NonNegative(p: seq<real>) {
    forall i :: 0 <= i < |p| ==> p[i] >= 0.0
  }

  /** `cdf = p.cumsum(); cdf /= cdf[-1]`. */
  function Cdf(p: seq<real>): (c: seq<real>)
    requires Sum(p) != 0.0
    ensures |c| == |p|
  {
    seq(|p|, i requires 0 <= i < |p| => Sum(p[..i + 1]) / Sum(p))
  }

  /** `cdf.searchsorted(u, side="right")` on a sorted `cdf`: how many entries are at most `u`. */
  function SearchSortedRight(cdf: seq<real>, u: real): (k: nat)
    ensures k <= |cdf|
  {
    if cdf == [] then 0
    else (if cdf[0] <= u then 1 else 0) + SearchSortedRight(cdf[1..], u)
  }

  /** The index `choice` draws for the uniform sample `u`. */
  function DrawIndex(p: seq<real>, u: real): (k: nat)
    requires Sum(p) != 0.0
    ensures k <= |p|
  {
    SearchSortedRight(Cdf(p), u)
  }

  /** In a sorted array the entries before the search result are at most `u`, the rest above it. */
  lemma {:induction false} SearchSortedSplit(c: seq<real>, u: real)
    requires Sorted(c)
    ensures forall j :: 0 <= j < SearchSortedRight(c, u) ==> c[j] <= u
    ensures forall j :: SearchSortedRight(c, u) <= j < |c| ==> u < c[j]
  {
    if c != [] {
      var t := c[1..];
      SearchSortedSplit(t, u);
      assert forall j :: 1 <= j < |c| ==> c[j] == t[j - 1];
      if c[0] > u && t != [] {
        assert u < t[0];
      }
    }
  }

  /** Once the probabilities add up to one, the normalised running totals are the plain running totals. */
  lemma {:induction false} CdfOfDistribution(p: seq<real>)
    requires Sum(p) == 1.0
    ensures forall i :: 0 <= i < |p| ==> Cdf(p)[i] == Sum(p[..i + 1])
  {
  }

  /**
   * For non-negative probabilities adding up to one and `u` in [0, 1), the
   * drawn index is a valid one, and it is the unique i whose interval
   * [p[0] + … + p[i-1], p[0] + … + p[i]) holds `u`: index i is drawn for a
   * set of samples of total length p[i].
   */
  lemma {:induction false} DrawIndexSpec(p: seq<real>, u: real)
    requires NonNegative(p) && Sum(p) == 1.0
    requires 0.0 <= u < 1.0
    ensures DrawIndex(p, u) < |p|
    ensures Sum(p[..DrawIndex(p, u)]) <= u < Sum(p[..DrawIndex(p, u) + 1])
  {
    var c, k := Cdf(p), DrawIndex(p, u);
    CdfOfDistribution(p);
    forall i, j | 0 <= i < j < |c| ensures c[i] <= c[j] {
      PrefixSumMonotone(p, i + 1, j + 1);
    }
    SearchSortedSplit(c, u);
    assert p != [];
    assert p[..|p|] == p;
    assert c[|p| - 1] == 1.0;
    assert k < |p| && u < c[k];
    if k > 0 {
      assert c[k - 1] <= u;
    }
  }

  /** The interval condition picks exactly one index. */
  lemma {:induction false} DrawIndexUnique(p: seq<real>, u: real, i: nat)
    requires NonNegative(p) && Sum(p) == 1.0
    requires 0.0 <= u < 1.0
    ensures DrawIndex(p, u) == i <==> i < |p| && Sum(p[..i]) <= u < Sum(p[..i + 1])
  {
    DrawIndexSpec(p, u);
    var k := DrawIndex(p, u);
    if i < |p| && Sum(p[..i]) <= u < Sum(p[..i + 1]) {
      if i < k {
        PrefixSumMonotone(p, i + 1, k);
      } else if k < i {
        PrefixSumMonotone(p, k + 1, i);
      }
    }
  }

  /** An index of probability zero is never drawn. */
  lemma {:induction false} ZeroProbabilityNeverDrawn(p: seq<real>, u: real, i: nat)
    requires NonNegative(p) && Sum(p) == 1.0
    requires 0.0 <= u < 1.0
    requires i < |p| && p[i] == 0.0
    ensures DrawIndex(p, u) != i
  {
    DrawIndexUnique(p, u, i);
    SumPrefixStep(p, i);
  }

  /** Samples every one of which is a double in [0, 1), as `Generator.random` returns them. */
  predicate UnitSamples(uniforms: seq<real>) {
    forall k :: 0 <= k < |uniforms| ==> 0.0 <= uniforms[k] < 1.0
  }

  /** `size` as the number of samples drawn, zero when it is negative (the call fails before drawing). */
  function Requested(size: int): nat {
    if size >= 0 then size else 0
  }

  /** The element of `population` the sample `u` selects. */
  function Pick<T>(population: seq<T>, p: seq<real>, u: real): T
    requires |p| == |population| && NonNegative(p) && Sum(p) == 1.0
    requires 0.0 <= u < 1.0
  {
    DrawIndexSpec(p, u);
    population[DrawIndex(p, u)]
  }

  /**
   * `Generator.choice(population, size=size, p=p)` with replacement: the
   * checks in numpy's order, then one row per uniform sample.
   */
  function Choice<T>(population: seq<T>, size: int, p: Distribution, uniforms: seq<real>): (r: Result<seq<T>, ChoiceError>)
    requires |uniforms| == Requested(size) && UnitSamples(uniforms)
  {
    if |population| == 0 && size != 0 then Failure(EmptyPopulation)
    else if Length(p) != |population| then Failure(SizeMismatch)
    else if p.NonFinite? then Failure(ContainsNaN)
    else if !NonNegative(p.values) then Failure(Negative)
    else if Sum(p.values) != 1.0 then Failure(NotSumToOne)
    else if size < 0 then Failure(NegativeDimensions)
    else Success(seq(size, k requires 0 <= k < size => Pick(population, p.values, uniforms[k])))
  }

  /**
   * A successful draw has `size` rows; row k is the population element at
   * the index whose probability interval holds sample k, and that index has
   * a positive probability. It succeeds exactly when the checks pass.
   */
  lemma {:induction false} ChoiceSpec<T>(population: seq<T>, size: int, p: Distribution, uniforms: seq<real>)
    requires |uniforms| == Requested(size) && UnitSamples(uniforms)
    ensures Choice(population, size, p, uniforms).Success? <==>
      && size >= 0 && (|population| > 0 || size == 0) && p.Finite? && |p.values| == |population|
      && NonNegative(p.values) && Sum(p.values) == 1.0
    ensures Choice(population, size, p, uniforms).Success? ==>
      var rows := Choice(population, size, p, uniforms).value;
      && |rows| == size
      && forall k :: 0 <= k < size ==>
           exists i :: 0 <= i < |population| && rows[k] == population[i] && p.values[i] > 0.0
                    && Sum(p.values[..i]) <= uniforms[k] < Sum(p.values[..i + 1])
  {
    var r := Choice(population, size, p, uniforms);
    if r.Success? {
      forall k | 0 <= k < size
        ensures exists i :: 0 <= i < |population| && r.value[k] == population[i] && p.values[i] > 0.0
                    && Sum(p.values[..i]) <= uniforms[k] < Sum(p.values[..i + 1])
      {
        var i := DrawIndex(p.values, uniforms[k]);
        DrawIndexSpec(p.values, uniforms[k]);
        SumPrefixStep(p.values, i);
      }
    }
  }

  // ---------------------------------------------------------------------
  // The sampler

  /** The rows `sample_edges` returns: `[source, target, weight]` triples, or `[source, target]` pairs. */
  datatype Rows<N> = WeightedRows(triples: seq<(N, N, real)>) | PairRows(pairs: seq<(N, N)>)

  function RowCount<N>(rows: Rows<N>): nat {
    match rows
    case WeightedRows(triples) => |triples|
    case PairRows(pairs) => |pairs|
  }

  /** The triple of an edge carrying a "weight" attribute. */
  function Triple<N>(e: Edge<N>): (N, N, real)
    requires e.weight.Some?
  {
    (e.source, e.target, e.weight.value)
  }

  /** `[[s, t, data["weight"]] for s, t, data in graph.edges(data=True) if "weight" in data]`. */
  function WeightedCandidates<N>(es: seq<Edge<N>>): (c: seq<(N, N, real)>)
    ensures |c| <= |es|
    decreases |es|
  {
    if es == [] then []
    else
      var last := es[|es| - 1];
      WeightedCandidates(es[..|es| - 1]) + (if last.weight.Some? then [Triple(last)] else [])
  }

  /** `list(graph.edges)`: the (source, target) pairs in edge order. */
  function PairCandidates<N>(es: seq<Edge<N>>): (c: seq<(N, N)>)
    ensures |c| == |es|
  {
    seq(|es|, i requires 0 <= i < |es| => Pair(es[i]))
  }

  predicate AllWeighted<N>(es: seq<Edge<N>>) {
    forall i :: 0 <= i < |es| ==> es[i].weight.Some?
  }

  /**
   * The weighted candidates are the weighted edges in edge order: they line
   * up with the edges, entry for entry, exactly when every edge carries a
   * weight; otherwise there are fewer of them than edges.
   */
  lemma {:induction false} WeightedCandidatesAlign<N>(es: seq<Edge<N>>)
    ensures |WeightedCandidates(es)| == |es| <==> AllWeighted(es)
    ensures AllWeighted(es) ==> forall i :: 0 <= i < |es| ==> WeightedCandidates(es)[i] == Triple(es[i])
    decreases |es|
  {
    if es != [] {
      var init, last := es[..|es| - 1], es[|es| - 1];
      WeightedCandidatesAlign(init);
      assert AllWeighted(es) <==> AllWeighted(init) && last.weight.Some? by {
        if AllWeighted(init) && last.weight.Some? {
          forall i | 0 <= i < |es| ensures es[i].weight.Some? {
            if i < |init| { assert es[i] == init[i]; }
          }
        }
      }
    }
  }

  /** Every weighted candidate is the triple of some weighted edge. */
  lemma {:induction false} WeightedCandidatesAreEdges<N>(es: seq<Edge<N>>, c: (N, N, real))
    requires c in WeightedCandidates(es)
    ensures exists e :: e in es && e.weight.Some? && c == Triple(e)
    decreases |es|
  {
    var init, last := es[..|es| - 1], es[|es| - 1];
    if c in WeightedCandidates(init) {
      WeightedCandidatesAreEdges(init, c);
      var e :| e in init && e.weight.Some? && c == Triple(e);
      assert e in es;
    } else {
      assert last in es;
    }
  }

  /** `EdgeSampler(graph)`: the graph with its counts and distributions computed once. */
  class EdgeSampler<N(==)> {
    const graph: Graph<N>
    const nNodes: nat
    const nEdges: nat
    const nodeDistribution: Distribution
    const negativeDistribution: Distribution
    const edgeDistribution: Distribution

    /** The cached fields hold what `__init__` computed from the graph. */
    ghost predicate Cached() {
      && nNodes == |graph.nodes| && nEdges == |graph.edges|
      && nodeDistribution == DegreeDistribution(graph)
      && negativeDistribution == InDegreeDistribution(graph)
      && edgeDistribution == EdgeDistribution(graph)
    }

    constructor(graph: Graph<N>)
      ensures this.graph == graph && Cached()
    {
      this.graph := graph;
      nNodes := |graph.nodes|;
      nEdges := |graph.edges|;
      nodeDistribution := DegreeDistribution(graph);
      negativeDistribution := InDegreeDistribution(graph);
      edgeDistribution := EdgeDistribution(graph);
    }

    /**
     * The cached counts are those of distinct nodes and distinct (source,
     * target) pairs, and the cached distributions have one entry per node
     * and per edge respectively.
     */
    lemma CachedFields()
      requires Cached() && Valid(graph)
      ensures nNodes == |Elements(graph.nodes)| && nEdges == |PairSet(graph)|
      ensures Length(nodeDistribution) == nNodes && Length(negativeDistribution) == nNodes
      ensures Length(edgeDistribution) == nEdges
    {
      ValidCounts(graph);
    }

    /**
     * `sample_edges(size, with_weight)`: `size` weighted-edge triples or edge
     * pairs drawn with the edge distribution, one per uniform sample. Reading
     * only constant fields, it leaves the sampler as it was.
     */
    function SampleEdges(uniforms: seq<real>, size: int := 1000, withWeight: bool := true): (r: Result<Rows<N>, ChoiceError>)
      requires |uniforms| == Requested(size) && UnitSamples(uniforms)
      ensures r.Success? ==> RowCount(r.value) == size && (r.value.WeightedRows? <==> withWeight)
    {
      if withWeight then
        match Choice(WeightedCandidates(graph.edges), size, edgeDistribution, uniforms)
        case Success(rows) => Success(WeightedRows(rows))
        case Failure(err) => Failure(err)
      else
        match Choice(PairCandidates(graph.edges), size, edgeDistribution, uniforms)
        case Success(rows) => Success(PairRows(rows))
        case Failure(err) => Failure(err)
    }

    /**
     * Every sampled row is a graph edge: row k is edge i for the index i whose
     * interval of the edge distribution holds sample k, and edge i has a
     * positive probability. Weighted rows are only ever returned when every
     * edge carries a weight, and then carry that weight.
     */
    lemma {:induction false} SampledRowsAreEdges(uniforms: seq<real>, size: int, withWeight: bool)
      requires Cached()
      requires |uniforms| == Requested(size) && UnitSamples(uniforms)
      ensures var r := SampleEdges(uniforms, size, withWeight);
        r.Success? ==>
          && edgeDistribution.Finite?
          && (withWeight ==> AllWeighted(graph.edges))
          && forall k :: 0 <= k < size ==>
               exists i :: 0 <= i < |graph.edges| && edgeDistribution.values[i] > 0.0
                 && Sum(edgeDistribution.values[..i]) <= uniforms[k] < Sum(edgeDistribution.values[..i + 1])
                 && (if withWeight then r.value.triples[k] == Triple(graph.edges[i]) else r.value.pairs[k] == Pair(graph.edges[i]))
    {
      var r := SampleEdges(uniforms, size, withWeight);
      if r.Success? {
        if withWeight {
          var c := WeightedCandidates(graph.edges);
          ChoiceSpec(c, size, edgeDistribution, uniforms);
          WeightedCandidatesAlign(graph.edges);
        } else {
          ChoiceSpec(PairCandidates(graph.edges), size, edgeDistribution, uniforms);
        }
      }
    }

    /** In a well-formed graph the endpoints of every sampled row are nodes of the graph. */
    lemma {:induction false} SampledEndpointsAreNodes(uniforms: seq<real>, size: int, withWeight: bool, k: nat)
      requires Cached() && Valid(graph)
      requires |uniforms| == Requested(size) && UnitSamples(uniforms)
      requires SampleEdges(uniforms, size, withWeight).Success? && k < size
      ensures var rows := SampleEdges(uniforms, size, withWeight).value;
        if withWeight then rows.triples[k].0 in graph.nodes && rows.triples[k].1 in graph.nodes
        else rows.pairs[k].0 in graph.nodes && rows.pairs[k].1 in graph.nodes
    {
      SampledRowsAreEdges(uniforms, size, withWeight);
      var i :| 0 <= i < |graph.edges| && (if withWeight then SampleEdges(uniforms, size, withWeight).value.triples[k] == Triple(graph.edges[i])
                                           else SampleEdges(uniforms, size, withWeight).value.pairs[k] == Pair(graph.edges[i]));
      assert graph.edges[i] in graph.edges;
    }

    /**
     * With non-negative weights of positive total and a non-negative size,
     * pair sampling always succeeds, and weighted sampling succeeds exactly
     * when every edge carries a weight (otherwise the candidate list is
     * shorter than the distribution).
     */
    lemma {:induction false} SampleEdgesSucceeds(uniforms: seq<real>, size: int)
      requires Cached()
      requires NonNegative(Weights(graph.edges, true)) && Sum(Weights(graph.edges, true)) > 0.0
      requires size >= 0 && |uniforms| == size && UnitSamples(uniforms)
      ensures SampleEdges(uniforms, size, false).Success?
      ensures SampleEdges(uniforms, size, true).Success? <==> AllWeighted(graph.edges)
    {
      var w := Weights(graph.edges, true);
      NormalizeSumsToOne(w);
      NormalizeProbabilities(w);
      assert graph.edges != [];
      ChoiceSpec(PairCandidates(graph.edges), size, edgeDistribution, uniforms);
      ChoiceSpec(WeightedCandidates(graph.edges), size, edgeDistribution, uniforms);
      WeightedCandidatesAlign(graph.edges);
    }

    /**
     * A graph without edges cannot be sampled: a positive size finds the
     * population empty, and size 0 finds the empty distribution not adding up
     * to one.
     */
    lemma {:induction false} EmptyGraphFails(uniforms: seq<real>, size: int, withWeight: bool)
      requires Cached()
      requires |uniforms| == Requested(size) && UnitSamples(uniforms)
      ensures graph.edges == [] ==> SampleEdges(uniforms, size, withWeight) == Failure(if size == 0 then NotSumToOne else EmptyPopulation)
    {
    }
  }

  /** Sampling the shared fixture returns `size` rows in both modes, and none for size 0. */
  lemma {:induction false} SampleFixture(s: EdgeSampler<real>, uniforms: seq<real>, size: nat)
    requires s.Cached() && s.graph == MfGraph()
    requires |uniforms| == size && UnitSamples(uniforms)
    ensures s.SampleEdges(uniforms, size, true).Success? && RowCount(s.SampleEdges(uniforms, size, true).value) == size
    ensures s.SampleEdges(uniforms, size, false).Success? && RowCount(s.SampleEdges(uniforms, size, false).value) == size
    ensures s.SampleEdges([], 0, true) == Success(WeightedRows([])) && s.SampleEdges([], 0, false) == Success(PairRows([]))
  {
    MfGraphWeights();
    SumOfFour(0.1, 0.3, 0.2, 0.4);
    var g := MfGraph();
    assert AllWeighted(g.edges);
    assert NonNegative(Weights(g.edges, true));
    s.SampleEdgesSucceeds(uniforms, size);
    s.SampleEdgesSucceeds([], 0);
  }
}
