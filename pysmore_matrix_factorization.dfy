/**
 * The newer trainer's matrix-factorization model: it checks the edge list,
 * builds the graph with integer node ids, caches an edge sampler, creates
 * the pair optimizer when there is at least one node, and trains by
 * alternating one sample and one optimizer update `sample_times` times.
 */
module PysmoreMatrixFactorization {
  import opened Wrappers
  import opened Sums
  import opened Rates
  import opened DiGraph
  import opened Matrix
  import opened PysmoreLossFunction
  import opened PysmoreEdgeSampler
  import opened PysmorePairOptimizer

  // ---------------------------------------------------------------------
  // The edge list

  /** The element type of a numpy array of numbers. */
  datatype DType = Integer | Double

  /** The `edge_list` argument: a 2-D numpy array, or any other object. */
  datatype EdgeListInput = NdArray(dtype: DType, columns: nat, rows: seq<seq<real>>) | Other

  /** A numpy array's rows all have its column count. */
  predicate WellShaped(input: EdgeListInput) {
    input.NdArray? ==> forall i :: 0 <= i < |input.rows| ==> |input.rows[i]| == input.columns
  }

  /** The one exception `__init__` raises on a bad edge list. */
  datatype LoadError = ValueError

  /** The checks at the top of `__init__`: a numpy array with 2 or 3 columns. */
  function Validate(input: EdgeListInput): (r: Outcome<LoadError>)
    ensures r.Pass? <==> input.NdArray? && 2 <= input.columns <= 3
  {
    if !input.NdArray? then Fail(ValueError)
    else if input.columns > 3 || input.columns < 2 then Fail(ValueError)
    else Pass
  }

  /** The arrays of the invalid-input tests: four columns, one column, and a plain list. */
  lemma {:induction false} InvalidInputs(rows: seq<seq<real>>, dtype: DType)
    ensures Validate(NdArray(dtype, 4, rows)) == Fail(ValueError)
    ensures Validate(NdArray(dtype, 1, rows)) == Fail(ValueError)
    ensures Validate(Other) == Fail(ValueError)
    ensures Validate(NdArray(dtype, 2, rows)) == Pass && Validate(NdArray(dtype, 3, rows)) == Pass
  {
  }

  /** `edge_list.astype(np.double)`: the values stay, the element type becomes double. */
  function AsDouble(input: EdgeListInput): (r: EdgeListInput)
    requires input.NdArray?
    ensures r.NdArray? && r.dtype == Double
    ensures r.columns == input.columns && r.rows == input.rows
  {
    input.(dtype := Double)
  }

  // ---------------------------------------------------------------------
  // The graph

  /** The `add_edge` call for one row: `int()` of both ids, and weight 1 for a 2-column row. */
  function EdgeOf(row: seq<real>): (int, int, real)
    requires |row| >= 2
  {
    (Trunc(row[0]), Trunc(row[1]), if |row| == 3 then row[2] else 1.0)
  }

  predicate RowsOfWidth(rows: seq<seq<real>>) {
    forall i :: 0 <= i < |rows| ==> 2 <= |rows[i]| <= 3
  }

  function Triples(rows: seq<seq<real>>): (ts: seq<(int, int, real)>)
    requires RowsOfWidth(rows)
    ensures |ts| == |rows|
  {
    seq(|rows|, i requires 0 <= i < |rows| => EdgeOf(rows[i]))
  }

  /** The graph `_build_graph` leaves behind: the rows' `add_edge` calls on an empty graph, in order. */
  function BuiltGraph(rows: seq<seq<real>>): Graph<int>
    requires RowsOfWidth(rows)
  {
    AddWeightedEdgesFrom(Empty(), Triples(rows))
  }

  /** The distinct node ids of a list of `add_edge` calls, and their distinct (source, target) pairs. */
  function Endpoints(ts: seq<(int, int, real)>): set<int> {
    (set t | t in ts :: t.0) + (set t | t in ts :: t.1)
  }

  function Pairs(ts: seq<(int, int, real)>): set<(int, int)> {
    set t | t in ts :: (t.0, t.1)
  }

  /** The loop of `_build_graph()`: one `add_edge` per row in order on an empty graph, with `int()` ids and weight 1 for a 2-column row. */
  method AddRows(rows: seq<seq<real>>) returns (g: Graph<int>)
    requires RowsOfWidth(rows)
    ensures g == BuiltGraph(rows)
  {
    ghost var ts := Triples(rows);
    g := Empty();
    LoadStart(ts);
    for i := 0 to |rows|
      invariant Loaded(ts, i, g)
    {
      ghost var before := g;
      var row := rows[i];
      if |row| == 3 {
        g := AddEdge(g, Trunc(row[0]), Trunc(row[1]), row[2]);
      } else {
        g := AddEdge(g, Trunc(row[0]), Trunc(row[1]), 1.0);
      }
      LoadStep(ts, i, before, g);
    }
    LoadEnd(ts, g);
  }

  /**
   * The built graph is a valid DiGraph whose nodes are exactly the rows'
   * truncated ids and whose edges are exactly their distinct pairs, so
   * `node_num` and `edge_num` count distinct ids and distinct pairs.
   */
  lemma {:induction false} BuiltGraphCounts(rows: seq<seq<real>>)
    requires RowsOfWidth(rows)
    ensures Valid(BuiltGraph(rows))
    ensures Elements(BuiltGraph(rows).nodes) == Endpoints(Triples(rows))
    ensures PairSet(BuiltGraph(rows)) == Pairs(Triples(rows))
    ensures |BuiltGraph(rows).nodes| == |Endpoints(Triples(rows))|
    ensures |BuiltGraph(rows).edges| == |Pairs(Triples(rows))|
  {
    var g := BuiltGraph(rows);
    assert Valid(Empty<int>());
    AddWeightedEdgesFromSpec(Empty(), Triples(rows));
    ValidCounts(g);
  }

  /**
   * Each row's edge is in the graph unless a later row names the same pair:
   * a 3-column row with its own weight, a 2-column row with weight 1.
   */
  lemma {:induction false} BuiltGraphEdge(rows: seq<seq<real>>, i: nat)
    requires RowsOfWidth(rows) && i < |rows|
    requires forall j :: i < j < |rows| ==> (Trunc(rows[j][0]), Trunc(rows[j][1])) != (Trunc(rows[i][0]), Trunc(rows[i][1]))
    ensures |rows[i]| == 3 ==> Edge(Trunc(rows[i][0]), Trunc(rows[i][1]), Some(rows[i][2])) in BuiltGraph(rows).edges
    ensures |rows[i]| == 2 ==> Edge(Trunc(rows[i][0]), Trunc(rows[i][1]), Some(1.0)) in BuiltGraph(rows).edges
  {
    assert Valid(Empty<int>());
    LastWriteWins(Empty(), Triples(rows), i);
  }

  /** `int()` of a whole number is that number. */
  lemma {:induction false} TruncWhole(k: int)
    ensures Trunc(k as real) == k
  {
  }

  lemma {:induction false} SetSizesFour(ids: set<int>, pairs: set<(int, int)>)
    requires ids == {1, 2, 3, 4} && pairs == {(1, 2), (1, 3), (2, 4), (3, 4)}
    ensures |ids| == 4 && |pairs| == 4
  {
  }

  /** The id and pair sets of the weighted counting fixtures. */
  lemma {:induction false} FixtureSetsFour(ts: seq<(int, int, real)>)
    requires ts == [(1, 2, 0.2), (1, 3, 0.1), (2, 4, 0.2), (3, 4, 0.3)]
    ensures Endpoints(ts) == {1, 2, 3, 4}
    ensures Pairs(ts) == {(1, 2), (1, 3), (2, 4), (3, 4)}
    ensures |Endpoints(ts)| == 4 && |Pairs(ts)| == 4
  {
    assert ts[0] in ts && ts[1] in ts && ts[2] in ts && ts[3] in ts;
    SetSizesFour(Endpoints(ts), Pairs(ts));
  }

  lemma {:induction false} SetSizesSix(ids: set<int>, pairs: set<(int, int)>)
    requires ids == {1, 2, 3, 4, 5, 6} && pairs == {(1, 2), (1, 3), (2, 4), (3, 4), (5, 6)}
    ensures |ids| == 6 && |pairs| == 5
  {
  }

  lemma {:induction false} FixtureSetsSix(ts: seq<(int, int, real)>)
    requires ts == [(1, 2, 0.2), (1, 3, 0.1), (2, 4, 0.2), (3, 4, 0.3), (5, 6, 0.5)]
    ensures Endpoints(ts) == {1, 2, 3, 4, 5, 6}
    ensures Pairs(ts) == {(1, 2), (1, 3), (2, 4), (3, 4), (5, 6)}
    ensures |Endpoints(ts)| == 6 && |Pairs(ts)| == 5
  {
    assert forall t :: t in ts <==> t == ts[0] || t == ts[1] || t == ts[2] || t == ts[3] || t == ts[4];
    SetSizesSix(Endpoints(ts), Pairs(ts));
  }

  lemma {:induction false} SetSizesEight(ids: set<int>, pairs: set<(int, int)>)
    requires ids == {1, 2, 3, 4, 5, 6, 7, 8} && pairs == {(1, 2), (1, 3), (2, 4), (3, 4), (5, 6), (7, 8)}
    ensures |ids| == 8 && |pairs| == 6
  {
  }

  /** The id and pair sets of the 2-column counting fixture. */
  lemma {:induction false} FixtureSetsEight(ts: seq<(int, int, real)>)
    requires ts == [(1, 2, 1.0), (1, 3, 1.0), (2, 4, 1.0), (3, 4, 1.0), (5, 6, 1.0), (7, 8, 1.0)]
    ensures Endpoints(ts) == {1, 2, 3, 4, 5, 6, 7, 8}
    ensures Pairs(ts) == {(1, 2), (1, 3), (2, 4), (3, 4), (5, 6), (7, 8)}
    ensures |Endpoints(ts)| == 8 && |Pairs(ts)| == 6
  {
    assert forall t :: t in ts <==> t == ts[0] || t == ts[1] || t == ts[2] || t == ts[3] || t == ts[4] || t == ts[5];
    SetSizesEight(Endpoints(ts), Pairs(ts));
  }

  /** Counts of the built graph from the sizes of the id and pair sets. */
  lemma {:induction false} CountsFromSets(rows: seq<seq<real>>, nodeNum: nat, edgeNum: nat)
    requires RowsOfWidth(rows)
    requires |Endpoints(Triples(rows))| == nodeNum && |Pairs(Triples(rows))| == edgeNum
    ensures |BuiltGraph(rows).nodes| == nodeNum && |BuiltGraph(rows).edges| == edgeNum
  {
    BuiltGraphCounts(rows);
  }

  /** The first counting fixture: four weighted rows give 4 nodes and 4 edges. */
  lemma {:induction false} CountFixtureFour(rows: seq<seq<real>>)
    requires rows == [[1.0, 2.0, 0.2], [1.0, 3.0, 0.1], [2.0, 4.0, 0.2], [3.0, 4.0, 0.3]]
    ensures RowsOfWidth(rows)
    ensures |BuiltGraph(rows).nodes| == 4 && |BuiltGraph(rows).edges| == 4
  {
    TriplesFour(rows);
    FixtureSetsFour(Triples(rows));
    CountsFromSets(rows, 4, 4);
  }

  /**
   * Nothing maps node ids to embedding rows: the first counting fixture's ids
   * run from 1 to 4 over 4 nodes, so id 4 names no row of the 4-row matrix
   * that `train` would index with it.
   */
  lemma {:induction false} FixtureIdsAreNotRows(rows: seq<seq<real>>)
    requires rows == [[1.0, 2.0, 0.2], [1.0, 3.0, 0.1], [2.0, 4.0, 0.2], [3.0, 4.0, 0.3]]
    ensures RowsOfWidth(rows) && !IdsAreRows(BuiltGraph(rows))
  {
    CountFixtureFour(rows);
    TriplesFour(rows);
    FixtureSetsFour(Triples(rows));
    BuiltGraphCounts(rows);
    assert 4 in Elements(BuiltGraph(rows).nodes);
  }

  lemma {:induction false} TriplesFour(rows: seq<seq<real>>)
    requires rows == [[1.0, 2.0, 0.2], [1.0, 3.0, 0.1], [2.0, 4.0, 0.2], [3.0, 4.0, 0.3]]
    ensures RowsOfWidth(rows) && Triples(rows) == [(1, 2, 0.2), (1, 3, 0.1), (2, 4, 0.2), (3, 4, 0.3)]
  {
    TruncWhole(1); TruncWhole(2); TruncWhole(3); TruncWhole(4);
  }

  /** The second counting fixture: a fifth, disjoint row gives 6 nodes and 5 edges. */
  lemma {:induction false} CountFixtureSix(rows: seq<seq<real>>)
    requires rows == [[1.0, 2.0, 0.2], [1.0, 3.0, 0.1], [2.0, 4.0, 0.2], [3.0, 4.0, 0.3], [5.0, 6.0, 0.5]]
    ensures RowsOfWidth(rows)
    ensures |BuiltGraph(rows).nodes| == 6 && |BuiltGraph(rows).edges| == 5
  {
    TriplesSix(rows);
    FixtureSetsSix(Triples(rows));
    CountsFromSets(rows, 6, 5);
  }

  lemma {:induction false} TriplesSix(rows: seq<seq<real>>)
    requires rows == [[1.0, 2.0, 0.2], [1.0, 3.0, 0.1], [2.0, 4.0, 0.2], [3.0, 4.0, 0.3], [5.0, 6.0, 0.5]]
    ensures RowsOfWidth(rows) && Triples(rows) == [(1, 2, 0.2), (1, 3, 0.1), (2, 4, 0.2), (3, 4, 0.3), (5, 6, 0.5)]
  {
    TruncWhole(1); TruncWhole(2); TruncWhole(3); TruncWhole(4); TruncWhole(5); TruncWhole(6);
  }

  /** The third counting fixture: six 2-column rows give 8 nodes and 6 edges, all of weight 1. */
  lemma {:induction false} CountFixtureEight(rows: seq<seq<real>>)
    requires rows == [[1.0, 2.0], [1.0, 3.0], [2.0, 4.0], [3.0, 4.0], [5.0, 6.0], [7.0, 8.0]]
    ensures RowsOfWidth(rows)
    ensures |BuiltGraph(rows).nodes| == 8 && |BuiltGraph(rows).edges| == 6
  {
    TriplesEight(rows);
    FixtureSetsEight(Triples(rows));
    CountsFromSets(rows, 8, 6);
  }

  lemma {:induction false} TriplesEight(rows: seq<seq<real>>)
    requires rows == [[1.0, 2.0], [1.0, 3.0], [2.0, 4.0], [3.0, 4.0], [5.0, 6.0], [7.0, 8.0]]
    ensures RowsOfWidth(rows) && Triples(rows) == [(1, 2, 1.0), (1, 3, 1.0), (2, 4, 1.0), (3, 4, 1.0), (5, 6, 1.0), (7, 8, 1.0)]
  {
    TruncWhole(1); TruncWhole(2); TruncWhole(3); TruncWhole(4); TruncWhole(5); TruncWhole(6); TruncWhole(7); TruncWhole(8);
  }

  // ---------------------------------------------------------------------
  // Training

  /** The number of passes of `for i in range(n)`. */
  function Iterations(n: int): nat {
    if n > 0 then n else 0
  }

  /**
   * What training needs of the ids: the kernel indexes the embedding matrix
   * with them, so each is a row of an n-row matrix (negative ids counting
   * from the end).
   */
  predicate IdsAreRows(g: Graph<int>) {
    forall v :: v in g.nodes ==> -|g.nodes| <= v < |g.nodes|
  }

  /** The float array `np.array(rows)` that `sample_edges(..., with_weight=True)` hands the optimizer. */
  function Batch(triples: seq<(int, int, real)>): (b: seq<TrainingEdge>)
    ensures |b| == |triples|
  {
    seq(|triples|, k requires 0 <= k < |triples| => TrainingEdge(triples[k].0 as real, triples[k].1 as real, triples[k].2))
  }

  /** A sampled batch only names rows of the embedding matrix. */
  lemma {:induction false} SampledBatchInBounds(s: EdgeSampler<int>, u: seq<real>, size: int)
    requires s.Cached() && Valid(s.graph) && IdsAreRows(s.graph)
    requires |u| == Requested(size) && UnitSamples(u)
    requires s.SampleEdges(u, size, true).Success?
    ensures s.SampleEdges(u, size, true).value.WeightedRows?
    ensures BatchInBounds(Batch(s.SampleEdges(u, size, true).value.triples), |s.graph.nodes|)
  {
    var triples := s.SampleEdges(u, size, true).value.triples;
    var b := Batch(triples);
    forall k | 0 <= k < |b| ensures InBounds(b[k].source, |s.graph.nodes|) && InBounds(b[k].target, |s.graph.nodes|) {
      s.SampledEndpointsAreNodes(u, size, true, k);
      TruncWhole(triples[k].0);
      TruncWhole(triples[k].1);
    }
  }

  /** An exception `train` lets through: from the sampler's draw, or from the optimizer's anneal. */
  datatype TrainError = Sampling(choice: ChoiceError) | Annealing(update: UpdateError)

  /** The optimizer fields one training step changes. */
  datatype TrainState = TrainState(embeddings: seq<seq<real>>, learningRate: real, nUpdate: nat, loss: real)

  /** The state training has reached, and whether it stopped with an exception. */
  datatype Progress = Progress(state: TrainState, outcome: Outcome<TrainError>)

  /** The fields of `o` that training changes. */
  function State(o: PairOptimizer): (st: TrainState)
    reads o, o.embeddings
    ensures IsMatrix(st.embeddings, o.embeddings.Length0, o.embeddings.Length1)
  {
    TrainState(Matrix.Rows(o.embeddings), o.learningRate, o.nUpdate, o.loss)
  }

  /** What training asks of a sampler: its cached fields, a valid graph, and ids that are rows. */
  ghost predicate Trainable(s: EdgeSampler<int>)
  {
    s.Cached() && Valid(s.graph) && IdsAreRows(s.graph)
  }

  /** One sample of `size` rows for one uniform sample each. */
  predicate Draws(us: seq<seq<real>>, size: int) {
    forall k :: 0 <= k < |us| ==> |us[k]| == Requested(size) && UnitSamples(us[k])
  }

  /** What one pass of training is run with: the sample size, the L2 factor, the pass count and the rate floor. */
  datatype Settings = Settings(sampleSize: int, lambda: real, totalUpdateTimes: int, floor: real)

  /**
   * One pass of the training loop: draw a weighted batch of `sample_size`
   * rows, then `update(edges, l2_reg=True)` — loss, L2 gradient step with
   * the current rate, count, and re-annealed rate, or the count and step
   * followed by a ZeroDivisionError.
   */
  function Step(s: EdgeSampler<int>, st: TrainState, u: seq<real>, c: Settings): (p: Progress)
    requires Trainable(s)
    requires Rectangular(st.embeddings) && |st.embeddings| == |s.graph.nodes|
    requires |u| == Requested(c.sampleSize) && UnitSamples(u)
    ensures SameShape(p.state.embeddings, st.embeddings)
    ensures p.state.nUpdate == st.nUpdate || p.state.nUpdate == st.nUpdate + 1
    ensures p.outcome.Pass? ==>
      && c.totalUpdateTimes * c.sampleSize != 0 && p.state.nUpdate == st.nUpdate + 1
      && p.state.learningRate == RateAfter(p.state.nUpdate, c.totalUpdateTimes, c.sampleSize, c.floor)
  {
    match s.SampleEdges(u, c.sampleSize, true)
    case Failure(e) => Progress(st, Fail(Sampling(e)))
    case Success(rows) =>
      SampledBatchInBounds(s, u, c.sampleSize);
      var batch := Batch(rows.triples);
      var m := GradientStep(st.embeddings, UpdateMatrix(st.embeddings, batch), st.learningRate, c.lambda, true);
      var n := st.nUpdate + 1;
      var loss := TotalLoss(st.embeddings, batch);
      match AnnealTarget(n, c.totalUpdateTimes, c.sampleSize)
      case Failure(e) => Progress(TrainState(m, st.learningRate, n, loss), Fail(Annealing(e)))
      case Success(x) => Progress(TrainState(m, Floored(x, c.floor), n, loss), Pass)
  }

  lemma {:induction false} SameShapeRectangular(m: seq<seq<real>>, m': seq<seq<real>>)
    requires Rectangular(m) && SameShape(m', m)
    ensures Rectangular(m')
  {
  }

  /** The first `n` passes of `train`, one per uniform sample list, stopping at the first exception. */
  function Run(s: EdgeSampler<int>, st: TrainState, us: seq<seq<real>>, n: nat, c: Settings): (p: Progress)
    requires Trainable(s) && Draws(us, c.sampleSize) && n <= |us|
    requires Rectangular(st.embeddings) && |st.embeddings| == |s.graph.nodes|
    ensures SameShape(p.state.embeddings, st.embeddings)
    decreases n
  {
    if n == 0 then Progress(st, Pass)
    else
      var prev := Run(s, st, us, n - 1, c);
      if prev.outcome.Fail? then prev
      else
        SameShapeRectangular(st.embeddings, prev.state.embeddings);
        Step(s, prev.state, us[n - 1], c)
  }

  /**
   * A run that completes makes one update per pass, and after at least one
   * pass the rate is the annealed rate for the new count; a run that stops
   * early has made at most that many.
   */
  lemma {:induction false} RunCounts(s: EdgeSampler<int>, st: TrainState, us: seq<seq<real>>, n: nat, c: Settings)
    requires Trainable(s) && Draws(us, c.sampleSize) && n <= |us|
    requires Rectangular(st.embeddings) && |st.embeddings| == |s.graph.nodes|
    ensures var p := Run(s, st, us, n, c);
      && (p.outcome.Pass? ==> p.state.nUpdate == st.nUpdate + n)
      && (p.outcome.Pass? && n != 0 ==> p.state.learningRate == RateAfter(p.state.nUpdate, c.totalUpdateTimes, c.sampleSize, c.floor))
      && p.state.nUpdate <= st.nUpdate + n
    decreases n
  {
    if n != 0 {
      RunCounts(s, st, us, n - 1, c);
    }
  }

  /** An exception ends training: a run that fails after n passes fails the same way after any later pass. */
  lemma {:induction false} RunStopsAtFailure(s: EdgeSampler<int>, st: TrainState, us: seq<seq<real>>, n: nat, m: nat, c: Settings)
    requires Trainable(s) && Draws(us, c.sampleSize) && n <= m <= |us|
    requires Rectangular(st.embeddings) && |st.embeddings| == |s.graph.nodes|
    requires Run(s, st, us, n, c).outcome.Fail?
    ensures Run(s, st, us, m, c) == Run(s, st, us, n, c)
    decreases m
  {
    if m > n {
      RunStopsAtFailure(s, st, us, n, m - 1, c);
    }
  }

  /** A run still going after i passes takes its next pass from where it stands. */
  lemma {:induction false} RunNext(s: EdgeSampler<int>, st: TrainState, us: seq<seq<real>>, i: nat, c: Settings)
    requires Trainable(s) && Draws(us, c.sampleSize) && i < |us|
    requires Rectangular(st.embeddings) && |st.embeddings| == |s.graph.nodes|
    requires Run(s, st, us, i, c).outcome.Pass?
    ensures Rectangular(Run(s, st, us, i, c).state.embeddings)
    ensures Run(s, st, us, i + 1, c) == Step(s, Run(s, st, us, i, c).state, us[i], c)
  {
    SameShapeRectangular(st.embeddings, Run(s, st, us, i, c).state.embeddings);
  }

  /** Every edge of a built graph carries a weight. */
  lemma {:induction false} BuiltEdgesWeighted(g: Graph<int>, ts: seq<(int, int, real)>)
    requires Valid(g) && AllWeighted(g.edges)
    ensures AllWeighted(AddWeightedEdgesFrom(g, ts).edges)
    decreases |ts|
  {
    if ts != [] {
      var init := ts[..|ts| - 1];
      var last := ts[|ts| - 1];
      BuiltEdgesWeighted(g, init);
      AddWeightedEdgesFromSpec(g, init);
      var before := AddWeightedEdgesFrom(g, init);
      AddEdgeMembers(before, last.0, last.1, last.2);
      var after := AddEdge(before, last.0, last.1, last.2);
      forall i | 0 <= i < |after.edges| ensures after.edges[i].weight.Some? {
        assert after.edges[i] in after.edges;
      }
    }
  }

  /**
   * A graph with non-negative weights of positive total and a non-zero
   * `sample_times * sample_size` trains to the end: every pass updates.
   */
  lemma {:induction false} RunSucceeds(s: EdgeSampler<int>, st: TrainState, us: seq<seq<real>>, n: nat, c: Settings)
    requires Trainable(s) && Draws(us, c.sampleSize) && n <= |us|
    requires Rectangular(st.embeddings) && |st.embeddings| == |s.graph.nodes|
    requires AllWeighted(s.graph.edges)
    requires NonNegative(Weights(s.graph.edges, true)) && Sum(Weights(s.graph.edges, true)) > 0.0
    requires c.sampleSize >= 0 && c.totalUpdateTimes * c.sampleSize != 0
    ensures Run(s, st, us, n, c).outcome.Pass?
    decreases n
  {
    if n != 0 {
      RunSucceeds(s, st, us, n - 1, c);
      var prev := Run(s, st, us, n - 1, c).state;
      SameShapeRectangular(st.embeddings, prev.embeddings);
      StepPasses(s, prev, us[n - 1], c);
    }
  }

  /** On such a graph every pass draws its batch and updates without an exception. */
  lemma {:induction false} StepPasses(s: EdgeSampler<int>, st: TrainState, u: seq<real>, c: Settings)
    requires Trainable(s)
    requires Rectangular(st.embeddings) && |st.embeddings| == |s.graph.nodes|
    requires AllWeighted(s.graph.edges)
    requires NonNegative(Weights(s.graph.edges, true)) && Sum(Weights(s.graph.edges, true)) > 0.0
    requires c.sampleSize >= 0 && c.totalUpdateTimes * c.sampleSize != 0
    requires |u| == c.sampleSize && UnitSamples(u)
    ensures Step(s, st, u, c).outcome.Pass?
  {
    s.SampleEdgesSucceeds(u, c.sampleSize);
    StepUpdates(s, st, u, c);
  }

  /**
   * A pass whose draw succeeds is `update(batch, l2_reg=True)` on that batch:
   * the L2 step with the current rate, the batch loss, the count plus one, and
   * the annealed rate or a ZeroDivisionError.
   */
  lemma {:induction false} StepUpdates(s: EdgeSampler<int>, st: TrainState, u: seq<real>, c: Settings)
    requires Trainable(s)
    requires Rectangular(st.embeddings) && |st.embeddings| == |s.graph.nodes|
    requires |u| == Requested(c.sampleSize) && UnitSamples(u)
    requires s.SampleEdges(u, c.sampleSize, true).Success?
    ensures s.SampleEdges(u, c.sampleSize, true).value.WeightedRows?
    ensures var batch := Batch(s.SampleEdges(u, c.sampleSize, true).value.triples);
      && BatchInBounds(batch, |st.embeddings|)
      && Step(s, st, u, c)
         == Progress(
              TrainState(
                GradientStep(st.embeddings, UpdateMatrix(st.embeddings, batch), st.learningRate, c.lambda, true),
                if c.totalUpdateTimes * c.sampleSize == 0 then st.learningRate else RateAfter(st.nUpdate + 1, c.totalUpdateTimes, c.sampleSize, c.floor),
                st.nUpdate + 1,
                TotalLoss(st.embeddings, batch)),
              if c.totalUpdateTimes * c.sampleSize == 0 then Fail(Annealing(ZeroDivision)) else Pass)
  {
    SampledBatchInBounds(s, u, c.sampleSize);
  }

  // ---------------------------------------------------------------------
  // The model

  class MatrixFactorization {
    const dimension: nat
    const sampleTimes: int
    const sampleSize: int
    var edgeList: EdgeListInput
    var graph: Graph<int>
    var edgeNum: Option<nat>
    var nodeNum: Option<nat>
    var sampler: EdgeSampler?<int>
    var optimizer: PairOptimizer?

    /**
     * The state `__init__` leaves: the double edge list, the graph built from
     * it with its counts, a sampler over that graph, and an optimizer with
     * one row per node exactly when there is a node.
     */
    ghost predicate Built()
      reads this
    {
      && edgeList.NdArray? && edgeList.dtype == Double && RowsOfWidth(edgeList.rows)
      && graph == BuiltGraph(edgeList.rows) && Valid(graph)
      && nodeNum == Some(|graph.nodes|) && edgeNum == Some(|graph.edges|)
      && sampler != null && sampler.graph == graph && sampler.Cached()
      && (optimizer != null <==> |graph.nodes| != 0)
      && (optimizer != null ==>
            && optimizer.embeddings.Length0 == |graph.nodes| && optimizer.embeddings.Length1 == dimension
            && optimizer.totalUpdateTimes == sampleTimes && optimizer.sampleSize == sampleSize)
    }

    /**
     * `MatrixFactorization(edge_list, dimension, sample_times, sample_size,
     * lr, l2_reg)` past its checks (`Load` makes them). The optimizer's
     * uniform initial embeddings are the parameter `init`.
     */
    constructor(edgeList: EdgeListInput, init: seq<seq<real>>, dimension: nat := 64, sampleTimes: int := 5,
                sampleSize: int := 1000000, lr: real := 0.025, l2Reg: real := 0.01)
      requires Validate(edgeList).Pass? && WellShaped(edgeList)
      requires IsMatrix(init, |BuiltGraph(edgeList.rows).nodes|, dimension)
      requires forall i, j :: 0 <= i < |init| && 0 <= j < |init[i]| ==> -1.0 <= init[i][j] < 1.0
      ensures Built()
      ensures this.edgeList == AsDouble(edgeList) && graph == BuiltGraph(edgeList.rows)
      ensures this.dimension == dimension && this.sampleTimes == sampleTimes && this.sampleSize == sampleSize
      ensures fresh(sampler)
      ensures optimizer != null ==>
        && fresh(optimizer) && fresh(optimizer.embeddings) && Matrix.Rows(optimizer.embeddings) == init
        && optimizer.learningRate == lr && optimizer.learningRateMin == MinimumRate(lr) && optimizer.lambda == l2Reg
        && optimizer.nUpdate == 0 && optimizer.loss == 0.0
    {
      this.dimension := dimension;
      this.sampleTimes := sampleTimes;
      this.sampleSize := sampleSize;
      this.edgeList := AsDouble(edgeList);
      graph := Empty();
      edgeNum := None;
      nodeNum := None;
      sampler := null;
      optimizer := null;
      new;
      BuildGraph();
      var smp := new EdgeSampler(graph);
      sampler := smp;
      if nodeNum.value != 0 {
        var opt := new PairOptimizer(nodeNum.value, dimension, sampleTimes, init, sampleSize, lr, l2Reg);
        optimizer := opt;
      }
    }

    /**
     * `_build_graph()`: one `add_edge` per row in order, with `int()` ids and
     * weight 1 for a 2-column row, then the node and edge counts.
     */
    method BuildGraph()
      requires edgeList.NdArray? && RowsOfWidth(edgeList.rows) && graph == Empty()
      modifies this
      ensures edgeList == old(edgeList) && sampler == old(sampler) && optimizer == old(optimizer)
      ensures graph == BuiltGraph(edgeList.rows) && Valid(graph)
      ensures nodeNum == Some(|graph.nodes|) && edgeNum == Some(|graph.edges|)
    {
      graph := AddRows(edgeList.rows);
      BuiltGraphCounts(edgeList.rows);
      edgeNum := Some(|graph.edges|);
      nodeNum := Some(|graph.nodes|);
    }

    /**
     * `train()`: `sample_times` passes, each drawing `sample_size` weighted
     * rows (one uniform sample list per pass) and updating the optimizer with
     * L2 regularisation, until the first exception.
     */
    method Train(uniforms: seq<seq<real>>) returns (r: Outcome<TrainError>)
      requires Built() && IdsAreRows(graph)
      requires |uniforms| == Iterations(sampleTimes) && Draws(uniforms, sampleSize)
      modifies optimizer, if optimizer == null then {} else {optimizer.embeddings}
      ensures optimizer == null ==>
        r == if uniforms == [] then Pass else Fail(Sampling(if sampleSize == 0 then NotSumToOne else EmptyPopulation))
      ensures optimizer != null ==>
        && Trainable(sampler) && Rectangular(old(State(optimizer)).embeddings)
        && Progress(State(optimizer), r)
           == Run(sampler, old(State(optimizer)), uniforms, |uniforms|, Settings(sampleSize, optimizer.lambda, sampleTimes, optimizer.learningRateMin))
    {
      var smp: EdgeSampler<int> := sampler;
      var opt := optimizer;
      assert Trainable(smp);
      assert smp.graph.edges != [] ==> smp.graph.edges[0] in smp.graph.edges;
      if opt == null {
        // No node, so no edge: the first draw raises before any update.
        r := Pass;
        if sampleTimes > 0 {
          var rows := smp.SampleEdges(uniforms[0], sampleSize, true);
          smp.EmptyGraphFails(uniforms[0], sampleSize, true);
          r := Fail(Sampling(rows.error));
        }
        return;
      }
      r := TrainLoop(smp, opt, uniforms, sampleTimes, sampleSize, State(opt), SettingsOf(opt));
    }
  }

  /** What training needs of the sampler and the optimizer `__init__` built. */
  ghost predicate Ready(s: EdgeSampler<int>, o: PairOptimizer, sampleSize: int)
    reads o
  {
    Trainable(s) && o.embeddings.Length0 == |s.graph.nodes| && o.sampleSize == sampleSize
  }

  /** The settings an optimizer trains with. */
  function SettingsOf(o: PairOptimizer): (c: Settings)
    ensures c.lambda == o.lambda && c.floor == o.learningRateMin
    ensures c.totalUpdateTimes == o.totalUpdateTimes && c.sampleSize == o.sampleSize
  {
    Settings(o.sampleSize, o.lambda, o.totalUpdateTimes, o.learningRateMin)
  }

  /**
   * Training from `st` has made its first `i` passes over `us` without an
   * exception and stands at `cur`. The run is named under a quantifier over
   * the pass count so that a proof unfolds it only where it names a run of
   * its own.
   */
  ghost predicate Reached(s: EdgeSampler<int>, st: TrainState, us: seq<seq<real>>, i: int, c: Settings, cur: TrainState) {
    && Trainable(s) && Draws(us, c.sampleSize) && 0 <= i <= |us|
    && Rectangular(st.embeddings) && |st.embeddings| == |s.graph.nodes|
    && forall n: nat | n == i && n <= |us| :: Run(s, st, us, n, c) == Progress(cur, Pass)
  }

  /** Training from `st` over all of `us` ends in `p`. */
  ghost predicate Ends(s: EdgeSampler<int>, st: TrainState, us: seq<seq<real>>, c: Settings, p: Progress) {
    && Trainable(s) && Draws(us, c.sampleSize)
    && Rectangular(st.embeddings) && |st.embeddings| == |s.graph.nodes|
    && forall n: nat | n == |us| :: Run(s, st, us, n, c) == p
  }

  /** A pass whose draw raises ends the run where it stands. */
  lemma {:induction false} DrawFails(s: EdgeSampler<int>, st: TrainState, us: seq<seq<real>>, i: nat, c: Settings, cur: TrainState)
    requires i < |us| && Reached(s, st, us, i, c, cur)
    requires s.SampleEdges(us[i], c.sampleSize, true).Failure?
    ensures Ends(s, st, us, c, Progress(cur, Fail(Sampling(s.SampleEdges(us[i], c.sampleSize, true).error))))
  {
    RunNext(s, st, us, i, c);
    RunStopsAtFailure(s, st, us, i + 1, |us|, c);
  }

  /**
   * A pass whose draw succeeds and whose `update` leaves `post` goes on from
   * `post` when the update returns, and ends the run there when it raises.
   */
  lemma {:induction false} UpdateAdvances(s: EdgeSampler<int>, st: TrainState, us: seq<seq<real>>, i: nat, c: Settings,
                       pre: TrainState, post: TrainState, ok: bool)
    requires i < |us| && Reached(s, st, us, i, c, pre)
    requires Rectangular(pre.embeddings) && |pre.embeddings| == |s.graph.nodes|
    requires s.SampleEdges(us[i], c.sampleSize, true).Success?
    requires s.SampleEdges(us[i], c.sampleSize, true).value.WeightedRows?
    requires var batch := Batch(s.SampleEdges(us[i], c.sampleSize, true).value.triples);
      && BatchInBounds(batch, |pre.embeddings|)
      && post.embeddings == GradientStep(pre.embeddings, UpdateMatrix(pre.embeddings, batch), pre.learningRate, c.lambda, true)
      && post.loss == TotalLoss(pre.embeddings, batch)
    requires post.nUpdate == pre.nUpdate + 1
    requires ok <==> c.totalUpdateTimes * c.sampleSize != 0
    requires ok ==> post.learningRate == RateAfter(post.nUpdate, c.totalUpdateTimes, c.sampleSize, c.floor)
    requires !ok ==> post.learningRate == pre.learningRate
    ensures ok ==> Reached(s, st, us, i + 1, c, post)
    ensures !ok ==> Ends(s, st, us, c, Progress(post, Fail(Annealing(ZeroDivision))))
  {
    RunNext(s, st, us, i, c);
    StepUpdates(s, pre, us[i], c);
    if !ok {
      RunStopsAtFailure(s, st, us, i + 1, |us|, c);
    }
  }

  /**
   * Pass `i` of `train()`'s loop: draw `sample_size` weighted rows with the
   * samples `us[i]` and hand them to `update(edges, l2_reg=True)`. A pass
   * that raises ends the run where it stands.
   */
  method TrainStep(s: EdgeSampler<int>, o: PairOptimizer, us: seq<seq<real>>, i: nat, sampleSize: int, ghost st: TrainState, ghost c: Settings)
    returns (r: Outcome<TrainError>)
    requires Ready(s, o, sampleSize) && c == SettingsOf(o)
    requires i < |us| && Reached(s, st, us, i, c, State(o))
    modifies o, o.embeddings
    ensures r.Pass? ==> Reached(s, st, us, i + 1, c, State(o))
    ensures !r.Pass? ==> Ends(s, st, us, c, Progress(State(o), r))
  {
    var rows := s.SampleEdges(us[i], sampleSize, true);
    if rows.Failure? {
      DrawFails(s, st, us, i, c, State(o));
      return Fail(Sampling(rows.error));
    }
    ghost var pre := State(o);
    StepUpdates(s, pre, us[i], c);
    var batch := Batch(rows.value.triples);
    var outcome := o.Update(batch, true);
    UpdateAdvances(s, st, us, i, c, pre, State(o), outcome.Pass?);
    if outcome.Fail? {
      var e: UpdateError := outcome.error;
      assert e == ZeroDivision;
      return Fail(Annealing(e));
    }
    r := Pass;
  }

  /** `for i in range(sample_times)` in `train()` with an optimizer: one pass per uniform sample list, until the first exception. */
  method TrainLoop(s: EdgeSampler<int>, o: PairOptimizer, uniforms: seq<seq<real>>, sampleTimes: int, sampleSize: int, ghost st: TrainState, ghost c: Settings)
    returns (r: Outcome<TrainError>)
    requires Ready(s, o, sampleSize)
    requires |uniforms| == Iterations(sampleTimes) && Draws(uniforms, sampleSize)
    requires st == State(o) && c == SettingsOf(o)
    modifies o, o.embeddings
    ensures Ends(s, st, uniforms, c, Progress(State(o), r))
  {
    for i := 0 to Iterations(sampleTimes)
      invariant Reached(s, st, uniforms, i, c, State(o))
    {
      var outcome := TrainStep(s, o, uniforms, i, sampleSize, st, c);
      if !outcome.Pass? {
        return outcome;
      }
    }
    r := Pass;
  }

  /**
   * `MatrixFactorization(...)` with its checks: a ValueError for anything
   * but a 2- or 3-column numpy array, the built model otherwise.
   */
  method Load(edgeList: EdgeListInput, init: seq<seq<real>>, dimension: nat := 64, sampleTimes: int := 5,
              sampleSize: int := 1000000, lr: real := 0.025, l2Reg: real := 0.01)
    returns (r: Result<MatrixFactorization, LoadError>)
    requires WellShaped(edgeList)
    requires Validate(edgeList).Pass? ==> IsMatrix(init, |BuiltGraph(edgeList.rows).nodes|, dimension)
    requires forall i, j :: 0 <= i < |init| && 0 <= j < |init[i]| ==> -1.0 <= init[i][j] < 1.0
    ensures r.Failure? <==> Validate(edgeList).Fail?
    ensures r.Failure? ==> r.error == ValueError
    ensures r.Success? ==> fresh(r.value) && r.value.Built() && r.value.graph == BuiltGraph(edgeList.rows)
  {
    match Validate(edgeList)
    case Fail(e) =>
      return Failure(e);
    case Pass =>
      var model := new MatrixFactorization(edgeList, init, dimension, sampleTimes, sampleSize, lr, l2Reg);
      return Success(model);
  }
}
