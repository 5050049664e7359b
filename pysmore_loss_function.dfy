/**
 * The gradient kernel of the current trainer: the dot product of two
 * embedding rows and the per-batch accumulation of the update matrix and the
 * scalar loss. The kernel is compiled without parallelism, so its loop runs
 * in order.
 */
module PysmoreLossFunction {
  import opened Sums
  import opened Matrix

  /** One row `[source, target, weight]` of a training batch, as doubles. */
  datatype TrainingEdge = TrainingEdge(source: real, target: real, weight: real)

  /** `dot_product(v1, v2)`: the sum over v1's positions of the products. */
  function Dot(v1: seq<real>, v2: seq<real>): real
    requires |v1| <= |v2|
  {
    Sum(Products(v1, v2))
  }

  function Products(v1: seq<real>, v2: seq<real>): (p: seq<real>)
    requires |v1| <= |v2|
    ensures |p| == |v1| && forall i :: 0 <= i < |v1| ==> p[i] == v1[i] * v2[i]
  {
    seq(|v1|, i requires 0 <= i < |v1| => v1[i] * v2[i])
  }

  /** The dot product is symmetric on vectors of equal length. */
  lemma {:induction false} DotSymmetric(v1: seq<real>, v2: seq<real>)
    requires |v1| == |v2|
    ensures Dot(v1, v2) == Dot(v2, v1)
  {
    assert Products(v1, v2) == Products(v2, v1);
  }

  /** A vector's dot product with itself is never negative. */
  lemma {:induction false} DotSelfNonNegative(v: seq<real>)
    ensures Dot(v, v) >= 0.0
  {
    SumNonNegative(Products(v, v));
  }

  /** Only v1's length counts: entries of v2 beyond it are ignored. */
  lemma {:induction false} DotIgnoresTail(v1: seq<real>, v2: seq<real>)
    requires |v1| <= |v2|
    ensures Dot(v1, v2) == Dot(v1, v2[..|v1|])
  {
    var p, q := Products(v1, v2), Products(v1, v2[..|v1|]);
    assert forall i :: 0 <= i < |v1| ==> p[i] == q[i];
    assert p == q;
  }

  /** [1, 2]·[1, 2] = 5 and [0.1, 0.3, 0.2]·[0.2, 0.4, 0.4] = 0.22. */
  lemma DotExamples()
    ensures Dot([1.0, 2.0], [1.0, 2.0]) == 5.0
    ensures Dot([0.1, 0.3, 0.2], [0.2, 0.4, 0.4]) == 0.22
  {
    assert Products([1.0, 2.0], [1.0, 2.0]) == [1.0, 4.0];
    SumOfTwo(1.0, 4.0);
    assert Products([0.1, 0.3, 0.2], [0.2, 0.4, 0.4]) == [0.02, 0.12, 0.08];
    SumOfThree(0.02, 0.12, 0.08);
  }

  // ---------------------------------------------------------------------
  // Row indices

  /** Python's `int(x)` on a double: truncation toward zero. */
  function Trunc(x: real): int {
    if x >= 0.0 then x.Floor else -((-x).Floor)
  }

  /** Truncation drops the fraction toward zero: it is the integer part of x, below it for positive x and above it for negative x. */
  lemma {:induction false} TruncTowardZero(x: real)
    ensures x >= 0.0 ==> 0 <= Trunc(x) && Trunc(x) as real <= x < Trunc(x) as real + 1.0
    ensures x < 0.0 ==> Trunc(x) <= 0 && Trunc(x) as real - 1.0 < x <= Trunc(x) as real
    ensures Trunc(-x) == -Trunc(x)
  {
  }

  /** The index `int(x)` selects a row of an n-row array: non-negative, or counted from the end. */
  predicate InBounds(x: real, n: nat) {
    -(n as int) <= Trunc(x) < n
  }

  /** The row `array[int(x)]` refers to, negative indices counting from the end. */
  function RowIndex(x: real, n: nat): (r: nat)
    requires InBounds(x, n)
    ensures r < n
  {
    var k := Trunc(x);
    if k < 0 then k + n else k
  }

  /** Every edge of the batch names rows of an n-row embedding matrix. */
  predicate BatchInBounds(edges: seq<TrainingEdge>, n: nat) {
    forall k :: 0 <= k < |edges| ==> InBounds(edges[k].source, n) && InBounds(edges[k].target, n)
  }

  // ---------------------------------------------------------------------
  // What the kernel computes

  /** The gradient of one edge: its weight minus the dot product of its endpoints' embeddings. */
  function Gradient(m: seq<seq<real>>, e: TrainingEdge): real
    requires Rectangular(m)
    requires InBounds(e.source, |m|) && InBounds(e.target, |m|)
  {
    e.weight - Dot(m[RowIndex(e.source, |m|)], m[RowIndex(e.target, |m|)])
  }

  /** The batch's gradients in order. */
  function Gradients(m: seq<seq<real>>, edges: seq<TrainingEdge>): (gs: seq<real>)
    requires Rectangular(m) && BatchInBounds(edges, |m|)
    ensures |gs| == |edges|
  {
    seq(|edges|, k requires 0 <= k < |edges| => Gradient(m, edges[k]))
  }

  /** The scalar loss the kernel returns: the sum of the gradients. */
  function TotalLoss(m: seq<seq<real>>, edges: seq<TrainingEdge>): real
    requires Rectangular(m) && BatchInBounds(edges, |m|)
  {
    Sum(Gradients(m, edges))
  }

  /** The pair of rows each edge of the batch touches: its source's and its target's. */
  function Endpoints(m: seq<seq<real>>, edges: seq<TrainingEdge>): (idx: seq<(nat, nat)>)
    requires BatchInBounds(edges, |m|)
    ensures |idx| == |edges| && RowsIn(idx, |m|)
  {
    seq(|edges|, k requires 0 <= k < |edges| => (RowIndex(edges[k].source, |m|), RowIndex(edges[k].target, |m|)))
  }

  /** Every (source row, target row) pair names a row of an n-row matrix. */
  predicate RowsIn(idx: seq<(nat, nat)>, n: nat) {
    forall k :: 0 <= k < |idx| ==> idx[k].0 < n && idx[k].1 < n
  }

  /** What an edge touching rows `st` with gradient `g` adds to row r's factor: g for each of its endpoints at r. */
  function Contribution(st: (nat, nat), g: real, r: nat): real {
    (if st.0 == r then g else 0.0) + (if st.1 == r then g else 0.0)
  }

  /** The contributions of the edges touching rows `idx` with gradients `gs` to row r, in batch order. */
  function Contributions(idx: seq<(nat, nat)>, gs: seq<real>, r: nat): (cs: seq<real>)
    requires |gs| == |idx|
    ensures |cs| == |idx|
  {
    seq(|idx|, k requires 0 <= k < |idx| => Contribution(idx[k], gs[k], r))
  }

  /**
   * The factor row `r` of the update is multiplied by when the edges touching
   * rows `idx` carry gradients `gs`: each edge's gradient once for `r` as its
   * source and once for `r` as its target.
   */
  function Coefficient(idx: seq<(nat, nat)>, gs: seq<real>, r: nat): real
    requires |gs| == |idx|
  {
    Sum(Contributions(idx, gs, r))
  }

  /** One more edge adds its contribution to the factor. */
  lemma {:induction false} CoefficientStep(idx: seq<(nat, nat)>, gs: seq<real>, r: nat)
    requires |gs| == |idx| && idx != []
    ensures Coefficient(idx, gs, r)
      == Coefficient(idx[..|idx| - 1], gs[..|gs| - 1], r) + Contribution(idx[|idx| - 1], gs[|gs| - 1], r)
  {
    var cs := Contributions(idx, gs, r);
    assert cs[..|cs| - 1] == Contributions(idx[..|idx| - 1], gs[..|gs| - 1], r);
  }

  /** `m` with `g * row` added to its row `r`. */
  function AddToRow(u: seq<seq<real>>, r: nat, g: real, row: seq<real>): (u': seq<seq<real>>)
    requires r < |u| && |row| == |u[r]|
    ensures SameShape(u', u)
  {
    u[r := seq(|row|, j requires 0 <= j < |row| => u[r][j] + g * row[j])]
  }

  /**
   * Accumulation from a zero matrix of the embeddings' shape, edge by edge:
   * an edge touching rows (s, t) with gradient g adds g × row s of the
   * embeddings to row s, then g × row t to row t.
   */
  function Accumulate(m: seq<seq<real>>, idx: seq<(nat, nat)>, gs: seq<real>): (u: seq<seq<real>>)
    requires RowsIn(idx, |m|) && |gs| == |idx|
    ensures SameShape(u, m)
    decreases |idx|
  {
    if idx == [] then seq(|m|, r requires 0 <= r < |m| => seq(|m[r]|, j => 0.0))
    else
      var st, g := idx[|idx| - 1], gs[|gs| - 1];
      AddToRow(AddToRow(Accumulate(m, idx[..|idx| - 1], gs[..|gs| - 1]), st.0, g, m[st.0]), st.1, g, m[st.1])
  }

  /** The update matrix the kernel returns: the accumulation over the batch's rows with its gradients. */
  function UpdateMatrix(m: seq<seq<real>>, edges: seq<TrainingEdge>): (u: seq<seq<real>>)
    requires Rectangular(m) && BatchInBounds(edges, |m|)
    ensures SameShape(u, m)
  {
    Accumulate(m, Endpoints(m, edges), Gradients(m, edges))
  }

  // ---------------------------------------------------------------------
  // The kernel

  /** Adding g·x to c·x once for the source and once for the target gives (c + contributions)·x. */
  lemma {:induction false} AccumulateEntry(c: real, g: real, x: real, xs: real, xt: real, atSource: bool, atTarget: bool, u0: real, u1: real, u2: real, c': real)
    requires u0 == c * x
    requires atSource ==> xs == x
    requires atTarget ==> xt == x
    requires u1 == if atSource then u0 + g * xs else u0
    requires u2 == if atTarget then u1 + g * xt else u1
    requires c' == c + (if atSource then g else 0.0) + (if atTarget then g else 0.0)
    ensures u2 == c' * x
  {
  }

  /** A zero entry is the zero coefficient times anything. */
  lemma {:induction false} ZeroEntry(u: real, c: real, x: real)
    requires u == 0.0 && c == 0.0
    ensures u == c * x
  {
  }

  /** Entry (i, j) of `AddToRow(u, r, g, row)`. */
  lemma {:induction false} AddToRowEntry(u: seq<seq<real>>, r: nat, g: real, row: seq<real>, i: nat, j: nat)
    requires r < |u| && |row| == |u[r]| && i < |u| && j < |u[i]|
    ensures AddToRow(u, r, g, row)[i][j] == if i == r then u[i][j] + g * row[j] else u[i][j]
  {
  }

  /**
   * One edge's two row additions keep entry (r, j) at its coefficient times
   * the embedding entry, the coefficient growing by the edge's gradient for
   * each endpoint at r.
   */
  lemma {:induction false} RowStepEntry(m: seq<seq<real>>, a: seq<seq<real>>, s: nat, t: nat, g: real, c: real, r: nat, j: nat,
                                        a': seq<seq<real>>, c': real)
    requires Rectangular(m) && SameShape(a, m) && s < |m| && t < |m| && r < |m| && j < |m[r]|
    requires a[r][j] == c * m[r][j]
    requires a' == AddToRow(AddToRow(a, s, g, m[s]), t, g, m[t])
    requires c' == c + (if s == r then g else 0.0) + (if t == r then g else 0.0)
    ensures a'[r][j] == c' * m[r][j]
  {
    var a1 := AddToRow(a, s, g, m[s]);
    AddToRowEntry(a, s, g, m[s], r, j);
    AddToRowEntry(a1, t, g, m[t], r, j);
    AccumulateEntry(c, g, m[r][j], m[s][j], m[t][j], s == r, t == r, a[r][j], a1[r][j], a'[r][j], c');
  }

  /** Entry (r, j) of the accumulation is `c`, the factor of row r, times embedding entry (r, j). */
  lemma {:induction false} AccumulateEntryAt(m: seq<seq<real>>, idx: seq<(nat, nat)>, gs: seq<real>, r: nat, j: nat, c: real)
    requires Rectangular(m) && RowsIn(idx, |m|) && |gs| == |idx|
    requires r < |m| && j < |m[r]| && c == Coefficient(idx, gs, r)
    ensures Accumulate(m, idx, gs)[r][j] == c * m[r][j]
    decreases |idx|
  {
    if idx != [] {
      var init, gs0 := idx[..|idx| - 1], gs[..|gs| - 1];
      assert RowsIn(init, |m|);
      var c0 := Coefficient(init, gs0, r);
      CoefficientStep(idx, gs, r);
      AccumulateEntryAt(m, init, gs0, r, j, c0);
      RowStepEntry(m, Accumulate(m, init, gs0), idx[|idx| - 1].0, idx[|idx| - 1].1, gs[|gs| - 1], c0, r, j, Accumulate(m, idx, gs), c);
    } else {
      ZeroEntry(Accumulate(m, idx, gs)[r][j], c, m[r][j]);
    }
  }

  /** `c * row`, entry by entry. */
  function ScaledRow(c: real, row: seq<real>): (v: seq<real>)
    ensures |v| == |row| && forall j :: 0 <= j < |row| ==> v[j] == c * row[j]
  {
    seq(|row|, j requires 0 <= j < |row| => c * row[j])
  }

  /** Row r of the accumulation is `c`, the factor of row r, times embedding row r. */
  lemma {:induction false} AccumulateRowAt(m: seq<seq<real>>, idx: seq<(nat, nat)>, gs: seq<real>, r: nat, c: real)
    requires Rectangular(m) && RowsIn(idx, |m|) && |gs| == |idx|
    requires r < |m| && c == Coefficient(idx, gs, r)
    ensures Accumulate(m, idx, gs)[r] == ScaledRow(c, m[r])
  {
    var a, v := Accumulate(m, idx, gs)[r], ScaledRow(c, m[r]);
    assert |a| == |v|;
    forall j | 0 <= j < |a| ensures a[j] == v[j] {
      AccumulateEntryAt(m, idx, gs, r, j, c);
    }
  }

  /**
   * Row r of the accumulation is Coefficient(r) times embedding row r: the sum
   * of the gradients of the edges with r as source plus those with r as target.
   */
  lemma {:induction false} AccumulateRows(m: seq<seq<real>>, idx: seq<(nat, nat)>, gs: seq<real>)
    requires Rectangular(m) && RowsIn(idx, |m|) && |gs| == |idx|
    ensures forall r :: 0 <= r < |m| ==> Accumulate(m, idx, gs)[r] == ScaledRow(Coefficient(idx, gs, r), m[r])
  {
    forall r | 0 <= r < |m| ensures Accumulate(m, idx, gs)[r] == ScaledRow(Coefficient(idx, gs, r), m[r]) {
      AccumulateRowAt(m, idx, gs, r, Coefficient(idx, gs, r));
    }
  }

  /** The kernel's update, row by row: Coefficient(r) over the batch, times embedding row r. */
  lemma {:induction false} UpdateMatrixRows(m: seq<seq<real>>, edges: seq<TrainingEdge>)
    requires Rectangular(m) && BatchInBounds(edges, |m|)
    ensures forall r :: 0 <= r < |m| ==>
      UpdateMatrix(m, edges)[r] == ScaledRow(Coefficient(Endpoints(m, edges), Gradients(m, edges), r), m[r])
  {
    AccumulateRows(m, Endpoints(m, edges), Gradients(m, edges));
  }

  /** `update[r] += g * row`, one column at a time. */
  method AddScaledRow(update: array2<real>, r: nat, g: real, row: seq<real>)
    requires r < update.Length0 && |row| == update.Length1
    modifies update
    ensures Rows(update) == AddToRow(old(Rows(update)), r, g, row)
  {
    ghost var before := Rows(update);
    for j := 0 to update.Length1
      invariant forall q :: 0 <= q < j ==> update[r, q] == before[r][q] + g * row[q]
      invariant forall q :: j <= q < update.Length1 ==> update[r, q] == before[r][q]
      invariant forall i, q :: 0 <= i < update.Length0 && i != r && 0 <= q < update.Length1 ==> update[i, q] == before[i][q]
    {
      update[r, j] := update[r, j] + g * row[j];
    }
    ghost var after := AddToRow(before, r, g, row);
    forall i | 0 <= i < update.Length0 ensures Rows(update)[i] == after[i] {
      assert forall q :: 0 <= q < update.Length1 ==> Rows(update)[i][q] == after[i][q];
    }
  }

  /**
   * `compute_dot_product_update`: starting from a zero matrix of the
   * embeddings' shape and a zero loss, each edge adds its gradient to the loss
   * and gradient × embedding row to the rows of its source and of its target.
   * Gradients are taken against the unmodified input embeddings.
   */
  method ComputeDotProductUpdate(embeddings: array2<real>, trainingEdges: seq<TrainingEdge>)
    returns (update: array2<real>, loss: real)
    requires BatchInBounds(trainingEdges, embeddings.Length0)
    ensures update.Length0 == embeddings.Length0 && update.Length1 == embeddings.Length1
    ensures Rows(update) == UpdateMatrix(Rows(embeddings), trainingEdges)
    ensures loss == TotalLoss(Rows(embeddings), trainingEdges)
  {
    var m := Rows(embeddings);
    var n := embeddings.Length0;
    update := new real[n, embeddings.Length1]((i, j) => 0.0);
    loss := 0.0;
    KernelStart(m, trainingEdges, Rows(update));
    var k := 0;
    while k < |trainingEdges|
      invariant 0 <= k <= |trainingEdges|
      invariant update.Length0 == n && update.Length1 == embeddings.Length1
      invariant Computed(m, trainingEdges, k, Rows(update), loss)
    {
      var e := trainingEdges[k];
      var s := RowIndex(e.source, n);
      var t := RowIndex(e.target, n);
      var g := e.weight - Dot(m[s], m[t]);
      ghost var before, lossBefore := Rows(update), loss;
      loss := loss + g;
      AddScaledRow(update, s, g, m[s]);
      AddScaledRow(update, t, g, m[t]);
      KernelStep(m, trainingEdges, k, before, lossBefore, Rows(update), loss);
      k := k + 1;
    }
    KernelEnd(m, trainingEdges, Rows(update), loss);
  }

  /**
   * The kernel has gone through the first k edges of the batch: `u` and `loss`
   * are the update and the loss of that prefix. The prefix is named under a
   * quantifier over its length so that a proof unfolds the accumulation only
   * where it names a prefix of its own.
   */
  ghost predicate Computed(m: seq<seq<real>>, edges: seq<TrainingEdge>, k: int, u: seq<seq<real>>, loss: real) {
    && Rectangular(m) && BatchInBounds(edges, |m|) && 0 <= k <= |edges| && SameShape(u, m)
    && forall n: nat | n == k && n <= |edges| ::
      BatchInBounds(edges[..n], |m|) && u == UpdateMatrix(m, edges[..n]) && loss == TotalLoss(m, edges[..n])
  }

  /** The kernel's zero-filled start is the update and the loss of the empty prefix of the batch. */
  lemma {:induction false} KernelStart(m: seq<seq<real>>, edges: seq<TrainingEdge>, u: seq<seq<real>>)
    requires Rectangular(m) && BatchInBounds(edges, |m|) && IsMatrix(u, |m|, if |m| == 0 then 0 else |m[0]|)
    requires forall i, j :: 0 <= i < |u| && 0 <= j < |u[i]| ==> u[i][j] == 0.0
    ensures Computed(m, edges, 0, u, 0.0)
  {
    assert edges[..0] == [];
    EmptyBatch(m);
    var z := Zeros(|m|, if |m| == 0 then 0 else |m[0]|);
    forall i | 0 <= i < |u| ensures u[i] == z[i] {
      assert forall j :: 0 <= j < |u[i]| ==> u[i][j] == z[i][j];
    }
  }

  /**
   * One pass of the kernel's loop: edge k, touching rows s and t with gradient
   * g against the input embeddings, adds g to the loss of the first k edges and
   * g × embedding row s, then g × embedding row t, to their update.
   */
  lemma {:induction false} KernelStep(m: seq<seq<real>>, edges: seq<TrainingEdge>, k: nat,
                                      u: seq<seq<real>>, loss: real, u': seq<seq<real>>, loss': real)
    requires k < |edges| && Computed(m, edges, k, u, loss)
    requires var e := edges[k];
      var s, t := RowIndex(e.source, |m|), RowIndex(e.target, |m|);
      var g := e.weight - Dot(m[s], m[t]);
      && u' == AddToRow(AddToRow(u, s, g, m[s]), t, g, m[t])
      && loss' == loss + g
    ensures Computed(m, edges, k + 1, u', loss')
  {
    var a, b := edges[..k], edges[..k + 1];
    assert b[..k] == a;
    var ib, gb := Endpoints(m, b), Gradients(m, b);
    assert ib[..k] == Endpoints(m, a);
    assert gb[..k] == Gradients(m, a);
    SumPrefixStep(gb, k);
    assert gb[..k + 1] == gb;
  }

  /** Past the last edge the prefix is the whole batch. */
  lemma {:induction false} KernelEnd(m: seq<seq<real>>, edges: seq<TrainingEdge>, u: seq<seq<real>>, loss: real)
    requires Computed(m, edges, |edges|, u, loss)
    ensures u == UpdateMatrix(m, edges) && loss == TotalLoss(m, edges)
  {
    assert edges[..|edges|] == edges;
  }

  // ---------------------------------------------------------------------
  // Properties of the kernel's result

  /** An empty batch gives the zero matrix and a zero loss. */
  lemma {:induction false} EmptyBatch(m: seq<seq<real>>)
    requires Rectangular(m)
    ensures UpdateMatrix(m, []) == Zeros(|m|, if |m| == 0 then 0 else |m[0]|)
    ensures TotalLoss(m, []) == 0.0
  {
    var u := UpdateMatrix(m, []);
    var z := Zeros(|m|, if |m| == 0 then 0 else |m[0]|);
    assert Gradients(m, []) == [];
    forall r | 0 <= r < |m| ensures u[r] == z[r] {
      assert forall j :: 0 <= j < |m[r]| ==> u[r][j] == 0.0;
    }
  }

  /** A row no edge of the batch touches gets a zero coefficient, whatever the gradients. */
  lemma {:induction false} UntouchedCoefficient(idx: seq<(nat, nat)>, gs: seq<real>, r: nat)
    requires |gs| == |idx|
    requires forall k :: 0 <= k < |idx| ==> idx[k].0 != r && idx[k].1 != r
    ensures Coefficient(idx, gs, r) == 0.0
  {
    SumZeros(Contributions(idx, gs, r));
  }

  /** Rows of nodes that appear in no edge of the batch stay all zero. */
  lemma {:induction false} UntouchedRowIsZero(m: seq<seq<real>>, edges: seq<TrainingEdge>, r: nat)
    requires Rectangular(m) && BatchInBounds(edges, |m|) && r < |m|
    requires forall k :: 0 <= k < |edges| ==> RowIndex(edges[k].source, |m|) != r && RowIndex(edges[k].target, |m|) != r
    ensures forall j :: 0 <= j < |m[r]| ==> UpdateMatrix(m, edges)[r][j] == 0.0
  {
    UntouchedCoefficient(Endpoints(m, edges), Gradients(m, edges), r);
    UpdateMatrixRows(m, edges);
  }

  /**
   * Splitting a batch in two and adding the coefficients gives those of the
   * whole batch: each edge contributes independently of the others.
   */
  lemma {:induction false} CoefficientAppend(ia: seq<(nat, nat)>, ga: seq<real>, ib: seq<(nat, nat)>, gb: seq<real>, r: nat)
    requires |ga| == |ia| && |gb| == |ib|
    ensures Coefficient(ia + ib, ga + gb, r) == Coefficient(ia, ga, r) + Coefficient(ib, gb, r)
  {
    var ca, cb := Contributions(ia, ga, r), Contributions(ib, gb, r);
    assert Contributions(ia + ib, ga + gb, r) == ca + cb;
    SumAppend(ca, cb);
  }

  /** The rows a concatenated batch touches are those of its parts. */
  lemma {:induction false} EndpointsAppend(m: seq<seq<real>>, a: seq<TrainingEdge>, b: seq<TrainingEdge>)
    requires BatchInBounds(a, |m|) && BatchInBounds(b, |m|)
    ensures BatchInBounds(a + b, |m|)
    ensures Endpoints(m, a + b) == Endpoints(m, a) + Endpoints(m, b)
  {
    assert forall k :: 0 <= k < |a + b| ==> (a + b)[k] == if k < |a| then a[k] else b[k - |a|];
    assert Endpoints(m, a + b) == Endpoints(m, a) + Endpoints(m, b);
  }

  /** The gradients, and so the loss, of a concatenated batch are those of its parts. */
  lemma {:induction false} TotalLossAppend(m: seq<seq<real>>, a: seq<TrainingEdge>, b: seq<TrainingEdge>)
    requires Rectangular(m) && BatchInBounds(a, |m|) && BatchInBounds(b, |m|)
    ensures BatchInBounds(a + b, |m|)
    ensures Gradients(m, a + b) == Gradients(m, a) + Gradients(m, b)
    ensures TotalLoss(m, a + b) == TotalLoss(m, a) + TotalLoss(m, b)
  {
    assert forall k :: 0 <= k < |a + b| ==> (a + b)[k] == if k < |a| then a[k] else b[k - |a|];
    assert Gradients(m, a + b) == Gradients(m, a) + Gradients(m, b);
    SumAppend(Gradients(m, a), Gradients(m, b));
  }

  /** A self-loop adds its gradient twice to its node's coefficient. */
  lemma {:induction false} SelfLoopCountsTwice(idx: seq<(nat, nat)>, gs: seq<real>, r: nat, g: real)
    requires |gs| == |idx|
    ensures Coefficient(idx + [(r, r)], gs + [g], r) == Coefficient(idx, gs, r) + 2.0 * g
  {
    assert (idx + [(r, r)])[..|idx|] == idx;
    assert (gs + [g])[..|gs|] == gs;
    CoefficientStep(idx + [(r, r)], gs + [g], r);
  }

  /** The gradients and rows of the batch [(0, 1, 0), (1, 2, 1)] on embeddings [[1, 1], [1, 0], [1, 2]]. */
  lemma ExampleBatch()
    ensures Rectangular([[1.0, 1.0], [1.0, 0.0], [1.0, 2.0]])
    ensures BatchInBounds([TrainingEdge(0.0, 1.0, 0.0), TrainingEdge(1.0, 2.0, 1.0)], 3)
    ensures Gradients([[1.0, 1.0], [1.0, 0.0], [1.0, 2.0]], [TrainingEdge(0.0, 1.0, 0.0), TrainingEdge(1.0, 2.0, 1.0)])
      == [-1.0, 0.0]
    ensures Endpoints([[1.0, 1.0], [1.0, 0.0], [1.0, 2.0]], [TrainingEdge(0.0, 1.0, 0.0), TrainingEdge(1.0, 2.0, 1.0)])
      == [(0, 1), (1, 2)]
  {
    var m := [[1.0, 1.0], [1.0, 0.0], [1.0, 2.0]];
    assert Trunc(0.0) == 0 && Trunc(1.0) == 1 && Trunc(2.0) == 2;
    assert Products(m[0], m[1]) == [1.0, 0.0];
    assert Products(m[1], m[2]) == [1.0, 0.0];
    SumOfTwo(1.0, 0.0);
  }

  /**
   * On that batch the kernel returns the update [[-1, -1], [-1, 0], [0, 0]]
   * and the loss -1: node 2 only meets an edge of zero gradient.
   */
  lemma KernelExample()
    ensures Rectangular([[1.0, 1.0], [1.0, 0.0], [1.0, 2.0]])
    ensures BatchInBounds([TrainingEdge(0.0, 1.0, 0.0), TrainingEdge(1.0, 2.0, 1.0)], 3)
    ensures UpdateMatrix([[1.0, 1.0], [1.0, 0.0], [1.0, 2.0]], [TrainingEdge(0.0, 1.0, 0.0), TrainingEdge(1.0, 2.0, 1.0)])
      == [[-1.0, -1.0], [-1.0, 0.0], [0.0, 0.0]]
    ensures TotalLoss([[1.0, 1.0], [1.0, 0.0], [1.0, 2.0]], [TrainingEdge(0.0, 1.0, 0.0), TrainingEdge(1.0, 2.0, 1.0)]) == -1.0
  {
    var m := [[1.0, 1.0], [1.0, 0.0], [1.0, 2.0]];
    var edges := [TrainingEdge(0.0, 1.0, 0.0), TrainingEdge(1.0, 2.0, 1.0)];
    ExampleBatch();
    var idx, gs := [(0, 1), (1, 2)], [-1.0, 0.0];
    assert Contributions(idx, gs, 0) == [-1.0, 0.0];
    assert Contributions(idx, gs, 1) == [-1.0, 0.0];
    assert Contributions(idx, gs, 2) == [0.0, 0.0];
    SumOfTwo(-1.0, 0.0);
    SumOfTwo(0.0, 0.0);
    UpdateMatrixRows(m, edges);
    var u := UpdateMatrix(m, edges);
    assert u[0] == ScaledRow(-1.0, m[0]) == [-1.0, -1.0];
    assert u[1] == ScaledRow(-1.0, m[1]) == [-1.0, 0.0];
    assert u[2] == ScaledRow(0.0, m[2]) == [0.0, 0.0];
  }
}
