/**
 * Two-dimensional numpy arrays of floats as Dafny `array2<real>`, their
 * contents as row sequences, and the in-place gradient step both optimizers
 * apply to their embedding matrix.
 */
module Matrix {

  /** The contents of `a`, row by row. */
  function Rows(a: array2<real>): (m: seq<seq<real>>)
    reads a
    ensures IsMatrix(m, a.Length0, a.Length1)
  {
    seq(a.Length0, i requires 0 <= i < a.Length0 reads a => Row(a, i))
  }

  /** Row `i` of `a` (`a[i]` in numpy). */
  function Row(a: array2<real>, i: nat): (r: seq<real>)
    requires i < a.Length0
    reads a
    ensures |r| == a.Length1
  {
    seq(a.Length1, j requires 0 <= j < a.Length1 reads a => a[i, j])
  }

  /** `m` has shape rows × cols. */
  predicate IsMatrix(m: seq<seq<real>>, rows: nat, cols: nat) {
    |m| == rows && forall i :: 0 <= i < rows ==> |m[i]| == cols
  }

  /** All rows of `m` have the same length. */
  predicate Rectangular(m: seq<seq<real>>) {
    forall i, j :: 0 <= i < |m| && 0 <= j < |m| ==> |m[i]| == |m[j]|
  }

  predicate SameShape(m: seq<seq<real>>, n: seq<seq<real>>) {
    |m| == |n| && forall i :: 0 <= i < |m| ==> |m[i]| == |n[i]|
  }

  /** `np.zeros(shape)` as rows. */
  function Zeros(rows: nat, cols: nat): (m: seq<seq<real>>)
    ensures IsMatrix(m, rows, cols)
  {
    seq(rows, i => seq(cols, j => 0.0))
  }

  /** One entry of `e += lr * u`, or of `e += lr * (u - λ * e)` with L2 regularisation. */
  function StepEntry(e: real, u: real, lr: real, lambda: real, l2: bool): real {
    if l2 then e + lr * (u - lambda * e) else e + lr * u
  }

  /** The embeddings after the optimizers' in-place `+=` with update matrix `u`. */
  function GradientStep(m: seq<seq<real>>, u: seq<seq<real>>, lr: real, lambda: real, l2: bool): (r: seq<seq<real>>)
    requires SameShape(m, u)
    ensures SameShape(r, m)
  {
    seq(|m|, i requires 0 <= i < |m| =>
      seq(|m[i]|, j requires 0 <= j < |m[i]| => StepEntry(m[i][j], u[i][j], lr, lambda, l2)))
  }

  /**
   * The step without L2 moves each entry by exactly lr·u, so the old matrix
   * is recovered by subtracting it; with L2 it is weight decay by the factor
   * 1 − lr·λ followed by the same move.
   */
  lemma {:induction false} GradientStepEntries(m: seq<seq<real>>, u: seq<seq<real>>, lr: real, lambda: real)
    requires SameShape(m, u)
    ensures forall i, j :: 0 <= i < |m| && 0 <= j < |m[i]| ==>
      GradientStep(m, u, lr, lambda, false)[i][j] - lr * u[i][j] == m[i][j]
    ensures forall i, j :: 0 <= i < |m| && 0 <= j < |m[i]| ==>
      GradientStep(m, u, lr, lambda, true)[i][j] == (1.0 - lr * lambda) * m[i][j] + lr * u[i][j]
  {
    forall i, j | 0 <= i < |m| && 0 <= j < |m[i]|
      ensures GradientStep(m, u, lr, lambda, true)[i][j] == (1.0 - lr * lambda) * m[i][j] + lr * u[i][j]
    {
      var e, v := m[i][j], u[i][j];
      calc {
        e + lr * (v - lambda * e);
        e - lr * lambda * e + lr * v;
        (1.0 - lr * lambda) * e + lr * v;
      }
    }
  }

  /** A zero learning rate leaves the embeddings as they are, with or without L2. */
  lemma {:induction false} GradientStepZeroRate(m: seq<seq<real>>, u: seq<seq<real>>, lambda: real, l2: bool)
    requires SameShape(m, u)
    ensures GradientStep(m, u, 0.0, lambda, l2) == m
  {
    var r := GradientStep(m, u, 0.0, lambda, l2);
    forall i | 0 <= i < |m| ensures r[i] == m[i] {
      assert forall j :: 0 <= j < |m[i]| ==> r[i][j] == m[i][j];
    }
  }

  /** `a += lr * u` (or with L2), entry by entry and in place. */
  method ApplyStep(a: array2<real>, u: seq<seq<real>>, lr: real, lambda: real, l2: bool)
    requires IsMatrix(u, a.Length0, a.Length1)
    modifies a
    ensures Rows(a) == GradientStep(old(Rows(a)), u, lr, lambda, l2)
  {
    ghost var m := Rows(a);
    for i := 0 to a.Length0
      invariant forall p, q :: 0 <= p < i && 0 <= q < a.Length1 ==> a[p, q] == StepEntry(m[p][q], u[p][q], lr, lambda, l2)
      invariant forall p, q :: i <= p < a.Length0 && 0 <= q < a.Length1 ==> a[p, q] == m[p][q]
    {
      for j := 0 to a.Length1
        invariant forall p, q :: 0 <= p < i && 0 <= q < a.Length1 ==> a[p, q] == StepEntry(m[p][q], u[p][q], lr, lambda, l2)
        invariant forall q :: 0 <= q < j ==> a[i, q] == StepEntry(m[i][q], u[i][q], lr, lambda, l2)
        invariant forall p, q :: i <= p < a.Length0 && 0 <= q < a.Length1 && (p > i || q >= j) ==> a[p, q] == m[p][q]
      {
        a[i, j] := StepEntry(a[i, j], u[i][j], lr, lambda, l2);
      }
    }
    ghost var r := GradientStep(m, u, lr, lambda, l2);
    forall i | 0 <= i < a.Length0 ensures Rows(a)[i] == r[i] {
      assert forall j :: 0 <= j < a.Length1 ==> Rows(a)[i][j] == r[i][j];
    }
  }
}
