/**
 * The older trainer's pair optimizer: it updates a caller-owned embedding
 * matrix in place with the matrix an external kernel computes, and anneals
 * the rate with a formula whose 10^6 factor multiplies instead of divides.
 */
module SmorePairOptimizer {
  import opened Wrappers
  import opened Matrix
  import opened Rates

  /** The one exception `dot_product_loss` can raise itself: a zero `total_update_times`. */
  datatype UpdateError = ZeroDivision

  /**
   * The argument `dot_product_loss` passes to `_update_learning_rate` after
   * its n-th call: `1.0 - (n / total_update_times * 10**6)`, or the
   * ZeroDivisionError Python raises when `total_update_times` is zero.
   */
  function AnnealTarget(nUpdate: nat, totalUpdateTimes: int): (r: Result<real, UpdateError>)
    ensures r.Failure? <==> totalUpdateTimes == 0
  {
    if totalUpdateTimes == 0 then Failure(ZeroDivision)
    else Success(1.0 - nUpdate as real / totalUpdateTimes as real * 1000000.0)
  }

  /** The learning rate after the n-th call, for a non-zero `total_update_times` and the given floor. */
  function RateAfter(nUpdate: nat, totalUpdateTimes: int, floor: real): (r: real)
    requires totalUpdateTimes != 0
    ensures r >= floor
  {
    Floored(AnnealTarget(nUpdate, totalUpdateTimes).value, floor)
  }

  /**
   * From the first call on, a `total_update_times` of at most 10^6 drives the
   * anneal target to 0 or below, so a positive initial rate is pinned at its
   * floor after every call.
   */
  lemma {:induction false} PinnedAtFloor(nUpdate: nat, totalUpdateTimes: int, lr: real)
    requires nUpdate >= 1 && 0 < totalUpdateTimes <= 1000000 && lr > 0.0
    ensures AnnealTarget(nUpdate, totalUpdateTimes).value <= 0.0
    ensures RateAfter(nUpdate, totalUpdateTimes, MinimumRate(lr)) == MinimumRate(lr)
  {
    var t := totalUpdateTimes as real;
    var q := nUpdate as real / t;
    assert q * t == nUpdate as real;
    assert q * 1000000.0 >= 1.0 by {
      ScaledQuotient(nUpdate as real, t, q);
    }
  }

  /** For q = n / t with n >= 1 and 0 < t <= 10^6, q · 10^6 >= 1. */
  lemma {:induction false} ScaledQuotient(n: real, t: real, q: real)
    requires n >= 1.0 && 0.0 < t <= 1000000.0 && q * t == n
    ensures q * 1000000.0 >= 1.0
  {
    assert q > 0.0;
    assert q * 1000000.0 >= q * t;
  }

  /** The fixture's total_update_times of 5 with the default rate leaves the rate at 2.5e-6 after every call. */
  lemma {:induction false} FixtureRate(nUpdate: nat)
    requires nUpdate >= 1
    ensures RateAfter(nUpdate, 5, MinimumRate(0.025)) == 0.0000025
  {
    PinnedAtFloor(nUpdate, 5, 0.025);
  }

  class PairOptimizer {
    const embeddings: array2<real>
    var learningRate: real
    const learningRateMin: real
    const lambda: real
    const loss: array2<real>
    const totalUpdateTimes: int
    var nUpdate: nat

    /** The loss buffer is a matrix of its own, not the embeddings. */
    ghost predicate Separate() {
      loss != embeddings
    }

    /**
     * `PairOptimizer(embeddings, total_update_times, lr, l2_reg)`: the
     * optimizer keeps the caller's array itself, not a copy, and a zero
     * `loss` matrix of the same shape.
     */
    constructor(embeddings: array2<real>, totalUpdateTimes: int, lr: real := 0.025, l2Reg: real := 0.01)
      ensures this.embeddings == embeddings
      ensures learningRate == lr && learningRateMin == MinimumRate(lr) && lambda == l2Reg
      ensures this.totalUpdateTimes == totalUpdateTimes && nUpdate == 0
      ensures fresh(loss) && Separate()
      ensures Rows(loss) == Zeros(embeddings.Length0, embeddings.Length1)
    {
      this.embeddings := embeddings;
      learningRate := lr;
      learningRateMin := MinimumRate(lr);
      lambda := l2Reg;
      loss := new real[embeddings.Length0, embeddings.Length1]((i, j) => 0.0);
      this.totalUpdateTimes := totalUpdateTimes;
      nUpdate := 0;
      new;
      forall i | 0 <= i < embeddings.Length0 ensures Rows(loss)[i] == Zeros(embeddings.Length0, embeddings.Length1)[i] {
        assert forall j :: 0 <= j < embeddings.Length1 ==> Rows(loss)[i][j] == 0.0;
      }
    }

    /** `_update_learning_rate(x)`: the new rate is x raised to the floor; nothing else changes. */
    method UpdateLearningRate(x: real)
      modifies this
      ensures learningRate == Floored(x, learningRateMin)
      ensures nUpdate == old(nUpdate)
    {
      var rate := x;
      if rate < learningRateMin {
        rate := learningRateMin;
      }
      learningRate := rate;
    }

    /**
     * `dot_product_loss(training_edges, l2_reg)`. The kernel
     * `compute_dot_product_loss` is not part of this model and is the
     * parameter `kernel`, a matrix of the embeddings' shape. The embeddings
     * take one gradient step with that matrix and the rate from before the
     * call; the count goes up by one; the rate is re-annealed; the `loss`
     * field keeps its zeros. A zero `total_update_times` raises after the
     * step and the count, leaving the rate as it was.
     */
    method DotProductLoss<E>(trainingEdges: E, kernel: (seq<seq<real>>, E) -> seq<seq<real>>, l2Reg: bool := false)
      returns (r: Outcome<UpdateError>)
      requires Separate()
      requires IsMatrix(kernel(Rows(embeddings), trainingEdges), embeddings.Length0, embeddings.Length1)
      modifies this, embeddings
      ensures Rows(embeddings) == GradientStep(old(Rows(embeddings)), kernel(old(Rows(embeddings)), trainingEdges), old(learningRate), lambda, l2Reg)
      ensures Rows(loss) == old(Rows(loss))
      ensures nUpdate == old(nUpdate) + 1
      ensures r.Pass? <==> totalUpdateTimes != 0
      ensures r.Pass? ==> learningRate == RateAfter(nUpdate, totalUpdateTimes, learningRateMin)
      ensures r.Fail? ==> learningRate == old(learningRate)
    {
      var update := kernel(Rows(embeddings), trainingEdges);
      ApplyStep(embeddings, update, learningRate, lambda, l2Reg);
      nUpdate := nUpdate + 1;
      var target := AnnealTarget(nUpdate, totalUpdateTimes);
      if target.Failure? {
        return Fail(target.error);
      }
      UpdateLearningRate(target.value);
      r := Pass;
    }
  }
}
