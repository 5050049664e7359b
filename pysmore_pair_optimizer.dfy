/**
 * The newer trainer's pair optimizer: it holds the embedding matrix and the
 * learning rate, and each `update` applies one batch's gradient step and
 * anneals the rate linearly in the number of updates made so far.
 */
module PysmorePairOptimizer {
  import opened Wrappers
  import opened Matrix
  import opened Rates
  import opened PysmoreLossFunction

  /** The one exception `update` can raise itself: a zero `total_update_times * sample_size`. */
  datatype UpdateError = ZeroDivision

  /**
   * The argument `update` passes to `_update_learning_rate` after its n-th
   * update: `1.0 - n / (total_update_times * sample_size)`, or the
   * ZeroDivisionError Python raises when the product is zero.
   */
  function AnnealTarget(nUpdate: nat, totalUpdateTimes: int, sampleSize: int): (r: Result<real, UpdateError>)
    ensures r.Failure? <==> totalUpdateTimes * sampleSize == 0
  {
    var product := totalUpdateTimes * sampleSize;
    if product == 0 then Failure(ZeroDivision)
    else Success(1.0 - nUpdate as real / product as real)
  }

  /** The learning rate after the n-th update, for a non-zero product and the given floor. */
  function RateAfter(nUpdate: nat, totalUpdateTimes: int, sampleSize: int, floor: real): (r: real)
    requires totalUpdateTimes * sampleSize != 0
    ensures r >= floor
  {
    Floored(AnnealTarget(nUpdate, totalUpdateTimes, sampleSize).value, floor)
  }

  /**
   * With a positive product the anneal target starts at 1, falls linearly to
   * 0 when n reaches the product, and lies in [0, 1] in between.
   */
  lemma {:induction false} AnnealTargetRange(nUpdate: nat, totalUpdateTimes: int, sampleSize: int)
    requires totalUpdateTimes * sampleSize > 0
    ensures AnnealTarget(nUpdate, totalUpdateTimes, sampleSize).value <= 1.0
    ensures nUpdate == 0 ==> AnnealTarget(nUpdate, totalUpdateTimes, sampleSize).value == 1.0
    ensures nUpdate == totalUpdateTimes * sampleSize ==> AnnealTarget(nUpdate, totalUpdateTimes, sampleSize).value == 0.0
    ensures nUpdate <= totalUpdateTimes * sampleSize ==> AnnealTarget(nUpdate, totalUpdateTimes, sampleSize).value >= 0.0
  {
    var p := (totalUpdateTimes * sampleSize) as real;
    QuotientBounds(nUpdate as real, p);
  }

  /** 0 <= x / p, with x / p <= 1 exactly when x <= p, and x / p == 1 when x == p. */
  lemma {:induction false} QuotientBounds(x: real, p: real)
    requires x >= 0.0 && p > 0.0
    ensures x / p >= 0.0
    ensures x <= p ==> x / p <= 1.0
    ensures x == p ==> x / p == 1.0
  {
  }

  /** x / p <= y / p for x <= y and positive p. */
  lemma {:induction false} QuotientMonotone(x: real, y: real, p: real)
    requires x <= y && p > 0.0
    ensures x / p <= y / p
  {
    assert y / p - x / p == (y - x) / p;
  }

  /** With a positive product the anneal target never increases as updates accumulate. */
  lemma {:induction false} AnnealTargetDecreasing(n: nat, n': nat, totalUpdateTimes: int, sampleSize: int)
    requires totalUpdateTimes * sampleSize > 0 && n <= n'
    ensures AnnealTarget(n', totalUpdateTimes, sampleSize).value <= AnnealTarget(n, totalUpdateTimes, sampleSize).value
  {
    QuotientMonotone(n as real, n' as real, (totalUpdateTimes * sampleSize) as real);
  }

  /**
   * Between post-update values the rate never increases and never drops
   * below the floor; once n reaches the product it sits at a non-negative
   * floor.
   */
  lemma {:induction false} RateNonIncreasing(n: nat, n': nat, totalUpdateTimes: int, sampleSize: int, floor: real)
    requires totalUpdateTimes * sampleSize > 0 && n <= n'
    ensures RateAfter(n', totalUpdateTimes, sampleSize, floor) <= RateAfter(n, totalUpdateTimes, sampleSize, floor)
    ensures floor >= 0.0 && n >= totalUpdateTimes * sampleSize ==> RateAfter(n, totalUpdateTimes, sampleSize, floor) == floor
  {
    AnnealTargetDecreasing(n, n', totalUpdateTimes, sampleSize);
    FlooredMonotone(AnnealTarget(n', totalUpdateTimes, sampleSize).value, AnnealTarget(n, totalUpdateTimes, sampleSize).value, floor);
    if n >= totalUpdateTimes * sampleSize {
      QuotientBounds((totalUpdateTimes * sampleSize) as real, (totalUpdateTimes * sampleSize) as real);
      QuotientMonotone((totalUpdateTimes * sampleSize) as real, n as real, (totalUpdateTimes * sampleSize) as real);
    }
  }

  /**
   * The rate is recomputed from the update count rather than from the
   * current rate, so the first update with the defaults (lr = 0.025,
   * sample_size = 10^6) and 5 update times raises the rate to 0.9999998.
   */
  lemma FirstUpdateRaisesRate()
    ensures RateAfter(1, 5, 1000000, MinimumRate(0.025)) == 0.9999998
    ensures RateAfter(1, 5, 1000000, MinimumRate(0.025)) > 0.025
  {
  }

  class PairOptimizer {
    var learningRate: real
    const learningRateMin: real
    const lambda: real
    const totalUpdateTimes: int
    const sampleSize: int
    var nUpdate: nat
    var loss: real
    const embeddings: array2<real>

    /**
     * `PairOptimizer(node_num, dimension, total_update_times, sample_size,
     * lr, l2_reg)`. The uniform draw in [-1, 1) that fills the embeddings
     * is the parameter `init`.
     */
    constructor(nodeNum: nat, dimension: nat, totalUpdateTimes: int, init: seq<seq<real>>,
                sampleSize: int := 1000000, lr: real := 0.025, l2Reg: real := 0.01)
      requires IsMatrix(init, nodeNum, dimension)
      requires forall i, j :: 0 <= i < nodeNum && 0 <= j < dimension ==> -1.0 <= init[i][j] < 1.0
      ensures learningRate == lr && learningRateMin == MinimumRate(lr) && lambda == l2Reg
      ensures this.totalUpdateTimes == totalUpdateTimes && this.sampleSize == sampleSize
      ensures nUpdate == 0 && loss == 0.0
      ensures fresh(embeddings) && embeddings.Length0 == nodeNum && embeddings.Length1 == dimension
      ensures Rows(embeddings) == init
    {
      learningRate := lr;
      learningRateMin := MinimumRate(lr);
      lambda := l2Reg;
      this.totalUpdateTimes := totalUpdateTimes;
      this.sampleSize := sampleSize;
      nUpdate := 0;
      loss := 0.0;
      embeddings := new real[nodeNum, dimension]((i, j) requires 0 <= i < nodeNum && 0 <= j < dimension => init[i][j]);
      new;
      forall i | 0 <= i < nodeNum ensures Rows(embeddings)[i] == init[i] {
        assert forall j :: 0 <= j < dimension ==> Rows(embeddings)[i][j] == init[i][j];
      }
    }

    /** `_update_learning_rate(x)`: the new rate is x raised to the floor; nothing else changes. */
    method UpdateLearningRate(x: real)
      modifies this
      ensures learningRate == Floored(x, learningRateMin)
      ensures nUpdate == old(nUpdate) && loss == old(loss)
    {
      var rate := x;
      if rate < learningRateMin {
        rate := learningRateMin;
      }
      learningRate := rate;
    }

    /** `_reset_loss()`. */
    method ResetLoss()
      modifies this
      ensures loss == 0.0
      ensures learningRate == old(learningRate) && nUpdate == old(nUpdate)
    {
      loss := 0.0;
    }

    /**
     * `update(training_edges, l2_reg)`: the loss becomes the batch's kernel
     * loss; the embeddings take one gradient step with the rate from before
     * the call (with weight decay λ under L2); the count goes up by one; and
     * the rate is re-annealed from the new count. A zero
     * `total_update_times * sample_size` raises after the step and the
     * count, leaving the rate as it was.
     */
    method Update(trainingEdges: seq<TrainingEdge>, l2Reg: bool := false) returns (r: Outcome<UpdateError>)
      requires BatchInBounds(trainingEdges, embeddings.Length0)
      modifies this, embeddings
      ensures loss == TotalLoss(old(Rows(embeddings)), trainingEdges)
      ensures Rows(embeddings) == GradientStep(old(Rows(embeddings)), UpdateMatrix(old(Rows(embeddings)), trainingEdges), old(learningRate), lambda, l2Reg)
      ensures nUpdate == old(nUpdate) + 1
      ensures r.Pass? <==> totalUpdateTimes * sampleSize != 0
      ensures r.Pass? ==> learningRate == RateAfter(nUpdate, totalUpdateTimes, sampleSize, learningRateMin)
      ensures r.Fail? ==> learningRate == old(learningRate)
    {
      ResetLoss();
      var update, batchLoss := ComputeDotProductUpdate(embeddings, trainingEdges);
      loss := batchLoss;
      ApplyStep(embeddings, Rows(update), learningRate, lambda, l2Reg);
      nUpdate := nUpdate + 1;
      var target := AnnealTarget(nUpdate, totalUpdateTimes, sampleSize);
      if target.Failure? {
        return Fail(target.error);
      }
      UpdateLearningRate(target.value);
      r := Pass;
    }
  }
}
