/** Sums of real sequences, folded from the left as Python's `sum` and `np.sum` do. */
module Sums {

  function Sum(s: seq<real>): real
    decreases |s|
  {
    if s == [] then 0.0 else Sum(s[..|s| - 1]) + s[|s| - 1]
  }

  lemma {:induction false} SumAppend(a: seq<real>, b: seq<real>)
    ensures Sum(a + b) == Sum(a) + Sum(b)
    decreases |b|
  {
    if b == [] {
      assert a + b == a;
    } else {
      var b' := b[..|b| - 1];
      assert (a + b)[..|a + b| - 1] == a + b';
      SumAppend(a, b');
    }
  }

  /** Dividing every entry by `c` divides the sum by `c`. */
  lemma {:induction false} SumDivided(s: seq<real>, c: real, t: seq<real>)
    requires c != 0.0
    requires |t| == |s| && forall i :: 0 <= i < |s| ==> t[i] == s[i] / c
    ensures Sum(t) == Sum(s) / c
    decreases |s|
  {
    if s != [] {
      var n := |s| - 1;
      SumDivided(s[..n], c, t[..n]);
      assert Sum(t) == Sum(s[..n]) / c + s[n] / c;
    }
  }

  lemma {:induction false} SumNonNegative(s: seq<real>)
    requires forall i :: 0 <= i < |s| ==> s[i] >= 0.0
    ensures Sum(s) >= 0.0
    decreases |s|
  {
    if s != [] {
      SumNonNegative(s[..|s| - 1]);
    }
  }

  /** A sequence of `n` ones sums to `n`. */
  lemma {:induction false} SumOfOnes(s: seq<real>)
    requires forall i :: 0 <= i < |s| ==> s[i] == 1.0
    ensures Sum(s) == |s| as real
    decreases |s|
  {
    if s != [] {
      SumOfOnes(s[..|s| - 1]);
    }
  }

  /** The sum of an entrywise sum is the sum of the sums. */
  lemma {:induction false} SumPointwise(a: seq<real>, b: seq<real>, c: seq<real>)
    requires |a| == |b| == |c|
    requires forall i :: 0 <= i < |c| ==> c[i] == a[i] + b[i]
    ensures Sum(c) == Sum(a) + Sum(b)
    decreases |c|
  {
    if c != [] {
      var n := |c| - 1;
      SumPointwise(a[..n], b[..n], c[..n]);
    }
  }

  lemma {:induction false} SumZeros(s: seq<real>)
    requires forall i :: 0 <= i < |s| ==> s[i] == 0.0
    ensures Sum(s) == 0.0
    decreases |s|
  {
    if s != [] {
      SumZeros(s[..|s| - 1]);
    }
  }

  /** Extending a prefix by one element adds that element to its sum. */
  lemma {:induction false} SumPrefixStep(s: seq<real>, k: nat)
    requires k < |s|
    ensures Sum(s[..k + 1]) == Sum(s[..k]) + s[k]
  {
    assert s[..k + 1][..k] == s[..k];
  }

  /** Multiplying every entry by `c` multiplies the sum by `c`. */
  lemma {:induction false} SumScaled(s: seq<real>, c: real, t: seq<real>)
    requires |t| == |s| && forall i :: 0 <= i < |s| ==> t[i] == c * s[i]
    ensures Sum(t) == c * Sum(s)
    decreases |s|
  {
    if s != [] {
      var n := |s| - 1;
      SumScaled(s[..n], c, t[..n]);
    }
  }

  /** A non-negative sequence sums to at least each of its entries. */
  lemma {:induction false} SumAtLeastEntry(s: seq<real>, i: nat)
    requires forall k :: 0 <= k < |s| ==> s[k] >= 0.0
    requires i < |s|
    ensures s[i] <= Sum(s)
    decreases |s|
  {
    var n := |s| - 1;
    if i < n {
      SumAtLeastEntry(s[..n], i);
    } else {
      SumNonNegative(s[..n]);
    }
  }

  lemma {:induction false} SumOfTwo(a: real, b: real)
    ensures Sum([a, b]) == a + b
  {
    assert [a][..0] == [];
    assert Sum([a]) == a;
    assert [a, b][..1] == [a];
  }

  lemma {:induction false} SumOfThree(a: real, b: real, c: real)
    ensures Sum([a, b, c]) == a + b + c
  {
    assert [a, b, c][..2] == [a, b];
    SumOfTwo(a, b);
  }

  lemma {:induction false} SumOfFour(a: real, b: real, c: real, d: real)
    ensures Sum([a, b, c, d]) == a + b + c + d
  {
    assert [a, b, c, d][..3] == [a, b, c];
    SumOfThree(a, b, c);
  }

  /** Prefix sums of a non-negative sequence never decrease. */
  lemma {:induction false} PrefixSumMonotone(s: seq<real>, i: nat, j: nat)
    requires forall k :: 0 <= k < |s| ==> s[k] >= 0.0
    requires i <= j <= |s|
    ensures Sum(s[..i]) <= Sum(s[..j])
    decreases j - i
  {
    if i < j {
      PrefixSumMonotone(s, i, j - 1);
      SumPrefixStep(s, j - 1);
    }
  }
}
