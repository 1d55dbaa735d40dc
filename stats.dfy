/** `statistics.mean` and `statistics.stdev` over exact reals. Only the sample
    variance (the radicand of the standard deviation) is modelled: the square
    root feeds the Gaussian generator, which the model takes as an input. */
module Stats {
  import opened Failures
  import opened Seqs

  /** Arithmetic mean; `statistics.mean` raises on an empty list. The mean
      is the value whose `|xs|` copies add up to the sum of the values. */
  function Mean(xs: seq<real>): (r: real)
    requires |xs| > 0
    ensures (|xs| as real) * r == Sum(xs)
  {
    Sum(xs) / (|xs| as real)
  }

  /** The mean lies between any lower and upper bound of the values. */
  lemma MeanBetween(xs: seq<real>, lo: real, hi: real)
    requires |xs| > 0
    requires forall k :: 0 <= k < |xs| ==> lo <= xs[k] <= hi
    ensures lo <= Mean(xs) <= hi
  {
    var n := |xs| as real;
    SumBetween(xs, lo, hi);
    assert n * lo <= Sum(xs) <= n * hi;
    assert Sum(xs) / n >= lo by {
      assert Sum(xs) / n * n == Sum(xs);
    }
    assert Sum(xs) / n <= hi by {
      assert Sum(xs) / n * n == Sum(xs);
    }
  }

  /** The mean of `n` equal values is that value. */
  lemma MeanRepeat(c: real, n: nat)
    requires n > 0
    ensures Mean(Repeat(c, n)) == c
  {
    SumRepeat(c, n);
  }

  /** The mean does not depend on the order of the values. */
  lemma MeanPermutation(a: seq<real>, b: seq<real>)
    requires multiset(a) == multiset(b) && |a| > 0
    ensures |b| == |a| && Mean(a) == Mean(b)
  {
    assert |a| == |multiset(a)| == |multiset(b)| == |b|;
    SumPermutation(a, b);
  }

  lemma {:induction false} SumNonNegative(s: seq<real>)
    requires forall k :: 0 <= k < |s| ==> s[k] >= 0.0
    ensures Sum(s) >= 0.0
  {
    if |s| > 0 {
      SumNonNegative(s[1..]);
    }
  }

  /** Unbiased sample variance (denominator n - 1), the square of what
      `statistics.stdev` returns; it needs at least two values. */
  function SampleVariance(xs: seq<real>): (v: real)
    requires |xs| >= 2
    ensures v >= 0.0
  {
    var m := Mean(xs);
    var squares := MapSeq((x: real) => (x - m) * (x - m), xs);
    assert forall k :: 0 <= k < |squares| ==> squares[k] >= 0.0 by {
      forall k | 0 <= k < |squares| ensures squares[k] >= 0.0 {
        var d := xs[k] - m;
        assert squares[k] == d * d;
      }
    }
    SumNonNegative(squares);
    Sum(squares) / ((|xs| - 1) as real)
  }

  datatype Moments = Moments(mean: real, variance: real)

  /** `mean(xs)` followed by `stdev(xs)`, with the error each raises first. */
  function Describe(xs: seq<real>): (r: Result<Moments>)
    ensures r.Ok? <==> |xs| >= 2
    ensures |xs| == 0 ==> r == Err(MeanOfEmpty)
    ensures |xs| == 1 ==> r == Err(StdevNeedsTwo)
    ensures r.Ok? ==> r.value.mean == Mean(xs) && r.value.variance == SampleVariance(xs)
    ensures r.Ok? ==> r.value.variance >= 0.0
  {
    if |xs| == 0 then Err(MeanOfEmpty)
    else if |xs| == 1 then Err(StdevNeedsTwo)
    else Ok(Moments(Mean(xs), SampleVariance(xs)))
  }
}
