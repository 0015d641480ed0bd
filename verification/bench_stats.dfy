/**
 * The statistics the benchmark takes of its timing samples: mean, population
 * variance (`numpy.std` is its square root), minimum and maximum, the outlier
 * mark of the timing summary, and the per-timer aggregate.
 */
module BenchStats {
  function Sum(s: seq<real>): real
    decreases |s|
  {
    if |s| == 0 then 0.0 else Sum(s[..|s| - 1]) + s[|s| - 1]
  }

  function Mean(s: seq<real>): real
    requires |s| > 0
  {
    Sum(s) / (|s| as real)
  }

  function Sq(x: real): real { x * x }

  /** Sum of the squared deviations from `m`. */
  function SumSqDev(s: seq<real>, m: real): (r: real)
    ensures r >= 0.0
    decreases |s|
  {
    if |s| == 0 then 0.0 else SumSqDev(s[..|s| - 1], m) + Sq(s[|s| - 1] - m)
  }

  /** Population variance: `numpy.std(s)` squared. */
  function Variance(s: seq<real>): (r: real)
    requires |s| > 0
    ensures r >= 0.0
  {
    SumSqDev(s, Mean(s)) / (|s| as real)
  }

  function Min(s: seq<real>): (r: real)
    requires |s| > 0
    ensures r in s && forall i :: 0 <= i < |s| ==> r <= s[i]
    decreases |s|
  {
    if |s| == 1 then s[0]
    else
      var m := Min(s[..|s| - 1]);
      assert forall i :: 0 <= i < |s| - 1 ==> s[..|s| - 1][i] == s[i];
      if s[|s| - 1] < m then s[|s| - 1] else m
  }

  function Max(s: seq<real>): (r: real)
    requires |s| > 0
    ensures r in s && forall i :: 0 <= i < |s| ==> s[i] <= r
    decreases |s|
  {
    if |s| == 1 then s[0]
    else
      var m := Max(s[..|s| - 1]);
      assert forall i :: 0 <= i < |s| - 1 ==> s[..|s| - 1][i] == s[i];
      if s[|s| - 1] > m then s[|s| - 1] else m
  }

  /** Bounds on every element bound the sum. */
  lemma {:induction false} SumBounds(s: seq<real>, lo: real, hi: real)
    requires forall i :: 0 <= i < |s| ==> lo <= s[i] <= hi
    ensures (|s| as real) * lo <= Sum(s) <= (|s| as real) * hi
    decreases |s|
  {
    if |s| > 0 {
      var init := s[..|s| - 1];
      assert forall i :: 0 <= i < |init| ==> init[i] == s[i];
      SumBounds(init, lo, hi);
      var n := |init| as real;
      assert (|s| as real) * lo == n * lo + lo;
      assert (|s| as real) * hi == n * hi + hi;
    }
  }

  lemma MultiplyDivide(x: real, n: real)
    requires n > 0.0
    ensures (n * x) / n == x
  {
  }

  /** Dividing by a positive number keeps the order. */
  lemma DivideOrdered(a: real, b: real, n: real)
    requires n > 0.0 && a <= b
    ensures a / n <= b / n
  {
    assert b / n - a / n == (b - a) / n;
  }

  /** A bound on every sample bounds the mean. */
  lemma MeanBounded(s: seq<real>, lo: real, hi: real)
    requires |s| > 0
    requires forall i :: 0 <= i < |s| ==> lo <= s[i] <= hi
    ensures lo <= Mean(s) <= hi
  {
    var n := |s| as real;
    SumBounds(s, lo, hi);
    DivideOrdered(n * lo, Sum(s), n);
    DivideOrdered(Sum(s), n * hi, n);
    MultiplyDivide(lo, n);
    MultiplyDivide(hi, n);
  }

  /** The mean lies between the smallest and the largest sample. */
  lemma MeanWithinRange(s: seq<real>)
    requires |s| > 0
    ensures Min(s) <= Mean(s) <= Max(s)
  {
    MeanBounded(s, Min(s), Max(s));
  }

  /**
   * The timing summary's outlier mark: `|x - mean| > 1.5 * std` and more than
   * two samples. Both sides of the comparison are non-negative, so it is
   * stated on squares: `(x - mean)^2 > 2.25 * variance`.
   */
  predicate Starred(s: seq<real>, i: int)
    requires 0 <= i < |s|
  {
    Sq(s[i] - Mean(s)) > 2.25 * Variance(s) && |s| > 2
  }

  /** With at most two samples nothing is marked. */
  lemma FewSamplesNoStar(s: seq<real>, i: int)
    requires 0 <= i < |s| <= 2
    ensures !Starred(s, i)
  {
  }

  /** If every sample deviates by more than `t`, the squared deviations sum to more than `|s| * t`. */
  lemma {:induction false} SumSqDevAbove(s: seq<real>, m: real, t: real)
    requires forall i :: 0 <= i < |s| ==> Sq(s[i] - m) > t
    ensures |s| > 0 ==> SumSqDev(s, m) > (|s| as real) * t
    decreases |s|
  {
    if |s| > 1 {
      SumSqDevAbove(s[..|s| - 1], m, t);
    }
  }

  /** Never is every sample of a series marked as an outlier. */
  lemma NotAllStarred(s: seq<real>)
    requires |s| > 0
    ensures exists i :: 0 <= i < |s| && !Starred(s, i)
  {
    if forall i :: 0 <= i < |s| ==> Starred(s, i) {
      var v := Variance(s);
      var n := |s| as real;
      forall i | 0 <= i < |s|
        ensures Sq(s[i] - Mean(s)) > 2.25 * v
      {
        assert Starred(s, i);
      }
      SumSqDevAbove(s, Mean(s), 2.25 * v);
      assert false;
    }
  }

  /** One entry of the aggregated timings. `std` is kept as its square, the variance. */
  datatype TimingStat = TimingStat(mean: real, variance: real, min: real, max: real)

  function StatOf(s: seq<real>): (r: TimingStat)
    requires |s| > 0
    ensures r.min <= r.mean <= r.max && r.variance >= 0.0
  {
    MeanWithinRange(s);
    TimingStat(Mean(s), Variance(s), Min(s), Max(s))
  }

  /** Aggregated timings: one entry per timer with at least one sample. */
  function Aggregate(timings: map<string, seq<real>>): (r: map<string, TimingStat>)
    ensures r.Keys == set k | k in timings && |timings[k]| > 0
    ensures forall k :: k in r ==> r[k] == StatOf(timings[k])
  {
    map k | k in timings && |timings[k]| > 0 :: StatOf(timings[k])
  }
}
