/** Sums, means and trailing windows over series of prices, shared by the
    indicator library and the signal generators. Prices are modelled as
    `real`, so no rounding takes place. */
module Series {

  /** The sum of `s`, accumulated left to right as the Go code's loops do. */
  function Sum(s: seq<real>): real
  {
    if s == [] then 0.0 else Sum(s[..|s| - 1]) + s[|s| - 1]
  }

  /** The arithmetic mean of a non-empty series. */
  function Mean(s: seq<real>): real
    requires |s| > 0
  {
    Sum(s) / (|s| as real)
  }

  /** The last `n` elements of `s`, or all of `s` when it is not longer than `n`. */
  function LastN(s: seq<real>, n: nat): (r: seq<real>)
    ensures |r| == if |s| <= n then |s| else n
    ensures forall i | 0 <= i < |r| :: r[i] == s[|s| - |r| + i]
  {
    if |s| <= n then s else s[|s| - n..]
  }

  lemma SumAppend(s: seq<real>, x: real)
    ensures Sum(s + [x]) == Sum(s) + x
  {
    assert (s + [x])[..|s|] == s;
  }

  /** Extending a slice by one element adds that element to its sum. */
  lemma SumSliceStep(s: seq<real>, lo: nat, hi: nat)
    requires lo <= hi < |s|
    ensures Sum(s[lo..hi + 1]) == Sum(s[lo..hi]) + s[hi]
  {
    assert s[lo..hi + 1] == s[lo..hi] + [s[hi]];
    SumAppend(s[lo..hi], s[hi]);
  }

  /** The summing loop of the Go code, over the tail of `s` from index `start`. */
  method SumFrom(s: seq<real>, start: nat) returns (sum: real)
    requires start <= |s|
    ensures sum == Sum(s[start..])
  {
    sum := 0.0;
    for i := start to |s|
      invariant sum == Sum(s[start..i])
    {
      SumSliceStep(s, start, i);
      sum := sum + s[i];
    }
    assert s[start..|s|] == s[start..];
  }

  lemma {:induction false} SumNonNegative(s: seq<real>)
    requires forall i | 0 <= i < |s| :: s[i] >= 0.0
    ensures Sum(s) >= 0.0
  {
    if s != [] {
      SumNonNegative(s[..|s| - 1]);
    }
  }

  lemma MeanNonNegative(s: seq<real>)
    requires |s| > 0
    requires forall i | 0 <= i < |s| :: s[i] >= 0.0
    ensures Mean(s) >= 0.0
  {
    SumNonNegative(s);
  }

  /** The last `n` elements of a series at least `n` long do not depend on
      what came before it. */
  lemma LastNSuffix(prefix: seq<real>, s: seq<real>, n: nat)
    requires |s| >= n
    ensures LastN(prefix + s, n) == LastN(s, n)
  {
    var a, b := LastN(prefix + s, n), LastN(s, n);
    assert |a| == |b| == n;
    forall i | 0 <= i < n
      ensures a[i] == b[i]
    {
      assert a[i] == (prefix + s)[|prefix| + |s| - n + i];
    }
  }

  /** Trimming a buffer before appending to it and trimming again keeps the same
      window as trimming once after appending: a bounded buffer that is
      trimmed on every append always holds the most recent `n` values. */
  lemma LastNAppend(s: seq<real>, x: real, n: nat)
    ensures LastN(LastN(s, n) + [x], n) == LastN(s + [x], n)
  {
  }
}
