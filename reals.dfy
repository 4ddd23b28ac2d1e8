/** Sums, means and extrema of non-empty sequences of reals: Python's `sum`,
    `statistics.mean`/`fmean`, `min` and `max`, with floats abstracted to reals. */
module Reals {

  function Sum(xs: seq<real>): real {
    if xs == [] then 0.0 else Sum(xs[..|xs| - 1]) + xs[|xs| - 1]
  }

  function Mean(xs: seq<real>): real
    requires |xs| > 0
  {
    Sum(xs) / (|xs| as real)
  }

  /** The position `min(xs)` returns: Python keeps the first of several
      equal minima, replacing its candidate only by a strictly smaller one. */
  function ArgMin(xs: seq<real>): (i: nat)
    requires |xs| > 0
    ensures i < |xs|
    ensures forall j :: 0 <= j < |xs| ==> xs[i] <= xs[j]
    ensures forall j :: 0 <= j < i ==> xs[j] > xs[i]
  {
    if |xs| == 1 then 0
    else
      var m := ArgMin(xs[..|xs| - 1]);
      if xs[|xs| - 1] < xs[m] then |xs| - 1 else m
  }

  /** The position `max(xs)` returns: the first of several equal maxima. */
  function ArgMax(xs: seq<real>): (i: nat)
    requires |xs| > 0
    ensures i < |xs|
    ensures forall j :: 0 <= j < |xs| ==> xs[j] <= xs[i]
    ensures forall j :: 0 <= j < i ==> xs[j] < xs[i]
  {
    if |xs| == 1 then 0
    else
      var m := ArgMax(xs[..|xs| - 1]);
      if xs[|xs| - 1] > xs[m] then |xs| - 1 else m
  }

  function Min(xs: seq<real>): real
    requires |xs| > 0
  {
    xs[ArgMin(xs)]
  }

  function Max(xs: seq<real>): real
    requires |xs| > 0
  {
    xs[ArgMax(xs)]
  }

  /** A sum of values in `[lo, hi]` lies between `n * lo` and `n * hi`. */
  lemma {:induction false} SumBounds(xs: seq<real>, lo: real, hi: real)
    requires forall i :: 0 <= i < |xs| ==> lo <= xs[i] <= hi
    ensures (|xs| as real) * lo <= Sum(xs) <= (|xs| as real) * hi
  {
    if xs != [] {
      var init := xs[..|xs| - 1];
      assert forall i :: 0 <= i < |init| ==> init[i] == xs[i];
      SumBounds(init, lo, hi);
      var m := |init| as real;
      var x := xs[|xs| - 1];
      assert Sum(xs) == Sum(init) + x;
      assert lo <= x <= hi;
      assert (|xs| as real) * lo == m * lo + lo;
      assert (|xs| as real) * hi == m * hi + hi;
    }
  }

  lemma DivideBounds(s: real, n: real, lo: real, hi: real)
    requires n > 0.0 && n * lo <= s <= n * hi
    ensures lo <= s / n <= hi
  {
    assert (s / n) * n == s;
  }

  /** The percentage `k / n * 100` of a part `k` of a whole `n`. */
  lemma Percentage(k: real, n: real)
    requires n > 0.0 && 0.0 <= k <= n
    ensures var p := (k / n) * 100.0;
      && 0.0 <= p <= 100.0
      && p * n == k * 100.0
      && (p == 0.0 <==> k == 0.0)
      && (p == 100.0 <==> k == n)
  {
    var q := k / n;
    assert q * n == k;
    DivideBounds(k, n, 0.0, 1.0);
    if q == 1.0 {
      assert k == n;
    }
  }

  /** The mean lies between the minimum and the maximum. */
  lemma MeanBetween(xs: seq<real>)
    requires |xs| > 0
    ensures Min(xs) <= Mean(xs) <= Max(xs)
  {
    var n := |xs| as real;
    SumBounds(xs, Min(xs), Max(xs));
    DivideBounds(Sum(xs), n, Min(xs), Max(xs));
  }
}
