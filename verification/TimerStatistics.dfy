/** The precision timer's samples and what is computed from them. Percentiles interpolate over
the reals and truncate to whole nanoseconds. */
module TimerStatistics {
  import opened Arithmetic
  import opened SlidingWindow
  import opened Sorting
  import opened Wrappers

  ghost predicate Sorted(xs: seq<nat>) {
    forall i, j :: 0 <= i <= j < |xs| ==> xs[i] <= xs[j]
  }

  /** A real number times a whole one, by adding it up. */
  function Times(w: real, d: nat): real {
    if d == 0 then 0.0 else Times(w, d - 1) + w
  }

  lemma {:induction false} TimesIsProduct(w: real, d: nat)
    ensures Times(w, d) == w * d as real
  {
    if d > 0 {
      TimesIsProduct(w, d - 1);
      assert w * d as real == w * ((d - 1) as real + 1.0);
    }
  }

  lemma {:induction false} TimesMonotone(v: real, w: real, d: nat)
    requires v <= w
    ensures Times(v, d) <= Times(w, d)
  {
    if d > 0 {
      TimesMonotone(v, w, d - 1);
    }
  }

  lemma {:induction false} TimesFixed(d: nat)
    ensures Times(0.0, d) == 0.0 && Times(1.0, d) == d as real
  {
    if d > 0 {
      TimesFixed(d - 1);
    }
  }

  /** The interpolated value at a fraction p of the way through sorted samples. */
  function Percentile(xs: seq<nat>, p: real): int {
    if |xs| == 0 then 0
    else if |xs| == 1 then xs[0]
    else Below(xs, Times(p, |xs| - 1))
  }

  /** The same at a real index; the interpolated part is cut to a whole number. */
  function Below(xs: seq<nat>, index: real): int
    requires |xs| > 0
  {
    var lower := index.Floor;
    if lower < 0 || lower + 1 >= |xs| then xs[|xs| - 1]
    else xs[lower] + Cut(index - lower as real, xs[lower + 1] as int - xs[lower] as int)
  }

  /** The whole part of a weighted difference. */
  function Cut(weight: real, difference: int): int {
    if difference < 0 then 0 else Times(weight, difference).Floor
  }

  lemma FloorMonotone(x: real, y: real)
    requires x <= y
    ensures x.Floor <= y.Floor
  {
  }

  lemma CutBounds(weight: real, difference: int)
    requires 0.0 <= weight <= 1.0 && difference >= 0
    ensures 0 <= Cut(weight, difference) <= difference
  {
    TimesFixed(difference);
    TimesMonotone(0.0, weight, difference);
    TimesMonotone(weight, 1.0, difference);
  }

  lemma CutMonotone(v: real, w: real, difference: int)
    requires v <= w
    ensures Cut(v, difference) <= Cut(w, difference)
  {
    if difference >= 0 {
      TimesMonotone(v, w, difference);
    }
  }

  /** Interpolation never leaves the two samples it lies between. */
  lemma Bracketed(xs: seq<nat>, index: real)
    requires Sorted(xs) && |xs| > 0 && 0.0 <= index
    ensures var lower := index.Floor;
            if lower + 1 >= |xs| then Below(xs, index) == xs[|xs| - 1]
            else xs[lower] <= Below(xs, index) <= xs[lower + 1]
  {
    var lower := index.Floor;
    if lower + 1 < |xs| {
      CutBounds(index - lower as real, xs[lower + 1] as int - xs[lower] as int);
    }
  }

  lemma BelowMonotone(xs: seq<nat>, a: real, b: real)
    requires Sorted(xs) && |xs| > 0 && 0.0 <= a <= b
    ensures Below(xs, a) <= Below(xs, b)
  {
    FloorMonotone(a, b);
    Bracketed(xs, a);
    Bracketed(xs, b);
    var i := a.Floor;
    if i == b.Floor && i + 1 < |xs| {
      CutMonotone(a - i as real, b - i as real, xs[i + 1] as int - xs[i] as int);
    }
  }

  /** A higher percentile is never a lower value. */
  lemma PercentileMonotone(xs: seq<nat>, p: real, q: real)
    requires Sorted(xs) && 0.0 <= p <= q <= 1.0
    ensures Percentile(xs, p) <= Percentile(xs, q)
  {
    if |xs| > 1 {
      TimesFixed(|xs| - 1);
      TimesMonotone(0.0, p, |xs| - 1);
      TimesMonotone(p, q, |xs| - 1);
      BelowMonotone(xs, Times(p, |xs| - 1), Times(q, |xs| - 1));
    }
  }

  lemma Divided(k: nat, n: nat)
    requires k <= n && n > 0
    ensures 0.0 <= k as real / n as real <= 1.0
    ensures Times(k as real / n as real, n) == k as real
  {
    TimesIsProduct(k as real / n as real, n);
  }

  lemma HitsSample(xs: seq<nat>, k: nat)
    requires k < |xs|
    ensures Below(xs, k as real) == xs[k] || (k + 1 < |xs| && xs[k + 1] < xs[k])
  {
    assert (k as real).Floor == k;
    if k + 1 < |xs| && xs[k + 1] >= xs[k] {
      TimesFixed(xs[k + 1] - xs[k]);
    }
  }

  /** Percentile k / (n - 1) of n samples is sample k itself: the least at 0, the largest at 1. */
  lemma PercentileHitsSamples(xs: seq<nat>, k: nat)
    requires Sorted(xs) && k < |xs| && |xs| > 1
    ensures 0.0 <= k as real / (|xs| - 1) as real <= 1.0
    ensures Percentile(xs, k as real / (|xs| - 1) as real) == xs[k]
  {
    Divided(k, |xs| - 1);
    HitsSample(xs, k);
  }

  lemma PercentileEnds(xs: seq<nat>)
    requires Sorted(xs) && |xs| > 0
    ensures Percentile(xs, 0.0) == xs[0] && Percentile(xs, 1.0) == xs[|xs| - 1]
  {
    if |xs| > 1 {
      TimesFixed(|xs| - 1);
      HitsSample(xs, 0);
      HitsSample(xs, |xs| - 1);
    }
  }

  /** Every percentile lies between the least and the largest sample. */
  lemma PercentileInRange(xs: seq<nat>, p: real)
    requires Sorted(xs) && |xs| > 0 && 0.0 <= p <= 1.0
    ensures xs[0] <= Percentile(xs, p) <= xs[|xs| - 1]
  {
    if |xs| > 1 {
      PercentileEnds(xs);
      PercentileMonotone(xs, 0.0, p);
      PercentileMonotone(xs, p, 1.0);
    }
  }

  // ----------------------------------------------------------------------- sorting

  /** Samples are sorted by their own value. */
  function Itself(): nat -> int {
    x => x
  }

  lemma WithoutLast(a: seq<nat>)
    requires a != []
    ensures multiset(a[..|a| - 1]) == multiset(a) - multiset{a[|a| - 1]}
    ensures a == a[..|a| - 1] + [a[|a| - 1]]
  {
    assert a == a[..|a| - 1] + [a[|a| - 1]];
  }

  /** Two sorted sequences with the same elements are the same. */
  lemma {:induction false} SortedIsUnique(a: seq<nat>, b: seq<nat>)
    requires Sorted(a) && Sorted(b) && multiset(a) == multiset(b)
    ensures a == b
  {
    SameMembers(a, b);
    if a != [] {
      LastIsLargest(a, b);
      LastIsLargest(b, a);
      WithoutLast(a);
      WithoutLast(b);
      SortedIsUnique(a[..|a| - 1], b[..|b| - 1]);
    }
  }

  lemma LastIsLargest(a: seq<nat>, b: seq<nat>)
    requires Sorted(b) && multiset(a) == multiset(b) && a != [] && b != []
    ensures a[|a| - 1] <= b[|b| - 1]
  {
    var x := a[|a| - 1];
    assert x in multiset(a) && x in multiset(b);
    var i :| 0 <= i < |b| && b[i] == x;
  }

  function Total(xs: seq<nat>): nat {
    if xs == [] then 0 else Total(xs[..|xs| - 1]) + xs[|xs| - 1]
  }

  lemma {:induction false} TotalBounds(xs: seq<nat>, lo: nat, hi: nat)
    requires forall i :: 0 <= i < |xs| ==> lo <= xs[i] <= hi
    ensures lo * |xs| <= Total(xs) <= hi * |xs|
  {
    if xs != [] {
      TotalBounds(xs[..|xs| - 1], lo, hi);
      OneMoreOf(|xs| - 1, lo);
      OneMoreOf(|xs| - 1, hi);
    }
  }

  method AddUp(xs: seq<nat>) returns (sum: nat)
    ensures sum == Total(xs)
  {
    sum := 0;
    var k := 0;
    while k < |xs|
      invariant 0 <= k <= |xs| && sum == Total(xs[..k])
    {
      assert xs[..k + 1][..k] == xs[..k];
      sum := sum + xs[k];
      k := k + 1;
    }
    assert xs[..k] == xs;
  }

  // ------------------------------------------------------------------------- the timer

  datatype Summary = Summary(count: nat, min: nat, max: nat, mean: nat, median: int)

  class PrecisionTimer {
    var samples: seq<nat>
    var sampleHead: nat
    const maxSamples: nat
    ghost var history: seq<nat>       // the durations since the samples were last cleared

    /** The samples are the window of the history, in the ring's order once it is full. */
    ghost predicate Valid()
      reads this
    {
      && maxSamples >= 1 && |samples| <= maxSamples
      && if |samples| < maxSamples then samples == history && sampleHead == 0
         else IsWindow(samples, sampleHead, maxSamples, maxSamples, history)
    }

    /** A size of 0 is raised to 1. */
    constructor (maxSamples: nat)
      ensures Valid() && history == [] && this.maxSamples == if maxSamples < 1 then 1 else maxSamples
    {
      this.maxSamples := if maxSamples < 1 then 1 else maxSamples;
      samples, sampleHead, history := [], 0, [];
    }

    method ClearSamples()
      requires Valid()
      modifies this
      ensures Valid() && history == []
    {
      samples, sampleHead, history := [], 0, [];
    }

    method AddSample(duration: nat)
      requires Valid()
      modifies this
      ensures Valid() && history == old(history) + [duration]
    {
      history := history + [duration];
      if |samples| < maxSamples {
        samples := samples + [duration];
        assert samples[0..] + samples[..0] == samples;
      } else {
        OverwriteKeepsWindow(samples, sampleHead, maxSamples, old(history), duration);
        samples := samples[sampleHead := duration];
        sampleHead := (sampleHead + 1) % maxSamples;
      }
    }

    /** The samples kept are, as a multiset, the last durations - as many as fit. */
    lemma KeepsTheLastSamples()
      requires Valid()
      ensures multiset(samples) == multiset(LastN(history, maxSamples))
    {
      if |samples| == maxSamples {
        assert samples == samples[..sampleHead] + samples[sampleHead..];
      }
    }

    /** Count, extremes, mean and median of the samples kept; nothing if there are none. Least <=
        median <= largest and least <= mean <= largest, always. */
    method GetStatistics() returns (summary: Option<Summary>)
      requires Valid()
      ensures summary.None? <==> history == []
      ensures summary.Some? ==>
                var w := LastN(history, maxSamples);
                && summary.value.count == |w|
                && summary.value.min in w && summary.value.max in w
                && (forall x :: x in w ==> summary.value.min <= x <= summary.value.max)
                && summary.value.min <= summary.value.median <= summary.value.max
                && summary.value.min <= summary.value.mean <= summary.value.max
      ensures summary.Some? ==>
                exists sorted: seq<nat> :: Sorted(sorted) && multiset(sorted) == multiset(LastN(history, maxSamples))
                                 && summary.value.median == Percentile(sorted, 0.5)
                                 && |sorted| > 0 && summary.value.mean == Total(sorted) / |sorted|
    {
      KeepsTheLastSamples();
      if |samples| == 0 {
        return None;
      }
      var sorted := Sort(Itself(), samples);
      var n := |sorted|;
      var sum := AddUp(sorted);
      TotalBounds(sorted, sorted[0], sorted[n - 1]);
      QuotientBounds(sum, n, sorted[0], sorted[n - 1]);
      PercentileInRange(sorted, 0.5);
      SameMembers(sorted, LastN(history, maxSamples));
      summary := Some(Summary(n, sorted[0], sorted[n - 1], sum / n, Percentile(sorted, 0.5)));
    }

    /** The percentile of the samples kept; none out of range or without samples. */
    method CalculatePercentile(p: real) returns (r: Option<int>)
      requires Valid()
      ensures r.Some? <==> 0.0 <= p <= 1.0 && history != []
      ensures r.Some? ==>
                forall sorted: seq<nat> :: Sorted(sorted) && multiset(sorted) == multiset(LastN(history, maxSamples)) ==>
                  r.value == Percentile(sorted, p)
    {
      KeepsTheLastSamples();
      if p < 0.0 || p > 1.0 || |samples| == 0 {
        return None;
      }
      var sorted := Sort(Itself(), samples);
      forall other: seq<nat> | Sorted(other) && multiset(other) == multiset(LastN(history, maxSamples))
        ensures other == sorted
      {
        SortedIsUnique(other, sorted);
      }
      r := Some(Percentile(sorted, p));
    }
  }

  lemma SameMembers(a: seq<nat>, b: seq<nat>)
    requires multiset(a) == multiset(b)
    ensures |a| == |b| && forall x :: x in a <==> x in b
  {
    assert |a| == |multiset(a)| == |multiset(b)| == |b|;
    forall x ensures x in a <==> x in b {
      assert x in a <==> x in multiset(a);
      assert x in b <==> x in multiset(b);
    }
  }
}
