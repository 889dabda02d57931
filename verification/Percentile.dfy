/** The percentile of the latency samples in the window. */
module Percentile {
  import opened Types
  import opened Sorting

  const MIN_SAMPLES_FOR_PERCENTILE := 5

  /** `Missing` is what indexing an empty list gives; it needs a `minSamples` of zero or less. */
  datatype Outcome = BadFraction | TooFew | Missing | Value(v: real)

  /** A value that can be a latency. A NaN or a negative number is damaged data. */
  function Usable(v: Num): seq<real> {
    if v.Finite? && v.value >= 0.0 then [v.value] else []
  }

  function Finites(samples: seq<Num>): seq<real> {
    if samples == [] then [] else Usable(samples[0]) + Finites(samples[1..])
  }

  function Ceil(x: real): (n: int)
    ensures (n - 1) as real < x <= n as real
  {
    -((-x).Floor)
  }

  predicate RealLe(a: real, b: real) {
    a <= b
  }

  function Min(a: int, b: int): int {
    if a < b then a else b
  }

  function Max(a: int, b: int): int {
    if a < b then b else a
  }

  /** How many samples must be at or below the answer. */
  function Need(fraction: real, n: int): real {
    fraction * n as real
  }

  /** The nearest-rank index into `n` sorted samples. */
  function RankIndex(fraction: real, n: int): int {
    Min(n - 1, Max(0, Ceil(Need(fraction, n)) - 1))
  }

  function PercentileOf(samples: seq<Num>, fraction: real, minSamples: int): Outcome {
    if fraction <= 0.0 || fraction > 1.0 then BadFraction
    else
      var clean := Finites(samples);
      if |clean| < minSamples then TooFew
      else
        var sorted := SortBy(RealLe, clean);
        var index := RankIndex(fraction, |sorted|);
        if 0 <= index < |sorted| then Value(sorted[index]) else Missing
  }

  function P95(samples: seq<Num>): Option<real> {
    match PercentileOf(samples, 0.95, MIN_SAMPLES_FOR_PERCENTILE)
    case Value(v) => Some(v)
    case _ => None
  }

  /**
    * The measured p95: none below five usable samples, and otherwise the least sample
    * with 95 in a hundred at or below it.
    */
  lemma P95IsMeasured(samples: seq<Num>)
    ensures
      var clean := Finites(samples);
      && (P95(samples).None? <==> |clean| < 5)
      && (P95(samples).Some? ==> IsLeast(clean, 0.95 * |clean| as real, P95(samples).value))
  {
    PercentileIsLeast(samples, 0.95, 5);
  }

  function CountAtMost(xs: seq<real>, v: real): nat {
    if xs == [] then 0 else (if xs[0] <= v then 1 else 0) + CountAtMost(xs[1..], v)
  }

  /** The least of the samples that has at least `need` of them at or below it. */
  ghost predicate IsLeast(xs: seq<real>, need: real, v: real) {
    && v in xs
    && CountAtMost(xs, v) as real >= need
    && (forall w :: w in xs && w < v ==> (CountAtMost(xs, w) as real) < need)
  }

  lemma {:induction false} CountOfInsert(x: real, s: seq<real>, v: real)
    ensures CountAtMost(Insert(RealLe, x, s), v) == (if x <= v then 1 else 0) + CountAtMost(s, v)
  {
    if s != [] && !RealLe(x, s[0]) {
      CountOfInsert(x, s[1..], v);
    }
  }

  lemma {:induction false} CountOfSort(xs: seq<real>, v: real)
    ensures CountAtMost(SortBy(RealLe, xs), v) == CountAtMost(xs, v)
  {
    if xs != [] {
      CountOfSort(xs[1..], v);
      CountOfInsert(xs[0], SortBy(RealLe, xs[1..]), v);
    }
  }

  /** In a sorted list, at least k + 1 elements are at most s[k], and at most k elements are below it. */
  lemma {:induction false} CountInSorted(s: seq<real>, k: nat, v: real)
    requires Sorted(RealLe, s) && k < |s|
    ensures v >= s[k] ==> CountAtMost(s, v) >= k + 1
    ensures v < s[k] ==> CountAtMost(s, v) <= k
  {
    if k == 0 {
      if v < s[0] {
        NoneBelow(s, v);
      }
    } else {
      assert RealLe(s[0], s[k]);
      CountInSorted(s[1..], k - 1, v);
    }
  }

  lemma {:induction false} NoneBelow(s: seq<real>, v: real)
    requires forall i :: 0 <= i < |s| ==> v < s[i]
    ensures CountAtMost(s, v) == 0
  {
    if s != [] {
      NoneBelow(s[1..], v);
    }
  }

  lemma RankInRange(fraction: real, n: nat)
    requires 0.0 < fraction <= 1.0 && n > 0
    ensures var k := RankIndex(fraction, n); 0 <= k < n && k as real < Need(fraction, n) <= (k + 1) as real
  {
    assert fraction * n as real > 0.0;
    assert (1.0 - fraction) * n as real >= 0.0;
    assert fraction * n as real <= n as real;
  }

  lemma NearestRank(clean: seq<real>, need: real, k: nat)
    requires k < |clean| && k as real < need <= (k + 1) as real
    ensures |SortBy(RealLe, clean)| == |clean| && IsLeast(clean, need, SortBy(RealLe, clean)[k])
  {
    var s := SortBy(RealLe, clean);
    SortBySorts(RealLe, clean);
    SortMembers(RealLe, clean);
    var v := s[k];
    assert v in s;
    CountOfSort(clean, v);
    CountInSorted(s, k, v);
    forall w | w in clean && w < v ensures (CountAtMost(clean, w) as real) < need {
      CountOfSort(clean, w);
      CountInSorted(s, k, w);
    }
  }

  /** The nearest-rank answer is the percentile, and `TooFew` means exactly that. */
  lemma PercentileIsLeast(samples: seq<Num>, fraction: real, minSamples: int)
    ensures
      var r, clean := PercentileOf(samples, fraction, minSamples), Finites(samples);
      && (r == BadFraction <==> !(0.0 < fraction <= 1.0))
      && (r == TooFew <==> 0.0 < fraction <= 1.0 && |clean| < minSamples)
      && (r == Missing <==> 0.0 < fraction <= 1.0 && minSamples <= |clean| == 0)
      && (r.Value? ==> IsLeast(clean, Need(fraction, |clean|), r.v))
  {
    hide SortBy, IsLeast, RankIndex, Finites, Need;
    var clean := Finites(samples);
    SortMembers(RealLe, clean);
    if 0.0 < fraction <= 1.0 && |clean| >= minSamples && |clean| > 0 {
      RankInRange(fraction, |clean|);
      NearestRank(clean, Need(fraction, |clean|), RankIndex(fraction, |clean|));
    } else if 0.0 < fraction <= 1.0 && |clean| >= minSamples {
      EmptyRank(fraction);
    }
  }

  lemma EmptyRank(fraction: real)
    ensures RankIndex(fraction, 0) < 0
  {
  }

  /** No other value has that meaning. */
  lemma LeastIsUnique(xs: seq<real>, need: real, v: real, w: real)
    requires IsLeast(xs, need, v) && IsLeast(xs, need, w)
    ensures v == w
  {
  }

  lemma FinitesCons(v: Num, rest: seq<Num>)
    ensures Finites([v] + rest) == Usable(v) + Finites(rest)
  {
    hide Usable;
    assert ([v] + rest)[1..] == rest;
  }

  lemma Associative(a: seq<real>, b: seq<real>, c: seq<real>)
    ensures a + (b + c) == a + b + c
  {
  }

  lemma {:induction false} FinitesSplit(a: seq<Num>, b: seq<Num>)
    ensures Finites(a + b) == Finites(a) + Finites(b)
  {
    if a == [] {
      assert a + b == b;
    } else {
      hide Finites, Usable;
      FinitesSplit(a[1..], b);
      FinitesCons(a[0], a[1..]);
      FinitesCons(a[0], a[1..] + b);
      assert a == [a[0]] + a[1..];
      assert a + b == [a[0]] + (a[1..] + b);
      Associative(Usable(a[0]), Finites(a[1..]), Finites(b));
    }
  }

  lemma FinitesAround(a: seq<Num>, v: Num, b: seq<Num>)
    ensures Finites(a + ([v] + b)) == Finites(a) + (Usable(v) + Finites(b))
    ensures Finites(a + b) == Finites(a) + Finites(b)
  {
    hide Finites, Usable;
    FinitesSplit(a, [v] + b);
    FinitesCons(v, b);
    FinitesSplit(a, b);
  }

  lemma FinitesWithout(ys: seq<Num>, i: nat)
    requires i < |ys|
    ensures Finites(ys) == Finites(ys[..i]) + (Usable(ys[i]) + Finites(ys[i + 1..]))
    ensures Finites(ys[..i] + ys[i + 1..]) == Finites(ys[..i]) + Finites(ys[i + 1..])
  {
    var a, v, b := ys[..i], ys[i], ys[i + 1..];
    assert ys == a + ([v] + b);
    FinitesAround(a, v, b);
  }

  lemma {:induction false} FinitesForgetOrder(xs: seq<Num>, ys: seq<Num>)
    requires multiset(xs) == multiset(ys)
    ensures multiset(Finites(xs)) == multiset(Finites(ys))
    decreases |xs|
  {
    if xs == [] {
      assert |multiset(ys)| == 0;
    } else {
      var i := MatchHead(xs, ys);
      FinitesWithout(ys, i);
      FinitesWithout(xs, 0);
      FinitesForgetOrder(xs[1..], ys[..i] + ys[i + 1..]);
      hide Finites, Usable;
      assert xs[..0] + xs[0 + 1..] == xs[1..];
    }
  }

  /** The answer does not depend on the order of the samples. */
  lemma PercentileForgetsOrder(xs: seq<Num>, ys: seq<Num>, fraction: real, minSamples: int)
    requires multiset(xs) == multiset(ys)
    ensures PercentileOf(xs, fraction, minSamples) == PercentileOf(ys, fraction, minSamples)
  {
    hide Finites, SortBy, RankIndex, Sorted;
    FinitesForgetOrder(xs, ys);
    SortForgetsOrder(RealLe, Finites(xs), Finites(ys));
    SortMembers(RealLe, Finites(xs));
    SortMembers(RealLe, Finites(ys));
  }
}
