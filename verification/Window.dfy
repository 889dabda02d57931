/** The arithmetic of the sliding window. */
module Window {
  import opened Types

  /** The bucket that holds the given moment. */
  function BucketIdAt(nowMs: int, bucketMs: int): (r: Result<int>)
    ensures r.Success? <==> bucketMs > 0
    ensures r.Success? ==> r.value * bucketMs <= nowMs < (r.value + 1) * bucketMs
  {
    if bucketMs <= 0 then Failure("bucketMs must be a positive number") else Success(nowMs / bucketMs)
  }

  function Max(a: int, b: int): int {
    if a < b then b else a
  }

  /** Division that rounds up, for a positive divisor. */
  function CeilDiv(a: int, b: int): (q: int)
    requires b > 0
    ensures (q - 1) * b < a <= q * b
  {
    -(-a / b)
  }

  /** The count of buckets in one window: the fewest that cover it, and never less than one. */
  function BucketCount(windowMs: int, bucketMs: int): (r: Result<int>)
    ensures r.Success? <==> bucketMs > 0
    ensures r.Success? ==> r.value >= 1 && windowMs <= r.value * bucketMs
    ensures r.Success? && windowMs > 0 ==> (r.value - 1) * bucketMs < windowMs
  {
    if bucketMs <= 0 then Failure("bucketMs must be a positive number")
    else
      var count := Max(1, CeilDiv(windowMs, bucketMs));
      CountCovers(windowMs, bucketMs, count);
      Success(count)
  }

  lemma CountCovers(windowMs: int, bucketMs: int, count: int)
    requires bucketMs > 0 && count == Max(1, CeilDiv(windowMs, bucketMs))
    ensures windowMs <= count * bucketMs
    ensures windowMs > 0 ==> (count - 1) * bucketMs < windowMs
  {
    var q := CeilDiv(windowMs, bucketMs);
    if q < 1 {
      MulMono(q, 0, bucketMs);
    } else {
      assert count == q;
    }
  }

  lemma MulMono(a: int, b: int, m: int)
    requires a <= b && m >= 0
    ensures a * m <= b * m
  {
  }

  /** What the guards of the configuration give to the window code. */
  datatype Geometry = Geometry(windowMs: int, bucketMs: int, maxSamples: int) {
    predicate Valid() {
      0 < bucketMs <= windowMs && 0 < maxSamples
    }

    function Bucket(at: int): (b: int)
      requires Valid()
      ensures b * bucketMs <= at < b * bucketMs + bucketMs
    {
      BucketIdAt(at, bucketMs).value
    }

    function Count(): (n: int)
      requires Valid()
      ensures n >= 1
    {
      BucketCount(windowMs, bucketMs).value
    }

    /** How far back the window reaches, counted in whole buckets. */
    function SpanMs(): int
      requires Valid()
    {
      Count() * bucketMs
    }

    function TtlMs(): int {
      1000 * BucketTtlSeconds(windowMs)
    }
  }

  function GeometryOf(config: RoutingConfig): Geometry {
    Geometry(config.windowMs, config.bucketMs, config.maxSamplesPerBucket)
  }

  /** The buckets of the window that ends now, oldest first. */
  function WindowBucketIds(nowMs: int, windowMs: int, bucketMs: int): (r: Result<seq<int>>)
    ensures r.Success? <==> bucketMs > 0
    ensures r.Success? ==> |r.value| == BucketCount(windowMs, bucketMs).value
  {
    if bucketMs <= 0 then Failure("bucketMs must be a positive number")
    else
      var count := BucketCount(windowMs, bucketMs).value;
      var current := BucketIdAt(nowMs, bucketMs).value;
      Success(seq(count, i requires 0 <= i < count => current - (count - 1 - i)))
  }

  /** How long a bucket key must live. */
  function BucketTtlSeconds(windowMs: int): (ttl: int)
    ensures 2 * windowMs <= 1000 * ttl < 2 * windowMs + 1000
  {
    CeilDiv(windowMs * 2, 1000)
  }

  function Ids(g: Geometry, now: int): (ids: seq<int>)
    requires g.Valid()
    ensures |ids| == g.Count()
  {
    WindowBucketIds(now, g.windowMs, g.bucketMs).value
  }

  /** A moment counts at `now` when its bucket is one of the window. */
  predicate Counts(g: Geometry, at: int, now: int)
    requires g.Valid()
  {
    g.Bucket(now) - g.Count() < g.Bucket(at) <= g.Bucket(now)
  }

  /** The list holds each bucket of the window once, and no other bucket. */
  lemma IdsAreTheWindow(g: Geometry, now: int)
    requires g.Valid()
    ensures forall b :: b in Ids(g, now) <==> g.Bucket(now) - g.Count() < b <= g.Bucket(now)
    ensures forall i, j :: 0 <= i < j < |Ids(g, now)| ==> Ids(g, now)[i] < Ids(g, now)[j]
  {
    var ids := Ids(g, now);
    var first := g.Bucket(now) - g.Count() + 1;
    assert forall i :: 0 <= i < |ids| ==> ids[i] == first + i;
    forall b | g.Bucket(now) - g.Count() < b <= g.Bucket(now)
      ensures b in ids
    {
      assert ids[b - first] == b;
    }
  }

  /**
    * The window in milliseconds. A bucket is in the window exactly while the
    * clock is between its start and its start plus the span.
    */
  lemma BucketInWindow(g: Geometry, b: int, now: int)
    requires g.Valid()
    ensures g.Bucket(now) - g.Count() < b <= g.Bucket(now)
       <==> b * g.bucketMs <= now < b * g.bucketMs + g.SpanMs()
  {
    hide BucketIdAt, BucketCount;
    var m, cur, n := g.bucketMs, g.Bucket(now), g.Count();
    assert cur * m <= now < (cur + 1) * m;
    assert (b + n) * m == b * m + n * m;
    if b <= cur {
      MulMono(b, cur, m);
    } else {
      MulMono(cur + 1, b, m);
    }
    if cur + 1 <= b + n {
      MulMono(cur + 1, b + n, m);
    } else {
      MulMono(b + n, cur, m);
    }
  }

  /** Two moments that count at the same time are less than one span apart. */
  lemma CountedTogether(g: Geometry, a: int, b: int, now: int)
    requires g.Valid() && Counts(g, a, now) && Counts(g, b, now)
    ensures b - a < g.SpanMs()
  {
    hide BucketIdAt, BucketCount;
    var m, n := g.bucketMs, g.Count();
    assert g.Bucket(b) + 1 <= g.Bucket(a) + n;
    MulMono(g.Bucket(b) + 1, g.Bucket(a) + n, m);
    assert (g.Bucket(a) + n) * m == g.Bucket(a) * m + n * m;
  }

  /**
    * The bridge between the window and the key lifetime: the guard
    * `bucketMs <= windowMs` leaves room between the last use of a bucket and
    * the end of its key.
    */
  lemma SpanFitsTtl(g: Geometry)
    requires g.Valid()
    ensures g.windowMs <= g.SpanMs() < g.windowMs + g.bucketMs <= 2 * g.windowMs <= g.TtlMs()
  {
    var n, m := g.Count(), g.bucketMs;
    assert (n - 1) * m == n * m - m;
  }
}
