/** The Redis keys, as structured names and as the texts that the service sends. */
module Keys {
  import opened Decimal

  datatype Key =
    | Bucket(channelId: string, id: int)
    | Latency(channelId: string, id: int)
    | Breaker(channelId: string)
    | Probe(channelId: string)
    | Processed(eventId: string)

  function KeyText(k: Key): string {
    match k
    case Bucket(c, id) => "sw:" + c + ":" + Render(id)
    case Latency(c, id) => "sw:" + c + ":" + Render(id) + ":lat"
    case Breaker(c) => "breaker:" + c
    case Probe(c) => "probe:" + c
    case Processed(e) => "processed:" + e
  }

  /** The last colon splits a text in one way only. */
  lemma LastColon(a: string, x: string, b: string, y: string)
    requires ':' !in x && ':' !in y
    requires a != b || x != y
    ensures a + ":" + x != b + ":" + y
  {
    var s, t := a + ":" + x, b + ":" + y;
    if |s| == |t| {
      if |a| < |b| {
        assert s[|b|] == x[|b| - |a| - 1] && t[|b|] == ':';
      } else if |b| < |a| {
        assert t[|a|] == y[|a| - |b| - 1] && s[|a|] == ':';
      } else {
        assert a == s[..|a|] && b == t[..|b|];
        assert x == s[|a| + 1..] && y == t[|b| + 1..];
      }
    }
  }

  lemma RenderHasNoColon(n: int)
    ensures ':' !in Render(n)
  {
  }

  lemma BucketTextsDiffer(c: string, i: int, d: string, j: int)
    requires c != d || i != j
    ensures KeyText(Bucket(c, i)) != KeyText(Bucket(d, j))
  {
    RenderHasNoColon(i);
    RenderHasNoColon(j);
    if i != j && Render(i) == Render(j) {
      RenderInjective(i, j);
    }
    if c != d {
      assert c == ("sw:" + c)[3..] && d == ("sw:" + d)[3..];
    }
    LastColon("sw:" + c, Render(i), "sw:" + d, Render(j));
  }

  lemma LatencyTextsDiffer(c: string, i: int, d: string, j: int)
    requires c != d || i != j
    ensures KeyText(Latency(c, i)) != KeyText(Latency(d, j))
  {
    BucketTextsDiffer(c, i, d, j);
    var s, t := KeyText(Bucket(c, i)), KeyText(Bucket(d, j));
    assert KeyText(Latency(c, i))[..|KeyText(Latency(c, i))| - 4] == s;
    assert KeyText(Latency(d, j))[..|KeyText(Latency(d, j))| - 4] == t;
  }

  lemma LastCharacters(c: string, i: int)
    ensures var s := KeyText(Bucket(c, i)); IsDigit(s[|s| - 1])
    ensures var s := KeyText(Latency(c, i)); s[|s| - 1] == 't'
  {
  }

  /** Whatever characters a channel or event identifier holds, two different keys never share a text. */
  lemma KeyTextsDiffer(k: Key, l: Key)
    requires k != l
    ensures KeyText(k) != KeyText(l)
  {
    var s, t := KeyText(k), KeyText(l);
    match (k, l)
    case (Bucket(c, i), Bucket(d, j)) => BucketTextsDiffer(c, i, d, j);
    case (Latency(c, i), Latency(d, j)) => LatencyTextsDiffer(c, i, d, j);
    case (Bucket(c, i), Latency(d, j)) => LastCharacters(c, i); LastCharacters(d, j);
    case (Latency(c, i), Bucket(d, j)) => LastCharacters(c, i); LastCharacters(d, j);
    case (Breaker(c), Breaker(d)) => assert c == s[8..] && d == t[8..];
    case (Probe(c), Probe(d)) => assert c == s[6..] && d == t[6..];
    case (Processed(c), Processed(d)) => assert c == s[10..] && d == t[10..];
    case (Probe(c), Processed(d)) => assert s[3] == 'b' && t[3] == 'c';
    case (Processed(c), Probe(d)) => assert s[3] == 'c' && t[3] == 'b';
    case _ => assert s[0] != t[0];
  }
}
