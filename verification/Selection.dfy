/** Chooses one channel from the ranked candidates. */
module Selection {
  import opened Types
  import opened Scoring

  datatype SelectResult =
    | Chosen(channelId: string, strategy: Strategy)
    | NoEligible(reasons: seq<(string, Option<Reason>)>)

  /** An injected random source. The n-th draw is `stream(n)`. */
  class Rng {
    const stream: nat -> real
    var index: nat

    constructor (stream: nat -> real)
      ensures this.stream == stream && index == 0
    {
      this.stream, index := stream, 0;
    }

    method Next() returns (draw: real)
      modifies this
      ensures draw == stream(old(index)) && index == old(index) + 1
    {
      draw, index := stream(index), index + 1;
    }
  }

  function Eligible(cands: seq<Candidate>): (es: seq<Candidate>)
    ensures forall c :: c in es <==> c in cands && c.eligible
  {
    if cands == [] then []
    else
      var n := |cands| - 1;
      Eligible(cands[..n]) + if cands[n].eligible then [cands[n]] else []
  }

  function Reasons(cands: seq<Candidate>): (rs: seq<(string, Option<Reason>)>)
    ensures |rs| == |cands|
  {
    seq(|cands|, i requires 0 <= i < |cands| => (cands[i].channelId, cands[i].ineligibleReason))
  }

  /** Which of `n` other channels a draw explores. */
  function Pick(n: nat, draw: real): (k: nat)
    requires n > 0
    ensures k < n
  {
    var floor := (draw * n as real).Floor;
    var pick := if n - 1 < floor then n - 1 else floor;
    if pick < 0 then 0 else pick
  }

  function Select(cands: seq<Candidate>, explorationRate: real, draw: real, second: real): SelectResult {
    var eligible := Eligible(cands);
    if eligible == [] then NoEligible(Reasons(cands))
    else if |eligible| == 1 then Chosen(eligible[0].channelId, OnlyCandidate)
    else if draw < explorationRate then Chosen(eligible[1..][Pick(|eligible| - 1, second)].channelId, Explore)
    else Chosen(eligible[0].channelId, Best)
  }

  /** How many draws one selection uses up. */
  function DrawsUsed(cands: seq<Candidate>, explorationRate: real, draw: real): nat {
    if |Eligible(cands)| <= 1 then 0 else if draw < explorationRate then 2 else 1
  }

  method SelectChannel(cands: seq<Candidate>, explorationRate: real, rng: Rng) returns (r: SelectResult)
    modifies rng
    ensures r == Select(cands, explorationRate, rng.stream(old(rng.index)), rng.stream(old(rng.index) + 1))
    ensures rng.index == old(rng.index) + DrawsUsed(cands, explorationRate, rng.stream(old(rng.index)))
  {
    hide Pick;
    var eligible := Eligible(cands);
    if eligible == [] {
      return NoEligible(Reasons(cands));
    }
    var best := eligible[0];
    if |eligible| == 1 {
      return Chosen(best.channelId, OnlyCandidate);
    }
    var draw := rng.Next();
    if draw < explorationRate {
      var others := eligible[1..];
      var second := rng.Next();
      return Chosen(others[Pick(|others|, second)].channelId, Explore);
    }
    return Chosen(best.channelId, Best);
  }

  /** The draw splits [0, 1) into equal parts, one for each other channel. */
  lemma PickIsPartition(n: nat, draw: real, k: nat)
    requires 0.0 <= draw < 1.0 && k < n
    ensures Pick(n, draw) == k <==> k as real / n as real <= draw < (k + 1) as real / n as real
  {
    var m, x := n as real, draw * n as real;
    ShareInRange(draw, m);
    assert Pick(n, draw) == x.Floor;
    QuotientBelow(k as real, m, draw);
    QuotientBelow((k + 1) as real, m, draw);
  }

  lemma ShareInRange(d: real, m: real)
    requires 0.0 <= d < 1.0 && m > 0.0
    ensures 0.0 <= d * m < m
  {
    assert (1.0 - d) * m > 0.0;
    assert (1.0 - d) * m == m - d * m;
  }

  lemma QuotientBelow(a: real, m: real, d: real)
    requires m > 0.0
    ensures a / m <= d <==> a <= d * m
  {
    var q := a / m;
    assert q * m == a;
    if q <= d {
      assert (d - q) * m >= 0.0;
    } else {
      assert (q - d) * m > 0.0;
    }
  }

  /** Every share is reached by some draw. */
  lemma PickReaches(n: nat, k: nat) returns (draw: real)
    requires k < n
    ensures 0.0 <= draw < 1.0 && Pick(n, draw) == k
  {
    draw := k as real / n as real;
    QuotientBelow(0.0, n as real, draw);
    QuotientBelow(1.0 * n as real, n as real, draw);
    assert draw * n as real == k as real;
    assert 0.0 / n as real == 0.0;
    assert 1.0 * n as real / n as real == 1.0;
  }

  ghost predicate InOrder(lt: (string, string) -> bool, cands: seq<Candidate>) {
    forall i, j :: 0 <= i < j < |cands| ==> NotAfter(lt, cands[i], cands[j])
  }

  lemma {:induction false} EligibleIsPrefixOrder(lt: (string, string) -> bool, cands: seq<Candidate>)
    requires InOrder(lt, cands)
    ensures InOrder(lt, Eligible(cands))
  {
    hide NotAfter;
    if cands != [] {
      var n := |cands| - 1;
      assert InOrder(lt, cands[..n]);
      EligibleIsPrefixOrder(lt, cands[..n]);
      var es := Eligible(cands[..n]);
      forall i | 0 <= i < |es| ensures NotAfter(lt, es[i], cands[n]) {
        assert es[i] in es;
        var k :| 0 <= k < n && cands[..n][k] == es[i];
        assert NotAfter(lt, cands[k], cands[n]);
      }
    }
  }

  lemma {:induction false} EligibleDistinct(cands: seq<Candidate>)
    requires DistinctCandidates(cands)
    ensures DistinctCandidates(Eligible(cands))
  {
    if cands != [] {
      var n := |cands| - 1;
      assert DistinctCandidates(cands[..n]);
      EligibleDistinct(cands[..n]);
      var es := Eligible(cands[..n]);
      forall i | 0 <= i < |es| ensures es[i].channelId != cands[n].channelId {
        assert es[i] in es;
        var k :| 0 <= k < n && cands[..n][k] == es[i];
      }
    }
  }

  /**
    * `Best` is the eligible channel with the highest score, and of equal scores the one
    * with the smallest identifier.
    */
  lemma BestIsHighest(lt: (string, string) -> bool, cands: seq<Candidate>, rate: real, draw: real, second: real)
    requires InOrder(lt, cands) && Select(cands, rate, draw, second).Chosen?
    requires Select(cands, rate, draw, second).strategy != Explore
    ensures
      var id := Select(cands, rate, draw, second).channelId;
      exists b :: b in cands && b.eligible && b.channelId == id &&
        forall c :: c in cands && c.eligible && c != b ==>
          c.score < b.score || (c.score == b.score && !lt(c.channelId, id))
  {
    EligibleIsPrefixOrder(lt, cands);
    var es := Eligible(cands);
    var b := es[0];
    assert b in es;
    forall c | c in cands && c.eligible && c != b
      ensures c.score < b.score || (c.score == b.score && !lt(c.channelId, b.channelId))
    {
      assert c in es;
      var k :| 0 <= k < |es| && es[k] == c;
      assert NotAfter(lt, es[0], es[k]);
    }
  }

  /** What any selection can return: an eligible candidate. It fails exactly when none is eligible. */
  lemma SelectionIsEligible(cands: seq<Candidate>, rate: real, draw: real, second: real)
    ensures
      var r := Select(cands, rate, draw, second);
      && (r.Chosen? ==> exists c :: c in cands && c.eligible && c.channelId == r.channelId)
      && (r.NoEligible? <==> forall c :: c in cands ==> !c.eligible)
  {
    hide Pick;
    var es := Eligible(cands);
    if es == [] {
      forall c | c in cands ensures !c.eligible {
        assert c in es <==> c.eligible;
      }
    } else {
      var i := if |es| > 1 && draw < rate then 1 + Pick(|es| - 1, second) else 0;
      assert es[i] in es;
      assert Select(cands, rate, draw, second).channelId == es[i].channelId;
    }
  }

  /** Exploring reaches every eligible channel but the best, each on its own share of the second draw. */
  lemma ExploreIsPartition(cands: seq<Candidate>, rate: real, draw: real, second: real, k: nat)
    requires DistinctCandidates(cands) && draw < rate && 0.0 <= second < 1.0
    requires k < |Eligible(cands)| && |Eligible(cands)| >= 2
    ensures
      var n := |Eligible(cands)| - 1;
      var r := Select(cands, rate, draw, second);
      && r.Chosen? && r.strategy == Explore
      && (r.channelId == Eligible(cands)[k].channelId
          <==> k > 0 && (k - 1) as real / n as real <= second < k as real / n as real)
  {
    hide Pick, Eligible;
    var es := Eligible(cands);
    EligibleDistinct(cands);
    var p := 1 + Pick(|es| - 1, second);
    assert es[1..][p - 1] == es[p];
    if k > 0 {
      PickIsPartition(|es| - 1, second, k - 1);
    }
  }

  /**
    * The strategy names how the choice came about, and a refusal gives every candidate
    * with its own reason, in order.
    */
  lemma StrategySays(cands: seq<Candidate>, rate: real, draw: real, second: real)
    ensures
      var n, r := |Eligible(cands)|, Select(cands, rate, draw, second);
      && (r.Chosen? && r.strategy == OnlyCandidate <==> n == 1)
      && (r.Chosen? && r.strategy == Explore <==> n >= 2 && draw < rate)
      && (r.Chosen? && r.strategy == Best <==> n >= 2 && draw >= rate)
      && (r.Chosen? ==> r.strategy != Degraded)
      && (r.NoEligible? ==>
            |r.reasons| == |cands|
            && forall i :: 0 <= i < |cands| ==> r.reasons[i] == (cands[i].channelId, cands[i].ineligibleReason))
  {
    hide Pick, Eligible;
  }

  /**
    * A selection takes a draw exactly when the draw can matter: none for a forced choice,
    * and a second one only to explore.
    */
  lemma DrawsMatter(cands: seq<Candidate>, rate: real, draw: real, second: real, other: real)
    ensures
      var n, used := |Eligible(cands)|, DrawsUsed(cands, rate, draw);
      && (used == 0 <==> n <= 1) && (used == 2 <==> n >= 2 && draw < rate) && used <= 2
      && (used == 0 ==> Select(cands, rate, draw, second) == Select(cands, rate, other, second))
      && (used <= 1 ==> Select(cands, rate, draw, second) == Select(cands, rate, draw, other))
  {
    hide Pick, Eligible;
  }
}
