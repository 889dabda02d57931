/**
  * The probe slot inside one decision: when a half-open channel is returned without its
  * slot, and when routing fails.
  */
module ProbeLaws {
  import opened Types
  import opened Keys
  import opened Redis
  import opened Window
  import opened Breaker
  import WindowStore
  import BreakerStore
  import opened Scoring
  import opened Selection
  import opened Routing
  import opened RoutingLaws

  function Without(es: seq<Candidate>, id: string): seq<Candidate> {
    if es == [] then []
    else
      var n := |es| - 1;
      Without(es[..n], id) + if es[n].channelId == id then [] else [es[n]]
  }

  lemma EligibleSnoc(cands: seq<Candidate>, c: Candidate)
    ensures Eligible(cands + [c]) == Eligible(cands) + if c.eligible then [c] else []
  {
    assert (cands + [c])[..|cands|] == cands;
  }

  lemma WithoutSnoc(es: seq<Candidate>, c: Candidate, id: string)
    ensures Without(es + [c], id) == Without(es, id) + if c.channelId == id then [] else [c]
  {
    assert (es + [c])[..|es|] == es;
  }

  lemma MarkSnoc(cands: seq<Candidate>, c: Candidate, id: string)
    ensures Eligible(MarkInFlight(cands + [c], id))
         == Eligible(MarkInFlight(cands, id)) + if c.eligible && c.channelId != id then [c] else []
  {
    hide Eligible;
    assert MarkInFlight(cands + [c], id) == MarkInFlight(cands, id) + [MarkOne(c, id)];
    EligibleSnoc(MarkInFlight(cands, id), MarkOne(c, id));
  }

  lemma WithoutEligibleSnoc(cands: seq<Candidate>, c: Candidate, id: string)
    ensures Without(Eligible(cands + [c]), id)
         == Without(Eligible(cands), id) + if c.eligible && c.channelId != id then [c] else []
  {
    hide Eligible, Without;
    EligibleSnoc(cands, c);
    if c.eligible {
      WithoutSnoc(Eligible(cands), c, id);
    } else {
      assert Eligible(cands + [c]) == Eligible(cands);
    }
  }

  /** After the mark, the eligible rows are the old ones without the marked channel. */
  lemma {:induction false} MarkRemoves(cands: seq<Candidate>, id: string)
    ensures Eligible(MarkInFlight(cands, id)) == Without(Eligible(cands), id)
  {
    if cands == [] {
      assert MarkInFlight(cands, id) == [];
    } else {
      hide Eligible, MarkInFlight, Without;
      var before, c := cands[..|cands| - 1], cands[|cands| - 1];
      assert cands == before + [c];
      MarkRemoves(before, id);
      MarkSnoc(before, c, id);
      WithoutEligibleSnoc(before, c, id);
    }
  }

  lemma {:induction false} WithoutAbsent(es: seq<Candidate>, id: string)
    requires forall i :: 0 <= i < |es| ==> es[i].channelId != id
    ensures Without(es, id) == es
  {
    if es != [] {
      WithoutAbsent(es[..|es| - 1], id);
    }
  }

  lemma {:induction false} WithoutAt(es: seq<Candidate>, j: nat)
    requires j < |es| && DistinctCandidates(es)
    ensures Without(es, es[j].channelId) == es[..j] + es[j + 1..]
  {
    var n := |es| - 1;
    if j == n {
      WithoutAbsent(es[..n], es[n].channelId);
    } else {
      WithoutAt(es[..n], j);
      assert es[..n][j + 1..] + [es[n]] == es[j + 1..];
      assert es[..n][..j] == es[..j];
    }
  }

  lemma {:induction false} StateOfMember(cands: seq<Candidate>, c: Candidate)
    requires DistinctCandidates(cands) && c in cands
    ensures StateOf(cands, c.channelId) == c.breakerState
  {
    if cands[0] != c {
      assert c in cands[1..];
      var k :| 0 <= k < |cands[1..]| && cands[1..][k] == c;
      assert cands[0].channelId != cands[k + 1].channelId;
      StateOfMember(cands[1..], c);
    }
  }

  /** The position of the selected row among `n` eligible rows. */
  function IndexOf(n: nat, rate: real, d: real, e: real): (i: nat)
    requires n > 0
    ensures i < n
  {
    if n == 1 then 0 else if d < rate then 1 + Pick(n - 1, e) else 0
  }

  lemma SelectIs(cands: seq<Candidate>, rate: real, d: real, e: real)
    requires Eligible(cands) != []
    ensures
      var es := Eligible(cands);
      var r := Select(cands, rate, d, e);
      r.Chosen? && r.channelId == es[IndexOf(|es|, rate, d, e)].channelId
  {
    hide Pick, Eligible;
  }

  /** Every position but the best is reached by exploring; the best is reached by not exploring. */
  lemma IndexReaches(n: nat, rate: real, i: nat) returns (d: real, e: real)
    requires i < n && 0.0 <= rate < 1.0 && (i > 0 ==> rate > 0.0)
    ensures InUnit(d) && InUnit(e) && IndexOf(n, rate, d, e) == i
  {
    hide Pick;
    if i == 0 {
      d, e := rate, 0.0;
    } else {
      d := 0.0;
      e := PickReaches(n - 1, i - 1);
    }
  }

  predicate InUnit(d: real) {
    0.0 <= d < 1.0
  }

  predicate IsHalfOpen(c: Candidate) {
    c.breakerState == HALF_OPEN
  }

  /** A half-open channel is returned only with its slot taken by the same call. */
  predicate OwnsSlot(cands: seq<Candidate>, choice: Choice) {
    choice.selection.Chosen? && StateOf(cands, choice.selection.channelId) == HALF_OPEN
    ==> choice.slot == Some(choice.selection.channelId)
  }

  ghost predicate AlwaysOwnsSlot(cands: seq<Candidate>, rate: real) {
    forall held, d1, d2, d3, d4 :: InUnit(d1) && InUnit(d2) && InUnit(d3) && InUnit(d4) ==>
      OwnsSlot(cands, Choose(cands, rate, held, d1, d2, d3, d4))
  }

  /**
    * The condition that a caller can check: at most one eligible channel is half open.
    * Without exploration only the two best matter.
    */
  ghost predicate OneProbeCandidate(es: seq<Candidate>, rate: real) {
    if rate > 0.0 then forall i, j :: 0 <= i < j < |es| ==> !(IsHalfOpen(es[i]) && IsHalfOpen(es[j]))
    else |es| >= 2 ==> !(IsHalfOpen(es[0]) && IsHalfOpen(es[1]))
  }

  /** What a held slot leads to: the second selection ranges over the rows without the first choice. */
  lemma HeldChoice(cands: seq<Candidate>, rate: real, d1: real, d2: real, d3: real, d4: real)
    requires DistinctCandidates(cands) && Eligible(cands) != []
    ensures
      var es := Eligible(cands);
      var i := IndexOf(|es|, rate, d1, d2);
      var left := es[..i] + es[i + 1..];
      var choice := Choose(cands, rate, true, d1, d2, d3, d4);
      && (!IsHalfOpen(es[i]) ==>
        choice == Choice(cands, Select(cands, rate, d1, d2), None) && choice.selection.channelId == es[i].channelId
          && StateOf(cands, choice.selection.channelId) != HALF_OPEN)
      && (IsHalfOpen(es[i]) && left == [] ==> choice.selection.NoEligible? && choice.slot.None?)
      && (IsHalfOpen(es[i]) && left != [] ==>
            var k := IndexOf(|left|, rate, d3, d4);
            choice.selection.Chosen? && choice.selection.channelId == left[k].channelId && choice.slot.None?
            && StateOf(cands, choice.selection.channelId) == left[k].breakerState)
  {
    hide IndexOf, Select, MarkInFlight, StateOf, Eligible, Without;
    var es := Eligible(cands);
    var i := IndexOf(|es|, rate, d1, d2);
    SelectIs(cands, rate, d1, d2);
    assert es[i] in es;
    StateOfMember(cands, es[i]);
    EligibleDistinct(cands);
    if IsHalfOpen(es[i]) {
      var marked := MarkInFlight(cands, es[i].channelId);
      MarkRemoves(cands, es[i].channelId);
      WithoutAt(es, i);
      var left := es[..i] + es[i + 1..];
      if left != [] {
        SelectIs(marked, rate, d3, d4);
        var k := IndexOf(|left|, rate, d3, d4);
        assert left[k] in es;
        StateOfMember(cands, left[k]);
      } else {
        EmptySelects(marked, rate, d3, d4);
      }
    }
  }

  lemma EmptySelects(cands: seq<Candidate>, rate: real, d: real, e: real)
    requires Eligible(cands) == []
    ensures Select(cands, rate, d, e).NoEligible?
  {
    hide Eligible;
  }

  lemma FreeChoice(cands: seq<Candidate>, rate: real, d1: real, d2: real, d3: real, d4: real)
    ensures OwnsSlot(cands, Choose(cands, rate, false, d1, d2, d3, d4))
    ensures Choose(cands, rate, false, d1, d2, d3, d4).selection == Select(cands, rate, d1, d2)
  {
    hide Select, StateOf;
  }

  lemma OneProbeSuffices(cands: seq<Candidate>, rate: real, held: bool, d1: real, d2: real, d3: real, d4: real)
    requires DistinctCandidates(cands) && 0.0 <= rate < 1.0 && OneProbeCandidate(Eligible(cands), rate)
    requires InUnit(d1) && InUnit(d2) && InUnit(d3) && InUnit(d4)
    ensures OwnsSlot(cands, Choose(cands, rate, held, d1, d2, d3, d4))
  {
    hide Choose, Eligible, Pick, StateOf;
    var es := Eligible(cands);
    if !held {
      FreeChoice(cands, rate, d1, d2, d3, d4);
    } else if es == [] {
      NothingToChoose(cands, rate, held, d1, d2, d3, d4);
    } else {
      HeldChoice(cands, rate, d1, d2, d3, d4);
      var i := IndexOf(|es|, rate, d1, d2);
      var left := es[..i] + es[i + 1..];
      if IsHalfOpen(es[i]) && left != [] {
        var k := IndexOf(|left|, rate, d3, d4);
        var m := if k < i then k else k + 1;
        assert left[k] == es[m] && m != i;
        assert !IsHalfOpen(left[k]);
      }
    }
  }

  lemma NothingToChoose(cands: seq<Candidate>, rate: real, held: bool, d1: real, d2: real, d3: real, d4: real)
    requires Eligible(cands) == []
    ensures Choose(cands, rate, held, d1, d2, d3, d4).selection.NoEligible?
    ensures Choose(cands, rate, held, d1, d2, d3, d4).slot.None?
  {
    hide Eligible, StateOf;
  }

  /** Two half-open rows that the selection can reach give draws under which the second goes out without its slot. */
  lemma TwoProbesEscape(cands: seq<Candidate>, rate: real, i: nat, j: nat)
      returns (d1: real, d2: real, d3: real, d4: real)
    requires DistinctCandidates(cands) && 0.0 <= rate < 1.0
    requires var es := Eligible(cands); i < |es| && j < |es| && i != j && IsHalfOpen(es[i]) && IsHalfOpen(es[j])
    requires rate > 0.0 || (i == 0 && j == 1)
    ensures InUnit(d1) && InUnit(d2) && InUnit(d3) && InUnit(d4)
    ensures !OwnsSlot(cands, Choose(cands, rate, true, d1, d2, d3, d4))
  {
    hide Choose, Eligible, IndexOf, StateOf;
    var es := Eligible(cands);
    d1, d2 := IndexReaches(|es|, rate, i);
    var left := es[..i] + es[i + 1..];
    var k := if j < i then j else j - 1;
    assert left[k] == es[j];
    d3, d4 := IndexReaches(|left|, rate, k);
    HeldChoice(cands, rate, d1, d2, d3, d4);
  }

  /**
    * One probe at a time, and exactly when: every draw and every state of the
    * slot keeps it if and only if at most one eligible channel is half open.
    */
  lemma OneProbeExactly(cands: seq<Candidate>, rate: real)
    requires DistinctCandidates(cands) && 0.0 <= rate < 1.0
    ensures AlwaysOwnsSlot(cands, rate) <==> OneProbeCandidate(Eligible(cands), rate)
  {
    hide Choose, Eligible, OwnsSlot;
    var es := Eligible(cands);
    if OneProbeCandidate(es, rate) {
      forall held, d1, d2, d3, d4 | InUnit(d1) && InUnit(d2) && InUnit(d3) && InUnit(d4)
        ensures OwnsSlot(cands, Choose(cands, rate, held, d1, d2, d3, d4))
      {
        OneProbeSuffices(cands, rate, held, d1, d2, d3, d4);
      }
    } else if rate > 0.0 {
      var i, j :| 0 <= i < j < |es| && IsHalfOpen(es[i]) && IsHalfOpen(es[j]);
      var d1, d2, d3, d4 := TwoProbesEscape(cands, rate, i, j);
    } else {
      var d1, d2, d3, d4 := TwoProbesEscape(cands, rate, 0, 1);
    }
  }

  /** When the choice fails: nothing is eligible, or the only eligible channel is half open and its slot is held. */
  lemma ChoiceFailsExactly(cands: seq<Candidate>, rate: real, held: bool, d1: real, d2: real, d3: real, d4: real)
    requires DistinctCandidates(cands)
    ensures
      var es, choice := Eligible(cands), Choose(cands, rate, held, d1, d2, d3, d4);
      && (choice.selection.NoEligible? <==> es == [] || (|es| == 1 && IsHalfOpen(es[0]) && held))
      && (choice.selection.NoEligible? ==> choice.slot.None?)
  {
    hide Choose, Eligible, IndexOf, StateOf, Select;
    var es := Eligible(cands);
    if es == [] {
      NothingToChoose(cands, rate, held, d1, d2, d3, d4);
    } else {
      SelectIs(cands, rate, d1, d2);
      if held {
        HeldChoice(cands, rate, d1, d2, d3, d4);
        var i := IndexOf(|es|, rate, d1, d2);
        assert |es[..i] + es[i + 1..]| == |es| - 1;
      } else {
        FreeChoice(cands, rate, d1, d2, d3, d4);
      }
    }
  }

  lemma FirstWants(cands: seq<Candidate>, rate: real, d1: real, d2: real)
    requires DistinctCandidates(cands) && Eligible(cands) != []
    ensures
      var es := Eligible(cands);
      WantsSlot(cands, Select(cands, rate, d1, d2)) <==> IsHalfOpen(es[IndexOf(|es|, rate, d1, d2)])
  {
    hide IndexOf, Select, StateOf, Eligible;
    var es := Eligible(cands);
    SelectIs(cands, rate, d1, d2);
    assert es[IndexOf(|es|, rate, d1, d2)] in es;
    StateOfMember(cands, es[IndexOf(|es|, rate, d1, d2)]);
  }

  /** The request for the slot of a half-open first choice is not answered. */
  predicate SlotLost(es: seq<Candidate>, rate: real, draw: nat -> real, at: nat, slotOk: bool)
    requires es != []
  {
    !slotOk && IsHalfOpen(es[IndexOf(|es|, rate, draw(at), draw(at + 1))])
  }

  /**
    * An informed call fails exactly when no eligible candidate is left or the
    * store does not answer the request for a slot, and then it holds no slot.
    */
  lemma RouteFailsExactly(db: Db, config: RoutingConfig, query: Query, now: int, lt: (string, string) -> bool,
      draw: nat -> real, at: nat)
    requires GeometryOf(config).Valid() && BreakerStore.BreakersLast(db) && now >= 0
    requires query.metricsRead && DistinctIds(query.all)
    ensures
      var e := Route(db, config, query, now, lt, draw, at);
      var channels := Reachable(query.all, query.supported);
      var es := Eligible(Rank(db, config, channels, now, lt));
      && (e.result.NotRouted? <==>
            channels == [] || es == [] || SlotLost(es, config.explorationRate, draw, at, query.slotOk)
            || (|es| == 1 && IsHalfOpen(es[0]) && db.Live(Probe(es[0].channelId))))
      && (e.result == NotRouted(StoreFailed)
        <==> channels != [] && es != [] && SlotLost(es, config.explorationRate, draw, at, query.slotOk))
      && (e.result.NotRouted? ==> e.slot.None?)
      && (e.result == NotRouted(NoneConfigured) <==> query.all == [])
  {
    hide Refreshed, BuildCandidates, NextBreakers, Select, Choose, DrawsUsed, BreakerStore.ParseSnapshot;
    hide BreakerStore.BreakersLast, IndexOf, Eligible;
    var channels := Reachable(query.all, query.supported);
    if channels != [] {
      var cands, rate := Rank(db, config, channels, now, lt), config.explorationRate;
      var mid := Refreshed(db, config, IdsOf(channels), now, query.landed);
      ReachableDistinct(query.all, query.supported);
      RankDistinct(db, config, channels, now, lt);
      RefreshedReads(db, config, IdsOf(channels), now, query.landed);
      var first := Select(cands, rate, draw(at), draw(at + 1));
      var used := DrawsUsed(cands, rate, draw(at));
      var held := first.Chosen? && mid.Live(Probe(first.channelId));
      ChoiceFailsExactly(cands, rate, held, draw(at), draw(at + 1), draw(at + used), draw(at + used + 1));
      if Eligible(cands) != [] {
        SelectIs(cands, rate, draw(at), draw(at + 1));
        FirstWants(cands, rate, draw(at), draw(at + 1));
        assert mid.Live(Probe(first.channelId)) == db.Live(Probe(first.channelId));
      } else {
        EmptySelects(cands, rate, draw(at), draw(at + 1));
      }
    }
  }

  lemma RankDistinct(db: Db, config: RoutingConfig, channels: seq<Channel>, now: int, lt: (string, string) -> bool)
    requires GeometryOf(config).Valid() && DistinctIds(channels)
    ensures DistinctCandidates(Rank(db, config, channels, now, lt))
  {
    hide BuildCandidates;
    CandidatesDistinct(channels,
      Inputs(ReadStats(db, config, IdsOf(channels), now), NextBreakers(db, config, IdsOf(channels), now), config), lt);
  }

  // ---------- The whole call ----------

  ghost predicate UnitDraws(draw: nat -> real) {
    forall k: nat :: InUnit(draw(k))
  }

  function RankOf(db: Db, config: RoutingConfig, query: Query, now: int, lt: (string, string) -> bool): seq<Candidate>
    requires GeometryOf(config).Valid()
  {
    Rank(db, config, Reachable(query.all, query.supported), now, lt)
  }

  function NextOf(db: Db, config: RoutingConfig, query: Query, now: int): map<string, BreakerSnapshot>
    requires GeometryOf(config).Valid()
  {
    NextBreakers(db, config, IdsOf(Reachable(query.all, query.supported)), now)
  }

  /** The call returns a half-open channel only with the slot of that channel, taken by this call. */
  ghost predicate RouteOwns(db: Db, config: RoutingConfig, query: Query, now: int, lt: (string, string) -> bool,
      draw: nat -> real, at: nat)
    requires GeometryOf(config).Valid()
  {
    var e, next := Route(db, config, query, now, lt, draw, at), NextOf(db, config, query, now);
    e.result.Decision? && e.result.channelId in next && next[e.result.channelId].state == HALF_OPEN
    ==> e.slot == Some(e.result.channelId)
  }

  /** What an informed call over this store has to bring. */
  ghost predicate Routable(db: Db, config: RoutingConfig, query: Query, now: int) {
    && GeometryOf(config).Valid() && 0.0 <= config.explorationRate < 1.0
    && BreakerStore.BreakersLast(db) && now >= 0 && query.metricsRead && DistinctIds(query.all)
  }

  lemma RowState(db: Db, config: RoutingConfig, query: Query, now: int, lt: (string, string) -> bool, c: Candidate)
    requires Routable(db, config, query, now) && c in RankOf(db, config, query, now, lt)
    ensures DistinctCandidates(RankOf(db, config, query, now, lt))
    ensures c.channelId in NextOf(db, config, query, now) && NextOf(db, config, query, now)[c.channelId].state
      == c.breakerState
    ensures StateOf(RankOf(db, config, query, now, lt), c.channelId) == c.breakerState
  {
    hide Rank, NextBreakers, StateOf, Reachable;
    var channels := Reachable(query.all, query.supported);
    ReachableDistinct(query.all, query.supported);
    RankRows(db, config, channels, now, lt);
    RankDistinct(db, config, channels, now, lt);
    StateOfMember(Rank(db, config, channels, now, lt), c);
  }

  /** The choice that the call makes, in terms of its draws. */
  function ChoiceOf(db: Db, config: RoutingConfig, query: Query, now: int, lt: (string, string) -> bool,
      draw: nat -> real, at: nat): Choice
    requires GeometryOf(config).Valid()
  {
    var cands, rate := RankOf(db, config, query, now, lt), config.explorationRate;
    var first := Select(cands, rate, draw(at), draw(at + 1));
    var used := DrawsUsed(cands, rate, draw(at));
    Choose(cands, rate, first.Chosen?
      && db.Live(Probe(first.channelId)), draw(at), draw(at + 1), draw(at + used), draw(at + used + 1))
  }

  /** The refresh touches no slot, so the call makes its choice, or fails for want of an answer. */
  lemma RouteChooses(db: Db, config: RoutingConfig, query: Query, now: int, lt: (string, string) -> bool,
      draw: nat -> real, at: nat)
    requires Routable(db, config, query, now)
    ensures
      var e, choice := Route(db, config, query, now, lt, draw, at), ChoiceOf(db, config, query, now, lt, draw, at);
      && (e.result.Decision? ==>
        choice.selection.Chosen? && choice.selection.channelId == e.result.channelId && e.slot == choice.slot)
      && (query.slotOk && Reachable(query.all, query.supported) != [] && choice.selection.Chosen? ==>
        e.result.Decision?)
  {
    hide Rank, Refreshed, Choose, Select, DrawsUsed, Reachable, BreakerStore.BreakersLast;
    hide BreakerStore.ParseSnapshot, StateOf;
    RefreshedReads(db, config, IdsOf(Reachable(query.all, query.supported)), now, query.landed);
  }

  lemma ChosenRow(cands: seq<Candidate>, rate: real, held: bool, d1: real, d2: real, d3: real, d4: real)
      returns (c: Candidate)
    requires Choose(cands, rate, held, d1, d2, d3, d4).selection.Chosen?
    ensures c in cands && c.eligible && c.channelId == Choose(cands, rate, held, d1, d2, d3, d4).selection.channelId
  {
    hide Choose;
    ChoiceIsEligible(cands, rate, held, d1, d2, d3, d4);
    c :| c in cands && c.eligible && c.channelId == Choose(cands, rate, held, d1, d2, d3, d4).selection.channelId;
  }

  /**
    * One probe at a time, for the call: with at most one half-open eligible row, a
    * half-open channel is returned only with its slot.
    */
  lemma RouteOwnsSlot(db: Db, config: RoutingConfig, query: Query, now: int, lt: (string, string) -> bool,
      draw: nat -> real, at: nat)
    requires Routable(db, config, query, now) && UnitDraws(draw)
    requires OneProbeCandidate(Eligible(RankOf(db, config, query, now, lt)), config.explorationRate)
    ensures RouteOwns(db, config, query, now, lt, draw, at)
  {
    hide Route, Choose, Select, DrawsUsed, RankOf, NextOf, OneProbeCandidate, StateOf, Eligible;
    var cands, rate := RankOf(db, config, query, now, lt), config.explorationRate;
    RouteChooses(db, config, query, now, lt, draw, at);
    if Route(db, config, query, now, lt, draw, at).result.Decision? {
      var first := Select(cands, rate, draw(at), draw(at + 1));
      var used := DrawsUsed(cands, rate, draw(at));
      var held := first.Chosen? && db.Live(Probe(first.channelId));
      var c := ChosenRow(cands, rate, held, draw(at), draw(at + 1), draw(at + used), draw(at + used + 1));
      RowState(db, config, query, now, lt, c);
      OneProbeSuffices(cands, rate, held, draw(at), draw(at + 1), draw(at + used), draw(at + used + 1));
    }
  }

  /** The draws of `TwoProbesEscape`, in the order in which the call takes them. */
  function DrawsFor(used: nat, d1: real, d2: real, d3: real, d4: real): nat -> real {
    (k: nat) =>
      if k == 0 then d1 else if k == used then d3 else if k == used + 1 then d4 else if k == 1 then d2 else 0.0
  }

  /**
    * Two half-open rows that the selection can reach, and the slot of the first held: the
    * call returns the second without its slot.
    */
  lemma RouteEscapes(db: Db, config: RoutingConfig, query: Query, now: int, lt: (string, string) -> bool, i: nat,
      j: nat)
    returns (draw: nat -> real)
    requires Routable(db, config, query, now) && query.slotOk
    requires
      var es := Eligible(RankOf(db, config, query, now, lt));
      && i < |es| && j < |es| && i != j && IsHalfOpen(es[i]) && IsHalfOpen(es[j]) && db.Live(Probe(es[i].channelId))
    requires config.explorationRate > 0.0 || (i == 0 && j == 1)
    ensures UnitDraws(draw) && !RouteOwns(db, config, query, now, lt, draw, 0)
  {
    hide Route, Choose, Select, RankOf, NextOf, Eligible, StateOf, Pick, Reachable;
    var cands, rate := RankOf(db, config, query, now, lt), config.explorationRate;
    var es := Eligible(cands);
    assert es[i] in es && es[j] in es;
    RowState(db, config, query, now, lt, es[i]);
    RowState(db, config, query, now, lt, es[j]);
    SomeReachable(db, config, query, now, lt);
    var d1, d2 := IndexReaches(|es|, rate, i);
    var left := es[..i] + es[i + 1..];
    var k := if j < i then j else j - 1;
    assert left[k] == es[j];
    var d3, d4 := IndexReaches(|left|, rate, k);
    var used := DrawsUsed(cands, rate, d1);
    draw := DrawsFor(used, d1, d2, d3, d4);
    assert IndexOf(|es|, rate, draw(0), draw(1)) == i;
    assert draw(used) == d3 && draw(used + 1) == d4;
    SelectIs(cands, rate, draw(0), draw(1));
    HeldChoice(cands, rate, draw(0), draw(1), d3, d4);
    RouteChooses(db, config, query, now, lt, draw, 0);
  }

  lemma SomeReachable(db: Db, config: RoutingConfig, query: Query, now: int, lt: (string, string) -> bool)
    requires Routable(db, config, query, now) && Eligible(RankOf(db, config, query, now, lt)) != []
    ensures Reachable(query.all, query.supported) != []
  {
    hide NextBreakers, Reachable;
    var channels := Reachable(query.all, query.supported);
    var es := Eligible(RankOf(db, config, query, now, lt));
    assert es[0] in es;
    RankRows(db, config, channels, now, lt);
  }

  /** The stores differ in probe slots only. */
  ghost predicate OnlySlotsDiffer(a: Db, b: Db) {
    a.now == b.now && forall k: Key :: !k.Probe? ==>
      (k in a.data <==> k in b.data) && (k in a.data ==> a.data[k] == b.data[k])
  }

  lemma {:induction false} SlotsDoNotCount(a: Db, b: Db, c: string, ids: seq<int>)
    requires OnlySlotsDiffer(a, b)
    ensures WindowStore.StatsOver(a, c, ids) == WindowStore.StatsOver(b, c, ids)
  {
    hide WindowStore.Clean;
    if ids != [] {
      var n := |ids| - 1;
      SlotsDoNotCount(a, b, c, ids[..n]);
      assert a.Fields(Bucket(c, ids[n])) == b.Fields(Bucket(c, ids[n]))
        && a.Items(Latency(c, ids[n])) == b.Items(Latency(c, ids[n]));
      assert WindowStore.ReadingAt(a, c, ids[n]) == WindowStore.ReadingAt(b, c, ids[n]);
    }
  }

  /** Probe slots change neither the ranking nor the refreshed breakers. */
  lemma SlotsDoNotRank(a: Db, b: Db, config: RoutingConfig, query: Query, now: int, lt: (string, string) -> bool)
    requires OnlySlotsDiffer(a, b) && GeometryOf(config).Valid()
    ensures RankOf(a, config, query, now, lt) == RankOf(b, config, query, now, lt)
    ensures NextOf(a, config, query, now) == NextOf(b, config, query, now)
  {
    hide BuildCandidates, EvaluateBreaker, BreakerStore.ParseSnapshot, Reachable, WindowStore.StatsOver;
    var ids := IdsOf(Reachable(query.all, query.supported));
    forall c ensures WindowStore.StatsIn(a, GeometryOf(config), c, now)
      == WindowStore.StatsIn(b, GeometryOf(config), c, now) {
      SlotsDoNotCount(a, b, c, Ids(GeometryOf(config), now));
    }
    forall c ensures BreakerStore.BreakerAt(a, c) == BreakerStore.BreakerAt(b, c) {
      assert a.Fields(Breaker(c)) == b.Fields(Breaker(c));
    }
    assert ReadStats(a, config, ids, now) == ReadStats(b, config, ids, now);
    assert ReadBreakers(a, ids) == ReadBreakers(b, ids);
  }

  /** Whatever slots are held and whatever is drawn, the call owns the slot of the half-open channel that it returns. */
  ghost predicate RouteAlwaysOwns(db: Db, config: RoutingConfig, query: Query, now: int, lt: (string, string) -> bool)
    requires GeometryOf(config).Valid()
  {
    forall other, draw, at: nat :: OnlySlotsDiffer(db, other) && UnitDraws(draw) ==>
      RouteOwns(other, config, query, now, lt, draw, at)
  }

  /**
    * One probe at a time, for the call, and exactly when: at most one eligible channel of
    * its own ranking is half open.
    */
  lemma RouteOwnsExactly(db: Db, config: RoutingConfig, query: Query, now: int, lt: (string, string) -> bool)
    requires Routable(db, config, query, now) && query.slotOk
    ensures RouteAlwaysOwns(db, config, query, now, lt)
       <==> OneProbeCandidate(Eligible(RankOf(db, config, query, now, lt)), config.explorationRate)
  {
    hide RouteOwns, Eligible, RankOf, NextOf, OnlySlotsDiffer, UnitDraws;
    var es := Eligible(RankOf(db, config, query, now, lt));
    if OneProbeCandidate(es, config.explorationRate) {
      hide OneProbeCandidate;
      forall other, draw, at: nat | OnlySlotsDiffer(db, other) && UnitDraws(draw)
        ensures RouteOwns(other, config, query, now, lt, draw, at) {
        SlotsDoNotRank(db, other, config, query, now, lt);
        StillRoutable(db, other, config, query, now);
        RouteOwnsSlot(other, config, query, now, lt, draw, at);
      }
    } else {
      var i: nat, j: nat := 0, 1;
      if config.explorationRate > 0.0 {
        i, j :| 0 <= i < j < |es| && IsHalfOpen(es[i]) && IsHalfOpen(es[j]);
      }
      var other := db.SetNx(Probe(es[i].channelId), BreakerStore.SLOT_TEXT, PROBE_SLOT_TTL_MS).0;
      SlotSet(db, es[i].channelId);
      SlotsDoNotRank(db, other, config, query, now, lt);
      StillRoutable(db, other, config, query, now);
      var draw := RouteEscapes(other, config, query, now, lt, i, j);
    }
  }

  lemma SlotSet(db: Db, c: string)
    ensures
      var other := db.SetNx(Probe(c), BreakerStore.SLOT_TEXT, PROBE_SLOT_TTL_MS).0;
      OnlySlotsDiffer(db, other) && other.Live(Probe(c))
  {
  }

  lemma StillRoutable(a: Db, b: Db, config: RoutingConfig, query: Query, now: int)
    requires Routable(a, config, query, now) && OnlySlotsDiffer(a, b)
    ensures Routable(b, config, query, now)
  {
    assert BreakerStore.SameBreakers(a, b);
    hide BreakerStore.BreakersLast;
    BreakerStore.SameBreakersRead(a, b);
  }
}
