/** The passes of a consumer, described in closed form, and shown to be runs of the delivery protocol. */
module ConsumerLaws {
  import opened Delivery
  import opened Consumer

  // ---------- What a pass does, entry by entry ----------

  /** The message can never succeed: it is not JSON, or it breaks the contract. */
  predicate Buries(g: Group, w: World, id: nat) {
    Poison(g, id) || w.verdict(id).ContractBreak?
  }

  /** The message leaves the group in this pass. */
  predicate Leaves(g: Group, w: World, id: nat) {
    w.ackOk(id) && if Buries(g, w, id) then w.addOk(id) else Settles(w.verdict(id))
  }

  predicate CallReturns(g: Group, w: World, id: nat, v: Verdict) {
    !Poison(g, id) && w.verdict(id) == v
  }

  /** The entries of a range whose dead letters were written, in order. */
  function BuriedIn(g: Group, w: World, from: nat, upTo: nat): seq<nat>
    requires from <= upTo
  {
    if from == upTo then
      []
    else BuriedIn(g, w, from, upTo - 1) + if Buries(g, w, upTo - 1) && w.addOk(upTo - 1) then [upTo - 1] else []
  }

  function Returning(g: Group, w: World, v: Verdict, from: nat, upTo: nat): set<nat> {
    set id: nat | from <= id < upTo && CallReturns(g, w, id, v)
  }

  function GivenUp(g: Group, w: World, from: nat, upTo: nat): set<nat> {
    set id: nat | from <= id < upTo && Buries(g, w, id) && Leaves(g, w, id)
  }

  /** The entries `from..upTo` went through the pass that began in `s`, and nothing else was touched. */
  ghost predicate GroupPassed(s: State, w: World, from: nat, upTo: nat, r: State)
    requires from <= upTo
  {
    var g := s.group;
    && r.group.entries == g.entries && r.group.cursor == g.cursor
    && (forall id: nat :: id in r.group.acked <==> id in g.acked || (from <= id < upTo && Leaves(g, w, id)))
    && (forall id: nat :: id in r.group.pending <==> id in g.pending && !(from <= id < upTo && Leaves(g, w, id)))
    && (forall id :: id in r.group.pending ==> r.group.pending[id] == g.pending[id])
    && r.group.dead == g.dead + BuriedIn(g, w, from, upTo)
  }

  /** The totals grew by the entries of the range that were applied, repeated, or given up. */
  predicate TotalsPassed(s: State, w: World, from: nat, upTo: nat, r: State) {
    var g := s.group;
    && r.totals.applied == s.totals.applied + |Returning(g, w, Applied, from, upTo)|
    && r.totals.duplicate == s.totals.duplicate + |Returning(g, w, Duplicate, from, upTo)|
    && r.totals.deadLetter == s.totals.deadLetter + |GivenUp(g, w, from, upTo)|
  }

  lemma ProcessExactly(s: State, w: World, id: nat)
    requires id in s.group.pending
    ensures
      var g, r := s.group, ProcessOne(s, w, id);
      && r.group.entries == g.entries && r.group.cursor == g.cursor && r.group.now == g.now
      && r.group.acked == g.acked + (if Leaves(g, w, id) then {id} else {})
      && r.group.pending == g.pending - (if Leaves(g, w, id) then {id} else {})
      && r.group.dead == g.dead + (if Buries(g, w, id) && w.addOk(id) then [id] else [])
      && r.totals.deadLetter == s.totals.deadLetter + (if Buries(g, w, id) && Leaves(g, w, id) then 1 else 0)
      && r.totals.applied == s.totals.applied + (if CallReturns(g, w, id, Applied) then 1 else 0)
      && r.totals.duplicate == s.totals.duplicate + (if CallReturns(g, w, id, Duplicate) then 1 else 0)
  {
  }

  lemma SameMessage(g: Group, h: Group, w: World, id: nat, v: Verdict)
    requires g.entries == h.entries
    ensures Buries(g, w, id) == Buries(h, w, id) && Leaves(g, w, id) == Leaves(h, w, id)
    ensures CallReturns(g, w, id, v) == CallReturns(h, w, id, v)
  {
  }

  lemma Grows(a: set<nat>, b: set<nat>, id: nat, more: bool)
    requires id !in a && forall x :: x in b <==> x in a || (more && x == id)
    ensures |b| == |a| + if more then 1 else 0
  {
    assert b == if more then a + {id} else a;
  }

  lemma OneMoreCall(g: Group, w: World, v: Verdict, from: nat, upTo: nat)
    requires from < upTo
    ensures |Returning(g, w, v, from, upTo)| == |Returning(g, w, v, from, upTo - 1)|
      + if CallReturns(g, w, upTo - 1, v) then 1 else 0
  {
    hide CallReturns;
    Grows(Returning(g, w, v, from, upTo - 1), Returning(g, w, v, from, upTo), upTo - 1, CallReturns(g, w, upTo - 1, v));
  }

  lemma OneMoreDead(g: Group, w: World, from: nat, upTo: nat)
    requires from < upTo
    ensures |GivenUp(g, w, from, upTo)|
         == |GivenUp(g, w, from, upTo - 1)| + if Buries(g, w, upTo - 1) && Leaves(g, w, upTo - 1) then 1 else 0
  {
    hide Buries, Leaves;
    Grows(GivenUp(g, w, from, upTo - 1), GivenUp(g, w, from, upTo), upTo - 1,
          Buries(g, w, upTo - 1) && Leaves(g, w, upTo - 1));
  }

  lemma TotalsGrow(s: State, w: World, from: nat, upTo: nat, b: State, r: State)
    requires from < upTo && TotalsPassed(s, w, from, upTo - 1, b)
    requires b.group.entries == s.group.entries && upTo - 1 in b.group.pending && r == ProcessOne(b, w, upTo - 1)
    ensures TotalsPassed(s, w, from, upTo, r)
  {
    hide ProcessOne, Returning, GivenUp, CallReturns, Buries, Leaves;
    ProcessExactly(b, w, upTo - 1);
    SameMessage(s.group, b.group, w, upTo - 1, Applied);
    SameMessage(s.group, b.group, w, upTo - 1, Duplicate);
    OneMoreCall(s.group, w, Applied, from, upTo);
    OneMoreCall(s.group, w, Duplicate, from, upTo);
    OneMoreDead(s.group, w, from, upTo);
  }

  lemma GroupGrows(s: State, w: World, from: nat, upTo: nat, b: State, r: State)
    requires from < upTo && GroupPassed(s, w, from, upTo - 1, b)
    requires upTo - 1 in b.group.pending && r == ProcessOne(b, w, upTo - 1)
    ensures GroupPassed(s, w, from, upTo, r)
  {
    hide ProcessOne, CallReturns, Buries, Leaves;
    ProcessExactly(b, w, upTo - 1);
    SameMessage(s.group, b.group, w, upTo - 1, Applied);
  }

  /** What a batch does, entry by entry: who leaves the group, who stays pending, and what is counted. */
  lemma {:induction false} ProcessAllExactly(s: State, w: World, from: nat, upTo: nat)
    requires from <= upTo && forall id: nat :: from <= id < upTo ==> id in s.group.pending
    ensures GroupPassed(s, w, from, upTo, ProcessAll(s, w, from, upTo))
    ensures TotalsPassed(s, w, from, upTo, ProcessAll(s, w, from, upTo))
    decreases upTo
  {
    hide ProcessOne, Returning, GivenUp, Leaves, TotalsPassed;
    if from == upTo {
      NoneYet(s, w, from);
    } else {
      var id := upTo - 1;
      ProcessAllExactly(s, w, from, id);
      var before := Wait(ProcessAll(s, w, from, id), w.waits(id));
      Waited(s, w, from, id, ProcessAll(s, w, from, id), w.waits(id));
      GroupGrows(s, w, from, upTo, before, ProcessOne(before, w, id));
      TotalsGrow(s, w, from, upTo, before, ProcessOne(before, w, id));
    }
  }

  lemma Waited(s: State, w: World, from: nat, upTo: nat, b: State, ms: nat)
    requires from <= upTo && GroupPassed(s, w, from, upTo, b) && TotalsPassed(s, w, from, upTo, b)
    ensures GroupPassed(s, w, from, upTo, Wait(b, ms)) && TotalsPassed(s, w, from, upTo, Wait(b, ms))
  {
  }

  lemma NoneYet(s: State, w: World, from: nat)
    ensures TotalsPassed(s, w, from, from, s)
  {
    assert Returning(s.group, w, Applied, from, from) == {};
    assert Returning(s.group, w, Duplicate, from, from) == {};
    assert GivenUp(s.group, w, from, from) == {};
  }

  lemma {:induction false} DeliveredExactly(g: Group, n: nat)
    requires n == 0 || g.cursor + n <= |g.entries|
    requires forall id :: id in g.pending ==> id < g.cursor
    ensures
      var r := Delivered(g, n);
      && r.acked == g.acked && r.dead == g.dead
      && (forall id: nat :: id in r.pending <==> id in g.pending || g.cursor <= id < g.cursor + n)
      && (forall id :: id in g.pending ==> r.pending[id] == g.pending[id])
      && (forall id: nat :: g.cursor <= id < g.cursor + n ==> r.pending[id] == Pending(1, g.now))
  {
    if n > 0 {
      DeliveredExactly(g, n - 1);
    }
  }

  /**
    * A read pass takes the next entries of the stream, at most fifty, and each leaves or
    * stays as its own calls decide.
    */
  lemma ReadPassExactly(s: State, w: World)
    requires Partition(s.group)
    ensures
      var g, r, n := s.group, ReadPassed(s, w), BatchSize(s.group);
      && n <= 50 && (n < 50 ==> r.group.cursor == |g.entries|) && r.group.cursor == g.cursor + n
      && r.group.entries == g.entries && TotalsPassed(s, w, g.cursor, g.cursor + n, r)
      && r.group.dead == g.dead + BuriedIn(g, w, g.cursor, g.cursor + n)
      && (forall id: nat :: g.cursor <= id < g.cursor + n ==>
            if Leaves(g, w, id) then id in r.group.acked && id !in r.group.pending
            else id !in r.group.acked && id in r.group.pending && r.group.pending[id] == Pending(1, g.now))
      && (forall id: nat :: id < g.cursor ==>
            && (id in r.group.acked <==> id in g.acked) && (id in r.group.pending <==> id in g.pending)
            && (id in g.pending ==> r.group.pending[id] == g.pending[id]))
  {
    hide ProcessAll, Buries, Leaves, Returning, GivenUp;
    var g, n := s.group, BatchSize(s.group);
    var read := s.(group := Delivered(g, n));
    DeliveredExactly(g, n);
    ProcessAllExactly(read, w, g.cursor, g.cursor + n);
    SameMessages(g, read.group, w, g.cursor, g.cursor + n);
    if n == 0 {
      assert read == s;
      NoneYet(s, w, g.cursor);
      assert ReadPassed(s, w) == s;
    } else {
      assert ReadPassed(s, w) == ProcessAll(read, w, g.cursor, g.cursor + n);
    }
  }

  lemma {:induction false} SameMessages(g: Group, h: Group, w: World, from: nat, upTo: nat)
    requires g.entries == h.entries && from <= upTo
    ensures forall id: nat :: Leaves(g, w, id) == Leaves(h, w, id)
    ensures forall v :: Returning(g, w, v, from, upTo) == Returning(h, w, v, from, upTo)
    ensures GivenUp(g, w, from, upTo) == GivenUp(h, w, from, upTo)
    ensures BuriedIn(g, w, from, upTo) == BuriedIn(h, w, from, upTo)
    decreases upTo
  {
    if from != upTo {
      SameMessages(g, h, w, from, upTo - 1);
    }
  }

  // ---------- What a claim pass does ----------

  /** The line is given up: it was delivered too often, or its message can never succeed. */
  predicate LineBuries(p: Params, g: Group, w: World, line: Line) {
    line.deliveries >= p.maxDeliveries || Buries(g, w, line.id)
  }

  predicate LineLeaves(p: Params, g: Group, w: World, line: Line) {
    w.ackOk(line.id) && if LineBuries(p, g, w, line) then w.addOk(line.id) else Settles(w.verdict(line.id))
  }

  function LinesBuried(p: Params, g: Group, w: World, lines: seq<Line>): seq<nat> {
    if lines == [] then []
    else
      var n := |lines| - 1;
      LinesBuried(p, g, w, lines[..n]) + if LineBuries(p, g, w, lines[n]) && w.addOk(lines[n].id) then [lines[n].id]
        else []
  }

  /** The lines of the pending list, each seen once and each true. */
  ghost predicate TrueLines(p: Params, g: Group, lines: seq<Line>) {
    && (forall i, j :: 0 <= i < j < |lines| ==> lines[i].id != lines[j].id)
    && (forall i :: 0 <= i < |lines| ==>
          g.Idle(lines[i].id, p.claimMinIdleMs) && g.pending[lines[i].id].deliveries == lines[i].deliveries)
  }

  /** Line `line` went through the pass: gone, kept as it was, or delivered once more. */
  predicate LinePassed(p: Params, g: Group, w: World, line: Line, r: Group) {
    if LineLeaves(p, g, w, line) then line.id in r.acked && line.id !in r.pending
    else
      && line.id in r.pending && (line.id in r.acked <==> line.id in g.acked)
      && r.pending[line.id].deliveries == line.deliveries + if line.deliveries >= p.maxDeliveries then 0 else 1
  }

  predicate Listed(lines: seq<Line>, id: nat) {
    exists i :: 0 <= i < |lines| && lines[i].id == id
  }

  ghost predicate OthersRest(g: Group, lines: seq<Line>, r: Group) {
    forall id: nat :: !Listed(lines, id) ==>
      && (id in r.acked <==> id in g.acked) && (id in r.pending <==> id in g.pending)
      && (id in g.pending ==> r.pending[id] == g.pending[id])
  }

  ghost predicate ClaimsPassed(p: Params, g: Group, w: World, lines: seq<Line>, r: Group) {
    && r.entries == g.entries && r.cursor == g.cursor && r.now >= g.now
    && r.dead == g.dead + LinesBuried(p, g, w, lines)
    && (forall i :: 0 <= i < |lines| ==> LinePassed(p, g, w, lines[i], r))
    && OthersRest(g, lines, r)
  }

  lemma ClaimOneExactly(p: Params, s: State, w: World, line: Line)
    requires s.group.Idle(line.id, p.claimMinIdleMs)
    ensures
      var g, r := s.group, ClaimOne(p, s, w, line).group;
      && r.entries == g.entries && r.cursor == g.cursor && r.now == g.now
      && r.dead == g.dead + (if LineBuries(p, g, w, line) && w.addOk(line.id) then [line.id] else [])
      && r.acked == g.acked + (if LineLeaves(p, g, w, line) then {line.id} else {})
      && r.pending == (if LineLeaves(p, g, w, line) then g.pending - {line.id}
                       else if line.deliveries >= p.maxDeliveries then g.pending
                       else g.pending[line.id := Pending(g.pending[line.id].deliveries + 1, g.now)])
  {
    hide Settles;
    if line.deliveries < p.maxDeliveries {
      hide ProcessOne;
      var claimed := s.(group := s.group.XClaim(line.id, p.claimMinIdleMs));
      ProcessExactly(claimed, w, line.id);
      SameMessage(s.group, claimed.group, w, line.id, Applied);
    }
  }

  lemma LinesGrow(p: Params, g: Group, w: World, lines: seq<Line>, n: nat, b: State, r: State)
    requires n < |lines| && TrueLines(p, g, lines) && ClaimsPassed(p, g, w, lines[..n], b.group)
    requires r == ClaimOne(p, b, w, lines[n])
    ensures forall i :: 0 <= i <= n ==> LinePassed(p, g, w, lines[i], r.group)
  {
    hide ClaimOne, LineBuries, LineLeaves, LinesBuried;
    var line := lines[n];
    ListedGrows(lines, n);
    assert !Listed(lines[..n], line.id);
    hide Listed;
    ClaimOneExactly(p, b, w, line);
    SameLine(p, g, b.group, w, line);
    forall i | 0 <= i < n ensures LinePassed(p, g, w, lines[i], r.group) {
      assert lines[..n][i] == lines[i];
      assert LinePassed(p, g, w, lines[i], b.group);
      assert lines[i].id != line.id;
    }
  }

  lemma OthersGrow(p: Params, g: Group, w: World, lines: seq<Line>, n: nat, b: State, r: State)
    requires n < |lines| && OthersRest(g, lines[..n], b.group) && b.group.Idle(lines[n].id, p.claimMinIdleMs)
    requires r == ClaimOne(p, b, w, lines[n])
    ensures OthersRest(g, lines[..n + 1], r.group)
  {
    ListedGrows(lines, n);
    hide ClaimOne, Listed, LineLeaves, LineBuries;
    ClaimOneExactly(p, b, w, lines[n]);
  }

  lemma ClaimsGrow(p: Params, g: Group, w: World, lines: seq<Line>, n: nat, b: State, r: State)
    requires n < |lines| && TrueLines(p, g, lines) && ClaimsPassed(p, g, w, lines[..n], b.group)
    requires r == ClaimOne(p, b, w, lines[n])
    ensures ClaimsPassed(p, g, w, lines[..n + 1], r.group)
  {
    LinesGrow(p, g, w, lines, n, b, r);
    var line, all := lines[n], lines[..n + 1];
    hide ClaimOne, LineBuries, LineLeaves, LinePassed;
    assert all[..n] == lines[..n];
    ListedGrows(lines, n);
    assert !Listed(lines[..n], line.id);
    assert b.group.Idle(line.id, p.claimMinIdleMs);
    hide Listed;
    OthersGrow(p, g, w, lines, n, b, r);
    hide OthersRest;
    ClaimOneExactly(p, b, w, line);
    SameLine(p, g, b.group, w, line);
  }

  lemma ListedGrows(lines: seq<Line>, n: nat)
    requires n < |lines|
    ensures forall id :: Listed(lines[..n + 1], id) <==> Listed(lines[..n], id) || id == lines[n].id
  {
    var all := lines[..n + 1];
    forall id ensures Listed(all, id) <==> Listed(lines[..n], id) || id == lines[n].id {
      assert all[n] == lines[n];
      if Listed(lines[..n], id) {
        var i :| 0 <= i < n && lines[..n][i].id == id;
        assert all[i].id == id;
      }
    }
  }

  lemma SameLine(p: Params, g: Group, h: Group, w: World, line: Line)
    requires g.entries == h.entries
    ensures LineBuries(p, g, w, line) == LineBuries(p, h, w, line)
      && LineLeaves(p, g, w, line) == LineLeaves(p, h, w, line)
  {
  }

  lemma {:induction false} ClaimAllExactly(p: Params, s: State, w: World, lines: seq<Line>, n: nat)
    requires n <= |lines| && TrueLines(p, s.group, lines)
    ensures ClaimsPassed(p, s.group, w, lines[..n], ClaimAll(p, s, w, lines[..n]).group)
    decreases n
  {
    hide ClaimOne, LinePassed;
    if n > 0 {
      ClaimAllExactly(p, s, w, lines, n - 1);
      assert lines[..n][..n - 1] == lines[..n - 1];
      var before := ClaimAll(p, s, w, lines[..n - 1]);
      var waited := Wait(before, w.waits(lines[n - 1].id));
      ClaimsWait(p, s.group, w, lines[..n - 1], before, w.waits(lines[n - 1].id));
      ClaimsGrow(p, s.group, w, lines, n - 1, waited, ClaimOne(p, waited, w, lines[n - 1]));
    }
  }

  lemma ClaimsWait(p: Params, g: Group, w: World, lines: seq<Line>, b: State, ms: nat)
    requires ClaimsPassed(p, g, w, lines, b.group)
    ensures ClaimsPassed(p, g, w, lines, Wait(b, ms).group)
  {
    hide LineLeaves, LinesBuried;
  }

  /**
    * A claim pass takes at most fifty entries that were idle long enough, in the
    * order of the stream. One that was delivered too often is only buried; each
    * other is delivered once more and leaves or stays as its own calls decide.
    * The first request of the pass that fails ends it.
    */
  lemma ClaimPassExactly(p: Params, s: State, w: World)
    ensures
      var lines := LinesOf(p, s.group, w);
      && lines <= PendingReply(p, s.group) && |lines| <= BATCH && TrueLines(p, s.group, lines)
      && ClaimsPassed(p, s.group, w, lines, ClaimPassed(p, s, w).group)
  {
    hide ClaimsPassed, ClaimAll;
    var lines := LinesOf(p, s.group, w);
    ClaimAllExactly(p, s, w, lines, |lines|);
    assert lines[..|lines|] == lines;
  }

  // ---------- Whom a claim pass reaches ----------

  /** How many idle entries stand before the given one in the stream. */
  function IdleBefore(g: Group, minIdleMs: int, id: nat): nat {
    if id == 0 then 0 else IdleBefore(g, minIdleMs, id - 1) + if g.Idle(id - 1, minIdleMs) then 1 else 0
  }

  /** The list of idle entries, without its contract. */
  function Idlers(g: Group, minIdleMs: int, upTo: nat): seq<Line> {
    IdleLines(g, minIdleMs, upTo)
  }

  lemma OneMoreIdle(g: Group, minIdleMs: int, upTo: nat)
    ensures Idlers(g, minIdleMs, 0) == []
    ensures upTo > 0 ==>
      Idlers(g, minIdleMs, upTo)
      == Idlers(g, minIdleMs, upTo - 1)
         + if g.Idle(upTo - 1, minIdleMs) then [Line(upTo - 1, g.pending[upTo - 1].deliveries)] else []
  {
  }

  lemma {:induction false} IdleCount(g: Group, minIdleMs: int, upTo: nat)
    ensures |Idlers(g, minIdleMs, upTo)| == IdleBefore(g, minIdleMs, upTo)
  {
    hide Idlers;
    OneMoreIdle(g, minIdleMs, upTo);
    if upTo > 0 {
      IdleCount(g, minIdleMs, upTo - 1);
    }
  }

  /** An idle entry stands in the list at its place among the idle entries. */
  lemma {:induction false} IdlePlace(g: Group, minIdleMs: int, upTo: nat, id: nat)
    requires id < upTo && g.Idle(id, minIdleMs)
    ensures
      var lines, k := Idlers(g, minIdleMs, upTo), IdleBefore(g, minIdleMs, id);
      k < |lines| && lines[k] == Line(id, g.pending[id].deliveries)
    decreases upTo
  {
    hide Idlers, IdleBefore;
    IdleCount(g, minIdleMs, upTo - 1);
    OneMoreIdle(g, minIdleMs, upTo);
    if id < upTo - 1 {
      IdlePlace(g, minIdleMs, upTo - 1, id);
    }
  }

  /**
    * The pass reaches an entry: it is idle, fewer than fifty idle entries stand
    * before it, and no request fails for it or for an idle entry before it.
    */
  ghost predicate Reached(p: Params, g: Group, w: World, id: nat) {
    && w.listOk && g.Idle(id, p.claimMinIdleMs) && IdleBefore(g, p.claimMinIdleMs, id) < 50
    && forall x: nat :: x <= id && g.Idle(x, p.claimMinIdleMs) ==> w.lineOk(x)
  }

  lemma {:induction false} IdleBeforeGrows(g: Group, minIdleMs: int, x: nat, id: nat)
    requires x <= id
    ensures IdleBefore(g, minIdleMs, x) <= IdleBefore(g, minIdleMs, id)
    decreases id
  {
    if x < id {
      IdleBeforeGrows(g, minIdleMs, x, id - 1);
    }
  }

  lemma ReachedIsListed(p: Params, g: Group, w: World, id: nat)
    requires Partition(g) && Reached(p, g, w, id)
    ensures
      var lines, k := LinesOf(p, g, w), IdleBefore(g, p.claimMinIdleMs, id);
      k < |lines| && lines[k] == Line(id, g.pending[id].deliveries)
  {
    hide IdleLines, IdleBefore, Attempted;
    var all, lines := PendingReply(p, g), LinesOf(p, g, w);
    var k := IdleBefore(g, p.claimMinIdleMs, id);
    IdlePlace(g, p.claimMinIdleMs, g.cursor, id);
    assert all[k] == Line(id, g.pending[id].deliveries);
    if |lines| <= k {
      assert false;
    }
  }

  lemma ListedIsReached(p: Params, g: Group, w: World, k: nat)
    requires Partition(g) && k < |LinesOf(p, g, w)|
    ensures Reached(p, g, w, LinesOf(p, g, w)[k].id)
  {
    hide IdleLines, IdleBefore, Attempted;
    var all, lines := PendingReply(p, g), LinesOf(p, g, w);
    var id := lines[k].id;
    assert lines[k] == all[k] && g.Idle(id, p.claimMinIdleMs);
    IdlePlace(g, p.claimMinIdleMs, g.cursor, id);
    SamePlace(p, g, k, id);
    forall x: nat | x <= id && g.Idle(x, p.claimMinIdleMs) ensures w.lineOk(x) {
      var m := IdleBefore(g, p.claimMinIdleMs, x);
      IdlePlace(g, p.claimMinIdleMs, g.cursor, x);
      IdleBeforeGrows(g, p.claimMinIdleMs, x, id);
      assert lines[m] == all[m] && all[m].id == x;
    }
  }

  /** The place of a line in the list is the number of idle entries before it. */
  lemma SamePlace(p: Params, g: Group, k: nat, id: nat)
    requires Partition(g) && k < |PendingReply(p, g)| && PendingReply(p, g)[k].id == id && g.Idle(id, p.claimMinIdleMs)
    ensures IdleBefore(g, p.claimMinIdleMs, id) == k
  {
    hide IdleLines, IdleBefore;
    IdlePlace(g, p.claimMinIdleMs, g.cursor, id);
    var lines, m := IdleLines(g, p.claimMinIdleMs, g.cursor), IdleBefore(g, p.claimMinIdleMs, id);
    assert lines[k].id == id && lines[m].id == id;
  }

  /**
    * Recovery. Of all entries of the group, exactly those that the pass reaches go
    * through it: the first fifty that were idle long enough, up to the first
    * request that fails. Every other entry stays as it was.
    */
  lemma ClaimPassReaches(p: Params, s: State, w: World, id: nat)
    requires Partition(s.group)
    ensures
      var g, r := s.group, ClaimPassed(p, s, w).group;
      if Reached(p, g, w, id) then LinePassed(p, g, w, Line(id, g.pending[id].deliveries), r)
      else
        && (id in r.acked <==> id in g.acked) && (id in r.pending <==> id in g.pending)
        && (id in g.pending ==> r.pending[id] == g.pending[id])
  {
    hide ClaimPassed, LinePassed, LinesOf, Reached, PendingReply;
    var g, lines := s.group, LinesOf(p, s.group, w);
    ClaimPassExactly(p, s, w);
    if Reached(p, g, w, id) {
      ReachedIsListed(p, g, w, id);
      assert LinePassed(p, g, w, lines[IdleBefore(g, p.claimMinIdleMs, id)], ClaimPassed(p, s, w).group);
      IdleIsPending(p, g, w, id);
    } else if Listed(lines, id) {
      var k :| 0 <= k < |lines| && lines[k].id == id;
      ListedIsReached(p, g, w, k);
    }
  }

  lemma IdleIsPending(p: Params, g: Group, w: World, id: nat)
    requires Reached(p, g, w, id)
    ensures id in g.pending
  {
  }
}
