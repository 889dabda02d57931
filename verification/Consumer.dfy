/**
  * One consumer process: it reads batches of the stream, handles each message,
  * counts the results, and claims what another consumer left. Its passes are
  * runs of the delivery protocol.
  */
module Consumer {
  import opened Delivery

  const BATCH := 50

  /**
    * What the handler returns for each message, which store calls succeed, and how
    * long each message waits. `listOk` is the query for the pending list, and
    * `lineOk` the request that fetches or claims the entry of a line.
    */
  datatype World = World(
    verdict: nat -> Verdict,
    addOk: nat -> bool,
    ackOk: nat -> bool,
    waits: nat -> nat,
    listOk: bool,
    lineOk: nat -> bool)

  datatype Totals = Totals(applied: nat, duplicate: nat, deadLetter: nat)

  datatype State = State(group: Group, totals: Totals)

  /** One line of the pending list. */
  datatype Line = Line(id: nat, deliveries: nat)

  /** One turn of the read loop. The group may be lost before it, and `Stopped` cuts the read. */
  datatype Poll = Poll(lost: bool, repairs: bool, reply: Reply)
  datatype Reply = Nothing | Failed | Stopped | Entries(world: World)

  // ---------- What each step does ----------

  function AckOne(s: State, w: World, id: nat): State {
    if w.ackOk(id) then s.(group := s.group.XAck(id)) else s
  }

  /** The dead letter counts only after both the write and the acknowledgement. */
  function BuryOne(s: State, w: World, id: nat): State {
    if !w.addOk(id) then s
    else
      var g := s.group.XAddDead(id);
      if w.ackOk(id) then State(g.XAck(id), s.totals.(deadLetter := s.totals.deadLetter + 1)) else s.(group := g)
  }

  predicate Poison(g: Group, id: nat) {
    id < |g.entries| && g.entries[id].NotJson?
  }

  function ProcessOne(s: State, w: World, id: nat): State {
    if Poison(s.group, id) then BuryOne(s, w, id)
    else match w.verdict(id)
      case Applied => AckOne(s.(totals := s.totals.(applied := s.totals.applied + 1)), w, id)
      case Duplicate => AckOne(s.(totals := s.totals.(duplicate := s.totals.duplicate + 1)), w, id)
      case Ignored => AckOne(s, w, id)
      case ContractBreak => BuryOne(s, w, id)
      case Crashed => s
  }

  function Wait(s: State, ms: nat): State {
    s.(group := s.group.(now := s.group.now + ms))
  }

  /** Handles the entries of a batch, in order. */
  function ProcessAll(s: State, w: World, from: nat, to: nat): State
    requires from <= to
  {
    if from == to then s
    else ProcessOne(Wait(ProcessAll(s, w, from, to - 1), w.waits(to - 1)), w, to - 1)
  }

  /** The group after the next `n` entries were delivered. */
  function Delivered(g: Group, n: nat): (r: Group)
    requires n == 0 || g.cursor + n <= |g.entries|
    ensures r.cursor == g.cursor + n && r.entries == g.entries && r.now == g.now
  {
    if n == 0 then g else Delivered(g, n - 1).XReadGroup()
  }

  function BatchSize(g: Group): nat {
    if g.cursor >= |g.entries| then 0 else if |g.entries| - g.cursor < BATCH then |g.entries| - g.cursor else BATCH
  }

  function ReadPassed(s: State, w: World): State {
    var n := BatchSize(s.group);
    if n == 0 then s
    else ProcessAll(s.(group := Delivered(s.group, n)), w, s.group.cursor, s.group.cursor + n)
  }

  /** The pending entries below `upTo` that nobody touched for a while, in the order of the stream. */
  function IdleLines(g: Group, minIdleMs: int, upTo: nat): (lines: seq<Line>)
    ensures forall i, j :: 0 <= i < j < |lines| ==> lines[i].id < lines[j].id
    ensures forall i :: 0 <= i < |lines| ==>
      lines[i].id < upTo && g.Idle(lines[i].id, minIdleMs) && g.pending[lines[i].id].deliveries == lines[i].deliveries
    ensures forall id: nat :: id < upTo && g.Idle(id, minIdleMs) ==> Line(id, g.pending[id].deliveries) in lines
  {
    if upTo == 0 then []
    else
      IdleLines(g, minIdleMs, upTo - 1)
      + if g.Idle(upTo - 1, minIdleMs) then [Line(upTo - 1, g.pending[upTo - 1].deliveries)] else []
  }

  /** The reply to the pending query: the first lines only. */
  function PendingReply(p: Params, g: Group): seq<Line> {
    var lines := IdleLines(g, p.claimMinIdleMs, g.cursor);
    if |lines| <= BATCH then lines else lines[..BATCH]
  }

  /** Gives up on an entry that was delivered too often, and handles it once more otherwise. */
  function ClaimOne(p: Params, s: State, w: World, line: Line): State {
    if line.deliveries >= p.maxDeliveries then BuryOne(s, w, line.id)
    else if s.group.Idle(line.id, p.claimMinIdleMs) then
      ProcessOne(s.(group := s.group.XClaim(line.id, p.claimMinIdleMs)), w, line.id)
    else s
  }

  function ClaimAll(p: Params, s: State, w: World, lines: seq<Line>): State {
    if lines == [] then s
    else
      var n := |lines| - 1;
      ClaimOne(p, Wait(ClaimAll(p, s, w, lines[..n]), w.waits(lines[n].id)), w, lines[n])
  }

  /** The lines that the pass gets to: the first request that fails ends it. */
  function Attempted(w: World, lines: seq<Line>): (tried: seq<Line>)
    ensures tried <= lines && forall i :: 0 <= i < |tried| ==> w.lineOk(tried[i].id)
    ensures |tried| < |lines| ==> !w.lineOk(lines[|tried|].id)
  {
    if lines == [] || !w.lineOk(lines[0].id) then [] else [lines[0]] + Attempted(w, lines[1..])
  }

  function LinesOf(p: Params, g: Group, w: World): seq<Line> {
    if w.listOk then Attempted(w, PendingReply(p, g)) else []
  }

  function ClaimPassed(p: Params, s: State, w: World): State {
    ClaimAll(p, s, w, LinesOf(p, s.group, w))
  }

  /** The state of the loop: the group may be missing in the store until the repair makes it again. */
  datatype Loop = Loop(state: State, present: bool, running: bool)

  function PollOnce(l: Loop, poll: Poll): Loop {
    var s := if poll.lost then l.state.(group := l.state.group.Regroup()) else l.state;
    if poll.reply.Stopped? then Loop(s, l.present && !poll.lost, false)
    else if poll.lost || !l.present then
      Loop(if poll.repairs then s.(group := s.group.Regroup()) else s, poll.repairs, true)
    else if poll.reply.Entries? then Loop(ReadPassed(s, poll.reply.world), true, true)
    else Loop(s, true, true)
  }

  function Polled(l: Loop, polls: seq<Poll>): Loop
    decreases |polls|
  {
    if polls == [] || !l.running then l
    else Polled(PollOnce(l, polls[0]), polls[1..])
  }

  /**
    * One turn of the loop. A stopped consumer reads no more; a group that is missing
    * is made again at the first entry when the repair succeeds, and stays missing
    * otherwise; and a batch is read exactly when the group is there.
    */
  lemma PollAnswers(l: Loop, poll: Poll)
    ensures
      var t, g := PollOnce(l, poll), l.state.group;
      var missing := poll.lost || !l.present;
      && (t.running <==> !poll.reply.Stopped?)
      && (t.present <==> if poll.reply.Stopped? || !missing then !missing else poll.repairs)
      && (!poll.reply.Stopped? && missing && poll.repairs ==>
            t.state.group == g.(cursor := 0, pending := map[], acked := {}) && t.state.totals == l.state.totals)
      && (!missing && poll.reply.Entries? ==> t.state == ReadPassed(l.state, poll.reply.world))
      && (!missing && !poll.reply.Entries? ==> t.state == l.state)
  {
    hide ReadPassed;
  }

  /** After a repair the next turn reads the stream again from its first entry. */
  lemma RepairReadsAgain(l: Loop, repair: Poll, next: Poll)
    requires repair.lost && repair.repairs && !repair.reply.Stopped? && !next.lost && next.reply.Entries?
    ensures
      var made := l.state.(group := l.state.group.(cursor := 0, pending := map[], acked := {}));
      PollOnce(PollOnce(l, repair), next) == Loop(ReadPassed(made, next.reply.world), true, true)
  {
    hide ReadPassed;
  }

  // ---------- The process ----------

  class StreamServer {
    var group: Group
    var present: bool

    constructor (entries: seq<Payload>)
      ensures group == Group(0, entries, 0, map[], {}, []) && !present
    {
      group, present := Group(0, entries, 0, map[], {}, []), false;
    }

    /** Makes the group, unless it is there. A new group starts at the first entry. */
    method EnsureGroup() returns (made: bool)
      modifies this
      ensures present && made == !old(present)
      ensures group == if made then old(group).Regroup() else old(group)
    {
      made := !present;
      if made {
        group := group.Regroup();
      }
      present := true;
    }

    /** Delivers at most `BATCH` entries: the first of them and the end of the batch. */
    method ReadNext() returns (from: nat, to: nat)
      requires present
      modifies this
      ensures present && from == old(group).cursor && to == from + BatchSize(old(group))
      ensures from <= to && group == Delivered(old(group), to - from)
    {
      var n := BatchSize(group);
      from, to := group.cursor, group.cursor + n;
      ghost var before := group;
      for k := 0 to n
        invariant present && group == Delivered(before, k)
      {
        group := group.XReadGroup();
      }
    }

    /** Time passes while a message is handled. */
    method Elapse(ms: nat)
      modifies this
      ensures present == old(present) && group == old(group).(now := old(group).now + ms)
    {
      group := group.(now := group.now + ms);
    }
  }

  class OutcomeConsumer {
    const stream: StreamServer
    const params: Params
    var running: bool
    var appliedTotal: nat
    var duplicateTotal: nat
    var deadLetterTotal: nat

    constructor (stream: StreamServer, params: Params)
      ensures this.stream == stream && this.params == params && !running && Stats() == Totals(0, 0, 0)
    {
      this.stream, this.params := stream, params;
      running, appliedTotal, duplicateTotal, deadLetterTotal := false, 0, 0, 0;
    }

    function Stats(): Totals
      reads this
    {
      Totals(appliedTotal, duplicateTotal, deadLetterTotal)
    }

    function Now(): State
      reads this, stream
    {
      State(stream.group, Stats())
    }

    method Start()
      modifies this, stream
      ensures running && stream.present && Stats() == old(Stats())
      ensures stream.group == if old(stream.present) then old(stream.group) else old(stream.group).Regroup()
    {
      var made := stream.EnsureGroup();
      running := true;
    }

    method DeadLetter(id: nat, w: World)
      modifies this, stream
      ensures Now() == BuryOne(old(Now()), w, id) && running == old(running) && stream.present == old(stream.present)
    {
      if !w.addOk(id) {
        return;
      }
      stream.group := stream.group.XAddDead(id);
      if !w.ackOk(id) {
        return;
      }
      stream.group := stream.group.XAck(id);
      deadLetterTotal := deadLetterTotal + 1;
    }

    /** Handles one message, and acknowledges it only when the handler succeeded. */
    method Process(id: nat, w: World)
      modifies this, stream
      ensures Now() == ProcessOne(old(Now()), w, id) && running == old(running) && stream.present == old(stream.present)
    {
      if Poison(stream.group, id) {
        DeadLetter(id, w);
        return;
      }
      var result := w.verdict(id);
      if result.ContractBreak? {
        DeadLetter(id, w);
      } else if !result.Crashed? {
        if result.Applied? {
          appliedTotal := appliedTotal + 1;
        } else if result.Duplicate? {
          duplicateTotal := duplicateTotal + 1;
        }
        if w.ackOk(id) {
          stream.group := stream.group.XAck(id);
        }
      }
    }

    method ReadPass(w: World)
      requires stream.present
      modifies this, stream
      ensures Now() == ReadPassed(old(Now()), w) && running == old(running) && stream.present
    {
      hide ProcessOne;
      ghost var before := Now();
      var from, to := stream.ReadNext();
      ghost var read := Now();
      for id := from to to
        invariant Now() == ProcessAll(read, w, from, id) && running == old(running) && stream.present
      {
        stream.Elapse(w.waits(id));
        Process(id, w);
      }
      assert read == before.(group := Delivered(before.group, to - from));
    }

    /** Gives up on one entry, or claims it and handles it. */
    method ClaimLine(line: Line, w: World)
      modifies this, stream
      ensures Now() == ClaimOne(params, Wait(old(Now()), w.waits(line.id)), w, line)
      ensures running == old(running) && stream.present == old(stream.present)
    {
      hide ProcessOne, BuryOne;
      stream.Elapse(w.waits(line.id));
      if line.deliveries >= params.maxDeliveries {
        DeadLetter(line.id, w);
        return;
      }
      if stream.group.Idle(line.id, params.claimMinIdleMs) {
        stream.group := stream.group.XClaim(line.id, params.claimMinIdleMs);
        Process(line.id, w);
      }
    }

    /** Recovers what a dead consumer left pending, and gives up on what failed too often. */
    method ClaimStale(w: World)
      modifies this, stream
      ensures Now() == if running && stream.present then ClaimPassed(params, old(Now()), w) else old(Now())
      ensures running == old(running) && stream.present == old(stream.present)
    {
      hide ClaimOne, PendingReply, Attempted;
      if !running || !stream.present || !w.listOk {
        return;
      }
      ghost var before := Now();
      var pending := PendingReply(params, stream.group);
      for i := 0 to |pending|
        invariant Now() == ClaimAll(params, before, w, pending[..i]) && running && stream.present
        invariant forall k :: 0 <= k < i ==> w.lineOk(pending[k].id)
      {
        // A request that fails ends the whole pass.
        if !w.lineOk(pending[i].id) {
          assert Attempted(w, pending) == pending[..i];
          return;
        }
        assert pending[..i + 1][..i] == pending[..i];
        ClaimLine(pending[i], w);
      }
      assert pending[..|pending|] == pending == Attempted(w, pending);
    }

    /** Reads until it is stopped. A lost group is made again, and any other failed read is tried again. */
    method ReadLoop(polls: seq<Poll>)
      requires running
      modifies this, stream
      ensures Loop(Now(), stream.present, running) == Polled(Loop(old(Now()), old(stream.present), true), polls)
    {
      hide ReadPassed;
      var i := 0;
      ghost var goal := Polled(Loop(Now(), stream.present, true), polls);
      while running && i < |polls|
        invariant i <= |polls|
        invariant Polled(Loop(Now(), stream.present, running), polls[i..]) == goal
      {
        var poll := polls[i];
        ghost var before := Loop(Now(), stream.present, running);
        assert polls[i..][0] == poll && polls[i..][1..] == polls[i + 1..];
        i := i + 1;
        if poll.lost {
          stream.group, stream.present := stream.group.Regroup(), false;
        }
        if poll.reply.Stopped? {
          running := false;
        } else if !stream.present {
          if poll.repairs {
            var made := stream.EnsureGroup();
          }
        } else if poll.reply.Entries? {
          ReadPass(poll.reply.world);
        }
        assert Loop(Now(), stream.present, running) == PollOnce(before, poll);
      }
    }
  }
}
