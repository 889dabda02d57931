/** Every run of a consumer is a run of the delivery protocol, so what the protocol keeps holds for the consumer. */
module ConsumerRuns {
  import opened Delivery
  import opened Consumer

  // ---------- Sequences of protocol steps ----------

  function Steps(p: Params, d: Sys, actions: seq<Action>): Sys {
    if actions == [] then d
    else
      var n := |actions| - 1;
      Next(p, Steps(p, d, actions[..n]), actions[n])
  }

  ghost predicate Reaches(p: Params, d: Sys, e: Sys) {
    exists actions :: Steps(p, d, actions) == e
  }

  lemma {:induction false} StepsJoin(p: Params, d: Sys, a: seq<Action>, b: seq<Action>)
    ensures Steps(p, d, a + b) == Steps(p, Steps(p, d, a), b)
    decreases |b|
  {
    hide Next;
    if b == [] {
      assert a + b == a;
    } else {
      var n := |b| - 1;
      assert (a + b)[..|a| + n] == a + b[..n];
      StepsJoin(p, d, a, b[..n]);
    }
  }

  lemma Stay(p: Params, d: Sys)
    ensures Reaches(p, d, d)
  {
    assert Steps(p, d, []) == d;
  }

  lemma Join(p: Params, d: Sys, e: Sys, f: Sys)
    requires Reaches(p, d, e) && Reaches(p, e, f)
    ensures Reaches(p, d, f)
  {
    hide Steps;
    var a :| Steps(p, d, a) == e;
    var b :| Steps(p, e, b) == f;
    StepsJoin(p, d, a, b);
  }

  lemma Act(p: Params, d: Sys, e: Sys, a: Action)
    requires Reaches(p, d, e)
    ensures Reaches(p, d, Next(p, e, a))
  {
    hide Next;
    assert [a][..0] == [];
    assert Steps(p, e, []) == e;
    assert Steps(p, e, [a]) == Next(p, e, a);
    Join(p, d, e, Next(p, e, a));
  }

  /** What the protocol keeps in every run. */
  ghost predicate Safe(d: Sys) {
    AckSafe(d) && Fresh(d)
  }

  lemma {:induction false} StepsKeep(p: Params, d: Sys, actions: seq<Action>)
    requires Safe(d)
    ensures Safe(Steps(p, d, actions))
    decreases |actions|
  {
    hide AckSafe, Fresh, Next;
    if actions != [] {
      var n := |actions| - 1;
      StepsKeep(p, d, actions[..n]);
      var before := Steps(p, d, actions[..n]);
      SafeIsPartition(before);
      AckSafeKept(p, before, actions[n]);
      FreshKept(p, before, actions[n]);
    }
  }

  lemma ReachesKeeps(p: Params, d: Sys, e: Sys)
    requires Safe(d) && Reaches(p, d, e)
    ensures Safe(e)
  {
    var a :| Steps(p, d, a) == e;
    StepsKeep(p, d, a);
  }

  // ---------- The consumer as the protocol sees it ----------

  /** The calls of `handle` that returned `v`. */
  function CallsWith(d: Sys, v: Verdict): set<Ticket> {
    set t | t in d.verdicts && d.verdicts[t] == v
  }

  /** Same group, and totals that count the calls and the dead letters of the history. */
  ghost predicate Sim(d: Sys, s: State) {
    && d.group == s.group
    && s.totals.applied == |CallsWith(d, Applied)|
    && s.totals.duplicate == |CallsWith(d, Duplicate)|
    && s.totals.deadLetter <= |d.group.dead|
  }

  lemma OneTicketMore(a: set<Ticket>, b: set<Ticket>, t: Ticket, more: bool)
    requires t !in a && forall x :: x in b <==> x in a || (more && x == t)
    ensures |b| == |a| + if more then 1 else 0
  {
    assert b == if more then a + {t} else a;
  }

  lemma ReturnCounts(d: Sys, job: nat, v: Verdict, u: Verdict)
    requires Fresh(d) && Holds(d, job)
    ensures
      |CallsWith(ReturnStep(d, job, v), u)|
      == |CallsWith(d, u)| + if v == u && !Poison(d.group, d.jobs[job].ticket.id) then 1 else 0
  {
    var t := d.jobs[job].ticket;
    var e := ReturnStep(d, job, v);
    assert t !in d.verdicts;
    hide Fresh, Settles;
    if Poison(d.group, t.id) {
      assert e.verdicts == d.verdicts;
    } else {
      assert e.verdicts == d.verdicts[t := v];
      forall x ensures x in CallsWith(e, u) <==> x in CallsWith(d, u) || (v == u && x == t) {
      }
      OneTicketMore(CallsWith(d, u), CallsWith(e, u), t, v == u);
    }
  }

  ghost predicate Follows(p: Params, d: Sys, e: Sys, s: State, job: nat) {
    Reaches(p, d, e) && Safe(e) && Sim(e, s) && e.jobs == d.jobs - {job}
  }

  lemma BuryRun(p: Params, d: Sys, s: State, w: World, job: nat) returns (e: Sys)
    requires Safe(d) && Sim(d, s) && job in d.jobs && d.jobs[job].Burying?
    ensures Follows(p, d, e, BuryOne(s, w, d.jobs[job].id), job)
  {
    hide AckSafe, Fresh, Reaches;
    Stay(p, d);
    e := d;
    if w.addOk(d.jobs[job].id) {
      Act(p, d, e, WriteDead(job));
      e := Next(p, e, WriteDead(job));
      if w.ackOk(d.jobs[job].id) {
        Act(p, d, e, Acknowledge(job));
        e := Next(p, e, Acknowledge(job));
      } else {
        Act(p, d, e, Drop(job));
        e := Next(p, e, Drop(job));
      }
    } else {
      Act(p, d, e, Drop(job));
      e := Next(p, e, Drop(job));
    }
    ReachesKeeps(p, d, e);
  }

  lemma AckRun(p: Params, d: Sys, s: State, w: World, job: nat) returns (e: Sys)
    requires Safe(d) && Sim(d, s) && job in d.jobs && d.jobs[job].Acking?
    ensures Follows(p, d, e, AckOne(s, w, d.jobs[job].id), job)
  {
    hide AckSafe, Fresh, Reaches;
    Stay(p, d);
    var a := if w.ackOk(d.jobs[job].id) then Acknowledge(job) else Drop(job);
    Act(p, d, d, a);
    e := Next(p, d, a);
    ReachesKeeps(p, d, e);
  }

  function Counted(t: Totals, v: Verdict): Totals {
    t.(applied := t.applied + if v.Applied? then 1 else 0, duplicate := t.duplicate + if v.Duplicate? then 1 else 0)
  }

  lemma ReturnRun(p: Params, d: Sys, s: State, job: nat, v: Verdict) returns (e: Sys)
    requires Safe(d) && Sim(d, s) && Holds(d, job)
    ensures Reaches(p, d, e) && Safe(e) && e == ReturnStep(d, job, v) && e.group == d.group
    ensures Sim(e, if Poison(d.group, d.jobs[job].ticket.id) then s else s.(totals := Counted(s.totals, v)))
  {
    ReturnCounts(d, job, v, Applied);
    ReturnCounts(d, job, v, Duplicate);
    hide AckSafe, Fresh, Reaches, CallsWith;
    Stay(p, d);
    Act(p, d, d, HandleReturns(job, v));
    e := Next(p, d, HandleReturns(job, v));
    ReachesKeeps(p, d, e);
  }

  /** What is left to do after the handler returned. */
  function Finished(s: State, w: World, id: nat): State {
    if Poison(s.group, id) || w.verdict(id).ContractBreak? then BuryOne(s, w, id)
    else if Settles(w.verdict(id)) then AckOne(s, w, id) else s
  }

  predicate AfterReturn(d: Sys, job: nat, v: Verdict, id: nat) {
    if Poison(d.group, id) || v.ContractBreak? then job in d.jobs && d.jobs[job] == Burying(id)
    else if Settles(v) then job in d.jobs && d.jobs[job] == Acking(id) else job !in d.jobs
  }

  lemma Returned(d: Sys, job: nat, v: Verdict)
    requires Holds(d, job)
    ensures
      var e := ReturnStep(d, job, v);
      AfterReturn(e, job, v, d.jobs[job].ticket.id) && e.jobs - {job} == d.jobs - {job}
  {
  }

  lemma FinishRun(p: Params, d: Sys, s: State, w: World, job: nat, id: nat) returns (e: Sys)
    requires Safe(d) && Sim(d, s)
    requires AfterReturn(d, job, w.verdict(id), id)
    ensures Follows(p, d, e, Finished(s, w, id), job)
  {
    if Poison(d.group, id) || w.verdict(id).ContractBreak? {
      e := BuryRun(p, d, s, w, job);
    } else if Settles(w.verdict(id)) {
      e := AckRun(p, d, s, w, job);
    } else {
      hide Safe, Sim, Reaches;
      Stay(p, d);
      e := d;
      assert e.jobs == d.jobs - {job};
    }
  }

  lemma WholeProcess(s: State, w: World, id: nat)
    ensures
      ProcessOne(s, w, id)
      == Finished(if Poison(s.group, id) then s else s.(totals := Counted(s.totals, w.verdict(id))), w, id)
  {
  }

  /** Handling one delivered entry is a run of the protocol. */
  lemma ProcessRun(p: Params, d: Sys, s: State, w: World, job: nat) returns (e: Sys)
    requires Safe(d) && Sim(d, s) && Holds(d, job)
    ensures Follows(p, d, e, ProcessOne(s, w, d.jobs[job].ticket.id), job)
  {
    var id := d.jobs[job].ticket.id;
    var v := w.verdict(id);
    WholeProcess(s, w, id);
    Returned(d, job, v);
    hide Safe, Sim, Reaches, Finished, ProcessOne, ReturnStep, Settles, Holds;
    var called := ReturnRun(p, d, s, job, v);
    var after := if Poison(d.group, id) then s else s.(totals := Counted(s.totals, v));
    e := FinishRun(p, called, after, w, job, id);
    Join(p, d, called, e);
  }

  lemma TickRun(p: Params, d: Sys, s: State, ms: nat) returns (e: Sys)
    requires Safe(d) && Sim(d, s)
    ensures Reaches(p, d, e) && Safe(e) && Sim(e, Wait(s, ms)) && e.jobs == d.jobs && e == Next(p, d, Tick(ms))
  {
    hide AckSafe, Fresh, Reaches;
    Stay(p, d);
    Act(p, d, d, Tick(ms));
    e := Next(p, d, Tick(ms));
    ReachesKeeps(p, d, e);
  }

  // ---------- The read pass ----------

  /** The jobs are the delivered entries of a range, each under its own number. */
  ghost predicate BatchJobs(d: Sys, from: nat, upTo: nat) {
    && (forall j :: j in d.jobs ==> from <= j < upTo)
    && (forall j: nat :: from <= j < upTo ==> Holds(d, j) && d.jobs[j].ticket.id == j)
  }

  lemma {:induction false} ReadRun(p: Params, d: Sys, s: State, n: nat) returns (e: Sys)
    requires Safe(d) && Sim(d, s) && d.jobs == map[] && (n == 0 || d.group.cursor + n <= |d.group.entries|)
    ensures Reaches(p, d, e) && Safe(e) && Sim(e, s.(group := Delivered(s.group, n)))
    ensures BatchJobs(e, d.group.cursor, d.group.cursor + n)
  {
    hide AckSafe, Fresh, Reaches;
    if n == 0 {
      Stay(p, d);
      e := d;
    } else {
      var before := ReadRun(p, d, s, n - 1);
      var id := d.group.cursor + n - 1;
      Act(p, d, before, ReadOne(id));
      e := Next(p, before, ReadOne(id));
      ReachesKeeps(p, d, e);
      assert CallsWith(e, Applied) == CallsWith(before, Applied)
        && CallsWith(e, Duplicate) == CallsWith(before, Duplicate);
      forall j: nat | d.group.cursor <= j < id ensures Holds(e, j) && e.jobs[j].ticket.id == j {
        assert Holds(before, j);
      }
    }
  }

  lemma {:induction false} BatchRun(p: Params, d: Sys, s: State, w: World, from: nat, upTo: nat, end: nat)
      returns (e: Sys)
    requires from <= upTo <= end && Safe(d) && Sim(d, s) && BatchJobs(d, from, end)
    ensures Reaches(p, d, e) && Safe(e) && Sim(e, ProcessAll(s, w, from, upTo)) && BatchJobs(e, upTo, end)
    decreases upTo - from
  {
    hide Safe, Reaches, Sim, ProcessOne;
    if from == upTo {
      Stay(p, d);
      e := d;
    } else {
      var id := upTo - 1;
      var before := BatchRun(p, d, s, w, from, id, end);
      var waited := TickRun(p, before, ProcessAll(s, w, from, id), w.waits(id));
      assert Holds(before, id);
      e := ProcessRun(p, waited, Wait(ProcessAll(s, w, from, id), w.waits(id)), w, id);
      Join(p, d, before, waited);
      Join(p, d, waited, e);
      forall j: nat | upTo <= j < end ensures Holds(e, j) && e.jobs[j].ticket.id == j {
        assert Holds(before, j);
      }
    }
  }

  lemma ReadPassRun(p: Params, d: Sys, s: State, w: World) returns (e: Sys)
    requires Safe(d) && Sim(d, s) && d.jobs == map[]
    ensures Reaches(p, d, e) && Safe(e) && Sim(e, ReadPassed(s, w)) && e.jobs == map[]
  {
    hide Safe, Reaches, ProcessAll;
    var n := BatchSize(s.group);
    var from := s.group.cursor;
    var read := ReadRun(p, d, s, n);
    if n == 0 {
      e := d;
      Stay(p, d);
    } else {
      e := BatchRun(p, read, s.(group := Delivered(s.group, n)), w, from, from + n, from + n);
      Join(p, d, read, e);
    }
    assert e.jobs == map[];
  }

  // ---------- The claim pass ----------

  predicate Listed(lines: seq<Line>, from: nat, id: nat) {
    exists i :: from <= i < |lines| && lines[i].id == id
  }

  /** The jobs are the lines that the claim loop still has to look at. */
  ghost predicate LineJobs(d: Sys, lines: seq<Line>, from: nat) {
    && (forall j :: j in d.jobs ==> Listed(lines, from, j))
    && (forall i :: from <= i < |lines| ==>
          lines[i].id in d.jobs && d.jobs[lines[i].id].Row?
          && d.jobs[lines[i].id].id == lines[i].id && d.jobs[lines[i].id].deliveries == lines[i].deliveries)
  }

  ghost predicate Ordered(lines: seq<Line>) {
    forall i, j :: 0 <= i < j < |lines| ==> lines[i].id < lines[j].id
  }

  ghost predicate IdleTrue(p: Params, g: Group, lines: seq<Line>) {
    forall i :: 0 <= i < |lines| ==>
      g.Idle(lines[i].id, p.claimMinIdleMs) && g.pending[lines[i].id].deliveries == lines[i].deliveries
  }

  lemma {:induction false} SeeRun(p: Params, d: Sys, s: State, lines: seq<Line>, n: nat) returns (e: Sys)
    requires Safe(d) && Sim(d, s) && d.jobs == map[] && n <= |lines| && Ordered(lines) && IdleTrue(p, d.group, lines)
    ensures Reaches(p, d, e) && Safe(e) && Sim(e, s) && LineJobs(e, lines[..n], 0)
    decreases n
  {
    hide AckSafe, Fresh, Reaches;
    if n == 0 {
      Stay(p, d);
      e := d;
    } else {
      var before := SeeRun(p, d, s, lines, n - 1);
      var id := lines[n - 1].id;
      assert id !in before.jobs;
      Act(p, d, before, SeeIdle(id, id));
      e := Next(p, before, SeeIdle(id, id));
      ReachesKeeps(p, d, e);
      SeenLine(p, before, e, lines, n);
    }
  }

  lemma SeenLine(p: Params, d: Sys, e: Sys, lines: seq<Line>, n: nat)
    requires 0 < n <= |lines| && LineJobs(d, lines[..n - 1], 0) && Ordered(lines)
    requires e.jobs == d.jobs[lines[n - 1].id := Row(lines[n - 1].id, lines[n - 1].deliveries, d.group.now)]
    ensures LineJobs(e, lines[..n], 0)
  {
    forall j | j in e.jobs ensures Listed(lines[..n], 0, j) {
      if j in d.jobs {
        var i :| 0 <= i < n - 1 && lines[..n - 1][i].id == j;
        assert lines[..n][i].id == j;
      } else {
        assert lines[..n][n - 1].id == j;
      }
    }
    forall i | 0 <= i < n - 1
      ensures lines[i].id in e.jobs && e.jobs[lines[i].id] == d.jobs[lines[i].id]
      ensures lines[i].id in d.jobs && d.jobs[lines[i].id].Row?
      ensures d.jobs[lines[i].id].id == lines[i].id && d.jobs[lines[i].id].deliveries == lines[i].deliveries
    {
      assert lines[..n - 1][i] == lines[i];
    }
  }

  /** Looking at one line of the pending list is a run of the protocol. */
  lemma ClaimOneRun(p: Params, d: Sys, s: State, w: World, line: Line) returns (e: Sys)
    requires Safe(d) && Sim(d, s) && line.id in d.jobs && d.jobs[line.id].Row?
    requires d.jobs[line.id].id == line.id && d.jobs[line.id].deliveries == line.deliveries
    ensures Follows(p, d, e, ClaimOne(p, s, w, line), line.id)
  {
    hide AckSafe, Fresh, Reaches, BuryOne, ProcessOne;
    Stay(p, d);
    Act(p, d, d, Decide(line.id));
    var decided := Next(p, d, Decide(line.id));
    ReachesKeeps(p, d, decided);
    assert CallsWith(decided, Applied) == CallsWith(d, Applied)
      && CallsWith(decided, Duplicate) == CallsWith(d, Duplicate);
    if line.deliveries >= p.maxDeliveries {
      e := BuryRun(p, decided, s, w, line.id);
      Join(p, d, decided, e);
    } else if s.group.Idle(line.id, p.claimMinIdleMs) {
      e := ProcessRun(p, decided, s.(group := s.group.XClaim(line.id, p.claimMinIdleMs)), w, line.id);
      Join(p, d, decided, e);
    } else {
      e := decided;
    }
  }

  lemma LineJob(d: Sys, lines: seq<Line>, n: nat)
    requires n < |lines| && LineJobs(d, lines, n)
    ensures lines[n].id in d.jobs && d.jobs[lines[n].id].Row?
    ensures d.jobs[lines[n].id].id == lines[n].id && d.jobs[lines[n].id].deliveries == lines[n].deliveries
  {
  }

  lemma {:induction false} ClaimsRun(p: Params, d: Sys, s: State, w: World, lines: seq<Line>, n: nat) returns (e: Sys)
    requires Safe(d) && Sim(d, s) && n <= |lines| && Ordered(lines) && LineJobs(d, lines, 0)
    ensures Reaches(p, d, e) && Safe(e) && Sim(e, ClaimAll(p, s, w, lines[..n])) && LineJobs(e, lines, n)
    decreases n
  {
    hide Safe, Reaches, Sim, ClaimOne;
    if n == 0 {
      Stay(p, d);
      e := d;
    } else {
      var before := ClaimsRun(p, d, s, w, lines, n - 1);
      var line, sofar := lines[n - 1], ClaimAll(p, s, w, lines[..n - 1]);
      LineJob(before, lines, n - 1);
      hide LineJobs, Ordered;
      assert lines[..n][..n - 1] == lines[..n - 1];
      var waited := TickRun(p, before, sofar, w.waits(line.id));
      e := ClaimOneRun(p, waited, Wait(sofar, w.waits(line.id)), w, line);
      Join(p, d, before, waited);
      Join(p, d, waited, e);
      LookedAt(before, e, lines, n);
    }
  }

  lemma ListedLater(lines: seq<Line>, n: nat, id: nat)
    requires 0 < n <= |lines| && Listed(lines, n - 1, id) && id != lines[n - 1].id
    ensures Listed(lines, n, id)
  {
  }

  lemma LookedAt(d: Sys, e: Sys, lines: seq<Line>, n: nat)
    requires 0 < n <= |lines| && Ordered(lines) && LineJobs(d, lines, n - 1) && e.jobs == d.jobs - {lines[n - 1].id}
    ensures LineJobs(e, lines, n)
  {
    forall j | j in e.jobs ensures Listed(lines, n, j) {
      ListedLater(lines, n, j);
    }
    hide Listed;
    forall i | n <= i < |lines| ensures lines[i].id in e.jobs && e.jobs[lines[i].id] == d.jobs[lines[i].id] {
      assert lines[n - 1].id != lines[i].id;
    }
  }

  lemma LinesAreTrue(p: Params, g: Group, w: World)
    ensures Ordered(LinesOf(p, g, w)) && IdleTrue(p, g, LinesOf(p, g, w))
  {
    hide Attempted;
  }

  lemma SimIsGroup(d: Sys, s: State)
    requires Sim(d, s)
    ensures d.group == s.group
  {
  }

  lemma ClaimPassRun(p: Params, d: Sys, s: State, w: World) returns (e: Sys)
    requires Safe(d) && Sim(d, s) && d.jobs == map[]
    ensures Reaches(p, d, e) && Safe(e) && Sim(e, ClaimPassed(p, s, w)) && e.jobs == map[]
  {
    hide Safe, Reaches, ClaimAll;
    var lines := LinesOf(p, s.group, w);
    LinesAreTrue(p, s.group, w);
    SimIsGroup(d, s);
    hide LinesOf, Ordered, IdleTrue, Sim;
    assert lines[..|lines|] == lines;
    var seen := SeeRun(p, d, s, lines, |lines|);
    e := ClaimsRun(p, seen, s, w, lines, |lines|);
    Join(p, d, seen, e);
    assert e.jobs == map[];
  }

  // ---------- The whole life of a consumer ----------

  /**
    * What happens to a consumer: a turn of its read loop, a tick of its claim timer, a
    * new entry, or the passing of time.
    */
  datatype Turn = ReadTurn(poll: Poll) | ClaimTurn(world: World) | Arrival(payload: Payload) | Pause(ms: nat)

  function TurnOnce(p: Params, l: Loop, turn: Turn): Loop {
    match turn
    case ReadTurn(poll) => if l.running then PollOnce(l, poll) else l
    case ClaimTurn(w) => if l.running && l.present then l.(state := ClaimPassed(p, l.state, w)) else l
    case Arrival(payload) =>
      l.(state := l.state.(group := l.state.group.(entries := l.state.group.entries + [payload])))
    case Pause(ms) => l.(state := Wait(l.state, ms))
  }

  function Lived(p: Params, turns: seq<Turn>): Loop {
    if turns == [] then Loop(State(INIT.group, Totals(0, 0, 0)), true, true)
    else
      var n := |turns| - 1;
      TurnOnce(p, Lived(p, turns[..n]), turns[n])
  }

  lemma LoseRun(p: Params, d: Sys, s: State) returns (e: Sys)
    requires Safe(d) && Sim(d, s)
    ensures Reaches(p, d, e) && Safe(e) && Sim(e, s.(group := s.group.Regroup())) && e.jobs == d.jobs
  {
    hide AckSafe, Fresh, Reaches;
    Stay(p, d);
    Act(p, d, d, LoseGroup);
    e := Next(p, d, LoseGroup);
    ReachesKeeps(p, d, e);
  }

  lemma PollRun(p: Params, d: Sys, l: Loop, poll: Poll) returns (e: Sys)
    requires Safe(d) && Sim(d, l.state) && d.jobs == map[]
    ensures Reaches(p, d, e) && Safe(e) && Sim(e, PollOnce(l, poll).state) && e.jobs == map[]
  {
    hide Safe, Sim, Reaches, ReadPassed;
    Stay(p, d);
    e := d;
    var s := l.state;
    if poll.lost {
      e := LoseRun(p, d, s);
      s := s.(group := s.group.Regroup());
    }
    if poll.reply.Stopped? {
    } else if poll.lost || !l.present {
      if poll.repairs {
        var made := LoseRun(p, e, s);
        Join(p, d, e, made);
        e := made;
      }
    } else if poll.reply.Entries? {
      var read := ReadPassRun(p, e, s, poll.reply.world);
      Join(p, d, e, read);
      e := read;
    }
  }

  lemma ArrivalRun(p: Params, d: Sys, s: State, payload: Payload) returns (e: Sys)
    requires Safe(d) && Sim(d, s)
    ensures Reaches(p, d, e) && Safe(e) && e.jobs == d.jobs
    ensures Sim(e, s.(group := s.group.(entries := s.group.entries + [payload])))
  {
    hide AckSafe, Fresh, Reaches;
    Stay(p, d);
    Act(p, d, d, Produce(payload));
    e := Next(p, d, Produce(payload));
    ReachesKeeps(p, d, e);
  }

  lemma TurnRun(p: Params, d: Sys, l: Loop, turn: Turn) returns (e: Sys)
    requires Safe(d) && Sim(d, l.state) && d.jobs == map[]
    ensures Reaches(p, d, e) && Safe(e) && Sim(e, TurnOnce(p, l, turn).state) && e.jobs == map[]
  {
    hide Safe, Sim, Reaches, ClaimPassed, PollOnce;
    Stay(p, d);
    e := d;
    match turn {
      case ReadTurn(poll) => if l.running { e := PollRun(p, d, l, poll); }
      case ClaimTurn(w) => if l.running && l.present { e := ClaimPassRun(p, d, l.state, w); }
      case Arrival(payload) => e := ArrivalRun(p, d, l.state, payload);
      case Pause(ms) => e := TickRun(p, d, l.state, ms);
    }
  }

  /** The whole life of a consumer is a run of the protocol that ends with the same group. */
  lemma {:induction false} LifeIsRun(p: Params, turns: seq<Turn>) returns (e: Sys)
    requires p.Valid()
    ensures Reaches(p, INIT, e) && Safe(e) && Sim(e, Lived(p, turns).state) && e.jobs == map[]
    decreases |turns|
  {
    hide AckSafe, Fresh, Reaches, TurnOnce;
    if turns == [] {
      InitIsSafe(p);
      Stay(p, INIT);
      e := INIT;
      assert CallsWith(e, Applied) == {} && CallsWith(e, Duplicate) == {};
    } else {
      hide Sim;
      var n := |turns| - 1;
      var before := LifeIsRun(p, turns[..n]);
      e := TurnRun(p, before, Lived(p, turns[..n]), turns[n]);
      Join(p, INIT, before, e);
    }
  }

  /**
    * Through the whole life of a consumer: each entry is undelivered, pending or
    * acknowledged; an acknowledged one was handled well or has its dead letter;
    * and the totals count the calls of `handle` and never more than the dead letters.
    */
  lemma ConsumerIsSafe(p: Params, turns: seq<Turn>) returns (history: Sys)
    requires p.Valid()
    ensures
      var s := Lived(p, turns).state;
      && Reaches(p, INIT, history) && history.group == s.group && Partition(s.group)
      && (forall id :: id in s.group.acked ==> HandledWell(history, id) || id in s.group.dead)
      && s.totals.applied == |CallsWith(history, Applied)| && s.totals.duplicate == |CallsWith(history, Duplicate)|
      && s.totals.deadLetter <= |s.group.dead|
  {
    hide Fresh, Reaches, Lived, HandledWell;
    history := LifeIsRun(p, turns);
    assert AckSafe(history);
  }
}
