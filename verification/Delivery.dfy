/**
  * The delivery of outcome messages through a consumer group: entries are
  * delivered, handled, acknowledged, claimed again, or moved to the dead-letter
  * stream, by any number of consumers that may stop between any two steps.
  */
module Delivery {

  /** What `handle` did with a message. `Crashed` is any error that is not a contract break. */
  datatype Verdict = Applied | Duplicate | Ignored | ContractBreak | Crashed

  predicate Settles(v: Verdict) {
    v.Applied? || v.Duplicate? || v.Ignored?
  }

  datatype Payload = Json | NotJson

  datatype Pending = Pending(deliveries: nat, deliveredAt: int)

  /** The stream, its consumer group, and the dead-letter stream. */
  datatype Group = Group(now: int, entries: seq<Payload>, cursor: nat, pending: map<nat, Pending>, acked: set<nat>,
    dead: seq<nat>) {

    /** An acknowledgement takes a pending entry out of the group, and does nothing to any other entry. */
    function XAck(id: nat): Group {
      if id in pending then this.(pending := pending - {id}, acked := acked + {id}) else this
    }

    function XAddDead(id: nat): Group {
      this.(dead := dead + [id])
    }

    /** The next entry that the group has not delivered yet. */
    function XReadGroup(): Group
      requires cursor < |entries|
    {
      this.(cursor := cursor + 1, pending := pending[cursor := Pending(1, now)])
    }

    predicate Idle(id: nat, minIdleMs: int) {
      id in pending && now - pending[id].deliveredAt >= minIdleMs
    }

    function XClaim(id: nat, minIdleMs: int): Group {
      if Idle(id, minIdleMs) then this.(pending := pending[id := Pending(pending[id].deliveries + 1, now)]) else this
    }

    /** The group was lost and is made again at the start of the stream. */
    function Regroup(): Group {
      this.(cursor := 0, pending := map[], acked := {})
    }
  }

  datatype Params = Params(maxDeliveries: nat, claimMinIdleMs: int) {
    predicate Valid() {
      maxDeliveries > 0 && claimMinIdleMs > 0
    }
  }

  /** One delivery of one entry: the n-th since the group was last made. */
  datatype Ticket = Ticket(epoch: nat, id: nat, n: nat)

  /** Where the work on one message stands. `Row` is a line of the pending list that the claim loop has read. */
  datatype Job =
    | Row(id: nat, deliveries: nat, seenAt: int)
    | Received(ticket: Ticket)
    | Acking(id: nat)
    | Burying(id: nat)
    | Buried(id: nat)

  /**
    * The group, the jobs, and the history: how often each entry was delivered since
    * the group was made, every ticket ever handed out, and what each call of
    * `handle` returned. A call that never returned has its ticket only.
    */
  datatype Sys = Sys(
    group: Group,
    epoch: nat,
    delivered: map<nat, nat>,
    issued: set<Ticket>,
    verdicts: map<Ticket, Verdict>,
    jobs: map<nat, Job>)

  const INIT := Sys(Group(0, [], 0, map[], {}, []), 0, map[], {}, map[], map[])

  datatype Action =
    | Produce(payload: Payload)
    | ReadOne(job: nat)
    | SeeIdle(job: nat, id: nat)
    | Decide(job: nat)
    | HandleReturns(job: nat, verdict: Verdict)
    | Acknowledge(job: nat)
    | WriteDead(job: nat)
    | Drop(job: nat)
    | LoseGroup
    | Tick(ms: nat)

  function SetJob(s: Sys, job: nat, j: Job): Sys {
    s.(jobs := s.jobs[job := j])
  }

  function EndJob(s: Sys, job: nat): Sys {
    s.(jobs := s.jobs - {job})
  }

  function DeliveredOf(s: Sys, id: nat): nat {
    if id in s.delivered then s.delivered[id] else 0
  }

  /** A delivery gives its job a ticket of its own. */
  function Deliver(s: Sys, group: Group, job: nat, id: nat): Sys {
    var n := DeliveredOf(s, id) + 1;
    var ticket := Ticket(s.epoch, id, n);
    SetJob(s.(group := group, delivered := s.delivered[id := n], issued := s.issued + {ticket}), job, Received(ticket))
  }

  function ReadStep(s: Sys, job: nat): Sys {
    if job in s.jobs || s.group.cursor >= |s.group.entries| then s
    else Deliver(s, s.group.XReadGroup(), job, s.group.cursor)
  }

  /** The claim loop has seen a line of the pending list: give up on the entry, or claim it. */
  function DecideStep(p: Params, s: Sys, job: nat): Sys {
    if job !in s.jobs || !s.jobs[job].Row? then s
    else
      var r := s.jobs[job];
      if r.deliveries >= p.maxDeliveries then SetJob(s, job, Burying(r.id))
      else if s.group.Idle(r.id, p.claimMinIdleMs) then Deliver(s, s.group.XClaim(r.id, p.claimMinIdleMs), job, r.id)
      else EndJob(s, job)
  }

  function ReturnStep(s: Sys, job: nat, v: Verdict): Sys {
    if job !in s.jobs || !s.jobs[job].Received? then s
    else
      var t := s.jobs[job].ticket;
      if t.id < |s.group.entries| && s.group.entries[t.id].NotJson? then SetJob(s, job, Burying(t.id))
      else
        var called := s.(verdicts := s.verdicts[t := v]);
        if Settles(v) then SetJob(called, job, Acking(t.id))
        else if v.ContractBreak? then SetJob(called, job, Burying(t.id))
        else EndJob(called, job)
  }

  function AckStep(s: Sys, job: nat): Sys {
    if job in s.jobs && (s.jobs[job].Acking? || s.jobs[job].Buried?) then
      EndJob(s.(group := s.group.XAck(s.jobs[job].id)), job)
    else s
  }

  function DeadStep(s: Sys, job: nat): Sys {
    if job in s.jobs && s.jobs[job].Burying? then
      SetJob(s.(group := s.group.XAddDead(s.jobs[job].id)), job, Buried(s.jobs[job].id))
    else s
  }

  function Next(p: Params, s: Sys, a: Action): Sys {
    match a
    case Produce(payload) => s.(group := s.group.(entries := s.group.entries + [payload]))
    case ReadOne(job) => ReadStep(s, job)
    case SeeIdle(job, id) =>
      if job !in s.jobs && s.group.Idle(id, p.claimMinIdleMs) then
        SetJob(s, job, Row(id, s.group.pending[id].deliveries, s.group.now))
      else s
    case Decide(job) => DecideStep(p, s, job)
    case HandleReturns(job, v) => ReturnStep(s, job, v)
    case Acknowledge(job) => AckStep(s, job)
    case WriteDead(job) => DeadStep(s, job)
    case Drop(job) => EndJob(s, job)
    case LoseGroup => s.(group := s.group.Regroup(), epoch := s.epoch + 1, delivered := map[])
    case Tick(ms) => s.(group := s.group.(now := s.group.now + ms))
  }

  /**
    * The claim loop acts on a line of the pending list within `claimMinIdleMs` of
    * reading it. With a limit of one it never claims, and needs no such promise.
    */
  predicate InTime(p: Params, s: Sys, a: Action) {
    p.maxDeliveries > 1 && a.Decide? && a.job in s.jobs && s.jobs[a.job].Row? ==>
      s.group.now - s.jobs[a.job].seenAt < p.claimMinIdleMs
  }

  ghost predicate Run(p: Params, states: seq<Sys>, actions: seq<Action>) {
    && p.Valid() && |states| == |actions| + 1 && states[0] == INIT
    && forall i :: 0 <= i < |actions| ==> states[i + 1] == Next(p, states[i], actions[i])
  }

  // ---------- Acknowledgement safety ----------

  /** Undelivered, pending and acknowledged entries, each entry in exactly one class. */
  ghost predicate Partition(g: Group) {
    && g.cursor <= |g.entries|
    && (forall id :: id in g.pending ==> id < g.cursor && id !in g.acked)
    && (forall id :: id in g.acked ==> id < g.cursor)
    && (forall id: nat :: id < g.cursor ==> id in g.pending || id in g.acked)
  }

  /** Some call of `handle` for the entry returned applied, duplicate or ignored. */
  ghost predicate HandledWell(s: Sys, id: nat) {
    exists t :: t in s.verdicts && t.id == id && Settles(s.verdicts[t])
  }

  ghost predicate Settled(s: Sys, id: nat) {
    HandledWell(s, id) || id in s.group.dead
  }

  ghost predicate JobSettled(s: Sys, j: Job) {
    && (j.Acking? ==> HandledWell(s, j.id))
    && (j.Buried? ==> j.id in s.group.dead)
  }

  ghost predicate AckSafe(s: Sys) {
    && Partition(s.group)
    && (forall id :: id in s.group.acked ==> Settled(s, id))
    && (forall job :: job in s.jobs ==> JobSettled(s, s.jobs[job]))
  }

  // ---------- Tickets ----------

  predicate Holds(s: Sys, job: nat) {
    job in s.jobs && s.jobs[job].Received?
  }

  ghost predicate OldTicket(s: Sys, t: Ticket) {
    t.epoch <= s.epoch && (t.epoch == s.epoch ==> t.n <= DeliveredOf(s, t.id))
  }

  /** Each ticket was handed out once, is held by one job at most, and is held only while it is not used. */
  ghost predicate Fresh(s: Sys) {
    && (forall id :: id in s.group.pending ==> s.group.pending[id].deliveries == DeliveredOf(s, id))
    && (forall id :: id in s.delivered ==> id < s.group.cursor)
    && (forall t :: t in s.issued ==> OldTicket(s, t))
    && (forall job :: Holds(s, job) ==> s.jobs[job].ticket in s.issued && s.jobs[job].ticket !in s.verdicts)
    && (forall t :: t in s.verdicts ==> t in s.issued)
    && (forall j, k :: Holds(s, j) && Holds(s, k) && j != k ==> s.jobs[j].ticket != s.jobs[k].ticket)
  }

  /** A seen line is still true, or the entry was acknowledged or delivered again since. */
  ghost predicate RowTrue(s: Sys, r: Job)
    requires r.Row?
  {
    && r.seenAt <= s.group.now && r.deliveries >= 1
    && (r.id in s.group.pending ==>
          s.group.pending[r.id].deliveries == r.deliveries || s.group.pending[r.id].deliveredAt >= r.seenAt)
  }

  predicate WithinLimit(p: Params, n: nat) {
    1 <= n <= p.maxDeliveries
  }

  /** No entry was delivered more often than allowed. This needs a prompt claim loop. */
  ghost predicate Limited(p: Params, s: Sys) {
    && (forall id :: id in s.group.pending ==> s.group.pending[id].deliveredAt <= s.group.now)
    && (forall id :: id in s.delivered ==> WithinLimit(p, s.delivered[id]))
    && (forall id: nat :: id < s.group.cursor ==> id in s.delivered)
    && (forall t :: t in s.issued ==> WithinLimit(p, t.n))
    && (forall job :: job in s.jobs && s.jobs[job].Row? ==> RowTrue(s, s.jobs[job]))
  }

  // ---------- Preservation ----------

  lemma SettledLasts(s: Sys, t: Sys, id: nat)
    requires Settled(s, id)
    requires forall x :: x in s.verdicts ==> x in t.verdicts && t.verdicts[x] == s.verdicts[x]
    requires forall x :: x in s.group.dead ==> x in t.group.dead
    ensures Settled(t, id)
    ensures HandledWell(s, id) ==> HandledWell(t, id)
  {
    if HandledWell(s, id) {
      var x :| x in s.verdicts && x.id == id && Settles(s.verdicts[x]);
      assert x in t.verdicts;
    }
  }

  /** The history of calls and of dead letters only grows. */
  ghost predicate HistoryGrows(s: Sys, t: Sys) {
    && (forall x :: x in s.verdicts ==> x in t.verdicts && t.verdicts[x] == s.verdicts[x])
    && (forall x :: x in s.group.dead ==> x in t.group.dead)
  }

  lemma AckSafeStep(s: Sys, t: Sys)
    requires AckSafe(s) && HistoryGrows(s, t) && Partition(t.group)
    requires forall id :: id in t.group.acked ==> id in s.group.acked || Settled(t, id)
    requires forall job :: job in t.jobs ==> (job in s.jobs && s.jobs[job] == t.jobs[job]) || JobSettled(t, t.jobs[job])
    ensures AckSafe(t)
  {
    forall id | id in t.group.acked && id in s.group.acked ensures Settled(t, id) {
      SettledLasts(s, t, id);
    }
    forall job | job in t.jobs && job in s.jobs && s.jobs[job] == t.jobs[job] ensures JobSettled(t, t.jobs[job]) {
      assert JobSettled(s, s.jobs[job]);
      if s.jobs[job].Acking? {
        SettledLasts(s, t, s.jobs[job].id);
      }
    }
  }

  lemma AckKeepsPartition(g: Group, id: nat)
    requires Partition(g)
    ensures Partition(g.XAck(id))
  {
  }

  /** A used ticket is never used again, so no verdict is overwritten. */
  lemma ReturnIsSafe(s: Sys, job: nat, v: Verdict)
    requires AckSafe(s) && Fresh(s)
    ensures AckSafe(ReturnStep(s, job, v)) && HistoryGrows(s, ReturnStep(s, job, v))
  {
    var t := ReturnStep(s, job, v);
    if Holds(s, job) {
      var x := s.jobs[job].ticket;
      assert x !in s.verdicts;
      assert x in t.verdicts && Settles(v) ==> HandledWell(t, x.id);
    }
    AckSafeStep(s, t);
  }

  lemma AckIsSafe(s: Sys, job: nat)
    requires AckSafe(s)
    ensures AckSafe(AckStep(s, job)) && HistoryGrows(s, AckStep(s, job))
  {
    var t := AckStep(s, job);
    if t != s {
      var j := s.jobs[job];
      assert JobSettled(s, j);
      AckKeepsPartition(s.group, j.id);
      SettledLasts(s, t, j.id);
      AckSafeStep(s, t);
    }
  }

  lemma DeliverIsSafe(s: Sys, g: Group, job: nat, id: nat)
    requires AckSafe(s) && Partition(g) && g.acked == s.group.acked && g.dead == s.group.dead
    ensures AckSafe(Deliver(s, g, job, id)) && HistoryGrows(s, Deliver(s, g, job, id))
  {
    AckSafeStep(s, Deliver(s, g, job, id));
  }

  lemma GroupIsSafe(s: Sys, t: Sys)
    requires AckSafe(s) && Partition(t.group) && t.jobs == s.jobs && t.verdicts == s.verdicts
    requires t.group.acked <= s.group.acked && t.group.dead == s.group.dead
    ensures AckSafe(t) && HistoryGrows(s, t)
  {
    AckSafeStep(s, t);
  }

  lemma JobIsSafe(s: Sys, job: nat, j: Job)
    requires AckSafe(s) && !j.Acking? && !j.Buried?
    ensures AckSafe(SetJob(s, job, j)) && HistoryGrows(s, SetJob(s, job, j))
    ensures AckSafe(EndJob(s, job)) && HistoryGrows(s, EndJob(s, job))
  {
    AckSafeStep(s, SetJob(s, job, j));
    AckSafeStep(s, EndJob(s, job));
  }

  lemma DeadIsSafe(s: Sys, job: nat)
    requires AckSafe(s)
    ensures AckSafe(DeadStep(s, job)) && HistoryGrows(s, DeadStep(s, job))
  {
    AckSafeStep(s, DeadStep(s, job));
  }

  lemma DeliveriesKeepPartition(g: Group, id: nat, minIdleMs: int)
    requires Partition(g)
    ensures Partition(g.XClaim(id, minIdleMs))
    ensures g.cursor < |g.entries| ==> Partition(g.XReadGroup())
  {
  }

  lemma DecideIsSafe(p: Params, s: Sys, job: nat)
    requires AckSafe(s)
    ensures AckSafe(DecideStep(p, s, job)) && HistoryGrows(s, DecideStep(p, s, job))
  {
    SafeIsPartition(s);
    hide AckSafe, HistoryGrows, Partition, SetJob, EndJob, Deliver;
    if job in s.jobs && s.jobs[job].Row? {
      var r := s.jobs[job];
      JobIsSafe(s, job, Burying(r.id));
      DeliveriesKeepPartition(s.group, r.id, p.claimMinIdleMs);
      DeliverIsSafe(s, s.group.XClaim(r.id, p.claimMinIdleMs), job, r.id);
    } else {
      assert DecideStep(p, s, job) == s;
      SameIsSafe(s);
    }
  }

  lemma SameIsSafe(s: Sys)
    ensures HistoryGrows(s, s)
  {
  }

  lemma OtherIsSafe(p: Params, s: Sys, a: Action)
    requires AckSafe(s) && !a.HandleReturns? && !a.Acknowledge?
    ensures AckSafe(Next(p, s, a)) && HistoryGrows(s, Next(p, s, a))
  {
    SafeIsPartition(s);
    SameIsSafe(s);
    hide AckSafe, HistoryGrows, SetJob, EndJob, Deliver, DecideStep, DeadStep;
    match a {
      case ReadOne(job) =>
        DeliveriesKeepPartition(s.group, 0, 1);
        if s.group.cursor < |s.group.entries| {
          DeliverIsSafe(s, s.group.XReadGroup(), job, s.group.cursor);
        }
      case SeeIdle(job, id) =>
        if id in s.group.pending {
          JobIsSafe(s, job, Row(id, s.group.pending[id].deliveries, s.group.now));
        }
      case Decide(job) => DecideIsSafe(p, s, job);
      case WriteDead(job) => DeadIsSafe(s, job);
      case Drop(job) => JobIsSafe(s, job, Burying(0));
      case _ => GroupIsSafe(s, Next(p, s, a));
    }
  }

  lemma AckSafeKept(p: Params, s: Sys, a: Action)
    requires AckSafe(s) && Fresh(s)
    ensures AckSafe(Next(p, s, a)) && HistoryGrows(s, Next(p, s, a))
  {
    hide AckSafe, Fresh, HistoryGrows, ReturnStep, AckStep;
    match a {
      case HandleReturns(job, v) => ReturnIsSafe(s, job, v);
      case Acknowledge(job) => AckIsSafe(s, job);
      case _ => OtherIsSafe(p, s, a);
    }
  }

  /** A delivery: the entry is new to the group, or it was pending. */
  ghost predicate Delivering(s: Sys, g: Group, id: nat) {
    && g.now == s.group.now
    && ((g.cursor == s.group.cursor && id < g.cursor) || (g.cursor == s.group.cursor + 1 && id == s.group.cursor))
    && g.pending == s.group.pending[id := Pending(DeliveredOf(s, id) + 1, g.now)]
  }

  /** A delivery hands out a ticket that nobody had before. */
  lemma DeliverIsFresh(s: Sys, g: Group, job: nat, id: nat)
    requires Fresh(s) && Delivering(s, g, id) && !Holds(s, job)
    ensures Fresh(Deliver(s, g, job, id))
  {
    var t := Deliver(s, g, job, id);
    var x := Ticket(s.epoch, id, DeliveredOf(s, id) + 1);
    assert !OldTicket(s, x);
    forall y | y in s.issued ensures OldTicket(t, y) && y != x {
      assert OldTicket(s, y);
    }
    forall k | Holds(t, k) && k != job ensures Holds(s, k) && t.jobs[k] == s.jobs[k] {
    }
  }

  lemma DeliverIsLimited(p: Params, s: Sys, g: Group, job: nat, id: nat)
    requires Limited(p, s) && Delivering(s, g, id) && DeliveredOf(s, id) < p.maxDeliveries && !Holds(s, job)
    ensures Limited(p, Deliver(s, g, job, id))
  {
    var t := Deliver(s, g, job, id);
    forall k | k in t.jobs && t.jobs[k].Row? ensures RowTrue(t, t.jobs[k]) {
      assert RowTrue(s, s.jobs[k]);
    }
  }

  /** A step that delivers nothing and holds no new ticket. */
  ghost predicate NoDelivery(s: Sys, t: Sys) {
    && t.epoch == s.epoch && t.delivered == s.delivered && t.issued == s.issued
    && t.group.cursor == s.group.cursor && t.group.now >= s.group.now
    && (forall id :: id in t.group.pending ==> id in s.group.pending && t.group.pending[id] == s.group.pending[id])
    && (forall k :: Holds(t, k) ==> Holds(s, k) && t.jobs[k] == s.jobs[k])
  }

  lemma QuietIsFresh(s: Sys, t: Sys)
    requires Fresh(s) && NoDelivery(s, t) && t.verdicts == s.verdicts
    ensures Fresh(t)
  {
    forall y | y in t.issued ensures OldTicket(t, y) {
      assert OldTicket(s, y);
    }
  }

  lemma QuietIsLimited(p: Params, s: Sys, t: Sys)
    requires Limited(p, s) && NoDelivery(s, t)
    requires forall k :: k in t.jobs && t.jobs[k].Row? ==>
      (k in s.jobs && s.jobs[k] == t.jobs[k]) || RowTrue(t, t.jobs[k])
    ensures Limited(p, t)
  {
    forall k | k in t.jobs && t.jobs[k].Row? ensures RowTrue(t, t.jobs[k]) {
      if k in s.jobs && s.jobs[k] == t.jobs[k] {
        assert RowTrue(s, s.jobs[k]);
      }
    }
  }

  lemma ReturnIsFresh(s: Sys, job: nat, v: Verdict)
    requires Fresh(s)
    ensures Fresh(ReturnStep(s, job, v))
  {
    var t := ReturnStep(s, job, v);
    if Holds(s, job) {
      assert s.jobs[job].ticket in s.issued;
      forall k | Holds(t, k) ensures Holds(s, k) && k != job && t.jobs[k] == s.jobs[k] {
      }
      forall y | y in t.issued ensures OldTicket(t, y) {
        assert OldTicket(s, y);
      }
    }
  }

  lemma ReturnIsLimited(p: Params, s: Sys, job: nat, v: Verdict)
    requires Limited(p, s)
    ensures Limited(p, ReturnStep(s, job, v))
  {
    var t := ReturnStep(s, job, v);
    if Holds(s, job) {
      forall k | Holds(t, k) ensures Holds(s, k) && t.jobs[k] == s.jobs[k] {
      }
      QuietIsLimited(p, s, t);
    }
  }

  lemma LoseIsFresh(p: Params, s: Sys)
    requires Fresh(s)
    ensures Fresh(Next(p, s, LoseGroup))
  {
    var t := Next(p, s, LoseGroup);
    forall k ensures Holds(t, k) <==> Holds(s, k) {
    }
    forall y | y in t.issued ensures OldTicket(t, y) {
      assert OldTicket(s, y);
    }
  }

  lemma LoseIsLimited(p: Params, s: Sys)
    requires Limited(p, s)
    ensures Limited(p, Next(p, s, LoseGroup))
  {
    var t := Next(p, s, LoseGroup);
    forall k | k in t.jobs && t.jobs[k].Row? ensures RowTrue(t, t.jobs[k]) {
      assert RowTrue(s, s.jobs[k]);
    }
    forall k ensures Holds(t, k) <==> Holds(s, k) {
    }
  }

  lemma NothingDelivered(s: Sys)
    requires Fresh(s)
    ensures DeliveredOf(s, s.group.cursor) == 0
  {
  }

  /** Every claim of a pending entry is the next delivery of that entry. */
  lemma ClaimDelivers(p: Params, s: Sys, id: nat)
    requires Fresh(s) && Partition(s.group) && s.group.Idle(id, p.claimMinIdleMs)
    ensures Delivering(s, s.group.XClaim(id, p.claimMinIdleMs), id)
  {
  }

  lemma FreshKept(p: Params, s: Sys, a: Action)
    requires Fresh(s) && Partition(s.group)
    ensures Fresh(Next(p, s, a))
  {
    hide Fresh, Partition, ReturnStep;
    match a {
      case ReadOne(job) =>
        if job !in s.jobs && s.group.cursor < |s.group.entries| {
          NothingDelivered(s);
          DeliverIsFresh(s, s.group.XReadGroup(), job, s.group.cursor);
        }
      case Decide(job) =>
        if job in s.jobs && s.jobs[job].Row? {
          var r := s.jobs[job];
          if r.deliveries < p.maxDeliveries && s.group.Idle(r.id, p.claimMinIdleMs) {
            ClaimDelivers(p, s, r.id);
            DeliverIsFresh(s, s.group.XClaim(r.id, p.claimMinIdleMs), job, r.id);
          } else {
            QuietIsFresh(s, Next(p, s, a));
          }
        }
      case HandleReturns(job, v) => ReturnIsFresh(s, job, v);
      case LoseGroup => LoseIsFresh(p, s);
      case _ => QuietIsFresh(s, Next(p, s, a));
    }
  }

  /** A prompt claim finds the delivery count that the loop has read. */
  lemma PromptClaim(p: Params, s: Sys, r: Job)
    requires Fresh(s) && r.Row? && RowTrue(s, r) && s.group.now - r.seenAt < p.claimMinIdleMs
    requires s.group.Idle(r.id, p.claimMinIdleMs)
    ensures DeliveredOf(s, r.id) == r.deliveries
  {
  }

  lemma DecideIsLimited(p: Params, s: Sys, job: nat)
    requires Fresh(s) && Partition(s.group) && Limited(p, s) && InTime(p, s, Decide(job))
    ensures Limited(p, DecideStep(p, s, job))
  {
    hide Fresh, Partition;
    if job in s.jobs && s.jobs[job].Row? {
      var r := s.jobs[job];
      assert RowTrue(s, r);
      if r.deliveries < p.maxDeliveries && s.group.Idle(r.id, p.claimMinIdleMs) {
        assert p.maxDeliveries > 1;
        hide Limited;
        PromptClaim(p, s, r);
        ClaimDelivers(p, s, r.id);
        DeliverIsLimited(p, s, s.group.XClaim(r.id, p.claimMinIdleMs), job, r.id);
      } else {
        hide Limited;
        QuietIsLimited(p, s, DecideStep(p, s, job));
      }
    }
  }

  lemma SeenOnce(p: Params, s: Sys, id: nat)
    requires Fresh(s) && Limited(p, s) && Partition(s.group)
    ensures id in s.group.pending ==>
      s.group.pending[id].deliveries >= 1 && s.group.pending[id].deliveredAt <= s.group.now
  {
  }

  lemma LimitedKept(p: Params, s: Sys, a: Action)
    requires p.Valid() && Fresh(s) && Limited(p, s) && Partition(s.group) && InTime(p, s, a)
    ensures Limited(p, Next(p, s, a))
  {
    hide Fresh, Limited, Partition, InTime, DecideStep, ReturnStep;
    match a {
      case ReadOne(job) =>
        if job !in s.jobs && s.group.cursor < |s.group.entries| {
          NothingDelivered(s);
          DeliverIsLimited(p, s, s.group.XReadGroup(), job, s.group.cursor);
        }
      case Decide(job) => DecideIsLimited(p, s, job);
      case HandleReturns(job, v) => ReturnIsLimited(p, s, job, v);
      case LoseGroup => LoseIsLimited(p, s);
      case SeeIdle(job, id) =>
        SeenOnce(p, s, id);
        QuietIsLimited(p, s, Next(p, s, a));
      case _ => QuietIsLimited(p, s, Next(p, s, a));
    }
  }

  ghost predicate Prompt(p: Params, states: seq<Sys>, actions: seq<Action>)
    requires |states| == |actions| + 1
  {
    forall i :: 0 <= i < |actions| ==> InTime(p, states[i], actions[i])
  }

  lemma InitIsSafe(p: Params)
    requires p.Valid()
    ensures AckSafe(INIT) && Fresh(INIT) && Limited(p, INIT)
  {
  }

  lemma SafeIsPartition(s: Sys)
    requires AckSafe(s)
    ensures Partition(s.group)
  {
  }

  lemma {:induction false} RunIsSafe(p: Params, states: seq<Sys>, actions: seq<Action>, i: nat)
    requires Run(p, states, actions) && i < |states|
    ensures AckSafe(states[i]) && Fresh(states[i])
    decreases i
  {
    hide AckSafe, Fresh, Next;
    if i == 0 {
      InitIsSafe(p);
    } else {
      RunIsSafe(p, states, actions, i - 1);
      SafeIsPartition(states[i - 1]);
      AckSafeKept(p, states[i - 1], actions[i - 1]);
      FreshKept(p, states[i - 1], actions[i - 1]);
    }
  }

  lemma {:induction false} RunIsLimited(p: Params, states: seq<Sys>, actions: seq<Action>, i: nat)
    requires Run(p, states, actions) && Prompt(p, states, actions) && i < |states|
    ensures Limited(p, states[i])
    decreases i
  {
    hide Limited, AckSafe, Fresh, Next, InTime;
    if i == 0 {
      InitIsSafe(p);
    } else {
      RunIsLimited(p, states, actions, i - 1);
      RunIsSafe(p, states, actions, i - 1);
      SafeIsPartition(states[i - 1]);
      LimitedKept(p, states[i - 1], actions[i - 1]);
    }
  }

  /**
    * Acknowledgement safety over every run, with crashes, lost groups and slow
    * claim loops: every entry is undelivered, pending or acknowledged, and an
    * acknowledged entry was handled well or stands in the dead-letter stream.
    */
  lemma AcknowledgedIsSettled(p: Params, states: seq<Sys>, actions: seq<Action>, i: nat)
    requires Run(p, states, actions) && i < |states|
    ensures Partition(states[i].group)
    ensures forall id :: id in states[i].group.acked ==> Settled(states[i], id)
  {
    hide Fresh, Settled;
    RunIsSafe(p, states, actions, i);
  }

  // ---------- Bounded redelivery ----------

  /**
    * The deliveries of one entry since the group was made in the given epoch. Every call
    * of `handle` is for one of them.
    */
  function DeliveriesOf(s: Sys, epoch: nat, id: nat): set<nat> {
    set t | t in s.issued && t.epoch == epoch && t.id == id :: t.n
  }

  /** The calls of `handle` for one entry that returned. */
  function CallsOf(s: Sys, epoch: nat, id: nat): set<nat> {
    set t | t in s.verdicts && t.epoch == epoch && t.id == id :: t.n
  }

  /** Each call, returned or not, is for a delivery of its own. */
  ghost predicate CallsAreDeliveries(s: Sys, epoch: nat, id: nat) {
    && CallsOf(s, epoch, id) <= DeliveriesOf(s, epoch, id)
    && (forall job :: Holds(s, job) && s.jobs[job].ticket.epoch == epoch && s.jobs[job].ticket.id == id ==>
          s.jobs[job].ticket.n in DeliveriesOf(s, epoch, id) && s.jobs[job].ticket.n !in CallsOf(s, epoch, id))
  }

  function Numbers(n: nat): (r: set<nat>)
    ensures |r| == n && forall k :: k in r <==> 1 <= k <= n
  {
    if n == 0 then {} else Numbers(n - 1) + {n}
  }

  lemma SubsetSize(a: set<nat>, b: set<nat>)
    requires a <= b
    ensures |a| <= |b|
  {
    if a != {} {
      var x :| x in a;
      SubsetSize(a - {x}, b - {x});
    }
  }

  /**
    * Bounded redelivery. When the claim loop acts within `claimMinIdleMs` of
    * reading the pending list, an entry is delivered at most `maxDeliveries` times
    * in each life of the group, however the consumers race for it. So `handle` is
    * called at most that often, calls that never return included.
    */
  lemma HandleRunsBounded(p: Params, states: seq<Sys>, actions: seq<Action>, i: nat, epoch: nat, id: nat)
    requires Run(p, states, actions) && Prompt(p, states, actions) && i < |states|
    ensures |DeliveriesOf(states[i], epoch, id)| <= p.maxDeliveries && CallsAreDeliveries(states[i], epoch, id)
  {
    RunIsLimited(p, states, actions, i);
    RunIsSafe(p, states, actions, i);
    forall n | n in DeliveriesOf(states[i], epoch, id) ensures n in Numbers(p.maxDeliveries) {
      var t :| t in states[i].issued && t.epoch == epoch && t.id == id && t.n == n;
      assert WithinLimit(p, t.n);
    }
    SubsetSize(DeliveriesOf(states[i], epoch, id), Numbers(p.maxDeliveries));
    CallsHaveTickets(states[i], epoch, id);
  }

  lemma CallsHaveTickets(s: Sys, epoch: nat, id: nat)
    requires Fresh(s)
    ensures CallsAreDeliveries(s, epoch, id)
  {
  }

  lemma Then(p: Params, states: seq<Sys>, actions: seq<Action>, a: Action) returns (longer: seq<Sys>, more: seq<Action>)
    requires Run(p, states, actions)
    ensures Run(p, longer, more) && |longer| > 0 && longer[|longer| - 1] == Next(p, states[|states| - 1], a)
  {
    hide Next;
    longer, more := states + [Next(p, states[|states| - 1], a)], actions + [a];
    forall i | 0 <= i < |more| ensures longer[i + 1] == Next(p, longer[i], more[i]) {
      if i < |actions| {
        assert longer[i] == states[i] && longer[i + 1] == states[i + 1] && more[i] == actions[i];
      }
    }
  }

  /** The only entry was delivered `k` times, and `handle` failed each time. */
  ghost predicate FailedTimes(s: Sys, k: nat) {
    && s.group.entries == [Json] && s.group.cursor == 1 && s.group.pending.Keys == {0} && s.epoch == 0
    && s.group.pending[0].deliveries == k && s.group.pending[0].deliveredAt <= s.group.now && s.delivered == map[0 := k]
    && forall n: nat :: 1 <= n <= k ==> Ticket(0, 0, n) in s.verdicts
  }

  lemma FailedOnce(p: Params) returns (states: seq<Sys>, actions: seq<Action>)
    requires p.Valid()
    ensures Run(p, states, actions) && |states| > 0 && FailedTimes(states[|states| - 1], 1)
      && states[|states| - 1].jobs == map[]
  {
    states, actions := [INIT], [];
    assert Run(p, states, actions);
    hide Run;
    states, actions := Then(p, states, actions, Produce(Json));
    states, actions := Then(p, states, actions, ReadOne(0));
    states, actions := Then(p, states, actions, HandleReturns(0, Crashed));
  }

  /** A job that has read a line below the limit claims the idle entry, and `handle` fails once more. */
  lemma ClaimAndFail(p: Params, states: seq<Sys>, actions: seq<Action>, job: nat, k: nat)
      returns (longer: seq<Sys>, more: seq<Action>)
    requires Run(p, states, actions) && |states| > 0 && FailedTimes(states[|states| - 1], k)
    requires
      var s := states[|states| - 1];
      job in s.jobs && s.jobs[job].Row? && s.jobs[job].id == 0 && s.jobs[job].deliveries < p.maxDeliveries
        && s.group.Idle(0, p.claimMinIdleMs)
    ensures Run(p, longer, more) && |longer| > 0 && FailedTimes(longer[|longer| - 1], k + 1)
    ensures longer[|longer| - 1].jobs == states[|states| - 1].jobs - {job}
  {
    hide Run;
    longer, more := Then(p, states, actions, Decide(job));
    longer, more := Then(p, longer, more, HandleReturns(job, Crashed));
  }

  /** Time passes until the entry is idle, and some jobs read its line. */
  lemma WaitAndSee(p: Params, states: seq<Sys>, actions: seq<Action>, jobs: set<nat>, k: nat)
      returns (longer: seq<Sys>, more: seq<Action>)
    requires p.Valid() && Run(p, states, actions) && |states| > 0 && FailedTimes(states[|states| - 1], k)
    requires states[|states| - 1].jobs == map[] && jobs <= {1, 2}
    ensures Run(p, longer, more) && |longer| > 0 && FailedTimes(longer[|longer| - 1], k)
    ensures
      var t := longer[|longer| - 1];
      t.group.Idle(0, p.claimMinIdleMs) && t.jobs.Keys == jobs && forall j :: j in jobs ==>
        t.jobs[j] == Row(0, k, t.group.now)
  {
    hide Run;
    longer, more := Then(p, states, actions, Tick(p.claimMinIdleMs));
    if 1 in jobs {
      longer, more := Then(p, longer, more, SeeIdle(1, 0));
    }
    if 2 in jobs {
      longer, more := Then(p, longer, more, SeeIdle(2, 0));
    }
  }

  lemma {:induction false} FailedUntil(p: Params, k: nat) returns (states: seq<Sys>, actions: seq<Action>)
    requires p.Valid() && 1 <= k < p.maxDeliveries
    ensures Run(p, states, actions) && |states| > 0 && FailedTimes(states[|states| - 1], k)
      && states[|states| - 1].jobs == map[]
    decreases k
  {
    hide Run, FailedTimes;
    if k == 1 {
      states, actions := FailedOnce(p);
    } else {
      states, actions := FailedUntil(p, k - 1);
      states, actions := WaitAndSee(p, states, actions, {1}, k - 1);
      states, actions := ClaimAndFail(p, states, actions, 1, k - 1);
    }
  }

  /**
    * The hypothesis is needed, for every limit above one: two consumers read the
    * same pending line, and the second acts on it only after the first has claimed
    * the entry and failed. Then `handle` runs and returns once more than allowed.
    */
  lemma SlowClaimLoopRunsMore(p: Params) returns (states: seq<Sys>, actions: seq<Action>)
    requires p.Valid() && p.maxDeliveries > 1
    ensures Run(p, states, actions) && |states| > 0
    ensures |CallsOf(states[|states| - 1], 0, 0)| > p.maxDeliveries
  {
    hide Run, FailedTimes;
    var k: nat := p.maxDeliveries - 1;
    states, actions := FailedUntil(p, k);
    states, actions := WaitAndSee(p, states, actions, {1, 2}, k);
    states, actions := ClaimAndFail(p, states, actions, 1, k);
    var s := states[|states| - 1];
    states, actions := Then(p, states, actions, Tick(p.claimMinIdleMs));
    StillFailed(s, states[|states| - 1], p.claimMinIdleMs, k + 1);
    states, actions := ClaimAndFail(p, states, actions, 2, k + 1);
    ManyCalls(states[|states| - 1], k + 2);
  }

  lemma StillFailed(s: Sys, t: Sys, ms: nat, k: nat)
    requires FailedTimes(s, k) && t == s.(group := s.group.(now := s.group.now + ms))
    ensures FailedTimes(t, k) && t.group.Idle(0, ms)
  {
  }

  lemma ManyCalls(s: Sys, k: nat)
    requires FailedTimes(s, k)
    ensures |CallsOf(s, 0, 0)| >= k
  {
    forall n | n in Numbers(k) ensures n in CallsOf(s, 0, 0) {
      assert Ticket(0, 0, n) in s.verdicts;
    }
    SubsetSize(Numbers(k), CallsOf(s, 0, 0));
  }

  /** No run, prompt or not, delivers an entry more often than allowed in one life of the group. */
  ghost predicate AlwaysBounded(p: Params) {
    forall states: seq<Sys>, actions, i: nat, epoch: nat, id: nat ::
      Run(p, states, actions) && i < |states| ==> |DeliveriesOf(states[i], epoch, id)| <= p.maxDeliveries
  }

  /** Without any promise of promptness the limit holds in every run if and only if it is one. */
  lemma BoundedExactly(p: Params)
    requires p.Valid()
    ensures AlwaysBounded(p) <==> p.maxDeliveries == 1
  {
    if p.maxDeliveries == 1 {
      forall states: seq<Sys>, actions, i: nat, epoch: nat, id: nat | Run(p, states, actions) && i < |states|
        ensures |DeliveriesOf(states[i], epoch, id)| <= p.maxDeliveries
      {
        RunLengths(p, states, actions);
        HandleRunsBounded(p, states, actions, i, epoch, id);
      }
    } else {
      var states, actions := SlowClaimLoopRunsMore(p);
      var last := |states| - 1;
      RunIsSafe(p, states, actions, last);
      CallsHaveTickets(states[last], 0, 0);
      SubsetSize(CallsOf(states[last], 0, 0), DeliveriesOf(states[last], 0, 0));
    }
  }

  lemma RunLengths(p: Params, states: seq<Sys>, actions: seq<Action>)
    requires Run(p, states, actions)
    ensures |states| == |actions| + 1
  {
  }

  /** How many deliveries the first `n` entries may still get. */
  function Remaining(p: Params, s: Sys, n: nat): int {
    if n == 0 then 0
    else Remaining(p, s, n - 1) + if n - 1 in s.group.acked then 0 else p.maxDeliveries - DeliveredOf(s, n - 1)
  }

  lemma {:induction false} RemainingFalls(p: Params, s: Sys, t: Sys, n: nat, id: nat)
    requires forall x: nat :: x < n && x != id ==>
      (x in s.group.acked ==> x in t.group.acked) && DeliveredOf(t, x) == DeliveredOf(s, x)
    requires forall x: nat :: x < n && x !in s.group.acked && x in t.group.acked ==>
      DeliveredOf(s, x) <= p.maxDeliveries
    requires id !in s.group.acked && id !in t.group.acked && DeliveredOf(t, id) == DeliveredOf(s, id) + 1
    ensures Remaining(p, t, n) <= Remaining(p, s, n) - if id < n then 1 else 0
  {
    if n > 0 {
      RemainingFalls(p, s, t, n - 1, id);
    }
  }

  lemma {:induction false} RemainingRests(p: Params, s: Sys, t: Sys, n: nat)
    requires forall x: nat :: x < n ==>
      (x in s.group.acked ==> x in t.group.acked) && DeliveredOf(t, x) == DeliveredOf(s, x)
    requires forall x: nat :: x < n && x !in s.group.acked && x in t.group.acked ==>
      DeliveredOf(s, x) <= p.maxDeliveries
    ensures Remaining(p, t, n) <= Remaining(p, s, n)
  {
    if n > 0 {
      RemainingRests(p, s, t, n - 1);
    }
  }

  lemma {:induction false} RemainingPositive(p: Params, s: Sys, n: nat)
    requires Limited(p, s)
    ensures Remaining(p, s, n) >= 0
  {
    if n > 0 {
      RemainingPositive(p, s, n - 1);
    }
  }

  /** The step hands out a delivery. */
  predicate Delivers(p: Params, s: Sys, a: Action) {
    || (a.ReadOne? && a.job !in s.jobs && s.group.cursor < |s.group.entries|)
    || (a.Decide? && a.job in s.jobs && s.jobs[a.job].Row? && s.jobs[a.job].deliveries < p.maxDeliveries
        && s.group.Idle(s.jobs[a.job].id, p.claimMinIdleMs))
  }

  lemma DeliveredOne(p: Params, s: Sys, a: Action, id: nat)
    requires Delivers(p, s, a) && Partition(s.group)
    requires id == if a.ReadOne? then s.group.cursor else s.jobs[a.job].id
    ensures
      var t := Next(p, s, a);
      && t.group.entries == s.group.entries && t.group.acked == s.group.acked
      && id < |s.group.entries| && id !in s.group.acked
      && DeliveredOf(t, id) == DeliveredOf(s, id) + 1
      && forall x: nat :: x != id ==> DeliveredOf(t, x) == DeliveredOf(s, x)
  {
  }

  lemma DeliveredNone(p: Params, s: Sys, a: Action)
    requires !Delivers(p, s, a) && !a.Produce? && !a.LoseGroup?
    ensures
      var t := Next(p, s, a);
      t.group.entries == s.group.entries && t.delivered == s.delivered && s.group.acked <= t.group.acked
  {
  }

  lemma WithinAll(p: Params, s: Sys)
    requires Limited(p, s)
    ensures forall x: nat :: DeliveredOf(s, x) <= p.maxDeliveries
  {
  }

  /**
    * Progress: the remaining deliveries of the unsettled entries never rise on their own,
    * and fall with every delivery.
    */
  lemma DeliveriesRunOut(p: Params, s: Sys, a: Action)
    requires p.Valid() && AckSafe(s) && Fresh(s) && Limited(p, s) && InTime(p, s, a)
    requires !a.Produce? && !a.LoseGroup?
    ensures
      var n, t := |s.group.entries|, Next(p, s, a);
      && |t.group.entries| == n
      && 0 <= Remaining(p, t, n) <= Remaining(p, s, n)
      && (Delivers(p, s, a) ==> Remaining(p, t, n) < Remaining(p, s, n))
  {
    hide AckSafe, Fresh, Limited, InTime, Next, Delivers, Partition;
    var n, t := |s.group.entries|, Next(p, s, a);
    SafeIsPartition(s);
    LimitedKept(p, s, a);
    RemainingPositive(p, t, n);
    WithinAll(p, s);
    if Delivers(p, s, a) {
      var id := if a.ReadOne? then s.group.cursor else DecidedId(s, a);
      DeliverKind(p, s, a);
      DeliveredOne(p, s, a, id);
      RemainingFalls(p, s, t, n, id);
    } else {
      DeliveredNone(p, s, a);
      RemainingRests(p, s, t, n);
    }
  }

  function DecidedId(s: Sys, a: Action): nat {
    if a.Decide? && a.job in s.jobs && s.jobs[a.job].Row? then s.jobs[a.job].id else 0
  }

  lemma DeliverKind(p: Params, s: Sys, a: Action)
    requires Delivers(p, s, a)
    ensures a.ReadOne? || (a.Decide? && a.job in s.jobs && s.jobs[a.job].Row?)
  {
  }
}
