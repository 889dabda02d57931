/** The breaker state and the probe slot in Redis. */
module BreakerStore {
  import opened Types
  import opened Decimal
  import opened Keys
  import opened Redis

  const OPEN_TEXT := "OPEN"
  const HALF_OPEN_TEXT := "HALF_OPEN"
  const CLOSED_TEXT := "CLOSED"

  function StateText(s: BreakerState): string {
    match s
    case CLOSED => CLOSED_TEXT
    case OPEN => OPEN_TEXT
    case HALF_OPEN => HALF_OPEN_TEXT
  }

  function SnapshotFields(s: BreakerSnapshot): map<Field, string> {
    map[State := StateText(s.state), OpenedAt := Render(s.openedAt), ProbeSuccess := Render(s.probeSuccess)]
  }

  /** A number that is not finite, or is below zero, reads as zero. */
  function ToNumber(raw: Option<string>): int {
    match raw
    case None => 0
    case Some(text) =>
      match Parse(text)
      case None => 0
      case Some(n) => if n >= 0 then n else 0
  }

  function FieldOf(fields: map<Field, string>, f: Field): Option<string> {
    if f in fields then Some(fields[f]) else None
  }

  function ParseSnapshot(raw: map<Field, string>): BreakerSnapshot {
    var state := FieldOf(raw, State);
    if state == Some(OPEN_TEXT) then
      BreakerSnapshot(OPEN, ToNumber(FieldOf(raw, OpenedAt)), ToNumber(FieldOf(raw, ProbeSuccess)))
    else if state == Some(HALF_OPEN_TEXT) then
      BreakerSnapshot(HALF_OPEN, ToNumber(FieldOf(raw, OpenedAt)), ToNumber(FieldOf(raw, ProbeSuccess)))
    else CLOSED_BREAKER
  }

  /** A number that is missing, damaged or negative reads as zero, and every other as itself. */
  lemma DamagedReadsZero(raw: Option<string>)
    ensures ToNumber(raw) == if raw.Some? && Parse(raw.value).Some?
      && Parse(raw.value).value > 0 then Parse(raw.value).value else 0
  {
  }

  /** A snapshot that survives the store. */
  predicate Storable(s: BreakerSnapshot) {
    if s.state == CLOSED then s == CLOSED_BREAKER else s.openedAt >= 0 && s.probeSuccess >= 0
  }

  lemma StateTextsDiffer()
    ensures OPEN_TEXT != HALF_OPEN_TEXT && OPEN_TEXT != CLOSED_TEXT && HALF_OPEN_TEXT != CLOSED_TEXT
  {
    assert OPEN_TEXT[0] != HALF_OPEN_TEXT[0] && OPEN_TEXT[0] != CLOSED_TEXT[0] && HALF_OPEN_TEXT[0] != CLOSED_TEXT[0];
  }

  /** The round trip, and exactly when it holds. */
  lemma SnapshotRoundTrip(s: BreakerSnapshot)
    ensures ParseSnapshot(SnapshotFields(s)) == s <==> Storable(s)
  {
    StateTextsDiffer();
    ParseRender(s.openedAt);
    ParseRender(s.probeSuccess);
  }

  /** A damaged or missing state never blocks a channel, whatever the other fields hold. */
  lemma UnknownStateReadsClosed(raw: map<Field, string>)
    ensures ParseSnapshot(raw).state != CLOSED
       <==> State in raw && (raw[State] == OPEN_TEXT || raw[State] == HALF_OPEN_TEXT)
    ensures ParseSnapshot(raw).state == CLOSED ==> ParseSnapshot(raw) == CLOSED_BREAKER
    ensures Storable(ParseSnapshot(raw))
  {
  }

  function BreakerAt(db: Db, c: string): BreakerSnapshot {
    ParseSnapshot(db.Fields(Breaker(c)))
  }

  function Written(db: Db, c: string, s: BreakerSnapshot): Db {
    db.HSet(Breaker(c), SnapshotFields(s))
  }

  /** Breaker entries are hashes that never expire. */
  ghost predicate BreakersLast(db: Db) {
    forall c :: Breaker(c) in db.data ==> db.data[Breaker(c)].value.Hash? && db.data[Breaker(c)].expireAt.None?
  }

  /** A write is read back by its own channel and seen by no other. */
  lemma WriteThenRead(db: Db, c: string, s: BreakerSnapshot)
    requires BreakersLast(db) && Storable(s)
    ensures BreakersLast(Written(db, c, s))
    ensures forall d :: BreakerAt(Written(db, c, s), d) == if d == c then s else BreakerAt(db, d)
    ensures Written(db, c, s).now == db.now
    ensures forall k :: k != Breaker(c) ==>
      (k in Written(db, c, s).data <==> k in db.data) && (k in db.data ==> Written(db, c, s).data[k] == db.data[k])
  {
    hide ParseSnapshot, Render, StateText;
    SnapshotRoundTrip(s);
    assert Breaker(c) in db.data ==> db.data[Breaker(c)].value.Hash? && db.data[Breaker(c)].expireAt.None?;
    var after := Written(db, c, s);
    assert db.Accepts(Breaker(c), true);
    assert db.Fields(Breaker(c)) + SnapshotFields(s)
      == SnapshotFields(s) + (db.Fields(Breaker(c)) - SnapshotFields(s).Keys);
    FieldsReplaced(db.Fields(Breaker(c)), s);
    assert after.Fields(Breaker(c)) == db.Fields(Breaker(c)) + SnapshotFields(s);
    forall d | d != c ensures BreakerAt(after, d) == BreakerAt(db, d) {
      assert after.Fields(Breaker(d)) == db.Fields(Breaker(d));
    }
  }

  /** A write replaces every field that a read uses. */
  lemma FieldsReplaced(fields: map<Field, string>, s: BreakerSnapshot)
    ensures ParseSnapshot(fields + SnapshotFields(s)) == ParseSnapshot(SnapshotFields(s))
  {
    hide Parse, Render, StateText;
  }

  /** The stores agree on every breaker entry. */
  ghost predicate SameBreakers(a: Db, b: Db) {
    forall c :: (Breaker(c) in a.data <==> Breaker(c) in b.data) && (Breaker(c) in a.data ==>
      a.data[Breaker(c)] == b.data[Breaker(c)])
  }

  lemma SameBreakersRead(a: Db, b: Db)
    requires BreakersLast(a) && SameBreakers(a, b)
    ensures BreakersLast(b)
    ensures forall c :: BreakerAt(b, c) == BreakerAt(a, c)
  {
    hide ParseSnapshot;
    forall c ensures BreakerAt(b, c) == BreakerAt(a, c) {
      assert Breaker(c) in a.data <==> Breaker(c) in b.data;
      assert a.Fields(Breaker(c)) == b.Fields(Breaker(c));
    }
  }

  /** Time and eviction do not touch a breaker: its key has no lifetime. */
  lemma TimeKeepsBreakers(db: Db, ms: nat, keys: set<Key>)
    requires BreakersLast(db)
    ensures SameBreakers(db, db.Advance(ms)) && SameBreakers(db, db.Evict(keys))
  {
  }

  const SLOT_TEXT := "1"

  class Store {
    const server: Server

    constructor (server: Server)
      ensures this.server == server
    {
      this.server := server;
    }

    method Read(channelId: string) returns (s: BreakerSnapshot)
      ensures s == BreakerAt(server.db, channelId)
    {
      var raw := server.HGetAll(Breaker(channelId));
      s := ParseSnapshot(raw);
    }

    method ReadMany(channelIds: seq<string>) returns (result: map<string, BreakerSnapshot>)
      modifies server
      ensures server.db == old(server.db)
      ensures forall c :: c in result <==> c in channelIds
      ensures forall c :: c in channelIds ==> result[c] == BreakerAt(server.db, c)
    {
      hide ParseSnapshot, ExecReplies, ExecDb;
      result := map[];
      if channelIds == [] {
        return;
      }
      var pipeline: seq<Command> := [];
      for i := 0 to |channelIds|
        invariant server.db == old(server.db)
        invariant |pipeline| == i
        invariant forall j :: 0 <= j < i ==> pipeline[j] == CmdHGetAll(Breaker(channelIds[j]))
      {
        pipeline := pipeline + [CmdHGetAll(Breaker(channelIds[i]))];
      }
      var replies := server.Exec(pipeline);
      ReadsSeeOneState(old(server.db), pipeline);
      for i := 0 to |channelIds|
        invariant server.db == old(server.db)
        invariant forall c :: c in result <==> c in channelIds[..i]
        invariant forall c :: c in channelIds[..i] ==> result[c] == BreakerAt(server.db, c)
      {
        assert replies[i] == Answer(server.db, pipeline[i]);
        result := result[channelIds[i] := ParseSnapshot(replies[i].fields)];
        assert channelIds[..i + 1] == channelIds[..i] + [channelIds[i]];
      }
      assert channelIds[..|channelIds|] == channelIds;
    }

    method Write(channelId: string, s: BreakerSnapshot)
      modifies server
      ensures server.db == Written(old(server.db), channelId, s)
    {
      server.HSet(Breaker(channelId),
        map[State := StateText(s.state), OpenedAt := Render(s.openedAt), ProbeSuccess := Render(s.probeSuccess)]);
    }

    /** Takes the single probe slot of a breaker that is half open. */
    method TakeProbeSlot(channelId: string, ttlMs: int) returns (ok: bool)
      modifies server
      ensures (server.db, ok) == old(server.db).SetNx(Probe(channelId), SLOT_TEXT, ttlMs)
    {
      ok := server.SetNx(Probe(channelId), SLOT_TEXT, ttlMs);
    }

    method ReleaseProbeSlot(channelId: string)
      modifies server
      ensures server.db == old(server.db).Del(Probe(channelId))
    {
      server.Del(Probe(channelId));
    }
  }
}
