/** Remembers which events were already applied. */
module ProcessedStore {
  import opened Keys
  import opened Redis

  function Claim(db: Db, eventId: string, ttlSeconds: int): (Db, bool) {
    db.SetNx(Processed(eventId), "1", 1000 * ttlSeconds)
  }

  lemma FailedClaim(db: Db, eventId: string, ttlSeconds: int)
    ensures !Claim(db, eventId, ttlSeconds).1 ==> Claim(db, eventId, ttlSeconds).0 == db
  {
  }

  lemma ClaimKeepsClock(db: Db, eventId: string, ttlSeconds: int)
    ensures Claim(db, eventId, ttlSeconds).0.now == db.now
  {
  }

  /** Of two claims of one event the second fails, until the whole lifetime of the first has passed. */
  lemma SecondClaimWaits(db: Db, later: Db, eventId: string, ttlSeconds: int)
    requires Claim(db, eventId, ttlSeconds).1
    requires Processed(eventId) in later.data
    requires later.data[Processed(eventId)] == Claim(db, eventId, ttlSeconds).0.data[Processed(eventId)]
    ensures Claim(later, eventId, ttlSeconds).1 <==> later.now >= db.now + 1000 * ttlSeconds
  {
  }

  class RedisProcessedStore {
    const server: Server
    const ttlSeconds: int

    constructor (server: Server, ttlSeconds: int)
      ensures this.server == server && this.ttlSeconds == ttlSeconds
    {
      this.server, this.ttlSeconds := server, ttlSeconds;
    }

    method TryClaim(eventId: string) returns (ok: bool)
      modifies server
      ensures (server.db, ok) == Claim(old(server.db), eventId, ttlSeconds)
    {
      ok := server.SetNx(Processed(eventId), "1", 1000 * ttlSeconds);
    }
  }

  /** The in-memory version: an event is claimed once, for as long as the store lives. */
  class MemoryProcessedStore {
    var seen: set<string>

    constructor ()
      ensures seen == {}
    {
      seen := {};
    }

    method TryClaim(eventId: string) returns (ok: bool)
      modifies this
      ensures ok <==> eventId !in old(seen)
      ensures seen == old(seen) + {eventId}
    {
      if eventId in seen {
        return false;
      }
      seen := seen + {eventId};
      return true;
    }
  }
}
