/** The part of Redis that the service uses: keys that expire, and pipelines that run as one step. */
module Redis {
  import opened Types
  import opened Decimal
  import opened Keys

  /** The names of the hash fields that the service writes. */
  datatype Field = Success | Failure | LatSum | State | OpenedAt | ProbeSuccess

  datatype Value =
    | Hash(fields: map<Field, string>)
    | List(items: seq<string>)
    | Str(text: string)

  datatype Entry = Entry(value: Value, expireAt: Option<int>)

  /** The clock of the server and the stored entries. An expired entry may stay until it is evicted. */
  datatype Db = Db(now: int, data: map<Key, Entry>) {

    predicate Live(k: Key) {
      k in data && (data[k].expireAt.Some? ==> now < data[k].expireAt.value)
    }

    function Fields(k: Key): map<Field, string> {
      if Live(k) && data[k].value.Hash? then data[k].value.fields else map[]
    }

    function Items(k: Key): seq<string> {
      if Live(k) && data[k].value.List? then data[k].value.items else []
    }

    function Expiry(k: Key): Option<int> {
      if Live(k) then data[k].expireAt else None
    }

    function Put(k: Key, v: Value): Db {
      this.(data := data[k := Entry(v, Expiry(k))])
    }

    /** A command on a key of another type is an error and changes nothing. */
    predicate Accepts(k: Key, isHash: bool) {
      Live(k) ==> if isHash then data[k].value.Hash? else data[k].value.List?
    }

    function HSet(k: Key, fields: map<Field, string>): Db {
      if Accepts(k, true) then Put(k, Hash(Fields(k) + fields)) else this
    }

    function FieldInt(k: Key, field: Field): Option<int> {
      if field in Fields(k) then Parse(Fields(k)[field]) else Some(0)
    }

    function HIncrBy(k: Key, field: Field, amount: int): Db {
      if !Accepts(k, true) then this
      else match FieldInt(k, field)
        case None => this
        case Some(total) => Put(k, Hash(Fields(k)[field := Render(total + amount)]))
    }

    function Expire(k: Key, seconds: int): Db {
      if Live(k) then this.(data := data[k := Entry(data[k].value, Some(now + 1000 * seconds))]) else this
    }

    function LPush(k: Key, item: string): Db {
      if Accepts(k, false) then Put(k, List([item] + Items(k))) else this
    }

    /** Keeps the items at 0..stop. */
    function LTrim(k: Key, stop: nat): Db {
      if Live(k) && data[k].value.List? then
        Put(k, List(if |Items(k)| <= stop + 1 then Items(k) else Items(k)[..stop + 1]))
      else this
    }

    function SetNx(k: Key, text: string, ttlMs: int): (Db, bool) {
      if Live(k) then (this, false)
      else (this.(data := data[k := Entry(Str(text), Some(now + ttlMs))]), true)
    }

    function Del(k: Key): Db {
      this.(data := data - {k})
    }

    function HMGet(k: Key, names: seq<Field>): seq<Option<string>> {
      seq(|names|, i requires 0 <= i < |names| =>
        if names[i] in Fields(k) then Some(Fields(k)[names[i]]) else None)
    }

    function Advance(ms: nat): Db {
      this.(now := now + ms)
    }

    /** Redis may drop any expired entry at any time, and nothing else. */
    function Evict(keys: set<Key>): Db {
      this.(data := map k | k in data && (k !in keys || Live(k)) :: data[k])
    }
  }

  const EMPTY := Db(0, map[])

  /** One queued command of a pipeline. */
  datatype Command =
    | CmdHIncrBy(key: Key, field: Field, amount: int)
    | CmdExpire(key: Key, seconds: int)
    | CmdLPush(key: Key, item: string)
    | CmdLTrim(key: Key, stop: nat)
    | CmdHMGet(key: Key, names: seq<Field>)
    | CmdLRange(key: Key)
    | CmdHGetAll(key: Key)

  datatype Reply =
    | Done
    | Bulk(values: seq<Option<string>>)
    | Texts(items: seq<string>)
    | Pairs(fields: map<Field, string>)

  function Effect(db: Db, cmd: Command): Db {
    match cmd
    case CmdHIncrBy(k, f, n) => db.HIncrBy(k, f, n)
    case CmdExpire(k, s) => db.Expire(k, s)
    case CmdLPush(k, v) => db.LPush(k, v)
    case CmdLTrim(k, stop) => db.LTrim(k, stop)
    case _ => db
  }

  function Answer(db: Db, cmd: Command): Reply {
    match cmd
    case CmdHMGet(k, names) => Bulk(db.HMGet(k, names))
    case CmdLRange(k) => Texts(db.Items(k))
    case CmdHGetAll(k) => Pairs(db.Fields(k))
    case _ => Done
  }

  function ExecDb(db: Db, cmds: seq<Command>): Db
    decreases cmds
  {
    if cmds == [] then db else ExecDb(Effect(db, cmds[0]), cmds[1..])
  }

  function ExecReplies(db: Db, cmds: seq<Command>): (replies: seq<Reply>)
    ensures |replies| == |cmds|
    decreases cmds
  {
    if cmds == [] then [] else [Answer(db, cmds[0])] + ExecReplies(Effect(db, cmds[0]), cmds[1..])
  }

  predicate ReadOnly(cmd: Command) {
    cmd.CmdHMGet? || cmd.CmdLRange? || cmd.CmdHGetAll?
  }

  /** A pipeline of reads sees one state, and reply `i` answers command `i`. */
  lemma {:induction false} ReadsSeeOneState(db: Db, cmds: seq<Command>)
    requires forall i :: 0 <= i < |cmds| ==> ReadOnly(cmds[i])
    ensures ExecDb(db, cmds) == db
    ensures forall i :: 0 <= i < |cmds| ==> ExecReplies(db, cmds)[i] == Answer(db, cmds[i])
    decreases cmds
  {
    if cmds != [] {
      assert ReadOnly(cmds[0]);
      forall i | 0 <= i < |cmds[1..]| ensures ReadOnly(cmds[1..][i]) { assert cmds[1..][i] == cmds[i + 1]; }
      ReadsSeeOneState(db, cmds[1..]);
      forall i | 0 < i < |cmds| ensures ExecReplies(db, cmds)[i] == Answer(db, cmds[i]) {
        assert cmds[i] == cmds[1..][i - 1];
      }
    }
  }

  /** Nobody can tell whether an expired entry was evicted yet: it reads as absent either way. */
  lemma EvictionIsInvisible(db: Db, keys: set<Key>, k: Key)
    ensures
      var after := db.Evict(keys);
      && after.Live(k) == db.Live(k) && after.Fields(k) == db.Fields(k) && after.Items(k) == db.Items(k)
      && after.Expiry(k) == db.Expiry(k) && after.SetNx(k, "", 1).1 == db.SetNx(k, "", 1).1
      && after.Accepts(k, true) == db.Accepts(k, true) && after.Accepts(k, false) == db.Accepts(k, false)
  {
  }

  /** An entry lives exactly as long as it was given, and an expired one reads as absent. */
  lemma LifetimeIsExact(db: Db, k: Key, seconds: int, text: string, ttlMs: int, ms: nat)
    ensures db.Live(k) ==> (db.Expire(k, seconds).Advance(ms).Live(k) <==> ms < 1000 * seconds)
    ensures db.SetNx(k, text, ttlMs).1 <==> !db.Live(k)
    ensures !db.Live(k) ==> (db.SetNx(k, text, ttlMs).0.Advance(ms).Live(k) <==> ms < ttlMs)
    ensures !db.Live(k) ==> db.Fields(k) == map[] && db.Items(k) == [] && db.SetNx(k, text, ttlMs).1
  {
  }

  /** The connection to one server. A pipeline runs as one step. */
  class Server {
    var db: Db

    constructor ()
      ensures db == EMPTY
    {
      db := EMPTY;
    }

    method Exec(cmds: seq<Command>) returns (replies: seq<Reply>)
      modifies this
      ensures db == ExecDb(old(db), cmds)
      ensures replies == ExecReplies(old(db), cmds)
    {
      replies := [];
      var i := 0;
      while i < |cmds|
        invariant 0 <= i <= |cmds|
        invariant ExecDb(db, cmds[i..]) == ExecDb(old(db), cmds)
        invariant replies + ExecReplies(db, cmds[i..]) == ExecReplies(old(db), cmds)
      {
        assert cmds[i..][0] == cmds[i] && cmds[i..][1..] == cmds[i + 1..];
        replies := replies + [Answer(db, cmds[i])];
        db := Effect(db, cmds[i]);
        i := i + 1;
      }
    }

    method HGetAll(k: Key) returns (fields: map<Field, string>)
      ensures fields == db.Fields(k)
    {
      fields := db.Fields(k);
    }

    method HSet(k: Key, fields: map<Field, string>)
      modifies this
      ensures db == old(db).HSet(k, fields)
    {
      db := db.HSet(k, fields);
    }

    method SetNx(k: Key, text: string, ttlMs: int) returns (ok: bool)
      modifies this
      ensures (db, ok) == old(db).SetNx(k, text, ttlMs)
    {
      var r := db.SetNx(k, text, ttlMs);
      db, ok := r.0, r.1;
    }

    method Del(k: Key)
      modifies this
      ensures db == old(db).Del(k)
    {
      db := db.Del(k);
    }
  }
}
