/** A Redis keyspace as a map from keys to values with an optional expiry time in milliseconds.
    The key type is a parameter: the same commands run on the flat keyspace of names and on typed keys. */
module RedisStore {
  import opened Wrappers

  /** A string value, by what it says: an activity time, the id of a refresh token or the hash of a code. */
  datatype Text = Stamp(at: int) | TokenId(id: nat) | OtpHash(hash: string)

  datatype Value =
    | Hash(fields: map<string, int>)
    | Members(elems: set<string>)
    | List(items: seq<int>)
    | String(text: Text)

  datatype Entry = Entry(value: Value, expiresAt: Option<int>)

  datatype Op =
    | HIncrBy(field: string, amount: int)
    | SAdd(member: string)
    | LPush(item: int)
    | LTrim(stop: nat)
    | Expire(seconds: nat)
    | Set(text: Text)
    | SetEx(ttl: nat, text: Text)
    | Del

  datatype Command<K> = Command(key: K, op: Op)

  /** A key is gone once the clock has passed its expiry time, whether or not Redis has reclaimed it yet. */
  predicate Expired(e: Entry, now: int) {
    e.expiresAt.Some? && e.expiresAt.value < now
  }

  function Raw<K>(store: map<K, Entry>, k: K): Option<Entry> {
    if k in store then Some(store[k]) else None
  }

  function Filter(e: Option<Entry>, now: int): Option<Entry> {
    if e.Some? && Expired(e.value, now) then None else e
  }

  /** What a command sees under `k` at time `now`. */
  function Live<K>(store: map<K, Entry>, k: K, now: int): Option<Entry> {
    Filter(Raw(store, k), now)
  }

  function Take<T>(s: seq<T>, n: nat): seq<T> {
    if |s| <= n then s else s[..n]
  }

  function FieldOr0(h: map<string, int>, f: string): int {
    if f in h then h[f] else 0
  }

  /** One command on the live entry of its key. A command on a value of another type fails and changes nothing. */
  function Perform(e: Option<Entry>, now: int, op: Op): (r: Option<Entry>)
    ensures Filter(e, now) == e ==> Filter(r, now) == r
  {
    match op
    case HIncrBy(f, amount) => (
      match e
      case None => Some(Entry(Hash(map[f := amount]), None))
      case Some(Entry(Hash(h), x)) => Some(Entry(Hash(h[f := FieldOr0(h, f) + amount]), x))
      case Some(_) => e)
    case SAdd(m) => (
      match e
      case None => Some(Entry(Members({m}), None))
      case Some(Entry(Members(s), x)) => Some(Entry(Members(s + {m}), x))
      case Some(_) => e)
    case LPush(i) => (
      match e
      case None => Some(Entry(List([i]), None))
      case Some(Entry(List(l), x)) => Some(Entry(List([i] + l), x))
      case Some(_) => e)
    case LTrim(stop) => (
      match e
      case Some(Entry(List(l), x)) => Some(Entry(List(Take(l, stop + 1)), x))
      case _ => e)
    case Expire(seconds) => (
      match e
      case None => None
      case Some(Entry(v, _)) => Some(Entry(v, Some(now + seconds * 1000))))
    case Set(text) => Some(Entry(String(text), None))
    case SetEx(seconds, text) => Some(Entry(String(text), Some(now + seconds * 1000)))
    case Del => None
  }

  function PerformAll(e: Option<Entry>, now: int, ops: seq<Op>): Option<Entry>
    decreases |ops|
  {
    if ops == [] then e else PerformAll(Perform(e, now, ops[0]), now, ops[1..])
  }

  /** Runs a command, reclaiming an expired entry on access as Redis does. */
  function Exec<K>(store: map<K, Entry>, now: int, c: Command<K>): map<K, Entry> {
    match Perform(Live(store, c.key, now), now, c.op)
    case Some(e) => store[c.key := e]
    case None => store - {c.key}
  }

  function ExecAll<K>(store: map<K, Entry>, now: int, cs: seq<Command<K>>): map<K, Entry>
    decreases |cs|
  {
    if cs == [] then store else ExecAll(Exec(store, now, cs[0]), now, cs[1..])
  }

  /** The commands of `cs` on key `k`, in order. */
  function OpsFor<K(==)>(k: K, cs: seq<Command<K>>): seq<Op> {
    if cs == [] then []
    else (if cs[0].key == k then [cs[0].op] else []) + OpsFor(k, cs[1..])
  }

  lemma OpsForConcat<K>(k: K, a: seq<Command<K>>, b: seq<Command<K>>)
    ensures OpsFor(k, a + b) == OpsFor(k, a) + OpsFor(k, b)
  {
    if a == [] {
      assert a + b == b;
    } else {
      assert (a + b)[1..] == a[1..] + b;
    }
  }

  lemma ExecAllConcat<K>(store: map<K, Entry>, now: int, a: seq<Command<K>>, b: seq<Command<K>>)
    ensures ExecAll(store, now, a + b) == ExecAll(ExecAll(store, now, a), now, b)
    decreases |a|
  {
    if a == [] {
      assert a + b == b;
    } else {
      assert (a + b)[1..] == a[1..] + b;
      ExecAllConcat(Exec(store, now, a[0]), now, a[1..], b);
    }
  }

  /** Commands on other keys do not disturb `k`: its entry is the result of its own commands alone. */
  lemma {:induction false} KeyProjection<K>(store: map<K, Entry>, now: int, cs: seq<Command<K>>, k: K)
    ensures Live(ExecAll(store, now, cs), k, now) == PerformAll(Live(store, k, now), now, OpsFor(k, cs))
    ensures OpsFor(k, cs) == [] ==> Raw(ExecAll(store, now, cs), k) == Raw(store, k)
    ensures OpsFor(k, cs) != [] ==> Raw(ExecAll(store, now, cs), k) == PerformAll(Live(store, k, now), now, OpsFor(k, cs))
    decreases |cs|
  {
    if cs != [] {
      var next := Exec(store, now, cs[0]);
      KeyProjection(next, now, cs[1..], k);
      if cs[0].key == k {
        assert Live(next, k, now) == Raw(next, k) == Perform(Live(store, k, now), now, cs[0].op);
        assert OpsFor(k, cs)[1..] == OpsFor(k, cs[1..]);
      } else {
        assert Raw(next, k) == Raw(store, k);
        assert OpsFor(k, cs) == OpsFor(k, cs[1..]);
      }
    }
  }

  /** A Redis server: the flat keyspace of names, and the clock by which keys expire. */
  class RedisClient {
    var store: map<string, Entry>
    var now: int

    constructor (now: int)
      ensures store == map[] && this.now == now
    {
      store := map[];
      this.now := now;
    }

    method Send(key: string, op: Op)
      modifies this`store
      ensures store == Exec(old(store), now, Command(key, op))
    {
      var result := Perform(Live(store, key, now), now, op);
      if result.Some? {
        store := store[key := result.value];
      } else {
        store := store - {key};
      }
    }
  }
}
