/** The metrics buckets that `processEvent` keeps in Redis, and the plain event log they must agree with. */
module MetricsModel {
  import opened Wrappers
  import opened RedisStore

  const MINUTE := 60_000
  const HOUR := 3_600_000
  const DAY := 86_400_000
  const ACTIVE_WINDOW_MINUTES: nat := 5
  const ACTIVITY_TTL: nat := 3600
  const TOTAL_EVENTS := "total_events"
  const CONVERSION_EVENTS := {"purchase", "signup", "subscribe"}
  const MOCK_COUNTRIES := ["United States", "United Kingdom", "Canada", "Germany", "France"]

  /** The parsed payload; every member may be missing, and a payload that does not parse has none. */
  datatype Payload = Payload(
    userId: Option<string>, sessionId: Option<string>, country: Option<string>,
    device: Option<string>, referrer: Option<string>)

  /** An event request. `timestamp` is `None` when it is not a valid date; `pick` is the random draw
      behind the mock country lookup. */
  datatype Request = Request(eventName: string, timestamp: Option<int>, payload: Payload, pick: nat)

  /** A request whose timestamp is a valid date: the only ones that are recorded. */
  type Event = r: Request | r.timestamp.Some?
    witness Request("", Some(0), Payload(None, None, None, None, None), 0)

  /** An event together with the time at which it was processed. */
  datatype Logged = Logged(at: int, event: Event)

  /** JavaScript's `o || otherwise`: a missing or empty string yields the default. */
  function OrElse(o: Option<string>, otherwise: string): string {
    if o.Some? && o.value != "" then o.value else otherwise
  }

  predicate HasSession(ev: Event) {
    ev.payload.sessionId.Some? && ev.payload.sessionId.value != ""
  }

  function User(ev: Event): string {
    OrElse(ev.payload.userId, "anonymous")
  }

  function Country(ev: Event): string {
    OrElse(ev.payload.country, MOCK_COUNTRIES[ev.pick % 5])
  }

  // ----- Keys -----

  datatype Dim =
    | Volume | VolumeHour | VolumeDay
    | Users | Sessions | Conversions
    | EventTypes | Countries | Devices | Referrers
    | ResponseTimes

  datatype Key = LastActivity | Bucket(dim: Dim, n: int)

  /** The dimensions in the order in which `processEvent` writes them. */
  const ALL_DIMS: seq<Dim> := [Volume, VolumeHour, VolumeDay, Users, Sessions, Conversions,
                               EventTypes, Countries, Devices, Referrers, ResponseTimes]

  /** The width of a dimension's buckets, in milliseconds. */
  function Unit(dim: Dim): (u: int)
    ensures u > 0
  {
    match dim
    case VolumeHour => HOUR
    case VolumeDay => DAY
    case _ => MINUTE
  }

  function TtlSeconds(dim: Dim): nat {
    match dim
    case VolumeHour => 3600
    case VolumeDay => 86400
    case ResponseTimes => 3600
    case _ => (ACTIVE_WINDOW_MINUTES + 2) * 60
  }

  function Ttl(k: Key): int {
    match k
    case LastActivity => ACTIVITY_TTL * 1000
    case Bucket(dim, _) => TtlSeconds(dim) * 1000
  }

  predicate IsSetDim(dim: Dim) {
    dim == Users || dim == Sessions
  }

  /** The counters an event increments, or the members it adds, in one bucket of a dimension. */
  function Added(dim: Dim, ev: Event): seq<string> {
    match dim
    case Volume => [TOTAL_EVENTS, ev.eventName]
    case VolumeHour => [TOTAL_EVENTS, ev.eventName]
    case VolumeDay => [TOTAL_EVENTS]
    case Users => [User(ev)]
    case Sessions => if HasSession(ev) then [ev.payload.sessionId.value] else []
    case Conversions => if ev.eventName in CONVERSION_EVENTS then [ev.eventName] else []
    case EventTypes => [ev.eventName]
    case Countries => [Country(ev)]
    case Devices => [OrElse(ev.payload.device, "unknown")]
    case Referrers => [OrElse(ev.payload.referrer, "Direct")]
    case ResponseTimes => []
  }

  function Fields(dim: Dim, ev: Event): multiset<string> {
    multiset(Added(dim, ev))
  }

  // ----- Commands -----

  function AddOp(dim: Dim, f: string): Op {
    if IsSetDim(dim) then SAdd(f) else HIncrBy(f, 1)
  }

  function Adds(dim: Dim, fs: seq<string>): seq<Op> {
    if fs == [] then [] else [AddOp(dim, fs[0])] + Adds(dim, fs[1..])
  }

  /** The commands `processEvent` sends for one dimension: the writes, then the refresh of the time-to-live. */
  function DimOps(dim: Dim, at: int, ev: Event): seq<Op> {
    var refresh := [Expire(TtlSeconds(dim))];
    if dim == ResponseTimes then [LPush(at - ev.timestamp.value), LTrim(99)] + refresh
    else if Added(dim, ev) == [] then []
    else Adds(dim, Added(dim, ev)) + refresh
  }

  function OnKey<K>(k: K, ops: seq<Op>): (cs: seq<Command<K>>)
    ensures |cs| == |ops|
  {
    if ops == [] then [] else [Command(k, ops[0])] + OnKey(k, ops[1..])
  }

  function DimCommands(dims: seq<Dim>, at: int, ev: Event): seq<Command<Key>> {
    if dims == [] then []
    else OnKey(Bucket(dims[0], at / Unit(dims[0])), DimOps(dims[0], at, ev)) + DimCommands(dims[1..], at, ev)
  }

  /** All the commands of one `processEvent` call at time `at`, in order. */
  function EventCommands(at: int, ev: Event): seq<Command<Key>> {
    [Command(LastActivity, SetEx(ACTIVITY_TTL, Stamp(at)))] + DimCommands(ALL_DIMS, at, ev)
  }

  lemma {:induction false} OpsForOnKey(k: Key, k': Key, ops: seq<Op>)
    ensures OpsFor(k, OnKey(k', ops)) == if k == k' then ops else []
  {
    if ops != [] {
      OpsForOnKey(k, k', ops[1..]);
      assert OnKey(k', ops)[1..] == OnKey(k', ops[1..]);
    }
  }

  ghost predicate Distinct<T>(s: seq<T>) {
    forall i, j | 0 <= i < j < |s| :: s[i] != s[j]
  }

  lemma {:induction false} OpsForDims(k: Key, dims: seq<Dim>, at: int, ev: Event)
    requires Distinct(dims)
    ensures OpsFor(k, DimCommands(dims, at, ev)) ==
            if k.Bucket? && k.dim in dims && k.n == at / Unit(k.dim) then DimOps(k.dim, at, ev) else []
  {
    if dims != [] {
      var d := dims[0];
      OpsForDims(k, dims[1..], at, ev);
      OpsForConcat(k, OnKey(Bucket(d, at / Unit(d)), DimOps(d, at, ev)), DimCommands(dims[1..], at, ev));
      OpsForOnKey(k, Bucket(d, at / Unit(d)), DimOps(d, at, ev));
    }
  }

  lemma AllDims(d: Dim)
    ensures d in ALL_DIMS && Distinct(ALL_DIMS)
  {
    assert ALL_DIMS[0] == Volume && ALL_DIMS[1] == VolumeHour && ALL_DIMS[2] == VolumeDay;
    assert ALL_DIMS[3] == Users && ALL_DIMS[4] == Sessions && ALL_DIMS[5] == Conversions;
    assert ALL_DIMS[6] == EventTypes && ALL_DIMS[7] == Countries && ALL_DIMS[8] == Devices;
    assert ALL_DIMS[9] == Referrers && ALL_DIMS[10] == ResponseTimes;
  }

  /** What one event does to one key. */
  function KeyOps(k: Key, at: int, ev: Event): seq<Op> {
    match k
    case LastActivity => [SetEx(ACTIVITY_TTL, Stamp(at))]
    case Bucket(dim, n) => if n == at / Unit(dim) then DimOps(dim, at, ev) else []
  }

  lemma OpsForEvent(k: Key, at: int, ev: Event)
    ensures OpsFor(k, EventCommands(at, ev)) == KeyOps(k, at, ev)
  {
    var activity := [Command(LastActivity, SetEx(ACTIVITY_TTL, Stamp(at)))];
    var rest := DimCommands(ALL_DIMS, at, ev);
    OpsForConcat(k, activity, rest);
    AllDims(if k.Bucket? then k.dim else Volume);
    OpsForDims(k, ALL_DIMS, at, ev);
    assert OpsFor(k, activity) == if k.LastActivity? then [SetEx(ACTIVITY_TTL, Stamp(at))] else [] by {
      assert activity[1..] == [];
    }
  }

  // ----- Recounting the log -----

  /** Everything a dimension's buckets `lo..hi` should hold, recounted from the log. */
  function Gather(dim: Dim, log: seq<Logged>, lo: int, hi: int): multiset<string> {
    if log == [] then multiset{}
    else
      var x := log[|log| - 1];
      var before := Gather(dim, log[..|log| - 1], lo, hi);
      if lo <= x.at / Unit(dim) <= hi then before + Fields(dim, x.event) else before
  }

  /** The response times recorded in one minute, newest first. */
  function Latencies(log: seq<Logged>, n: int): seq<int> {
    if log == [] then []
    else
      var x := log[|log| - 1];
      var before := Latencies(log[..|log| - 1], n);
      if x.at / MINUTE == n then [x.at - x.event.timestamp.value] + before else before
  }

  predicate Touches(k: Key, x: Logged) {
    match k
    case LastActivity => true
    case Bucket(dim, n) => x.at / Unit(dim) == n && (Fields(dim, x.event) != multiset{} || dim == ResponseTimes)
  }

  /** When the log last wrote a key. */
  function LastTouch(k: Key, log: seq<Logged>): Option<int> {
    if log == [] then None
    else if Touches(k, log[|log| - 1]) then Some(log[|log| - 1].at)
    else LastTouch(k, log[..|log| - 1])
  }

  function HashOf(ms: multiset<string>): map<string, int> {
    map f | f in ms :: ms[f]
  }

  function Support(ms: multiset<string>): set<string> {
    set f | f in ms
  }

  function Encode(dim: Dim, ms: multiset<string>): Value {
    if IsSetDim(dim) then Members(Support(ms)) else Hash(HashOf(ms))
  }

  function Contents(k: Key, log: seq<Logged>, last: int): Value {
    match k
    case LastActivity => String(Stamp(last))
    case Bucket(dim, n) =>
      if dim == ResponseTimes then List(Take(Latencies(log, n), 100))
      else Encode(dim, Gather(dim, log, n, n))
  }

  /** The entry a key would have if nothing ever expired before its last write's time-to-live ran out. */
  function Ideal(k: Key, log: seq<Logged>): Option<Entry> {
    match LastTouch(k, log)
    case None => None
    case Some(t) => Some(Entry(Contents(k, log, t), Some(t + Ttl(k))))
  }

  // ----- The system -----

  datatype State = State(now: int, store: map<Key, Entry>, log: seq<Logged>)

  datatype Step =
    | Process(request: Request)
    | Advance(ms: nat)
    | Reclaim(key: Key)

  function Next(s: State, step: Step): State {
    match step
    case Process(r) =>
      if r.timestamp.None? then s
      else State(s.now, ExecAll(s.store, s.now, EventCommands(s.now, r)), s.log + [Logged(s.now, r)])
    case Advance(ms) => s.(now := s.now + ms)
    case Reclaim(k) =>
      if k in s.store && Expired(s.store[k], s.now) then s.(store := s.store - {k}) else s
  }

  function Run(s: State, steps: seq<Step>): State
    decreases |steps|
  {
    if steps == [] then s else Run(Next(s, steps[0]), steps[1..])
  }

  function Start(now: int): State {
    State(now, map[], [])
  }

  // ----- Agreement -----

  ghost predicate Ordered(log: seq<Logged>, now: int) {
    && (forall i, j | 0 <= i < j < |log| :: log[i].at <= log[j].at)
    && (forall i | 0 <= i < |log| :: log[i].at <= now)
  }

  /** A stored entry is exactly what the log says, and an entry that is missing may be missing. */
  ghost predicate KeyAgrees(s: State, k: Key) {
    match Ideal(k, s.log)
    case None => k !in s.store
    case Some(e) => if k in s.store then s.store[k] == e else Expired(e, s.now)
  }

  ghost predicate Agrees(s: State) {
    Ordered(s.log, s.now) && forall k :: KeyAgrees(s, k)
  }

  lemma GatherAppend(dim: Dim, log: seq<Logged>, x: Logged, lo: int, hi: int)
    ensures Gather(dim, log + [x], lo, hi) ==
            if lo <= x.at / Unit(dim) <= hi then Gather(dim, log, lo, hi) + Fields(dim, x.event)
            else Gather(dim, log, lo, hi)
  {
    assert (log + [x])[..|log|] == log;
  }

  lemma LatenciesAppend(log: seq<Logged>, x: Logged, n: int)
    ensures Latencies(log + [x], n) ==
            if x.at / MINUTE == n then [x.at - x.event.timestamp.value] + Latencies(log, n) else Latencies(log, n)
  {
    assert (log + [x])[..|log|] == log;
  }

  lemma LastTouchAppend(k: Key, log: seq<Logged>, x: Logged)
    ensures LastTouch(k, log + [x]) == if Touches(k, x) then Some(x.at) else LastTouch(k, log)
  {
    assert (log + [x])[..|log|] == log;
  }

  /** A last touch is an event of the log that fell into the bucket. */
  lemma {:induction false} LastTouchInLog(k: Key, log: seq<Logged>) returns (i: nat)
    requires LastTouch(k, log).Some?
    ensures i < |log| && Touches(k, log[i]) && log[i].at == LastTouch(k, log).value
  {
    var n := |log| - 1;
    if Touches(k, log[n]) {
      i := n;
    } else {
      i := LastTouchInLog(k, log[..n]);
    }
  }

  lemma SameBucket(a: int, b: int, u: int)
    requires u > 0 && a / u == b / u
    ensures a - b < u
  {
  }

  /** Every time-to-live covers its own bucket, so no bucket expires while it is still being written. */
  lemma StillLive(s: State, k: Key)
    requires Ordered(s.log, s.now) && Ideal(k, s.log).Some?
    requires k.Bucket? && s.now / Unit(k.dim) == k.n
    ensures !Expired(Ideal(k, s.log).value, s.now)
  {
    var i := LastTouchInLog(k, s.log);
    SameBucket(s.now, s.log[i].at, Unit(k.dim));
  }

  lemma UntouchedIsEmpty(dim: Dim, n: int, log: seq<Logged>)
    requires LastTouch(Bucket(dim, n), log).None?
    ensures Gather(dim, log, n, n) == multiset{}
    ensures dim == ResponseTimes ==> Latencies(log, n) == []
  {
  }

  // ----- One event on one key -----

  /** `e` is the entry of a bucket that counts, or collects, the elements of `ms`. */
  ghost predicate Holds(dim: Dim, e: Option<Entry>, ms: multiset<string>) {
    match e
    case None => ms == multiset{}
    case Some(entry) => entry.value == Encode(dim, ms)
  }

  lemma AddOne(dim: Dim, e: Option<Entry>, ms: multiset<string>, now: int, f: string)
    requires Holds(dim, e, ms)
    ensures var r := Perform(e, now, AddOp(dim, f));
            && Holds(dim, r, ms + multiset{f})
            && r.Some?
            && r.value.expiresAt == if e.Some? then e.value.expiresAt else None
  {
    if IsSetDim(dim) {
      assert Support(ms + multiset{f}) == Support(ms) + {f};
    } else {
      assert HashOf(ms + multiset{f}) == HashOf(ms)[f := FieldOr0(HashOf(ms), f) + 1];
    }
  }

  lemma {:induction false} PerformConcat(e: Option<Entry>, now: int, a: seq<Op>, b: seq<Op>)
    ensures PerformAll(e, now, a + b) == PerformAll(PerformAll(e, now, a), now, b)
    decreases |a|
  {
    if a == [] {
      assert a + b == b;
    } else {
      assert (a + b)[1..] == a[1..] + b;
      PerformConcat(Perform(e, now, a[0]), now, a[1..], b);
    }
  }

  lemma MultisetCons<T>(s: seq<T>)
    requires s != []
    ensures multiset(s) == multiset{s[0]} + multiset(s[1..])
  {
    assert s == [s[0]] + s[1..];
  }

  lemma {:induction false} AddMany(dim: Dim, e: Option<Entry>, ms: multiset<string>, now: int, fs: seq<string>)
    requires Holds(dim, e, ms)
    ensures Holds(dim, PerformAll(e, now, Adds(dim, fs)), ms + multiset(fs))
    ensures e.Some? || fs != [] ==> PerformAll(e, now, Adds(dim, fs)).Some?
    decreases |fs|
  {
    if fs != [] {
      AddOne(dim, e, ms, now, fs[0]);
      var e' := Perform(e, now, AddOp(dim, fs[0]));
      AddMany(dim, e', ms + multiset{fs[0]}, now, fs[1..]);
      assert Adds(dim, fs)[1..] == Adds(dim, fs[1..]);
      MultisetCons(fs);
      assert ms + multiset(fs) == ms + multiset{fs[0]} + multiset(fs[1..]);
    }
  }

  /** An event's commands turn a bucket that holds `ms` into one that also holds the event's fields. */
  lemma CounterOps(dim: Dim, e: Option<Entry>, ms: multiset<string>, at: int, ev: Event)
    requires dim != ResponseTimes && Added(dim, ev) != [] && Holds(dim, e, ms)
    ensures PerformAll(e, at, DimOps(dim, at, ev)) ==
            Some(Entry(Encode(dim, ms + Fields(dim, ev)), Some(at + TtlSeconds(dim) * 1000)))
  {
    AddMany(dim, e, ms, at, Added(dim, ev));
    PerformConcat(e, at, Adds(dim, Added(dim, ev)), [Expire(TtlSeconds(dim))]);
  }

  lemma LatencyOps(e: Option<Entry>, all: seq<int>, at: int, ev: Event)
    requires if e.Some? then e.value.value == List(Take(all, 100)) else all == []
    ensures PerformAll(e, at, DimOps(ResponseTimes, at, ev)) ==
            Some(Entry(List(Take([at - ev.timestamp.value] + all, 100)), Some(at + TtlSeconds(ResponseTimes) * 1000)))
  {
    var latency := at - ev.timestamp.value;
    var refresh := [Expire(TtlSeconds(ResponseTimes))];
    PerformConcat(e, at, [LPush(latency), LTrim(99)], refresh);
    PerformConcat(e, at, [LPush(latency)], [LTrim(99)]);
    assert Take([latency] + Take(all, 100), 100) == Take([latency] + all, 100);
    assert [latency] == Take([latency] + [], 100);
  }

  lemma IdealHolds(log: seq<Logged>, dim: Dim, n: int)
    requires dim != ResponseTimes
    ensures Holds(dim, Ideal(Bucket(dim, n), log), Gather(dim, log, n, n))
  {
    if LastTouch(Bucket(dim, n), log).None? {
      UntouchedIsEmpty(dim, n, log);
    }
  }

  lemma AddedTouches(x: Logged, dim: Dim, n: int)
    requires Added(dim, x.event) != [] && n == x.at / Unit(dim)
    ensures Touches(Bucket(dim, n), x)
  {
    assert Added(dim, x.event)[0] in Fields(dim, x.event);
  }

  lemma IdealBucket(log: seq<Logged>, dim: Dim, n: int, last: int, ms: multiset<string>)
    requires dim != ResponseTimes && LastTouch(Bucket(dim, n), log) == Some(last) && Gather(dim, log, n, n) == ms
    ensures Ideal(Bucket(dim, n), log) == Some(Entry(Encode(dim, ms), Some(last + TtlSeconds(dim) * 1000)))
  {
  }

  lemma TouchedIdeal(log: seq<Logged>, x: Logged, dim: Dim, n: int)
    requires dim != ResponseTimes && Touches(Bucket(dim, n), x)
    ensures Ideal(Bucket(dim, n), log + [x]) ==
            Some(Entry(Encode(dim, Gather(dim, log, n, n) + Fields(dim, x.event)), Some(x.at + TtlSeconds(dim) * 1000)))
  {
    GatherAppend(dim, log, x, n, n);
    LastTouchAppend(Bucket(dim, n), log, x);
    IdealBucket(log + [x], dim, n, x.at, Gather(dim, log, n, n) + Fields(dim, x.event));
  }

  /** One event's commands on a bucket of its own time take it from what the log so far says to what the
      log with the event says. */
  lemma EventOnCounters(log: seq<Logged>, at: int, dim: Dim, ev: Event)
    requires dim != ResponseTimes && Added(dim, ev) != []
    ensures var k := Bucket(dim, at / Unit(dim));
            PerformAll(Ideal(k, log), at, DimOps(dim, at, ev)) == Ideal(k, log + [Logged(at, ev)])
  {
    var n := at / Unit(dim);
    IdealHolds(log, dim, n);
    CounterOps(dim, Ideal(Bucket(dim, n), log), Gather(dim, log, n, n), at, ev);
    AddedTouches(Logged(at, ev), dim, n);
    TouchedIdeal(log, Logged(at, ev), dim, n);
  }

  lemma {:induction false} EventOnLatencies(log: seq<Logged>, at: int, ev: Event)
    ensures var k := Bucket(ResponseTimes, at / MINUTE);
            PerformAll(Ideal(k, log), at, DimOps(ResponseTimes, at, ev)) == Ideal(k, log + [Logged(at, ev)])
  {
    var n := at / MINUTE;
    var k, x := Bucket(ResponseTimes, n), Logged(at, ev);
    if LastTouch(k, log).None? {
      UntouchedIsEmpty(ResponseTimes, n, log);
    }
    LatencyOps(Ideal(k, log), Latencies(log, n), at, ev);
    LatenciesAppend(log, x, n);
    LastTouchAppend(k, log, x);
  }

  lemma UntouchedIdeal(k: Key, log: seq<Logged>, x: Logged)
    requires !Touches(k, x)
    ensures Ideal(k, log + [x]) == Ideal(k, log)
  {
    LastTouchAppend(k, log, x);
    if k.Bucket? {
      if k.dim == ResponseTimes {
        LatenciesAppend(log, x, k.n);
      } else {
        GatherAppend(k.dim, log, x, k.n, k.n);
        assert Gather(k.dim, log + [x], k.n, k.n) == Gather(k.dim, log, k.n, k.n);
      }
    }
  }

  lemma EventOnActivity(s: State, e: Option<Entry>, ev: Event)
    ensures PerformAll(e, s.now, [SetEx(ACTIVITY_TTL, Stamp(s.now))]) == Ideal(LastActivity, s.log + [Logged(s.now, ev)])
  {
    LastTouchAppend(LastActivity, s.log, Logged(s.now, ev));
  }

  lemma TouchesIffOps(k: Key, at: int, ev: Event)
    ensures Touches(k, Logged(at, ev)) <==> KeyOps(k, at, ev) != []
  {
    if k.Bucket? && Added(k.dim, ev) != [] {
      assert Added(k.dim, ev)[0] in Fields(k.dim, ev);
    }
  }

  lemma {:induction false} EventOnKey(s: State, k: Key, ev: Event)
    requires Agrees(s)
    ensures KeyAgrees(Next(s, Process(ev)), k)
  {
    var x, e := Logged(s.now, ev), Live(s.store, k, s.now);
    assert KeyAgrees(s, k);
    OpsForEvent(k, s.now, ev);
    KeyProjection(s.store, s.now, EventCommands(s.now, ev), k);
    TouchesIffOps(k, s.now, ev);
    if !Touches(k, x) {
      UntouchedIdeal(k, s.log, x);
    } else if k.LastActivity? {
      EventOnActivity(s, e, ev);
    } else {
      if Ideal(k, s.log).Some? {
        StillLive(s, k);
      }
      assert e == Ideal(k, s.log);
      if k.dim == ResponseTimes {
        EventOnLatencies(s.log, s.now, ev);
      } else {
        EventOnCounters(s.log, s.now, k.dim, ev);
      }
    }
  }

  lemma StepAgrees(s: State, step: Step)
    requires Agrees(s)
    ensures Agrees(Next(s, step))
  {
    var s' := Next(s, step);
    forall k ensures KeyAgrees(s', k) {
      assert KeyAgrees(s, k);
      if step.Process? && step.request.timestamp.Some? {
        EventOnKey(s, k, step.request);
      }
    }
  }

  /** Safety over whole runs: whatever is processed, however the clock advances and whichever dead keys
      Redis reclaims, every key holds exactly what the log says, or has outlived its time-to-live. */
  lemma {:induction false} RunAgrees(s: State, steps: seq<Step>)
    requires Agrees(s)
    ensures Agrees(Run(s, steps))
    decreases |steps|
  {
    if steps != [] {
      StepAgrees(s, steps[0]);
      RunAgrees(Next(s, steps[0]), steps[1..]);
    }
  }

  lemma StartAgrees(now: int)
    ensures Agrees(Start(now))
  {
  }
}
