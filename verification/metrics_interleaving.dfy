/** Several `processEvent` calls at once: their Redis commands interleave one by one, over whole runs. */
module MetricsInterleaving {
  import opened Wrappers
  import opened RedisStore
  import opened MetricsModel
  import opened MetricsCommands
  import opened MetricsWindow

  // ----- The system -----

  /** The commands that have been sent and not executed yet are `pending`. `executed` and `expired` are bookkeeping:
      the commands executed so far, in order, and the keys that have been found dead at some time. */
  datatype System = System(now: int, store: map<Key, Entry>, log: seq<Logged>, pending: seq<Command<Key>>,
                           executed: seq<Command<Key>>, expired: set<Key>)

  /** A call begins, Redis executes any one of the pending commands, time passes, or Redis reclaims a dead key. */
  datatype Action =
    | Call(request: Request)
    | Execute(command: nat)
    | Wait(ms: nat)
    | Evict(key: Key)

  function Dead(store: map<Key, Entry>, now: int): set<Key> {
    set k | k in store && Expired(store[k], now)
  }

  function Act(s: System, a: Action): System {
    match a
    case Call(r) =>
      if r.timestamp.None? then s
      else s.(log := s.log + [Logged(s.now, r)], pending := s.pending + EventCommands(s.now, r))
    case Execute(j) =>
      if j >= |s.pending| then s
      else s.(store := Exec(s.store, s.now, s.pending[j]), pending := s.pending[..j] + s.pending[j + 1..],
              executed := s.executed + [s.pending[j]])
    case Wait(ms) => s.(now := s.now + ms, expired := s.expired + Dead(s.store, s.now + ms))
    case Evict(k) =>
      if k in s.store && Expired(s.store[k], s.now) then s.(store := s.store - {k}) else s
  }

  function ActAll(s: System, actions: seq<Action>): System
    decreases |actions|
  {
    if actions == [] then s else ActAll(Act(s, actions[0]), actions[1..])
  }

  /** What has become of a key that the log touched: it has outlived its last time-to-live. */
  predicate Outlived(s: State, k: Key) {
    Ideal(k, s.log).Some? && Expired(Ideal(k, s.log).value, s.now)
  }

  function OutlivedKeys(s: State): set<Key> {
    set i, dim | 0 <= i < |s.log| && dim in ALL_DIMS && Outlived(s, Bucket(dim, s.log[i].at / Unit(dim))) ::
      Bucket(dim, s.log[i].at / Unit(dim))
  }

  /** Concurrent calls take over from a state in which calls have run one after another. */
  function Resume(s: State): System {
    System(s.now, s.store, s.log, [], CommandsOfCalls(s.log), OutlivedKeys(s))
  }

  // ----- What every run keeps -----

  /** No bucket can expire before this time: all its commands run after it has begun, and renew its life. */
  function Deadline(dim: Dim, n: int): int {
    n * Unit(dim) + TtlSeconds(dim) * 1000
  }

  ghost predicate Fresh(e: Option<Entry>, now: int) {
    e.Some? ==> !Expired(e.value, now)
  }

  ghost predicate HoldsPushes(e: Option<Entry>, pushed: seq<int>) {
    match e
    case None => pushed == []
    case Some(entry) => entry.value.List? && Take(entry.value.items, 100) == Take(pushed, 100)
  }

  /** An entry is exactly what the executed commands make of it. */
  ghost predicate Reflects(dim: Dim, n: int, e: Option<Entry>, executed: seq<Command<Key>>) {
    if dim == ResponseTimes then HoldsPushes(e, PushedBy(n, executed)) else Holds(dim, e, AddedBy(dim, n, executed))
  }

  /** An entry counts and collects no more than `ms`. */
  ghost predicate Within(e: Option<Entry>, ms: multiset<string>) {
    e.Some? ==>
      && (e.value.value.Hash? ==> forall f | f in e.value.value.fields :: e.value.value.fields[f] <= ms[f])
      && (e.value.value.Members? ==> forall f | f in e.value.value.elems :: f in ms)
  }

  /** An entry that will expire does not before the deadline. */
  predicate Lasts(e: Option<Entry>, deadline: int) {
    e.Some? && e.value.expiresAt.Some? ==> deadline <= e.value.expiresAt.value
  }

  ghost predicate BucketKept(s: System, dim: Dim, n: int) {
    var k := Bucket(dim, n);
    var e := Raw(s.store, k);
    && Lasts(e, Deadline(dim, n))
    && (if k in s.expired then Deadline(dim, n) < s.now else Fresh(e, s.now) && Reflects(dim, n, e, s.executed))
    && (dim != ResponseTimes ==> Within(e, AddedBy(dim, n, s.executed)))
  }

  /** The activity time that was written last. */
  function LastStamp(executed: seq<Command<Key>>): Option<int> {
    if executed == [] then None
    else
      var c := executed[|executed| - 1];
      if c.key == LastActivity && c.op.SetEx? && c.op.text.Stamp? then Some(c.op.text.at)
      else LastStamp(executed[..|executed| - 1])
  }

  /** It is the time of a call, it is stored, and it does not expire within an hour of that call. */
  ghost predicate ActivityKept(s: System) {
    match LastStamp(s.executed)
    case None => LastActivity !in s.store
    case Some(at) =>
      && (exists x | x in s.log :: x.at == at)
      && (match Raw(s.store, LastActivity)
          case None => at + ACTIVITY_TTL * 1000 < s.now
          case Some(e) =>
            e.value == String(Stamp(at)) && e.expiresAt.Some? && at + ACTIVITY_TTL * 1000 <= e.expiresAt.value)
  }

  /** Every command of every call is pending or executed, once. */
  ghost predicate Issued(s: System) {
    && multiset(s.executed + s.pending) == multiset(CommandsOfCalls(s.log))
    && forall x | x in s.log :: x.at <= s.now
  }

  ghost predicate Kept(s: System) {
    Issued(s) && ActivityKept(s) && forall dim, n :: BucketKept(s, dim, n)
  }

  lemma AddedBySnoc(dim: Dim, n: int, cs: seq<Command<Key>>, c: Command<Key>)
    ensures AddedBy(dim, n, cs + [c]) == AddedBy(dim, n, cs) + CommandAdds(dim, n, c)
  {
    AddedByConcat(dim, n, cs, [c]);
    assert [c][1..] == [];
  }

  lemma PushedBySnoc(n: int, cs: seq<Command<Key>>, c: Command<Key>)
    ensures PushedBy(n, cs + [c]) ==
            (if c.key == Bucket(ResponseTimes, n) && c.op.LPush? then [c.op.item] else []) + PushedBy(n, cs)
  {
    assert (cs + [c])[..|cs|] == cs;
  }

  lemma CounterReflects(dim: Dim, e: Option<Entry>, now: int, op: Op, ms: multiset<string>)
    requires dim != ResponseTimes && Ordinary(dim, op) && Holds(dim, e, ms)
    ensures Holds(dim, Perform(e, now, op), ms + OpAdds(dim, op))
  {
    match op
    case HIncrBy(f, _) => AddOne(dim, e, ms, now, f);
    case SAdd(f) => AddOne(dim, e, ms, now, f);
    case Expire(_) => assert ms + OpAdds(dim, op) == ms;
    case _ => assert false;
  }

  lemma ListReflects(e: Option<Entry>, now: int, op: Op, pushed: seq<int>)
    requires Ordinary(ResponseTimes, op) && HoldsPushes(e, pushed)
    ensures HoldsPushes(Perform(e, now, op), (if op.LPush? then [op.item] else []) + pushed)
  {
    assert [] + pushed == pushed;
    if op.LPush? {
      var i := op.item;
      assert Take([i] + pushed, 100) == Take([i] + Take(pushed, 100), 100);
      if e.Some? {
        assert Take([i] + e.value.value.items, 100) == Take([i] + Take(e.value.value.items, 100), 100);
      }
    }
  }

  lemma OpReflects(dim: Dim, n: int, e: Option<Entry>, now: int, c: Command<Key>, executed: seq<Command<Key>>)
    requires c.key == Bucket(dim, n) && Ordinary(dim, c.op) && Reflects(dim, n, e, executed)
    ensures Reflects(dim, n, Perform(e, now, c.op), executed + [c])
  {
    if dim == ResponseTimes {
      PushedBySnoc(n, executed, c);
      ListReflects(e, now, c.op, PushedBy(n, executed));
    } else {
      AddedBySnoc(dim, n, executed, c);
      CounterReflects(dim, e, now, c.op, AddedBy(dim, n, executed));
    }
  }

  /** A command on another key does not count here. */
  lemma OtherReflects(dim: Dim, n: int, c: Command<Key>, executed: seq<Command<Key>>)
    requires c.key != Bucket(dim, n)
    ensures AddedBy(dim, n, executed + [c]) == AddedBy(dim, n, executed)
    ensures PushedBy(n, executed + [c]) == PushedBy(n, executed) || dim != ResponseTimes
  {
    AddedBySnoc(dim, n, executed, c);
    PushedBySnoc(n, executed, c);
  }

  lemma OpWithin(dim: Dim, e: Option<Entry>, now: int, op: Op, ms: multiset<string>)
    requires dim != ResponseTimes && Ordinary(dim, op) && Within(e, ms)
    ensures Within(Perform(e, now, op), ms + OpAdds(dim, op))
  {
  }

  /** A command of a pending call runs after the bucket it goes to has begun. */
  lemma PendingCommand(s: System, c: Command<Key>)
    requires Issued(s) && c in s.pending
    ensures c.key.Bucket? ==> Ordinary(c.key.dim, c.op) && c.key.n * Unit(c.key.dim) <= s.now
    ensures c.key.LastActivity? ==> exists x | x in s.log :: c.op == SetEx(ACTIVITY_TTL, Stamp(x.at))
  {
    assert c in multiset(s.executed + s.pending);
    var x := CommandOfCall(s.log, c);
    if c.key.Bucket? {
      BucketBegins(x.at, Unit(c.key.dim));
    }
  }

  lemma BucketBegins(at: int, u: int)
    requires u > 0
    ensures (at / u) * u <= at < (at / u) * u + u
  {
    assert at == (at / u) * u + at % u;
  }

  lemma OwnCommandKeeps(s: System, j: nat, dim: Dim, n: int)
    requires Issued(s) && j < |s.pending| && BucketKept(s, dim, n) && s.pending[j].key == Bucket(dim, n)
    ensures BucketKept(Act(s, Execute(j)), dim, n)
  {
    var c, k := s.pending[j], Bucket(dim, n);
    var e := Live(s.store, k, s.now);
    PendingCommand(s, c);
    assert Raw(Act(s, Execute(j)).store, k) == Perform(e, s.now, c.op);
    if k !in s.expired {
      OpReflects(dim, n, e, s.now, c, s.executed);
    }
    if dim != ResponseTimes {
      AddedBySnoc(dim, n, s.executed, c);
      OpWithin(dim, e, s.now, c.op, AddedBy(dim, n, s.executed));
    }
    ExpiryAfter(e, s.now, dim, c.op, n);
  }

  lemma OtherCommandKeeps(s: System, j: nat, dim: Dim, n: int)
    requires j < |s.pending| && BucketKept(s, dim, n) && s.pending[j].key != Bucket(dim, n)
    ensures BucketKept(Act(s, Execute(j)), dim, n)
  {
    assert Raw(Act(s, Execute(j)).store, Bucket(dim, n)) == Raw(s.store, Bucket(dim, n));
    OtherReflects(dim, n, s.pending[j], s.executed);
  }

  lemma ExpiryAfter(e: Option<Entry>, now: int, dim: Dim, op: Op, n: int)
    requires Ordinary(dim, op) && n * Unit(dim) <= now && Fresh(e, now) && Lasts(e, Deadline(dim, n))
    ensures Fresh(Perform(e, now, op), now) && Lasts(Perform(e, now, op), Deadline(dim, n))
  {
  }

  lemma OthersKeepBucket(s: System, a: Action, dim: Dim, n: int)
    requires BucketKept(s, dim, n) && !a.Execute?
    ensures BucketKept(Act(s, a), dim, n)
  {
  }

  lemma MovedCommand<T>(executed: seq<T>, pending: seq<T>, j: nat)
    requires j < |pending|
    ensures multiset((executed + [pending[j]]) + (pending[..j] + pending[j + 1..])) == multiset(executed + pending)
  {
    var left, c, right := pending[..j], pending[j], pending[j + 1..];
    assert pending == left + [c] + right;
    MultisetMiddle(left, c, right);
  }

  lemma SentCommands<T>(executed: seq<T>, pending: seq<T>, all: seq<T>, sent: seq<T>)
    requires multiset(executed + pending) == multiset(all)
    ensures multiset(executed + (pending + sent)) == multiset(all + sent)
  {
    assert executed + (pending + sent) == (executed + pending) + sent;
  }

  lemma CommandsOfCallsSnoc(calls: seq<Logged>, x: Logged)
    ensures CommandsOfCalls(calls + [x]) == CommandsOfCalls(calls) + EventCommands(x.at, x.event)
  {
    assert (calls + [x])[..|calls|] == calls;
  }

  lemma CallKeepsIssued(s: System, x: Logged)
    requires Issued(s) && x.at == s.now
    ensures Issued(s.(log := s.log + [x], pending := s.pending + EventCommands(x.at, x.event)))
  {
    CommandsOfCallsSnoc(s.log, x);
    SentCommands(s.executed, s.pending, CommandsOfCalls(s.log), EventCommands(x.at, x.event));
  }

  lemma ExecuteKeepsIssued(s: System, j: nat)
    requires Issued(s) && j < |s.pending|
    ensures Issued(Act(s, Execute(j)))
  {
    MovedCommand(s.executed, s.pending, j);
  }

  lemma ActKeepsIssued(s: System, a: Action)
    requires Issued(s)
    ensures Issued(Act(s, a))
  {
    match a
    case Call(r) =>
      if r.timestamp.Some? {
        CallKeepsIssued(s, Logged(s.now, r));
      }
    case Execute(j) =>
      if j < |s.pending| {
        ExecuteKeepsIssued(s, j);
      }
    case _ =>
  }

  lemma LastStampSnoc(executed: seq<Command<Key>>, c: Command<Key>)
    ensures LastStamp(executed + [c]) ==
            if c.key == LastActivity && c.op.SetEx? && c.op.text.Stamp? then Some(c.op.text.at) else LastStamp(executed)
  {
    assert (executed + [c])[..|executed|] == executed;
  }

  lemma ExecuteKeepsActivity(s: System, j: nat)
    requires Issued(s) && ActivityKept(s) && j < |s.pending|
    ensures ActivityKept(Act(s, Execute(j)))
  {
    var c := s.pending[j];
    PendingCommand(s, c);
    LastStampSnoc(s.executed, c);
    if c.key == LastActivity {
      var x :| x in s.log && c.op == SetEx(ACTIVITY_TTL, Stamp(x.at));
    } else {
      assert Raw(Act(s, Execute(j)).store, LastActivity) == Raw(s.store, LastActivity);
    }
  }

  lemma ActKeepsActivity(s: System, a: Action)
    requires Issued(s) && ActivityKept(s)
    ensures ActivityKept(Act(s, a))
  {
    match a
    case Execute(j) =>
      if j < |s.pending| {
        ExecuteKeepsActivity(s, j);
      }
    case _ => assert forall x | x in s.log :: x in Act(s, a).log;
  }

  /** Whatever happens next, every bucket stays what its executed commands make of it until it first dies, no bucket
      dies before its deadline, and none ever counts more than was executed. */
  lemma ActKeeps(s: System, a: Action)
    requires Kept(s)
    ensures Kept(Act(s, a))
  {
    ActKeepsIssued(s, a);
    ActKeepsActivity(s, a);
    forall dim, n ensures BucketKept(Act(s, a), dim, n) {
      assert BucketKept(s, dim, n);
      if a.Execute? {
        if a.command < |s.pending| {
          if s.pending[a.command].key == Bucket(dim, n) {
            OwnCommandKeeps(s, a.command, dim, n);
          } else {
            OtherCommandKeeps(s, a.command, dim, n);
          }
        }
      } else {
        OthersKeepBucket(s, a, dim, n);
      }
    }
  }

  lemma {:induction false} ActAllKeeps(s: System, actions: seq<Action>)
    requires Kept(s)
    ensures Kept(ActAll(s, actions))
    decreases |actions|
  {
    if actions != [] {
      ActKeeps(s, actions[0]);
      ActAllKeeps(Act(s, actions[0]), actions[1..]);
    }
  }

  // ----- Taking over -----

  lemma TouchedAfterStart(dim: Dim, n: int, log: seq<Logged>) returns (i: nat)
    requires LastTouch(Bucket(dim, n), log).Some?
    ensures i < |log| && log[i].at / Unit(dim) == n && LastTouch(Bucket(dim, n), log) == Some(log[i].at)
    ensures n * Unit(dim) <= log[i].at
  {
    i := LastTouchInLog(Bucket(dim, n), log);
    BucketBegins(log[i].at, Unit(dim));
  }

  lemma OutlivedIff(s: State, dim: Dim, n: int)
    requires Agrees(s)
    ensures Bucket(dim, n) in OutlivedKeys(s) <==> Outlived(s, Bucket(dim, n))
  {
    if Outlived(s, Bucket(dim, n)) {
      var i := TouchedAfterStart(dim, n, s.log);
      AllDims(dim);
      assert Outlived(s, Bucket(dim, s.log[i].at / Unit(dim)));
    }
  }

  lemma IdealReflects(log: seq<Logged>, dim: Dim, n: int)
    ensures Reflects(dim, n, Ideal(Bucket(dim, n), log), CommandsOfCalls(log))
    ensures dim != ResponseTimes ==> Within(Ideal(Bucket(dim, n), log), AddedBy(dim, n, CommandsOfCalls(log)))
  {
    if dim == ResponseTimes {
      CallsPush(n, log);
      if LastTouch(Bucket(dim, n), log).None? {
        UntouchedIsEmpty(dim, n, log);
      }
    } else {
      CallsAdd(dim, n, log);
      IdealHolds(log, dim, n);
    }
  }

  lemma ResumeBucket(s: State, dim: Dim, n: int)
    requires Agrees(s)
    ensures BucketKept(Resume(s), dim, n)
  {
    var k := Bucket(dim, n);
    assert KeyAgrees(s, k);
    OutlivedIff(s, dim, n);
    IdealReflects(s.log, dim, n);
    if Ideal(k, s.log).Some? {
      var i := TouchedAfterStart(dim, n, s.log);
    }
  }

  lemma ResumeKept(s: State)
    requires Agrees(s)
    ensures Kept(Resume(s))
  {
    forall dim, n ensures BucketKept(Resume(s), dim, n) {
      ResumeBucket(s, dim, n);
    }
    assert CommandsOfCalls(s.log) + [] == CommandsOfCalls(s.log);
    ResumeActivity(s);
  }

  lemma ResumeActivity(s: State)
    requires Agrees(s)
    ensures ActivityKept(Resume(s))
  {
    assert KeyAgrees(s, LastActivity);
    if s.log != [] {
      var last := s.log[|s.log| - 1];
      StampOfCall(CommandsOfCalls(s.log[..|s.log| - 1]), last);
      assert last in s.log;
    }
  }

  lemma StampOfCall(before: seq<Command<Key>>, x: Logged)
    ensures LastStamp(before + EventCommands(x.at, x.event)) == Some(x.at)
  {
    var stamp, rest := Command(LastActivity, SetEx(ACTIVITY_TTL, Stamp(x.at))), DimCommands(ALL_DIMS, x.at, x.event);
    assert before + EventCommands(x.at, x.event) == (before + [stamp]) + rest;
    LastStampSnoc(before, stamp);
    forall c | c in rest ensures c.key.Bucket? {
      DimCommandsOnBuckets(ALL_DIMS, x.at, x.event, c);
    }
    NoLaterStamp(before + [stamp], rest);
  }

  lemma {:induction false} DimCommandsOnBuckets(dims: seq<Dim>, at: int, ev: Event, c: Command<Key>)
    requires c in DimCommands(dims, at, ev)
    ensures c.key.Bucket?
  {
    var k := Bucket(dims[0], at / Unit(dims[0]));
    if c in DimCommands(dims[1..], at, ev) {
      DimCommandsOnBuckets(dims[1..], at, ev, c);
    } else {
      OnKeyKeys(k, DimOps(dims[0], at, ev), c);
    }
  }

  lemma {:induction false} OnKeyKeys(k: Key, ops: seq<Op>, c: Command<Key>)
    requires c in OnKey(k, ops)
    ensures c.key == k
  {
    if c != OnKey(k, ops)[0] {
      OnKeyKeys(k, ops[1..], c);
    }
  }

  lemma {:induction false} NoLaterStamp(executed: seq<Command<Key>>, later: seq<Command<Key>>)
    requires forall c | c in later :: c.key.Bucket?
    ensures LastStamp(executed + later) == LastStamp(executed)
  {
    if later == [] {
      assert executed + later == executed;
    } else {
      ConcatLast(executed, later);
      NoLaterStamp(executed, later[..|later| - 1]);
    }
  }

  // ----- What a read shows in any run -----

  /** A read of a bucket yields exactly the counters or members of `ms`. */
  ghost predicate Shows(s: System, dim: Dim, n: int, ms: multiset<string>) {
    if IsSetDim(dim) then ReadSet(s.store, Bucket(dim, n), s.now) == Support(ms)
    else ReadHash(s.store, Bucket(dim, n), s.now) == HashOf(ms)
  }

  lemma ReadHeld(s: System, dim: Dim, n: int, ms: multiset<string>)
    requires Fresh(Raw(s.store, Bucket(dim, n)), s.now) && Holds(dim, Raw(s.store, Bucket(dim, n)), ms)
    ensures Shows(s, dim, n, ms)
  {
    assert HashOf(multiset{}) == map[] && Support(multiset{}) == {};
  }

  /** What was executed and what is pending together are the recount of the log. */
  lemma Recounted(s: System, dim: Dim, n: int)
    requires Issued(s) && dim != ResponseTimes
    ensures AddedBy(dim, n, s.executed) + AddedBy(dim, n, s.pending) == Gather(dim, s.log, n, n)
  {
    var all := CommandsOfCalls(s.log);
    forall c | c in all && c.key == Bucket(dim, n) && c.op.HIncrBy? ensures c.op.amount == 1 {
      var x := CommandOfCall(s.log, c);
    }
    AddedByPermuted(dim, n, s.executed + s.pending, all);
    AddedByConcat(dim, n, s.executed, s.pending);
    CallsAdd(dim, n, s.log);
  }

  lemma RunKept(s: State, actions: seq<Action>)
    requires Agrees(s)
    ensures Kept(ActAll(Resume(s), actions))
  {
    ResumeKept(s);
    ActAllKeeps(Resume(s), actions);
  }

  /** Calls may begin at any time and their commands run in any order and as late as they will: a bucket shows what was
      executed, and that together with what is pending is the recount of the log, until the bucket first dies; and no
      bucket dies before its deadline. */
  lemma InterleavingContents(s: State, actions: seq<Action>, t: System, dim: Dim, n: int)
    requires Agrees(s) && t == ActAll(Resume(s), actions) && dim != ResponseTimes
    ensures AddedBy(dim, n, t.executed) + AddedBy(dim, n, t.pending) == Gather(dim, t.log, n, n)
    ensures Bucket(dim, n) !in t.expired ==> Shows(t, dim, n, AddedBy(dim, n, t.executed))
    ensures t.now <= Deadline(dim, n) ==> Bucket(dim, n) !in t.expired
  {
    RunKept(s, actions);
    Recounted(t, dim, n);
    assert BucketKept(t, dim, n);
    if Bucket(dim, n) !in t.expired {
      ReadHeld(t, dim, n, AddedBy(dim, n, t.executed));
    }
  }

  /** Even then no counter ever exceeds the recount, and no set has a member that the log has not. */
  lemma NeverOvercounts(s: State, actions: seq<Action>, t: System, dim: Dim, n: int, f: string)
    requires Agrees(s) && t == ActAll(Resume(s), actions) && dim != ResponseTimes
    ensures var recount := Gather(dim, t.log, n, n);
            && (f in ReadHash(t.store, Bucket(dim, n), t.now) ==>
                  ReadHash(t.store, Bucket(dim, n), t.now)[f] <= recount[f])
            && (f in ReadSet(t.store, Bucket(dim, n), t.now) ==> f in recount)
  {
    RunKept(s, actions);
    Recounted(t, dim, n);
    assert BucketKept(t, dim, n);
    ReadWithin(t, dim, n, AddedBy(dim, n, t.executed), f);
    assert AddedBy(dim, n, t.executed)[f] <= Gather(dim, t.log, n, n)[f];
  }

  lemma ReadWithin(s: System, dim: Dim, n: int, ms: multiset<string>, f: string)
    requires Within(Raw(s.store, Bucket(dim, n)), ms)
    ensures f in ReadHash(s.store, Bucket(dim, n), s.now) ==> ReadHash(s.store, Bucket(dim, n), s.now)[f] <= ms[f]
    ensures f in ReadSet(s.store, Bucket(dim, n), s.now) ==> f in ms
  {
  }

  /** What a list of commands adds to the buckets `lo..hi`. */
  function AddedIn(dim: Dim, lo: int, hi: int, cs: seq<Command<Key>>): multiset<string>
    decreases hi - lo
  {
    if hi < lo then multiset{} else AddedBy(dim, lo, cs) + AddedIn(dim, lo + 1, hi, cs)
  }

  lemma AddFour<T>(a: multiset<T>, b: multiset<T>, c: multiset<T>, d: multiset<T>)
    ensures (a + b) + (c + d) == (a + c) + (b + d)
  {
  }

  lemma {:induction false} RecountedIn(s: System, dim: Dim, lo: int, hi: int)
    requires Issued(s) && dim != ResponseTimes
    ensures AddedIn(dim, lo, hi, s.executed) + AddedIn(dim, lo, hi, s.pending) == Gather(dim, s.log, lo, hi)
    decreases hi - lo
  {
    if hi < lo {
      GatherNone(dim, s.log, lo, hi);
    } else {
      RecountedIn(s, dim, lo + 1, hi);
      Recounted(s, dim, lo);
      GatherSplit(dim, s.log, lo, lo, hi);
      AddFour(AddedBy(dim, lo, s.executed), AddedIn(dim, lo + 1, hi, s.executed),
              AddedBy(dim, lo, s.pending), AddedIn(dim, lo + 1, hi, s.pending));
    }
  }

  lemma MinuteDeadline(dim: Dim, n: int, now: int)
    requires IsMinuteDim(dim) && now / MINUTE - 6 <= n
    ensures now <= Deadline(dim, n)
  {
    BucketBegins(now, MINUTE);
    assert TtlSeconds(dim) == 420;
  }

  /** The active window of any run of interleaved calls: every bucket of the last seven minutes shows exactly what was
      executed, and over the five of the window that is the recount of the log but for the commands still pending. */
  lemma InterleavedWindow(s: State, actions: seq<Action>, t: System, dim: Dim, m: int)
    requires Agrees(s) && t == ActAll(Resume(s), actions) && IsMinuteDim(dim) && m == t.now / MINUTE
    ensures forall n | m - 6 <= n <= m :: Shows(t, dim, n, AddedBy(dim, n, t.executed))
    ensures AddedIn(dim, m - 4, m, t.executed) + AddedIn(dim, m - 4, m, t.pending) == Gather(dim, t.log, m - 4, m)
  {
    forall n | m - 6 <= n <= m ensures Shows(t, dim, n, AddedBy(dim, n, t.executed)) {
      MinuteDeadline(dim, n, t.now);
      InterleavingContents(s, actions, t, dim, n);
    }
    RunKept(s, actions);
    RecountedIn(t, dim, m - 4, m);
  }

  /** The newest hundred response times of a minute are the newest hundred pushed, for an hour; and what was pushed
      and what is pending are together the response times of the log. */
  lemma InterleavedLatencies(s: State, actions: seq<Action>, t: System, n: int)
    requires Agrees(s) && t == ActAll(Resume(s), actions)
    ensures t.now <= Deadline(ResponseTimes, n) ==>
              Take(ReadList(t.store, Bucket(ResponseTimes, n), t.now), 100) == Take(PushedBy(n, t.executed), 100)
    ensures multiset(PushedBy(n, t.executed)) + multiset(PushedBy(n, t.pending)) == multiset(Latencies(t.log, n))
  {
    RunKept(s, actions);
    LatenciesRecounted(t, n);
    assert BucketKept(t, ResponseTimes, n);
    if t.now <= Deadline(ResponseTimes, n) {
      ReadPushes(t, n);
    }
  }

  lemma ReadPushes(s: System, n: int)
    requires BucketKept(s, ResponseTimes, n) && s.now <= Deadline(ResponseTimes, n)
    ensures Take(ReadList(s.store, Bucket(ResponseTimes, n), s.now), 100) == Take(PushedBy(n, s.executed), 100)
  {
  }

  lemma LatenciesRecounted(s: System, n: int)
    requires Issued(s)
    ensures multiset(PushedBy(n, s.executed)) + multiset(PushedBy(n, s.pending)) == multiset(Latencies(s.log, n))
  {
    PushedByPermuted(n, s.executed + s.pending, CommandsOfCalls(s.log));
    PushedByConcat(n, s.executed, s.pending);
    CallsPush(n, s.log);
  }

  /** The system is active exactly when the activity time written last is at most two minutes old, and then there was
      an event in the last two minutes. */
  lemma InterleavedActivity(s: State, actions: seq<Action>, t: System)
    requires Agrees(s) && t == ActAll(Resume(s), actions)
    ensures IsActive(t.store, LastActivity, t.now) <==>
            LastStamp(t.executed).Some? && t.now - LastStamp(t.executed).value <= INACTIVE_THRESHOLD_MINUTES * MINUTE
    ensures IsActive(t.store, LastActivity, t.now) ==>
              exists x | x in t.log :: t.now - x.at <= INACTIVE_THRESHOLD_MINUTES * MINUTE
  {
    RunKept(s, actions);
  }

  // ----- Nor does the order of calls -----

  function ContentOf(dim: Dim, e: Option<Entry>): Value {
    match e
    case None => Encode(dim, multiset{})
    case Some(entry) => entry.value
  }

  /** A log with every time put back to the start of its bucket. */
  function Floored(dim: Dim, log: seq<Logged>): seq<Logged> {
    if log == [] then []
    else
      var x := log[|log| - 1];
      Floored(dim, log[..|log| - 1]) + [x.(at := x.at / Unit(dim) * Unit(dim))]
  }

  lemma FlooredTwice(at: int, dim: Dim)
    ensures (at / Unit(dim) * Unit(dim)) / Unit(dim) == at / Unit(dim)
  {
    assert (at / MINUTE * MINUTE) / MINUTE == at / MINUTE;
    assert (at / HOUR * HOUR) / HOUR == at / HOUR;
    assert (at / DAY * DAY) / DAY == at / DAY;
  }

  lemma {:induction false} GatherFloored(dim: Dim, log: seq<Logged>, lo: int, hi: int)
    ensures Gather(dim, Floored(dim, log), lo, hi) == Gather(dim, log, lo, hi)
  {
    if log != [] {
      var front, x := log[..|log| - 1], log[|log| - 1];
      GatherFloored(dim, front, lo, hi);
      FlooredTwice(x.at, dim);
      GatherAppend(dim, Floored(dim, front), x.(at := x.at / Unit(dim) * Unit(dim)), lo, hi);
    }
  }

  /** Interleaved calls end as if the same calls had been processed one after another, in any order: the sequential
      state need not have processed them at the same times, only in the same buckets. */
  lemma InterleavingIsSequential(s: State, actions: seq<Action>, t: System, u: State, dim: Dim, n: int)
    requires Agrees(s) && t == ActAll(Resume(s), actions) && dim != ResponseTimes
    requires Agrees(u) && multiset(Floored(dim, u.log)) == multiset(Floored(dim, t.log))
    requires Bucket(dim, n) !in t.expired && !Outlived(u, Bucket(dim, n)) && AddedBy(dim, n, t.pending) == multiset{}
    ensures var k := Bucket(dim, n);
            ContentOf(dim, Raw(t.store, k)) == ContentOf(dim, Raw(u.store, k))
  {
    InterleavedHolds(s, actions, t, dim, n);
    SequentialHolds(u, dim, n);
    GatherFloored(dim, t.log, n, n);
    GatherFloored(dim, u.log, n, n);
    GatherPermuted(dim, Floored(dim, u.log), Floored(dim, t.log), n, n);
    SameContent(dim, Raw(t.store, Bucket(dim, n)), Raw(u.store, Bucket(dim, n)), Gather(dim, t.log, n, n));
  }

  lemma InterleavedHolds(s: State, actions: seq<Action>, t: System, dim: Dim, n: int)
    requires Agrees(s) && t == ActAll(Resume(s), actions) && dim != ResponseTimes
    requires Bucket(dim, n) !in t.expired && AddedBy(dim, n, t.pending) == multiset{}
    ensures Holds(dim, Raw(t.store, Bucket(dim, n)), Gather(dim, t.log, n, n))
  {
    RunKept(s, actions);
    Recounted(t, dim, n);
    assert BucketKept(t, dim, n);
    assert AddedBy(dim, n, t.executed) + multiset{} == AddedBy(dim, n, t.executed);
  }

  lemma SequentialHolds(u: State, dim: Dim, n: int)
    requires Agrees(u) && dim != ResponseTimes && !Outlived(u, Bucket(dim, n))
    ensures Holds(dim, Raw(u.store, Bucket(dim, n)), Gather(dim, u.log, n, n))
  {
    assert KeyAgrees(u, Bucket(dim, n));
    IdealHolds(u.log, dim, n);
  }

  lemma SameContent(dim: Dim, a: Option<Entry>, b: Option<Entry>, ms: multiset<string>)
    requires Holds(dim, a, ms) && Holds(dim, b, ms)
    ensures ContentOf(dim, a) == ContentOf(dim, b)
  {
  }
}
