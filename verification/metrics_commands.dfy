/** The Redis commands of `processEvent` calls, and what they add to the buckets in whatever order they run. */
module MetricsCommands {
  import opened RedisStore
  import opened MetricsModel

  // ----- The commands of calls and what they add -----

  /** The commands of all the calls, one call after another. */
  function CommandsOfCalls(calls: seq<Logged>): seq<Command<Key>> {
    if calls == [] then []
    else CommandsOfCalls(calls[..|calls| - 1]) + EventCommands(calls[|calls| - 1].at, calls[|calls| - 1].event)
  }

  function OpAdds(dim: Dim, op: Op): multiset<string> {
    if IsSetDim(dim) && op.SAdd? then multiset{op.member}
    else if !IsSetDim(dim) && op.HIncrBy? then multiset{op.field}
    else multiset{}
  }

  function CommandAdds(dim: Dim, n: int, c: Command<Key>): multiset<string> {
    if c.key == Bucket(dim, n) then OpAdds(dim, c.op) else multiset{}
  }

  /** What a list of commands adds to one bucket. */
  function AddedBy(dim: Dim, n: int, cs: seq<Command<Key>>): multiset<string> {
    if cs == [] then multiset{} else CommandAdds(dim, n, cs[0]) + AddedBy(dim, n, cs[1..])
  }

  /** What a list of commands pushes to one bucket of response times, newest first. */
  function PushedBy(n: int, cs: seq<Command<Key>>): seq<int> {
    if cs == [] then []
    else
      var c, before := cs[|cs| - 1], PushedBy(n, cs[..|cs| - 1]);
      if c.key == Bucket(ResponseTimes, n) && c.op.LPush? then [c.op.item] + before else before
  }

  /** What any command of `processEvent` on a bucket can be. */
  predicate Ordinary(dim: Dim, op: Op) {
    match op
    case HIncrBy(_, amount) => dim != ResponseTimes && !IsSetDim(dim) && amount == 1
    case SAdd(_) => dim != ResponseTimes && IsSetDim(dim)
    case LPush(_) => dim == ResponseTimes
    case LTrim(stop) => dim == ResponseTimes && stop == 99
    case Expire(seconds) => seconds == TtlSeconds(dim)
    case _ => false
  }

  lemma OneCommandCount(dim: Dim, n: int, c: Command<Key>, f: string)
    requires c.op.HIncrBy? && c.key == Bucket(dim, n) ==> c.op.amount == 1
    ensures CommandAdds(dim, n, c)[f] == if c == Command(Bucket(dim, n), AddOp(dim, f)) then 1 else 0
  {
  }

  /** How often a field is added is how often the command that adds it occurs: the order plays no part. */
  lemma {:induction false} AddedByCount(dim: Dim, n: int, cs: seq<Command<Key>>, f: string)
    requires forall c | c in cs && c.key == Bucket(dim, n) && c.op.HIncrBy? :: c.op.amount == 1
    ensures AddedBy(dim, n, cs)[f] == multiset(cs)[Command(Bucket(dim, n), AddOp(dim, f))]
  {
    if cs != [] {
      AddedByCount(dim, n, cs[1..], f);
      OneCommandCount(dim, n, cs[0], f);
      MultisetCons(cs);
    }
  }

  lemma AddedByPermuted(dim: Dim, n: int, a: seq<Command<Key>>, b: seq<Command<Key>>)
    requires forall c | c in b && c.key == Bucket(dim, n) && c.op.HIncrBy? :: c.op.amount == 1
    requires multiset(a) == multiset(b)
    ensures AddedBy(dim, n, a) == AddedBy(dim, n, b)
  {
    forall c | c in a ensures c in b {
      assert c in multiset(a);
    }
    forall f ensures AddedBy(dim, n, a)[f] == AddedBy(dim, n, b)[f] {
      AddedByCount(dim, n, a, f);
      AddedByCount(dim, n, b, f);
    }
  }

  // ----- The commands of whole calls -----

  lemma {:induction false} AddedByConcat(dim: Dim, n: int, a: seq<Command<Key>>, b: seq<Command<Key>>)
    ensures AddedBy(dim, n, a + b) == AddedBy(dim, n, a) + AddedBy(dim, n, b)
  {
    if a == [] {
      assert a + b == b;
    } else {
      assert (a + b)[1..] == a[1..] + b;
      AddedByConcat(dim, n, a[1..], b);
    }
  }

  /** What a list of operations adds. */
  function OpsAdd(dim: Dim, ops: seq<Op>): multiset<string> {
    if ops == [] then multiset{} else OpAdds(dim, ops[0]) + OpsAdd(dim, ops[1..])
  }

  lemma {:induction false} AddedByIsOps(dim: Dim, n: int, cs: seq<Command<Key>>)
    ensures AddedBy(dim, n, cs) == OpsAdd(dim, OpsFor(Bucket(dim, n), cs))
  {
    if cs != [] {
      AddedByIsOps(dim, n, cs[1..]);
      var rest := OpsFor(Bucket(dim, n), cs[1..]);
      if cs[0].key == Bucket(dim, n) {
        assert OpsFor(Bucket(dim, n), cs)[1..] == rest;
      } else {
        assert OpsFor(Bucket(dim, n), cs) == rest;
      }
    }
  }

  lemma {:induction false} OpsAddConcat(dim: Dim, a: seq<Op>, b: seq<Op>)
    ensures OpsAdd(dim, a + b) == OpsAdd(dim, a) + OpsAdd(dim, b)
  {
    if a == [] {
      assert a + b == b;
    } else {
      assert (a + b)[1..] == a[1..] + b;
      OpsAddConcat(dim, a[1..], b);
    }
  }

  lemma {:induction false} OpsAddAdds(dim: Dim, fs: seq<string>)
    ensures OpsAdd(dim, Adds(dim, fs)) == multiset(fs)
  {
    if fs != [] {
      OpsAddAdds(dim, fs[1..]);
      MultisetCons(fs);
      assert Adds(dim, fs)[0] == AddOp(dim, fs[0]) && Adds(dim, fs)[1..] == Adds(dim, fs[1..]);
    }
  }

  lemma EventAdds(dim: Dim, n: int, at: int, ev: Event)
    requires dim != ResponseTimes
    ensures AddedBy(dim, n, EventCommands(at, ev)) ==
            if n == at / Unit(dim) then Fields(dim, ev) else multiset{}
  {
    AddedByIsOps(dim, n, EventCommands(at, ev));
    OpsForEvent(Bucket(dim, n), at, ev);
    OpsAddAdds(dim, Added(dim, ev));
    OpsAddConcat(dim, Adds(dim, Added(dim, ev)), [Expire(TtlSeconds(dim))]);
    assert OpsAdd(dim, [Expire(TtlSeconds(dim))]) == multiset{};
  }

  lemma {:induction false} CallsAdd(dim: Dim, n: int, calls: seq<Logged>)
    requires dim != ResponseTimes
    ensures AddedBy(dim, n, CommandsOfCalls(calls)) == Gather(dim, calls, n, n)
  {
    if calls != [] {
      var front, x := calls[..|calls| - 1], calls[|calls| - 1];
      CallsAdd(dim, n, front);
      EventAdds(dim, n, x.at, x.event);
      AddedByConcat(dim, n, CommandsOfCalls(front), EventCommands(x.at, x.event));
    }
  }

  lemma DimOpsOrdinary(dim: Dim, at: int, ev: Event, op: Op)
    requires op in DimOps(dim, at, ev)
    ensures Ordinary(dim, op)
  {
    if dim != ResponseTimes && op in Adds(dim, Added(dim, ev)) {
      AddsArePlain(dim, Added(dim, ev), op);
    }
  }

  /** Every command of a call goes to a bucket of the call's own time, or stamps the activity with it. */
  lemma {:induction false} CommandOfCall(calls: seq<Logged>, c: Command<Key>) returns (x: Logged)
    requires c in CommandsOfCalls(calls)
    ensures x in calls
    ensures if c.key.Bucket? then c.key.n == x.at / Unit(c.key.dim) && Ordinary(c.key.dim, c.op)
            else c.op == SetEx(ACTIVITY_TTL, Stamp(x.at))
  {
    x := calls[|calls| - 1];
    if c in EventCommands(x.at, x.event) {
      OpInOpsFor(c, EventCommands(x.at, x.event));
      OpsForEvent(c.key, x.at, x.event);
      if c.key.Bucket? {
        DimOpsOrdinary(c.key.dim, x.at, x.event, c.op);
      }
    } else {
      x := CommandOfCall(calls[..|calls| - 1], c);
    }
  }

  lemma {:induction false} OpInOpsFor(c: Command<Key>, cs: seq<Command<Key>>)
    requires c in cs
    ensures c.op in OpsFor(c.key, cs)
  {
    if c != cs[0] {
      assert c in cs[1..];
      OpInOpsFor(c, cs[1..]);
    }
  }

  lemma {:induction false} AddsArePlain(dim: Dim, fs: seq<string>, op: Op)
    requires op in Adds(dim, fs)
    ensures if IsSetDim(dim) then op.SAdd? else op.HIncrBy? && op.amount == 1
  {
    if op != AddOp(dim, fs[0]) {
      assert op in Adds(dim, fs[1..]);
      AddsArePlain(dim, fs[1..], op);
    }
  }

  // ----- Pushes -----

  lemma {:induction false} PushedByConcat(n: int, a: seq<Command<Key>>, b: seq<Command<Key>>)
    ensures PushedBy(n, a + b) == PushedBy(n, b) + PushedBy(n, a)
  {
    if b == [] {
      assert a + b == a;
    } else {
      ConcatLast(a, b);
      PushedByConcat(n, a, b[..|b| - 1]);
    }
  }

  /** What a list of operations pushes, newest first. */
  function OpsPush(ops: seq<Op>): seq<int> {
    if ops == [] then [] else OpsPush(ops[1..]) + if ops[0].LPush? then [ops[0].item] else []
  }

  lemma {:induction false} PushedByIsOps(n: int, cs: seq<Command<Key>>)
    ensures PushedBy(n, cs) == OpsPush(OpsFor(Bucket(ResponseTimes, n), cs))
  {
    if cs != [] {
      var k := Bucket(ResponseTimes, n);
      assert cs == [cs[0]] + cs[1..];
      PushedByConcat(n, [cs[0]], cs[1..]);
      PushedByIsOps(n, cs[1..]);
      assert [cs[0]][..0] == [];
      var rest := OpsFor(k, cs[1..]);
      if cs[0].key == k {
        assert OpsFor(k, cs)[1..] == rest;
      } else {
        assert OpsFor(k, cs) == rest;
      }
    }
  }

  lemma EventPushes(n: int, at: int, ev: Event)
    ensures PushedBy(n, EventCommands(at, ev)) == if at / MINUTE == n then [at - ev.timestamp.value] else []
  {
    PushedByIsOps(n, EventCommands(at, ev));
    OpsForEvent(Bucket(ResponseTimes, n), at, ev);
    LatencyPush(at - ev.timestamp.value);
    assert OpsPush([]) == [];
  }

  lemma LatencyPush(latency: int)
    ensures OpsPush([LPush(latency), LTrim(99)] + [Expire(TtlSeconds(ResponseTimes))]) == [latency]
  {
    var ops := [LPush(latency), LTrim(99)] + [Expire(TtlSeconds(ResponseTimes))];
    assert ops[1..][1..][1..] == [];
    assert OpsPush(ops[1..][1..]) == [] && OpsPush(ops[1..]) == [];
  }

  lemma {:induction false} CallsPush(n: int, calls: seq<Logged>)
    ensures PushedBy(n, CommandsOfCalls(calls)) == Latencies(calls, n)
  {
    if calls != [] {
      var front, x := calls[..|calls| - 1], calls[|calls| - 1];
      CallsPush(n, front);
      CallPushes(n, CommandsOfCalls(front), x);
      assert calls == front + [x];
      LatenciesAppend(front, x, n);
    }
  }

  lemma CallPushes(n: int, before: seq<Command<Key>>, x: Logged)
    ensures PushedBy(n, before + EventCommands(x.at, x.event)) ==
            if x.at / MINUTE == n then [x.at - x.event.timestamp.value] + PushedBy(n, before) else PushedBy(n, before)
  {
    EventPushes(n, x.at, x.event);
    PushedByConcat(n, before, EventCommands(x.at, x.event));
    assert [] + PushedBy(n, before) == PushedBy(n, before);
  }

  /** How often a value is pushed is how often the command that pushes it occurs. */
  lemma {:induction false} PushedByCount(n: int, cs: seq<Command<Key>>, i: int)
    ensures multiset(PushedBy(n, cs))[i] == multiset(cs)[Command(Bucket(ResponseTimes, n), LPush(i))]
  {
    if cs != [] {
      var front, c := cs[..|cs| - 1], cs[|cs| - 1];
      PushedByCount(n, front, i);
      assert cs == front + [c];
    }
  }

  lemma PushedByPermuted(n: int, a: seq<Command<Key>>, b: seq<Command<Key>>)
    requires multiset(a) == multiset(b)
    ensures multiset(PushedBy(n, a)) == multiset(PushedBy(n, b))
  {
    forall i ensures multiset(PushedBy(n, a))[i] == multiset(PushedBy(n, b))[i] {
      PushedByCount(n, a, i);
      PushedByCount(n, b, i);
    }
  }

  lemma ConcatLast<T>(a: seq<T>, b: seq<T>)
    requires b != []
    ensures (a + b)[..|a + b| - 1] == a + b[..|b| - 1] && (a + b)[|a + b| - 1] == b[|b| - 1]
  {
  }

  // ----- The order of calls -----

  function Contribution(dim: Dim, x: Logged, lo: int, hi: int): multiset<string> {
    if lo <= x.at / Unit(dim) <= hi then Fields(dim, x.event) else multiset{}
  }

  lemma GatherLast(dim: Dim, log: seq<Logged>, lo: int, hi: int)
    requires log != []
    ensures Gather(dim, log, lo, hi) ==
            Gather(dim, log[..|log| - 1], lo, hi) + Contribution(dim, log[|log| - 1], lo, hi)
  {
  }

  lemma {:induction false} GatherConcat(dim: Dim, a: seq<Logged>, b: seq<Logged>, lo: int, hi: int)
    ensures Gather(dim, a + b, lo, hi) == Gather(dim, a, lo, hi) + Gather(dim, b, lo, hi)
  {
    if b == [] {
      assert a + b == a;
    } else {
      GatherConcat(dim, a, b[..|b| - 1], lo, hi);
      ConcatLast(a, b);
      GatherLast(dim, a + b, lo, hi);
      GatherLast(dim, b, lo, hi);
    }
  }

  lemma GatherMiddle(dim: Dim, left: seq<Logged>, x: Logged, right: seq<Logged>, lo: int, hi: int)
    ensures Gather(dim, left + [x] + right, lo, hi) ==
            Gather(dim, left + right, lo, hi) + Contribution(dim, x, lo, hi)
  {
    GatherConcat(dim, left + [x], right, lo, hi);
    GatherConcat(dim, left, right, lo, hi);
    GatherLast(dim, left + [x], lo, hi);
    assert (left + [x])[..|left|] == left;
  }

  lemma SplitAt<T>(s: seq<T>, x: T) returns (left: seq<T>, right: seq<T>)
    requires x in multiset(s)
    ensures s == left + [x] + right
  {
    var j :| 0 <= j < |s| && s[j] == x;
    left, right := s[..j], s[j + 1..];
  }

  /** The order in which calls are logged does not change a recount. */
  lemma {:induction false} GatherPermuted(dim: Dim, a: seq<Logged>, b: seq<Logged>, lo: int, hi: int)
    requires multiset(a) == multiset(b)
    ensures Gather(dim, a, lo, hi) == Gather(dim, b, lo, hi)
  {
    if a == [] {
      assert |b| == |multiset(b)| == |multiset(a)| == 0;
    } else {
      var front, x := a[..|a| - 1], a[|a| - 1];
      assert a == front + [x] && x in multiset(a);
      var left, right := SplitAt(b, x);
      PermutedMiddle(front, x, left, right);
      GatherPermuted(dim, front, left + right, lo, hi);
      GatherMiddle(dim, left, x, right, lo, hi);
      GatherLast(dim, a, lo, hi);
    }
  }

  lemma MultisetMiddle<T>(left: seq<T>, x: T, right: seq<T>)
    ensures multiset(left + [x] + right) == multiset(left + right) + multiset{x}
  {
    assert multiset(left + [x]) == multiset(left) + multiset{x};
  }

  lemma CancelOne<T>(a: multiset<T>, b: multiset<T>, x: T)
    requires a + multiset{x} == b + multiset{x}
    ensures a == b
  {
    assert a == (a + multiset{x}) - multiset{x};
    assert b == (b + multiset{x}) - multiset{x};
  }

  lemma PermutedMiddle<T>(a: seq<T>, x: T, left: seq<T>, right: seq<T>)
    requires multiset(a + [x]) == multiset(left + [x] + right)
    ensures multiset(a) == multiset(left + right)
  {
    MultisetMiddle(left, x, right);
    MultisetMiddle(a, x, []);
    assert a + [x] + [] == a + [x] && a + [] == a;
    CancelOne(multiset(a), multiset(left + right), x);
  }
}
