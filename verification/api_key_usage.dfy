/** API-key usage accounting: a shared Redis counter, a private counter in every process that decides when the
    Redis count is copied to Mongo, and admission against the Mongo count. Every command is a step of its own: the
    callers wait neither for the script's reply nor for the Mongo update nor for the initialisation. */
module ApiKeyUsage {
  import opened Wrappers

  const SYNC_EVERY: nat := 1000

  /** An API key as Mongo stores it. */
  datatype Doc = Doc(usageCount: nat, usageLimit: int, active: bool)

  /** The Redis hash of a key. One that an increment created by itself has a count but no `key` field. The script
      replies with a copy. */
  datatype UsageHash = UsageHash(usageCount: nat, hasKey: bool)

  // ----- One key: the pieces of the operations -----

  datatype Refusal = InvalidKey | Deactivated | LimitReached

  /** `validateApiKey`. */
  function Validate(doc: Option<Doc>): Result<Doc, Refusal> {
    match doc
    case None => Err(InvalidKey)
    case Some(d) =>
      if !d.active then Err(Deactivated)
      else if d.usageCount >= d.usageLimit then Err(LimitReached)
      else Ok(d)
  }

  /** The script's `HINCRBY`. */
  function Incremented(h: Option<UsageHash>): UsageHash {
    match h
    case None => UsageHash(1, false)
    case Some(UsageHash(n, hasKey)) => UsageHash(n + 1, hasKey)
  }

  predicate SyncDue(counter: nat) {
    (counter + 1) % SYNC_EVERY == 0
  }

  // ----- One key: the system -----

  /** What the script replies; `generation` is bookkeeping and tells which incarnation of the hash it counted. */
  datatype Answer = Answer(hash: UsageHash, generation: nat)

  /** One process: its `syncCounter`, and the replies that it has not looked at yet, in the order of the calls.
      `recent` is bookkeeping: the counts of the present hash it has looked at since it last sent an update. */
  datatype Process = Process(counter: nat, recent: seq<nat>, replies: seq<Answer>)

  /** A Mongo update on its way. `batch` is bookkeeping: the counts of the present hash it accounts for. */
  datatype Update = Update(usageCount: nat, batch: seq<nat>)

  /** An initialisation between its commands: admitted with the document it read, then knowing whether the hash
      exists. */
  datatype Init = Admitted(snapshot: nat) | Checked(snapshot: nat, existed: bool)

  /** Besides the incarnation, `increments`, `lost` and `forgotten` are bookkeeping: how often the script ran, and by
      how much the recorded usage fell behind that when a hash was lost, and when increments went to a hash that was
      not or not yet initialised. */
  datatype State = State(hash: Option<UsageHash>, doc: Doc, processes: seq<Process>, updates: seq<Update>,
                         inits: map<nat, Init>, generation: nat, increments: nat, lost: int, forgotten: int)

  datatype Step =
    | Admit(stream: nat)
    | CheckExists(stream: nat)
    | WriteHash(stream: nat)
    | Bump(process: nat)
    | Reply(process: nat)
    | Land(update: nat)
    | SetActive(active: bool)
    | Lose

  predicate Keyed(s: State) {
    s.hash.Some? && s.hash.value.hasKey
  }

  /** The usage on record: the initialised hash, or else the document from which it will be initialised. */
  function Recorded(s: State): nat {
    if Keyed(s) then s.hash.value.usageCount else s.doc.usageCount
  }

  /** The counts a process has looked at, with the first reply. */
  function Seen(p: Process, g: nat): seq<nat>
    requires p.replies != []
  {
    if p.replies[0].generation == g then p.recent + [p.replies[0].hash.usageCount] else p.recent
  }

  /** A process after it looked at its first reply. */
  function LookedAt(p: Process, g: nat): Process
    requires p.replies != []
  {
    if SyncDue(p.counter) then Process(0, [], p.replies[1..]) else Process(p.counter + 1, Seen(p, g), p.replies[1..])
  }

  /** The updates on their way after that. An update looks the document up by the `key` field, so without one it is
      void. */
  function Sent(us: seq<Update>, p: Process, g: nat): seq<Update>
    requires p.replies != []
  {
    if SyncDue(p.counter) && p.replies[0].hash.hasKey then us + [Update(p.replies[0].hash.usageCount, Seen(p, g))]
    else us
  }

  /** The bookkeeping starts afresh with a new incarnation of the hash; the counters do not. */
  function Cleared(ps: seq<Process>): (r: seq<Process>)
    ensures |r| == |ps| && forall p | 0 <= p < |ps| :: r[p] == ps[p].(recent := [])
  {
    if ps == [] then [] else [ps[0].(recent := [])] + Cleared(ps[1..])
  }

  function Unbatched(us: seq<Update>): (r: seq<Update>)
    ensures |r| == |us| && forall j | 0 <= j < |us| :: r[j] == us[j].(batch := [])
  {
    if us == [] then [] else [us[0].(batch := [])] + Unbatched(us[1..])
  }

  function Renewed(s: State): State {
    s.(generation := s.generation + 1, processes := Cleared(s.processes), updates := Unbatched(s.updates))
  }

  function Next(s: State, step: Step): State {
    match step
    case Admit(i) =>
      if i in s.inits || Validate(Some(s.doc)).Err? then s
      else s.(inits := s.inits[i := Admitted(s.doc.usageCount)])
    case CheckExists(i) =>
      if i in s.inits && s.inits[i].Admitted? then
        s.(inits := s.inits[i := Checked(s.inits[i].snapshot, s.hash.Some?)])
      else s
    case WriteHash(i) =>
      if i !in s.inits || !s.inits[i].Checked? then s
      else
        var done := s.(inits := s.inits - {i});
        if s.inits[i].existed then done else Written(done, UsageHash(s.inits[i].snapshot, true))
    case Bump(p) =>
      if p >= |s.processes| then s
      else
        var h := Incremented(s.hash);
        var process := s.processes[p];
        s.(hash := Some(h),
           processes := s.processes[p := process.(replies := process.replies + [Answer(h, s.generation)])],
           increments := s.increments + 1,
           forgotten := s.forgotten + if Keyed(s) then 0 else 1)
    case Reply(p) =>
      if p >= |s.processes| || s.processes[p].replies == [] then s
      else s.(processes := s.processes[p := LookedAt(s.processes[p], s.generation)],
              updates := Sent(s.updates, s.processes[p], s.generation))
    case Land(j) =>
      if j >= |s.updates| then s
      else
        var c := s.updates[j].usageCount;
        s.(doc := s.doc.(usageCount := c), updates := s.updates[..j] + s.updates[j + 1..],
           forgotten := s.forgotten - if Keyed(s) then 0 else c - s.doc.usageCount)
    case SetActive(active) => s.(doc := s.doc.(active := active))
    case Lose =>
      if s.hash.None? then s
      else Renewed(s).(hash := None, lost := s.lost + (Recorded(s) - s.doc.usageCount))
  }

  /** `HSET` of a whole hash, over whatever is there. */
  function Written(s: State, h: UsageHash): State {
    var t := if s.hash.None? || s.hash == Some(h) then s else Renewed(s);
    t.(hash := Some(h), forgotten := s.forgotten + (Recorded(s) - h.usageCount))
  }

  function Run(s: State, steps: seq<Step>): State
    decreases |steps|
  {
    if steps == [] then s else Run(Next(s, steps[0]), steps[1..])
  }

  /** A key with no hash yet and fresh processes: how every run starts. */
  function Fresh(doc: Doc, processes: nat): State {
    State(None, doc, seq(processes, i => Process(0, [], [])), [], map[], 0, 0, 0, 0)
  }

  // ----- What is on its way -----

  /** Nothing is on its way: every reply was looked at and every update has taken effect. */
  predicate Settled(s: State) {
    s.updates == [] && forall p | 0 <= p < |s.processes| :: s.processes[p].replies == []
  }

  function Sum(ps: seq<Process>): nat {
    if ps == [] then 0 else ps[0].counter + Sum(ps[1..])
  }

  function Waiting(ps: seq<Process>): nat {
    if ps == [] then 0 else |ps[0].replies| + Waiting(ps[1..])
  }

  /** The increments that are on their way: as replies, or in updates of a thousand. */
  function InFlight(s: State): nat {
    Waiting(s.processes) + SYNC_EVERY * |s.updates|
  }

  lemma {:induction false} NoneWaiting(ps: seq<Process>)
    requires forall p | 0 <= p < |ps| :: ps[p].replies == []
    ensures Waiting(ps) == 0
  {
    if ps != [] {
      assert forall p | 0 <= p < |ps| - 1 :: ps[1..][p] == ps[p + 1];
      NoneWaiting(ps[1..]);
    }
  }

  lemma SettledIsQuiet(s: State)
    requires Settled(s)
    ensures InFlight(s) == 0
  {
    NoneWaiting(s.processes);
  }

  // ----- Counts that Mongo has not seen -----

  /** The counts of the present hash among some replies. */
  function Counts(replies: seq<Answer>, g: nat): (r: seq<nat>)
    ensures |r| <= |replies|
  {
    if replies == [] then []
    else (if replies[0].generation == g then [replies[0].hash.usageCount] else []) + Counts(replies[1..], g)
  }

  /** The counts of the present hash that a process has yet to put into an update. */
  function Held(p: Process, g: nat): seq<nat> {
    p.recent + Counts(p.replies, g)
  }

  function HeldByAll(ps: seq<Process>, g: nat): seq<nat> {
    if ps == [] then [] else Held(ps[0], g) + HeldByAll(ps[1..], g)
  }

  function Batched(us: seq<Update>): seq<nat> {
    if us == [] then [] else us[0].batch + Batched(us[1..])
  }

  function Times(n: nat, xs: seq<nat>): nat {
    if xs == [] then 0 else (if xs[0] == n then 1 else 0) + Times(n, xs[1..])
  }

  /** In how many places a count of the present hash is waiting. */
  function Unseen(s: State, n: nat): nat {
    Times(n, HeldByAll(s.processes, s.generation)) + Times(n, Batched(s.updates))
  }

  lemma {:induction false} TimesConcat(n: nat, xs: seq<nat>, ys: seq<nat>)
    ensures Times(n, xs + ys) == Times(n, xs) + Times(n, ys)
  {
    if xs == [] {
      assert xs + ys == ys;
    } else {
      TimesConcat(n, xs[1..], ys);
      assert (xs + ys)[1..] == xs[1..] + ys;
    }
  }

  lemma {:induction false} TimesMember(n: nat, xs: seq<nat>)
    ensures Times(n, xs) > 0 <==> n in xs
  {
    if xs != [] {
      TimesMember(n, xs[1..]);
    }
  }

  lemma {:induction false} HeldUpdate(n: nat, ps: seq<Process>, p: nat, q: Process, g: nat)
    requires p < |ps|
    ensures Times(n, HeldByAll(ps[p := q], g)) + Times(n, Held(ps[p], g)) ==
            Times(n, HeldByAll(ps, g)) + Times(n, Held(q, g))
  {
    TimesConcat(n, Held(ps[0], g), HeldByAll(ps[1..], g));
    if p == 0 {
      assert ps[p := q][1..] == ps[1..];
      TimesConcat(n, Held(q, g), HeldByAll(ps[1..], g));
    } else {
      HeldUpdate(n, ps[1..], p - 1, q, g);
      assert ps[p := q][1..] == ps[1..][p - 1 := q];
      TimesConcat(n, Held(ps[0], g), HeldByAll(ps[1..][p - 1 := q], g));
    }
  }

  lemma {:induction false} BatchedConcat(us: seq<Update>, vs: seq<Update>)
    ensures Batched(us + vs) == Batched(us) + Batched(vs)
  {
    if us == [] {
      assert us + vs == vs;
    } else {
      BatchedConcat(us[1..], vs);
      assert (us + vs)[1..] == us[1..] + vs && (us + vs)[0] == us[0];
      assert us[0].batch + (Batched(us[1..]) + Batched(vs)) == (us[0].batch + Batched(us[1..])) + Batched(vs);
    }
  }

  lemma BatchedAppend(n: nat, us: seq<Update>, u: Update)
    ensures Times(n, Batched(us + [u])) == Times(n, Batched(us)) + Times(n, u.batch)
  {
    BatchedConcat(us, [u]);
    assert Batched([u]) == u.batch;
    TimesConcat(n, Batched(us), u.batch);
  }

  lemma BatchedRemove(n: nat, us: seq<Update>, j: nat)
    requires j < |us|
    ensures Times(n, Batched(us)) == Times(n, Batched(us[..j] + us[j + 1..])) + Times(n, us[j].batch)
  {
    assert us == us[..j] + ([us[j]] + us[j + 1..]);
    BatchedConcat(us[..j], [us[j]] + us[j + 1..]);
    BatchedConcat(us[..j], us[j + 1..]);
    assert Batched([us[j]] + us[j + 1..]) == us[j].batch + Batched(us[j + 1..]);
    TimesConcat(n, Batched(us[..j]), us[j].batch + Batched(us[j + 1..]));
    TimesConcat(n, us[j].batch, Batched(us[j + 1..]));
    TimesConcat(n, Batched(us[..j]), Batched(us[j + 1..]));
  }

  lemma {:induction false} NothingHeld(ps: seq<Process>, g: nat)
    requires forall p | 0 <= p < |ps| :: Held(ps[p], g) == []
    ensures HeldByAll(ps, g) == []
  {
    if ps != [] {
      assert forall p | 0 <= p < |ps| - 1 :: ps[1..][p] == ps[p + 1];
      NothingHeld(ps[1..], g);
    }
  }

  lemma {:induction false} NothingBatched(us: seq<Update>)
    requires forall j | 0 <= j < |us| :: us[j].batch == []
    ensures Batched(us) == []
  {
    if us != [] {
      assert forall j | 0 <= j < |us| - 1 :: us[1..][j] == us[j + 1];
      NothingBatched(us[1..]);
    }
  }

  lemma {:induction false} CountsConcat(a: seq<Answer>, b: seq<Answer>, g: nat)
    ensures Counts(a + b, g) == Counts(a, g) + Counts(b, g)
  {
    if a == [] {
      assert a + b == b;
    } else {
      var first := if a[0].generation == g then [a[0].hash.usageCount] else [];
      CountsConcat(a[1..], b, g);
      assert (a + b)[1..] == a[1..] + b && (a + b)[0] == a[0];
      assert first + (Counts(a[1..], g) + Counts(b, g)) == (first + Counts(a[1..], g)) + Counts(b, g);
    }
  }

  lemma {:induction false} CountsNone(replies: seq<Answer>, g: nat)
    requires forall a | a in replies :: a.generation != g
    ensures Counts(replies, g) == []
  {
    if replies != [] {
      CountsNone(replies[1..], g);
    }
  }

  lemma {:induction false} CountsAll(replies: seq<Answer>, g: nat)
    requires forall a | a in replies :: a.generation == g
    ensures |Counts(replies, g)| == |replies|
  {
    if replies != [] {
      CountsAll(replies[1..], g);
    }
  }

  lemma HeldIsUnseen(s: State, p: nat, n: nat)
    requires p < |s.processes| && n in Held(s.processes[p], s.generation)
    ensures Unseen(s, n) > 0
  {
    TimesMember(n, Held(s.processes[p], s.generation));
    HeldUpdate(n, s.processes, p, Process(0, [], []), s.generation);
  }

  lemma HeldAfterBump(p: Process, h: UsageHash, g: nat)
    ensures Held(p.(replies := p.replies + [Answer(h, g)]), g) == Held(p, g) + [h.usageCount]
  {
    CountsConcat(p.replies, [Answer(h, g)], g);
    assert Counts([Answer(h, g)], g) == [h.usageCount] + Counts([], g);
    assert p.recent + (Counts(p.replies, g) + [h.usageCount]) == (p.recent + Counts(p.replies, g)) + [h.usageCount];
  }

  /** Looking at a reply cuts what a process holds behind that reply, or leaves it as it is. */
  lemma HeldAfterReply(p: Process, g: nat)
    requires p.replies != []
    ensures var held, k := Held(p, g), |Seen(p, g)|;
            && k <= |held| && Seen(p, g) == held[..k]
            && Held(LookedAt(p, g), g) == if SyncDue(p.counter) then held[k..] else held
  {
    var rest := Counts(p.replies[1..], g);
    assert Held(p, g) == Seen(p, g) + rest;
    assert Held(LookedAt(p, g), g) == if SyncDue(p.counter) then rest else Seen(p, g) + rest;
  }

  lemma BumpUnseen(s: State, p: nat, n: nat)
    requires p < |s.processes|
    ensures Unseen(Next(s, Bump(p)), n) == Unseen(s, n) + if n == Incremented(s.hash).usageCount then 1 else 0
  {
    var h, process := Incremented(s.hash), s.processes[p];
    var q := process.(replies := process.replies + [Answer(h, s.generation)]);
    assert Next(s, Bump(p)).processes == s.processes[p := q];
    HeldAfterBump(process, h, s.generation);
    HeldUpdate(n, s.processes, p, q, s.generation);
    TimesConcat(n, Held(process, s.generation), [h.usageCount]);
  }

  lemma TimesAfterReply(n: nat, p: Process, g: nat)
    requires p.replies != []
    ensures Times(n, Held(p, g)) ==
            Times(n, Held(LookedAt(p, g), g)) + if SyncDue(p.counter) then Times(n, Seen(p, g)) else 0
  {
    var held, k := Held(p, g), |Seen(p, g)|;
    HeldAfterReply(p, g);
    if SyncDue(p.counter) {
      TimesCut(n, held, k);
    }
  }

  lemma TimesCut(n: nat, xs: seq<nat>, k: nat)
    requires k <= |xs|
    ensures Times(n, xs) == Times(n, xs[..k]) + Times(n, xs[k..])
  {
    TimesConcat(n, xs[..k], xs[k..]);
    assert xs[..k] + xs[k..] == xs;
  }

  lemma TimesSent(n: nat, us: seq<Update>, p: Process, g: nat)
    requires p.replies != []
    ensures Times(n, Batched(Sent(us, p, g))) == Times(n, Batched(us)) +
              if SyncDue(p.counter) && p.replies[0].hash.hasKey then Times(n, Seen(p, g)) else 0
  {
    BatchedAppend(n, us, Update(p.replies[0].hash.usageCount, Seen(p, g)));
  }

  /** Looking at a reply moves counts from the process into an update, unless there is no key to send one for. */
  lemma ReplyUnseen(s: State, p: nat, n: nat)
    requires p < |s.processes| && s.processes[p].replies != []
    requires s.processes[p].replies[0].hash.hasKey || Seen(s.processes[p], s.generation) == []
    ensures Unseen(Next(s, Reply(p)), n) == Unseen(s, n)
  {
    var process, t := s.processes[p], Next(s, Reply(p));
    assert t.processes == s.processes[p := LookedAt(process, s.generation)];
    assert t.updates == Sent(s.updates, process, s.generation);
    TimesAfterReply(n, process, s.generation);
    HeldUpdate(n, s.processes, p, LookedAt(process, s.generation), s.generation);
    TimesSent(n, s.updates, process, s.generation);
  }

  lemma LandUnseen(s: State, j: nat, n: nat)
    requires j < |s.updates|
    ensures Unseen(s, n) == Unseen(Next(s, Land(j)), n) + Times(n, s.updates[j].batch)
  {
    BatchedRemove(n, s.updates, j);
  }

  /** As many entries as an interval has numbers. */
  lemma {:induction false} Pigeonhole(lo: nat, hi: nat, xs: seq<nat>)
    requires lo <= hi && forall n: nat | lo < n <= hi :: n in xs
    ensures hi - lo <= |xs|
  {
    if lo < hi {
      assert hi in xs;
      var i :| 0 <= i < |xs| && xs[i] == hi;
      var rest := xs[..i] + xs[i + 1..];
      forall n: nat | lo < n <= hi - 1 ensures n in rest {
        assert n in xs && xs == xs[..i] + [hi] + xs[i + 1..];
      }
      Pigeonhole(lo, hi - 1, rest);
    }
  }
}
