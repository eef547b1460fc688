/** API-key usage without races: when exactly the accounting between Redis and Mongo is exact, and what it then says. */
module ApiKeyOrderly {
  import opened Wrappers
  import opened ApiKeyUsage
  import opened ApiKeyBounds

  /** The race-free steps. A count is taken only from a hash that is initialised and that no initialisation is about to
      overwrite; updates take effect in the order of their counts; and a hash is lost only when nothing is on its way
      and no stream was admitted with an outdated count. */
  predicate OrderlyStep(s: State, step: Step) {
    match step
    case Bump(p) => p < |s.processes| ==> Initialised(s)
    case Land(_) => InOrderStep(s, step)
    case Lose =>
      s.hash.Some? ==>
        Settled(s) && forall i | i in s.inits && s.inits[i].Admitted? :: s.inits[i].snapshot == s.doc.usageCount
    case _ => true
  }

  predicate Orderly(s: State, steps: seq<Step>)
    decreases |steps|
  {
    steps == [] || (OrderlyStep(s, steps[0]) && Orderly(Next(s, steps[0]), steps[1..]))
  }

  // ----- The invariant -----

  predicate ProcessSound(p: Process, g: nat) {
    && |p.recent| <= p.counter < SYNC_EVERY && Ascending(Held(p, g))
    && forall a | a in p.replies :: a.hash.hasKey && a.generation == g
  }

  predicate UpdateSound(u: Update) {
    u.usageCount in u.batch && UpdateKept(u)
  }

  predicate InitSound(s: State, init: Init) {
    match init
    case Admitted(snapshot) => s.hash.None? ==> snapshot == s.doc.usageCount
    case Checked(snapshot, existed) =>
      existed || (snapshot == s.doc.usageCount && (s.hash.Some? ==> s.hash.value.usageCount == s.doc.usageCount))
  }

  /** No process and no update holds a count. */
  predicate Blank(s: State) {
    s.updates == [] && forall p | 0 <= p < |s.processes| :: s.processes[p].recent == [] && s.processes[p].replies == []
  }

  /** A count that Redis has and Mongo has not seen is waiting in exactly one place; an older one may still be
      waiting, in an update that a later one overtook. */
  predicate AccountedAt(n: nat, h: nat, seen: nat, places: nat) {
    if n > h || n == seen then places == 0 else if n > seen then places == 1 else places <= 1
  }

  ghost predicate Accounted(s: State, h: nat) {
    s.doc.usageCount <= h && forall n: nat :: AccountedAt(n, h, s.doc.usageCount, Unseen(s, n))
  }

  /** What every orderly step keeps; `base` is the count the key had before the run. */
  ghost predicate Inv(s: State, base: int) {
    && (if s.hash.Some? then s.hash.value.hasKey && Accounted(s, s.hash.value.usageCount) else Blank(s))
    && (forall p | 0 <= p < |s.processes| :: ProcessSound(s.processes[p], s.generation))
    && (forall j | 0 <= j < |s.updates| :: UpdateSound(s.updates[j]))
    && (forall i | i in s.inits :: InitSound(s, s.inits[i]))
    && base + s.increments == s.lost + Recorded(s)
  }

  // ----- What each step keeps -----

  lemma BlankIsEmpty(s: State, n: nat)
    requires Blank(s)
    ensures Unseen(s, n) == 0
  {
    NothingHeld(s.processes, s.generation);
  }

  lemma BumpKeeps(s: State, p: nat, base: int)
    requires Inv(s, base) && OrderlyStep(s, Bump(p)) && p < |s.processes|
    ensures Inv(Next(s, Bump(p)), base)
  {
    var process, h, g := s.processes[p], Incremented(s.hash), s.generation;
    HeldAfterBump(process, h, g);
    forall n: nat ensures AccountedAt(n, h.usageCount, s.doc.usageCount, Unseen(Next(s, Bump(p)), n)) {
      BumpUnseen(s, p, n);
    }
    forall j | 0 <= j < |Held(process, g)| ensures Held(process, g)[j] < h.usageCount {
      HeldIsUnseen(s, p, Held(process, g)[j]);
    }
  }

  lemma ReplySound(p: Process, g: nat)
    requires p.replies != [] && ProcessSound(p, g)
    ensures ProcessSound(LookedAt(p, g), g)
  {
    ReplyHeldKept(p, g);
    assert p.replies[0] in p.replies && forall a | a in p.replies[1..] :: a in p.replies;
  }

  lemma SentSound(p: Process, g: nat)
    requires p.replies != [] && ProcessSound(p, g) && SyncDue(p.counter)
    ensures UpdateSound(Update(p.replies[0].hash.usageCount, Seen(p, g)))
  {
    assert p.replies[0] in p.replies;
    LastOfSeen(p, g);
    DueAtMost(p.counter);
  }

  lemma LastOfSeen(p: Process, g: nat)
    requires p.replies != [] && p.replies[0].generation == g && Ascending(Held(p, g))
    ensures var c := p.replies[0].hash.usageCount; c in Seen(p, g) && forall n | n in Seen(p, g) :: n <= c
  {
    var k := |p.recent|;
    HeldAfterReply(p, g);
    AscendingCut(Held(p, g), k + 1);
    assert Seen(p, g)[k] == p.replies[0].hash.usageCount;
  }

  lemma DueAtMost(counter: nat)
    requires SyncDue(counter) && counter < SYNC_EVERY
    ensures counter + 1 == SYNC_EVERY
  {
  }

  lemma ReplyKeeps(s: State, p: nat, base: int)
    requires Inv(s, base) && p < |s.processes| && s.processes[p].replies != []
    ensures Inv(Next(s, Reply(p)), base)
  {
    var process := s.processes[p];
    assert process.replies[0] in process.replies && s.hash.Some?;
    ReplySound(process, s.generation);
    if SyncDue(process.counter) {
      SentSound(process, s.generation);
    }
    forall n: nat ensures AccountedAt(n, s.hash.value.usageCount, s.doc.usageCount, Unseen(Next(s, Reply(p)), n)) {
      ReplyUnseen(s, p, n);
    }
  }

  lemma LandKeeps(s: State, j: nat, base: int)
    requires Inv(s, base) && OrderlyStep(s, Land(j)) && j < |s.updates|
    ensures Inv(Next(s, Land(j)), base)
  {
    var u, h := s.updates[j], s.hash.value.usageCount;
    TimesMember(u.usageCount, u.batch);
    LandUnseen(s, j, u.usageCount);
    assert AccountedAt(u.usageCount, h, s.doc.usageCount, Unseen(s, u.usageCount));
    assert s.doc.usageCount < h;
    forall n: nat ensures AccountedAt(n, h, u.usageCount, Unseen(Next(s, Land(j)), n)) {
      LandUnseen(s, j, n);
      TimesMember(n, u.batch);
      assert AccountedAt(n, h, s.doc.usageCount, Unseen(s, n));
    }
  }

  lemma LandBreaks(s: State, j: nat, base: int)
    requires Inv(s, base) && j < |s.updates| && s.updates[j].usageCount < s.doc.usageCount
    ensures !Inv(Next(s, Land(j)), base)
  {
    var n := s.doc.usageCount;
    LandUnseen(s, j, n);
    assert AccountedAt(n, s.hash.value.usageCount, n, Unseen(s, n));
    assert !AccountedAt(n, s.hash.value.usageCount, s.updates[j].usageCount, Unseen(Next(s, Land(j)), n));
  }

  lemma BumpBreaks(s: State, p: nat, base: int)
    requires Inv(s, base) && p < |s.processes| && !OrderlyStep(s, Bump(p))
    ensures !Inv(Next(s, Bump(p)), base)
  {
    var t := Next(s, Bump(p));
    if s.hash.Some? {
      var i :| i in s.inits && s.inits[i].Checked? && !s.inits[i].existed;
      assert InitSound(s, s.inits[i]) && !InitSound(t, t.inits[i]);
    }
  }

  lemma LoseBreaks(s: State, base: int)
    requires Inv(s, base) && !OrderlyStep(s, Lose)
    ensures !Inv(Next(s, Lose), base)
  {
    var t := Next(s, Lose);
    if Settled(s) {
      var i :| i in s.inits && s.inits[i].Admitted? && s.inits[i].snapshot != s.doc.usageCount;
      assert !InitSound(t, t.inits[i]);
    } else if s.updates == [] {
      var p :| 0 <= p < |s.processes| && s.processes[p].replies != [];
      assert t.processes[p].replies != [];
    }
  }

  lemma LoseKeeps(s: State, base: int)
    requires Inv(s, base) && OrderlyStep(s, Lose)
    ensures Inv(Next(s, Lose), base)
  {
    if s.hash.Some? {
      assert Blank(Next(s, Lose));
    }
  }

  lemma SameUnseen(s: State, t: State)
    requires t.processes == s.processes && t.updates == s.updates && t.generation == s.generation
    ensures forall n: nat :: Unseen(t, n) == Unseen(s, n)
  {
  }

  lemma WriteHashKeeps(s: State, i: nat, base: int)
    requires Inv(s, base)
    ensures Inv(Next(s, WriteHash(i)), base)
  {
    if s.hash.None? {
      forall n: nat ensures Unseen(s, n) == 0 {
        BlankIsEmpty(s, n);
      }
    }
    SameUnseen(s, Next(s, WriteHash(i)));
  }

  /** A step keeps the invariant if and only if it is orderly: the guards are exactly the races to avoid. */
  lemma StepKeepsInvIff(s: State, step: Step, base: int)
    requires Inv(s, base)
    ensures Inv(Next(s, step), base) <==> OrderlyStep(s, step)
  {
    match step
    case Bump(p) =>
      if p < |s.processes| {
        if OrderlyStep(s, step) {
          BumpKeeps(s, p, base);
        } else {
          BumpBreaks(s, p, base);
        }
      }
    case Reply(p) =>
      if p < |s.processes| && s.processes[p].replies != [] {
        ReplyKeeps(s, p, base);
      }
    case Land(j) =>
      if j < |s.updates| {
        if OrderlyStep(s, step) {
          LandKeeps(s, j, base);
        } else {
          LandBreaks(s, j, base);
        }
      }
    case Lose =>
      if OrderlyStep(s, step) {
        LoseKeeps(s, base);
      } else {
        LoseBreaks(s, base);
      }
    case WriteHash(i) => WriteHashKeeps(s, i, base);
    case _ => SameUnseen(s, Next(s, step));
  }

  lemma FreshInv(doc: Doc, processes: nat)
    ensures Inv(Fresh(doc, processes), doc.usageCount)
  {
    assert Counts([], 0) == [];
  }

  // ----- Runs -----

  /** Every state of an orderly run, with any number of processes, re-initialisations and losses of the hash. */
  lemma {:induction false} RunKeepsInv(s: State, steps: seq<Step>, base: int)
    requires Inv(s, base) && Orderly(s, steps)
    ensures Inv(Run(s, steps), base)
    decreases |steps|
  {
    if steps != [] {
      StepKeepsInvIff(s, steps[0], base);
      RunKeepsInv(Next(s, steps[0]), steps[1..], base);
    }
  }

  /** In an orderly run nothing races, no admission is outdated, and nothing is on its way when a hash is lost. */
  lemma {:induction false} OrderlyCostsNothing(s: State, steps: seq<Step>, base: int)
    requires Inv(s, base) && Orderly(s, steps)
    ensures InOrder(s, steps) && AtLosses(s, steps) == 0 && Raced(s, steps) == 0 && Outdated(s, steps) == 0
    decreases |steps|
  {
    if steps != [] {
      StepKeepsInvIff(s, steps[0], base);
      OrderlyCostsNothing(Next(s, steps[0]), steps[1..], base);
      if steps[0].Lose? && s.hash.Some? {
        SettledIsQuiet(s);
      }
    }
  }

  /** Then Mongo is never ahead of Redis, nothing is forgotten, and with k processes nothing worse happens than a lag of
      999 k and what is on its way, and the loss of 999 k with each hash. */
  lemma OrderlyBound(doc: Doc, processes: nat, steps: seq<Step>)
    requires Orderly(Fresh(doc, processes), steps)
    ensures var s := Run(Fresh(doc, processes), steps);
            && 0 <= Recorded(s) - s.doc.usageCount <= 999 * processes + InFlight(s)
            && (Settled(s) ==> InFlight(s) == 0)
            && s.forgotten == 0 && doc.usageCount + s.increments == s.lost + Recorded(s)
            && 0 <= s.lost <= 999 * processes * Losses(steps)
            && (Validate(Some(s.doc)).Ok? ==>
                  doc.usageCount + s.increments
                  <= s.doc.usageLimit - 1 + 999 * processes * (1 + Losses(steps)) + InFlight(s))
  {
    var s0 := Fresh(doc, processes);
    var s := Run(s0, steps);
    FreshInv(doc, processes);
    RunKeepsInv(s0, steps, doc.usageCount);
    OrderlyCostsNothing(s0, steps, doc.usageCount);
    AdmissionBound(doc, processes, steps);
    FreshCovered(doc, processes);
    LostBounded(s0, steps, 999 * processes);
    Conserved(s0, steps);
    LostGrows(s0, steps, doc.usageCount);
    if Settled(s) {
      SettledIsQuiet(s);
    }
  }

  lemma {:induction false} LostGrows(s: State, steps: seq<Step>, base: int)
    requires Inv(s, base) && Orderly(s, steps)
    ensures s.lost <= Run(s, steps).lost
    decreases |steps|
  {
    if steps != [] {
      StepKeepsInvIff(s, steps[0], base);
      LostGrows(Next(s, steps[0]), steps[1..], base);
    }
  }

  /** Once the hash is initialised, streams may be admitted, initialised and counted in any interleaving. */
  lemma {:induction false} OnceInitialised(s: State, steps: seq<Step>)
    requires Initialised(s) && forall i | 0 <= i < |steps| :: !steps[i].Lose? && !steps[i].Land?
    ensures Orderly(s, steps) && Initialised(Run(s, steps))
    decreases |steps|
  {
    if steps != [] {
      assert Initialised(Next(s, steps[0]));
      assert forall i | 0 <= i < |steps| - 1 :: steps[1..][i] == steps[i + 1];
      OnceInitialised(Next(s, steps[0]), steps[1..]);
    }
  }

  // ----- One process -----

  /** Consecutive counts up to `top`. */
  ghost predicate EndsAt(counts: seq<nat>, top: nat) {
    forall j | 0 <= j < |counts| :: counts[j] == top - |counts| + 1 + j
  }

  lemma EndsAtCut(counts: seq<nat>, k: nat, top: nat)
    requires EndsAt(counts, top) && k <= |counts|
    ensures EndsAt(counts[k..], top)
  {
  }

  /** The counter is what a process has looked at, modulo 1000. */
  predicate CountsAllOf(p: Process, increments: nat) {
    && |p.recent| == p.counter && |p.replies| <= increments
    && (increments - |p.replies|) % 1000 == p.counter
  }

  /** One process that never lost a hash holds the newest counts, all of them. */
  ghost predicate Newest(s: State) {
    && |s.processes| == 1 && CountsAllOf(s.processes[0], s.increments)
    && (if s.hash.None? then s.increments == 0
        else EndsAt(Held(s.processes[0], s.generation), s.hash.value.usageCount))
  }

  lemma EndsAtSnoc(counts: seq<nat>, top: nat)
    requires EndsAt(counts, top)
    ensures EndsAt(counts + [top + 1], top + 1)
  {
  }

  lemma NewestBump(s: State)
    requires Newest(s) && s.hash.Some?
    ensures Newest(Next(s, Bump(0)))
  {
    var process, g := s.processes[0], s.generation;
    HeldAfterBump(process, Incremented(s.hash), g);
    EndsAtSnoc(Held(process, g), s.hash.value.usageCount);
  }

  lemma NextCounter(n: nat, counter: nat)
    requires n % 1000 == counter
    ensures (n + 1) % 1000 == if SyncDue(counter) then 0 else counter + 1
  {
  }

  lemma ReplyCountsAllOf(p: Process, g: nat, increments: nat)
    requires p.replies != [] && p.replies[0].generation == g && CountsAllOf(p, increments)
    ensures CountsAllOf(LookedAt(p, g), increments)
  {
    NextCounter(increments - |p.replies|, p.counter);
  }

  lemma ReplyEndsAt(p: Process, g: nat, top: nat)
    requires p.replies != [] && EndsAt(Held(p, g), top)
    ensures EndsAt(Held(LookedAt(p, g), g), top)
  {
    HeldAfterReply(p, g);
    EndsAtCut(Held(p, g), |Seen(p, g)|, top);
  }

  lemma NewestReply(s: State, base: int)
    requires Inv(s, base) && Newest(s) && s.processes[0].replies != []
    ensures Newest(Next(s, Reply(0)))
  {
    var process, g := s.processes[0], s.generation;
    assert process.replies[0] in process.replies && s.hash.Some?;
    ReplyCountsAllOf(process, g, s.increments);
    ReplyEndsAt(process, g, s.hash.value.usageCount);
  }

  lemma NewestStep(s: State, step: Step, base: int)
    requires Inv(s, base) && Newest(s) && OrderlyStep(s, step) && !step.Lose?
    ensures Newest(Next(s, step))
  {
    match step
    case Bump(p) => if p == 0 { NewestBump(s); }
    case Reply(p) => if p == 0 && s.processes[0].replies != [] { NewestReply(s, base); }
    case _ =>
  }

  lemma {:induction false} NewestRun(s: State, steps: seq<Step>, base: int)
    requires Inv(s, base) && Newest(s) && Orderly(s, steps) && Losses(steps) == 0
    ensures Newest(Run(s, steps))
    decreases |steps|
  {
    if steps != [] {
      NewestStep(s, steps[0], base);
      StepKeepsInvIff(s, steps[0], base);
      NewestRun(Next(s, steps[0]), steps[1..], base);
    }
  }

  lemma FreshNewest(doc: Doc)
    ensures Newest(Fresh(doc, 1))
  {
    assert Held(Process(0, [], []), 0) == [];
  }

  /** Once the updates have landed, the lag is the number of replies on their way and the number of replies seen
      modulo 1000. */
  predicate LagIsRemainder(s: State) {
    && |s.processes| == 1 && |s.processes[0].replies| <= s.increments
    && var waiting := |s.processes[0].replies|;
       (s.hash.Some? && s.updates == [] ==>
          s.hash.value.usageCount - s.doc.usageCount == waiting + (s.increments - waiting) % 1000)
  }

  lemma OneProcessUnseen(s: State, n: nat)
    requires |s.processes| == 1 && s.updates == []
    ensures Unseen(s, n) > 0 <==> n in Held(s.processes[0], s.generation)
  {
    var held := Held(s.processes[0], s.generation);
    assert s.processes[1..] == [] && held + [] == held;
    assert HeldByAll(s.processes, s.generation) == held;
    assert Times(n, Batched(s.updates)) == 0;
    TimesMember(n, held);
  }

  lemma AmongNewest(counts: seq<nat>, top: nat, n: nat)
    requires EndsAt(counts, top) && top - |counts| < n <= top
    ensures n in counts
  {
    assert counts[n - (top - |counts| + 1)] == n;
  }

  lemma NewestLag(s: State, base: int)
    requires Inv(s, base) && Newest(s)
    ensures LagIsRemainder(s)
  {
    if s.hash.Some? && s.updates == [] {
      var process, seen, h := s.processes[0], s.doc.usageCount, s.hash.value.usageCount;
      var held := Held(process, s.generation);
      CountsAll(process.replies, s.generation);
      forall n: nat | seen <= n <= h ensures n in held <==> n > seen {
        OneProcessUnseen(s, n);
        assert AccountedAt(n, h, seen, Unseen(s, n));
      }
      if h - |held| < seen {
        AmongNewest(held, h, seen);
      }
      Pigeonhole(seen, h, held);
    }
  }

  /** One process and no loss: nothing but that remainder is ever missing in Mongo. */
  lemma SingleProcessLag(doc: Doc, steps: seq<Step>)
    requires Orderly(Fresh(doc, 1), steps) && Losses(steps) == 0
    ensures LagIsRemainder(Run(Fresh(doc, 1), steps))
  {
    var s0 := Fresh(doc, 1);
    FreshInv(doc, 1);
    FreshNewest(doc);
    RunKeepsInv(s0, steps, doc.usageCount);
    NewestRun(s0, steps, doc.usageCount);
    NewestLag(Run(s0, steps), doc.usageCount);
  }
}
