/** What holds of API-key usage in every run in which Mongo's count does not go down: how far Mongo can be behind, what
    can be missing from the record, and what an admission is worth. */
module ApiKeyBounds {
  import opened Wrappers
  import opened ApiKeyUsage

  // ----- What every run keeps -----

  predicate Ascending(xs: seq<nat>) {
    forall j, k | 0 <= j < k < |xs| :: xs[j] < xs[k]
  }

  /** Replies come in the order of the calls, so those of an older incarnation of the hash come first. */
  predicate InTurn(p: Process, g: nat) {
    && (forall j, k | 0 <= j < k < |p.replies| :: p.replies[j].generation <= p.replies[k].generation)
    && (forall a | a in p.replies :: a.generation <= g)
    && (p.recent != [] ==> forall a | a in p.replies :: a.generation == g)
  }

  predicate ProcessKept(p: Process, s: State) {
    && |p.recent| <= p.counter < SYNC_EVERY && InTurn(p, s.generation)
    && Ascending(Held(p, s.generation))
    && (forall n | n in Held(p, s.generation) :: s.hash.Some? && n <= s.hash.value.usageCount)
    && (forall a | a in p.replies && a.generation == s.generation :: a.hash.hasKey == Keyed(s))
  }

  predicate UpdateKept(u: Update) {
    |u.batch| <= SYNC_EVERY && forall n | n in u.batch :: n <= u.usageCount
  }

  /** Whatever count Redis has and Mongo has not is waiting somewhere, and nobody will initialise the hash with a count
      that Mongo has not reached. */
  ghost predicate Covered(s: State) {
    && (forall p | 0 <= p < |s.processes| :: ProcessKept(s.processes[p], s))
    && (forall j | 0 <= j < |s.updates| :: UpdateKept(s.updates[j]))
    && (forall i | i in s.inits :: s.inits[i].snapshot <= s.doc.usageCount)
    && (Keyed(s) ==> forall n: nat | s.doc.usageCount < n <= s.hash.value.usageCount :: Unseen(s, n) > 0)
  }

  /** Mongo's count does not go down: updates take effect in the order of their counts. */
  predicate InOrderStep(s: State, step: Step) {
    step.Land? && step.update < |s.updates| ==> s.doc.usageCount <= s.updates[step.update].usageCount
  }

  predicate InOrder(s: State, steps: seq<Step>)
    decreases |steps|
  {
    steps == [] || (InOrderStep(s, steps[0]) && InOrder(Next(s, steps[0]), steps[1..]))
  }

  lemma BumpInTurn(p: Process, h: UsageHash, g: nat)
    requires InTurn(p, g)
    ensures InTurn(p.(replies := p.replies + [Answer(h, g)]), g)
  {
    assert forall j | 0 <= j < |p.replies| :: p.replies[j] in p.replies;
  }

  lemma BumpHeld(s: State, p: nat)
    requires p < |s.processes| && ProcessKept(s.processes[p], s)
    ensures var t := Next(s, Bump(p));
            var held := Held(t.processes[p], t.generation);
            Ascending(held) && forall n | n in held :: n <= t.hash.value.usageCount
  {
    var held, h := Held(s.processes[p], s.generation), Incremented(s.hash);
    HeldAfterBump(s.processes[p], h, s.generation);
    AscendingSnoc(held, h.usageCount);
  }

  lemma BumpProcessKept(s: State, p: nat)
    requires p < |s.processes| && ProcessKept(s.processes[p], s)
    ensures var t := Next(s, Bump(p)); ProcessKept(t.processes[p], t)
  {
    BumpInTurn(s.processes[p], Incremented(s.hash), s.generation);
    BumpHeld(s, p);
    NoneHeldCurrent(s, p);
  }

  lemma AscendingSnoc(xs: seq<nat>, n: nat)
    requires Ascending(xs) && forall x | x in xs :: x < n
    ensures Ascending(xs + [n])
  {
    assert forall j | 0 <= j < |xs| :: xs[j] in xs;
  }

  lemma BumpCovered(s: State, p: nat)
    requires Covered(s) && p < |s.processes|
    ensures Covered(Next(s, Bump(p)))
  {
    var t, h := Next(s, Bump(p)), Incremented(s.hash);
    BumpProcessKept(s, p);
    forall q | 0 <= q < |t.processes| ensures ProcessKept(t.processes[q], t) {
      assert ProcessKept(s.processes[q], s);
      NoneHeldCurrent(s, q);
    }
    forall n: nat | Keyed(t) && t.doc.usageCount < n <= h.usageCount ensures Unseen(t, n) > 0 {
      BumpUnseen(s, p, n);
    }
  }

  lemma AscendingCut(xs: seq<nat>, k: nat)
    requires Ascending(xs) && k <= |xs|
    ensures Ascending(xs[k..])
    ensures k > 0 ==> xs[k - 1] in xs[..k] && forall n | n in xs[..k] :: n <= xs[k - 1]
  {
    if k > 0 {
      assert xs[..k][k - 1] == xs[k - 1];
      forall n | n in xs[..k] ensures n <= xs[k - 1] {
        var j :| 0 <= j < k && xs[j] == n;
      }
    }
  }

  lemma SeenLast(p: Process, g: nat)
    requires p.replies != [] && Ascending(Held(p, g)) && InTurn(p, g)
    ensures forall n | n in Seen(p, g) :: n <= p.replies[0].hash.usageCount
    ensures Seen(p, g) == [] || p.replies[0].generation == g
  {
    HeldAfterReply(p, g);
    AscendingCut(Held(p, g), |Seen(p, g)|);
    if p.replies[0].generation != g {
      assert p.replies[0] in p.replies;
    }
  }

  lemma ReplyHeldKept(p: Process, g: nat)
    requires p.replies != [] && Ascending(Held(p, g))
    ensures Ascending(Held(LookedAt(p, g), g)) && forall n | n in Held(LookedAt(p, g), g) :: n in Held(p, g)
  {
    HeldAfterReply(p, g);
    AscendingCut(Held(p, g), |Seen(p, g)|);
  }

  lemma ReplyInTurn(p: Process, g: nat)
    requires p.replies != [] && Ascending(Held(p, g)) && InTurn(p, g)
    ensures InTurn(LookedAt(p, g), g)
  {
    SeenLast(p, g);
    FirstIsOldest(p, g);
    assert forall a | a in p.replies[1..] :: a in p.replies;
  }

  lemma ReplyProcessKept(s: State, p: nat)
    requires p < |s.processes| && s.processes[p].replies != [] && ProcessKept(s.processes[p], s)
    ensures ProcessKept(LookedAt(s.processes[p], s.generation), s)
  {
    ReplyHeldKept(s.processes[p], s.generation);
    ReplyInTurn(s.processes[p], s.generation);
  }

  lemma FirstIsOldest(p: Process, g: nat)
    requires p.replies != [] && InTurn(p, g)
    ensures p.replies[0].generation == g ==> forall a | a in p.replies :: a.generation == g
  {
    forall a | a in p.replies && p.replies[0].generation == g ensures a.generation == g {
      var j :| 0 <= j < |p.replies| && p.replies[j] == a;
    }
  }

  /** What is dropped with a void update is not a count of an initialised hash. */
  lemma ReplyStillUnseen(s: State, p: nat, n: nat)
    requires p < |s.processes| && s.processes[p].replies != [] && ProcessKept(s.processes[p], s) && Keyed(s)
    ensures Unseen(Next(s, Reply(p)), n) == Unseen(s, n)
  {
    var process := s.processes[p];
    SeenLast(process, s.generation);
    assert process.replies[0] in process.replies;
    ReplyUnseen(s, p, n);
  }

  lemma SentKept(us: seq<Update>, p: Process, s: State)
    requires p.replies != [] && ProcessKept(p, s) && forall j | 0 <= j < |us| :: UpdateKept(us[j])
    ensures forall j | 0 <= j < |Sent(us, p, s.generation)| :: UpdateKept(Sent(us, p, s.generation)[j])
  {
    SeenLast(p, s.generation);
  }

  lemma ReplyCovered(s: State, p: nat)
    requires Covered(s) && p < |s.processes| && s.processes[p].replies != []
    ensures Covered(Next(s, Reply(p)))
  {
    var t := Next(s, Reply(p));
    ReplyProcessKept(s, p);
    SentKept(s.updates, s.processes[p], s);
    forall q | 0 <= q < |t.processes| ensures ProcessKept(t.processes[q], t) {
      assert ProcessKept(s.processes[q], s);
    }
    forall n: nat | Keyed(t) && t.doc.usageCount < n <= t.hash.value.usageCount ensures Unseen(t, n) > 0 {
      ReplyStillUnseen(s, p, n);
    }
  }

  lemma LandCovered(s: State, j: nat)
    requires Covered(s) && j < |s.updates| && s.doc.usageCount <= s.updates[j].usageCount
    ensures Covered(Next(s, Land(j)))
  {
    var t, u := Next(s, Land(j)), s.updates[j];
    forall q | 0 <= q < |t.processes| ensures ProcessKept(t.processes[q], t) {
      assert ProcessKept(s.processes[q], s);
    }
    forall n: nat | Keyed(t) && t.doc.usageCount < n <= t.hash.value.usageCount ensures Unseen(t, n) > 0 {
      LandUnseen(s, j, n);
      TimesMember(n, u.batch);
    }
  }

  lemma RenewedProcess(p: Process, g: nat)
    requires |p.recent| <= p.counter < SYNC_EVERY && InTurn(p, g)
    ensures var q := p.(recent := []);
            Held(q, g + 1) == [] && InTurn(q, g + 1) && forall a | a in q.replies :: a.generation != g + 1
  {
    CountsNone(p.replies, g + 1);
  }

  lemma RenewedProcessKept(p: Process, s: State, t: State)
    requires ProcessKept(p, s) && t.generation == s.generation + 1
    ensures ProcessKept(p.(recent := []), t)
  {
    RenewedProcess(p, s.generation);
  }

  /** A hash that is gone or new starts with a clean slate. */
  lemma RenewedCovered(s: State, hash: Option<UsageHash>, t: State)
    requires Covered(s) && t == Renewed(s).(hash := hash, inits := t.inits, lost := t.lost, forgotten := t.forgotten)
    requires forall i | i in t.inits :: t.inits[i].snapshot <= t.doc.usageCount
    requires Keyed(t) ==> hash.value.usageCount <= s.doc.usageCount
    ensures Covered(t)
  {
    forall p | 0 <= p < |t.processes| ensures ProcessKept(t.processes[p], t) {
      RenewedProcessKept(s.processes[p], s, t);
    }
  }

  lemma WriteHashCovered(s: State, i: nat)
    requires Covered(s) && i in s.inits && s.inits[i].Checked? && !s.inits[i].existed
    ensures Covered(Next(s, WriteHash(i)))
  {
    var h, t := UsageHash(s.inits[i].snapshot, true), Next(s, WriteHash(i));
    if s.hash.None? || s.hash == Some(h) {
      forall p | 0 <= p < |t.processes| ensures ProcessKept(t.processes[p], t) {
        assert ProcessKept(s.processes[p], s);
        NoneHeldCurrent(s, p);
      }
      assert forall n: nat :: Unseen(t, n) == Unseen(s, n);
    } else {
      RenewedCovered(s, Some(h), t);
    }
  }

  /** While there is no hash, no reply counts a present one. */
  lemma NoneHeldCurrent(s: State, p: nat)
    requires p < |s.processes| && ProcessKept(s.processes[p], s)
    ensures s.hash.None? ==> forall a | a in s.processes[p].replies :: a.generation != s.generation
  {
    if s.hash.None? {
      forall a | a in s.processes[p].replies ensures a.generation != s.generation {
        if a.generation == s.generation {
          HeldMember(s.processes[p], s.generation, a);
        }
      }
    }
  }

  lemma HeldMember(p: Process, g: nat, a: Answer)
    requires a in p.replies && a.generation == g
    ensures a.hash.usageCount in Held(p, g)
  {
    CountsMember(p.replies, g, a);
  }

  lemma {:induction false} CountsMember(replies: seq<Answer>, g: nat, a: Answer)
    requires a in replies && a.generation == g
    ensures a.hash.usageCount in Counts(replies, g)
  {
    if a != replies[0] {
      assert a in replies[1..];
      CountsMember(replies[1..], g, a);
    }
  }

  lemma QuietCovered(s: State, t: State)
    requires Covered(s) && t == s.(doc := t.doc, inits := t.inits) && t.doc.usageCount == s.doc.usageCount
    requires forall i | i in t.inits :: t.inits[i].snapshot <= t.doc.usageCount
    ensures Covered(t)
  {
    forall p | 0 <= p < |t.processes| ensures ProcessKept(t.processes[p], t) {
      assert ProcessKept(s.processes[p], s);
    }
    assert forall n: nat :: Unseen(t, n) == Unseen(s, n);
  }

  /** Whatever happens in whatever order, as long as Mongo's count does not go down. */
  lemma StepKeepsCovered(s: State, step: Step)
    requires Covered(s) && InOrderStep(s, step)
    ensures Covered(Next(s, step))
  {
    match step
    case Bump(p) => if p < |s.processes| { BumpCovered(s, p); }
    case Reply(p) => if p < |s.processes| && s.processes[p].replies != [] { ReplyCovered(s, p); }
    case Land(j) => if j < |s.updates| { LandCovered(s, j); }
    case Lose => if s.hash.Some? { RenewedCovered(s, None, Next(s, Lose)); }
    case WriteHash(i) =>
      if i in s.inits && s.inits[i].Checked? && !s.inits[i].existed {
        WriteHashCovered(s, i);
      } else {
        QuietCovered(s, Next(s, step));
      }
    case _ => QuietCovered(s, Next(s, step));
  }

  lemma {:induction false} RunKeepsCovered(s: State, steps: seq<Step>)
    requires Covered(s) && InOrder(s, steps)
    ensures Covered(Run(s, steps))
    decreases |steps|
  {
    if steps != [] {
      StepKeepsCovered(s, steps[0]);
      RunKeepsCovered(Next(s, steps[0]), steps[1..]);
    }
  }

  lemma FreshCovered(doc: Doc, processes: nat)
    ensures Covered(Fresh(doc, processes))
  {
    assert Counts([], 0) == [];
  }

  lemma {:induction false} ProcessesFixed(s: State, steps: seq<Step>)
    ensures |Run(s, steps).processes| == |s.processes|
    decreases |steps|
  {
    if steps != [] {
      ProcessesFixed(Next(s, steps[0]), steps[1..]);
    }
  }

  // ----- The lag -----

  predicate Sized(s: State) {
    && (forall p | 0 <= p < |s.processes| :: |s.processes[p].recent| <= s.processes[p].counter < SYNC_EVERY)
    && (forall j | 0 <= j < |s.updates| :: |s.updates[j].batch| <= SYNC_EVERY)
  }

  lemma {:induction false} HeldSize(ps: seq<Process>, g: nat)
    requires forall p | 0 <= p < |ps| :: |ps[p].recent| <= ps[p].counter < SYNC_EVERY
    ensures |HeldByAll(ps, g)| <= Sum(ps) + Waiting(ps) && Sum(ps) <= 999 * |ps|
  {
    if ps != [] {
      assert forall p | 0 <= p < |ps| - 1 :: ps[1..][p] == ps[p + 1];
      HeldSize(ps[1..], g);
    }
  }

  lemma {:induction false} BatchedSize(us: seq<Update>)
    requires forall j | 0 <= j < |us| :: |us[j].batch| <= SYNC_EVERY
    ensures |Batched(us)| <= SYNC_EVERY * |us|
  {
    if us != [] {
      assert forall j | 0 <= j < |us| - 1 :: us[1..][j] == us[j + 1];
      BatchedSize(us[1..]);
    }
  }

  lemma LagFits(s: State)
    requires Sized(s) && Keyed(s)
    requires forall n: nat | s.doc.usageCount < n <= s.hash.value.usageCount :: Unseen(s, n) > 0
    ensures s.hash.value.usageCount - s.doc.usageCount <= Sum(s.processes) + InFlight(s)
  {
    var held, batched := HeldByAll(s.processes, s.generation), Batched(s.updates);
    HeldSize(s.processes, s.generation);
    BatchedSize(s.updates);
    if s.doc.usageCount < s.hash.value.usageCount {
      forall n: nat | s.doc.usageCount < n <= s.hash.value.usageCount ensures n in held + batched {
        assert Unseen(s, n) > 0;
        TimesMember(n, held);
        TimesMember(n, batched);
      }
      Pigeonhole(s.doc.usageCount, s.hash.value.usageCount, held + batched);
    }
  }

  /** Mongo is behind an initialised hash by no more than what the processes have counted and what is on its way. */
  lemma LagBound(s: State)
    requires Covered(s)
    ensures Recorded(s) - s.doc.usageCount <= Sum(s.processes) + InFlight(s)
    ensures Sum(s.processes) <= 999 * |s.processes|
  {
    assert forall p | 0 <= p < |s.processes| :: ProcessKept(s.processes[p], s);
    assert forall j | 0 <= j < |s.updates| :: UpdateKept(s.updates[j]);
    HeldSize(s.processes, s.generation);
    if Keyed(s) {
      LagFits(s);
    }
  }

  // ----- The usage that is not on record -----

  lemma StepConserves(s: State, step: Step)
    ensures var t := Next(s, step);
            t.increments - s.increments ==
              (t.lost + t.forgotten + Recorded(t)) - (s.lost + s.forgotten + Recorded(s))
  {
  }

  /** Every increment is on record, or was lost with a hash, or was forgotten around an initialisation. */
  lemma {:induction false} Conserved(s: State, steps: seq<Step>)
    ensures var t := Run(s, steps);
            t.increments - s.increments ==
              (t.lost + t.forgotten + Recorded(t)) - (s.lost + s.forgotten + Recorded(s))
    decreases |steps|
  {
    if steps != [] {
      StepConserves(s, steps[0]);
      Conserved(Next(s, steps[0]), steps[1..]);
    }
  }

  function Losses(steps: seq<Step>): nat {
    if steps == [] then 0 else (if steps[0].Lose? then 1 else 0) + Losses(steps[1..])
  }

  /** What was on its way whenever a hash was lost. */
  function AtLosses(s: State, steps: seq<Step>): nat
    decreases |steps|
  {
    if steps == [] then 0
    else (if steps[0].Lose? && s.hash.Some? then InFlight(s) else 0) + AtLosses(Next(s, steps[0]), steps[1..])
  }

  /** The hash exists with its key, and no initialisation is about to overwrite it. */
  predicate Initialised(s: State) {
    Keyed(s) && forall i | i in s.inits && s.inits[i].Checked? :: s.inits[i].existed
  }

  /** The script calls that ran while the hash was not initialised. */
  function Raced(s: State, steps: seq<Step>): nat
    decreases |steps|
  {
    if steps == [] then 0
    else
      (if steps[0].Bump? && steps[0].process < |s.processes| && !Initialised(s) then 1 else 0)
      + Raced(Next(s, steps[0]), steps[1..])
  }

  /** By how much the document that a write of the hash is based on has become outdated since it was read. */
  function OutdatedBy(s: State, step: Step): int {
    if step.WriteHash? && step.stream in s.inits && s.inits[step.stream].Checked? && !s.inits[step.stream].existed
    then s.doc.usageCount - s.inits[step.stream].snapshot else 0
  }

  function Outdated(s: State, steps: seq<Step>): int
    decreases |steps|
  {
    if steps == [] then 0 else OutdatedBy(s, steps[0]) + Outdated(Next(s, steps[0]), steps[1..])
  }

  lemma StepLoss(s: State, step: Step)
    requires Covered(s)
    ensures Next(s, step).lost - s.lost <=
            if step.Lose? && s.hash.Some? then 999 * |s.processes| + InFlight(s) else 0
  {
    LagBound(s);
  }

  lemma OneMore(each: nat, n: nat)
    ensures each * (1 + n) == each + each * n
  {
  }

  /** What is lost with a hash is what Mongo had not seen of it. */
  lemma {:induction false} LostBounded(s: State, steps: seq<Step>, each: nat)
    requires Covered(s) && InOrder(s, steps) && each == 999 * |s.processes|
    ensures Run(s, steps).lost - s.lost <= each * Losses(steps) + AtLosses(s, steps)
    decreases |steps|
  {
    if steps != [] {
      var next, loses := Next(s, steps[0]), steps[0].Lose? && s.hash.Some?;
      StepKeepsCovered(s, steps[0]);
      StepLoss(s, steps[0]);
      LostBounded(next, steps[1..], each);
      OneMore(each, Losses(steps[1..]));
      assert next.lost - s.lost <= (if steps[0].Lose? then each else 0) + if loses then InFlight(s) else 0;
    }
  }

  /** What has been forgotten, and what an initialisation under way is about to make forgotten. */
  function Doomed(s: State): int {
    s.forgotten +
    if Keyed(s) && !Initialised(s) && s.hash.value.usageCount > s.doc.usageCount
    then s.hash.value.usageCount - s.doc.usageCount else 0
  }

  lemma StepDooms(s: State, step: Step)
    requires Covered(s) && InOrderStep(s, step)
    ensures Doomed(Next(s, step)) - Doomed(s) <= Raced(s, [step]) + OutdatedBy(s, step)
  {
    assert Raced(s, [step]) == (if step.Bump? && step.process < |s.processes| && !Initialised(s) then 1 else 0) + 0;
    if step.WriteHash? && step.stream in s.inits && s.inits[step.stream].Checked? {
      assert !s.inits[step.stream].existed ==> !Initialised(s);
    }
    if step.CheckExists? && step.stream in s.inits && s.inits[step.stream].Admitted? && s.hash.Some? {
      var t := Next(s, step);
      assert Initialised(s) ==> Initialised(t);
    }
  }

  /** Only what ran while the hash was not initialised is forgotten, and what an outdated admission wrote too little. */
  lemma {:induction false} ForgottenBounded(s: State, steps: seq<Step>)
    requires Covered(s) && InOrder(s, steps)
    ensures Doomed(Run(s, steps)) - Doomed(s) <= Raced(s, steps) + Outdated(s, steps)
    decreases |steps|
  {
    if steps != [] {
      StepKeepsCovered(s, steps[0]);
      StepDooms(s, steps[0]);
      assert Raced(s, steps) == Raced(s, [steps[0]]) + Raced(Next(s, steps[0]), steps[1..]);
      ForgottenBounded(Next(s, steps[0]), steps[1..]);
    }
  }

  /** With k processes, in any run at all in which Mongo's count does not go down: a stream that is admitted finds a
      key whose true usage is below its limit, but for at most 999 k for now and for each loss of the hash, what is or
      was then on its way, what ran while the hash was not initialised, and outdated admissions. */
  lemma AdmissionBound(doc: Doc, processes: nat, steps: seq<Step>)
    requires InOrder(Fresh(doc, processes), steps)
    ensures var s0 := Fresh(doc, processes);
            var s := Run(s0, steps);
            && Recorded(s) - s.doc.usageCount <= 999 * processes + InFlight(s)
            && (Validate(Some(s.doc)).Ok? ==>
                  doc.usageCount + s.increments
                  <= s.doc.usageLimit - 1 + 999 * processes * (1 + Losses(steps)) + InFlight(s)
                     + AtLosses(s0, steps) + Raced(s0, steps) + Outdated(s0, steps))
  {
    var s0 := Fresh(doc, processes);
    var s := Run(s0, steps);
    FreshCovered(doc, processes);
    RunKeepsCovered(s0, steps);
    ProcessesFixed(s0, steps);
    LagBound(s);
    Conserved(s0, steps);
    LostBounded(s0, steps, 999 * processes);
    ForgottenBounded(s0, steps);
    OneMore(999 * processes, Losses(steps));
  }
}
