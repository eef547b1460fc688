/** Sign-up, e-mail verification, sign-in and refresh-token rotation as interleaved steps: every `await` on Redis or
    on the user collection is a point at which other requests may run. */
module Authentication {
  import opened Wrappers

  const OTP_TTL := 600_000

  datatype User = User(password: string, verified: bool)

  datatype Otp = Otp(hash: string, setAt: int)

  /** A request between two of its awaits. */
  datatype Thread =
    | SignUpFind(user: string, password: string)
    | SignUpCreate(user: string, password: string)
    | SignUpOtp(user: string)
    | ResendFind(user: string)
    | ResendGet(user: string)
    | ResendDelete(user: string)
    | ResendSet(user: string)
    | VerifyFind(user: string, otp: string)
    | VerifyGet(user: string, otp: string)
    | VerifyDelete(user: string)
    | VerifyMark(user: string)
    | SignInFind(user: string, password: string)
    | SignInInsert(user: string, id: nat)
    | RefreshFind(user: string, id: nat)
    | RefreshValidate(user: string, id: nat)
    | RefreshDelete(user: string, id: nat)
    | RefreshInsert(user: string, id: nat)

  /** What has happened, in order. Storing a refresh id is what issues the token pair that carries it. */
  datatype Event =
    | OtpSet(user: string, otp: Otp)
    | OtpMatched(user: string, givenHash: string, otp: Otp, readAt: int)
    | Verified(user: string)
    | Issued(user: string, id: nat)
    | Accepted(user: string, id: nat)

  datatype State = State(now: int, users: map<string, User>, otps: map<string, Otp>, slots: map<string, nat>,
                         nextId: nat, threads: map<nat, Thread>, history: seq<Event>)

  /** A request starts, a request takes its next step (drawing `otp` if it makes a new code), or time passes. */
  datatype Step = Begin(request: nat, thread: Thread) | Turn(request: nat, otp: string) | Tick(ms: nat)

  predicate IsStart(s: State, t: Thread) {
    || t.SignUpFind? || t.ResendFind? || t.VerifyFind? || t.SignInFind?
    || (t.RefreshFind? && Issued(t.user, t.id) in s.history)  // the token's signature has been checked
  }

  function LiveOtp(s: State, user: string): Option<Otp> {
    if user in s.otps && s.now <= s.otps[user].setAt + OTP_TTL then Some(s.otps[user]) else None
  }

  function Goto(s: State, r: nat, t: Thread): State {
    s.(threads := s.threads[r := t])
  }

  function Done(s: State, r: nat): State {
    s.(threads := s.threads - {r})
  }

  function Log(s: State, e: Event): State {
    s.(history := s.history + [e])
  }

  function SetOtp(s: State, user: string, hash: string): State {
    Log(s.(otps := s.otps[user := Otp(hash, s.now)]), OtpSet(user, Otp(hash, s.now)))
  }

  /** `generateTokens` draws a fresh id before it awaits anything. */
  function Draw(s: State, r: nat, t: Thread): State {
    Goto(s.(nextId := s.nextId + 1), r, t)
  }

  predicate IsCodeStep(t: Thread) {
    t.SignUpFind? || t.SignUpCreate? || t.SignUpOtp? || t.ResendFind? || t.ResendGet? || t.ResendDelete? || t.ResendSet?
  }

  predicate IsVerifyStep(t: Thread) {
    t.VerifyFind? || t.VerifyGet? || t.VerifyDelete? || t.VerifyMark?
  }

  /** `singUp` and `resendOtp`. */
  function CodeTurn(hash: string -> string, s: State, r: nat, otp: string): State
    requires r in s.threads && IsCodeStep(s.threads[r])
  {
    match s.threads[r]
    case SignUpFind(u, pw) => if u in s.users then Done(s, r) else Goto(s, r, SignUpCreate(u, pw))
    case SignUpCreate(u, pw) =>
      if u in s.users then Done(s, r)
      else Goto(s.(users := s.users[u := User(pw, false)]), r, SignUpOtp(u))
    case SignUpOtp(u) => Done(SetOtp(s, u, hash(otp)), r)
    case ResendFind(u) => if u !in s.users || s.users[u].verified then Done(s, r) else Goto(s, r, ResendGet(u))
    case ResendGet(u) => Goto(s, r, if LiveOtp(s, u).Some? then ResendDelete(u) else ResendSet(u))
    case ResendDelete(u) => Goto(s.(otps := s.otps - {u}), r, ResendSet(u))
    case ResendSet(u) => Done(SetOtp(s, u, hash(otp)), r)
  }

  /** `verifyEmail`. */
  function VerifyTurn(hash: string -> string, s: State, r: nat): State
    requires r in s.threads && IsVerifyStep(s.threads[r])
  {
    match s.threads[r]
    case VerifyFind(u, given) =>
      if u !in s.users || s.users[u].verified then Done(s, r) else Goto(s, r, VerifyGet(u, given))
    case VerifyGet(u, given) => (
      match LiveOtp(s, u)
      case None => Done(s, r)
      case Some(stored) =>
        if hash(given) != stored.hash then Done(s, r)
        else Log(Goto(s, r, VerifyDelete(u)), OtpMatched(u, hash(given), stored, s.now)))
    case VerifyDelete(u) => Goto(s.(otps := s.otps - {u}), r, VerifyMark(u))
    case VerifyMark(u) =>
      if u !in s.users then Done(s, r)
      else Log(Done(s.(users := s.users[u := s.users[u].(verified := true)]), r), Verified(u))
  }

  /** `singIn`, `refreshToken` and the `generateTokens` both end with. */
  function TokenTurn(s: State, r: nat): State
    requires r in s.threads && !IsCodeStep(s.threads[r]) && !IsVerifyStep(s.threads[r])
  {
    match s.threads[r]
    case SignInFind(u, pw) =>
      if u !in s.users || s.users[u].password != pw || !s.users[u].verified then Done(s, r)
      else Draw(s, r, SignInInsert(u, s.nextId))
    case SignInInsert(u, id) => Log(Done(s.(slots := s.slots[u := id]), r), Issued(u, id))
    case RefreshFind(u, id) => if u !in s.users then Done(s, r) else Goto(s, r, RefreshValidate(u, id))
    case RefreshValidate(u, id) =>
      if Validates(s, u, id) then Log(Goto(s, r, RefreshDelete(u, id)), Accepted(u, id)) else Done(s, r)
    case RefreshDelete(u, _) => Draw(s.(slots := s.slots - {u}), r, RefreshInsert(u, s.nextId))
    case RefreshInsert(u, id) => Log(Done(s.(slots := s.slots[u := id]), r), Issued(u, id))
  }

  function TurnOf(hash: string -> string, s: State, r: nat, otp: string): State
    requires r in s.threads
  {
    if IsCodeStep(s.threads[r]) then CodeTurn(hash, s, r, otp)
    else if IsVerifyStep(s.threads[r]) then VerifyTurn(hash, s, r)
    else TokenTurn(s, r)
  }

  /** `RedisService.validate`: the slot holds this very id. */
  predicate Validates(s: State, user: string, id: nat) {
    user in s.slots && s.slots[user] == id
  }

  function Next(hash: string -> string, s: State, step: Step): State {
    match step
    case Begin(r, t) => if r in s.threads || !IsStart(s, t) then s else Goto(s, r, t)
    case Turn(r, otp) => if r in s.threads then TurnOf(hash, s, r, otp) else s
    case Tick(ms) => s.(now := s.now + ms)
  }

  function Run(hash: string -> string, s: State, steps: seq<Step>): State
    decreases |steps|
  {
    if steps == [] then s else Run(hash, Next(hash, s, steps[0]), steps[1..])
  }

  function Start(now: int): State {
    State(now, map[], map[], map[], 0, map[], [])
  }

  // ----- Refresh ids -----

  predicate WasIssued(s: State, user: string, id: nat) {
    Issued(user, id) in s.history
  }

  predicate WasAccepted(s: State, user: string, id: nat) {
    Accepted(user, id) in s.history
  }

  predicate Inserts(t: Thread) {
    t.SignInInsert? || t.RefreshInsert?
  }

  /** Ids are drawn fresh, stored once, and a slot only ever holds an issued id. */
  ghost predicate IdsFresh(s: State) {
    && (forall u: string, id: nat :: WasIssued(s, u, id) ==> id < s.nextId)
    && (forall r | r in s.threads && Inserts(s.threads[r]) :: s.threads[r].id < s.nextId)
    && (forall r, u | r in s.threads && Inserts(s.threads[r]) :: !WasIssued(s, u, s.threads[r].id))
    && (forall r, q | r in s.threads && q in s.threads && r != q && Inserts(s.threads[r]) && Inserts(s.threads[q]) ::
          s.threads[r].id != s.threads[q].id)
    && (forall u | u in s.slots :: WasIssued(s, u, s.slots[u]))
  }

  ghost predicate Deleting(s: State, user: string, id: nat) {
    exists r | r in s.threads :: s.threads[r] == RefreshDelete(user, id)
  }

  /** An id that has been accepted still validates only while a request that accepted it has yet to delete it. */
  ghost predicate AcceptsTracked(s: State) {
    && (forall u: string, id: nat :: WasAccepted(s, u, id) && Validates(s, u, id) ==> Deleting(s, u, id))
    && (forall u: string, id: nat :: WasAccepted(s, u, id) ==> WasIssued(s, u, id))
    && (forall r | r in s.threads && s.threads[r].RefreshDelete? :: WasAccepted(s, s.threads[r].user, s.threads[r].id))
  }

  /** Nothing is recorded about ids. */
  ghost predicate Quiet(s: State, s': State) {
    || s'.history == s.history
    || (|s'.history| == |s.history| + 1 && s'.history[..|s.history|] == s.history
        && !s'.history[|s.history|].Issued? && !s'.history[|s.history|].Accepted?)
  }

  lemma QuietSame(s: State, s': State)
    requires Quiet(s, s')
    ensures forall u: string, id: nat :: WasIssued(s', u, id) <==> WasIssued(s, u, id)
    ensures forall u: string, id: nat :: WasAccepted(s', u, id) <==> WasAccepted(s, u, id)
  {
    if s'.history != s.history {
      var e := s'.history[|s.history|];
      assert s'.history == s.history + [e];
      HistoryGrows(s, s', e);
    }
  }

  /** A step that touches neither slots, ids nor the record of them. */
  ghost predicate SameIds(s: State, s': State, r: nat) {
    && s'.slots == s.slots && s'.nextId == s.nextId
    && Quiet(s, s')
    && (forall q | q != r :: q in s'.threads <==> q in s.threads)
    && (forall q | q != r && q in s.threads :: s'.threads[q] == s.threads[q])
    && (r in s'.threads ==> !Inserts(s'.threads[r]) && !s'.threads[r].RefreshDelete?)
    && (r in s.threads ==> !s.threads[r].RefreshDelete?)
  }

  predicate TokenStep(t: Thread) {
    t.SignInFind? || t.SignInInsert? || t.RefreshValidate? || t.RefreshDelete? || t.RefreshInsert?
  }

  lemma CodeTurnSameIds(hash: string -> string, s: State, r: nat, otp: string)
    requires r in s.threads && IsCodeStep(s.threads[r])
    ensures SameIds(s, CodeTurn(hash, s, r, otp), r)
  {
  }

  lemma VerifyTurnSameIds(hash: string -> string, s: State, r: nat)
    requires r in s.threads && IsVerifyStep(s.threads[r])
    ensures SameIds(s, VerifyTurn(hash, s, r), r)
  {
  }

  lemma OtherTurnsSameIds(hash: string -> string, s: State, r: nat, otp: string)
    requires r in s.threads && !TokenStep(s.threads[r])
    ensures SameIds(s, TurnOf(hash, s, r, otp), r)
  {
    if IsCodeStep(s.threads[r]) {
      CodeTurnSameIds(hash, s, r, otp);
    } else if IsVerifyStep(s.threads[r]) {
      VerifyTurnSameIds(hash, s, r);
    }
  }

  lemma SameIdsKeeps(s: State, s': State, r: nat)
    requires IdsFresh(s) && AcceptsTracked(s) && SameIds(s, s', r)
    ensures IdsFresh(s') && AcceptsTracked(s')
  {
    QuietSame(s, s');
    forall u: string, id: nat | WasAccepted(s', u, id) && Validates(s', u, id) ensures Deleting(s', u, id) {
      assert Deleting(s, u, id);
      var q :| q in s.threads && s.threads[q] == RefreshDelete(u, id);
      assert s'.threads[q] == RefreshDelete(u, id);
    }
  }

  /** Drawing a fresh id on the way to storing it, with the user's slot emptied or left alone. */
  lemma DrawKeeps(s: State, s': State, r: nat, t: Thread)
    requires IdsFresh(s) && AcceptsTracked(s) && r in s.threads && Inserts(t) && t.id == s.nextId
    requires s' == s.(slots := s'.slots, nextId := s.nextId + 1, threads := s.threads[r := t])
    requires s'.slots == s.slots || (s.threads[r].RefreshDelete? && s'.slots == s.slots - {s.threads[r].user})
    requires s.threads[r].RefreshDelete? ==> s'.slots == s.slots - {s.threads[r].user}
    ensures IdsFresh(s') && AcceptsTracked(s')
  {
    assert forall u: string, id: nat :: WasIssued(s', u, id) <==> WasIssued(s, u, id);
    assert forall u: string, id: nat :: WasAccepted(s', u, id) <==> WasAccepted(s, u, id);
    forall u: string, id: nat | WasAccepted(s', u, id) && Validates(s', u, id) ensures Deleting(s', u, id) {
      assert Validates(s, u, id) && Deleting(s, u, id);
      var q :| q in s.threads && s.threads[q] == RefreshDelete(u, id);
      assert q != r;
      assert s'.threads[q] == RefreshDelete(u, id);
    }
  }

  lemma HistoryGrows(s: State, s': State, e: Event)
    requires s'.history == s.history + [e]
    ensures forall u: string, id: nat :: WasIssued(s', u, id) <==> WasIssued(s, u, id) || e == Issued(u, id)
    ensures forall u: string, id: nat :: WasAccepted(s', u, id) <==> WasAccepted(s, u, id) || e == Accepted(u, id)
  {
  }

  lemma InsertKeeps(s: State, s': State, r: nat)
    requires IdsFresh(s) && AcceptsTracked(s) && r in s.threads && Inserts(s.threads[r])
    requires var t := s.threads[r];
             s' == Log(Done(s.(slots := s.slots[t.user := t.id]), r), Issued(t.user, t.id))
    ensures IdsFresh(s') && AcceptsTracked(s')
  {
    var t := s.threads[r];
    HistoryGrows(s, s', Issued(t.user, t.id));
    forall u: string, id: nat | WasAccepted(s', u, id) && Validates(s', u, id) ensures Deleting(s', u, id) {
      assert WasIssued(s, u, id);
      assert id != t.id;
      assert Validates(s, u, id) && Deleting(s, u, id);
      var q :| q in s.threads && s.threads[q] == RefreshDelete(u, id);
      assert s'.threads[q] == RefreshDelete(u, id);
    }
  }

  lemma AcceptKeeps(s: State, s': State, r: nat)
    requires IdsFresh(s) && AcceptsTracked(s) && r in s.threads && s.threads[r].RefreshValidate?
    requires var t := s.threads[r];
             && Validates(s, t.user, t.id)
             && s' == Log(Goto(s, r, RefreshDelete(t.user, t.id)), Accepted(t.user, t.id))
    ensures IdsFresh(s') && AcceptsTracked(s')
  {
    var t := s.threads[r];
    HistoryGrows(s, s', Accepted(t.user, t.id));
    forall u: string, id: nat | WasAccepted(s', u, id) && Validates(s', u, id) ensures Deleting(s', u, id) {
      if u == t.user && id == t.id {
        assert s'.threads[r] == RefreshDelete(u, id);
      } else {
        assert Validates(s, u, id) && Deleting(s, u, id);
        var q :| q in s.threads && s.threads[q] == RefreshDelete(u, id);
        assert s'.threads[q] == RefreshDelete(u, id);
      }
    }
  }

  lemma TurnKeepsIds(hash: string -> string, s: State, r: nat, otp: string)
    requires IdsFresh(s) && AcceptsTracked(s) && r in s.threads
    ensures IdsFresh(TurnOf(hash, s, r, otp)) && AcceptsTracked(TurnOf(hash, s, r, otp))
  {
    var s', t := TurnOf(hash, s, r, otp), s.threads[r];
    if !TokenStep(t) {
      OtherTurnsSameIds(hash, s, r, otp);
      SameIdsKeeps(s, s', r);
    } else if Inserts(t) {
      InsertKeeps(s, s', r);
    } else if t.RefreshDelete? {
      DrawKeeps(s, s', r, s'.threads[r]);
    } else if s' == Done(s, r) {
      SameIdsKeeps(s, s', r);
    } else if t.SignInFind? {
      DrawKeeps(s, s', r, s'.threads[r]);
    } else {
      AcceptKeeps(s, s', r);
    }
  }

  lemma TickKeeps(s: State, s': State)
    requires IdsFresh(s) && AcceptsTracked(s) && s' == s.(now := s'.now)
    ensures IdsFresh(s') && AcceptsTracked(s')
  {
    QuietSame(s, s');
    assert forall u: string, id: nat :: Deleting(s, u, id) ==> Deleting(s', u, id);
  }

  lemma StepKeepsIds(hash: string -> string, s: State, step: Step)
    requires IdsFresh(s) && AcceptsTracked(s)
    ensures IdsFresh(Next(hash, s, step)) && AcceptsTracked(Next(hash, s, step))
  {
    match step
    case Begin(r, t) =>
      if r !in s.threads && IsStart(s, t) {
        SameIdsKeeps(s, Goto(s, r, t), r);
      }
    case Turn(r, otp) =>
      if r in s.threads {
        TurnKeepsIds(hash, s, r, otp);
      }
    case Tick(ms) => TickKeeps(s, Next(hash, s, step));
  }

  /** Once an issued id has left its user's slot, replaced or deleted, it never validates again. */
  predicate Spent(s: State, user: string, id: nat) {
    WasIssued(s, user, id) && !Validates(s, user, id)
  }

  lemma TokenTurnKeepsSpent(s: State, r: nat, user: string, id: nat)
    requires IdsFresh(s) && Spent(s, user, id) && r in s.threads && TokenStep(s.threads[r])
    ensures Spent(TokenTurn(s, r), user, id)
  {
    var s' := TokenTurn(s, r);
    if s'.history != s.history {
      HistoryGrows(s, s', s'.history[|s.history|]);
    }
    assert Inserts(s.threads[r]) ==> s.threads[r].id != id;
  }

  lemma StepKeepsSpent(hash: string -> string, s: State, step: Step, user: string, id: nat)
    requires IdsFresh(s) && Spent(s, user, id)
    ensures Spent(Next(hash, s, step), user, id)
  {
    if step.Turn? && step.request in s.threads {
      if TokenStep(s.threads[step.request]) {
        TokenTurnKeepsSpent(s, step.request, user, id);
      } else {
        OtherTurnsSameIds(hash, s, step.request, step.otp);
        QuietSame(s, Next(hash, s, step));
      }
    }
  }

  lemma {:induction false} SpentForever(hash: string -> string, s: State, steps: seq<Step>, user: string, id: nat)
    requires IdsFresh(s) && AcceptsTracked(s) && Spent(s, user, id)
    ensures Spent(Run(hash, s, steps), user, id)
    decreases |steps|
  {
    if steps != [] {
      StepKeepsIds(hash, s, steps[0]);
      StepKeepsSpent(hash, s, steps[0], user, id);
      SpentForever(hash, Next(hash, s, steps[0]), steps[1..], user, id);
    }
  }

  lemma {:induction false} RunKeepsIds(hash: string -> string, s: State, steps: seq<Step>)
    requires IdsFresh(s) && AcceptsTracked(s)
    ensures IdsFresh(Run(hash, s, steps)) && AcceptsTracked(Run(hash, s, steps))
    decreases |steps|
  {
    if steps != [] {
      StepKeepsIds(hash, s, steps[0]);
      RunKeepsIds(hash, Next(hash, s, steps[0]), steps[1..]);
    }
  }

  /** In any reachable state, an id that has been accepted before is accepted once more exactly when an earlier
      acceptance has not deleted it yet, that is, when two refreshes overlap. */
  lemma AcceptedAgainIff(hash: string -> string, now: int, steps: seq<Step>, r: nat)
    requires var s := Run(hash, Start(now), steps);
             r in s.threads && s.threads[r].RefreshValidate? && Validates(s, s.threads[r].user, s.threads[r].id)
    ensures var s := Run(hash, Start(now), steps);
            var t := s.threads[r];
            WasAccepted(s, t.user, t.id) <==> Deleting(s, t.user, t.id)
  {
    RunKeepsIds(hash, Start(now), steps);
  }

  // ----- Refreshes that do not overlap -----

  predicate Refreshing(t: Thread, user: string) {
    (t.RefreshFind? || t.RefreshValidate? || t.RefreshDelete? || t.RefreshInsert?) && t.user == user
  }

  /** No two refreshes of one user are under way. */
  ghost predicate OneRefreshEach(s: State) {
    forall r, q, u | r in s.threads && q in s.threads && Refreshing(s.threads[r], u) && Refreshing(s.threads[q], u) :: r == q
  }

  ghost predicate NeverOverlap(hash: string -> string, s: State, steps: seq<Step>)
    decreases |steps|
  {
    OneRefreshEach(s) && (steps == [] || NeverOverlap(hash, Next(hash, s, steps[0]), steps[1..]))
  }

  ghost predicate AcceptedOnce(s: State) {
    forall i, j | 0 <= i < j < |s.history| && s.history[i].Accepted? :: s.history[i] != s.history[j]
  }

  lemma NotAcceptedBefore(s: State, r: nat)
    requires AcceptsTracked(s) && OneRefreshEach(s) && r in s.threads && s.threads[r].RefreshValidate?
    requires Validates(s, s.threads[r].user, s.threads[r].id)
    ensures !WasAccepted(s, s.threads[r].user, s.threads[r].id)
  {
    var t := s.threads[r];
    assert !Deleting(s, t.user, t.id) by {
      forall q | q in s.threads ensures s.threads[q] != RefreshDelete(t.user, t.id) {
        assert Refreshing(t, t.user) && (Refreshing(s.threads[q], t.user) ==> q == r);
      }
    }
  }

  /** Nothing is recorded but possibly one event that is not an acceptance. */
  predicate AcceptsNothing(s: State, s': State) {
    var h := s'.history;
    h == s.history || (h != [] && h[..|h| - 1] == s.history && !h[|h| - 1].Accepted?)
  }

  /** An acceptance is recorded only by the check of a refresh. */
  lemma OtherStepsAcceptNothing(hash: string -> string, s: State, step: Step)
    requires step.Turn? && step.request in s.threads ==> !s.threads[step.request].RefreshValidate?
    ensures AcceptsNothing(s, Next(hash, s, step))
  {
    if step.Turn? && step.request in s.threads && !TokenStep(s.threads[step.request]) {
      OtherTurnsSameIds(hash, s, step.request, step.otp);
    }
  }

  lemma AcceptNothingKeepsOnce(s: State, s': State)
    requires AcceptedOnce(s) && AcceptsNothing(s, s')
    ensures AcceptedOnce(s')
  {
  }

  lemma StepAcceptsOnce(hash: string -> string, s: State, step: Step)
    requires AcceptsTracked(s) && OneRefreshEach(s) && AcceptedOnce(s)
    ensures AcceptedOnce(Next(hash, s, step))
  {
    var s' := Next(hash, s, step);
    if step.Turn? && step.request in s.threads && s.threads[step.request].RefreshValidate? {
      var t := s.threads[step.request];
      if Validates(s, t.user, t.id) {
        NotAcceptedBefore(s, step.request);
        assert s'.history == s.history + [Accepted(t.user, t.id)];
      }
    } else {
      OtherStepsAcceptNothing(hash, s, step);
      AcceptNothingKeepsOnce(s, s');
    }
  }

  /** When refreshes of one user never overlap, every id is accepted at most once. */
  lemma {:induction false} AcceptedAtMostOnce(hash: string -> string, s: State, steps: seq<Step>)
    requires IdsFresh(s) && AcceptsTracked(s) && AcceptedOnce(s) && NeverOverlap(hash, s, steps)
    ensures AcceptedOnce(Run(hash, s, steps))
    decreases |steps|
  {
    if steps != [] {
      StepKeepsIds(hash, s, steps[0]);
      StepAcceptsOnce(hash, s, steps[0]);
      AcceptedAtMostOnce(hash, Next(hash, s, steps[0]), steps[1..]);
    }
  }

  // ----- Refreshes that do -----

  lemma {:induction false} RunConcat(hash: string -> string, s: State, xs: seq<Step>, ys: seq<Step>)
    ensures Run(hash, s, xs + ys) == Run(hash, Run(hash, s, xs), ys)
    decreases |xs|
  {
    if xs == [] {
      assert xs + ys == ys;
    } else {
      RunConcat(hash, Next(hash, s, xs[0]), xs[1..], ys);
      assert (xs + ys)[1..] == xs[1..] + ys;
    }
  }

  lemma RunTwo(hash: string -> string, s: State, a: Step, b: Step)
    ensures Run(hash, s, [a, b]) == Next(hash, Next(hash, s, a), b)
  {
    assert [a, b][1..] == [b] && [b][1..] == [];
    assert Run(hash, Next(hash, s, a), [b]) == Next(hash, Next(hash, s, a), b);
  }

  function SignUp(user: string, password: string, otp: string): seq<Step> {
    [Begin(0, SignUpFind(user, password)), Turn(0, "")] + [Turn(0, ""), Turn(0, otp)]
  }

  function Verify(user: string, otp: string): seq<Step> {
    [Begin(0, VerifyFind(user, otp)), Turn(0, "")] + [Turn(0, ""), Turn(0, "")] + [Turn(0, ""), Tick(0)]
  }

  function SignIn(user: string, password: string): seq<Step> {
    [Begin(0, SignInFind(user, password)), Turn(0, "")] + [Turn(0, ""), Tick(0)]
  }

  /** Two refreshes with one id, each past its check before either deletes the slot. */
  function TwoRefreshes(user: string, id: nat): seq<Step> {
    [Begin(0, RefreshFind(user, id)), Begin(1, RefreshFind(user, id))] + [Turn(0, ""), Turn(1, "")]
    + [Turn(0, ""), Turn(1, "")]
  }

  lemma SignUpRuns(hash: string -> string, now: int, user: string, password: string, otp: string)
    ensures var s := Run(hash, Start(now), SignUp(user, password, otp));
            && s.users == map[user := User(password, false)] && s.otps == map[user := Otp(hash(otp), now)]
            && s.slots == map[] && s.threads == map[] && s.nextId == 0 && s.now == now
  {
    var s2 := Next(hash, Next(hash, Start(now), Begin(0, SignUpFind(user, password))), Turn(0, ""));
    RunConcat(hash, Start(now), [Begin(0, SignUpFind(user, password)), Turn(0, "")], [Turn(0, ""), Turn(0, otp)]);
    RunTwo(hash, Start(now), Begin(0, SignUpFind(user, password)), Turn(0, ""));
    RunTwo(hash, s2, Turn(0, ""), Turn(0, otp));
  }

  lemma CodeMatched(hash: string -> string, s: State, user: string, otp: string)
    requires user in s.users && !s.users[user].verified && s.threads == map[0 := VerifyGet(user, otp)]
    requires s.otps == map[user := Otp(hash(otp), s.now)]
    ensures Run(hash, s, [Turn(0, ""), Turn(0, "")]) ==
            s.(otps := s.otps - {user}, threads := map[0 := VerifyMark(user)],
               history := s.history + [OtpMatched(user, hash(otp), Otp(hash(otp), s.now), s.now)])
  {
    var s1 := s.(threads := map[0 := VerifyDelete(user)],
                 history := s.history + [OtpMatched(user, hash(otp), Otp(hash(otp), s.now), s.now)]);
    FirstTurn(hash, s, user, otp);
    RunTwo(hash, s, Turn(0, ""), Turn(0, ""));
    assert Next(hash, s1, Turn(0, "")) == s1.(otps := s.otps - {user}, threads := map[0 := VerifyMark(user)]);
  }

  lemma FirstTurn(hash: string -> string, s: State, user: string, otp: string)
    requires s.threads == map[0 := VerifyGet(user, otp)] && s.otps == map[user := Otp(hash(otp), s.now)]
    ensures Next(hash, s, Turn(0, "")) ==
            s.(threads := map[0 := VerifyDelete(user)],
               history := s.history + [OtpMatched(user, hash(otp), Otp(hash(otp), s.now), s.now)])
  {
    assert LiveOtp(s, user) == Some(Otp(hash(otp), s.now));
  }

  lemma UserFound(hash: string -> string, s: State, user: string, otp: string)
    requires user in s.users && !s.users[user].verified && s.threads == map[]
    ensures Run(hash, s, [Begin(0, VerifyFind(user, otp)), Turn(0, "")]) == s.(threads := map[0 := VerifyGet(user, otp)])
  {
    RunTwo(hash, s, Begin(0, VerifyFind(user, otp)), Turn(0, ""));
  }

  lemma UserMarked(hash: string -> string, s: State, user: string)
    requires user in s.users && s.threads == map[0 := VerifyMark(user)]
    ensures Run(hash, s, [Turn(0, ""), Tick(0)]) ==
            s.(users := s.users[user := s.users[user].(verified := true)], threads := map[],
               history := s.history + [Verified(user)])
  {
    RunTwo(hash, s, Turn(0, ""), Tick(0));
  }

  lemma RunThree(hash: string -> string, s: State, xs: seq<Step>, ys: seq<Step>, zs: seq<Step>)
    ensures Run(hash, s, xs + ys + zs) == Run(hash, Run(hash, Run(hash, s, xs), ys), zs)
  {
    RunConcat(hash, s, xs, ys);
    RunConcat(hash, s, xs + ys, zs);
  }

  lemma CodeChecked(hash: string -> string, s: State, user: string, otp: string)
    requires user in s.users && !s.users[user].verified && s.threads == map[]
    requires s.otps == map[user := Otp(hash(otp), s.now)]
    ensures Run(hash, s, [Begin(0, VerifyFind(user, otp)), Turn(0, "")] + [Turn(0, ""), Turn(0, "")]) ==
            s.(otps := s.otps - {user}, threads := map[0 := VerifyMark(user)],
               history := s.history + [OtpMatched(user, hash(otp), Otp(hash(otp), s.now), s.now)])
  {
    UserFound(hash, s, user, otp);
    CodeMatched(hash, s.(threads := map[0 := VerifyGet(user, otp)]), user, otp);
    RunConcat(hash, s, [Begin(0, VerifyFind(user, otp)), Turn(0, "")], [Turn(0, ""), Turn(0, "")]);
  }

  lemma VerifyRuns(hash: string -> string, s: State, user: string, password: string, otp: string)
    requires s.users == map[user := User(password, false)] && s.otps == map[user := Otp(hash(otp), s.now)]
    requires s.threads == map[]
    ensures var t := Run(hash, s, Verify(user, otp));
            t.users == map[user := User(password, true)] && t.slots == s.slots && t.threads == map[] && t.nextId == s.nextId
  {
    var checked := [Begin(0, VerifyFind(user, otp)), Turn(0, "")] + [Turn(0, ""), Turn(0, "")];
    CodeChecked(hash, s, user, otp);
    UserMarked(hash, Run(hash, s, checked), user);
    RunConcat(hash, s, checked, [Turn(0, ""), Tick(0)]);
  }

  lemma SignInRuns(hash: string -> string, s: State, user: string, password: string)
    requires s.users == map[user := User(password, true)] && s.threads == map[]
    ensures var t := Run(hash, s, SignIn(user, password));
            && t.users == s.users && Validates(t, user, s.nextId) && WasIssued(t, user, s.nextId) && t.threads == map[]
  {
    var found := [Begin(0, SignInFind(user, password)), Turn(0, "")];
    var s2 := s.(threads := map[0 := SignInInsert(user, s.nextId)], nextId := s.nextId + 1);
    var s4 := s2.(threads := map[], slots := s.slots[user := s.nextId], history := s.history + [Issued(user, s.nextId)]);
    PasswordMatched(hash, s, user, password);
    RunTwo(hash, s2, Turn(0, ""), Tick(0));
    assert Next(hash, Next(hash, s2, Turn(0, "")), Tick(0)) == s4;
    assert s4.history[|s.history|] == Issued(user, s.nextId);
    RunConcat(hash, s, found, [Turn(0, ""), Tick(0)]);
  }

  lemma PasswordMatched(hash: string -> string, s: State, user: string, password: string)
    requires s.users == map[user := User(password, true)] && s.threads == map[]
    ensures Run(hash, s, [Begin(0, SignInFind(user, password)), Turn(0, "")]) ==
            s.(threads := map[0 := SignInInsert(user, s.nextId)], nextId := s.nextId + 1)
  {
    PasswordTurn(hash, s.(threads := map[0 := SignInFind(user, password)]), user, password);
    RunTwo(hash, s, Begin(0, SignInFind(user, password)), Turn(0, ""));
  }

  lemma PasswordTurn(hash: string -> string, s: State, user: string, password: string)
    requires s.users == map[user := User(password, true)] && s.threads == map[0 := SignInFind(user, password)]
    ensures Next(hash, s, Turn(0, "")) == s.(threads := map[0 := SignInInsert(user, s.nextId)], nextId := s.nextId + 1)
  {
  }

  lemma BothBegin(hash: string -> string, s: State, user: string, id: nat)
    requires WasIssued(s, user, id) && s.threads == map[]
    ensures Run(hash, s, [Begin(0, RefreshFind(user, id)), Begin(1, RefreshFind(user, id))]) ==
            s.(threads := map[0 := RefreshFind(user, id), 1 := RefreshFind(user, id)])
  {
    RunTwo(hash, s, Begin(0, RefreshFind(user, id)), Begin(1, RefreshFind(user, id)));
  }

  lemma BothFind(hash: string -> string, s: State, user: string, id: nat)
    requires user in s.users && s.threads == map[0 := RefreshFind(user, id), 1 := RefreshFind(user, id)]
    ensures Run(hash, s, [Turn(0, ""), Turn(1, "")]) ==
            s.(threads := map[0 := RefreshValidate(user, id), 1 := RefreshValidate(user, id)])
  {
    RunTwo(hash, s, Turn(0, ""), Turn(1, ""));
    FindTurn(hash, s, 0, user, id);
    FindTurn(hash, s.(threads := s.threads[0 := RefreshValidate(user, id)]), 1, user, id);
  }

  lemma FindTurn(hash: string -> string, s: State, r: nat, user: string, id: nat)
    requires user in s.users && r in s.threads && s.threads[r] == RefreshFind(user, id)
    ensures Next(hash, s, Turn(r, "")) == s.(threads := s.threads[r := RefreshValidate(user, id)])
  {
  }

  lemma BothValidate(hash: string -> string, s: State, user: string, id: nat)
    requires Validates(s, user, id) && s.threads == map[0 := RefreshValidate(user, id), 1 := RefreshValidate(user, id)]
    ensures Run(hash, s, [Turn(0, ""), Turn(1, "")]).history == s.history + [Accepted(user, id), Accepted(user, id)]
  {
    var s1 := s.(threads := s.threads[0 := RefreshDelete(user, id)], history := s.history + [Accepted(user, id)]);
    ValidateTurn(hash, s, 0, user, id);
    ValidateTurn(hash, s1, 1, user, id);
    assert s1.history + [Accepted(user, id)] == s.history + [Accepted(user, id), Accepted(user, id)];
    RunTwo(hash, s, Turn(0, ""), Turn(1, ""));
  }

  lemma ValidateTurn(hash: string -> string, s: State, r: nat, user: string, id: nat)
    requires Validates(s, user, id) && r in s.threads && s.threads[r] == RefreshValidate(user, id)
    ensures Next(hash, s, Turn(r, "")) ==
            s.(threads := s.threads[r := RefreshDelete(user, id)], history := s.history + [Accepted(user, id)])
  {
  }

  lemma TwoRefreshesRun(hash: string -> string, s: State, user: string, id: nat)
    requires user in s.users && Validates(s, user, id) && WasIssued(s, user, id) && s.threads == map[]
    ensures Run(hash, s, TwoRefreshes(user, id)).history == s.history + [Accepted(user, id), Accepted(user, id)]
  {
    var begin, turns := [Begin(0, RefreshFind(user, id)), Begin(1, RefreshFind(user, id))], [Turn(0, ""), Turn(1, "")];
    var s2 := Run(hash, s, begin);
    var s4 := Run(hash, s2, turns);
    BothBegin(hash, s, user, id);
    BothFind(hash, s2, user, id);
    BothValidate(hash, s4, user, id);
    RunThree(hash, s, begin, turns, turns);
  }

  /** From the beginning: a user signs up, verifies the e-mail and signs in, and two refreshes with the id this issued
      overlap. Both are accepted. */
  lemma OverlapAcceptsTwice(hash: string -> string, now: int, user: string, password: string, otp: string)
    ensures var h := Run(hash, Start(now), SignUp(user, password, otp) + Verify(user, otp) + SignIn(user, password)
                                           + TwoRefreshes(user, 0)).history;
            && |h| >= 3 && h[|h| - 2] == h[|h| - 1] == Accepted(user, 0)
            && Issued(user, 0) in h[..|h| - 2]
  {
    var up, verify, signIn := SignUp(user, password, otp), Verify(user, otp), SignIn(user, password);
    var s1 := Run(hash, Start(now), up);
    var s2 := Run(hash, s1, verify);
    var s3 := Run(hash, s2, signIn);
    SignUpRuns(hash, now, user, password, otp);
    VerifyRuns(hash, s1, user, password, otp);
    SignInRuns(hash, s2, user, password);
    TwoRefreshesRun(hash, s3, user, 0);
    RunConcat(hash, Start(now), up, verify);
    RunConcat(hash, Start(now), up + verify, signIn);
    RunConcat(hash, Start(now), up + verify + signIn, TwoRefreshes(user, 0));
    var h := s3.history + [Accepted(user, 0), Accepted(user, 0)];
    assert h[..|h| - 2] == s3.history;
  }

  // ----- Verification comes first -----

  /** The code most recently set for a user. */
  function LastOtp(user: string, history: seq<Event>): Option<Otp> {
    if history == [] then None
    else
      var e := history[|history| - 1];
      if e.OtpSet? && e.user == user then Some(e.otp) else LastOtp(user, history[..|history| - 1])
  }

  predicate WasVerified(user: string, history: seq<Event>) {
    Verified(user) in history
  }

  /** A code given for the user had the right hash. */
  ghost predicate WasMatched(user: string, history: seq<Event>) {
    exists e | e in history :: e.OtpMatched? && e.user == user
  }

  /** What must have happened before an event can be recorded. */
  ghost predicate Justified(e: Event, before: seq<Event>) {
    match e
    case OtpMatched(u, givenHash, otp, readAt) =>
      LastOtp(u, before) == Some(otp) && givenHash == otp.hash && otp.setAt <= readAt <= otp.setAt + OTP_TTL
    case Verified(u) => WasMatched(u, before)
    case Issued(u, _) => WasVerified(u, before)
    case _ => true
  }

  ghost predicate Chronicle(history: seq<Event>) {
    forall i | 0 <= i < |history| :: Justified(history[i], history[..i])
  }

  /** Stored codes are the ones most recently set; a verified user has been verified; and a request that is past a
      check has been let past it. */
  ghost predicate Traced(s: State) {
    && Chronicle(s.history)
    && (forall u | u in s.otps :: LastOtp(u, s.history) == Some(s.otps[u]) && s.otps[u].setAt <= s.now)
    && (forall u | u in s.users && s.users[u].verified :: WasVerified(u, s.history))
    && (forall r | r in s.threads :: ThreadTraced(s.threads[r], s.history))
  }

  ghost predicate ThreadTraced(t: Thread, history: seq<Event>) {
    && (t.VerifyDelete? || t.VerifyMark? ==> WasMatched(t.user, history))
    && (t.SignInInsert? || t.RefreshFind? || t.RefreshValidate? || t.RefreshDelete? || t.RefreshInsert? ==>
          WasVerified(t.user, history))
  }

  lemma LastOtpSnoc(user: string, history: seq<Event>, e: Event)
    ensures LastOtp(user, history + [e]) == if e.OtpSet? && e.user == user then Some(e.otp) else LastOtp(user, history)
  {
    assert (history + [e])[..|history|] == history;
  }

  lemma ChronicleSnoc(history: seq<Event>, e: Event)
    requires Chronicle(history) && Justified(e, history)
    ensures Chronicle(history + [e])
  {
    forall i | 0 <= i < |history + [e]| ensures Justified((history + [e])[i], (history + [e])[..i]) {
      if i < |history| {
        assert (history + [e])[..i] == history[..i];
      } else {
        assert (history + [e])[..i] == history;
      }
    }
  }

  /** What has happened stays happened. */
  lemma ThreadTracedGrows(t: Thread, history: seq<Event>, e: Event)
    requires ThreadTraced(t, history)
    ensures ThreadTraced(t, history + [e])
  {
  }

  /** Recording a justified event keeps the trace, if the event is not a new code. */
  lemma LogKeepsTraced(s: State, e: Event)
    requires Traced(s) && Justified(e, s.history) && !e.OtpSet?
    ensures Traced(Log(s, e))
  {
    ChronicleSnoc(s.history, e);
    forall u | u in s.otps ensures LastOtp(u, s.history + [e]) == Some(s.otps[u]) {
      LastOtpSnoc(u, s.history, e);
    }
    forall r | r in s.threads ensures ThreadTraced(s.threads[r], s.history + [e]) {
      ThreadTracedGrows(s.threads[r], s.history, e);
    }
  }

  lemma SetOtpKeepsTraced(s: State, user: string, code: string)
    requires Traced(s)
    ensures Traced(SetOtp(s, user, code))
  {
    var e := OtpSet(user, Otp(code, s.now));
    ChronicleSnoc(s.history, e);
    forall u | u in s.otps || u == user ensures LastOtp(u, s.history + [e]) == Some(s.otps[user := Otp(code, s.now)][u]) {
      LastOtpSnoc(u, s.history, e);
    }
    forall r | r in s.threads ensures ThreadTraced(s.threads[r], s.history + [e]) {
      ThreadTracedGrows(s.threads[r], s.history, e);
    }
  }

  lemma ClearKeepsTraced(s: State, user: string)
    requires Traced(s)
    ensures Traced(s.(otps := s.otps - {user}))
  {
  }

  lemma SilentTurnTraced(hash: string -> string, s: State, r: nat, otp: string)
    requires Traced(s) && r in s.threads && IsCodeStep(s.threads[r])
    requires !s.threads[r].SignUpOtp? && !s.threads[r].ResendSet?
    ensures Traced(CodeTurn(hash, s, r, otp))
  {
    DoneKeepsTraced(s, r);
    match s.threads[r]
    case SignUpFind(u, pw) => GotoKeepsTraced(s, r, SignUpCreate(u, pw));
    case SignUpCreate(u, pw) =>
      if u !in s.users {
        GotoKeepsTraced(s.(users := s.users[u := User(pw, false)]), r, SignUpOtp(u));
      }
    case ResendFind(u) => GotoKeepsTraced(s, r, ResendGet(u));
    case ResendGet(u) => GotoKeepsTraced(s, r, if LiveOtp(s, u).Some? then ResendDelete(u) else ResendSet(u));
    case ResendDelete(u) =>
      ClearKeepsTraced(s, u);
      GotoKeepsTraced(s.(otps := s.otps - {u}), r, ResendSet(u));
    case SignUpOtp(_) =>
    case ResendSet(_) =>
  }

  lemma CodeTurnTraced(hash: string -> string, s: State, r: nat, otp: string)
    requires Traced(s) && r in s.threads && IsCodeStep(s.threads[r])
    ensures Traced(CodeTurn(hash, s, r, otp))
  {
    var t := s.threads[r];
    if t.SignUpOtp? || t.ResendSet? {
      SetOtpKeepsTraced(s, t.user, hash(otp));
      DoneKeepsTraced(SetOtp(s, t.user, hash(otp)), r);
    } else {
      SilentTurnTraced(hash, s, r, otp);
    }
  }

  lemma GotoKeepsTraced(s: State, r: nat, t: Thread)
    requires Traced(s) && ThreadTraced(t, s.history)
    ensures Traced(Goto(s, r, t))
  {
  }

  lemma DoneKeepsTraced(s: State, r: nat)
    requires Traced(s)
    ensures Traced(Done(s, r))
  {
  }

  lemma MarkKeepsTraced(s: State, user: string)
    requires Traced(s) && user in s.users && WasVerified(user, s.history)
    ensures Traced(s.(users := s.users[user := s.users[user].(verified := true)]))
  {
  }

  lemma MatchedNow(user: string, history: seq<Event>, e: Event)
    requires e.OtpMatched? && e.user == user
    ensures WasMatched(user, history + [e])
  {
    assert e in history + [e];
  }

  lemma VerifyGetTraced(hash: string -> string, s: State, r: nat)
    requires Traced(s) && r in s.threads && s.threads[r].VerifyGet?
    ensures Traced(VerifyTurn(hash, s, r))
  {
    var t := s.threads[r];
    var stored := LiveOtp(s, t.user);
    if stored.Some? && hash(t.otp) == stored.value.hash {
      var e := OtpMatched(t.user, hash(t.otp), stored.value, s.now);
      LogKeepsTraced(s, e);
      MatchedNow(t.user, s.history, e);
      GotoKeepsTraced(Log(s, e), r, VerifyDelete(t.user));
    } else {
      DoneKeepsTraced(s, r);
    }
  }

  lemma VerifyMarkTraced(hash: string -> string, s: State, r: nat)
    requires Traced(s) && r in s.threads && s.threads[r].VerifyMark?
    ensures Traced(VerifyTurn(hash, s, r))
  {
    var t := s.threads[r];
    if t.user in s.users {
      var s1 := Log(s, Verified(t.user));
      LogKeepsTraced(s, Verified(t.user));
      assert s1.history[|s.history|] == Verified(t.user);
      MarkKeepsTraced(s1, t.user);
      DoneKeepsTraced(s1.(users := s1.users[t.user := s1.users[t.user].(verified := true)]), r);
    } else {
      DoneKeepsTraced(s, r);
    }
  }

  lemma VerifyTurnTraced(hash: string -> string, s: State, r: nat)
    requires Traced(s) && r in s.threads && IsVerifyStep(s.threads[r])
    ensures Traced(VerifyTurn(hash, s, r))
  {
    if s.threads[r].VerifyGet? {
      VerifyGetTraced(hash, s, r);
    } else if s.threads[r].VerifyMark? {
      VerifyMarkTraced(hash, s, r);
    }
  }

  /** The turns of the token requests that store an id or accept one. */
  lemma RecordedTurnTraced(s: State, r: nat)
    requires Traced(s) && r in s.threads
    requires var t := s.threads[r]; Inserts(t) || (t.RefreshValidate? && Validates(s, t.user, t.id))
    ensures Traced(TokenTurn(s, r))
  {
    var t := s.threads[r];
    if Inserts(t) {
      LogKeepsTraced(s, Issued(t.user, t.id));
      DoneKeepsTraced(Log(s, Issued(t.user, t.id)), r);
    } else {
      LogKeepsTraced(s, Accepted(t.user, t.id));
      ThreadTracedGrows(t, s.history, Accepted(t.user, t.id));
      GotoKeepsTraced(Log(s, Accepted(t.user, t.id)), r, RefreshDelete(t.user, t.id));
    }
  }

  lemma DrawKeepsTraced(s: State, r: nat, t: Thread)
    requires Traced(s) && ThreadTraced(t, s.history)
    ensures Traced(Draw(s, r, t))
  {
    GotoKeepsTraced(s, r, t);
  }

  lemma TokenTurnTraced(s: State, r: nat)
    requires Traced(s) && r in s.threads && !IsCodeStep(s.threads[r]) && !IsVerifyStep(s.threads[r])
    ensures Traced(TokenTurn(s, r))
  {
    DoneKeepsTraced(s, r);
    match s.threads[r]
    case SignInFind(u, pw) =>
      if u in s.users && s.users[u].password == pw && s.users[u].verified {
        DrawKeepsTraced(s, r, SignInInsert(u, s.nextId));
      }
    case RefreshFind(u, id) =>
      GotoKeepsTraced(s, r, RefreshValidate(u, id));
    case RefreshValidate(u, id) =>
      if Validates(s, u, id) {
        RecordedTurnTraced(s, r);
      }
    case RefreshDelete(u, _) =>
      DrawKeepsTraced(s.(slots := s.slots - {u}), r, RefreshInsert(u, s.nextId));
    case SignInInsert(_, _) =>
      RecordedTurnTraced(s, r);
    case RefreshInsert(_, _) =>
      RecordedTurnTraced(s, r);
  }

  lemma BeginTraced(s: State, t: Thread)
    requires Traced(s) && IsStart(s, t)
    ensures ThreadTraced(t, s.history)
  {
    if t.RefreshFind? {
      var i :| 0 <= i < |s.history| && s.history[i] == Issued(t.user, t.id);
      assert Justified(s.history[i], s.history[..i]);
      assert Verified(t.user) in s.history[..i];
    }
  }

  lemma StepKeepsTraced(hash: string -> string, s: State, step: Step)
    requires Traced(s)
    ensures Traced(Next(hash, s, step))
  {
    match step
    case Begin(r, t) =>
      if r !in s.threads && IsStart(s, t) {
        BeginTraced(s, t);
      }
    case Turn(r, otp) =>
      if r in s.threads {
        if IsCodeStep(s.threads[r]) {
          CodeTurnTraced(hash, s, r, otp);
        } else if IsVerifyStep(s.threads[r]) {
          VerifyTurnTraced(hash, s, r);
        } else {
          TokenTurnTraced(s, r);
        }
      }
    case Tick(_) =>
  }

  lemma {:induction false} RunKeepsTraced(hash: string -> string, s: State, steps: seq<Step>)
    requires Traced(s)
    ensures Traced(Run(hash, s, steps))
    decreases |steps|
  {
    if steps != [] {
      StepKeepsTraced(hash, s, steps[0]);
      RunKeepsTraced(hash, Next(hash, s, steps[0]), steps[1..]);
    }
  }

  /** A verified user stays verified. */
  lemma {:induction false} VerifiedForever(hash: string -> string, s: State, steps: seq<Step>, user: string)
    requires user in s.users && s.users[user].verified
    ensures var t := Run(hash, s, steps); user in t.users && t.users[user].verified
    decreases |steps|
  {
    if steps != [] {
      VerifiedForever(hash, Next(hash, s, steps[0]), steps[1..], user);
    }
  }
}
