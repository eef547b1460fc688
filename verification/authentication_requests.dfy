/** What the requests of a run have to do with its outcome: what each request does when nothing comes between, and which
    requests every verification and every token of any run goes back to. */
module AuthenticationRequests {
  import opened Wrappers
  import opened Authentication

  // ----- One request when nothing comes between -----

  function Turns(hash: string -> string, s: State, r: nat, otp: string, k: nat): State
    decreases k
  {
    if k == 0 then s else Turns(hash, Next(hash, s, Turn(r, otp)), r, otp, k - 1)
  }

  /** A request from its start to its end; none takes more than five turns. */
  function Served(hash: string -> string, s: State, r: nat, t: Thread, otp: string): State {
    Turns(hash, Next(hash, s, Begin(r, t)), r, otp, 5)
  }

  lemma {:induction false} TurnsDone(hash: string -> string, s: State, r: nat, otp: string, k: nat)
    requires r !in s.threads
    ensures Turns(hash, s, r, otp, k) == s
    decreases k
  {
    if k > 0 {
      TurnsDone(hash, s, r, otp, k - 1);
    }
  }

  /** A state with request `r` at `t`. */
  function At(s: State, r: nat, t: Thread): State {
    s.(threads := s.threads[r := t])
  }

  lemma OneTurn(hash: string -> string, s: State, r: nat, t: Thread, otp: string, k: nat, next: State)
    requires k > 0 && Next(hash, At(s, r, t), Turn(r, otp)) == next
    ensures Turns(hash, At(s, r, t), r, otp, k) == Turns(hash, next, r, otp, k - 1)
  {
  }

  lemma Replaced<K, V>(m: map<K, V>, k: K, v: V)
    ensures (m - {k})[k := v] == m[k := v]
  {
  }

  lemma Leaves(s: State, r: nat, t: Thread)
    requires r !in s.threads
    ensures Done(At(s, r, t), r) == s
  {
  }

  lemma Moves(s: State, r: nat, t: Thread, t': Thread)
    ensures At(At(s, r, t), r, t') == At(s, r, t')
  {
  }

  // ----- Sign-up and new codes -----

  function WithCode(s: State, user: string, hashed: string): State {
    s.(otps := s.otps[user := Otp(hashed, s.now)], history := s.history + [OtpSet(user, Otp(hashed, s.now))])
  }

  lemma CodeSent(hash: string -> string, s: State, r: nat, t: Thread, otp: string, k: nat)
    requires r !in s.threads && k > 0 && (t.SignUpOtp? || t.ResendSet?)
    ensures Turns(hash, At(s, r, t), r, otp, k) == WithCode(s, t.user, hash(otp))
  {
    Leaves(WithCode(s, t.user, hash(otp)), r, t);
    OneTurn(hash, s, r, t, otp, k, WithCode(s, t.user, hash(otp)));
    TurnsDone(hash, WithCode(s, t.user, hash(otp)), r, otp, k - 1);
  }

  /** A sign-up creates an unknown user, unverified and with the given password, and sets a first code. For a known
      user it does nothing. */
  lemma SignUpServed(hash: string -> string, s: State, r: nat, user: string, password: string, otp: string)
    requires r !in s.threads
    ensures Served(hash, s, r, SignUpFind(user, password), otp) ==
            if user in s.users then s
            else s.(users := s.users[user := User(password, false)], otps := s.otps[user := Otp(hash(otp), s.now)],
                    history := s.history + [OtpSet(user, Otp(hash(otp), s.now))])
  {
    var find, create := SignUpFind(user, password), SignUpCreate(user, password);
    if user in s.users {
      Leaves(s, r, find);
      OneTurn(hash, s, r, find, otp, 5, s);
      TurnsDone(hash, s, r, otp, 4);
    } else {
      var created := s.(users := s.users[user := User(password, false)]);
      Moves(s, r, find, create);
      OneTurn(hash, s, r, find, otp, 5, At(s, r, create));
      Moves(created, r, create, SignUpOtp(user));
      OneTurn(hash, s, r, create, otp, 4, At(created, r, SignUpOtp(user)));
      CodeSent(hash, created, r, SignUpOtp(user), otp, 3);
    }
  }

  /** A resent code replaces whatever code there was, for a known user that is not verified, and for no other. */
  lemma ResendServed(hash: string -> string, s: State, r: nat, user: string, otp: string)
    requires r !in s.threads
    ensures Served(hash, s, r, ResendFind(user), otp) ==
            if user in s.users && !s.users[user].verified
            then s.(otps := s.otps[user := Otp(hash(otp), s.now)],
                    history := s.history + [OtpSet(user, Otp(hash(otp), s.now))])
            else s
  {
    if user !in s.users || s.users[user].verified {
      Leaves(s, r, ResendFind(user));
      OneTurn(hash, s, r, ResendFind(user), otp, 5, s);
      TurnsDone(hash, s, r, otp, 4);
    } else {
      Moves(s, r, ResendFind(user), ResendGet(user));
      OneTurn(hash, s, r, ResendFind(user), otp, 5, At(s, r, ResendGet(user)));
      if LiveOtp(s, user).Some? {
        var cleared := s.(otps := s.otps - {user});
        Moves(s, r, ResendGet(user), ResendDelete(user));
        OneTurn(hash, s, r, ResendGet(user), otp, 4, At(s, r, ResendDelete(user)));
        Moves(cleared, r, ResendDelete(user), ResendSet(user));
        OneTurn(hash, s, r, ResendDelete(user), otp, 3, At(cleared, r, ResendSet(user)));
        CodeSent(hash, cleared, r, ResendSet(user), otp, 2);
        Replaced(s.otps, user, Otp(hash(otp), s.now));
      } else {
        Moves(s, r, ResendGet(user), ResendSet(user));
        OneTurn(hash, s, r, ResendGet(user), otp, 4, At(s, r, ResendSet(user)));
        CodeSent(hash, s, r, ResendSet(user), otp, 3);
      }
    }
  }

  // ----- Verification -----

  /** The user is there, not verified, and the code on hand is at most 600 seconds old and has the hash of the one given. */
  predicate RightCode(hash: string -> string, s: State, user: string, given: string) {
    && user in s.users && !s.users[user].verified
    && user in s.otps && s.now - s.otps[user].setAt <= 600_000 && s.otps[user].hash == hash(given)
  }

  /** With the right code a verification uses the code up and verifies the user. With any other it does nothing. */
  lemma VerifyServed(hash: string -> string, s: State, r: nat, user: string, given: string, otp: string)
    requires r !in s.threads
    ensures Served(hash, s, r, VerifyFind(user, given), otp) ==
            if RightCode(hash, s, user, given)
            then s.(users := s.users[user := s.users[user].(verified := true)], otps := s.otps - {user},
                    history := s.history + [OtpMatched(user, hash(given), s.otps[user], s.now)] + [Verified(user)])
            else s
  {
    var find, get := VerifyFind(user, given), VerifyGet(user, given);
    if user !in s.users || s.users[user].verified {
      Leaves(s, r, find);
      OneTurn(hash, s, r, find, otp, 5, s);
      TurnsDone(hash, s, r, otp, 4);
    } else {
      Moves(s, r, find, get);
      OneTurn(hash, s, r, find, otp, 5, At(s, r, get));
      if RightCode(hash, s, user, given) {
        RightCodeServed(hash, s, r, user, given, otp);
      } else {
        Leaves(s, r, get);
        OneTurn(hash, s, r, get, otp, 4, s);
        TurnsDone(hash, s, r, otp, 3);
      }
    }
  }

  lemma RightCodeServed(hash: string -> string, s: State, r: nat, user: string, given: string, otp: string)
    requires r !in s.threads && RightCode(hash, s, user, given)
    ensures Turns(hash, At(s, r, VerifyGet(user, given)), r, otp, 4) ==
            s.(users := s.users[user := s.users[user].(verified := true)], otps := s.otps - {user},
               history := s.history + [OtpMatched(user, hash(given), s.otps[user], s.now)] + [Verified(user)])
  {
    var matched := Log(s, OtpMatched(user, hash(given), s.otps[user], s.now));
    var used := matched.(otps := s.otps - {user});
    var marked := Log(used.(users := s.users[user := s.users[user].(verified := true)]), Verified(user));
    Moves(matched, r, VerifyGet(user, given), VerifyDelete(user));
    OneTurn(hash, s, r, VerifyGet(user, given), otp, 4, At(matched, r, VerifyDelete(user)));
    Moves(used, r, VerifyDelete(user), VerifyMark(user));
    OneTurn(hash, matched, r, VerifyDelete(user), otp, 3, At(used, r, VerifyMark(user)));
    Leaves(marked, r, VerifyMark(user));
    OneTurn(hash, used, r, VerifyMark(user), otp, 2, marked);
    TurnsDone(hash, marked, r, otp, 1);
  }

  // ----- Tokens -----

  /** A fresh id in the user's slot, and the pair that carries it. */
  function WithTokens(s: State, user: string): State {
    s.(slots := s.slots[user := s.nextId], nextId := s.nextId + 1, history := s.history + [Issued(user, s.nextId)])
  }

  lemma TokensIssued(hash: string -> string, s: State, r: nat, t: Thread, otp: string, k: nat)
    requires r !in s.threads && k > 0 && Inserts(t)
    ensures Turns(hash, At(s, r, t), r, otp, k) ==
            s.(slots := s.slots[t.user := t.id], history := s.history + [Issued(t.user, t.id)])
  {
    var issued := s.(slots := s.slots[t.user := t.id], history := s.history + [Issued(t.user, t.id)]);
    Leaves(issued, r, t);
    OneTurn(hash, s, r, t, otp, k, issued);
    TurnsDone(hash, issued, r, otp, k - 1);
  }

  /** A sign-in issues tokens exactly to a known and verified user with the right password. */
  lemma SignInServed(hash: string -> string, s: State, r: nat, user: string, password: string, otp: string)
    requires r !in s.threads
    ensures Served(hash, s, r, SignInFind(user, password), otp) ==
            if user in s.users && s.users[user].password == password && s.users[user].verified
            then s.(slots := s.slots[user := s.nextId], nextId := s.nextId + 1,
                    history := s.history + [Issued(user, s.nextId)])
            else s
  {
    var find := SignInFind(user, password);
    if user in s.users && s.users[user].password == password && s.users[user].verified {
      var drawn := s.(nextId := s.nextId + 1);
      Moves(drawn, r, find, SignInInsert(user, s.nextId));
      OneTurn(hash, s, r, find, otp, 5, At(drawn, r, SignInInsert(user, s.nextId)));
      TokensIssued(hash, drawn, r, SignInInsert(user, s.nextId), otp, 4);
    } else {
      Leaves(s, r, find);
      OneTurn(hash, s, r, find, otp, 5, s);
      TurnsDone(hash, s, r, otp, 4);
    }
  }

  /** A refresh with an issued id is accepted exactly for a known user whose slot holds the id, which it replaces. */
  lemma RefreshServed(hash: string -> string, s: State, r: nat, user: string, id: nat, otp: string)
    requires r !in s.threads && Issued(user, id) in s.history
    ensures Served(hash, s, r, RefreshFind(user, id), otp) ==
            if user in s.users && user in s.slots && s.slots[user] == id
            then s.(slots := s.slots[user := s.nextId], nextId := s.nextId + 1,
                    history := s.history + [Accepted(user, id)] + [Issued(user, s.nextId)])
            else s
  {
    var find, validate := RefreshFind(user, id), RefreshValidate(user, id);
    if user !in s.users {
      Leaves(s, r, find);
      OneTurn(hash, s, r, find, otp, 5, s);
      TurnsDone(hash, s, r, otp, 4);
    } else {
      Moves(s, r, find, validate);
      OneTurn(hash, s, r, find, otp, 5, At(s, r, validate));
      if user in s.slots && s.slots[user] == id {
        AcceptedServed(hash, s, r, user, id, otp);
      } else {
        Leaves(s, r, validate);
        OneTurn(hash, s, r, validate, otp, 4, s);
        TurnsDone(hash, s, r, otp, 3);
      }
    }
  }

  lemma AcceptedServed(hash: string -> string, s: State, r: nat, user: string, id: nat, otp: string)
    requires r !in s.threads && Validates(s, user, id)
    ensures Turns(hash, At(s, r, RefreshValidate(user, id)), r, otp, 4) ==
            s.(slots := s.slots[user := s.nextId], nextId := s.nextId + 1,
               history := s.history + [Accepted(user, id)] + [Issued(user, s.nextId)])
  {
    var accepted := Log(s, Accepted(user, id));
    var cleared := accepted.(slots := s.slots - {user}, nextId := s.nextId + 1);
    Moves(accepted, r, RefreshValidate(user, id), RefreshDelete(user, id));
    OneTurn(hash, s, r, RefreshValidate(user, id), otp, 4, At(accepted, r, RefreshDelete(user, id)));
    Moves(cleared, r, RefreshDelete(user, id), RefreshInsert(user, s.nextId));
    OneTurn(hash, accepted, r, RefreshDelete(user, id), otp, 3, At(cleared, r, RefreshInsert(user, s.nextId)));
    TokensIssued(hash, cleared, r, RefreshInsert(user, s.nextId), otp, 2);
    Replaced(s.slots, user, s.nextId);
  }

  /** A refresh token whose id was never issued to the user is not a request at all. */
  lemma ForgedRefresh(hash: string -> string, s: State, r: nat, user: string, id: nat)
    requires Issued(user, id) !in s.history
    ensures Next(hash, s, Begin(r, RefreshFind(user, id))) == s
  {
  }

  // ----- On the way: what others can see of a request -----

  /** A sign-up creates the user before it sets a code. */
  lemma SignUpCreatesFirst(hash: string -> string, s: State, r: nat, user: string, password: string, otp: string)
    requires r !in s.threads && user !in s.users
    ensures var t := Turns(hash, At(s, r, SignUpFind(user, password)), r, otp, 2);
            t.users == s.users[user := User(password, false)] && t.otps == s.otps
  {
    var find, create := SignUpFind(user, password), SignUpCreate(user, password);
    var created := s.(users := s.users[user := User(password, false)]);
    Moves(s, r, find, create);
    OneTurn(hash, s, r, find, otp, 2, At(s, r, create));
    Moves(created, r, create, SignUpOtp(user));
    OneTurn(hash, s, r, create, otp, 1, At(created, r, SignUpOtp(user)));
  }

  /** A resend deletes a code that is still live before it sets another. */
  lemma ResendClearsFirst(hash: string -> string, s: State, r: nat, user: string, otp: string)
    requires r !in s.threads && user in s.users && !s.users[user].verified
    requires user in s.otps && s.now - s.otps[user].setAt <= 600_000
    ensures Turns(hash, At(s, r, ResendFind(user)), r, otp, 3).otps == s.otps - {user}
  {
    var cleared := s.(otps := s.otps - {user});
    Moves(s, r, ResendFind(user), ResendGet(user));
    OneTurn(hash, s, r, ResendFind(user), otp, 3, At(s, r, ResendGet(user)));
    Moves(s, r, ResendGet(user), ResendDelete(user));
    OneTurn(hash, s, r, ResendGet(user), otp, 2, At(s, r, ResendDelete(user)));
    Moves(cleared, r, ResendDelete(user), ResendSet(user));
    OneTurn(hash, s, r, ResendDelete(user), otp, 1, At(cleared, r, ResendSet(user)));
  }

  /** A verification uses the code up before it marks the user. */
  lemma VerifyClearsFirst(hash: string -> string, s: State, r: nat, user: string, given: string, otp: string)
    requires r !in s.threads && RightCode(hash, s, user, given)
    ensures var t := Turns(hash, At(s, r, VerifyFind(user, given)), r, otp, 3);
            t.otps == s.otps - {user} && t.users == s.users
  {
    var find, get := VerifyFind(user, given), VerifyGet(user, given);
    var matched := Log(s, OtpMatched(user, hash(given), s.otps[user], s.now));
    var used := matched.(otps := s.otps - {user});
    Moves(s, r, find, get);
    OneTurn(hash, s, r, find, otp, 3, At(s, r, get));
    Moves(matched, r, get, VerifyDelete(user));
    OneTurn(hash, s, r, get, otp, 2, At(matched, r, VerifyDelete(user)));
    Moves(used, r, VerifyDelete(user), VerifyMark(user));
    OneTurn(hash, matched, r, VerifyDelete(user), otp, 1, At(used, r, VerifyMark(user)));
  }

  // ----- What every run goes back to -----

  /** Some request of the run started so. */
  predicate Begun(steps: seq<Step>, t: Thread) {
    exists k | 0 <= k < |steps| :: steps[k].Begin? && steps[k].thread == t
  }

  /** The code was drawn in some turn of the run. */
  predicate Drawn(steps: seq<Step>, otp: string) {
    exists k | 0 <= k < |steps| :: steps[k].Turn? && steps[k].otp == otp
  }

  /** Somebody signed in with the password that the user has. */
  predicate SignedIn(s: State, steps: seq<Step>, user: string) {
    user in s.users && Begun(steps, SignInFind(user, s.users[user].password))
  }

  predicate ThreadAsked(t: Thread, s: State, steps: seq<Step>) {
    match t
    case SignUpFind(u, pw) => Begun(steps, SignUpFind(u, pw))
    case SignUpCreate(u, pw) => Begun(steps, SignUpFind(u, pw))
    case VerifyFind(u, given) => Begun(steps, VerifyFind(u, given))
    case VerifyGet(u, given) => Begun(steps, VerifyFind(u, given))
    case SignInFind(u, pw) => Begun(steps, SignInFind(u, pw))
    case SignInInsert(u, _) => SignedIn(s, steps, u)
    case RefreshFind(u, _) => SignedIn(s, steps, u)
    case RefreshValidate(u, _) => SignedIn(s, steps, u)
    case RefreshDelete(u, _) => SignedIn(s, steps, u)
    case RefreshInsert(u, _) => SignedIn(s, steps, u)
    case _ => true
  }

  ghost predicate EventAsked(hash: string -> string, e: Event, s: State, steps: seq<Step>) {
    match e
    case OtpSet(_, otp) => exists code :: Drawn(steps, code) && hash(code) == otp.hash
    case OtpMatched(u, _, otp, _) => exists given :: Begun(steps, VerifyFind(u, given)) && hash(given) == otp.hash
    case Issued(u, _) => SignedIn(s, steps, u)
    case _ => true
  }

  /** Everything in a state goes back to requests and draws of the run. */
  ghost predicate Grounded(hash: string -> string, s: State, steps: seq<Step>) {
    && (forall u | u in s.users :: Begun(steps, SignUpFind(u, s.users[u].password)))
    && (forall r | r in s.threads :: ThreadAsked(s.threads[r], s, steps))
    && (forall e | e in s.history :: EventAsked(hash, e, s, steps))
  }

  /** Passwords stay, users are added. */
  predicate SamePasswords(s: State, s': State) {
    forall u | u in s.users :: u in s'.users && s'.users[u].password == s.users[u].password
  }

  /** What a step of a request does: only its own thread moves, users keep their passwords, at most one event is
      recorded, and the new user, thread and event are asked for. */
  ghost predicate TurnAsked(hash: string -> string, s: State, s': State, r: nat, steps: seq<Step>) {
    && SamePasswords(s, s')
    && (forall u | u in s'.users :: u in s.users || Begun(steps, SignUpFind(u, s'.users[u].password)))
    && (s'.threads == s.threads - {r} || (r in s'.threads && s'.threads == s.threads[r := s'.threads[r]]))
    && (r in s'.threads ==> ThreadAsked(s'.threads[r], s', steps))
    && (s'.history == s.history
        || (|s'.history| == |s.history| + 1 && s'.history[..|s.history|] == s.history
            && EventAsked(hash, s'.history[|s.history|], s', steps)))
  }

  lemma SamePasswordsAsked(hash: string -> string, s: State, s': State, steps: seq<Step>)
    requires SamePasswords(s, s')
    ensures forall t | ThreadAsked(t, s, steps) :: ThreadAsked(t, s', steps)
    ensures forall e | EventAsked(hash, e, s, steps) :: EventAsked(hash, e, s', steps)
  {
  }

  lemma TurnGrounded(hash: string -> string, s: State, s': State, r: nat, steps: seq<Step>)
    requires Grounded(hash, s, steps) && TurnAsked(hash, s, s', r, steps)
    ensures Grounded(hash, s', steps)
  {
    SamePasswordsAsked(hash, s, s', steps);
    forall u | u in s'.users ensures Begun(steps, SignUpFind(u, s'.users[u].password)) {
      assert u in s.users ==> s'.users[u].password == s.users[u].password;
    }
    forall q | q in s'.threads ensures ThreadAsked(s'.threads[q], s', steps) {
      assert q != r ==> q in s.threads && ThreadAsked(s.threads[q], s, steps);
    }
    forall e | e in s'.history ensures EventAsked(hash, e, s', steps) {
      assert e in s.history ==> EventAsked(hash, e, s, steps);
    }
  }

  lemma CodeTurnAsked(hash: string -> string, s: State, r: nat, otp: string, steps: seq<Step>)
    requires r in s.threads && IsCodeStep(s.threads[r]) && ThreadAsked(s.threads[r], s, steps) && Drawn(steps, otp)
    ensures TurnAsked(hash, s, CodeTurn(hash, s, r, otp), r, steps)
  {
  }

  lemma VerifyTurnAsked(hash: string -> string, s: State, r: nat, steps: seq<Step>)
    requires r in s.threads && IsVerifyStep(s.threads[r]) && ThreadAsked(s.threads[r], s, steps)
    ensures TurnAsked(hash, s, VerifyTurn(hash, s, r), r, steps)
  {
  }

  lemma IssueAsked(hash: string -> string, s: State, r: nat, steps: seq<Step>)
    requires r in s.threads && Inserts(s.threads[r]) && ThreadAsked(s.threads[r], s, steps)
    ensures TurnAsked(hash, s, TokenTurn(s, r), r, steps)
  {
  }

  lemma TokenTurnAsked(hash: string -> string, s: State, r: nat, steps: seq<Step>)
    requires r in s.threads && !IsCodeStep(s.threads[r]) && !IsVerifyStep(s.threads[r])
    requires ThreadAsked(s.threads[r], s, steps)
    ensures TurnAsked(hash, s, TokenTurn(s, r), r, steps)
  {
    if Inserts(s.threads[r]) {
      IssueAsked(hash, s, r, steps);
    } else {
      var t, s' := s.threads[r], TokenTurn(s, r);
      assert s'.users == s.users;
      assert r in s'.threads ==> s'.threads[r].user == t.user;
    }
  }

  lemma BeginAsked(hash: string -> string, s: State, t: Thread, steps: seq<Step>)
    requires Grounded(hash, s, steps) && IsStart(s, t) && Begun(steps, t)
    ensures ThreadAsked(t, s, steps)
  {
    if t.RefreshFind? {
      assert EventAsked(hash, Issued(t.user, t.id), s, steps);
    }
  }

  lemma BeginGrounded(hash: string -> string, s: State, r: nat, t: Thread, steps: seq<Step>)
    requires Grounded(hash, s, steps) && Begin(r, t) in steps
    ensures Grounded(hash, Next(hash, s, Begin(r, t)), steps)
  {
    if r !in s.threads && IsStart(s, t) {
      var i :| 0 <= i < |steps| && steps[i] == Begin(r, t);
      BeginAsked(hash, s, t, steps);
      TurnGrounded(hash, s, Goto(s, r, t), r, steps);
    }
  }

  lemma StepGrounded(hash: string -> string, s: State, step: Step, steps: seq<Step>)
    requires Grounded(hash, s, steps) && step in steps
    ensures Grounded(hash, Next(hash, s, step), steps)
  {
    match step
    case Begin(r, t) => BeginGrounded(hash, s, r, t, steps);
    case Turn(r, otp) =>
      if r in s.threads {
        assert Drawn(steps, otp) && ThreadAsked(s.threads[r], s, steps);
        if IsCodeStep(s.threads[r]) {
          CodeTurnAsked(hash, s, r, otp, steps);
        } else if IsVerifyStep(s.threads[r]) {
          VerifyTurnAsked(hash, s, r, steps);
        } else {
          TokenTurnAsked(hash, s, r, steps);
        }
        TurnGrounded(hash, s, Next(hash, s, step), r, steps);
      }
    case Tick(_) =>
  }

  lemma {:induction false} RunGrounded(hash: string -> string, s: State, rest: seq<Step>, steps: seq<Step>)
    requires Grounded(hash, s, steps) && forall step | step in rest :: step in steps
    ensures Grounded(hash, Run(hash, s, rest), steps)
    decreases |rest|
  {
    if rest != [] {
      StepGrounded(hash, s, rest[0], steps);
      RunGrounded(hash, Next(hash, s, rest[0]), rest[1..], steps);
    }
  }

  /** A user who has tokens, by sign-in or by refresh, was created with a password with which somebody signed in. */
  lemma TokensNeedPassword(hash: string -> string, now: int, steps: seq<Step>, user: string, id: nat)
    returns (password: string)
    requires Issued(user, id) in Run(hash, Start(now), steps).history
    ensures Begun(steps, SignUpFind(user, password)) && Begun(steps, SignInFind(user, password))
    ensures var s := Run(hash, Start(now), steps); user in s.users && s.users[user].password == password
  {
    var s := Run(hash, Start(now), steps);
    RunGrounded(hash, Start(now), steps, steps);
    assert EventAsked(hash, Issued(user, id), s, steps);
    password := s.users[user].password;
  }

  /** A verification comes after a match with the user's most recent code, read at most 600 seconds after that code was
      set; the code was drawn in this run, and a request gave one with the same hash. */
  lemma VerifiedNeedsCode(hash: string -> string, now: int, steps: seq<Step>, j: nat, user: string)
    returns (i: nat, given: string, code: string)
    requires var h := Run(hash, Start(now), steps).history; j < |h| && h[j] == Verified(user)
    ensures var h := Run(hash, Start(now), steps).history;
            && i < j && h[i].OtpMatched? && h[i].user == user
            && LastOtp(user, h[..i]) == Some(h[i].otp) && h[i].readAt - h[i].otp.setAt <= 600_000
            && Begun(steps, VerifyFind(user, given)) && Drawn(steps, code)
            && hash(given) == hash(code) == h[i].otp.hash == h[i].givenHash
  {
    var s := Run(hash, Start(now), steps);
    var h := s.history;
    RunKeepsTraced(hash, Start(now), steps);
    RunGrounded(hash, Start(now), steps, steps);
    assert Justified(h[j], h[..j]);
    var e :| e in h[..j] && e.OtpMatched? && e.user == user;
    i :| 0 <= i < |h[..j]| && h[..j][i] == e;
    assert Justified(h[i], h[..i]);
    assert EventAsked(hash, h[i], s, steps);
    given :| Begun(steps, VerifyFind(user, given)) && hash(given) == h[i].otp.hash;
    LastOtpInHistory(user, h[..i]);
    assert EventAsked(hash, OtpSet(user, h[i].otp), s, steps);
    code :| Drawn(steps, code) && hash(code) == h[i].otp.hash;
  }

  lemma {:induction false} LastOtpInHistory(user: string, history: seq<Event>)
    requires LastOtp(user, history).Some?
    ensures OtpSet(user, LastOtp(user, history).value) in history
  {
    var n := |history| - 1;
    if !(history[n].OtpSet? && history[n].user == user) {
      LastOtpInHistory(user, history[..n]);
    }
  }

  /** Every token pair of any run, issued by sign-in or by refresh, comes after a verification of that user with a code
      that was drawn and given, and goes back to a sign-in with the password the user was created with. */
  lemma TokensFollowVerification(hash: string -> string, now: int, steps: seq<Step>, k: nat, user: string, id: nat)
    returns (i: nat, j: nat, given: string, code: string, password: string)
    requires var h := Run(hash, Start(now), steps).history; k < |h| && h[k] == Issued(user, id)
    ensures var h := Run(hash, Start(now), steps).history;
            && i < j < k && h[j] == Verified(user)
            && h[i].OtpMatched? && h[i].user == user
            && LastOtp(user, h[..i]) == Some(h[i].otp) && h[i].readAt - h[i].otp.setAt <= 600_000
            && Begun(steps, VerifyFind(user, given)) && Drawn(steps, code) && hash(given) == hash(code) == h[i].otp.hash
            && Begun(steps, SignUpFind(user, password)) && Begun(steps, SignInFind(user, password))
  {
    var h := Run(hash, Start(now), steps).history;
    RunKeepsTraced(hash, Start(now), steps);
    assert Justified(h[k], h[..k]);
    j :| 0 <= j < |h[..k]| && h[..k][j] == Verified(user);
    i, given, code := VerifiedNeedsCode(hash, now, steps, j, user);
    assert h[k] in h;
    password := TokensNeedPassword(hash, now, steps, user, id);
  }

  /** Without a sign-in that carries the password of a sign-up there are never tokens. */
  lemma WrongPasswordNeverIssues(hash: string -> string, now: int, steps: seq<Step>, user: string, id: nat)
    requires forall password :: !(Begun(steps, SignUpFind(user, password)) && Begun(steps, SignInFind(user, password)))
    ensures Issued(user, id) !in Run(hash, Start(now), steps).history
  {
    if Issued(user, id) in Run(hash, Start(now), steps).history {
      var password := TokensNeedPassword(hash, now, steps, user, id);
    }
  }

  /** Without a given code that has the hash of a drawn one the user is never verified. */
  lemma WrongCodeNeverVerifies(hash: string -> string, now: int, steps: seq<Step>, user: string)
    requires forall given, code :: Begun(steps, VerifyFind(user, given)) && Drawn(steps, code) ==> hash(given) != hash(code)
    ensures var s := Run(hash, Start(now), steps);
            Verified(user) !in s.history && (user in s.users ==> !s.users[user].verified)
  {
    var s := Run(hash, Start(now), steps);
    RunKeepsTraced(hash, Start(now), steps);
    if Verified(user) in s.history {
      var j :| 0 <= j < |s.history| && s.history[j] == Verified(user);
      var i, given, code := VerifiedNeedsCode(hash, now, steps, j, user);
    }
  }
}
