/** What each transaction on accounts leaves behind: what it grants, what it revokes, and whom it spares. */
module AccountEffects {
  import opened Wrappers
  import opened Factors

  // ---- Sessions ----

  /** Of one user's sessions nothing is left; everybody else's are as they were. */
  ghost predicate SignedOut(a: map<string, Session>, b: map<string, Session>, user: string) {
    forall t :: if t in a && a[t].user != user then t in b && b[t] == a[t] else t !in b
  }

  ghost predicate TicketsGone(a: map<string, Ticket>, b: map<string, Ticket>, user: string) {
    forall t :: if t in a && a[t].user != user then t in b && b[t] == a[t] else t !in b
  }

  lemma {:induction false} SessionOpened(s: Accounts, token: string, user: string, assurance: Assurance)
    ensures var (s', reply) := OpenSession(s, token, user, assurance);
            && (reply == Done <==>
                  && token !in s.sessions && user in s.users && s.users[user].status == Active
                  && (assurance == Password ==> s.users[user].mfaSkipped))
            && s' == if reply == Done then s.(sessions := s.sessions[token := Session(user, assurance)]) else s
  {
  }

  /** A new password ends every session and every pending login of the user, and of nobody else. */
  lemma {:induction false} PasswordRevokes(s: Accounts, user: string)
    ensures var (s', reply) := ChangePassword(s, user);
            && (reply == Done <==> user in s.users)
            && (if reply == Done then
                  && SignedOut(s.sessions, s'.sessions, user) && TicketsGone(s.logins, s'.logins, user)
                  && s' == s.(sessions := s'.sessions, logins := s'.logins)
                else s' == s)
  {
  }

  // ---- Opting out ----

  lemma {:induction false} OptedOut(s: Accounts, user: string, rp: string, token: string)
    ensures var (s', reply) := SkipMFA(s, user, rp, token);
            && (reply == RecentMFARequired <==> HasFactor(s, user, rp))
            && (reply == Done <==>
                  && !HasFactor(s, user, rp) && user in s.users
                  && token in s.sessions && s.sessions[token] == Session(user, Bootstrap))
            && (if reply == Done then
                  && s'.users == s.users[user := s.users[user].(mfaSkipped := true)]
                  && s'.sessions == s.sessions[token := Session(user, Password)]
                  && s' == s.(users := s'.users, sessions := s'.sessions)
                else s' == s)
  {
    assert |PasskeysOf(s.passkeys, user, rp)| == 0 <==> PasskeysOf(s.passkeys, user, rp) == {};
  }

  // ---- Enrolling a factor ----

  predicate Issued(issued: seq<NewCode>, c: string) {
    exists i :: 0 <= i < |issued| && issued[i].digest == c
  }

  /** The user's recovery codes are the ones issued, unused, if any were; other users keep theirs. */
  ghost predicate CodesReplaced(
    a: map<string, Code>, b: map<string, Code>, user: string, batch: string, issued: seq<NewCode>)
  {
    forall c ::
      if Issued(issued, c) then c in b && b[c] == Code(user, batch, false)
      else if c in a && (issued == [] || a[c].user != user) then c in b && b[c] == a[c]
      else c !in b
  }

  /** The session that enrolled is multi-factor now. Of the user's other sessions only multi-factor ones are left. */
  ghost predicate Strengthened(a: map<string, Session>, b: map<string, Session>, user: string, token: string) {
    forall t ::
      if t == token then t in b && b[t] == Session(user, Mfa)
      else if t in a && (a[t].user != user || a[t].assurance == Mfa) then t in b && b[t] == a[t]
      else t !in b
  }

  ghost predicate Enrolled(
    s: Accounts, s': Accounts, user: string, batch: string, issued: seq<NewCode>, token: string)
  {
    && CodesReplaced(s.codes, s'.codes, user, batch, issued)
    && Strengthened(s.sessions, s'.sessions, user, token)
    && s'.users == if user in s.users then s.users[user := s.users[user].(mfaSkipped := false)] else s.users
  }

  /** The batch may be stored: for this user, under one number, all different and new. */
  ghost predicate Storable(codes: map<string, Code>, user: string, batch: string, issued: seq<NewCode>) {
    && (forall i :: 0 <= i < |issued| ==>
          issued[i].user == user && issued[i].batch == batch && issued[i].digest !in codes)
    && (forall i, j :: 0 <= i < j < |issued| ==> issued[i].digest != issued[j].digest)
  }

  lemma {:induction false} IssuedInit(issued: seq<NewCode>, c: string)
    requires issued != []
    ensures Issued(issued, c) <==> Issued(issued[..|issued| - 1], c) || issued[|issued| - 1].digest == c
  {
    var init := issued[..|issued| - 1];
    assert forall i :: 0 <= i < |init| ==> init[i] == issued[i];
  }

  lemma {:induction false} InsertedAt(
    codes: map<string, Code>, user: string, batch: string, issued: seq<NewCode>, c: string)
    requires InsertCodes(codes, user, batch, issued).1 == Done
    ensures var b := InsertCodes(codes, user, batch, issued).0;
            if Issued(issued, c) then c in b && b[c] == Code(user, batch, false)
            else (c in b <==> c in codes) && (c in codes ==> b[c] == codes[c])
  {
    if issued != [] {
      InsertedAt(codes, user, batch, issued[..|issued| - 1], c);
      IssuedInit(issued, c);
    }
  }

  lemma {:induction false} InsertedIff(codes: map<string, Code>, user: string, batch: string, issued: seq<NewCode>)
    ensures InsertCodes(codes, user, batch, issued).1 == Done <==> Storable(codes, user, batch, issued)
  {
    if issued != [] {
      var init, c := issued[..|issued| - 1], issued[|issued| - 1];
      InsertedIff(codes, user, batch, init);
      StorableInit(codes, user, batch, issued);
      if InsertCodes(codes, user, batch, init).1 == Done {
        InsertedAt(codes, user, batch, init, c.digest);
      }
    }
  }

  lemma {:induction false} StorableInit(codes: map<string, Code>, user: string, batch: string, issued: seq<NewCode>)
    requires issued != []
    ensures var init, c := issued[..|issued| - 1], issued[|issued| - 1];
            Storable(codes, user, batch, issued) <==>
              && Storable(codes, user, batch, init)
              && c.user == user && c.batch == batch && c.digest !in codes && !Issued(init, c.digest)
  {
    var init, c := issued[..|issued| - 1], issued[|issued| - 1];
    assert forall i :: 0 <= i < |init| ==> init[i] == issued[i];
    assert issued[|init|] == c;
  }

  lemma {:induction false} FinishEnrols(
    s: Accounts, user: string, batch: string, issued: seq<NewCode>, token: string)
    ensures var (s', reply) := FinishFactor(s, user, batch, issued, token);
            && (reply == Done <==>
                  && (issued != [] ==> Storable(WithoutCodes(s.codes, user), user, batch, issued))
                  && token in s.sessions && s.sessions[token].user == user)
            && (if reply == Done then
                  && Enrolled(s, s', user, batch, issued, token)
                  && s' == s.(users := s'.users, codes := s'.codes, sessions := s'.sessions)
                else s' == s)
  {
    var left := WithoutCodes(s.codes, user);
    InsertedIff(left, user, batch, issued);
    if issued != [] && InsertCodes(left, user, batch, issued).1 == Done {
      forall c
        ensures var b := InsertCodes(left, user, batch, issued).0;
                if Issued(issued, c) then c in b && b[c] == Code(user, batch, false)
                else (c in b <==> c in left) && (c in left ==> b[c] == left[c])
      {
        InsertedAt(left, user, batch, issued, c);
      }
    }
  }

  /** A registered passkey is there under its ID, and nothing happens unless all of it does. */
  lemma {:induction false} PasskeyRegistered(
    s: Accounts, id: string, key: Passkey, batch: string, issued: seq<NewCode>, token: string)
    ensures var (s', reply) := RegisterPasskey(s, id, key, batch, issued, token);
            if reply == Done then
              && key.user in s.users && CredentialKey(key.rp, id) !in s.passkeys
              && PasskeysNamed(s.passkeys, key.user, key.rp, key.name) == {}
              && s'.passkeys == s.passkeys[CredentialKey(key.rp, id) := key]
              && Enrolled(s, s', key.user, batch, issued, token)
              && s'.totp == s.totp && s'.enrollments == s.enrollments && s'.logins == s.logins && s'.setups == s.setups
            else s' == s
  {
    FinishEnrols(s.(passkeys := s.passkeys[CredentialKey(key.rp, id) := key]), key.user, batch, issued, token);
  }

  /** An enrolled authenticator has spent its enrolment, and starts from the counter that was proved. */
  lemma {:induction false} AuthenticatorEnrolled(
    s: Accounts, e: string, binding: string, user: string, counter: Option<int>,
    batch: string, issued: seq<NewCode>, token: string, now: int)
    ensures var (s', reply) := EnrolTOTP(s, e, binding, user, counter, batch, issued, token, now);
            if reply == Done then
              && e in s.enrollments && s.enrollments[e].binding == binding && s.enrollments[e].user == user
              && s.enrollments[e].expiresAt > now && user !in s.totp
              && s'.totp == s.totp[user := counter] && s'.enrollments == s.enrollments - {e}
              && Enrolled(s, s', user, batch, issued, token)
              && s'.passkeys == s.passkeys && s'.logins == s.logins && s'.setups == s.setups
            else s' == s
  {
    FinishEnrols(
      s.(enrollments := s.enrollments - {e}, totp := s.totp[user := counter]), user, batch, issued, token);
  }

  // ---- Removing factors ----

  /** The passkeys of that name go, all others stay. */
  lemma {:induction false} PasskeyDeleted(s: Accounts, user: string, rp: string, name: string)
    ensures var (s', reply) := DeletePasskey(s, user, rp, name);
            if reply == Done then
              && s' == s.(passkeys := s'.passkeys)
              && (exists k :: k in s.passkeys && s.passkeys[k] == Passkey(user, rp, name))
              && forall k :: if k in s.passkeys && s.passkeys[k] != Passkey(user, rp, name)
                             then k in s'.passkeys && s'.passkeys[k] == s.passkeys[k] else k !in s'.passkeys
            else s' == s
  {
    var gone := PasskeysNamed(s.passkeys, user, rp, name);
    if DeletePasskey(s, user, rp, name).1 == Done {
      assert gone != {};
      var k :| k in gone;
      assert k in s.passkeys && s.passkeys[k] == Passkey(user, rp, name);
    }
  }

  lemma {:induction false} AuthenticatorDeleted(s: Accounts, user: string, rp: string)
    ensures var (s', reply) := DeleteTOTP(s, user, rp);
            && (reply == Done <==> PasskeysOf(s.passkeys, user, rp) != {} && user in s.totp)
            && s' == if reply == Done then s.(totp := s.totp - {user}) else s
  {
    assert |PasskeysOf(s.passkeys, user, rp)| == 0 <==> PasskeysOf(s.passkeys, user, rp) == {};
  }

  /** A reset takes every factor, code, session and pending ticket of the user, and the waiver. Nobody else notices. */
  lemma {:induction false} ResetClears(s: Accounts, user: string)
    ensures var s' := Cleared(s, user);
            && (forall rp :: !HasFactor(s', user, rp))
            && (forall c :: if c in s.codes && s.codes[c].user != user then c in s'.codes && s'.codes[c] == s.codes[c]
                            else c !in s'.codes)
            && (forall k :: if k in s.passkeys && s.passkeys[k].user != user
                            then k in s'.passkeys && s'.passkeys[k] == s.passkeys[k] else k !in s'.passkeys)
            && s'.totp == s.totp - {user}
            && SignedOut(s.sessions, s'.sessions, user)
            && TicketsGone(s.enrollments, s'.enrollments, user) && TicketsGone(s.logins, s'.logins, user)
            && s'.users == (if user in s.users then s.users[user := s.users[user].(mfaSkipped := false)] else s.users)
            && s'.setups == s.setups
  {
  }

  // ---- Logging in with a factor ----

  /** A login with a counter spends the login and the counter. */
  lemma {:induction false} CounterSpent(s: Accounts, login: string, user: string, counter: int, now: int)
    ensures var (s', reply) := TOTPLogin(s, login, user, counter, now);
            && (reply == Done <==>
                  && login in s.logins && s.logins[login].user == user && s.logins[login].expiresAt > now
                  && user in s.totp && CounterFresh(s.totp[user], counter) && counter >= 0)
            && s' == if reply == Done then s.(totp := s.totp[user := Some(counter)], logins := s.logins - {login}) else s
  {
  }

  /** A login with a recovery code spends the login and the code. */
  lemma {:induction false} CodeSpent(s: Accounts, login: string, code: string, now: int)
    ensures var (s', reply) := RecoveryLogin(s, login, code, now);
            && (reply == Done <==>
                  && login in s.logins && s.logins[login].expiresAt > now
                  && code in s.codes && s.codes[code].user == s.logins[login].user && !s.codes[code].used)
            && (if reply == Done then
                  && code in s'.codes && s'.codes == s.codes[code := s.codes[code].(used := true)]
                  && s' == s.(codes := s'.codes, logins := s.logins - {login})
                else s' == s)
  {
  }

  function CodeLogins(s: Accounts, ops: seq<Op>, code: string): nat {
    if ops == [] then 0
    else
      var init, op := ops[..|ops| - 1], ops[|ops| - 1];
      CodeLogins(s, init, code)
      + if op.RecoveryLoginOp? && op.code == code && Exec(Run(s, init), op).1 == Done then 1 else 0
  }

  predicate IssuesCode(op: Op, code: string) {
    match op
    case RegisterPasskeyOp(_, _, _, issued, _) => Issued(issued, code)
    case EnrolTOTPOp(_, _, _, _, _, issued, _, _) => Issued(issued, code)
    case _ => false
  }

  /** Over every run in which it is not issued again, a recovery code logs in at most once. */
  lemma {:induction false} CodesWorkOnce(s: Accounts, ops: seq<Op>, code: string)
    requires forall i :: 0 <= i < |ops| ==> !IssuesCode(ops[i], code)
    ensures CodeLogins(s, ops, code) <= 1
    ensures code !in s.codes || s.codes[code].used ==> CodeLogins(s, ops, code) == 0
    ensures CodeLogins(s, ops, code) == 1 || code !in s.codes || s.codes[code].used ==>
              var s' := Run(s, ops); code !in s'.codes || s'.codes[code].used
  {
    if ops != [] {
      CodesWorkOnce(s, ops[..|ops| - 1], code);
      CodeStep(Run(s, ops[..|ops| - 1]), ops[|ops| - 1], code);
    }
  }

  lemma {:induction false} CodeStep(s: Accounts, op: Op, code: string)
    requires !IssuesCode(op, code)
    ensures var s' := Exec(s, op).0;
            && (code !in s.codes || s.codes[code].used ==> code !in s'.codes || s'.codes[code].used)
            && (op.RecoveryLoginOp? && op.code == code && Exec(s, op).1 == Done ==>
                  code in s.codes && !s.codes[code].used && code in s'.codes && s'.codes[code].used)
  {
    if op.RecoveryLoginOp? {
      CodeSpent(s, op.login, op.code, op.now);
      assert Exec(s, op) == RecoveryLogin(s, op.login, op.code, op.now);
    } else {
      CodeSpared(s, op, code);
    }
  }

  predicate CodeKept(s: Accounts, s': Accounts, code: string) {
    code in s'.codes ==> code in s.codes && s'.codes[code] == s.codes[code]
  }

  lemma {:induction false} CodeSpared(s: Accounts, op: Op, code: string)
    requires !IssuesCode(op, code) && !op.RecoveryLoginOp?
    ensures CodeKept(s, Exec(s, op).0, code)
  {
    match op
    case RegisterPasskeyOp(id, key, batch, issued, token) =>
      PasskeyRegistered(s, id, key, batch, issued, token);
      EnrolmentSpares(s, RegisterPasskey(s, id, key, batch, issued, token).0, key.user, batch, issued, token, code);
    case EnrolTOTPOp(e, b, u, c, batch, issued, token, now) =>
      AuthenticatorEnrolled(s, e, b, u, c, batch, issued, token, now);
      EnrolmentSpares(s, EnrolTOTP(s, e, b, u, c, batch, issued, token, now).0, u, batch, issued, token, code);
    case ResetMFAOp(user) => ResetClears(s, user);
    case ResetAuthenticationOp(user) => ResetClears(s, user);
    case _ => CodesSpared(s, op);
  }

  lemma {:induction false} EnrolmentSpares(
    s: Accounts, s': Accounts, user: string, batch: string, issued: seq<NewCode>, token: string, code: string)
    requires s' == s || Enrolled(s, s', user, batch, issued, token)
    requires !Issued(issued, code)
    ensures CodeKept(s, s', code)
  {
  }

  predicate TouchesCodes(op: Op) {
    op.RegisterPasskeyOp? || op.EnrolTOTPOp? || op.RecoveryLoginOp? || op.ResetMFAOp? || op.ResetAuthenticationOp?
  }

  lemma {:induction false} CodesSpared(s: Accounts, op: Op)
    requires !TouchesCodes(op)
    ensures Exec(s, op).0.codes == s.codes
  {
    if IsUserOp(op) {
      assert ExecUser(s, op).0.codes == s.codes;
    } else if IsSessionOp(op) {
      assert ExecSession(s, op).0.codes == s.codes;
    } else {
      assert ExecFactor(s, op).0.codes == s.codes;
    }
  }

  // ---- Users ----

  /** Setting up a pending account activates it, without a waiver, and spends the token. */
  lemma {:induction false} SetupCompleted(s: Accounts, token: string, now: int)
    ensures var (s', reply) := CompleteSetup(s, token, now);
            && (reply == Done <==>
                  && token in s.setups && s.setups[token].expiresAt > now && s.setups[token].user in s.users
                  && s.users[s.setups[token].user].status == AwaitingSetup)
            && (if reply == Done then
                  var user := s.setups[token].user;
                  && s'.users == s.users[user := s.users[user].(status := Active, mfaSkipped := false)]
                  && s' == s.(users := s'.users, setups := s.setups - {token})
                else s' == s)
  {
  }

  /** A role change is refused for the last active superuser only. */
  lemma {:induction false} RoleSet(s: Accounts, id: string, role: Role)
    ensures var (s', reply) := SetRole(s, id, role);
            && (reply == NotFound <==> id !in s.users)
            && (reply == LastSuperuser <==>
                  id in s.users && role != Superuser
                  && ActiveSuperuser(s.users, id) && forall o :: o != id ==> !ActiveSuperuser(s.users, o))
            && (reply == Done || reply == NotFound || reply == LastSuperuser)
            && s' == if reply == Done then s.(users := s.users[id := s.users[id].(role := role)]) else s
  {
  }

  /** Disabling an account also ends its sessions, logins and enrolments; enabling it brings none of them back. */
  lemma {:induction false} StatusSet(s: Accounts, id: string, status: Status)
    ensures var (s', reply) := SetStatus(s, id, status);
            if reply == Done then
              && id in s.users && s'.users == s.users[id := s.users[id].(status := status)]
              && s.users[id].status != AwaitingSetup && s.users[id].status != status && status != AwaitingSetup
              && (if status == Disabled then
                    && SignedOut(s.sessions, s'.sessions, id)
                    && TicketsGone(s.logins, s'.logins, id) && TicketsGone(s.enrollments, s'.enrollments, id)
                  else s'.sessions == s.sessions && s'.logins == s.logins && s'.enrollments == s.enrollments)
              && s' == s.(users := s'.users, sessions := s'.sessions, logins := s'.logins, enrollments := s'.enrollments)
            else s' == s
  {
  }

  lemma {:induction false} StatusRefused(s: Accounts, id: string, status: Status)
    ensures var reply := SetStatus(s, id, status).1;
            && (reply == LastSuperuser <==>
                  && status == Disabled && ActiveSuperuser(s.users, id)
                  && forall o :: o != id ==> !ActiveSuperuser(s.users, o))
            && (reply == NotFound <==> status != AwaitingSetup && id !in s.users)
  {
  }

  /** The first account is an active superuser, and can only be made while there is none. */
  lemma {:induction false} FirstUser(s: Accounts, id: string)
    ensures var (s', reply) := CreateInitialUser(s, id);
            && (reply == Done <==> s.users == map[])
            && s' == if reply == Done then s.(users := map[id := User(Superuser, Active, false)]) else s
  {
  }

  lemma {:induction false} UserAdded(s: Accounts, id: string, role: Role, status: Status)
    ensures var (s', reply) := CreateUser(s, id, role, status);
            && (reply == Done <==> id !in s.users)
            && s' == if reply == Done then s.(users := s.users[id := User(role, status, false)]) else s
  {
  }

  /** A new setup token takes the place of the user's earlier ones; only a pending account gets one. */
  lemma {:induction false} SetupIssued(s: Accounts, token: string, t: Ticket)
    ensures var (s', reply) := IssueSetup(s, token, t);
            if t.user in s.users && s.users[t.user].status == AwaitingSetup
               && (token in s.setups ==> s.setups[token].user == t.user) then
              && reply == Done && s' == s.(setups := s'.setups)
              && forall k ::
                   if k == token then k in s'.setups && s'.setups[k] == t
                   else if k in s.setups && s.setups[k].user != t.user then k in s'.setups && s'.setups[k] == s.setups[k]
                   else k !in s'.setups
            else reply != Done && s' == s
  {
  }

  /** A new enrolment takes the place of an earlier one with the same binding. */
  lemma {:induction false} EnrolmentStarted(s: Accounts, token: string, t: Ticket)
    ensures var (s', reply) := StartTOTP(s, token, t);
            if t.user in s.users && (token in s.enrollments ==> s.enrollments[token].binding == t.binding) then
              && reply == Done && s' == s.(enrollments := s'.enrollments)
              && forall k ::
                   if k == token then k in s'.enrollments && s'.enrollments[k] == t
                   else if k in s.enrollments && s.enrollments[k].binding != t.binding
                   then k in s'.enrollments && s'.enrollments[k] == s.enrollments[k]
                   else k !in s'.enrollments
            else reply != Done && s' == s
  {
  }

  lemma {:induction false} LoginStarted(s: Accounts, token: string, t: Ticket)
    ensures var (s', reply) := StartLogin(s, token, t);
            && (reply == Done <==> token !in s.logins && t.user in s.users)
            && s' == if reply == Done then s.(logins := s.logins[token := t]) else s
  {
  }

  /** Signing out ends one session; signing out elsewhere ends the user's others. */
  lemma {:induction false} SessionsEnded(s: Accounts, user: string, token: string, t: string)
    ensures var one := Exec(s, EndSessionOp(token)).0;
            && one == s.(sessions := one.sessions)
            && (t in one.sessions <==> t in s.sessions && t != token)
            && (t in one.sessions ==> one.sessions[t] == s.sessions[t])
    ensures var others := Exec(s, EndOtherSessionsOp(user, token)).0;
            && others == s.(sessions := others.sessions)
            && (t in others.sessions <==> t in s.sessions && (t == token || s.sessions[t].user != user))
            && (t in others.sessions ==> others.sessions[t] == s.sessions[t])
  {
  }
}
