/** Users, sessions and second factors: the transactions of the account store and the invariants they
    keep across tables. Passwords, secrets and credential records are opaque and left out of the rows. */
module Factors {
  import opened Wrappers

  datatype Role = Member | Superuser

  datatype Status = Active | Disabled | AwaitingSetup

  datatype Assurance = Bootstrap | Password | Mfa | Recovery

  datatype User = User(role: Role, status: Status, mfaSkipped: bool)

  datatype Session = Session(user: string, assurance: Assurance)

  datatype Passkey = Passkey(user: string, rp: string, name: string)

  /** Rows that a token names and that belong to a user until they expire. */
  datatype Ticket = Ticket(user: string, binding: string, expiresAt: int)

  datatype Code = Code(user: string, batch: string, used: bool)

  datatype NewCode = NewCode(digest: string, user: string, batch: string)

  /** A credential ID is unique under one relying party: the passkeys of each are keyed by both. */
  datatype CredentialKey = CredentialKey(rp: string, id: string)

  /** `totp` holds each user's last used counter. */
  datatype Accounts = Accounts(
    users: map<string, User>, sessions: map<string, Session>, passkeys: map<CredentialKey, Passkey>,
    totp: map<string, Option<int>>, enrollments: map<string, Ticket>, logins: map<string, Ticket>,
    codes: map<string, Code>, setups: map<string, Ticket>)

  const NOBODY := Accounts(map[], map[], map[], map[], map[], map[], map[], map[])

  datatype Reply =
    | Done | NotFound | Constraint | RecentMFARequired | PasskeyNameExists | LastFactor | LastSuperuser
    | InvalidState | Expired | AlreadyConfigured | Replayed | CodeInvalid | ScopeMismatch | AlreadyInitialized

  // ---- Rows of one user ----

  function WithoutTickets(tickets: map<string, Ticket>, user: string): map<string, Ticket> {
    map t | t in tickets && tickets[t].user != user :: tickets[t]
  }

  function WithoutSessions(sessions: map<string, Session>, user: string): map<string, Session> {
    map t | t in sessions && sessions[t].user != user :: sessions[t]
  }

  function WithoutPasskeys(passkeys: map<CredentialKey, Passkey>, user: string): map<CredentialKey, Passkey> {
    map k | k in passkeys && passkeys[k].user != user :: passkeys[k]
  }

  function WithoutCodes(codes: map<string, Code>, user: string): map<string, Code> {
    map c | c in codes && codes[c].user != user :: codes[c]
  }

  function PasskeysOf(passkeys: map<CredentialKey, Passkey>, user: string, rp: string): set<CredentialKey> {
    set k | k in passkeys && passkeys[k].user == user && passkeys[k].rp == rp
  }

  function PasskeysNamed(passkeys: map<CredentialKey, Passkey>, user: string, rp: string, name: string)
    : set<CredentialKey>
  {
    set k | k in passkeys && passkeys[k] == Passkey(user, rp, name)
  }

  predicate HasFactor(s: Accounts, user: string, rp: string) {
    PasskeysOf(s.passkeys, user, rp) != {} || user in s.totp
  }

  // ---- Session transactions ----

  function OpenSession(s: Accounts, token: string, user: string, assurance: Assurance): (Accounts, Reply) {
    if token in s.sessions then (s, Constraint)
    else if user in s.users && s.users[user].status == Active
            && (assurance != Password || s.users[user].mfaSkipped) then
      (s.(sessions := s.sessions[token := Session(user, assurance)]), Done)
    else (s, NotFound)
  }

  function ChangePassword(s: Accounts, user: string): (Accounts, Reply) {
    if user !in s.users then (s, NotFound)
    else (s.(logins := WithoutTickets(s.logins, user), sessions := WithoutSessions(s.sessions, user)), Done)
  }

  /** Registering a factor revokes the user's other sessions that are not multi-factor. */
  function OnlyStrong(sessions: map<string, Session>, user: string, keep: string): map<string, Session> {
    map t | t in sessions && !(sessions[t].user == user && t != keep && sessions[t].assurance != Mfa) :: sessions[t]
  }

  // ---- Factor transactions ----

  function SkipMFA(s: Accounts, user: string, rp: string, token: string): (Accounts, Reply) {
    if |PasskeysOf(s.passkeys, user, rp)| + (if user in s.totp then 1 else 0) != 0 then (s, RecentMFARequired)
    else if !(token in s.sessions && s.sessions[token] == Session(user, Bootstrap)) then (s, NotFound)
    else if user !in s.users then (s, NotFound)
    else
      (s.(sessions := s.sessions[token := Session(user, Password)],
          users := s.users[user := s.users[user].(mfaSkipped := true)]), Done)
  }

  function InsertCodes(codes: map<string, Code>, user: string, batch: string, issued: seq<NewCode>)
    : (map<string, Code>, Reply)
  {
    if issued == [] then (codes, Done)
    else
      var (before, reply) := InsertCodes(codes, user, batch, issued[..|issued| - 1]);
      var c := issued[|issued| - 1];
      if reply != Done then (before, reply)
      else if c.user != user || c.batch != batch then (before, ScopeMismatch)
      else if c.digest in before then (before, Constraint)
      else (before[c.digest := Code(user, batch, false)], Done)
  }

  /** What both registrations end with: opt-out cleared, recovery codes replaced if new ones came, weak
      sessions revoked, and the registering session made multi-factor. */
  function FinishFactor(s: Accounts, user: string, batch: string, issued: seq<NewCode>, token: string)
    : (Accounts, Reply)
  {
    var users := if user in s.users then s.users[user := s.users[user].(mfaSkipped := false)] else s.users;
    var (codes, reply) :=
      if issued == [] then (s.codes, Done) else InsertCodes(WithoutCodes(s.codes, user), user, batch, issued);
    var sessions := OnlyStrong(s.sessions, user, token);
    if reply != Done then (s, reply)
    else if !(token in sessions && sessions[token].user == user) then (s, NotFound)
    else (s.(users := users, codes := codes, sessions := sessions[token := Session(user, Mfa)]), Done)
  }

  function RegisterPasskey(
    s: Accounts, id: string, key: Passkey, batch: string, issued: seq<NewCode>, token: string): (Accounts, Reply)
  {
    var k := CredentialKey(key.rp, id);
    if key.user !in s.users then (s, Constraint)
    else if PasskeysNamed(s.passkeys, key.user, key.rp, key.name) != {} then (s, PasskeyNameExists)
    else if k in s.passkeys then (s, Constraint)
    else
      var (s', reply) := FinishFactor(s.(passkeys := s.passkeys[k := key]), key.user, batch, issued, token);
      if reply == Done then (s', Done) else (s, reply)
  }

  function DeletePasskey(s: Accounts, user: string, rp: string, name: string): (Accounts, Reply) {
    if |PasskeysOf(s.passkeys, user, rp)| <= 1 && user !in s.totp then (s, LastFactor)
    else
      var gone := PasskeysNamed(s.passkeys, user, rp, name);
      if |gone| != 1 then (s, NotFound) else (s.(passkeys := s.passkeys - gone), Done)
  }

  function StartTOTP(s: Accounts, token: string, t: Ticket): (Accounts, Reply) {
    var others := map e | e in s.enrollments && s.enrollments[e].binding != t.binding :: s.enrollments[e];
    if token in others || t.user !in s.users then (s, Constraint)
    else (s.(enrollments := others[token := t]), Done)
  }

  function EnrolTOTP(
    s: Accounts, enrollment: string, binding: string, user: string, counter: Option<int>,
    batch: string, issued: seq<NewCode>, token: string, now: int): (Accounts, Reply)
  {
    if !(enrollment in s.enrollments && s.enrollments[enrollment].binding == binding
         && s.enrollments[enrollment].user == user && s.enrollments[enrollment].expiresAt > now) then (s, Expired)
    else if user in s.totp then (s, AlreadyConfigured)
    else if counter.Some? && counter.value < 0 then (s, Constraint)
    else
      var (s', reply) := FinishFactor(
        s.(enrollments := s.enrollments - {enrollment}, totp := s.totp[user := counter]), user, batch, issued, token);
      if reply == Done then (s', Done) else (s, reply)
  }

  function DeleteTOTP(s: Accounts, user: string, rp: string): (Accounts, Reply) {
    if |PasskeysOf(s.passkeys, user, rp)| == 0 then (s, LastFactor)
    else if user !in s.totp then (s, NotFound)
    else (s.(totp := s.totp - {user}), Done)
  }

  function StartLogin(s: Accounts, token: string, t: Ticket): (Accounts, Reply) {
    if token in s.logins || t.user !in s.users then (s, Constraint)
    else (s.(logins := s.logins[token := t]), Done)
  }

  predicate CounterFresh(last: Option<int>, counter: int) {
    last.None? || last.value < counter
  }

  function TOTPLogin(s: Accounts, login: string, user: string, counter: int, now: int): (Accounts, Reply) {
    if !(login in s.logins && s.logins[login].user == user && s.logins[login].expiresAt > now) then (s, NotFound)
    else if !(user in s.totp && CounterFresh(s.totp[user], counter)) then (s, Replayed)
    else if counter < 0 then (s, Constraint)
    else (s.(totp := s.totp[user := Some(counter)], logins := s.logins - {login}), Done)
  }

  function RecoveryLogin(s: Accounts, login: string, code: string, now: int): (Accounts, Reply) {
    if !(login in s.logins && s.logins[login].expiresAt > now) then (s, NotFound)
    else if !(code in s.codes && s.codes[code].user == s.logins[login].user && !s.codes[code].used) then (s, CodeInvalid)
    else (s.(codes := s.codes[code := s.codes[code].(used := true)], logins := s.logins - {login}), Done)
  }

  /** Everything a reset removes; both resets also clear the opt-out. */
  function Cleared(s: Accounts, user: string): Accounts {
    s.(users := if user in s.users then s.users[user := s.users[user].(mfaSkipped := false)] else s.users,
       enrollments := WithoutTickets(s.enrollments, user), totp := s.totp - {user},
       logins := WithoutTickets(s.logins, user), codes := WithoutCodes(s.codes, user),
       passkeys := WithoutPasskeys(s.passkeys, user), sessions := WithoutSessions(s.sessions, user))
  }

  function ResetAuthentication(s: Accounts, user: string): (Accounts, Reply) {
    if user !in s.users then (s, NotFound) else (Cleared(s, user), Done)
  }

  // ---- User transactions ----

  function CreateUser(s: Accounts, id: string, role: Role, status: Status): (Accounts, Reply) {
    if id in s.users then (s, Constraint) else (s.(users := s.users[id := User(role, status, false)]), Done)
  }

  function CreateInitialUser(s: Accounts, id: string): (Accounts, Reply) {
    if s.users != map[] then (s, AlreadyInitialized) else CreateUser(s, id, Superuser, Active)
  }

  function IssueSetup(s: Accounts, token: string, t: Ticket): (Accounts, Reply) {
    if t.user !in s.users then (s, NotFound)
    else if s.users[t.user].status != AwaitingSetup then (s, InvalidState)
    else
      var others := WithoutTickets(s.setups, t.user);
      if token in others then (s, Constraint) else (s.(setups := others[token := t]), Done)
  }

  function CompleteSetup(s: Accounts, token: string, now: int): (Accounts, Reply) {
    if !(token in s.setups && s.setups[token].expiresAt > now) then (s, Expired)
    else
      var user := s.setups[token].user;
      if !(user in s.users && s.users[user].status == AwaitingSetup) then (s, Expired)
      else
        (s.(setups := s.setups - {token},
            users := s.users[user := s.users[user].(status := Active, mfaSkipped := false)]), Done)
  }

  predicate ActiveSuperuser(users: map<string, User>, id: string) {
    id in users && users[id].role == Superuser && users[id].status == Active
  }

  predicate AnotherSuperuser(users: map<string, User>, except: string) {
    exists id :: id in users && id != except && ActiveSuperuser(users, id)
  }

  function SetRole(s: Accounts, id: string, role: Role): (Accounts, Reply) {
    if id !in s.users then (s, NotFound)
    else if ActiveSuperuser(s.users, id) && role != Superuser && !AnotherSuperuser(s.users, id) then (s, LastSuperuser)
    else (s.(users := s.users[id := s.users[id].(role := role)]), Done)
  }

  function SetStatus(s: Accounts, id: string, status: Status): (Accounts, Reply) {
    if status == AwaitingSetup then (s, InvalidState)
    else if id !in s.users then (s, NotFound)
    else if s.users[id].status == AwaitingSetup || s.users[id].status == status then (s, InvalidState)
    else if ActiveSuperuser(s.users, id) && status == Disabled && !AnotherSuperuser(s.users, id) then (s, LastSuperuser)
    else
      var s' := s.(users := s.users[id := s.users[id].(status := status)]);
      if status != Disabled then (s', Done)
      else
        (s'.(enrollments := WithoutTickets(s.enrollments, id), logins := WithoutTickets(s.logins, id),
             sessions := WithoutSessions(s.sessions, id)), Done)
  }

  datatype Op =
    | CreateUserOp(id: string, role: Role, status: Status)
    | CreateInitialUserOp(id: string)
    | IssueSetupOp(token: string, ticket: Ticket)
    | CompleteSetupOp(token: string, now: int)
    | SetRoleOp(id: string, role: Role)
    | SetStatusOp(id: string, status: Status)
    | OpenSessionOp(token: string, user: string, assurance: Assurance)
    | EndSessionOp(token: string)
    | EndOtherSessionsOp(user: string, token: string)
    | ChangePasswordOp(user: string)
    | SkipMFAOp(user: string, rp: string, token: string)
    | RegisterPasskeyOp(id: string, key: Passkey, batch: string, issued: seq<NewCode>, token: string)
    | DeletePasskeyOp(user: string, rp: string, name: string)
    | StartTOTPOp(token: string, ticket: Ticket)
    | EnrolTOTPOp(enrollment: string, binding: string, user: string, counter: Option<int>, batch: string,
                  issued: seq<NewCode>, token: string, now: int)
    | DeleteTOTPOp(user: string, rp: string)
    | StartLoginOp(token: string, ticket: Ticket)
    | TOTPLoginOp(login: string, user: string, tick: int, now: int)
    | RecoveryLoginOp(login: string, code: string, now: int)
    | ResetMFAOp(user: string)
    | ResetAuthenticationOp(user: string)

  predicate IsUserOp(op: Op) {
    op.CreateUserOp? || op.CreateInitialUserOp? || op.IssueSetupOp? || op.CompleteSetupOp? || op.SetRoleOp? || op.SetStatusOp?
  }

  predicate IsSessionOp(op: Op) {
    || op.OpenSessionOp? || op.EndSessionOp? || op.EndOtherSessionsOp? || op.ChangePasswordOp?
    || op.StartLoginOp? || op.RecoveryLoginOp?
  }

  function ExecUser(s: Accounts, op: Op): (Accounts, Reply)
    requires IsUserOp(op)
  {
    match op
    case CreateUserOp(id, role, status) => CreateUser(s, id, role, status)
    case CreateInitialUserOp(id) => CreateInitialUser(s, id)
    case IssueSetupOp(token, ticket) => IssueSetup(s, token, ticket)
    case CompleteSetupOp(token, now) => CompleteSetup(s, token, now)
    case SetRoleOp(id, role) => SetRole(s, id, role)
    case SetStatusOp(id, status) => SetStatus(s, id, status)
  }

  function ExecSession(s: Accounts, op: Op): (Accounts, Reply)
    requires IsSessionOp(op)
  {
    match op
    case OpenSessionOp(token, user, assurance) => OpenSession(s, token, user, assurance)
    case EndSessionOp(token) => (s.(sessions := s.sessions - {token}), Done)
    case EndOtherSessionsOp(user, token) =>
      (s.(sessions := map t | t in s.sessions && (s.sessions[t].user != user || t == token) :: s.sessions[t]), Done)
    case ChangePasswordOp(user) => ChangePassword(s, user)
    case StartLoginOp(token, ticket) => StartLogin(s, token, ticket)
    case RecoveryLoginOp(login, code, now) => RecoveryLogin(s, login, code, now)
  }

  function ExecFactor(s: Accounts, op: Op): (Accounts, Reply)
    requires !IsUserOp(op) && !IsSessionOp(op)
  {
    match op
    case SkipMFAOp(user, rp, token) => SkipMFA(s, user, rp, token)
    case RegisterPasskeyOp(id, key, batch, issued, token) => RegisterPasskey(s, id, key, batch, issued, token)
    case DeletePasskeyOp(user, rp, name) => DeletePasskey(s, user, rp, name)
    case StartTOTPOp(token, ticket) => StartTOTP(s, token, ticket)
    case EnrolTOTPOp(e, b, u, c, batch, issued, token, now) => EnrolTOTP(s, e, b, u, c, batch, issued, token, now)
    case DeleteTOTPOp(user, rp) => DeleteTOTP(s, user, rp)
    case TOTPLoginOp(login, user, tick, now) => TOTPLogin(s, login, user, tick, now)
    case ResetMFAOp(user) => (Cleared(s, user), Done)
    case ResetAuthenticationOp(user) => ResetAuthentication(s, user)
  }

  function Exec(s: Accounts, op: Op): (Accounts, Reply) {
    if IsUserOp(op) then ExecUser(s, op)
    else if IsSessionOp(op) then ExecSession(s, op)
    else ExecFactor(s, op)
  }

  function Run(s: Accounts, ops: seq<Op>): Accounts {
    if ops == [] then s else Exec(Run(s, ops[..|ops| - 1]), ops[|ops| - 1]).0
  }

  // ---- The cross-table invariant ----

  predicate SessionGood(users: map<string, User>, x: Session) {
    && x.user in users && users[x.user].status == Active
    && (x.assurance == Password ==> users[x.user].mfaSkipped)
  }

  predicate SessionsGood(s: Accounts) {
    forall t :: t in s.sessions ==> SessionGood(s.users, s.sessions[t])
  }

  /** An account that opted out of a second factor has none. */
  predicate OptOutsGood(s: Accounts, rp: string) {
    forall u :: u in s.users && s.users[u].mfaSkipped ==> !HasFactor(s, u, rp)
  }

  predicate AccountsInv(s: Accounts, rp: string) {
    SessionsGood(s) && OptOutsGood(s, rp)
  }

  /** The operation, where it names a relying party, names this one. */
  predicate UnderRp(op: Op, rp: string) {
    match op
    case SkipMFAOp(_, r, _) => r == rp
    case RegisterPasskeyOp(_, key, _, _, _) => key.rp == rp
    case DeletePasskeyOp(_, r, _) => r == rp
    case DeleteTOTPOp(_, r) => r == rp
    case _ => true
  }

  /** The invariant depends on four tables only, and shrinks with sessions, passkeys and authenticators. */
  lemma {:induction false} FewerKeeps(s: Accounts, s': Accounts, rp: string)
    requires AccountsInv(s, rp) && Shrunk(s, s')
    ensures AccountsInv(s', rp)
  {
    forall u | u in s'.users && s'.users[u].mfaSkipped ensures !HasFactor(s', u, rp) {
      assert !HasFactor(s, u, rp);
      assert PasskeysOf(s'.passkeys, u, rp) <= PasskeysOf(s.passkeys, u, rp);
    }
  }

  predicate Shrunk(s: Accounts, s': Accounts) {
    && s'.users == s.users && s'.totp.Keys <= s.totp.Keys
    && ShrunkSessions(s.sessions, s'.sessions) && ShrunkPasskeys(s.passkeys, s'.passkeys)
  }

  predicate ShrunkSessions(a: map<string, Session>, b: map<string, Session>) {
    forall t :: t in b ==> t in a && b[t] == a[t]
  }

  predicate ShrunkPasskeys(a: map<CredentialKey, Passkey>, b: map<CredentialKey, Passkey>) {
    forall k :: k in b ==> k in a && b[k] == a[k]
  }

  lemma {:induction false} SetRoleKeeps(s: Accounts, id: string, role: Role, rp: string)
    requires AccountsInv(s, rp)
    ensures AccountsInv(SetRole(s, id, role).0, rp)
  {
  }

  lemma {:induction false} SetStatusKeeps(s: Accounts, id: string, status: Status, rp: string)
    requires AccountsInv(s, rp)
    ensures AccountsInv(SetStatus(s, id, status).0, rp)
  {
  }

  lemma {:induction false} SetupKeeps(s: Accounts, token: string, now: int, rp: string)
    requires AccountsInv(s, rp)
    ensures AccountsInv(CompleteSetup(s, token, now).0, rp)
  {
  }

  lemma {:induction false} CreateUserKeeps(s: Accounts, id: string, role: Role, status: Status, rp: string)
    requires AccountsInv(s, rp)
    ensures AccountsInv(CreateUser(s, id, role, status).0, rp)
  {
  }

  lemma {:induction false} OpenSessionKeeps(s: Accounts, token: string, user: string, a: Assurance, rp: string)
    requires AccountsInv(s, rp)
    ensures AccountsInv(OpenSession(s, token, user, a).0, rp)
  {
  }

  /** A new factor clears the opt-out and leaves the user no password session. */
  lemma {:induction false} FinishKeeps(
    s: Accounts, t: Accounts, user: string, batch: string, issued: seq<NewCode>, token: string, rp: string)
    requires AccountsInv(s, rp) && t.users == s.users && t.sessions == s.sessions
    requires forall u :: u != user && HasFactor(t, u, rp) ==> HasFactor(s, u, rp)
    requires FinishFactor(t, user, batch, issued, token).1 == Done
    ensures AccountsInv(FinishFactor(t, user, batch, issued, token).0, rp)
  {
    var s' := FinishFactor(t, user, batch, issued, token).0;
    forall x | x in s'.sessions ensures SessionGood(s'.users, s'.sessions[x]) {
      assert SessionGood(s.users, s.sessions[x]);
    }
    forall u | u in s'.users && s'.users[u].mfaSkipped ensures !HasFactor(s', u, rp) {
      assert u != user && !HasFactor(s, u, rp) && HasFactor(s', u, rp) == HasFactor(t, u, rp);
    }
  }

  lemma {:induction false} RegisterPasskeyKeeps(
    s: Accounts, id: string, key: Passkey, batch: string, issued: seq<NewCode>, token: string, rp: string)
    requires AccountsInv(s, rp)
    ensures AccountsInv(RegisterPasskey(s, id, key, batch, issued, token).0, rp)
  {
    var t := s.(passkeys := s.passkeys[CredentialKey(key.rp, id) := key]);
    if RegisterPasskey(s, id, key, batch, issued, token).1 == Done {
      forall u | u != key.user && HasFactor(t, u, rp) ensures HasFactor(s, u, rp) {
        assert PasskeysOf(t.passkeys, u, rp) <= PasskeysOf(s.passkeys, u, rp);
      }
      FinishKeeps(s, t, key.user, batch, issued, token, rp);
    }
  }

  lemma {:induction false} EnrolTOTPKeeps(
    s: Accounts, enrollment: string, binding: string, user: string, counter: Option<int>,
    batch: string, issued: seq<NewCode>, token: string, now: int, rp: string)
    requires AccountsInv(s, rp)
    ensures AccountsInv(EnrolTOTP(s, enrollment, binding, user, counter, batch, issued, token, now).0, rp)
  {
    var t := s.(enrollments := s.enrollments - {enrollment}, totp := s.totp[user := counter]);
    if EnrolTOTP(s, enrollment, binding, user, counter, batch, issued, token, now).1 == Done {
      FinishKeeps(s, t, user, batch, issued, token, rp);
    }
  }

  lemma {:induction false} ClearedKeeps(s: Accounts, user: string, rp: string)
    requires AccountsInv(s, rp)
    ensures AccountsInv(Cleared(s, user), rp)
  {
    var s' := Cleared(s, user);
    forall t | t in s'.sessions ensures SessionGood(s'.users, s'.sessions[t]) {
      assert SessionGood(s.users, s.sessions[t]);
    }
    forall u | u in s'.users && s'.users[u].mfaSkipped ensures !HasFactor(s', u, rp) {
      assert u != user && !HasFactor(s, u, rp);
      assert PasskeysOf(s'.passkeys, u, rp) <= PasskeysOf(s.passkeys, u, rp);
    }
  }

  /** The operation opts a user out who has a passkey under `rp`, while asking about another relying party,
      under which that user has no factor. */
  predicate WaivesOver(s: Accounts, op: Op, rp: string) {
    && op.SkipMFAOp?
    && !HasFactor(s, op.user, op.rp)
    && op.token in s.sessions && s.sessions[op.token] == Session(op.user, Bootstrap)
    && PasskeysOf(s.passkeys, op.user, rp) != {}
  }

  /** Under any mixture of relying parties: opting out under one of them is the only transaction that can break
      the invariant for another, and it does so exactly when the user has a passkey under that other one. */
  lemma {:induction false} SkipMFAKeepsIff(s: Accounts, user: string, other: string, token: string, rp: string)
    requires AccountsInv(s, rp)
    ensures AccountsInv(SkipMFA(s, user, other, token).0, rp) <==> !WaivesOver(s, SkipMFAOp(user, other, token), rp)
    ensures SkipMFA(s, user, other, token).1 == Done ==>
              (OptOutsGood(SkipMFA(s, user, other, token).0, rp) <==> PasskeysOf(s.passkeys, user, rp) == {})
  {
    var (s', reply) := SkipMFA(s, user, other, token);
    if token in s.sessions {
      assert SessionGood(s.users, s.sessions[token]);
    }
    if reply == Done {
      assert PasskeysOf(s.passkeys, user, other) == {} && s'.users[user].mfaSkipped;
      assert HasFactor(s', user, rp) <==> PasskeysOf(s.passkeys, user, rp) != {};
    }
  }

  lemma {:induction false} ExecKeepsIff(s: Accounts, op: Op, rp: string)
    requires AccountsInv(s, rp)
    ensures AccountsInv(Exec(s, op).0, rp) <==> !WaivesOver(s, op, rp)
  {
    match op
    case SkipMFAOp(user, other, token) => SkipMFAKeepsIff(s, user, other, token, rp);
    case _ => ExecKeeps(s, op, rp);
  }

  lemma {:induction false} ExecKeeps(s: Accounts, op: Op, rp: string)
    requires AccountsInv(s, rp) && !op.SkipMFAOp?
    ensures AccountsInv(Exec(s, op).0, rp)
  {
    match op
    case CreateUserOp(id, role, status) => CreateUserKeeps(s, id, role, status, rp);
    case CreateInitialUserOp(id) => CreateUserKeeps(s, id, Superuser, Active, rp);
    case CompleteSetupOp(token, now) => SetupKeeps(s, token, now, rp);
    case SetRoleOp(id, role) => SetRoleKeeps(s, id, role, rp);
    case SetStatusOp(id, status) => SetStatusKeeps(s, id, status, rp);
    case OpenSessionOp(token, user, assurance) => OpenSessionKeeps(s, token, user, assurance, rp);
    case RegisterPasskeyOp(id, key, batch, issued, token) =>
      RegisterPasskeyKeeps(s, id, key, batch, issued, token, rp);
    case EnrolTOTPOp(e, b, u, c, batch, issued, token, now) =>
      EnrolTOTPKeeps(s, e, b, u, c, batch, issued, token, now, rp);
    case ResetMFAOp(user) => ClearedKeeps(s, user, rp);
    case ResetAuthenticationOp(user) => ClearedKeeps(s, user, rp);
    case _ => RemovalKeeps(s, op, rp);
  }

  /** The operations that touch nothing of this, or only remove from it. */
  predicate OnlyRemoves(op: Op) {
    || op.IssueSetupOp? || op.EndSessionOp? || op.EndOtherSessionsOp? || op.ChangePasswordOp? || op.DeletePasskeyOp?
    || op.StartTOTPOp? || op.DeleteTOTPOp? || op.StartLoginOp? || op.TOTPLoginOp? || op.RecoveryLoginOp?
  }

  lemma {:induction false} RemovalKeeps(s: Accounts, op: Op, rp: string)
    requires AccountsInv(s, rp) && OnlyRemoves(op)
    ensures AccountsInv(Exec(s, op).0, rp)
  {
    SessionsShrink(s, op);
    FactorsShrink(s, op);
    FewerKeeps(s, Exec(s, op).0, rp);
  }

  lemma {:induction false} SessionsShrink(s: Accounts, op: Op)
    requires OnlyRemoves(op)
    ensures Exec(s, op).0.users == s.users && ShrunkSessions(s.sessions, Exec(s, op).0.sessions)
  {
    if IsSessionOp(op) {
      SessionsEnd(s, op);
    } else if IsUserOp(op) {
      SetupSpares(s, op);
    } else {
      SessionsSpared(s, op);
    }
  }

  lemma {:induction false} SetupSpares(s: Accounts, op: Op)
    requires op.IssueSetupOp?
    ensures ExecUser(s, op).0.users == s.users && ExecUser(s, op).0.sessions == s.sessions
  {
  }

  lemma {:induction false} SessionsEnd(s: Accounts, op: Op)
    requires OnlyRemoves(op) && IsSessionOp(op)
    ensures ExecSession(s, op).0.users == s.users && ShrunkSessions(s.sessions, ExecSession(s, op).0.sessions)
  {
  }

  lemma {:induction false} SessionsSpared(s: Accounts, op: Op)
    requires OnlyRemoves(op) && !IsSessionOp(op) && !IsUserOp(op)
    ensures ExecFactor(s, op).0.users == s.users && ExecFactor(s, op).0.sessions == s.sessions
  {
  }

  lemma {:induction false} FactorsShrink(s: Accounts, op: Op)
    requires OnlyRemoves(op)
    ensures Exec(s, op).0.totp.Keys <= s.totp.Keys && ShrunkPasskeys(s.passkeys, Exec(s, op).0.passkeys)
  {
    if IsUserOp(op) || IsSessionOp(op) {
      FactorsSpared(s, op);
    } else if op.DeletePasskeyOp? {
      PasskeysRemoved(s, op.user, op.rp, op.name);
    } else if op.DeleteTOTPOp? || op.TOTPLoginOp? {
      PasskeysSpared(s, op);
    }
  }

  lemma {:induction false} PasskeysRemoved(s: Accounts, user: string, rp: string, name: string)
    ensures DeletePasskey(s, user, rp, name).0.totp == s.totp
    ensures ShrunkPasskeys(s.passkeys, DeletePasskey(s, user, rp, name).0.passkeys)
  {
  }

  lemma {:induction false} PasskeysSpared(s: Accounts, op: Op)
    requires op.DeleteTOTPOp? || op.TOTPLoginOp?
    ensures Exec(s, op).0.passkeys == s.passkeys && Exec(s, op).0.totp.Keys <= s.totp.Keys
  {
  }

  /** Only the operations on factors touch factors. */
  lemma {:induction false} FactorsSpared(s: Accounts, op: Op)
    requires IsUserOp(op) || IsSessionOp(op)
    ensures Exec(s, op).0.totp == s.totp && Exec(s, op).0.passkeys == s.passkeys
  {
  }

  /** The invariant holds in every state of the run. */
  predicate KeptThroughout(s: Accounts, ops: seq<Op>, rp: string) {
    (ops == [] || KeptThroughout(s, ops[..|ops| - 1], rp)) && AccountsInv(Run(s, ops), rp)
  }

  predicate NeverWaivesOver(s: Accounts, ops: seq<Op>, rp: string) {
    ops == [] ||
    (NeverWaivesOver(s, ops[..|ops| - 1], rp) && !WaivesOver(Run(s, ops[..|ops| - 1]), ops[|ops| - 1], rp))
  }

  /** Over every run, under whatever relying parties: sessions belong to active users, a password session means
      the user opted out of a second factor, and nobody who opted out has one under `rp`, in every state of the
      run, if and only if no transaction opted a user out over a passkey under `rp`. */
  lemma {:induction false} AuthInvariantIff(s: Accounts, ops: seq<Op>, rp: string)
    requires AccountsInv(s, rp)
    ensures KeptThroughout(s, ops, rp) <==> NeverWaivesOver(s, ops, rp)
  {
    if ops != [] {
      AuthInvariantIff(s, ops[..|ops| - 1], rp);
      var before := Run(s, ops[..|ops| - 1]);
      if AccountsInv(before, rp) {
        ExecKeepsIff(before, ops[|ops| - 1], rp);
      }
    }
  }

  /** The part about sessions needs no condition at all. */
  lemma {:induction false} SessionsAlwaysGood(ops: seq<Op>)
    ensures SessionsGood(Run(NOBODY, ops))
  {
    if ops != [] {
      SessionsAlwaysGood(ops[..|ops| - 1]);
      SessionsStayGood(Run(NOBODY, ops[..|ops| - 1]), ops[|ops| - 1]);
    }
  }

  lemma {:induction false} SessionsStayGood(s: Accounts, op: Op)
    requires SessionsGood(s)
    ensures SessionsGood(Exec(s, op).0)
  {
    match op
    case RegisterPasskeyOp(id, key, batch, issued, token) =>
      FinishSessions(s, s.(passkeys := s.passkeys[CredentialKey(key.rp, id) := key]), key.user, batch, issued, token);
    case EnrolTOTPOp(e, _, user, counter, batch, issued, token, _) =>
      FinishSessions(
        s, s.(enrollments := s.enrollments - {e}, totp := s.totp[user := counter]), user, batch, issued, token);
    case SkipMFAOp(user, other, token) => SkipSessions(s, user, other, token);
    case ResetMFAOp(user) => ClearedSessions(s, user);
    case ResetAuthenticationOp(user) => ClearedSessions(s, user);
    case OpenSessionOp(token, user, a) => assert Exec(s, op) == OpenSession(s, token, user, a);
    case _ =>
      if OnlyRemoves(op) {
        SessionsShrink(s, op);
      } else {
        UserSessions(s, op);
      }
  }

  lemma {:induction false} UserSessions(s: Accounts, op: Op)
    requires SessionsGood(s) && IsUserOp(op)
    ensures SessionsGood(ExecUser(s, op).0)
  {
    match op
    case SetStatusOp(id, status) => StatusSessions(s, id, status);
    case SetRoleOp(id, role) => RoleSessions(s, id, role);
    case CompleteSetupOp(token, now) => SetupSessions(s, token, now);
    case _ =>
  }

  lemma {:induction false} StatusSessions(s: Accounts, id: string, status: Status)
    requires SessionsGood(s)
    ensures SessionsGood(SetStatus(s, id, status).0)
  {
  }

  lemma {:induction false} RoleSessions(s: Accounts, id: string, role: Role)
    requires SessionsGood(s)
    ensures SessionsGood(SetRole(s, id, role).0)
  {
  }

  lemma {:induction false} SetupSessions(s: Accounts, token: string, now: int)
    requires SessionsGood(s)
    ensures SessionsGood(CompleteSetup(s, token, now).0)
  {
  }

  lemma {:induction false} SkipSessions(s: Accounts, user: string, other: string, token: string)
    requires SessionsGood(s)
    ensures SessionsGood(SkipMFA(s, user, other, token).0)
  {
  }

  lemma {:induction false} ClearedSessions(s: Accounts, user: string)
    requires SessionsGood(s)
    ensures SessionsGood(Cleared(s, user))
  {
  }

  lemma {:induction false} FinishSessions(
    s: Accounts, t: Accounts, user: string, batch: string, issued: seq<NewCode>, token: string)
    requires SessionsGood(s) && t.users == s.users && t.sessions == s.sessions
    ensures SessionsGood(FinishFactor(t, user, batch, issued, token).0)
  {
    var (s', reply) := FinishFactor(t, user, batch, issued, token);
    if reply == Done {
      assert token in s.sessions && SessionGood(s.users, s.sessions[token]);
      forall x | x in s'.sessions ensures SessionGood(s'.users, s'.sessions[x]) {
        assert SessionGood(s.users, s.sessions[x]);
      }
    }
  }

  /** With one relying party the condition is always met. */
  lemma {:induction false} AuthInvariantHolds(ops: seq<Op>, rp: string)
    requires forall i :: 0 <= i < |ops| ==> UnderRp(ops[i], rp)
    ensures AccountsInv(Run(NOBODY, ops), rp)
  {
    if ops != [] {
      AuthInvariantHolds(ops[..|ops| - 1], rp);
      ExecKeepsIff(Run(NOBODY, ops[..|ops| - 1]), ops[|ops| - 1], rp);
    }
  }

  // ---- A factor is kept until a reset ----

  predicate Resets(op: Op, user: string) {
    (op.ResetMFAOp? || op.ResetAuthenticationOp?) && op.user == user
  }

  lemma {:induction false} DeletePasskeyLeavesOne(s: Accounts, user: string, rp: string, name: string)
    ensures var (s', reply) := DeletePasskey(s, user, rp, name);
            reply == Done ==>
              HasFactor(s', user, rp) && |PasskeysOf(s'.passkeys, user, rp)| == |PasskeysOf(s.passkeys, user, rp)| - 1
  {
    var (s', reply) := DeletePasskey(s, user, rp, name);
    if reply == Done {
      var mine, gone := PasskeysOf(s.passkeys, user, rp), PasskeysNamed(s.passkeys, user, rp, name);
      assert PasskeysOf(s'.passkeys, user, rp) == mine - gone;
      Removed(mine, gone);
    }
  }

  lemma {:induction false} Removed(keys: set<CredentialKey>, gone: set<CredentialKey>)
    requires gone <= keys
    ensures |keys - gone| == |keys| - |gone|
    ensures |keys| > |gone| ==> keys - gone != {}
  {
    assert keys == (keys - gone) + gone;
  }

  lemma {:induction false} PasskeyStays(s: Accounts, s': Accounts, user: string, rp: string)
    requires HasFactor(s, user, rp) && (user in s.totp ==> user in s'.totp)
    requires PasskeysStay(s.passkeys, s'.passkeys, user)
    ensures HasFactor(s', user, rp)
  {
    if PasskeysOf(s.passkeys, user, rp) != {} {
      var k :| k in PasskeysOf(s.passkeys, user, rp);
      assert k in PasskeysOf(s'.passkeys, user, rp);
    }
  }

  /** The operation removes a user's authenticator on the strength of a passkey under another relying party. */
  predicate DropsLast(s: Accounts, op: Op, user: string, rp: string) {
    && op.DeleteTOTPOp? && op.user == user && user in s.totp
    && PasskeysOf(s.passkeys, user, op.rp) != {} && PasskeysOf(s.passkeys, user, rp) == {}
  }

  /** Under any mixture of relying parties a user who has a factor under `rp` keeps one through any operation but
      an explicit reset, unless the operation removes the authenticator and the only passkeys are elsewhere. */
  lemma {:induction false} FactorStaysIff(s: Accounts, op: Op, user: string, rp: string)
    requires HasFactor(s, user, rp) && !Resets(op, user)
    ensures HasFactor(Exec(s, op).0, user, rp) <==> !DropsLast(s, op, user, rp)
  {
    match op
    case DeletePasskeyOp(_, _, _) => DeletionStays(s, op, user, rp);
    case DeleteTOTPOp(u, other) => DeleteTOTPIff(s, u, other, user, rp);
    case _ => OthersStay(s, op, user, rp);
  }

  lemma {:induction false} DeletionStays(s: Accounts, op: Op, user: string, rp: string)
    requires HasFactor(s, user, rp) && op.DeletePasskeyOp?
    ensures HasFactor(Exec(s, op).0, user, rp)
  {
    DeletePasskeyStays(s, op.user, op.rp, op.name, user, rp);
  }

  lemma {:induction false} DeleteTOTPIff(s: Accounts, u: string, other: string, user: string, rp: string)
    requires HasFactor(s, user, rp)
    ensures HasFactor(Exec(s, DeleteTOTPOp(u, other)).0, user, rp) <==> !DropsLast(s, DeleteTOTPOp(u, other), user, rp)
  {
    if |PasskeysOf(s.passkeys, u, other)| == 0 {
      assert PasskeysOf(s.passkeys, u, other) == {};
    }
  }

  lemma {:induction false} OthersStay(s: Accounts, op: Op, user: string, rp: string)
    requires HasFactor(s, user, rp) && !Resets(op, user) && !op.DeletePasskeyOp? && !op.DeleteTOTPOp?
    ensures HasFactor(Exec(s, op).0, user, rp)
  {
    FactorRowsStay(s, op, user);
    PasskeyStays(s, Exec(s, op).0, user, rp);
  }

  lemma {:induction false} DeletePasskeyStays(
    s: Accounts, u: string, other: string, name: string, user: string, rp: string)
    requires HasFactor(s, user, rp)
    ensures HasFactor(DeletePasskey(s, u, other, name).0, user, rp)
  {
    var s' := DeletePasskey(s, u, other, name).0;
    DeletePasskeyLeavesOne(s, u, other, name);
    if u != user || other != rp {
      assert PasskeysOf(s.passkeys, user, rp) <= PasskeysOf(s'.passkeys, user, rp);
    }
  }

  lemma {:induction false} FactorRowsStay(s: Accounts, op: Op, user: string)
    requires !Resets(op, user) && !op.DeletePasskeyOp? && !op.DeleteTOTPOp?
    ensures user in s.totp ==> user in Exec(s, op).0.totp
    ensures PasskeysStay(s.passkeys, Exec(s, op).0.passkeys, user)
  {
    if IsUserOp(op) || IsSessionOp(op) {
      FactorsSpared(s, op);
    } else if op.RegisterPasskeyOp? {
      RegisterRows(s, op.id, op.key, op.batch, op.issued, op.token, user);
    } else if op.EnrolTOTPOp? {
      EnrolRows(s, op, user);
    }
  }

  lemma {:induction false} RegisterRows(
    s: Accounts, id: string, key: Passkey, batch: string, issued: seq<NewCode>, token: string, user: string)
    ensures var s' := RegisterPasskey(s, id, key, batch, issued, token).0;
            s'.totp == s.totp && PasskeysStay(s.passkeys, s'.passkeys, user)
  {
  }

  lemma {:induction false} EnrolRows(s: Accounts, op: Op, user: string)
    requires op.EnrolTOTPOp?
    ensures Exec(s, op).0.passkeys == s.passkeys && (user in s.totp ==> user in Exec(s, op).0.totp)
  {
  }

  predicate PasskeysStay(a: map<CredentialKey, Passkey>, b: map<CredentialKey, Passkey>, user: string) {
    forall k :: k in a && a[k].user == user ==> k in b && b[k] == a[k]
  }

  predicate NeverResets(ops: seq<Op>, user: string) {
    forall i :: 0 <= i < |ops| ==> !Resets(ops[i], user)
  }

  predicate HeldThroughout(s: Accounts, ops: seq<Op>, user: string, rp: string) {
    (ops == [] || HeldThroughout(s, ops[..|ops| - 1], user, rp)) && HasFactor(Run(s, ops), user, rp)
  }

  predicate NeverDropsLast(s: Accounts, ops: seq<Op>, user: string, rp: string) {
    ops == [] ||
    (NeverDropsLast(s, ops[..|ops| - 1], user, rp) && !DropsLast(Run(s, ops[..|ops| - 1]), ops[|ops| - 1], user, rp))
  }

  lemma {:induction false} FactorHeldIff(s: Accounts, ops: seq<Op>, user: string, rp: string)
    requires HasFactor(s, user, rp) && NeverResets(ops, user)
    ensures HeldThroughout(s, ops, user, rp) <==> NeverDropsLast(s, ops, user, rp)
  {
    if ops != [] {
      FactorHeldIff(s, ops[..|ops| - 1], user, rp);
      var before := Run(s, ops[..|ops| - 1]);
      if HasFactor(before, user, rp) {
        FactorStaysIff(before, ops[|ops| - 1], user, rp);
      }
    }
  }

  /** With one relying party the condition is always met. */
  lemma {:induction false} FactorStaysThroughRuns(s: Accounts, ops: seq<Op>, user: string, rp: string)
    requires HasFactor(s, user, rp) && NeverResets(ops, user)
    requires forall i :: 0 <= i < |ops| ==> UnderRp(ops[i], rp)
    ensures HasFactor(Run(s, ops), user, rp)
  {
    if ops != [] {
      FactorStaysThroughRuns(s, ops[..|ops| - 1], user, rp);
      FactorStaysIff(Run(s, ops[..|ops| - 1]), ops[|ops| - 1], user, rp);
    }
  }

  /** Some factor under some relying party. */
  predicate HasSomeFactor(s: Accounts, user: string) {
    user in s.totp || exists k :: k in s.passkeys && s.passkeys[k].user == user
  }

  /** Under any mixture of relying parties a user with some factor keeps some factor until a reset. */
  lemma {:induction false} SomeFactorStays(s: Accounts, ops: seq<Op>, user: string)
    requires HasSomeFactor(s, user) && NeverResets(ops, user)
    ensures HasSomeFactor(Run(s, ops), user)
  {
    if ops != [] {
      SomeFactorStays(s, ops[..|ops| - 1], user);
      SomeFactorStep(Run(s, ops[..|ops| - 1]), ops[|ops| - 1], user);
    }
  }

  lemma {:induction false} SomeFactorStep(s: Accounts, op: Op, user: string)
    requires HasSomeFactor(s, user) && !Resets(op, user)
    ensures HasSomeFactor(Exec(s, op).0, user)
  {
    FactorUnderSome(s, user);
    var rp :| HasFactor(s, user, rp);
    FactorStaysIff(s, op, user, rp);
    if DropsLast(s, op, user, rp) {
      FactorStaysIff(s, op, user, op.rp);
    }
    FactorUnderSome(Exec(s, op).0, user);
  }

  lemma {:induction false} FactorUnderSome(s: Accounts, user: string)
    ensures HasSomeFactor(s, user) <==> exists rp :: HasFactor(s, user, rp)
  {
    if user in s.totp {
      assert HasFactor(s, user, "");
    }
    forall k | k in s.passkeys && s.passkeys[k].user == user ensures HasFactor(s, user, s.passkeys[k].rp) {
      assert k in PasskeysOf(s.passkeys, user, s.passkeys[k].rp);
    }
  }

  // ---- Both conditions are really broken ----

  lemma {:induction false} RunSnoc(s: Accounts, ops: seq<Op>, op: Op)
    ensures Run(s, ops + [op]) == Exec(Run(s, ops), op).0
  {
    assert (ops + [op])[..|ops + [op]| - 1] == ops;
  }

  /** A first user who signs in and registers a passkey. */
  function SignedUp(rp: string): seq<Op> {
    [CreateInitialUserOp("u")] + [OpenSessionOp("a", "u", Bootstrap)]
    + [RegisterPasskeyOp("key", Passkey("u", rp, "name"), "batch", [], "a")]
  }

  /** The tables after the first user, with these sessions and this passkey. */
  function OneUser(sessions: map<string, Session>, rp: string): Accounts {
    NOBODY.(users := map["u" := User(Superuser, Active, false)], sessions := sessions,
            passkeys := map[CredentialKey(rp, "key") := Passkey("u", rp, "name")])
  }

  lemma {:induction false} RegisterFirst(s: Accounts, rp: string)
    requires s == OneUser(map["a" := Session("u", Bootstrap)], rp).(passkeys := map[])
    ensures Exec(s, RegisterPasskeyOp("key", Passkey("u", rp, "name"), "batch", [], "a")).0
         == OneUser(map["a" := Session("u", Mfa)], rp)
  {
    assert PasskeysNamed(s.passkeys, "u", rp, "name") == {};
    assert OnlyStrong(s.sessions, "u", "a") == s.sessions;
  }

  lemma {:induction false} SignedUpState(rp: string)
    ensures Run(NOBODY, SignedUp(rp)) == OneUser(map["a" := Session("u", Mfa)], rp)
  {
    var create, open := CreateInitialUserOp("u"), OpenSessionOp("a", "u", Bootstrap);
    var register := RegisterPasskeyOp("key", Passkey("u", rp, "name"), "batch", [], "a");
    RunSnoc(NOBODY, [], create);
    assert [] + [create] == [create];
    RunSnoc(NOBODY, [create], open);
    var s := OneUser(map["a" := Session("u", Bootstrap)], rp).(passkeys := map[]);
    assert Run(NOBODY, [create]) == s.(sessions := map[]);
    assert Run(NOBODY, [create] + [open]) == s;
    RunSnoc(NOBODY, [create] + [open], register);
    RegisterFirst(s, rp);
  }

  lemma {:induction false} OnePasskey(sessions: map<string, Session>, rp: string, other: string)
    ensures PasskeysOf(OneUser(sessions, rp).passkeys, "u", other)
         == if other == rp then {CredentialKey(rp, "key")} else {}
  {
  }

  lemma {:induction false} SkipOther(s: Accounts, rp: string, other: string)
    requires s == OneUser(map["a" := Session("u", Mfa), "b" := Session("u", Bootstrap)], rp) && rp != other
    ensures var s' := Exec(s, SkipMFAOp("u", other, "b")).0;
            !AccountsInv(s', rp) && "b" in s'.sessions && s'.sessions["b"] == Session("u", Password)
  {
    OnePasskey(s.sessions, rp, other);
    OnePasskey(s.sessions, rp, rp);
    var s' := SkipMFA(s, "u", other, "b").0;
    assert s'.users["u"].mfaSkipped && HasFactor(s', "u", rp);
  }

  /** A run in which a user ends up with the second factor waived and a passkey in place. */
  lemma {:induction false} OtherRpEscapes(rp: string, other: string) returns (ops: seq<Op>)
    requires rp != other
    ensures ops == SignedUp(rp) + [OpenSessionOp("b", "u", Bootstrap)] + [SkipMFAOp("u", other, "b")]
    ensures var s := Run(NOBODY, ops);
            !AccountsInv(s, rp) && "b" in s.sessions && s.sessions["b"] == Session("u", Password)
  {
    var open, skip := OpenSessionOp("b", "u", Bootstrap), SkipMFAOp("u", other, "b");
    ops := SignedUp(rp) + [open] + [skip];
    SignedUpState(rp);
    RunSnoc(NOBODY, SignedUp(rp), open);
    RunSnoc(NOBODY, SignedUp(rp) + [open], skip);
    SkipOther(Run(NOBODY, SignedUp(rp) + [open]), rp, other);
  }

  lemma {:induction false} StartSecond(s: Accounts, other: string)
    requires s == OneUser(map["a" := Session("u", Mfa)], other)
    ensures Exec(s, StartTOTPOp("e", Ticket("u", "d", 1))).0 == s.(enrollments := map["e" := Ticket("u", "d", 1)])
  {
  }

  lemma {:induction false} EnrolSecond(s: Accounts, other: string)
    requires s == OneUser(map["a" := Session("u", Mfa)], other).(enrollments := map["e" := Ticket("u", "d", 1)])
    ensures Exec(s, EnrolTOTPOp("e", "d", "u", None, "batch", [], "a", 0)).0
         == OneUser(map["a" := Session("u", Mfa)], other).(totp := map["u" := None])
  {
    assert OnlyStrong(s.sessions, "u", "a") == s.sessions;
  }

  lemma {:induction false} DropOther(s: Accounts, rp: string, other: string)
    requires s == OneUser(map["a" := Session("u", Mfa)], other).(totp := map["u" := None]) && rp != other
    ensures HasFactor(s, "u", rp) && !HasFactor(Exec(s, DeleteTOTPOp("u", other)).0, "u", rp)
  {
    OnePasskey(s.sessions, other, rp);
    OnePasskey(s.sessions, other, other);
  }

  /** A run in which a user loses the only factor that counts under `rp` without a reset. */
  lemma {:induction false} OtherRpDrops(rp: string, other: string) returns (before: seq<Op>, ops: seq<Op>)
    requires rp != other
    ensures before == SignedUp(other) + [StartTOTPOp("e", Ticket("u", "d", 1))]
                      + [EnrolTOTPOp("e", "d", "u", None, "batch", [], "a", 0)]
    ensures ops == before + [DeleteTOTPOp("u", other)]
    ensures HasFactor(Run(NOBODY, before), "u", rp) && !HasFactor(Run(NOBODY, ops), "u", rp)
  {
    var start := StartTOTPOp("e", Ticket("u", "d", 1));
    var enrol, drop := EnrolTOTPOp("e", "d", "u", None, "batch", [], "a", 0), DeleteTOTPOp("u", other);
    before := SignedUp(other) + [start] + [enrol];
    ops := before + [drop];
    SignedUpState(other);
    RunSnoc(NOBODY, SignedUp(other), start);
    RunSnoc(NOBODY, SignedUp(other) + [start], enrol);
    RunSnoc(NOBODY, before, drop);
    StartSecond(Run(NOBODY, SignedUp(other)), other);
    EnrolSecond(Run(NOBODY, SignedUp(other) + [start]), other);
    DropOther(Run(NOBODY, before), rp, other);
  }

  // ---- There is always a superuser ----

  predicate Governed(users: map<string, User>) {
    exists id :: id in users && ActiveSuperuser(users, id)
  }

  lemma {:induction false} SuperuserStays(s: Accounts, op: Op)
    requires Governed(s.users)
    ensures Governed(Exec(s, op).0.users)
  {
    match op
    case SetRoleOp(id, role) => RoleGoverned(s, id, role);
    case SetStatusOp(id, status) => StatusGoverned(s, id, status);
    case _ =>
      var id :| id in s.users && ActiveSuperuser(s.users, id);
      UserStays(s, op, id);
  }

  lemma {:induction false} UserStays(s: Accounts, op: Op, id: string)
    requires ActiveSuperuser(s.users, id) && !op.SetRoleOp? && !op.SetStatusOp?
    ensures ActiveSuperuser(Exec(s, op).0.users, id)
  {
  }

  lemma {:induction false} RoleGoverned(s: Accounts, id: string, role: Role)
    requires Governed(s.users)
    ensures Governed(SetRole(s, id, role).0.users)
  {
    if ActiveSuperuser(s.users, id) && role != Superuser {
      if AnotherSuperuser(s.users, id) {
        var other :| other in s.users && other != id && ActiveSuperuser(s.users, other);
        assert ActiveSuperuser(SetRole(s, id, role).0.users, other);
      }
    } else {
      var one :| one in s.users && ActiveSuperuser(s.users, one);
      assert ActiveSuperuser(SetRole(s, id, role).0.users, one);
    }
  }

  lemma {:induction false} StatusGoverned(s: Accounts, id: string, status: Status)
    requires Governed(s.users)
    ensures Governed(SetStatus(s, id, status).0.users)
  {
    var users' := SetStatus(s, id, status).0.users;
    var one :| one in s.users && ActiveSuperuser(s.users, one);
    if one == id && status == Disabled && AnotherSuperuser(s.users, id) {
      var other :| other in s.users && other != id && ActiveSuperuser(s.users, other);
      assert ActiveSuperuser(users', other);
    } else {
      assert ActiveSuperuser(users', one);
    }
  }

  /** An installation that starts from its first superuser is never left without an active one. */
  lemma {:induction false} AlwaysGoverned(first: string, ops: seq<Op>)
    ensures Governed(Run(CreateInitialUser(NOBODY, first).0, ops).users)
  {
    if ops == [] {
      assert ActiveSuperuser(CreateInitialUser(NOBODY, first).0.users, first);
    } else {
      AlwaysGoverned(first, ops[..|ops| - 1]);
      SuperuserStays(Run(CreateInitialUser(NOBODY, first).0, ops[..|ops| - 1]), ops[|ops| - 1]);
    }
  }

  // ---- A one-time code is used once ----

  /** The counters this user has logged in with, in order. */
  function Accepted(s: Accounts, ops: seq<Op>, user: string): seq<int> {
    if ops == [] then []
    else
      var rest, op := Accepted(s, ops[..|ops| - 1], user), ops[|ops| - 1];
      if op.TOTPLoginOp? && op.user == user && Exec(Run(s, ops[..|ops| - 1]), op).1 == Done then rest + [op.tick]
      else rest
  }

  predicate DropsTOTP(op: Op, user: string) {
    Resets(op, user) || (op.DeleteTOTPOp? && op.user == user)
  }

  predicate Rising(ticks: seq<int>, last: Option<int>) {
    && (forall i, j :: 0 <= i < j < |ticks| ==> ticks[i] < ticks[j])
    && (ticks != [] ==> last.Some? && ticks[|ticks| - 1] <= last.value)
  }

  /** Until the authenticator is removed, accepted counters strictly rise: no code is accepted twice, and
      none older than one already accepted or than the one it was enrolled with. */
  lemma {:induction false} CountersRise(s: Accounts, ops: seq<Op>, user: string)
    requires user in s.totp && forall i :: 0 <= i < |ops| ==> !DropsTOTP(ops[i], user)
    ensures user in Run(s, ops).totp
    ensures Rising(Accepted(s, ops, user), Run(s, ops).totp[user])
    ensures s.totp[user].Some? ==> forall t :: t in Accepted(s, ops, user) ==> t > s.totp[user].value
    ensures s.totp[user].Some? ==> Run(s, ops).totp[user].Some? && Run(s, ops).totp[user].value >= s.totp[user].value
  {
    if ops != [] {
      CountersRise(s, ops[..|ops| - 1], user);
      CounterStep(Run(s, ops[..|ops| - 1]), ops[|ops| - 1], user);
    }
  }

  lemma {:induction false} CounterStep(s: Accounts, op: Op, user: string)
    requires user in s.totp && !DropsTOTP(op, user)
    ensures user in Exec(s, op).0.totp
    ensures if op.TOTPLoginOp? && op.user == user && Exec(s, op).1 == Done
            then Exec(s, op).0.totp[user] == Some(op.tick) && CounterFresh(s.totp[user], op.tick)
            else Exec(s, op).0.totp[user] == s.totp[user]
  {
    if IsUserOp(op) || IsSessionOp(op) {
      FactorsSpared(s, op);
    }
  }

  // ---- The account store ----

  /** A transaction works on local copies of the tables and assigns them back when it commits. */
  class AccountStore {
    var users: map<string, User>
    var sessions: map<string, Session>
    var passkeys: map<CredentialKey, Passkey>
    var totp: map<string, Option<int>>
    var enrollments: map<string, Ticket>
    var logins: map<string, Ticket>
    var codes: map<string, Code>
    var setups: map<string, Ticket>

    function State(): Accounts
      reads this
    {
      Accounts(users, sessions, passkeys, totp, enrollments, logins, codes, setups)
    }

    constructor ()
      ensures State() == NOBODY
    {
      users, sessions, passkeys, totp := map[], map[], map[], map[];
      enrollments, logins, codes, setups := map[], map[], map[], map[];
    }

    method CreateSession(token: string, user: string, assurance: Assurance) returns (reply: Reply)
      modifies this`sessions
      ensures (State(), reply) == OpenSession(old(State()), token, user, assurance)
    {
      if token in sessions {
        return Constraint;
      }
      var allowed := false;
      if user in users {
        allowed := users[user].status == Active && (assurance != Password || users[user].mfaSkipped);
      }
      if !allowed {
        return NotFound;
      }
      sessions := sessions[token := Session(user, assurance)];
      return Done;
    }

    method SkipSecondFactor(user: string, rp: string, token: string) returns (reply: Reply)
      modifies this
      ensures (State(), reply) == SkipMFA(old(State()), user, rp, token)
    {
      var factorCount := |PasskeysOf(passkeys, user, rp)|;
      if user in totp {
        factorCount := factorCount + 1;
      }
      if factorCount != 0 {
        return RecentMFARequired;
      }
      if token !in sessions || sessions[token] != Session(user, Bootstrap) {
        return NotFound;
      }
      var sessions' := sessions[token := Session(user, Password)];
      if user !in users {
        return NotFound;
      }
      sessions, users := sessions', users[user := users[user].(mfaSkipped := true)];
      return Done;
    }

    static method InsertRecoveryCodes(codes: map<string, Code>, user: string, batch: string, issued: seq<NewCode>)
      returns (codes': map<string, Code>, reply: Reply)
      ensures (codes', reply) == InsertCodes(codes, user, batch, issued)
    {
      codes', reply := codes, Done;
      for i := 0 to |issued|
        invariant (codes', reply) == InsertCodes(codes, user, batch, issued[..i])
      {
        assert issued[..i + 1][..i] == issued[..i];
        var c := issued[i];
        if reply == Done {
          if c.user != user || c.batch != batch {
            reply := ScopeMismatch;
          } else if c.digest in codes' {
            reply := Constraint;
          } else {
            codes' := codes'[c.digest := Code(user, batch, false)];
          }
        }
      }
      assert issued[..|issued|] == issued;
    }

    /** The statements that both registrations share, on the state in which the factor is already inserted. */
    static method CompleteFactor(s: Accounts, user: string, batch: string, issued: seq<NewCode>, token: string)
      returns (s': Accounts, reply: Reply)
      ensures (s', reply) == FinishFactor(s, user, batch, issued, token)
    {
      s' := s;
      if user in s.users {
        s' := s'.(users := s.users[user := s.users[user].(mfaSkipped := false)]);
      }
      if |issued| > 0 {
        var codes', inserted := InsertRecoveryCodes(WithoutCodes(s.codes, user), user, batch, issued);
        if inserted != Done {
          return s, inserted;
        }
        s' := s'.(codes := codes');
      }
      s' := s'.(sessions := OnlyStrong(s.sessions, user, token));
      if token !in s'.sessions || s'.sessions[token].user != user {
        return s, NotFound;
      }
      return s'.(sessions := s'.sessions[token := Session(user, Mfa)]), Done;
    }

    method Commit(s: Accounts)
      modifies this
      ensures State() == s
    {
      users, sessions, passkeys, totp := s.users, s.sessions, s.passkeys, s.totp;
      enrollments, logins, codes, setups := s.enrollments, s.logins, s.codes, s.setups;
    }

    method CompletePasskeyRegistration(id: string, key: Passkey, batch: string, issued: seq<NewCode>, token: string)
      returns (reply: Reply)
      modifies this
      ensures (State(), reply) == RegisterPasskey(old(State()), id, key, batch, issued, token)
    {
      if key.user !in users {
        return Constraint;
      }
      if PasskeysNamed(passkeys, key.user, key.rp, key.name) != {} {
        return PasskeyNameExists;
      }
      var k := CredentialKey(key.rp, id);
      if k in passkeys {
        return Constraint;
      }
      var s;
      s, reply := CompleteFactor(State().(passkeys := passkeys[k := key]), key.user, batch, issued, token);
      if reply == Done {
        Commit(s);
      }
    }

    method DeletePasskeyKeepingOne(user: string, rp: string, name: string) returns (reply: Reply)
      modifies this
      ensures (State(), reply) == DeletePasskey(old(State()), user, rp, name)
    {
      var count := |PasskeysOf(passkeys, user, rp)|;
      var hasTOTP := user in totp;
      if count <= 1 && !hasTOTP {
        return LastFactor;
      }
      var gone := PasskeysNamed(passkeys, user, rp, name);
      if |gone| != 1 {
        return NotFound;
      }
      passkeys := passkeys - gone;
      return Done;
    }

    method CompleteTOTPEnrollment(
      enrollment: string, binding: string, user: string, counter: Option<int>,
      batch: string, issued: seq<NewCode>, token: string, now: int) returns (reply: Reply)
      modifies this
      ensures (State(), reply)
           == EnrolTOTP(old(State()), enrollment, binding, user, counter, batch, issued, token, now)
    {
      if enrollment !in enrollments {
        return Expired;
      }
      var e := enrollments[enrollment];
      if e.binding != binding || e.user != user || e.expiresAt <= now {
        return Expired;
      }
      if user in totp {
        return AlreadyConfigured;
      }
      if counter.Some? && counter.value < 0 {
        return Constraint;
      }
      var s := State().(enrollments := enrollments - {enrollment}, totp := totp[user := counter]);
      s, reply := CompleteFactor(s, user, batch, issued, token);
      if reply == Done {
        Commit(s);
      }
    }

    method ConsumeTOTPLogin(login: string, user: string, counter: int, now: int) returns (reply: Reply)
      modifies this
      ensures (State(), reply) == TOTPLogin(old(State()), login, user, counter, now)
    {
      if login !in logins || logins[login].user != user || logins[login].expiresAt <= now {
        return NotFound;
      }
      // UPDATE ... WHERE last_used_counter IS NULL OR last_used_counter < ?
      if user !in totp || (totp[user].Some? && totp[user].value >= counter) {
        return Replayed;
      }
      if counter < 0 {
        return Constraint;
      }
      totp := totp[user := Some(counter)];
      logins := logins - {login};
      return Done;
    }

    method DeleteTOTPKeepingFactor(user: string, rp: string) returns (reply: Reply)
      modifies this`totp
      ensures (State(), reply) == DeleteTOTP(old(State()), user, rp)
    {
      if |PasskeysOf(passkeys, user, rp)| == 0 {
        return LastFactor;
      }
      if user !in totp {
        return NotFound;
      }
      totp := totp - {user};
      return Done;
    }

    /** The deletions of both resets, table by table. */
    method ClearFactors(user: string)
      modifies this
      ensures State() == Cleared(old(State()), user)
    {
      if user in users {
        users := users[user := users[user].(mfaSkipped := false)];
      }
      enrollments := WithoutTickets(enrollments, user);
      totp := totp - {user};
      logins := WithoutTickets(logins, user);
      codes := WithoutCodes(codes, user);
      passkeys := WithoutPasskeys(passkeys, user);
      sessions := WithoutSessions(sessions, user);
    }

    method ResetUserAuthentication(user: string) returns (reply: Reply)
      modifies this
      ensures (State(), reply) == ResetAuthentication(old(State()), user)
    {
      if user !in users {
        return NotFound;
      }
      ClearFactors(user);
      return Done;
    }

    method ChangePasswordAndRevoke(user: string) returns (reply: Reply)
      modifies this
      ensures (State(), reply) == ChangePassword(old(State()), user)
    {
      if user !in users {
        return NotFound;
      }
      logins := WithoutTickets(logins, user);
      sessions := WithoutSessions(sessions, user);
      return Done;
    }

    method CompleteUserSetup(token: string, now: int) returns (reply: Reply)
      modifies this
      ensures (State(), reply) == CompleteSetup(old(State()), token, now)
    {
      if token !in setups || setups[token].expiresAt <= now {
        return Expired;
      }
      var user := setups[token].user;
      if user !in users || users[user].status != AwaitingSetup {
        return Expired;
      }
      setups := setups - {token};
      users := users[user := users[user].(status := Active, mfaSkipped := false)];
      return Done;
    }

    method UpdateUserRole(id: string, role: Role) returns (reply: Reply)
      modifies this`users
      ensures (State(), reply) == SetRole(old(State()), id, role)
    {
      if id !in users {
        return NotFound;
      }
      var current := users[id];
      if current.role == Superuser && role != Superuser && current.status == Active {
        if !AnotherSuperuser(users, id) {
          return LastSuperuser;
        }
      }
      users := users[id := current.(role := role)];
      return Done;
    }

    method UpdateUserStatus(id: string, status: Status) returns (reply: Reply)
      modifies this
      ensures (State(), reply) == SetStatus(old(State()), id, status)
    {
      if status != Active && status != Disabled {
        return InvalidState;
      }
      if id !in users {
        return NotFound;
      }
      var current := users[id];
      if current.status == AwaitingSetup || current.status == status {
        return InvalidState;
      }
      if current.role == Superuser && current.status == Active && status == Disabled {
        if !AnotherSuperuser(users, id) {
          return LastSuperuser;
        }
      }
      users := users[id := current.(status := status)];
      if status == Disabled {
        enrollments := WithoutTickets(enrollments, id);
        logins := WithoutTickets(logins, id);
        sessions := WithoutSessions(sessions, id);
      }
      return Done;
    }
  }
}
