/**
 The credential and session protocol as a machine of atomic database calls. Any number of requests
 are in flight; each keeps a program counter with the values it has read. A run is a sequence of
 actions; an action that is not possible leaves the state as it is, as a refused request does.

 Collections are sequences in order of creation and an entry's index is its identity. Deleted OTP
 and invitation documents stay in the sequence with `live` false. The fields `compared`, `issuer`,
 `claimant`, `purpose`, `opener`, `origin` and the logs `writes`, `activations` and `accepted` are
 history: no guard reads them.
 */
module AuthMachine {
  import opened Outcomes
  import Decimal

  type UserId = nat

  const MINUTE: int := 60_000
  const OTP_EXPIRY: int := 5 * MINUTE
  const RESET_EXPIRY: int := 60 * MINUTE
  const WEEK: int := 7 * 24 * 60 * MINUTE
  const OTP_MAX_ATTEMPTS: nat := 5

  /** What a person types, or the 32 random bytes drawn by request number `request`. */
  datatype Secret = Typed(text: string) | Random(request: nat)

  /** bcrypt and SHA-256 never confuse two inputs, nor each other. */
  datatype Digest = Bcrypt(of: Secret) | Sha256(of: Secret)

  datatype AccountStatus = Invited | PendingApproval | Active | Suspended | Deactivated

  datatype User = User(status: AccountStatus, passwordHash: Option<Digest>, passwordSetupComplete: bool)

  /** Which operation issued an OTP record, and the six digits it mailed if it was a login or a resend. */
  datatype Purpose = LoginCode(code: nat) | ResentCode(code: nat) | ResetToken

  datatype Otp = Otp(
    user: UserId, hash: Digest, expiresAt: int, attempts: nat, used: bool,
    live: bool, compared: nat, issuer: nat, claimant: Option<nat>, purpose: Purpose)

  datatype Origin = FromOtp(otp: nat, guess: Secret) | Social

  datatype Session = Session(
    user: UserId, token: Secret, expiresAt: int, revokedAt: Option<int>, origin: Origin, opener: nat)

  datatype InvitationStatus = Sent | Activated

  datatype Invitation = Invitation(
    user: UserId, tokenHash: Digest, status: InvitationStatus, expiresAt: int,
    live: bool, issuer: nat, claimant: Option<nat>)

  datatype Warrant = ByReset(otp: nat, token: Secret) | ByInvitation(invitation: nat, token: Secret)

  datatype Write = Write(user: UserId, warrant: Warrant, writer: nat)

  /** The account's status set to Active by an invitation, after the password write `write`. */
  datatype Activation = Activation(user: UserId, invitation: nat, token: Secret, write: nat, activator: nat)

  datatype Acceptance = Acceptance(user: UserId, presented: Option<Secret>, session: nat, at: int)

  /** Where an in-flight request stands: the database call it makes next. */
  datatype Pc =
    | Done
    | IssueDelete(user: UserId, hash: Digest, lifetime: int, purpose: Purpose)
    | IssueCreate(user: UserId, hash: Digest, expiresAt: int, purpose: Purpose)
    | VerifyFind(user: UserId, guess: Secret)
    | VerifyCheck(user: UserId, guess: Secret, otp: nat, hash: Digest, attempts: nat)
    | VerifyBurn(user: UserId, otp: nat)
    | VerifyMiss(user: UserId, otp: nat)
    | VerifyMatch(user: UserId, guess: Secret, otp: nat)
    | VerifySession(user: UserId, guess: Secret, otp: nat)
    | ResetWrite(user: UserId, otp: nat, token: Secret, password: Secret)
    | ResetRevoke(user: UserId)
    | InviteCreate(user: UserId, expiresAt: int)
    | SetupWrite(user: UserId, invitation: nat, token: Secret, password: Secret)
    | SetupActivate(user: UserId, invitation: nat, token: Secret, write: nat)
    | SocialActivate(user: UserId)
    | SocialSession(user: UserId)
    | ValidateFind(user: UserId, presented: Option<Secret>)

  datatype State = State(
    now: int,
    users: map<UserId, User>,
    otps: seq<Otp>,
    sessions: seq<Session>,
    invitations: seq<Invitation>,
    requests: seq<Pc>,
    writes: seq<Write>,
    activations: seq<Activation>,
    accepted: seq<Acceptance>)

  datatype Action =
    | Tick(elapsed: nat)
    | ChangeAccount(user: UserId, to: Option<User>) // any other service: suspend, purge, approve, ...
    | ExpireOtp(otp: nat)                            // the collection's TTL index
    | Login(user: UserId, password: Secret, code: nat)
    | ResendOtp(user: UserId, code: nat)
    | ForgotPassword(user: UserId)
    | VerifyOtp(user: UserId, guess: Secret)
    | ResetPassword(token: Secret, password: Secret, otp: nat)
    | CreateInvitation(user: UserId)
    | SetupPassword(token: Secret, password: Secret, invitation: nat)
    | Logout(user: UserId)
    | GithubLogin(user: UserId)
    | FirebaseLogin(user: UserId)
    | Validate(user: UserId, presented: Option<Secret>)
    | Proceed(request: nat, found: Option<nat>)      // `found`, like `otp` above, is the document a query returns

  // ---- Database calls ----

  /** One atomic call, made by the request whose number is given beside it. */
  datatype Call =
    | Read
    | Wait(elapsed: nat)
    | PutAccount(user: UserId, account: Option<User>)
    | Activate(user: UserId)
    | ActivateInvited(user: UserId, invitation: nat, token: Secret, write: nat)
    | WritePassword(user: UserId, password: Secret, complete: bool, warrant: Warrant)
    | ClearOtps(user: UserId)
    | AddOtp(user: UserId, hash: Digest, expiresAt: int, purpose: Purpose)
    | CompareOtp(otp: nat)                // no database call: bcrypt.compare, noted in the history
    | BurnOtp(otp: nat)
    | MissOtp(otp: nat)
    | ClaimOtp(otp: nat)
    | DropOtp(otp: nat)
    | AddSession(user: UserId, origin: Origin)
    | RevokeSessions(user: UserId)
    | ClearInvitations(user: UserId)
    | AddInvitation(user: UserId, expiresAt: int)
    | ClaimInvitation(invitation: nat)
    | Accept(user: UserId, presented: Option<Secret>, session: nat)

  function SetActive(users: map<UserId, User>, u: UserId): map<UserId, User> {
    if u in users then users[u := users[u].(status := Active)] else users
  }

  function CallUsers(users: map<UserId, User>, c: Call): map<UserId, User> {
    match c
    case PutAccount(u, account) => if account.Some? then users[u := account.value] else users - {u}
    case Activate(u) => SetActive(users, u)
    case ActivateInvited(u, _, _, _) => SetActive(users, u)
    case WritePassword(u, password, complete, _) =>
      if u !in users then users
      else users[u := users[u].(passwordHash := Some(Bcrypt(password)),
                                passwordSetupComplete := users[u].passwordSetupComplete || complete)]
    case _ => users
  }

  /** What a call does to one stored OTP document; updates do not find a deleted one. */
  function CallOtp(i: nat, o: Otp, c: Call, caller: nat): Otp {
    match c
    case ClearOtps(u) => if o.user == u then o.(live := false) else o
    case DropOtp(k) => if k == i then o.(live := false) else o
    case CompareOtp(k) => if k == i then o.(compared := o.compared + 1) else o
    case BurnOtp(k) => if k == i && o.live then o.(used := true) else o
    case MissOtp(k) => if k == i && o.live then o.(attempts := o.attempts + 1) else o
    case ClaimOtp(k) => if k == i then o.(used := true, claimant := Some(caller)) else o
    case _ => o
  }

  function CallOtps(otps: seq<Otp>, c: Call, caller: nat): seq<Otp> {
    if c.AddOtp? then otps + [Otp(c.user, c.hash, c.expiresAt, 0, false, true, 0, caller, None, c.purpose)]
    else seq(|otps|, i requires 0 <= i < |otps| => CallOtp(i, otps[i], c, caller))
  }

  function CallSession(x: Session, c: Call, now: int): Session {
    if c.RevokeSessions? && x.user == c.user && x.revokedAt.None? then x.(revokedAt := Some(now)) else x
  }

  function CallSessions(sessions: seq<Session>, c: Call, caller: nat, now: int): seq<Session> {
    if c.AddSession? then sessions + [Session(c.user, Random(caller), now + WEEK, None, c.origin, caller)]
    else seq(|sessions|, i requires 0 <= i < |sessions| => CallSession(sessions[i], c, now))
  }

  function CallInvitation(i: nat, v: Invitation, c: Call, caller: nat): Invitation {
    match c
    case ClearInvitations(u) => if v.user == u then v.(live := false) else v
    case ClaimInvitation(k) => if k == i then v.(status := Activated, claimant := Some(caller)) else v
    case _ => v
  }

  function CallInvitations(all: seq<Invitation>, c: Call, caller: nat): seq<Invitation> {
    if c.AddInvitation? then all + [Invitation(c.user, Sha256(Random(caller)), Sent, c.expiresAt, true, caller, None)]
    else seq(|all|, i requires 0 <= i < |all| => CallInvitation(i, all[i], c, caller))
  }

  function Perform(s: State, c: Call, caller: nat, requests: seq<Pc>): State {
    State(
      if c.Wait? then s.now + c.elapsed else s.now,
      CallUsers(s.users, c),
      CallOtps(s.otps, c, caller),
      CallSessions(s.sessions, c, caller, s.now),
      CallInvitations(s.invitations, c, caller),
      requests,
      if c.WritePassword? then s.writes + [Write(c.user, c.warrant, caller)] else s.writes,
      if c.ActivateInvited? then s.activations + [Activation(c.user, c.invitation, c.token, c.write, caller)]
      else s.activations,
      if c.Accept? then s.accepted + [Acceptance(c.user, c.presented, c.session, s.now)] else s.accepted)
  }

  predicate Redeemable(s: State, otp: nat) {
    otp < |s.otps| && s.otps[otp].live && !s.otps[otp].used && s.otps[otp].expiresAt > s.now
  }

  predicate Findable(s: State, user: UserId, otp: nat) {
    Redeemable(s, otp) && s.otps[otp].user == user
  }

  predicate Unclaimed(s: State, invitation: nat) {
    invitation < |s.invitations| && s.invitations[invitation].live
    && s.invitations[invitation].status == Sent && s.invitations[invitation].expiresAt > s.now
  }

  predicate Current(s: State, session: nat) {
    session < |s.sessions| && s.sessions[session].revokedAt.None? && s.sessions[session].expiresAt > s.now
  }

  predicate Honours(s: State, user: UserId, presented: Option<Secret>, session: nat) {
    Current(s, session) && s.sessions[session].user == user
    && (presented.Some? ==> s.sessions[session].token == presented.value)
  }

  // ---- Guards ----

  predicate Blocked(status: AccountStatus) {
    status == Suspended || status == Deactivated
  }

  predicate CodeInRange(code: nat) {
    100000 <= code < 1000000
  }

  predicate LongEnough(token: Secret) {
    token.Typed? ==> |token.text| >= 16
  }

  function CodeHash(code: nat): Digest {
    Bcrypt(Typed(Decimal.ToString(code)))
  }

  // ---- Steps ----

  /** An action is refused, is one call outside any request, or is a call that moves a request. */
  datatype Plan =
    | Refuse
    | Outside(call: Call)
    | Begin(call: Call, next: Pc)
    | Continue(request: nat, call: Call, next: Pc)

  function IssuePlan(s: State, u: UserId, hash: Digest, lifetime: int, purpose: Purpose): Plan {
    if u in s.users && !Blocked(s.users[u].status) then Begin(Read, IssueDelete(u, hash, lifetime, purpose)) else Refuse
  }

  /** The next call of request `r`; `found` is what its query returns, which must be a match if there is one. */
  function Resume(s: State, r: nat, found: Option<nat>): Plan
    requires r < |s.requests|
  {
    match s.requests[r]
    case Done => Refuse
    case IssueDelete(u, hash, lifetime, purpose) =>
      Continue(r, ClearOtps(u), IssueCreate(u, hash, s.now + lifetime, purpose))
    case IssueCreate(u, hash, expiresAt, purpose) => Continue(r, AddOtp(u, hash, expiresAt, purpose), Done)
    case VerifyFind(u, guess) =>
      if found.Some? then
        var o := found.value;
        if Findable(s, u, o)
        then Continue(r, Read, VerifyCheck(u, guess, o, s.otps[o].hash, s.otps[o].attempts)) else Refuse
      else if exists o :: 0 <= o < |s.otps| && Findable(s, u, o) then Refuse
      else Continue(r, Read, Done)
    case VerifyCheck(u, guess, o, hash, attempts) =>
      if attempts >= OTP_MAX_ATTEMPTS then Continue(r, Read, VerifyBurn(u, o))
      else Continue(r, CompareOtp(o), if hash == Bcrypt(guess) then VerifyMatch(u, guess, o) else VerifyMiss(u, o))
    case VerifyBurn(u, o) => Continue(r, BurnOtp(o), Done)
    case VerifyMiss(u, o) => Continue(r, MissOtp(o), Done)
    case VerifyMatch(u, guess, o) =>
      if o < |s.otps| && s.otps[o].live && !s.otps[o].used
      then Continue(r, ClaimOtp(o), VerifySession(u, guess, o)) else Continue(r, Read, Done)
    case VerifySession(u, guess, o) => Continue(r, AddSession(u, FromOtp(o, guess)), Done)
    case ResetWrite(u, o, token, password) =>
      Continue(r, WritePassword(u, password, false, ByReset(o, token)), ResetRevoke(u))
    case ResetRevoke(u) => Continue(r, RevokeSessions(u), Done)
    case InviteCreate(u, expiresAt) => Continue(r, AddInvitation(u, expiresAt), Done)
    case SetupWrite(u, i, token, password) =>
      Continue(r, WritePassword(u, password, true, ByInvitation(i, token)), SetupActivate(u, i, token, |s.writes|))
    case SetupActivate(u, i, token, write) => Continue(r, ActivateInvited(u, i, token, write), Done)
    case SocialActivate(u) => Continue(r, Activate(u), SocialSession(u))
    case SocialSession(u) => Continue(r, AddSession(u, Social), Done)
    case ValidateFind(u, presented) =>
      if found.Some? then
        if Honours(s, u, presented, found.value) then Continue(r, Accept(u, presented, found.value), Done) else Refuse
      else if exists i :: 0 <= i < |s.sessions| && Honours(s, u, presented, i) then Refuse
      else Continue(r, Read, Done)
  }

  function PlanOf(s: State, a: Action): Plan {
    match a
    case Tick(elapsed) => Outside(Wait(elapsed))
    case ChangeAccount(u, to) => Outside(PutAccount(u, to))
    case ExpireOtp(o) => if o < |s.otps| && s.otps[o].expiresAt <= s.now then Outside(DropOtp(o)) else Refuse
    case Logout(u) => Outside(RevokeSessions(u))
    case Login(u, password, code) =>
      if u in s.users && s.users[u].passwordHash == Some(Bcrypt(password)) && CodeInRange(code)
      then IssuePlan(s, u, CodeHash(code), OTP_EXPIRY, LoginCode(code)) else Refuse
    case ResendOtp(u, code) =>
      if CodeInRange(code) then IssuePlan(s, u, CodeHash(code), OTP_EXPIRY, ResentCode(code)) else Refuse
    case ForgotPassword(u) => IssuePlan(s, u, Sha256(Random(|s.requests|)), RESET_EXPIRY, ResetToken)
    case VerifyOtp(u, guess) =>
      if u in s.users && !Blocked(s.users[u].status) then Begin(Read, VerifyFind(u, guess)) else Refuse
    case ResetPassword(token, password, o) =>
      if LongEnough(token) && Redeemable(s, o) && s.otps[o].hash == Sha256(token)
      then Begin(ClaimOtp(o), ResetWrite(s.otps[o].user, o, token, password)) else Refuse
    case CreateInvitation(u) => Begin(ClearInvitations(u), InviteCreate(u, s.now + WEEK))
    case SetupPassword(token, password, i) =>
      if LongEnough(token) && Unclaimed(s, i) && s.invitations[i].tokenHash == Sha256(token)
      then Begin(ClaimInvitation(i), SetupWrite(s.invitations[i].user, i, token, password)) else Refuse
    case GithubLogin(u) =>
      if u in s.users && !Blocked(s.users[u].status) && s.users[u].passwordSetupComplete
      then Begin(Read, if s.users[u].status == Invited then SocialActivate(u) else SocialSession(u)) else Refuse
    case FirebaseLogin(u) =>
      if u !in s.users then Begin(PutAccount(u, Some(User(Invited, None, false))), SocialActivate(u))
      else if s.users[u].passwordSetupComplete then Begin(Read, SocialSession(u)) else Refuse
    case Validate(u, presented) =>
      if u in s.users && !Blocked(s.users[u].status) && s.users[u].status != PendingApproval
      then Begin(Read, ValidateFind(u, presented)) else Refuse
    case Proceed(r, found) => if r < |s.requests| then Resume(s, r, found) else Refuse
  }

  function Execute(s: State, p: Plan): State {
    match p
    case Refuse => s
    case Outside(c) => Perform(s, c, |s.requests|, s.requests)
    case Begin(c, next) => Perform(s, c, |s.requests|, s.requests + [next])
    case Continue(r, c, next) =>
      if r < |s.requests| then Perform(s, c, r, s.requests[r := next]) else s
  }

  function Step(s: State, a: Action): State {
    Execute(s, PlanOf(s, a))
  }

  function Run(s: State, actions: seq<Action>): State {
    if actions == [] then s else Step(Run(s, actions[..|actions| - 1]), actions[|actions| - 1])
  }

  /** Any accounts; nothing issued yet. */
  function Start(now: int, users: map<UserId, User>): State {
    State(now, users, [], [], [], [], [], [], [])
  }

  lemma {:induction false} RunFrom(s: State, first: seq<Action>, second: seq<Action>)
    ensures Run(s, first + second) == Run(Run(s, first), second)
  {
    if second == [] {
      assert first + second == first;
    } else {
      RunFrom(s, first, second[..|second| - 1]);
      assert (first + second)[..|first + second| - 1] == first + second[..|second| - 1];
    }
  }
}
