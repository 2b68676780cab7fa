/** Who can still sign in while an account is shut out, and what such a session is good for. */
module AuthEntries {
  import opened Outcomes
  import opened AuthMachine
  import opened AuthHistory
  import opened AuthCounting
  import Service = AuthService

  // ---- One entry that nothing interrupts ----

  datatype Entry = ByCode(guess: Secret, found: Option<nat>) | ByGithub | ByFirebase

  /** An answer the query for the user's record may give; the social logins make no such query. */
  ghost predicate Answered(s: State, u: UserId, e: Entry) {
    e.ByCode? ==> Service.Answers(s, u, e.found)
  }

  function Schedule(s: State, u: UserId, e: Entry): seq<Action> {
    var again := Proceed(|s.requests|, None);
    match e
    case ByCode(guess, found) => Service.VerifySchedule(s, u, guess, found)
    case ByGithub => [GithubLogin(u), again, again]
    case ByFirebase => [FirebaseLogin(u), again, again]
  }

  /** How an account that is shut out still gets a session: none of the three looks for that status. */
  predicate GetsIn(s: State, u: UserId, e: Entry)
    requires e.ByCode? && e.found.Some? ==> e.found.value < |s.otps|
  {
    if u !in s.users then e.ByFirebase? // which creates the account, Active
    else
      || (e.ByFirebase? && s.users[u].passwordSetupComplete)
      || (s.users[u].status == PendingApproval
          && match e
             case ByGithub => s.users[u].passwordSetupComplete
             case ByCode(guess, found) =>
               found.Some? && s.otps[found.value].attempts < 5 && s.otps[found.value].hash == Bcrypt(guess)
             case ByFirebase => false)
  }

  function Opened(s: State, u: UserId, e: Entry): Session {
    var origin := if e.ByCode? && e.found.Some? then FromOtp(e.found.value, e.guess) else Social;
    Session(u, Random(|s.requests|), s.now + 7 * 24 * 60 * 60 * 1000, None, origin, |s.requests|)
  }

  ghost predicate OpensExactly(s: State, s': State, u: UserId, e: Entry)
    requires Answered(s, u, e)
  {
    && s'.sessions == (if GetsIn(s, u, e) then s.sessions + [Opened(s, u, e)] else s.sessions)
    && (u in s.users ==> s'.users == s.users)
  }

  lemma CodeOpens(s: State, u: UserId, guess: Secret, found: Option<nat>)
    requires ShutOut(s, u) && Service.Answers(s, u, found)
    ensures OpensExactly(s, Service.Verified(s, u, guess, found), u, ByCode(guess, found))
  {
  }

  lemma GithubOpens(s: State, u: UserId)
    requires ShutOut(s, u)
    ensures OpensExactly(s, Service.GithubEntered(s, u), u, ByGithub)
  {
  }

  lemma FirebaseOpens(s: State, u: UserId)
    requires ShutOut(s, u)
    ensures OpensExactly(s, Service.FirebaseEntered(s, u), u, ByFirebase)
  {
  }

  /** The state an uninterrupted entry leaves. */
  function Left(s: State, u: UserId, e: Entry): State
    requires e.ByCode? && e.found.Some? ==> e.found.value < |s.otps|
  {
    match e
    case ByCode(guess, found) => Service.Verified(s, u, guess, found)
    case ByGithub => Service.GithubEntered(s, u)
    case ByFirebase => Service.FirebaseEntered(s, u)
  }

  lemma EntryLeaves(s: State, u: UserId, e: Entry)
    requires Answered(s, u, e)
    ensures Run(s, Schedule(s, u, e)) == Left(s, u, e)
  {
    match e
    case ByCode(guess, found) => Service.VerifyAlone(s, u, guess, found);
    case ByGithub => Service.GithubAlone(s, u);
    case ByFirebase => Service.FirebaseAlone(s, u);
  }

  lemma LeftOpensExactly(s: State, u: UserId, e: Entry)
    requires ShutOut(s, u) && Answered(s, u, e)
    ensures OpensExactly(s, Left(s, u, e), u, e)
  {
    match e
    case ByCode(guess, found) => CodeOpens(s, u, guess, found);
    case ByGithub => GithubOpens(s, u);
    case ByFirebase => FirebaseOpens(s, u);
  }

  /**
   For an account that is missing, suspended, deactivated or awaiting approval an uninterrupted entry
   opens a session exactly when `GetsIn` says so; and it leaves an existing account shut out.
   */
  lemma EntryOpensExactly(s: State, u: UserId, e: Entry)
    requires ShutOut(s, u) && Answered(s, u, e)
    ensures OpensExactly(s, Run(s, Schedule(s, u, e)), u, e)
  {
    EntryLeaves(s, u, e);
    LeftOpensExactly(s, u, e);
  }

  // ---- Every run ----

  /** An action that begins such an entry, in the state it meets. */
  predicate Enters(s: State, a: Action, u: UserId) {
    match a
    case FirebaseLogin(v) => v == u && (u in s.users ==> s.users[u].passwordSetupComplete)
    case GithubLogin(v) =>
      v == u && u in s.users && s.users[u].status == PendingApproval && s.users[u].passwordSetupComplete
    case VerifyOtp(v, _) => v == u && u in s.users && s.users[u].status == PendingApproval
    case _ => false
  }

  function SessionsOf(u: UserId, sessions: seq<Session>): nat {
    if sessions == [] then 0
    else SessionsOf(u, sessions[..|sessions| - 1]) + One(sessions[|sessions| - 1].user == u)
  }

  function Entries(s: State, actions: seq<Action>, u: UserId): nat {
    if actions == [] then 0
    else
      var before := actions[..|actions| - 1];
      Entries(s, before, u) + One(Enters(Run(s, before), actions[|actions| - 1], u))
  }

  lemma {:induction false} RevokedAreCounted(u: UserId, a: seq<Session>, b: seq<Session>)
    requires |a| == |b| && SessionsLater(a, b)
    ensures SessionsOf(u, b) == SessionsOf(u, a)
  {
    if a != [] {
      RevokedAreCounted(u, a[..|a| - 1], b[..|b| - 1]);
      assert SessionLater(a[|a| - 1], b[|b| - 1]);
    }
  }

  lemma ResumePlans(s: State, a: Action, u: UserId)
    requires a.Proceed?
    ensures var p := PlanOf(s, a);
            One(!p.Refuse? && p.call.AddSession? && p.call.user == u) + Change(s, p, Opening(u)) <= 0
  {
  }

  /** Only an entry, begun or in flight, adds a session. */
  lemma EntryPlans(s: State, a: Action, u: UserId)
    requires ShutOut(s, u)
    ensures var p := PlanOf(s, a);
            One(!p.Refuse? && p.call.AddSession? && p.call.user == u) + Change(s, p, Opening(u)) <= One(Enters(s, a, u))
  {
    if a.Proceed? {
      ResumePlans(s, a, u);
    }
  }

  lemma SessionsAdded(s: State, p: Plan, u: UserId)
    requires Lawful(s, p)
    ensures SessionsOf(u, Execute(s, p).sessions)
         == SessionsOf(u, s.sessions) + One(!p.Refuse? && p.call.AddSession? && p.call.user == u)
  {
    var sessions := Execute(s, p).sessions;
    ExecuteLater(s, p);
    if !p.Refuse? && p.call.AddSession? {
      assert sessions[..|s.sessions|] == s.sessions;
    } else {
      RevokedAreCounted(u, s.sessions, sessions);
    }
  }

  lemma StepEntries(s: State, a: Action, u: UserId)
    requires ShutOut(s, u)
    ensures SessionsOf(u, Step(s, a).sessions) + Count(Opening(u), Step(s, a).requests)
         <= SessionsOf(u, s.sessions) + Count(Opening(u), s.requests) + One(Enters(s, a, u))
  {
    PlansAreLawful(s, a);
    EntryPlans(s, a, u);
    SessionsAdded(s, PlanOf(s, a), u);
    CountExecute(Opening(u), s, PlanOf(s, a));
  }

  /**
   While an account stays shut out, the sessions added for it and the requests that may still add one
   never exceed those requests in flight before and the entries of `GetsIn` begun meanwhile; so none
   is added when there are neither.
   */
  lemma {:induction false} ShutOutOpensOnly(s: State, actions: seq<Action>, u: UserId)
    requires StaysShutOut(s, actions, u)
    ensures SessionsOf(u, Run(s, actions).sessions) + Count(Opening(u), Run(s, actions).requests)
         <= SessionsOf(u, s.sessions) + Count(Opening(u), s.requests) + Entries(s, actions, u)
  {
    if actions != [] {
      var before := actions[..|actions| - 1];
      forall n | 0 <= n < |before| ensures ShutOut(Run(s, before[..n]), u) {
        assert before[..n] == actions[..n];
      }
      ShutOutOpensOnly(s, before, u);
      StepEntries(Run(s, before), actions[|actions| - 1], u);
    }
  }

  // ---- What such a session is good for ----

  function Validation(s: State, u: UserId, i: nat): seq<Action>
    requires i < |s.sessions|
  {
    [Validate(u, Some(s.sessions[i].token)), Proceed(|s.requests|, Some(i))]
  }

  /** Nothing while the account is shut out. */
  lemma RefusedMeanwhile(s: State, u: UserId, presented: Option<Secret>)
    requires ShutOut(s, u)
    ensures Step(s, Validate(u, presented)) == s
  {
  }

  lemma Reinstates(s: State, u: UserId, to: User)
    ensures Step(s, ChangeAccount(u, Some(to))) == s.(users := s.users[u := to])
  {
    var c := PutAccount(u, Some(to));
    assert CallOtps(s.otps, c, |s.requests|) == s.otps;
    assert CallSessions(s.sessions, c, |s.requests|, s.now) == s.sessions;
    assert CallInvitations(s.invitations, c, |s.requests|) == s.invitations;
  }

  lemma SessionFound(s: State, u: UserId, i: nat)
    requires Current(s, i) && s.sessions[i].user == u
    ensures var token := Some(s.sessions[i].token);
            Step(Service.At(s, ValidateFind(u, token)), Proceed(|s.requests|, Some(i))).accepted
            == s.accepted + [Acceptance(u, token, i, s.now)]
  {
  }

  lemma ValidationBegins(s: State, u: UserId, presented: Option<Secret>)
    requires !ShutOut(s, u)
    ensures Step(s, Validate(u, presented)) == Service.At(s, ValidateFind(u, presented))
  {
    Service.RequestBegins(s, Validate(u, presented), ValidateFind(u, presented));
  }

  lemma ValidationAccepts(s: State, u: UserId, i: nat)
    requires !ShutOut(s, u) && i < |s.sessions| && s.sessions[i].user == u
    requires s.sessions[i].revokedAt.None? && s.now < s.sessions[i].expiresAt
    ensures Run(s, Validation(s, u, i)).accepted
         == s.accepted + [Acceptance(u, Some(s.sessions[i].token), i, s.now)]
  {
    var token := Some(s.sessions[i].token);
    Service.RunTwo(s, Validate(u, token), Proceed(|s.requests|, Some(i)));
    ValidationBegins(s, u, token);
    SessionFound(s, u, i);
  }

  /** Everything once the account is reinstated: the session then answers, if it is still current. */
  lemma ReinstatementRevives(s: State, u: UserId, i: nat, to: User)
    requires i < |s.sessions| && s.sessions[i].user == u
    requires s.sessions[i].revokedAt.None? && s.now < s.sessions[i].expiresAt
    requires to.status == Active || to.status == Invited
    ensures Run(Step(s, ChangeAccount(u, Some(to))), Validation(s, u, i)).accepted
         == s.accepted + [Acceptance(u, Some(s.sessions[i].token), i, s.now)]
  {
    Reinstates(s, u, to);
    ValidationAccepts(s.(users := s.users[u := to]), u, i);
  }

  // ---- Two inputs ----

  function Alone(status: AccountStatus): State {
    Start(0, map[0 := User(status, None, true)])
  }

  /** What the entry left: a session for user 0, refused while shut out, accepted once user 0 is Active. */
  ghost predicate WaitsForReinstatement(s: State) {
    && ShutOut(s, 0) && |s.sessions| == 1
    && Honours(s, 0, Some(s.sessions[0].token), 0)
    && Step(s, Validate(0, Some(s.sessions[0].token))) == s
    && |Run(Step(s, ChangeAccount(0, Some(User(Active, None, true)))), Validation(s, 0, 0)).accepted| == |s.accepted| + 1
  }

  lemma Waits(s: State)
    requires ShutOut(s, 0) && |s.sessions| == 1 && Current(s, 0) && s.sessions[0].user == 0
    ensures WaitsForReinstatement(s)
  {
    RefusedMeanwhile(s, 0, Some(s.sessions[0].token));
    ReinstatementRevives(s, 0, 0, User(Active, None, true));
  }

  lemma SuspendedFirebaseLogin()
    ensures WaitsForReinstatement(Run(Alone(Suspended), Schedule(Alone(Suspended), 0, ByFirebase)))
  {
    Service.FirebaseAlone(Alone(Suspended), 0);
    Waits(Service.FirebaseEntered(Alone(Suspended), 0));
  }

  lemma PendingGithubLogin()
    ensures WaitsForReinstatement(Run(Alone(PendingApproval), Schedule(Alone(PendingApproval), 0, ByGithub)))
  {
    Service.GithubAlone(Alone(PendingApproval), 0);
    Waits(Service.GithubEntered(Alone(PendingApproval), 0));
  }
}
