/**
 The service methods as they run when nothing interrupts them: what each leaves in the collections,
 and the proof that this is what its database calls amount to on the machine.
 */
module AuthService {
  import opened Outcomes
  import Decimal
  import opened AuthMachine
  import opened AuthHistory
  import AuthSafety

  datatype Error = Unauthorized | BadRequest

  const SEVEN_DAYS: int := 7 * 24 * 60 * 60 * 1000

  /** A token that somebody typed must have this length; one that was drawn has it. */
  predicate Sizeable(token: Secret) {
    token.Typed? ==> |token.text| >= 16
  }

  /** A reset record that can still be used and is that of this token. */
  predicate Redeems(s: State, token: Secret, o: nat) {
    && o < |s.otps| && s.otps[o].live && !s.otps[o].used && s.now < s.otps[o].expiresAt
    && s.otps[o].hash == Sha256(token)
  }

  /** What the query for a token's reset record may return. */
  ghost predicate TokenAnswers(s: State, token: Secret, found: Option<nat>) {
    if found.Some? then Redeems(s, token, found.value) else forall o: nat :: !Redeems(s, token, o)
  }

  predicate Invites(s: State, token: Secret, i: nat) {
    && i < |s.invitations| && s.invitations[i].live && s.invitations[i].status == Sent
    && s.now < s.invitations[i].expiresAt && s.invitations[i].tokenHash == Sha256(token)
  }

  /** What the query for a token's invitation may return. */
  ghost predicate InvitationAnswers(s: State, token: Secret, found: Option<nat>) {
    if found.Some? then Invites(s, token, found.value) else forall i: nat :: !Invites(s, token, i)
  }

  /** A record of the user that is stored, unused and unexpired. */
  predicate Fits(s: State, u: UserId, o: nat) {
    o < |s.otps| && s.otps[o].user == u && s.otps[o].live && !s.otps[o].used && s.now < s.otps[o].expiresAt
  }

  /** What `findOne` for a user's usable OTP record may return: one that matches, or nothing when none does. */
  ghost predicate Answers(s: State, u: UserId, found: Option<nat>) {
    if found.Some? then Fits(s, u, found.value) else forall o: nat :: !Fits(s, u, o)
  }

  /** The account exists and is neither suspended nor deactivated. */
  predicate MaySignIn(s: State, u: UserId) {
    u in s.users && s.users[u].status != Suspended && s.users[u].status != Deactivated
  }

  // ---- What an uninterrupted call leaves ----

  function Finish(s: State): State {
    s.(requests := s.requests + [Done])
  }

  /** The code is right and the record has attempts left. */
  predicate Passes(s: State, guess: Secret, o: nat)
    requires o < |s.otps|
  {
    s.otps[o].attempts < OTP_MAX_ATTEMPTS && s.otps[o].hash == Bcrypt(guess)
  }

  function Verified(s: State, u: UserId, guess: Secret, found: Option<nat>): State
    requires found.Some? ==> found.value < |s.otps|
  {
    if !MaySignIn(s, u) then s
    else if found.None? then Finish(s)
    else
      var o, r := found.value, |s.requests|;
      var record := s.otps[o];
      if record.attempts >= OTP_MAX_ATTEMPTS then Finish(s.(otps := s.otps[o := record.(used := true)]))
      else if record.hash != Bcrypt(guess) then
        Finish(s.(otps := s.otps[o := record.(compared := record.compared + 1, attempts := record.attempts + 1)]))
      else
        Finish(s.(
          otps := s.otps[o := record.(compared := record.compared + 1, used := true, claimant := Some(r))],
          sessions := s.sessions + [Session(u, Random(r), s.now + WEEK, None, FromOtp(o, guess), r)]))
  }

  function Cleared(u: UserId, otps: seq<Otp>): (r: seq<Otp>)
    ensures |r| == |otps|
  {
    seq(|otps|, i requires 0 <= i < |otps| => if otps[i].user == u then otps[i].(live := false) else otps[i])
  }

  function Issued(s: State, u: UserId, hash: Digest, lifetime: int, purpose: Purpose): State {
    if !MaySignIn(s, u) then s
    else
      var record := Otp(u, hash, s.now + lifetime, 0, false, true, 0, |s.requests|, None, purpose);
      Finish(s.(otps := Cleared(u, s.otps) + [record]))
  }

  function Revoked(u: UserId, sessions: seq<Session>, now: int): (r: seq<Session>)
    ensures |r| == |sessions|
  {
    seq(|sessions|, i requires 0 <= i < |sessions| =>
      if sessions[i].user == u && sessions[i].revokedAt.None? then sessions[i].(revokedAt := Some(now)) else sessions[i])
  }

  function Repassworded(users: map<UserId, User>, u: UserId, password: Secret): map<UserId, User> {
    if u in users then users[u := users[u].(passwordHash := Some(Bcrypt(password)))] else users
  }

  function Reset(s: State, token: Secret, password: Secret, o: nat): State {
    if !(LongEnough(token) && Redeems(s, token, o)) then s
    else
      var u, r := s.otps[o].user, |s.requests|;
      Finish(s.(
        otps := s.otps[o := s.otps[o].(used := true, claimant := Some(r))],
        users := Repassworded(s.users, u, password),
        writes := s.writes + [Write(u, ByReset(o, token), r)],
        sessions := Revoked(u, s.sessions, s.now)))
  }

  predicate MaySetUp(s: State, token: Secret, i: nat) {
    LongEnough(token) && Invites(s, token, i)
  }

  /** The account that an invitation leaves: a password of the person's own, and Active. */
  function Welcomed(users: map<UserId, User>, u: UserId, password: Secret): map<UserId, User> {
    if u in users then users[u := User(Active, Some(Bcrypt(password)), true)] else users
  }

  function SetUp(s: State, token: Secret, password: Secret, i: nat): State {
    if !MaySetUp(s, token, i) then s
    else
      var u, r := s.invitations[i].user, |s.requests|;
      Finish(s.(
        invitations := s.invitations[i := s.invitations[i].(status := Activated, claimant := Some(r))],
        users := Welcomed(s.users, u, password),
        writes := s.writes + [Write(u, ByInvitation(i, token), r)],
        activations := s.activations + [Activation(u, i, token, |s.writes|, r)]))
  }

  /** One social session more, opened by the request about to begin. */
  function Admitted(s: State, u: UserId): State {
    Finish(s.(sessions := s.sessions + [Session(u, Random(|s.requests|), s.now + WEEK, None, Social, |s.requests|)]))
  }

  function GithubEntered(s: State, u: UserId): State {
    if !MaySignIn(s, u) || !s.users[u].passwordSetupComplete then s
    else Admitted(if s.users[u].status == Invited then s.(users := SetActive(s.users, u)) else s, u)
  }

  function FirebaseEntered(s: State, u: UserId): State {
    if u !in s.users then Admitted(s.(users := s.users[u := User(Active, None, false)]), u)
    else if s.users[u].passwordSetupComplete then Admitted(s, u)
    else s
  }

  /** Every session of this user is revoked or expired. */
  ghost predicate LockedOut(s: State, u: UserId) {
    forall i :: 0 <= i < |s.sessions| && s.sessions[i].user == u ==>
      s.sessions[i].revokedAt.Some? || s.sessions[i].expiresAt <= s.now
  }

  // ---- The machine agrees ----

  lemma Untouched(s: State, c: Call, r: nat, requests: seq<Pc>)
    requires c.Read?
    ensures Perform(s, c, r, requests) == s.(requests := requests)
  {
  }

  lemma OtpOnly(s: State, o: nat, c: Call, r: nat, requests: seq<Pc>)
    requires o < |s.otps| && s.otps[o].live
    requires c == CompareOtp(o) || c == BurnOtp(o) || c == MissOtp(o) || c == ClaimOtp(o)
    ensures Perform(s, c, r, requests) == s.(otps := s.otps[o := CallOtp(o, s.otps[o], c, r)], requests := requests)
  {
  }

  /** The state with one more request, standing at `pc`. */
  function At(s: State, pc: Pc): State {
    s.(requests := s.requests + [pc])
  }

  lemma MoveOn(s: State, pc: Pc, next: Pc)
    ensures At(s, pc).requests[|s.requests| := next] == At(s, next).requests
  {
  }

  /** The account found and the record read: the request stands before its check. */
  lemma VerifyBegins(s: State, u: UserId, guess: Secret, o: nat)
    requires MaySignIn(s, u) && Findable(s, u, o)
    ensures Step(s, VerifyOtp(u, guess)) == At(s, VerifyFind(u, guess))
    ensures Step(At(s, VerifyFind(u, guess)), Proceed(|s.requests|, Some(o)))
         == At(s, VerifyCheck(u, guess, o, s.otps[o].hash, s.otps[o].attempts))
  {
    Untouched(s, Read, |s.requests|, At(s, VerifyFind(u, guess)).requests);
    var s1, next := At(s, VerifyFind(u, guess)), VerifyCheck(u, guess, o, s.otps[o].hash, s.otps[o].attempts);
    MoveOn(s, VerifyFind(u, guess), next);
    Untouched(s1, Read, |s.requests|, At(s, next).requests);
  }

  lemma VerifyFindsNothing(s: State, u: UserId, guess: Secret)
    requires MaySignIn(s, u) && Answers(s, u, None)
    ensures Step(s, VerifyOtp(u, guess)) == At(s, VerifyFind(u, guess))
    ensures Step(At(s, VerifyFind(u, guess)), Proceed(|s.requests|, None)) == Finish(s)
  {
    Untouched(s, Read, |s.requests|, At(s, VerifyFind(u, guess)).requests);
    var s1 := At(s, VerifyFind(u, guess));
    assert forall o: nat :: Findable(s1, u, o) <==> Fits(s, u, o);
    MoveOn(s, VerifyFind(u, guess), Done);
    Untouched(s1, Read, |s.requests|, Finish(s).requests);
  }

  function Checking(s: State, u: UserId, guess: Secret, o: nat): State
    requires o < |s.otps|
  {
    At(s, VerifyCheck(u, guess, o, s.otps[o].hash, s.otps[o].attempts))
  }

  function WithOtp(s: State, o: nat, c: Call): State
    requires o < |s.otps|
  {
    s.(otps := s.otps[o := CallOtp(o, s.otps[o], c, |s.requests|)])
  }

  /** A call on the record moves the request on and changes that record only. */
  lemma OtpStep(s: State, pc: Pc, o: nat, c: Call, next: Pc)
    requires o < |s.otps| && s.otps[o].live
    requires c == CompareOtp(o) || c == BurnOtp(o) || c == MissOtp(o) || c == ClaimOtp(o)
    requires Resume(At(s, pc), |s.requests|, None) == Continue(|s.requests|, c, next)
    ensures Step(At(s, pc), Proceed(|s.requests|, None)) == At(WithOtp(s, o, c), next)
  {
    MoveOn(s, pc, next);
    OtpOnly(At(s, pc), o, c, |s.requests|, At(s, next).requests);
  }

  lemma VerifyBurns(s: State, u: UserId, guess: Secret, o: nat)
    requires MaySignIn(s, u) && Findable(s, u, o) && s.otps[o].attempts >= OTP_MAX_ATTEMPTS
    ensures Step(Step(Checking(s, u, guess, o), Proceed(|s.requests|, None)), Proceed(|s.requests|, None))
         == Verified(s, u, guess, Some(o))
  {
    MoveOn(s, VerifyCheck(u, guess, o, s.otps[o].hash, s.otps[o].attempts), VerifyBurn(u, o));
    Untouched(Checking(s, u, guess, o), Read, |s.requests|, At(s, VerifyBurn(u, o)).requests);
    OtpStep(s, VerifyBurn(u, o), o, BurnOtp(o), Done);
  }

  lemma VerifyMisses(s: State, u: UserId, guess: Secret, o: nat)
    requires MaySignIn(s, u) && Findable(s, u, o)
    requires s.otps[o].attempts < OTP_MAX_ATTEMPTS && s.otps[o].hash != Bcrypt(guess)
    ensures Step(Step(Checking(s, u, guess, o), Proceed(|s.requests|, None)), Proceed(|s.requests|, None))
         == Verified(s, u, guess, Some(o))
  {
    OtpStep(s, VerifyCheck(u, guess, o, s.otps[o].hash, s.otps[o].attempts), o, CompareOtp(o), VerifyMiss(u, o));
    OtpStep(WithOtp(s, o, CompareOtp(o)), VerifyMiss(u, o), o, MissOtp(o), Done);
  }

  function Claimed(s: State, o: nat): State
    requires o < |s.otps|
  {
    WithOtp(WithOtp(s, o, CompareOtp(o)), o, ClaimOtp(o))
  }

  lemma VerifyMatches(s: State, u: UserId, guess: Secret, o: nat)
    requires Findable(s, u, o) && Passes(s, guess, o)
    ensures Step(Step(Checking(s, u, guess, o), Proceed(|s.requests|, None)), Proceed(|s.requests|, None))
         == At(Claimed(s, o), VerifySession(u, guess, o))
  {
    OtpStep(s, VerifyCheck(u, guess, o, s.otps[o].hash, s.otps[o].attempts), o, CompareOtp(o), VerifyMatch(u, guess, o));
    OtpStep(WithOtp(s, o, CompareOtp(o)), VerifyMatch(u, guess, o), o, ClaimOtp(o), VerifySession(u, guess, o));
  }

  function Opened(s: State, u: UserId, guess: Secret, o: nat): State {
    s.(sessions := s.sessions + [Session(u, Random(|s.requests|), s.now + WEEK, None, FromOtp(o, guess), |s.requests|)])
  }

  lemma SessionOpens(s: State, u: UserId, guess: Secret, o: nat)
    ensures Step(At(s, VerifySession(u, guess, o)), Proceed(|s.requests|, None)) == Finish(Opened(s, u, guess, o))
  {
  }

  lemma VerifyOpens(s: State, u: UserId, guess: Secret, o: nat, reached: State)
    requires MaySignIn(s, u) && o < |s.otps| && Passes(s, guess, o)
    requires reached == At(Claimed(s, o), VerifySession(u, guess, o))
    ensures Step(reached, Proceed(|s.requests|, None)) == Verified(s, u, guess, Some(o))
  {
    SessionOpens(Claimed(s, o), u, guess, o);
    assert Finish(Opened(Claimed(s, o), u, guess, o)) == Verified(s, u, guess, Some(o));
  }

  /** The actions of one verification, as many as it can have calls; those left over find nothing to do. */
  function VerifySchedule(s: State, u: UserId, guess: Secret, found: Option<nat>): seq<Action> {
    var again := Proceed(|s.requests|, None);
    [VerifyOtp(u, guess), Proceed(|s.requests|, found), again, again, again]
  }

  lemma RunMore(s: State, a: seq<Action>, x: Action)
    ensures Run(s, a + [x]) == Step(Run(s, a), x)
  {
  }

  lemma RunTwo(s: State, a: Action, b: Action)
    ensures Run(s, [a]) == Step(s, a) && Run(s, [a, b]) == Step(Step(s, a), b)
  {
  }

  lemma RunThree(s: State, a: Action, b: Action, c: Action)
    ensures Run(s, [a, b, c]) == Step(Step(Step(s, a), b), c)
  {
    RunTwo(s, a, b);
    RunMore(s, [a, b], c);
    assert [a, b] + [c] == [a, b, c];
  }

  lemma RunFive(s: State, a: Action, b: Action, c: Action, d: Action, e: Action)
    ensures Run(s, [a, b, c, d, e]) == Step(Step(Step(Step(Step(s, a), b), c), d), e)
  {
    RunThree(s, a, b, c);
    RunMore(s, [a, b, c], d);
    RunMore(s, [a, b, c, d], e);
    assert [a, b, c] + [d] == [a, b, c, d] && [a, b, c, d] + [e] == [a, b, c, d, e];
  }

  /** Asking for more of a request that is finished, or never began, changes nothing. */
  lemma Idle(s: State, found: Option<nat>)
    ensures Step(s, Proceed(|s.requests|, found)) == s
    ensures Step(Finish(s), Proceed(|s.requests|, found)) == Finish(s)
  {
  }

  lemma VerifyFails(s: State, u: UserId, guess: Secret, o: nat)
    requires MaySignIn(s, u) && Findable(s, u, o) && !Passes(s, guess, o)
    ensures Step(Step(Checking(s, u, guess, o), Proceed(|s.requests|, None)), Proceed(|s.requests|, None))
         == Verified(s, u, guess, Some(o))
  {
    if s.otps[o].attempts >= OTP_MAX_ATTEMPTS {
      VerifyBurns(s, u, guess, o);
    } else {
      VerifyMisses(s, u, guess, o);
    }
  }

  /** The record verified, apart from the request's end. */
  function Judged(s: State, guess: Secret, o: nat): State
    requires o < |s.otps|
  {
    if s.otps[o].attempts >= OTP_MAX_ATTEMPTS then WithOtp(s, o, BurnOtp(o))
    else WithOtp(WithOtp(s, o, CompareOtp(o)), o, MissOtp(o))
  }

  lemma FailureIsJudged(s: State, u: UserId, guess: Secret, o: nat)
    requires MaySignIn(s, u) && Findable(s, u, o) && !Passes(s, guess, o)
    ensures Verified(s, u, guess, Some(o)) == Finish(Judged(s, guess, o))
    ensures |Judged(s, guess, o).requests| == |s.requests|
  {
  }

  lemma VerifyLast(s: State, u: UserId, guess: Secret, o: nat, fourth: State)
    requires MaySignIn(s, u) && Findable(s, u, o)
    requires fourth == Step(Step(Checking(s, u, guess, o), Proceed(|s.requests|, None)), Proceed(|s.requests|, None))
    ensures Step(fourth, Proceed(|s.requests|, None)) == Verified(s, u, guess, Some(o))
  {
    if Passes(s, guess, o) {
      VerifyMatches(s, u, guess, o);
      VerifyOpens(s, u, guess, o, fourth);
    } else {
      VerifyFails(s, u, guess, o);
      FailureIsJudged(s, u, guess, o);
      Idle(Judged(s, guess, o), None);
    }
  }

  lemma VerifyFound(s: State, u: UserId, guess: Secret, o: nat)
    requires MaySignIn(s, u) && Findable(s, u, o)
    ensures Run(s, VerifySchedule(s, u, guess, Some(o))) == Verified(s, u, guess, Some(o))
  {
    var again := Proceed(|s.requests|, None);
    RunFive(s, VerifyOtp(u, guess), Proceed(|s.requests|, Some(o)), again, again, again);
    VerifyBegins(s, u, guess, o);
    VerifyLast(s, u, guess, o, Step(Step(Checking(s, u, guess, o), again), again));
  }

  lemma VerifyNotFound(s: State, u: UserId, guess: Secret)
    requires MaySignIn(s, u) ==> Answers(s, u, None)
    ensures Run(s, VerifySchedule(s, u, guess, None)) == Verified(s, u, guess, None)
  {
    var again := Proceed(|s.requests|, None);
    RunFive(s, VerifyOtp(u, guess), again, again, again, again);
    Idle(s, None);
    if MaySignIn(s, u) {
      VerifyFindsNothing(s, u, guess);
    }
  }

  lemma VerifyRefused(s: State, u: UserId, guess: Secret, found: Option<nat>)
    requires !MaySignIn(s, u)
    ensures Run(s, VerifySchedule(s, u, guess, found)) == s
  {
    var again := Proceed(|s.requests|, None);
    RunFive(s, VerifyOtp(u, guess), Proceed(|s.requests|, found), again, again, again);
    Idle(s, None);
    Idle(s, found);
  }

  /** A verification that nothing interrupts leaves what `Verified` says. */
  lemma VerifyAlone(s: State, u: UserId, guess: Secret, found: Option<nat>)
    requires Answers(s, u, found)
    ensures Run(s, VerifySchedule(s, u, guess, found)) == Verified(s, u, guess, found)
  {
    if !MaySignIn(s, u) {
      VerifyRefused(s, u, guess, found);
    } else if found.None? {
      VerifyNotFound(s, u, guess);
    } else {
      VerifyFound(s, u, guess, found.value);
    }
  }

  // ---- Issuing and resetting ----

  lemma IssueClears(s: State, u: UserId, hash: Digest, lifetime: int, purpose: Purpose)
    ensures Step(At(s, IssueDelete(u, hash, lifetime, purpose)), Proceed(|s.requests|, None))
         == At(s.(otps := Cleared(u, s.otps)), IssueCreate(u, hash, s.now + lifetime, purpose))
  {
  }

  lemma IssueStores(s: State, u: UserId, hash: Digest, expiresAt: int, purpose: Purpose)
    ensures Step(At(s, IssueCreate(u, hash, expiresAt, purpose)), Proceed(|s.requests|, None))
         == Finish(s.(otps := s.otps + [Otp(u, hash, expiresAt, 0, false, true, 0, |s.requests|, None, purpose)]))
  {
  }

  lemma IssuedIsStored(s: State, u: UserId, hash: Digest, lifetime: int, purpose: Purpose)
    requires MaySignIn(s, u)
    ensures var record := Otp(u, hash, s.now + lifetime, 0, false, true, 0, |s.requests|, None, purpose);
            var cleared := s.(otps := Cleared(u, s.otps));
            Finish(cleared.(otps := cleared.otps + [record])) == Issued(s, u, hash, lifetime, purpose)
  {
  }

  lemma IssueRest(s: State, u: UserId, hash: Digest, lifetime: int, purpose: Purpose)
    requires MaySignIn(s, u)
    ensures var again := Proceed(|s.requests|, None);
            Step(Step(At(s, IssueDelete(u, hash, lifetime, purpose)), again), again)
               == Issued(s, u, hash, lifetime, purpose)
  {
    IssueClears(s, u, hash, lifetime, purpose);
    IssueStores(s.(otps := Cleared(u, s.otps)), u, hash, s.now + lifetime, purpose);
    IssuedIsStored(s, u, hash, lifetime, purpose);
  }

  lemma RequestBegins(s: State, a: Action, next: Pc)
    requires PlanOf(s, a) == Begin(Read, next)
    ensures Step(s, a) == At(s, next)
  {
  }

  /** A login, resend or forgotten password that nothing interrupts replaces the user's records by one. */
  lemma IssueAlone(s: State, a: Action, u: UserId, hash: Digest, lifetime: int, purpose: Purpose)
    requires PlanOf(s, a) == Begin(Read, IssueDelete(u, hash, lifetime, purpose)) && MaySignIn(s, u)
    ensures Run(s, [a, Proceed(|s.requests|, None), Proceed(|s.requests|, None)]) == Issued(s, u, hash, lifetime, purpose)
  {
    RequestBegins(s, a, IssueDelete(u, hash, lifetime, purpose));
    RunThree(s, a, Proceed(|s.requests|, None), Proceed(|s.requests|, None));
    IssueRest(s, u, hash, lifetime, purpose);
  }

  /** A login alone: a wrong password, a missing or a blocked account change nothing. */
  lemma LoginAlone(s: State, u: UserId, password: Secret, code: nat)
    requires CodeInRange(code)
    ensures var valid := u in s.users && s.users[u].passwordHash == Some(Bcrypt(password));
            var a := Login(u, password, code);
            if valid && MaySignIn(s, u) then
              Run(s, [a, Proceed(|s.requests|, None), Proceed(|s.requests|, None)])
              == Issued(s, u, CodeHash(code), OTP_EXPIRY, LoginCode(code))
            else Run(s, [a]) == s
  {
    var a := Login(u, password, code);
    if MaySignIn(s, u) && s.users[u].passwordHash == Some(Bcrypt(password)) {
      IssueAlone(s, a, u, CodeHash(code), OTP_EXPIRY, LoginCode(code));
    } else {
      RunTwo(s, a, a);
    }
  }

  lemma ResetClaims(s: State, token: Secret, password: Secret, o: nat)
    requires LongEnough(token) && Redeems(s, token, o)
    ensures Step(s, ResetPassword(token, password, o))
         == At(WithOtp(s, o, ClaimOtp(o)), ResetWrite(s.otps[o].user, o, token, password))
  {
  }

  function Written(s: State, u: UserId, o: nat, token: Secret, password: Secret): State {
    s.(users := Repassworded(s.users, u, password), writes := s.writes + [Write(u, ByReset(o, token), |s.requests|)])
  }

  lemma ResetWrites(s: State, u: UserId, o: nat, token: Secret, password: Secret)
    ensures Step(At(s, ResetWrite(u, o, token, password)), Proceed(|s.requests|, None))
         == At(Written(s, u, o, token, password), ResetRevoke(u))
  {
  }

  lemma ResetRevokes(s: State, u: UserId)
    ensures Step(At(s, ResetRevoke(u)), Proceed(|s.requests|, None))
         == Finish(s.(sessions := Revoked(u, s.sessions, s.now)))
  {
  }

  lemma ResetRest(s: State, u: UserId, o: nat, token: Secret, password: Secret)
    ensures Step(Step(At(s, ResetWrite(u, o, token, password)), Proceed(|s.requests|, None)), Proceed(|s.requests|, None))
         == Finish(Written(s, u, o, token, password).(sessions := Revoked(u, s.sessions, s.now)))
  {
    ResetWrites(s, u, o, token, password);
    ResetRevokes(Written(s, u, o, token, password), u);
  }

  lemma ResetAmounts(s: State, token: Secret, password: Secret, o: nat)
    requires LongEnough(token) && Redeems(s, token, o)
    ensures var s1, u := WithOtp(s, o, ClaimOtp(o)), s.otps[o].user;
            Finish(Written(s1, u, o, token, password).(sessions := Revoked(u, s1.sessions, s1.now)))
            == Reset(s, token, password, o)
  {
  }

  /** A reset that nothing interrupts consumes its record, sets the password and revokes every session. */
  lemma ResetAlone(s: State, token: Secret, password: Secret, o: nat)
    requires LongEnough(token) && Redeems(s, token, o)
    ensures Run(s, [ResetPassword(token, password, o), Proceed(|s.requests|, None), Proceed(|s.requests|, None)])
         == Reset(s, token, password, o)
  {
    RunThree(s, ResetPassword(token, password, o), Proceed(|s.requests|, None), Proceed(|s.requests|, None));
    ResetClaims(s, token, password, o);
    ResetRest(WithOtp(s, o, ClaimOtp(o)), s.otps[o].user, o, token, password);
    ResetAmounts(s, token, password, o);
  }

  /** The invitation claimed by the request about to begin. */
  function InvitationTaken(s: State, i: nat): State
    requires i < |s.invitations|
  {
    s.(invitations := s.invitations[i := s.invitations[i].(status := Activated, claimant := Some(|s.requests|))])
  }

  lemma SetupClaims(s: State, token: Secret, password: Secret, i: nat)
    requires MaySetUp(s, token, i)
    ensures Step(s, SetupPassword(token, password, i))
         == At(InvitationTaken(s, i), SetupWrite(s.invitations[i].user, i, token, password))
  {
    var c := ClaimInvitation(i);
    assert CallOtps(s.otps, c, |s.requests|) == s.otps;
    assert CallSessions(s.sessions, c, |s.requests|, s.now) == s.sessions;
  }

  function Passworded(s: State, u: UserId, i: nat, token: Secret, password: Secret): State {
    s.(users := if u in s.users then
                  s.users[u := s.users[u].(passwordHash := Some(Bcrypt(password)), passwordSetupComplete := true)]
                else s.users,
       writes := s.writes + [Write(u, ByInvitation(i, token), |s.requests|)])
  }

  lemma SetupWrites(s: State, u: UserId, i: nat, token: Secret, password: Secret)
    ensures Step(At(s, SetupWrite(u, i, token, password)), Proceed(|s.requests|, None))
         == At(Passworded(s, u, i, token, password), SetupActivate(u, i, token, |s.writes|))
  {
    var c := WritePassword(u, password, true, ByInvitation(i, token));
    MoveOn(s, SetupWrite(u, i, token, password), SetupActivate(u, i, token, |s.writes|));
    assert CallOtps(s.otps, c, |s.requests|) == s.otps;
    assert CallSessions(s.sessions, c, |s.requests|, s.now) == s.sessions;
    assert CallInvitations(s.invitations, c, |s.requests|) == s.invitations;
  }

  lemma SetupActivates(s: State, u: UserId, i: nat, token: Secret, write: nat)
    ensures Step(At(s, SetupActivate(u, i, token, write)), Proceed(|s.requests|, None))
         == Finish(s.(users := SetActive(s.users, u),
                      activations := s.activations + [Activation(u, i, token, write, |s.requests|)]))
  {
    var c := ActivateInvited(u, i, token, write);
    MoveOn(s, SetupActivate(u, i, token, write), Done);
    assert CallOtps(s.otps, c, |s.requests|) == s.otps;
    assert CallSessions(s.sessions, c, |s.requests|, s.now) == s.sessions;
    assert CallInvitations(s.invitations, c, |s.requests|) == s.invitations;
  }

  lemma SetupRest(s: State, u: UserId, i: nat, token: Secret, password: Secret)
    ensures Step(Step(At(s, SetupWrite(u, i, token, password)), Proceed(|s.requests|, None)), Proceed(|s.requests|, None))
         == Finish(s.(users := Welcomed(s.users, u, password),
                      writes := s.writes + [Write(u, ByInvitation(i, token), |s.requests|)],
                      activations := s.activations + [Activation(u, i, token, |s.writes|, |s.requests|)]))
  {
    SetupWrites(s, u, i, token, password);
    SetupActivates(Passworded(s, u, i, token, password), u, i, token, |s.writes|);
    assert SetActive(Passworded(s, u, i, token, password).users, u) == Welcomed(s.users, u, password);
  }

  /** A password setup that nothing interrupts claims its invitation and leaves the account Active. */
  lemma SetupAlone(s: State, token: Secret, password: Secret, i: nat)
    requires MaySetUp(s, token, i)
    ensures Run(s, [SetupPassword(token, password, i), Proceed(|s.requests|, None), Proceed(|s.requests|, None)])
         == SetUp(s, token, password, i)
  {
    var u := s.invitations[i].user;
    RunThree(s, SetupPassword(token, password, i), Proceed(|s.requests|, None), Proceed(|s.requests|, None));
    SetupClaims(s, token, password, i);
    SetupRest(InvitationTaken(s, i), u, i, token, password);
  }

  lemma SocialOpens(s: State, u: UserId)
    ensures Step(At(s, SocialSession(u)), Proceed(|s.requests|, None)) == Admitted(s, u)
  {
    var c := AddSession(u, Social);
    MoveOn(s, SocialSession(u), Done);
    assert CallOtps(s.otps, c, |s.requests|) == s.otps;
    assert CallInvitations(s.invitations, c, |s.requests|) == s.invitations;
  }

  lemma SocialActivates(s: State, u: UserId)
    ensures Step(At(s, SocialActivate(u)), Proceed(|s.requests|, None))
         == At(s.(users := SetActive(s.users, u)), SocialSession(u))
  {
    var c := Activate(u);
    MoveOn(s, SocialActivate(u), SocialSession(u));
    assert CallOtps(s.otps, c, |s.requests|) == s.otps;
    assert CallSessions(s.sessions, c, |s.requests|, s.now) == s.sessions;
    assert CallInvitations(s.invitations, c, |s.requests|) == s.invitations;
  }

  /** Asking for more of a request that is finished, or never began, changes nothing. */
  lemma NothingMore(s: State, u: UserId)
    ensures Step(s, Proceed(|s.requests|, None)) == s
    ensures Step(Admitted(s, u), Proceed(|s.requests|, None)) == Admitted(s, u)
  {
  }

  /** What the first call of a Firebase login of an unknown account leaves. */
  function Created(s: State, u: UserId): State {
    s.(users := s.users[u := User(Invited, None, false)])
  }

  lemma FirebaseCreates(s: State, u: UserId)
    requires u !in s.users
    ensures Step(s, FirebaseLogin(u)) == At(Created(s, u), SocialActivate(u))
  {
    var c := PutAccount(u, Some(User(Invited, None, false)));
    assert CallOtps(s.otps, c, |s.requests|) == s.otps;
    assert CallSessions(s.sessions, c, |s.requests|, s.now) == s.sessions;
    assert CallInvitations(s.invitations, c, |s.requests|) == s.invitations;
  }

  lemma CreatedIsActive(s: State, u: UserId)
    ensures Created(s, u).(users := SetActive(Created(s, u).users, u))
         == s.(users := s.users[u := User(Active, None, false)])
  {
  }

  /** A social login that finds its account in order: one call opens the session, one more finds nothing to do. */
  lemma EnterAtOnce(s: State, u: UserId, a: Action)
    requires PlanOf(s, a) == Begin(Read, SocialSession(u))
    ensures Run(s, [a, Proceed(|s.requests|, None), Proceed(|s.requests|, None)]) == Admitted(s, u)
  {
    RunThree(s, a, Proceed(|s.requests|, None), Proceed(|s.requests|, None));
    RequestBegins(s, a, SocialSession(u));
    SocialOpens(s, u);
    NothingMore(s, u);
  }

  /** One that activates the account first. */
  lemma EnterActivated(s: State, u: UserId, a: Action, begun: State)
    requires Step(s, a) == At(begun, SocialActivate(u)) && |begun.requests| == |s.requests|
    ensures Run(s, [a, Proceed(|s.requests|, None), Proceed(|s.requests|, None)])
         == Admitted(begun.(users := SetActive(begun.users, u)), u)
  {
    RunThree(s, a, Proceed(|s.requests|, None), Proceed(|s.requests|, None));
    SocialActivates(begun, u);
    SocialOpens(begun.(users := SetActive(begun.users, u)), u);
  }

  lemma EnterRefused(s: State, u: UserId, a: Action)
    requires PlanOf(s, a).Refuse?
    ensures Run(s, [a, Proceed(|s.requests|, None), Proceed(|s.requests|, None)]) == s
  {
    RunThree(s, a, Proceed(|s.requests|, None), Proceed(|s.requests|, None));
    NothingMore(s, u);
  }

  /** A GitHub login that nothing interrupts. */
  lemma GithubAlone(s: State, u: UserId)
    ensures Run(s, [GithubLogin(u), Proceed(|s.requests|, None), Proceed(|s.requests|, None)]) == GithubEntered(s, u)
  {
    if !MaySignIn(s, u) || !s.users[u].passwordSetupComplete {
      EnterRefused(s, u, GithubLogin(u));
    } else if s.users[u].status == Invited {
      RequestBegins(s, GithubLogin(u), SocialActivate(u));
      EnterActivated(s, u, GithubLogin(u), s);
    } else {
      EnterAtOnce(s, u, GithubLogin(u));
    }
  }

  lemma FirebaseEntersNew(s: State, u: UserId)
    requires u !in s.users
    ensures Run(s, [FirebaseLogin(u), Proceed(|s.requests|, None), Proceed(|s.requests|, None)])
         == Admitted(s.(users := s.users[u := User(Active, None, false)]), u)
  {
    FirebaseCreates(s, u);
    EnterActivated(s, u, FirebaseLogin(u), Created(s, u));
    CreatedIsActive(s, u);
  }

  /** A Firebase login that nothing interrupts; for an unknown account it creates one. */
  lemma FirebaseAlone(s: State, u: UserId)
    ensures Run(s, [FirebaseLogin(u), Proceed(|s.requests|, None), Proceed(|s.requests|, None)]) == FirebaseEntered(s, u)
  {
    if u !in s.users {
      FirebaseEntersNew(s, u);
    } else if s.users[u].passwordSetupComplete {
      EnterAtOnce(s, u, FirebaseLogin(u));
    } else {
      EnterRefused(s, u, FirebaseLogin(u));
    }
  }

  lemma LogoutRevokes(s: State, u: UserId)
    ensures Step(s, Logout(u)) == s.(sessions := Revoked(u, s.sessions, s.now))
  {
    var c := RevokeSessions(u);
    assert CallOtps(s.otps, c, |s.requests|) == s.otps;
    assert CallSessions(s.sessions, c, |s.requests|, s.now) == Revoked(u, s.sessions, s.now);
    assert CallInvitations(s.invitations, c, |s.requests|) == s.invitations;
  }

  // ---- What was issued can be redeemed, once ----

  /** After an issue the new record is the one a query for the user's usable record returns. */
  lemma IssuedIsFound(s: State, u: UserId, hash: Digest, lifetime: int, purpose: Purpose)
    requires MaySignIn(s, u) && lifetime > 0
    ensures var s' := Issued(s, u, hash, lifetime, purpose);
            && Findable(s', u, |s.otps|)
            && forall o: nat :: Findable(s', u, o) ==> o == |s.otps|
  {
  }

  /** The code of a login opens a session that answers to its token, and no other code opens one. */
  lemma LoginThenVerify(s: State, u: UserId, code: nat, guess: Secret)
    requires MaySignIn(s, u)
    ensures var s1 := Issued(s, u, CodeHash(code), OTP_EXPIRY, LoginCode(code));
            var s2 := Verified(s1, u, guess, Some(|s.otps|));
            && Answers(s1, u, Some(|s.otps|))
            && (if guess == Typed(Decimal.ToString(code))
                then |s2.sessions| == |s.sessions| + 1
                     && Honours(s2, u, Some(s2.sessions[|s.sessions|].token), |s.sessions|)
                else s2.sessions == s.sessions)
  {
    IssuedIsFound(s, u, CodeHash(code), OTP_EXPIRY, LoginCode(code));
  }

  /** In a reachable state nobody has been sent the token a new request draws. */
  lemma TokenIsFresh(s: State, o: nat)
    requires AuthSafety.Facts(s) && o < |s.otps|
    ensures s.otps[o].hash != Sha256(Random(|s.requests|))
  {
    assert AuthSafety.OtpFact(s, s.otps[o]);
  }

  /** The token of a forgotten password sets the new one, locks every session out, and never works again. */
  lemma ForgotThenReset(s: State, u: UserId, password: Secret)
    requires AuthSafety.Facts(s) && MaySignIn(s, u)
    ensures var token := Random(|s.requests|);
            var s1 := Issued(s, u, Sha256(token), RESET_EXPIRY, ResetToken);
            var s2 := Reset(s1, token, password, |s.otps|);
            && TokenAnswers(s1, token, Some(|s.otps|))
            && u in s2.users && s2.users[u].passwordHash == Some(Bcrypt(password))
            && LockedOut(s2, u)
            && TokenAnswers(s2, token, None)
            && forall again: Secret, o: nat :: Reset(s2, token, again, o) == s2
  {
    var token := Random(|s.requests|);
    IssuedIsFound(s, u, Sha256(token), RESET_EXPIRY, ResetToken);
    var s2 := Reset(Issued(s, u, Sha256(token), RESET_EXPIRY, ResetToken), token, password, |s.otps|);
    forall o: nat ensures !Redeems(s2, token, o) {
      if o < |s.otps| {
        TokenIsFresh(s, o);
      }
    }
  }

  // ---- The service ----

  class AuthService {
    var now: int
    var users: map<UserId, User>
    var otps: seq<Otp>
    var sessions: seq<Session>
    var invitations: seq<Invitation>
    var requests: seq<Pc>
    var writes: seq<Write>
    var activations: seq<Activation>
    var accepted: seq<Acceptance>

    ghost function View(): State
      reads this
    {
      State(now, users, otps, sessions, invitations, requests, writes, activations, accepted)
    }

    constructor (now: int, users: map<UserId, User>)
      ensures View() == Start(now, users)
    {
      this.now, this.users := now, users;
      otps, sessions, invitations, requests := [], [], [], [];
      writes, activations, accepted := [], [], [];
    }

    /** verifyOtp */
    method Verify(u: UserId, guess: Secret, found: Option<nat>) returns (result: Result<Secret, Error>)
      requires Answers(View(), u, found)
      modifies this
      ensures View() == Verified(old(View()), u, guess, found)
      ensures result.Success? <==>
        && MaySignIn(old(View()), u) && found.Some?
        && old(otps)[found.value].attempts < 5 && old(otps)[found.value].hash == Bcrypt(guess)
      ensures result.Success? ==>
        var added := Session(u, result.value, now + SEVEN_DAYS, None, FromOtp(found.value, guess), |old(requests)|);
        sessions == old(sessions) + [added]
      ensures result.Failure? ==> sessions == old(sessions)
      ensures found.Some? && MaySignIn(old(View()), u) ==>
        var o := found.value;
        && |otps| == |old(otps)| && (forall i :: 0 <= i < |otps| && i != o ==> otps[i] == old(otps)[i])
        && (otps[o].used <==> result.Success? || old(otps)[o].attempts >= 5)
        && otps[o].attempts == old(otps)[o].attempts + if result.Failure? && old(otps)[o].attempts < 5 then 1 else 0
      ensures found.None? || !MaySignIn(old(View()), u) ==> otps == old(otps)
    {
      if u !in users || Blocked(users[u].status) {
        return Failure(Unauthorized);
      }
      var r := |requests|;
      requests := requests + [Done];
      if found.None? {
        return Failure(Unauthorized);
      }
      var o := found.value;
      var record := otps[o];
      if record.attempts >= OTP_MAX_ATTEMPTS {
        otps := otps[o := otps[o].(used := true)];
        return Failure(Unauthorized);
      }
      otps := otps[o := otps[o].(compared := otps[o].compared + 1)];
      if record.hash != Bcrypt(guess) {
        otps := otps[o := otps[o].(attempts := otps[o].attempts + 1)];
        return Failure(Unauthorized);
      }
      // alone, the compare-and-set on `used` cannot fail
      otps := otps[o := otps[o].(used := true, claimant := Some(r))];
      sessions := sessions + [Session(u, Random(r), now + WEEK, None, FromOtp(o, guess), r)];
      result := Success(Random(r));
    }

    /** The database calls login, resendOtp and forgotPassword share. */
    method Issue(u: UserId, hash: Digest, lifetime: int, purpose: Purpose)
      modifies this
      ensures View() == Issued(old(View()), u, hash, lifetime, purpose)
    {
      if u !in users || Blocked(users[u].status) {
        return;
      }
      var r := |requests|;
      requests := requests + [Done];
      otps := Cleared(u, otps);
      otps := otps + [Otp(u, hash, now + lifetime, 0, false, true, 0, r, None, purpose)];
    }

    method Login(u: UserId, password: Secret, code: nat) returns (result: Result<UserId, Error>)
      requires CodeInRange(code)
      modifies this
      ensures var s := old(View());
              var valid := u in s.users && s.users[u].passwordHash == Some(Bcrypt(password));
              && View() == (if valid then Issued(s, u, CodeHash(code), OTP_EXPIRY, LoginCode(code)) else s)
              && result == (if valid && MaySignIn(s, u) then Success(u) else Failure(Unauthorized))
              && (result.Success? ==>
                   && |otps| == |s.otps| + 1
                   && otps[|s.otps|].hash == Bcrypt(Typed(Decimal.ToString(code)))
                   && otps[|s.otps|].expiresAt == now + 5 * 60 * 1000
                   && (forall i: nat :: Fits(View(), u, i) <==> i == |s.otps|))
              && (result.Failure? ==> otps == s.otps)
    {
      if u !in users || users[u].passwordHash != Some(Bcrypt(password)) || Blocked(users[u].status) {
        return Failure(Unauthorized);
      }
      Issue(u, CodeHash(code), OTP_EXPIRY, LoginCode(code));
      result := Success(u);
    }

    /** Leaves one usable record: that of a token nobody was sent before, good for an hour. */
    method ForgotPassword(u: UserId)
      modifies this
      ensures var s, again := old(View()), Proceed(|old(requests)|, None);
              View() == Run(s, if MaySignIn(s, u) then [AuthMachine.ForgotPassword(u), again, again] else [])
      ensures var s, o, r := old(View()), |old(otps)|, |old(requests)|;
              MaySignIn(s, u) ==>
                && |otps| == o + 1
                && otps[o].hash == Sha256(Random(r)) && otps[o].expiresAt == now + 60 * 60 * 1000
                && (forall i: nat :: Fits(View(), u, i) <==> i == o)
                && (forall i :: 0 <= i < o && otps[i].user == u ==> !otps[i].live)
                && (forall i :: 0 <= i < o && otps[i].user != u ==> otps[i] == s.otps[i])
                && (AuthSafety.Facts(s) ==> forall i :: 0 <= i < o ==> otps[i].hash != otps[o].hash)
    {
      ghost var s := View();
      Issue(u, Sha256(Random(|requests|)), RESET_EXPIRY, ResetToken);
      if MaySignIn(s, u) {
        IssueAlone(s, AuthMachine.ForgotPassword(u), u, Sha256(Random(|s.requests|)), RESET_EXPIRY, ResetToken);
        IssuedIsFound(s, u, Sha256(Random(|s.requests|)), RESET_EXPIRY, ResetToken);
        if AuthSafety.Facts(s) {
          forall i | 0 <= i < |s.otps| ensures s.otps[i].hash != Sha256(Random(|s.requests|)) {
            TokenIsFresh(s, i);
          }
        }
      }
    }

    /** resetPassword; `found` is what the claiming query returns. */
    method ResetWithToken(token: Secret, password: Secret, found: Option<nat>) returns (result: Result<(), Error>)
      requires Sizeable(token) ==> TokenAnswers(View(), token, found)
      modifies this
      ensures View() == if found.Some? then Reset(old(View()), token, password, found.value) else old(View())
      ensures var s := old(View());
              && (result.Success? <==> Sizeable(token) && exists o: nat :: Redeems(s, token, o))
              && (result.Success? ==> found.Some?)
              && (result.Success? ==>
                   var u := s.otps[found.value].user;
                   && otps[found.value].used
                   && users == (if u in s.users then s.users[u := s.users[u].(passwordHash := Some(Bcrypt(password)))]
                                else s.users)
                   && (forall i :: 0 <= i < |sessions| && sessions[i].user == u ==> sessions[i].revokedAt.Some?))
              && (result.Failure? ==> View() == s)
    {
      if !LongEnough(token) || found.None? {
        return Failure(BadRequest);
      }
      var o := found.value;
      var r, u := |requests|, otps[o].user;
      requests := requests + [Done];
      otps := otps[o := otps[o].(used := true, claimant := Some(r))];
      users := Repassworded(users, u, password);
      writes := writes + [Write(u, ByReset(o, token), r)];
      sessions := Revoked(u, sessions, now);
      result := Success(());
    }

    /** setupPassword; `found` is what the claiming query returns. */
    method SetupWithToken(token: Secret, password: Secret, found: Option<nat>) returns (result: Result<(), Error>)
      requires Sizeable(token) ==> InvitationAnswers(View(), token, found)
      modifies this
      ensures View() == if found.Some? then SetUp(old(View()), token, password, found.value) else old(View())
      ensures var s := old(View());
              && (result.Success? <==> Sizeable(token) && exists i: nat :: Invites(s, token, i))
              && (result.Success? ==> found.Some? && invitations[found.value].status == Activated)
              && (result.Success? ==>
                   var u := s.invitations[found.value].user;
                   users == if u in s.users then s.users[u := User(Active, Some(Bcrypt(password)), true)] else s.users)
              && (result.Failure? ==> View() == s)
    {
      if !LongEnough(token) || found.None? {
        return Failure(BadRequest);
      }
      var i := found.value;
      var r, u, write := |requests|, invitations[i].user, |writes|;
      requests := requests + [Done];
      invitations := invitations[i := invitations[i].(status := Activated, claimant := Some(r))];
      if u in users {
        users := users[u := users[u].(passwordHash := Some(Bcrypt(password)), passwordSetupComplete := true)];
      }
      writes := writes + [Write(u, ByInvitation(i, token), r)];
      users := SetActive(users, u);
      activations := activations + [Activation(u, i, token, write, r)];
      result := Success(());
    }

    /** validateGithubUser: the token it hands out answers for the user, whose account may be pending. */
    method GithubSignIn(u: UserId) returns (result: Result<Secret, Error>)
      modifies this
      ensures View() == GithubEntered(old(View()), u)
      ensures result.Success? <==> MaySignIn(old(View()), u) && old(users)[u].passwordSetupComplete
      ensures sessions == if result.Failure? then old(sessions) else
        old(sessions) + [Session(u, result.value, now + SEVEN_DAYS, None, Social, |old(requests)|)]
      ensures users == if result.Success? && old(users)[u].status == Invited
                       then old(users)[u := old(users)[u].(status := Active)] else old(users)
    {
      if u !in users || Blocked(users[u].status) || !users[u].passwordSetupComplete {
        return Failure(Unauthorized);
      }
      if users[u].status == Invited {
        users := SetActive(users, u);
      }
      var r := |requests|;
      requests := requests + [Done];
      sessions := sessions + [Session(u, Random(r), now + WEEK, None, Social, r)];
      result := Success(Random(r));
    }

    /** firebaseLogin: whatever the account's status. */
    method FirebaseSignIn(u: UserId) returns (result: Result<Secret, Error>)
      modifies this
      ensures View() == FirebaseEntered(old(View()), u)
      ensures result.Success? <==> (u in old(users) ==> old(users)[u].passwordSetupComplete)
      ensures sessions == if result.Failure? then old(sessions) else
        old(sessions) + [Session(u, result.value, now + SEVEN_DAYS, None, Social, |old(requests)|)]
      ensures users == if u in old(users) then old(users) else old(users)[u := User(Active, None, false)]
    {
      if u in users && !users[u].passwordSetupComplete {
        return Failure(Unauthorized);
      }
      if u !in users {
        users := users[u := User(Invited, None, false)];
        users := SetActive(users, u);
      }
      var r := |requests|;
      requests := requests + [Done];
      sessions := sessions + [Session(u, Random(r), now + WEEK, None, Social, r)];
      result := Success(Random(r));
    }

    /** Locks the user out of every session; other users' sessions and earlier revocations stay as they are. */
    method LogoutUser(u: UserId)
      modifies this`sessions
      ensures View() == Step(old(View()), Logout(u))
      ensures LockedOut(View(), u)
      ensures |sessions| == |old(sessions)|
      ensures forall i :: 0 <= i < |sessions| && sessions[i].user == u ==> sessions[i].revokedAt.Some?
      ensures forall i :: 0 <= i < |sessions| ==> SessionLater(old(sessions)[i], sessions[i])
      ensures forall i :: 0 <= i < |sessions| && sessions[i].user != u ==> sessions[i] == old(sessions)[i]
    {
      LogoutRevokes(View(), u);
      sessions := Revoked(u, sessions, now);
    }
  }
}
