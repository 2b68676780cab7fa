/**
 What the operations promise, each run uninterrupted on the machine and described without its guards:
 who is sent what, how long it is good for, and what it then does.
 */
module AuthPromises {
  import opened Outcomes
  import Decimal
  import opened AuthMachine
  import opened AuthHistory
  import AuthSafety
  import Service = AuthService

  const SECOND: int := 1000
  const FIVE_MINUTES: int := 5 * 60 * SECOND
  const HOUR: int := 60 * 60 * SECOND
  const SEVEN_DAYS: int := 7 * 24 * HOUR

  function Wait(s: State, elapsed: nat): State {
    Step(s, Tick(elapsed))
  }

  lemma Waits(s: State, elapsed: nat)
    ensures Wait(s, elapsed) == s.(now := s.now + elapsed)
  {
    assert CallOtps(s.otps, AuthMachine.Wait(elapsed), |s.requests|) == s.otps;
    assert CallSessions(s.sessions, AuthMachine.Wait(elapsed), |s.requests|, s.now) == s.sessions;
    assert CallInvitations(s.invitations, AuthMachine.Wait(elapsed), |s.requests|) == s.invitations;
  }

  /** An action and the two further calls of the request it begins. */
  function Through(s: State, a: Action): State {
    Run(s, [a, Proceed(|s.requests|, None), Proceed(|s.requests|, None)])
  }

  /** Any other service puts the account in place, or deletes it, and touches nothing else. */
  lemma ChangeExact(s: State, u: UserId, to: Option<User>)
    ensures Step(s, ChangeAccount(u, to)) == s.(users := if to.Some? then s.users[u := to.value] else s.users - {u})
  {
    var c := PutAccount(u, to);
    assert CallOtps(s.otps, c, |s.requests|) == s.otps;
    assert CallSessions(s.sessions, c, |s.requests|, s.now) == s.sessions;
    assert CallInvitations(s.invitations, c, |s.requests|) == s.invitations;
  }

  /** The session that the next request opens, good for seven days. */
  function Opened(s: State, u: UserId, origin: Origin): Session {
    Session(u, Random(|s.requests|), s.now + SEVEN_DAYS, None, origin, |s.requests|)
  }

  // ---- Who is sent a code or a token ----

  lemma LoginBeginsExactly(s: State, u: UserId, password: Secret, code: nat)
    ensures Step(s, Login(u, password, code))
         == if Service.MaySignIn(s, u) && s.users[u].passwordHash == Some(Bcrypt(password)) && 100000 <= code < 1000000
            then Service.At(s, IssueDelete(u, Bcrypt(Typed(Decimal.ToString(code))), FIVE_MINUTES, LoginCode(code)))
            else s
  {
    if Service.MaySignIn(s, u) && s.users[u].passwordHash == Some(Bcrypt(password)) && 100000 <= code < 1000000 {
      Service.RequestBegins(s, Login(u, password, code),
                            IssueDelete(u, Bcrypt(Typed(Decimal.ToString(code))), FIVE_MINUTES, LoginCode(code)));
    }
  }

  lemma ResendBeginsExactly(s: State, u: UserId, code: nat)
    ensures Step(s, ResendOtp(u, code))
         == if Service.MaySignIn(s, u) && 100000 <= code < 1000000
            then Service.At(s, IssueDelete(u, Bcrypt(Typed(Decimal.ToString(code))), FIVE_MINUTES, ResentCode(code)))
            else s
  {
    if Service.MaySignIn(s, u) && 100000 <= code < 1000000 {
      Service.RequestBegins(s, ResendOtp(u, code),
                            IssueDelete(u, Bcrypt(Typed(Decimal.ToString(code))), FIVE_MINUTES, ResentCode(code)));
    }
  }

  lemma ForgotBeginsExactly(s: State, u: UserId)
    ensures Step(s, ForgotPassword(u))
         == if Service.MaySignIn(s, u)
            then Service.At(s, IssueDelete(u, Sha256(Random(|s.requests|)), HOUR, ResetToken))
            else s
  {
    if Service.MaySignIn(s, u) {
      Service.RequestBegins(s, ForgotPassword(u), IssueDelete(u, Sha256(Random(|s.requests|)), HOUR, ResetToken));
    }
  }

  // ---- A login code ----

  /** Action `a` sends the user these six digits. */
  predicate Sends(s: State, a: Action, u: UserId, code: nat) {
    && Service.MaySignIn(s, u) && 100000 <= code < 1000000
    && (a == ResendOtp(u, code)
        || (a.Login? && a.user == u && a.code == code && s.users[u].passwordHash == Some(Bcrypt(a.password))))
  }

  lemma CodeIsSent(s: State, a: Action, u: UserId, code: nat)
    requires Sends(s, a, u, code)
    ensures exists purpose ::
              Through(s, a) == Service.Issued(s, u, Bcrypt(Typed(Decimal.ToString(code))), FIVE_MINUTES, purpose)
  {
    var hash := Bcrypt(Typed(Decimal.ToString(code)));
    var purpose := if a.Login? then LoginCode(code) else ResentCode(code);
    Service.IssueAlone(s, a, u, hash, FIVE_MINUTES, purpose);
    assert Through(s, a) == Service.Issued(s, u, hash, FIVE_MINUTES, purpose);
  }

  /** Once `elapsed` has gone by since an issue, the record can be found while it is good, and no other can. */
  lemma FoundInTime(s: State, u: UserId, hash: Digest, lifetime: nat, purpose: Purpose, elapsed: nat)
    requires Service.MaySignIn(s, u)
    ensures var later := Wait(Service.Issued(s, u, hash, lifetime, purpose), elapsed);
            && later.sessions == s.sessions && later.users == s.users && later.now == s.now + elapsed
            && |later.otps| == |s.otps| + 1
            && later.otps[|s.otps|].hash == hash && later.otps[|s.otps|].attempts == 0 && later.otps[|s.otps|].user == u
            && forall k: nat :: Service.Fits(later, u, k) <==> k == |s.otps| && elapsed < lifetime
  {
    Waits(Service.Issued(s, u, hash, lifetime, purpose), elapsed);
  }

  /** What verifying this code leaves among the sessions. */
  function SessionsAfter(s: State, u: UserId, guess: Secret, found: Option<nat>): seq<Session> {
    Run(s, Service.VerifySchedule(s, u, guess, found)).sessions
  }

  lemma VerifyingGives(s: State, u: UserId, guess: Secret, found: Option<nat>)
    requires Service.Answers(s, u, found) && Service.MaySignIn(s, u)
    requires found.Some? ==> s.otps[found.value].attempts == 0
    ensures SessionsAfter(s, u, guess, found)
         == if found.Some? && s.otps[found.value].hash == Bcrypt(guess)
            then s.sessions + [Opened(s, u, FromOtp(found.value, guess))]
            else s.sessions
  {
    Service.VerifyAlone(s, u, guess, found);
  }

  lemma OneAnswer(s: State, u: UserId, found: Option<nat>)
    requires forall k: nat :: Service.Fits(s, u, k) <==> found == Some(k)
    ensures forall answer :: Service.Answers(s, u, answer) <==> answer == found
  {
  }

  lemma CodeInTime(s: State, u: UserId, code: nat, purpose: Purpose, elapsed: nat, guess: Secret)
    requires Service.MaySignIn(s, u)
    ensures var later := Wait(Service.Issued(s, u, Bcrypt(Typed(Decimal.ToString(code))), FIVE_MINUTES, purpose), elapsed);
            var o := |s.otps|;
            if elapsed < FIVE_MINUTES then
              && (forall found :: Service.Answers(later, u, found) <==> found == Some(o))
              && SessionsAfter(later, u, guess, Some(o))
                 == if guess == Typed(Decimal.ToString(code))
                    then s.sessions + [Session(u, Random(|later.requests|), s.now + elapsed + SEVEN_DAYS, None,
                                               FromOtp(o, guess), |later.requests|)]
                    else s.sessions
            else
              && (forall found :: Service.Answers(later, u, found) <==> found == None)
              && SessionsAfter(later, u, guess, None) == s.sessions
  {
    var hash := Bcrypt(Typed(Decimal.ToString(code)));
    var later := Wait(Service.Issued(s, u, hash, FIVE_MINUTES, purpose), elapsed);
    FoundInTime(s, u, hash, FIVE_MINUTES, purpose, elapsed);
    var found := if elapsed < FIVE_MINUTES then Some(|s.otps|) else None;
    OneAnswer(later, u, found);
    VerifyingGives(later, u, guess, found);
  }

  /**
   Whatever was sent before, for five minutes after a code is sent it opens a session, good for seven
   days, and no other entry does; from then on nothing opens one.
   */
  lemma CodeIsGoodForFiveMinutes(s: State, a: Action, u: UserId, code: nat, elapsed: nat, guess: Secret)
    requires Sends(s, a, u, code)
    ensures var later, o := Wait(Through(s, a), elapsed), |s.otps|;
            if elapsed < FIVE_MINUTES then
              && (forall found :: Service.Answers(later, u, found) <==> found == Some(o))
              && SessionsAfter(later, u, guess, Some(o))
                 == if guess == Typed(Decimal.ToString(code))
                    then s.sessions + [Session(u, Random(|later.requests|), s.now + elapsed + SEVEN_DAYS, None,
                                               FromOtp(o, guess), |later.requests|)]
                    else s.sessions
            else
              && (forall found :: Service.Answers(later, u, found) <==> found == None)
              && SessionsAfter(later, u, guess, None) == s.sessions
  {
    CodeIsSent(s, a, u, code);
    var hash := Bcrypt(Typed(Decimal.ToString(code)));
    var purpose :| Through(s, a) == Service.Issued(s, u, hash, FIVE_MINUTES, purpose);
    CodeInTime(s, u, code, purpose, elapsed, guess);
  }

  // ---- Every verification ----

  /** One record changed, and only in whether it is used and in its attempts. */
  predicate OnlyJudged(before: seq<Otp>, after: seq<Otp>, o: nat, used: bool, attempts: nat) {
    && o < |before| == |after|
    && (forall i :: 0 <= i < |before| && i != o ==> after[i] == before[i])
    && after[o].used == used && after[o].attempts == attempts
    && after[o].live == before[o].live && after[o].user == before[o].user
    && after[o].hash == before[o].hash && after[o].expiresAt == before[o].expiresAt
  }

  lemma JudgedExact(s: State, u: UserId, guess: Secret, o: nat)
    requires Service.Fits(s, u, o) && Service.MaySignIn(s, u)
    ensures var s', n := Service.Verified(s, u, guess, Some(o)), s.otps[o].attempts;
            var right := n < 5 && s.otps[o].hash == Bcrypt(guess);
            && OnlyJudged(s.otps, s'.otps, o, right || n >= 5, if right || n >= 5 then n else n + 1)
            && s'.sessions == if right
                 then s.sessions + [Opened(s, u, FromOtp(o, guess))]
                 else s.sessions
  {
  }

  /**
   A verification leaves alone an account that may not sign in, and a record it does not find. Of a
   record that has five misses it does no more than use it up; a wrong entry costs one attempt; the
   right one uses the record up and opens a session. Nothing else in the collections changes.
   */
  lemma VerifyExact(s: State, u: UserId, guess: Secret, found: Option<nat>)
    requires Service.Answers(s, u, found)
    ensures var s' := Run(s, Service.VerifySchedule(s, u, guess, found));
            && s'.users == s.users && s'.invitations == s.invitations && s'.writes == s.writes
            && if !Service.MaySignIn(s, u) || found.None? then s'.otps == s.otps && s'.sessions == s.sessions
               else
                 var o, n := found.value, s.otps[found.value].attempts;
                 var right := n < 5 && s.otps[o].hash == Bcrypt(guess);
                 && OnlyJudged(s.otps, s'.otps, o, right || n >= 5, if right || n >= 5 then n else n + 1)
                 && s'.sessions == if right
                      then s.sessions + [Opened(s, u, FromOtp(o, guess))]
                      else s.sessions
  {
    Service.VerifyAlone(s, u, guess, found);
    if Service.MaySignIn(s, u) && found.Some? {
      JudgedExact(s, u, guess, found.value);
    }
  }

  lemma DroppingPlans(s: State, a: Action)
    ensures var p := PlanOf(s, a);
            && (!p.Refuse? && p.call.DropOtp? ==> p.call.otp < |s.otps| && s.otps[p.call.otp].expiresAt <= s.now)
            && (!p.Refuse? && !p.Continue? ==> !p.call.ClearOtps?)
  {
  }

  /** A stored code or token goes only when it has expired, or when its user is sent another. */
  lemma RecordsGoOnlySo(s: State, a: Action, o: nat)
    requires o < |s.otps| && s.otps[o].live
    requires o < |Step(s, a).otps| && !Step(s, a).otps[o].live
    ensures s.otps[o].expiresAt <= s.now
            || (a.Proceed? && a.request < |s.requests| && s.requests[a.request].IssueDelete?
                && s.requests[a.request].user == s.otps[o].user)
  {
    var p := PlanOf(s, a);
    if p.Continue? {
      assert p.call == ClearOtps(s.otps[o].user);
    } else {
      DroppingPlans(s, a);
    }
  }

  /** An expired record can go, and alone; one that is not expired cannot. */
  lemma ExpiryExact(s: State, o: nat)
    ensures var s' := Step(s, ExpireOtp(o));
            if o < |s.otps| && s.otps[o].expiresAt <= s.now
            then s' == s.(otps := s.otps[o := s.otps[o].(live := false)]) else s' == s
  {
    var c := DropOtp(o);
    if o < |s.otps| {
      assert CallOtps(s.otps, c, |s.requests|) == s.otps[o := s.otps[o].(live := false)];
      assert CallSessions(s.sessions, c, |s.requests|, s.now) == s.sessions;
      assert CallInvitations(s.invitations, c, |s.requests|) == s.invitations;
    }
  }

  lemma CallsMissDeleted(o: nat, record: Otp, c: Call, caller: nat)
    requires !record.live && (c.ClaimOtp? ==> c.otp != o)
    ensures CallOtp(o, record, c, caller) == record.(compared := CallOtp(o, record, c, caller).compared)
  {
  }

  /** No later call finds a deleted record: what it says about attempts and use stays as it was. */
  lemma DeletedStays(s: State, a: Action, o: nat)
    requires o < |s.otps| && !s.otps[o].live
    ensures var s' := Step(s, a);
            o < |s'.otps| && s'.otps[o] == s.otps[o].(compared := s'.otps[o].compared)
  {
    var p := PlanOf(s, a);
    PlansAreLawful(s, a);
    if !p.Refuse? {
      CallsMissDeleted(o, s.otps[o], p.call, if p.Continue? then p.request else |s.requests|);
    }
  }

  // ---- A forgotten password ----

  function ResetRun(s: State, token: Secret, password: Secret, o: nat): State {
    Through(s, ResetPassword(token, password, o))
  }

  lemma ResetGives(s: State, token: Secret, password: Secret, o: nat)
    ensures ResetRun(s, token, password, o) == Service.Reset(s, token, password, o)
  {
    if LongEnough(token) && Service.Redeems(s, token, o) {
      Service.ResetAlone(s, token, password, o);
    } else {
      Service.EnterRefused(s, 0, ResetPassword(token, password, o));
    }
  }

  /** A reset with no usable record of the token, or with a short one that was typed, does nothing. */
  lemma ResetRefusedExactly(s: State, token: Secret, password: Secret, o: nat)
    ensures ResetRun(s, token, password, o) == s <==> !(Service.Sizeable(token) && Service.Redeems(s, token, o))
  {
    ResetGives(s, token, password, o);
  }

  /** The user's sessions revoked now, everything else about sessions unchanged. */
  predicate AllRevoked(before: seq<Session>, after: seq<Session>, u: UserId, now: int) {
    && |after| == |before|
    && forall i :: 0 <= i < |before| ==>
         after[i] == if before[i].user == u && before[i].revokedAt.None?
                     then before[i].(revokedAt := Some(now)) else before[i]
  }

  lemma OnlyNewRecordMatches(s: State, u: UserId, token: Secret, later: State)
    requires AuthSafety.Facts(s) && token == Random(|s.requests|)
    requires |later.otps| == |s.otps| + 1 && forall o :: 0 <= o < |s.otps| ==> later.otps[o].hash == s.otps[o].hash
    ensures forall o: nat :: o < |s.otps| ==> later.otps[o].hash != Sha256(token)
  {
    forall o: nat | o < |s.otps| ensures later.otps[o].hash != Sha256(token) {
      Service.TokenIsFresh(s, o);
    }
  }

  /** `elapsed` after the forgotten password no record but the new one has the token, and that only in time. */
  lemma TokenInTime(s: State, u: UserId, elapsed: nat)
    requires AuthSafety.Facts(s) && Service.MaySignIn(s, u)
    ensures var token := Random(|s.requests|);
            var later := Wait(Through(s, ForgotPassword(u)), elapsed);
            && later.users == s.users && later.sessions == s.sessions && later.now == s.now + elapsed
            && |later.otps| == |s.otps| + 1 && later.otps[|s.otps|].user == u
            && forall o: nat :: Service.Redeems(later, token, o) <==> o == |s.otps| && elapsed < HOUR
  {
    var token := Random(|s.requests|);
    Service.IssueAlone(s, ForgotPassword(u), u, Sha256(token), HOUR, ResetToken);
    var later := Wait(Service.Issued(s, u, Sha256(token), HOUR, ResetToken), elapsed);
    FoundInTime(s, u, Sha256(token), HOUR, ResetToken, elapsed);
    Waits(Service.Issued(s, u, Sha256(token), HOUR, ResetToken), elapsed);
    OnlyNewRecordMatches(s, u, token, later);
    assert Service.Fits(later, u, |s.otps|) <==> elapsed < HOUR;
  }

  /** A reset of the only record the token redeems; nothing redeems it any more. */
  lemma ResetOnce(s: State, u: UserId, token: Secret, password: Secret, o: nat)
    requires u in s.users && o < |s.otps| && s.otps[o].user == u && token.Random?
    requires forall k: nat :: Service.Redeems(s, token, k) <==> k == o
    ensures var done := ResetRun(s, token, password, o);
            && done.users == s.users[u := s.users[u].(passwordHash := Some(Bcrypt(password)))]
            && AllRevoked(s.sessions, done.sessions, u, s.now)
            && forall k: nat :: !Service.Redeems(done, token, k)
  {
    ResetGives(s, token, password, o);
    var done := ResetRun(s, token, password, o);
    assert Service.Redeems(s, token, o);
    forall k: nat ensures !Service.Redeems(done, token, k) {
      assert k != o ==> !Service.Redeems(s, token, k);
    }
  }

  lemma NothingToReset(s: State, token: Secret)
    requires forall o: nat :: !Service.Redeems(s, token, o)
    ensures forall password: Secret, o: nat :: ResetRun(s, token, password, o) == s
  {
    forall password: Secret, o: nat ensures ResetRun(s, token, password, o) == s {
      ResetRefusedExactly(s, token, password, o);
    }
  }

  /**
   For an hour after a forgotten password its token sets a new one, and nothing else about any account,
   and revokes all the user's sessions; then, and after that hour, it does nothing, whatever record is tried.
   */
  lemma TokenIsGoodForAnHour(s: State, u: UserId, elapsed: nat, password: Secret)
    requires AuthSafety.Facts(s) && Service.MaySignIn(s, u)
    ensures var token := Random(|s.requests|);
            var later := Wait(Through(s, ForgotPassword(u)), elapsed);
            var done := ResetRun(later, token, password, |s.otps|);
            if elapsed < HOUR then
              && done.users == s.users[u := s.users[u].(passwordHash := Some(Bcrypt(password)))]
              && AllRevoked(s.sessions, done.sessions, u, s.now + elapsed)
              && forall again: Secret, o: nat :: ResetRun(done, token, again, o) == done
            else forall o: nat :: ResetRun(later, token, password, o) == later
  {
    var token, later := Random(|s.requests|), Wait(Through(s, ForgotPassword(u)), elapsed);
    TokenInTime(s, u, elapsed);
    if elapsed < HOUR {
      ResetOnce(later, u, token, password, |s.otps|);
      NothingToReset(ResetRun(later, token, password, |s.otps|), token);
    } else {
      NothingToReset(later, token);
    }
  }

  // ---- An invitation ----

  function InviteRun(s: State, u: UserId): State {
    Step(Step(s, CreateInvitation(u)), Proceed(|s.requests|, None))
  }

  /** The user's earlier invitations deleted, one added. */
  predicate OneInvitation(before: seq<Invitation>, after: seq<Invitation>, u: UserId, token: Secret, expiresAt: int) {
    && |after| == |before| + 1
    && (forall i :: 0 <= i < |before| ==>
          after[i] == if before[i].user == u then before[i].(live := false) else before[i])
    && var v := after[|before|];
       v.user == u && v.tokenHash == Sha256(token) && v.status == Sent && v.live && v.expiresAt == expiresAt
  }

  /** The user's invitations deleted. */
  function Withdrawn(u: UserId, all: seq<Invitation>): (r: seq<Invitation>)
    ensures |r| == |all|
    ensures forall i :: 0 <= i < |all| ==> r[i] == if all[i].user == u then all[i].(live := false) else all[i]
  {
    seq(|all|, i requires 0 <= i < |all| => if all[i].user == u then all[i].(live := false) else all[i])
  }

  lemma InviteClears(s: State, u: UserId)
    ensures Step(s, CreateInvitation(u))
         == Service.At(s.(invitations := Withdrawn(u, s.invitations)), InviteCreate(u, s.now + SEVEN_DAYS))
  {
    var c := ClearInvitations(u);
    assert CallOtps(s.otps, c, |s.requests|) == s.otps;
    assert CallSessions(s.sessions, c, |s.requests|, s.now) == s.sessions;
    assert CallInvitations(s.invitations, c, |s.requests|) == Withdrawn(u, s.invitations);
  }

  function Inviting(s: State, u: UserId, expiresAt: int): State {
    var v := Invitation(u, Sha256(Random(|s.requests|)), Sent, expiresAt, true, |s.requests|, None);
    Service.Finish(s.(invitations := s.invitations + [v]))
  }

  lemma InviteStores(s: State, u: UserId, expiresAt: int)
    ensures Step(Service.At(s, InviteCreate(u, expiresAt)), Proceed(|s.requests|, None)) == Inviting(s, u, expiresAt)
  {
    var c := AddInvitation(u, expiresAt);
    Service.MoveOn(s, InviteCreate(u, expiresAt), Done);
    assert CallOtps(s.otps, c, |s.requests|) == s.otps;
    assert CallSessions(s.sessions, c, |s.requests|, s.now) == s.sessions;
  }

  lemma InviteLeaves(s: State, u: UserId)
    ensures InviteRun(s, u) == Inviting(s.(invitations := Withdrawn(u, s.invitations)), u, s.now + SEVEN_DAYS)
  {
    InviteClears(s, u);
    InviteStores(s.(invitations := Withdrawn(u, s.invitations)), u, s.now + SEVEN_DAYS);
  }

  lemma InviteGives(s: State, u: UserId)
    ensures var s1 := InviteRun(s, u);
            && s1 == Service.Finish(s).(invitations := s1.invitations)
            && OneInvitation(s.invitations, s1.invitations, u, Random(|s.requests|), s.now + SEVEN_DAYS)
  {
    InviteLeaves(s, u);
  }

  function SetupRun(s: State, token: Secret, password: Secret, i: nat): State {
    Through(s, SetupPassword(token, password, i))
  }

  lemma SetupGives(s: State, token: Secret, password: Secret, i: nat)
    ensures SetupRun(s, token, password, i) == Service.SetUp(s, token, password, i)
  {
    if LongEnough(token) && Service.Invites(s, token, i) {
      Service.SetupAlone(s, token, password, i);
    } else {
      Service.EnterRefused(s, 0, SetupPassword(token, password, i));
    }
  }

  /** A setup with no open invitation of the token, or with a short one that was typed, does nothing. */
  lemma SetupRefusedExactly(s: State, token: Secret, password: Secret, i: nat)
    ensures SetupRun(s, token, password, i) == s <==> !(Service.Sizeable(token) && Service.Invites(s, token, i))
  {
    SetupGives(s, token, password, i);
  }

  lemma InvitationTokenIsFresh(s: State, i: nat)
    requires AuthSafety.Facts(s) && i < |s.invitations|
    ensures s.invitations[i].tokenHash != Sha256(Random(|s.requests|))
  {
    assert AuthSafety.InvitationFact(s, s.invitations[i]);
  }

  /** After an invitation no earlier one of the user is open, and its own token opens it for seven days. */
  lemma OpenInTime(s: State, u: UserId, elapsed: nat)
    requires AuthSafety.Facts(s)
    ensures var token, later := Random(|s.requests|), Wait(InviteRun(s, u), elapsed);
            && later.users == s.users && later.sessions == s.sessions
            && |later.invitations| == |s.invitations| + 1 && later.invitations[|s.invitations|].user == u
            && (forall i: nat :: Service.Invites(later, token, i) <==> i == |s.invitations| && elapsed < SEVEN_DAYS)
            && (forall i: nat, other: Secret :: i < |s.invitations| && s.invitations[i].user == u ==>
                  !Service.Invites(later, other, i))
  {
    InviteGives(s, u);
    Waits(InviteRun(s, u), elapsed);
    forall i: nat | i < |s.invitations| ensures s.invitations[i].tokenHash != Sha256(Random(|s.requests|)) {
      InvitationTokenIsFresh(s, i);
    }
  }

  /**
   For seven days after an existing user is invited the token sets the password and makes the account
   Active, and touches no other; then, and after those days, it does nothing, and earlier invitations of
   the user do nothing from the start.
   */
  lemma InviteThenSetup(s: State, u: UserId, elapsed: nat, password: Secret)
    requires AuthSafety.Facts(s) && u in s.users
    ensures var token, later := Random(|s.requests|), Wait(InviteRun(s, u), elapsed);
            var done := SetupRun(later, token, password, |s.invitations|);
            && (forall i: nat, other: Secret :: i < |s.invitations| && s.invitations[i].user == u ==>
                  SetupRun(later, other, password, i) == later)
            && if elapsed < SEVEN_DAYS then
                 && done.users == s.users[u := User(Active, Some(Bcrypt(password)), true)]
                 && done.sessions == s.sessions
                 && forall again: Secret, i: nat :: SetupRun(done, token, again, i) == done
               else forall i: nat :: SetupRun(later, token, password, i) == later
  {
    var token, later := Random(|s.requests|), Wait(InviteRun(s, u), elapsed);
    OpenInTime(s, u, elapsed);
    SetupGives(later, token, password, |s.invitations|);
    var done := SetupRun(later, token, password, |s.invitations|);
    forall i: nat, other: Secret | i < |s.invitations| && s.invitations[i].user == u
      ensures SetupRun(later, other, password, i) == later
    {
      SetupRefusedExactly(later, other, password, i);
    }
    if elapsed < SEVEN_DAYS {
      forall again: Secret, i: nat ensures SetupRun(done, token, again, i) == done {
        SetupRefusedExactly(done, token, again, i);
        assert i != |s.invitations| ==> !Service.Invites(later, token, i);
      }
    } else {
      forall i: nat ensures SetupRun(later, token, password, i) == later {
        SetupRefusedExactly(later, token, password, i);
      }
    }
  }

  // ---- Social logins ----

  lemma GithubExact(s: State, u: UserId)
    ensures var done := Through(s, GithubLogin(u));
            if Service.MaySignIn(s, u) && s.users[u].passwordSetupComplete then
              && done.sessions == s.sessions + [Opened(s, u, Social)]
              && var status := s.users[u].status;
                 done.users == s.users[u := s.users[u].(status := if status == Invited then Active else status)]
            else done == s
  {
    Service.GithubAlone(s, u);
  }

  lemma FirebaseExact(s: State, u: UserId)
    ensures var done := Through(s, FirebaseLogin(u));
            if u !in s.users then
              done.users == s.users[u := User(Active, None, false)] && done.sessions == s.sessions + [Opened(s, u, Social)]
            else if s.users[u].passwordSetupComplete then
              done.users == s.users && done.sessions == s.sessions + [Opened(s, u, Social)]
            else done == s
  {
    Service.FirebaseAlone(s, u);
  }

  lemma LogoutExact(s: State, u: UserId)
    ensures var done := Step(s, Logout(u));
            AllRevoked(s.sessions, done.sessions, u, s.now) && done == s.(sessions := done.sessions)
  {
    Service.LogoutRevokes(s, u);
  }

  // ---- Every request ----

  /** The session is the user's, neither revoked nor expired, and of the token if one is presented. */
  predicate Answers(s: State, u: UserId, presented: Option<Secret>, i: nat) {
    && i < |s.sessions| && s.sessions[i].user == u
    && s.sessions[i].revokedAt.None? && s.now < s.sessions[i].expiresAt
    && (presented.Some? ==> s.sessions[i].token == presented.value)
  }

  predicate Standing(s: State, u: UserId) {
    u in s.users && (s.users[u].status == Active || s.users[u].status == Invited)
  }

  lemma ValidationBegins(s: State, u: UserId, presented: Option<Secret>)
    ensures Step(s, Validate(u, presented))
         == if Standing(s, u) then Service.At(s, ValidateFind(u, presented)) else s
  {
    if Standing(s, u) {
      Service.RequestBegins(s, Validate(u, presented), ValidateFind(u, presented));
    }
  }

  lemma ValidationFinds(s: State, u: UserId, presented: Option<Secret>, i: nat)
    requires Answers(s, u, presented, i)
    ensures Step(Service.At(s, ValidateFind(u, presented)), Proceed(|s.requests|, Some(i)))
         == Service.Finish(s).(accepted := s.accepted + [Acceptance(u, presented, i, s.now)])
  {
    var c := Accept(u, presented, i);
    Service.MoveOn(s, ValidateFind(u, presented), Done);
    assert CallOtps(s.otps, c, |s.requests|) == s.otps;
    assert CallSessions(s.sessions, c, |s.requests|, s.now) == s.sessions;
    assert CallInvitations(s.invitations, c, |s.requests|) == s.invitations;
  }

  lemma ValidationFindsNothing(s: State, u: UserId, presented: Option<Secret>)
    requires forall i: nat :: !Answers(s, u, presented, i)
    ensures Step(Service.At(s, ValidateFind(u, presented)), Proceed(|s.requests|, None)) == Service.Finish(s)
  {
    var s1 := Service.At(s, ValidateFind(u, presented));
    Service.MoveOn(s, ValidateFind(u, presented), Done);
    assert forall i: nat :: Honours(s1, u, presented, i) <==> Answers(s, u, presented, i);
    Service.Untouched(s1, Read, |s.requests|, Service.Finish(s).requests);
  }

  /**
   A request is accepted exactly when its account is Active or Invited and some session answers; it
   changes nothing but the log.
   */
  lemma ValidationExact(s: State, u: UserId, presented: Option<Secret>, found: Option<nat>)
    requires if found.Some? then Answers(s, u, presented, found.value) else forall i: nat :: !Answers(s, u, presented, i)
    ensures var done := Run(s, [Validate(u, presented), Proceed(|s.requests|, found)]);
            && done.accepted == (if Standing(s, u) && found.Some?
                                 then s.accepted + [Acceptance(u, presented, found.value, s.now)] else s.accepted)
            && done == s.(accepted := done.accepted, requests := done.requests)
  {
    Service.RunTwo(s, Validate(u, presented), Proceed(|s.requests|, found));
    ValidationBegins(s, u, presented);
    if Standing(s, u) {
      if found.Some? {
        ValidationFinds(s, u, presented, found.value);
      } else {
        ValidationFindsNothing(s, u, presented);
      }
    } else {
      Service.Idle(s, found);
    }
  }

  /** What the query for a session may return: one that answers, or nothing when none does. */
  ghost predicate SessionAnswers(s: State, u: UserId, presented: Option<Secret>, found: Option<nat>) {
    if found.Some? then Answers(s, u, presented, found.value) else forall i: nat :: !Answers(s, u, presented, i)
  }

  lemma ReadMoves(s: State, r: nat, next: Pc)
    requires r < |s.requests| && s.requests[r] != next
    ensures Perform(s, Read, r, s.requests[r := next]) != s
  {
    assert s.requests[r := next][r] == next;
  }

  /** A verification goes on exactly with what the query may return: a usable record, or nothing if there is none. */
  lemma CodeQueryIsHonest(s: State, r: nat, u: UserId, guess: Secret, found: Option<nat>)
    requires r < |s.requests| && s.requests[r] == VerifyFind(u, guess)
    ensures Step(s, Proceed(r, found)) != s <==> Service.Answers(s, u, found)
  {
    assert forall o: nat :: Findable(s, u, o) <==> Service.Fits(s, u, o);
    var p := Resume(s, r, found);
    if p.Continue? {
      ReadMoves(s, r, p.next);
    }
  }

  /** So does a validation. */
  lemma SessionQueryIsHonest(s: State, r: nat, u: UserId, presented: Option<Secret>, found: Option<nat>)
    requires r < |s.requests| && s.requests[r] == ValidateFind(u, presented)
    ensures Step(s, Proceed(r, found)) != s <==> SessionAnswers(s, u, presented, found)
  {
    assert forall i: nat :: Honours(s, u, presented, i) <==> Answers(s, u, presented, i);
    var s' := Step(s, Proceed(r, found));
    if Resume(s, r, found).Continue? {
      assert s'.requests[r] == Done;
    }
  }
}
