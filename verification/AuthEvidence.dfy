/** What must have happened in a run for a stored entry to be there: the action behind it, and the state it met. */
module AuthEvidence {
  import opened Outcomes
  import opened AuthMachine
  import opened AuthHistory
  import opened AuthSafety

  datatype Evidence =
    | Issue(request: nat, user: UserId, purpose: Purpose)
    | CodeRead(request: nat, user: UserId, guess: Secret, otp: nat)
    | ResetClaim(request: nat, user: UserId, otp: nat, token: Secret)
    | InvitationClaim(request: nat, user: UserId, invitation: nat, token: Secret)
    | Answer(index: nat, acceptance: Acceptance)

  /** The action that issues for this purpose. */
  predicate Issues(a: Action, u: UserId, purpose: Purpose) {
    match purpose
    case LoginCode(code) => a.Login? && a.user == u && a.code == code
    case ResentCode(code) => a == ResendOtp(u, code)
    case ResetToken => a == ForgotPassword(u)
  }

  predicate Unexpired(s: State, o: nat) {
    o < |s.otps| && s.otps[o].live && !s.otps[o].used && s.now < s.otps[o].expiresAt
  }

  /**
   Action `a`, taken in state `s`, is that evidence: the issue began; the query returned a record that
   was live, unused, unexpired, below the limit and of the code entered; the reset record or invitation
   was claimed live, unclaimed and unexpired; the session answered, neither revoked nor expired.
   */
  ghost predicate Shows(s: State, a: Action, e: Evidence) {
    match e
    case Issue(r, u, purpose) => |s.requests| == r && Issues(a, u, purpose)
    case CodeRead(r, u, guess, o) =>
      && a == Proceed(r, Some(o)) && r < |s.requests| && s.requests[r] == VerifyFind(u, guess)
      && Unexpired(s, o) && s.otps[o].user == u
      && s.otps[o].attempts < OTP_MAX_ATTEMPTS && s.otps[o].hash == Bcrypt(guess)
    case ResetClaim(r, u, o, token) =>
      && |s.requests| == r && a.ResetPassword? && a.token == token && a.otp == o
      && Unexpired(s, o) && s.otps[o].user == u && s.otps[o].hash == Sha256(token)
    case InvitationClaim(r, u, i, token) =>
      && |s.requests| == r && a.SetupPassword? && a.token == token && a.invitation == i
      && i < |s.invitations| && s.invitations[i].live && s.invitations[i].status == Sent
      && s.now < s.invitations[i].expiresAt
      && s.invitations[i].user == u && s.invitations[i].tokenHash == Sha256(token)
    case Answer(k, x) =>
      && |s.accepted| == k && s.now == x.at
      && x.session < |s.sessions| && s.sessions[x.session].user == x.user
      && s.sessions[x.session].revokedAt.None? && s.now < s.sessions[x.session].expiresAt
      && (x.presented.Some? ==> s.sessions[x.session].token == x.presented.value)
  }

  // ---- Somewhere in a run ----

  ghost predicate ShownAt(start: State, actions: seq<Action>, n: nat, e: Evidence) {
    n < |actions| && Shows(Run(start, actions[..n]), actions[n], e)
  }

  ghost predicate Happened(start: State, actions: seq<Action>, e: Evidence) {
    exists n: nat :: ShownAt(start, actions, n, e)
  }

  lemma HappenedBefore(start: State, before: seq<Action>, a: Action, e: Evidence)
    requires Happened(start, before, e)
    ensures Happened(start, before + [a], e)
  {
    var n: nat :| ShownAt(start, before, n, e);
    assert (before + [a])[..n] == before[..n];
    assert ShownAt(start, before + [a], n, e);
  }

  lemma HappensNow(start: State, before: seq<Action>, a: Action, e: Evidence)
    requires Shows(Run(start, before), a, e)
    ensures Happened(start, before + [a], e)
  {
    assert (before + [a])[..|before|] == before;
    assert ShownAt(start, before + [a], |before|, e);
  }

  // ---- Requests in flight ----

  /** What request `r` rests on where it stands. */
  function RestsOn(pc: Pc, r: nat): Option<Evidence> {
    match pc
    case IssueDelete(u, _, _, purpose) => Some(Issue(r, u, purpose))
    case IssueCreate(u, _, _, purpose) => Some(Issue(r, u, purpose))
    case VerifyCheck(u, guess, o, hash, attempts) =>
      if attempts < OTP_MAX_ATTEMPTS && hash == Bcrypt(guess) then Some(CodeRead(r, u, guess, o)) else None
    case VerifyMatch(u, guess, o) => Some(CodeRead(r, u, guess, o))
    case VerifySession(u, guess, o) => Some(CodeRead(r, u, guess, o))
    case ResetWrite(u, o, token, _) => Some(ResetClaim(r, u, o, token))
    case SetupWrite(u, i, token, _) => Some(InvitationClaim(r, u, i, token))
    case _ => None
  }

  lemma StartedRests(s: State, a: Action)
    requires PlanOf(s, a).Begin?
    ensures var e := RestsOn(PlanOf(s, a).next, |s.requests|);
            e.Some? ==> Shows(s, a, e.value)
  {
  }

  lemma ResumedRests(s: State, r: nat, found: Option<nat>)
    requires r < |s.requests| && Resume(s, r, found).Continue?
    ensures var e := RestsOn(Resume(s, r, found).next, r);
            e.Some? ==> RestsOn(s.requests[r], r) == e || Shows(s, Proceed(r, found), e.value)
  {
  }

  lemma RestsGoOn(s: State, a: Action, r: nat)
    requires r < |Step(s, a).requests| && RestsOn(Step(s, a).requests[r], r).Some?
    ensures var e := RestsOn(Step(s, a).requests[r], r);
            (r < |s.requests| && RestsOn(s.requests[r], r) == e) || Shows(s, a, e.value)
  {
    var p := PlanOf(s, a);
    if p.Begin? {
      StartedRests(s, a);
    } else if p.Continue? {
      ResumedRests(s, p.request, a.found);
    }
  }

  /** Whatever a request in flight rests on has happened. */
  lemma {:induction false} RequestsRest(start: State, actions: seq<Action>, r: nat)
    requires start.requests == []
    requires r < |Run(start, actions).requests| && RestsOn(Run(start, actions).requests[r], r).Some?
    ensures Happened(start, actions, RestsOn(Run(start, actions).requests[r], r).value)
  {
    if actions != [] {
      var before, a := actions[..|actions| - 1], actions[|actions| - 1];
      var s, e := Run(start, before), RestsOn(Run(start, actions).requests[r], r).value;
      assert actions == before + [a];
      RestsGoOn(s, a, r);
      if r < |s.requests| && RestsOn(s.requests[r], r) == Some(e) {
        RequestsRest(start, before, r);
        HappenedBefore(start, before, a, e);
      } else {
        HappensNow(start, before, a, e);
      }
    }
  }

  // ---- Stored entries ----

  lemma OtpRests(s: State, a: Action)
    requires |Step(s, a).otps| > |s.otps|
    ensures var o := Step(s, a).otps[|s.otps|];
            && |Step(s, a).otps| == |s.otps| + 1
            && o.issuer < |s.requests|
            && RestsOn(s.requests[o.issuer], o.issuer) == Some(Issue(o.issuer, o.user, o.purpose))
  {
    var p := PlanOf(s, a);
    assert p.Continue? && s.requests[p.request].IssueCreate?;
  }

  lemma {:induction false} OtpsRest(start: State, actions: seq<Action>, i: nat)
    requires start.requests == [] && start.otps == [] && i < |Run(start, actions).otps|
    ensures var o := Run(start, actions).otps[i];
            Happened(start, actions, Issue(o.issuer, o.user, o.purpose))
  {
    if actions != [] {
      var before, a := actions[..|actions| - 1], actions[|actions| - 1];
      var s, o := Run(start, before), Run(start, actions).otps[i];
      assert actions == before + [a];
      StepLater(s, a);
      if i < |s.otps| {
        assert OtpLater(s.otps[i], o);
        OtpsRest(start, before, i);
      } else {
        OtpRests(s, a);
        RequestsRest(start, before, o.issuer);
      }
      HappenedBefore(start, before, a, Issue(o.issuer, o.user, o.purpose));
    }
  }

  function SessionEvidence(x: Session): Evidence
    requires x.origin.FromOtp?
  {
    CodeRead(x.opener, x.user, x.origin.guess, x.origin.otp)
  }

  lemma SessionRests(s: State, a: Action)
    requires |Step(s, a).sessions| > |s.sessions|
    ensures var x := Step(s, a).sessions[|s.sessions|];
            && |Step(s, a).sessions| == |s.sessions| + 1
            && x.opener < |s.requests|
            && (x.origin.FromOtp? ==> RestsOn(s.requests[x.opener], x.opener) == Some(SessionEvidence(x)))
  {
    var p := PlanOf(s, a);
    assert p.Continue? && (s.requests[p.request].VerifySession? || s.requests[p.request].SocialSession?);
  }

  lemma {:induction false} SessionsRest(start: State, actions: seq<Action>, i: nat)
    requires start.requests == [] && start.sessions == []
    requires i < |Run(start, actions).sessions| && Run(start, actions).sessions[i].origin.FromOtp?
    ensures Happened(start, actions, SessionEvidence(Run(start, actions).sessions[i]))
  {
    if actions != [] {
      var before, a := actions[..|actions| - 1], actions[|actions| - 1];
      var s, x := Run(start, before), Run(start, actions).sessions[i];
      assert actions == before + [a];
      StepLater(s, a);
      if i < |s.sessions| {
        assert SessionLater(s.sessions[i], x);
        SessionsRest(start, before, i);
      } else {
        SessionRests(s, a);
        RequestsRest(start, before, x.opener);
      }
      HappenedBefore(start, before, a, SessionEvidence(x));
    }
  }

  function WriteEvidence(w: Write): Evidence {
    match w.warrant
    case ByReset(o, token) => ResetClaim(w.writer, w.user, o, token)
    case ByInvitation(i, token) => InvitationClaim(w.writer, w.user, i, token)
  }

  lemma WriteRests(s: State, a: Action)
    requires |Step(s, a).writes| > |s.writes|
    ensures var w := Step(s, a).writes[|s.writes|];
            && |Step(s, a).writes| == |s.writes| + 1
            && w.writer < |s.requests|
            && RestsOn(s.requests[w.writer], w.writer) == Some(WriteEvidence(w))
  {
    var p := PlanOf(s, a);
    assert p.Continue? && (s.requests[p.request].ResetWrite? || s.requests[p.request].SetupWrite?);
  }

  lemma {:induction false} WritesRest(start: State, actions: seq<Action>, i: nat)
    requires start.requests == [] && start.writes == [] && i < |Run(start, actions).writes|
    ensures Happened(start, actions, WriteEvidence(Run(start, actions).writes[i]))
  {
    if actions != [] {
      var before, a := actions[..|actions| - 1], actions[|actions| - 1];
      var s, w := Run(start, before), Run(start, actions).writes[i];
      assert actions == before + [a];
      LogsGrow(s, a);
      if i < |s.writes| {
        WritesRest(start, before, i);
      } else {
        WriteRests(s, a);
        RequestsRest(start, before, w.writer);
      }
      HappenedBefore(start, before, a, WriteEvidence(w));
    }
  }

  lemma AcceptanceShows(s: State, a: Action)
    requires |Step(s, a).accepted| > |s.accepted|
    ensures var x := Step(s, a).accepted[|s.accepted|];
            |Step(s, a).accepted| == |s.accepted| + 1 && Shows(s, a, Answer(|s.accepted|, x))
  {
    var p := PlanOf(s, a);
    assert p.Continue? && s.requests[p.request].ValidateFind?;
  }

  lemma {:induction false} AcceptancesHappened(start: State, actions: seq<Action>, k: nat)
    requires start.accepted == [] && k < |Run(start, actions).accepted|
    ensures Happened(start, actions, Answer(k, Run(start, actions).accepted[k]))
  {
    if actions != [] {
      var before, a := actions[..|actions| - 1], actions[|actions| - 1];
      var s, x := Run(start, before), Run(start, actions).accepted[k];
      assert actions == before + [a];
      LogsGrow(s, a);
      if k < |s.accepted| {
        AcceptancesHappened(start, before, k);
        HappenedBefore(start, before, a, Answer(k, x));
      } else {
        AcceptanceShows(s, a);
        HappensNow(start, before, a, Answer(k, x));
      }
    }
  }
}
