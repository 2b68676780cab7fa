/**
 What every reachable state of the protocol satisfies: each stored fact points at the request that
 produced it, and each consumed credential at the one request that consumed it.
 */
module AuthSafety {
  import opened Outcomes
  import opened AuthMachine
  import opened AuthHistory

  // ---- Facts about single entries ----

  ghost predicate Finished(requests: seq<Pc>, r: nat) {
    r < |requests| && requests[r].Done?
  }

  /** The stored digest is of what the issuing operation drew: six digits, or a fresh token. */
  predicate Genuine(hash: Digest, purpose: Purpose, issuer: nat) {
    match purpose
    case LoginCode(code) => CodeInRange(code) && hash == CodeHash(code)
    case ResentCode(code) => CodeInRange(code) && hash == CodeHash(code)
    case ResetToken => hash == Sha256(Random(issuer))
  }

  ghost predicate OtpFact(s: State, o: Otp) {
    && Finished(s.requests, o.issuer)
    && Genuine(o.hash, o.purpose, o.issuer)
    && (o.claimant.Some? ==> Spent(o))
  }

  ghost predicate InvitationFact(s: State, v: Invitation) {
    && Finished(s.requests, v.issuer)
    && v.tokenHash == Sha256(Random(v.issuer))
    && (v.claimant.Some? ==> v.status == Activated)
  }

  /** OTP record `o` of `user` was consumed by request `r`, and by no other. */
  ghost predicate Claimed(s: State, o: nat, user: UserId, hash: Digest, r: nat) {
    o < |s.otps| && s.otps[o].user == user && s.otps[o].hash == hash && s.otps[o].claimant == Some(r)
  }

  ghost predicate ClaimedInvitation(s: State, i: nat, user: UserId, hash: Digest, r: nat) {
    i < |s.invitations| && s.invitations[i].user == user && s.invitations[i].tokenHash == hash
    && s.invitations[i].claimant == Some(r)
  }

  ghost predicate SessionFact(s: State, x: Session) {
    && Finished(s.requests, x.opener)
    && x.token == Random(x.opener)
    && (x.origin.FromOtp? ==> Claimed(s, x.origin.otp, x.user, Bcrypt(x.origin.guess), x.opener))
    && (x.revokedAt.Some? ==> x.revokedAt.value <= s.now)
  }

  ghost predicate WriteFact(s: State, w: Write) {
    && w.writer < |s.requests| && Wrote(s.requests[w.writer])
    && match w.warrant
       case ByReset(o, token) => Claimed(s, o, w.user, Sha256(token), w.writer)
       case ByInvitation(i, token) => ClaimedInvitation(s, i, w.user, Sha256(token), w.writer)
  }

  /** Password write `write` was made by request `r` on the strength of invitation `i`. */
  ghost predicate Wrought(s: State, write: nat, user: UserId, i: nat, token: Secret, r: nat) {
    write < |s.writes| && s.writes[write] == Write(user, ByInvitation(i, token), r)
  }

  ghost predicate PcFact(s: State, r: nat, pc: Pc) {
    match pc
    case IssueDelete(_, hash, _, purpose) => Genuine(hash, purpose, r)
    case IssueCreate(_, hash, _, purpose) => Genuine(hash, purpose, r)
    case VerifyCheck(u, _, o, hash, _) => o < |s.otps| && s.otps[o].user == u && s.otps[o].hash == hash
    case VerifyBurn(u, o) => o < |s.otps| && s.otps[o].user == u
    case VerifyMiss(u, o) => o < |s.otps| && s.otps[o].user == u
    case VerifyMatch(u, guess, o) => o < |s.otps| && s.otps[o].user == u && s.otps[o].hash == Bcrypt(guess)
    case VerifySession(u, guess, o) => Claimed(s, o, u, Bcrypt(guess), r)
    case ResetWrite(u, o, token, _) => Claimed(s, o, u, Sha256(token), r)
    case SetupWrite(u, i, token, _) => ClaimedInvitation(s, i, u, Sha256(token), r)
    case SetupActivate(u, i, token, write) => Wrought(s, write, u, i, token, r)
    case _ => true
  }

  ghost predicate ActivationFact(s: State, x: Activation) {
    Finished(s.requests, x.activator) && Wrought(s, x.write, x.user, x.invitation, x.token, x.activator)
  }

  ghost predicate AcceptanceFact(s: State, x: Acceptance) {
    && x.session < |s.sessions|
    && x.at <= s.now
    && var session := s.sessions[x.session];
       && session.user == x.user
       && (x.presented.Some? ==> session.token == x.presented.value)
       && x.at < session.expiresAt
       && (session.revokedAt.Some? ==> x.at <= session.revokedAt.value)
  }

  ghost predicate Facts(s: State) {
    && (forall i :: 0 <= i < |s.otps| ==> OtpFact(s, s.otps[i]))
    && (forall i :: 0 <= i < |s.invitations| ==> InvitationFact(s, s.invitations[i]))
    && (forall i :: 0 <= i < |s.sessions| ==> SessionFact(s, s.sessions[i]))
    && (forall i :: 0 <= i < |s.writes| ==> WriteFact(s, s.writes[i]))
    && (forall i :: 0 <= i < |s.activations| ==> ActivationFact(s, s.activations[i]))
    && (forall r :: 0 <= r < |s.requests| ==> PcFact(s, r, s.requests[r]))
    && (forall i :: 0 <= i < |s.accepted| ==> AcceptanceFact(s, s.accepted[i]))
  }

  /** No request produces two entries of one kind. */
  ghost predicate Distinct(s: State) {
    && (forall i, j :: 0 <= i < j < |s.otps| ==> s.otps[i].issuer != s.otps[j].issuer)
    && (forall i, j :: 0 <= i < j < |s.invitations| ==> s.invitations[i].issuer != s.invitations[j].issuer)
    && (forall i, j :: 0 <= i < j < |s.sessions| ==> s.sessions[i].opener != s.sessions[j].opener)
    && (forall i, j :: 0 <= i < j < |s.writes| ==> s.writes[i].writer != s.writes[j].writer)
    && (forall i, j :: 0 <= i < j < |s.activations| ==> s.activations[i].activator != s.activations[j].activator)
  }

  // ---- Old entries keep their facts ----

  lemma ClaimedKept(s: State, s': State, o: nat, user: UserId, hash: Digest, r: nat)
    requires Later(s, s') && Claimed(s, o, user, hash, r) && OtpFact(s, s.otps[o])
    ensures Claimed(s', o, user, hash, r)
  {
  }

  lemma ClaimedInvitationKept(s: State, s': State, i: nat, user: UserId, hash: Digest, r: nat)
    requires Later(s, s') && ClaimedInvitation(s, i, user, hash, r) && InvitationFact(s, s.invitations[i])
    ensures ClaimedInvitation(s', i, user, hash, r)
  {
  }

  lemma OtpFactKept(s: State, s': State, i: nat)
    requires Later(s, s') && i < |s.otps| && OtpFact(s, s.otps[i])
    ensures OtpFact(s', s'.otps[i])
  {
  }

  lemma InvitationFactKept(s: State, s': State, i: nat)
    requires Later(s, s') && i < |s.invitations| && InvitationFact(s, s.invitations[i])
    ensures InvitationFact(s', s'.invitations[i])
  {
  }

  lemma SessionFactKept(s: State, s': State, i: nat)
    requires Facts(s) && Later(s, s') && i < |s.sessions|
    ensures SessionFact(s', s'.sessions[i])
  {
  }

  lemma WriteFactKept(s: State, s': State, w: Write)
    requires Facts(s) && Later(s, s') && WriteFact(s, w)
    ensures WriteFact(s', w)
  {
  }

  lemma PcFactKept(s: State, s': State, r: nat, pc: Pc)
    requires Facts(s) && Later(s, s') && PcFact(s, r, pc)
    ensures PcFact(s', r, pc)
  {
  }

  lemma ActivationFactKept(s: State, s': State, x: Activation)
    requires Later(s, s') && ActivationFact(s, x)
    ensures ActivationFact(s', x)
  {
    assert RequestLater(s.requests[x.activator], s'.requests[x.activator]);
  }

  lemma AcceptanceFactKept(s: State, s': State, x: Acceptance)
    requires Later(s, s') && AcceptanceFact(s, x)
    ensures AcceptanceFact(s', x)
  {
  }

  // ---- New entries ----

  lemma NewOtp(s: State, a: Action)
    requires Facts(s) && |Step(s, a).otps| > |s.otps|
    ensures var s' := Step(s, a);
            && |s'.otps| == |s.otps| + 1
            && OtpFact(s', s'.otps[|s.otps|])
            && !Finished(s.requests, s'.otps[|s.otps|].issuer)
  {
    var p := PlanOf(s, a);
    assert p.Continue? && p.call.AddOtp? && s.requests[p.request].IssueCreate?;
    assert PcFact(s, p.request, s.requests[p.request]);
  }

  lemma NewInvitation(s: State, a: Action)
    requires |Step(s, a).invitations| > |s.invitations|
    ensures var s' := Step(s, a);
            && |s'.invitations| == |s.invitations| + 1
            && InvitationFact(s', s'.invitations[|s.invitations|])
            && !Finished(s.requests, s'.invitations[|s.invitations|].issuer)
  {
    var p := PlanOf(s, a);
    assert p.Continue? && s.requests[p.request].InviteCreate?;
  }

  lemma NewSession(s: State, a: Action)
    requires Facts(s) && |Step(s, a).sessions| > |s.sessions|
    ensures var s' := Step(s, a);
            && |s'.sessions| == |s.sessions| + 1
            && SessionFact(s', s'.sessions[|s.sessions|])
            && !Finished(s.requests, s'.sessions[|s.sessions|].opener)
  {
    var p := PlanOf(s, a);
    assert p.Continue? && p.call.AddSession?;
    var pc := s.requests[p.request];
    assert PcFact(s, p.request, pc);
    StepLater(s, a);
    if pc.VerifySession? {
      ClaimedKept(s, Step(s, a), pc.otp, pc.user, Bcrypt(pc.guess), p.request);
    } else {
      assert pc.SocialSession?;
    }
  }

  lemma NewWrite(s: State, a: Action)
    requires Facts(s) && |Step(s, a).writes| > |s.writes|
    ensures var s' := Step(s, a);
            && |s'.writes| == |s.writes| + 1
            && WriteFact(s', s'.writes[|s.writes|])
            && var r := s'.writes[|s.writes|].writer; r < |s.requests| && !Wrote(s.requests[r])
  {
    var p := PlanOf(s, a);
    assert p.Continue? && p.call.WritePassword?;
    var pc := s.requests[p.request];
    assert PcFact(s, p.request, pc);
    StepLater(s, a);
    if pc.ResetWrite? {
      ClaimedKept(s, Step(s, a), pc.otp, pc.user, Sha256(pc.token), p.request);
    } else {
      assert pc.SetupWrite?;
      ClaimedInvitationKept(s, Step(s, a), pc.invitation, pc.user, Sha256(pc.token), p.request);
    }
  }

  lemma NewActivation(s: State, a: Action)
    requires Facts(s) && |Step(s, a).activations| > |s.activations|
    ensures var s' := Step(s, a);
            && |s'.activations| == |s.activations| + 1
            && ActivationFact(s', s'.activations[|s.activations|])
            && !Finished(s.requests, s'.activations[|s.activations|].activator)
  {
    var p := PlanOf(s, a);
    assert p.Continue? && s.requests[p.request].SetupActivate?;
    assert PcFact(s, p.request, s.requests[p.request]);
  }

  lemma NewAcceptance(s: State, a: Action)
    requires |Step(s, a).accepted| > |s.accepted|
    ensures var s' := Step(s, a);
            && |s'.accepted| == |s.accepted| + 1
            && AcceptanceFact(s', s'.accepted[|s.accepted|])
  {
    var p := PlanOf(s, a);
    assert p.Continue? && s.requests[p.request].ValidateFind?;
  }

  lemma FoundPc(s: State, r: nat, found: Option<nat>)
    requires r < |s.requests| && s.requests[r].VerifyFind? && Resume(s, r, found).Continue?
    ensures PcFact(Execute(s, Resume(s, r, found)), r, Resume(s, r, found).next)
  {
  }

  lemma ClaimingPc(s: State, r: nat)
    requires r < |s.requests| && s.requests[r].VerifyMatch? && PcFact(s, r, s.requests[r])
    ensures PcFact(Execute(s, Resume(s, r, None)), r, Resume(s, r, None).next)
  {
  }

  lemma WritingPc(s: State, r: nat)
    requires r < |s.requests| && s.requests[r].SetupWrite?
    ensures PcFact(Execute(s, Resume(s, r, None)), r, Resume(s, r, None).next)
  {
  }

  /** The other calls move a request on with the facts it had. */
  lemma CarriedPc(s: State, r: nat, found: Option<nat>)
    requires r < |s.requests| && PcFact(s, r, s.requests[r]) && Resume(s, r, found).Continue?
    requires !s.requests[r].VerifyFind? && !s.requests[r].VerifyMatch? && !s.requests[r].SetupWrite?
    ensures PcFact(Execute(s, Resume(s, r, found)), r, Resume(s, r, found).next)
  {
  }

  lemma ResumedPc(s: State, r: nat, found: Option<nat>)
    requires Facts(s) && r < |s.requests| && Resume(s, r, found).Continue?
    ensures PcFact(Execute(s, Resume(s, r, found)), r, Resume(s, r, found).next)
  {
    assert PcFact(s, r, s.requests[r]);
    match s.requests[r]
    case VerifyFind(_, _) => FoundPc(s, r, found);
    case VerifyMatch(_, _, _) => ClaimingPc(s, r);
    case SetupWrite(_, _, _, _) => WritingPc(s, r);
    case _ => CarriedPc(s, r, found);
  }

  lemma StartedPc(s: State, a: Action)
    requires PlanOf(s, a).Begin?
    ensures PcFact(Step(s, a), |s.requests|, PlanOf(s, a).next)
  {
  }

  /** The request an action moves stands where its next database call needs it to. */
  lemma MovedPc(s: State, a: Action)
    requires Facts(s) && !PlanOf(s, a).Refuse? && !PlanOf(s, a).Outside?
    ensures var p := PlanOf(s, a);
            PcFact(Step(s, a), if p.Continue? then p.request else |s.requests|, p.next)
  {
    var p := PlanOf(s, a);
    var s' := Step(s, a);
    StepLater(s, a);
    if p.Continue? {
      assert PcFact(s, p.request, s.requests[p.request]);
      ResumedPc(s, p.request, a.found);
    } else {
      StartedPc(s, a);
    }
  }

  // ---- Every reachable state ----

  lemma RequestsStep(s: State, a: Action)
    requires Facts(s)
    ensures var s' := Step(s, a);
            forall r :: 0 <= r < |s'.requests| ==> PcFact(s', r, s'.requests[r])
  {
    var p, s' := PlanOf(s, a), Step(s, a);
    StepLater(s, a);
    forall r | 0 <= r < |s'.requests|
      ensures PcFact(s', r, s'.requests[r])
    {
      if r < |s.requests| && s'.requests[r] == s.requests[r] {
        PcFactKept(s, s', r, s.requests[r]);
      } else {
        MovedPc(s, a);
      }
    }
  }

  lemma OtpsStep(s: State, a: Action)
    requires Facts(s)
    ensures var s' := Step(s, a);
            forall i :: 0 <= i < |s'.otps| ==> OtpFact(s', s'.otps[i])
  {
    var s' := Step(s, a);
    StepLater(s, a);
    forall i | 0 <= i < |s'.otps| ensures OtpFact(s', s'.otps[i]) {
      if i < |s.otps| { OtpFactKept(s, s', i); } else { NewOtp(s, a); }
    }
  }

  lemma InvitationsStep(s: State, a: Action)
    requires Facts(s)
    ensures var s' := Step(s, a);
            forall i :: 0 <= i < |s'.invitations| ==> InvitationFact(s', s'.invitations[i])
  {
    var s' := Step(s, a);
    StepLater(s, a);
    forall i | 0 <= i < |s'.invitations| ensures InvitationFact(s', s'.invitations[i]) {
      if i < |s.invitations| { InvitationFactKept(s, s', i); } else { NewInvitation(s, a); }
    }
  }

  lemma SessionsStep(s: State, a: Action)
    requires Facts(s)
    ensures var s' := Step(s, a);
            forall i :: 0 <= i < |s'.sessions| ==> SessionFact(s', s'.sessions[i])
  {
    var s' := Step(s, a);
    StepLater(s, a);
    forall i | 0 <= i < |s'.sessions| ensures SessionFact(s', s'.sessions[i]) {
      if i < |s.sessions| { SessionFactKept(s, s', i); } else { NewSession(s, a); }
    }
  }

  lemma LogsGrow(s: State, a: Action)
    ensures s.writes <= Step(s, a).writes && s.accepted <= Step(s, a).accepted
    ensures s.activations <= Step(s, a).activations
  {
  }

  lemma WritesStep(s: State, a: Action)
    requires Facts(s)
    ensures var s' := Step(s, a);
            forall i :: 0 <= i < |s'.writes| ==> WriteFact(s', s'.writes[i])
  {
    var s' := Step(s, a);
    StepLater(s, a);
    LogsGrow(s, a);
    forall i | 0 <= i < |s'.writes| ensures WriteFact(s', s'.writes[i]) {
      if i < |s.writes| { WriteFactKept(s, s', s.writes[i]); } else { NewWrite(s, a); }
    }
  }

  lemma ActivationsStep(s: State, a: Action)
    requires Facts(s)
    ensures var s' := Step(s, a);
            forall i :: 0 <= i < |s'.activations| ==> ActivationFact(s', s'.activations[i])
  {
    var s' := Step(s, a);
    StepLater(s, a);
    LogsGrow(s, a);
    forall i | 0 <= i < |s'.activations| ensures ActivationFact(s', s'.activations[i]) {
      if i < |s.activations| { ActivationFactKept(s, s', s.activations[i]); } else { NewActivation(s, a); }
    }
  }

  lemma AcceptancesStep(s: State, a: Action)
    requires Facts(s)
    ensures var s' := Step(s, a);
            forall i :: 0 <= i < |s'.accepted| ==> AcceptanceFact(s', s'.accepted[i])
  {
    var s' := Step(s, a);
    StepLater(s, a);
    LogsGrow(s, a);
    forall i | 0 <= i < |s'.accepted| ensures AcceptanceFact(s', s'.accepted[i]) {
      if i < |s.accepted| { AcceptanceFactKept(s, s', s.accepted[i]); } else { NewAcceptance(s, a); }
    }
  }

  // No request produces two entries of one kind: who made an old entry is through, who makes a new one was not.

  predicate Unwritten(requests: seq<Pc>, r: nat) {
    r < |requests| && !Wrote(requests[r])
  }

  lemma IssuersDiffer(s: State, s': State)
    requires Facts(s) && Distinct(s) && Later(s, s')
    requires |s'.otps| > |s.otps| ==>
      |s'.otps| == |s.otps| + 1 && !Finished(s.requests, s'.otps[|s.otps|].issuer)
    ensures forall i, j :: 0 <= i < j < |s'.otps| ==> s'.otps[i].issuer != s'.otps[j].issuer
  {
    forall i | 0 <= i < |s.otps|
      ensures s'.otps[i].issuer == s.otps[i].issuer && Finished(s.requests, s.otps[i].issuer)
    {
      assert OtpLater(s.otps[i], s'.otps[i]) && OtpFact(s, s.otps[i]);
    }
  }

  lemma InvitersDiffer(s: State, s': State)
    requires Facts(s) && Distinct(s) && Later(s, s')
    requires |s'.invitations| > |s.invitations| ==>
      |s'.invitations| == |s.invitations| + 1 && !Finished(s.requests, s'.invitations[|s.invitations|].issuer)
    ensures forall i, j :: 0 <= i < j < |s'.invitations| ==> s'.invitations[i].issuer != s'.invitations[j].issuer
  {
    forall i | 0 <= i < |s.invitations|
      ensures s'.invitations[i].issuer == s.invitations[i].issuer && Finished(s.requests, s.invitations[i].issuer)
    {
      assert InvitationLater(s.invitations[i], s'.invitations[i]) && InvitationFact(s, s.invitations[i]);
    }
  }

  lemma OpenersDiffer(s: State, s': State)
    requires Facts(s) && Distinct(s) && Later(s, s')
    requires |s'.sessions| > |s.sessions| ==>
      |s'.sessions| == |s.sessions| + 1 && !Finished(s.requests, s'.sessions[|s.sessions|].opener)
    ensures forall i, j :: 0 <= i < j < |s'.sessions| ==> s'.sessions[i].opener != s'.sessions[j].opener
  {
    forall i | 0 <= i < |s.sessions|
      ensures s'.sessions[i].opener == s.sessions[i].opener && Finished(s.requests, s.sessions[i].opener)
    {
      assert SessionLater(s.sessions[i], s'.sessions[i]) && SessionFact(s, s.sessions[i]);
    }
  }

  lemma WritersDiffer(s: State, s': State)
    requires Facts(s) && Distinct(s) && s.writes <= s'.writes
    requires |s'.writes| > |s.writes| ==>
      |s'.writes| == |s.writes| + 1 && Unwritten(s.requests, s'.writes[|s.writes|].writer)
    ensures forall i, j :: 0 <= i < j < |s'.writes| ==> s'.writes[i].writer != s'.writes[j].writer
  {
    forall i | 0 <= i < |s.writes|
      ensures s'.writes[i] == s.writes[i] && !Unwritten(s.requests, s.writes[i].writer)
    {
      assert WriteFact(s, s.writes[i]);
    }
  }

  lemma ActivatorsDiffer(s: State, s': State)
    requires Facts(s) && Distinct(s) && s.activations <= s'.activations
    requires |s'.activations| > |s.activations| ==>
      |s'.activations| == |s.activations| + 1 && !Finished(s.requests, s'.activations[|s.activations|].activator)
    ensures forall i, j :: 0 <= i < j < |s'.activations| ==> s'.activations[i].activator != s'.activations[j].activator
  {
    forall i | 0 <= i < |s.activations|
      ensures s'.activations[i] == s.activations[i] && Finished(s.requests, s.activations[i].activator)
    {
      assert ActivationFact(s, s.activations[i]);
    }
  }

  lemma DistinctStep(s: State, a: Action)
    requires Facts(s) && Distinct(s)
    ensures Distinct(Step(s, a))
  {
    var s' := Step(s, a);
    StepLater(s, a);
    LogsGrow(s, a);
    if |s'.otps| > |s.otps| { NewOtp(s, a); }
    if |s'.invitations| > |s.invitations| { NewInvitation(s, a); }
    if |s'.sessions| > |s.sessions| { NewSession(s, a); }
    if |s'.writes| > |s.writes| { NewWrite(s, a); }
    if |s'.activations| > |s.activations| { NewActivation(s, a); }
    IssuersDiffer(s, s');
    InvitersDiffer(s, s');
    OpenersDiffer(s, s');
    WritersDiffer(s, s');
    ActivatorsDiffer(s, s');
  }

  ghost predicate Safe(s: State) {
    Facts(s) && Distinct(s)
  }

  lemma StepKeepsSafe(s: State, a: Action)
    requires Safe(s)
    ensures Safe(Step(s, a))
  {
    RequestsStep(s, a);
    OtpsStep(s, a);
    InvitationsStep(s, a);
    SessionsStep(s, a);
    WritesStep(s, a);
    ActivationsStep(s, a);
    AcceptancesStep(s, a);
    DistinctStep(s, a);
  }

  lemma {:induction false} RunKeepsSafe(s: State, actions: seq<Action>)
    requires Safe(s)
    ensures Safe(Run(s, actions))
  {
    if actions != [] {
      RunKeepsSafe(s, actions[..|actions| - 1]);
      StepKeepsSafe(Run(s, actions[..|actions| - 1]), actions[|actions| - 1]);
    }
  }
}
