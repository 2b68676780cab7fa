/** What no step of the protocol ever undoes. */
module AuthHistory {
  import opened Outcomes
  import opened AuthMachine

  // ---- One entry now and later ----

  predicate Spent(o: Otp) {
    o.used || !o.live
  }

  ghost predicate OtpLater(a: Otp, b: Otp) {
    && b.user == a.user && b.hash == a.hash && b.expiresAt == a.expiresAt
    && b.issuer == a.issuer && b.purpose == a.purpose
    && (Spent(a) ==> Spent(b) && b.claimant == a.claimant)
    && (!Spent(a) ==> b.claimant == a.claimant || (b.claimant.Some? && Spent(b)))
    && (b.live ==> a.live)
  }

  ghost predicate InvitationLater(a: Invitation, b: Invitation) {
    && b.user == a.user && b.tokenHash == a.tokenHash && b.issuer == a.issuer
    && (a.status == Activated ==> b.status == Activated && b.claimant == a.claimant)
    && (a.status == Sent ==> b.claimant == a.claimant || (b.claimant.Some? && b.status == Activated))
  }

  ghost predicate SessionLater(a: Session, b: Session) {
    && b == a.(revokedAt := b.revokedAt)
    && (a.revokedAt.Some? ==> b.revokedAt == a.revokedAt)
  }

  /** A request that has written a password never writes again; a finished one does nothing. */
  predicate Wrote(pc: Pc) {
    pc.ResetRevoke? || pc.SetupActivate? || pc.Done?
  }

  ghost predicate RequestLater(a: Pc, b: Pc) {
    (a.Done? ==> b.Done?) && (Wrote(a) ==> Wrote(b))
  }

  ghost predicate OtpsLater(a: seq<Otp>, b: seq<Otp>) {
    |a| <= |b| && forall i :: 0 <= i < |a| ==> OtpLater(a[i], b[i])
  }

  ghost predicate InvitationsLater(a: seq<Invitation>, b: seq<Invitation>) {
    |a| <= |b| && forall i :: 0 <= i < |a| ==> InvitationLater(a[i], b[i])
  }

  ghost predicate SessionsLater(a: seq<Session>, b: seq<Session>) {
    |a| <= |b| && forall i :: 0 <= i < |a| ==> SessionLater(a[i], b[i])
  }

  /** A session revoked in between was revoked at `now`; a new one is not revoked. */
  ghost predicate RevokedNow(a: seq<Session>, b: seq<Session>, now: int)
    requires SessionsLater(a, b)
  {
    && (forall i :: 0 <= i < |a| && a[i].revokedAt.None? && b[i].revokedAt.Some? ==> b[i].revokedAt.value == now)
    && (forall i :: |a| <= i < |b| ==> b[i].revokedAt.None?)
  }

  ghost predicate RequestsLater(a: seq<Pc>, b: seq<Pc>) {
    |a| <= |b| && forall i :: 0 <= i < |a| ==> RequestLater(a[i], b[i])
  }

  // ---- Every step respects it ----

  /** A plan that could come from some action: what a request may do next, and what it may claim. */
  ghost predicate Lawful(s: State, p: Plan) {
    && (p.Continue? ==> p.request < |s.requests| && RequestLater(s.requests[p.request], p.next))
    && (!p.Refuse? ==>
         && (p.call.ClaimOtp? ==> p.call.otp < |s.otps| && !Spent(s.otps[p.call.otp]))
         && (p.call.ClaimInvitation? ==> Unclaimed(s, p.call.invitation)))
  }

  lemma PlansAreLawful(s: State, a: Action)
    ensures Lawful(s, PlanOf(s, a))
  {
  }

  lemma CallOtpsLater(otps: seq<Otp>, c: Call, caller: nat)
    requires c.ClaimOtp? ==> c.otp < |otps| && !Spent(otps[c.otp])
    ensures OtpsLater(otps, CallOtps(otps, c, caller))
  {
  }

  lemma CallSessionsLater(sessions: seq<Session>, c: Call, caller: nat, now: int)
    ensures SessionsLater(sessions, CallSessions(sessions, c, caller, now))
    ensures RevokedNow(sessions, CallSessions(sessions, c, caller, now), now)
  {
  }

  lemma CallInvitationsLater(all: seq<Invitation>, c: Call, caller: nat)
    requires c.ClaimInvitation? ==> c.invitation < |all| && all[c.invitation].status == Sent
    ensures InvitationsLater(all, CallInvitations(all, c, caller))
  {
  }

  ghost predicate Later(s: State, s': State) {
    && RequestsLater(s.requests, s'.requests)
    && OtpsLater(s.otps, s'.otps)
    && SessionsLater(s.sessions, s'.sessions)
    && InvitationsLater(s.invitations, s'.invitations)
    && RevokedNow(s.sessions, s'.sessions, s.now)
    && s.writes <= s'.writes
    && s.now <= s'.now
  }

  lemma ExecuteLater(s: State, p: Plan)
    requires Lawful(s, p)
    ensures Later(s, Execute(s, p))
  {
    if !p.Refuse? {
      var caller := if p.Continue? then p.request else |s.requests|;
      CallOtpsLater(s.otps, p.call, caller);
      CallSessionsLater(s.sessions, p.call, caller, s.now);
      CallInvitationsLater(s.invitations, p.call, caller);
    }
  }

  lemma StepLater(s: State, a: Action)
    ensures Later(s, Step(s, a))
  {
    PlansAreLawful(s, a);
    ExecuteLater(s, PlanOf(s, a));
  }

  /** A session's only change, over any run, is to be revoked once; the clock never runs back. */
  lemma {:induction false} RunSessions(s: State, actions: seq<Action>)
    ensures SessionsLater(s.sessions, Run(s, actions).sessions) && s.now <= Run(s, actions).now
  {
    if actions != [] {
      RunSessions(s, actions[..|actions| - 1]);
      StepLater(Run(s, actions[..|actions| - 1]), actions[|actions| - 1]);
    }
  }
}
