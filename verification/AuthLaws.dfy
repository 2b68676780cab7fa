/** What the credential protocol promises over every run, however requests interleave. */
module AuthLaws {
  import opened Outcomes
  import Decimal
  import opened AuthMachine
  import opened AuthHistory
  import opened AuthSafety
  import opened AuthEvidence

  // ---- One credential, one use ----

  /**
   Every session opened by an OTP belongs to the user of a record that was consumed by that very
   request, and that it had read live, unused, unexpired, below the attempt limit and with the bcrypt
   hash of the code entered; and no record backs two sessions.
   */
  lemma SessionsAreEarned(now: int, users: map<UserId, User>, actions: seq<Action>)
    ensures var s := Run(Start(now, users), actions);
            && (forall i :: 0 <= i < |s.sessions| && s.sessions[i].origin.FromOtp? ==>
                 var x := s.sessions[i];
                 && x.origin.otp < |s.otps|
                 && s.otps[x.origin.otp].user == x.user
                 && s.otps[x.origin.otp].hash == Bcrypt(x.origin.guess)
                 && s.otps[x.origin.otp].claimant == Some(x.opener)
                 && Spent(s.otps[x.origin.otp])
                 && Happened(Start(now, users), actions, CodeRead(x.opener, x.user, x.origin.guess, x.origin.otp)))
            && (forall i, j :: 0 <= i < j < |s.sessions|
                 && s.sessions[i].origin.FromOtp? && s.sessions[j].origin.FromOtp?
                 ==> s.sessions[i].origin.otp != s.sessions[j].origin.otp)
  {
    RunKeepsSafe(Start(now, users), actions);
    var s := Run(Start(now, users), actions);
    forall i | 0 <= i < |s.sessions| && s.sessions[i].origin.FromOtp?
      ensures Claimed(s, s.sessions[i].origin.otp, s.sessions[i].user, Bcrypt(s.sessions[i].origin.guess),
                      s.sessions[i].opener)
      ensures Spent(s.otps[s.sessions[i].origin.otp])
      ensures Happened(Start(now, users), actions, SessionEvidence(s.sessions[i]))
    {
      SessionsRest(Start(now, users), actions, i);
      assert SessionFact(s, s.sessions[i]);
      assert OtpFact(s, s.otps[s.sessions[i].origin.otp]);
    }
  }

  /**
   Each reset token, and each reset record, causes at most one password write, to its own user; and the
   request that wrote had claimed the record while it was live, unused and unexpired.
   */
  lemma ResetsHappenOnce(now: int, users: map<UserId, User>, actions: seq<Action>)
    ensures var s := Run(Start(now, users), actions);
            && (forall i :: 0 <= i < |s.writes| && s.writes[i].warrant.ByReset? ==>
                 var w := s.writes[i].warrant;
                 && w.otp < |s.otps| && s.otps[w.otp].user == s.writes[i].user && s.otps[w.otp].hash == Sha256(w.token)
                 && Happened(Start(now, users), actions, ResetClaim(s.writes[i].writer, s.writes[i].user, w.otp, w.token)))
            && (forall i, j :: 0 <= i < j < |s.writes|
                 && s.writes[i].warrant.ByReset? && s.writes[j].warrant.ByReset?
                 ==> s.writes[i].warrant.otp != s.writes[j].warrant.otp
                     && s.writes[i].warrant.token != s.writes[j].warrant.token)
  {
    RunKeepsSafe(Start(now, users), actions);
    var s := Run(Start(now, users), actions);
    forall i, j | 0 <= i < j < |s.writes| && s.writes[i].warrant.ByReset? && s.writes[j].warrant.ByReset?
      ensures s.writes[i].warrant.otp != s.writes[j].warrant.otp
      ensures s.writes[i].warrant.token != s.writes[j].warrant.token
    {
      var a, b := s.writes[i], s.writes[j];
      assert WriteFact(s, a) && WriteFact(s, b);
      assert OtpFact(s, s.otps[a.warrant.otp]) && OtpFact(s, s.otps[b.warrant.otp]);
      if a.warrant.otp < b.warrant.otp {
        assert s.otps[a.warrant.otp].issuer != s.otps[b.warrant.otp].issuer;
      } else if b.warrant.otp < a.warrant.otp {
        assert s.otps[b.warrant.otp].issuer != s.otps[a.warrant.otp].issuer;
      }
    }
    forall i | 0 <= i < |s.writes|
      ensures WriteFact(s, s.writes[i]) && Happened(Start(now, users), actions, WriteEvidence(s.writes[i]))
    {
      WritesRest(Start(now, users), actions, i);
    }
  }

  ghost predicate SoundInvitation(s: State, i: nat, user: UserId, token: Secret) {
    && i < |s.invitations|
    && s.invitations[i].user == user
    && s.invitations[i].tokenHash == Sha256(token)
    && s.invitations[i].status == Activated
  }

  lemma InvitedWrite(s: State, k: nat)
    requires Safe(s) && k < |s.writes| && s.writes[k].warrant.ByInvitation?
    ensures SoundInvitation(s, s.writes[k].warrant.invitation, s.writes[k].user, s.writes[k].warrant.token)
  {
    assert WriteFact(s, s.writes[k]);
    assert InvitationFact(s, s.invitations[s.writes[k].warrant.invitation]);
  }

  lemma InvitedWritesDiffer(s: State, k: nat, l: nat)
    requires Safe(s) && k < l < |s.writes| && s.writes[k].warrant.ByInvitation? && s.writes[l].warrant.ByInvitation?
    ensures s.writes[k].warrant.invitation != s.writes[l].warrant.invitation
    ensures s.writes[k].warrant.token != s.writes[l].warrant.token
  {
    var a, b := s.writes[k], s.writes[l];
    assert WriteFact(s, a) && WriteFact(s, b);
    var x, y := a.warrant.invitation, b.warrant.invitation;
    assert InvitationFact(s, s.invitations[x]) && InvitationFact(s, s.invitations[y]);
    if x < y {
      assert s.invitations[x].issuer != s.invitations[y].issuer;
    } else if y < x {
      assert s.invitations[y].issuer != s.invitations[x].issuer;
    }
  }

  lemma ActivationsDiffer(s: State, k: nat, l: nat)
    requires Safe(s) && k < l < |s.activations|
    ensures s.activations[k].invitation != s.activations[l].invitation
    ensures s.activations[k].token != s.activations[l].token
  {
    var a, b := s.activations[k], s.activations[l];
    assert ActivationFact(s, a) && ActivationFact(s, b);
    assert a.activator != b.activator;
    if a.write < b.write {
      InvitedWritesDiffer(s, a.write, b.write);
    } else {
      InvitedWritesDiffer(s, b.write, a.write);
    }
  }

  /**
   Each invitation, and each invitation token, makes at most one password write and sets at most one
   account's status to Active, its own user's, and that only after the same request's write, which
   rests on having claimed the invitation while it was live, unclaimed and unexpired.
   */
  lemma ActivationsHappenOnce(now: int, users: map<UserId, User>, actions: seq<Action>)
    ensures var s := Run(Start(now, users), actions);
            && (forall k :: 0 <= k < |s.writes| && s.writes[k].warrant.ByInvitation? ==>
                 && SoundInvitation(s, s.writes[k].warrant.invitation, s.writes[k].user, s.writes[k].warrant.token)
                 && Happened(Start(now, users), actions,
                             InvitationClaim(s.writes[k].writer, s.writes[k].user,
                                             s.writes[k].warrant.invitation, s.writes[k].warrant.token)))
            && (forall k, l :: 0 <= k < l < |s.writes|
                 && s.writes[k].warrant.ByInvitation? && s.writes[l].warrant.ByInvitation?
                 ==> s.writes[k].warrant.invitation != s.writes[l].warrant.invitation
                     && s.writes[k].warrant.token != s.writes[l].warrant.token)
            && (forall k :: 0 <= k < |s.activations| ==>
                 var x := s.activations[k];
                 && SoundInvitation(s, x.invitation, x.user, x.token)
                 && x.write < |s.writes|
                 && s.writes[x.write] == Write(x.user, ByInvitation(x.invitation, x.token), x.activator))
            && (forall k, l :: 0 <= k < l < |s.activations| ==>
                 && s.activations[k].invitation != s.activations[l].invitation
                 && s.activations[k].token != s.activations[l].token)
  {
    RunKeepsSafe(Start(now, users), actions);
    var s := Run(Start(now, users), actions);
    forall k | 0 <= k < |s.writes| && s.writes[k].warrant.ByInvitation?
      ensures SoundInvitation(s, s.writes[k].warrant.invitation, s.writes[k].user, s.writes[k].warrant.token)
      ensures Happened(Start(now, users), actions, WriteEvidence(s.writes[k]))
    {
      InvitedWrite(s, k);
      WritesRest(Start(now, users), actions, k);
    }
    forall k, l | 0 <= k < l < |s.writes| && s.writes[k].warrant.ByInvitation? && s.writes[l].warrant.ByInvitation?
      ensures s.writes[k].warrant.invitation != s.writes[l].warrant.invitation
      ensures s.writes[k].warrant.token != s.writes[l].warrant.token
    {
      InvitedWritesDiffer(s, k, l);
    }
    forall k | 0 <= k < |s.activations| ensures ActivationFact(s, s.activations[k])
      ensures SoundInvitation(s, s.activations[k].invitation, s.activations[k].user, s.activations[k].token)
    {
      assert ActivationFact(s, s.activations[k]);
      InvitedWrite(s, s.activations[k].write);
    }
    forall k, l | 0 <= k < l < |s.activations|
      ensures s.activations[k].invitation != s.activations[l].invitation
      ensures s.activations[k].token != s.activations[l].token
    {
      ActivationsDiffer(s, k, l);
    }
  }

  lemma StatusCalls(users: map<UserId, User>, c: Call, u: UserId)
    requires u in users && u in CallUsers(users, c) && CallUsers(users, c)[u].status != users[u].status
    ensures c.PutAccount? || CallUsers(users, c)[u].status == Active
    ensures (c.PutAccount? || c.Activate? || c.ActivateInvited?) && c.user == u
  {
  }

  lemma ActivatingPlans(s: State, a: Action)
    requires !PlanOf(s, a).Refuse? && !a.ChangeAccount?
    ensures var c := PlanOf(s, a).call;
            && (c.PutAccount? ==> c.user !in s.users)
            && (c.Activate? ==> a.Proceed? && a.request < |s.requests| && s.requests[a.request] == SocialActivate(c.user))
  {
  }

  /** Apart from other services, a status changes only to Active: by a logged activation or in a social login. */
  lemma StatusChanges(s: State, a: Action, u: UserId)
    requires u in s.users && u in Step(s, a).users && Step(s, a).users[u].status != s.users[u].status
    requires !a.ChangeAccount?
    ensures var s' := Step(s, a);
            && s'.users[u].status == Active
            && ((a.Proceed? && a.request < |s.requests| && s.requests[a.request] == SocialActivate(u))
                || (|s'.activations| == |s.activations| + 1 && s'.activations[|s.activations|].user == u))
  {
    var p := PlanOf(s, a);
    if !p.Refuse? {
      ActivatingPlans(s, a);
      StatusCalls(s.users, p.call, u);
    }
  }

  // ---- Two kinds in one collection ----

  /** The session came from typing the six digits that a login or a resend of its user had drawn. */
  ghost predicate FromLogin(start: State, actions: seq<Action>, s: State, x: Session)
    requires x.origin.FromOtp?
  {
    && x.origin.otp < |s.otps|
    && var o := s.otps[x.origin.otp];
       && (o.purpose.LoginCode? || o.purpose.ResentCode?)
       && 100000 <= o.purpose.code < 1000000 && x.origin.guess == Typed(Decimal.ToString(o.purpose.code))
       && Happened(start, actions, Issue(o.issuer, x.user, o.purpose))
  }

  /** The write was made with the token that a forgotten-password request of its user had drawn. */
  ghost predicate FromForgotten(start: State, actions: seq<Action>, s: State, w: Write)
    requires w.warrant.ByReset?
  {
    && w.warrant.otp < |s.otps|
    && var o := s.otps[w.warrant.otp];
       && o.purpose.ResetToken?
       && w.warrant.token == Random(o.issuer)
       && Happened(start, actions, Issue(o.issuer, w.user, o.purpose))
  }

  lemma SessionsFromLogins(now: int, users: map<UserId, User>, actions: seq<Action>, i: nat)
    requires var s := Run(Start(now, users), actions); i < |s.sessions| && s.sessions[i].origin.FromOtp?
    ensures var s := Run(Start(now, users), actions); FromLogin(Start(now, users), actions, s, s.sessions[i])
  {
    var start := Start(now, users);
    var s := Run(start, actions);
    RunKeepsSafe(start, actions);
    assert SessionFact(s, s.sessions[i]);
    assert OtpFact(s, s.otps[s.sessions[i].origin.otp]);
    OtpsRest(start, actions, s.sessions[i].origin.otp);
  }

  lemma WritesFromForgotten(now: int, users: map<UserId, User>, actions: seq<Action>, i: nat)
    requires var s := Run(Start(now, users), actions); i < |s.writes| && s.writes[i].warrant.ByReset?
    ensures var s := Run(Start(now, users), actions); FromForgotten(Start(now, users), actions, s, s.writes[i])
  {
    var start := Start(now, users);
    var s := Run(start, actions);
    RunKeepsSafe(start, actions);
    assert WriteFact(s, s.writes[i]);
    assert OtpFact(s, s.otps[s.writes[i].warrant.otp]);
    OtpsRest(start, actions, s.writes[i].warrant.otp);
  }

  /**
   Login codes and reset tokens share one collection, yet every session opened by OTP comes from a
   record that a login or a resend of its user issued in this run, by typing the digits it drew, and
   every password written by a reset comes from one that a forgotten-password request issued.
   */
  lemma KindsNeverCross(now: int, users: map<UserId, User>, actions: seq<Action>)
    ensures var s := Run(Start(now, users), actions);
            && (forall i :: 0 <= i < |s.sessions| && s.sessions[i].origin.FromOtp? ==>
                 FromLogin(Start(now, users), actions, s, s.sessions[i]))
            && (forall i :: 0 <= i < |s.writes| && s.writes[i].warrant.ByReset? ==>
                 FromForgotten(Start(now, users), actions, s, s.writes[i]))
  {
    var s := Run(Start(now, users), actions);
    forall i | 0 <= i < |s.sessions| && s.sessions[i].origin.FromOtp?
      ensures FromLogin(Start(now, users), actions, s, s.sessions[i])
    {
      SessionsFromLogins(now, users, actions, i);
    }
    forall i | 0 <= i < |s.writes| && s.writes[i].warrant.ByReset?
      ensures FromForgotten(Start(now, users), actions, s, s.writes[i])
    {
      WritesFromForgotten(now, users, actions, i);
    }
  }

  // ---- Session death ----

  ghost predicate Dead(s: State, i: nat) {
    i < |s.sessions| && (s.sessions[i].revokedAt.Some? || s.sessions[i].expiresAt <= s.now)
  }

  lemma {:induction false} DeathIsPermanent(s: State, later: seq<Action>, i: nat)
    requires Dead(s, i)
    ensures Dead(Run(s, later), i)
  {
    RunSessions(s, later);
    assert SessionLater(s.sessions[i], Run(s, later).sessions[i]);
  }

  /** No session that is neither revoked nor expired has the token, whoever it belongs to. */
  ghost predicate Refused(s: State, token: Secret) {
    forall j :: 0 <= j < |s.sessions| && s.sessions[j].token == token ==> Dead(s, j)
  }

  lemma DeadIsRefused(s: State, i: nat)
    requires Safe(s) && Dead(s, i)
    ensures Refused(s, s.sessions[i].token)
  {
    assert SessionFact(s, s.sessions[i]);
    forall j | 0 <= j < |s.sessions| && s.sessions[j].token == s.sessions[i].token ensures Dead(s, j) {
      assert SessionFact(s, s.sessions[j]);
    }
  }

  /** Nothing accepted after `from` rests on session `i` or presents its token. */
  ghost predicate Ignored(s: State, from: nat, i: nat) {
    && i < |s.sessions| && from <= |s.accepted|
    && forall k :: from <= k < |s.accepted| ==>
         s.accepted[k].session != i && s.accepted[k].presented != Some(s.sessions[i].token)
  }

  lemma DeadAcceptsNothing(s: State, a: Action, i: nat)
    requires Safe(s) && Dead(s, i)
    ensures s.accepted <= Step(s, a).accepted
    ensures forall k :: |s.accepted| <= k < |Step(s, a).accepted| ==>
              && Step(s, a).accepted[k].session != i
              && Step(s, a).accepted[k].presented != Some(s.sessions[i].token)
  {
    LogsGrow(s, a);
    DeadIsRefused(s, i);
    if |Step(s, a).accepted| > |s.accepted| {
      AcceptanceShows(s, a);
    }
  }

  lemma StillIgnored(s: State, s': State, from: nat, i: nat)
    requires Ignored(s, from, i) && s.accepted <= s'.accepted
    requires i < |s'.sessions| && s'.sessions[i].token == s.sessions[i].token
    requires forall k :: |s.accepted| <= k < |s'.accepted| ==>
               s'.accepted[k].session != i && s'.accepted[k].presented != Some(s.sessions[i].token)
    ensures Ignored(s', from, i)
  {
  }

  lemma {:induction false} NeverAccepted(s: State, later: seq<Action>, i: nat)
    requires Safe(s) && Dead(s, i)
    ensures Ignored(Run(s, later), |s.accepted|, i)
  {
    if later != [] {
      var before, a := later[..|later| - 1], later[|later| - 1];
      var t := Run(s, before);
      NeverAccepted(s, before, i);
      RunKeepsSafe(s, before);
      DeathIsPermanent(s, before, i);
      DeadAcceptsNothing(t, a, i);
      StepLater(t, a);
      assert SessionLater(t.sessions[i], Step(t, a).sessions[i]);
      StillIgnored(t, Step(t, a), |s.accepted|, i);
    }
  }

  /** A session once revoked or expired stays so, and its token is never accepted again. */
  lemma DeadTokensAreRefused(now: int, users: map<UserId, User>, actions: seq<Action>, later: seq<Action>, i: nat)
    requires Dead(Run(Start(now, users), actions), i)
    ensures var s, s' := Run(Start(now, users), actions), Run(Start(now, users), actions + later);
            && i < |s.sessions| && Dead(s', i) && Refused(s', s.sessions[i].token)
            && Ignored(s', |s.accepted|, i)
  {
    RunFrom(Start(now, users), actions, later);
    RunKeepsSafe(Start(now, users), actions);
    NeverAccepted(Run(Start(now, users), actions), later, i);
    RunKeepsSafe(Start(now, users), actions + later);
    var s := Run(Start(now, users), actions);
    DeathIsPermanent(s, later, i);
    RunSessions(s, later);
    assert SessionLater(s.sessions[i], Run(s, later).sessions[i]);
    DeadIsRefused(Run(s, later), i);
  }

  /** The action's step is a revocation of the user's sessions: logout, or the end of a reset. */
  ghost predicate Revokes(s: State, a: Action, u: UserId) {
    a == Logout(u) || (a.Proceed? && a.request < |s.requests| && s.requests[a.request] == ResetRevoke(u))
  }

  lemma RevocationKills(s: State, a: Action, u: UserId, i: nat)
    requires Revokes(s, a, u) && i < |s.sessions| && s.sessions[i].user == u
    ensures Dead(Step(s, a), i)
  {
  }

  /**
   After logout, or after the last step of a password reset, every session the user had before that
   step is refused in all later states, whoever presents its token.
   */
  lemma RevocationIsPermanent(now: int, users: map<UserId, User>, actions: seq<Action>, a: Action,
                              later: seq<Action>, u: UserId)
    requires Revokes(Run(Start(now, users), actions), a, u)
    ensures var s, s' := Run(Start(now, users), actions), Run(Start(now, users), actions + [a] + later);
            forall i :: 0 <= i < |s.sessions| && s.sessions[i].user == u ==>
              && Dead(s', i) && Refused(s', s.sessions[i].token)
              && Ignored(s', |Run(Start(now, users), actions + [a]).accepted|, i)
  {
    var s := Run(Start(now, users), actions);
    assert (actions + [a])[..|actions|] == actions;
    StepLater(s, a);
    forall i | 0 <= i < |s.sessions| && s.sessions[i].user == u
      ensures Dead(Run(Start(now, users), actions + [a] + later), i)
      ensures Refused(Run(Start(now, users), actions + [a] + later), s.sessions[i].token)
      ensures Ignored(Run(Start(now, users), actions + [a] + later), |Run(Start(now, users), actions + [a]).accepted|, i)
    {
      RevocationKills(s, a, u, i);
      assert SessionLater(s.sessions[i], Step(s, a).sessions[i]);
      DeadTokensAreRefused(now, users, actions + [a], later, i);
    }
  }

  // ---- What an accepted request proves ----

  /** The session is its user's, and was opened by the right code for that user's record or by a social login. */
  ghost predicate OwnSession(s: State, i: nat, u: UserId) {
    && i < |s.sessions|
    && s.sessions[i].user == u
    && (s.sessions[i].origin.FromOtp? ==>
         && s.sessions[i].origin.otp < |s.otps|
         && s.otps[s.sessions[i].origin.otp].user == u
         && s.otps[s.sessions[i].origin.otp].hash == Bcrypt(s.sessions[i].origin.guess))
  }

  /**
   Every request ever accepted was accepted at a moment of the run when a session of its own user was
   neither revoked nor expired and answered to the token presented; and that session was opened by
   entering the code of an OTP record of the same user, or by a social login.
   */
  lemma AcceptancesTrace(now: int, users: map<UserId, User>, actions: seq<Action>)
    ensures var s := Run(Start(now, users), actions);
            forall k :: 0 <= k < |s.accepted| ==>
              && Happened(Start(now, users), actions, Answer(k, s.accepted[k]))
              && OwnSession(s, s.accepted[k].session, s.accepted[k].user)
  {
    RunKeepsSafe(Start(now, users), actions);
    var s := Run(Start(now, users), actions);
    forall k | 0 <= k < |s.accepted|
      ensures Happened(Start(now, users), actions, Answer(k, s.accepted[k]))
      ensures OwnSession(s, s.accepted[k].session, s.accepted[k].user)
    {
      AcceptancesHappened(Start(now, users), actions, k);
      assert AcceptanceFact(s, s.accepted[k]);
      assert SessionFact(s, s.sessions[s.accepted[k].session]);
    }
  }
}
