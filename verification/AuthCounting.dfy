/**
 Two bounds that degrade gracefully under concurrency: how many guesses are compared against one
 OTP record, and how many OTP records one user has.
 */
module AuthCounting {
  import opened Outcomes
  import opened AuthMachine
  import opened AuthHistory
  import opened AuthSafety

  // ---- Counting requests ----

  datatype Class =
    | Checking(otp: nat)       // has read the record below its attempt limit, comparison to come
    | Missing(otp: nat)        // compared and missed, increment to come
    | Matching(otp: nat)       // compared and matched, claim to come
    | Verifying(user: UserId)  // any verification in flight
    | Creating(user: UserId)   // between deleting the old records and creating the new one
    | Issuing(user: UserId)    // any issue in flight
    | Validating(user: UserId) // has passed the account check, session query to come
    | Opening(user: UserId)    // may still open a session

  predicate In(pc: Pc, c: Class) {
    match c
    case Checking(o) => pc.VerifyCheck? && pc.otp == o && pc.attempts < OTP_MAX_ATTEMPTS
    case Missing(o) => pc.VerifyMiss? && pc.otp == o
    case Matching(o) => pc.VerifyMatch? && pc.otp == o
    case Verifying(u) =>
      (pc.VerifyFind? || pc.VerifyCheck? || pc.VerifyBurn? || pc.VerifyMiss? || pc.VerifyMatch? || pc.VerifySession?)
      && pc.user == u
    case Creating(u) => pc.IssueCreate? && pc.user == u
    case Issuing(u) => (pc.IssueDelete? || pc.IssueCreate?) && pc.user == u
    case Validating(u) => pc.ValidateFind? && pc.user == u
    case Opening(u) =>
      (pc.VerifyFind? || pc.VerifyCheck? || pc.VerifyMatch? || pc.VerifySession? || pc.SocialActivate? || pc.SocialSession?)
      && pc.user == u
  }

  function One(b: bool): nat {
    if b then 1 else 0
  }

  function Count(c: Class, requests: seq<Pc>): nat {
    if requests == [] then 0
    else Count(c, requests[..|requests| - 1]) + One(In(requests[|requests| - 1], c))
  }

  lemma {:induction false} CountUpdate(c: Class, requests: seq<Pc>, r: nat, pc: Pc)
    requires r < |requests|
    ensures Count(c, requests[r := pc]) == Count(c, requests) - One(In(requests[r], c)) + One(In(pc, c))
    ensures In(requests[r], c) ==> Count(c, requests) >= 1
  {
    var front := requests[..|requests| - 1];
    if r == |requests| - 1 {
      assert requests[r := pc][..|requests| - 1] == front;
    } else {
      CountUpdate(c, front, r, pc);
      assert requests[r := pc][..|requests| - 1] == front[r := pc];
    }
  }

  lemma CountAppend(c: Class, requests: seq<Pc>, pc: Pc)
    ensures Count(c, requests + [pc]) == Count(c, requests) + One(In(pc, c))
  {
  }

  lemma {:induction false} CountNone(c: Class, requests: seq<Pc>)
    requires forall r :: 0 <= r < |requests| ==> !In(requests[r], c)
    ensures Count(c, requests) == 0
  {
    if requests != [] {
      CountNone(c, requests[..|requests| - 1]);
    }
  }

  /** How an executed plan changes a count. */
  function Change(s: State, p: Plan, c: Class): int {
    match p
    case Begin(_, next) => One(In(next, c))
    case Continue(r, _, next) => if r < |s.requests| then One(In(next, c)) - One(In(s.requests[r], c)) else 0
    case _ => 0
  }

  lemma CountExecute(c: Class, s: State, p: Plan)
    ensures Count(c, Execute(s, p).requests) == Count(c, s.requests) + Change(s, p, c)
  {
    match p
    case Begin(_, next) => CountAppend(c, s.requests, next);
    case Continue(r, _, next) => if r < |s.requests| { CountUpdate(c, s.requests, r, next); }
    case _ =>
  }

  // ---- Guesses compared against one record ----

  predicate Guesses(pc: Pc, o: nat) {
    In(pc, Checking(o)) || In(pc, Missing(o)) || In(pc, Matching(o))
  }

  lemma {:induction false} GuessersAreVerifying(requests: seq<Pc>, o: nat, u: UserId)
    requires forall r :: 0 <= r < |requests| && Guesses(requests[r], o) ==> requests[r].user == u
    ensures Count(Checking(o), requests) + Count(Missing(o), requests) + Count(Matching(o), requests)
         <= Count(Verifying(u), requests)
  {
    if requests != [] {
      GuessersAreVerifying(requests[..|requests| - 1], o, u);
      var last := requests[|requests| - 1];
      assert In(last, Checking(o)) ==> In(last, Verifying(u));
      assert In(last, Missing(o)) ==> In(last, Verifying(u));
      assert In(last, Matching(o)) ==> In(last, Verifying(u));
    }
  }

  /**
   While a record can still be found, every comparison has been counted as an attempt or is about
   to be; and comparisons made or to come never exceed the limit and the other verifications.
   */
  ghost predicate WithinBudget(s: State, o: nat, k: nat) {
    o < |s.otps| ==>
      && (!Spent(s.otps[o]) ==>
           s.otps[o].compared
           == s.otps[o].attempts + Count(Missing(o), s.requests) + Count(Matching(o), s.requests))
      && s.otps[o].compared + Count(Checking(o), s.requests) <= OTP_MAX_ATTEMPTS - 1 + k
  }

  lemma NobodyGuesses(s: State, o: nat)
    requires Facts(s) && o >= |s.otps|
    ensures Count(Checking(o), s.requests) == Count(Missing(o), s.requests) == Count(Matching(o), s.requests) == 0
  {
    forall r | 0 <= r < |s.requests|
      ensures !Guesses(s.requests[r], o)
    {
      assert PcFact(s, r, s.requests[r]);
    }
    CountNone(Checking(o), s.requests);
    CountNone(Missing(o), s.requests);
    CountNone(Matching(o), s.requests);
  }

  lemma GuessersOf(s: State, o: nat, k: nat)
    requires Facts(s) && o < |s.otps| && Count(Verifying(s.otps[o].user), s.requests) <= k
    ensures Count(Checking(o), s.requests) + Count(Missing(o), s.requests) + Count(Matching(o), s.requests) <= k
  {
    forall r | 0 <= r < |s.requests| && Guesses(s.requests[r], o)
      ensures s.requests[r].user == s.otps[o].user
    {
      assert PcFact(s, r, s.requests[r]);
    }
    GuessersAreVerifying(s.requests, o, s.otps[o].user);
  }

  /** What a step does to one record's guessers, against what it does to the record. */
  ghost predicate Balanced(s: State, p: Plan, s': State, o: nat)
    requires o < |s.otps| && o < |s'.otps|
  {
    var a, b := s.otps[o], s'.otps[o];
    var checking, missing, matching := Change(s, p, Checking(o)), Change(s, p, Missing(o)), Change(s, p, Matching(o));
    && (!Spent(b) ==> b.compared - a.compared == b.attempts - a.attempts + missing + matching)
    && (b.compared - a.compared + checking <= 0
        || (!Spent(a) && b == a && a.attempts < OTP_MAX_ATTEMPTS && checking == 1 && missing == matching == 0))
  }

  lemma ResumeBalances(s: State, r: nat, found: Option<nat>, o: nat)
    requires r < |s.requests| && PcFact(s, r, s.requests[r]) && o < |s.otps|
    requires Resume(s, r, found).Continue?
    ensures o < |Execute(s, Resume(s, r, found)).otps|
    ensures Balanced(s, Resume(s, r, found), Execute(s, Resume(s, r, found)), o)
  {
  }

  lemma StartsGuessNothing(s: State, a: Action, o: nat)
    requires !PlanOf(s, a).Continue?
    ensures var p := PlanOf(s, a);
            && (p.Begin? ==> !Guesses(p.next, o))
            && (!p.Refuse? ==> !p.call.CompareOtp? && !p.call.MissOtp? && !p.call.AddOtp?)
  {
  }

  lemma StartsBalance(s: State, a: Action, o: nat)
    requires o < |s.otps| && !PlanOf(s, a).Continue?
    ensures o < |Step(s, a).otps| && Balanced(s, PlanOf(s, a), Step(s, a), o)
  {
    StartsGuessNothing(s, a, o);
    StepLater(s, a);
  }

  lemma StepsBalance(s: State, a: Action, o: nat)
    requires Facts(s) && o < |s.otps|
    ensures o < |Step(s, a).otps| && Balanced(s, PlanOf(s, a), Step(s, a), o)
  {
    StepLater(s, a);
    var p := PlanOf(s, a);
    if p.Continue? {
      assert PcFact(s, p.request, s.requests[p.request]);
      ResumeBalances(s, p.request, a.found, o);
    } else {
      StartsBalance(s, a, o);
    }
  }

  lemma NewRecordBalances(s: State, a: Action, o: nat)
    requires Facts(s) && |s.otps| <= o < |Step(s, a).otps|
    ensures var s' := Step(s, a);
            && s'.otps[o].compared == s'.otps[o].attempts == 0
            && Change(s, PlanOf(s, a), Checking(o)) == Change(s, PlanOf(s, a), Missing(o))
               == Change(s, PlanOf(s, a), Matching(o)) == 0
  {
    NewOtp(s, a);
    var p := PlanOf(s, a);
    assert p.Continue? && p.call.AddOtp? && s.requests[p.request].IssueCreate? && p.next.Done?;
  }

  lemma StepKeepsBudget(s: State, a: Action, o: nat, k: nat)
    requires Facts(s) && WithinBudget(s, o, k)
    requires o < |s.otps| ==> Facts(Step(s, a)) && Count(Verifying(s.otps[o].user), Step(s, a).requests) <= k
    ensures WithinBudget(Step(s, a), o, k)
  {
    var p, s' := PlanOf(s, a), Step(s, a);
    CountExecute(Checking(o), s, p);
    CountExecute(Missing(o), s, p);
    CountExecute(Matching(o), s, p);
    StepLater(s, a);
    if o < |s.otps| {
      assert OtpLater(s.otps[o], s'.otps[o]);
      StepsBalance(s, a, o);
      GuessersOf(s', o, k);
    } else if o < |s'.otps| {
      NobodyGuesses(s, o);
      NewRecordBalances(s, a, o);
    }
  }

  ghost predicate AtMost(s: State, actions: seq<Action>, c: Class, k: nat) {
    forall n :: 0 <= n <= |actions| ==> Count(c, Run(s, actions[..n]).requests) <= k
  }

  lemma AtMostPrefix(s: State, actions: seq<Action>, c: Class, k: nat)
    requires actions != [] && AtMost(s, actions, c, k)
    ensures AtMost(s, actions[..|actions| - 1], c, k)
    ensures Count(c, Run(s, actions).requests) <= k
  {
    var before := actions[..|actions| - 1];
    forall n | 0 <= n <= |before| ensures Count(c, Run(s, before[..n]).requests) <= k {
      assert before[..n] == actions[..n];
    }
    assert actions[..|actions|] == actions;
  }

  lemma {:induction false} BudgetKept(now: int, users: map<UserId, User>, actions: seq<Action>, o: nat, u: UserId, k: nat)
    requires AtMost(Start(now, users), actions, Verifying(u), k)
    ensures var s := Run(Start(now, users), actions);
            o < |s.otps| && s.otps[o].user == u ==> WithinBudget(s, o, k)
  {
    if actions != [] {
      var before, a := actions[..|actions| - 1], actions[|actions| - 1];
      AtMostPrefix(Start(now, users), actions, Verifying(u), k);
      BudgetKept(now, users, before, o, u, k);
      var s := Run(Start(now, users), before);
      RunKeepsSafe(Start(now, users), before);
      RunKeepsSafe(Start(now, users), actions);
      StepLater(s, a);
      if o < |Step(s, a).otps| && Step(s, a).otps[o].user == u {
        if o < |s.otps| {
          assert OtpLater(s.otps[o], Step(s, a).otps[o]);
        }
        StepKeepsBudget(s, a, o, k);
      }
    }
  }

  ghost predicate ComparedAtMost(s: State, u: UserId, bound: int) {
    forall o :: 0 <= o < |s.otps| && s.otps[o].user == u ==> s.otps[o].compared <= bound
  }

  /**
   With at most k verifications of a user in flight at any moment, at most OTP_MAX_ATTEMPTS + k - 1
   guesses are ever compared against one of the user's records; so the limit itself when k is 1.
   */
  lemma GuessesAreBounded(now: int, users: map<UserId, User>, actions: seq<Action>, u: UserId, k: nat)
    requires AtMost(Start(now, users), actions, Verifying(u), k)
    ensures ComparedAtMost(Run(Start(now, users), actions), u, OTP_MAX_ATTEMPTS + k - 1)
  {
    var s := Run(Start(now, users), actions);
    forall o | 0 <= o < |s.otps| && s.otps[o].user == u
      ensures s.otps[o].compared <= OTP_MAX_ATTEMPTS + k - 1
    {
      BudgetKept(now, users, actions, o, u, k);
    }
  }

  // ---- Records held by one user ----

  function LiveOtps(u: UserId, otps: seq<Otp>): nat {
    if otps == [] then 0
    else LiveOtps(u, otps[..|otps| - 1]) + One(otps[|otps| - 1].live && otps[|otps| - 1].user == u)
  }

  lemma {:induction false} LiveShrinks(u: UserId, a: seq<Otp>, b: seq<Otp>)
    requires |a| == |b| && OtpsLater(a, b)
    ensures LiveOtps(u, b) <= LiveOtps(u, a)
  {
    if a != [] {
      LiveShrinks(u, a[..|a| - 1], b[..|b| - 1]);
      assert OtpLater(a[|a| - 1], b[|b| - 1]);
    }
  }

  lemma {:induction false} NoneLive(u: UserId, otps: seq<Otp>)
    requires forall i :: 0 <= i < |otps| ==> !(otps[i].live && otps[i].user == u)
    ensures LiveOtps(u, otps) == 0
  {
    if otps != [] {
      NoneLive(u, otps[..|otps| - 1]);
    }
  }

  lemma {:induction false} CreatorsAreIssuing(u: UserId, requests: seq<Pc>)
    ensures Count(Creating(u), requests) <= Count(Issuing(u), requests)
  {
    if requests != [] {
      CreatorsAreIssuing(u, requests[..|requests| - 1]);
    }
  }

  /** Only clearing a user's records lets a request create one; only such a request does. */
  lemma CreationPlans(s: State, a: Action, u: UserId)
    ensures var p := PlanOf(s, a);
            var clears := !p.Refuse? && p.call == ClearOtps(u);
            var adds := !p.Refuse? && p.call.AddOtp?;
            && (clears || Change(s, p, Creating(u)) + One(adds && p.call.user == u) == 0)
  {
  }

  lemma ClearedOtps(s: State, p: Plan, u: UserId)
    requires !p.Refuse? && p.call == ClearOtps(u) && (p.Continue? ==> p.request < |s.requests|)
    ensures LiveOtps(u, Execute(s, p).otps) == 0
  {
    NoneLive(u, Execute(s, p).otps);
  }

  lemma AddedOtp(s: State, p: Plan, u: UserId)
    requires !p.Refuse? && p.call.AddOtp?
    ensures LiveOtps(u, Execute(s, p).otps) <= LiveOtps(u, s.otps) + One(p.call.user == u)
  {
  }

  lemma StepKeepsRecordsFew(s: State, a: Action, u: UserId, k: nat)
    requires LiveOtps(u, s.otps) + Count(Creating(u), s.requests) <= k
    requires Count(Issuing(u), Step(s, a).requests) <= k
    ensures LiveOtps(u, Step(s, a).otps) + Count(Creating(u), Step(s, a).requests) <= k
  {
    var p, s' := PlanOf(s, a), Step(s, a);
    CountExecute(Creating(u), s, p);
    CreationPlans(s, a, u);
    StepLater(s, a);
    if !p.Refuse? && p.call == ClearOtps(u) {
      ClearedOtps(s, p, u);
      CreatorsAreIssuing(u, s'.requests);
    } else if !p.Refuse? && p.call.AddOtp? {
      AddedOtp(s, p, u);
    } else {
      LiveShrinks(u, s.otps, s'.otps);
    }
  }

  /**
   With at most k issuers of a user in flight at any moment, across login, resend and forgotten
   password, the user's stored records and the issuers about to store one never exceed k; so a
   user never has two when issuing is serial.
   */
  lemma {:induction false} RecordsAreFew(now: int, users: map<UserId, User>, actions: seq<Action>, u: UserId, k: nat)
    requires AtMost(Start(now, users), actions, Issuing(u), k)
    ensures var s := Run(Start(now, users), actions);
            LiveOtps(u, s.otps) + Count(Creating(u), s.requests) <= k
  {
    if actions != [] {
      var before := actions[..|actions| - 1];
      AtMostPrefix(Start(now, users), actions, Issuing(u), k);
      RecordsAreFew(now, users, before, u, k);
      StepKeepsRecordsFew(Run(Start(now, users), before), actions[|actions| - 1], u, k);
    }
  }

  // ---- Requests accepted from an account that is shut out ----

  predicate ShutOut(s: State, u: UserId) {
    u !in s.users || (s.users[u].status != Active && s.users[u].status != Invited)
  }

  function AcceptedOf(u: UserId, log: seq<Acceptance>): nat {
    if log == [] then 0 else AcceptedOf(u, log[..|log| - 1]) + One(log[|log| - 1].user == u)
  }

  lemma AcceptPlans(s: State, a: Action, u: UserId)
    requires ShutOut(s, u)
    ensures var p := PlanOf(s, a);
            var accepts := !p.Refuse? && p.call.Accept? && p.call.user == u;
            && (accepts ==> p.Continue? && p.request < |s.requests|)
            && One(accepts) + Change(s, p, Validating(u)) <= 0
  {
  }

  lemma AcceptedGrows(s: State, p: Plan, u: UserId)
    requires p.Continue? ==> p.request < |s.requests|
    ensures AcceptedOf(u, Execute(s, p).accepted)
         == AcceptedOf(u, s.accepted) + One(!p.Refuse? && p.call.Accept? && p.call.user == u)
  {
    if !p.Refuse? && p.call.Accept? {
      assert Execute(s, p).accepted[..|s.accepted|] == s.accepted;
    }
  }

  lemma AcceptOnce(s: State, a: Action, u: UserId)
    requires ShutOut(s, u)
    ensures var p, s' := PlanOf(s, a), Step(s, a);
            AcceptedOf(u, s'.accepted) - AcceptedOf(u, s.accepted) + Change(s, p, Validating(u)) <= 0
  {
    PlansAreLawful(s, a);
    AcceptPlans(s, a, u);
    AcceptedGrows(s, PlanOf(s, a), u);
  }

  ghost predicate StaysShutOut(s: State, actions: seq<Action>, u: UserId) {
    forall n :: 0 <= n < |actions| ==> ShutOut(Run(s, actions[..n]), u)
  }

  /**
   While an account is missing, suspended, deactivated or awaiting approval, the requests accepted
   from it are at most the validations that had passed the account check before; none once those
   are over, whatever sessions the account holds or is still given.
   */
  lemma {:induction false} ShutOutIsFinal(s: State, actions: seq<Action>, u: UserId)
    requires StaysShutOut(s, actions, u)
    ensures var s' := Run(s, actions);
            AcceptedOf(u, s'.accepted) + Count(Validating(u), s'.requests)
            <= AcceptedOf(u, s.accepted) + Count(Validating(u), s.requests)
  {
    if actions != [] {
      var before, a := actions[..|actions| - 1], actions[|actions| - 1];
      forall n | 0 <= n < |before| ensures ShutOut(Run(s, before[..n]), u) {
        assert before[..n] == actions[..n];
      }
      ShutOutIsFinal(s, before, u);
      var t := Run(s, before);
      AcceptOnce(t, a, u);
      CountExecute(Validating(u), t, PlanOf(t, a));
    }
  }
}
