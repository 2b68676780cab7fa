/** When every employee profile belongs to a usable account, and when employee numbers are unique. */
module AccountsLaws {
  import opened Outcomes
  import Decimal
  import opened Accounts

  // ---- Integrity ----

  predicate Usable(s: State, u: UserId) {
    u in s.users && s.users[u].status != PendingApproval
  }

  /** Every profile names an existing account that is not pending; nobody has two; codes are unique. */
  ghost predicate Integrity(s: State) {
    && (forall i :: 0 <= i < |s.employees| ==> Usable(s, s.employees[i].user))
    && (forall i, j :: 0 <= i < j < |s.employees| ==>
          s.employees[i].user != s.employees[j].user && s.employees[i].code != s.employees[j].code)
  }

  /**
   A purge inside an operation that goes on to create a profile for the account just purged: known
   beforehand from the account's status and age and from the code to be used.
   */
  predicate Endangers(s: State, a: Action) {
    Possible(s, a) &&
    match a
    case Onboard(u, _, _, purge) =>
      purge.Some? && Purgeable(s, u, purge.value) && !CodeTaken(s, CounterCode(s.counter + 1))
    case VerifyRegistration(u, code, now, digits, purge) =>
      Verifiable(s, u, code, now) && purge.Some? && Purgeable(s, u, purge.value) && !CodeTaken(s, RandomCode(digits))
    case _ => false
  }

  /** Accounts may come, change status or go, so long as those with a profile stay usable. */
  ghost predicate KeepsUsable(s: State, s': State) {
    s'.employees == s.employees && forall u :: Usable(s, u) ==> Usable(s', u)
  }

  lemma KeptUsers(s: State, s': State)
    requires Integrity(s) && KeepsUsable(s, s')
    ensures Integrity(s')
  {
  }

  lemma InsertKeeps(s: State, u: UserId, code: string)
    requires Integrity(s) && Usable(s, u)
    ensures Integrity(Ended(s, InsertEmployee(s, u, code)).state)
  {
  }

  lemma InsertBreaks(s: State, u: UserId, code: string)
    requires u !in s.users && !HasEmployee(s, u) && !CodeTaken(s, code)
    ensures !Integrity(Ended(s, InsertEmployee(s, u, code)).state)
  {
    var s' := Ended(s, InsertEmployee(s, u, code)).state;
    assert s'.employees[|s.employees|] == Employee(u, code);
    assert !Usable(s', s'.employees[|s.employees|].user);
  }

  lemma HireKeeps(s: State, u: UserId, email: string, now: int)
    requires Integrity(s)
    ensures Integrity(HireOutcome(s, u, email, now).state)
  {
  }

  lemma ActiveAgain(s: State, u: UserId, purge: Option<int>)
    requires Integrity(s)
    ensures var active := SetStatus(MaybePurge(s, purge), u, Active);
            && Integrity(active)
            && active.employees == s.employees
            && (Usable(active, u) <==> u in s.users && !(purge.Some? && Purgeable(s, u, purge.value)))
            && (!Usable(active, u) ==> u !in active.users)
  {
  }

  /** Under integrity an account that can be purged has no profile. */
  lemma NoProfile(s: State, u: UserId)
    requires Integrity(s)
    ensures u in s.users && s.users[u].status == PendingApproval ==> !HasEmployee(s, u)
  {
  }

  lemma OnboardExact(s: State, u: UserId, email: string, now: int, purge: Option<int>)
    requires Integrity(s) && Possible(s, Onboard(u, email, now, purge))
    ensures Integrity(OnboardOutcome(s, u, email, now, purge).state)
       <==> !(purge.Some? && Purgeable(s, u, purge.value) && !CodeTaken(s, CounterCode(s.counter + 1)))
  {
    var known := if u in s.users then s else InsertUser(s, u, email, now);
    KeptUsers(s, known);
    ActiveAgain(known, u, purge);
    var numbered := Count(SetStatus(MaybePurge(known, purge), u, Active));
    KeptUsers(SetStatus(MaybePurge(known, purge), u, Active), numbered);
    var code := CounterCode(numbered.counter);
    if Usable(numbered, u) {
      InsertKeeps(numbered, u, code);
    } else {
      NoProfile(s, u);
      assert CodeTaken(numbered, code) <==> CodeTaken(s, code);
      if !CodeTaken(numbered, code) {
        InsertBreaks(numbered, u, code);
      }
    }
  }

  lemma RegisteredAgain(s: State, u: UserId, purge: Option<int>)
    requires Integrity(s)
    ensures var active := Registered(MaybePurge(s, purge), u);
            && Integrity(active)
            && active.employees == s.employees
            && (Usable(active, u) <==> u in s.users && !(purge.Some? && Purgeable(s, u, purge.value)))
            && (!Usable(active, u) ==> u !in active.users)
  {
    ActiveAgain(s, u, purge);
    KeptUsers(SetStatus(MaybePurge(s, purge), u, Active), Registered(MaybePurge(s, purge), u));
  }

  lemma VerifyExact(s: State, u: UserId, code: nat, now: int, digits: nat, purge: Option<int>)
    requires Integrity(s) && Verifiable(s, u, code, now)
    ensures Integrity(VerifyOutcome(s, u, code, now, digits, purge).state)
       <==> !(purge.Some? && Purgeable(s, u, purge.value) && !CodeTaken(s, RandomCode(digits)))
  {
    RegisteredAgain(s, u, purge);
    var active := Registered(MaybePurge(s, purge), u);
    if Usable(active, u) {
      InsertKeeps(active, u, RandomCode(digits));
    } else {
      NoProfile(s, u);
      assert CodeTaken(active, RandomCode(digits)) <==> CodeTaken(s, RandomCode(digits));
      if !CodeTaken(active, RandomCode(digits)) {
        InsertBreaks(active, u, RandomCode(digits));
      }
    }
  }

  lemma ApproveKeeps(s: State, u: UserId, purge: Option<int>)
    requires Integrity(s) && u in s.users
    ensures Integrity(ApproveOutcome(s, u, purge).state)
  {
  }

  lemma FirebaseKeeps(s: State, u: UserId, email: string, now: int, digits: nat)
    requires Integrity(s)
    ensures Integrity(FirebaseOutcome(s, u, email, now, digits).state)
  {
  }

  /** An operation breaks integrity exactly when a purge strikes inside it as described. */
  lemma IntegrityExact(s: State, a: Action)
    requires Integrity(s)
    ensures Integrity(Perform(s, a).state) <==> !Endangers(s, a)
  {
    if Possible(s, a) {
      match a
      case Purge(now) => KeptUsers(s, PurgePending(s, now));
      case Hire(u, email, now) => HireKeeps(s, u, email, now);
      case Onboard(u, email, now, purge) => OnboardExact(s, u, email, now, purge);
      case SetEmployeeStatus(i, status) => KeptUsers(s, SetStatus(s, s.employees[i].user, status));
      case Approve(u, purge) => ApproveKeeps(s, u, purge);
      case Register(u, email, now, code) => KeptUsers(s, RegisterOutcome(s, u, email, now, code).state);
      case VerifyRegistration(u, code, now, digits, purge) =>
        if Verifiable(s, u, code, now) { VerifyExact(s, u, code, now, digits, purge); }
      case FirebaseLogin(u, email, now, digits) => FirebaseKeeps(s, u, email, now, digits);
      case SetupPassword(u) => KeptUsers(s, SetStatus(s, u, Active));
      case GithubLogin(u) => KeptUsers(s, GithubOutcome(s, u).state);
    }
  }

  /** Runs in which the purge strikes anywhere but there keep integrity. */
  lemma {:induction false} RunsKeepIntegrity(s: State, actions: seq<Action>)
    requires Integrity(s)
    requires forall n :: 0 <= n < |actions| ==> !Endangers(Run(s, actions[..n]), actions[n])
    ensures Integrity(Run(s, actions))
  {
    if actions != [] {
      var before := actions[..|actions| - 1];
      forall n | 0 <= n < |before| ensures !Endangers(Run(s, before[..n]), before[n]) {
        assert before[..n] == actions[..n];
      }
      RunsKeepIntegrity(s, before);
      IntegrityExact(Run(s, before), actions[|actions| - 1]);
    }
  }

  ghost predicate NobodyPending(s: State) {
    forall u :: u in s.users ==> s.users[u].status != PendingApproval
  }

  lemma ActivationLeavesNobodyPending(s: State, u: UserId, purge: Option<int>)
    requires NobodyPending(s)
    ensures NobodyPending(SetStatus(MaybePurge(s, purge), u, Active)) && NobodyPending(MaybePurge(s, purge))
  {
  }

  lemma NobodyBecomesPending(s: State, a: Action)
    requires NobodyPending(s)
    ensures NobodyPending(Perform(s, a).state)
  {
    match a
    case Onboard(u, email, now, purge) =>
      ActivationLeavesNobodyPending(if u in s.users then s else InsertUser(s, u, email, now), u, purge);
    case Approve(u, purge) => ActivationLeavesNobodyPending(s, u, purge);
    case VerifyRegistration(u, _, _, _, purge) => ActivationLeavesNobodyPending(s, u, purge);
    case _ =>
  }

  /** One pending account with a registration under way. */
  function Registering(): State {
    State(map[1 := User("a@b.c", PendingApproval, 0, Some(Registration(123456, DAY + 2)))], [], 0)
  }

  /** Such a purge does break integrity: the profile is left naming an account that is gone. */
  lemma PurgeInsideVerificationDangles()
    ensures var a := VerifyRegistration(1, 123456, DAY + 1, 100000, Some(DAY + 1));
            Integrity(Registering()) && !Integrity(Perform(Registering(), a).state)
  {
    IntegrityExact(Registering(), VerifyRegistration(1, 123456, DAY + 1, 100000, Some(DAY + 1)));
  }

  /**
   No operation makes an account pending, so from a store without pending accounts, an empty one in
   particular, integrity holds over every run with purges anywhere.
   */
  lemma {:induction false} WithoutPendingAccounts(s: State, actions: seq<Action>)
    requires Integrity(s) && NobodyPending(s)
    ensures Integrity(Run(s, actions)) && NobodyPending(Run(s, actions))
  {
    if actions != [] {
      var before, a := actions[..|actions| - 1], actions[|actions| - 1];
      WithoutPendingAccounts(s, before);
      IntegrityExact(Run(s, before), a);
      NobodyBecomesPending(Run(s, before), a);
    }
  }

  // ---- Employee numbers ----

  lemma CodeDigits(m: nat, digits: nat)
    requires Drawn(digits)
    ensures CounterCode(m) == RandomCode(digits) <==> m == digits
  {
    assert Decimal.Pow10(5) == 10 * Decimal.Pow10(4) == 100000 by {
      assert Decimal.Pow10(2) == 100 && Decimal.Pow10(4) == 100 * Decimal.Pow10(2);
    }
    Decimal.ToStringLength(digits, 5);
    Decimal.RenderValue(m, EMPLOYEE_WIDTH);
    Decimal.ToStringValue(digits);
    assert CounterCode(m)[4..] == Decimal.Render(m, EMPLOYEE_WIDTH);
    assert RandomCode(digits)[4..] == Decimal.ToString(digits);
  }

  lemma CounterCodesDiffer(m: nat, n: nat)
    ensures CounterCode(m) == CounterCode(n) <==> m == n
  {
    Decimal.RenderInjective(m, n, EMPLOYEE_WIDTH);
    assert CounterCode(m)[4..] == Decimal.Render(m, EMPLOYEE_WIDTH);
    assert CounterCode(n)[4..] == Decimal.Render(n, EMPLOYEE_WIDTH);
  }

  lemma ApprovalCodeStandsApart(m: nat)
    ensures CounterCode(m) != APPROVAL_CODE
  {
  }

  /** Where a stored code came from: the counter, a random draw, or an approval. */
  ghost predicate KnownCode(code: string, counter: nat) {
    || (exists n :: 1 <= n <= counter && code == CounterCode(n))
    || (exists d :: Drawn(d) && code == RandomCode(d))
    || code == APPROVAL_CODE
  }

  ghost predicate KnownCodes(s: State) {
    forall i :: 0 <= i < |s.employees| ==> KnownCode(s.employees[i].code, s.counter)
  }

  ghost predicate NewCode(code: string, counter: nat) {
    || (counter >= 1 && code == CounterCode(counter))
    || (exists d :: Drawn(d) && code == RandomCode(d))
    || code == APPROVAL_CODE
  }

  /** The stored profiles are left alone and at most one is added, under a code of a known kind. */
  ghost predicate Adds(s: State, s': State) {
    && s.counter <= s'.counter
    && (s'.employees == s.employees
        || (|s'.employees| == |s.employees| + 1 && s.employees <= s'.employees
            && NewCode(s'.employees[|s.employees|].code, s'.counter)))
  }

  lemma InsertAdds(s: State, t: State, u: UserId, code: string)
    requires t.employees == s.employees && s.counter <= t.counter && NewCode(code, t.counter)
    ensures Adds(s, Ended(t, InsertEmployee(t, u, code)).state)
  {
  }

  lemma OnboardAdds(s: State, u: UserId, email: string, now: int, purge: Option<int>)
    ensures Adds(s, OnboardOutcome(s, u, email, now, purge).state)
  {
    var known := if u in s.users then s else InsertUser(s, u, email, now);
    InsertAdds(s, Count(SetStatus(MaybePurge(known, purge), u, Active)), u, CounterCode(s.counter + 1));
  }

  lemma VerifyAdds(s: State, u: UserId, code: nat, now: int, digits: nat, purge: Option<int>)
    requires Drawn(digits)
    ensures Adds(s, VerifyOutcome(s, u, code, now, digits, purge).state)
  {
    assert NewCode(RandomCode(digits), s.counter);
    InsertAdds(s, Registered(MaybePurge(s, purge), u), u, RandomCode(digits));
  }

  lemma FirebaseAdds(s: State, u: UserId, email: string, now: int, digits: nat)
    requires Drawn(digits)
    ensures Adds(s, FirebaseOutcome(s, u, email, now, digits).state)
  {
    assert NewCode(RandomCode(digits), s.counter);
    InsertAdds(s, InsertUser(s, u, email, now), u, RandomCode(digits));
  }

  lemma ApproveAdds(s: State, u: UserId, purge: Option<int>)
    requires u in s.users
    ensures Adds(s, ApproveOutcome(s, u, purge).state)
  {
    InsertAdds(s, Count(SetStatus(MaybePurge(s, purge), u, Active)), u, APPROVAL_CODE);
  }

  lemma HireAdds(s: State, u: UserId, email: string, now: int)
    ensures Adds(s, HireOutcome(s, u, email, now).state)
  {
    InsertAdds(s, Count(InsertUser(s, u, email, now)), u, CounterCode(s.counter + 1));
  }

  lemma PerformAdds(s: State, a: Action)
    ensures Adds(s, Perform(s, a).state)
  {
    if Possible(s, a) {
      match a
      case Hire(u, email, now) => HireAdds(s, u, email, now);
      case Onboard(u, email, now, purge) => OnboardAdds(s, u, email, now, purge);
      case Approve(u, purge) => ApproveAdds(s, u, purge);
      case VerifyRegistration(u, code, now, digits, purge) => VerifyAdds(s, u, code, now, digits, purge);
      case FirebaseLogin(u, email, now, digits) => FirebaseAdds(s, u, email, now, digits);
      case _ =>
    }
  }

  lemma KnownAdds(s: State, s': State)
    requires KnownCodes(s) && Adds(s, s')
    ensures KnownCodes(s')
  {
    forall i | 0 <= i < |s'.employees| ensures KnownCode(s'.employees[i].code, s'.counter) {
      if i < |s.employees| {
        assert KnownCode(s.employees[i].code, s.counter);
      }
    }
  }

  lemma {:induction false} CodesStayKnown(actions: seq<Action>)
    ensures KnownCodes(Run(State(map[], [], 0), actions))
  {
    if actions != [] {
      CodesStayKnown(actions[..|actions| - 1]);
      var before := Run(State(map[], [], 0), actions[..|actions| - 1]);
      PerformAdds(before, actions[|actions| - 1]);
      KnownAdds(before, Perform(before, actions[|actions| - 1]).state);
    }
  }

  lemma CodeSource(code: string, counter: nat, next: nat)
    requires KnownCode(code, counter) && code == CounterCode(next) && next > counter
    ensures Drawn(next) && code == RandomCode(next)
  {
    ApprovalCodeStandsApart(next);
    forall n | 1 <= n <= counter ensures code != CounterCode(n) {
      CounterCodesDiffer(n, next);
    }
    var d :| Drawn(d) && code == RandomCode(d);
    CodeDigits(next, d);
  }

  lemma NextCode(s: State)
    requires KnownCodes(s)
    ensures CodeTaken(s, CounterCode(s.counter + 1))
       <==> Drawn(s.counter + 1) && CodeTaken(s, RandomCode(s.counter + 1))
  {
    var next := s.counter + 1;
    forall i | 0 <= i < |s.employees| && s.employees[i].code == CounterCode(next)
      ensures Drawn(next) && s.employees[i].code == RandomCode(next)
    {
      CodeSource(s.employees[i].code, s.counter, next);
    }
    if Drawn(next) {
      CodeDigits(next, next);
    }
  }

  /**
   The next number is taken exactly when an earlier random draw happens to be it, which is only
   possible from 100000 on.
   */
  lemma NextCodeTakenExactly(actions: seq<Action>)
    ensures var s := Run(State(map[], [], 0), actions);
            && (CodeTaken(s, CounterCode(s.counter + 1))
                <==> Drawn(s.counter + 1) && CodeTaken(s, RandomCode(s.counter + 1)))
            && (s.counter + 1 < 100000 ==> !CodeTaken(s, CounterCode(s.counter + 1)))
  {
    CodesStayKnown(actions);
    NextCode(Run(State(map[], [], 0), actions));
  }

  /** Hiring a new account succeeds, with the next number, unless an earlier random draw took it. */
  lemma HiringSucceedsExactly(actions: seq<Action>, u: UserId, email: string, now: int)
    requires Fresh(Run(State(map[], [], 0), actions), u, email)
    ensures var s := Run(State(map[], [], 0), actions);
            var o := Perform(s, Hire(u, email, now));
            && (o.result.Success? <==> !(Drawn(s.counter + 1) && CodeTaken(s, RandomCode(s.counter + 1))))
            && (o.result.Success? ==>
                 o.state.employees == s.employees + [Employee(u, CounterCode(s.counter + 1))])
  {
    NextCodeTakenExactly(actions);
    var s := Run(State(map[], [], 0), actions);
    var numbered := Count(InsertUser(s, u, email, now));
    assert CodeTaken(numbered, CounterCode(s.counter + 1)) <==> CodeTaken(s, CounterCode(s.counter + 1));
    assert HasEmployee(numbered, u) <==> HasEmployee(s, u);
  }

  // ---- Approval ----

  /** Approval gives a profile exactly when no earlier approval has: all use one literal code. */
  lemma ApprovalSucceedsExactly(s: State, u: UserId, purge: Option<int>)
    requires Integrity(s) && u in s.users && s.users[u].status == PendingApproval
    requires !(purge.Some? && Purgeable(s, u, purge.value))
    ensures var o := Perform(s, Approve(u, purge));
            && (o.result.Success? <==> !CodeTaken(s, APPROVAL_CODE))
            && (HasEmployee(o.state, u) <==> o.result.Success?)
            && u in o.state.users && o.state.users[u].status == Active
  {
    NoProfile(s, u);
    var numbered := Count(SetStatus(MaybePurge(s, purge), u, Active));
    assert CodeTaken(numbered, APPROVAL_CODE) <==> CodeTaken(s, APPROVAL_CODE);
    assert HasEmployee(numbered, u) <==> HasEmployee(s, u);
    var o := Perform(s, Approve(u, purge));
    if o.result.Success? {
      assert o.state.employees[|s.employees|].user == u;
    }
  }

  lemma {:induction false} ProfilesStay(s: State, actions: seq<Action>)
    ensures s.employees <= Run(s, actions).employees
  {
    if actions != [] {
      ProfilesStay(s, actions[..|actions| - 1]);
      PerformAdds(Run(s, actions[..|actions| - 1]), actions[|actions| - 1]);
    }
  }

  /** After one approval has succeeded, no later one ever does. */
  lemma OnlyOneApproval(s: State, u: UserId, purge: Option<int>, later: seq<Action>, v: UserId, purge': Option<int>)
    requires Possible(s, Approve(u, purge)) && Perform(s, Approve(u, purge)).result.Success?
    ensures !Perform(Run(Perform(s, Approve(u, purge)).state, later), Approve(v, purge')).result.Success?
  {
    var s1 := Perform(s, Approve(u, purge)).state;
    var s2 := Run(s1, later);
    ProfilesStay(s1, later);
    assert s1.employees[|s1.employees| - 1].code == APPROVAL_CODE;
    assert s2.employees[|s1.employees| - 1].code == APPROVAL_CODE;
    if v in s2.users {
      var numbered := Count(SetStatus(MaybePurge(s2, purge'), v, Active));
      assert numbered.employees == s2.employees;
      assert CodeTaken(numbered, APPROVAL_CODE);
    }
  }

  // ---- Suspension ----

  predicate ShutOut(s: State, u: UserId) {
    u in s.users && (s.users[u].status == Suspended || s.users[u].status == Deactivated)
  }

  /** Reactivating, onboarding, an invitation, or a registration under way whose code is entered in time. */
  predicate Lifts(s: State, a: Action, u: UserId) {
    match a
    case SetEmployeeStatus(i, status) => i < |s.employees| && s.employees[i].user == u && status == Active
    case Onboard(v, _, _, _) => v == u
    case SetupPassword(v) => v == u
    case VerifyRegistration(v, code, now, _, _) => v == u && Verifiable(s, u, code, now)
    case _ => false
  }

  lemma InsertKeepsUsers(s: State, u: UserId, code: string)
    ensures Ended(s, InsertEmployee(s, u, code)).state.users == s.users
  {
  }

  lemma OnboardUsers(s: State, u: UserId, email: string, now: int, purge: Option<int>)
    ensures var known := if u in s.users then s else InsertUser(s, u, email, now);
            OnboardOutcome(s, u, email, now, purge).state.users == SetStatus(MaybePurge(known, purge), u, Active).users
  {
    var known := if u in s.users then s else InsertUser(s, u, email, now);
    InsertKeepsUsers(Count(SetStatus(MaybePurge(known, purge), u, Active)), u, CounterCode(s.counter + 1));
  }

  lemma ApproveUsers(s: State, u: UserId, purge: Option<int>)
    requires u in s.users
    ensures ApproveOutcome(s, u, purge).state.users
         == if s.users[u].status == PendingApproval then SetStatus(MaybePurge(s, purge), u, Active).users else s.users
  {
    InsertKeepsUsers(Count(SetStatus(MaybePurge(s, purge), u, Active)), u, APPROVAL_CODE);
  }

  lemma VerifyUsers(s: State, u: UserId, code: nat, now: int, digits: nat, purge: Option<int>)
    ensures VerifyOutcome(s, u, code, now, digits, purge).state.users
         == if Verifiable(s, u, code, now) then Registered(MaybePurge(s, purge), u).users else s.users
  {
    InsertKeepsUsers(Registered(MaybePurge(s, purge), u), u, RandomCode(digits));
  }

  lemma HireUsers(s: State, u: UserId, email: string, now: int)
    ensures HireOutcome(s, u, email, now).state.users
         == if u in s.users then s.users else InsertUser(s, u, email, now).users
  {
    InsertKeepsUsers(Count(InsertUser(s, u, email, now)), u, CounterCode(s.counter + 1));
  }

  /** A suspended or deactivated account stays, and stays shut out exactly unless one of these is done. */
  lemma SuspensionLiftedExactly(s: State, a: Action, u: UserId)
    requires ShutOut(s, u)
    ensures var s' := Perform(s, a).state;
            && u in s'.users
            && (!ShutOut(s', u) <==> Possible(s, a) && Lifts(s, a, u))
            && (!ShutOut(s', u) ==> s'.users[u].status == Active)
  {
    if Possible(s, a) {
      match a
      case Hire(v, email, now) => HireUsers(s, v, email, now);
      case Onboard(v, email, now, purge) => OnboardUsers(s, v, email, now, purge);
      case Approve(v, purge) => ApproveUsers(s, v, purge);
      case VerifyRegistration(v, code, now, digits, purge) => VerifyUsers(s, v, code, now, digits, purge);
      case _ =>
    }
  }

  ghost predicate LiftedAt(s: State, actions: seq<Action>, n: nat, u: UserId) {
    && n < |actions| && ShutOut(Run(s, actions[..n]), u)
    && Possible(Run(s, actions[..n]), actions[n]) && Lifts(Run(s, actions[..n]), actions[n], u)
  }

  /** So an account shut out before a run and not after it was let back in by one of these. */
  lemma {:induction false} LiftedBySomething(s: State, actions: seq<Action>, u: UserId)
    requires ShutOut(s, u) && !ShutOut(Run(s, actions), u)
    ensures exists n: nat :: LiftedAt(s, actions, n, u)
  {
    var before, a := actions[..|actions| - 1], actions[|actions| - 1];
    if ShutOut(Run(s, before), u) {
      SuspensionLiftedExactly(Run(s, before), a, u);
      assert LiftedAt(s, actions, |before|, u);
    } else {
      LiftedBySomething(s, before, u);
      var n: nat :| LiftedAt(s, before, n, u);
      assert before[..n] == actions[..n];
      assert LiftedAt(s, actions, n, u);
    }
  }

  /** Action `m` of the run was a registration that this code and instant answer. */
  ghost predicate RegisteredAt(actions: seq<Action>, m: nat, u: UserId, code: nat, now: int) {
    && m < |actions| && actions[m].Register? && actions[m].user == u
    && actions[m].code == code && now <= actions[m].now + REGISTRATION_EXPIRY
  }

  ghost predicate WasRegistered(actions: seq<Action>, u: UserId, code: nat, now: int) {
    exists m: nat :: RegisteredAt(actions, m, u, code, now)
  }

  /** A registration under way after a step was so before it, or this step began it. */
  lemma RegistrationGoesOn(s: State, a: Action, u: UserId)
    requires u in Perform(s, a).state.users && Perform(s, a).state.users[u].registration.Some?
    ensures var kept := Perform(s, a).state.users[u].registration;
            || (u in s.users && s.users[u].registration == kept)
            || (a.Register? && a.user == u && kept == Some(Registration(a.code, a.now + REGISTRATION_EXPIRY)))
  {
    if Possible(s, a) {
      match a
      case Hire(v, email, now) => HireUsers(s, v, email, now);
      case Onboard(v, email, now, purge) => OnboardUsers(s, v, email, now, purge);
      case Approve(v, purge) => ApproveUsers(s, v, purge);
      case VerifyRegistration(v, code, now, digits, purge) => VerifyUsers(s, v, code, now, digits, purge);
      case _ =>
    }
  }

  /** A code can only complete a registration asked for in the run, at most 15 minutes before. */
  lemma {:induction false} VerifiableWasRegistered(actions: seq<Action>, u: UserId, code: nat, now: int)
    requires Verifiable(Run(State(map[], [], 0), actions), u, code, now)
    ensures WasRegistered(actions, u, code, now)
  {
    if actions != [] {
      var before, a := actions[..|actions| - 1], actions[|actions| - 1];
      var s := Run(State(map[], [], 0), before);
      RegistrationGoesOn(s, a, u);
      if Verifiable(s, u, code, now) {
        VerifiableWasRegistered(before, u, code, now);
        var m: nat :| RegisteredAt(before, m, u, code, now);
        assert RegisteredAt(actions, m, u, code, now);
      } else {
        assert RegisteredAt(actions, |before|, u, code, now);
      }
    }
  }

  /** Registering again and entering the mailed code in time does lift a suspension. */
  lemma RegistrationLifts(s: State, u: UserId, email: string, now: int, code: nat, later: int, digits: nat)
    requires ShutOut(s, u) && FoundBy(s, u, email) && Drawn(digits) && 100000 <= code < 1000000
    requires later <= now + REGISTRATION_EXPIRY
    ensures var asked := Perform(s, Register(u, email, now, code));
            var done := Perform(asked.state, VerifyRegistration(u, code, later, digits, None));
            && asked.result.Success? && ShutOut(asked.state, u)
            && u in done.state.users && done.state.users[u].status == Active
  {
    var asked := Perform(s, Register(u, email, now, code)).state;
    assert Verifiable(asked, u, code, later);
    SuspensionLiftedExactly(asked, VerifyRegistration(u, code, later, digits, None), u);
  }
}
