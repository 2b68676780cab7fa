/** What each account operation leaves, told without the operations' own steps, and whom it shuts out. */
module AccountsPromises {
  import opened Outcomes
  import Decimal
  import opened Accounts
  import opened AccountsLaws

  /** A run performs its actions one after the other. */
  lemma {:induction false} RunPerforms(s: State, first: seq<Action>, a: Action, second: seq<Action>)
    ensures Run(s, first + [a] + second) == Run(Perform(Run(s, first), a).state, second)
  {
    if second == [] {
      assert first + [a] + second == first + [a];
      assert (first + [a])[..|first|] == first;
    } else {
      RunPerforms(s, first, a, second[..|second| - 1]);
      assert (first + [a] + second)[..|first + [a] + second| - 1] == first + [a] + second[..|second| - 1];
    }
  }

  // ---- What codes look like ----

  lemma {:induction false} WidthSix()
    ensures Decimal.Pow10(6) == 1000000
  {
    assert Decimal.Pow10(3) == 1000;
    assert Decimal.Pow10(6) == 1000 * Decimal.Pow10(3);
  }

  /** `EMP-` and the number, in six digits while it fits and in as many as it needs after that. */
  lemma CounterCodeIs(n: nat)
    ensures var code := CounterCode(n);
            && |code| >= 10 && code[..4] == "EMP-" && Decimal.AllDigits(code[4..]) && Decimal.Value(code[4..]) == n
            && (|code| == 10 <==> n < 1000000)
            && (n >= 1000000 ==> code[4] != '0')
  {
    var digits := Decimal.Render(n, EMPLOYEE_WIDTH);
    assert CounterCode(n)[4..] == digits;
    Decimal.RenderValue(n, EMPLOYEE_WIDTH);
    Decimal.ToStringLength(n, 6);
    Decimal.NoLeadingZero(n);
    WidthSix();
  }

  lemma RandomCodeIs(digits: nat)
    requires 100000 <= digits < 999999
    ensures var code := RandomCode(digits);
            |code| == 10 && code[..4] == "EMP-" && Decimal.AllDigits(code[4..]) && Decimal.Value(code[4..]) == digits
  {
    assert RandomCode(digits)[4..] == Decimal.ToString(digits);
    Decimal.ToStringValue(digits);
    Decimal.ToStringLength(digits, 6);
    Decimal.ToStringLength(digits, 5);
    WidthSix();
    assert Decimal.Pow10(6) == 10 * Decimal.Pow10(5);
  }

  // ---- Who is found, who is new ----

  /** An id and an email that no stored account and no profile has. */
  predicate Unknown(s: State, u: UserId, email: string) {
    && u !in s.users
    && (forall i :: 0 <= i < |s.employees| ==> s.employees[i].user != u)
    && (forall v :: v in s.users ==> s.users[v].email != email)
  }

  predicate Known(s: State, u: UserId, email: string) {
    u in s.users && s.users[u].email == email
  }

  predicate Profiled(s: State, u: UserId) {
    exists i :: 0 <= i < |s.employees| && s.employees[i].user == u
  }

  predicate Taken(s: State, code: string) {
    exists i :: 0 <= i < |s.employees| && s.employees[i].code == code
  }

  /** The purge, if it strikes at that instant, takes this account: pending, and more than a day old. */
  predicate Swept(s: State, u: UserId, purge: Option<int>) {
    && purge.Some? && u in s.users && s.users[u].status == PendingApproval
    && s.users[u].createdAt < purge.value - 24 * 60 * 60 * 1000
  }

  /** Accounts other than `u`: swept or as they were. */
  ghost predicate OthersKept(s: State, s': State, u: UserId, purge: Option<int>) {
    forall v :: v != u ==>
      && (v in s'.users <==> v in s.users && !Swept(s, v, purge))
      && (v in s'.users ==> s'.users[v] == s.users[v])
  }

  /** A profile under this code if neither user nor code has one yet; otherwise the unique indexes refuse it. */
  ghost predicate ProfileAdded(s: State, s': State, u: UserId, code: string, result: Result<(), Error>) {
    if Profiled(s, u) || Taken(s, code) then s'.employees == s.employees && result == Failure(DuplicateKey)
    else s'.employees == s.employees + [Employee(u, code)] && result == Success(())
  }

  /** A query finds the account of that email if there is one; draws and statuses are those the code writes. */
  lemma PossibleExactly(s: State, u: UserId, email: string, now: int, i: nat, code: nat, digits: nat,
                        status: Status, purge: Option<int>)
    ensures Possible(s, Hire(u, email, now)) <==> Known(s, u, email) || Unknown(s, u, email)
    ensures Possible(s, Onboard(u, email, now, purge)) <==> Known(s, u, email) || Unknown(s, u, email)
    ensures Possible(s, Register(u, email, now, code)) <==>
              (Known(s, u, email) || Unknown(s, u, email)) && 100000 <= code < 1000000
    ensures Possible(s, FirebaseLogin(u, email, now, digits)) <==>
              (Known(s, u, email) || Unknown(s, u, email)) && 100000 <= digits < 999999
    ensures Possible(s, VerifyRegistration(u, code, now, digits, purge)) <==> u in s.users && 100000 <= digits < 999999
    ensures Possible(s, Approve(u, purge)) <==> u in s.users
    ensures Possible(s, SetEmployeeStatus(i, status)) <==>
              i < |s.employees| && (status == Suspended || status == Deactivated || status == Active)
  {
    assert HasEmployee(s, u) <==> Profiled(s, u);
    assert EmailTaken(s, email) <==> exists v :: v in s.users && s.users[v].email == email;
  }

  // ---- The operations ----

  /** A purge deletes exactly the accounts that are pending and more than a day old. */
  lemma PurgeExact(s: State, now: int)
    ensures var o := Perform(s, Purge(now));
            && o.state.employees == s.employees && o.state.counter == s.counter
            && forall v :: (v in o.state.users <==> v in s.users && !Swept(s, v, Some(now)))
                           && (v in o.state.users ==> o.state.users[v] == s.users[v])
  {
  }

  lemma SameProfiles(s: State, t: State, u: UserId, code: string)
    requires t.employees == s.employees
    ensures HasEmployee(t, u) <==> Profiled(s, u)
    ensures CodeTaken(t, code) <==> Taken(s, code)
  {
  }

  /** An account of that email is refused; an unknown one is created, Invited, and given the next number. */
  lemma HireExact(s: State, u: UserId, email: string, now: int)
    requires Known(s, u, email) || Unknown(s, u, email)
    ensures var o := Perform(s, Hire(u, email, now));
            if u in s.users then o == Outcome(s, Failure(if Profiled(s, u) then Conflict else DuplicateKey))
            else
              && o.state.users == s.users[u := User(email, Invited, now, None)]
              && o.state.counter == s.counter + 1
              && ProfileAdded(s, o.state, u, CounterCode(s.counter + 1), o.result)
  {
    SameProfiles(s, Count(InsertUser(s, u, email, now)), u, CounterCode(s.counter + 1));
  }

  /**
   Onboarding makes the account Active, created if need be, unless the purge takes it meanwhile; a user
   with a profile keeps it, and another gets one under the next number unless that number is taken.
   */
  lemma OnboardingExact(s: State, u: UserId, email: string, now: int, purge: Option<int>)
    requires Known(s, u, email) || Unknown(s, u, email)
    ensures var o := Perform(s, Onboard(u, email, now, purge));
            && OthersKept(s, o.state, u, purge)
            && (u in o.state.users <==> !Swept(s, u, purge))
            && (u in o.state.users ==>
                 o.state.users[u] == if u in s.users then s.users[u].(status := Active) else User(email, Active, now, None))
            && o.state.counter == s.counter + 1
            && (if Profiled(s, u) then o.state.employees == s.employees && o.result == Success(())
                else ProfileAdded(s, o.state, u, CounterCode(s.counter + 1), o.result))
            && (o.result.Success? ==> Profiled(o.state, u))
  {
    var known := if u in s.users then s else InsertUser(s, u, email, now);
    OnboardUsers(s, u, email, now, purge);
    SameProfiles(s, Count(SetStatus(MaybePurge(known, purge), u, Active)), u, CounterCode(s.counter + 1));
    var o := Perform(s, Onboard(u, email, now, purge));
    if o.state.employees != s.employees {
      assert o.state.employees[|s.employees|].user == u;
    }
  }

  /** Suspending, deactivating or reactivating sets the status of the profile's account, and nothing else. */
  lemma SetEmployeeStatusExact(s: State, i: nat, status: Status)
    requires i < |s.employees| && (status == Suspended || status == Deactivated || status == Active)
    ensures var o, u := Perform(s, SetEmployeeStatus(i, status)), s.employees[i].user;
            && o.result == Success(())
            && o.state == s.(users := if u in s.users then s.users[u := s.users[u].(status := status)] else s.users)
  {
  }

  /** Only a pending account is approved: made Active, counted, and given the literal code unless it is taken. */
  lemma ApprovalExact(s: State, u: UserId, purge: Option<int>)
    requires u in s.users
    ensures var o := Perform(s, Approve(u, purge));
            if s.users[u].status != PendingApproval then o == Outcome(s, Failure(NotPending))
            else
              && OthersKept(s, o.state, u, purge)
              && if Swept(s, u, purge) then
                   && u !in o.state.users && o.state.employees == s.employees && o.state.counter == s.counter
                   && o.result == Failure(DocumentGone)
                 else
                   && u in o.state.users && o.state.users[u] == s.users[u].(status := Active)
                   && o.state.counter == s.counter + 1
                   && ProfileAdded(s, o.state, u, "EMP-$num", o.result)
  {
    ApproveUsers(s, u, purge);
    SameProfiles(s, Count(SetStatus(MaybePurge(s, purge), u, Active)), u, "EMP-$num");
  }

  /** Registration is refused to an active account only; it starts a quarter of an hour for this code. */
  lemma RegisterExact(s: State, u: UserId, email: string, now: int, code: nat)
    requires Known(s, u, email) || Unknown(s, u, email)
    requires 100000 <= code < 1000000
    ensures var o := Perform(s, Register(u, email, now, code));
            var registration := Some(Registration(code, now + 15 * 60 * 1000));
            if u in s.users && s.users[u].status == Active then o == Outcome(s, Failure(Conflict))
            else
              && o.result == Success(())
              && o.state == s.(users := s.users[u := if u in s.users then s.users[u].(registration := registration)
                                                     else User(email, Invited, now, registration)])
  {
  }

  /** The right code in time ends the registration and makes the account Active, with a profile if it had none. */
  lemma VerifyRegistrationExact(s: State, u: UserId, code: nat, now: int, digits: nat, purge: Option<int>)
    requires u in s.users && 100000 <= digits < 999999
    ensures var o := Perform(s, VerifyRegistration(u, code, now, digits, purge));
            var asked := s.users[u].registration;
            if asked.None? || asked.value.code != code || asked.value.expiresAt < now then
              o == Outcome(s, Failure(Unauthorized))
            else
              && OthersKept(s, o.state, u, purge) && o.state.counter == s.counter
              && (u in o.state.users <==> !Swept(s, u, purge))
              && (u in o.state.users ==> o.state.users[u] == s.users[u].(status := Active, registration := None))
              && (if Profiled(s, u) then o.state.employees == s.employees && o.result == Success(())
                  else ProfileAdded(s, o.state, u, RandomCode(digits), o.result))
  {
    VerifyUsers(s, u, code, now, digits, purge);
    SameProfiles(s, Registered(MaybePurge(s, purge), u), u, RandomCode(digits));
  }

  /** A first Firebase login creates an Active account with a profile, or an Invited one if the code is taken. */
  lemma FirebaseLoginExact(s: State, u: UserId, email: string, now: int, digits: nat)
    requires (Known(s, u, email) || Unknown(s, u, email)) && 100000 <= digits < 999999
    ensures var o := Perform(s, FirebaseLogin(u, email, now, digits));
            if u in s.users then o == Outcome(s, Success(()))
            else
              && o.state.counter == s.counter
              && ProfileAdded(s, o.state, u, RandomCode(digits), o.result)
              && o.state.users == s.users[u := User(email, if o.result.Success? then Active else Invited, now, None)]
  {
    SameProfiles(s, InsertUser(s, u, email, now), u, RandomCode(digits));
  }

  /** An invitation makes its account Active; a GitHub login does if the account was Invited. */
  lemma ActivationsExact(s: State, u: UserId)
    ensures Perform(s, SetupPassword(u)).state
         == s.(users := if u in s.users then s.users[u := s.users[u].(status := Active)] else s.users)
    ensures Perform(s, GithubLogin(u)).state
         == s.(users := if u in s.users && s.users[u].status == Invited
                        then s.users[u := s.users[u].(status := Active)] else s.users)
  {
  }

  // ---- Whom an operation shuts out ----

  predicate Suspends(s: State, a: Action, u: UserId) {
    && a.SetEmployeeStatus? && a.employee < |s.employees| && s.employees[a.employee].user == u && u in s.users
    && (a.status == Suspended || a.status == Deactivated)
  }

  /** The dual of `SuspensionLiftedExactly`: only suspending or deactivating its own profile shuts an account out. */
  lemma BecomesShutOutExactly(s: State, a: Action, u: UserId)
    requires !ShutOut(s, u)
    ensures ShutOut(Perform(s, a).state, u) <==> Suspends(s, a, u)
    ensures Suspends(s, a, u) ==> Perform(s, a).state.users[u].status == a.status
  {
    if Possible(s, a) {
      match a
      case Hire(v, email, now) => HireUsers(s, v, email, now);
      case Onboard(v, email, now, purge) => OnboardUsers(s, v, email, now, purge);
      case Approve(v, purge) => ApproveUsers(s, v, purge);
      case VerifyRegistration(v, code, now, digits, purge) => VerifyUsers(s, v, code, now, digits, purge);
      case SetEmployeeStatus(i, status) => SetEmployeeStatusExact(s, i, status);
      case _ =>
    }
  }
}
