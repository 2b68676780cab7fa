/**
 User accounts, employee profiles and employee numbers: every operation that writes them, the unique
 indexes that guard them, and the nightly purge of accounts that stay pending approval. Operations
 run one at a time, except that the purge may also strike inside an operation, between its read of
 an account and its first write to it.
 */
module Accounts {
  import opened Outcomes
  import Decimal

  type UserId = nat

  const DAY: int := 86_400_000
  const REGISTRATION_EXPIRY: int := 15 * 60_000
  const EMPLOYEE_WIDTH: nat := 6

  datatype Status = Invited | PendingApproval | Active | Suspended | Deactivated

  /** The six digits mailed for a registration under way, and how long they are good. */
  datatype Registration = Registration(code: nat, expiresAt: int)

  datatype User = User(email: string, status: Status, createdAt: int, registration: Option<Registration>)

  datatype Employee = Employee(user: UserId, code: string)

  datatype State = State(users: map<UserId, User>, employees: seq<Employee>, counter: nat)

  datatype Error = Impossible | Conflict | DuplicateKey | NotPending | DocumentGone | Unauthorized

  /** `user` is the account a query finds, or the id of the account about to be created. */
  datatype Action =
    | Purge(now: int)
    | Hire(user: UserId, email: string, now: int)                            // EmployeesService.create
    | Onboard(user: UserId, email: string, now: int, purge: Option<int>)     // onboardByFirebaseUid
    | SetEmployeeStatus(employee: nat, status: Status)                       // suspend, deactivate, reactivate
    | Approve(user: UserId, purge: Option<int>)                              // UsersService.approveUser
    | Register(user: UserId, email: string, now: int, code: nat)
    | VerifyRegistration(user: UserId, code: nat, now: int, digits: nat, purge: Option<int>)
    | FirebaseLogin(user: UserId, email: string, now: int, digits: nat)
    | SetupPassword(user: UserId)                                            // by invitation
    | GithubLogin(user: UserId)                                              // validateGithubUser

  // ---- Employee numbers ----

  /** EmployeesService.generateEmployeeId */
  function CounterCode(n: nat): string {
    "EMP-" + Decimal.Render(n, EMPLOYEE_WIDTH)
  }

  /** The six random digits of self-service accounts. */
  function RandomCode(digits: nat): string {
    "EMP-" + Decimal.ToString(digits)
  }

  predicate Drawn(digits: nat) {
    100000 <= digits < 999999
  }

  /** UsersService.generateEmployeeId: a plain string, where a template was meant. */
  const APPROVAL_CODE: string := "EMP-$num"

  // ---- Database calls ----

  predicate HasEmployee(s: State, user: UserId) {
    exists i :: 0 <= i < |s.employees| && s.employees[i].user == user
  }

  predicate CodeTaken(s: State, code: string) {
    exists i :: 0 <= i < |s.employees| && s.employees[i].code == code
  }

  predicate EmailTaken(s: State, email: string) {
    exists u :: u in s.users && s.users[u].email == email
  }

  /** A unique index on the user and one on the code. */
  function InsertEmployee(s: State, user: UserId, code: string): Result<State, Error> {
    if HasEmployee(s, user) || CodeTaken(s, code) then Failure(DuplicateKey)
    else Success(s.(employees := s.employees + [Employee(user, code)]))
  }

  /** New accounts are Invited. */
  function InsertUser(s: State, user: UserId, email: string, now: int): State {
    s.(users := s.users[user := User(email, Invited, now, None)])
  }

  function SetStatus(s: State, user: UserId, status: Status): State {
    if user in s.users then s.(users := s.users[user := s.users[user].(status := status)]) else s
  }

  function SetRegistration(s: State, user: UserId, registration: Option<Registration>): State {
    if user in s.users then s.(users := s.users[user := s.users[user].(registration := registration)]) else s
  }

  function Count(s: State): State {
    s.(counter := s.counter + 1)
  }

  predicate Purgeable(s: State, user: UserId, now: int) {
    user in s.users && s.users[user].status == PendingApproval && s.users[user].createdAt < now - DAY
  }

  function PurgePending(s: State, now: int): State {
    s.(users := map u | u in s.users && !Purgeable(s, u, now) :: s.users[u])
  }

  function MaybePurge(s: State, purge: Option<int>): State {
    if purge.Some? then PurgePending(s, purge.value) else s
  }

  // ---- Operations ----

  /** An id never used before, for an email never used before. */
  predicate Fresh(s: State, user: UserId, email: string) {
    user !in s.users && !HasEmployee(s, user) && !EmailTaken(s, email)
  }

  predicate FoundBy(s: State, user: UserId, email: string) {
    user in s.users && s.users[user].email == email
  }

  /** What queries can answer, what random draws can give, and which statuses are ever written. */
  predicate Possible(s: State, a: Action) {
    match a
    case Hire(u, email, _) => FoundBy(s, u, email) || Fresh(s, u, email)
    case Onboard(u, email, _, _) => FoundBy(s, u, email) || Fresh(s, u, email)
    case SetEmployeeStatus(i, status) =>
      i < |s.employees| && (status == Suspended || status == Deactivated || status == Active)
    case Approve(u, _) => u in s.users
    case Register(u, email, _, code) => (FoundBy(s, u, email) || Fresh(s, u, email)) && 100000 <= code < 1000000
    case VerifyRegistration(u, _, _, digits, _) => u in s.users && Drawn(digits)
    case FirebaseLogin(u, email, _, digits) => (FoundBy(s, u, email) || Fresh(s, u, email)) && Drawn(digits)
    case _ => true
  }

  /** The state an operation leaves, and how it ends for its caller. */
  datatype Outcome = Outcome(state: State, result: Result<(), Error>)

  function Ended(s: State, inserted: Result<State, Error>): Outcome {
    match inserted
    case Success(s') => Outcome(s', Success(()))
    case Failure(e) => Outcome(s, Failure(e))
  }

  function HireOutcome(s: State, u: UserId, email: string, now: int): Outcome {
    if u in s.users then
      // with a profile refused outright, without one refused by the unique index on the email
      Outcome(s, Failure(if HasEmployee(s, u) then Conflict else DuplicateKey))
    else
      var numbered := Count(InsertUser(s, u, email, now));
      Ended(numbered, InsertEmployee(numbered, u, CounterCode(numbered.counter)))
  }

  function OnboardOutcome(s: State, u: UserId, email: string, now: int, purge: Option<int>): Outcome {
    var known := if u in s.users then s else InsertUser(s, u, email, now);
    var numbered := Count(SetStatus(MaybePurge(known, purge), u, Active));
    if HasEmployee(numbered, u) then Outcome(numbered, Success(()))
    else Ended(numbered, InsertEmployee(numbered, u, CounterCode(numbered.counter)))
  }

  function ApproveOutcome(s: State, u: UserId, purge: Option<int>): Outcome
    requires u in s.users
  {
    if s.users[u].status != PendingApproval then Outcome(s, Failure(NotPending))
    else
      var later := MaybePurge(s, purge);
      if u !in later.users then Outcome(later, Failure(DocumentGone))
      else
        var numbered := Count(SetStatus(later, u, Active));
        Ended(numbered, InsertEmployee(numbered, u, APPROVAL_CODE))
  }

  /** A registration of this account is under way, not expired, and the code is right. */
  predicate Verifiable(s: State, u: UserId, code: nat, now: int) {
    && u in s.users && s.users[u].registration.Some?
    && s.users[u].registration.value.code == code && now <= s.users[u].registration.value.expiresAt
  }

  /** One update: Active, and no registration under way any more. */
  function Registered(s: State, u: UserId): State {
    SetRegistration(SetStatus(s, u, Active), u, None)
  }

  function VerifyOutcome(s: State, u: UserId, code: nat, now: int, digits: nat, purge: Option<int>): Outcome {
    var active := Registered(MaybePurge(s, purge), u);
    if !Verifiable(s, u, code, now) then Outcome(s, Failure(Unauthorized))
    else if HasEmployee(active, u) then Outcome(active, Success(()))
    else Ended(active, InsertEmployee(active, u, RandomCode(digits)))
  }

  function FirebaseOutcome(s: State, u: UserId, email: string, now: int, digits: nat): Outcome {
    if u in s.users then Outcome(s, Success(()))
    else
      var created := InsertUser(s, u, email, now);
      var employed := InsertEmployee(created, u, RandomCode(digits));
      if employed.Failure? then Outcome(created, Failure(employed.error))
      else Outcome(SetStatus(employed.value, u, Active), Success(()))
  }

  function RegisterOutcome(s: State, u: UserId, email: string, now: int, code: nat): Outcome {
    if u in s.users && s.users[u].status == Active then Outcome(s, Failure(Conflict))
    else
      var known := if u in s.users then s else InsertUser(s, u, email, now);
      Outcome(SetRegistration(known, u, Some(Registration(code, now + REGISTRATION_EXPIRY))), Success(()))
  }

  function GithubOutcome(s: State, u: UserId): Outcome {
    Outcome(if u in s.users && s.users[u].status == Invited then SetStatus(s, u, Active) else s, Success(()))
  }

  function Perform(s: State, a: Action): Outcome {
    if !Possible(s, a) then Outcome(s, Failure(Impossible))
    else
      match a
      case Purge(now) => Outcome(PurgePending(s, now), Success(()))
      case Hire(u, email, now) => HireOutcome(s, u, email, now)
      case Onboard(u, email, now, purge) => OnboardOutcome(s, u, email, now, purge)
      case SetEmployeeStatus(i, status) => Outcome(SetStatus(s, s.employees[i].user, status), Success(()))
      case Approve(u, purge) => ApproveOutcome(s, u, purge)
      case Register(u, email, now, code) => RegisterOutcome(s, u, email, now, code)
      case VerifyRegistration(u, code, now, digits, purge) => VerifyOutcome(s, u, code, now, digits, purge)
      case FirebaseLogin(u, email, now, digits) => FirebaseOutcome(s, u, email, now, digits)
      case SetupPassword(u) => Outcome(SetStatus(s, u, Active), Success(()))
      case GithubLogin(u) => GithubOutcome(s, u)
  }

  function Run(s: State, actions: seq<Action>): State {
    if actions == [] then s else Perform(Run(s, actions[..|actions| - 1]), actions[|actions| - 1]).state
  }

  // ---- The same operations as the services carry them out ----

  class Services {
    var users: map<UserId, User>
    var employees: seq<Employee>
    var counter: nat

    function View(): State
      reads this
    {
      State(users, employees, counter)
    }

    constructor ()
      ensures View() == State(map[], [], 0)
    {
      users, employees, counter := map[], [], 0;
    }

    method UpdateStatus(u: UserId, status: Status)
      modifies this`users
      ensures View() == SetStatus(old(View()), u, status)
    {
      if u in users {
        users := users[u := users[u].(status := status)];
      }
    }

    method CreateUser(u: UserId, email: string, now: int)
      modifies this`users
      ensures View() == InsertUser(old(View()), u, email, now)
    {
      users := users[u := User(email, Invited, now, None)];
    }

    method SaveEmployee(u: UserId, code: string) returns (result: Result<(), Error>)
      modifies this`employees
      ensures Outcome(View(), result) == Ended(old(View()), InsertEmployee(old(View()), u, code))
    {
      if HasEmployee(View(), u) || CodeTaken(View(), code) {
        return Failure(DuplicateKey);
      }
      employees := employees + [Employee(u, code)];
      result := Success(());
    }

    method GenerateEmployeeId() returns (code: string)
      modifies this`counter
      ensures View() == Count(old(View())) && code == CounterCode(counter)
    {
      counter := counter + 1;
      code := CounterCode(counter);
    }

    method CleanupPendingUsers(now: int)
      modifies this`users
      ensures View() == PurgePending(old(View()), now)
    {
      users := map u | u in users && !(users[u].status == PendingApproval && users[u].createdAt < now - DAY) :: users[u];
    }

    method Interrupt(purge: Option<int>)
      modifies this`users
      ensures View() == MaybePurge(old(View()), purge)
    {
      if purge.Some? {
        CleanupPendingUsers(purge.value);
      }
    }

    method CreateEmployee(u: UserId, email: string, now: int) returns (result: Result<(), Error>)
      requires Possible(View(), Hire(u, email, now))
      modifies this
      ensures Outcome(View(), result) == Perform(old(View()), Hire(u, email, now))
    {
      if u in users {
        if HasEmployee(View(), u) {
          return Failure(Conflict);
        }
        return Failure(DuplicateKey);
      }
      CreateUser(u, email, now);
      var code := GenerateEmployeeId();
      result := SaveEmployee(u, code);
    }

    method OnboardByFirebaseUid(u: UserId, email: string, now: int, purge: Option<int>)
      returns (result: Result<(), Error>)
      requires Possible(View(), Onboard(u, email, now, purge))
      modifies this
      ensures Outcome(View(), result) == Perform(old(View()), Onboard(u, email, now, purge))
    {
      if u !in users {
        CreateUser(u, email, now);
      }
      Interrupt(purge);
      UpdateStatus(u, Active);
      var code := GenerateEmployeeId();
      if HasEmployee(View(), u) {
        return Success(());
      }
      result := SaveEmployee(u, code);
    }

    method ApproveUser(u: UserId, purge: Option<int>) returns (result: Result<(), Error>)
      requires Possible(View(), Approve(u, purge))
      modifies this
      ensures Outcome(View(), result) == Perform(old(View()), Approve(u, purge))
    {
      if users[u].status != PendingApproval {
        return Failure(NotPending);
      }
      Interrupt(purge);
      if u !in users {
        return Failure(DocumentGone);
      }
      UpdateStatus(u, Active);
      var _ := GenerateEmployeeId();
      result := SaveEmployee(u, APPROVAL_CODE);
    }

    method RegisterAccount(u: UserId, email: string, now: int, code: nat) returns (result: Result<(), Error>)
      requires Possible(View(), Register(u, email, now, code))
      modifies this`users
      ensures Outcome(View(), result) == Perform(old(View()), Register(u, email, now, code))
    {
      if u in users && users[u].status == Active {
        return Failure(Conflict);
      }
      if u !in users {
        CreateUser(u, email, now);
      }
      users := users[u := users[u].(registration := Some(Registration(code, now + REGISTRATION_EXPIRY)))];
      result := Success(());
    }

    method VerifyRegistrationOtp(u: UserId, code: nat, now: int, digits: nat, purge: Option<int>)
      returns (result: Result<(), Error>)
      requires Possible(View(), VerifyRegistration(u, code, now, digits, purge))
      modifies this
      ensures Outcome(View(), result) == Perform(old(View()), VerifyRegistration(u, code, now, digits, purge))
    {
      var registration := users[u].registration;
      if registration.None? || registration.value.code != code || registration.value.expiresAt < now {
        return Failure(Unauthorized);
      }
      Interrupt(purge);
      if u in users {
        users := users[u := users[u].(status := Active, registration := None)];
      }
      if HasEmployee(View(), u) {
        return Success(());
      }
      result := SaveEmployee(u, RandomCode(digits));
    }
  }
}
