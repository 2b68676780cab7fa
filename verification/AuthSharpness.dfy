/**
 The two counting bounds cannot be lowered: for every k some run with k requests in flight meets
 each. Guesses: one login, four wrong guesses in turn, then k guesses that all read the record
 before any compares. Records: k logins that all delete before any creates.
 */
module AuthSharpness {
  import opened Outcomes
  import opened AuthMachine
  import opened AuthCounting
  import Service = AuthService

  const CODE: nat := 123456

  /** One user, 0, whose password is the empty word. */
  function Begun(): State {
    Start(0, map[0 := User(Active, Some(Bcrypt(Typed(""))), true)])
  }

  /** Holds the start and every step that leaves at most k requests of class c in flight. */
  ghost predicate Closed(states: iset<State>, c: Class, k: nat) {
    && Begun() in states
    && forall s, a :: s in states && Count(c, Step(s, a).requests) <= k ==> Step(s, a) in states
  }

  lemma {:induction false} FewInFlight(requests: seq<Pc>, from: nat)
    requires from <= |requests|
    requires forall r :: 0 <= r < from ==> !In(requests[r], Verifying(0))
    ensures Count(Verifying(0), requests) <= |requests| - from
  {
    if |requests| > from {
      FewInFlight(requests[..|requests| - 1], from);
    } else {
      CountNone(Verifying(0), requests);
    }
  }

  // ---- One after another ----

  const WRONG: Secret := Random(0)

  /** A wrong guess that has read the record after `missed` misses. */
  function Check(missed: nat): Pc {
    VerifyCheck(0, WRONG, 0, CodeHash(CODE), missed)
  }

  /** The login code after `missed` misses and `pending` more comparisons. */
  function Guessed(missed: nat, pending: nat): Otp {
    Otp(0, CodeHash(CODE), OTP_EXPIRY, missed, false, true, missed + pending, 0, None, LoginCode(CODE))
  }

  /** A login and `missed` wrong guesses are over. */
  function Quiet(missed: nat): State {
    Begun().(otps := [Guessed(missed, 0)], requests := seq(1 + missed, _ => Done))
  }

  lemma Alone(s: State, pc: Pc, k: nat)
    requires forall r :: 0 <= r < |s.requests| ==> !In(s.requests[r], Verifying(0))
    requires k >= 1
    ensures Count(Verifying(0), Service.At(s, pc).requests) <= k
  {
    FewInFlight(Service.At(s, pc).requests, |s.requests|);
  }

  const DELETING := IssueDelete(0, CodeHash(CODE), OTP_EXPIRY, LoginCode(CODE))
  const CREATING := IssueCreate(0, CodeHash(CODE), OTP_EXPIRY, LoginCode(CODE))

  lemma LoginBegins(s: State)
    requires s.users == Begun().users
    ensures Step(s, Login(0, Typed(""), CODE)) == Service.At(s, DELETING)
  {
    Service.RequestBegins(s, Login(0, Typed(""), CODE), DELETING);
  }

  lemma LoginSteps()
    ensures var s, again := Begun(), Proceed(0, None);
            && Step(s, Login(0, Typed(""), CODE)) == Service.At(s, DELETING)
            && Step(Service.At(s, DELETING), again) == Service.At(s, CREATING)
            && Step(Service.At(s, CREATING), again) == Quiet(0)
  {
    LoginBegins(Begun());
    Service.IssueClears(Begun(), 0, CodeHash(CODE), OTP_EXPIRY, LoginCode(CODE));
    Service.IssueStores(Begun(), 0, CodeHash(CODE), OTP_EXPIRY, LoginCode(CODE));
  }

  lemma CreatingReached(states: iset<State>, k: nat)
    requires Closed(states, Verifying(0), k) && k >= 1
    ensures Service.At(Begun(), CREATING) in states
  {
    LoginSteps();
    Alone(Begun(), DELETING, k);
    Alone(Begun(), CREATING, k);
  }

  lemma LoginReached(states: iset<State>, k: nat)
    requires Closed(states, Verifying(0), k) && k >= 1
    ensures Quiet(0) in states
  {
    CreatingReached(states, k);
    LoginSteps();
    FewInFlight(Quiet(0).requests, 1);
  }

  /** A guess enters and reads the record, whatever else is in flight. */
  lemma Enters(states: iset<State>, s: State, missed: nat, k: nat)
    requires Closed(states, Verifying(0), k) && s in states
    requires s.users == Begun().users && s.now == 0 && s.otps == [Guessed(missed, 0)]
    requires Count(Verifying(0), s.requests) + 1 <= k
    ensures Service.At(s, Check(missed)) in states
    ensures Count(Verifying(0), Service.At(s, Check(missed)).requests) <= Count(Verifying(0), s.requests) + 1
  {
    Service.VerifyBegins(s, 0, WRONG, 0);
    CountAppend(Verifying(0), s.requests, VerifyFind(0, WRONG));
    CountAppend(Verifying(0), s.requests, Check(missed));
  }

  /** The guess has been compared, its miss not yet written. */
  function Missed(missed: nat): State {
    Quiet(missed).(otps := [Guessed(missed, 1)])
  }

  lemma CompareStep(missed: nat)
    requires missed < OTP_MAX_ATTEMPTS
    ensures Step(Service.At(Quiet(missed), Check(missed)), Proceed(1 + missed, None))
         == Service.At(Missed(missed), VerifyMiss(0, 0))
  {
    Service.OtpStep(Quiet(missed), Check(missed), 0, CompareOtp(0), VerifyMiss(0, 0));
  }

  lemma MissStep(missed: nat)
    ensures Step(Service.At(Missed(missed), VerifyMiss(0, 0)), Proceed(1 + missed, None)) == Quiet(missed + 1)
  {
  }

  lemma OneMiss(states: iset<State>, missed: nat, k: nat)
    requires Closed(states, Verifying(0), k) && missed < OTP_MAX_ATTEMPTS && k >= 1
    requires Service.At(Quiet(missed), Check(missed)) in states
    ensures Quiet(missed + 1) in states
  {
    CompareStep(missed);
    MissStep(missed);
    Alone(Missed(missed), VerifyMiss(0, 0), k);
    FewInFlight(Quiet(missed + 1).requests, missed + 2);
  }

  lemma {:induction false} MissesReached(states: iset<State>, missed: nat, k: nat)
    requires Closed(states, Verifying(0), k) && missed < OTP_MAX_ATTEMPTS && k >= 1
    ensures Quiet(missed) in states
  {
    if missed == 0 {
      LoginReached(states, k);
    } else {
      MissesReached(states, missed - 1, k);
      FewInFlight(Quiet(missed - 1).requests, missed);
      Enters(states, Quiet(missed - 1), missed - 1, k);
      OneMiss(states, missed - 1, k);
    }
  }

  // ---- All at once ----

  function Repeat(pc: Pc, n: nat): seq<Pc> {
    seq(n, _ => pc)
  }

  /** After `missed` misses `entered` more guesses have read the record; the first `fired` have compared. */
  function Crowd(missed: nat, entered: nat, fired: nat): State
    requires fired <= entered
  {
    Quiet(missed).(
      otps := [Guessed(missed, fired)],
      requests := Quiet(missed).requests + Repeat(VerifyMiss(0, 0), fired) + Repeat(Check(missed), entered - fired))
  }

  lemma CrowdSize(missed: nat, entered: nat, fired: nat)
    requires fired <= entered
    ensures Count(Verifying(0), Crowd(missed, entered, fired).requests) <= entered
  {
    FewInFlight(Crowd(missed, entered, fired).requests, 1 + missed);
  }

  lemma OneEnters(states: iset<State>, missed: nat, entered: nat, k: nat)
    requires Closed(states, Verifying(0), k) && missed < OTP_MAX_ATTEMPTS
    requires entered < k && Crowd(missed, entered, 0) in states
    ensures Crowd(missed, entered + 1, 0) in states
  {
    CrowdSize(missed, entered, 0);
    Enters(states, Crowd(missed, entered, 0), missed, k);
    assert Service.At(Crowd(missed, entered, 0), Check(missed)) == Crowd(missed, entered + 1, 0);
  }

  lemma {:induction false} CrowdEnters(states: iset<State>, missed: nat, entered: nat, k: nat)
    requires Closed(states, Verifying(0), k) && missed < OTP_MAX_ATTEMPTS && entered <= k && k >= 1
    ensures Crowd(missed, entered, 0) in states
  {
    if entered == 0 {
      MissesReached(states, missed, k);
      assert Quiet(missed) == Crowd(missed, 0, 0);
    } else {
      CrowdEnters(states, missed, entered - 1, k);
      OneEnters(states, missed, entered - 1, k);
    }
  }

  lemma FireStep(missed: nat, fired: nat, k: nat)
    requires missed < OTP_MAX_ATTEMPTS && fired < k
    ensures Step(Crowd(missed, k, fired), Proceed(1 + missed + fired, None)) == Crowd(missed, k, fired + 1)
  {
    var s, r := Crowd(missed, k, fired), 1 + missed + fired;
    assert s.requests[r] == Check(missed);
    Service.OtpOnly(s, 0, CompareOtp(0), r, s.requests[r := VerifyMiss(0, 0)]);
    assert s.requests[r := VerifyMiss(0, 0)] == Crowd(missed, k, fired + 1).requests;
  }

  lemma OneFires(states: iset<State>, missed: nat, fired: nat, k: nat)
    requires Closed(states, Verifying(0), k) && missed < OTP_MAX_ATTEMPTS && fired < k && Crowd(missed, k, fired) in states
    ensures Crowd(missed, k, fired + 1) in states
  {
    FireStep(missed, fired, k);
    CrowdSize(missed, k, fired + 1);
  }

  lemma {:induction false} CrowdFires(states: iset<State>, missed: nat, fired: nat, k: nat)
    requires Closed(states, Verifying(0), k) && missed < OTP_MAX_ATTEMPTS && fired <= k && k >= 1
    ensures Crowd(missed, k, fired) in states
  {
    if fired == 0 {
      CrowdEnters(states, missed, k, k);
    } else {
      CrowdFires(states, missed, fired - 1, k);
      OneFires(states, missed, fired - 1, k);
    }
  }

  // ---- Records ----

  function Record(issuer: nat): Otp {
    Otp(0, CodeHash(CODE), OTP_EXPIRY, 0, false, true, 0, issuer, None, LoginCode(CODE))
  }

  /** `entered` logins have deleted the old records; the first `stored` have created theirs. */
  function Stored(entered: nat, stored: nat): State
    requires stored <= entered
  {
    Begun().(otps := seq(stored, i requires 0 <= i < stored => Record(i)),
             requests := Repeat(Done, stored) + Repeat(CREATING, entered - stored))
  }

  lemma {:induction false} FewIssuing(requests: seq<Pc>, k: nat)
    requires |requests| <= k
    ensures Count(Issuing(0), requests) <= k
  {
    if requests != [] {
      FewIssuing(requests[..|requests| - 1], k - 1);
    }
  }

  lemma EnterSteps(entered: nat)
    ensures var s, deleting := Stored(entered, 0), DELETING;
            && Step(s, Login(0, Typed(""), CODE)) == Service.At(s, deleting)
            && Step(Service.At(s, deleting), Proceed(entered, None)) == Stored(entered + 1, 0)
  {
    var s := Stored(entered, 0);
    LoginBegins(s);
    Service.IssueClears(s, 0, CodeHash(CODE), OTP_EXPIRY, LoginCode(CODE));
    assert Service.Cleared(0, s.otps) == s.otps;
    assert Service.At(s, CREATING) == Stored(entered + 1, 0);
  }

  lemma LoginEnters(states: iset<State>, entered: nat, k: nat)
    requires Closed(states, Issuing(0), k) && entered < k && Stored(entered, 0) in states
    ensures Stored(entered + 1, 0) in states
  {
    EnterSteps(entered);
    FewIssuing(Service.At(Stored(entered, 0), DELETING).requests, k);
    FewIssuing(Stored(entered + 1, 0).requests, k);
  }

  lemma {:induction false} LoginsEnter(states: iset<State>, entered: nat, k: nat)
    requires Closed(states, Issuing(0), k) && entered <= k
    ensures Stored(entered, 0) in states
  {
    if entered == 0 {
      assert Stored(0, 0) == Begun();
    } else {
      LoginsEnter(states, entered - 1, k);
      LoginEnters(states, entered - 1, k);
    }
  }

  lemma StoreStep(stored: nat, k: nat)
    requires stored < k
    ensures Step(Stored(k, stored), Proceed(stored, None)) == Stored(k, stored + 1)
  {
  }

  lemma {:induction false} LoginsStore(states: iset<State>, stored: nat, k: nat)
    requires Closed(states, Issuing(0), k) && stored <= k
    ensures Stored(k, stored) in states
  {
    if stored == 0 {
      LoginsEnter(states, k, k);
    } else {
      LoginsStore(states, stored - 1, k);
      StoreStep(stored - 1, k);
      FewIssuing(Stored(k, stored).requests, k);
    }
  }

  lemma {:induction false} AllLive(otps: seq<Otp>)
    requires forall i :: 0 <= i < |otps| ==> otps[i].live && otps[i].user == 0
    ensures LiveOtps(0, otps) == |otps|
  {
    if otps != [] {
      AllLive(otps[..|otps| - 1]);
    }
  }

  // ---- Both bounds are exact ----

  /** Some run leads to `to` with at most k requests of class c in flight at any moment. */
  ghost predicate Reachable(to: State, c: Class, k: nat) {
    exists actions :: AtMost(Begun(), actions, c, k) && Run(Begun(), actions) == to
  }

  ghost function ReachableStates(c: Class, k: nat): iset<State> {
    iset s: State | Reachable(s, c, k)
  }

  lemma Extend(before: seq<Action>, a: Action, c: Class, k: nat)
    requires AtMost(Begun(), before, c, k)
    requires Count(c, Run(Begun(), before + [a]).requests) <= k
    ensures AtMost(Begun(), before + [a], c, k)
  {
    forall n | 0 <= n <= |before + [a]| ensures Count(c, Run(Begun(), (before + [a])[..n]).requests) <= k {
      if n <= |before| {
        assert (before + [a])[..n] == before[..n];
      } else {
        assert (before + [a])[..n] == before + [a];
      }
    }
  }

  lemma ReachableIsClosed(c: Class, k: nat)
    ensures Closed(ReachableStates(c, k), c, k)
  {
    assert Run(Begun(), []) == Begun();
    assert AtMost(Begun(), [], c, k);
    forall s, a | Reachable(s, c, k) && Count(c, Step(s, a).requests) <= k
      ensures Reachable(Step(s, a), c, k)
    {
      var before :| AtMost(Begun(), before, c, k) && Run(Begun(), before) == s;
      Service.RunMore(Begun(), before, a);
      Extend(before, a, c, k);
    }
  }

  /** Over all runs with at most k verifications of a user in flight, no record meets more than `bound` guesses. */
  ghost predicate BoundsGuesses(k: nat, bound: int) {
    forall now, users, actions, u :: AtMost(Start(now, users), actions, Verifying(u), k) ==>
      ComparedAtMost(Run(Start(now, users), actions), u, bound)
  }

  lemma GuessBoundIsExact(k: nat, bound: int)
    requires k >= 1
    ensures BoundsGuesses(k, bound) <==> bound >= OTP_MAX_ATTEMPTS + k - 1
  {
    if bound >= OTP_MAX_ATTEMPTS + k - 1 {
      forall now, users, actions, u | AtMost(Start(now, users), actions, Verifying(u), k)
        ensures ComparedAtMost(Run(Start(now, users), actions), u, bound)
      {
        GuessesAreBounded(now, users, actions, u, k);
      }
    } else {
      var end := Crowd(OTP_MAX_ATTEMPTS - 1, k, k);
      ReachableIsClosed(Verifying(0), k);
      CrowdFires(ReachableStates(Verifying(0), k), OTP_MAX_ATTEMPTS - 1, k, k);
      assert !ComparedAtMost(end, 0, bound) by {
        assert end.otps[0].compared == OTP_MAX_ATTEMPTS - 1 + k;
      }
    }
  }

  /** Over all runs with at most k issuers of a user in flight, the user never has more than `bound` records. */
  ghost predicate BoundsRecords(k: nat, bound: int) {
    forall now, users, actions, u :: AtMost(Start(now, users), actions, Issuing(u), k) ==>
      LiveOtps(u, Run(Start(now, users), actions).otps) <= bound
  }

  lemma RecordBoundIsExact(k: nat, bound: int)
    ensures BoundsRecords(k, bound) <==> bound >= k
  {
    if bound >= k {
      forall now, users, actions, u | AtMost(Start(now, users), actions, Issuing(u), k)
        ensures LiveOtps(u, Run(Start(now, users), actions).otps) <= bound
      {
        RecordsAreFew(now, users, actions, u, k);
      }
    } else {
      ReachableIsClosed(Issuing(0), k);
      LoginsStore(ReachableStates(Issuing(0), k), k, k);
      AllLive(Stored(k, k).otps);
    }
  }
}
