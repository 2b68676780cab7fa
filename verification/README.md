# SafeVitals XR backend: a verified model

This project models the parts of the SafeVitals XR backend that keep state or compute something,
and proves what they promise. MongoDB collections become maps and sequences, one awaited database
call is one atomic step, and instants are milliseconds since the epoch.

| file | what it models |
|---|---|
| `AuthMachine.dfy` | login, OTP issue and verification, password reset, invitations, logout, social login and per-request validation as a machine of atomic database calls with any number of requests in flight |
| `AuthHistory.dfy`, `AuthSafety.dfy`, `AuthEvidence.dfy` | what no step undoes, the invariant of every reachable state, and what must have happened in a run for an entry to be stored |
| `AuthCounting.dfy`, `AuthSharpness.dfy`, `AuthLaws.dfy`, `AuthEntries.dfy` | the counting bounds and why they cannot be lowered, the promises, and who still gets in while shut out |
| `AuthPromises.dfy` | each operation from its request to its effect, with the time it is good for, told without the machine's guards |
| `AuthService.dfy` | verification, issuing, reset and logout as the service class runs them uninterrupted, and their agreement with the machine |
| `Attendance.dfy`, `AttendanceLaws.dfy`, `AttendanceService.dfy` | the attendance record, its arithmetic against the time line, the dashboard buttons, and the service class over the collection |
| `Tickets.dfy` | count-then-insert ticket numbering with interleaved requests |
| `Accounts.dfy`, `AccountsLaws.dfy`, `AccountsPromises.dfy` | users, employee profiles, employee numbers and the nightly purge; what every run keeps, and what each operation leaves |
| `Regex.dfy`, `Directory.dfy`, `DirectoryLaws.dfy` | the employee listing: escaped search, joins, filters, sort, pages |
| `Storage.dfy`, `Reports.dfy` | file names, uploads, and report creation with its compensating deletes |
| `Decimal.dfy`, `Outcomes.dfy` | `toString`/`padStart` on numbers; options and results |

## What to know when reading

- **Runs.** In `AuthMachine`, `Tickets` and `Accounts` a run is a sequence of actions applied to a
  start state. An action that is not possible changes nothing, so every statement about "every
  sequence of actions" covers refused requests, and requests that stop half way.
- **History.** Deleted OTP and invitation documents stay in their sequences with `live` false.
  The fields `compared`, `issuer`, `claimant`, `purpose`, `opener` and `origin` and the logs
  `writes`, `activations` and `accepted` record what happened; no guard reads them.
- **Cryptography.** bcrypt and SHA-256 are two constructors of one datatype: injective, and never
  equal to each other. The 32 random bytes a request draws are named after the request, so fresh
  tokens are distinct; a login code is any six digits and may repeat.
- **Queries** with several matches may return any of them; the action says which. They may return
  nothing only when nothing matches. Where the query is itself the claim, in a reset or a password
  setup, an action that names no match is no step of the machine; the service methods take what the
  query returns and say that it is nothing only when nothing matches.
- **Two clock readings.** An attendance request reads the clock once for its day and once for its
  stamp. `AttendanceService.CreditBoundIsExact` says how many minutes a record can credit for every
  distance the check-out's stamp may fall past its day.
- **The purge.** `Accounts` lets the nightly purge strike between operations, and also inside one,
  between its read of an account and its first write to it. Mongoose's `save` on a document deleted
  meanwhile is taken to fail.

## Where the code falls short

- `AccountsLaws.IntegrityExact`: a purge that strikes inside `onboardByFirebaseUid` or
  `verifyRegistrationOtp` leaves a profile whose account is gone, exactly when the account was
  pending and old enough to purge and the profile's code is free. `PurgeInsideVerificationDangles`
  gives an input. Nothing in the repository makes an account pending, so from a store without pending
  accounts nothing can go wrong (`WithoutPendingAccounts`).
- `AccountsLaws.ApprovalSucceedsExactly`, `OnlyOneApproval`: `UsersService.generateEmployeeId`
  returns the literal `EMP-$num`, so the unique index refuses every approval after the first, having
  activated the account already.
- `AuthEntries.EntryOpensExactly`: `firebaseLogin` opens a session whatever the account's status, and
  a GitHub login or a verified code opens one for an account that awaits approval.
  `SuspendedFirebaseLogin` and `PendingGithubLogin` are inputs. Such a session is accepted nowhere
  while the account is shut out (`AuthCounting.ShutOutIsFinal`), but it answers as soon as the account
  is reinstated (`AuthEntries.ReinstatementRevives`).
- `AttendanceLaws.DashboardIsRight`: after check-out a break may still be started, and then the
  dashboard offers a check-out that the service refuses; this is the only case.
- `AttendanceService.MidnightOverflows`: a check-out that straddles midnight can credit 1440 minutes
  or more to one day.
- `AccountsLaws.RegistrationLifts`: `register` refuses only active accounts, so completing a
  registration makes a suspended or deactivated account active again.
- `Reports.OverwrittenIsLost`: compensation deletes an object that an upload overwrote; it does not
  bring the old one back. `Reports.SharedNameLoses`: two files of one name stamped in one millisecond
  share a path, and only the second is kept.
- `Decimal.RenderOrderExact`: stored numbers sort as numbers only up to the pad width.

The repository's README speaks of `SV-` employee numbers; the code writes `EMP-`, and the model
follows the code.

## Model

| member | source | states |
|---|---|---|
| AuthLaws.SessionsAreEarned | src/auth/auth.service.ts:183-250 | Over every interleaving, a session opened by OTP belongs to the user of a record that this very request consumed, and that it had read live, unused, unexpired, below the limit and with the bcrypt hash of the code entered; no two sessions come from one record. |
| AuthLaws.ResetsHappenOnce | src/auth/auth.service.ts:391-416 | Each reset record and each reset token causes at most one password write, to the record's own user, by a request that claimed the record while it was live, unused and unexpired. |
| AuthLaws.ActivationsHappenOnce | src/auth/auth.service.ts:449-480 | Each invitation and each invitation token makes at most one password write and sets at most one account Active, its own user's; the activation follows the same request's write, which rests on claiming the invitation live, unclaimed and unexpired; the invitation is then marked activated. |
| AuthLaws.StatusChanges | src/auth/auth.service.ts:479-480 | Apart from other services, a step changes an account's status only to Active, by an activation that is logged or in a social login. |
| AuthLaws.KindsNeverCross | src/auth/auth.service.ts:134-138 | Login codes and reset tokens share a collection, yet over every run each session opened by OTP comes from a record that a login or a resend of its user issued, by typing the six digits it drew, and each password written by a reset from one that a forgotten-password request of its user issued, with the token it drew. |
| AuthLaws.DeathIsPermanent | src/auth/strategies/jwt.strategy.ts:46-56 | A session that is revoked or expired is so in every later state. |
| AuthLaws.DeadTokensAreRefused | src/auth/strategies/jwt.strategy.ts:46-68 | Once a session is revoked or expired, no later acceptance over any run rests on it or presents its token, and no session that lives has that token. |
| AuthLaws.RevocationIsPermanent | src/auth/auth.service.ts:412-416 | After the revoking step of a reset, or a logout, no later acceptance over any run rests on a session the user had before it or presents its token. |
| AuthLaws.AcceptancesTrace | src/auth/strategies/jwt.strategy.ts:35-68 | Every request ever accepted was accepted at a moment of the run when a session of its own user was neither revoked nor expired and answered to the token presented; that session was opened by the right code for that user's OTP record or by a social login. |
| AuthCounting.GuessesAreBounded | src/auth/auth.service.ts:202-227 | With at most k verifications of a user in flight at any moment, at most OTP_MAX_ATTEMPTS + k - 1 guesses are ever compared against one record. |
| AuthSharpness.GuessBoundIsExact | src/auth/auth.service.ts:202-227 | A number bounds the comparisons over all such runs exactly when it is at least OTP_MAX_ATTEMPTS + k - 1: for every k some schedule reaches it. |
| AuthCounting.StepKeepsBudget | src/auth/auth.service.ts:183-234 | Every step keeps: a usable record's comparisons are its attempts plus the requests about to write their result, and comparisons made or to come stay within the bound. |
| AuthCounting.RecordsAreFew | src/auth/auth.service.ts:137-138 | With at most k issuers of a user in flight across login, resend and forgotten password, the user's records plus the issuers between delete and create never exceed k. |
| AuthSharpness.RecordBoundIsExact | src/auth/auth.service.ts:137-138 | A number bounds a user's records over all such runs exactly when it is at least k. |
| AuthCounting.StepKeepsRecordsFew | src/auth/auth.service.ts:359-369 | Every step keeps that bound, provided the issuers in flight after it respect it. |
| AuthCounting.ShutOutIsFinal | src/auth/strategies/jwt.strategy.ts:35-44 | While an account is missing, suspended, deactivated or awaiting approval, the requests accepted from it never exceed the validations that had passed the account check before, whatever sessions it holds or is given. |
| AuthEntries.EntryOpensExactly | src/auth/auth.service.ts:583-603 | For such an account an uninterrupted entry opens a session exactly by a Firebase login with password setup complete, or, while it awaits approval, by a GitHub login with it complete or a verification that passes (a Firebase login of a missing account creates it, Active); an existing account stays shut out. |
| AuthEntries.ShutOutOpensOnly | src/auth/auth.service.ts:634-669 | Over every run in which an account stays shut out, the sessions added for it and the requests that may still add one never exceed those requests in flight before and the entries of that kind begun meanwhile. |
| AuthEntries.ReinstatementRevives | src/auth/strategies/jwt.strategy.ts:35-68 | A session that is still current is accepted as soon as the account is reinstated, however it was opened. |
| AuthEntries.SuspendedFirebaseLogin | src/auth/auth.service.ts:638-669 | A suspended account's Firebase login leaves a session, refused while it is suspended and accepted once it is Active. |
| AuthEntries.PendingGithubLogin | src/auth/auth.service.ts:583-611 | The same for a pending account's GitHub login. |
| AuthSafety.StepKeepsSafe | src/auth/auth.service.ts:183-250 | One step of any action keeps every fact about stored documents and in-flight requests, among them that a consumed credential names the one request that consumed it. |
| AuthSafety.RunKeepsSafe | src/auth/auth.service.ts:79-680 | The same over every run. |
| AuthHistory.StepLater | src/auth/auth.service.ts:229-234 | No step undoes a use, a claim, a deletion, a revocation or the end of a request, or changes who a document belongs to. |
| AuthHistory.RunSessions | src/auth/schemas/session.schema.ts:6-28 | Over every run a stored session changes only by being revoked once. |
| AuthPromises.LoginBeginsExactly | src/auth/auth.service.ts:79-138 | A login sends six digits, for five minutes, exactly for the right password of an account that is neither suspended nor deactivated; otherwise nothing changes. |
| AuthPromises.ResendBeginsExactly | src/auth/auth.service.ts:303-319 | The same for a resend, without a password. |
| AuthPromises.ForgotBeginsExactly | src/auth/auth.service.ts:351-369 | The same for a forgotten password, with a fresh token for an hour. |
| AuthPromises.CodeIsGoodForFiveMinutes | src/auth/auth.service.ts:134-250 | From any state, for five minutes after a code is sent by login or resend it is the only record found, it opens a session good for seven days and no other entry does; from then on nothing is found. |
| AuthPromises.VerifyExact | src/auth/auth.service.ts:171-250 | What every uninterrupted verification changes: nothing for an account that may not sign in or a record not found; a record with five misses is used up; a wrong entry costs one attempt; the right one uses the record up and opens a session. |
| AuthPromises.RecordsGoOnlySo | src/auth/schemas/otp.schema.ts:8-32 | A stored code or token goes only when it has expired or its user is sent another. |
| AuthPromises.ExpiryExact | src/auth/schemas/otp.schema.ts:30-32 | The collection's index deletes an expired record and no other, and touches nothing else. |
| AuthPromises.CodeQueryIsHonest | src/auth/auth.service.ts:183-190 | A verification goes on exactly with what its query may return: a usable record of the user, or nothing if there is none. |
| AuthPromises.SessionQueryIsHonest | src/auth/strategies/jwt.strategy.ts:46-66 | So does the validation of a request. |
| AuthPromises.DeletedStays | src/auth/auth.service.ts:204-224 | An update does not find a deleted record: its attempts and use stay as they were. |
| AuthPromises.TokenIsGoodForAnHour | src/auth/auth.service.ts:351-416 | In every reachable state, for an hour after a forgotten password the token sets the new one, changes no other account or field, and revokes all the user's sessions; then, and after the hour, it does nothing for any record. |
| AuthPromises.InviteThenSetup | src/auth/auth.service.ts:431-480 | In every reachable state, for seven days after an existing user is invited the token sets the password, completes the setup and makes the account Active; then, and after those days, it does nothing, and the user's earlier invitations do nothing at once. |
| AuthPromises.ValidationExact | src/auth/strategies/jwt.strategy.ts:35-68 | A request is accepted exactly for an Active or Invited account of which some session is neither revoked nor expired and has the token presented, if one is; nothing but the log changes. |
| AuthPromises.GithubExact | src/auth/auth.service.ts:583-611 | A GitHub login opens a session for seven days exactly for a finished setup of an account neither suspended nor deactivated, and makes an Invited one Active. |
| AuthPromises.FirebaseExact | src/auth/auth.service.ts:634-669 | A Firebase login opens one for an unknown account, created Active, or a finished setup, and changes no existing account. |
| AuthPromises.LogoutExact | src/auth/auth.service.ts:541-546 | Logout revokes exactly the user's unrevoked sessions and changes nothing else. |
| AuthService.VerifyAlone | src/auth/auth.service.ts:171-250 | The database calls of a verification that nothing interrupts add up to one plain update: used, one more attempt, or used plus a session. |
| AuthService.IssueAlone | src/auth/auth.service.ts:303-319 | The calls of an uninterrupted issue add up to: the user's records deleted, one added. |
| AuthService.LoginAlone | src/auth/auth.service.ts:79-138 | The same for a login, which changes nothing on a wrong password or a missing or blocked account. |
| AuthService.ResetAlone | src/auth/auth.service.ts:391-416 | The calls of an uninterrupted reset add up to: record used, password set, all sessions of the user revoked. |
| AuthService.SetupAlone | src/auth/auth.service.ts:449-480 | The calls of an uninterrupted password setup add up to: invitation claimed, password set, account Active. |
| AuthService.LoginThenVerify | src/auth/auth.service.ts:134-250 | After an uninterrupted login, verifying the drawn code opens a session that answers to its token, and any other code opens none. |
| AuthService.GithubAlone | src/auth/auth.service.ts:583-611 | The calls of an uninterrupted GitHub login add up to: an invited account activated, one session added. |
| AuthService.FirebaseAlone | src/auth/auth.service.ts:634-669 | The calls of an uninterrupted Firebase login add up to: an unknown account created and activated, one session added. |
| AuthService.ForgotThenReset | src/auth/auth.service.ts:359-416 | In every reachable state, after a forgotten-password request its token sets the new password and leaves no session answering for the user; then no record matches the token, and presenting it again for any record changes nothing. |
| AuthService.AuthService.Verify | src/auth/auth.service.ts:171-250 | Run alone, succeeds exactly for an account neither suspended nor deactivated, with a usable record of fewer than five attempts whose hash is that of the code; the record is then used, as it is after five attempts, and any other entry costs one attempt. |
| AuthService.AuthService.Login | src/auth/auth.service.ts:79-138 | Run alone, issues exactly for the right password of an account neither suspended nor deactivated; the only usable record is then that of the code, for five minutes. |
| AuthService.AuthService.ForgotPassword | src/auth/auth.service.ts:351-369 | Run alone, it does what the machine's calls do, and then exactly one record of the user can be found: that of a token no earlier record holds, good for one hour; records of others are untouched, and for a missing, suspended or deactivated account nothing changes. |
| AuthService.AuthService.ResetWithToken | src/auth/auth.service.ts:391-416 | Run alone, succeeds exactly for a long enough token that some usable record holds; then the record is used, the user's password set and every session of that user revoked. |
| AuthService.AuthService.SetupWithToken | src/auth/auth.service.ts:449-480 | Run alone, succeeds exactly for a long enough token that some unclaimed invitation holds; then the invitation is claimed and its account Active with that password and a finished setup. |
| AuthService.AuthService.GithubSignIn | src/auth/auth.service.ts:583-611 | Run alone, succeeds exactly for an account neither suspended nor deactivated that has its password set up; then one session for seven days is added and an Invited account is Active. |
| AuthService.AuthService.FirebaseSignIn | src/auth/auth.service.ts:634-669 | Run alone, succeeds exactly for an unknown account, created Active, or one with its password set up, whatever its status; then one session for seven days is added. |
| AuthService.AuthService.LogoutUser | src/auth/auth.service.ts:541-546 | It is the machine's logout; no session then answers for the user, and other users' sessions and earlier revocation times are unchanged. |
| AttendanceLaws.CheckOutMinutes | src/attendance/attendance.service.ts:63-90 | For every history, check-out credits as work the time spent Working since check-in plus a break still running, and as break the rest of the break time, both floored to minutes; the two times make up the whole shift. |
| AttendanceLaws.ReachableBreaks | src/attendance/attendance.service.ts:41-61 | Before check-out the breaks are ordered disjoint intervals of the shift, the last open exactly when On Break; always, open breaks number one for On Break plus one for a break left open at check-out, so End Break finds one. |
| AttendanceLaws.CheckOutIsFinal | src/attendance/attendance.service.ts:63-91 | No later request changes the stamps or the minutes of a checked-out record. |
| AttendanceLaws.RefusedExactly | src/attendance/attendance.service.ts:15-71 | When each request is refused, and the one reason told. |
| AttendanceLaws.AcceptedChangesOnly | src/attendance/attendance.service.ts:15-91 | What each accepted request changes of a record, and that it leaves the rest. |
| AttendanceLaws.DashboardIsRight | src/mobile/mobile.controller.ts:63-68 | On every reachable record Check In and End Break are offered exactly when the service accepts them, Start Break exactly when it accepts and the status is not Checked Out, and Check Out whenever it accepts, wrongly exactly when a break was started after check-out. |
| AttendanceLaws.BreakAfterCheckOutMisleads | src/mobile/mobile.controller.ts:68 | After check-in, check-out and the start of a break, Check Out is offered and refused. |
| Attendance.AlwaysKept | src/attendance/attendance.service.ts:15-91 | Every history leaves a shift in progress whose breaks account for all time on break, or a checked-out shift whose minutes fit its length. |
| AttendanceService.RecordsAreIndependent | src/attendance/attendance.service.ts:11-22 | Each stored record is what the requests for its employee and day alone would have made it. |
| AttendanceService.StoredMinutes | src/attendance/attendance.service.ts:73-86 | In every stored checked-out record both minute counts are non-negative and add up to its length in whole minutes or one less. |
| AttendanceService.DayFits | src/attendance/attendance.service.ts:11-13 | A record whose check-out is stamped less than `late` ms past its day's end credits at most the whole minutes of a day and that delay: 1439 when the stamp falls on the day itself. |
| AttendanceService.OneReadingFits | src/attendance/attendance.service.ts:63-75 | A record whose check-outs read the clock once, for day and stamp, credits at most 1439 minutes. |
| AttendanceService.MidnightOverflows | src/attendance/attendance.service.ts:63-86 | For every day and delay a run whose check-out reads its day before midnight and is stamped after it credits that many: 1440 when the stamp falls on midnight. |
| AttendanceService.CreditBoundIsExact | src/attendance/attendance.service.ts:11-13 | A number bounds the minutes over all runs whose check-out of that record is stamped less than `late` ms past its day exactly when it is at least those whole minutes. |
| AttendanceService.FindOpen | src/attendance/attendance.service.ts:57 | The search returns the first break without an end, if there is one. |
| AttendanceService.SumClosed | src/attendance/attendance.service.ts:76-79 | The fold is the total length of the closed breaks. |
| AttendanceService.Service.RecordCheckIn | src/attendance/attendance.service.ts:15-39 | Updates only the record of that employee and day, as the specification says, or is refused. |
| AttendanceService.Service.RecordStartBreak | src/attendance/attendance.service.ts:41-50 | Likewise for the start of a break. |
| AttendanceService.Service.RecordEndBreak | src/attendance/attendance.service.ts:52-61 | Likewise for the end of a break: the first open one is closed. |
| AttendanceService.Service.RecordCheckOut | src/attendance/attendance.service.ts:63-91 | Likewise for check-out. |
| Tickets.NumbersAreGapFree | src/tickets/tickets.service.ts:11-23 | However requests interleave, n stored tickets carry exactly the numbers 1..n in order of insertion. |
| Tickets.CreateSucceedsExactly | src/tickets/tickets.service.ts:16-23 | A creation succeeds exactly when no ticket was stored between its count and its insert. |
| Tickets.StoredExactly | src/tickets/schemas/ticket.schema.ts:18-19 | Number n is stored exactly when 1 <= n <= the number of tickets. |
| Tickets.TicketNumberIs | src/tickets/tickets.service.ts:11-14 | A ticket number is `TKT-` and its digits, padded with zeros to five. |
| Tickets.TicketsService.InsertCounted | src/tickets/tickets.service.ts:16-23 | The insert stores an open ticket numbered one above the count, or is refused by the unique index and stores nothing. |
| Decimal.DigitsAre | src/tickets/tickets.service.ts:13 | The ten digits. |
| Decimal.AppendDigit | src/tickets/tickets.service.ts:13 | Digits are written from the most significant to the least. |
| Decimal.RenderIs | src/tickets/tickets.service.ts:13 | A padded number is zeros up to the width, if there is room, and then its digits. |
| Decimal.RenderValue | src/tickets/tickets.service.ts:13 | Reading back a padded number gives the number, also past the pad width. |
| Decimal.RenderOrderExact | src/tickets/tickets.service.ts:13 | Padded numbers sort as numbers on a range exactly when the range fits the pad width. |
| AccountsLaws.IntegrityExact | src/users/users.service.ts:76-128 | An operation keeps every profile attached to an existing account that is not pending, one profile per user and unique codes, exactly when no purge inside it deletes the pending account it is about to give a profile. |
| AccountsLaws.RunsKeepIntegrity | src/users/users.service.ts:75-91 | Over every run whose purges strike between operations, or harmlessly inside them, integrity holds. |
| AccountsLaws.WithoutPendingAccounts | src/users/schemas/user.schema.ts:28-29 | From a store without pending accounts integrity holds over every run with purges anywhere, and nobody becomes pending. |
| AccountsLaws.PurgeInsideVerificationDangles | src/auth/auth.service.ts:747-764 | A concrete state and purge that leave a dangling profile. |
| AccountsPromises.CounterCodeIs | src/employees/employees.service.ts:38-46 | A counted number is `EMP-` and its digits, six of them below a million and as many as it has from there. |
| AccountsPromises.RandomCodeIs | src/auth/auth.service.ts:761 | A drawn number is `EMP-` and its six digits. |
| AccountsLaws.CounterCodesDiffer | src/employees/employees.service.ts:38-46 | Different counts give different employee numbers, past the pad width too. |
| AccountsLaws.NextCodeTakenExactly | src/employees/schemas/employee.schema.ts:11-12 | Over every run from an empty store, the next number is taken exactly when an earlier random draw was it, so never below 100000. |
| AccountsLaws.HiringSucceedsExactly | src/employees/employees.service.ts:72-97 | Hiring a new account succeeds, with the next number, exactly when no earlier random draw took that number. |
| AccountsLaws.ApprovalSucceedsExactly | src/users/users.service.ts:99-128 | Approving a pending account activates it, and gives it a profile exactly when no profile carries the literal code yet. |
| AccountsLaws.OnlyOneApproval | src/users/users.service.ts:92-128 | After one approval has succeeded no later one ever does. |
| AccountsPromises.BecomesShutOutExactly | src/employees/employees.service.ts:338-352 | An account that is not shut out becomes so exactly by suspending or deactivating its own profile, and then has the status asked for. |
| AccountsLaws.SuspensionLiftedExactly | src/auth/auth.service.ts:747-755 | A suspended or deactivated account survives every operation and stays shut out exactly unless it is reactivated, onboarded, set up by invitation, or completes a registration with the right code in time; then it is Active. |
| AccountsLaws.LiftedBySomething | src/employees/employees.service.ts:338-360 | Over every run an account shut out before and not after was let back in by one of these at some step. |
| AccountsLaws.VerifiableWasRegistered | src/auth/auth.service.ts:702-711 | Over every run from an empty store a code can complete only a registration of that account asked for in the run, at most 15 minutes before. |
| AccountsLaws.RegistrationLifts | src/auth/auth.service.ts:693-755 | Registering again with the email of a suspended or deactivated account is let through, and entering the code in time makes the account Active. |
| AccountsPromises.PossibleExactly | src/users/users.service.ts:45-51 | Which accounts, codes, digits and statuses the operations' queries, draws and callers can supply. |
| AccountsPromises.PurgeExact | src/users/users.service.ts:75-91 | A purge deletes exactly the accounts pending approval and more than 24 hours old. |
| AccountsPromises.HireExact | src/employees/employees.service.ts:48-97 | An account of that email is refused; an unknown one is created Invited and given the next number, unless that is taken. |
| AccountsPromises.OnboardingExact | src/employees/employees.service.ts:133-182 | Onboarding makes the account Active, created if need be, unless a purge inside takes it; success leaves a profile; other accounts are swept or untouched. |
| AccountsPromises.SetEmployeeStatusExact | src/employees/employees.service.ts:338-360 | Suspending, deactivating or reactivating sets that status of the profile's account and nothing else. |
| AccountsPromises.ApprovalExact | src/users/users.service.ts:106-128 | Only a pending account is approved: Active, counted, given the literal code unless taken. |
| AccountsPromises.RegisterExact | src/auth/auth.service.ts:693-711 | Registration is refused to an active account only, and starts fifteen minutes for its code. |
| AccountsPromises.VerifyRegistrationExact | src/auth/auth.service.ts:721-764 | The right code in time ends the registration and makes the account Active, with a profile if it had none; otherwise nothing changes. |
| AccountsPromises.FirebaseLoginExact | src/auth/auth.service.ts:641-650 | A first login creates an Active account with a profile, or an Invited one when the code is taken. |
| AccountsPromises.ActivationsExact | src/users/users.service.ts:53-55 | An invitation makes its account Active, a GitHub login only an Invited one. |
| Accounts.Services.CreateEmployee | src/employees/employees.service.ts:48-97 | The service's writes in order amount to the specified outcome, refused and partly done cases included. |
| Accounts.Services.OnboardByFirebaseUid | src/employees/employees.service.ts:133-182 | Likewise, with a purge possible before activation. |
| Accounts.Services.ApproveUser | src/users/users.service.ts:106-128 | Likewise. |
| Accounts.Services.RegisterAccount | src/auth/auth.service.ts:693-711 | Likewise. |
| Accounts.Services.VerifyRegistrationOtp | src/auth/auth.service.ts:721-764 | Likewise, a wrong or late code included. |
| Regex.LexReads | src/employees/employees.service.ts:250 | How a pattern is read: a character with a meaning is active by itself and literal after a backslash, any other the reverse. |
| Regex.EscapeRoundTrip | src/employees/employees.service.ts:249-251 | The escaped term reads as literal atoms only, which spell the term. |
| Regex.SearchIsContainment | src/employees/employees.service.ts:250-261 | A field matches the compiled pattern exactly when it contains the term up to case. |
| DirectoryLaws.JoinKeepsRows | src/employees/employees.service.ts:233-246 | A lookup and unwind keeps one row per employee in place, resolved to the referenced document or to nothing if the reference dangles. |
| DirectoryLaws.PipelineIsSortedSelection | src/employees/employees.service.ts:233-265 | Five joins, status filter and search together are a plain filter over employees, then the sort. |
| DirectoryLaws.SortIsStable | src/employees/employees.service.ts:264-265 | The sort is newest first, loses and doubles nothing, and keeps the order of rows created at one instant. |
| DirectoryLaws.WantedExactly | src/employees/employees.service.ts:225-262 | An employee is listed exactly for the department, team and status asked for and, unless the search text is blank, if a searched field contains that text without its outer white space. |
| DirectoryLaws.PageIs | src/employees/employees.service.ts:219-221 | Page n is page n, and the first for anything that is no positive number. |
| DirectoryLaws.LimitIs | src/employees/employees.service.ts:220-222 | A limit of 1 to 100 is kept, a higher one is 100, and anything that is no positive number is 20. |
| DirectoryLaws.ParseIntFails | src/employees/employees.service.ts:219-222 | A text that begins with no digit and no sign is no number. |
| DirectoryLaws.ParseIntReads | src/employees/employees.service.ts:219-220 | A number is read past white space, with its sign, up to the first character that is no digit. |
| DirectoryLaws.FindAllIsSlice | src/employees/employees.service.ts:218-281 | The data are that page of the sorted selection, each row shown whole but for the password hash, and the total is the selection's length. |
| DirectoryLaws.PagesAreEverything | src/employees/employees.service.ts:219-223 | Pages 1..ceil(total / limit), asked for in decimal, show the whole sorted selection, row for row. |
| DirectoryLaws.ParseIntOfToString | src/employees/employees.service.ts:219-221 | The page parameter n written in decimal is read as n. |
| Storage.SanitizeExact | src/common/services/storage.service.ts:33-38 | Every result is a non-empty name of allowed characters without two adjacent dots, and exactly such names are left alone. |
| Storage.SanitizeShape | src/common/services/storage.service.ts:33-38 | A name keeps its characters, those not allowed replaced by underscores, with one dot in each place where it had some; the empty name gives attachment. |
| Storage.SanitizeDetermined | src/common/services/storage.service.ts:33-38 | No other result has that shape. |
| Storage.FileErrorExact | src/common/services/storage.service.ts:40-50 | A file is refused exactly when it has no content, exceeds ten megabytes, or is of none of the six types, for the first of these reasons. |
| Storage.SanitizeIdempotent | src/common/services/storage.service.ts:33-38 | Sanitising twice is sanitising once. |
| Reports.ReportsController.Create | src/reports/reports.controller.ts:82-121 | Succeeds exactly when every file has content, at most ten megabytes and one of the six types, there is storage for them and the insert works. Then the attachments are the files one to one in order, with the signed URL or the content itself, and each stored content is found at its path exactly when the last upload stored there has the same. On failure the first obstacle or the database's error is rethrown, every path whose removal worked is gone and nothing else has changed, and with working removals the bucket is as before exactly when no uploaded path existed. |
| Reports.ReportsController.AttachAll | src/reports/reports.controller.ts:91-108 | The loop uploads exactly the files before the first that is refused or cannot be stored. |
| Reports.ReportsController.UploadFile | src/common/services/storage.service.ts:52-80 | Fails only when storage is not configured; otherwise gives the signed URL or, if an upload or a signing failed, the content as a data URL. |
| Reports.ReportsController.Undo | src/reports/reports.controller.ts:114-119 | Deletes every uploaded path whose removal works. |
| Reports.RollbackExact | src/reports/reports.controller.ts:114-119 | Taking back changes no other object; with working removals the bucket is as before exactly when no uploaded path existed before. |
| Reports.OverwrittenIsLost | src/reports/reports.controller.ts:114-119 | An object that an upload overwrote is gone after taking back. |
| Reports.ContentStands | src/common/services/storage.service.ts:57-62 | After all uploads a stored content is found at its path exactly when the last one stored there is the same. |
| Reports.PathsAgreeExactly | src/reports/reports.controller.ts:94-96 | Two files of one employee share a path exactly when they are stamped in the same millisecond and their clean names agree. |
| Reports.DistinctFilesStand | src/reports/reports.controller.ts:91-108 | A stored file not stamped and named like a later one is found at its path with its content. |
| Reports.SharedNameLoses | src/reports/reports.controller.ts:94-99 | Of two files of one name stamped in one millisecond, only the second's content is kept. |
| Reports.SharedPathLoses | src/common/services/storage.service.ts:57-62 | Contents a, b at one path leave b; a, b, a leave a: what counts is the last. |

## Left out

- Email, audit log, Firebase, GitHub and Supabase transport, VPN and disposable-domain checks: outside calls; only their success or failure is kept where it matters.
- JWT signing and expiry: a request presents a session token, or none, for a user.
- `changePassword` and role or permission lookups: one write or read each. In the session machine, registration and every other service's change to an account is the action `ChangeAccount`.
- The invitation status `OPENED`: the service accepts it beside `SENT`, and nothing sets it.
- The superadmin's first GitHub login, which creates that one account.
- Departments, teams, positions, schedules, notifications, tasks, access requests, leave and roles: each operation reads or writes one document.
- Attendance statuses 'Late' and 'On Leave', overtime, location and device fields: the service writes none of these statuses and computes with none of these fields. Concurrent requests on one attendance record are not interleaved.
- Ticket title, category, author and message times: copied through unchanged.
- The `id` fields that `$project` and `$addFields` add to listed rows, and query ids that are not well-formed, which the service ignores.
- Number parsing beyond the ten characters the query accepts, where JavaScript would round.
- Storage.SanitizeExact: a character outside the basic multilingual plane is one character here and two code units in JavaScript, so it becomes one underscore instead of two.
- Regex.EscapeRoundTrip: an unescaped `]` or `}` counts as active, which JavaScript reads literally without the `u` flag; an escaped term has none.
- Regex.SearchIsContainment: the case folding of the `i` flag is a parameter, applied character by character.
- AuthService.AuthService.Verify: describes an uninterrupted call; interleavings are the machine's subject.
