# Verified model of the credential machinery of tokyo3-auth

This project models, in Dafny, the parts of the OAuth 2.0 / OpenID Connect server that issue, rotate, carry and
revoke credentials, and proves what they guarantee over every run.

## How it is built

**The protocol machine** (`Store`, `Protocol`). The tables are a value, every SQL statement a `Write` with an effect
(`Perform`) and a report (`Answer`). Each handler is cut at its store calls: a request in flight stands at a program
counter `Pc`, and `Exec` runs the next call and the code after it. A clock reading belongs to the segment in which the
code takes it and travels on in the `Pc` as `at`, so a write may land a time older than the clock; a factor check and the
recording of a used passkey are steps of their own. A run is any list of actions: clock ticks, arriving requests, steps
of any request in any order, requests cut off by a fault, administrative statements. A `History`, read by no handler,
remembers what happened, request by request: when and as what each came in, which scope check each passed, which factor
each verified and when it was stamped. `Invariant`, `Keep`, `KeepSessions`, `KeepGrants` and `Inductive` prove an
invariant of every reachable state; `Reuse`, `Provenance`, `Scopes`, `Factors`, `Routes`, `PollRuns`, `Moments` and
`Requests` draw the theorems from it; `Scenes` holds the concrete runs that show what can happen.

**The code itself** (`Database`, `Handlers`, `Browser`). `Database` holds the tables as fields with one method per
statement; the handlers are straight-line methods over it, in source order. Each is proved to do what the machine does to
the request when no other request moves (`Solo`), and `Solo` is proved to be a run of the machine, so the steps whose
interleavings the theorems speak of are the handlers' own store calls. Calls on what the machine does not hold (the
failure counter, the last activity, the audit journal) are not steps of it.

**Whole requests** (`Outcomes`, `Exchanges`, `SignIns`, `Hits`, `Statements`). For every endpoint one theorem says, from
the tables and the clock alone and without the machine's own functions, what a request that runs by itself answers, in
which case, what row it leaves, for how many minutes that is good and what cookies it sets. `Statements` says row by row
what the reapers and the deletes leave behind.

**Time** (`Lifetime`, `Pacing`), **lockout** (`Lockout`, `LockoutRuns`), **AWS revocation** (`Awsfed`, `AwsRuns`),
**SCIM push** (`Scim`, `ScimRuns`), **membership** (`Groups`) and **text forms** (`Text`, `Model`, `ArrayCodec`,
`Regions`, `UserCodes`) each have their class or loops, a specification they are proved against, and the theorems about
it.

Times are integers of nanoseconds from one nondecreasing clock (the handlers' `time.Now()` and the database's `NOW()`
are the same clock). Tokens, codes and their hashes are one opaque type: hashing is an injection. A `Choice` supplies
what a step takes from outside: fresh tokens and ids, and whether a password, a factor, a policy check or a role lookup
passes.

## Where the code and its documentation, or a plausible claim, part ways

The model follows the code; each point has a lemma that gives the input and, where it makes sense, the exact condition.

- A device grant keeps its scopes joined by spaces in one text column, and client scopes may contain spaces. The list
  survives if and only if every scope is a word (`Text.JoinThenFields`, `ScopeChecks.ScopesWereRegistered`); otherwise
  the session gets scopes nobody registered (`ScopeChecks.DeviceScopeWithSpaceSplits`).
- The policies of AWS roles are addressed by role name. They agree with the rows in every run if and only if every ARN
  ends in a name and roles of the same name last equally long (`AwsRuns.AgreesIffSound`). Every revoked session is over
  or denied in every run if and only if each role that sessions can be minted for has a name and no role of that name
  lasts shorter (`AwsRuns.SafeIffGuarded`); the runs in which a revoked session lives on are
  `AwsRuns.NamelessSessionLives` and `AwsRuns.ShortNamesakeFrees`.
- `awsfed.go:124-133` says a revoked user can federate again at once, but the policy denies by user tag: a session minted
  now is denied if and only if no sweep since the latest revocation came later than that revocation plus the role's
  duration (`AwsRuns.LaterSessionsAreDeniedToo`).
- `awsfed.go:147-151` says the reaper retries a failed push; a sweep that removes no row pushes nothing
  (`AwsRuns.ReapIsNoRetry`).
- One SCIM pass does not update a record it meets by e-mail; one pass is enough if and only if no user needs that
  (`ScimRuns.OnePassIffReady`), two always are. `scim/client.go:5-10` promises re-resolution after a 404;
  `setUserActive` drops the cache entry and stops (`Scim.Client.SetUserActive`).
- `web_portal.go:460-465` says a forced rotation gates everything else. Of the ways to a portal cookie or a code only the
  portal's password form and its TOTP form hold a user back whose row demands a rotation; registration has nothing to hold
  back, as a new account never demands one. The portal's WebAuthn form, the rotation form itself (when the flag is set
  again meanwhile), `/authorize` with its TOTP and WebAuthn steps, and silent sign-on sign such a user in
  (`Routes.RotationGate`).
- A console URL for a step-up role need not have a challenge within the TTL before the gate. It has one in every run, on a
  server with any TTL, if and only if the MFA time it went by was stamped by one of the portal's two TOTP forms
  (`Routes.UrlIsFresh`): on every other route a store call lies between the challenge and its stamp
  (`Routes.StampIsTheChallenge`), and by each of them a run ends in a URL however long after the only challenge
  (`Routes.UrlAfterAnOldChallenge`). What always holds is a challenge no older than the TTL plus the time the request that
  stamped it had taken (`Factors.ConsoleUrlMeansFreshChallenge`).
- A device poll and a failed login are a read and an unguarded write. The interval counts the slow_down answers, and the
  counter the wrong passwords, if and only if each write finds the value its request had read
  (`PollRuns.IntervalExactIffUndisturbed`, `LockoutRuns.CounterExactIffUpToDate`); two that overlap count once
  (`PollRuns.TornPollsLoseABackoff`, `LockoutRuns.TornFailuresCountOnce`). With c attempts in flight up to
  C(c + 9, c) - 1 wrong passwords go by before the account first locks, and no more: 9, 54, 219 for c = 1, 2, 3
  (`LockoutRuns.GuessesBeforeTheLock`, `LockoutRuns.BoundIsReached`).
- The answer to a wrong password that had read a count below nine also takes off a lock put on since
  (`LockoutRuns.LateAnswerUnlocks`), and then a login is accepted within the half hour
  (`LockoutRuns.LoginWithinTheHalfHour`). A lock stays on if and only if no such answer, no accepted login and no failure
  with an older clock reading comes in between (`LockoutRuns.LockStandsIffNotUndone`). With c attempts in flight, and all
  the locks and unlocks that brings, C(c + 10, c) - 1 wrong passwords can be tried on an unlocked row, and no more: 10, 65,
  285 (`LockoutRuns.UnlockedTriesEver`, `LockoutRuns.UnlockedBoundIsReached`).
- `DeleteExpiredSessions` goes by the refresh expiry, which portal visits do not slide (`Lifetime.ReaperIgnoresVisits`).
- `trySilentSSO` falls back to the creation time when a verified session has no MFA time; no reachable session is like
  that (`Factors.VerifiedMeansChallenged`).
- Registration opens a portal session for a user who never passed a password check, so "the user of a session passed one"
  holds only up to accounts just registered (`Factors.VerifiedMeansChallenged`).

## Model

| member | source | states |
|---|---|---|
| `Text.JoinThenFields` | internal/store/postgres/postgres_device_grants.go:47-64 | a scope list survives joining by spaces and splitting again if and only if every scope is a nonempty string without white space |
| `Text.FieldsCut` | internal/api/web_portal_aws.go:86-88 | splitting is fixed by three laws: no words in nothing, a word is its own only one, and a separator cuts the text in two |
| `Text.BelowIsLexicographic` | internal/api/web_portal_aws.go:624-626 | the order the lists are sorted in is the dictionary's: at the first difference the text ends or has the smaller character |
| `Model.UnregisteredScopeIsExact` | internal/api/oauth2.go:869-885 | the answer "" means "every scope is registered, ignoring case", both ways, because a split never yields the empty scope |
| `Databases.Database.RotateRefreshToken` | internal/store/postgres/postgres_sessions.go:93-116 | guarded swap and retirement in one transaction: the whole new state and the report, constraints kept |
| `Databases.Database.CreateSession` | internal/store/postgres/postgres_sessions.go:41-63 | insert with its foreign keys and UNIQUE hashes, or refusal and no change |
| `Databases.Database.ExtendSessionExpiry` | internal/store/postgres/postgres_sessions.go:88-91 | only the access expiry of that row moves |
| `Databases.Database.MarkSessionMfa` | internal/store/postgres/postgres_sessions.go:69-73 | the MFA columns of that row move together |
| `Databases.Database.DeleteSession` | internal/store/postgres/postgres_sessions.go:123-126 | the row and all its retired tokens go, nothing else |
| `Databases.Database.GetSessionByRetiredRefreshToken` | internal/store/postgres/postgres_sessions.go:118-121 | finds the session a retired token belonged to |
| `Databases.Database.DeleteExpiredSessions` | internal/store/postgres/postgres_sessions.go:151-154 | removes exactly the rows whose refresh expiry has passed |
| `Databases.Database.CreateUser` | internal/store/postgres/postgres_users.go:30-40 | a new account, or refusal and no change |
| `Databases.Database.SetUserAdmin` | internal/store/postgres/postgres_users.go:132-137 | only that account's admin flag moves |
| `Databases.Database.UpdateUserPassword` | internal/store/postgres/postgres_users.go:85-95 | that account's pending rotation is done, nothing else moves |
| `Databases.Database.DeleteUser` | internal/store/postgres/postgres_users.go:139-142 | the account goes with its sessions, their retired tokens and its codes; device grants lose their approver |
| `Databases.Database.CreateGrant` | internal/store/postgres/postgres_grants.go:32-43 | insert of an unused code, or refusal and no change |
| `Databases.Database.MarkGrantUsed` | internal/store/postgres/postgres_grants.go:49-55 | guarded single use: done once, "no row" ever after |
| `Databases.Database.CreateDeviceGrant` | internal/store/postgres/postgres_device_grants.go:53-72 | insert with default interval and scopes through the text column |
| `Databases.Database.MarkDeviceGrantApproved` | internal/store/postgres/postgres_device_grants.go:84-102 | pending to approved with user and MFA snapshot, otherwise "no row" |
| `Databases.Database.MarkDeviceGrantDenied` | internal/store/postgres/postgres_device_grants.go:104-117 | pending to denied, otherwise "no row" |
| `Databases.Database.MarkDeviceGrantRedeemed` | internal/store/postgres/postgres_device_grants.go:119-132 | approved to redeemed, otherwise "no row" |
| `Databases.Database.UpdateDeviceGrantPoll` | internal/store/postgres/postgres_device_grants.go:134-139 | overwrites poll time and interval of that row, unguarded |
| `Databases.Database.DeleteExpiredDeviceGrants` | internal/store/postgres/postgres_device_grants.go:141-149 | removes exactly the expired grants and counts them |
| `Statements.ReapersGoByTheClock` | internal/store/postgres/postgres_grants.go:69-72 | each reaper leaves exactly the rows whose own time (refresh expiry, code expiry, device expiry) has not passed, and touches nothing else but the retired tokens of the sessions it removes |
| `Statements.AccountGoes` | internal/store/postgres/migrations/001_initial.sql:30-46 | with an account go exactly its sessions, their retired tokens and its codes; the device grants it approved stay and lose their approver; every other row stays as it was |
| `Statements.ClientGoes` | internal/store/postgres/migrations/001_initial.sql:31-46 | with a client goes exactly what names it |
| `Statements.TakenBack` | internal/api/web_portal.go:385-402 | an account that is inserted and deleted again leaves the tables as they were |
| `Statements.DeviceStarts` | internal/store/postgres/postgres_device_grants.go:53-72 | a device grant without an interval gets five seconds, and whatever it says it starts out pending, unapproved and unpolled |
| `Handlers.SoloIsARun` | internal/api/oauth2.go:459-522 | a handler's sequence of store calls is a run of the machine in which only its request moves |
| `Handlers.Server.HandleTokenRefresh` | internal/api/oauth2.go:459-522 | the refresh handler, line by line, does to the tables and answers what the machine's steps do |
| `Handlers.Server.RotateAndAnswer` | internal/api/oauth2.go:508-522 | the guarded rotation and the answer likewise; when it finds no row the token was presented twice and the reuse path answers |
| `Handlers.Server.RevokeOnRefreshReuse` | internal/api/oauth2.go:742-770 | the reuse path likewise |
| `Handlers.Server.HandleTokenAuthCode` | internal/api/oauth2.go:392-457 | the code exchange likewise, including the row it mints (669-694); `Exchanges.CodeExchange` says what that comes to |
| `Handlers.Server.HandleTokenClientCreds` | internal/api/oauth2.go:560-598 | the client-credentials grant likewise |
| `Handlers.Server.HandleTokenDeviceCode` | internal/api/web_portal_device.go:250-342 | the device poll likewise, in all five states |
| `Handlers.Server.RecordPoll` | internal/api/web_portal_device.go:288-301 | the pending branch: interval and answer |
| `Handlers.Server.RedeemAndMint` | internal/api/web_portal_device.go:302-331 | the approved branch: redeem first, then user, then mint |
| `Handlers.Server.HandleDeviceAuthorization` | internal/api/web_portal_device.go:48-104 | the device authorization request likewise, with its scope loop |
| `Handlers.Server.HandleDeviceConfirm` | internal/api/web_portal_device.go:200-238 | approve and deny behind portalAuth likewise |
| `Handlers.Server.HandleAuthorizePost` | internal/api/oauth2.go:190-283 | the interactive login likewise |
| `Handlers.Server.HandleMfaTotpPost` | internal/api/oauth2.go:286-333 | the TOTP step likewise, the factor checked in a step of its own |
| `Handlers.Server.HandleSsoWebAuthnFinish` | internal/api/web_sso.go:189-262 | the WebAuthn step likewise; the use of the passkey is recorded before anything else |
| `Handlers.Server.FinishLogin` | internal/mfa/webauthn.go:192-237 | a verified assertion gets on only once its use is recorded; then the client is looked up, the cookie seated, the code issued |
| `Handlers.Server.SeatAndIssueCode` | internal/api/web_portal.go:780-835 | seating the portal cookie is best effort, the code is issued either way |
| `Handlers.Server.ReadAuthPortalSession` | internal/api/web_portal.go:117-151 | the portal session lookup likewise, with both expiry checks |
| `Handlers.Server.SlidePortalSession` | internal/api/web_portal.go:160-176 | the slide likewise |
| `Browser.Portal.HandlePortalRegisterPost` | internal/api/web_portal.go:352-415 | registration likewise: a new account, the first one made administrator, a portal session without a password check, and the account undone when the journal is out of reach |
| `Browser.Portal.HandlePortalLoginPost` | internal/api/web_portal.go:419-494 | the portal's password step likewise |
| `Browser.Portal.HandlePortalLoginMfa` | internal/api/web_portal.go:614-667 | the portal's TOTP step likewise, with the rotation gate |
| `Browser.Portal.HandlePortalLoginMfaWebAuthnFinish` | internal/api/web_portal.go:693-732 | the portal's WebAuthn step likewise, without it |
| `Browser.Portal.HandlePortalChangePassword` | internal/api/web_portal.go:509-596 | the forced rotation likewise: the check that one is due, the update, the reload and how the login resumes |
| `Browser.Portal.CreatePortalSession` | internal/api/web_portal.go:837-879 | the portal row likewise; no cookie without the audit entry |
| `Browser.Portal.HandlePortalAwsConsole` | internal/api/web_portal_aws.go:214-284 | the console gate likewise |
| `Browser.Portal.HandlePortalStepUp` | internal/api/web_portal_step_up.go:48-105 | the step-up by TOTP likewise, up to the console URL |
| `Browser.Portal.HandlePortalStepUpWebAuthnFinish` | internal/api/web_portal_step_up.go:130-155 | the step-up by WebAuthn likewise; the use of the passkey is recorded first |
| `Browser.Portal.MarkAndDispatch` | internal/api/web_portal_step_up.go:161-195 | the clock read, then the session marked with that time, then the action resumed, likewise |
| `Browser.Portal.TrySilentSso` | internal/api/oauth2.go:123-169 | silent sign-on likewise |
| `Browser.Portal.CarryAndIssue` | internal/api/oauth2.go:152-169 | the MFA provenance a silent code carries |
| `Exchanges.CodeExchange` | internal/api/oauth2.go:392-457 | from the tables alone: a code is answered with tokens if and only if it is on the books, unused, not expired, of this client and redirect, with the right verifier, and the session can be inserted; the access token then lives 15 minutes, the refresh token an hour, with the code's user, scopes, MFA time and auth time; a good code is used up in any case, a bad one changes nothing |
| `Exchanges.ClientCredentials` | internal/api/oauth2.go:560-598 | tokens if and only if the client is on the books, confidential and registered for all it asks, and the session can be inserted: no user, those scopes, the same lifetimes |
| `Exchanges.ApprovedPoll` | internal/api/web_portal_device.go:302-331 | the poll of an approved grant answers tokens if and only if its approver is on the books and active and the session can be inserted, access_denied if the approver is not active; the grant is redeemed in every case and the row has the approval's user and MFA |
| `Exchanges.OtherPolls` | internal/api/web_portal_device.go:256-301 | every other poll: unknown, another client's, expired, denied, redeemed and pending grants, the last with the slow_down condition, interval and poll time; only a pending row moves |
| `Exchanges.DeviceAuthorization` | internal/api/web_portal_device.go:48-104 | a device code if and only if the client may use the flow, is registered for what it wants (all it has, when it asks for nothing) and the row can be inserted: pending for 15 minutes, to be polled every five seconds |
| `Exchanges.RefreshWithCurrent` | internal/api/oauth2.go:459-522 | a current token rotates if and only if it is its client's, within its hour and the session's four, and the session has a user; the new lifetimes run from now, cut off at the four hours |
| `Exchanges.RefreshWithAnother` | internal/api/oauth2.go:742-770 | a token rotated away removes its session if the client is the session's; any other token is turned away with nothing changed |
| `Exchanges.OvertakenSteps` | internal/store/postgres/postgres_grants.go:49-55 | a code used, a device grant redeemed or a refresh token rotated by another request meanwhile: turned away, turned away, sent the reuse way, with nothing changed |
| `SignIns.PasswordSignIn` | internal/api/web_portal.go:419-494 | the password form signs in if and only if the password is right, the account active, no rotation pending and no second factor due; the session has the admin scope exactly for an administrator and 15 minutes; otherwise a cookie of ten minutes leads on, or nothing happens |
| `SignIns.FactorSignIn` | internal/api/web_portal.go:614-732 | the two second-factor forms: who is signed in, with an MFA time of now, and who is sent away |
| `SignIns.RotationSignIn` | internal/api/web_portal.go:509-596 | the rotation form stores a password only while a rotation is pending, then signs in or leads to the second factor |
| `SignIns.Registration` | internal/api/web_portal.go:352-415 | a registration makes an ordinary account, an administrator's if and only if it is the first, and signs it in; if the journal is out of reach the account is deleted |
| `SignIns.AuthorizeSignIn` | internal/api/oauth2.go:190-283 | the login of /authorize: a registered scope, a right password, an active account; then a cookie of 15 minutes when a second factor is due, else the portal seat and a code of ten minutes for the user, client, scopes, redirect and challenge of the request |
| `SignIns.AuthorizeFactor` | internal/api/oauth2.go:286-333 | its second factor: the code carries the time at which the factor was proven, the seat the user's rights |
| `Hits.VisitHit` | internal/api/web_portal.go:117-176 | a visit with a living session shows the page and gives the session 15 more minutes, cut off at its four hours |
| `Hits.NobodyEnters` | internal/api/web_portal.go:117-151 | without a session that is alive by both limits and whose user is on the books nothing behind the cookie happens |
| `Hits.ConsoleHit` | internal/api/web_portal_aws.go:214-284 | the console URL is given if and only if the session lives, its user is on the books, the role and region resolve and, for a step-up role, the session's MFA time is within the TTL |
| `Hits.StepUpHit` | internal/api/web_portal_step_up.go:48-195 | a verified factor, recorded if it is a passkey, marks the session with now and resumes the action |
| `Hits.ApproveHit` | internal/api/web_portal_device.go:200-219 | approving takes a pending grant and puts the session's user and MFA state on it; any other grant is turned away |
| `Hits.DenyHit` | internal/api/web_portal_device.go:220-238 | denying takes a pending grant and answers the same if there is none |
| `Hits.SilentSignOn` | internal/api/oauth2.go:123-169 | silent sign-on gives a code if and only if the scopes are registered, the session lives, its user is active, has met the second factor if one is due, and the rules pass; the code carries the session's MFA time and its creation as auth time |
| `Keep.AcceptedAreRegistered` | internal/api/oauth2.go:210-213 | a scope string is accepted if and only if all of it is registered on the client then |
| `Inductive.EveryStepIsOk` | internal/api/oauth2.go:392-522 | whatever other requests did in between, every step of every handler issues only statements its invariant allows, and hands out only what it may |
| `Inductive.StepKeepsInv` | internal/store/postgres/postgres_sessions.go:41-126 | every step of every request keeps the invariant |
| `Inductive.RunKeepsInv` | internal/store/postgres/postgres_sessions.go:41-126 | so does every run, with faults and administrative statements in it |
| `Reuse.TokenTrichotomy` | internal/store/postgres/postgres_sessions.go:93-126 | every refresh token ever issued is current on its one session, retired for it, or resolves nowhere, and the last exactly when the session is gone |
| `Reuse.RetiredCountsRotations` | internal/store/postgres/postgres_sessions.go:93-116 | a session has exactly as many retired tokens as rotations, and they are the tokens rotated away |
| `Reuse.SpentTokenNeverRotates` | internal/store/postgres/postgres_sessions.go:99-108 | a token wins at most one rotation |
| `Reuse.OneAccessTokenResolves` | internal/api/oauth2.go:510-522 | of all access tokens a session ever had exactly its current one resolves |
| `Reuse.RunKeepsDead` | internal/store/postgres/postgres_sessions.go:118-126 | once a session is gone none of its tokens resolves in any later state |
| `Reuse.ReplayRun` | internal/api/oauth2.go:459-522 | a request of the owner with a rotated token stays on the way to revocation whatever runs in between |
| `Reuse.ReuseEndsFamily` | internal/api/oauth2.go:742-770 | section 4.14 of RFC 9700: once such a request has answered, in every later state the family is gone |
| `Reuse.ReuseCompletes` | internal/api/oauth2.go:742-770 | and it answers within three of its own store calls |
| `Provenance.RunGrows` | internal/store/postgres/postgres_sessions.go:41-63 | nothing on record is revised by any run |
| `Provenance.CodeYieldsOneFaithfulSession` | internal/api/oauth2.go:392-457 | section 4.1.2 of RFC 6749: a code leads to at most one session, with the code's user, client, scopes, MFA time and auth time as long as it lives |
| `Provenance.OneRequestWinsACode` | internal/api/oauth2.go:426-435 | of all concurrent redemptions one wins |
| `Provenance.OneSessionPerDevice` | internal/api/web_portal_device.go:302-331 | a device code leads to at most one session |
| `Provenance.OneRequestWinsADevice` | internal/store/postgres/postgres_device_grants.go:119-132 | of all concurrent polls one gets to mint |
| `Provenance.DeniedNeverMints` | internal/api/web_portal_device.go:279-281 | a denied grant never leads to a session, in any later state |
| `Provenance.ApprovalIsRecorded` | internal/api/web_portal_device.go:211-219 | an approval takes a pending grant and records the approver's user and MFA state |
| `Provenance.DeviceSessionIsTheApprovers` | internal/api/web_portal_device.go:302-331 | the session minted has exactly the approver's user and MFA snapshot, though the handler uses a row read before the redeem |
| `Provenance.ActionMovesDevice` | internal/store/postgres/postgres_device_grants.go:84-132 | one action moves a grant along at most one arrow of the state diagram |
| `Provenance.DeviceStatusOnlyAdvances` | internal/store/postgres/postgres_device_grants.go:84-149 | over any run a grant only goes pending, approved, redeemed or pending, denied; a reaped one does not come back |
| `Provenance.MfaTimeIsCarried` | internal/api/oauth2.go:446-446 | no run moves the MFA time, user, client, scopes or auth time of a code, device or client session |
| `Provenance.AgeCheckIsRedundant` | internal/api/oauth2.go:57-72 | both expiries stay within four hours of creation, so the separate age checks decide nothing |
| `Provenance.TokensAreShortLived` | internal/api/oauth2.go:510-512 | in every reachable state no access token outlives now by more than 15 minutes and no refresh token by more than an hour |
| `ScopeChecks.OnlyAskersAccept` | internal/api/oauth2.go:84-91 | a step records an accepted scope list only on one of the four routes that ask, for the scopes that request asked for |
| `ScopeChecks.TicketHasAMoment` | internal/api/oauth2.go:207-213 | every ticket was drawn at one step of the run, by the request on record, as its scopes passed the check against the registration of that moment |
| `ScopeChecks.ScopesWereRegistered` | internal/api/oauth2.go:581-591 | behind every bearer session is the one request that asked for it: at the very step in which that request passed the check every granted scope was registered, and neither the session nor its code or device grant existed; refresh never changes the list; device lists survive if and only if they are words |
| `ScopeChecks.DeviceScopeWithSpaceSplits` | internal/api/web_portal_device.go:65-75 | a registered scope with a space comes back as two unregistered ones |
| `Factors.VerifiedMeansChallenged` | internal/api/web_portal.go:820-827 | a session is MFA-verified if and only if it has an MFA time, which stamps a challenge its own user passed within the request that stamped it; its user once passed a password check or registered |
| `Factors.ConsoleUrlMeansFreshChallenge` | internal/api/web_portal_aws.go:256-284 | a console URL for a step-up role at gate t means a challenge of that user at v, t - TTL - lag <= v <= t, where lag is what the request that stamped it had taken; t - TTL <= v when a TOTP form of the portal stamped it |
| `Routes.StampIsTheChallenge` | internal/api/web_portal_step_up.go:157-164 | an MFA time is the challenge's own time in every run if and only if the route is the portal's TOTP login or TOTP step-up |
| `Routes.UrlAfterAnOldChallenge` | internal/api/web_portal_aws.go:256-284 | for every TTL, every later moment and each of the four other stamping routes a run in which a console URL for a step-up role is issued at that moment and the user's only challenge ever was at time 0 |
| `Routes.UrlIsFresh` | internal/api/web_portal_aws.go:256-284 | on a server with any TTL every console URL for a step-up role has a challenge of its user within the TTL before the gate, in every run, if and only if its MFA time was stamped by the portal's TOTP login or TOTP step-up |
| `Routes.RotationGate` | internal/api/web_portal.go:460-473 | no run signs a user in whose row demanded a rotation when the request read it, if and only if the route is the portal's password or TOTP form, or registration, where no row ever demands one |
| `Routes.UngatedRouteSlips` | internal/api/web_sso.go:189-262 | the run, for each of the six other routes: /authorize with its TOTP and WebAuthn steps, silent sign-on, the portal's WebAuthn form and the rotation form |
| `Requests.AnswerBelongsToRequest` | internal/api/oauth2.go:392-457 | in every reachable state any answer belongs to its request: the session to the code or device code presented, by its client, in time, with redirect and PKCE verifier; the code to the form's user, scopes, redirect and challenge, after a factor verified within the request; a device code or machine session to the scopes asked for and checked by it; a sign-in to the form's or cookie's user or the account registered; everything behind a cookie to the cookie's user, a step-up URL to a factor verified by it |
| `Requests.CodeTrailStep` | internal/api/oauth2.go:402-441 | the code exchange carries what it checked to the mint |
| `Requests.DeviceTrailStep` | internal/api/web_portal_device.go:262-331 | the device grant likewise |
| `Requests.FactorTrailStep` | internal/api/web_sso.go:189-262 | the MFA step issues a code only for the sealed request and a factor of its user verified since it began |
| `Requests.PortalTrailAct` | internal/api/web_portal_device.go:200-238 | an approval is made in the name of the cookie's own user |
| `Moments.SessionHasAMoment` | internal/store/postgres/postgres_sessions.go:41-63 | every session was inserted at one step of the run and said then what its row says |
| `Moments.ApproverWasActive` | internal/api/web_portal_device.go:310-323 | over every run: behind a session minted for a device code stands an earlier step of the very request that redeemed it, which read the row of the user who had approved and found the account active |
| `Moments.AdminMeansAdministrator` | internal/api/web_portal.go:806-848 | over every run: a portal session has the admin scope if and only if the row of its user that its request had read, inserted or promoted last is an administrator's, on the portal's forms, on registration and on the seat of /authorize alike |
| `Moments.FactorFormOpens` | internal/api/oauth2.go:250-263 | over every run: the second-factor form of /authorize opens for a sealed cookie if and only if at most 15 minutes have passed since the step in which the right password for that user's active account sealed it, and that step is the auth time |
| `Moments.LoginFormOpens` | internal/api/web_portal.go:209-245 | the portal's second-factor and rotation forms likewise, for ten minutes |
| `Lifetime.PortalHitsHonoured` | internal/api/web_portal.go:139-167 | portal hits are honoured if and only if every gap is at most 15 minutes and the hit at most 4 hours after creation |
| `Lifetime.RefreshesHonoured` | internal/api/oauth2.go:475-512 | a chain of refreshes likewise, with gaps of at most one hour |
| `Lifetime.VisitSlides` | internal/api/web_portal.go:160-167 | a visit is honoured exactly when live, and then slides the access expiry alone |
| `Lifetime.VisitsHonoured` | internal/api/middleware.go:157-166 | sequences of whole visits to the server, on its evolving tables, are honoured exactly like that |
| `Lifetime.RefreshSlides` | internal/api/oauth2.go:475-512 | a whole refresh alone on the tables is one such event for the refresh expiry; the new access token gets 15 minutes or what is left of the four hours |
| `Lifetime.RefreshChainHonoured` | internal/api/oauth2.go:459-522 | chains of whole refreshes, each with the token the one before handed out, on the evolving tables, are honoured exactly like that from the minting on |
| `Lifetime.CodeIsRefreshedFor` | internal/api/oauth2.go:392-522 | from the exchange of a code on: it answers tokens, and of any refreshes, each with the token handed out last, those get new ones that come within an hour of the one before and within four hours of the exchange |
| `Lifetime.DeviceIsRefreshedFor` | internal/api/web_portal_device.go:302-331 | the same from the poll that redeems an approved device code on |
| `Lifetime.MachinesNeverRefresh` | internal/api/oauth2.go:496-505 | the refresh token of a client-credentials session is never good for anything |
| `Lifetime.SignInIsHonouredFor` | internal/api/web_portal.go:419-494 | from the portal's password form on: visits with its cookie are honoured if and only if every gap is at most 15 minutes and the visit at most four hours after the sign-in |
| `Lifetime.ReaperIgnoresVisits` | internal/store/postgres/postgres_sessions.go:151-154 | the session reaper removes a portal session exactly after 15 minutes, visited or not |
| `Pacing.IntervalCountsSlowDowns` | internal/api/web_portal_device.go:288-297 | after k slow_down answers the interval is exactly 5(k+1) seconds |
| `Pacing.PendingComesLate` | internal/api/web_portal_device.go:288-301 | a later poll is answered authorization_pending if and only if it comes at least the current interval after the previous poll, else slow_down |
| `Pacing.AtMost181Pendings` | internal/api/web_portal_device.go:29-38 | at most 181 authorization_pending answers in a code's 15 minutes |
| `Pacing.BoundIsAttained` | internal/api/web_portal_device.go:29-38 | and 181 are possible |
| `Pacing.PollAlone` | internal/api/web_portal_device.go:250-301 | a whole poll of the machine is one step of that arithmetic |
| `Pacing.FreshCodeIsPaced` | internal/api/web_portal_device.go:250-301 | whole polls of a fresh device code on the evolving tables: interval 5(k+1) after k slow_down answers, and at most 181 authorization_pending answers ever |
| `Pacing.NewCodeIsPaced` | internal/api/web_portal_device.go:48-104 | the same from the device authorization request on |
| `PollRuns.IntervalExactIffUndisturbed` | internal/api/web_portal_device.go:288-301 | over any run of the machine the interval is the first one plus 5 seconds per slow_down at every moment if and only if each poll's write finds the interval the poll had read |
| `PollRuns.AloneIsUndisturbed` | internal/store/postgres/postgres_device_grants.go:134-139 | a poll into which no other poll's write falls is such a one |
| `PollRuns.TornPollsLoseABackoff` | internal/store/postgres/postgres_device_grants.go:134-139 | the run in which two early polls both read before either writes: two slow_down answers, one raise |
| `Awsfed.Provisioner.RevokeUser` | internal/provision/awsfed/awsfed.go:152-175 | the loop over roles is the fold of revoking each; it reports success if and only if every ARN has a name |
| `Awsfed.Provisioner.RevokeOneRole` | internal/provision/awsfed/awsfed.go:179-204 | the row is written, the policy is the role's rows |
| `Awsfed.Provisioner.CollectActiveRevokedSubs` | internal/provision/awsfed/awsfed.go:209-220 | the subjects of the role's rows, sorted, once each |
| `Awsfed.Provisioner.DeleteExpiredRows` | internal/provision/awsfed/awsfed.go:252-264 | exactly the role's rows go that are older than the seconds in its column, one hour where it has none; the count is zero if and only if none does |
| `Awsfed.Provisioner.ReapExpired` | internal/provision/awsfed/awsfed.go:230-321 | the sweep is the fold of reaping each role |
| `Awsfed.Provisioner.RoleNameFromArn` | internal/provision/awsfed/awsfed.go:376-385 | what follows the last slash, "" without one |
| `AwsRuns.RevokeAllRows` | internal/store/postgres/postgres_awsfed.go:279-286 | a revocation dates every catalogued role's row of that subject to now and touches no other |
| `AwsRuns.ReapAllRows` | internal/provision/awsfed/awsfed.go:230-264 | a sweep removes exactly the rows older than the seconds of their role's column, one hour where the column has none |
| `AwsRuns.SoundRunsAreSafe` | internal/provision/awsfed/awsfed.go:152-321 | after any run of mints, revokes and sweeps every policy denies exactly the subjects of its rows, absent if none, and every session minted no later than its subject's latest revocation is denied or more seconds old than its role's column says |
| `AwsRuns.AgreesIffSound` | internal/provision/awsfed/awsfed.go:192-200 | policies match rows in all runs if and only if ARNs end in names and same-named roles last equally long |
| `AwsRuns.SafeIffGuarded` | internal/provision/awsfed/awsfed.go:152-321 | every session revoked is over or denied in all runs if and only if each role that can be minted has a name and no shorter namesake |
| `AwsRuns.NamelessSessionLives` | internal/provision/awsfed/awsfed.go:192-195 | a session of a nameless role lives on after its revocation |
| `AwsRuns.ShortNamesakeFrees` | internal/provision/awsfed/awsfed.go:279-296 | a sweep for a shorter namesake takes the policy away while a revoked session still lives |
| `AwsRuns.NamelessRoleFails` | internal/provision/awsfed/awsfed.go:192-195 | a role without a name gets a row but no policy |
| `AwsRuns.SharedNameFails` | internal/provision/awsfed/awsfed.go:279-296 | of two same-named roles the shorter takes the shared policy away too early |
| `AwsRuns.LaterSessionsAreDeniedToo` | internal/provision/awsfed/awsfed.go:330-371 | for a catalogue whose policies match its rows: after any run a session minted now is denied if and only if its subject was revoked and no sweep since the latest revocation came later than that plus the role's duration |
| `AwsRuns.ReapIsNoRetry` | internal/provision/awsfed/awsfed.go:266-268 | a sweep with nothing to remove leaves every policy as it is |
| `Scim.Client.UpsertUser` | internal/provision/scim/client.go:153-170 | patch a known cached record, else drop the entry and post |
| `Scim.Client.ResolveUserId` | internal/provision/scim/client.go:258-272 | cache first, then the server by external id, filling the cache |
| `Scim.Client.ResolveGroupMembers` | internal/provision/scim/client.go:335-358 | every member ends up cached and referred to by its cached id; cached ones are left alone |
| `Scim.Client.UpsertGroup` | internal/provision/scim/client.go:301-322 | the group on the server has that name and the members' ids |
| `Scim.Client.SetUserActive` | internal/provision/scim/client.go:214-235 | the three cases: known, stale (entry dropped, server untouched), uncached |
| `Scim.Client.SyncAll` | internal/provision/sync.go:28-72 | the loops are the folds over users, then groups, and the four counters say how many of each were pushed and failed |
| `ScimRuns.OnePass` | internal/provision/scim/client.go:153-194 | after one pass a user is linked to the record with its e-mail, and the record is current if and only if the user was ready |
| `ScimRuns.TwoPassesConverge` | internal/provision/sync.go:28-72 | from any admissible cache two passes make every cached id name a record with that user's e-mail, names, flag and external id; every group has its name and, for each place at which its membership has a listed user, that user's cached id, in that order and as often, and nothing else; a third pass changes nothing |
| `ScimRuns.OnePassIffReady` | internal/provision/scim/client.go:172-194 | one pass is enough if and only if every user is ready |
| `ScimRuns.OnePassCanLeaveAnActiveRecord` | internal/provision/scim/client.go:172-194 | a disabled user met by e-mail stays active on the server after one pass |
| `ArrayCodec.Value` | internal/store/postgres/postgres.go:139-163 | prints the quoted rendering of the list |
| `ArrayCodec.ParsePostgresTextArray` | internal/store/postgres/postgres.go:189-226 | the parser loop computes the parse function, errors included |
| `ArrayCodec.ParseInvertsEveryRendering` | internal/store/postgres/postgres.go:189-226 | it inverts every rendering that quotes an element or leaves it bare when nonempty without comma or double quote |
| `ArrayCodec.RoundTrip` | internal/store/postgres/postgres.go:139-226 | printing then parsing gives any list back |
| `ArrayCodec.BareIsNeeded` | internal/store/postgres/postgres.go:203-226 | a nonempty element may go unquoted if and only if it has no comma or double quote |
| `ArrayCodec.ParsedExactly` | internal/store/postgres/postgres.go:189-201 | a text is turned down if and only if it is not something in braces with blanks around them; empty braces are the empty list |
| `ArrayCodec.EscapedIsCharwise` | internal/store/postgres/postgres.go:145-160 | the printer puts a backslash before each backslash and double quote and leaves every other character alone |
| `ArrayCodec.UnclosedRunsOn` | internal/store/postgres/postgres.go:203-226 | a quote that is not closed runs to the end of the text, and a backslash at the very end stands for itself |
| `Regions.ParseAwsRegions` | internal/api/web_portal_aws.go:95-115 | the loop computes the accepted configuration or an error |
| `Regions.AcceptedIsWellFormed` | internal/api/web_portal_aws.go:90-115 | the regions are the listed names and the default, once each |
| `Regions.AcceptedExactly` | internal/api/web_portal_aws.go:66-115 | a configuration is turned down if and only if something listed, or the default, is not 1 to 20 lower-case letters, digits and hyphens; the regions keep the order of their first mention and the default comes last unless listed |
| `Regions.ParseIsAFixpoint` | internal/api/web_portal_aws.go:95-115 | a configuration written out again parses to itself |
| `Regions.Portal.EligibleAwsRegions` | internal/api/web_portal_aws.go:129-139 | the server's list narrowed to the role's |
| `Regions.Portal.AwsRegionOptions` | internal/api/web_portal_aws.go:148-173 | the options a tile offers |
| `Regions.Portal.ResolveAwsRegion` | internal/api/web_portal_aws.go:186-196 | the first option that fits the request |
| `Regions.OneSelected` | internal/api/web_portal_aws.go:141-173 | a tile with options has exactly one selected |
| `Regions.ResolveAcceptsTheOffered` | internal/api/web_portal_aws.go:181-196 | exactly the offered values are accepted, and empty for the selected one |
| `Regions.TheTile` | internal/api/web_portal_aws.go:141-173 | the tile offers exactly the server's regions the role may use, in the server's order, after the global door, which is offered if and only if the role is unrestricted and no default is configured |
| `Regions.TheDefaultDoor` | internal/api/web_portal_aws.go:181-196 | the empty request is the global door for an unrestricted role without a configured default, the configured default whenever the role may use it, otherwise the first region of the server's list that it may use, and turned away if there is none |
| `Regions.ResolveIsIdempotent` | internal/api/web_portal_aws.go:244-253 | checking the resolved door again gives the same door |
| `Regions.AcceptedRegionIsAllowed` | internal/api/web_portal_aws.go:125-139 | an accepted region is in the server's list, and in the role's when it has one |
| `Regions.Portal.ParseRoleRegions` | internal/api/web_portal_aws_admin.go:214-225 | each entry must be one of the server's regions; repetitions are dropped |
| `Regions.StoredListSurvives` | internal/model/model.go:260-269 | a list survives EncodeRegions and DecodeRegions if and only if it has no comma in it and is not one empty string |
| `Regions.RoleRegionsSurvive` | internal/model/model.go:260-269 | every list parseRoleRegions produces survives |
| `UserCodes.NormalizeUserCode` | internal/api/web_portal_device.go:374-387 | the byte loop computes the normal form |
| `UserCodes.NormalFormIsTheCode` | internal/api/web_portal_device.go:370-387 | a text has a code as its normal form if and only if it is the code up to spaces, tabs, hyphens and case |
| `UserCodes.GenerateUserCode` | internal/api/web_portal_device.go:354-368 | the loop yields the letters of the bytes with a hyphen after the fourth |
| `UserCodes.GeneratedNormalises` | internal/api/web_portal_device.go:354-387 | the code shown normalises to the letters generated |
| `UserCodes.CodesAreUniform` | internal/api/web_portal_device.go:354-368 | every 8-letter code comes from exactly 2^24 byte strings |
| `Groups.Catalogue.SyncUserGroups` | internal/api/web_portal.go:1202-1236 | the loop reconciles the memberships and emits the events of the changes |
| `Groups.ReconciledIsTheSelection` | internal/api/web_portal.go:1198-1236 | the user is in exactly the existing groups selected, others unmoved, and a second sync emits nothing |
| `Groups.EventsAreTheChanges` | internal/api/web_portal.go:1198-1236 | exactly the changed groups are announced, once each, with their new members |
| `Groups.Catalogue.ReplaceGroupMembers` | internal/store/postgres/postgres_groups.go:66-84 | the group's members become the given ids |
| `Groups.Catalogue.ListAwsRolesForUser` | internal/store/postgres/postgres_awsfed.go:239-261 | the join: roles assigned to a group the user is in, once each, ordered by display name |
| `Groups.Catalogue.AuthorizingGroupsForRole` | internal/api/web_portal_aws.go:596-626 | the walk: a sorted permutation of the authorizing groups' names |
| `Groups.NamesAreCounted` | internal/api/web_portal_aws.go:613-623 | each name occurs as often as there are authorizing groups of that name |
| `Groups.TwoComputationsAgree` | internal/api/web_portal_aws.go:586-626 | the join lists a role if and only if the walk returns a name |
| `Lockout.Engine.First` | internal/policy/engine.go:28-35 | the first violated rule, none if and only if all pass |
| `Lockout.Engine.Evaluate` | internal/policy/engine.go:17-25 | the violated rules, in the order and as often as they were added |
| `Lockout.Login.PasswordStep` | internal/api/oauth2.go:221-248 | what an attempt does to the account, and when it is accepted |
| `Lockout.Login.IncrementFailedAttempts` | internal/api/oauth2.go:795-803 | counts, and locks from the tenth on |
| `Lockout.AcceptedExactly` | internal/policy/pci.go:72-145 | who gets in: the right password, an active account, no standing lock, a password young enough unless a second factor is enrolled, and a second factor at a confidential client where the rules ask for one |
| `Lockout.CounterIsExact` | internal/api/oauth2.go:795-803 | the counter is the wrong passwords since the last accepted login, the lock is on, to half an hour after the latest, if and only if there are ten, and no other column moves |
| `Lockout.NoLoginWhileLocked` | internal/policy/pci.go:96-104 | no login is accepted within 30 minutes after a wrong password that was the tenth or later in its row |
| `LockoutRuns.CounterExactIffUpToDate` | internal/api/oauth2.go:221-248 | over every interleaving of attempts, each a read and a write: the counter is the wrong passwords answered since the last accepted login at every moment if and only if each was answered on the count it had read |
| `LockoutRuns.AloneIsUpToDate` | internal/api/oauth2.go:795-803 | an attempt into which no other answer falls is such a one |
| `LockoutRuns.TornFailuresCountOnce` | internal/api/oauth2.go:795-803 | two wrong passwords that both read the row before either is answered count once |
| `LockoutRuns.GuessesBeforeTheLock` | internal/api/oauth2.go:795-803 | with at most c attempts in flight at most C(c+9, c) - 1 wrong passwords in a row are answered without a lock |
| `LockoutRuns.BoundIsReached` | internal/api/oauth2.go:795-803 | and that many can be, for every c |
| `LockoutRuns.LockStandsIffNotUndone` | internal/store/postgres/postgres_users.go:111-116 | over every interleaving a lock is on at every moment if and only if no answer in between undoes it: a failure counted from below nine or with an older clock reading, or an accepted login |
| `LockoutRuns.LoginMeansUndone` | internal/policy/pci.go:96-104 | a login accepted within the half hour of a locking failure means such an answer in between |
| `LockoutRuns.LateAnswerUnlocks` | internal/api/oauth2.go:795-803 | the run in which one wrong password, read first and answered last, takes off the lock ten others have put on |
| `LockoutRuns.LoginWithinTheHalfHour` | internal/api/oauth2.go:221-248 | after it a right password is accepted at any time, if the other rules let it pass |
| `LockoutRuns.UnlockedTriesEver` | internal/api/oauth2.go:795-803 | of any number of wrong passwords, at most c at a time, at most C(c+10, c) - 1 are tried on a row without a lock |
| `LockoutRuns.UnlockedBoundIsReached` | internal/api/oauth2.go:795-803 | and that many can be, for every c |

## Left out

- HTTP, forms, JSON, templates, redirects, cookies as bytes: only the decisions the handlers make are modelled; a sealed
  cookie is an unforgeable value that may be replayed.
- bcrypt, TOTP, WebAuthn, signatures and token hashing: whether a check passes is an outside choice.
- Policy rules in the protocol machine: one outside choice per login; AccountLockout, PasswordAge and MFARequired are
  looked into in `Lockout`, the other rules are opaque.
- Logout, /revoke, a user switch in ensurePortalCookie, account administration and the sweepers: administrative
  statements that may happen at any time, which allows more than the code does.
- ID token contents, audit entries, rate limits, client authentication and redirect URI registration.
- A commit whose outcome the server does not learn: a statement either takes effect or reports that it did not.
- The sqlite store: the same guarded statements as the postgres store.
- strings.EqualFold beyond ASCII letters, and bytes that are not valid text.
- Awsfed.Provisioner.RevokeUser: store and IAM calls succeed and a whole call is one step; a failed push or calls that
  interleave between list and push break the agreement.
- AwsRuns.SoundRunsAreSafe: the role catalogue does not change during a run; deleting a role leaves its policy behind,
  and shortening a duration would let sessions outlive their rows.
- ScimRuns.TwoPassesConverge: no failing request; the order in which a server with several records of one external id
  lists them.
- Groups.Catalogue.SyncUserGroups: no failing store call; the user records attached to an event.
- Session role names, loopback redirects, password character classes: single-function facts.
