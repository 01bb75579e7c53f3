/**
 The token, code, device and portal handlers as one machine.

 A request is in flight at a program counter (Pc). Each Pc stands just before
 one store call; Exec runs that call and the handler code after it, up to the
 next call. Requests interleave freely, so a row a handler has read may be
 stale by the time it writes, and so is a clock reading: what a handler reads
 before a call is the time of the call before that one, kept in the Pc as
 `at`. What the environment decides (fresh tokens and ids, whether a password,
 a factor or a policy check passes) is a Choice.

 History is not read by any handler: it remembers what has happened, for the
 theorems.
 */
module Protocol {
  import opened Model
  import opened Stores

  type ReqId = nat

  // What an authorization request carries on to the grant it ends in. No
  // handler looks at the ticket: it names the scope check the request passed.
  datatype AuthReq = AuthReq(
    user: UserId, client: ClientId, scopes: Scopes, redirect: nat, challenge: Option<nat>, authTime: Time,
    ticket: TicketId)

  // The sealed cookies: only the server can make one, anyone may replay one.
  datatype Cookie =
    | AuthCookie(req: AuthReq, exp: Time)
    | LoginCookie(uid: UserId, exp: Time)
    | PortalCookie(token: Token)

  // What a request under portalAuth is for.
  datatype Purpose =
    | Visit
    | Approve(did: DeviceId)
    | Deny(did: DeviceId)
    | StepUp(webauthn: bool, console: bool)
    | Console(stepUpRole: bool)
    | Silent(client: ClientId, scopes: Scopes, redirect: nat, challenge: Option<nat>, ticket: TicketId)

  datatype Outcome =
    | Aborted | Rejected | ServerError
    | Refreshed(sid: SessionId) | FamilyRevoked(sid: SessionId)
    | Issued(sid: SessionId) | CodeIssued(gid: GrantId) | DeviceCode(did: DeviceId)
    | SlowDown | AuthorizationPending | AccessDenied | ExpiredToken
    | MfaPrompt | SignedIn(sid: SessionId) | Page | Decided | StepUpRequired
    | ConsoleUrl(uid: UserId, stepUpRole: bool, gateAt: Time, mfaAt: Option<Time>)

  datatype Pc =
    // refresh_token grant
    | RefreshLookup(client: ClientId, token: Token)
    | RefreshUser(client: ClientId, token: Token, sid: SessionId, row: Session, at: Time)
    | RefreshRotate(client: ClientId, token: Token, sid: SessionId, row: Session, at: Time)
    | ReuseLookup(client: ClientId, token: Token)
    | ReuseDelete(client: ClientId, token: Token, sid: SessionId)
    // authorization_code grant
    | CodeLookup(client: ClientId, code: Token, redirectUri: nat, verifier: nat)
    | CodeUse(client: ClientId, gid: GrantId, grant: Grant)
    | CodeUser(client: ClientId, gid: GrantId, grant: Grant)
    | CodeMint(client: ClientId, gid: GrantId, grant: Grant, at: Time)
    // device_code grant
    | DeviceLookup(client: ClientId, code: Token)
    | DevicePoll(did: DeviceId, at: Time, interval: nat, answer: Outcome)
    | DeviceRedeem(client: ClientId, did: DeviceId, device: DeviceGrant)
    | DeviceUser(client: ClientId, did: DeviceId, device: DeviceGrant)
    | DeviceMint(client: ClientId, did: DeviceId, device: DeviceGrant, at: Time)
    // device authorization
    | DeviceRequest(client: ClientId, scope: string)
    | DeviceCreate(client: ClientId, scopes: Scopes, ticket: TicketId, at: Time)
    // client_credentials grant
    | CredsRequest(client: ClientId, scope: string)
    | CredsMint(client: ClientId, scopes: Scopes, ticket: TicketId, at: Time)
    // interactive authorization
    | AuthRequest(client: ClientId, scope: string, who: UserId, redirectUri: nat, codeChallenge: Option<nat>)
    | AuthLogin(client: ClientId, scopes: Scopes, who: UserId, redirectUri: nat, codeChallenge: Option<nat>,
                ticket: TicketId)
    | AuthMfa(req: AuthReq, exp: Time, webauthn: bool)
    | AuthFactor(req: AuthReq, user: User, webauthn: bool)
    | AuthRecord(req: AuthReq, user: User, passed: Time)
    | AuthClient(req: AuthReq, user: User, passed: Time)
    | Seat(req: AuthReq, user: User, passedAt: Option<Time>, at: Time)
    | IssueCode(req: AuthReq, mfaAt: Option<Time>, passedAt: Option<Time>, at: Time)
    // portal registration and login
    | Register
    | RegisterCount(uid: UserId, user: User)
    | RegisterPromote(uid: UserId, user: User)
    | RegisterUndo(uid: UserId)
    | Login(who: UserId)
    | LoginMfa(who: UserId, exp: Time, webauthn: bool)
    | LoginFactor(who: UserId, user: User, webauthn: bool)
    | LoginRecord(who: UserId, user: User, passed: Time)
    | ChangePassword(who: UserId, exp: Time)
    | ChangeStore(who: UserId)
    | ChangeReload(who: UserId)
    | PortalCreate(who: UserId, user: User, passedAt: Option<Time>, at: Time)
    // portal hits and silent single sign-on
    | SilentRequest(client: ClientId, scope: string, redirectUri: nat, codeChallenge: Option<nat>, token: Token)
    | PortalRead(token: Token, purpose: Purpose)
    | PortalUser(sid: SessionId, row: Session, purpose: Purpose)
    | PortalSlide(sid: SessionId, row: Session, uid: UserId, purpose: Purpose, at: Time)
    | PortalAct(sid: SessionId, row: Session, uid: UserId, purpose: Purpose)
    | StepUpRecord(sid: SessionId, uid: UserId, passed: Time, console: bool)
    | StepUpMark(sid: SessionId, uid: UserId, passed: Time, at: Time, console: bool)
    | StepUpGo(uid: UserId, at: Time, console: bool)
    | Finished(out: Outcome)

  datatype Choice = Choice(id: nat, t1: Token, t2: Token, ok: bool)

  // A scope list found registered; a factor verified at `passed` and stamped `at`.
  datatype Acceptance = Acceptance(client: ClientId, scopes: Scopes, registered: Scopes)
  datatype Stamp = Stamp(uid: UserId, passed: Time, at: Time)

  // One step of a handler: the statement it runs, where it goes next, and
  // what it hands out or vouches for on the way.
  datatype Out = Out(write: Write, next: Pc, seal: Option<Cookie>, accept: Option<Acceptance>, stamp: Option<Stamp>)

  function Go(next: Pc): Out {
    Out(Nothing, next, None, None, None)
  }

  function Do(write: Write, next: Pc): Out {
    Out(write, next, None, None, None)
  }

  // ---- refresh_token (handleTokenRefresh, revokeOnRefreshReuse) ----

  ghost function ExecRefreshLookup(st: Store, now: Time, client: ClientId, token: Token): (o: Out)
    ensures o == Go(o.next)
  {
    match FindByRefresh(st, token)
    case None => Go(ReuseLookup(client, token))
    case Some(sid) =>
      var row := st.sessions[sid];
      if row.client != client || now > row.refreshExp || now > row.createdAt + ABSOLUTE_TTL
      then Go(Finished(Rejected))
      else Go(RefreshUser(client, token, sid, row, now))
  }

  function ExecRefreshUser(st: Store, client: ClientId, token: Token, sid: SessionId, row: Session, at: Time): Out {
    if row.user.Some? && row.user.value in st.users
    then Go(RefreshRotate(client, token, sid, row, at))
    else Go(Finished(ServerError))
  }

  function RotateWrite(token: Token, sid: SessionId, row: Session, at: Time, ch: Choice): Write {
    Rotate(sid, token, ch.t1, ch.t2,
           CapByAbsolute(at + ACCESS_TTL, row.createdAt), CapByAbsolute(at + REFRESH_TTL, row.createdAt))
  }

  function ExecRefreshRotate(st: Store, client: ClientId, token: Token, sid: SessionId, row: Session, at: Time,
                             ch: Choice): Out {
    var w := RotateWrite(token, sid, row, at, ch);
    Do(w, match Answer(st, w)
          case Done => Finished(Refreshed(sid))
          case NoRow => ReuseLookup(client, token)
          case Refused => Finished(ServerError))
  }

  ghost function ExecReuseLookup(st: Store, client: ClientId, token: Token): (o: Out)
    ensures o == Go(o.next)
  {
    match FindByRetired(st, token)
    case Some(sid) =>
      if st.sessions[sid].client == client then Go(ReuseDelete(client, token, sid)) else Go(Finished(Rejected))
    case None => Go(Finished(Rejected))
  }

  // ---- authorization_code (handleTokenAuthCode) ----

  // Only S256 challenges are kept; an absent one accepts any verifier.
  predicate VerifyPkce(challenge: Option<nat>, verifier: nat) {
    challenge.Some? ==> challenge.value == verifier
  }

  ghost function ExecCodeLookup(st: Store, now: Time, client: ClientId, code: Token, redirectUri: nat,
                                verifier: nat): (o: Out)
    ensures o == Go(o.next)
  {
    match FindGrant(st, code)
    case None => Go(Finished(Rejected))
    case Some(gid) =>
      var g := st.grants[gid];
      if g.used || g.client != client || g.redirect != redirectUri || now > g.expiresAt
        || !VerifyPkce(g.challenge, verifier)
      then Go(Finished(Rejected))
      else Go(CodeUse(client, gid, g))
  }

  function ExecCodeUse(st: Store, client: ClientId, gid: GrantId, g: Grant): Out {
    Do(UseGrant(gid), if Answer(st, UseGrant(gid)) == Done then CodeUser(client, gid, g) else Finished(Rejected))
  }

  // mintTokenResponseWithMFAAt
  function MintRow(user: Option<UserId>, client: ClientId, scopes: Scopes, at: Time,
                   mfaVerified: bool, mfaAt: Option<Time>, authTime: Option<Time>, ch: Choice): Session {
    Session(user, client, ch.t1, ch.t2, scopes, at + ACCESS_TTL, at + REFRESH_TTL, mfaVerified, mfaAt, authTime, at)
  }

  function ExecMint(st: Store, row: Session, source: Source, ch: Choice): Out {
    var w := InsertSession(ch.id, row, source);
    Do(w, if Answer(st, w) == Done then Finished(Issued(ch.id)) else Finished(ServerError))
  }

  function ExecCodeUser(st: Store, now: Time, client: ClientId, gid: GrantId, g: Grant): Out {
    Go(if g.user in st.users then CodeMint(client, gid, g, now) else Finished(ServerError))
  }

  function CodeRow(client: ClientId, g: Grant, at: Time, ch: Choice): Session {
    MintRow(Some(g.user), client, g.scopes, at, g.mfaAt.Some?, g.mfaAt, Some(g.authTime), ch)
  }

  // ---- device_code (handleTokenDeviceCode) ----

  // The interval and the answer of a poll that finds the grant pending.
  function PollAnswer(interval: nat, lastPolled: Option<Time>, now: Time): (nat, Outcome) {
    if lastPolled.Some? && now - lastPolled.value < interval * SECOND
    then (interval + DEVICE_INTERVAL, SlowDown)
    else (interval, AuthorizationPending)
  }

  ghost function ExecDeviceLookup(st: Store, now: Time, client: ClientId, code: Token): (o: Out)
    ensures o == Go(o.next)
  {
    match FindDevice(st, code)
    case None => Go(Finished(ExpiredToken))
    case Some(did) =>
      var d := st.devices[did];
      if d.client != client then Go(Finished(Rejected))
      else if now > d.expiresAt then Go(Finished(ExpiredToken))
      else match d.status
        case Denied => Go(Finished(AccessDenied))
        case Expired => Go(Finished(ExpiredToken))
        case Redeemed => Go(Finished(Rejected))
        case Pending =>
          var (interval, answer) := PollAnswer(d.interval, d.lastPolled, now);
          Go(DevicePoll(did, now, interval, answer))
        case Approved => Go(DeviceRedeem(client, did, d))
  }

  function ExecDeviceRedeem(st: Store, client: ClientId, did: DeviceId, d: DeviceGrant): Out {
    Do(RedeemDevice(did),
       if Answer(st, RedeemDevice(did)) != Done then Finished(Rejected)
       else if d.user.None? then Finished(ServerError)
       else DeviceUser(client, did, d))
  }

  function ExecDeviceUser(st: Store, now: Time, client: ClientId, did: DeviceId, d: DeviceGrant): Out {
    if d.user.None? || d.user.value !in st.users then Go(Finished(ServerError))
    else if !st.users[d.user.value].active then Go(Finished(AccessDenied))
    else Go(DeviceMint(client, did, d, now))
  }

  function DeviceRow(client: ClientId, d: DeviceGrant, at: Time, ch: Choice): Session {
    MintRow(d.user, client, d.scopes, at, d.mfaVerified, d.mfaAt, None, ch)
  }

  // ---- device authorization (handleDeviceAuthorization) ----

  // No scope asked for means all the client is registered for.
  function DeviceScopes(registered: Scopes, scope: string): Scopes {
    if SplitScopes(scope) == [] then registered else SplitScopes(scope)
  }

  function ExecDeviceRequest(st: Store, now: Time, client: ClientId, scope: string, ch: Choice): Out {
    if client !in st.clients || !st.clients[client].allowDevice then Go(Finished(Rejected))
    else
      var registered := st.clients[client].scopes;
      var scopes := DeviceScopes(registered, scope);
      if AllRegistered(registered, scopes)
      then Go(DeviceCreate(client, scopes, ch.id, now)).(accept := Some(Acceptance(client, scopes, registered)))
      else Go(Finished(Rejected))
  }

  function PendingDevice(client: ClientId, scopes: Scopes, at: Time, ch: Choice): DeviceGrant {
    DeviceGrant(ch.t1, ch.t2, client, scopes, Pending, None, false, None, DEVICE_INTERVAL, None, at + DEVICE_TTL)
  }

  function ExecDeviceCreate(st: Store, client: ClientId, scopes: Scopes, ticket: TicketId, at: Time, ch: Choice): Out {
    var w := InsertDevice(ch.id, PendingDevice(client, scopes, at, ch), ticket);
    Do(w, if Answer(st, w) == Done then Finished(DeviceCode(ch.id)) else Finished(ServerError))
  }

  // ---- client_credentials (handleTokenClientCreds) ----

  // The scope check shared by client_credentials and /authorize.
  function AcceptScopes(st: Store, client: ClientId, scope: string, next: Pc): Out {
    if client !in st.clients || UnregisteredScope(st.clients[client].scopes, SplitScopes(scope)) != ""
    then Go(Finished(Rejected))
    else Go(next).(accept := Some(Acceptance(client, SplitScopes(scope), st.clients[client].scopes)))
  }

  function ExecCredsRequest(st: Store, now: Time, client: ClientId, scope: string, ch: Choice): Out {
    if client in st.clients && st.clients[client].isPublic then Go(Finished(Rejected))
    else AcceptScopes(st, client, scope, CredsMint(client, SplitScopes(scope), ch.id, now))
  }

  function CredsRow(client: ClientId, scopes: Scopes, at: Time, ch: Choice): Session {
    MintRow(None, client, scopes, at, false, None, None, ch)
  }

  // ---- interactive authorization (handleAuthorizePost, handleMFATOTPPost,
  //      handleSSOWebAuthnFinish, ensurePortalCookie, issueCodeAndRedirect) ----

  // ch.ok: the password matches and no policy rule objects.
  function ExecAuthLogin(st: Store, now: Time, client: ClientId, scopes: Scopes, who: UserId,
                         redirectUri: nat, codeChallenge: Option<nat>, ticket: TicketId, ch: Choice): Out {
    if who !in st.users || !st.users[who].active || !ch.ok then Go(Finished(Rejected))
    else
      var req := AuthReq(who, client, scopes, redirectUri, codeChallenge, now, ticket);
      if st.users[who].mfaEnabled
      then Go(Finished(MfaPrompt)).(seal := Some(AuthCookie(req, now + AUTH_STATE_TTL)))
      else Go(Seat(req, st.users[who], None, now))
  }

  function ExecAuthMfa(st: Store, req: AuthReq, webauthn: bool): Out {
    Go(if req.user in st.users then AuthFactor(req, st.users[req.user], webauthn) else Finished(Rejected))
  }

  // The enrolled factors are read; ch.ok: the TOTP code or the assertion
  // verifies. A used passkey is recorded before anything else happens.
  function ExecAuthFactor(now: Time, req: AuthReq, user: User, webauthn: bool, ch: Choice): Out {
    if !ch.ok then Go(Finished(Rejected))
    else Go(if webauthn then AuthRecord(req, user, now) else AuthClient(req, user, now))
  }

  // ch.ok: the use of the passkey is recorded.
  function ExecAuthRecord(req: AuthReq, user: User, passed: Time, ch: Choice): Out {
    Go(if ch.ok then AuthClient(req, user, passed) else Finished(Rejected))
  }

  function ExecAuthClient(st: Store, now: Time, req: AuthReq, user: User, passed: Time): Out {
    if req.client in st.clients then Go(Seat(req, user, Some(passed), now)) else Go(Finished(Rejected))
  }

  // createPortalSession and ensurePortalCookie build the same row.
  function PortalRow(who: UserId, user: User, at: Time, ch: Choice): Session {
    Session(Some(who), PORTAL_CLIENT, ch.t1, ch.t2, if user.isAdmin then ["portal", "admin"] else ["portal"],
            at + PORTAL_TTL, at + PORTAL_TTL, user.mfaEnabled,
            if user.mfaEnabled then Some(at) else None, None, at)
  }

  function StampIf(user: User, who: UserId, passed: Option<Time>, at: Time): Option<Stamp> {
    if user.mfaEnabled && passed.Some? then Some(Stamp(who, passed.value, at)) else None
  }

  // Seating the cookie is best effort: the code is issued either way.
  function ExecSeat(st: Store, now: Time, req: AuthReq, user: User, passed: Option<Time>, at: Time, ch: Choice): Out {
    var w := InsertSession(ch.id, PortalRow(req.user, user, at, ch), ByPortal);
    Out(w, IssueCode(req, None, passed, now),
        if Answer(st, w) == Done then Some(PortalCookie(ch.t1)) else None, None, StampIf(user, req.user, passed, at))
  }

  // A factor proven in this request is stamped when the code is made.
  function CodeGrant(req: AuthReq, mfaAt: Option<Time>, passed: Option<Time>, at: Time, ch: Choice): Grant {
    Grant(req.user, req.client, ch.t1, req.challenge, req.scopes, req.redirect, at + CODE_TTL, false,
          if passed.Some? then Some(at) else mfaAt, req.authTime)
  }

  function ExecIssueCode(st: Store, req: AuthReq, mfaAt: Option<Time>, passed: Option<Time>, at: Time,
                         ch: Choice): Out {
    var w := InsertGrant(ch.id, CodeGrant(req, mfaAt, passed, at, ch), req.ticket);
    Out(w, if Answer(st, w) == Done then Finished(CodeIssued(ch.id)) else Finished(ServerError), None, None,
        if passed.Some? then Some(Stamp(req.user, passed.value, at)) else None)
  }

  // ---- portal registration and login (handlePortalRegisterPOST,
  //      handlePortalLoginPOST, handlePortalLoginMFA and its WebAuthn
  //      counterpart, handlePortalChangePassword, createPortalSession) ----

  const NEW_USER: User := User(true, false, false, false)

  // ch.ok: registration is open, the password is acceptable and the e-mail
  // address is free.
  function ExecRegister(st: Store, ch: Choice): Out {
    var w := InsertUser(ch.id, NEW_USER);
    if ch.ok then Do(w, if Answer(st, w) == Done then RegisterCount(ch.id, NEW_USER) else Finished(ServerError))
    else Go(Finished(Rejected))
  }

  // ch.ok: the audit journal is reachable.
  function Registered(now: Time, uid: UserId, user: User, ch: Choice): Pc {
    if ch.ok then PortalCreate(uid, user, None, now) else RegisterUndo(uid)
  }

  // The first account administrates.
  function ExecRegisterCount(st: Store, now: Time, uid: UserId, user: User, ch: Choice): Out {
    Go(if |st.users| == 1 then RegisterPromote(uid, user) else Registered(now, uid, user, ch))
  }

  function ExecRegisterPromote(now: Time, uid: UserId, user: User, ch: Choice): Out {
    Do(PromoteUser(uid), Registered(now, uid, user.(isAdmin := true), ch))
  }

  function ExecLogin(st: Store, now: Time, who: UserId, ch: Choice): Out {
    if who !in st.users || !st.users[who].active || !ch.ok then Go(Finished(Rejected))
    else if st.users[who].mustChange || st.users[who].mfaEnabled
    then Go(Finished(MfaPrompt)).(seal := Some(LoginCookie(who, now + PORTAL_LOGIN_TTL)))
    else Go(PortalCreate(who, st.users[who], None, now))
  }

  // Only the TOTP route sends a user with a pending rotation away.
  function ExecLoginMfa(st: Store, who: UserId, webauthn: bool): Out {
    if who !in st.users || (st.users[who].mustChange && !webauthn) then Go(Finished(Rejected))
    else Go(LoginFactor(who, st.users[who], webauthn))
  }

  function ExecLoginFactor(now: Time, who: UserId, user: User, webauthn: bool, ch: Choice): Out {
    if !ch.ok then Go(Finished(Rejected))
    else Go(if webauthn then LoginRecord(who, user, now) else PortalCreate(who, user, Some(now), now))
  }

  function ExecLoginRecord(now: Time, who: UserId, user: User, passed: Time, ch: Choice): Out {
    Go(if ch.ok then PortalCreate(who, user, Some(passed), now) else Finished(Rejected))
  }

  // ch.ok: the new password is accepted.
  function ExecChangePassword(st: Store, who: UserId, ch: Choice): Out {
    Go(if who in st.users && st.users[who].mustChange && ch.ok then ChangeStore(who) else Finished(Rejected))
  }

  // The rotated user is read again, and the rotation flag is not.
  function ExecChangeReload(st: Store, now: Time, who: UserId): Out {
    if who !in st.users then Go(Finished(Rejected))
    else if st.users[who].mfaEnabled then Go(Finished(MfaPrompt))
    else Go(PortalCreate(who, st.users[who], None, now))
  }

  // ch.ok: the audit journal is reachable, so the cookie is handed out.
  function ExecPortalCreate(st: Store, who: UserId, user: User, passed: Option<Time>, at: Time, ch: Choice): Out {
    var w := InsertSession(ch.id, PortalRow(who, user, at, ch), ByPortal);
    Out(w, if Answer(st, w) == Done && ch.ok then Finished(SignedIn(ch.id)) else Finished(ServerError),
        if Answer(st, w) == Done && ch.ok then Some(PortalCookie(ch.t1)) else None, None,
        StampIf(user, who, passed, at))
  }

  // ---- portal hits (readAuthPortalSession, slidePortalSession, trySilentSSO,
  //      handleDeviceConfirm, handlePortalAWSConsole, handlePortalStepUp) ----

  ghost function ExecPortalRead(st: Store, now: Time, token: Token, purpose: Purpose): (o: Out)
    ensures o == Go(o.next)
  {
    match FindByAccess(st, token)
    case None => Go(Finished(Rejected))
    case Some(sid) =>
      if SessionTokenLive(st.sessions[sid], now) then Go(PortalUser(sid, st.sessions[sid], purpose))
      else Go(Finished(Rejected))
  }

  // ch.ok, for silent sign-on: login_hint, max_age and the policy rules pass.
  function ExecPortalUser(st: Store, now: Time, sid: SessionId, row: Session, purpose: Purpose, ch: Choice): Out {
    if row.user.None? || row.user.value !in st.users then Go(Finished(Rejected))
    else
      var user := st.users[row.user.value];
      if purpose.Silent? && (!user.active || (user.mfaEnabled && !row.mfaVerified) || !ch.ok)
      then Go(Finished(Rejected))
      else Go(PortalSlide(sid, row, row.user.value, purpose, now))
  }

  function ExecPortalSlide(sid: SessionId, row: Session, uid: UserId, purpose: Purpose, at: Time): Out {
    Do(Extend(sid, CapByAbsolute(at + PORTAL_TTL, row.createdAt)), PortalAct(sid, row, uid, purpose))
  }

  predicate StepUpFresh(mfaAt: Option<Time>, now: Time, ttl: Time) {
    mfaAt.Some? && now - mfaAt.value <= ttl
  }

  // trySilentSSO: the portal session's MFA time, else its creation time.
  function SilentMfaAt(row: Session): Option<Time> {
    if !row.mfaVerified then None
    else if row.mfaAt.Some? then row.mfaAt
    else Some(row.createdAt)
  }

  // ch.ok: the role and region resolve, or the step-up factor verifies.
  function ExecPortalAct(st: Store, now: Time, ttl: Time, sid: SessionId, row: Session, uid: UserId,
                         purpose: Purpose, ch: Choice): Out {
    match purpose
    case Visit => Go(Finished(Page))
    case Approve(did) =>
      var w := ApproveDevice(did, uid, row.mfaVerified, row.mfaAt);
      Do(w, if Answer(st, w) == Done then Finished(Decided) else Finished(Rejected))
    case Deny(did) => Do(DenyDevice(did), Finished(Decided))
    case StepUp(webauthn, console) =>
      if !ch.ok then Go(Finished(Rejected))
      else Go(if webauthn then StepUpRecord(sid, uid, now, console) else StepUpMark(sid, uid, now, now, console))
    case Console(stepUpRole) =>
      if !ch.ok then Go(Finished(Rejected))
      else if stepUpRole && !StepUpFresh(row.mfaAt, now, ttl) then Go(Finished(StepUpRequired))
      else Go(Finished(ConsoleUrl(uid, stepUpRole, now, row.mfaAt)))
    case Silent(client, scopes, redirect, challenge, ticket) =>
      Go(IssueCode(AuthReq(uid, client, scopes, redirect, challenge, row.createdAt, ticket), SilentMfaAt(row), None,
                   now))
  }

  function ExecStepUpRecord(now: Time, sid: SessionId, uid: UserId, passed: Time, console: bool, ch: Choice): Out {
    Go(if ch.ok then StepUpMark(sid, uid, passed, now, console) else Finished(Rejected))
  }

  // markStepUpSuccess
  function ExecStepUpMark(sid: SessionId, uid: UserId, passed: Time, at: Time, console: bool): Out {
    Out(MarkMfa(sid, at), StepUpGo(uid, at, console), None, None, Some(Stamp(uid, passed, at)))
  }

  // dispatchStepUpNext: the gate was passed when the session was marked.
  function ExecStepUpGo(uid: UserId, at: Time, console: bool, ch: Choice): Out {
    Go(Finished(if !console then Page else if ch.ok then ConsoleUrl(uid, true, at, Some(at)) else Rejected))
  }

  // ---- one step of any request ----

  ghost function ExecRefresh(st: Store, now: Time, pc: Pc, ch: Choice): Out {
    if pc.RefreshLookup? then ExecRefreshLookup(st, now, pc.client, pc.token)
    else if pc.RefreshUser? then ExecRefreshUser(st, pc.client, pc.token, pc.sid, pc.row, pc.at)
    else if pc.RefreshRotate? then ExecRefreshRotate(st, pc.client, pc.token, pc.sid, pc.row, pc.at, ch)
    else if pc.ReuseLookup? then ExecReuseLookup(st, pc.client, pc.token)
    else if pc.ReuseDelete? then Do(DropSession(pc.sid), Finished(FamilyRevoked(pc.sid)))
    else Go(pc)
  }

  ghost function ExecCode(st: Store, now: Time, pc: Pc, ch: Choice): Out {
    if pc.CodeLookup? then ExecCodeLookup(st, now, pc.client, pc.code, pc.redirectUri, pc.verifier)
    else if pc.CodeUse? then ExecCodeUse(st, pc.client, pc.gid, pc.grant)
    else if pc.CodeUser? then ExecCodeUser(st, now, pc.client, pc.gid, pc.grant)
    else if pc.CodeMint? then ExecMint(st, CodeRow(pc.client, pc.grant, pc.at, ch), ByCode(pc.gid), ch)
    else Go(pc)
  }

  ghost function ExecDevice(st: Store, now: Time, pc: Pc, ch: Choice): Out {
    if pc.DeviceLookup? then ExecDeviceLookup(st, now, pc.client, pc.code)
    else if pc.DevicePoll? then Do(PollDevice(pc.did, pc.at, pc.interval), Finished(pc.answer))
    else if pc.DeviceRedeem? then ExecDeviceRedeem(st, pc.client, pc.did, pc.device)
    else if pc.DeviceUser? then ExecDeviceUser(st, now, pc.client, pc.did, pc.device)
    else if pc.DeviceMint? then ExecMint(st, DeviceRow(pc.client, pc.device, pc.at, ch), ByDevice(pc.did), ch)
    else Go(pc)
  }

  function ExecClient(st: Store, now: Time, pc: Pc, ch: Choice): Out {
    if pc.DeviceRequest? then ExecDeviceRequest(st, now, pc.client, pc.scope, ch)
    else if pc.DeviceCreate? then ExecDeviceCreate(st, pc.client, pc.scopes, pc.ticket, pc.at, ch)
    else if pc.CredsRequest? then ExecCredsRequest(st, now, pc.client, pc.scope, ch)
    else if pc.CredsMint? then ExecMint(st, CredsRow(pc.client, pc.scopes, pc.at, ch), ByClient(pc.ticket), ch)
    else Go(pc)
  }

  function ExecAuthorize(st: Store, now: Time, pc: Pc, ch: Choice): Out {
    if pc.AuthRequest? then
      AcceptScopes(st, pc.client, pc.scope,
                   AuthLogin(pc.client, SplitScopes(pc.scope), pc.who, pc.redirectUri, pc.codeChallenge, ch.id))
    else if pc.AuthLogin? then
      ExecAuthLogin(st, now, pc.client, pc.scopes, pc.who, pc.redirectUri, pc.codeChallenge, pc.ticket, ch)
    else if pc.AuthMfa? then ExecAuthMfa(st, pc.req, pc.webauthn)
    else if pc.AuthFactor? then ExecAuthFactor(now, pc.req, pc.user, pc.webauthn, ch)
    else if pc.AuthRecord? then ExecAuthRecord(pc.req, pc.user, pc.passed, ch)
    else if pc.AuthClient? then ExecAuthClient(st, now, pc.req, pc.user, pc.passed)
    else if pc.Seat? then ExecSeat(st, now, pc.req, pc.user, pc.passedAt, pc.at, ch)
    else if pc.IssueCode? then ExecIssueCode(st, pc.req, pc.mfaAt, pc.passedAt, pc.at, ch)
    else Go(pc)
  }

  function ExecRegistration(st: Store, now: Time, pc: Pc, ch: Choice): Out {
    if pc.Register? then ExecRegister(st, ch)
    else if pc.RegisterCount? then ExecRegisterCount(st, now, pc.uid, pc.user, ch)
    else if pc.RegisterPromote? then ExecRegisterPromote(now, pc.uid, pc.user, ch)
    else if pc.RegisterUndo? then Do(DropUser(pc.uid), Finished(ServerError))
    else Go(pc)
  }

  function ExecPortalLogin(st: Store, now: Time, pc: Pc, ch: Choice): Out {
    if pc.Login? then ExecLogin(st, now, pc.who, ch)
    else if pc.LoginMfa? then ExecLoginMfa(st, pc.who, pc.webauthn)
    else if pc.LoginFactor? then ExecLoginFactor(now, pc.who, pc.user, pc.webauthn, ch)
    else if pc.LoginRecord? then ExecLoginRecord(now, pc.who, pc.user, pc.passed, ch)
    else if pc.ChangePassword? then ExecChangePassword(st, pc.who, ch)
    else if pc.ChangeStore? then Do(ResetPassword(pc.who), ChangeReload(pc.who))
    else if pc.ChangeReload? then ExecChangeReload(st, now, pc.who)
    else if pc.PortalCreate? then ExecPortalCreate(st, pc.who, pc.user, pc.passedAt, pc.at, ch)
    else ExecRegistration(st, now, pc, ch)
  }

  ghost function ExecPortal(st: Store, now: Time, ttl: Time, pc: Pc, ch: Choice): Out {
    if pc.SilentRequest? then
      AcceptScopes(st, pc.client, pc.scope,
                   PortalRead(pc.token,
                              Silent(pc.client, SplitScopes(pc.scope), pc.redirectUri, pc.codeChallenge, ch.id)))
    else if pc.PortalRead? then ExecPortalRead(st, now, pc.token, pc.purpose)
    else if pc.PortalUser? then ExecPortalUser(st, now, pc.sid, pc.row, pc.purpose, ch)
    else if pc.PortalSlide? then ExecPortalSlide(pc.sid, pc.row, pc.uid, pc.purpose, pc.at)
    else if pc.PortalAct? then ExecPortalAct(st, now, ttl, pc.sid, pc.row, pc.uid, pc.purpose, ch)
    else if pc.StepUpRecord? then ExecStepUpRecord(now, pc.sid, pc.uid, pc.passed, pc.console, ch)
    else if pc.StepUpMark? then ExecStepUpMark(pc.sid, pc.uid, pc.passed, pc.at, pc.console)
    else if pc.StepUpGo? then ExecStepUpGo(pc.uid, pc.at, pc.console, ch)
    else Go(pc)
  }

  // The handlers, grouped by entry point.
  datatype Family =
    RefreshFamily | CodeFamily | DeviceFamily | ClientFamily | AuthorizeFamily | LoginFamily | PortalFamily | Over

  function FamilyOf(pc: Pc): Family {
    if pc.RefreshLookup? || pc.RefreshUser? || pc.RefreshRotate? || pc.ReuseLookup? || pc.ReuseDelete? then
      RefreshFamily
    else if pc.CodeLookup? || pc.CodeUse? || pc.CodeUser? || pc.CodeMint? then CodeFamily
    else if pc.DeviceLookup? || pc.DevicePoll? || pc.DeviceRedeem? || pc.DeviceUser? || pc.DeviceMint? then DeviceFamily
    else if pc.DeviceRequest? || pc.DeviceCreate? || pc.CredsRequest? || pc.CredsMint? then ClientFamily
    else if pc.AuthRequest? || pc.AuthLogin? || pc.AuthMfa? || pc.AuthFactor? || pc.AuthRecord? || pc.AuthClient?
      || pc.Seat? || pc.IssueCode? then AuthorizeFamily
    else if pc.Login? || pc.LoginMfa? || pc.LoginFactor? || pc.LoginRecord? || pc.ChangePassword? || pc.ChangeStore?
      || pc.ChangeReload? || pc.PortalCreate? || pc.Register? || pc.RegisterCount? || pc.RegisterPromote?
      || pc.RegisterUndo? then LoginFamily
    else if pc.Finished? then Over
    else PortalFamily
  }

  ghost function Exec(st: Store, now: Time, ttl: Time, pc: Pc, ch: Choice): Out {
    match FamilyOf(pc)
    case RefreshFamily => ExecRefresh(st, now, pc, ch)
    case CodeFamily => ExecCode(st, now, pc, ch)
    case DeviceFamily => ExecDevice(st, now, pc, ch)
    case ClientFamily => ExecClient(st, now, pc, ch)
    case AuthorizeFamily => ExecAuthorize(st, now, pc, ch)
    case LoginFamily => ExecPortalLogin(st, now, pc, ch)
    case PortalFamily => ExecPortal(st, now, ttl, pc, ch)
    case Over => Go(pc)
  }

  // ---- the system ----

  datatype Birth = Birth(row: Session, source: Source)
  datatype Approval = Approval(uid: UserId, mfaVerified: bool, mfaAt: Option<Time>)

  // When a request came in, and as what.
  datatype Arrival = Arrival(at: Time, pc: Pc)
  // A scope check passed by request `req`.
  datatype Ticket = Ticket(req: ReqId, what: Acceptance)
  // A factor verified by request `req` at time `passed`.
  datatype Proof = Proof(req: ReqId, passed: Time)

  datatype History = History(
    drawn: set<Token>,                      // every token generated
    ids: set<nat>,                          // every row id generated
    arrived: map<ReqId, Arrival>,           // every request that came in
    born: map<SessionId, Birth>,            // every session ever created
    refreshOf: map<Token, SessionId>,       // every refresh token ever stored
    accessOf: map<Token, SessionId>,        // every access token ever stored
    spent: map<Token, Token>,               // refresh token rotated away -> its successor
    rotations: map<SessionId, nat>,
    grants: map<GrantId, Grant>,            // every code ever issued
    codeTicket: map<GrantId, TicketId>,     // the scope check behind a code
    redeemer: map<GrantId, ReqId>,          // who won a code
    codeSession: map<GrantId, SessionId>,   // what the code was exchanged for
    devices: map<DeviceId, DeviceGrant>,    // every device grant ever created
    deviceTicket: map<DeviceId, TicketId>,  // the scope check behind it
    approvals: map<DeviceId, Approval>,
    denied: set<DeviceId>,
    devRedeemer: map<DeviceId, ReqId>,
    devSession: map<DeviceId, SessionId>,
    challenges: map<(UserId, Time), Proof>, // (user, stamp) -> the challenge behind it
    accepted: map<TicketId, Ticket>,        // every scope check passed
    known: set<UserId>,                     // whose password has been accepted
    enrolled: set<UserId>,                  // who registered themselves
    verified: set<(UserId, Time)>,          // when a second factor verified
    seen: map<ReqId, User>)                 // the user row a login request read last

  datatype System = System(
    now: Time, ttl: Time, st: Store, reqs: map<ReqId, Pc>, jar: set<Cookie>, h: History)

  datatype Action =
    | Tick(to: Time)
    | Arrive(r: ReqId, pc: Pc)
    | Step(r: ReqId, ch: Choice)
    | Abort(r: ReqId)
    | Admin(w: Write)

  // Where a request can start; cookies cannot be forged, and the two that
  // expire are looked at before the first store call.
  predicate Initial(jar: set<Cookie>, now: Time, pc: Pc) {
    if pc.AuthMfa? then AuthCookie(pc.req, pc.exp) in jar && now <= pc.exp
    else if pc.LoginMfa? || pc.ChangePassword? then LoginCookie(pc.who, pc.exp) in jar && now <= pc.exp
    else if pc.SilentRequest? then PortalCookie(pc.token) in jar
    else if pc.PortalRead? then PortalCookie(pc.token) in jar && !pc.purpose.Silent?
    else
      || pc.RefreshLookup? || pc.CodeLookup? || pc.DeviceLookup? || pc.DeviceRequest? || pc.CredsRequest?
      || pc.AuthRequest? || pc.Login? || pc.Register?
  }

  // Logout, a user switch and /revoke delete sessions; administrators and the
  // reapers do the rest. Any of it may happen at any time.
  predicate Administrative(w: Write) {
    || w.SetUser? || w.DropUser? || w.SetClient? || w.DropClient?
    || w.DropSession? || w.DropUserSessions?
    || w.ReapSessions? || w.ReapGrants? || w.ReapDevices?
  }

  predicate FreshChoice(h: History, ch: Choice) {
    ch.id !in h.ids && ch.t1 !in h.drawn && ch.t2 !in h.drawn && ch.t1 != ch.t2
  }

  function RecordWrite(h: History, now: Time, r: ReqId, w: Write): History {
    if w.InsertSession? then
      h.(born := h.born[w.sid := Birth(w.row.(createdAt := now), w.source)],
         refreshOf := h.refreshOf[w.row.refresh := w.sid],
         accessOf := h.accessOf[w.row.access := w.sid],
         rotations := h.rotations[w.sid := 0],
         codeSession := if w.source.ByCode? then h.codeSession[w.source.grant := w.sid] else h.codeSession,
         devSession := if w.source.ByDevice? then h.devSession[w.source.device := w.sid] else h.devSession)
    else if w.Rotate? then
      h.(spent := h.spent[w.spent := w.refresh],
         refreshOf := h.refreshOf[w.refresh := w.sid],
         accessOf := h.accessOf[w.access := w.sid],
         rotations := h.rotations[w.sid := if w.sid in h.rotations then h.rotations[w.sid] + 1 else 1])
    else if w.InsertGrant? then
      h.(grants := h.grants[w.gid := w.grant], codeTicket := h.codeTicket[w.gid := w.ticket])
    else if w.UseGrant? then h.(redeemer := h.redeemer[w.gid := r])
    else if w.InsertDevice? then
      h.(devices := h.devices[w.did := w.device], deviceTicket := h.deviceTicket[w.did := w.ticket])
    else if w.ApproveDevice? then h.(approvals := h.approvals[w.did := Approval(w.uid, w.mfaVerified, w.mfaAt)])
    else if w.DenyDevice? then h.(denied := h.denied + {w.did})
    else if w.RedeemDevice? then h.(devRedeemer := h.devRedeemer[w.did := r])
    else if w.InsertUser? then h.(enrolled := h.enrolled + {w.uid})
    else h
  }

  function RecordRest(h: History, r: ReqId, ch: Choice, o: Out): History {
    h.(drawn := h.drawn + {ch.t1, ch.t2},
       ids := h.ids + {ch.id},
       challenges := if o.stamp.Some?
         then h.challenges[(o.stamp.value.uid, o.stamp.value.at) := Proof(r, o.stamp.value.passed)] else h.challenges,
       accepted := if o.accept.Some? then h.accepted[ch.id := Ticket(r, o.accept.value)] else h.accepted)
  }

  // Whose password check passes in this step.
  function PasswordPassed(st: Store, pc: Pc, ch: Choice): Option<UserId> {
    if (pc.AuthLogin? || pc.Login?) && pc.who in st.users && ch.ok then Some(pc.who) else None
  }

  // Whose second factor verifies in this step.
  function FactorPassed(pc: Pc, ch: Choice): Option<UserId> {
    if pc.AuthFactor? && ch.ok then Some(pc.req.user)
    else if pc.LoginFactor? && ch.ok then Some(pc.who)
    else if pc.PortalAct? && pc.purpose.StepUp? && ch.ok then Some(pc.uid)
    else None
  }

  // Whose row this step of a login reads.
  function Reads(pc: Pc): Option<UserId> {
    if pc.AuthLogin? || pc.Login? || pc.LoginMfa? || pc.ChangePassword? || pc.ChangeReload? then Some(pc.who)
    else if pc.AuthMfa? then Some(pc.req.user)
    else if pc.PortalUser? then pc.row.user
    else None
  }

  // A new account is read as it is inserted.
  function RowRead(st: Store, pc: Pc, ch: Choice): Option<User> {
    if pc.Register? then (if ch.ok then Some(NEW_USER) else None)
    else
      var who := Reads(pc);
      if who.Some? && who.value in st.users then Some(st.users[who.value]) else None
  }

  function RecordChecks(h: History, now: Time, r: ReqId, password: Option<UserId>, factor: Option<UserId>,
                        row: Option<User>): History {
    h.(known := if password.Some? then h.known + {password.value} else h.known,
       verified := if factor.Some? then h.verified + {(factor.value, now)} else h.verified,
       seen := if row.Some? then h.seen[r := row.value] else h.seen)
  }

  function PcAt(s: System, r: ReqId): Pc {
    if r in s.reqs then s.reqs[r] else Finished(Aborted)
  }

  function Record(s: System, r: ReqId, ch: Choice, o: Out): History {
    var pc := PcAt(s, r);
    var written := if Answer(s.st, o.write) == Done then RecordWrite(s.h, s.now, r, o.write) else s.h;
    RecordChecks(RecordRest(written, r, ch, o), s.now, r,
                 PasswordPassed(s.st, pc, ch), FactorPassed(pc, ch), RowRead(s.st, pc, ch))
  }

  function After(s: System, r: ReqId, ch: Choice, o: Out): System {
    s.(st := Perform(s.st, s.now, o.write),
       reqs := s.reqs[r := o.next],
       jar := if o.seal.Some? then s.jar + {o.seal.value} else s.jar,
       h := Record(s, r, ch, o))
  }

  function Arrived(s: System, r: ReqId, pc: Pc): System {
    s.(reqs := s.reqs[r := pc], h := s.h.(arrived := s.h.arrived[r := Arrival(s.now, pc)]))
  }

  // An action that is not enabled changes nothing.
  ghost function Apply(s: System, a: Action): System {
    match a
    case Tick(to) => if s.now <= to then s.(now := to) else s
    case Arrive(r, pc) => if r !in s.reqs && Initial(s.jar, s.now, pc) then Arrived(s, r, pc) else s
    case Step(r, ch) =>
      if r in s.reqs && !s.reqs[r].Finished? && FreshChoice(s.h, ch)
      then After(s, r, ch, Exec(s.st, s.now, s.ttl, s.reqs[r], ch)) else s
    case Abort(r) =>
      if r in s.reqs && !s.reqs[r].Finished? then s.(reqs := s.reqs[r := Finished(Aborted)]) else s
    case Admin(w) => if Administrative(w) then s.(st := Perform(s.st, s.now, w)) else s
  }

  ghost function Run(s: System, acts: seq<Action>): System
    decreases |acts|
  {
    if acts == [] then s else Run(Apply(s, acts[0]), acts[1..])
  }

  const EMPTY_HISTORY: History := History(
    {}, {}, map[], map[], map[], map[], map[], map[], map[], map[], map[], map[],
    map[], map[], map[], {}, map[], map[], map[], map[], {}, {}, {}, map[])

  // Nothing issued yet; any users and clients.
  predicate Start(s: System) {
    && s.st.sessions == map[] && s.st.retired == map[] && s.st.grants == map[] && s.st.devices == map[]
    && s.reqs == map[] && s.jar == {} && s.h == EMPTY_HISTORY && s.ttl >= 0
  }

  lemma {:induction false} RunAppend(s: System, xs: seq<Action>, ys: seq<Action>)
    ensures Run(s, xs + ys) == Run(Run(s, xs), ys)
    decreases |xs|
  {
    if xs == [] {
      assert xs + ys == ys;
    } else {
      assert (xs + ys)[1..] == xs[1..] + ys;
      RunAppend(Apply(s, xs[0]), xs[1..], ys);
    }
  }

  lemma {:induction false} RunSnoc(s: System, acts: seq<Action>, n: nat)
    requires n < |acts|
    ensures Run(s, acts[..n + 1]) == Apply(Run(s, acts[..n]), acts[n])
  {
    hide Apply;
    assert acts[..n + 1] == acts[..n] + [acts[n]];
    RunAppend(s, acts[..n], [acts[n]]);
    assert [acts[n]][1..] == [];
  }
}
