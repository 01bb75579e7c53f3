/**
 What every reachable state of the protocol satisfies. The modules Keep,
 KeepSessions, KeepGrants and Inductive prove that every action keeps it.
 */
module Invariant {
  import opened Model
  import opened Stores
  import opened Protocol

  // ---- single rows ----

  // The fields of a session that no statement changes after the insert.
  ghost predicate RowOf(h: History, sid: SessionId, row: Session) {
    && sid in h.born
    && var b := h.born[sid].row;
    && row.user == b.user && row.client == b.client && row.scopes == b.scopes
    && row.authTime == b.authTime && row.createdAt == b.createdAt
  }

  // An MFA time is the stamp of a challenge the same user completed.
  ghost predicate Justified(h: History, user: Option<UserId>, at: Option<Time>) {
    at.Some? ==> user.Some? && (user.value, at.value) in h.challenges
  }

  // The ticket is for a scope check of exactly these scopes for that client.
  ghost predicate Accepted(h: History, ticket: TicketId, client: ClientId, scopes: Scopes) {
    ticket in h.accepted && h.accepted[ticket].what.client == client && h.accepted[ticket].what.scopes == scopes
  }

  // And it was request r itself that passed it.
  ghost predicate Ticketed(h: History, r: ReqId, ticket: TicketId, client: ClientId, scopes: Scopes) {
    Accepted(h, ticket, client, scopes) && h.accepted[ticket].req == r
  }

  ghost predicate Began(h: History, now: Time, r: ReqId) {
    r in h.arrived && h.arrived[r].at <= now
  }

  ghost predicate MfaOk(h: History, row: Session) {
    row.mfaVerified == row.mfaAt.Some? && Justified(h, row.user, row.mfaAt)
  }

  ghost predicate WithinLife(row: Session, now: Time) {
    && row.accessExp <= row.createdAt + ABSOLUTE_TTL && row.refreshExp <= row.createdAt + ABSOLUTE_TTL
    && row.accessExp <= now + ACCESS_TTL && row.refreshExp <= now + REFRESH_TTL
  }

  // The user once passed a password check, or chose the password on registering.
  ghost predicate Known(h: History, uid: UserId) {
    uid in h.known || uid in h.enrolled
  }

  ghost predicate KnownUser(h: History, user: Option<UserId>) {
    user.Some? ==> Known(h, user.value)
  }

  ghost predicate SessionOk(h: History, now: Time, sid: SessionId, row: Session) {
    && KnownUser(h, row.user)
    && RowOf(h, sid, row) && MfaOk(h, row) && WithinLife(row, now) && row.createdAt <= now
    && row.access in h.accessOf && h.accessOf[row.access] == sid
    && row.refresh in h.refreshOf && h.refreshOf[row.refresh] == sid
    && (!h.born[sid].source.ByPortal? ==> row.mfaAt == h.born[sid].row.mfaAt)
  }

  ghost predicate GrantOf(h: History, gid: GrantId, g: Grant) {
    gid in h.grants && g == h.grants[gid].(used := g.used)
  }

  ghost predicate GrantOk(h: History, now: Time, gid: GrantId, g: Grant) {
    && gid in h.codeTicket && Accepted(h, h.codeTicket[gid], g.client, g.scopes) && Justified(h, Some(g.user), g.mfaAt)
    && g.authTime <= now && g.code in h.drawn && Known(h, g.user)
  }

  // A session minted for code gid says what the code said.
  ghost predicate FromGrant(row: Session, g: Grant) {
    && row.user == Some(g.user) && row.client == g.client && row.scopes == g.scopes
    && row.mfaAt == g.mfaAt && row.authTime == Some(g.authTime)
  }

  ghost predicate FromApproval(row: Session, d: DeviceGrant, a: Approval) {
    && row.user == Some(a.uid) && row.client == d.client && row.scopes == StoredDeviceScopes(d.scopes)
    && row.mfaVerified == a.mfaVerified && row.mfaAt == a.mfaAt && row.authTime == None
  }

  ghost predicate FromPortal(row: Session) {
    row.user.Some? && row.client == PORTAL_CLIENT && row.scopes in {["portal"], ["portal", "admin"]}
  }

  ghost predicate BirthOk(h: History, sid: SessionId, b: Birth) {
    && MfaOk(h, b.row)
    && match b.source
       case ByPortal => FromPortal(b.row)
       case ByClient(ticket) =>
         b.row.user == None && b.row.mfaAt == None && Accepted(h, ticket, b.row.client, b.row.scopes)
       case ByCode(gid) =>
         gid in h.grants && gid in h.codeSession && h.codeSession[gid] == sid && FromGrant(b.row, h.grants[gid])
       case ByDevice(did) =>
         did in h.devices && did in h.approvals && did in h.devSession && h.devSession[did] == sid
         && FromApproval(b.row, h.devices[did], h.approvals[did])
  }

  // What a device row keeps of its creation and of its approval.
  ghost predicate DeviceOf(h: History, did: DeviceId, d: DeviceGrant) {
    && did in h.devices && d.client == h.devices[did].client && d.code == h.devices[did].code
    && d.expiresAt == h.devices[did].expiresAt
    && d.scopes == StoredDeviceScopes(h.devices[did].scopes)
  }

  // The approver's account may have been deleted since.
  ghost predicate ApprovalOf(h: History, did: DeviceId, d: DeviceGrant) {
    && did in h.approvals && d.mfaVerified == h.approvals[did].mfaVerified && d.mfaAt == h.approvals[did].mfaAt
    && (d.user == None || d.user == Some(h.approvals[did].uid))
  }

  ghost predicate DeviceOk(h: History, did: DeviceId, d: DeviceGrant) {
    && DeviceOf(h, did, d)
    && match d.status
       case Pending => did !in h.approvals && did !in h.denied
       case Approved => ApprovalOf(h, did, d) && did !in h.devRedeemer
       case Redeemed => did in h.approvals && did in h.devRedeemer
       case Denied => did in h.denied
       case Expired => false
  }

  ghost predicate ReqOk(h: History, now: Time, req: AuthReq) {
    Accepted(h, req.ticket, req.client, req.scopes) && req.authTime <= now && Known(h, req.user)
  }

  ghost predicate IsPortalSession(h: History, sid: SessionId) {
    sid in h.born && h.born[sid].source.ByPortal?
  }

  ghost predicate CookieOk(h: History, now: Time, c: Cookie) {
    match c
    case AuthCookie(req, _) => ReqOk(h, now, req)
    case LoginCookie(uid, _) => Known(h, uid)
    case PortalCookie(token) => token in h.accessOf && IsPortalSession(h, h.accessOf[token])
  }

  // A factor of uid's verified while request r was in flight.
  ghost predicate Verified(h: History, now: Time, r: ReqId, uid: UserId, passed: Time) {
    (uid, passed) in h.verified && Began(h, now, r) && h.arrived[r].at <= passed <= now
  }

  // The forms that stamp a factor in the very segment that verifies it: no
  // store call lies between the two.
  predicate Direct(pc: Pc) {
    || (pc.LoginMfa? && !pc.webauthn)
    || (pc.PortalRead? && pc.purpose.StepUp? && !pc.purpose.webauthn)
  }

  ghost predicate Indirect(h: History, r: ReqId) {
    r in h.arrived && !Direct(h.arrived[r].pc)
  }

  // A factor of uid's that request r verified may be stamped `at`.
  ghost predicate Stampable(h: History, now: Time, r: ReqId, uid: UserId, passed: Time, at: Time) {
    Verified(h, now, r, uid, passed) && passed <= at <= now && (Direct(h.arrived[r].pc) ==> passed == at)
  }

  // A factor was verified, or the user the handler has read has none.
  ghost predicate FactorOk(h: History, now: Time, r: ReqId, uid: UserId, user: User, passed: Option<Time>, at: Time) {
    if passed.Some? then Stampable(h, now, r, uid, passed.value, at) else !user.mfaEnabled
  }

  ghost predicate PurposeOk(h: History, r: ReqId, purpose: Purpose) {
    && (purpose.Silent? ==> Ticketed(h, r, purpose.ticket, purpose.client, purpose.scopes))
    && (purpose.StepUp? ==> r in h.arrived && h.arrived[r].pc.PortalRead? && h.arrived[r].pc.purpose == purpose)
  }

  ghost predicate Holds(h: History, r: ReqId, gid: GrantId) {
    gid in h.redeemer && h.redeemer[gid] == r && gid !in h.codeSession
  }

  ghost predicate HoldsDevice(h: History, r: ReqId, did: DeviceId) {
    did in h.devRedeemer && h.devRedeemer[did] == r && did !in h.devSession
  }

  ghost predicate LooksUp(h: History, client: ClientId, token: Token, sid: SessionId) {
    token in h.refreshOf && h.refreshOf[token] == sid && sid in h.born && h.born[sid].row.client == client
  }

  ghost predicate UrlOk(h: History, ttl: Time, out: Outcome) {
    out.ConsoleUrl? && out.stepUpRole ==>
      && out.mfaAt.Some? && (out.uid, out.mfaAt.value) in h.challenges
      && out.gateAt - ttl <= out.mfaAt.value <= out.gateAt
  }

  ghost predicate PortalRowOk(h: History, now: Time, sid: SessionId, row: Session) {
    IsPortalSession(h, sid) && RowOf(h, sid, row) && MfaOk(h, row) && row.createdAt <= now && KnownUser(h, row.user)
  }

  // What a request at pc may rely on, by family.

  ghost predicate RefreshPcOk(h: History, now: Time, pc: Pc) {
    if pc.RefreshUser? || pc.RefreshRotate? then
      LooksUp(h, pc.client, pc.token, pc.sid) && RowOf(h, pc.sid, pc.row) && pc.at <= now
    else if pc.ReuseDelete? then LooksUp(h, pc.client, pc.token, pc.sid)
    else true
  }

  ghost predicate CodePcOk(h: History, now: Time, r: ReqId, pc: Pc) {
    if pc.CodeUse? then GrantOf(h, pc.gid, pc.grant) && pc.grant.client == pc.client
    else if pc.CodeUser? then GrantOf(h, pc.gid, pc.grant) && pc.grant.client == pc.client && Holds(h, r, pc.gid)
    else if pc.CodeMint? then
      GrantOf(h, pc.gid, pc.grant) && pc.grant.client == pc.client && Holds(h, r, pc.gid) && pc.at <= now
    else true
  }

  ghost predicate DevicePcOk(h: History, now: Time, r: ReqId, pc: Pc) {
    if pc.DevicePoll? then pc.answer in {SlowDown, AuthorizationPending}
    else if pc.DeviceRedeem? then
      DeviceOf(h, pc.did, pc.device) && ApprovalOf(h, pc.did, pc.device) && pc.device.client == pc.client
    else if pc.DeviceUser? then
      && DeviceOf(h, pc.did, pc.device) && ApprovalOf(h, pc.did, pc.device) && pc.device.client == pc.client
      && HoldsDevice(h, r, pc.did)
    else if pc.DeviceMint? then
      && DeviceOf(h, pc.did, pc.device) && ApprovalOf(h, pc.did, pc.device) && pc.device.client == pc.client
      && HoldsDevice(h, r, pc.did) && pc.device.user.Some? && pc.at <= now
    else true
  }

  ghost predicate ClientPcOk(h: History, now: Time, r: ReqId, pc: Pc) {
    pc.DeviceCreate? || pc.CredsMint? ==> Ticketed(h, r, pc.ticket, pc.client, pc.scopes) && pc.at <= now
  }

  ghost predicate OwnTicket(h: History, r: ReqId, req: AuthReq) {
    Ticketed(h, r, req.ticket, req.client, req.scopes)
  }

  ghost predicate AuthorizePcOk(h: History, now: Time, r: ReqId, pc: Pc) {
    if pc.AuthLogin? then Ticketed(h, r, pc.ticket, pc.client, pc.scopes)
    else if pc.AuthMfa? || pc.AuthFactor? then ReqOk(h, now, pc.req) && Indirect(h, r)
    else if pc.AuthRecord? || pc.AuthClient? then
      ReqOk(h, now, pc.req) && Indirect(h, r) && Verified(h, now, r, pc.req.user, pc.passed)
    else if pc.Seat? then
      && ReqOk(h, now, pc.req) && FactorOk(h, now, r, pc.req.user, pc.user, pc.passedAt, pc.at) && pc.at <= now
      && (if pc.passedAt.Some? then Indirect(h, r) else OwnTicket(h, r, pc.req))
    else if pc.IssueCode? then
      && ReqOk(h, now, pc.req) && Justified(h, Some(pc.req.user), pc.mfaAt) && pc.at <= now
      && (if pc.passedAt.Some? then Stampable(h, now, r, pc.req.user, pc.passedAt.value, pc.at)
          else OwnTicket(h, r, pc.req))
    else true
  }

  ghost predicate LoginPcOk(h: History, now: Time, r: ReqId, pc: Pc) {
    if pc.LoginMfa? then Known(h, pc.who) && r in h.arrived && h.arrived[r].pc == pc
    else if pc.LoginFactor? then
      Known(h, pc.who) && r in h.arrived && h.arrived[r].pc.LoginMfa? && h.arrived[r].pc.webauthn == pc.webauthn
    else if pc.LoginRecord? then Known(h, pc.who) && Indirect(h, r) && Verified(h, now, r, pc.who, pc.passed)
    else if pc.ChangePassword? || pc.ChangeStore? || pc.ChangeReload? then Known(h, pc.who)
    else if pc.PortalCreate? then
      Known(h, pc.who) && FactorOk(h, now, r, pc.who, pc.user, pc.passedAt, pc.at) && pc.at <= now
    else if pc.RegisterCount? || pc.RegisterPromote? then Known(h, pc.uid) && !pc.user.mfaEnabled
    else true
  }

  ghost predicate PortalPcOk(h: History, now: Time, r: ReqId, pc: Pc) {
    if pc.SilentRequest? then CookieOk(h, now, PortalCookie(pc.token))
    else if pc.PortalRead? then CookieOk(h, now, PortalCookie(pc.token)) && PurposeOk(h, r, pc.purpose)
    else if pc.PortalUser? then PortalRowOk(h, now, pc.sid, pc.row) && PurposeOk(h, r, pc.purpose)
    else if pc.PortalSlide? then
      PortalRowOk(h, now, pc.sid, pc.row) && PurposeOk(h, r, pc.purpose) && pc.row.user == Some(pc.uid) && pc.at <= now
    else if pc.PortalAct? then
      PortalRowOk(h, now, pc.sid, pc.row) && PurposeOk(h, r, pc.purpose) && pc.row.user == Some(pc.uid)
    else if pc.StepUpRecord? then
      && IsPortalSession(h, pc.sid) && h.born[pc.sid].row.user == Some(pc.uid) && Indirect(h, r)
      && Verified(h, now, r, pc.uid, pc.passed)
    else if pc.StepUpMark? then
      && IsPortalSession(h, pc.sid) && h.born[pc.sid].row.user == Some(pc.uid)
      && Stampable(h, now, r, pc.uid, pc.passed, pc.at)
    else if pc.StepUpGo? then (pc.uid, pc.at) in h.challenges
    else true
  }

  ghost predicate FamilyOk(h: History, now: Time, ttl: Time, r: ReqId, pc: Pc) {
    match FamilyOf(pc)
    case RefreshFamily => RefreshPcOk(h, now, pc)
    case CodeFamily => CodePcOk(h, now, r, pc)
    case DeviceFamily => DevicePcOk(h, now, r, pc)
    case ClientFamily => ClientPcOk(h, now, r, pc)
    case AuthorizeFamily => AuthorizePcOk(h, now, r, pc)
    case LoginFamily => LoginPcOk(h, now, r, pc)
    case PortalFamily => PortalPcOk(h, now, r, pc)
    case Over => pc.Finished? && UrlOk(h, ttl, pc.out)
  }

  ghost predicate PcOk(h: History, now: Time, ttl: Time, r: ReqId, pc: Pc) {
    Began(h, now, r) && FamilyOk(h, now, ttl, r, pc)
  }

  // ---- the whole state ----

  ghost predicate FreshTokens(h: History) {
    && h.refreshOf.Keys <= h.drawn && h.accessOf.Keys <= h.drawn && h.born.Keys <= h.ids
    && h.rotations.Keys == h.born.Keys
    && (forall t | t in h.refreshOf :: h.refreshOf[t] in h.born)
    && (forall t | t in h.accessOf :: h.accessOf[t] in h.born)
  }

  ghost predicate FreshInv(h: History) {
    && FreshTokens(h)
    && h.grants.Keys <= h.ids && h.devices.Keys <= h.ids
    && h.accepted.Keys <= h.ids && h.codeTicket.Keys <= h.ids && h.deviceTicket.Keys <= h.ids
  }

  ghost predicate SessionsInv(st: Store, h: History, now: Time) {
    forall sid | sid in st.sessions :: SessionOk(h, now, sid, st.sessions[sid])
  }

  function RetiredOf(st: Store, sid: SessionId): set<Token> {
    set t | t in st.retired && st.retired[t] == sid
  }

  // Every refresh token of a living session is its current one or is
  // recorded as retired; only tokens that were rotated away are retired.
  ghost predicate LineageInv(st: Store, h: History) {
    && (forall sid | sid in st.sessions :: st.sessions[sid].refresh !in h.spent)
    && (forall t | t in st.retired ::
          st.retired[t] in st.sessions && t in h.spent && t in h.refreshOf && h.refreshOf[t] == st.retired[t])
    && (forall t | t in h.spent ::
          t in h.refreshOf && h.spent[t] in h.refreshOf && h.refreshOf[h.spent[t]] == h.refreshOf[t]
          && (h.refreshOf[t] in st.sessions ==> t in st.retired))
    && (forall t | t in h.refreshOf && h.refreshOf[t] in st.sessions ::
          t in h.spent || st.sessions[h.refreshOf[t]].refresh == t)
  }

  ghost predicate RotationsInv(st: Store, h: History) {
    forall sid | sid in st.sessions :: sid in h.rotations && |RetiredOf(st, sid)| == h.rotations[sid]
  }

  ghost predicate BirthsInv(h: History) {
    forall sid | sid in h.born :: BirthOk(h, sid, h.born[sid])
  }

  ghost predicate CodesInv(st: Store, h: History, now: Time) {
    && (forall gid | gid in st.grants ::
          GrantOf(h, gid, st.grants[gid]) && (st.grants[gid].used <==> gid in h.redeemer))
    && (forall gid | gid in h.grants :: GrantOk(h, now, gid, h.grants[gid]))
    && h.codeSession.Keys <= h.redeemer.Keys <= h.grants.Keys
  }

  ghost predicate DeviceRowsInv(st: Store, h: History) {
    forall did | did in st.devices :: DeviceOk(h, did, st.devices[did])
  }

  ghost predicate DeviceHistoryInv(h: History) {
    && (forall did | did in h.devices ::
          did in h.deviceTicket && Accepted(h, h.deviceTicket[did], h.devices[did].client, h.devices[did].scopes)
          && h.devices[did].code in h.drawn)
    && (forall did | did in h.approvals ::
          h.approvals[did].mfaVerified == h.approvals[did].mfaAt.Some?
          && Justified(h, Some(h.approvals[did].uid), h.approvals[did].mfaAt) && Known(h, h.approvals[did].uid))
    && h.devSession.Keys <= h.devRedeemer.Keys <= h.approvals.Keys <= h.devices.Keys
    && h.denied <= h.devices.Keys && h.denied !! h.approvals.Keys
  }

  ghost predicate DevicesInv(st: Store, h: History) {
    DeviceRowsInv(st, h) && DeviceHistoryInv(h)
  }

  ghost predicate ChallengesInv(h: History, now: Time) {
    forall k | k in h.challenges :: Stampable(h, now, h.challenges[k].req, k.0, h.challenges[k].passed, k.1)
  }

  ghost predicate AcceptedInv(h: History) {
    forall k | k in h.accepted :: AllRegistered(h.accepted[k].what.registered, h.accepted[k].what.scopes)
  }

  ghost predicate JarInv(h: History, now: Time, jar: set<Cookie>) {
    forall c | c in jar :: CookieOk(h, now, c)
  }

  ghost predicate PcsInv(h: History, now: Time, ttl: Time, reqs: map<ReqId, Pc>) {
    forall r | r in reqs :: PcOk(h, now, ttl, r, reqs[r])
  }

  ghost predicate Inv(s: System) {
    && s.ttl >= 0 && s.h.arrived.Keys <= s.reqs.Keys
    && FreshInv(s.h) && BirthsInv(s.h) && AcceptedInv(s.h) && ChallengesInv(s.h, s.now)
    && SessionsInv(s.st, s.h, s.now) && LineageInv(s.st, s.h) && RotationsInv(s.st, s.h)
    && CodesInv(s.st, s.h, s.now) && DevicesInv(s.st, s.h)
    && JarInv(s.h, s.now, s.jar) && PcsInv(s.h, s.now, s.ttl, s.reqs)
  }

  lemma StartInv(s: System)
    requires Start(s)
    ensures Inv(s)
  {
  }

  // ---- history only grows ----

  ghost predicate Extends<K, V>(m: map<K, V>, m': map<K, V>) {
    m.Keys <= m'.Keys && forall k | k in m :: m'[k] == m[k]
  }

  ghost predicate SessionsGrow(h: History, h': History) {
    && Extends(h.born, h'.born) && Extends(h.refreshOf, h'.refreshOf) && Extends(h.accessOf, h'.accessOf)
    && Extends(h.spent, h'.spent)
  }

  ghost predicate CodesGrow(h: History, h': History) {
    && Extends(h.grants, h'.grants) && Extends(h.codeTicket, h'.codeTicket) && Extends(h.redeemer, h'.redeemer)
    && Extends(h.codeSession, h'.codeSession)
  }

  ghost predicate DevicesGrow(h: History, h': History) {
    && Extends(h.devices, h'.devices) && Extends(h.deviceTicket, h'.deviceTicket) && Extends(h.approvals, h'.approvals)
    && Extends(h.devRedeemer, h'.devRedeemer) && Extends(h.devSession, h'.devSession) && h.denied <= h'.denied
  }

  ghost predicate RestGrows(h: History, h': History) {
    && h.drawn <= h'.drawn && h.ids <= h'.ids && Extends(h.arrived, h'.arrived)
    && h.challenges.Keys <= h'.challenges.Keys && Extends(h.accepted, h'.accepted)
    && h.known <= h'.known && h.enrolled <= h'.enrolled && h.verified <= h'.verified
  }

  ghost predicate Grows(h: History, h': History) {
    SessionsGrow(h, h') && CodesGrow(h, h') && DevicesGrow(h, h') && RestGrows(h, h')
  }
}
