/**
 What the answer to a request says about the request itself: a token, code or
 URL that comes out at the end belongs to what went in at the start, however
 the steps of other requests fall in between.
 */
module Requests {
  import opened Model
  import opened Stores
  import opened Protocol
  import opened Invariant
  import opened Keep
  import opened Inductive
  import opened Provenance

  // ---- what an answer owes to the request (pc0, begun at t0) ----

  ghost predicate Redeems(t0: Time, pc0: Pc, g: Grant)
    requires pc0.CodeLookup?
  {
    && g.client == pc0.client && g.code == pc0.code && g.redirect == pc0.redirectUri
    && VerifyPkce(g.challenge, pc0.verifier) && t0 <= g.expiresAt
  }

  ghost predicate CodeTrail(t0: Time, pc0: Pc, h: History, pc: Pc)
    requires pc0.CodeLookup?
  {
    if pc.CodeLookup? then pc == pc0
    else if pc.CodeUse? || pc.CodeUser? || pc.CodeMint? then Redeems(t0, pc0, pc.grant)
    else if pc.Finished? then
      && !pc.out.Refreshed? && !pc.out.CodeIssued?
      && (pc.out.Issued? ==>
            && pc.out.sid in h.born && h.born[pc.out.sid].source.ByCode?
            && h.born[pc.out.sid].source.grant in h.grants
            && Redeems(t0, pc0, h.grants[h.born[pc.out.sid].source.grant]))
    else false
  }

  ghost predicate Claims(t0: Time, pc0: Pc, client: ClientId, code: Token, expiresAt: Time)
    requires pc0.DeviceLookup?
  {
    client == pc0.client && code == pc0.code && t0 <= expiresAt
  }

  ghost predicate DeviceTrail(t0: Time, pc0: Pc, h: History, pc: Pc)
    requires pc0.DeviceLookup?
  {
    if pc.DeviceLookup? then pc == pc0
    else if pc.DevicePoll? then true
    else if pc.DeviceRedeem? then Claims(t0, pc0, pc.device.client, pc.device.code, pc.device.expiresAt)
    else if pc.DeviceUser? then Claims(t0, pc0, pc.device.client, pc.device.code, pc.device.expiresAt)
    else if pc.DeviceMint? then Claims(t0, pc0, pc.device.client, pc.device.code, pc.device.expiresAt)
    else if pc.Finished? then
      && !pc.out.Refreshed? && !pc.out.CodeIssued?
      && (pc.out.Issued? ==>
            && pc.out.sid in h.born && h.born[pc.out.sid].source.ByDevice?
            && h.born[pc.out.sid].source.device in h.devices
            && var d := h.devices[h.born[pc.out.sid].source.device]; Claims(t0, pc0, d.client, d.code, d.expiresAt))
    else false
  }

  ghost predicate Owns(t0: Time, pc0: Pc, h: History, sid: SessionId)
    requires pc0.RefreshLookup?
  {
    LooksUp(h, pc0.client, pc0.token, sid) && t0 <= h.born[sid].row.createdAt + ABSOLUTE_TTL
  }

  ghost predicate RefreshTrail(t0: Time, pc0: Pc, h: History, pc: Pc)
    requires pc0.RefreshLookup?
  {
    if pc.RefreshLookup? then pc == pc0
    else if pc.RefreshUser? then pc.client == pc0.client && pc.token == pc0.token && Owns(t0, pc0, h, pc.sid)
    else if pc.RefreshRotate? then pc.client == pc0.client && pc.token == pc0.token && Owns(t0, pc0, h, pc.sid)
    else if pc.ReuseLookup? then pc.client == pc0.client && pc.token == pc0.token
    else if pc.ReuseDelete? then
      pc.client == pc0.client && pc.token == pc0.token && LooksUp(h, pc.client, pc.token, pc.sid)
    else if pc.Finished? then
      && !pc.out.Issued? && !pc.out.CodeIssued?
      && (pc.out.Refreshed? ==> Owns(t0, pc0, h, pc.out.sid) && pc0.token in h.spent)
      && (pc.out.FamilyRevoked? ==> LooksUp(h, pc0.client, pc0.token, pc.out.sid))
    else false
  }

  // The authorization request as it was typed in.
  ghost predicate Carries(pc0: Pc, user: UserId, client: ClientId, scopes: Scopes, redirect: nat,
                          challenge: Option<nat>)
    requires pc0.AuthRequest?
  {
    && user == pc0.who && client == pc0.client && scopes == SplitScopes(pc0.scope)
    && redirect == pc0.redirectUri && challenge == pc0.codeChallenge
  }

  // The code is for what was typed in, and request r itself had its scopes checked.
  ghost predicate AsTyped(r: ReqId, t0: Time, pc0: Pc, h: History, gid: GrantId)
    requires pc0.AuthRequest?
  {
    && gid in h.grants && gid in h.codeTicket
    && var g := h.grants[gid];
    Carries(pc0, g.user, g.client, g.scopes, g.redirect, g.challenge) && g.mfaAt.None? && t0 <= g.authTime
    && Ticketed(h, r, h.codeTicket[gid], g.client, g.scopes)
  }

  ghost predicate AuthTrail(r: ReqId, t0: Time, pc0: Pc, h: History, pc: Pc)
    requires pc0.AuthRequest?
  {
    if pc.AuthRequest? then pc == pc0
    else if pc.AuthLogin? then Carries(pc0, pc.who, pc.client, pc.scopes, pc.redirectUri, pc.codeChallenge)
    else if pc.Seat? then
      && Carries(pc0, pc.req.user, pc.req.client, pc.req.scopes, pc.req.redirect, pc.req.challenge)
      && pc.passedAt.None? && t0 <= pc.req.authTime
    else if pc.IssueCode? then
      && Carries(pc0, pc.req.user, pc.req.client, pc.req.scopes, pc.req.redirect, pc.req.challenge)
      && pc.mfaAt.None? && pc.passedAt.None? && t0 <= pc.req.authTime
    else if pc.Finished? then
      !pc.out.Issued? && !pc.out.Refreshed? && (pc.out.CodeIssued? ==> AsTyped(r, t0, pc0, h, pc.out.gid))
    else false
  }

  // A factor of the request's own user verified during the request.
  ghost predicate FactorSince(t0: Time, h: History, uid: UserId, passed: Time, limit: Time) {
    t0 <= passed <= limit && (uid, passed) in h.verified
  }

  // The code is for the sealed request, with a factor verified since t0.
  ghost predicate AsSealed(t0: Time, pc0: Pc, h: History, gid: GrantId)
    requires pc0.AuthMfa?
  {
    && gid in h.grants && gid in h.codeTicket
    && var g, q := h.grants[gid], pc0.req;
    g.user == q.user && g.client == q.client && g.scopes == q.scopes && g.redirect == q.redirect
    && g.challenge == q.challenge && g.authTime == q.authTime && h.codeTicket[gid] == q.ticket && g.mfaAt.Some?
    && exists passed :: FactorSince(t0, h, q.user, passed, g.mfaAt.value)
  }

  ghost predicate FactorTrail(t0: Time, pc0: Pc, h: History, now: Time, pc: Pc)
    requires pc0.AuthMfa?
  {
    && t0 <= pc0.exp
    && (if pc.AuthMfa? then pc == pc0
       else if pc.AuthFactor? then pc.req == pc0.req
       else if pc.AuthRecord? || pc.AuthClient? then
         pc.req == pc0.req && FactorSince(t0, h, pc.req.user, pc.passed, now)
       else if pc.Seat? then
         pc.req == pc0.req && pc.passedAt.Some? && FactorSince(t0, h, pc.req.user, pc.passedAt.value, now)
       else if pc.IssueCode? then
         pc.req == pc0.req && pc.passedAt.Some? && FactorSince(t0, h, pc.req.user, pc.passedAt.value, pc.at)
       else if pc.Finished? then
         !pc.out.Issued? && !pc.out.Refreshed? && (pc.out.CodeIssued? ==> AsSealed(t0, pc0, h, pc.out.gid))
       else false)
  }

  // The session behind the portal cookie.
  ghost predicate Behind(h: History, token: Token, sid: SessionId) {
    token in h.accessOf && h.accessOf[token] == sid && sid in h.born
  }

  ghost predicate Bearer(h: History, token: Token, uid: UserId) {
    token in h.accessOf && h.accessOf[token] in h.born && h.born[h.accessOf[token]].row.user == Some(uid)
  }

  // The cookie's session is uid's and was created at the given time.
  ghost predicate SignedOn(h: History, token: Token, uid: UserId, createdAt: Time) {
    Bearer(h, token, uid) && h.born[h.accessOf[token]].row.createdAt == createdAt
  }

  // The step-up form verified a factor of uid's since t0 and stamped it `at`;
  // by TOTP at that very time.
  ghost predicate StampsFactor(t0: Time, h: History, purpose: Purpose, uid: UserId, passed: Time, at: Time) {
    purpose.StepUp? && FactorSince(t0, h, uid, passed, at) && (!purpose.webauthn ==> passed == at)
  }

  ghost predicate SteppedUp(t0: Time, h: History, purpose: Purpose, uid: UserId, at: Time) {
    exists passed :: StampsFactor(t0, h, purpose, uid, passed, at)
  }

  // The code is for what was asked silently, in the cookie's user's name.
  ghost predicate AsSignedOn(token: Token, purpose: Purpose, h: History, gid: GrantId) {
    && purpose.Silent? && gid in h.grants && gid in h.codeTicket
    && var g := h.grants[gid];
    SignedOn(h, token, g.user, g.authTime)
    && g.client == purpose.client && g.scopes == purpose.scopes && g.redirect == purpose.redirect
    && g.challenge == purpose.challenge && h.codeTicket[gid] == purpose.ticket
  }

  ghost predicate PortalTrail(t0: Time, token: Token, purpose: Purpose, h: History, now: Time, pc: Pc) {
    if pc.PortalRead? then pc.token == token && pc.purpose == purpose
    else if pc.PortalUser? then pc.purpose == purpose && Behind(h, token, pc.sid)
    else if pc.PortalSlide? || pc.PortalAct? then
      pc.purpose == purpose && Behind(h, token, pc.sid) && Bearer(h, token, pc.uid)
    else if pc.StepUpRecord? then
      purpose.StepUp? && purpose.webauthn && Bearer(h, token, pc.uid) && FactorSince(t0, h, pc.uid, pc.passed, now)
    else if pc.StepUpMark? then Bearer(h, token, pc.uid) && StampsFactor(t0, h, purpose, pc.uid, pc.passed, pc.at)
    else if pc.StepUpGo? then Bearer(h, token, pc.uid) && SteppedUp(t0, h, purpose, pc.uid, pc.at)
    else if pc.IssueCode? then
      && purpose.Silent? && SignedOn(h, token, pc.req.user, pc.req.authTime) && pc.passedAt.None?
      && pc.req.client == purpose.client && pc.req.scopes == purpose.scopes && pc.req.redirect == purpose.redirect
      && pc.req.challenge == purpose.challenge && pc.req.ticket == purpose.ticket
    else if pc.Finished? then
      && !pc.out.Issued? && !pc.out.Refreshed?
      && (pc.out.CodeIssued? ==> AsSignedOn(token, purpose, h, pc.out.gid))
      && (pc.out.Decided? ==>
            && (purpose.Approve? || purpose.Deny?)
            && (purpose.Approve? ==>
                  purpose.did in h.approvals && Bearer(h, token, h.approvals[purpose.did].uid)))
      && (pc.out.ConsoleUrl? ==>
            && Bearer(h, token, pc.out.uid)
            && (purpose.StepUp? ==>
                  pc.out.mfaAt == Some(pc.out.gateAt) && SteppedUp(t0, h, purpose, pc.out.uid, pc.out.gateAt)))
    else false
  }

  // Request r passed the check for the scopes it asks for, and drew the ticket.
  ghost predicate SilentTicket(r: ReqId, pc0: Pc, h: History, ticket: TicketId)
    requires pc0.SilentRequest?
  {
    Ticketed(h, r, ticket, pc0.client, SplitScopes(pc0.scope))
  }

  ghost predicate SilentTrail(r: ReqId, t0: Time, pc0: Pc, h: History, now: Time, pc: Pc)
    requires pc0.SilentRequest?
  {
    || pc == pc0 || (pc.Finished? && !pc.out.CodeIssued?)
    || exists ticket ::
         SilentTicket(r, pc0, h, ticket) && PortalTrail(t0, pc0.token, SilentPurpose(pc0, ticket), h, now, pc)
  }

  predicate IsLogin(pc0: Pc) {
    pc0.Login? || pc0.LoginMfa? || pc0.ChangePassword? || pc0.Register?
  }

  // Who signs in: the user of the form or the cookie, or the account just made.
  ghost predicate Subject(pc0: Pc, h: History, uid: UserId)
    requires IsLogin(pc0)
  {
    match pc0
    case Login(who) => uid == who
    case LoginMfa(who, _, _) => uid == who
    case ChangePassword(who, _) => uid == who
    case Register => uid in h.enrolled
  }

  ghost predicate SignedInAs(t0: Time, pc0: Pc, h: History, sid: SessionId)
    requires IsLogin(pc0)
  {
    && IsPortalSession(h, sid)
    && var row := h.born[sid].row;
    row.user.Some? && Subject(pc0, h, row.user.value) && t0 <= row.createdAt
    && (row.mfaAt.Some? ==>
          pc0.LoginMfa? && exists passed :: FactorSince(t0, h, row.user.value, passed, row.mfaAt.value))
  }

  ghost predicate LoginWay(t0: Time, pc0: Pc, h: History, now: Time, pc: Pc)
    requires IsLogin(pc0)
  {
    if pc.LoginFactor? then pc0.LoginMfa? && pc.who == pc0.who
    else if pc.LoginRecord? then pc0.LoginMfa? && pc.who == pc0.who && FactorSince(t0, h, pc.who, pc.passed, now)
    else if pc.ChangeStore? || pc.ChangeReload? then pc0.ChangePassword? && pc.who == pc0.who
    else if pc.RegisterCount? || pc.RegisterPromote? then pc0.Register? && pc.uid in h.enrolled
    else if pc.RegisterUndo? then pc0.Register?
    else if pc.PortalCreate? then
      && Subject(pc0, h, pc.who) && t0 <= now
      && (if pc.passedAt.Some? then pc0.LoginMfa? && FactorSince(t0, h, pc.who, pc.passedAt.value, pc.at)
          else !pc.user.mfaEnabled)
    else if pc.Finished? then
      && !pc.out.Issued? && !pc.out.Refreshed? && !pc.out.CodeIssued?
      && (pc.out.SignedIn? ==> SignedInAs(t0, pc0, h, pc.out.sid))
    else pc == pc0
  }

  // The forms behind a sealed cookie came in before it expired.
  ghost predicate LoginTrail(t0: Time, pc0: Pc, h: History, now: Time, pc: Pc)
    requires IsLogin(pc0)
  {
    (pc0.LoginMfa? || pc0.ChangePassword? ==> t0 <= pc0.exp) && LoginWay(t0, pc0, h, now, pc)
  }

  // A device grant or machine session holds what r asked for and had checked.
  ghost predicate DeviceAsAsked(r: ReqId, t0: Time, pc0: Pc, h: History, did: DeviceId)
    requires pc0.DeviceRequest?
  {
    && did in h.devices && did in h.deviceTicket
    && var d := h.devices[did];
    d.client == pc0.client && (SplitScopes(pc0.scope) != [] ==> d.scopes == SplitScopes(pc0.scope))
    && Ticketed(h, r, h.deviceTicket[did], d.client, d.scopes) && t0 + DEVICE_TTL <= d.expiresAt
  }

  ghost predicate MachineAsAsked(r: ReqId, pc0: Pc, h: History, sid: SessionId)
    requires pc0.CredsRequest?
  {
    && sid in h.born && h.born[sid].source.ByClient?
    && var row := h.born[sid].row;
    row.user.None? && row.client == pc0.client && row.scopes == SplitScopes(pc0.scope)
    && Ticketed(h, r, h.born[sid].source.ticket, row.client, row.scopes)
  }

  ghost predicate ClientTrail(r: ReqId, t0: Time, pc0: Pc, h: History, pc: Pc)
    requires pc0.DeviceRequest? || pc0.CredsRequest?
  {
    if pc.DeviceCreate? then
      pc0.DeviceRequest? && pc.client == pc0.client
      && (SplitScopes(pc0.scope) != [] ==> pc.scopes == SplitScopes(pc0.scope))
      && t0 <= pc.at
    else if pc.CredsMint? then pc0.CredsRequest? && pc.client == pc0.client && pc.scopes == SplitScopes(pc0.scope)
    else if pc.Finished? then
      && !pc.out.Refreshed? && !pc.out.CodeIssued?
      && (pc.out.Issued? ==> pc0.CredsRequest? && MachineAsAsked(r, pc0, h, pc.out.sid))
      && (pc.out.DeviceCode? ==> pc0.DeviceRequest? && DeviceAsAsked(r, t0, pc0, h, pc.out.did))
    else pc == pc0
  }

  // How far request r, which came in as pc0 at time t0, has got.
  ghost predicate Trail(r: ReqId, t0: Time, pc0: Pc, h: History, now: Time, pc: Pc) {
    && t0 <= now
    && (pc0.CodeLookup? ==> CodeTrail(t0, pc0, h, pc))
    && (pc0.DeviceLookup? ==> DeviceTrail(t0, pc0, h, pc))
    && (pc0.RefreshLookup? ==> RefreshTrail(t0, pc0, h, pc))
    && (pc0.AuthRequest? ==> AuthTrail(r, t0, pc0, h, pc))
    && (pc0.AuthMfa? ==> FactorTrail(t0, pc0, h, now, pc))
    && (pc0.SilentRequest? ==> SilentTrail(r, t0, pc0, h, now, pc))
    && (pc0.PortalRead? ==> PortalTrail(t0, pc0.token, pc0.purpose, h, now, pc))
    && (IsLogin(pc0) ==> LoginTrail(t0, pc0, h, now, pc))
    && (pc0.DeviceRequest? || pc0.CredsRequest? ==> ClientTrail(r, t0, pc0, h, pc))
  }

  // ---- steps of other requests ----

  lemma CodeTrailStable(t0: Time, pc0: Pc, h: History, h': History, pc: Pc)
    requires pc0.CodeLookup? && CodeTrail(t0, pc0, h, pc) && SessionsGrow(h, h') && CodesGrow(h, h')
    ensures CodeTrail(t0, pc0, h', pc)
  {
  }

  lemma DeviceTrailStable(t0: Time, pc0: Pc, h: History, h': History, pc: Pc)
    requires pc0.DeviceLookup? && DeviceTrail(t0, pc0, h, pc) && SessionsGrow(h, h') && DevicesGrow(h, h')
    ensures DeviceTrail(t0, pc0, h', pc)
  {
  }

  lemma RefreshTrailStable(t0: Time, pc0: Pc, h: History, h': History, pc: Pc)
    requires pc0.RefreshLookup? && RefreshTrail(t0, pc0, h, pc) && SessionsGrow(h, h')
    ensures RefreshTrail(t0, pc0, h', pc)
  {
  }

  lemma TicketedStable(h: History, h': History, r: ReqId, ticket: TicketId, client: ClientId, scopes: Scopes)
    requires Ticketed(h, r, ticket, client, scopes) && RestGrows(h, h')
    ensures Ticketed(h', r, ticket, client, scopes)
  {
  }

  lemma AuthTrailStable(r: ReqId, t0: Time, pc0: Pc, h: History, h': History, pc: Pc)
    requires pc0.AuthRequest? && AuthTrail(r, t0, pc0, h, pc) && CodesGrow(h, h') && RestGrows(h, h')
    ensures AuthTrail(r, t0, pc0, h', pc)
  {
    if pc.Finished? && pc.out.CodeIssued? {
      var g := h.grants[pc.out.gid];
      TicketedStable(h, h', r, h.codeTicket[pc.out.gid], g.client, g.scopes);
    }
    hide RestGrows, Ticketed;
  }

  lemma FactorStable(t0: Time, h: History, h': History, uid: UserId, passed: Time, limit: Time)
    requires FactorSince(t0, h, uid, passed, limit) && RestGrows(h, h')
    ensures FactorSince(t0, h', uid, passed, limit)
  {
  }

  lemma SealedStable(t0: Time, pc0: Pc, h: History, h': History, gid: GrantId)
    requires pc0.AuthMfa? && AsSealed(t0, pc0, h, gid) && CodesGrow(h, h') && RestGrows(h, h')
    ensures AsSealed(t0, pc0, h', gid)
  {
    var q, g := pc0.req, h.grants[gid];
    var passed :| FactorSince(t0, h, q.user, passed, g.mfaAt.value);
    FactorStable(t0, h, h', q.user, passed, g.mfaAt.value);
    hide RestGrows, FactorSince;
  }

  lemma FactorTrailStable(t0: Time, pc0: Pc, h: History, h': History, now: Time, now': Time, pc: Pc)
    requires pc0.AuthMfa? && FactorTrail(t0, pc0, h, now, pc) && CodesGrow(h, h') && RestGrows(h, h') && now <= now'
    ensures FactorTrail(t0, pc0, h', now', pc)
  {
    hide AsSealed, CodesGrow;
    if pc.Finished? && pc.out.CodeIssued? { SealedStable(t0, pc0, h, h', pc.out.gid); }
  }

  lemma SteppedUpStable(t0: Time, h: History, h': History, purpose: Purpose, uid: UserId, at: Time)
    requires SteppedUp(t0, h, purpose, uid, at) && RestGrows(h, h')
    ensures SteppedUp(t0, h', purpose, uid, at)
  {
    var passed :| StampsFactor(t0, h, purpose, uid, passed, at);
    assert StampsFactor(t0, h', purpose, uid, passed, at);
  }

  lemma PortalWayStable(t0: Time, token: Token, purpose: Purpose, h: History, h': History, now: Time, now': Time,
                        pc: Pc)
    requires PortalTrail(t0, token, purpose, h, now, pc) && !pc.Finished? && !pc.StepUpGo? && SessionsGrow(h, h')
    requires RestGrows(h, h') && now <= now'
    ensures PortalTrail(t0, token, purpose, h', now', pc)
  {
    hide SteppedUp, AsSignedOn;
    if pc.StepUpRecord? || pc.StepUpMark? {
      hide SignedOn, Behind;
    } else if pc.IssueCode? {
      hide FactorSince, StampsFactor, RestGrows;
    } else {
      hide FactorSince, StampsFactor, SignedOn, RestGrows;
    }
  }

  lemma PortalEndStable(t0: Time, token: Token, purpose: Purpose, h: History, h': History, now: Time, now': Time,
                        pc: Pc)
    requires PortalTrail(t0, token, purpose, h, now, pc) && SessionsGrow(h, h') && CodesGrow(h, h')
      && DevicesGrow(h, h')
    requires RestGrows(h, h') && (pc.Finished? || pc.StepUpGo?)
    ensures PortalTrail(t0, token, purpose, h', now', pc)
  {
    hide FactorSince, StampsFactor, Behind;
    if pc.StepUpGo? {
      SteppedUpStable(t0, h, h', purpose, pc.uid, pc.at);
    } else if pc.out.ConsoleUrl? && purpose.StepUp? {
      SteppedUpStable(t0, h, h', purpose, pc.out.uid, pc.out.gateAt);
    }
    hide SteppedUp;
  }

  lemma PortalTrailStable(t0: Time, token: Token, purpose: Purpose, h: History, h': History, now: Time, now': Time,
                          pc: Pc)
    requires PortalTrail(t0, token, purpose, h, now, pc) && SessionsGrow(h, h') && CodesGrow(h, h')
      && DevicesGrow(h, h')
    requires RestGrows(h, h') && now <= now'
    ensures PortalTrail(t0, token, purpose, h', now', pc)
  {
    hide PortalTrail, SessionsGrow, CodesGrow, DevicesGrow, RestGrows;
    if pc.Finished? || pc.StepUpGo? {
      PortalEndStable(t0, token, purpose, h, h', now, now', pc);
    } else {
      PortalWayStable(t0, token, purpose, h, h', now, now', pc);
    }
  }

  lemma SilentTrailStable(r: ReqId, t0: Time, pc0: Pc, h: History, h': History, now: Time, now': Time, pc: Pc)
    requires pc0.SilentRequest? && SilentTrail(r, t0, pc0, h, now, pc) && SessionsGrow(h, h') && CodesGrow(h, h')
    requires DevicesGrow(h, h') && RestGrows(h, h') && now <= now'
    ensures SilentTrail(r, t0, pc0, h', now', pc)
  {
    hide PortalTrail, SessionsGrow, CodesGrow, DevicesGrow, RestGrows, Ticketed;
    if pc != pc0 && !(pc.Finished? && !pc.out.CodeIssued?) {
      var ticket :|
        SilentTicket(r, pc0, h, ticket) && PortalTrail(t0, pc0.token, SilentPurpose(pc0, ticket), h, now, pc);
      TicketedStable(h, h', r, ticket, pc0.client, SplitScopes(pc0.scope));
      PortalTrailStable(t0, pc0.token, SilentPurpose(pc0, ticket), h, h', now, now', pc);
      assert SilentTicket(r, pc0, h', ticket);
    }
  }

  lemma SignedInStable(t0: Time, pc0: Pc, h: History, h': History, sid: SessionId)
    requires IsLogin(pc0) && SignedInAs(t0, pc0, h, sid) && SessionsGrow(h, h') && RestGrows(h, h')
    ensures SignedInAs(t0, pc0, h', sid)
  {
    var row := h.born[sid].row;
    if row.mfaAt.Some? {
      var passed :| FactorSince(t0, h, row.user.value, passed, row.mfaAt.value);
      FactorStable(t0, h, h', row.user.value, passed, row.mfaAt.value);
    }
  }

  lemma LoginTrailStable(t0: Time, pc0: Pc, h: History, h': History, now: Time, now': Time, pc: Pc)
    requires IsLogin(pc0) && LoginTrail(t0, pc0, h, now, pc) && SessionsGrow(h, h') && RestGrows(h, h') && now <= now'
    ensures LoginTrail(t0, pc0, h', now', pc)
  {
    hide SignedInAs, SessionsGrow;
    if pc.Finished? && pc.out.SignedIn? { SignedInStable(t0, pc0, h, h', pc.out.sid); }
  }

  lemma ClientTrailStable(r: ReqId, t0: Time, pc0: Pc, h: History, h': History, pc: Pc)
    requires pc0.DeviceRequest? || pc0.CredsRequest?
    requires ClientTrail(r, t0, pc0, h, pc) && SessionsGrow(h, h') && DevicesGrow(h, h') && RestGrows(h, h')
    ensures ClientTrail(r, t0, pc0, h', pc)
  {
    if pc.Finished? && pc.out.Issued? {
      var b := h.born[pc.out.sid];
      TicketedStable(h, h', r, b.source.ticket, b.row.client, b.row.scopes);
    }
    if pc.Finished? && pc.out.DeviceCode? {
      var d := h.devices[pc.out.did];
      TicketedStable(h, h', r, h.deviceTicket[pc.out.did], d.client, d.scopes);
    }
    hide RestGrows, Ticketed;
  }

  predicate IsToken(pc0: Pc) {
    pc0.CodeLookup? || pc0.DeviceLookup? || pc0.RefreshLookup?
  }

  predicate IsForm(pc0: Pc) {
    pc0.AuthRequest? || pc0.AuthMfa? || pc0.DeviceRequest? || pc0.CredsRequest? || IsLogin(pc0)
  }

  predicate IsCookie(pc0: Pc) {
    pc0.SilentRequest? || pc0.PortalRead?
  }

  lemma TokenTrailStable(r: ReqId, t0: Time, pc0: Pc, h: History, h': History, now: Time, now': Time, pc: Pc)
    requires Trail(r, t0, pc0, h, now, pc) && Grows(h, h') && now <= now' && IsToken(pc0)
    ensures Trail(r, t0, pc0, h', now', pc)
  {
    hide SessionsGrow, CodesGrow, DevicesGrow, RestGrows, CodeTrail, DeviceTrail, RefreshTrail, AuthTrail, FactorTrail;
    hide LoginTrail, ClientTrail, PortalTrail, SilentTrail;
    if pc0.CodeLookup? { CodeTrailStable(t0, pc0, h, h', pc); }
    else if pc0.DeviceLookup? { DeviceTrailStable(t0, pc0, h, h', pc); }
    else { RefreshTrailStable(t0, pc0, h, h', pc); }
  }

  lemma CookieTrailStable(r: ReqId, t0: Time, pc0: Pc, h: History, h': History, now: Time, now': Time, pc: Pc)
    requires Trail(r, t0, pc0, h, now, pc) && Grows(h, h') && now <= now' && IsCookie(pc0)
    ensures Trail(r, t0, pc0, h', now', pc)
  {
    hide SessionsGrow, CodesGrow, DevicesGrow, RestGrows, PortalTrail, SilentTrail;
    if pc0.SilentRequest? { SilentTrailStable(r, t0, pc0, h, h', now, now', pc); }
    else { PortalTrailStable(t0, pc0.token, pc0.purpose, h, h', now, now', pc); }
  }

  lemma FormTrailStable(r: ReqId, t0: Time, pc0: Pc, h: History, h': History, now: Time, now': Time, pc: Pc)
    requires Trail(r, t0, pc0, h, now, pc) && Grows(h, h') && now <= now' && IsForm(pc0)
    ensures Trail(r, t0, pc0, h', now', pc)
  {
    hide SessionsGrow, CodesGrow, DevicesGrow, RestGrows, AuthTrail, FactorTrail, LoginTrail, ClientTrail, CodeTrail;
    hide DeviceTrail, RefreshTrail, PortalTrail, SilentTrail;
    if pc0.AuthRequest? { AuthTrailStable(r, t0, pc0, h, h', pc); }
    else if pc0.AuthMfa? { FactorTrailStable(t0, pc0, h, h', now, now', pc); }
    else if IsLogin(pc0) { LoginTrailStable(t0, pc0, h, h', now, now', pc); }
    else { ClientTrailStable(r, t0, pc0, h, h', pc); }
  }

  lemma OtherTrailStable(r: ReqId, t0: Time, pc0: Pc, h: History, h': History, now: Time, now': Time, pc: Pc)
    requires Trail(r, t0, pc0, h, now, pc) && now <= now' && !IsToken(pc0) && !IsCookie(pc0) && !IsForm(pc0)
    ensures Trail(r, t0, pc0, h', now', pc)
  {
  }

  lemma TrailStable(r: ReqId, t0: Time, pc0: Pc, h: History, h': History, now: Time, now': Time, pc: Pc)
    requires Trail(r, t0, pc0, h, now, pc) && Grows(h, h') && now <= now'
    ensures Trail(r, t0, pc0, h', now', pc)
  {
    hide Trail, Grows, IsToken, IsCookie, IsForm;
    if IsToken(pc0) { TokenTrailStable(r, t0, pc0, h, h', now, now', pc); }
    else if IsCookie(pc0) { CookieTrailStable(r, t0, pc0, h, h', now, now', pc); }
    else if IsForm(pc0) { FormTrailStable(r, t0, pc0, h, h', now, now', pc); }
    else { OtherTrailStable(r, t0, pc0, h, h', now, now', pc); }
  }

  // ---- the request's own steps ----

  lemma CodeTrailLookup(s: System, t0: Time, pc0: Pc, h': History)
    requires pc0.CodeLookup? && t0 <= s.now
    ensures CodeTrail(t0, pc0, h',
                      ExecCodeLookup(s.st, s.now, pc0.client, pc0.code, pc0.redirectUri, pc0.verifier).next)
  {
    hide VerifyPkce;
  }

  lemma CodeTrailMint(s: System, r: ReqId, ch: Choice, t0: Time, pc0: Pc, pc: Pc, h': History)
    requires pc0.CodeLookup? && CodeTrail(t0, pc0, s.h, pc) && pc.CodeMint? && CodePcOk(s.h, s.now, r, pc)
    requires CodesGrow(s.h, h') && Recorded(s, r, pc, ch, ExecCode(s.st, s.now, pc, ch), h')
    ensures CodeTrail(t0, pc0, h', ExecCode(s.st, s.now, pc, ch).next)
  {
    hide Checked, Answer, VerifyPkce, Holds, CodeRow;
  }

  lemma CodeTrailStep(s: System, r: ReqId, ch: Choice, t0: Time, pc0: Pc, pc: Pc, h': History)
    requires pc0.CodeLookup? && CodeTrail(t0, pc0, s.h, pc) && t0 <= s.now && CodePcOk(s.h, s.now, r, pc)
      && !pc.Finished?
    requires CodesGrow(s.h, h') && Recorded(s, r, pc, ch, ExecCode(s.st, s.now, pc, ch), h')
    ensures CodeTrail(t0, pc0, h', ExecCode(s.st, s.now, pc, ch).next)
  {
    hide Recorded, Answer, Redeems, ExecCodeLookup, ExecMint, CodesGrow, CodePcOk, CodeRow;
    if pc.CodeLookup? { CodeTrailLookup(s, t0, pc0, h'); }
    else if pc.CodeMint? { CodeTrailMint(s, r, ch, t0, pc0, pc, h'); }
  }

  lemma DeviceTrailLookup(s: System, t0: Time, pc0: Pc, h': History)
    requires pc0.DeviceLookup? && t0 <= s.now
    ensures DeviceTrail(t0, pc0, h', ExecDeviceLookup(s.st, s.now, pc0.client, pc0.code).next)
  {
    hide PollAnswer;
  }

  lemma DeviceTrailMint(s: System, r: ReqId, ch: Choice, t0: Time, pc0: Pc, pc: Pc, h': History)
    requires pc0.DeviceLookup? && DeviceTrail(t0, pc0, s.h, pc) && DevicePcOk(s.h, s.now, r, pc) && pc.DeviceMint?
    requires DevicesGrow(s.h, h')
    requires Recorded(s, r, pc, ch, ExecMint(s.st, DeviceRow(pc.client, pc.device, pc.at, ch), ByDevice(pc.did), ch),
                      h')
    ensures DeviceTrail(t0, pc0, h',
                        ExecMint(s.st, DeviceRow(pc.client, pc.device, pc.at, ch), ByDevice(pc.did), ch).next)
  {
    hide Checked, Answer, HoldsDevice, ApprovalOf, DeviceRow;
  }

  lemma DeviceTrailStep(s: System, r: ReqId, ch: Choice, t0: Time, pc0: Pc, pc: Pc, h': History)
    requires pc0.DeviceLookup? && DeviceTrail(t0, pc0, s.h, pc) && t0 <= s.now && DevicePcOk(s.h, s.now, r, pc)
      && !pc.Finished?
    requires DevicesGrow(s.h, h') && Recorded(s, r, pc, ch, ExecDevice(s.st, s.now, pc, ch), h')
    ensures DeviceTrail(t0, pc0, h', ExecDevice(s.st, s.now, pc, ch).next)
  {
    hide Recorded, Answer, ExecDeviceLookup, ExecMint, DeviceRow, DevicePcOk, DevicesGrow;
    if pc.DeviceLookup? { DeviceTrailLookup(s, t0, pc0, h'); }
    else if pc.DeviceMint? { DeviceTrailMint(s, r, ch, t0, pc0, pc, h'); }
    else if pc.DevicePoll? { PollsOnlyPace(s.h, s.now, r, pc); }
  }

  lemma PollsOnlyPace(h: History, now: Time, r: ReqId, pc: Pc)
    requires pc.DevicePoll? && DevicePcOk(h, now, r, pc)
    ensures pc.answer == SlowDown || pc.answer == AuthorizationPending
  {
  }

  lemma RotationSpends(s: System, r: ReqId, ch: Choice, o: Out)
    requires o.write.Rotate? && Answer(s.st, o.write) == Done
    ensures o.write.spent in Record(s, r, ch, o).spent
  {
    hide Answer;
  }

  lemma RefreshTrailLookup(s: System, t0: Time, pc0: Pc, h': History)
    requires pc0.RefreshLookup? && t0 <= s.now && SessionsInv(s.st, s.h, s.now) && SessionsGrow(s.h, h')
    ensures RefreshTrail(t0, pc0, h', ExecRefreshLookup(s.st, s.now, pc0.client, pc0.token).next)
  {
    var found := FindByRefresh(s.st, pc0.token);
    if found.Some? { assert SessionOk(s.h, s.now, found.value, s.st.sessions[found.value]); }
  }

  lemma RefreshTrailReuse(s: System, t0: Time, pc0: Pc, h': History)
    requires pc0.RefreshLookup? && SessionsInv(s.st, s.h, s.now) && LineageInv(s.st, s.h) && SessionsGrow(s.h, h')
    ensures RefreshTrail(t0, pc0, h', ExecReuseLookup(s.st, pc0.client, pc0.token).next)
  {
    var found := FindByRetired(s.st, pc0.token);
    if found.Some? { assert SessionOk(s.h, s.now, found.value, s.st.sessions[found.value]); }
  }

  lemma RefreshTrailStep(s: System, r: ReqId, ch: Choice, t0: Time, pc0: Pc, pc: Pc, h': History)
    requires pc0.RefreshLookup? && RefreshTrail(t0, pc0, s.h, pc) && t0 <= s.now && !pc.Finished?
    requires SessionsInv(s.st, s.h, s.now) && LineageInv(s.st, s.h) && SessionsGrow(s.h, h')
    requires var o := ExecRefresh(s.st, s.now, pc, ch);
      o.write.Rotate? && Answer(s.st, o.write) == Done ==> o.write.spent in h'.spent
    ensures RefreshTrail(t0, pc0, h', ExecRefresh(s.st, s.now, pc, ch).next)
  {
    hide Answer, SessionsInv, LineageInv, ExecRefreshLookup, ExecReuseLookup, CapByAbsolute;
    if pc.RefreshLookup? { RefreshTrailLookup(s, t0, pc0, h'); }
    else if pc.ReuseLookup? { RefreshTrailReuse(s, t0, pc0, h'); }
  }

  // A code or device grant made in this step is on record as it was made.
  ghost predicate GrantRecorded(st: Store, o: Out, h': History) {
    && (o.write.InsertGrant? && Answer(st, o.write) == Done ==>
          && o.write.gid in h'.grants && h'.grants[o.write.gid] == o.write.grant
          && o.write.gid in h'.codeTicket && h'.codeTicket[o.write.gid] == o.write.ticket)
    && (o.write.InsertDevice? && Answer(st, o.write) == Done ==>
          && o.write.did in h'.devices && h'.devices[o.write.did] == o.write.device
          && o.write.did in h'.deviceTicket && h'.deviceTicket[o.write.did] == o.write.ticket)
  }

  lemma AuthTrailIssue(s: System, r: ReqId, ch: Choice, t0: Time, pc0: Pc, pc: Pc, h': History)
    requires pc0.AuthRequest? && AuthTrail(r, t0, pc0, s.h, pc) && pc.IssueCode? && AuthorizePcOk(s.h, s.now, r, pc)
    requires RestGrows(s.h, h') && GrantRecorded(s.st, ExecAuthorize(s.st, s.now, pc, ch), h')
    ensures AuthTrail(r, t0, pc0, h', ExecAuthorize(s.st, s.now, pc, ch).next)
  {
    TicketedStable(s.h, h', r, pc.req.ticket, pc.req.client, pc.req.scopes);
    hide Answer, Ticketed, RestGrows, ReqOk, Justified, SplitScopes;
  }

  lemma AuthTrailStep(s: System, r: ReqId, ch: Choice, t0: Time, pc0: Pc, pc: Pc, h': History)
    requires pc0.AuthRequest? && AuthTrail(r, t0, pc0, s.h, pc) && t0 <= s.now && !pc.Finished?
    requires FamilyOf(pc) == AuthorizeFamily && AuthorizePcOk(s.h, s.now, r, pc) && RestGrows(s.h, h')
    requires GrantRecorded(s.st, ExecAuthorize(s.st, s.now, pc, ch), h')
    ensures AuthTrail(r, t0, pc0, h', ExecAuthorize(s.st, s.now, pc, ch).next)
  {
    hide Answer, SplitScopes, UnregisteredScope, PortalRow, GrantRecorded, AuthorizePcOk, RestGrows, AsTyped, CodeGrant;
    if pc.IssueCode? { AuthTrailIssue(s, r, ch, t0, pc0, pc, h'); }
  }

  lemma FactorTrailIssue(s: System, ch: Choice, t0: Time, pc0: Pc, pc: Pc, h': History)
    requires pc0.AuthMfa? && FactorTrail(t0, pc0, s.h, s.now, pc) && pc.IssueCode? && RestGrows(s.h, h')
    requires GrantRecorded(s.st, ExecAuthorize(s.st, s.now, pc, ch), h')
    ensures FactorTrail(t0, pc0, h', s.now, ExecAuthorize(s.st, s.now, pc, ch).next)
  {
    FactorStable(t0, s.h, h', pc.req.user, pc.passedAt.value, pc.at);
    hide Answer, RestGrows;
  }

  lemma FactorTrailWay(s: System, r: ReqId, ch: Choice, t0: Time, pc0: Pc, pc: Pc, h': History)
    requires pc0.AuthMfa? && FactorTrail(t0, pc0, s.h, s.now, pc) && t0 <= s.now && RestGrows(s.h, h')
    requires !pc.Finished? && !pc.IssueCode? && Checked(s, pc, ch, h')
    ensures FactorTrail(t0, pc0, h', s.now, ExecAuthorize(s.st, s.now, pc, ch).next)
  {
    if pc.AuthRecord? || pc.AuthClient? { FactorStable(t0, s.h, h', pc.req.user, pc.passed, s.now); }
    if pc.Seat? { FactorStable(t0, s.h, h', pc.req.user, pc.passedAt.value, s.now); }
    if pc.AuthFactor? && ch.ok { assert FactorSince(t0, h', pc.req.user, s.now, s.now); }
    hide Answer, RestGrows, PortalRow, FactorSince, Checked;
  }

  lemma FactorTrailStep(s: System, r: ReqId, ch: Choice, t0: Time, pc0: Pc, pc: Pc, h': History)
    requires pc0.AuthMfa? && FactorTrail(t0, pc0, s.h, s.now, pc) && t0 <= s.now && RestGrows(s.h, h') && !pc.Finished?
    requires Checked(s, pc, ch, h') && GrantRecorded(s.st, ExecAuthorize(s.st, s.now, pc, ch), h')
    ensures FactorTrail(t0, pc0, h', s.now, ExecAuthorize(s.st, s.now, pc, ch).next)
  {
    hide ExecAuthorize, FactorTrail, RestGrows, Checked, GrantRecorded;
    if pc.IssueCode? { FactorTrailIssue(s, ch, t0, pc0, pc, h'); } else { FactorTrailWay(s, r, ch, t0, pc0, pc, h'); }
  }

  // A session made in this step is on record as it was made.
  ghost predicate SessionRecorded(s: System, o: Out, h': History) {
    o.write.InsertSession? && Answer(s.st, o.write) == Done ==>
      o.write.sid in h'.born && h'.born[o.write.sid] == Birth(o.write.row.(createdAt := s.now), o.write.source)
  }

  lemma SeatedIsSignedIn(s: System, ch: Choice, t0: Time, pc0: Pc, pc: Pc, h': History)
    requires IsLogin(pc0) && LoginTrail(t0, pc0, s.h, s.now, pc) && pc.PortalCreate? && RestGrows(s.h, h')
    requires var row := PortalRow(pc.who, pc.user, pc.at, ch);
      ch.id in h'.born && h'.born[ch.id] == Birth(row.(createdAt := s.now), ByPortal)
    ensures SignedInAs(t0, pc0, h', ch.id)
  {
    if pc.passedAt.Some? { FactorStable(t0, s.h, h', pc.who, pc.passedAt.value, pc.at); }
    hide FactorSince;
  }

  lemma CreateEnds(st: Store, now: Time, pc: Pc, ch: Choice)
    requires pc.PortalCreate?
    ensures var o := ExecPortalLogin(st, now, pc, ch);
      var w := InsertSession(ch.id, PortalRow(pc.who, pc.user, pc.at, ch), ByPortal);
      && o.write == w
      && (o.next == Finished(ServerError) || (o.next == Finished(SignedIn(ch.id)) && Answer(st, w) == Done))
  {
    CreateRuns(st, now, pc, ch);
    hide ExecPortalLogin, Answer, PortalRow, StampIf;
  }

  lemma LoginWayEnds(t0: Time, pc0: Pc, h: History, now: Time, out: Outcome)
    requires IsLogin(pc0) && (out.ServerError? || (out.SignedIn? && SignedInAs(t0, pc0, h, out.sid)))
    ensures LoginWay(t0, pc0, h, now, Finished(out))
  {
    hide SignedInAs, FactorSince, Subject;
  }

  lemma LoginTrailEnds(t0: Time, pc0: Pc, h: History, h': History, now: Time, pc: Pc, out: Outcome)
    requires IsLogin(pc0) && LoginTrail(t0, pc0, h, now, pc)
    requires out.ServerError? || (out.SignedIn? && SignedInAs(t0, pc0, h', out.sid))
    ensures LoginTrail(t0, pc0, h', now, Finished(out))
  {
    hide LoginWay, SignedInAs;
    LoginWayEnds(t0, pc0, h', now, out);
  }

  lemma LoginTrailCreate(s: System, ch: Choice, t0: Time, pc0: Pc, pc: Pc, h': History)
    requires IsLogin(pc0) && LoginTrail(t0, pc0, s.h, s.now, pc) && pc.PortalCreate? && RestGrows(s.h, h')
    requires SessionRecorded(s, ExecPortalLogin(s.st, s.now, pc, ch), h')
    ensures LoginTrail(t0, pc0, h', s.now, ExecPortalLogin(s.st, s.now, pc, ch).next)
  {
    CreateEnds(s.st, s.now, pc, ch);
    hide Answer, ExecPortalLogin, SignedInAs, RestGrows, PortalRow, LoginTrail, SessionRecorded;
    var out := ExecPortalLogin(s.st, s.now, pc, ch).next.out;
    if out.SignedIn? {
      CreateRecorded(s, pc, ch, h');
      SeatedIsSignedIn(s, ch, t0, pc0, pc, h');
    }
    LoginTrailEnds(t0, pc0, s.h, h', s.now, pc, out);
  }

  lemma CreateRecorded(s: System, pc: Pc, ch: Choice, h': History)
    requires pc.PortalCreate? && SessionRecorded(s, ExecPortalLogin(s.st, s.now, pc, ch), h')
    requires ExecPortalLogin(s.st, s.now, pc, ch).next == Finished(SignedIn(ch.id))
    ensures ch.id in h'.born
      && h'.born[ch.id] == Birth(PortalRow(pc.who, pc.user, pc.at, ch).(createdAt := s.now), ByPortal)
  {
    CreateEnds(s.st, s.now, pc, ch);
    hide Answer, ExecPortalLogin, PortalRow;
  }

  lemma LoginTrailFactor(s: System, ch: Choice, t0: Time, pc0: Pc, pc: Pc, h': History)
    requires IsLogin(pc0) && LoginTrail(t0, pc0, s.h, s.now, pc) && t0 <= s.now && pc.LoginFactor?
      && Checked(s, pc, ch, h')
    ensures LoginTrail(t0, pc0, h', s.now, ExecPortalLogin(s.st, s.now, pc, ch).next)
  {
    hide ExecLogin, ExecLoginMfa, ExecLoginRecord, ExecChangePassword, ExecChangeReload, ExecPortalCreate;
    hide ExecRegistration, SignedInAs;
    if ch.ok { assert FactorSince(t0, h', pc.who, s.now, s.now); }
    hide FactorSince, Checked;
  }

  lemma LoginTrailRecord(s: System, ch: Choice, t0: Time, pc0: Pc, pc: Pc, h': History)
    requires IsLogin(pc0) && LoginTrail(t0, pc0, s.h, s.now, pc) && t0 <= s.now && RestGrows(s.h, h') && pc.LoginRecord?
    ensures LoginTrail(t0, pc0, h', s.now, ExecPortalLogin(s.st, s.now, pc, ch).next)
  {
    hide ExecLogin, ExecLoginMfa, ExecLoginFactor, ExecChangePassword, ExecChangeReload, ExecPortalCreate;
    hide ExecRegistration, SignedInAs;
    FactorStable(t0, s.h, h', pc.who, pc.passed, s.now);
    hide FactorSince, RestGrows;
  }

  lemma LoginTrailPassword(s: System, ch: Choice, t0: Time, pc0: Pc, pc: Pc, h': History)
    requires IsLogin(pc0) && LoginTrail(t0, pc0, s.h, s.now, pc) && t0 <= s.now && (pc.Login? || pc.LoginMfa?)
    ensures LoginTrail(t0, pc0, h', s.now, ExecPortalLogin(s.st, s.now, pc, ch).next)
  {
    hide FactorSince, SignedInAs, Answer, ExecLoginFactor, ExecLoginRecord, ExecPortalCreate, ExecRegistration;
    hide ExecChangePassword, ExecChangeReload;
  }

  lemma LoginTrailChange(s: System, ch: Choice, t0: Time, pc0: Pc, pc: Pc, h': History)
    requires IsLogin(pc0) && LoginTrail(t0, pc0, s.h, s.now, pc) && t0 <= s.now
    requires pc.ChangePassword? || pc.ChangeStore? || pc.ChangeReload?
    ensures LoginTrail(t0, pc0, h', s.now, ExecPortalLogin(s.st, s.now, pc, ch).next)
  {
    hide FactorSince, SignedInAs, Answer, ExecLoginFactor, ExecLoginRecord, ExecPortalCreate, ExecRegistration;
    hide ExecLogin, ExecLoginMfa;
  }

  lemma LoginTrailRegister(s: System, ch: Choice, t0: Time, pc0: Pc, pc: Pc, h': History)
    requires IsLogin(pc0) && LoginTrail(t0, pc0, s.h, s.now, pc) && t0 <= s.now && pc.Register?
    requires var o := ExecPortalLogin(s.st, s.now, pc, ch);
      o.write.InsertUser? && Answer(s.st, o.write) == Done ==> o.write.uid in h'.enrolled
    ensures LoginTrail(t0, pc0, h', s.now, ExecPortalLogin(s.st, s.now, pc, ch).next)
  {
    hide Answer, FactorSince, SignedInAs, Known, ExecLogin, ExecLoginMfa, ExecLoginFactor, ExecLoginRecord;
    hide ExecChangePassword, ExecChangeReload, ExecPortalCreate, ExecRegisterCount, ExecRegisterPromote;
  }

  lemma LoginTrailRegistered(s: System, r: ReqId, ch: Choice, t0: Time, pc0: Pc, pc: Pc, h': History)
    requires IsLogin(pc0) && LoginTrail(t0, pc0, s.h, s.now, pc) && t0 <= s.now && s.h.enrolled <= h'.enrolled
    requires (pc.RegisterCount? || pc.RegisterPromote?) && LoginPcOk(s.h, s.now, r, pc)
    ensures LoginTrail(t0, pc0, h', s.now, ExecPortalLogin(s.st, s.now, pc, ch).next)
  {
    hide Answer, FactorSince, SignedInAs, Known, ExecLogin, ExecLoginMfa, ExecLoginFactor, ExecLoginRecord;
    hide ExecChangePassword, ExecChangeReload, ExecPortalCreate, ExecRegister;
  }

  lemma LoginTrailUndo(s: System, ch: Choice, t0: Time, pc0: Pc, pc: Pc, h': History)
    requires IsLogin(pc0) && LoginTrail(t0, pc0, s.h, s.now, pc) && pc.RegisterUndo?
    ensures LoginTrail(t0, pc0, h', s.now, ExecPortalLogin(s.st, s.now, pc, ch).next)
  {
    hide FactorSince, SignedInAs, ExecLogin, ExecLoginMfa, ExecLoginFactor, ExecLoginRecord, ExecChangePassword;
    hide ExecChangeReload, ExecPortalCreate, ExecRegister, ExecRegisterCount, ExecRegisterPromote;
  }

  lemma LoginTrailStep(s: System, r: ReqId, ch: Choice, t0: Time, pc0: Pc, pc: Pc, h': History)
    requires IsLogin(pc0) && LoginTrail(t0, pc0, s.h, s.now, pc) && t0 <= s.now && RestGrows(s.h, h') && !pc.Finished?
    requires Recorded(s, r, pc, ch, ExecPortalLogin(s.st, s.now, pc, ch), h') && LoginPcOk(s.h, s.now, r, pc)
    requires FamilyOf(pc) == LoginFamily
    ensures LoginTrail(t0, pc0, h', s.now, ExecPortalLogin(s.st, s.now, pc, ch).next)
  {
    hide ExecPortalLogin, LoginTrail, Checked, Answer, LoginPcOk;
    if pc.PortalCreate? { hide RestGrows; LoginTrailCreate(s, ch, t0, pc0, pc, h'); }
    else if pc.LoginFactor? { hide RestGrows; LoginTrailFactor(s, ch, t0, pc0, pc, h'); }
    else if pc.LoginRecord? { hide RestGrows; LoginTrailRecord(s, ch, t0, pc0, pc, h'); }
    else if pc.Register? { LoginTrailRegister(s, ch, t0, pc0, pc, h'); }
    else if pc.RegisterUndo? { LoginTrailUndo(s, ch, t0, pc0, pc, h'); }
    else if pc.RegisterCount? || pc.RegisterPromote? { LoginTrailRegistered(s, r, ch, t0, pc0, pc, h'); }
    else if pc.Login? || pc.LoginMfa? { hide Recorded, RestGrows; LoginTrailPassword(s, ch, t0, pc0, pc, h'); }
    else { hide Recorded, RestGrows; LoginTrailChange(s, ch, t0, pc0, pc, h'); }
  }

  lemma ClientTrailAsk(s: System, r: ReqId, ch: Choice, t0: Time, pc0: Pc, h': History)
    requires (pc0.DeviceRequest? || pc0.CredsRequest?) && t0 <= s.now
    ensures ClientTrail(r, t0, pc0, h', ExecClient(s.st, s.now, pc0, ch).next)
  {
    hide SplitScopes, UnregisteredScope, AllRegistered, DeviceAsAsked, MachineAsAsked;
  }

  lemma ClientTrailDevice(s: System, r: ReqId, ch: Choice, t0: Time, pc0: Pc, pc: Pc, h': History)
    requires pc0.DeviceRequest? && ClientTrail(r, t0, pc0, s.h, pc) && RestGrows(s.h, h') && pc.DeviceCreate?
    requires ClientPcOk(s.h, s.now, r, pc) && GrantRecorded(s.st, ExecClient(s.st, s.now, pc, ch), h')
    ensures ClientTrail(r, t0, pc0, h', ExecClient(s.st, s.now, pc, ch).next)
  {
    TicketedStable(s.h, h', r, pc.ticket, pc.client, pc.scopes);
    hide Answer, RestGrows, Ticketed, SplitScopes;
  }

  lemma ClientTrailCreds(s: System, r: ReqId, ch: Choice, t0: Time, pc0: Pc, pc: Pc, h': History)
    requires pc0.CredsRequest? && ClientTrail(r, t0, pc0, s.h, pc) && RestGrows(s.h, h') && pc.CredsMint?
    requires ClientPcOk(s.h, s.now, r, pc) && SessionRecorded(s, ExecClient(s.st, s.now, pc, ch), h')
    ensures ClientTrail(r, t0, pc0, h', ExecClient(s.st, s.now, pc, ch).next)
  {
    TicketedStable(s.h, h', r, pc.ticket, pc.client, pc.scopes);
    hide Answer, RestGrows, Ticketed, SplitScopes;
  }

  lemma ClientTrailStep(s: System, r: ReqId, ch: Choice, t0: Time, pc0: Pc, pc: Pc, h': History)
    requires pc0.DeviceRequest? || pc0.CredsRequest?
    requires ClientTrail(r, t0, pc0, s.h, pc) && t0 <= s.now && RestGrows(s.h, h') && !pc.Finished?
    requires ClientPcOk(s.h, s.now, r, pc) && GrantRecorded(s.st, ExecClient(s.st, s.now, pc, ch), h')
    requires SessionRecorded(s, ExecClient(s.st, s.now, pc, ch), h')
    ensures ClientTrail(r, t0, pc0, h', ExecClient(s.st, s.now, pc, ch).next)
  {
    hide ExecClient, ClientPcOk, GrantRecorded, SessionRecorded, RestGrows, SplitScopes;
    if pc.DeviceCreate? { ClientTrailDevice(s, r, ch, t0, pc0, pc, h'); }
    else if pc.CredsMint? { ClientTrailCreds(s, r, ch, t0, pc0, pc, h'); }
    else { ClientTrailAsk(s, r, ch, t0, pc0, h'); }
  }

  // An approval made in this step is on record as it was made.
  ghost predicate ApprovalRecorded(st: Store, o: Out, h': History) {
    o.write.ApproveDevice? && Answer(st, o.write) == Done ==>
      o.write.did in h'.approvals && h'.approvals[o.write.did].uid == o.write.uid
  }

  lemma PortalTrailRead(s: System, t0: Time, token: Token, purpose: Purpose, h': History)
    requires SessionsInv(s.st, s.h, s.now) && SessionsGrow(s.h, h')
    ensures PortalTrail(t0, token, purpose, h', s.now, ExecPortalRead(s.st, s.now, token, purpose).next)
  {
    var found := FindByAccess(s.st, token);
    if found.Some? { assert SessionOk(s.h, s.now, found.value, s.st.sessions[found.value]); }
  }

  // The cookie's session is the row's.
  lemma BehindIsSignedOn(h: History, h': History, now: Time, token: Token, pc: Pc)
    requires pc.PortalAct? && Behind(h, token, pc.sid) && Bearer(h, token, pc.uid)
    requires PortalRowOk(h, now, pc.sid, pc.row) && SessionsGrow(h, h')
    ensures SignedOn(h', token, pc.uid, pc.row.createdAt)
  {
  }

  lemma PortalTrailDecides(s: System, ch: Choice, t0: Time, token: Token, pc: Pc, h': History)
    requires pc.PortalAct? && (pc.purpose.Approve? || pc.purpose.Deny?) && Bearer(h', token, pc.uid)
    requires ApprovalRecorded(s.st, ExecPortalAct(s.st, s.now, s.ttl, pc.sid, pc.row, pc.uid, pc.purpose, ch), h')
    ensures PortalTrail(t0, token, pc.purpose, h', s.now,
                        ExecPortalAct(s.st, s.now, s.ttl, pc.sid, pc.row, pc.uid, pc.purpose, ch).next)
  {
    hide Answer, StepUpFresh, SilentMfaAt, SteppedUp, Behind, SignedOn;
  }

  lemma PortalTrailFactor(s: System, ch: Choice, t0: Time, token: Token, pc: Pc, h': History)
    requires pc.PortalAct? && pc.purpose.StepUp? && Bearer(h', token, pc.uid) && Checked(s, pc, ch, h') && t0 <= s.now
    ensures PortalTrail(t0, token, pc.purpose, h', s.now,
                        ExecPortalAct(s.st, s.now, s.ttl, pc.sid, pc.row, pc.uid, pc.purpose, ch).next)
  {
    hide Answer, StepUpFresh, SilentMfaAt, SteppedUp, Behind, SignedOn, Bearer;
  }

  lemma PortalTrailAct(s: System, ch: Choice, t0: Time, token: Token, pc: Pc, h': History)
    requires pc.PortalAct? && PortalTrail(t0, token, pc.purpose, s.h, s.now, pc) && SessionsGrow(s.h, h') && t0 <= s.now
    requires PortalRowOk(s.h, s.now, pc.sid, pc.row) && Checked(s, pc, ch, h')
    requires ApprovalRecorded(s.st, ExecPortalAct(s.st, s.now, s.ttl, pc.sid, pc.row, pc.uid, pc.purpose, ch), h')
    ensures PortalTrail(t0, token, pc.purpose, h', s.now,
                        ExecPortalAct(s.st, s.now, s.ttl, pc.sid, pc.row, pc.uid, pc.purpose, ch).next)
  {
    BehindIsSignedOn(s.h, h', s.now, token, pc);
    hide Answer, PortalRowOk, SessionsGrow, StepUpFresh, SilentMfaAt, SteppedUp;
    if pc.purpose.Approve? || pc.purpose.Deny? {
      hide ExecPortalAct, PortalTrail;
      PortalTrailDecides(s, ch, t0, token, pc, h');
    } else if pc.purpose.StepUp? {
      hide ExecPortalAct, PortalTrail;
      PortalTrailFactor(s, ch, t0, token, pc, h');
    } else {
      hide Checked, ApprovalRecorded;
    }
  }

  lemma PortalTrailRecord(s: System, ch: Choice, t0: Time, token: Token, purpose: Purpose, pc: Pc, h': History)
    requires PortalTrail(t0, token, purpose, s.h, s.now, pc) && SessionsGrow(s.h, h') && RestGrows(s.h, h')
    requires pc.StepUpRecord?
    ensures PortalTrail(t0, token, purpose, h', s.now, ExecPortal(s.st, s.now, s.ttl, pc, ch).next)
  {
    FactorStable(t0, s.h, h', pc.uid, pc.passed, s.now);
    hide RestGrows, FactorSince, SteppedUp;
  }

  lemma PortalTrailMark(s: System, ch: Choice, t0: Time, token: Token, purpose: Purpose, pc: Pc, h': History)
    requires PortalTrail(t0, token, purpose, s.h, s.now, pc) && SessionsGrow(s.h, h') && RestGrows(s.h, h')
    requires pc.StepUpMark?
    ensures PortalTrail(t0, token, purpose, h', s.now, ExecPortal(s.st, s.now, s.ttl, pc, ch).next)
  {
    FactorStable(t0, s.h, h', pc.uid, pc.passed, pc.at);
    assert StampsFactor(t0, h', purpose, pc.uid, pc.passed, pc.at);
    hide RestGrows, FactorSince, StampsFactor;
  }

  lemma PortalTrailGo(s: System, ch: Choice, t0: Time, token: Token, purpose: Purpose, pc: Pc, h': History)
    requires PortalTrail(t0, token, purpose, s.h, s.now, pc) && SessionsGrow(s.h, h') && RestGrows(s.h, h')
      && pc.StepUpGo?
    ensures PortalTrail(t0, token, purpose, h', s.now, ExecPortal(s.st, s.now, s.ttl, pc, ch).next)
  {
    SteppedUpStable(t0, s.h, h', purpose, pc.uid, pc.at);
    hide SteppedUp, RestGrows;
  }

  lemma BearerStable(h: History, h': History, token: Token, uid: UserId)
    requires Bearer(h, token, uid) && SessionsGrow(h, h')
    ensures Bearer(h', token, uid)
  {
  }

  lemma BehindBears(h: History, h': History, now: Time, token: Token, sid: SessionId, row: Session)
    requires Behind(h, token, sid) && PortalRowOk(h, now, sid, row) && SessionsGrow(h, h')
    ensures Behind(h', token, sid) && (row.user.Some? ==> Bearer(h', token, row.user.value))
  {
  }

  lemma PortalTrailWay(s: System, ch: Choice, t0: Time, token: Token, purpose: Purpose, pc: Pc, h': History)
    requires pc.PortalUser? || pc.PortalSlide?
    requires PortalTrail(t0, token, purpose, s.h, s.now, pc) && PortalRowOk(s.h, s.now, pc.sid, pc.row)
      && SessionsGrow(s.h, h')
    ensures PortalTrail(t0, token, purpose, h', s.now, ExecPortal(s.st, s.now, s.ttl, pc, ch).next)
  {
    hide ExecPortal;
    SlideGoesOn(s.st, s.now, s.ttl, pc, ch);
    BehindBears(s.h, h', s.now, token, pc.sid, pc.row);
    if pc.PortalSlide? { BearerStable(s.h, h', token, pc.uid); }
    hide PortalRowOk, SessionsGrow, Behind, Bearer;
  }

  lemma PortalTrailStep(s: System, r: ReqId, ch: Choice, t0: Time, token: Token, purpose: Purpose, pc: Pc, h': History)
    requires PortalTrail(t0, token, purpose, s.h, s.now, pc) && FamilyOf(pc) == PortalFamily
      && PortalPcOk(s.h, s.now, r, pc)
    requires SessionsInv(s.st, s.h, s.now) && SessionsGrow(s.h, h') && RestGrows(s.h, h') && t0 <= s.now
    requires Checked(s, pc, ch, h') && ApprovalRecorded(s.st, ExecPortal(s.st, s.now, s.ttl, pc, ch), h')
    ensures PortalTrail(t0, token, purpose, h', s.now, ExecPortal(s.st, s.now, s.ttl, pc, ch).next)
  {
    hide Answer, SessionsInv, SessionsGrow, ExecPortalRead, ExecPortalAct, ApprovalRecorded, PortalRowOk, RestGrows;
    hide Checked, PurposeOk, CookieOk, SteppedUp, StampsFactor, FactorSince;
    if pc.PortalRead? { PortalTrailRead(s, t0, token, purpose, h'); }
    else if pc.PortalAct? { PortalTrailAct(s, ch, t0, token, pc, h'); }
    else if pc.PortalUser? || pc.PortalSlide? {
      hide ExecPortal, PortalTrail;
      PortalTrailWay(s, ch, t0, token, purpose, pc, h');
    }
    else {
      hide ExecPortal;
      if pc.StepUpRecord? { PortalTrailRecord(s, ch, t0, token, purpose, pc, h'); }
      else if pc.StepUpMark? { PortalTrailMark(s, ch, t0, token, purpose, pc, h'); }
      else { PortalTrailGo(s, ch, t0, token, purpose, pc, h'); }
    }
  }

  lemma PortalTrailIssue(s: System, ch: Choice, t0: Time, token: Token, purpose: Purpose, pc: Pc, h': History)
    requires PortalTrail(t0, token, purpose, s.h, s.now, pc) && pc.IssueCode? && SessionsGrow(s.h, h')
    requires GrantRecorded(s.st, ExecAuthorize(s.st, s.now, pc, ch), h')
    ensures PortalTrail(t0, token, purpose, h', s.now, ExecAuthorize(s.st, s.now, pc, ch).next)
  {
    hide Answer;
  }

  // ---- any request, any run ----

  lemma PcAtIsOk(s: System, r: ReqId)
    requires PcsInv(s.h, s.now, s.ttl, s.reqs) && r in s.reqs
    ensures PcOk(s.h, s.now, s.ttl, r, s.reqs[r])
  {
    hide FamilyOk, Began;
  }

  lemma InsertsAreRecorded(s: System, r: ReqId, ch: Choice, o: Out)
    ensures var h' := Record(s, r, ch, o);
      GrantRecorded(s.st, o, h') && SessionRecorded(s, o, h') && ApprovalRecorded(s.st, o, h')
  {
    hide Answer, PasswordPassed, FactorPassed, RowRead;
  }

  // What every step of a request gives its trail.
  lemma StepGives(s: System, r: ReqId, ch: Choice)
    requires Inv(s) && Enabled(s, r, ch)
    ensures var pc := s.reqs[r];
      var o := Exec(s.st, s.now, s.ttl, pc, ch);
      var h' := Record(s, r, ch, o);
      && SessionsGrow(s.h, h') && CodesGrow(s.h, h') && DevicesGrow(s.h, h') && RestGrows(s.h, h')
      && Recorded(s, r, pc, ch, o, h') && GrantRecorded(s.st, o, h') && SessionRecorded(s, o, h')
      && ApprovalRecorded(s.st, o, h') && FamilyOk(s.h, s.now, s.ttl, r, pc)
      && SessionsInv(s.st, s.h, s.now) && LineageInv(s.st, s.h)
  {
    hide Record, Exec, FreshInv, SessionsInv, LineageInv, RotationsInv, CodesInv, DevicesInv, BirthsInv, PcsInv, JarInv;
    hide AcceptedInv, ChallengesInv, FreshChoice, Permitted, SideOk, FamilyOk, Recorded, GrantRecorded, SessionRecorded;
    hide ApprovalRecorded, SessionsGrow, CodesGrow, DevicesGrow, RestGrows, Began;
    EveryStepIsOk(s, r, ch);
    InsertsAreRecorded(s, r, ch, Exec(s.st, s.now, s.ttl, s.reqs[r], ch));
    PcAtIsOk(s, r);
  }

  // Which handler a request on a trail is in.
  lemma TokenTrailFamily(t0: Time, pc0: Pc, h: History, pc: Pc)
    requires IsToken(pc0) && !pc.Finished?
    requires pc0.CodeLookup? ==> CodeTrail(t0, pc0, h, pc)
    requires pc0.DeviceLookup? ==> DeviceTrail(t0, pc0, h, pc)
    requires pc0.RefreshLookup? ==> RefreshTrail(t0, pc0, h, pc)
    ensures FamilyOf(pc) == FamilyOf(pc0)
  {
    hide Redeems, Claims;
  }

  lemma TokenTrailStep(s: System, r: ReqId, ch: Choice, t0: Time, pc0: Pc)
    requires Inv(s) && Enabled(s, r, ch) && Trail(r, t0, pc0, s.h, s.now, s.reqs[r]) && IsToken(pc0)
    ensures var o := Exec(s.st, s.now, s.ttl, s.reqs[r], ch); Trail(r, t0, pc0, Record(s, r, ch, o), s.now, o.next)
  {
    hide Inv, Record, ExecRefresh, ExecCode, ExecDevice, FreshChoice, CodeTrail, DeviceTrail, RefreshTrail, SessionsInv;
    hide LineageInv, RefreshPcOk, CodePcOk, DevicePcOk, Recorded, SessionsGrow, CodesGrow, DevicesGrow, RestGrows;
    hide GrantRecorded, SessionRecorded, ApprovalRecorded, Answer;
    var pc := s.reqs[r];
    var o := Exec(s.st, s.now, s.ttl, pc, ch);
    var h' := Record(s, r, ch, o);
    StepGives(s, r, ch);
    TokenTrailFamily(t0, pc0, s.h, pc);
    if pc0.CodeLookup? {
      CodeTrailStep(s, r, ch, t0, pc0, pc, h');
    } else if pc0.DeviceLookup? {
      DeviceTrailStep(s, r, ch, t0, pc0, pc, h');
    } else {
      if o.write.Rotate? && Answer(s.st, o.write) == Done { RotationSpends(s, r, ch, o); }
      RefreshTrailStep(s, r, ch, t0, pc0, pc, h');
    }
  }

  lemma AuthTrailFamily(r: ReqId, t0: Time, pc0: Pc, h: History, pc: Pc)
    requires pc0.AuthRequest? && AuthTrail(r, t0, pc0, h, pc) && !pc.Finished?
    ensures FamilyOf(pc) == AuthorizeFamily
  {
    hide AsTyped, Carries;
  }

  lemma FactorTrailFamily(t0: Time, pc0: Pc, h: History, now: Time, pc: Pc)
    requires pc0.AuthMfa? && FactorTrail(t0, pc0, h, now, pc) && !pc.Finished?
    ensures FamilyOf(pc) == AuthorizeFamily
  {
    hide AsSealed, FactorSince;
  }

  lemma FormTrailStep(s: System, r: ReqId, ch: Choice, t0: Time, pc0: Pc)
    requires Inv(s) && Enabled(s, r, ch) && Trail(r, t0, pc0, s.h, s.now, s.reqs[r])
    requires pc0.AuthRequest? || pc0.AuthMfa?
    ensures var o := Exec(s.st, s.now, s.ttl, s.reqs[r], ch); Trail(r, t0, pc0, Record(s, r, ch, o), s.now, o.next)
  {
    hide Inv, Record, ExecAuthorize, FreshChoice, AuthTrail, FactorTrail, SessionsInv, LineageInv, AuthorizePcOk;
    hide SessionsGrow, CodesGrow, DevicesGrow, RestGrows, GrantRecorded, SessionRecorded, ApprovalRecorded, Checked;
    hide Answer, FamilyOf;
    var pc := s.reqs[r];
    var h' := Record(s, r, ch, Exec(s.st, s.now, s.ttl, pc, ch));
    StepGives(s, r, ch);
    if pc0.AuthRequest? {
      AuthTrailFamily(r, t0, pc0, s.h, pc);
      AuthTrailStep(s, r, ch, t0, pc0, pc, h');
    } else {
      FactorTrailFamily(t0, pc0, s.h, s.now, pc);
      FactorTrailStep(s, r, ch, t0, pc0, pc, h');
    }
  }

  lemma LoginTrailFamily(t0: Time, pc0: Pc, h: History, now: Time, pc: Pc)
    requires IsLogin(pc0) && LoginTrail(t0, pc0, h, now, pc) && !pc.Finished?
    ensures FamilyOf(pc) == LoginFamily
  {
    hide Subject, FactorSince, SignedInAs;
    if pc == pc0 { hide LoginTrail; } else { hide IsLogin; }
  }

  lemma LoginTrailMoves(s: System, r: ReqId, ch: Choice, t0: Time, pc0: Pc)
    requires Inv(s) && Enabled(s, r, ch) && Trail(r, t0, pc0, s.h, s.now, s.reqs[r]) && IsLogin(pc0)
    ensures var o := Exec(s.st, s.now, s.ttl, s.reqs[r], ch); Trail(r, t0, pc0, Record(s, r, ch, o), s.now, o.next)
  {
    hide Inv, Record, ExecPortalLogin, FreshChoice, LoginTrail, SessionsInv, LineageInv, LoginPcOk, Recorded, FamilyOf;
    hide SessionsGrow, CodesGrow, DevicesGrow, RestGrows, GrantRecorded, SessionRecorded, ApprovalRecorded;
    var pc := s.reqs[r];
    var o := Exec(s.st, s.now, s.ttl, pc, ch);
    StepGives(s, r, ch);
    LoginTrailFamily(t0, pc0, s.h, s.now, pc);
    LoginTrailStep(s, r, ch, t0, pc0, pc, Record(s, r, ch, o));
  }

  lemma ClientTrailFamily(r: ReqId, t0: Time, pc0: Pc, h: History, pc: Pc)
    requires (pc0.DeviceRequest? || pc0.CredsRequest?) && ClientTrail(r, t0, pc0, h, pc) && !pc.Finished?
    ensures FamilyOf(pc) == ClientFamily
  {
    hide SplitScopes, DeviceAsAsked, MachineAsAsked;
  }

  lemma ClientTrailMoves(s: System, r: ReqId, ch: Choice, t0: Time, pc0: Pc)
    requires Inv(s) && Enabled(s, r, ch) && Trail(r, t0, pc0, s.h, s.now, s.reqs[r])
    requires pc0.DeviceRequest? || pc0.CredsRequest?
    ensures var o := Exec(s.st, s.now, s.ttl, s.reqs[r], ch); Trail(r, t0, pc0, Record(s, r, ch, o), s.now, o.next)
  {
    hide Inv, Record, ExecClient, FreshChoice, ClientTrail, SessionsInv, LineageInv, ClientPcOk, Recorded, FamilyOf;
    hide SessionsGrow, CodesGrow, DevicesGrow, RestGrows, GrantRecorded, SessionRecorded, ApprovalRecorded;
    var pc := s.reqs[r];
    var o := Exec(s.st, s.now, s.ttl, pc, ch);
    StepGives(s, r, ch);
    ClientTrailFamily(r, t0, pc0, s.h, pc);
    ClientTrailStep(s, r, ch, t0, pc0, pc, Record(s, r, ch, o));
  }

  lemma PortalTrailFamily(t0: Time, token: Token, purpose: Purpose, h: History, now: Time, pc: Pc)
    requires PortalTrail(t0, token, purpose, h, now, pc) && !pc.Finished?
    ensures FamilyOf(pc) == if pc.IssueCode? then AuthorizeFamily else PortalFamily
  {
    hide Behind, Bearer, FactorSince, StampsFactor, SteppedUp, SignedOn;
  }

  lemma PortalTrailMoves(s: System, r: ReqId, ch: Choice, t0: Time, token: Token, purpose: Purpose)
    requires Inv(s) && Enabled(s, r, ch) && PortalTrail(t0, token, purpose, s.h, s.now, s.reqs[r]) && t0 <= s.now
    ensures var o := Exec(s.st, s.now, s.ttl, s.reqs[r], ch);
      PortalTrail(t0, token, purpose, Record(s, r, ch, o), s.now, o.next)
  {
    hide Inv, Record, ExecPortal, ExecAuthorize, FreshChoice, PortalTrail, SessionsInv, LineageInv, FamilyOf, Checked;
    hide PortalPcOk, AuthorizePcOk, SessionsGrow, CodesGrow, DevicesGrow, RestGrows, GrantRecorded, SessionRecorded;
    hide ApprovalRecorded, Answer;
    var pc := s.reqs[r];
    var h' := Record(s, r, ch, Exec(s.st, s.now, s.ttl, pc, ch));
    StepGives(s, r, ch);
    PortalTrailFamily(t0, token, purpose, s.h, s.now, pc);
    if pc.IssueCode? { PortalTrailIssue(s, ch, t0, token, purpose, pc, h'); }
    else { PortalTrailStep(s, r, ch, t0, token, purpose, pc, h'); }
  }

  lemma CookieTrailStep(s: System, r: ReqId, ch: Choice, t0: Time, pc0: Pc)
    requires Inv(s) && Enabled(s, r, ch) && Trail(r, t0, pc0, s.h, s.now, s.reqs[r]) && IsCookie(pc0)
    ensures var o := Exec(s.st, s.now, s.ttl, s.reqs[r], ch); Trail(r, t0, pc0, Record(s, r, ch, o), s.now, o.next)
  {
    hide Inv, Record, Exec, FreshChoice, PortalTrail, SilentTrail;
    if pc0.PortalRead? {
      PortalTrailMoves(s, r, ch, t0, pc0.token, pc0.purpose);
    } else {
      SilentTrailMoves(s, r, ch, t0, pc0);
    }
  }

  lemma SilentTrailMoves(s: System, r: ReqId, ch: Choice, t0: Time, pc0: Pc)
    requires Inv(s) && Enabled(s, r, ch) && pc0.SilentRequest? && SilentTrail(r, t0, pc0, s.h, s.now, s.reqs[r])
      && t0 <= s.now
    ensures var o := Exec(s.st, s.now, s.ttl, s.reqs[r], ch);
      SilentTrail(r, t0, pc0, Record(s, r, ch, o), s.now, o.next)
  {
    hide Inv, Record, Exec, FreshChoice, PortalTrail, Ticketed;
    var o := Exec(s.st, s.now, s.ttl, s.reqs[r], ch);
    var h' := Record(s, r, ch, o);
    if s.reqs[r] == pc0 {
      SilentTrailStarts(s, r, ch, t0, pc0);
    } else {
      var ticket :|
        && SilentTicket(r, pc0, s.h, ticket)
        && PortalTrail(t0, pc0.token, SilentPurpose(pc0, ticket), s.h, s.now, s.reqs[r]);
      PortalTrailMoves(s, r, ch, t0, pc0.token, SilentPurpose(pc0, ticket));
      StepKeepsTicket(s, r, ch, ticket, pc0.client, SplitScopes(pc0.scope));
      assert SilentTicket(r, pc0, h', ticket);
    }
  }

  lemma StepKeepsTicket(s: System, r: ReqId, ch: Choice, ticket: TicketId, client: ClientId, scopes: Scopes)
    requires Inv(s) && Enabled(s, r, ch) && Ticketed(s.h, r, ticket, client, scopes)
    ensures Ticketed(Record(s, r, ch, Exec(s.st, s.now, s.ttl, s.reqs[r], ch)), r, ticket, client, scopes)
  {
    hide Record, Exec, FreshInv, SessionsInv, LineageInv, RotationsInv, CodesInv, DevicesInv, BirthsInv, PcsInv, JarInv;
    hide AcceptedInv, ChallengesInv, FreshChoice, Permitted, SideOk, Recorded, PcOk, SessionsGrow, CodesGrow;
    hide DevicesGrow;
    hide RestGrows, Ticketed;
    EveryStepIsOk(s, r, ch);
    TicketedStable(s.h, Record(s, r, ch, Exec(s.st, s.now, s.ttl, s.reqs[r], ch)), r, ticket, client, scopes);
  }

  lemma AskedSilently(st: Store, now: Time, ttl: Time, pc0: Pc, ch: Choice)
    requires pc0.SilentRequest?
    ensures var o := Exec(st, now, ttl, pc0, ch);
      || o.next == Finished(Rejected)
      || (o.next == PortalRead(pc0.token, SilentPurpose(pc0, ch.id)) && o.accept.Some?
          && o.accept.value.client == pc0.client && o.accept.value.scopes == SplitScopes(pc0.scope))
  {
    hide UnregisteredScope, SplitScopes, ExecRefresh, ExecCode, ExecDevice, ExecClient, ExecAuthorize, ExecPortalLogin;
    hide ExecPortalRead, ExecPortalUser, ExecPortalSlide, ExecPortalAct, ExecStepUpRecord, ExecStepUpMark, ExecStepUpGo;
  }

  lemma SilentTrailStarts(s: System, r: ReqId, ch: Choice, t0: Time, pc0: Pc)
    requires pc0.SilentRequest? && Inv(s) && Enabled(s, r, ch) && s.reqs[r] == pc0
    ensures var o := Exec(s.st, s.now, s.ttl, pc0, ch); SilentTrail(r, t0, pc0, Record(s, r, ch, o), s.now, o.next)
  {
    hide Inv, Record, SplitScopes, FreshChoice, Exec;
    var o := Exec(s.st, s.now, s.ttl, pc0, ch);
    RecordRecords(s, r, ch, o);
    AskedSilently(s.st, s.now, s.ttl, pc0, ch);
    if o.next != Finished(Rejected) { assert SilentTicket(r, pc0, Record(s, r, ch, o), ch.id); }
  }

  lemma OwnTrailStep(s: System, r: ReqId, ch: Choice, t0: Time, pc0: Pc)
    requires Inv(s) && Enabled(s, r, ch) && Trail(r, t0, pc0, s.h, s.now, s.reqs[r])
    ensures var o := Exec(s.st, s.now, s.ttl, s.reqs[r], ch); Trail(r, t0, pc0, Record(s, r, ch, o), s.now, o.next)
  {
    hide Inv, Record, Exec, FreshChoice, IsToken, IsCookie, Trail;
    if IsToken(pc0) { TokenTrailStep(s, r, ch, t0, pc0); }
    else if IsCookie(pc0) { CookieTrailStep(s, r, ch, t0, pc0); }
    else if pc0.AuthRequest? || pc0.AuthMfa? { FormTrailStep(s, r, ch, t0, pc0); }
    else if IsLogin(pc0) { LoginTrailMoves(s, r, ch, t0, pc0); }
    else if pc0.DeviceRequest? || pc0.CredsRequest? { ClientTrailMoves(s, r, ch, t0, pc0); }
    else { TrailOfOthers(r, t0, pc0, s, ch); }
  }

  lemma TrailOfOthers(r: ReqId, t0: Time, pc0: Pc, s: System, ch: Choice)
    requires r in s.reqs && Trail(r, t0, pc0, s.h, s.now, s.reqs[r]) && !IsToken(pc0) && !IsCookie(pc0) && !IsForm(pc0)
    ensures forall h, pc :: Trail(r, t0, pc0, h, s.now, pc)
  {
  }

  lemma TrailIsInTime(r: ReqId, t0: Time, pc0: Pc, h: History, now: Time, pc: Pc)
    requires Trail(r, t0, pc0, h, now, pc)
    ensures t0 <= now && (pc0.AuthMfa? || pc0.LoginMfa? || pc0.ChangePassword? ==> t0 <= pc0.exp)
  {
    hide CodeTrail, DeviceTrail, RefreshTrail, AuthTrail, PortalTrail, SilentTrail, ClientTrail;
  }

  lemma AbortedTrail(r: ReqId, t0: Time, pc0: Pc, h: History, now: Time)
    requires t0 <= now && (pc0.AuthMfa? || pc0.LoginMfa? || pc0.ChangePassword? ==> t0 <= pc0.exp)
    ensures Trail(r, t0, pc0, h, now, Finished(Aborted))
  {
  }

  // Request r is where it came in as, or further along.
  ghost predicate OnTrail(s: System, r: ReqId) {
    r in s.reqs && r in s.h.arrived && Trail(r, s.h.arrived[r].at, s.h.arrived[r].pc, s.h, s.now, s.reqs[r])
  }

  lemma ArrivalIsOnTrail(s: System, r: ReqId, pc: Pc)
    requires Initial(s.jar, s.now, pc)
    ensures OnTrail(Arrived(s, r, pc), r)
  {
  }

  lemma ActionKeepsTrail(s: System, a: Action, r: ReqId)
    requires Inv(s) && OnTrail(s, r)
    ensures OnTrail(Apply(s, a), r)
  {
    hide Inv, Exec, Perform, Record, Trail, Grows, Initial, Administrative, FreshChoice;
    ActionGrows(s, a);
    var s', t0, pc0 := Apply(s, a), s.h.arrived[r].at, s.h.arrived[r].pc;
    ArrivalsLast(s.h, s'.h, r);
    if a.Step? && a.r == r && Enabled(s, r, a.ch) {
      OwnTrailStep(s, r, a.ch, t0, pc0);
    } else if a.Abort? && a.r == r && !s.reqs[r].Finished? {
      TrailIsInTime(r, t0, pc0, s.h, s.now, s.reqs[r]);
      AbortedTrail(r, t0, pc0, s.h, s.now);
    } else {
      TrailStable(r, t0, pc0, s.h, s'.h, s.now, s'.now, s.reqs[r]);
    }
  }

  lemma ArrivalsLast(h: History, h': History, r: ReqId)
    requires Grows(h, h') && r in h.arrived
    ensures r in h'.arrived && h'.arrived[r] == h.arrived[r]
  {
    hide SessionsGrow, CodesGrow, DevicesGrow;
  }

  lemma NextOnTrail(s: System, a: Action, r: ReqId)
    requires Inv(s) && (forall q | q in s.reqs :: OnTrail(s, q)) && r in Apply(s, a).reqs
    ensures OnTrail(Apply(s, a), r)
  {
    hide Inv, OnTrail, Exec, After, Initial, Administrative, FreshChoice, Arrived;
    if r in s.reqs {
      hide Apply;
      ActionKeepsTrail(s, a, r);
    } else {
      NewRequestArrived(s, a, r);
      ArrivalIsOnTrail(s, r, a.pc);
    }
  }

  lemma NewRequestArrived(s: System, a: Action, r: ReqId)
    requires r !in s.reqs && r in Apply(s, a).reqs
    ensures a.Arrive? && a.r == r && Initial(s.jar, s.now, a.pc) && Apply(s, a) == Arrived(s, r, a.pc)
  {
    hide Exec, Perform, Record, Initial, Administrative, FreshChoice;
  }

  lemma {:induction false} RunKeepsTrails(s: System, acts: seq<Action>, r: ReqId)
    requires Inv(s) && (forall q | q in s.reqs :: OnTrail(s, q)) && r in Run(s, acts).reqs
    ensures OnTrail(Run(s, acts), r)
    decreases |acts|
  {
    hide Inv, Apply, OnTrail;
    if acts != [] {
      ActionKeepsInv(s, acts[0]);
      forall q | q in Apply(s, acts[0]).reqs ensures OnTrail(Apply(s, acts[0]), q) { NextOnTrail(s, acts[0], q); }
      RunKeepsTrails(Apply(s, acts[0]), acts[1..], r);
    }
  }

  /**
   Whatever else runs in between, the answer to a request belongs to it.
   A session comes from the code or device code that was presented, by the
   client it was issued to, before it expired, with the right redirect and
   PKCE verifier; a refresh rotates the token that was presented; a code is
   for the user, client, scopes, redirect and challenge of the authorization
   request, and after an MFA prompt a factor of that user verified within
   the request; a device code or machine session holds the scopes asked for,
   which this very request had checked; who signs in is the user of the form
   or cookie, or the account just registered, and an MFA time stamps a factor
   verified within the request; behind a portal cookie everything is done for
   the cookie's own user, and a step-up URL follows a factor of that user
   verified in the same request.
   */
  lemma {:induction false} AnswerBelongsToRequest(s: System, r: ReqId)
    requires Reachable(s) && r in s.reqs
    ensures r in s.h.arrived && Trail(r, s.h.arrived[r].at, s.h.arrived[r].pc, s.h, s.now, s.reqs[r])
  {
    hide Inv, Run, Trail;
    var s0, acts :| Start(s0) && s == Run(s0, acts);
    StartInv(s0);
    RunKeepsTrails(s0, acts, r);
  }
}
