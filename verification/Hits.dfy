/** The requests behind the portal cookie, one whole request at a time. */
module Hits {
  import opened Model
  import opened Stores
  import opened Protocol
  import opened Databases
  import opened Handlers
  import opened Outcomes
  import opened Exchanges
  import opened SignIns

  // The cookie's session is alive and its user on the books.
  ghost predicate GetsIn(st: Store, now: Time, token: Token, sid: SessionId) {
    && sid in st.sessions
    && var row := st.sessions[sid];
    row.access == token && Lives(row, row.accessExp, now) && row.user != None && row.user.value in st.users
  }

  // The session with 15 more minutes, up to four hours after its creation.
  function Slid(row: Session, now: Time): Session {
    row.(accessExp := Sooner(now + 15 * MINUTE, row.createdAt + 240 * MINUTE))
  }

  function SlidStore(st: Store, sid: SessionId, now: Time): Store
    requires sid in st.sessions
  {
    st.(sessions := st.sessions[sid := Slid(st.sessions[sid], now)])
  }

  // Silent sign-on asks more: an active user who has met the second factor, if
  // one is due, and whatever the request and the policy rules demand.
  ghost predicate Admitted(st: Store, row: Session, purpose: Purpose, ok: bool)
    requires row.user.Some? && row.user.value in st.users
  {
    var user := st.users[row.user.value];
    purpose.Silent? ==> user.active && (user.mfaEnabled ==> row.mfaVerified) && ok
  }

  lemma CookieFound(st: Store, now: Time, token: Token, purpose: Purpose, sid: SessionId)
    requires Constraints(st) && GetsIn(st, now, token, sid)
    ensures ExecPortalRead(st, now, token, purpose) == Go(PortalUser(sid, st.sessions[sid], purpose))
  {
  }

  lemma Extends(st: Store, now: Time, sid: SessionId)
    requires sid in st.sessions
    ensures Perform(st, now, Extend(sid, CapByAbsolute(now + PORTAL_TTL, st.sessions[sid].createdAt)))
      == SlidStore(st, sid, now)
  {
  }

  // What a living session's user gets to do.
  ghost function Allowed(st: Store, now: Time, ttl: Time, sid: SessionId, purpose: Purpose, env: seq<Choice>): Ending
    requires |env| >= 2 && sid in st.sessions
    requires var row := st.sessions[sid]; row.user.Some? && row.user.value in st.users
  {
    var row := st.sessions[sid];
    if Admitted(st, row, purpose, env[0].ok)
    then Alone(SlidStore(st, sid, now), now, ttl, PortalAct(sid, row, row.user.value, purpose), env[2..])
    else Refusal(st)
  }

  // The lookup of the user, and the slide.
  lemma UserRuns(st: Store, now: Time, ttl: Time, sid: SessionId, purpose: Purpose, ch: Choice)
    requires sid in st.sessions
    requires var row := st.sessions[sid]; row.user.Some? && row.user.value in st.users
    ensures var row := st.sessions[sid];
      var slide := PortalSlide(sid, row, row.user.value, purpose, now);
      && Exec(st, now, ttl, PortalUser(sid, row, purpose), ch)
         == Go(if Admitted(st, row, purpose, ch.ok) then slide else Finished(Rejected))
      && Exec(st, now, ttl, slide, ch)
         == Do(Extend(sid, CapByAbsolute(now + PORTAL_TTL, row.createdAt)),
               PortalAct(sid, row, row.user.value, purpose))
  {
    hide Exec, CapByAbsolute;
    var row := st.sessions[sid];
    CookieStep(st, now, ttl, PortalUser(sid, row, purpose), ch);
    CookieStep(st, now, ttl, PortalSlide(sid, row, row.user.value, purpose, now), ch);
  }

  lemma {:induction false} UserLeads(st: Store, now: Time, ttl: Time, sid: SessionId, purpose: Purpose,
                                     env: seq<Choice>)
    requires |env| >= 2 && sid in st.sessions
    requires var row := st.sessions[sid]; row.user.Some? && row.user.value in st.users
    ensures Alone(st, now, ttl, PortalUser(sid, st.sessions[sid], purpose), env)
      == Allowed(st, now, ttl, sid, purpose, env)
  {
    hide Alone, Perform, Exec, SlidStore, Admitted, CapByAbsolute;
    var row := st.sessions[sid];
    var user, slide := PortalUser(sid, row, purpose), PortalSlide(sid, row, row.user.value, purpose, now);
    DoesNothing(st, now);
    UserRuns(st, now, ttl, sid, purpose, env[0]);
    if Admitted(st, row, purpose, env[0].ok) {
      Next(st, now, ttl, user, env, Go(slide), st);
      UserRuns(st, now, ttl, sid, purpose, env[1]);
      Extends(st, now, sid);
      assert env[1..][1..] == env[2..];
      Next(st, now, ttl, slide, env[1..], Exec(st, now, ttl, slide, env[1]), SlidStore(st, sid, now));
    } else {
      Last(st, now, ttl, user, env, Go(Finished(Rejected)), st, Rejected);
    }
  }

  lemma {:induction false} Enters(st: Store, now: Time, ttl: Time, token: Token, purpose: Purpose, sid: SessionId,
                                  env: seq<Choice>)
    requires Constraints(st) && |env| >= 3 && GetsIn(st, now, token, sid)
    ensures var row := st.sessions[sid];
      Alone(st, now, ttl, PortalRead(token, purpose), env) ==
        if Admitted(st, row, purpose, env[1].ok)
        then Alone(SlidStore(st, sid, now), now, ttl, PortalAct(sid, row, row.user.value, purpose), env[3..])
        else Refusal(st)
  {
    hide Alone, Perform, Exec, Constraints, ExecPortalRead, SlidStore, Admitted, Lives;
    var read, user := PortalRead(token, purpose), PortalUser(sid, st.sessions[sid], purpose);
    CookieFound(st, now, token, purpose, sid);
    DoesNothing(st, now);
    CookieStep(st, now, ttl, read, env[0]);
    Next(st, now, ttl, read, env, Go(user), st);
    UserLeads(st, now, ttl, sid, purpose, env[1..]);
    assert env[1..][2..] == env[3..];
  }

  /** Nobody gets in without a living session, whatever the request is for. */
  lemma {:induction false} NobodyEnters(st: Store, now: Time, ttl: Time, token: Token, purpose: Purpose,
                                        env: seq<Choice>)
    requires |env| >= 2 && forall sid :: !GetsIn(st, now, token, sid)
    ensures Alone(st, now, ttl, PortalRead(token, purpose), env) == Refusal(st)
  {
    hide Alone, Perform, Exec, ExecPortalRead, GetsIn;
    var pc := PortalRead(token, purpose);
    DoesNothing(st, now);
    CookieStep(st, now, ttl, pc, env[0]);
    var next := ReadLeads(st, now, token, purpose);
    if next == Finished(Rejected) {
      Last(st, now, ttl, pc, env, Go(next), st, Rejected);
    } else {
      Next(st, now, ttl, pc, env, Go(next), st);
      CookieStep(st, now, ttl, next, env[1]);
      Last(st, now, ttl, next, env[1..], Go(Finished(Rejected)), st, Rejected);
    }
  }

  // Where the lookup leads when nobody gets in.
  lemma ReadLeads(st: Store, now: Time, token: Token, purpose: Purpose) returns (next: Pc)
    requires forall sid :: !GetsIn(st, now, token, sid)
    ensures ExecPortalRead(st, now, token, purpose) == Go(next)
    ensures next == Finished(Rejected)
      || (next.PortalUser? && (next.row.user == None || next.row.user.value !in st.users))
  {
    next := ExecPortalRead(st, now, token, purpose).next;
    var found := FindByAccess(st, token);
    assert found.Some? ==> !GetsIn(st, now, token, found.value);
  }

  // ---- a page of the portal ----

  /** A visit with a living session shows the page and gives the session 15 more minutes. */
  lemma {:induction false} VisitHit(st: Store, now: Time, ttl: Time, token: Token, sid: SessionId, env: seq<Choice>)
    requires Constraints(st) && |env| == 4 && GetsIn(st, now, token, sid)
    ensures Alone(st, now, ttl, PortalRead(token, Visit), env) == Ending(SlidStore(st, sid, now), Finished(Page), {})
  {
    hide Alone, Perform, Exec, Constraints, Slid;
    var row, slid := st.sessions[sid], SlidStore(st, sid, now);
    Enters(st, now, ttl, token, Visit, sid, env);
    var act := PortalAct(sid, row, row.user.value, Visit);
    CookieStep(slid, now, ttl, act, env[3]);
    DoesNothing(slid, now);
    Last(slid, now, ttl, act, env[3..], Exec(slid, now, ttl, act, env[3]), slid, Page);
  }

  // ---- the AWS console ----

  // A second factor met no longer ago than the TTL.
  predicate RecentlyVerified(row: Session, now: Time, ttl: Time) {
    row.mfaAt != None && now <= row.mfaAt.value + ttl
  }

  /** The console opens for a user whose role resolves; for a step-up role only with a recent second factor. */
  lemma {:induction false} ConsoleHit(st: Store, now: Time, ttl: Time, token: Token, stepUpRole: bool, sid: SessionId,
                                      env: seq<Choice>)
    requires Constraints(st) && |env| == 4 && GetsIn(st, now, token, sid)
    ensures var row, slid := st.sessions[sid], SlidStore(st, sid, now);
      Alone(st, now, ttl, PortalRead(token, Console(stepUpRole)), env) ==
        if !env[3].ok then Refusal(slid)
        else if stepUpRole && !RecentlyVerified(row, now, ttl) then Ending(slid, Finished(StepUpRequired), {})
        else Ending(slid, Finished(ConsoleUrl(row.user.value, stepUpRole, now, row.mfaAt)), {})
  {
    hide Alone, Perform, Exec, Constraints, Slid;
    var row, slid, ch := st.sessions[sid], SlidStore(st, sid, now), env[3];
    Enters(st, now, ttl, token, Console(stepUpRole), sid, env);
    var act := PortalAct(sid, row, row.user.value, Console(stepUpRole));
    CookieStep(slid, now, ttl, act, ch);
    DoesNothing(slid, now);
    var o := Exec(slid, now, ttl, act, ch);
    if !ch.ok {
      Last(slid, now, ttl, act, env[3..], o, slid, Rejected);
    } else if stepUpRole && !RecentlyVerified(row, now, ttl) {
      Last(slid, now, ttl, act, env[3..], o, slid, StepUpRequired);
    } else {
      Last(slid, now, ttl, act, env[3..], o, slid, ConsoleUrl(row.user.value, stepUpRole, now, row.mfaAt));
    }
  }

  // ---- the step-up forms ----

  // The session as verified now.
  function MarkedStore(st: Store, sid: SessionId, now: Time): Store
    requires sid in st.sessions
  {
    st.(sessions := st.sessions[sid := st.sessions[sid].(mfaVerified := true, mfaAt := Some(now))])
  }

  // Back to the page, or on to the console if the role still resolves.
  function SteppedUpTo(uid: UserId, console: bool, now: Time, ok: bool): Outcome {
    if !console then Page else if ok then ConsoleUrl(uid, true, now, Some(now)) else Rejected
  }

  lemma Marks(st: Store, now: Time, sid: SessionId)
    requires sid in st.sessions
    ensures Perform(st, now, MarkMfa(sid, now)) == MarkedStore(st, sid, now)
  {
  }

  lemma {:induction false} MarkLeads(st: Store, now: Time, ttl: Time, sid: SessionId, uid: UserId, console: bool,
                                     env: seq<Choice>)
    requires |env| == 2 && sid in st.sessions
    ensures Alone(st, now, ttl, StepUpMark(sid, uid, now, now, console), env)
      == Ending(MarkedStore(st, sid, now), Finished(SteppedUpTo(uid, console, now, env[1].ok)), {})
  {
    hide Alone, Perform, Exec, MarkedStore;
    var mark, go, marked :=
      StepUpMark(sid, uid, now, now, console), StepUpGo(uid, now, console), MarkedStore(st, sid, now);
    Marks(st, now, sid);
    CookieStep(st, now, ttl, mark, env[0]);
    Next(st, now, ttl, mark, env, Exec(st, now, ttl, mark, env[0]), marked);
    CookieStep(marked, now, ttl, go, env[1]);
    DoesNothing(marked, now);
    Last(marked, now, ttl, go, env[1..], Exec(marked, now, ttl, go, env[1]), marked,
         SteppedUpTo(uid, console, now, env[1].ok));
  }

  /** A verified factor marks the session now; a passkey has to be recorded first. */
  lemma {:induction false} StepUpHit(st: Store, now: Time, ttl: Time, token: Token, webauthn: bool, console: bool,
                                     sid: SessionId, env: seq<Choice>)
    requires Constraints(st) && GetsIn(st, now, token, sid) && |env| == if webauthn then 7 else 6
    ensures var uid, slid := st.sessions[sid].user.value, SlidStore(st, sid, now);
      Alone(st, now, ttl, PortalRead(token, StepUp(webauthn, console)), env) ==
        if !env[3].ok || (webauthn && !env[4].ok) then Refusal(slid)
        else Ending(MarkedStore(slid, sid, now), Finished(SteppedUpTo(uid, console, now, env[|env| - 1].ok)), {})
  {
    hide Alone, Perform, Exec, Constraints, Slid, MarkedStore;
    var row, slid, ch := st.sessions[sid], SlidStore(st, sid, now), env[3];
    var uid := row.user.value;
    Enters(st, now, ttl, token, StepUp(webauthn, console), sid, env);
    var act := PortalAct(sid, row, uid, StepUp(webauthn, console));
    CookieStep(slid, now, ttl, act, ch);
    DoesNothing(slid, now);
    var o := Exec(slid, now, ttl, act, ch);
    assert env[3..][1..] == env[4..];
    if !ch.ok {
      Last(slid, now, ttl, act, env[3..], o, slid, Rejected);
    } else {
      Next(slid, now, ttl, act, env[3..], o, slid);
      if webauthn {
        PasskeyLeads(slid, now, ttl, sid, uid, console, env[4..]);
      } else {
        MarkLeads(slid, now, ttl, sid, uid, console, env[4..]);
      }
    }
  }

  lemma {:induction false} PasskeyLeads(st: Store, now: Time, ttl: Time, sid: SessionId, uid: UserId, console: bool,
                                        env: seq<Choice>)
    requires |env| == 3 && sid in st.sessions
    ensures Alone(st, now, ttl, StepUpRecord(sid, uid, now, console), env) ==
      if !env[0].ok then Refusal(st)
      else Ending(MarkedStore(st, sid, now), Finished(SteppedUpTo(uid, console, now, env[2].ok)), {})
  {
    hide Alone, Perform, Exec, MarkedStore;
    var pc := StepUpRecord(sid, uid, now, console);
    CookieStep(st, now, ttl, pc, env[0]);
    DoesNothing(st, now);
    var o := Exec(st, now, ttl, pc, env[0]);
    if !env[0].ok {
      Last(st, now, ttl, pc, env, o, st, Rejected);
    } else {
      Next(st, now, ttl, pc, env, o, st);
      MarkLeads(st, now, ttl, sid, uid, console, env[1..]);
    }
  }

  // ---- device confirmation (section 3.3 of RFC 8628) ----

  // A pending grant, decided; any other stays as it is.
  function DecidedStore(st: Store, did: DeviceId, row: DeviceGrant): Store {
    if did in st.devices && st.devices[did].status == Pending then st.(devices := st.devices[did := row]) else st
  }

  function ApprovedBy(d: DeviceGrant, session: Session): DeviceGrant {
    d.(status := Approved, user := session.user, mfaVerified := session.mfaVerified, mfaAt := session.mfaAt)
  }

  lemma Approves(st: Store, now: Time, did: DeviceId, row: Session)
    requires row.user.Some? && row.user.value in st.users
    ensures var w := ApproveDevice(did, row.user.value, row.mfaVerified, row.mfaAt);
      if did in st.devices && st.devices[did].status == Pending then
        Answer(st, w) == Done && Perform(st, now, w) == DecidedStore(st, did, ApprovedBy(st.devices[did], row))
      else Answer(st, w) == NoRow && Perform(st, now, w) == st
  {
  }

  /** Approving takes a pending grant and puts the approver's user and second factor on it. */
  lemma {:induction false} ApproveHit(st: Store, now: Time, ttl: Time, token: Token, did: DeviceId, sid: SessionId,
                                      env: seq<Choice>)
    requires Constraints(st) && |env| == 4 && GetsIn(st, now, token, sid)
    ensures var row, slid := st.sessions[sid], SlidStore(st, sid, now);
      Alone(st, now, ttl, PortalRead(token, Approve(did)), env) ==
        if did in st.devices && st.devices[did].status == Pending
        then Ending(DecidedStore(slid, did, ApprovedBy(st.devices[did], row)), Finished(Decided), {})
        else Refusal(slid)
  {
    hide Alone, Perform, Exec, Answer, Constraints, Slid, ApprovedBy, DecidedStore;
    var row, slid := st.sessions[sid], SlidStore(st, sid, now);
    Enters(st, now, ttl, token, Approve(did), sid, env);
    var act := PortalAct(sid, row, row.user.value, Approve(did));
    CookieStep(slid, now, ttl, act, env[3]);
    Approves(slid, now, did, row);
    var o := Exec(slid, now, ttl, act, env[3]);
    if did in st.devices && st.devices[did].status == Pending {
      Last(slid, now, ttl, act, env[3..], o, DecidedStore(slid, did, ApprovedBy(st.devices[did], row)), Decided);
    } else {
      Last(slid, now, ttl, act, env[3..], o, slid, Rejected);
    }
  }

  lemma Denies(st: Store, now: Time, did: DeviceId)
    ensures Perform(st, now, DenyDevice(did)) ==
      if did in st.devices then DecidedStore(st, did, st.devices[did].(status := Denied)) else st
  {
  }

  /** Denying takes a pending grant; the answer is the same if there is none. */
  lemma {:induction false} DenyHit(st: Store, now: Time, ttl: Time, token: Token, did: DeviceId, sid: SessionId,
                                   env: seq<Choice>)
    requires Constraints(st) && |env| == 4 && GetsIn(st, now, token, sid)
    ensures var slid := SlidStore(st, sid, now);
      Alone(st, now, ttl, PortalRead(token, Deny(did)), env) ==
        Ending(if did in st.devices then DecidedStore(slid, did, st.devices[did].(status := Denied)) else slid,
               Finished(Decided), {})
  {
    hide Alone, Perform, Exec, Answer, Constraints, Slid, DecidedStore;
    var row, slid := st.sessions[sid], SlidStore(st, sid, now);
    Enters(st, now, ttl, token, Deny(did), sid, env);
    var act := PortalAct(sid, row, row.user.value, Deny(did));
    CookieStep(slid, now, ttl, act, env[3]);
    Denies(slid, now, did);
    Last(slid, now, ttl, act, env[3..], Do(DenyDevice(did), Finished(Decided)), Perform(slid, now, DenyDevice(did)),
         Decided);
  }

  // ---- silent sign-on (prompt=none, section 3.1.2.1 of OpenID Connect Core 1.0) ----

  // The second factor a silent code speaks for; a verified session without a
  // time counts from its creation.
  function CarriedMfa(row: Session): Option<Time> {
    if !row.mfaVerified then None else if row.mfaAt == None then Some(row.createdAt) else row.mfaAt
  }

  /**
   A silent request needs registered scopes and a living session of an active
   user who has met the second factor if one is due; the code is then for that
   user, signed in when the session was created.
   */
  lemma {:induction false} SilentSignOn(st: Store, now: Time, ttl: Time, client: ClientId, scope: string,
                                        redirectUri: nat, challenge: Option<nat>, token: Token, sid: SessionId,
                                        env: seq<Choice>)
    requires Constraints(st) && |env| == 6 && GetsIn(st, now, token, sid)
    ensures var row, slid := st.sessions[sid], SlidStore(st, sid, now);
      var user := st.users[row.user.value];
      var req := AuthReq(row.user.value, client, SplitScopes(scope), redirectUri, challenge, row.createdAt, env[0].id);
      Alone(st, now, ttl, SilentRequest(client, scope, redirectUri, challenge, token), env) ==
        if client !in st.clients || !Grantable(st.clients[client].scopes, SplitScopes(scope)) then Refusal(st)
        else if !user.active || (user.mfaEnabled && !row.mfaVerified) || !env[2].ok then Refusal(st)
        else CodeGiven(slid, now, req, CarriedMfa(row), env[5])
  {
    hide Alone, Perform, Exec, Constraints, Slid, AcceptScopes, Grantable, SplitScopes, CodeGiven;
    var row, slid := st.sessions[sid], SlidStore(st, sid, now);
    var purpose := Silent(client, SplitScopes(scope), redirectUri, challenge, env[0].id);
    var pc := SilentRequest(client, scope, redirectUri, challenge, token);
    CookieStep(st, now, ttl, pc, env[0]);
    ScopesAccepted(st, client, scope, PortalRead(token, purpose));
    DoesNothing(st, now);
    var o := Exec(st, now, ttl, pc, env[0]);
    if client !in st.clients || !Grantable(st.clients[client].scopes, SplitScopes(scope)) {
      Last(st, now, ttl, pc, env, o, st, Rejected);
    } else {
      Next(st, now, ttl, pc, env, o, st);
      Enters(st, now, ttl, token, purpose, sid, env[1..]);
      assert env[1..][3..] == env[4..];
      SilentActs(slid, now, ttl, sid, row, purpose, env[4..]);
    }
  }

  lemma {:induction false} SilentActs(st: Store, now: Time, ttl: Time, sid: SessionId, row: Session, purpose: Purpose,
                                      env: seq<Choice>)
    requires |env| == 2 && row.user.Some? && purpose.Silent?
    ensures var req := AuthReq(row.user.value, purpose.client, purpose.scopes, purpose.redirect, purpose.challenge,
                               row.createdAt, purpose.ticket);
      Alone(st, now, ttl, PortalAct(sid, row, row.user.value, purpose), env)
        == CodeGiven(st, now, req, CarriedMfa(row), env[1])
  {
    hide Alone, Perform, Exec, CodeGiven;
    var req := AuthReq(row.user.value, purpose.client, purpose.scopes, purpose.redirect, purpose.challenge,
                       row.createdAt, purpose.ticket);
    var pc := PortalAct(sid, row, row.user.value, purpose);
    CookieStep(st, now, ttl, pc, env[0]);
    DoesNothing(st, now);
    Next(st, now, ttl, pc, env, Exec(st, now, ttl, pc, env[0]), st);
    CodeIsGiven(st, now, ttl, req, CarriedMfa(row), None, env[1..]);
  }
}
