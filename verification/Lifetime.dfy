/**
 How long a session is honoured: the sliding window and the absolute cap, and
 exactly which sequences of hits and refreshes they let through.
 */
module Lifetime {
  import opened Model
  import opened Stores
  import opened Protocol
  import opened Databases
  import opened Handlers
  import opened Outcomes
  import opened Exchanges
  import opened SignIns

  // A session created at c with expiry exp meets an event at t. An honoured
  // event slides the expiry; a refused one leaves it alone.
  predicate Honoured(c: Time, exp: Time, t: Time) {
    t <= exp && t <= c + ABSOLUTE_TTL
  }

  function Slide(c: Time, exp: Time, window: Time, t: Time): Time {
    if Honoured(c, exp, t) then CapByAbsolute(t + window, c) else exp
  }

  // Which of the events at `times` are honoured.
  function Verdicts(c: Time, exp: Time, window: Time, times: seq<Time>): (vs: seq<bool>)
    ensures |vs| == |times|
    decreases |times|
  {
    if times == [] then []
    else [Honoured(c, exp, times[0])] + Verdicts(c, Slide(c, exp, window, times[0]), window, times[1..])
  }

  // Time since the event before; the first gap is counted from `from`.
  function Gap(from: Time, times: seq<Time>, j: nat): Time
    requires j < |times|
  {
    times[j] - if j == 0 then from else times[j - 1]
  }

  predicate Ordered(from: Time, times: seq<Time>) {
    forall j: nat | j < |times| :: Gap(from, times, j) >= 0
  }

  // Every gap up to event i is within the window.
  predicate Gapless(from: Time, window: Time, times: seq<Time>, i: nat)
    requires i < |times|
  {
    forall j: nat | j <= i :: Gap(from, times, j) <= window
  }

  lemma {:induction false} GapOfRest(from: Time, times: seq<Time>)
    requires times != []
    ensures forall j: nat | j < |times| - 1 :: Gap(times[0], times[1..], j) == Gap(from, times, j + 1)
  {
  }

  // The events from `last` on: exp is the expiry the honoured event at `last` left.
  lemma {:induction false} VerdictsFrom(c: Time, last: Time, window: Time, times: seq<Time>, i: nat)
    requires Ordered(last, times) && i < |times|
    ensures Verdicts(c, CapByAbsolute(last + window, c), window, times)[i]
      <==> Gapless(last, window, times, i) && times[i] <= c + ABSOLUTE_TTL
    decreases |times|
  {
    var exp := CapByAbsolute(last + window, c);
    var t, rest := times[0], times[1..];
    assert Gap(last, times, 0) == t - last;
    GapOfRest(last, times);
    if i > 0 {
      LaterIsLarger(last, times, i);
      if Honoured(c, exp, t) {
        VerdictsFrom(c, t, window, rest, i - 1);
        GaplessTail(last, window, times, i);
      } else {
        RefusedForGood(c, exp, last, window, times, i);
      }
    }
  }

  lemma {:induction false} LaterIsLarger(from: Time, times: seq<Time>, i: nat)
    requires Ordered(from, times) && i < |times|
    ensures times[0] <= times[i]
    decreases i
  {
    if i > 0 {
      LaterIsLarger(from, times, i - 1);
      assert Gap(from, times, i) >= 0;
    }
  }

  lemma {:induction false} GaplessTail(last: Time, window: Time, times: seq<Time>, i: nat)
    requires 0 < i < |times| && Gap(last, times, 0) <= window
    ensures Gapless(last, window, times, i) <==> Gapless(times[0], window, times[1..], i - 1)
  {
    GapOfRest(last, times);
    if Gapless(times[0], window, times[1..], i - 1) {
      forall j: nat | j <= i ensures Gap(last, times, j) <= window {
        if j > 0 { assert Gap(times[0], times[1..], j - 1) <= window; }
      }
    }
  }

  // Once an event is refused, so is everything after it.
  lemma {:induction false} RefusedForGood(c: Time, exp: Time, last: Time, window: Time, times: seq<Time>, i: nat)
    requires i < |times| && Ordered(last, times) && !Honoured(c, exp, times[0])
    ensures !Verdicts(c, exp, window, times)[i]
    decreases i
  {
    if i > 0 {
      GapOfRest(last, times);
      assert Gap(last, times, 1) >= 0;
      RefusedForGood(c, exp, times[0], window, times[1..], i - 1);
    }
  }

  /**
   A portal session is honoured exactly while every gap between hits is at
   most 15 minutes and the hit is at most four hours after creation. The first
   gap counts from the clock reading before the insert, `made`.
   */
  lemma {:induction false} PortalHitsHonoured(c: Time, made: Time, times: seq<Time>, i: nat)
    requires made <= c && Ordered(made, times) && i < |times|
    ensures Verdicts(c, made + PORTAL_TTL, PORTAL_TTL, times)[i]
      <==> Gapless(made, PORTAL_TTL, times, i) && times[i] <= c + ABSOLUTE_TTL
  {
    VerdictsFrom(c, made, PORTAL_TTL, times, i);
  }

  /** The same for a chain of refreshes, with gaps of at most one hour. */
  lemma {:induction false} RefreshesHonoured(c: Time, made: Time, times: seq<Time>, i: nat)
    requires made <= c && Ordered(made, times) && i < |times|
    ensures Verdicts(c, made + REFRESH_TTL, REFRESH_TTL, times)[i]
      <==> Gapless(made, REFRESH_TTL, times, i) && times[i] <= c + ABSOLUTE_TTL
  {
    VerdictsFrom(c, made, REFRESH_TTL, times, i);
  }

  // ---- the handlers are such events ----

  // A visit to the portal, alone: honoured iff live, and then it slides.
  lemma {:induction false} VisitSlides(st: Store, now: Time, ttl: Time, token: Token, env: seq<Choice>)
    requires |env| == 4 && FindByAccess(st, token).Some?
    requires var row := st.sessions[FindByAccess(st, token).value]; row.user.Some? && row.user.value in st.users
    ensures var sid := FindByAccess(st, token).value; var row := st.sessions[sid];
      var (st', pc) := Solo(st, now, ttl, PortalRead(token, Visit), env);
      && (pc == Finished(Page) <==> Honoured(row.createdAt, row.accessExp, now))
      && st' == WithSession(st, sid, row.(accessExp := Slide(row.createdAt, row.accessExp, PORTAL_TTL, now)))
  {
    hide Solo, Perform, Exec;
    var sid := FindByAccess(st, token).value;
    var row := st.sessions[sid];
    ReadsFirst(st, now, ttl, token, Visit, env[0]);
    if Honoured(row.createdAt, row.accessExp, now) {
      VisitAlone(st, now, ttl, token, sid, row, env);
    } else {
      SoloEnds(st, now, ttl, PortalRead(token, Visit), Rejected, env);
      assert WithSession(st, sid, row) == st;
    }
  }

  lemma VisitSteps(st: Store, now: Time, ttl: Time, sid: SessionId, row: Session, uid: UserId, ch: Choice)
    ensures Exec(st, now, ttl, PortalSlide(sid, row, uid, Visit, now), ch) == ExecPortalSlide(sid, row, uid, Visit, now)
    ensures Exec(st, now, ttl, PortalAct(sid, row, uid, Visit), ch) == Go(Finished(Page))
  {
  }

  lemma {:induction false} VisitAlone(st: Store, now: Time, ttl: Time, token: Token, sid: SessionId, row: Session,
                                      env: seq<Choice>)
    requires |env| == 4 && FindByAccess(st, token) == Some(sid) && st.sessions[sid] == row && SessionTokenLive(row, now)
    requires row.user.Some? && row.user.value in st.users
    ensures Solo(st, now, ttl, PortalRead(token, Visit), env)
      == (WithSession(st, sid, row.(accessExp := CapByAbsolute(now + PORTAL_TTL, row.createdAt))), Finished(Page))
  {
    hide Solo, Perform, Exec;
    var uid := row.user.value;
    var exp := CapByAbsolute(now + PORTAL_TTL, row.createdAt);
    ReadsFirst(st, now, ttl, token, Visit, env[0]);
    SoloNext(st, now, ttl, PortalRead(token, Visit), env);
    ReadsUser(st, now, ttl, sid, row, Visit, env[1]);
    SoloNext(st, now, ttl, PortalUser(sid, row, Visit), env[1..]);
    VisitSteps(st, now, ttl, sid, row, uid, env[2]);
    SoloNext(st, now, ttl, PortalSlide(sid, row, uid, Visit, now), env[1..][1..]);
    ExtendMoves(st, now, sid, exp);
    var st' := Perform(st, now, Extend(sid, exp));
    VisitSteps(st', now, ttl, sid, row, uid, env[3]);
    SoloEnds(st', now, ttl, PortalAct(sid, row, uid, Visit), Page, env[1..][1..][1..]);
  }

  lemma ExtendMoves(st: Store, now: Time, sid: SessionId, exp: Time)
    requires sid in st.sessions
    ensures Perform(st, now, Extend(sid, exp)) == WithSession(st, sid, st.sessions[sid].(accessExp := exp))
  {
  }

  // A refresh by the owner with the current token, alone: honoured iff live,
  // and then the new expiries are the slid ones.
  lemma {:induction false} RefreshSlides(st: Store, now: Time, ttl: Time, client: ClientId, token: Token,
                                         sid: SessionId, env: seq<Choice>)
    requires |env| == 3 && FindByRefresh(st, token) == Some(sid) && TokensUnused(st, env[2].t1, env[2].t2, Some(sid))
    requires var row := st.sessions[sid]; row.client == client && row.user.Some? && row.user.value in st.users
    ensures var row := st.sessions[sid]; var (st', pc) := Solo(st, now, ttl, RefreshLookup(client, token), env);
      if Honoured(row.createdAt, row.refreshExp, now) then
        && pc == Finished(Refreshed(sid))
        && st' == WithSession(st, sid, row.(
                    access := env[2].t1, refresh := env[2].t2,
                    accessExp := CapByAbsolute(now + ACCESS_TTL, row.createdAt),
                    refreshExp := Slide(row.createdAt, row.refreshExp, REFRESH_TTL, now))).(retired := st'.retired)
      else pc == Finished(Rejected) && st' == st
  {
    hide Solo, Perform, TokensUnused;
    var row := st.sessions[sid];
    if Honoured(row.createdAt, row.refreshExp, now) {
      SoloNext(st, now, ttl, RefreshLookup(client, token), env);
      SoloNext(st, now, ttl, RefreshUser(client, token, sid, row, now), env[1..]);
      assert env[1..][1..] == env[2..];
      RotationIsDone(st, now, token, sid, row, env[2]);
      SoloEnds(st, now, ttl, RefreshRotate(client, token, sid, row, now), Refreshed(sid), env[2..]);
    } else {
      SoloEnds(st, now, ttl, RefreshLookup(client, token), Rejected, env);
    }
  }

  lemma RotationIsDone(st: Store, now: Time, token: Token, sid: SessionId, row: Session, ch: Choice)
    requires sid in st.sessions && st.sessions[sid] == row && row.refresh == token
      && TokensUnused(st, ch.t1, ch.t2, Some(sid))
    ensures var w := RotateWrite(token, sid, row, now, ch); var st' := Perform(st, now, w);
      && Answer(st, w) == Done
      && st' == WithSession(st, sid, row.(access := ch.t1, refresh := ch.t2,
                                          accessExp := CapByAbsolute(now + ACCESS_TTL, row.createdAt),
                                          refreshExp := CapByAbsolute(now + REFRESH_TTL, row.createdAt)))
             .(retired := st'.retired)
  {
    hide TokensUnused, CapByAbsolute;
  }

  // Which of the visits at `times`, each a whole request, end on a page.
  ghost function Visits(st: Store, ttl: Time, token: Token, times: seq<Time>, env: seq<Choice>): (vs: seq<bool>)
    ensures |vs| == |times|
    decreases |times|
  {
    if times == [] then []
    else
      var (st', pc) := Solo(st, times[0], ttl, PortalRead(token, Visit), env);
      [pc == Finished(Page)] + Visits(st', ttl, token, times[1..], env)
  }

  // The session behind the cookie, and its user, are in the tables.
  ghost predicate SignedIn(st: Store, token: Token, sid: SessionId) {
    && Constraints(st) && sid in st.sessions && st.sessions[sid].access == token
    && st.sessions[sid].user.Some? && st.sessions[sid].user.value in st.users
  }

  lemma {:induction false} VisitsAreVerdicts(st: Store, ttl: Time, token: Token, sid: SessionId, times: seq<Time>,
                                             env: seq<Choice>)
    requires |env| == 4 && SignedIn(st, token, sid)
    ensures Visits(st, ttl, token, times, env)
      == Verdicts(st.sessions[sid].createdAt, st.sessions[sid].accessExp, PORTAL_TTL, times)
    decreases |times|
  {
    hide Solo, Slide;
    if times != [] {
      var row := st.sessions[sid];
      assert FindByAccess(st, token) == Some(sid);
      VisitSlides(st, times[0], ttl, token, env);
      var (st', _) := Solo(st, times[0], ttl, PortalRead(token, Visit), env);
      assert st'.sessions[sid] == row.(accessExp := Slide(row.createdAt, row.accessExp, PORTAL_TTL, times[0]));
      VisitsAreVerdicts(st', ttl, token, sid, times[1..], env);
    }
  }

  /**
   From the moment a portal session is created, the visits honoured are
   exactly those with no gap over 15 minutes before them and at most four
   hours after creation.
   */
  lemma {:induction false} VisitsHonoured(st: Store, ttl: Time, token: Token, sid: SessionId, made: Time,
                                          times: seq<Time>,
                                          env: seq<Choice>, i: nat)
    requires |env| == 4 && SignedIn(st, token, sid) && i < |times| && Ordered(made, times)
    requires var row := st.sessions[sid]; made <= row.createdAt && row.accessExp == made + PORTAL_TTL
    ensures var c := st.sessions[sid].createdAt;
      Visits(st, ttl, token, times, env)[i] <==> Gapless(made, PORTAL_TTL, times, i) && times[i] <= c + ABSOLUTE_TTL
  {
    VisitsAreVerdicts(st, ttl, token, sid, times, env);
    PortalHitsHonoured(st.sessions[sid].createdAt, made, times, i);
  }

  // Which of the refreshes at `times`, each a whole request with the token the
  // one before it handed out, are answered with new tokens. draws[i] is what
  // the i-th generates.
  ghost function Refreshes(st: Store, ttl: Time, client: ClientId, token: Token, times: seq<Time>, draws: seq<Choice>)
    : (vs: seq<bool>)
    requires |draws| == |times|
    ensures |vs| == |times|
    decreases |times|
  {
    if times == [] then []
    else
      var (st', pc) := Solo(st, times[0], ttl, RefreshLookup(client, token), [draws[0], draws[0], draws[0]]);
      var refreshed := pc.Finished? && pc.out.Refreshed?;
      [refreshed] + Refreshes(st', ttl, client, if refreshed then draws[0].t2 else token, times[1..], draws[1..])
  }

  // The client's session, with its user, and no generated token in use by another.
  ghost predicate Owned(st: Store, client: ClientId, token: Token, sid: SessionId) {
    && Constraints(st) && sid in st.sessions && st.sessions[sid].refresh == token && st.sessions[sid].client == client
    && st.sessions[sid].user.Some? && st.sessions[sid].user.value in st.users
  }

  ghost predicate Unused(st: Store, sid: SessionId, draws: seq<Choice>) {
    forall d | d in draws :: TokensUnused(st, d.t1, d.t2, Some(sid))
  }

  lemma {:induction false} RefreshKeepsOwner(st: Store, st': Store, client: ClientId, token: Token, sid: SessionId,
                                             d: Choice,
                                             draws: seq<Choice>, row: Session)
    requires Owned(st, client, token, sid) && TokensUnused(st, d.t1, d.t2, Some(sid)) && Unused(st, sid, draws)
    requires st' == WithSession(st, sid, row).(retired := st'.retired)
    requires row.access == d.t1 && row.refresh == d.t2 && row.client == client && row.user == st.sessions[sid].user
    requires forall t | t in st'.retired :: st'.retired[t] in st'.sessions
    ensures Owned(st', client, d.t2, sid) && Unused(st', sid, draws)
  {
  }

  lemma RetiredStayOwned(st: Store, now: Time, w: Write)
    requires Constraints(st) && w.Rotate?
    ensures forall t | t in Perform(st, now, w).retired ::
      Perform(st, now, w).retired[t] in Perform(st, now, w).sessions
  {
  }

  lemma {:induction false} RefreshesAreVerdicts(st: Store, ttl: Time, client: ClientId, token: Token, sid: SessionId,
                                                times: seq<Time>, draws: seq<Choice>)
    requires |draws| == |times| && Owned(st, client, token, sid) && Unused(st, sid, draws)
    ensures Refreshes(st, ttl, client, token, times, draws)
      == Verdicts(st.sessions[sid].createdAt, st.sessions[sid].refreshExp, REFRESH_TTL, times)
    decreases |times|
  {
    hide Solo, Perform, TokensUnused, CapByAbsolute;
    if times != [] {
      var row, d := st.sessions[sid], draws[0];
      assert FindByRefresh(st, token) == Some(sid);
      assert d in draws;
      RefreshSlides(st, times[0], ttl, client, token, sid, [d, d, d]);
      var (st', pc) := Solo(st, times[0], ttl, RefreshLookup(client, token), [d, d, d]);
      if Honoured(row.createdAt, row.refreshExp, times[0]) {
        RefreshIsRotation(st, times[0], ttl, client, token, sid, d);
        RetiredStayOwned(st, times[0], RotateWrite(token, sid, row, times[0], d));
        RefreshKeepsOwner(st, st', client, token, sid, d, draws[1..], st'.sessions[sid]);
        RefreshesAreVerdicts(st', ttl, client, d.t2, sid, times[1..], draws[1..]);
      } else {
        RefreshesAreVerdicts(st, ttl, client, token, sid, times[1..], draws[1..]);
      }
    }
  }

  lemma {:induction false} RefreshIsRotation(st: Store, now: Time, ttl: Time, client: ClientId, token: Token,
                                             sid: SessionId, d: Choice)
    requires FindByRefresh(st, token) == Some(sid) && TokensUnused(st, d.t1, d.t2, Some(sid))
    requires var row := st.sessions[sid];
      row.client == client && row.user.Some? && row.user.value in st.users
      && Honoured(row.createdAt, row.refreshExp, now)
    ensures Solo(st, now, ttl, RefreshLookup(client, token), [d, d, d]).0
      == Perform(st, now, RotateWrite(token, sid, st.sessions[sid], now, d))
  {
    hide Solo, Perform, TokensUnused, ExecCode, ExecDevice, ExecClient, ExecAuthorize, ExecPortalLogin, ExecPortal;
    var row, env := st.sessions[sid], [d, d, d];
    SoloNext(st, now, ttl, RefreshLookup(client, token), env);
    SoloNext(st, now, ttl, RefreshUser(client, token, sid, row, now), env[1..]);
    assert env[1..][1..] == env[2..];
    RotationIsDone(st, now, token, sid, row, d);
    SoloEnds(st, now, ttl, RefreshRotate(client, token, sid, row, now), Refreshed(sid), env[2..]);
  }

  /**
   From the moment a session is minted, the refreshes that get new tokens are
   exactly those with no gap over one hour before them and at most four hours
   after creation.
   */
  lemma {:induction false} RefreshChainHonoured(st: Store, ttl: Time, client: ClientId, token: Token, sid: SessionId,
                                                made: Time,
                                                times: seq<Time>, draws: seq<Choice>, i: nat)
    requires |draws| == |times| && Owned(st, client, token, sid) && Unused(st, sid, draws) && i < |times|
    requires var row := st.sessions[sid];
      made <= row.createdAt && row.refreshExp == made + REFRESH_TTL && Ordered(made, times)
    ensures var c := st.sessions[sid].createdAt;
      var honoured := Gapless(made, REFRESH_TTL, times, i) && times[i] <= c + ABSOLUTE_TTL;
      Refreshes(st, ttl, client, token, times, draws)[i] <==> honoured
  {
    RefreshesAreVerdicts(st, ttl, client, token, sid, times, draws);
    RefreshesHonoured(st.sessions[sid].createdAt, made, times, i);
  }

  // ---- from the request that creates the session on ----

  // No session has a token that is going to be generated.
  ghost predicate NeverSeen(st: Store, draws: seq<Choice>) {
    forall d, sid | d in draws && sid in st.sessions ::
      st.sessions[sid].access != d.t1 && st.sessions[sid].refresh != d.t2
  }

  // Every refresh up to i comes within an hour of the one before it, and the
  // last of them within four hours of `from`.
  ghost predicate InTime(from: Time, times: seq<Time>, i: nat)
    requires i < |times|
  {
    times[i] <= from + 240 * MINUTE && forall j: nat | j <= i :: Gap(from, times, j) <= 60 * MINUTE
  }

  lemma {:induction false} SeatedIsOwned(st: Store, ch: Choice, row: Session, draws: seq<Choice>)
    requires Constraints(st) && CanSeat(st, ch, row.user, row.client) && NeverSeen(st, draws)
    requires row.access == ch.t1 && row.refresh == ch.t2 && row.user.Some?
    ensures var st' := st.(sessions := st.sessions[ch.id := row]);
      Owned(st', row.client, ch.t2, ch.id) && Unused(st', ch.id, draws)
  {
    SeatingKeepsConstraints(st, ch, row);
    hide Constraints;
  }

  // From the insert of a user's bearer row on.
  lemma {:induction false} BearerIsRefreshedFor(st: Store, now: Time, ttl: Time, ch: Choice, row: Session,
                                                times: seq<Time>, draws: seq<Choice>, i: nat)
    requires Constraints(st) && CanSeat(st, ch, row.user, row.client) && NeverSeen(st, draws)
    requires row.access == ch.t1 && row.refresh == ch.t2 && row.user.Some?
    requires row.createdAt == now && row.refreshExp == now + 60 * MINUTE
    requires |draws| == |times| && i < |times| && Ordered(now, times)
    ensures Refreshes(st.(sessions := st.sessions[ch.id := row]), ttl, row.client, ch.t2, times, draws)[i]
      <==> InTime(now, times, i)
  {
    SeatedIsOwned(st, ch, row, draws);
    hide Constraints, CanSeat, NeverSeen, Refreshes, Owned, Unused, Ordered;
    var st' := st.(sessions := st.sessions[ch.id := row]);
    RefreshChainHonoured(st', ttl, row.client, ch.t2, ch.id, now, times, draws, i);
  }

  lemma UsedKeepsConstraints(st: Store, gid: GrantId)
    requires Constraints(st) && gid in st.grants
    ensures Constraints(Used(st, gid))
  {
  }

  lemma RedeemedKeepsConstraints(st: Store, did: DeviceId)
    requires Constraints(st) && did in st.devices
    ensures Constraints(RedeemedDevice(st, did))
  {
  }

  /**
   From the exchange of a code on: of any refreshes, each with the token handed
   out last, those get new tokens that come within an hour of the one before
   and within four hours of the exchange.
   */
  lemma {:induction false} CodeIsRefreshedFor(st: Store, now: Time, ttl: Time, client: ClientId, code: Token,
                                              redirectUri: nat, verifier: nat, env: seq<Choice>, gid: GrantId,
                                              times: seq<Time>, draws: seq<Choice>, i: nat)
    requires Constraints(st) && |env| == 4 && Redeemable(st, now, client, code, redirectUri, verifier, gid)
    requires CanSeat(st, env[3], Some(st.grants[gid].user), client) && NeverSeen(st, draws)
    requires |draws| == |times| && i < |times| && Ordered(now, times)
    ensures var (st', pc) := Solo(st, now, ttl, CodeLookup(client, code, redirectUri, verifier), env);
      && pc == Finished(Issued(env[3].id))
      && (Refreshes(st', ttl, client, env[3].t2, times, draws)[i] <==> InTime(now, times, i))
  {
    var row, used := CodeSession(st.grants[gid], now, env[3]), Used(st, gid);
    UsedKeepsConstraints(st, gid);
    assert row.client == client && used.sessions == st.sessions;
    assert CanSeat(used, env[3], row.user, client) && NeverSeen(used, draws);
    hide Solo, Constraints, CanSeat, NeverSeen, Redeemable, Refreshes, InTime, Ordered;
    GoodCode(st, now, ttl, client, code, redirectUri, verifier, env, gid);
    BearerIsRefreshedFor(used, now, ttl, env[3], row, times, draws, i);
  }

  /** The same from the poll that redeems an approved device code on. */
  lemma {:induction false} DeviceIsRefreshedFor(st: Store, now: Time, ttl: Time, client: ClientId, code: Token,
                                                did: DeviceId, env: seq<Choice>, times: seq<Time>,
                                                draws: seq<Choice>, i: nat)
    requires Polled(st, now, client, code, did) && st.devices[did].status == Approved && |env| == 4
    requires var d := st.devices[did];
      d.user.Some? && d.user.value in st.users && st.users[d.user.value].active
      && CanSeat(st, env[3], d.user, client) && NeverSeen(st, draws)
    requires |draws| == |times| && i < |times| && Ordered(now, times)
    ensures var (st', pc) := Solo(st, now, ttl, DeviceLookup(client, code), env);
      && pc == Finished(Issued(env[3].id))
      && (Refreshes(st', ttl, client, env[3].t2, times, draws)[i] <==> InTime(now, times, i))
  {
    var row, spent := DeviceSession(st.devices[did], now, env[3]), RedeemedDevice(st, did);
    RedeemedKeepsConstraints(st, did);
    assert row.client == client && spent.sessions == st.sessions;
    assert CanSeat(spent, env[3], row.user, client) && NeverSeen(spent, draws);
    hide Solo, Constraints, CanSeat, NeverSeen, Refreshes, InTime, Ordered;
    ApprovedPoll(st, now, ttl, client, code, did, env);
    BearerIsRefreshedFor(spent, now, ttl, env[3], row, times, draws, i);
  }

  /** A client-credentials session has no user, and its refresh token is never good for anything. */
  lemma {:induction false} MachinesNeverRefresh(st: Store, now: Time, later: Time, ttl: Time, client: ClientId,
                                                scope: string, env: seq<Choice>, draws: seq<Choice>)
    requires Constraints(st) && |env| == 2 && |draws| == 3 && now <= later
    requires MayActAlone(st, client, SplitScopes(scope)) && CanSeat(st, env[1], None, client)
    ensures var (st', pc) := Solo(st, now, ttl, CredsRequest(client, scope), env);
      && pc == Finished(Issued(env[1].id))
      && Solo(st', later, ttl, RefreshLookup(client, env[1].t2), draws)
         == (st', Finished(if later <= now + 60 * MINUTE then ServerError else Rejected))
  {
    var row := MachineSession(client, SplitScopes(scope), now, env[1]);
    ClientCredentials(st, now, ttl, client, scope, env);
    SeatingKeepsConstraints(st, env[1], row);
    hide Solo, Constraints, CanSeat, MayActAlone, SplitScopes;
    RefreshWithCurrent(st.(sessions := st.sessions[env[1].id := row]), later, ttl, client, env[1].t2, env[1].id, draws);
  }

  /**
   From the sign-in with the portal's password form on: of any visits with its
   cookie those are honoured that come within 15 minutes of the one before and
   within four hours of the sign-in.
   */
  lemma {:induction false} SignInIsHonouredFor(st: Store, now: Time, ttl: Time, who: UserId, env: seq<Choice>,
                                               times: seq<Time>, visit: seq<Choice>, i: nat)
    requires Constraints(st) && |env| == 2 && |visit| == 4 && i < |times| && Ordered(now, times)
    requires who in st.users && st.users[who].active && !st.users[who].mustChange && !st.users[who].mfaEnabled
    requires env[0].ok && env[1].ok && CanSeat(st, env[1], Some(who), PORTAL_CLIENT)
    ensures var end := Alone(st, now, ttl, Login(who), env);
      && end.pc == Finished(Outcome.SignedIn(env[1].id)) && end.cookies == {PortalCookie(env[1].t1)}
      && (Visits(end.st, ttl, env[1].t1, times, visit)[i] <==>
            times[i] <= now + 240 * MINUTE && forall j: nat | j <= i :: Gap(now, times, j) <= 15 * MINUTE)
  {
    var row := PortalSession(who, st.users[who], now, env[1]);
    PasswordSignIn(st, now, ttl, who, env);
    SeatingKeepsConstraints(st, env[1], row);
    hide Solo, Constraints, CanSeat, Alone, Visits;
    var st' := SeatedStore(st, who, st.users[who], now, env[1]);
    assert SignedIn(st', env[1].t1, env[1].id);
    VisitsHonoured(st', ttl, env[1].t1, env[1].id, now, times, visit, i);
  }

  // DeleteExpiredSessions goes by the refresh expiry, which visits do not
  // slide: it would remove a portal session, in use or not, exactly when it is
  // more than fifteen minutes old.
  lemma ReaperIgnoresVisits(st: Store, now: Time, sid: SessionId)
    requires sid in st.sessions && st.sessions[sid].refreshExp == st.sessions[sid].createdAt + PORTAL_TTL
    ensures sid in Perform(st, now, ReapSessions).sessions <==> now <= st.sessions[sid].createdAt + PORTAL_TTL
  {
  }
}
