/**
 The token endpoint's handlers as the server runs them: straight-line code
 over the database, in the order of the source.

 Each is proved to do exactly what the protocol machine does when the request
 runs with no other request in between (Solo), so the machine's steps, whose
 interleavings the theorems are about, are the handlers' own store calls.
 env[i] is what the environment supplies at the i-th store call.
 */
module Handlers {
  import opened Model
  import opened Stores
  import opened Protocol
  import opened Databases
  import Reuse

  // A request alone, for as many store calls as env covers.
  ghost function Solo(st: Store, now: Time, ttl: Time, pc: Pc, env: seq<Choice>): (Store, Pc)
    decreases |env|
  {
    if env == [] then (st, pc)
    else
      var o := Exec(st, now, ttl, pc, env[0]);
      Solo(Perform(st, now, o.write), now, ttl, o.next, env[1..])
  }

  lemma {:induction false} SoloOver(st: Store, now: Time, ttl: Time, out: Outcome, env: seq<Choice>)
    ensures Solo(st, now, ttl, Finished(out), env) == (st, Finished(out))
    decreases |env|
  {
    if env != [] {
      assert Exec(st, now, ttl, Finished(out), env[0]) == Go(Finished(out));
      SoloOver(st, now, ttl, out, env[1..]);
    }
  }

  // A call after which the request goes on.
  lemma {:induction false} SoloNext(st: Store, now: Time, ttl: Time, pc: Pc, env: seq<Choice>)
    requires env != []
    ensures var o := Exec(st, now, ttl, pc, env[0]);
      Solo(st, now, ttl, pc, env) == Solo(Perform(st, now, o.write), now, ttl, o.next, env[1..])
    ensures var o := Exec(st, now, ttl, pc, env[0]); o.write == Nothing ==> Perform(st, now, o.write) == st
  {
    hide Exec, Perform;
    NothingHappens(st, now);
  }

  lemma NothingHappens(st: Store, now: Time)
    ensures Perform(st, now, Nothing) == st
  {
  }

  // The last call of a request.
  lemma {:induction false} SoloEnds(st: Store, now: Time, ttl: Time, pc: Pc, out: Outcome, env: seq<Choice>)
    requires env != [] && Exec(st, now, ttl, pc, env[0]).next == Finished(out)
    ensures Solo(st, now, ttl, pc, env) == (Perform(st, now, Exec(st, now, ttl, pc, env[0]).write), Finished(out))
    ensures var o := Exec(st, now, ttl, pc, env[0]); o.write == Nothing ==> Perform(st, now, o.write) == st
  {
    hide Exec, Perform;
    NothingHappens(st, now);
    var o := Exec(st, now, ttl, pc, env[0]);
    SoloOver(Perform(st, now, o.write), now, ttl, out, env[1..]);
  }

  /** Solo is a run of the machine in which only this request moves. */
  lemma {:induction false} SoloIsARun(s: System, r: ReqId, env: seq<Choice>)
    requires r in s.reqs && Reuse.AllFresh(s.h, env)
    ensures var s' := Run(s, Reuse.StepsOf(r, env));
      r in s'.reqs && (s'.st, s'.reqs[r]) == Solo(s.st, s.now, s.ttl, s.reqs[r], env) && s'.now == s.now
    decreases |env|
  {
    hide Exec, Perform, Record, FreshChoice;
    if env != [] {
      var acts := Reuse.StepsOf(r, env);
      assert acts[1..] == Reuse.StepsOf(r, env[1..]);
      if s.reqs[r].Finished? {
        assert Apply(s, acts[0]) == s;
        assert Reuse.AllFresh(s.h, env[1..]);
        SoloIsARun(s, r, env[1..]);
        SoloOver(s.st, s.now, s.ttl, s.reqs[r].out, env[1..]);
        SoloOver(s.st, s.now, s.ttl, s.reqs[r].out, env);
      } else {
        Reuse.FreshTail(s, r, env);
        SoloIsARun(Apply(s, acts[0]), r, env[1..]);
      }
    }
  }

  lemma ReadsFirst(st: Store, now: Time, ttl: Time, token: Token, purpose: Purpose, ch: Choice)
    ensures Exec(st, now, ttl, PortalRead(token, purpose), ch) == ExecPortalRead(st, now, token, purpose)
  {
    hide ExecPortalRead;
  }

  lemma ReadsUser(st: Store, now: Time, ttl: Time, sid: SessionId, row: Session, purpose: Purpose, ch: Choice)
    ensures Exec(st, now, ttl, PortalUser(sid, row, purpose), ch) == ExecPortalUser(st, now, sid, row, purpose, ch)
  {
    hide ExecPortalUser;
  }

  lemma CodeDispatch(st: Store, now: Time, ttl: Time, pc: Pc, ch: Choice)
    requires pc.CodeLookup? || pc.CodeUse? || pc.CodeUser? || pc.CodeMint?
    ensures Exec(st, now, ttl, pc, ch) == ExecCode(st, now, pc, ch)
  {
    hide ExecCode;
  }

  lemma {:induction false} DeviceDispatch(st: Store, now: Time, ttl: Time, client: ClientId, scope: string,
                                          scopes: Scopes,
                                          ticket: TicketId, ch: Choice)
    ensures Exec(st, now, ttl, DeviceRequest(client, scope), ch) == ExecDeviceRequest(st, now, client, scope, ch)
    ensures Exec(st, now, ttl, DeviceCreate(client, scopes, ticket, now), ch)
      == ExecDeviceCreate(st, client, scopes, ticket, now, ch)
  {
    hide ExecDeviceRequest, ExecDeviceCreate;
  }

  lemma DecideDispatch(st: Store, now: Time, ttl: Time, sid: SessionId, row: Session, uid: UserId, did: DeviceId,
                       ch: Choice)
    ensures Exec(st, now, ttl, PortalAct(sid, row, uid, Approve(did)), ch)
      == ExecPortalAct(st, now, ttl, sid, row, uid, Approve(did), ch)
    ensures Exec(st, now, ttl, PortalAct(sid, row, uid, Deny(did)), ch)
      == ExecPortalAct(st, now, ttl, sid, row, uid, Deny(did), ch)
  {
    hide ExecPortalAct;
  }

  lemma SeatDispatch(st: Store, now: Time, ttl: Time, req: AuthReq, user: User, passed: Option<Time>, ch: Choice)
    ensures Exec(st, now, ttl, Seat(req, user, passed, now), ch) == ExecSeat(st, now, req, user, passed, now, ch)
    ensures Exec(st, now, ttl, IssueCode(req, None, passed, now), ch) == ExecIssueCode(st, req, None, passed, now, ch)
  {
    hide ExecSeat, ExecIssueCode;
  }

  lemma FactorDispatch(st: Store, now: Time, ttl: Time, req: AuthReq, exp: Time, user: User, webauthn: bool, ch: Choice)
    ensures Exec(st, now, ttl, AuthMfa(req, exp, webauthn), ch) == ExecAuthMfa(st, req, webauthn)
    ensures Exec(st, now, ttl, AuthFactor(req, user, webauthn), ch) == ExecAuthFactor(now, req, user, webauthn, ch)
    ensures Exec(st, now, ttl, AuthRecord(req, user, now), ch) == ExecAuthRecord(req, user, now, ch)
    ensures Exec(st, now, ttl, AuthClient(req, user, now), ch) == ExecAuthClient(st, now, req, user, now)
  {
    hide ExecAuthMfa, ExecAuthFactor, ExecAuthRecord, ExecAuthClient;
  }

  class Server {
    const db: Database
    const ttl: Time

    constructor (db: Database, ttl: Time)
      ensures this.db == db && this.ttl == ttl
    {
      this.db, this.ttl := db, ttl;
    }

    method RevokeOnRefreshReuse(now: Time, client: ClientId, token: Token,
                                ghost env: seq<Choice>) returns (out: Outcome)
      requires db.Valid() && |env| >= 2
      modifies db
      ensures db.Valid()
      ensures (db.View(), Finished(out)) == Solo(old(db.View()), now, ttl, ReuseLookup(client, token), env)
    {
      hide Constraints, Perform, Solo;
      ghost var st := db.View();
      var found := db.GetSessionByRetiredRefreshToken(token);
      if found.None? || db.sessions[found.value].client != client {
        SoloEnds(st, now, ttl, ReuseLookup(client, token), Rejected, env);
        return Rejected;
      }
      SoloNext(st, now, ttl, ReuseLookup(client, token), env);
      db.DeleteSession(found.value, now);
      SoloEnds(st, now, ttl, ReuseDelete(client, token, found.value), FamilyRevoked(found.value), env[1..]);
      out := FamilyRevoked(found.value);
    }

    /**
     * The rest of a refresh, from the guarded update on. A request alone always finds the row it has just read; one
     * whose row was rotated in between gets no row and goes the way of a replay.
     */
    method RotateAndAnswer(now: Time, client: ClientId, token: Token, sid: SessionId, row: Session, env: seq<Choice>)
      returns (out: Outcome)
      requires db.Valid() && |env| == 3
      modifies db
      ensures db.Valid()
      ensures (db.View(), Finished(out))
        == Solo(old(db.View()), now, ttl, RefreshRotate(client, token, sid, row, now), env)
    {
      hide Constraints, Perform, Solo;
      ghost var st := db.View();
      var rotated := db.RotateRefreshToken(sid, token, env[0].t1, env[0].t2,
                                           CapByAbsolute(now + ACCESS_TTL, row.createdAt),
                                           CapByAbsolute(now + REFRESH_TTL, row.createdAt), now);
      if rotated == NoRow {
        SoloNext(st, now, ttl, RefreshRotate(client, token, sid, row, now), env);
        out := RevokeOnRefreshReuse(now, client, token, env[1..]);
        return;
      }
      out := if rotated == Done then Refreshed(sid) else ServerError;
      SoloEnds(st, now, ttl, RefreshRotate(client, token, sid, row, now), out, env);
    }

    method HandleTokenRefresh(now: Time, client: ClientId, token: Token, env: seq<Choice>) returns (out: Outcome)
      requires db.Valid() && |env| == 5
      modifies db
      ensures db.Valid()
      ensures (db.View(), Finished(out)) == Solo(old(db.View()), now, ttl, RefreshLookup(client, token), env)
    {
      hide Constraints, Perform, Solo;
      ghost var st := db.View();
      var found := db.GetSessionByRefreshToken(token);
      if found.None? {
        SoloNext(st, now, ttl, RefreshLookup(client, token), env);
        out := RevokeOnRefreshReuse(now, client, token, env[1..]);
        return;
      }
      var sid := found.value;
      var row := db.sessions[sid];
      if row.client != client || now > row.refreshExp || now > row.createdAt + ABSOLUTE_TTL {
        SoloEnds(st, now, ttl, RefreshLookup(client, token), Rejected, env);
        return Rejected;
      }
      SoloNext(st, now, ttl, RefreshLookup(client, token), env);
      if row.user.None? || row.user.value !in db.users {
        SoloEnds(st, now, ttl, RefreshUser(client, token, sid, row, now), ServerError, env[1..]);
        return ServerError;
      }
      SoloNext(st, now, ttl, RefreshUser(client, token, sid, row, now), env[1..]);
      out := RotateAndAnswer(now, client, token, sid, row, env[2..]);
    }

    method HandleTokenAuthCode(now: Time, client: ClientId, code: Token, redirectUri: nat, verifier: nat,
                               env: seq<Choice>)
      returns (out: Outcome)
      requires db.Valid() && |env| == 4
      modifies db
      ensures db.Valid()
      ensures (db.View(), Finished(out))
        == Solo(old(db.View()), now, ttl, CodeLookup(client, code, redirectUri, verifier), env)
    {
      hide Constraints, Perform, Solo, Exec;
      ghost var st := db.View();
      ghost var pc0 := CodeLookup(client, code, redirectUri, verifier);
      CodeDispatch(st, now, ttl, pc0, env[0]);
      var found := db.GetGrantByCode(code);
      if found.None? {
        SoloEnds(st, now, ttl, pc0, Rejected, env);
        return Rejected;
      }
      var gid := found.value;
      var g := db.grants[gid];
      if g.used || g.client != client || g.redirect != redirectUri || now > g.expiresAt
        || !VerifyPkce(g.challenge, verifier)
      {
        SoloEnds(st, now, ttl, pc0, Rejected, env);
        return Rejected;
      }
      SoloNext(st, now, ttl, pc0, env);
      out := UseAndMint(now, client, gid, g, env[1..]);
    }

    // The guarded single use comes before the user and the session.
    method UseAndMint(now: Time, client: ClientId, gid: GrantId, g: Grant, env: seq<Choice>) returns (out: Outcome)
      requires db.Valid() && |env| == 3
      modifies db
      ensures db.Valid()
      ensures (db.View(), Finished(out)) == Solo(old(db.View()), now, ttl, CodeUse(client, gid, g), env)
    {
      hide Constraints, Perform, Solo, Exec, Answer;
      ghost var st := db.View();
      CodeDispatch(st, now, ttl, CodeUse(client, gid, g), env[0]);
      var marked := db.MarkGrantUsed(gid, now);
      if marked != Done {
        SoloEnds(st, now, ttl, CodeUse(client, gid, g), Rejected, env);
        return Rejected;
      }
      SoloNext(st, now, ttl, CodeUse(client, gid, g), env);
      out := MintForCode(now, client, gid, g, env[1..]);
    }

    method MintForCode(now: Time, client: ClientId, gid: GrantId, g: Grant, env: seq<Choice>) returns (out: Outcome)
      requires db.Valid() && |env| == 2
      modifies db
      ensures db.Valid()
      ensures (db.View(), Finished(out)) == Solo(old(db.View()), now, ttl, CodeUser(client, gid, g), env)
    {
      hide Constraints, Perform, Solo, Exec, Answer;
      ghost var st := db.View();
      CodeDispatch(st, now, ttl, CodeUser(client, gid, g), env[0]);
      CodeDispatch(st, now, ttl, CodeMint(client, gid, g, now), env[1]);
      if g.user !in db.users {
        SoloEnds(st, now, ttl, CodeUser(client, gid, g), ServerError, env);
        return ServerError;
      }
      SoloNext(st, now, ttl, CodeUser(client, gid, g), env);
      var drawn := env[1];
      var created := db.CreateSession(drawn.id, CodeRow(client, g, now, drawn), ByCode(gid), now);
      out := if created == Done then Issued(drawn.id) else ServerError;
      SoloEnds(st, now, ttl, CodeMint(client, gid, g, now), out, env[1..]);
    }

    method HandleTokenDeviceCode(now: Time, client: ClientId, code: Token, env: seq<Choice>) returns (out: Outcome)
      requires db.Valid() && |env| == 4
      modifies db
      ensures db.Valid()
      ensures (db.View(), Finished(out)) == Solo(old(db.View()), now, ttl, DeviceLookup(client, code), env)
    {
      hide Constraints, Perform, Solo;
      ghost var st := db.View();
      ghost var pc0 := DeviceLookup(client, code);
      var found := db.GetDeviceGrantByCode(code);
      if found.None? {
        SoloEnds(st, now, ttl, pc0, ExpiredToken, env);
        return ExpiredToken;
      }
      var did := found.value;
      var d := db.devices[did];
      if d.client != client {
        SoloEnds(st, now, ttl, pc0, Rejected, env);
        return Rejected;
      }
      if now > d.expiresAt {
        SoloEnds(st, now, ttl, pc0, ExpiredToken, env);
        return ExpiredToken;
      }
      match d.status {
        case Denied => out := AccessDenied; SoloEnds(st, now, ttl, pc0, out, env);
        case Expired => out := ExpiredToken; SoloEnds(st, now, ttl, pc0, out, env);
        case Redeemed => out := Rejected; SoloEnds(st, now, ttl, pc0, out, env);
        case Pending => out := RecordPoll(now, did, d, pc0, env);
        case Approved =>
          SoloNext(st, now, ttl, pc0, env);
          out := RedeemAndMint(now, client, did, d, env[1..]);
      }
    }

    method HandleTokenClientCreds(now: Time, client: ClientId, scope: string, env: seq<Choice>) returns (out: Outcome)
      requires db.Valid() && |env| == 2
      modifies db
      ensures db.Valid()
      ensures (db.View(), Finished(out)) == Solo(old(db.View()), now, ttl, CredsRequest(client, scope), env)
    {
      hide Constraints, Perform, Solo, Answer, UnregisteredScope, SplitScopes, ExecRefresh, ExecCode, ExecDevice;
      hide ExecAuthorize, ExecPortalLogin, ExecPortal;
      ghost var st := db.View();
      var scopes := SplitScopes(scope);
      if client !in db.clients || db.clients[client].isPublic
        || UnregisteredScope(db.clients[client].scopes, scopes) != ""
      {
        SoloEnds(st, now, ttl, CredsRequest(client, scope), Rejected, env);
        return Rejected;
      }
      SoloNext(st, now, ttl, CredsRequest(client, scope), env);
      var drawn := env[1];
      var created := db.CreateSession(drawn.id, CredsRow(client, scopes, now, drawn), ByClient(env[0].id), now);
      out := if created == Done then Issued(drawn.id) else ServerError;
      SoloEnds(st, now, ttl, CredsMint(client, scopes, env[0].id, now), out, env[1..]);
    }

    method HandleDeviceAuthorization(now: Time, client: ClientId, scope: string,
                                     env: seq<Choice>) returns (out: Outcome)
      requires db.Valid() && |env| == 2
      modifies db
      ensures db.Valid()
      ensures (db.View(), Finished(out)) == Solo(old(db.View()), now, ttl, DeviceRequest(client, scope), env)
    {
      hide Constraints, Perform, Solo, Exec, SplitScopes, AllRegistered;
      ghost var st := db.View();
      DeviceDispatch(st, now, ttl, client, scope, [], 0, env[0]);
      if client !in db.clients || !db.clients[client].allowDevice {
        SoloEnds(st, now, ttl, DeviceRequest(client, scope), Rejected, env);
        return Rejected;
      }
      var registered := db.clients[client].scopes;
      var scopes := SplitScopes(scope);
      if scopes == [] { scopes := registered; }
      var registeredAll := AllAreRegistered(registered, scopes);
      if !registeredAll {
        SoloEnds(st, now, ttl, DeviceRequest(client, scope), Rejected, env);
        return Rejected;
      }
      SoloNext(st, now, ttl, DeviceRequest(client, scope), env);
      out := StoreDeviceGrant(now, client, scopes, env[0].id, env[1..]);
    }

    static method AllAreRegistered(registered: Scopes, scopes: Scopes) returns (all: bool)
      ensures all == AllRegistered(registered, scopes)
    {
      var i := 0;
      while i < |scopes|
        invariant 0 <= i <= |scopes|
        invariant forall j | 0 <= j < i :: ContainsStr(registered, scopes[j])
      {
        if !ContainsStr(registered, scopes[i]) { return false; }
        i := i + 1;
      }
      all := true;
    }

    method StoreDeviceGrant(now: Time, client: ClientId, scopes: Scopes, ghost ticket: TicketId,
                            env: seq<Choice>) returns (out: Outcome)
      requires db.Valid() && |env| == 1
      modifies db
      ensures db.Valid()
      ensures (db.View(), Finished(out))
        == Solo(old(db.View()), now, ttl, DeviceCreate(client, scopes, ticket, now), env)
    {
      hide Constraints, Perform, Solo, Exec, Answer;
      ghost var st := db.View();
      DeviceDispatch(st, now, ttl, client, "", scopes, ticket, env[0]);
      var drawn := env[0];
      var created := db.CreateDeviceGrant(drawn.id, PendingDevice(client, scopes, now, drawn), ticket, now);
      out := if created == Done then DeviceCode(drawn.id) else ServerError;
      SoloEnds(st, now, ttl, DeviceCreate(client, scopes, ticket, now), out, env);
    }

    method RecordPoll(now: Time, did: DeviceId, d: DeviceGrant, ghost pc0: Pc,
                      ghost env: seq<Choice>) returns (out: Outcome)
      requires db.Valid() && |env| == 4 && did in db.devices && db.devices[did] == d && d.status == Pending
      requires pc0.DeviceLookup? && FindDevice(db.View(), pc0.code) == Some(did) && pc0.client == d.client
        && now <= d.expiresAt
      modifies db
      ensures db.Valid()
      ensures (db.View(), Finished(out)) == Solo(old(db.View()), now, ttl, pc0, env)
    {
      hide Constraints, Perform, Solo, ExecRefresh, ExecCode, ExecClient, ExecAuthorize, ExecPortalLogin, ExecPortal;
      ghost var st := db.View();
      var interval := d.interval;
      out := AuthorizationPending;
      if d.lastPolled.Some? && now - d.lastPolled.value < interval * SECOND {
        interval := interval + DEVICE_INTERVAL;
        out := SlowDown;
      }
      SoloNext(st, now, ttl, pc0, env);
      db.UpdateDeviceGrantPoll(did, now, interval, now);
      SoloEnds(st, now, ttl, DevicePoll(did, now, interval, out), out, env[1..]);
    }

    method RedeemAndMint(now: Time, client: ClientId, did: DeviceId, d: DeviceGrant,
                         env: seq<Choice>) returns (out: Outcome)
      requires db.Valid() && |env| == 3
      modifies db
      ensures db.Valid()
      ensures (db.View(), Finished(out)) == Solo(old(db.View()), now, ttl, DeviceRedeem(client, did, d), env)
    {
      hide Constraints, Perform, Solo, ExecRefresh, ExecCode, ExecClient, ExecAuthorize, ExecPortalLogin, ExecPortal;
      ghost var st := db.View();
      var redeemed := db.MarkDeviceGrantRedeemed(did, now);
      if redeemed != Done {
        SoloEnds(st, now, ttl, DeviceRedeem(client, did, d), Rejected, env);
        return Rejected;
      }
      if d.user.None? {
        SoloEnds(st, now, ttl, DeviceRedeem(client, did, d), ServerError, env);
        return ServerError;
      }
      SoloNext(st, now, ttl, DeviceRedeem(client, did, d), env);
      out := MintForApprover(now, client, did, d, env[1..]);
    }

    method MintForApprover(now: Time, client: ClientId, did: DeviceId, d: DeviceGrant,
                           env: seq<Choice>) returns (out: Outcome)
      requires db.Valid() && |env| == 2 && d.user.Some?
      modifies db
      ensures db.Valid()
      ensures (db.View(), Finished(out)) == Solo(old(db.View()), now, ttl, DeviceUser(client, did, d), env)
    {
      hide Constraints, Perform, Solo;
      ghost var st := db.View();
      if d.user.value !in db.users {
        SoloEnds(st, now, ttl, DeviceUser(client, did, d), ServerError, env);
        return ServerError;
      }
      if !db.users[d.user.value].active {
        SoloEnds(st, now, ttl, DeviceUser(client, did, d), AccessDenied, env);
        return AccessDenied;
      }
      SoloNext(st, now, ttl, DeviceUser(client, did, d), env);
      var drawn := env[1];
      var created := db.CreateSession(drawn.id, DeviceRow(client, d, now, drawn), ByDevice(did), now);
      out := if created == Done then Issued(drawn.id) else ServerError;
      SoloEnds(st, now, ttl, DeviceMint(client, did, d, now), out, env[1..]);
    }

    // readAuthPortalSession; None means the visitor has to log in.
    method ReadAuthPortalSession(now: Time, token: Token, ghost purpose: Purpose, ghost env: seq<Choice>)
      returns (found: Option<(SessionId, Session, UserId)>)
      requires db.Valid() && |env| >= 2 && !purpose.Silent?
      ensures var solo := Solo(db.View(), now, ttl, PortalRead(token, purpose), env);
        if found.None? then (db.View(), Finished(Rejected)) == solo
        else solo == Solo(db.View(), now, ttl,
                          PortalSlide(found.value.0, found.value.1, found.value.2, purpose, now), env[2..])
    {
      hide Constraints, Perform, Solo, Exec;
      ghost var st := db.View();
      var session := db.GetSessionByAccessToken(token);
      if session.None? || !SessionTokenLive(db.sessions[session.value], now) {
        ReadsFirst(st, now, ttl, token, purpose, env[0]);
        SoloEnds(st, now, ttl, PortalRead(token, purpose), Rejected, env);
        return None;
      }
      var sid := session.value;
      var row := db.sessions[sid];
      ReadsFirst(st, now, ttl, token, purpose, env[0]);
      ReadsUser(st, now, ttl, sid, row, purpose, env[1]);
      SoloNext(st, now, ttl, PortalRead(token, purpose), env);
      if row.user.None? || row.user.value !in db.users {
        SoloEnds(st, now, ttl, PortalUser(sid, row, purpose), Rejected, env[1..]);
        return None;
      }
      SoloNext(st, now, ttl, PortalUser(sid, row, purpose), env[1..]);
      assert env[1..][1..] == env[2..];
      found := Some((sid, row, row.user.value));
    }

    method SlidePortalSession(now: Time, sid: SessionId, row: Session, ghost uid: UserId, ghost purpose: Purpose,
                              ghost env: seq<Choice>)
      requires db.Valid() && env != []
      modifies db
      ensures db.Valid()
      ensures Solo(old(db.View()), now, ttl, PortalSlide(sid, row, uid, purpose, now), env)
        == Solo(db.View(), now, ttl, PortalAct(sid, row, uid, purpose), env[1..])
    {
      hide Constraints, Perform, Solo, ExecRefresh, ExecCode, ExecDevice, ExecClient, ExecAuthorize, ExecPortalLogin;
      ghost var st := db.View();
      db.ExtendSessionExpiry(sid, CapByAbsolute(now + PORTAL_TTL, row.createdAt), now);
      SoloNext(st, now, ttl, PortalSlide(sid, row, uid, purpose, now), env);
    }

    method ConfirmDevice(now: Time, sid: SessionId, row: Session, uid: UserId, did: DeviceId, approve: bool,
                         ghost env: seq<Choice>)
      returns (out: Outcome)
      requires db.Valid() && |env| == 1
      modifies db
      ensures db.Valid()
      ensures (db.View(), Finished(out))
        == Solo(old(db.View()), now, ttl, PortalAct(sid, row, uid, if approve then Approve(did) else Deny(did)), env)
    {
      hide Constraints, Perform, Solo, Answer, Exec;
      ghost var st := db.View();
      DecideDispatch(st, now, ttl, sid, row, uid, did, env[0]);
      out := Decided;
      if approve {
        var approved := db.MarkDeviceGrantApproved(did, uid, row.mfaVerified, row.mfaAt, now);
        if approved != Done { out := Rejected; }
        SoloEnds(st, now, ttl, PortalAct(sid, row, uid, Approve(did)), out, env);
      } else {
        var _ := db.MarkDeviceGrantDenied(did, now);
        SoloEnds(st, now, ttl, PortalAct(sid, row, uid, Deny(did)), out, env);
      }
    }

    // portalAuth, then the Approve or Deny click.
    method HandleDeviceConfirm(now: Time, token: Token, did: DeviceId, approve: bool, ghost env: seq<Choice>)
      returns (out: Outcome)
      requires db.Valid() && |env| == 4
      modifies db
      ensures db.Valid()
      ensures (db.View(), Finished(out))
        == Solo(old(db.View()), now, ttl, PortalRead(token, if approve then Approve(did) else Deny(did)), env)
    {
      hide Constraints, Perform, Solo;
      ghost var purpose := if approve then Approve(did) else Deny(did);
      var visit := ReadAuthPortalSession(now, token, purpose, env);
      if visit.None? { return Rejected; }
      var (sid, row, uid) := visit.value;
      SlidePortalSession(now, sid, row, uid, purpose, env[2..]);
      out := ConfirmDevice(now, sid, row, uid, did, approve, env[2..][1..]);
    }

    // ensurePortalCookie, then issueCodeAndRedirect.
    method SeatAndIssueCode(now: Time, req: AuthReq, user: User, passed: Option<Time>, env: seq<Choice>)
      returns (out: Outcome)
      requires db.Valid() && |env| == 2
      modifies db
      ensures db.Valid()
      ensures (db.View(), Finished(out)) == Solo(old(db.View()), now, ttl, Seat(req, user, passed, now), env)
    {
      hide Constraints, Perform, Solo, Answer, StampIf, PortalRow, Exec;
      ghost var st := db.View();
      var seat := env[0];
      SeatDispatch(st, now, ttl, req, user, passed, seat);
      var _ := db.CreateSession(seat.id, PortalRow(req.user, user, now, seat), ByPortal, now);
      SoloNext(st, now, ttl, Seat(req, user, passed, now), env);
      ghost var st1 := db.View();
      var drawn := env[1];
      SeatDispatch(st1, now, ttl, req, user, passed, drawn);
      var created := db.CreateGrant(drawn.id, CodeGrant(req, None, passed, now, drawn), req.ticket, now);
      out := if created == Done then CodeIssued(drawn.id) else ServerError;
      SoloEnds(st1, now, ttl, IssueCode(req, None, passed, now), out, env[1..]);
    }

    // env[1].ok: the password matches and no policy rule objects.
    method HandleAuthorizePost(now: Time, client: ClientId, scope: string, who: UserId, redirectUri: nat,
                               codeChallenge: Option<nat>, env: seq<Choice>)
      returns (out: Outcome)
      requires db.Valid() && |env| == 4
      modifies db
      ensures db.Valid()
      ensures (db.View(), Finished(out))
        == Solo(old(db.View()), now, ttl, AuthRequest(client, scope, who, redirectUri, codeChallenge), env)
    {
      hide Constraints, Perform, Solo, UnregisteredScope, SplitScopes, ExecRefresh, ExecCode, ExecDevice, ExecClient;
      hide ExecPortalLogin, ExecPortal;
      ghost var st := db.View();
      ghost var pc0 := AuthRequest(client, scope, who, redirectUri, codeChallenge);
      var scopes := SplitScopes(scope);
      if client !in db.clients || UnregisteredScope(db.clients[client].scopes, scopes) != "" {
        SoloEnds(st, now, ttl, pc0, Rejected, env);
        return Rejected;
      }
      SoloNext(st, now, ttl, pc0, env);
      ghost var pc1 := AuthLogin(client, scopes, who, redirectUri, codeChallenge, env[0].id);
      if who !in db.users || !db.users[who].active || !env[1].ok {
        SoloEnds(st, now, ttl, pc1, Rejected, env[1..]);
        return Rejected;
      }
      if db.users[who].mfaEnabled {
        SoloEnds(st, now, ttl, pc1, MfaPrompt, env[1..]);
        return MfaPrompt;
      }
      SoloNext(st, now, ttl, pc1, env[1..]);
      var req := AuthReq(who, client, scopes, redirectUri, codeChallenge, now, env[0].id);
      out := SeatAndIssueCode(now, req, db.users[who], None, env[2..]);
    }

    // The client is looked up again; then the cookie and the code.
    method FinishFactor(now: Time, req: AuthReq, user: User, env: seq<Choice>) returns (out: Outcome)
      requires db.Valid() && |env| == 3
      modifies db
      ensures db.Valid()
      ensures (db.View(), Finished(out)) == Solo(old(db.View()), now, ttl, AuthClient(req, user, now), env)
    {
      hide Constraints, Perform, Solo, Exec;
      ghost var st := db.View();
      FactorDispatch(st, now, ttl, req, now, user, false, env[0]);
      if req.client !in db.clients {
        SoloEnds(st, now, ttl, AuthClient(req, user, now), Rejected, env);
        return Rejected;
      }
      SoloNext(st, now, ttl, AuthClient(req, user, now), env);
      out := SeatAndIssueCode(now, req, user, Some(now), env[1..]);
    }

    // An expired cookie is no cookie. env[1].ok: the TOTP code verifies.
    method HandleMfaTotpPost(now: Time, req: AuthReq, exp: Time, env: seq<Choice>) returns (out: Outcome)
      requires db.Valid() && |env| == 5
      modifies db
      ensures db.Valid()
      ensures now > exp ==> out == Rejected && db.View() == old(db.View())
      ensures now <= exp ==> (db.View(), Finished(out)) == Solo(old(db.View()), now, ttl, AuthMfa(req, exp, false), env)
    {
      hide Constraints, Perform, Solo, Exec;
      if now > exp { return Rejected; }
      ghost var st := db.View();
      FactorDispatch(st, now, ttl, req, exp, User(false, false, false, false), false, env[0]);
      if req.user !in db.users {
        SoloEnds(st, now, ttl, AuthMfa(req, exp, false), Rejected, env);
        return Rejected;
      }
      SoloNext(st, now, ttl, AuthMfa(req, exp, false), env);
      var user := db.users[req.user];
      FactorDispatch(st, now, ttl, req, exp, user, false, env[1]);
      if !env[1].ok {
        SoloEnds(st, now, ttl, AuthFactor(req, user, false), Rejected, env[1..]);
        return Rejected;
      }
      SoloNext(st, now, ttl, AuthFactor(req, user, false), env[1..]);
      assert env[1..][1..] == env[2..];
      out := FinishFactor(now, req, user, env[2..]);
    }

    // env[1].ok: the assertion verifies; env[2].ok: its use is recorded.
    method HandleSsoWebAuthnFinish(now: Time, req: AuthReq, exp: Time, env: seq<Choice>) returns (out: Outcome)
      requires db.Valid() && |env| == 6
      modifies db
      ensures db.Valid()
      ensures now > exp ==> out == Rejected && db.View() == old(db.View())
      ensures now <= exp ==> (db.View(), Finished(out)) == Solo(old(db.View()), now, ttl, AuthMfa(req, exp, true), env)
    {
      hide Constraints, Perform, Solo, Exec;
      if now > exp { return Rejected; }
      ghost var st := db.View();
      FactorDispatch(st, now, ttl, req, exp, User(false, false, false, false), true, env[0]);
      if req.user !in db.users {
        SoloEnds(st, now, ttl, AuthMfa(req, exp, true), Rejected, env);
        return Rejected;
      }
      SoloNext(st, now, ttl, AuthMfa(req, exp, true), env);
      var user := db.users[req.user];
      out := FinishLogin(now, req, user, env[1..]);
    }

    method FinishLogin(now: Time, req: AuthReq, user: User, env: seq<Choice>) returns (out: Outcome)
      requires db.Valid() && |env| == 5
      modifies db
      ensures db.Valid()
      ensures (db.View(), Finished(out)) == Solo(old(db.View()), now, ttl, AuthFactor(req, user, true), env)
    {
      hide Constraints, Perform, Solo, Exec;
      ghost var st := db.View();
      FactorDispatch(st, now, ttl, req, now, user, true, env[0]);
      FactorDispatch(st, now, ttl, req, now, user, true, env[1]);
      if !env[0].ok {
        SoloEnds(st, now, ttl, AuthFactor(req, user, true), Rejected, env);
        return Rejected;
      }
      SoloNext(st, now, ttl, AuthFactor(req, user, true), env);
      if !env[1].ok {
        SoloEnds(st, now, ttl, AuthRecord(req, user, now), Rejected, env[1..]);
        return Rejected;
      }
      SoloNext(st, now, ttl, AuthRecord(req, user, now), env[1..]);
      assert env[1..][1..] == env[2..];
      out := FinishFactor(now, req, user, env[2..]);
    }
  }
}
