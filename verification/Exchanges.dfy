/** The token endpoint and the device authorization endpoint, one whole request at a time. */
module Exchanges {
  import opened Text
  import opened Model
  import opened Stores
  import opened Protocol
  import opened Databases
  import opened Handlers
  import opened Outcomes

  // ---- authorization_code (section 4.1.3 of RFC 6749, section 4.6 of RFC 7636) ----

  // The code is good for this client, redirect and verifier now.
  ghost predicate Redeemable(st: Store, now: Time, client: ClientId, code: Token, redirectUri: nat, verifier: nat,
                             gid: GrantId) {
    && gid in st.grants
    && var g := st.grants[gid];
    && g.code == code && g.client == client && g.redirect == redirectUri && !g.used && now <= g.expiresAt
    && (g.challenge == None || g.challenge == Some(verifier))
  }

  function Used(st: Store, gid: GrantId): Store
    requires gid in st.grants
  {
    st.(grants := st.grants[gid := st.grants[gid].(used := true)])
  }

  // What a redeemed code is worth.
  function CodeSession(g: Grant, now: Time, ch: Choice): Session {
    Session(Some(g.user), g.client, ch.t1, ch.t2, g.scopes, now + 15 * MINUTE, now + 60 * MINUTE,
            g.mfaAt != None, g.mfaAt, Some(g.authTime), now)
  }

  lemma CodeFound(st: Store, now: Time, client: ClientId, code: Token, redirectUri: nat, verifier: nat, gid: GrantId)
    requires Constraints(st) && Redeemable(st, now, client, code, redirectUri, verifier, gid)
    ensures ExecCodeLookup(st, now, client, code, redirectUri, verifier) == Go(CodeUse(client, gid, st.grants[gid]))
    ensures ExecCodeUse(st, client, gid, st.grants[gid]) == Do(UseGrant(gid), CodeUser(client, gid, st.grants[gid]))
    ensures Perform(st, now, UseGrant(gid)) == Used(st, gid)
  {
  }

  lemma NoCodeFound(st: Store, now: Time, client: ClientId, code: Token, redirectUri: nat, verifier: nat)
    requires forall gid :: !Redeemable(st, now, client, code, redirectUri, verifier, gid)
    ensures ExecCodeLookup(st, now, client, code, redirectUri, verifier) == Go(Finished(Rejected))
  {
    var found := FindGrant(st, code);
    if found.Some? { assert !Redeemable(st, now, client, code, redirectUri, verifier, found.value); }
  }

  lemma {:induction false} CodeMints(st: Store, now: Time, ttl: Time, client: ClientId, gid: GrantId, g: Grant,
                                     env: seq<Choice>)
    requires |env| == 2 && g.client == client
    ensures Solo(st, now, ttl, CodeUser(client, gid, g), env) ==
      if CanSeat(st, env[1], Some(g.user), client) then
        (st.(sessions := st.sessions[env[1].id := CodeSession(g, now, env[1])]), Finished(Issued(env[1].id)))
      else (st, Finished(ServerError))
  {
    hide Solo, Perform, Exec, Answer;
    CodeStep(st, now, ttl, CodeUser(client, gid, g), env[0]);
    if g.user in st.users {
      SoloNext(st, now, ttl, CodeUser(client, gid, g), env);
      Seats(st, now, CodeRow(client, g, now, env[1]), ByCode(gid), env[1]);
      CodeStep(st, now, ttl, CodeMint(client, gid, g, now), env[1]);
      var out := if CanSeat(st, env[1], Some(g.user), client) then Issued(env[1].id) else ServerError;
      SoloEnds(st, now, ttl, CodeMint(client, gid, g, now), out, env[1..]);
    } else {
      SoloEnds(st, now, ttl, CodeUser(client, gid, g), ServerError, env);
    }
  }

  lemma {:induction false} CodeClaimed(st: Store, now: Time, ttl: Time, client: ClientId, code: Token, redirectUri: nat,
                                       verifier: nat, env: seq<Choice>, gid: GrantId)
    requires Constraints(st) && |env| == 4 && Redeemable(st, now, client, code, redirectUri, verifier, gid)
    ensures Solo(st, now, ttl, CodeLookup(client, code, redirectUri, verifier), env)
      == Solo(Used(st, gid), now, ttl, CodeUser(client, gid, st.grants[gid]), env[2..])
  {
    var g := st.grants[gid];
    hide Solo, Perform, Exec, Answer, Redeemable, Constraints, ExecCodeLookup, ExecCodeUse, Used;
    var pc0 := CodeLookup(client, code, redirectUri, verifier);
    CodeFound(st, now, client, code, redirectUri, verifier, gid);
    CodeStep(st, now, ttl, pc0, env[0]);
    SoloNext(st, now, ttl, pc0, env);
    CodeStep(st, now, ttl, CodeUse(client, gid, g), env[1]);
    SoloNext(st, now, ttl, CodeUse(client, gid, g), env[1..]);
    assert env[1..][1..] == env[2..];
  }

  lemma {:induction false} GoodCode(st: Store, now: Time, ttl: Time, client: ClientId, code: Token, redirectUri: nat,
                                    verifier: nat, env: seq<Choice>, gid: GrantId)
    requires Constraints(st) && |env| == 4 && Redeemable(st, now, client, code, redirectUri, verifier, gid)
    ensures var g, used := st.grants[gid], Used(st, gid);
      Solo(st, now, ttl, CodeLookup(client, code, redirectUri, verifier), env) ==
        if CanSeat(used, env[3], Some(g.user), client) then
          (used.(sessions := st.sessions[env[3].id := CodeSession(g, now, env[3])]), Finished(Issued(env[3].id)))
        else (used, Finished(ServerError))
  {
    assert st.grants[gid].client == client && Used(st, gid).sessions == st.sessions;
    hide Solo, Redeemable, Constraints, CanSeat, Used, CodeSession;
    CodeClaimed(st, now, ttl, client, code, redirectUri, verifier, env, gid);
    CodeMints(Used(st, gid), now, ttl, client, gid, st.grants[gid], env[2..]);
  }

  lemma {:induction false} BadCode(st: Store, now: Time, ttl: Time, client: ClientId, code: Token, redirectUri: nat,
                                   verifier: nat, env: seq<Choice>)
    requires env != [] && forall gid :: !Redeemable(st, now, client, code, redirectUri, verifier, gid)
    ensures Solo(st, now, ttl, CodeLookup(client, code, redirectUri, verifier), env) == (st, Finished(Rejected))
  {
    hide Solo, Perform, Exec, Redeemable, ExecCodeLookup;
    var pc0 := CodeLookup(client, code, redirectUri, verifier);
    NoCodeFound(st, now, client, code, redirectUri, verifier);
    CodeStep(st, now, ttl, pc0, env[0]);
    SoloEnds(st, now, ttl, pc0, Rejected, env);
  }

  /**
   A code is exchanged for tokens exactly if it is good for the client, the
   redirect and the verifier and the session can be inserted. The access token
   then lives 15 minutes, the refresh token an hour, and the session has the
   code's user, scopes and MFA time. A good code is used up in any case, and a
   bad one changes nothing.
   */
  lemma {:induction false} CodeExchange(st: Store, now: Time, ttl: Time, client: ClientId, code: Token,
                                        redirectUri: nat, verifier: nat, env: seq<Choice>)
    requires Constraints(st) && |env| == 4
    ensures var (st', pc) := Solo(st, now, ttl, CodeLookup(client, code, redirectUri, verifier), env);
      && (pc == Finished(Issued(env[3].id)) <==>
            exists gid :: Redeemable(st, now, client, code, redirectUri, verifier, gid)
                          && CanSeat(st, env[3], Some(st.grants[gid].user), client))
      && (pc == Finished(Issued(env[3].id)) || pc == Finished(ServerError) || (pc == Finished(Rejected) && st' == st))
      && forall gid | Redeemable(st, now, client, code, redirectUri, verifier, gid) ::
           && gid in st'.grants && st'.grants[gid].used && pc != Finished(Rejected)
           && (pc == Finished(Issued(env[3].id)) ==>
                 env[3].id in st'.sessions && st'.sessions[env[3].id] == CodeSession(st.grants[gid], now, env[3]))
  {
    hide Solo, Redeemable, CodeSession, Constraints;
    if gid :| Redeemable(st, now, client, code, redirectUri, verifier, gid) {
      GoodCode(st, now, ttl, client, code, redirectUri, verifier, env, gid);
      forall other | Redeemable(st, now, client, code, redirectUri, verifier, other) ensures other == gid {
        OneCode(st, now, client, code, redirectUri, verifier, gid, other);
      }
    } else {
      BadCode(st, now, ttl, client, code, redirectUri, verifier, env);
    }
  }

  lemma OneCode(st: Store, now: Time, client: ClientId, code: Token, redirectUri: nat, verifier: nat, a: GrantId,
                b: GrantId)
    requires Constraints(st) && Redeemable(st, now, client, code, redirectUri, verifier, a)
    requires Redeemable(st, now, client, code, redirectUri, verifier, b)
    ensures a == b && a in st.grants
  {
  }

  // ---- client_credentials (section 4.4 of RFC 6749) ----

  // The same name but for the case of its letters.
  predicate SameName(a: string, b: string) {
    |a| == |b| && forall i | 0 <= i < |a| :: a[i] == b[i] || OtherCase(a[i], b[i]) || OtherCase(b[i], a[i])
  }

  predicate OtherCase(upper: char, lower: char) {
    'A' <= upper <= 'Z' && lower as int == upper as int + 32
  }

  // Every scope is one the client is registered for.
  ghost predicate Grantable(registered: Scopes, scopes: Scopes) {
    forall s | s in scopes :: exists r :: r in registered && SameName(r, s)
  }

  lemma FoldIsSameName(a: string, b: string)
    ensures EqualFold(a, b) <==> SameName(a, b)
  {
    forall i | 0 <= i < |a| && i < |b|
      ensures Lower(a[i]) == Lower(b[i]) <==> a[i] == b[i] || OtherCase(a[i], b[i]) || OtherCase(b[i], a[i])
    {
      LowerMatches(a[i], b[i]);
    }
  }

  lemma LowerMatches(c: char, d: char)
    ensures Lower(c) == Lower(d) <==> c == d || OtherCase(c, d) || OtherCase(d, c)
  {
    assert 'a' as int == 'A' as int + 32 && 'z' as int == 'Z' as int + 32;
  }

  lemma RegisteredIsGrantable(registered: Scopes, scopes: Scopes)
    ensures AllRegistered(registered, scopes) <==> Grantable(registered, scopes)
  {
    forall r, s ensures EqualFold(r, s) <==> SameName(r, s) { FoldIsSameName(r, s); }
    hide EqualFold, SameName;
    if AllRegistered(registered, scopes) {
      forall s | s in scopes ensures exists r :: r in registered && SameName(r, s) {
        var i :| 0 <= i < |scopes| && scopes[i] == s;
        var j :| 0 <= j < |registered| && EqualFold(registered[j], scopes[i]);
        assert SameName(registered[j], s);
      }
    }
    if Grantable(registered, scopes) {
      forall i | 0 <= i < |scopes| ensures ContainsStr(registered, scopes[i]) {
        assert scopes[i] in scopes;
        var r :| r in registered && SameName(r, scopes[i]);
        var j :| 0 <= j < |registered| && registered[j] == r;
      }
    }
  }

  // A session without a user.
  function MachineSession(client: ClientId, scopes: Scopes, now: Time, ch: Choice): Session {
    Session(None, client, ch.t1, ch.t2, scopes, now + 15 * MINUTE, now + 60 * MINUTE, false, None, None, now)
  }

  ghost predicate MayActAlone(st: Store, client: ClientId, scopes: Scopes) {
    client in st.clients && !st.clients[client].isPublic && Grantable(st.clients[client].scopes, scopes)
  }

  // The check shared with /authorize and silent sign-on.
  lemma {:induction false} ScopesAccepted(st: Store, client: ClientId, scope: string, next: Pc)
    ensures var o := AcceptScopes(st, client, scope, next);
      o.write == Nothing && o.seal == None
      && o.next == if client in st.clients && Grantable(st.clients[client].scopes, SplitScopes(scope)) then next
                   else Finished(Rejected)
  {
    FieldsAreWords(scope, IsSpace);
    if client in st.clients {
      UnregisteredScopeIsExact(st.clients[client].scopes, SplitScopes(scope));
      RegisteredIsGrantable(st.clients[client].scopes, SplitScopes(scope));
    }
    hide AllRegistered, Grantable, UnregisteredScope, AreWords;
  }

  lemma CredsAccepted(st: Store, now: Time, client: ClientId, scope: string, ch: Choice)
    ensures ExecCredsRequest(st, now, client, scope, ch).write == Nothing
    ensures ExecCredsRequest(st, now, client, scope, ch).next ==
      if MayActAlone(st, client, SplitScopes(scope)) then CredsMint(client, SplitScopes(scope), ch.id, now)
      else Finished(Rejected)
  {
    hide AcceptScopes, Grantable, SplitScopes;
    ScopesAccepted(st, client, scope, CredsMint(client, SplitScopes(scope), ch.id, now));
  }

  /**
   Client credentials are answered with tokens exactly if the client is on the
   books, confidential and registered for all it asks, and the session can be
   inserted: it has those scopes, no user, and the same lifetimes.
   */
  lemma {:induction false} ClientCredentials(st: Store, now: Time, ttl: Time, client: ClientId, scope: string,
                                             env: seq<Choice>)
    requires |env| == 2
    ensures var asked := SplitScopes(scope);
      Solo(st, now, ttl, CredsRequest(client, scope), env) ==
        if !MayActAlone(st, client, asked) then (st, Finished(Rejected))
        else if !CanSeat(st, env[1], None, client) then (st, Finished(ServerError))
        else (st.(sessions := st.sessions[env[1].id := MachineSession(client, asked, now, env[1])]),
              Finished(Issued(env[1].id)))
  {
    hide Solo, Perform, Exec, Answer, CanSeat, ExecCredsRequest, MayActAlone, SplitScopes;
    var asked := SplitScopes(scope);
    CredsAccepted(st, now, client, scope, env[0]);
    ClientStep(st, now, ttl, CredsRequest(client, scope), env[0]);
    if MayActAlone(st, client, asked) {
      var pc := CredsMint(client, asked, env[0].id, now);
      SoloNext(st, now, ttl, CredsRequest(client, scope), env);
      Seats(st, now, CredsRow(client, asked, now, env[1]), ByClient(env[0].id), env[1]);
      ClientStep(st, now, ttl, pc, env[1]);
      var out := if CanSeat(st, env[1], None, client) then Issued(env[1].id) else ServerError;
      SoloEnds(st, now, ttl, pc, out, env[1..]);
    } else {
      SoloEnds(st, now, ttl, CredsRequest(client, scope), Rejected, env);
    }
  }

  // ---- device_code (sections 3.4 and 3.5 of RFC 8628) ----

  // What an approved device code is worth.
  function DeviceSession(d: DeviceGrant, now: Time, ch: Choice): Session {
    Session(d.user, d.client, ch.t1, ch.t2, d.scopes, now + 15 * MINUTE, now + 60 * MINUTE,
            d.mfaVerified, d.mfaAt, None, now)
  }

  function RedeemedDevice(st: Store, did: DeviceId): Store
    requires did in st.devices
  {
    st.(devices := st.devices[did := st.devices[did].(status := Redeemed)])
  }

  // The poll of a code that is on the books, its client's and not expired.
  ghost predicate Polled(st: Store, now: Time, client: ClientId, code: Token, did: DeviceId) {
    && Constraints(st) && did in st.devices && st.devices[did].code == code
    && st.devices[did].client == client && now <= st.devices[did].expiresAt
  }

  lemma DeviceFound(st: Store, now: Time, client: ClientId, code: Token, did: DeviceId)
    requires Polled(st, now, client, code, did)
    ensures FindDevice(st, code) == Some(did)
  {
  }

  lemma {:induction false} DeviceMints(st: Store, now: Time, ttl: Time, client: ClientId, did: DeviceId, d: DeviceGrant,
                                       env: seq<Choice>)
    requires |env| == 2 && d.client == client && d.user.Some?
    ensures Solo(st, now, ttl, DeviceUser(client, did, d), env) ==
      if d.user.value !in st.users then (st, Finished(ServerError))
      else if !st.users[d.user.value].active then (st, Finished(AccessDenied))
      else if !CanSeat(st, env[1], d.user, client) then (st, Finished(ServerError))
      else (st.(sessions := st.sessions[env[1].id := DeviceSession(d, now, env[1])]), Finished(Issued(env[1].id)))
  {
    hide Solo, Perform, Exec, Answer, CanSeat;
    var pc := DeviceUser(client, did, d);
    DeviceStep(st, now, ttl, pc, env[0]);
    if d.user.value !in st.users {
      SoloEnds(st, now, ttl, pc, ServerError, env);
    } else if !st.users[d.user.value].active {
      SoloEnds(st, now, ttl, pc, AccessDenied, env);
    } else {
      SoloNext(st, now, ttl, pc, env);
      Seats(st, now, DeviceRow(client, d, now, env[1]), ByDevice(did), env[1]);
      DeviceStep(st, now, ttl, DeviceMint(client, did, d, now), env[1]);
      var out := if CanSeat(st, env[1], d.user, client) then Issued(env[1].id) else ServerError;
      SoloEnds(st, now, ttl, DeviceMint(client, did, d, now), out, env[1..]);
    }
  }

  lemma Redeems(st: Store, now: Time, did: DeviceId)
    requires did in st.devices && st.devices[did].status == Approved
    ensures Answer(st, RedeemDevice(did)) == Done && Perform(st, now, RedeemDevice(did)) == RedeemedDevice(st, did)
  {
  }

  /**
   The poll of an approved code: it is answered with tokens exactly if the
   approver is on the books and active and the session can be inserted, and
   with access_denied if the approver is there but not active. The code is
   spent in any case.
   */
  lemma {:induction false} ApprovedPoll(st: Store, now: Time, ttl: Time, client: ClientId, code: Token, did: DeviceId,
                                        env: seq<Choice>)
    requires Polled(st, now, client, code, did) && st.devices[did].status == Approved && |env| == 4
    ensures var d, spent := st.devices[did], RedeemedDevice(st, did);
      Solo(st, now, ttl, DeviceLookup(client, code), env) ==
        if d.user == None || d.user.value !in st.users then (spent, Finished(ServerError))
        else if !st.users[d.user.value].active then (spent, Finished(AccessDenied))
        else if !CanSeat(st, env[3], d.user, client) then (spent, Finished(ServerError))
        else (spent.(sessions := st.sessions[env[3].id := DeviceSession(d, now, env[3])]), Finished(Issued(env[3].id)))
  {
    hide Solo, Perform, Exec, Answer, Constraints;
    var d, spent := st.devices[did], RedeemedDevice(st, did);
    DeviceFound(st, now, client, code, did);
    Redeems(st, now, did);
    DeviceStep(st, now, ttl, DeviceLookup(client, code), env[0]);
    SoloNext(st, now, ttl, DeviceLookup(client, code), env);
    DeviceStep(st, now, ttl, DeviceRedeem(client, did, d), env[1]);
    assert env[1..][1..] == env[2..];
    if d.user == None {
      SoloEnds(st, now, ttl, DeviceRedeem(client, did, d), ServerError, env[1..]);
    } else {
      SoloNext(st, now, ttl, DeviceRedeem(client, did, d), env[1..]);
      DeviceMints(spent, now, ttl, client, did, d, env[2..]);
      assert CanSeat(spent, env[3], d.user, client) == CanSeat(st, env[3], d.user, client);
    }
  }

  /** Every other poll, and whose code it is: only a pending grant's row moves. */
  lemma {:induction false} OtherPolls(st: Store, now: Time, ttl: Time, client: ClientId, code: Token, env: seq<Choice>)
    requires Constraints(st) && |env| == 4
    ensures (forall did | did in st.devices :: st.devices[did].code != code) ==>
      Solo(st, now, ttl, DeviceLookup(client, code), env) == (st, Finished(ExpiredToken))
    ensures forall did | did in st.devices && st.devices[did].code == code ::
      var d, solo := st.devices[did], Solo(st, now, ttl, DeviceLookup(client, code), env);
      && (d.client != client ==> solo == (st, Finished(Rejected)))
      && (d.client == client && (now > d.expiresAt || d.status == Expired) ==> solo == (st, Finished(ExpiredToken)))
      && (d.client == client && now <= d.expiresAt ==>
            && (d.status == Denied ==> solo == (st, Finished(AccessDenied)))
            && (d.status == Redeemed ==> solo == (st, Finished(Rejected)))
            && (d.status == Pending ==>
                  var early := d.lastPolled != None && now < d.lastPolled.value + d.interval * 1_000_000_000;
                  solo == (st.(devices := st.devices[did := d.(lastPolled := Some(now),
                                                               interval := d.interval + if early then 5 else 0)]),
                           Finished(if early then SlowDown else AuthorizationPending))))
  {
    hide Solo, Perform, Exec, Answer;
    var pc := DeviceLookup(client, code);
    DeviceStep(st, now, ttl, pc, env[0]);
    var found := FindDevice(st, code);
    if found.None? {
      SoloEnds(st, now, ttl, pc, ExpiredToken, env);
    } else {
      var did := found.value;
      var d := st.devices[did];
      assert forall other | other in st.devices && st.devices[other].code == code :: other == did;
      hide Constraints;
      if d.client == client && now <= d.expiresAt && d.status == Pending {
        PendingPoll(st, now, ttl, client, code, did, env);
      } else if d.client == client && now <= d.expiresAt && d.status == Approved {
      } else {
        SoloEnds(st, now, ttl, pc, if d.client != client then Rejected
                 else if now > d.expiresAt || d.status == Expired then ExpiredToken
                 else if d.status == Denied then AccessDenied else Rejected, env);
      }
    }
  }

  lemma {:induction false} PendingPoll(st: Store, now: Time, ttl: Time, client: ClientId, code: Token, did: DeviceId,
                                       env: seq<Choice>)
    requires FindDevice(st, code) == Some(did) && |env| == 4
    requires var d := st.devices[did]; d.client == client && now <= d.expiresAt && d.status == Pending
    ensures var d := st.devices[did];
      var early := d.lastPolled != None && now < d.lastPolled.value + d.interval * 1_000_000_000;
      Solo(st, now, ttl, DeviceLookup(client, code), env)
        == (st.(devices := st.devices[did := d.(lastPolled := Some(now),
                                                interval := d.interval + if early then 5 else 0)]),
            Finished(if early then SlowDown else AuthorizationPending))
  {
    hide Solo, Perform, Exec, PollAnswer;
    var d := st.devices[did];
    var (interval, answer) := PollAnswer(d.interval, d.lastPolled, now);
    var poll := DevicePoll(did, now, interval, answer);
    PollIsEarly(d.interval, d.lastPolled, now);
    PendingFound(st, now, ttl, client, code, did, env[0]);
    SoloNext(st, now, ttl, DeviceLookup(client, code), env);
    DeviceStep(st, now, ttl, poll, env[1]);
    PollMoves(st, now, did, interval);
    SoloEnds(st, now, ttl, poll, answer, env[1..]);
  }

  lemma PendingFound(st: Store, now: Time, ttl: Time, client: ClientId, code: Token, did: DeviceId, ch: Choice)
    requires FindDevice(st, code) == Some(did)
    requires var d := st.devices[did]; d.client == client && now <= d.expiresAt && d.status == Pending
    ensures var d := st.devices[did];
      var (interval, answer) := PollAnswer(d.interval, d.lastPolled, now);
      Exec(st, now, ttl, DeviceLookup(client, code), ch) == Go(DevicePoll(did, now, interval, answer))
  {
    hide Exec, PollAnswer;
    DeviceStep(st, now, ttl, DeviceLookup(client, code), ch);
  }

  lemma PollIsEarly(interval: nat, lastPolled: Option<Time>, now: Time)
    ensures var early := lastPolled != None && now < lastPolled.value + interval * 1_000_000_000;
      PollAnswer(interval, lastPolled, now)
        == (interval + if early then 5 else 0, if early then SlowDown else AuthorizationPending)
  {
  }

  lemma PollMoves(st: Store, now: Time, did: DeviceId, interval: nat)
    requires did in st.devices
    ensures Perform(st, now, PollDevice(did, now, interval))
      == st.(devices := st.devices[did := st.devices[did].(lastPolled := Some(now), interval := interval)])
  {
  }

  // ---- device authorization (section 3.1 of RFC 8628) ----

  // Asking for nothing means all the client is registered for.
  function Wanted(registered: Scopes, scope: string): Scopes {
    var asked := SplitScopes(scope);
    if asked == [] then registered else asked
  }

  ghost predicate MayUseDevices(st: Store, client: ClientId, scope: string) {
    && client in st.clients && st.clients[client].allowDevice
    && var registered := st.clients[client].scopes;
    Grantable(registered, Wanted(registered, scope))
  }

  ghost predicate CanPend(st: Store, ch: Choice, client: ClientId) {
    && ch.id !in st.devices && client in st.clients
    && forall did | did in st.devices :: st.devices[did].code != ch.t1 && st.devices[did].userCode != ch.t2
  }

  // A fresh device code, to be typed in within 15 minutes and polled every five seconds.
  function FreshDevice(client: ClientId, scopes: Scopes, now: Time, ch: Choice): DeviceGrant {
    DeviceGrant(ch.t1, ch.t2, client, Fields(Join(scopes, ' '), IsSpace), Pending, None, false, None, 5, None,
                now + 15 * MINUTE)
  }

  lemma DeviceAccepted(st: Store, now: Time, client: ClientId, scope: string, ch: Choice)
    ensures ExecDeviceRequest(st, now, client, scope, ch).write == Nothing
    ensures ExecDeviceRequest(st, now, client, scope, ch).next ==
      if MayUseDevices(st, client, scope)
      then DeviceCreate(client, Wanted(st.clients[client].scopes, scope), ch.id, now) else Finished(Rejected)
  {
    if client in st.clients {
      RegisteredIsGrantable(st.clients[client].scopes, DeviceScopes(st.clients[client].scopes, scope));
    }
    hide AllRegistered, Grantable, SplitScopes;
  }

  lemma Pends(st: Store, now: Time, client: ClientId, scopes: Scopes, ticket: TicketId, ch: Choice)
    ensures var w := InsertDevice(ch.id, PendingDevice(client, scopes, now, ch), ticket);
      if CanPend(st, ch, client) then
        && Answer(st, w) == Done
        && Perform(st, now, w) == st.(devices := st.devices[ch.id := FreshDevice(client, scopes, now, ch)])
      else Answer(st, w) == Refused && Perform(st, now, w) == st
  {
    hide Fields, Join;
  }

  /**
   A client gets a device code exactly if it may use the flow and is registered
   for all it wants, and the row can be inserted. The code then pends for 15
   minutes, with an interval of five seconds.
   */
  lemma {:induction false} DeviceAuthorization(st: Store, now: Time, ttl: Time, client: ClientId, scope: string,
                                               env: seq<Choice>)
    requires |env| == 2
    ensures Solo(st, now, ttl, DeviceRequest(client, scope), env) ==
      if !MayUseDevices(st, client, scope) then (st, Finished(Rejected))
      else if !CanPend(st, env[1], client) then (st, Finished(ServerError))
      else
        var row := FreshDevice(client, Wanted(st.clients[client].scopes, scope), now, env[1]);
        (st.(devices := st.devices[env[1].id := row]), Finished(DeviceCode(env[1].id)))
  {
    assert MayUseDevices(st, client, scope) ==> client in st.clients;
    hide Solo, Perform, Exec, Answer, CanPend, ExecDeviceRequest, MayUseDevices, Wanted, FreshDevice;
    DeviceAccepted(st, now, client, scope, env[0]);
    ClientStep(st, now, ttl, DeviceRequest(client, scope), env[0]);
    if MayUseDevices(st, client, scope) {
      var wanted := Wanted(st.clients[client].scopes, scope);
      SoloNext(st, now, ttl, DeviceRequest(client, scope), env);
      DevicePends(st, now, ttl, client, wanted, env[0].id, env[1..]);
    } else {
      SoloEnds(st, now, ttl, DeviceRequest(client, scope), Rejected, env);
    }
  }

  lemma {:induction false} DevicePends(st: Store, now: Time, ttl: Time, client: ClientId, scopes: Scopes,
                                       ticket: TicketId, env: seq<Choice>)
    requires |env| == 1
    ensures Solo(st, now, ttl, DeviceCreate(client, scopes, ticket, now), env) ==
      if !CanPend(st, env[0], client) then (st, Finished(ServerError))
      else (st.(devices := st.devices[env[0].id := FreshDevice(client, scopes, now, env[0])]),
            Finished(DeviceCode(env[0].id)))
  {
    hide Solo, Perform, Exec, Answer, CanPend, FreshDevice;
    var pc := DeviceCreate(client, scopes, ticket, now);
    Pends(st, now, client, scopes, ticket, env[0]);
    ClientStep(st, now, ttl, pc, env[0]);
    SoloEnds(st, now, ttl, pc, if CanPend(st, env[0], client) then DeviceCode(env[0].id) else ServerError, env);
  }

  lemma PendingKeepsConstraints(st: Store, ch: Choice, client: ClientId, row: DeviceGrant)
    requires Constraints(st) && CanPend(st, ch, client) && row.code == ch.t1 && row.userCode == ch.t2
    ensures Constraints(st.(devices := st.devices[ch.id := row]))
  {
  }

  // ---- refresh_token (section 6 of RFC 6749, section 4.14 of RFC 9700) ----

  // The earlier of the two.
  function Sooner(a: Time, b: Time): Time {
    if a < b then a else b
  }

  // A session and its whole age are within their limits.
  predicate Lives(row: Session, expiry: Time, now: Time) {
    now <= expiry && now <= row.createdAt + 240 * MINUTE
  }

  function Rotated(row: Session, now: Time, ch: Choice): Session {
    var end := row.createdAt + 240 * MINUTE;
    row.(access := ch.t1, refresh := ch.t2, accessExp := Sooner(now + 15 * MINUTE, end),
         refreshExp := Sooner(now + 60 * MINUTE, end))
  }

  function RotatedStore(st: Store, sid: SessionId, token: Token, now: Time, ch: Choice): Store
    requires sid in st.sessions
  {
    st.(sessions := st.sessions[sid := Rotated(st.sessions[sid], now, ch)],
        retired := if token in st.retired then st.retired else st.retired[token := sid])
  }

  // No other session has one of the tokens.
  ghost predicate CanRotate(st: Store, sid: SessionId, ch: Choice) {
    forall other | other in st.sessions && other != sid ::
      st.sessions[other].access != ch.t1 && st.sessions[other].refresh != ch.t2
  }

  lemma Rotates(st: Store, now: Time, sid: SessionId, token: Token, ch: Choice)
    requires sid in st.sessions && st.sessions[sid].refresh == token
    ensures var w := RotateWrite(token, sid, st.sessions[sid], now, ch);
      if CanRotate(st, sid, ch) then
        Answer(st, w) == Done && Perform(st, now, w) == RotatedStore(st, sid, token, now, ch)
      else Answer(st, w) == Refused && Perform(st, now, w) == st
  {
  }

  /**
   The current refresh token rotates exactly if it is its client's, alive and
   its session has a user; then both tokens are new and the lifetimes run from
   now, up to four hours after the session was created.
   */
  lemma {:induction false} RefreshWithCurrent(st: Store, now: Time, ttl: Time, client: ClientId, token: Token,
                                              sid: SessionId, env: seq<Choice>)
    requires Constraints(st) && |env| == 3 && sid in st.sessions && st.sessions[sid].refresh == token
    ensures var row := st.sessions[sid];
      Solo(st, now, ttl, RefreshLookup(client, token), env) ==
        if row.client != client || !Lives(row, row.refreshExp, now) then (st, Finished(Rejected))
        else if row.user == None || row.user.value !in st.users then (st, Finished(ServerError))
        else if !CanRotate(st, sid, env[2]) then (st, Finished(ServerError))
        else (RotatedStore(st, sid, token, now, env[2]), Finished(Refreshed(sid)))
  {
    var row, pc := st.sessions[sid], RefreshLookup(client, token);
    assert FindByRefresh(st, token) == Some(sid);
    hide Solo, Perform, Exec, Answer, Constraints, CanRotate, RotatedStore;
    RefreshStep(st, now, ttl, pc, env[0]);
    if row.client != client || !Lives(row, row.refreshExp, now) {
      SoloEnds(st, now, ttl, pc, Rejected, env);
    } else {
      var next := RefreshUser(client, token, sid, row, now);
      SoloNext(st, now, ttl, pc, env);
      RefreshStep(st, now, ttl, next, env[1]);
      if row.user == None || row.user.value !in st.users {
        SoloEnds(st, now, ttl, next, ServerError, env[1..]);
      } else {
        SoloNext(st, now, ttl, next, env[1..]);
        assert env[1..][1..] == env[2..];
        var last := RefreshRotate(client, token, sid, row, now);
        RefreshStep(st, now, ttl, last, env[2]);
        Rotates(st, now, sid, token, env[2]);
        SoloEnds(st, now, ttl, last, if CanRotate(st, sid, env[2]) then Refreshed(sid) else ServerError, env[2..]);
      }
    }
  }

  // Without the session, and without the tokens it has used up.
  function Revoked(st: Store, sid: SessionId): Store {
    st.(sessions := st.sessions - {sid}, retired := map t | t in st.retired && st.retired[t] != sid :: st.retired[t])
  }

  /** A token that has been rotated away revokes its session; any other is turned away. */
  lemma {:induction false} RefreshWithAnother(st: Store, now: Time, ttl: Time, client: ClientId, token: Token,
                                              env: seq<Choice>)
    requires |env| == 3 && forall sid | sid in st.sessions :: st.sessions[sid].refresh != token
    ensures var reused := token in st.retired && st.retired[token] in st.sessions
                          && st.sessions[st.retired[token]].client == client;
      Solo(st, now, ttl, RefreshLookup(client, token), env) ==
        if reused then (Revoked(st, st.retired[token]), Finished(FamilyRevoked(st.retired[token])))
        else (st, Finished(Rejected))
  {
    hide Solo, Perform, Exec;
    var pc, next := RefreshLookup(client, token), ReuseLookup(client, token);
    RefreshStep(st, now, ttl, pc, env[0]);
    RefreshStep(st, now, ttl, next, env[1]);
    SoloNext(st, now, ttl, pc, env);
    if token in st.retired && st.retired[token] in st.sessions && st.sessions[st.retired[token]].client == client {
      var sid := st.retired[token];
      SoloNext(st, now, ttl, next, env[1..]);
      assert env[1..][1..] == env[2..];
      RefreshStep(st, now, ttl, ReuseDelete(client, token, sid), env[2]);
      DropsOneSession(st, now, sid);
      assert WithoutSessions(st, {sid}) == Revoked(st, sid);
      SoloEnds(st, now, ttl, ReuseDelete(client, token, sid), FamilyRevoked(sid), env[2..]);
    } else {
      SoloEnds(st, now, ttl, next, Rejected, env[1..]);
    }
  }

  // ---- requests overtaken between their lookup and their guarded write ----

  // The tables and the program counter after one step.
  ghost function OneStep(st: Store, now: Time, ttl: Time, pc: Pc, ch: Choice): (Store, Pc) {
    var o := Exec(st, now, ttl, pc, ch);
    (Perform(st, now, o.write), o.next)
  }

  /**
   Whatever has happened since the lookup: a code used or gone meanwhile, and a
   device grant no longer approved, is turned away with nothing changed; a
   refresh token rotated meanwhile goes the way of a reused one.
   */
  lemma OvertakenSteps(st: Store, now: Time, ttl: Time, client: ClientId, gid: GrantId, g: Grant, did: DeviceId,
                       d: DeviceGrant, sid: SessionId, row: Session, token: Token, at: Time, ch: Choice)
    ensures OneStep(st, now, ttl, CodeUse(client, gid, g), ch) ==
      if gid in st.grants && !st.grants[gid].used then (Used(st, gid), CodeUser(client, gid, g))
      else (st, Finished(Rejected))
    ensures OneStep(st, now, ttl, DeviceRedeem(client, did, d), ch) ==
      if did !in st.devices || st.devices[did].status != Approved then (st, Finished(Rejected))
      else (RedeemedDevice(st, did), if d.user == None then Finished(ServerError) else DeviceUser(client, did, d))
    ensures sid !in st.sessions || st.sessions[sid].refresh != token ==>
      OneStep(st, now, ttl, RefreshRotate(client, token, sid, row, at), ch) == (st, ReuseLookup(client, token))
  {
    hide Exec;
    CodeStep(st, now, ttl, CodeUse(client, gid, g), ch);
    DeviceStep(st, now, ttl, DeviceRedeem(client, did, d), ch);
    RefreshStep(st, now, ttl, RefreshRotate(client, token, sid, row, at), ch);
    hide TokensUnused, OwnersExist, WithoutSessions;
  }
}
