/** The sign-in forms of the portal and of /authorize, one whole request at a time. */
module SignIns {
  import opened Model
  import opened Stores
  import opened Protocol
  import opened Handlers
  import opened Outcomes
  import opened Exchanges

  // The cookies a request alone hands out.
  ghost function Cookies(st: Store, now: Time, ttl: Time, pc: Pc, env: seq<Choice>): set<Cookie>
    decreases |env|
  {
    if env == [] then {}
    else
      var o := Exec(st, now, ttl, pc, env[0]);
      (if o.seal.Some? then {o.seal.value} else {})
      + Cookies(Perform(st, now, o.write), now, ttl, o.next, env[1..])
  }

  // The tables, the answer and the cookies a request leaves.
  datatype Ending = Ending(st: Store, pc: Pc, cookies: set<Cookie>)

  ghost function Alone(st: Store, now: Time, ttl: Time, pc: Pc, env: seq<Choice>): Ending {
    var (st', pc') := Solo(st, now, ttl, pc, env);
    Ending(st', pc', Cookies(st, now, ttl, pc, env))
  }

  function Refusal(st: Store): Ending {
    Ending(st, Finished(Rejected), {})
  }

  function Failure(st: Store): Ending {
    Ending(st, Finished(ServerError), {})
  }

  lemma {:induction false} CookiesOver(st: Store, now: Time, ttl: Time, out: Outcome, env: seq<Choice>)
    ensures Cookies(st, now, ttl, Finished(out), env) == {}
    decreases |env|
  {
    if env != [] {
      assert Exec(st, now, ttl, Finished(out), env[0]) == Go(Finished(out));
      CookiesOver(st, now, ttl, out, env[1..]);
    }
  }

  // A step on the way.
  lemma {:induction false} Next(st: Store, now: Time, ttl: Time, pc: Pc, env: seq<Choice>, o: Out, st1: Store)
    requires env != [] && Exec(st, now, ttl, pc, env[0]) == o && Perform(st, now, o.write) == st1
    ensures var rest := Alone(st1, now, ttl, o.next, env[1..]);
      Alone(st, now, ttl, pc, env)
        == if o.seal.Some? then rest.(cookies := {o.seal.value} + rest.cookies) else rest
  {
    hide Exec, Perform;
    var rest := Alone(st1, now, ttl, o.next, env[1..]);
    assert {} + rest.cookies == rest.cookies;
  }

  // The last step.
  lemma {:induction false} Last(st: Store, now: Time, ttl: Time, pc: Pc, env: seq<Choice>, o: Out, st': Store,
                                out: Outcome)
    requires env != [] && Exec(st, now, ttl, pc, env[0]) == o && o.next == Finished(out)
    requires Perform(st, now, o.write) == st'
    ensures Alone(st, now, ttl, pc, env)
      == Ending(st', Finished(out), if o.seal.Some? then {o.seal.value} else {})
  {
    hide Exec, Perform, Alone, Solo, Cookies;
    Next(st, now, ttl, pc, env, o, st');
    Over(st', now, ttl, out, env[1..]);
    if o.seal.Some? { assert {o.seal.value} + {} == {o.seal.value}; }
  }

  lemma {:induction false} Over(st: Store, now: Time, ttl: Time, out: Outcome, env: seq<Choice>)
    ensures Alone(st, now, ttl, Finished(out), env) == Ending(st, Finished(out), {})
  {
    hide Solo, Cookies;
    SoloOver(st, now, ttl, out, env);
    CookiesOver(st, now, ttl, out, env);
  }

  // ---- a portal session ----

  // Signed in at `now` with the account row read: "admin" is for administrators only.
  function PortalSession(who: UserId, user: User, now: Time, ch: Choice): Session {
    Session(Some(who), PORTAL_CLIENT, ch.t1, ch.t2, ["portal"] + if user.isAdmin then ["admin"] else [],
            now + 15 * MINUTE, now + 15 * MINUTE, user.mfaEnabled, if user.mfaEnabled then Some(now) else None, None,
            now)
  }

  function SeatedStore(st: Store, who: UserId, user: User, now: Time, ch: Choice): Store {
    st.(sessions := st.sessions[ch.id := PortalSession(who, user, now, ch)])
  }

  // The end of every portal sign-in: the row, and a cookie only if the row
  // went in and was journalled.
  ghost function SignedOn(st: Store, now: Time, who: UserId, user: User, ch: Choice): Ending {
    if !CanSeat(st, ch, Some(who), PORTAL_CLIENT) then Failure(st)
    else if ch.ok then Ending(SeatedStore(st, who, user, now, ch), Finished(SignedIn(ch.id)), {PortalCookie(ch.t1)})
    else Failure(SeatedStore(st, who, user, now, ch))
  }

  lemma PortalSeats(st: Store, now: Time, who: UserId, user: User, ch: Choice)
    ensures var row := PortalRow(who, user, now, ch); var w := InsertSession(ch.id, row, ByPortal);
      row == PortalSession(who, user, now, ch)
      && (if CanSeat(st, ch, Some(who), PORTAL_CLIENT) then
            Answer(st, w) == Done && Perform(st, now, w) == SeatedStore(st, who, user, now, ch)
          else Answer(st, w) == Refused && Perform(st, now, w) == st)
  {
    var row := PortalRow(who, user, now, ch);
    assert row == PortalSession(who, user, now, ch);
    Seats(st, now, row, ByPortal, ch);
    hide Answer, Perform, CanSeat;
  }

  lemma {:induction false} Creates(st: Store, now: Time, ttl: Time, who: UserId, user: User, passed: Option<Time>,
                                   env: seq<Choice>)
    requires env != []
    ensures Alone(st, now, ttl, PortalCreate(who, user, passed, now), env) == SignedOn(st, now, who, user, env[0])
  {
    hide Alone, Perform, Exec, Answer, CanSeat, PortalRow, SeatedStore, PortalSession, StampIf;
    var ch, pc := env[0], PortalCreate(who, user, passed, now);
    PortalSeats(st, now, who, user, ch);
    LoginStep(st, now, ttl, pc, ch);
    var o := Exec(st, now, ttl, pc, ch);
    if !CanSeat(st, ch, Some(who), PORTAL_CLIENT) {
      Last(st, now, ttl, pc, env, o, st, ServerError);
    } else {
      var out := if ch.ok then SignedIn(ch.id) else ServerError;
      Last(st, now, ttl, pc, env, o, SeatedStore(st, who, user, now, ch), out);
    }
  }

  // ---- the portal's forms ----

  /**
   The password form. A right password of an active account ends in a portal
   session, unless a rotation is pending or a second factor is due: then a
   cookie good for ten minutes leads to that step, and no row is made.
   */
  lemma {:induction false} PasswordSignIn(st: Store, now: Time, ttl: Time, who: UserId, env: seq<Choice>)
    requires |env| == 2
    ensures Alone(st, now, ttl, Login(who), env) ==
      if who !in st.users || !st.users[who].active || !env[0].ok then Refusal(st)
      else if st.users[who].mustChange || st.users[who].mfaEnabled then
        Ending(st, Finished(MfaPrompt), {LoginCookie(who, now + 10 * MINUTE)})
      else SignedOn(st, now, who, st.users[who], env[1])
  {
    hide Alone, Perform, Exec, SignedOn;
    var pc := Login(who);
    LoginStep(st, now, ttl, pc, env[0]);
    DoesNothing(st, now);
    var o := Exec(st, now, ttl, pc, env[0]);
    if who !in st.users || !st.users[who].active || !env[0].ok {
      Last(st, now, ttl, pc, env, o, st, Rejected);
    } else if st.users[who].mustChange || st.users[who].mfaEnabled {
      Last(st, now, ttl, pc, env, o, st, MfaPrompt);
    } else {
      Next(st, now, ttl, pc, env, o, st);
      Creates(st, now, ttl, who, st.users[who], None, env[1..]);
    }
  }

  /**
   The second-factor forms. Only by TOTP is a user with a pending rotation sent
   away; a passkey has to be recorded before the session is made.
   */
  lemma {:induction false} FactorSignIn(st: Store, now: Time, ttl: Time, who: UserId, exp: Time, webauthn: bool,
                                        env: seq<Choice>)
    requires |env| == if webauthn then 4 else 3
    ensures Alone(st, now, ttl, LoginMfa(who, exp, webauthn), env) ==
      if who !in st.users || (st.users[who].mustChange && !webauthn) then Refusal(st)
      else if !env[1].ok || (webauthn && !env[2].ok) then Refusal(st)
      else SignedOn(st, now, who, st.users[who], env[|env| - 1])
  {
    hide Alone, Perform, Exec, SignedOn;
    var pc := LoginMfa(who, exp, webauthn);
    LoginStep(st, now, ttl, pc, env[0]);
    DoesNothing(st, now);
    var o := Exec(st, now, ttl, pc, env[0]);
    if who !in st.users || (st.users[who].mustChange && !webauthn) {
      Last(st, now, ttl, pc, env, o, st, Rejected);
    } else {
      Next(st, now, ttl, pc, env, o, st);
      FactorLeads(st, now, ttl, who, st.users[who], webauthn, env[1..]);
    }
  }

  lemma {:induction false} FactorLeads(st: Store, now: Time, ttl: Time, who: UserId, user: User, webauthn: bool,
                                       env: seq<Choice>)
    requires |env| == if webauthn then 3 else 2
    ensures Alone(st, now, ttl, LoginFactor(who, user, webauthn), env) ==
      if !env[0].ok || (webauthn && !env[1].ok) then Refusal(st) else SignedOn(st, now, who, user, env[|env| - 1])
  {
    hide Alone, Perform, Exec, SignedOn;
    var pc := LoginFactor(who, user, webauthn);
    LoginStep(st, now, ttl, pc, env[0]);
    DoesNothing(st, now);
    var o := Exec(st, now, ttl, pc, env[0]);
    if !env[0].ok {
      Last(st, now, ttl, pc, env, o, st, Rejected);
    } else {
      Next(st, now, ttl, pc, env, o, st);
      if webauthn {
        RecordLeads(st, now, ttl, who, user, env[1..]);
      } else {
        Creates(st, now, ttl, who, user, Some(now), env[1..]);
      }
    }
  }

  lemma {:induction false} RecordLeads(st: Store, now: Time, ttl: Time, who: UserId, user: User, env: seq<Choice>)
    requires |env| == 2
    ensures Alone(st, now, ttl, LoginRecord(who, user, now), env) ==
      if !env[0].ok then Refusal(st) else SignedOn(st, now, who, user, env[1])
  {
    hide Alone, Perform, Exec, SignedOn;
    var pc := LoginRecord(who, user, now);
    LoginStep(st, now, ttl, pc, env[0]);
    DoesNothing(st, now);
    var o := Exec(st, now, ttl, pc, env[0]);
    if !env[0].ok {
      Last(st, now, ttl, pc, env, o, st, Rejected);
    } else {
      Next(st, now, ttl, pc, env, o, st);
      Creates(st, now, ttl, who, user, Some(now), env[1..]);
    }
  }

  // The account with its rotation done.
  function RotationDone(st: Store, who: UserId): Store
    requires who in st.users
  {
    st.(users := st.users[who := st.users[who].(mustChange := false)])
  }

  lemma RotationStores(st: Store, now: Time, who: UserId)
    requires who in st.users
    ensures Perform(st, now, ResetPassword(who)) == RotationDone(st, who)
  {
  }

  /**
   The rotation form does something only while a rotation is pending; the new
   password is stored, and the user signs in or goes on to the second factor.
   */
  lemma {:induction false} RotationSignIn(st: Store, now: Time, ttl: Time, who: UserId, exp: Time, env: seq<Choice>)
    requires |env| == 4
    ensures Alone(st, now, ttl, ChangePassword(who, exp), env) ==
      if who !in st.users || !st.users[who].mustChange || !env[0].ok then Refusal(st)
      else
        var st1 := RotationDone(st, who);
        if st.users[who].mfaEnabled then Ending(st1, Finished(MfaPrompt), {})
        else SignedOn(st1, now, who, st1.users[who], env[3])
  {
    hide Alone, Perform, Exec, SignedOn;
    var pc := ChangePassword(who, exp);
    LoginStep(st, now, ttl, pc, env[0]);
    DoesNothing(st, now);
    var o := Exec(st, now, ttl, pc, env[0]);
    if who !in st.users || !st.users[who].mustChange || !env[0].ok {
      Last(st, now, ttl, pc, env, o, st, Rejected);
    } else {
      var st1 := RotationDone(st, who);
      Next(st, now, ttl, pc, env, o, st);
      LoginStep(st, now, ttl, ChangeStore(who), env[1]);
      RotationStores(st, now, who);
      Next(st, now, ttl, ChangeStore(who), env[1..], Do(ResetPassword(who), ChangeReload(who)), st1);
      assert env[1..][1..] == env[2..];
      ReloadLeads(st1, now, ttl, who, env[2..]);
    }
  }

  // The account may be gone by the time it is read again.
  lemma {:induction false} ReloadLeads(st: Store, now: Time, ttl: Time, who: UserId, env: seq<Choice>)
    requires |env| == 2
    ensures Alone(st, now, ttl, ChangeReload(who), env) ==
      if who !in st.users then Refusal(st)
      else if st.users[who].mfaEnabled then Ending(st, Finished(MfaPrompt), {})
      else SignedOn(st, now, who, st.users[who], env[1])
  {
    hide Alone, Perform, Exec, SignedOn;
    var pc := ChangeReload(who);
    LoginStep(st, now, ttl, pc, env[0]);
    DoesNothing(st, now);
    var o := Exec(st, now, ttl, pc, env[0]);
    if who !in st.users {
      Last(st, now, ttl, pc, env, o, st, Rejected);
    } else if st.users[who].mfaEnabled {
      Last(st, now, ttl, pc, env, o, st, MfaPrompt);
    } else {
      Next(st, now, ttl, pc, env, o, st);
      Creates(st, now, ttl, who, st.users[who], None, env[1..]);
    }
  }

  // ---- registration ----

  function NewAccount(admin: bool): User {
    User(true, false, admin, false)
  }

  function Enrolled(st: Store, uid: UserId, admin: bool): Store {
    st.(users := st.users[uid := NewAccount(admin)])
  }

  lemma Enrols(st: Store, now: Time, uid: UserId)
    ensures var w := InsertUser(uid, NEW_USER);
      if uid in st.users then Answer(st, w) == Refused && Perform(st, now, w) == st
      else Answer(st, w) == Done && Perform(st, now, w) == Enrolled(st, uid, false)
  {
  }

  lemma Promotes(st: Store, now: Time, uid: UserId)
    ensures Perform(Enrolled(st, uid, false), now, PromoteUser(uid)) == Enrolled(st, uid, true)
  {
  }

  /**
   A registration makes a new account, an administrator's if it is the very
   first, and signs it in; if the journal is out of reach the account goes again.
   */
  lemma {:induction false} Registration(st: Store, now: Time, ttl: Time, env: seq<Choice>)
    requires |env| == 4
    ensures var uid, first := env[0].id, st.users == map[];
      var journal, last := if first then env[2] else env[1], if first then env[3] else env[2];
      Alone(st, now, ttl, Register, env) ==
        if !env[0].ok then Refusal(st)
        else if uid in st.users then Failure(st)
        else
          var st1 := Enrolled(st, uid, first);
          if journal.ok then SignedOn(st1, now, uid, NewAccount(first), last)
          else Failure(Perform(st1, now, DropUser(uid)))
  {
    hide Alone, Perform, Exec, SignedOn, Answer, Enrolled;
    var uid := env[0].id;
    LoginStep(st, now, ttl, Register, env[0]);
    DoesNothing(st, now);
    Enrols(st, now, uid);
    var o := Exec(st, now, ttl, Register, env[0]);
    if !env[0].ok {
      Last(st, now, ttl, Register, env, o, st, Rejected);
    } else if uid in st.users {
      Last(st, now, ttl, Register, env, o, st, ServerError);
    } else {
      var st1 := Enrolled(st, uid, false);
      Next(st, now, ttl, Register, env, o, st1);
      EnrolledLeads(st, now, ttl, uid, env[1..]);
    }
  }

  // What follows once the account is there.
  function AfterEnrolling(uid: UserId, user: User, now: Time, ok: bool): Pc {
    if ok then PortalCreate(uid, user, None, now) else RegisterUndo(uid)
  }

  lemma CountGoes(st: Store, now: Time, ttl: Time, uid: UserId, ch: Choice)
    ensures Exec(st, now, ttl, RegisterCount(uid, NEW_USER), ch)
      == Go(if |st.users| == 1 then RegisterPromote(uid, NEW_USER)
            else AfterEnrolling(uid, NewAccount(false), now, ch.ok))
  {
    LoginStep(st, now, ttl, RegisterCount(uid, NEW_USER), ch);
    hide Exec, ExecLogin, ExecLoginMfa, ExecLoginFactor, ExecLoginRecord, ExecChangePassword, ExecChangeReload;
    hide ExecPortalCreate;
  }

  lemma PromoteGoes(st: Store, now: Time, ttl: Time, uid: UserId, ch: Choice)
    ensures Exec(st, now, ttl, RegisterPromote(uid, NEW_USER), ch)
      == Do(PromoteUser(uid), AfterEnrolling(uid, NewAccount(true), now, ch.ok))
  {
    LoginStep(st, now, ttl, RegisterPromote(uid, NEW_USER), ch);
    hide Exec, ExecLogin, ExecLoginMfa, ExecLoginFactor, ExecLoginRecord, ExecChangePassword, ExecChangeReload;
    hide ExecPortalCreate;
  }

  lemma {:induction false} EnrolledLeads(st: Store, now: Time, ttl: Time, uid: UserId, env: seq<Choice>)
    requires |env| == 3 && uid !in st.users
    ensures var first := st.users == map[];
      var journal, last := if first then env[1] else env[0], if first then env[2] else env[1];
      var st1 := Enrolled(st, uid, first);
      Alone(Enrolled(st, uid, false), now, ttl, RegisterCount(uid, NEW_USER), env) ==
        if journal.ok then SignedOn(st1, now, uid, NewAccount(first), last)
        else Failure(Perform(st1, now, DropUser(uid)))
  {
    var first, st0 := st.users == map[], Enrolled(st, uid, false);
    OnlyOne(st, uid);
    hide Alone, Perform, Exec, SignedOn, Enrolled, NewAccount;
    var pc := RegisterCount(uid, NEW_USER);
    CountGoes(st0, now, ttl, uid, env[0]);
    DoesNothing(st0, now);
    Next(st0, now, ttl, pc, env, Exec(st0, now, ttl, pc, env[0]), st0);
    if first {
      var pc1, st1 := RegisterPromote(uid, NEW_USER), Enrolled(st, uid, true);
      Promotes(st, now, uid);
      PromoteGoes(st0, now, ttl, uid, env[1]);
      Next(st0, now, ttl, pc1, env[1..], Exec(st0, now, ttl, pc1, env[1]), st1);
      assert env[1..][1..] == env[2..];
      RegisteredLeads(st1, now, ttl, uid, NewAccount(true), env[1].ok, env[2..]);
    } else {
      RegisteredLeads(st0, now, ttl, uid, NewAccount(false), env[0].ok, env[1..]);
    }
  }

  lemma OnlyOne(st: Store, uid: UserId)
    requires uid !in st.users
    ensures |Enrolled(st, uid, false).users| == 1 <==> st.users == map[]
  {
    assert Enrolled(st, uid, false).users.Keys == st.users.Keys + {uid};
    if |st.users.Keys| == 0 { assert st.users == map[]; }
  }

  lemma {:induction false} RegisteredLeads(st: Store, now: Time, ttl: Time, uid: UserId, user: User, ok: bool,
                                           env: seq<Choice>)
    requires env != []
    ensures Alone(st, now, ttl, AfterEnrolling(uid, user, now, ok), env) ==
      if ok then SignedOn(st, now, uid, user, env[0]) else Failure(Perform(st, now, DropUser(uid)))
  {
    hide Alone, Perform, Exec, SignedOn;
    if ok {
      Creates(st, now, ttl, uid, user, None, env);
    } else {
      LoginStep(st, now, ttl, RegisterUndo(uid), env[0]);
      Last(st, now, ttl, RegisterUndo(uid), env, Do(DropUser(uid), Finished(ServerError)),
           Perform(st, now, DropUser(uid)), ServerError);
    }
  }

  // ---- /authorize (section 4.1.1 of RFC 6749) ----

  // An unused code, good for ten minutes.
  function NewCode(req: AuthReq, mfaAt: Option<Time>, now: Time, ch: Choice): Grant {
    Grant(req.user, req.client, ch.t1, req.challenge, req.scopes, req.redirect, now + 10 * MINUTE, false, mfaAt,
          req.authTime)
  }

  ghost function CodeGiven(st: Store, now: Time, req: AuthReq, mfaAt: Option<Time>, ch: Choice): Ending {
    if CanGrant(st, ch, req.user, req.client)
    then Ending(st.(grants := st.grants[ch.id := NewCode(req, mfaAt, now, ch)]), Finished(CodeIssued(ch.id)), {})
    else Failure(st)
  }

  lemma {:induction false} CodeIsGiven(st: Store, now: Time, ttl: Time, req: AuthReq, mfaAt: Option<Time>,
                                       passed: Option<Time>, env: seq<Choice>)
    requires env != []
    ensures Alone(st, now, ttl, IssueCode(req, mfaAt, passed, now), env)
      == CodeGiven(st, now, req, if passed.Some? then Some(now) else mfaAt, env[0])
  {
    hide Alone, Perform, Exec, Answer, CanGrant;
    var ch, pc := env[0], IssueCode(req, mfaAt, passed, now);
    var g := NewCode(req, if passed.Some? then Some(now) else mfaAt, now, ch);
    FormStep(st, now, ttl, pc, ch);
    Outcomes.Grants(st, now, g, req.ticket, ch);
    var o := Exec(st, now, ttl, pc, ch);
    if CanGrant(st, ch, req.user, req.client) {
      Last(st, now, ttl, pc, env, o, st.(grants := st.grants[ch.id := g]), CodeIssued(ch.id));
    } else {
      Last(st, now, ttl, pc, env, o, st, ServerError);
    }
  }

  // The end of every interactive authorization: a portal session if one can
  // be had, with its cookie, and a code in any case.
  ghost function Authorized(st: Store, now: Time, req: AuthReq, user: User, mfaAt: Option<Time>, seat: Choice,
                            issue: Choice): Ending {
    if CanSeat(st, seat, Some(req.user), PORTAL_CLIENT)
    then CodeGiven(SeatedStore(st, req.user, user, now, seat), now, req, mfaAt, issue)
         .(cookies := {PortalCookie(seat.t1)})
    else CodeGiven(st, now, req, mfaAt, issue)
  }

  lemma {:induction false} SeatLeads(st: Store, now: Time, ttl: Time, req: AuthReq, user: User, passed: Option<Time>,
                                     env: seq<Choice>)
    requires |env| == 2
    ensures Alone(st, now, ttl, Seat(req, user, passed, now), env)
      == Authorized(st, now, req, user, if passed.Some? then Some(now) else None, env[0], env[1])
  {
    hide Alone, Perform, Exec, Answer, CanSeat, CanGrant, PortalRow, SeatedStore, StampIf, NewCode;
    var ch, pc := env[0], Seat(req, user, passed, now);
    var issue := IssueCode(req, None, passed, now);
    FormStep(st, now, ttl, pc, ch);
    PortalSeats(st, now, req.user, user, ch);
    var o := Exec(st, now, ttl, pc, ch);
    if CanSeat(st, ch, Some(req.user), PORTAL_CLIENT) {
      var seated := SeatedStore(st, req.user, user, now, ch);
      Next(st, now, ttl, pc, env, o, seated);
      CodeIsGiven(seated, now, ttl, req, None, passed, env[1..]);
      assert {PortalCookie(ch.t1)} + {} == {PortalCookie(ch.t1)};
    } else {
      Next(st, now, ttl, pc, env, o, st);
      CodeIsGiven(st, now, ttl, req, None, passed, env[1..]);
    }
  }

  /**
   The login form of /authorize: a registered scope, then a right password of
   an active account; with a second factor due a cookie good for 15 minutes
   carries the request there, else the code is given.
   */
  lemma {:induction false} AuthorizeSignIn(st: Store, now: Time, ttl: Time, client: ClientId, scope: string,
                                           who: UserId, redirectUri: nat, challenge: Option<nat>, env: seq<Choice>)
    requires |env| == 4
    ensures var req := AuthReq(who, client, SplitScopes(scope), redirectUri, challenge, now, env[0].id);
      Alone(st, now, ttl, AuthRequest(client, scope, who, redirectUri, challenge), env) ==
        if client !in st.clients || !Grantable(st.clients[client].scopes, SplitScopes(scope)) then Refusal(st)
        else if who !in st.users || !st.users[who].active || !env[1].ok then Refusal(st)
        else if st.users[who].mfaEnabled then
          Ending(st, Finished(MfaPrompt), {AuthCookie(req, now + 15 * MINUTE)})
        else Authorized(st, now, req, st.users[who], None, env[2], env[3])
  {
    hide Alone, Perform, Exec, Authorized, AcceptScopes, Grantable, SplitScopes;
    var pc := AuthRequest(client, scope, who, redirectUri, challenge);
    var next := AuthLogin(client, SplitScopes(scope), who, redirectUri, challenge, env[0].id);
    FormStep(st, now, ttl, pc, env[0]);
    ScopesAccepted(st, client, scope, next);
    DoesNothing(st, now);
    var o := Exec(st, now, ttl, pc, env[0]);
    if client !in st.clients || !Grantable(st.clients[client].scopes, SplitScopes(scope)) {
      Last(st, now, ttl, pc, env, o, st, Rejected);
    } else {
      Next(st, now, ttl, pc, env, o, st);
      AuthLoginLeads(st, now, ttl, client, SplitScopes(scope), who, redirectUri, challenge, env[0].id, env[1..]);
    }
  }

  lemma {:induction false} AuthLoginLeads(st: Store, now: Time, ttl: Time, client: ClientId, scopes: Scopes,
                                          who: UserId, redirectUri: nat, challenge: Option<nat>, ticket: TicketId,
                                          env: seq<Choice>)
    requires |env| == 3
    ensures var req := AuthReq(who, client, scopes, redirectUri, challenge, now, ticket);
      Alone(st, now, ttl, AuthLogin(client, scopes, who, redirectUri, challenge, ticket), env) ==
        if who !in st.users || !st.users[who].active || !env[0].ok then Refusal(st)
        else if st.users[who].mfaEnabled then
          Ending(st, Finished(MfaPrompt), {AuthCookie(req, now + 15 * MINUTE)})
        else Authorized(st, now, req, st.users[who], None, env[1], env[2])
  {
    hide Alone, Perform, Exec, Authorized;
    var pc := AuthLogin(client, scopes, who, redirectUri, challenge, ticket);
    FormStep(st, now, ttl, pc, env[0]);
    DoesNothing(st, now);
    var o := Exec(st, now, ttl, pc, env[0]);
    if who !in st.users || !st.users[who].active || !env[0].ok {
      Last(st, now, ttl, pc, env, o, st, Rejected);
    } else if st.users[who].mfaEnabled {
      Last(st, now, ttl, pc, env, o, st, MfaPrompt);
    } else {
      var req := AuthReq(who, client, scopes, redirectUri, challenge, now, ticket);
      Next(st, now, ttl, pc, env, o, st);
      SeatLeads(st, now, ttl, req, st.users[who], None, env[1..]);
    }
  }

  /** Its second-factor forms: the code carries the time at which the factor was proven. */
  lemma {:induction false} AuthorizeFactor(st: Store, now: Time, ttl: Time, req: AuthReq, exp: Time, webauthn: bool,
                                           env: seq<Choice>)
    requires |env| == if webauthn then 6 else 5
    ensures Alone(st, now, ttl, AuthMfa(req, exp, webauthn), env) ==
      if req.user !in st.users || !env[1].ok || (webauthn && !env[2].ok) || req.client !in st.clients then Refusal(st)
      else Authorized(st, now, req, st.users[req.user], Some(now), env[|env| - 2], env[|env| - 1])
  {
    hide Alone, Perform, Exec, Authorized;
    var pc := AuthMfa(req, exp, webauthn);
    FormStep(st, now, ttl, pc, env[0]);
    DoesNothing(st, now);
    var o := Exec(st, now, ttl, pc, env[0]);
    if req.user !in st.users {
      Last(st, now, ttl, pc, env, o, st, Rejected);
    } else {
      var user := st.users[req.user];
      var factor := AuthFactor(req, user, webauthn);
      Next(st, now, ttl, pc, env, o, st);
      FormStep(st, now, ttl, factor, env[1]);
      var o1 := Exec(st, now, ttl, factor, env[1]);
      if !env[1].ok {
        Last(st, now, ttl, factor, env[1..], o1, st, Rejected);
      } else {
        Next(st, now, ttl, factor, env[1..], o1, st);
        assert env[1..][1..] == env[2..];
        if webauthn {
          AuthRecordLeads(st, now, ttl, req, user, env[2..]);
        } else {
          AuthClientLeads(st, now, ttl, req, user, env[2..]);
        }
      }
    }
  }

  lemma {:induction false} AuthRecordLeads(st: Store, now: Time, ttl: Time, req: AuthReq, user: User, env: seq<Choice>)
    requires |env| == 4
    ensures Alone(st, now, ttl, AuthRecord(req, user, now), env) ==
      if !env[0].ok || req.client !in st.clients then Refusal(st)
      else Authorized(st, now, req, user, Some(now), env[2], env[3])
  {
    hide Alone, Perform, Exec, Authorized;
    var pc := AuthRecord(req, user, now);
    FormStep(st, now, ttl, pc, env[0]);
    DoesNothing(st, now);
    var o := Exec(st, now, ttl, pc, env[0]);
    if !env[0].ok {
      Last(st, now, ttl, pc, env, o, st, Rejected);
    } else {
      Next(st, now, ttl, pc, env, o, st);
      AuthClientLeads(st, now, ttl, req, user, env[1..]);
    }
  }

  lemma {:induction false} AuthClientLeads(st: Store, now: Time, ttl: Time, req: AuthReq, user: User, env: seq<Choice>)
    requires |env| == 3
    ensures Alone(st, now, ttl, AuthClient(req, user, now), env) ==
      if req.client !in st.clients then Refusal(st) else Authorized(st, now, req, user, Some(now), env[1], env[2])
  {
    hide Alone, Perform, Exec, Authorized;
    var pc := AuthClient(req, user, now);
    FormStep(st, now, ttl, pc, env[0]);
    DoesNothing(st, now);
    var o := Exec(st, now, ttl, pc, env[0]);
    if req.client !in st.clients {
      Last(st, now, ttl, pc, env, o, st, Rejected);
    } else {
      Next(st, now, ttl, pc, env, o, st);
      SeatLeads(st, now, ttl, req, user, Some(now), env[1..]);
    }
  }
}
