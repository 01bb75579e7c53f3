/**
 The portal's handlers, and silent single sign-on, as straight-line code over
 the database; each does what the protocol machine does to the request alone.
 */
module Browser {
  import opened Model
  import opened Stores
  import opened Protocol
  import opened Databases
  import opened Handlers

  lemma CreateDispatch(st: Store, now: Time, ttl: Time, who: UserId, user: User, passed: Option<Time>, ch: Choice)
    ensures Exec(st, now, ttl, PortalCreate(who, user, passed, now), ch)
      == ExecPortalCreate(st, who, user, passed, now, ch)
  {
    hide ExecPortalCreate;
  }

  lemma LoginDispatch(st: Store, now: Time, ttl: Time, who: UserId, exp: Time, user: User, webauthn: bool, ch: Choice)
    ensures Exec(st, now, ttl, Login(who), ch) == ExecLogin(st, now, who, ch)
    ensures Exec(st, now, ttl, LoginMfa(who, exp, webauthn), ch) == ExecLoginMfa(st, who, webauthn)
    ensures Exec(st, now, ttl, LoginFactor(who, user, webauthn), ch) == ExecLoginFactor(now, who, user, webauthn, ch)
    ensures Exec(st, now, ttl, LoginRecord(who, user, now), ch) == ExecLoginRecord(now, who, user, now, ch)
  {
    hide ExecLogin, ExecLoginMfa, ExecLoginFactor, ExecLoginRecord, ExecRefresh, ExecCode, ExecDevice, ExecClient;
    hide ExecAuthorize, ExecPortal;
  }

  lemma ChangeDispatch(st: Store, now: Time, ttl: Time, who: UserId, exp: Time, ch: Choice)
    ensures Exec(st, now, ttl, ChangePassword(who, exp), ch) == ExecChangePassword(st, who, ch)
    ensures Exec(st, now, ttl, ChangeStore(who), ch) == Do(ResetPassword(who), ChangeReload(who))
    ensures Exec(st, now, ttl, ChangeReload(who), ch) == ExecChangeReload(st, now, who)
  {
    hide ExecChangePassword, ExecChangeReload;
  }

  lemma RegisterDispatch(st: Store, now: Time, ttl: Time, uid: UserId, user: User, ch: Choice)
    ensures Exec(st, now, ttl, Register, ch) == ExecRegister(st, ch)
    ensures Exec(st, now, ttl, RegisterCount(uid, user), ch) == ExecRegisterCount(st, now, uid, user, ch)
    ensures Exec(st, now, ttl, RegisterPromote(uid, user), ch) == ExecRegisterPromote(now, uid, user, ch)
    ensures Exec(st, now, ttl, RegisterUndo(uid), ch) == Do(DropUser(uid), Finished(ServerError))
  {
    hide ExecRegister, ExecRegisterCount, ExecRegisterPromote, ExecRefresh, ExecCode, ExecDevice, ExecClient;
    hide ExecAuthorize, ExecPortal;
  }

  lemma ActDispatch(st: Store, now: Time, ttl: Time, sid: SessionId, row: Session, uid: UserId, purpose: Purpose,
                    ch: Choice)
    ensures Exec(st, now, ttl, PortalAct(sid, row, uid, purpose), ch)
      == ExecPortalAct(st, now, ttl, sid, row, uid, purpose, ch)
  {
    hide ExecPortalAct;
  }

  lemma StepUpDispatch(st: Store, now: Time, ttl: Time, sid: SessionId, uid: UserId, console: bool, ch: Choice)
    ensures Exec(st, now, ttl, StepUpRecord(sid, uid, now, console), ch)
      == ExecStepUpRecord(now, sid, uid, now, console, ch)
    ensures Exec(st, now, ttl, StepUpMark(sid, uid, now, now, console), ch)
      == ExecStepUpMark(sid, uid, now, now, console)
    ensures Exec(st, now, ttl, StepUpGo(uid, now, console), ch) == ExecStepUpGo(uid, now, console, ch)
  {
    hide ExecStepUpRecord, ExecStepUpMark, ExecStepUpGo, ExecRefresh, ExecCode, ExecDevice, ExecClient, ExecAuthorize;
    hide ExecPortalLogin, ExecPortalRead, ExecPortalUser, ExecPortalSlide, ExecPortalAct, AcceptScopes;
  }

  lemma IssueDispatch(st: Store, now: Time, ttl: Time, req: AuthReq, mfaAt: Option<Time>, passed: Option<Time>,
                      ch: Choice)
    ensures Exec(st, now, ttl, IssueCode(req, mfaAt, passed, now), ch) == ExecIssueCode(st, req, mfaAt, passed, now, ch)
  {
    hide ExecIssueCode;
  }

  lemma SilentDispatch(st: Store, now: Time, ttl: Time, pc: Pc, ch: Choice)
    requires pc.SilentRequest?
    ensures Exec(st, now, ttl, pc, ch)
      == AcceptScopes(st, pc.client, pc.scope,
                      PortalRead(pc.token,
                                 Silent(pc.client, SplitScopes(pc.scope), pc.redirectUri, pc.codeChallenge, ch.id)))
  {
    hide AcceptScopes, SplitScopes;
  }

  // Nothing happens once a registration has ended.
  lemma {:induction false} RestIsIdle(st: Store, now: Time, ttl: Time, uid: UserId, ok: bool, env: seq<Choice>)
    requires |env| == 2
    ensures var pc := Registered(now, uid, NEW_USER, Choice(0, 0, 0, ok));
      Solo(st, now, ttl, pc, env) == Solo(st, now, ttl, pc, env[..1])
  {
    hide Constraints, Perform, Solo, Exec, Answer;
    var pc := Registered(now, uid, NEW_USER, Choice(0, 0, 0, ok));
    if ok {
      CreateDispatch(st, now, ttl, uid, NEW_USER, None, env[0]);
    } else {
      RegisterDispatch(st, now, ttl, uid, NEW_USER, env[0]);
    }
    var out := Exec(st, now, ttl, pc, env[0]).next.out;
    SoloEnds(st, now, ttl, pc, out, env);
    SoloEnds(st, now, ttl, pc, out, env[..1]);
  }

  class Portal {
    const server: Server

    constructor (server: Server)
      ensures this.server == server
    {
      this.server := server;
    }

    // createPortalSession. env[0].ok: the audit journal is reachable.
    method CreatePortalSession(now: Time, who: UserId, user: User, passed: Option<Time>,
                               env: seq<Choice>) returns (out: Outcome)
      requires server.db.Valid() && |env| == 1
      modifies server.db
      ensures server.db.Valid()
      ensures (server.db.View(), Finished(out))
        == Solo(old(server.db.View()), now, server.ttl, PortalCreate(who, user, passed, now), env)
    {
      hide Constraints, Perform, Solo, Answer, Exec, PortalRow, StampIf;
      ghost var st := server.db.View();
      var drawn := env[0];
      var created := server.db.CreateSession(drawn.id, PortalRow(who, user, now, drawn), ByPortal, now);
      out := if created == Done && drawn.ok then SignedIn(drawn.id) else ServerError;
      CreateDispatch(st, now, server.ttl, who, user, passed, drawn);
      SoloEnds(st, now, server.ttl, PortalCreate(who, user, passed, now), out, env);
    }

    // After the promotion, if there was one: ok tells whether the new account
    // could be audited. One that could not is taken back.
    method FinishRegistration(now: Time, uid: UserId, user: User, ok: bool, env: seq<Choice>) returns (out: Outcome)
      requires server.db.Valid() && |env| == 1
      modifies server.db
      ensures server.db.Valid()
      ensures (server.db.View(), Finished(out))
        == Solo(old(server.db.View()), now, server.ttl, Registered(now, uid, user, Choice(0, 0, 0, ok)), env)
    {
      hide Constraints, Perform, Solo, Exec;
      ghost var st := server.db.View();
      if ok {
        out := CreatePortalSession(now, uid, user, None, env);
        return;
      }
      RegisterDispatch(st, now, server.ttl, uid, user, env[0]);
      server.db.DeleteUser(uid, now);
      SoloEnds(st, now, server.ttl, RegisterUndo(uid), ServerError, env);
      out := ServerError;
    }

    // env[0].ok: registration is open, the password is acceptable and the
    // e-mail address is free; env[1].ok and env[2].ok: the audit journal is
    // reachable.
    method HandlePortalRegisterPost(now: Time, env: seq<Choice>) returns (out: Outcome)
      requires server.db.Valid() && |env| == 4
      modifies server.db
      ensures server.db.Valid()
      ensures (server.db.View(), Finished(out)) == Solo(old(server.db.View()), now, server.ttl, Register, env)
    {
      hide Constraints, Perform, Solo, Exec;
      ghost var st := server.db.View();
      RegisterDispatch(st, now, server.ttl, 0, NEW_USER, env[0]);
      if !env[0].ok {
        SoloEnds(st, now, server.ttl, Register, Rejected, env);
        return Rejected;
      }
      var uid := env[0].id;
      var created := server.db.CreateUser(uid, NEW_USER, now);
      if created != Done {
        SoloEnds(st, now, server.ttl, Register, ServerError, env);
        return ServerError;
      }
      SoloNext(st, now, server.ttl, Register, env);
      out := PromoteIfFirstUser(now, uid, env[1..]);
    }

    method PromoteIfFirstUser(now: Time, uid: UserId, env: seq<Choice>) returns (out: Outcome)
      requires server.db.Valid() && |env| == 3
      modifies server.db
      ensures server.db.Valid()
      ensures (server.db.View(), Finished(out))
        == Solo(old(server.db.View()), now, server.ttl, RegisterCount(uid, NEW_USER), env)
    {
      hide Constraints, Perform, Solo, Exec;
      ghost var st := server.db.View();
      RegisterDispatch(st, now, server.ttl, uid, NEW_USER, env[0]);
      SoloNext(st, now, server.ttl, RegisterCount(uid, NEW_USER), env);
      if |server.db.users| == 1 {
        server.db.SetUserAdmin(uid, now);
        RegisterDispatch(st, now, server.ttl, uid, NEW_USER, env[1]);
        SoloNext(st, now, server.ttl, RegisterPromote(uid, NEW_USER), env[1..]);
        assert env[1..][1..] == env[2..];
        out := FinishRegistration(now, uid, NEW_USER.(isAdmin := true), env[1].ok, env[2..]);
      } else {
        out := FinishRegistration(now, uid, NEW_USER, env[0].ok, env[1..][..1]);
        RestIsIdle(st, now, server.ttl, uid, env[0].ok, env[1..]);
      }
    }

    // env[0].ok: the password matches and no policy rule objects.
    method HandlePortalLoginPost(now: Time, who: UserId, env: seq<Choice>) returns (out: Outcome)
      requires server.db.Valid() && |env| == 2
      modifies server.db
      ensures server.db.Valid()
      ensures (server.db.View(), Finished(out)) == Solo(old(server.db.View()), now, server.ttl, Login(who), env)
    {
      hide Constraints, Perform, Solo, Exec;
      ghost var st := server.db.View();
      LoginDispatch(st, now, server.ttl, who, now, NEW_USER, false, env[0]);
      if who !in server.db.users || !server.db.users[who].active || !env[0].ok {
        SoloEnds(st, now, server.ttl, Login(who), Rejected, env);
        return Rejected;
      }
      var user := server.db.users[who];
      if user.mustChange || user.mfaEnabled {
        SoloEnds(st, now, server.ttl, Login(who), MfaPrompt, env);
        return MfaPrompt;
      }
      SoloNext(st, now, server.ttl, Login(who), env);
      out := CreatePortalSession(now, who, user, None, env[1..]);
    }

    // env[1].ok: the TOTP code verifies.
    method HandlePortalLoginMfa(now: Time, who: UserId, exp: Time, env: seq<Choice>) returns (out: Outcome)
      requires server.db.Valid() && |env| == 3
      modifies server.db
      ensures server.db.Valid()
      ensures now > exp ==> out == Rejected && server.db.View() == old(server.db.View())
      ensures now <= exp ==>
        (server.db.View(), Finished(out))
        == Solo(old(server.db.View()), now, server.ttl, LoginMfa(who, exp, false), env)
    {
      hide Constraints, Perform, Solo, Exec;
      if now > exp { return Rejected; }
      ghost var st := server.db.View();
      LoginDispatch(st, now, server.ttl, who, exp, NEW_USER, false, env[0]);
      if who !in server.db.users || server.db.users[who].mustChange {
        SoloEnds(st, now, server.ttl, LoginMfa(who, exp, false), Rejected, env);
        return Rejected;
      }
      SoloNext(st, now, server.ttl, LoginMfa(who, exp, false), env);
      var user := server.db.users[who];
      LoginDispatch(st, now, server.ttl, who, exp, user, false, env[1]);
      if !env[1].ok {
        SoloEnds(st, now, server.ttl, LoginFactor(who, user, false), Rejected, env[1..]);
        return Rejected;
      }
      SoloNext(st, now, server.ttl, LoginFactor(who, user, false), env[1..]);
      assert env[1..][1..] == env[2..];
      out := CreatePortalSession(now, who, user, Some(now), env[2..]);
    }

    // env[1].ok: the assertion verifies; env[2].ok: its use is recorded.
    method HandlePortalLoginMfaWebAuthnFinish(now: Time, who: UserId, exp: Time,
                                              env: seq<Choice>) returns (out: Outcome)
      requires server.db.Valid() && |env| == 4
      modifies server.db
      ensures server.db.Valid()
      ensures now > exp ==> out == Rejected && server.db.View() == old(server.db.View())
      ensures now <= exp ==>
        (server.db.View(), Finished(out)) == Solo(old(server.db.View()), now, server.ttl, LoginMfa(who, exp, true), env)
    {
      hide Constraints, Perform, Solo, Exec;
      if now > exp { return Rejected; }
      ghost var st := server.db.View();
      LoginDispatch(st, now, server.ttl, who, exp, NEW_USER, true, env[0]);
      if who !in server.db.users {
        SoloEnds(st, now, server.ttl, LoginMfa(who, exp, true), Rejected, env);
        return Rejected;
      }
      SoloNext(st, now, server.ttl, LoginMfa(who, exp, true), env);
      out := FinishLogin(now, who, server.db.users[who], env[1..]);
    }

    method FinishLogin(now: Time, who: UserId, user: User, env: seq<Choice>) returns (out: Outcome)
      requires server.db.Valid() && |env| == 3
      modifies server.db
      ensures server.db.Valid()
      ensures (server.db.View(), Finished(out))
        == Solo(old(server.db.View()), now, server.ttl, LoginFactor(who, user, true), env)
    {
      hide Constraints, Perform, Solo, Exec;
      ghost var st := server.db.View();
      LoginDispatch(st, now, server.ttl, who, now, user, true, env[0]);
      LoginDispatch(st, now, server.ttl, who, now, user, true, env[1]);
      if !env[0].ok {
        SoloEnds(st, now, server.ttl, LoginFactor(who, user, true), Rejected, env);
        return Rejected;
      }
      SoloNext(st, now, server.ttl, LoginFactor(who, user, true), env);
      if !env[1].ok {
        SoloEnds(st, now, server.ttl, LoginRecord(who, user, now), Rejected, env[1..]);
        return Rejected;
      }
      SoloNext(st, now, server.ttl, LoginRecord(who, user, now), env[1..]);
      assert env[1..][1..] == env[2..];
      out := CreatePortalSession(now, who, user, Some(now), env[2..]);
    }

    // env[0].ok: the new password is accepted.
    method HandlePortalChangePassword(now: Time, who: UserId, exp: Time, env: seq<Choice>) returns (out: Outcome)
      requires server.db.Valid() && |env| == 4
      modifies server.db
      ensures server.db.Valid()
      ensures now > exp ==> out == Rejected && server.db.View() == old(server.db.View())
      ensures now <= exp ==>
        (server.db.View(), Finished(out)) == Solo(old(server.db.View()), now, server.ttl, ChangePassword(who, exp), env)
    {
      hide Constraints, Perform, Solo, Exec;
      if now > exp { return Rejected; }
      ghost var st := server.db.View();
      ChangeDispatch(st, now, server.ttl, who, exp, env[0]);
      if who !in server.db.users || !server.db.users[who].mustChange || !env[0].ok {
        SoloEnds(st, now, server.ttl, ChangePassword(who, exp), Rejected, env);
        return Rejected;
      }
      SoloNext(st, now, server.ttl, ChangePassword(who, exp), env);
      ChangeDispatch(st, now, server.ttl, who, exp, env[1]);
      server.db.UpdateUserPassword(who, now);
      SoloNext(st, now, server.ttl, ChangeStore(who), env[1..]);
      assert env[1..][1..] == env[2..];
      out := ResumeLogin(now, who, env[2..]);
    }

    // The user is loaded again after the rotation.
    method ResumeLogin(now: Time, who: UserId, env: seq<Choice>) returns (out: Outcome)
      requires server.db.Valid() && |env| == 2
      modifies server.db
      ensures server.db.Valid()
      ensures (server.db.View(), Finished(out)) == Solo(old(server.db.View()), now, server.ttl, ChangeReload(who), env)
    {
      hide Constraints, Perform, Solo, Exec;
      ghost var st := server.db.View();
      ChangeDispatch(st, now, server.ttl, who, now, env[0]);
      if who !in server.db.users {
        SoloEnds(st, now, server.ttl, ChangeReload(who), Rejected, env);
        return Rejected;
      }
      var user := server.db.users[who];
      if user.mfaEnabled {
        SoloEnds(st, now, server.ttl, ChangeReload(who), MfaPrompt, env);
        return MfaPrompt;
      }
      SoloNext(st, now, server.ttl, ChangeReload(who), env);
      out := CreatePortalSession(now, who, user, None, env[1..]);
    }

    // portalAuth around a handler.
    method PortalAuth(now: Time, token: Token, ghost purpose: Purpose, ghost env: seq<Choice>)
      returns (visit: Option<(SessionId, Session, UserId)>)
      requires server.db.Valid() && |env| >= 3 && !purpose.Silent?
      modifies server.db
      ensures server.db.Valid()
      ensures var solo := Solo(old(server.db.View()), now, server.ttl, PortalRead(token, purpose), env);
        if visit.None? then (server.db.View(), Finished(Rejected)) == solo
        else solo == Solo(server.db.View(), now, server.ttl,
                          PortalAct(visit.value.0, visit.value.1, visit.value.2, purpose), env[3..])
    {
      hide Solo;
      visit := server.ReadAuthPortalSession(now, token, purpose, env);
      if visit.Some? {
        server.SlidePortalSession(now, visit.value.0, visit.value.1, visit.value.2, purpose, env[2..]);
        assert env[2..][1..] == env[3..];
      }
    }

    // env[3].ok: the role and the region resolve.
    method HandlePortalAwsConsole(now: Time, token: Token, stepUpRole: bool, env: seq<Choice>) returns (out: Outcome)
      requires server.db.Valid() && |env| == 4
      modifies server.db
      ensures server.db.Valid()
      ensures (server.db.View(), Finished(out))
        == Solo(old(server.db.View()), now, server.ttl, PortalRead(token, Console(stepUpRole)), env)
    {
      hide Constraints, Perform, Solo, Exec, StepUpFresh;
      var visit := PortalAuth(now, token, Console(stepUpRole), env);
      if visit.None? { return Rejected; }
      var (sid, row, uid) := visit.value;
      ghost var st := server.db.View();
      if !env[3].ok {
        out := Rejected;
      } else if stepUpRole && !StepUpFresh(row.mfaAt, now, server.ttl) {
        out := StepUpRequired;
      } else {
        out := ConsoleUrl(uid, stepUpRole, now, row.mfaAt);
      }
      ActDispatch(st, now, server.ttl, sid, row, uid, Console(stepUpRole), env[3]);
      SoloEnds(st, now, server.ttl, PortalAct(sid, row, uid, Console(stepUpRole)), out, env[3..]);
    }

    // env[3].ok: the TOTP code verifies; env[5].ok: the role and the region resolve.
    method HandlePortalStepUp(now: Time, token: Token, console: bool, env: seq<Choice>) returns (out: Outcome)
      requires server.db.Valid() && |env| == 6
      modifies server.db
      ensures server.db.Valid()
      ensures (server.db.View(), Finished(out))
        == Solo(old(server.db.View()), now, server.ttl, PortalRead(token, StepUp(false, console)), env)
    {
      hide Constraints, Perform, Solo, Exec;
      var visit := PortalAuth(now, token, StepUp(false, console), env);
      if visit.None? { return Rejected; }
      var (sid, row, uid) := visit.value;
      ghost var st, rest := server.db.View(), env[3..];
      ActDispatch(st, now, server.ttl, sid, row, uid, StepUp(false, console), rest[0]);
      if !env[3].ok {
        SoloEnds(st, now, server.ttl, PortalAct(sid, row, uid, StepUp(false, console)), Rejected, rest);
        return Rejected;
      }
      SoloNext(st, now, server.ttl, PortalAct(sid, row, uid, StepUp(false, console)), rest);
      out := MarkAndDispatch(now, sid, uid, console, env[5].ok, rest[1..]);
    }

    // env[3].ok: the assertion verifies; env[4].ok: its use is recorded;
    // env[6].ok: the role and the region resolve.
    method HandlePortalStepUpWebAuthnFinish(now: Time, token: Token, console: bool,
                                            env: seq<Choice>) returns (out: Outcome)
      requires server.db.Valid() && |env| == 7
      modifies server.db
      ensures server.db.Valid()
      ensures (server.db.View(), Finished(out))
        == Solo(old(server.db.View()), now, server.ttl, PortalRead(token, StepUp(true, console)), env)
    {
      hide Constraints, Perform, Solo, Exec;
      var visit := PortalAuth(now, token, StepUp(true, console), env);
      if visit.None? { return Rejected; }
      var (sid, row, uid) := visit.value;
      ghost var st, rest := server.db.View(), env[3..];
      ActDispatch(st, now, server.ttl, sid, row, uid, StepUp(true, console), rest[0]);
      if !env[3].ok {
        SoloEnds(st, now, server.ttl, PortalAct(sid, row, uid, StepUp(true, console)), Rejected, rest);
        return Rejected;
      }
      SoloNext(st, now, server.ttl, PortalAct(sid, row, uid, StepUp(true, console)), rest);
      StepUpDispatch(st, now, server.ttl, sid, uid, console, rest[1]);
      if !env[4].ok {
        SoloEnds(st, now, server.ttl, StepUpRecord(sid, uid, now, console), Rejected, rest[1..]);
        return Rejected;
      }
      SoloNext(st, now, server.ttl, StepUpRecord(sid, uid, now, console), rest[1..]);
      assert rest[1..][1..] == rest[2..];
      out := MarkAndDispatch(now, sid, uid, console, env[6].ok, rest[2..]);
    }

    // markStepUpSuccess, dispatchStepUpNext.
    method MarkAndDispatch(now: Time, sid: SessionId, uid: UserId, console: bool, resolves: bool,
                           ghost env: seq<Choice>)
      returns (out: Outcome)
      requires server.db.Valid() && |env| == 2 && env[1].ok == resolves
      modifies server.db
      ensures server.db.Valid()
      ensures (server.db.View(), Finished(out)) ==
        Solo(old(server.db.View()), now, server.ttl, StepUpMark(sid, uid, now, now, console), env)
    {
      hide Constraints, Perform, Solo, Exec;
      ghost var st := server.db.View();
      server.db.MarkSessionMfa(sid, now, now);
      StepUpDispatch(st, now, server.ttl, sid, uid, console, env[0]);
      SoloNext(st, now, server.ttl, StepUpMark(sid, uid, now, now, console), env);
      out := if !console then Page else if resolves then ConsoleUrl(uid, true, now, Some(now)) else Rejected;
      ghost var st1 := server.db.View();
      StepUpDispatch(st1, now, server.ttl, sid, uid, console, env[1]);
      SoloEnds(st1, now, server.ttl, StepUpGo(uid, now, console), out, env[1..]);
    }

    // env[2].ok: login_hint, max_age and the policy rules pass.
    method TrySilentSso(now: Time, client: ClientId, scope: string, redirectUri: nat, codeChallenge: Option<nat>,
                        token: Token, env: seq<Choice>)
      returns (out: Outcome)
      requires server.db.Valid() && |env| == 6
      modifies server.db
      ensures server.db.Valid()
      ensures (server.db.View(), Finished(out))
        == Solo(old(server.db.View()), now, server.ttl,
                SilentRequest(client, scope, redirectUri, codeChallenge, token), env)
    {
      hide Constraints, Perform, Solo, Exec, UnregisteredScope, SplitScopes;
      ghost var st := server.db.View();
      var scopes := SplitScopes(scope);
      ghost var pc0 := SilentRequest(client, scope, redirectUri, codeChallenge, token);
      ghost var purpose := Silent(client, scopes, redirectUri, codeChallenge, env[0].id);
      SilentDispatch(st, now, server.ttl, pc0, env[0]);
      if client !in server.db.clients || UnregisteredScope(server.db.clients[client].scopes, scopes) != "" {
        SoloEnds(st, now, server.ttl, pc0, Rejected, env);
        return Rejected;
      }
      SoloNext(st, now, server.ttl, pc0, env);
      var found := server.db.GetSessionByAccessToken(token);
      ReadsFirst(st, now, server.ttl, token, purpose, env[1]);
      if found.None? || !SessionTokenLive(server.db.sessions[found.value], now) {
        SoloEnds(st, now, server.ttl, PortalRead(token, purpose), Rejected, env[1..]);
        return Rejected;
      }
      SoloNext(st, now, server.ttl, PortalRead(token, purpose), env[1..]);
      var sid, row := found.value, server.db.sessions[found.value];
      out := SignOn(now, sid, row, client, scopes, redirectUri, codeChallenge, env[0].id, env[1..][1..]);
    }

    method SignOn(now: Time, sid: SessionId, row: Session, client: ClientId, scopes: Scopes, redirectUri: nat,
                  codeChallenge: Option<nat>, ticket: TicketId, env: seq<Choice>)
      returns (out: Outcome)
      requires server.db.Valid() && |env| == 4
      modifies server.db
      ensures server.db.Valid()
      ensures (server.db.View(), Finished(out))
        == Solo(old(server.db.View()), now, server.ttl,
                PortalUser(sid, row, Silent(client, scopes, redirectUri, codeChallenge, ticket)), env)
    {
      hide Constraints, Perform, Solo, Exec;
      ghost var st := server.db.View();
      ghost var purpose := Silent(client, scopes, redirectUri, codeChallenge, ticket);
      ReadsUser(st, now, server.ttl, sid, row, purpose, env[0]);
      if row.user.None? || row.user.value !in server.db.users {
        SoloEnds(st, now, server.ttl, PortalUser(sid, row, purpose), Rejected, env);
        return Rejected;
      }
      var uid := row.user.value;
      var user := server.db.users[uid];
      if !user.active || (user.mfaEnabled && !row.mfaVerified) || !env[0].ok {
        SoloEnds(st, now, server.ttl, PortalUser(sid, row, purpose), Rejected, env);
        return Rejected;
      }
      SoloNext(st, now, server.ttl, PortalUser(sid, row, purpose), env);
      server.SlidePortalSession(now, sid, row, uid, purpose, env[1..]);
      out := CarryAndIssue(now, sid, row, uid, client, scopes, redirectUri, codeChallenge, ticket, env[1..][1..]);
    }

    // The session's MFA provenance goes into the code.
    method CarryAndIssue(now: Time, sid: SessionId, row: Session, uid: UserId, client: ClientId, scopes: Scopes,
                         redirectUri: nat, codeChallenge: Option<nat>, ticket: TicketId, env: seq<Choice>)
      returns (out: Outcome)
      requires server.db.Valid() && |env| == 2
      modifies server.db
      ensures server.db.Valid()
      ensures (server.db.View(), Finished(out))
        == Solo(old(server.db.View()), now, server.ttl,
                PortalAct(sid, row, uid, Silent(client, scopes, redirectUri, codeChallenge, ticket)), env)
    {
      hide Constraints, Perform, Solo, Exec, Answer;
      ghost var st := server.db.View();
      ghost var purpose := Silent(client, scopes, redirectUri, codeChallenge, ticket);
      var mfaAt: Option<Time> := None;
      if row.mfaVerified {
        mfaAt := row.mfaAt;
        if mfaAt.None? { mfaAt := Some(row.createdAt); }
      }
      var req := AuthReq(uid, client, scopes, redirectUri, codeChallenge, row.createdAt, ticket);
      ActDispatch(st, now, server.ttl, sid, row, uid, purpose, env[0]);
      SoloNext(st, now, server.ttl, PortalAct(sid, row, uid, purpose), env);
      var drawn := env[1];
      var g := Grant(uid, client, drawn.t1, codeChallenge, scopes, redirectUri, now + CODE_TTL, false, mfaAt,
                     row.createdAt);
      var created := server.db.CreateGrant(drawn.id, g, ticket, now);
      out := if created == Done then CodeIssued(drawn.id) else ServerError;
      IssueDispatch(st, now, server.ttl, req, mfaAt, None, drawn);
      SoloEnds(st, now, server.ttl, IssueCode(req, mfaAt, None, now), out, env[1..]);
    }
  }
}
