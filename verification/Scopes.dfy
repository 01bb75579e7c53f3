/**
 Scope attenuation over runs: what a session may do was registered on its
 client at the very step in which its own request asked for it.
 */
module ScopeChecks {
  import opened Text
  import opened Model
  import opened Stores
  import opened Protocol
  import opened Invariant
  import opened Keep
  import opened Inductive
  import opened Provenance

  // A request standing before its scope check.
  predicate Asks(pc: Pc) {
    pc.AuthRequest? || pc.SilentRequest? || pc.CredsRequest? || pc.DeviceRequest?
  }

  function AskedScopes(registered: Scopes, pc: Pc): Scopes
    requires Asks(pc)
  {
    if pc.DeviceRequest? then DeviceScopes(registered, pc.scope) else SplitScopes(pc.scope)
  }

  // The request asks for these scopes and its client is registered for them all.
  ghost predicate AsksWithin(st: Store, pc: Pc, client: ClientId, scopes: Scopes) {
    && Asks(pc) && pc.client == client && client in st.clients
    && scopes == AskedScopes(st.clients[client].scopes, pc) && AllRegistered(st.clients[client].scopes, scopes)
  }

  // Action a is the step in which request a.r passes its scope check and
  // draws the ticket for it.
  ghost predicate Passes(s: System, a: Action, ticket: TicketId, client: ClientId, scopes: Scopes) {
    a.Step? && Enabled(s, a.r, a.ch) && a.ch.id == ticket && AsksWithin(s.st, s.reqs[a.r], client, scopes)
  }

  // Only those four requests accept scopes, and only registered ones.
  lemma OnlyAskersAccept(st: Store, now: Time, ttl: Time, pc: Pc, ch: Choice)
    ensures var o := Exec(st, now, ttl, pc, ch);
      o.accept.Some? ==> AsksWithin(st, pc, o.accept.value.client, o.accept.value.scopes)
  {
    hide Answer, SplitScopes, AllRegistered, UnregisteredScope, DeviceScopes;
    if pc.DeviceRequest? {
    } else if Asks(pc) {
      AcceptedAreRegistered(st, pc.client, pc.scope, NextIfAccepted(now, pc, ch));
    } else {
      NothingToAccept(st, now, ttl, pc, ch);
    }
  }

  function NextIfAccepted(now: Time, pc: Pc, ch: Choice): Pc
    requires Asks(pc) && !pc.DeviceRequest?
  {
    match pc
    case AuthRequest(client, scope, who, redirectUri, codeChallenge) =>
      AuthLogin(client, SplitScopes(scope), who, redirectUri, codeChallenge, ch.id)
    case SilentRequest(_, _, _, _, token) => PortalRead(token, SilentPurpose(pc, ch.id))
    case CredsRequest(client, scope) => CredsMint(client, SplitScopes(scope), ch.id, now)
  }

  lemma NothingToAccept(st: Store, now: Time, ttl: Time, pc: Pc, ch: Choice)
    requires !Asks(pc)
    ensures Exec(st, now, ttl, pc, ch).accept.None?
  {
    hide Answer, ExecRefresh, ExecCode, ExecDevice, ExecPortalLogin, ExecPortal, ExecAuthorize;
    match FamilyOf(pc)
    case RefreshFamily => RefreshWrites(st, now, pc, ch);
    case CodeFamily => CodeWrites(st, now, pc, ch);
    case DeviceFamily => DeviceWrites(st, now, pc, ch);
    case AuthorizeFamily => FormsAcceptNothing(st, now, pc, ch);
    case LoginFamily => LoginsAcceptNothing(st, now, pc, ch);
    case PortalFamily => CookiesAcceptNothing(st, now, ttl, pc, ch);
    case _ => hide AllRegistered, DeviceScopes, UnregisteredScope;
  }

  lemma FormsAcceptNothing(st: Store, now: Time, pc: Pc, ch: Choice)
    requires !pc.AuthRequest?
    ensures ExecAuthorize(st, now, pc, ch).accept.None?
  {
    hide Answer, PortalRow, CodeGrant;
  }

  lemma LoginsAcceptNothing(st: Store, now: Time, pc: Pc, ch: Choice)
    ensures ExecPortalLogin(st, now, pc, ch).accept.None?
  {
    hide ExecPortalLogin, Answer, PortalRow;
    if pc.PortalCreate? { CreateRuns(st, now, pc, ch); }
    else if pc.Login? { PasswordRuns(st, now, pc, ch); }
    else { LoginWrites(st, now, pc, ch); }
  }

  lemma CookiesAcceptNothing(st: Store, now: Time, ttl: Time, pc: Pc, ch: Choice)
    requires !pc.SilentRequest?
    ensures ExecPortal(st, now, ttl, pc, ch).accept.None?
  {
    hide Answer, SessionTokenLive, SilentMfaAt, StepUpFresh;
  }

  // A ticket that was not there before is this step's own.
  lemma NewTicket(s: System, a: Action, k: TicketId)
    requires Inv(s) && k !in s.h.accepted && k in Apply(s, a).h.accepted
    ensures var t := Apply(s, a).h.accepted[k];
      Passes(s, a, k, t.what.client, t.what.scopes) && a.r == t.req
  {
    hide Inv, Exec, Perform, Record, Initial, Administrative, FreshChoice, AsksWithin, Wrote;
    if a.Step? && Enabled(s, a.r, a.ch) {
      var o := Exec(s.st, s.now, s.ttl, s.reqs[a.r], a.ch);
      RecordShape(s, a.r, a.ch, o);
      OnlyAskersAccept(s.st, s.now, s.ttl, s.reqs[a.r], a.ch);
    }
  }

  // Every ticket was drawn at one moment of the run.
  lemma {:induction false} TicketHasAMoment(s: System, acts: seq<Action>, k: TicketId) returns (n: nat)
    requires Inv(s) && k !in s.h.accepted && k in Run(s, acts).h.accepted
    ensures n < |acts| && k !in Run(s, acts[..n]).h.accepted
    ensures var t := Run(s, acts).h.accepted[k];
      Passes(Run(s, acts[..n]), acts[n], k, t.what.client, t.what.scopes) && acts[n].r == t.req
    decreases |acts|
  {
    hide Inv, Apply, Passes;
    var s1 := Apply(s, acts[0]);
    ActionKeepsInv(s, acts[0]);
    if k in s1.h.accepted {
      n := 0;
      NewTicket(s, acts[0], k);
      RunGrows(s1, acts[1..]);
      assert acts[..0] == [];
    } else {
      var m := TicketHasAMoment(s1, acts[1..], k);
      n := m + 1;
      assert acts[..n] == [acts[0]] + acts[1..][..m];
      StepThenRun(s, acts[0], acts[1..][..m]);
    }
  }

  // ---- the check behind a session ----

  // The scope list a session was granted: for a device session, what the
  // device asked for; otherwise its own scopes.
  ghost function GrantedScopes(h: History, sid: SessionId): Scopes
    requires sid in h.born
  {
    var b := h.born[sid];
    if b.source.ByDevice? && b.source.device in h.devices then h.devices[b.source.device].scopes else b.row.scopes
  }

  // The ticket that came with the code, the device grant or the request itself.
  ghost predicate TicketBehind(h: History, sid: SessionId, ticket: TicketId) {
    && sid in h.born
    && match h.born[sid].source
       case ByPortal => false
       case ByClient(t) => t == ticket
       case ByCode(gid) => gid in h.codeTicket && h.codeTicket[gid] == ticket
       case ByDevice(did) => did in h.deviceTicket && h.deviceTicket[did] == ticket
  }

  // Neither the session nor the code or device grant behind it exists yet.
  ghost predicate NotYet(before: History, h: History, sid: SessionId) {
    && sid !in before.born && sid in h.born
    && match h.born[sid].source
       case ByCode(gid) => gid !in before.grants
       case ByDevice(did) => did !in before.devices
       case _ => true
  }

  lemma BearerHasTicket(s: System, sid: SessionId) returns (ticket: TicketId)
    requires Inv(s) && IsBearer(s.h, sid)
    ensures TicketBehind(s.h, sid, ticket) && Accepted(s.h, ticket, s.h.born[sid].row.client, GrantedScopes(s.h, sid))
    ensures s.h.born[sid].row.scopes ==
      (if s.h.born[sid].source.ByDevice? then StoredDeviceScopes(GrantedScopes(s.h, sid)) else GrantedScopes(s.h, sid))
  {
    hide FreshInv, SessionsInv, LineageInv, PcsInv, JarInv, RotationsInv, ChallengesInv, AcceptedInv, MfaOk;
    var b := s.h.born[sid];
    assert BirthOk(s.h, sid, b);
    match b.source
    case ByClient(t) => ticket := t;
    case ByCode(gid) =>
      assert GrantOk(s.h, s.now, gid, s.h.grants[gid]);
      ticket := s.h.codeTicket[gid];
    case ByDevice(did) => ticket := s.h.deviceTicket[did];
  }

  lemma CodesHaveTickets(s: System, gid: GrantId)
    requires CodesInv(s.st, s.h, s.now)
    ensures gid in s.h.grants ==> gid in s.h.codeTicket && s.h.codeTicket[gid] in s.h.accepted
  {
    assert gid in s.h.grants ==> GrantOk(s.h, s.now, gid, s.h.grants[gid]);
  }

  lemma DevicesHaveTickets(s: System, did: DeviceId)
    requires DevicesInv(s.st, s.h)
    ensures did in s.h.devices ==> did in s.h.deviceTicket && s.h.deviceTicket[did] in s.h.accepted
  {
  }

  lemma SessionsHaveTickets(s: System, sid: SessionId)
    requires BirthsInv(s.h)
    ensures sid in s.h.born ==>
      match s.h.born[sid].source
      case ByClient(ticket) => ticket in s.h.accepted
      case ByCode(gid) => gid in s.h.grants
      case ByDevice(did) => did in s.h.devices
      case ByPortal => true
  {
    assert sid in s.h.born ==> BirthOk(s.h, sid, s.h.born[sid]);
  }

  // Before its ticket is drawn there is nothing to show for it.
  lemma NothingBeforeTheTicket(s: System, h': History, sid: SessionId, ticket: TicketId)
    requires Inv(s) && Grows(s.h, h') && TicketBehind(h', sid, ticket) && ticket !in s.h.accepted
    ensures NotYet(s.h, h', sid)
  {
    hide FreshInv, SessionsInv, LineageInv, PcsInv, JarInv, RotationsInv, ChallengesInv, AcceptedInv, BirthsInv;
    hide CodesInv, DevicesInv, RestGrows;
    SessionsHaveTickets(s, sid);
    match h'.born[sid].source
    case ByCode(gid) => CodesHaveTickets(s, gid);
    case ByDevice(did) => DevicesHaveTickets(s, did);
    case _ =>
  }

  /**
   Behind every code, device or client-credentials session stands one request
   that passed the scope check: at that very step every scope the session was
   granted was registered on its client, and neither the session nor the code
   or device grant it came from existed. Refreshing never changes the list. A
   device session's list has been through the text column of its grant, which
   is harmless exactly for scopes that are words.
   */
  lemma {:induction false} ScopesWereRegistered(s0: System, acts: seq<Action>, sid: SessionId)
    returns (n: nat, ticket: TicketId)
    requires Start(s0) && sid in Run(s0, acts).st.sessions && IsBearer(Run(s0, acts).h, sid)
    ensures n < |acts|
    ensures var s, before := Run(s0, acts), Run(s0, acts[..n]);
      var row, granted := s.st.sessions[sid], GrantedScopes(s.h, sid);
      && TicketBehind(s.h, sid, ticket) && Passes(before, acts[n], ticket, row.client, granted)
      && NotYet(before.h, s.h, sid)
      && (if s.h.born[sid].source.ByDevice? then row.scopes == StoredDeviceScopes(granted) else row.scopes == granted)
      && (row.scopes == granted <==> !s.h.born[sid].source.ByDevice? || AreWords(granted, IsSpace))
  {
    hide Inv, Run, Start, Passes, TicketBehind, NotYet, AreWords, GrantedScopes, BirthOk, Grows;
    StartInv(s0);
    RunKeepsInv(s0, acts);
    var s := Run(s0, acts);
    LivingAsBorn(s, sid);
    ticket := BearerHasTicket(s, sid);
    NothingAcceptedYet(s0);
    n := TicketHasAMoment(s0, acts, ticket);
    RunKeepsInv(s0, acts[..n]);
    RunGrows(Run(s0, acts[..n]), acts[n..]);
    assert acts == acts[..n] + acts[n..];
    RunAppend(s0, acts[..n], acts[n..]);
    NothingBeforeTheTicket(Run(s0, acts[..n]), s.h, sid, ticket);
    JoinThenFields(GrantedScopes(s.h, sid), ' ', IsSpace);
  }

  lemma NothingAcceptedYet(s: System)
    requires Start(s)
    ensures s.h.accepted == map[]
  {
  }

  // A registered scope with a space in it comes out of the device grant as
  // two scopes the client was never registered for.
  lemma DeviceScopeWithSpaceSplits()
    ensures var registered := ["read all"];
      && AllRegistered(registered, registered) && StoredDeviceScopes(registered) == ["read", "all"]
      && !ContainsStr(registered, "read") && !ContainsStr(registered, "all")
  {
    hide Fields, AllRegistered;
    var registered := ["read all"];
    OwnScopesAreRegistered(registered);
    FieldsOfJoinedWords(["read", "all"], ' ', IsSpace);
    assert Join(registered, ' ') == Join(["read", "all"], ' ') by { JoinedPair("read", "all"); }
  }

  lemma JoinedPair(a: string, b: string)
    ensures Join([a, b], ' ') == a + " " + b
  {
    assert [a, b][1..] == [b];
  }
}
