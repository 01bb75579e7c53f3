/**
 Concrete runs of the machine, one step after another: one account, one client
 without scopes, every outside check passing, and a clock that stands still
 but for one wait.
 */
module Scenes {
  import opened Model
  import opened Stores
  import opened Protocol
  import opened Invariant
  import opened Inductive

  const USER: UserId := 1
  const CLIENT: ClientId := 1
  const REQ1: ReqId := 1
  const REQ2: ReqId := 2
  const REQ3: ReqId := 3
  const SEAT: SessionId := 2

  // What the environment supplies at the n-th step.
  function Draw(n: nat): Choice {
    Choice(n, 2 * n, 2 * n + 1, true)
  }

  // A reachable state after n steps.
  ghost predicate Scene(s: System, n: int, user: User, ttl: Time) {
    && Reachable(s) && s.ttl == ttl && s.st.users == map[USER := user]
    && PORTAL_CLIENT in s.st.clients && CLIENT in s.st.clients && s.st.clients[CLIENT].scopes == []
    && (forall i | i in s.h.ids :: i < n) && (forall t | t in s.h.drawn :: t < 2 * n)
  }

  ghost predicate At(s: System, r: ReqId, pc: Pc) {
    r in s.reqs && s.reqs[r] == pc
  }

  function SeenRow(h: History, r: ReqId): Option<User> {
    if r in h.seen then Some(h.seen[r]) else None
  }

  ghost predicate CameAs(s: System, r: ReqId, pc0: Pc) {
    r in s.h.arrived && s.h.arrived[r].pc == pc0
  }

  // Nobody is signed in, the third request is still to come, and these
  // factors have been verified.
  ghost predicate SoFar(s: System, verified: set<(UserId, Time)>) {
    s.st.sessions == map[] && REQ3 !in s.reqs && s.h.verified == verified
  }

  lemma SceneHas(s: System, n: int, user: User, ttl: Time)
    requires Scene(s, n, user, ttl)
    ensures Reachable(s) && s.ttl == ttl && s.st.users == map[USER := user]
    ensures CLIENT in s.st.clients && s.st.clients[CLIENT].scopes == []
  {
    hide Reachable;
  }

  function Opening(user: User, ttl: Time): System {
    var client := Client([], false, false);
    var st := Store(map[USER := user], map[PORTAL_CLIENT := client, CLIENT := client], map[], map[], map[], map[]);
    System(0, ttl, st, map[], {}, EMPTY_HISTORY)
  }

  lemma OpeningIsScene(user: User, ttl: Time)
    requires ttl >= 0
    ensures Scene(Opening(user, ttl), 0, user, ttl)
  {
    hide Apply;
    assert Run(Opening(user, ttl), []) == Opening(user, ttl);
  }

  lemma {:induction false} ReachesOn(s: System, a: Action)
    requires Reachable(s)
    ensures Reachable(Apply(s, a))
  {
    hide Apply, Start;
    var s0, acts :| Start(s0) && s == Run(s0, acts);
    RunAppend(s0, acts, [a]);
    assert [a][1..] == [];
    assert Run(s, [a]) == Run(Apply(s, a), []);
    assert Apply(s, a) == Run(s0, acts + [a]);
  }

  // ---- one action ----

  // A statement that leaves users and clients alone.
  predicate Harmless(w: Write) {
    w.Nothing? || w.InsertSession? || w.InsertGrant? || w.Extend? || w.MarkMfa?
  }

  lemma HarmlessIs(st: Store, now: Time, w: Write)
    requires Harmless(w)
    ensures Perform(st, now, w).users == st.users && Perform(st, now, w).clients == st.clients
  {
    hide Answer;
  }

  // A step of request r that comes to o.
  ghost predicate Stepped(s: System, r: ReqId, ch: Choice, o: Out, s': System) {
    && s'.reqs == s.reqs[r := o.next] && s'.st == Perform(s.st, s.now, o.write) && s'.now == s.now
    && s'.jar == (if o.seal.Some? then s.jar + {o.seal.value} else s.jar) && s'.h == Record(s, r, ch, o)
  }

  lemma {:induction false} Next(s: System, n: nat, user: User, ttl: Time, r: ReqId, pc: Pc) returns (s': System)
    requires Scene(s, n, user, ttl) && At(s, r, pc) && !pc.Finished?
    requires Harmless(Exec(s.st, s.now, ttl, pc, Draw(n)).write)
    ensures Scene(s', n + 1, user, ttl) && Stepped(s, r, Draw(n), Exec(s.st, s.now, ttl, pc, Draw(n)), s')
  {
    hide Exec, Perform, Record, Answer, Wrote, Reachable;
    var o := Exec(s.st, s.now, ttl, pc, Draw(n));
    s' := Apply(s, Step(r, Draw(n)));
    ReachesOn(s, Step(r, Draw(n)));
    RecordShape(s, r, Draw(n), o);
    HarmlessIs(s.st, s.now, o.write);
  }

  lemma {:induction false} Enters(s: System, n: nat, user: User, ttl: Time, r: ReqId, pc: Pc) returns (s': System)
    requires Scene(s, n, user, ttl) && r !in s.reqs && Initial(s.jar, s.now, pc)
    ensures Scene(s', n, user, ttl) && s' == Arrived(s, r, pc)
  {
    hide Initial, Reachable;
    s' := Apply(s, Arrive(r, pc));
    ReachesOn(s, Arrive(r, pc));
  }

  lemma {:induction false} Waits(s: System, n: nat, user: User, ttl: Time, to: Time) returns (s': System)
    requires Scene(s, n, user, ttl) && s.now <= to
    ensures Scene(s', n, user, ttl) && s' == s.(now := to)
  {
    hide Reachable;
    s' := Apply(s, Tick(to));
    ReachesOn(s, Tick(to));
  }

  // ---- what a step leaves on record ----

  lemma WriteShowsNoRow(h: History, now: Time, r: ReqId, w: Write)
    ensures RecordWrite(h, now, r, w).seen == h.seen && RecordWrite(h, now, r, w).verified == h.verified
  {
  }

  lemma RecordsRow(s: System, r: ReqId, ch: Choice, o: Out)
    ensures var row := RowRead(s.st, PcAt(s, r), ch);
      Record(s, r, ch, o).seen == if row.Some? then s.h.seen[r := row.value] else s.h.seen
  {
    hide Answer, PasswordPassed, FactorPassed, RowRead;
    WriteShowsNoRow(s.h, s.now, r, o.write);
  }

  function Proved(verified: set<(UserId, Time)>, factor: Option<UserId>, now: Time): set<(UserId, Time)> {
    if factor.Some? then verified + {(factor.value, now)} else verified
  }

  lemma RecordsFactor(s: System, r: ReqId, ch: Choice, o: Out)
    ensures Record(s, r, ch, o).verified == Proved(s.h.verified, FactorPassed(PcAt(s, r), ch), s.now)
  {
    hide Answer, PasswordPassed, FactorPassed, RowRead;
    WriteShowsNoRow(s.h, s.now, r, o.write);
  }

  lemma RecordsStamp(s: System, r: ReqId, ch: Choice, o: Out)
    ensures var h' := Record(s, r, ch, o);
      && h'.arrived == s.h.arrived
      && h'.challenges == (if o.stamp.Some?
           then s.h.challenges[(o.stamp.value.uid, o.stamp.value.at) := Proof(r, o.stamp.value.passed)]
           else s.h.challenges)
  {
    hide Record, Wrote;
    RecordShape(s, r, ch, o);
  }

  // The step moves the request on to `next` and stamps nothing; what row it
  // reads and whose factor it verifies.
  ghost predicate Moves(st: Store, now: Time, ttl: Time, pc: Pc, ch: Choice, next: Pc, row: Option<User>,
                        factor: Option<UserId>) {
    && Exec(st, now, ttl, pc, ch).next == next && Exec(st, now, ttl, pc, ch).stamp == None
    && RowRead(st, pc, ch) == row && FactorPassed(pc, ch) == factor
  }

  // And it writes nothing.
  ghost predicate Leads(st: Store, now: Time, ttl: Time, pc: Pc, ch: Choice, next: Pc, row: Option<User>,
                        factor: Option<UserId>) {
    Moves(st, now, ttl, pc, ch, next, row, factor) && Exec(st, now, ttl, pc, ch).write == Nothing
  }

  ghost predicate Follows(s: System, r: ReqId, next: Pc, row: Option<User>, factor: Option<UserId>, s': System) {
    && s'.reqs == s.reqs[r := next] && s'.now == s.now && s.jar <= s'.jar
    && s'.h.arrived == s.h.arrived && s'.h.challenges == s.h.challenges
    && SeenRow(s'.h, r) == (if row.Some? then row else SeenRow(s.h, r))
    && s'.h.verified == Proved(s.h.verified, factor, s.now)
  }

  lemma {:induction false} Moved(s: System, n: nat, user: User, ttl: Time, r: ReqId, pc: Pc, next: Pc,
                                 row: Option<User>, factor: Option<UserId>)
    returns (s': System)
    requires Scene(s, n, user, ttl) && At(s, r, pc) && !pc.Finished?
    requires Moves(s.st, s.now, ttl, pc, Draw(n), next, row, factor)
    requires Harmless(Exec(s.st, s.now, ttl, pc, Draw(n)).write)
    ensures Scene(s', n + 1, user, ttl) && Follows(s, r, next, row, factor, s') && At(s', r, next) && s'.now == s.now
    ensures s'.st == Perform(s.st, s.now, Exec(s.st, s.now, ttl, pc, Draw(n)).write)
  {
    hide Scene, Exec, Record, Perform, RowRead, FactorPassed;
    var o := Exec(s.st, s.now, ttl, pc, Draw(n));
    s' := Next(s, n, user, ttl, r, pc);
    RecordsRow(s, r, Draw(n), o);
    RecordsFactor(s, r, Draw(n), o);
    RecordsStamp(s, r, Draw(n), o);
  }

  lemma NothingPerformed(st: Store, now: Time)
    ensures Perform(st, now, Nothing) == st
  {
  }

  lemma {:induction false} Led(s: System, n: nat, user: User, ttl: Time, r: ReqId, pc: Pc, next: Pc,
                               row: Option<User>, factor: Option<UserId>)
    returns (s': System)
    requires Scene(s, n, user, ttl) && At(s, r, pc) && !pc.Finished?
    requires Leads(s.st, s.now, ttl, pc, Draw(n), next, row, factor)
    ensures Scene(s', n + 1, user, ttl) && Follows(s, r, next, row, factor, s') && At(s', r, next) && s'.now == s.now
    ensures s'.st == s.st
  {
    hide Scene, Exec, Moves, Follows, Perform, At;
    s' := Moved(s, n, user, ttl, r, pc, next, row, factor);
    NothingPerformed(s.st, s.now);
  }

  // How a request came in, the row it last read, and the factors verified by now.
  datatype Way = Way(pc0: Pc, seen: Option<User>, verified: set<(UserId, Time)>)

  function Further(way: Way, row: Option<User>, factor: Option<UserId>, now: Time): Way {
    way.(seen := if row.Some? then row else way.seen, verified := Proved(way.verified, factor, now))
  }

  ghost predicate OnTheWay(s: System, r: ReqId, pc: Pc, way: Way) {
    At(s, r, pc) && CameAs(s, r, way.pc0) && SeenRow(s.h, r) == way.seen && SoFar(s, way.verified)
  }

  lemma FollowsTheWay(s: System, r: ReqId, pc: Pc, next: Pc, row: Option<User>, factor: Option<UserId>, s': System,
                      way: Way)
    requires OnTheWay(s, r, pc, way) && r != REQ3 && Follows(s, r, next, row, factor, s') && s'.st == s.st
    ensures OnTheWay(s', r, next, Further(way, row, factor, s.now)) && s'.reqs == s.reqs[r := next]
  {
  }

  lemma FirstFactor(way: Way)
    requires way.verified == {}
    ensures Further(way, None, Some(USER), 0) == Way(way.pc0, way.seen, {(USER, 0)})
  {
    assert {} + {(USER, 0)} == {(USER, 0)};
  }

  // Two steps without a factor.
  lemma FollowsOn(s1: System, s2: System, s3: System, r: ReqId, a: Pc, b: Pc, row1: Option<User>, row2: Option<User>)
    requires Follows(s1, r, a, row1, None, s2) && Follows(s2, r, b, row2, None, s3)
    ensures Follows(s1, r, b, if row2.Some? then row2 else row1, None, s3)
  {
    assert s1.reqs[r := a][r := b] == s1.reqs[r := b];
  }

  lemma {:induction false} Leg(s: System, n: nat, user: User, ttl: Time, r: ReqId, pc: Pc, next: Pc,
                               row: Option<User>, factor: Option<UserId>, way: Way)
    returns (s': System)
    requires Scene(s, n, user, ttl) && OnTheWay(s, r, pc, way) && r != REQ3 && !pc.Finished?
    requires Leads(s.st, s.now, ttl, pc, Draw(n), next, row, factor)
    ensures Scene(s', n + 1, user, ttl) && OnTheWay(s', r, next, Further(way, row, factor, s.now)) && s'.now == s.now
    ensures s'.st == s.st && s'.reqs == s.reqs[r := next]
  {
    hide Scene, Leads, Follows, CameAs, SoFar, Further, At;
    s' := Led(s, n, user, ttl, r, pc, next, row, factor);
    FollowsTheWay(s, r, pc, next, row, factor, s', way);
  }

  lemma {:induction false} Lingers(s: System, n: nat, user: User, ttl: Time, r: ReqId, pc: Pc, way: Way, late: Time)
    returns (s': System)
    requires Scene(s, n, user, ttl) && OnTheWay(s, r, pc, way) && s.now <= late
    ensures Scene(s', n, user, ttl) && OnTheWay(s', r, pc, way) && s'.now == late
  {
    hide Scene;
    s' := Waits(s, n, user, ttl, late);
  }

  // The request comes in.
  lemma {:induction false} SetsOut(s: System, n: nat, user: User, ttl: Time, r: ReqId, pc: Pc)
    returns (s': System, way: Way)
    requires Scene(s, n, user, ttl) && SoFar(s, {}) && r !in s.reqs && r != REQ3 && Initial(s.jar, s.now, pc)
    ensures Scene(s', n, user, ttl) && OnTheWay(s', r, pc, way) && s'.now == s.now && s'.reqs == s.reqs[r := pc]
    ensures way.pc0 == pc && way.verified == {}
  {
    hide Scene, Initial;
    s' := Enters(s, n, user, ttl, r, pc);
    way := Way(pc, SeenRow(s'.h, r), {});
  }

  // ---- which handler runs ----

  lemma FormRuns(st: Store, now: Time, ttl: Time, pc: Pc, ch: Choice)
    requires FamilyOf(pc) == AuthorizeFamily
    ensures Exec(st, now, ttl, pc, ch) == ExecAuthorize(st, now, pc, ch)
  {
    hide ExecAuthorize, ExecRefresh, ExecCode, ExecDevice, ExecClient, ExecPortalLogin, ExecPortal;
  }

  lemma LoginFamilyRuns(st: Store, now: Time, ttl: Time, pc: Pc, ch: Choice)
    requires FamilyOf(pc) == LoginFamily
    ensures Exec(st, now, ttl, pc, ch) == ExecPortalLogin(st, now, pc, ch)
  {
    hide ExecPortalLogin, ExecRefresh, ExecCode, ExecDevice, ExecClient, ExecAuthorize, ExecPortal;
  }

  lemma CookieRuns(st: Store, now: Time, ttl: Time, pc: Pc, ch: Choice)
    requires FamilyOf(pc) == PortalFamily
    ensures Exec(st, now, ttl, pc, ch) == ExecPortal(st, now, ttl, pc, ch)
  {
    hide ExecPortal, ExecRefresh, ExecCode, ExecDevice, ExecClient, ExecAuthorize, ExecPortalLogin;
  }

  // ---- fresh ids and tokens never collide ----

  lemma InsertIsDone(s: System, n: nat, user: User, ttl: Time, row: Session, source: Source)
    requires Scene(s, n, user, ttl) && row.access == 2 * n && row.refresh == 2 * n + 1
    requires row.user == Some(USER) && row.client == PORTAL_CLIENT
    ensures Answer(s.st, InsertSession(n, row, source)) == Done
  {
    hide LineageInv, RotationsInv, CodesInv, DevicesInv, BirthsInv, PcsInv, JarInv, AcceptedInv, ChallengesInv;
    hide Reachable;
    ReachableInv(s);
    forall sid | sid in s.st.sessions
      ensures sid < n && s.st.sessions[sid].access < 2 * n && s.st.sessions[sid].refresh < 2 * n
    {
      assert SessionOk(s.h, s.now, sid, s.st.sessions[sid]);
    }
  }

  lemma GrantIsDone(s: System, n: nat, user: User, ttl: Time, g: Grant, ticket: TicketId)
    requires Scene(s, n, user, ttl) && g.code == 2 * n && g.user == USER && g.client == CLIENT
    ensures Answer(s.st, InsertGrant(n, g, ticket)) == Done
  {
    hide LineageInv, RotationsInv, SessionsInv, DevicesInv, BirthsInv, PcsInv, JarInv, AcceptedInv, ChallengesInv;
    hide Reachable;
    ReachableInv(s);
    forall gid | gid in s.st.grants
      ensures gid < n && s.st.grants[gid].code < 2 * n
    {
      assert GrantOf(s.h, gid, s.st.grants[gid]) && GrantOk(s.h, s.now, gid, s.h.grants[gid]);
    }
  }

  function DrawnRow(user: User, at: Time, n: nat): Session {
    PortalRow(USER, user, at, Draw(n))
  }

  lemma RowIsInserted(s: System, n: nat, user: User, ttl: Time, row: User, at: Time)
    requires Scene(s, n, user, ttl)
    ensures Answer(s.st, InsertSession(n, DrawnRow(row, at, n), ByPortal)) == Done
  {
    hide Scene;
    InsertIsDone(s, n, user, ttl, DrawnRow(row, at, n), ByPortal);
  }

  lemma OnlyRow(st: Store, n: nat, user: User, now: Time)
    requires st.sessions == map[] && Answer(st, InsertSession(n, DrawnRow(user, now, n), ByPortal)) == Done
    ensures Perform(st, now, InsertSession(n, DrawnRow(user, now, n), ByPortal)).sessions
      == map[n := DrawnRow(user, now, n)]
  {
    hide Answer;
  }

  // ---- the forms at /authorize ----

  function AuthForm(): Pc {
    AuthRequest(CLIENT, "", USER, 0, None)
  }

  function PasswordCheck(): Pc {
    AuthLogin(CLIENT, [], USER, 0, None, 0)
  }

  function FormReq(): AuthReq {
    AuthReq(USER, CLIENT, [], 0, None, 0, 0)
  }

  lemma NoScopes()
    ensures SplitScopes("") == [] && UnregisteredScope([], []) == ""
  {
  }

  lemma AskLeads(st: Store, ttl: Time)
    requires CLIENT in st.clients && st.clients[CLIENT].scopes == []
    ensures Leads(st, 0, ttl, AuthForm(), Draw(0), PasswordCheck(), None, None)
  {
    NoScopes();
    FormRuns(st, 0, ttl, AuthForm(), Draw(0));
    hide Exec, SplitScopes, UnregisteredScope, ExecAuthLogin, ExecAuthMfa, ExecAuthFactor, ExecAuthRecord;
    hide ExecAuthClient, ExecSeat, ExecIssueCode;
  }

  // Up to the password check.
  lemma {:induction false} ToPassword(user: User, ttl: Time) returns (s: System, way: Way)
    requires ttl >= 0
    ensures Scene(s, 1, user, ttl) && OnTheWay(s, REQ1, PasswordCheck(), way) && s.now == 0 && REQ2 !in s.reqs
    ensures way.pc0 == AuthForm() && way.verified == {}
  {
    hide Scene, Leads;
    OpeningIsScene(user, ttl);
    var s1 := Enters(Opening(user, ttl), 0, user, ttl, REQ1, AuthForm());
    way := Way(AuthForm(), SeenRow(s1.h, REQ1), {});
    SceneHas(s1, 0, user, ttl);
    AskLeads(s1.st, ttl);
    s := Led(s1, 0, user, ttl, REQ1, AuthForm(), PasswordCheck(), None, None);
  }

  lemma PasswordLeads(st: Store, ttl: Time, user: User, ch: Choice)
    requires st.users == map[USER := user] && user.active && !user.mfaEnabled && ch.ok
    ensures Leads(st, 0, ttl, PasswordCheck(), ch, Seat(FormReq(), user, None, 0), Some(user), None)
  {
    FormRuns(st, 0, ttl, PasswordCheck(), ch);
    hide Exec, AcceptScopes, ExecAuthMfa, ExecAuthFactor, ExecAuthRecord, ExecAuthClient, ExecSeat, ExecIssueCode;
  }

  // A user without a second factor, about to be seated.
  lemma {:induction false} ToSeat(user: User, ttl: Time) returns (s: System, way: Way)
    requires user.active && !user.mfaEnabled && ttl >= 0
    ensures Scene(s, 2, user, ttl) && OnTheWay(s, REQ1, Seat(FormReq(), user, None, 0), way) && s.now == 0
    ensures REQ2 !in s.reqs && way == Way(AuthForm(), Some(user), {})
  {
    hide Scene, Leads, OnTheWay;
    s, way := ToPassword(user, ttl);
    SceneHas(s, 1, user, ttl);
    PasswordLeads(s.st, ttl, user, Draw(1));
    s := Leg(s, 1, user, ttl, REQ1, PasswordCheck(), Seat(FormReq(), user, None, 0), Some(user), None, way);
    way := Further(way, Some(user), None, 0);
  }

  lemma PromptSeals(st: Store, ttl: Time, user: User, ch: Choice)
    requires st.users == map[USER := user] && user.active && user.mfaEnabled && ch.ok
    ensures Leads(st, 0, ttl, PasswordCheck(), ch, Finished(MfaPrompt), Some(user), None)
    ensures Exec(st, 0, ttl, PasswordCheck(), ch).seal == Some(AuthCookie(FormReq(), AUTH_STATE_TTL))
  {
    FormRuns(st, 0, ttl, PasswordCheck(), ch);
    hide Exec, AcceptScopes, ExecAuthMfa, ExecAuthFactor, ExecAuthRecord, ExecAuthClient, ExecSeat, ExecIssueCode;
  }

  // A step that seals a cookie and does nothing else.
  lemma {:induction false} Sealed(s: System, n: nat, user: User, ttl: Time, pc: Pc, row: Option<User>, way: Way,
                                  cookie: Cookie)
    returns (s': System)
    requires Scene(s, n, user, ttl) && OnTheWay(s, REQ1, pc, way) && REQ2 !in s.reqs && !pc.Finished?
      && way.verified == {}
    requires Leads(s.st, s.now, ttl, pc, Draw(n), Finished(MfaPrompt), row, None)
    requires Exec(s.st, s.now, ttl, pc, Draw(n)).seal == Some(cookie)
    ensures Scene(s', n + 1, user, ttl) && REQ2 !in s'.reqs && s'.now == s.now && SoFar(s', {}) && cookie in s'.jar
  {
    hide Scene, Exec, Record, Perform, RowRead, FactorPassed;
    s' := Next(s, n, user, ttl, REQ1, pc);
    RecordsFactor(s, REQ1, Draw(n), Exec(s.st, s.now, ttl, pc, Draw(n)));
    NothingPerformed(s.st, s.now);
  }

  // A user with a second factor, sent to prove it.
  lemma {:induction false} ToPrompt(user: User, ttl: Time) returns (s: System)
    requires user.active && user.mfaEnabled && ttl >= 0
    ensures Scene(s, 2, user, ttl) && REQ2 !in s.reqs && s.now == 0
    ensures SoFar(s, {}) && AuthCookie(FormReq(), AUTH_STATE_TTL) in s.jar
  {
    hide Scene, Leads, Exec, OnTheWay, SoFar;
    var s1, way := ToPassword(user, ttl);
    SceneHas(s1, 1, user, ttl);
    PromptSeals(s1.st, ttl, user, Draw(1));
    s := Sealed(s1, 1, user, ttl, PasswordCheck(), Some(user), way, AuthCookie(FormReq(), AUTH_STATE_TTL));
  }

  function FactorForm(webauthn: bool): Pc {
    AuthMfa(FormReq(), AUTH_STATE_TTL, webauthn)
  }

  // The factor form behind that cookie.
  lemma {:induction false} ToFactorForm(user: User, webauthn: bool, ttl: Time) returns (s: System, way: Way)
    requires user.active && user.mfaEnabled && ttl >= 0
    ensures Scene(s, 2, user, ttl) && OnTheWay(s, REQ2, FactorForm(webauthn), way) && s.now == 0
    ensures way.pc0 == FactorForm(webauthn) && way.verified == {}
  {
    hide Scene, OnTheWay, SoFar;
    var s1 := ToPrompt(user, ttl);
    s, way := SetsOut(s1, 2, user, ttl, REQ2, FactorForm(webauthn));
  }

  lemma MfaLeads(st: Store, ttl: Time, user: User, webauthn: bool, ch: Choice)
    requires st.users == map[USER := user]
    ensures Leads(st, 0, ttl, FactorForm(webauthn), ch, AuthFactor(FormReq(), user, webauthn), Some(user), None)
  {
    FormRuns(st, 0, ttl, FactorForm(webauthn), ch);
    hide Exec, AcceptScopes, ExecAuthLogin, ExecAuthFactor, ExecAuthRecord, ExecAuthClient, ExecSeat, ExecIssueCode;
  }

  function AfterFactor(user: User, webauthn: bool): Pc {
    if webauthn then AuthRecord(FormReq(), user, 0) else AuthClient(FormReq(), user, 0)
  }

  lemma FactorLeads(st: Store, ttl: Time, user: User, webauthn: bool, ch: Choice)
    requires ch.ok
    ensures Leads(st, 0, ttl, AuthFactor(FormReq(), user, webauthn), ch, AfterFactor(user, webauthn), None, Some(USER))
  {
    FormRuns(st, 0, ttl, AuthFactor(FormReq(), user, webauthn), ch);
    hide Exec, AcceptScopes, ExecAuthLogin, ExecAuthMfa, ExecAuthRecord, ExecAuthClient, ExecSeat, ExecIssueCode;
  }

  // The factor has been verified at time 0.
  lemma {:induction false} ToVerified(user: User, webauthn: bool, ttl: Time) returns (s: System)
    requires user.active && user.mfaEnabled && ttl >= 0
    ensures Scene(s, 4, user, ttl) && s.now == 0
    ensures OnTheWay(s, REQ2, AfterFactor(user, webauthn), Way(FactorForm(webauthn), Some(user), {(USER, 0)}))
  {
    hide Scene, Leads, OnTheWay, AfterFactor;
    var way;
    s, way := ToFactorForm(user, webauthn, ttl);
    SceneHas(s, 2, user, ttl);
    MfaLeads(s.st, ttl, user, webauthn, Draw(2));
    s := Leg(s, 2, user, ttl, REQ2, FactorForm(webauthn), AuthFactor(FormReq(), user, webauthn), Some(user), None, way);
    way := Further(way, Some(user), None, 0);
    FactorLeads(s.st, ttl, user, webauthn, Draw(3));
    FirstFactor(way);
    s := Leg(s, 3, user, ttl, REQ2, AuthFactor(FormReq(), user, webauthn), AfterFactor(user, webauthn), None,
             Some(USER), way);
  }

  lemma RecordLeads(st: Store, ttl: Time, user: User, ch: Choice)
    requires ch.ok
    ensures Leads(st, 0, ttl, AuthRecord(FormReq(), user, 0), ch, AuthClient(FormReq(), user, 0), None, None)
  {
    FormRuns(st, 0, ttl, AuthRecord(FormReq(), user, 0), ch);
    hide Exec, AcceptScopes, ExecAuthLogin, ExecAuthMfa, ExecAuthFactor, ExecAuthClient, ExecSeat, ExecIssueCode;
  }

  lemma ClientLeads(st: Store, now: Time, ttl: Time, user: User, ch: Choice)
    requires CLIENT in st.clients
    ensures Leads(st, now, ttl, AuthClient(FormReq(), user, 0), ch, Seat(FormReq(), user, Some(0), now), None, None)
  {
    FormRuns(st, now, ttl, AuthClient(FormReq(), user, 0), ch);
    hide Exec, AcceptScopes, ExecAuthLogin, ExecAuthMfa, ExecAuthFactor, ExecAuthRecord, ExecSeat, ExecIssueCode;
  }

  // The use of a passkey has been recorded.
  lemma {:induction false} ToClient(user: User, webauthn: bool, ttl: Time) returns (s: System, n: nat)
    requires user.active && user.mfaEnabled && ttl >= 0
    ensures Scene(s, n, user, ttl) && s.now == 0
    ensures OnTheWay(s, REQ2, AuthClient(FormReq(), user, 0), Way(FactorForm(webauthn), Some(user), {(USER, 0)}))
  {
    hide Scene, Leads, OnTheWay;
    s := ToVerified(user, webauthn, ttl);
    n := 4;
    if webauthn {
      var way := Way(FactorForm(webauthn), Some(user), {(USER, 0)});
      RecordLeads(s.st, ttl, user, Draw(4));
      s := Leg(s, 4, user, ttl, REQ2, AuthRecord(FormReq(), user, 0), AuthClient(FormReq(), user, 0), None, None, way);
      n := 5;
    }
  }

  // The client is looked up again at `late`, before the cookie is seated.
  lemma {:induction false} ToFactor(user: User, webauthn: bool, ttl: Time, late: Time) returns (s: System, n: nat)
    requires user.active && user.mfaEnabled && ttl >= 0 && late >= 0
    ensures Scene(s, n, user, ttl) && s.now == late
    ensures OnTheWay(s, REQ2, Seat(FormReq(), user, Some(0), late), Way(FactorForm(webauthn), Some(user), {(USER, 0)}))
  {
    hide Scene, Leads, OnTheWay;
    var way := Way(FactorForm(webauthn), Some(user), {(USER, 0)});
    s, n := ToClient(user, webauthn, ttl);
    s := Lingers(s, n, user, ttl, REQ2, AuthClient(FormReq(), user, 0), way, late);
    SceneHas(s, n, user, ttl);
    ClientLeads(s.st, late, ttl, user, Draw(n));
    s := Leg(s, n, user, ttl, REQ2, AuthClient(FormReq(), user, 0), Seat(FormReq(), user, Some(0), late), None, None,
             way);
    n := n + 1;
  }

  // ---- the forms of the portal ----

  function LoginForm(): Pc {
    Login(USER)
  }

  lemma LoginSeals(st: Store, ttl: Time, user: User, ch: Choice)
    requires st.users == map[USER := user] && user.active && (user.mustChange || user.mfaEnabled) && ch.ok
    ensures Leads(st, 0, ttl, LoginForm(), ch, Finished(MfaPrompt), Some(user), None)
    ensures Exec(st, 0, ttl, LoginForm(), ch).seal == Some(LoginCookie(USER, PORTAL_LOGIN_TTL))
  {
    LoginFamilyRuns(st, 0, ttl, LoginForm(), ch);
    hide Exec, ExecLoginMfa, ExecLoginFactor, ExecLoginRecord, ExecPortalCreate, ExecRegistration, ExecChangePassword;
    hide ExecChangeReload;
  }

  // The password form sends the user on with a cookie.
  lemma {:induction false} ToLoginCookie(user: User, ttl: Time) returns (s: System)
    requires user.active && (user.mustChange || user.mfaEnabled) && ttl >= 0
    ensures Scene(s, 1, user, ttl) && REQ2 !in s.reqs && s.now == 0
    ensures SoFar(s, {}) && LoginCookie(USER, PORTAL_LOGIN_TTL) in s.jar
  {
    hide Scene, Leads, Exec;
    OpeningIsScene(user, ttl);
    var s1, way := SetsOut(Opening(user, ttl), 0, user, ttl, REQ1, LoginForm());
    SceneHas(s1, 0, user, ttl);
    LoginSeals(s1.st, ttl, user, Draw(0));
    s := Sealed(s1, 0, user, ttl, LoginForm(), Some(user), way, LoginCookie(USER, PORTAL_LOGIN_TTL));
  }

  function PasskeyLogin(): Pc {
    LoginMfa(USER, PORTAL_LOGIN_TTL, true)
  }

  lemma PasskeyAsked(st: Store, ttl: Time, user: User, ch: Choice)
    requires st.users == map[USER := user]
    ensures Leads(st, 0, ttl, PasskeyLogin(), ch, LoginFactor(USER, user, true), Some(user), None)
  {
    LoginFamilyRuns(st, 0, ttl, PasskeyLogin(), ch);
    hide Exec, ExecLogin, ExecLoginFactor, ExecLoginRecord, ExecPortalCreate, ExecRegistration, ExecChangePassword;
    hide ExecChangeReload;
  }

  lemma PasskeyProves(st: Store, ttl: Time, user: User, ch: Choice)
    requires ch.ok
    ensures Leads(st, 0, ttl, LoginFactor(USER, user, true), ch, LoginRecord(USER, user, 0), None, Some(USER))
  {
    LoginFamilyRuns(st, 0, ttl, LoginFactor(USER, user, true), ch);
    hide Exec, ExecLogin, ExecLoginMfa, ExecLoginRecord, ExecPortalCreate, ExecRegistration, ExecChangePassword;
    hide ExecChangeReload;
  }

  lemma PasskeyRecorded(st: Store, now: Time, ttl: Time, user: User, ch: Choice)
    requires ch.ok
    ensures Leads(st, now, ttl, LoginRecord(USER, user, 0), ch, PortalCreate(USER, user, Some(0), now), None, None)
  {
    LoginFamilyRuns(st, now, ttl, LoginRecord(USER, user, 0), ch);
    hide Exec, ExecLogin, ExecLoginMfa, ExecLoginFactor, ExecPortalCreate, ExecRegistration, ExecChangePassword;
    hide ExecChangeReload;
  }

  // The passkey form behind that cookie: verified at time 0.
  lemma {:induction false} ToPasskeyProved(user: User, ttl: Time) returns (s: System)
    requires user.active && (user.mustChange || user.mfaEnabled) && ttl >= 0
    ensures Scene(s, 3, user, ttl) && s.now == 0
    ensures OnTheWay(s, REQ2, LoginRecord(USER, user, 0), Way(PasskeyLogin(), Some(user), {(USER, 0)}))
  {
    hide Scene, Leads, OnTheWay, SoFar;
    var way;
    s := ToLoginCookie(user, ttl);
    s, way := SetsOut(s, 1, user, ttl, REQ2, PasskeyLogin());
    SceneHas(s, 1, user, ttl);
    PasskeyAsked(s.st, ttl, user, Draw(1));
    s := Leg(s, 1, user, ttl, REQ2, PasskeyLogin(), LoginFactor(USER, user, true), Some(user), None, way);
    way := Further(way, Some(user), None, 0);
    PasskeyProves(s.st, ttl, user, Draw(2));
    FirstFactor(way);
    s := Leg(s, 2, user, ttl, REQ2, LoginFactor(USER, user, true), LoginRecord(USER, user, 0), None, Some(USER), way);
  }

  // Its use recorded at `late`.
  lemma {:induction false} ToPasskey(user: User, ttl: Time, late: Time) returns (s: System)
    requires user.active && (user.mustChange || user.mfaEnabled) && ttl >= 0 && late >= 0
    ensures Scene(s, 4, user, ttl) && s.now == late
    ensures OnTheWay(s, REQ2, PortalCreate(USER, user, Some(0), late), Way(PasskeyLogin(), Some(user), {(USER, 0)}))
  {
    hide Scene, Leads, OnTheWay;
    var way := Way(PasskeyLogin(), Some(user), {(USER, 0)});
    s := ToPasskeyProved(user, ttl);
    s := Lingers(s, 3, user, ttl, REQ2, LoginRecord(USER, user, 0), way, late);
    PasskeyRecorded(s.st, late, ttl, user, Draw(3));
    s := Leg(s, 3, user, ttl, REQ2, LoginRecord(USER, user, 0), PortalCreate(USER, user, Some(0), late), None, None,
             way);
  }

  // ---- a rotation demanded again while one is being made ----

  function RotationLogin(): Pc {
    ChangePassword(USER, PORTAL_LOGIN_TTL)
  }

  lemma ResetRuns(st: Store, now: Time, ttl: Time, ch: Choice)
    ensures Exec(st, now, ttl, ChangeStore(USER), ch) == Do(ResetPassword(USER), ChangeReload(USER))
  {
    LoginFamilyRuns(st, now, ttl, ChangeStore(USER), ch);
    hide Exec, ExecLogin, ExecLoginMfa, ExecLoginFactor, ExecLoginRecord, ExecPortalCreate, ExecRegistration;
    hide ExecChangePassword, ExecChangeReload;
  }

  lemma ResetClears(st: Store, now: Time, user: User)
    requires st.users == map[USER := user]
    ensures var st' := Perform(st, now, ResetPassword(USER));
      st'.users == map[USER := user.(mustChange := false)] && st'.clients == st.clients
  {
  }

  lemma {:induction false} Rotates(s: System, n: nat, user: User, ttl: Time) returns (s': System)
    requires Scene(s, n, user, ttl) && At(s, REQ2, ChangeStore(USER))
    ensures Scene(s', n + 1, user.(mustChange := false), ttl) && At(s', REQ2, ChangeReload(USER)) && s'.now == s.now
    ensures s'.h.arrived == s.h.arrived
  {
    hide Record, Wrote, Exec, Perform, Reachable;
    var o := Exec(s.st, s.now, ttl, ChangeStore(USER), Draw(n));
    ResetRuns(s.st, s.now, ttl, Draw(n));
    ResetClears(s.st, s.now, user);
    s' := Apply(s, Step(REQ2, Draw(n)));
    ReachesOn(s, Step(REQ2, Draw(n)));
    RecordShape(s, REQ2, Draw(n), o);
  }

  lemma DemandSets(st: Store, now: Time, user: User)
    ensures Perform(st, now, SetUser(USER, user)) == st.(users := st.users[USER := user])
  {
  }

  lemma DemandApplies(s: System, user: User)
    ensures Apply(s, Admin(SetUser(USER, user))) == s.(st := s.st.(users := s.st.users[USER := user]))
  {
    hide Perform, Exec, After, Record, Arrived, Initial, FreshChoice;
    DemandSets(s.st, s.now, user);
  }

  lemma {:induction false} Demands(s: System, n: nat, was: User, user: User, ttl: Time) returns (s': System)
    requires Scene(s, n, was, ttl)
    ensures Scene(s', n, user, ttl) && s'.reqs == s.reqs && s'.h == s.h && s'.now == s.now
  {
    hide Reachable, Apply;
    s' := Apply(s, Admin(SetUser(USER, user)));
    DemandApplies(s, user);
    ReachesOn(s, Admin(SetUser(USER, user)));
  }

  lemma ChangeLeads(st: Store, ttl: Time, user: User, ch: Choice)
    requires st.users == map[USER := user] && user.mustChange && ch.ok
    ensures Leads(st, 0, ttl, RotationLogin(), ch, ChangeStore(USER), Some(user), None)
  {
    LoginFamilyRuns(st, 0, ttl, RotationLogin(), ch);
    hide Exec, ExecLogin, ExecLoginMfa, ExecLoginFactor, ExecLoginRecord, ExecPortalCreate, ExecRegistration;
    hide ExecChangeReload;
  }

  lemma ReloadLeads(st: Store, ttl: Time, user: User, ch: Choice)
    requires st.users == map[USER := user] && !user.mfaEnabled
    ensures Leads(st, 0, ttl, ChangeReload(USER), ch, PortalCreate(USER, user, None, 0), Some(user), None)
  {
    LoginFamilyRuns(st, 0, ttl, ChangeReload(USER), ch);
    hide Exec, ExecLogin, ExecLoginMfa, ExecLoginFactor, ExecLoginRecord, ExecPortalCreate, ExecRegistration;
    hide ExecChangePassword;
  }

  // Rotated, and due again.
  lemma {:induction false} ToReload(user: User, ttl: Time) returns (s: System)
    requires user.active && user.mustChange && ttl >= 0
    ensures Scene(s, 3, user, ttl) && At(s, REQ2, ChangeReload(USER)) && CameAs(s, REQ2, RotationLogin()) && s.now == 0
  {
    hide Scene, Leads;
    var way;
    s := ToLoginCookie(user, ttl);
    s, way := SetsOut(s, 1, user, ttl, REQ2, RotationLogin());
    SceneHas(s, 1, user, ttl);
    ChangeLeads(s.st, ttl, user, Draw(1));
    s := Leg(s, 1, user, ttl, REQ2, RotationLogin(), ChangeStore(USER), Some(user), None, way);
    s := Rotates(s, 2, user, ttl);
    s := Demands(s, 3, user.(mustChange := false), user, ttl);
  }

  lemma {:induction false} ToRotation(user: User, ttl: Time) returns (s: System)
    requires user.active && user.mustChange && !user.mfaEnabled && ttl >= 0
    ensures Scene(s, 4, user, ttl) && At(s, REQ2, PortalCreate(USER, user, None, 0))
    ensures CameAs(s, REQ2, RotationLogin()) && SeenRow(s.h, REQ2) == Some(user)
  {
    hide Scene, Leads;
    var s1 := ToReload(user, ttl);
    SceneHas(s1, 3, user, ttl);
    ReloadLeads(s1.st, ttl, user, Draw(3));
    s := Led(s1, 3, user, ttl, REQ2, ChangeReload(USER), PortalCreate(USER, user, None, 0), Some(user), None);
  }

  // ---- behind a portal cookie ----

  // The one session there is, seated in the n-th step at `at`.
  ghost predicate Seated(s: System, n: nat, user: User, at: Time) {
    s.st.sessions == map[n := DrawnRow(user, at, n)] && PortalCookie(DrawnRow(user, at, n).access) in s.jar
  }

  lemma SeatWrites(st: Store, ttl: Time, user: User, ch: Choice)
    requires Answer(st, InsertSession(ch.id, PortalRow(USER, user, 0, ch), ByPortal)) == Done && !user.mfaEnabled
    ensures var o := Exec(st, 0, ttl, Seat(FormReq(), user, None, 0), ch);
      && o.write == InsertSession(ch.id, PortalRow(USER, user, 0, ch), ByPortal) && o.seal == Some(PortalCookie(ch.t1))
  {
    FormRuns(st, 0, ttl, Seat(FormReq(), user, None, 0), ch);
    hide Exec, Answer, PortalRow, AcceptScopes, ExecAuthLogin, ExecAuthMfa, ExecAuthFactor, ExecAuthRecord;
    hide ExecAuthClient, ExecIssueCode;
  }

  // Signed in at the portal without a second factor.
  lemma {:induction false} ToPortal(user: User, ttl: Time) returns (s: System)
    requires user.active && !user.mfaEnabled && ttl >= 0
    ensures Scene(s, 3, user, ttl) && REQ2 !in s.reqs && s.now == 0 && Seated(s, SEAT, user, 0) && s.h.verified == {}
  {
    hide Scene, Exec, Record, Perform, Answer, FactorPassed;
    var s1, way := ToSeat(user, ttl);
    var pc := Seat(FormReq(), user, None, 0);
    RowIsInserted(s1, 2, user, ttl, user, 0);
    SeatWrites(s1.st, ttl, user, Draw(2));
    s := Next(s1, 2, user, ttl, REQ1, pc);
    OnlyRow(s1.st, 2, user, 0);
    SeatProvesNothing(user, Draw(2));
    RecordsFactor(s1, REQ1, Draw(2), Exec(s1.st, 0, ttl, pc, Draw(2)));
  }

  lemma SeatProvesNothing(user: User, ch: Choice)
    ensures FactorPassed(Seat(FormReq(), user, None, 0), ch) == None
  {
  }

  lemma FindsRow(st: Store, sid: SessionId, row: Session)
    requires st.sessions == map[sid := row]
    ensures FindByAccess(st, row.access) == Some(sid)
  {
    assert st.sessions[sid].access == row.access;
  }

  lemma ReadLeads(st: Store, now: Time, ttl: Time, sid: SessionId, row: Session, purpose: Purpose, ch: Choice)
    requires st.sessions == map[sid := row] && SessionTokenLive(row, now)
    ensures Leads(st, now, ttl, PortalRead(row.access, purpose), ch, PortalUser(sid, row, purpose), None, None)
  {
    FindsRow(st, sid, row);
    CookieRuns(st, now, ttl, PortalRead(row.access, purpose), ch);
    hide Exec, SessionTokenLive, FindByAccess, ExecPortalUser, ExecPortalSlide, ExecPortalAct, ExecStepUpRecord;
    hide ExecStepUpMark, ExecStepUpGo, AcceptScopes;
  }

  // A request behind the cookie gets past the user checks.
  predicate GetsIn(user: User, row: Session, purpose: Purpose) {
    row.user == Some(USER) && (purpose.Silent? ==> user.active && (user.mfaEnabled ==> row.mfaVerified))
  }

  lemma UserLeads(st: Store, now: Time, ttl: Time, user: User, sid: SessionId, row: Session, purpose: Purpose,
                  ch: Choice)
    requires st.users == map[USER := user] && GetsIn(user, row, purpose) && ch.ok
    ensures Leads(st, now, ttl, PortalUser(sid, row, purpose), ch, PortalSlide(sid, row, USER, purpose, now),
                  Some(user), None)
  {
    CookieRuns(st, now, ttl, PortalUser(sid, row, purpose), ch);
    hide Exec, ExecPortalRead, ExecPortalSlide, ExecPortalAct, ExecStepUpRecord, ExecStepUpMark, ExecStepUpGo;
    hide AcceptScopes;
  }

  lemma SlideMoves(st: Store, now: Time, ttl: Time, sid: SessionId, row: Session, purpose: Purpose, ch: Choice)
    ensures var pc := PortalSlide(sid, row, USER, purpose, now);
      Moves(st, now, ttl, pc, ch, PortalAct(sid, row, USER, purpose), None, None)
      && Harmless(Exec(st, now, ttl, pc, ch).write)
  {
    CookieRuns(st, now, ttl, PortalSlide(sid, row, USER, purpose, now), ch);
    hide Exec, ExecPortalRead, ExecPortalUser, ExecPortalAct, ExecStepUpRecord, ExecStepUpMark, ExecStepUpGo;
    hide AcceptScopes;
  }

  // Up to the handler itself.
  lemma {:induction false} ToHandler(s1: System, n: nat, user: User, ttl: Time, r: ReqId, sid: SessionId, row: Session,
                                     purpose: Purpose)
    returns (s: System)
    requires Scene(s1, n, user, ttl) && At(s1, r, PortalRead(row.access, purpose)) && s1.st.sessions == map[sid := row]
    requires SessionTokenLive(row, s1.now) && GetsIn(user, row, purpose)
    ensures Scene(s, n + 3, user, ttl) && At(s, r, PortalAct(sid, row, USER, purpose)) && s.now == s1.now
    ensures Follows(s1, r, PortalAct(sid, row, USER, purpose), Some(user), None, s)
  {
    hide Scene, Leads, Moves, Exec, Perform, SessionTokenLive, GetsIn, Follows, At;
    var now := s1.now;
    var read, found := PortalRead(row.access, purpose), PortalUser(sid, row, purpose);
    var slide, act := PortalSlide(sid, row, USER, purpose, now), PortalAct(sid, row, USER, purpose);
    SceneHas(s1, n, user, ttl);
    ReadLeads(s1.st, now, ttl, sid, row, purpose, Draw(n));
    var s2 := Led(s1, n, user, ttl, r, read, found, None, None);
    UserLeads(s2.st, now, ttl, user, sid, row, purpose, Draw(n + 1));
    var s3 := Led(s2, n + 1, user, ttl, r, found, slide, Some(user), None);
    FollowsOn(s1, s2, s3, r, found, slide, None, Some(user));
    SlideMoves(s3.st, now, ttl, sid, row, purpose, Draw(n + 2));
    s := Moved(s3, n + 2, user, ttl, r, slide, act, None, None);
    FollowsOn(s1, s3, s, r, slide, act, Some(user), None);
  }

  // ---- silent sign-on ----

  function SilentForm(access: Token): Pc {
    SilentRequest(CLIENT, "", 0, None, access)
  }

  function SilentlyOn(): Purpose {
    Silent(CLIENT, [], 0, None, 3)
  }

  function SilentCode(): Pc {
    IssueCode(AuthReq(USER, CLIENT, [], 0, None, 0, 3), None, None, 0)
  }

  lemma SilentLeads(st: Store, ttl: Time, access: Token)
    requires CLIENT in st.clients && st.clients[CLIENT].scopes == []
    ensures Leads(st, 0, ttl, SilentForm(access), Draw(3), PortalRead(access, SilentlyOn()), None, None)
  {
    NoScopes();
    CookieRuns(st, 0, ttl, SilentForm(access), Draw(3));
    hide Exec, SplitScopes, UnregisteredScope, ExecPortalRead, ExecPortalUser, ExecPortalSlide, ExecPortalAct;
    hide ExecStepUpRecord, ExecStepUpMark, ExecStepUpGo;
  }

  lemma SilentActLeads(st: Store, ttl: Time, user: User, sid: SessionId, n: nat, ch: Choice)
    requires !user.mfaEnabled
    ensures Leads(st, 0, ttl, PortalAct(sid, DrawnRow(user, 0, n), USER, SilentlyOn()), ch, SilentCode(), None, None)
  {
    CookieRuns(st, 0, ttl, PortalAct(sid, DrawnRow(user, 0, n), USER, SilentlyOn()), ch);
    hide Exec, ExecPortalRead, ExecPortalUser, ExecPortalSlide, ExecStepUpRecord, ExecStepUpMark, ExecStepUpGo;
    hide AcceptScopes;
  }

  lemma RowIsLive(user: User, at: Time, n: nat)
    ensures SessionTokenLive(DrawnRow(user, at, n), at)
  {
  }

  lemma {:induction false} ToSilentForm(user: User, ttl: Time) returns (s: System)
    requires user.active && !user.mfaEnabled && ttl >= 0
    ensures Scene(s, 3, user, ttl) && At(s, REQ2, SilentForm(DrawnRow(user, 0, SEAT).access)) && s.now == 0
    ensures CameAs(s, REQ2, SilentForm(DrawnRow(user, 0, SEAT).access))
    ensures s.st.sessions == map[SEAT := DrawnRow(user, 0, SEAT)]
  {
    hide Scene, SilentForm, DrawnRow;
    var row := DrawnRow(user, 0, SEAT);
    var s1 := ToPortal(user, ttl);
    SilentArrives(s1.jar, row.access);
    s := Enters(s1, 3, user, ttl, REQ2, SilentForm(row.access));
  }

  // Up to the handler.
  lemma {:induction false} ToSilentAct(user: User, ttl: Time) returns (s: System)
    requires user.active && !user.mfaEnabled && ttl >= 0
    ensures Scene(s, 7, user, ttl) && At(s, REQ2, PortalAct(SEAT, DrawnRow(user, 0, SEAT), USER, SilentlyOn()))
    ensures CameAs(s, REQ2, SilentForm(DrawnRow(user, 0, SEAT).access)) && SeenRow(s.h, REQ2) == Some(user)
      && s.now == 0
  {
    hide Scene, Leads, Follows, At, CameAs, SilentForm, SilentlyOn, DrawnRow, SessionTokenLive, GetsIn;
    var row := DrawnRow(user, 0, SEAT);
    var form, read := SilentForm(row.access), PortalRead(row.access, SilentlyOn());
    var act := PortalAct(SEAT, row, USER, SilentlyOn());
    var s2 := ToSilentForm(user, ttl);
    SceneHas(s2, 3, user, ttl);
    SilentLeads(s2.st, ttl, row.access);
    FormIsOpen(row.access);
    var s3 := Led(s2, 3, user, ttl, REQ2, form, read, None, None);
    RowIsLive(user, 0, SEAT);
    RowGetsIn(user, SEAT);
    s := ToHandler(s3, 4, user, ttl, REQ2, SEAT, row, SilentlyOn());
    FollowsOn(s2, s3, s, REQ2, read, act, None, Some(user));
    FollowsKeepsForm(s2, act, user, s, form);
  }

  lemma FollowsKeepsForm(s: System, next: Pc, row: User, s': System, pc0: Pc)
    requires Follows(s, REQ2, next, Some(row), None, s') && CameAs(s, REQ2, pc0)
    ensures CameAs(s', REQ2, pc0) && SeenRow(s'.h, REQ2) == Some(row)
  {
  }

  lemma FormIsOpen(access: Token)
    ensures !SilentForm(access).Finished?
  {
  }

  // Up to the code.
  lemma {:induction false} ToSilentCode(user: User, ttl: Time) returns (s: System)
    requires user.active && !user.mfaEnabled && ttl >= 0
    ensures Scene(s, 8, user, ttl) && At(s, REQ2, SilentCode())
    ensures CameAs(s, REQ2, SilentForm(DrawnRow(user, 0, SEAT).access)) && SeenRow(s.h, REQ2) == Some(user)
  {
    hide Scene, Leads, SilentForm, SilentlyOn, SilentCode, DrawnRow, At;
    var s1 := ToSilentAct(user, ttl);
    SilentActLeads(s1.st, ttl, user, SEAT, SEAT, Draw(7));
    s := Led(s1, 7, user, ttl, REQ2, PortalAct(SEAT, DrawnRow(user, 0, SEAT), USER, SilentlyOn()), SilentCode(), None,
             None);
  }

  lemma SilentArrives(jar: set<Cookie>, access: Token)
    requires PortalCookie(access) in jar
    ensures Initial(jar, 0, SilentForm(access)) && !SilentForm(access).Finished?
  {
  }

  lemma RowGetsIn(user: User, n: nat)
    requires user.active && !user.mfaEnabled
    ensures GetsIn(user, DrawnRow(user, 0, n), SilentlyOn())
  {
  }

  // ---- a factor stamped late ----

  // Request r stamped at time t a factor it had verified at 0.
  ghost predicate StampedBy(s: System, r: ReqId, t: Time) {
    (USER, t) in s.h.challenges && s.h.challenges[(USER, t)] == Proof(r, 0)
  }

  // About to seat a portal session with a factor verified at 0.
  ghost predicate Seating(pc: Pc, user: User, at: Time) {
    pc == PortalCreate(USER, user, Some(0), at) || pc == Seat(FormReq(), user, Some(0), at)
  }

  ghost predicate SeatsLate(o: Out, user: User, at: Time, ch: Choice) {
    && o.write == InsertSession(ch.id, PortalRow(USER, user, at, ch), ByPortal)
    && o.seal == Some(PortalCookie(ch.t1)) && o.stamp == Some(Stamp(USER, 0, at))
  }

  lemma CreateSeatsLate(st: Store, now: Time, ttl: Time, user: User, at: Time, ch: Choice)
    requires user.mfaEnabled && ch.ok
      && Answer(st, InsertSession(ch.id, PortalRow(USER, user, at, ch), ByPortal)) == Done
    ensures SeatsLate(Exec(st, now, ttl, PortalCreate(USER, user, Some(0), at), ch), user, at, ch)
  {
    LoginFamilyRuns(st, now, ttl, PortalCreate(USER, user, Some(0), at), ch);
    hide Exec, Answer, PortalRow, ExecLogin, ExecLoginMfa, ExecLoginFactor, ExecLoginRecord, ExecRegistration;
    hide ExecChangePassword, ExecChangeReload;
  }

  lemma SeatSeatsLate(st: Store, now: Time, ttl: Time, user: User, at: Time, ch: Choice)
    requires user.mfaEnabled && Answer(st, InsertSession(ch.id, PortalRow(USER, user, at, ch), ByPortal)) == Done
    ensures SeatsLate(Exec(st, now, ttl, Seat(FormReq(), user, Some(0), at), ch), user, at, ch)
  {
    FormRuns(st, now, ttl, Seat(FormReq(), user, Some(0), at), ch);
    hide Exec, Answer, PortalRow, AcceptScopes, ExecAuthLogin, ExecAuthMfa, ExecAuthFactor, ExecAuthRecord;
    hide ExecAuthClient, ExecIssueCode;
  }

  lemma SeatingProvesNothing(pc: Pc, user: User, at: Time, ch: Choice)
    requires Seating(pc, user, at)
    ensures FactorPassed(pc, ch) == None && !pc.Finished?
  {
  }

  // The step that seats it.
  lemma {:induction false} Seats(s: System, n: nat, user: User, ttl: Time, pc: Pc, way: Way) returns (s': System)
    requires Scene(s, n, user, ttl) && OnTheWay(s, REQ2, pc, way) && Seating(pc, user, s.now) && user.mfaEnabled
    requires way.verified == {(USER, 0)}
    ensures Scene(s', n + 1, user, ttl) && REQ3 !in s'.reqs && Seated(s', n, user, s.now) && s'.now == s.now
    ensures StampedBy(s', REQ2, s.now) && CameAs(s', REQ2, way.pc0) && s'.h.verified == {(USER, 0)}
  {
    hide Scene, Exec, Record, Perform, Answer, FactorPassed;
    var ch := Draw(n);
    RowIsInserted(s, n, user, ttl, user, s.now);
    if pc.Seat? { SeatSeatsLate(s.st, s.now, ttl, user, s.now, ch); }
    else { CreateSeatsLate(s.st, s.now, ttl, user, s.now, ch); }
    SeatingProvesNothing(pc, user, s.now, ch);
    s' := Next(s, n, user, ttl, REQ2, pc);
    OnlyRow(s.st, n, user, s.now);
    RecordsFactor(s, REQ2, ch, Exec(s.st, s.now, ttl, pc, ch));
    RecordsStamp(s, REQ2, ch, Exec(s.st, s.now, ttl, pc, ch));
  }

  function UrlAt(t: Time): Pc {
    Finished(ConsoleUrl(USER, true, t, Some(t)))
  }

  lemma ConsoleLeads(st: Store, now: Time, ttl: Time, user: User, n: nat, ch: Choice)
    requires user.mfaEnabled && ttl >= 0 && ch.ok
    ensures Leads(st, now, ttl, PortalAct(n, DrawnRow(user, now, n), USER, Console(true)), ch, UrlAt(now), None, None)
  {
    CookieRuns(st, now, ttl, PortalAct(n, DrawnRow(user, now, n), USER, Console(true)), ch);
    hide Exec, ExecPortalRead, ExecPortalUser, ExecPortalSlide, ExecStepUpRecord, ExecStepUpMark, ExecStepUpGo;
    hide AcceptScopes;
  }

  function Visit(access: Token): Pc {
    PortalRead(access, Console(true))
  }

  lemma VisitArrives(jar: set<Cookie>, now: Time, access: Token)
    requires PortalCookie(access) in jar
    ensures Initial(jar, now, Visit(access))
  {
  }

  // The third request asks for a console at once, and gets it.
  lemma {:induction false} ToUrl(s1: System, n: nat, m: nat, user: User, ttl: Time, pc0: Pc) returns (s: System)
    requires Scene(s1, m, user, ttl) && REQ3 !in s1.reqs && Seated(s1, n, user, s1.now) && user.mfaEnabled && ttl >= 0
    requires StampedBy(s1, REQ2, s1.now) && CameAs(s1, REQ2, pc0)
    ensures Scene(s, m + 4, user, ttl) && At(s, REQ3, UrlAt(s1.now)) && s.h.verified == s1.h.verified
    ensures StampedBy(s, REQ2, s1.now) && CameAs(s, REQ2, pc0)
  {
    hide Scene, Leads, DrawnRow, SessionTokenLive, GetsIn, Follows, At, StampedBy, CameAs;
    var now, row := s1.now, DrawnRow(user, s1.now, n);
    var s2 := Visits(s1, n, m, user, ttl, pc0);
    RowIsLive(user, now, n);
    RowIsTheUsers(user, now, n);
    var s3 := ToHandler(s2, m, user, ttl, REQ3, n, row, Console(true));
    ConsoleLeads(s3.st, now, ttl, user, n, Draw(m + 3));
    var act := PortalAct(n, row, USER, Console(true));
    s := Led(s3, m + 3, user, ttl, REQ3, act, UrlAt(now), None, None);
    FollowsOn(s2, s3, s, REQ3, act, UrlAt(now), Some(user), None);
    FollowsKeepsStamp(s2, REQ3, UrlAt(now), Some(user), s, REQ2, now, pc0);
  }

  // What is on record of another request stays.
  lemma FollowsKeepsStamp(s: System, r: ReqId, next: Pc, row: Option<User>, s': System, q: ReqId, t: Time, pc0: Pc)
    requires Follows(s, r, next, row, None, s') && StampedBy(s, q, t) && CameAs(s, q, pc0)
    ensures StampedBy(s', q, t) && CameAs(s', q, pc0) && s'.h.verified == s.h.verified
  {
  }

  lemma {:induction false} Visits(s: System, n: nat, m: nat, user: User, ttl: Time, pc0: Pc) returns (s': System)
    requires Scene(s, m, user, ttl) && REQ3 !in s.reqs && Seated(s, n, user, s.now)
    requires StampedBy(s, REQ2, s.now) && CameAs(s, REQ2, pc0)
    ensures Scene(s', m, user, ttl) && At(s', REQ3, Visit(DrawnRow(user, s.now, n).access)) && s'.st == s.st
    ensures s'.now == s.now && StampedBy(s', REQ2, s.now) && CameAs(s', REQ2, pc0) && s'.h.verified == s.h.verified
  {
    hide Scene, DrawnRow;
    VisitArrives(s.jar, s.now, DrawnRow(user, s.now, n).access);
    s' := Enters(s, m, user, ttl, REQ3, Visit(DrawnRow(user, s.now, n).access));
  }

  lemma RowIsTheUsers(user: User, at: Time, n: nat)
    ensures GetsIn(user, DrawnRow(user, at, n), Console(true))
  {
  }

  // ---- a step-up by passkey ----

  function StepUpForm(access: Token): Pc {
    PortalRead(access, StepUp(true, true))
  }

  lemma StepUpArrives(jar: set<Cookie>, access: Token)
    requires PortalCookie(access) in jar
    ensures Initial(jar, 0, StepUpForm(access))
  {
  }

  lemma StepUpVerifies(st: Store, ttl: Time, row: Session, ch: Choice)
    requires ch.ok
    ensures Leads(st, 0, ttl, PortalAct(SEAT, row, USER, StepUp(true, true)), ch, StepUpRecord(SEAT, USER, 0, true),
                  None, Some(USER))
  {
    CookieRuns(st, 0, ttl, PortalAct(SEAT, row, USER, StepUp(true, true)), ch);
    hide Exec, ExecPortalRead, ExecPortalUser, ExecPortalSlide, ExecStepUpRecord, ExecStepUpMark, ExecStepUpGo;
    hide AcceptScopes;
  }

  lemma StepUpRecords(st: Store, now: Time, ttl: Time, ch: Choice)
    requires ch.ok
    ensures Leads(st, now, ttl, StepUpRecord(SEAT, USER, 0, true), ch, StepUpMark(SEAT, USER, 0, now, true), None, None)
  {
    CookieRuns(st, now, ttl, StepUpRecord(SEAT, USER, 0, true), ch);
    hide Exec, ExecPortalRead, ExecPortalUser, ExecPortalSlide, ExecPortalAct, ExecStepUpMark, ExecStepUpGo;
    hide AcceptScopes;
  }

  lemma StepUpMarks(st: Store, now: Time, ttl: Time, late: Time, ch: Choice)
    ensures var o := Exec(st, now, ttl, StepUpMark(SEAT, USER, 0, late, true), ch);
      o.write == MarkMfa(SEAT, late) && o.next == StepUpGo(USER, late, true) && o.stamp == Some(Stamp(USER, 0, late))
    ensures FactorPassed(StepUpMark(SEAT, USER, 0, late, true), ch) == None
  {
    CookieRuns(st, now, ttl, StepUpMark(SEAT, USER, 0, late, true), ch);
    hide Exec, ExecPortalRead, ExecPortalUser, ExecPortalSlide, ExecPortalAct, ExecStepUpRecord, ExecStepUpGo;
    hide AcceptScopes;
  }

  lemma StepUpGoes(st: Store, ttl: Time, late: Time, ch: Choice)
    requires ch.ok
    ensures Leads(st, late, ttl, StepUpGo(USER, late, true), ch, UrlAt(late), None, None)
  {
    CookieRuns(st, late, ttl, StepUpGo(USER, late, true), ch);
    hide Exec, ExecPortalRead, ExecPortalUser, ExecPortalSlide, ExecPortalAct, ExecStepUpRecord, ExecStepUpMark;
    hide AcceptScopes;
  }

  // Up to the handler.
  lemma {:induction false} ToStepUp(ttl: Time) returns (s: System)
    requires ttl >= 0
    ensures Scene(s, 6, NEW_USER, ttl) && s.now == 0 && s.h.verified == {}
    ensures At(s, REQ2, PortalAct(SEAT, DrawnRow(NEW_USER, 0, SEAT), USER, StepUp(true, true)))
    ensures CameAs(s, REQ2, StepUpForm(DrawnRow(NEW_USER, 0, SEAT).access))
  {
    hide Scene, Leads, DrawnRow, SessionTokenLive, GetsIn;
    var user, row := NEW_USER, DrawnRow(NEW_USER, 0, SEAT);
    var s1 := ToPortal(user, ttl);
    StepUpArrives(s1.jar, row.access);
    var s2 := Enters(s1, 3, user, ttl, REQ2, StepUpForm(row.access));
    RowIsLive(user, 0, SEAT);
    RowStepsUp(user, SEAT);
    s := ToHandler(s2, 3, user, ttl, REQ2, SEAT, row, StepUp(true, true));
  }

  // Verified at 0.
  lemma {:induction false} ToRecord(ttl: Time) returns (s: System)
    requires ttl >= 0
    ensures Scene(s, 7, NEW_USER, ttl) && At(s, REQ2, StepUpRecord(SEAT, USER, 0, true)) && s.now == 0
    ensures CameAs(s, REQ2, StepUpForm(DrawnRow(NEW_USER, 0, SEAT).access)) && s.h.verified == {(USER, 0)}
  {
    hide Scene, Leads, DrawnRow, At;
    var row := DrawnRow(NEW_USER, 0, SEAT);
    var s1 := ToStepUp(ttl);
    StepUpVerifies(s1.st, ttl, row, Draw(6));
    s := Led(s1, 6, NEW_USER, ttl, REQ2, PortalAct(SEAT, row, USER, StepUp(true, true)),
             StepUpRecord(SEAT, USER, 0, true), None,
             Some(USER));
  }

  lemma RowStepsUp(user: User, n: nat)
    ensures GetsIn(user, DrawnRow(user, 0, n), StepUp(true, true))
  {
  }

  // Its use recorded at `late`.
  lemma {:induction false} ToMark(ttl: Time, late: Time) returns (s: System)
    requires ttl >= 0 && late >= 0
    ensures Scene(s, 8, NEW_USER, ttl) && At(s, REQ2, StepUpMark(SEAT, USER, 0, late, true)) && s.now == late
    ensures CameAs(s, REQ2, StepUpForm(DrawnRow(NEW_USER, 0, SEAT).access)) && s.h.verified == {(USER, 0)}
  {
    hide Scene, Leads, DrawnRow;
    var s1 := ToRecord(ttl);
    var s2 := Waits(s1, 7, NEW_USER, ttl, late);
    StepUpRecords(s2.st, late, ttl, Draw(7));
    s := Led(s2, 7, NEW_USER, ttl, REQ2, StepUpRecord(SEAT, USER, 0, true), StepUpMark(SEAT, USER, 0, late, true),
             None, None);
  }

  // And stamped.
  lemma {:induction false} ToGo(ttl: Time, late: Time) returns (s: System)
    requires ttl >= 0 && late >= 0
    ensures Scene(s, 9, NEW_USER, ttl) && At(s, REQ2, StepUpGo(USER, late, true)) && s.now == late
    ensures StampedBy(s, REQ2, late) && CameAs(s, REQ2, StepUpForm(DrawnRow(NEW_USER, 0, SEAT).access))
    ensures s.h.verified == {(USER, 0)}
  {
    hide Scene, Exec, Record, FactorPassed, Perform, DrawnRow, StepUpForm;
    var pc := StepUpMark(SEAT, USER, 0, late, true);
    var s1 := ToMark(ttl, late);
    StepUpMarks(s1.st, late, ttl, late, Draw(8));
    s := Next(s1, 8, NEW_USER, ttl, REQ2, pc);
    RecordsFactor(s1, REQ2, Draw(8), Exec(s1.st, late, ttl, pc, Draw(8)));
    RecordsStamp(s1, REQ2, Draw(8), Exec(s1.st, late, ttl, pc, Draw(8)));
  }
}
