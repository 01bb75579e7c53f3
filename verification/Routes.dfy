/**
 The ways in, one by one: which of them hold a user back whose password is due
 for rotation, and which stamp a second factor later than it was verified.
 Both answers are exact: what cannot happen is proved for every run, what can
 is a run.
 */
module Routes {
  import opened Model
  import opened Stores
  import opened Protocol
  import opened Invariant
  import opened Keep
  import opened Inductive
  import opened Factors
  import opened Requests
  import opened Scenes

  datatype Route =
    | PasswordForm | TotpForm | PasskeyForm | RotationForm | RegistrationForm
    | AuthorizeForm | AuthorizeTotp | AuthorizePasskey | SilentSignOn
    | StepUpTotp | StepUpPasskey

  // What a request came in by, if it is one that may sign in or step up.
  function RouteOf(pc0: Pc): Option<Route> {
    if pc0.Login? then Some(PasswordForm)
    else if pc0.LoginMfa? then Some(if pc0.webauthn then PasskeyForm else TotpForm)
    else if pc0.ChangePassword? then Some(RotationForm)
    else if pc0.Register? then Some(RegistrationForm)
    else if pc0.AuthRequest? then Some(AuthorizeForm)
    else if pc0.AuthMfa? then Some(if pc0.webauthn then AuthorizePasskey else AuthorizeTotp)
    else if pc0.SilentRequest? then Some(SilentSignOn)
    else if pc0.PortalRead? then
      if !pc0.purpose.StepUp? then None else Some(if pc0.purpose.webauthn then StepUpPasskey else StepUpTotp)
    else None
  }

  // Request r came in by the route.
  ghost predicate CameBy(s: System, r: ReqId, route: Route) {
    r in s.h.arrived && RouteOf(s.h.arrived[r].pc) == Some(route)
  }

  // ---- the gate of a pending rotation ----

  // A portal cookie or an authorization code is handed out.
  predicate SignsIn(o: Out) {
    (o.seal.Some? && o.seal.value.PortalCookie?) || (o.next.Finished? && o.next.out.CodeIssued?)
  }

  predicate Gated(route: Route) {
    route.PasswordForm? || route.TotpForm? || route.RegistrationForm?
  }

  // How far a request that came in by a gated form can be: it goes on only
  // with a row that had no rotation pending when it was read.
  ghost predicate Held(pc0: Pc, row: Option<User>, pc: Pc) {
    if pc.Login? then pc0.Login?
    else if pc.LoginMfa? then pc == pc0
    else if pc.LoginFactor? then pc0.LoginMfa? && !pc.webauthn && row.Some? && !row.value.mustChange
    else if pc.PortalCreate? || pc.RegisterCount? || pc.RegisterPromote? then row.Some? && !row.value.mustChange
    else if pc.Register? then pc0.Register?
    else pc.RegisterUndo? || pc.Finished?
  }

  ghost predicate AtGate(s: System, r: ReqId) {
    && r in s.reqs && r in s.h.arrived
    && var pc0 := s.h.arrived[r].pc;
    (RouteOf(pc0).Some? && Gated(RouteOf(pc0).value) ==> Held(pc0, SeenRow(s.h, r), s.reqs[r]))
  }

  lemma HeldFactor(st: Store, now: Time, pc0: Pc, pc: Pc, ch: Choice, row: Option<User>)
    requires RouteOf(pc0).Some? && Gated(RouteOf(pc0).value) && Held(pc0, row, pc)
    requires pc.LoginMfa? || pc.LoginFactor? || pc.PortalCreate?
    ensures var read := RowRead(st, pc, ch);
      Held(pc0, if read.Some? then read else row, ExecPortalLogin(st, now, pc, ch).next)
    ensures SignsIn(ExecPortalLogin(st, now, pc, ch)) ==> pc.PortalCreate?
  {
    hide Answer, PortalRow, StampIf;
  }

  lemma HeldPassword(st: Store, now: Time, pc0: Pc, pc: Pc, ch: Choice, row: Option<User>)
    requires Held(pc0, row, pc)
    requires pc.Login? || pc.Register? || pc.RegisterCount? || pc.RegisterPromote? || pc.RegisterUndo?
    ensures var read := RowRead(st, pc, ch);
      Held(pc0, if read.Some? then read else row, ExecPortalLogin(st, now, pc, ch).next)
    ensures !SignsIn(ExecPortalLogin(st, now, pc, ch))
  {
    hide Answer;
  }

  lemma HeldStep(st: Store, now: Time, pc0: Pc, pc: Pc, ch: Choice, row: Option<User>)
    requires RouteOf(pc0).Some? && Gated(RouteOf(pc0).value) && Held(pc0, row, pc) && !pc.Finished?
    ensures FamilyOf(pc) == LoginFamily
    ensures var read := RowRead(st, pc, ch);
      Held(pc0, if read.Some? then read else row, ExecPortalLogin(st, now, pc, ch).next)
    ensures SignsIn(ExecPortalLogin(st, now, pc, ch)) ==> pc.PortalCreate?
  {
    hide ExecPortalLogin, SignsIn, RowRead, RouteOf, Gated;
    if pc.LoginMfa? || pc.LoginFactor? || pc.PortalCreate? { HeldFactor(st, now, pc0, pc, ch, row); }
    else { HeldPassword(st, now, pc0, pc, ch, row); }
  }

  lemma StepKeepsGate(s: System, r: ReqId, ch: Choice)
    requires AtGate(s, r) && Enabled(s, r, ch)
    ensures AtGate(Apply(s, Step(r, ch)), r)
  {
    hide Exec, Perform, FreshChoice, Held, Gated, RowRead, Record, Wrote;
    var o, pc0 := Exec(s.st, s.now, s.ttl, s.reqs[r], ch), s.h.arrived[r].pc;
    RecordsRow(s, r, ch, o);
    RecordShape(s, r, ch, o);
    if RouteOf(pc0).Some? && Gated(RouteOf(pc0).value) {
      if s.reqs[r].Finished? {
      } else {
        HeldStep(s.st, s.now, pc0, s.reqs[r], ch, SeenRow(s.h, r));
        LoginFamilyRuns(s.st, s.now, s.ttl, s.reqs[r], ch);
      }
    }
  }

  lemma ActionKeepsGate(s: System, a: Action, r: ReqId)
    requires Inv(s) && AtGate(s, r)
    ensures AtGate(Apply(s, a), r)
  {
    hide Inv, Exec, Perform, Initial, Administrative, FreshChoice, Held, Gated, RouteOf, RowRead, Record, Wrote;
    if a.Step? && Enabled(s, a.r, a.ch) {
      if a.r == r {
        StepKeepsGate(s, r, a.ch);
      } else {
        var o := Exec(s.st, s.now, s.ttl, s.reqs[a.r], a.ch);
        RecordsRow(s, a.r, a.ch, o);
        RecordShape(s, a.r, a.ch, o);
      }
    } else if a.Abort? && a.r == r {
      AbortedIsHeld(s.h.arrived[r].pc, SeenRow(s.h, r));
    }
  }

  lemma AbortedIsHeld(pc0: Pc, row: Option<User>)
    ensures Held(pc0, row, Finished(Aborted))
  {
  }

  lemma ArrivalIsHeld(s: System, r: ReqId, pc: Pc)
    requires Initial(s.jar, s.now, pc)
    ensures AtGate(Arrived(s, r, pc), r)
  {
  }

  lemma NextAtGate(s: System, a: Action, r: ReqId)
    requires Inv(s) && (forall q | q in s.reqs :: AtGate(s, q)) && r in Apply(s, a).reqs
    ensures AtGate(Apply(s, a), r)
  {
    hide Inv, AtGate, Exec, After, Initial, Administrative, FreshChoice, Arrived;
    if r in s.reqs {
      hide Apply;
      ActionKeepsGate(s, a, r);
    } else {
      NewRequestArrived(s, a, r);
      ArrivalIsHeld(s, r, a.pc);
    }
  }

  lemma {:induction false} RunKeepsGates(s: System, acts: seq<Action>, r: ReqId)
    requires Inv(s) && (forall q | q in s.reqs :: AtGate(s, q)) && r in Run(s, acts).reqs
    ensures AtGate(Run(s, acts), r)
    decreases |acts|
  {
    hide Inv, Apply, AtGate;
    if acts != [] {
      ActionKeepsInv(s, acts[0]);
      forall q | q in Apply(s, acts[0]).reqs ensures AtGate(Apply(s, acts[0]), q) { NextAtGate(s, acts[0], q); }
      RunKeepsGates(Apply(s, acts[0]), acts[1..], r);
    }
  }

  // In some run the next step of request r, which came by the route, signs in
  // a user whose row had a rotation pending when the request last read it.
  ghost predicate SlipsThrough(s: System, r: ReqId, ch: Choice, route: Route) {
    && Reachable(s) && Enabled(s, r, ch) && CameBy(s, r, route)
    && SignsIn(Exec(s.st, s.now, s.ttl, s.reqs[r], ch)) && r in s.h.seen && s.h.seen[r].mustChange
  }

  lemma {:induction false} GatedRoutesHold(s: System, r: ReqId, ch: Choice, route: Route)
    requires Gated(route)
    ensures !SlipsThrough(s, r, ch, route)
  {
    hide Inv, Run, Exec, FreshChoice, RouteOf;
    if SlipsThrough(s, r, ch, route) {
      var s0, acts :| Start(s0) && s == Run(s0, acts);
      StartInv(s0);
      RunKeepsGates(s0, acts, r);
      HeldStep(s.st, s.now, s.h.arrived[r].pc, s.reqs[r], ch, SeenRow(s.h, r));
      LoginFamilyRuns(s.st, s.now, s.ttl, s.reqs[r], ch);
    }
  }

  lemma SeatSeals(st: Store, now: Time, ttl: Time, row: User, passed: Option<Time>, at: Time, ch: Choice)
    requires Answer(st, InsertSession(ch.id, PortalRow(USER, row, at, ch), ByPortal)) == Done
    ensures SignsIn(Exec(st, now, ttl, Seat(FormReq(), row, passed, at), ch))
  {
    FormRuns(st, now, ttl, Seat(FormReq(), row, passed, at), ch);
    hide Exec, Answer, PortalRow, StampIf, AcceptScopes, ExecAuthLogin, ExecAuthMfa, ExecAuthFactor, ExecAuthRecord;
    hide ExecAuthClient, ExecIssueCode, FamilyOf;
  }

  lemma CreateSeals(st: Store, now: Time, ttl: Time, row: User, passed: Option<Time>, at: Time, ch: Choice)
    requires ch.ok && Answer(st, InsertSession(ch.id, PortalRow(USER, row, at, ch), ByPortal)) == Done
    ensures SignsIn(Exec(st, now, ttl, PortalCreate(USER, row, passed, at), ch))
  {
    LoginFamilyRuns(st, now, ttl, PortalCreate(USER, row, passed, at), ch);
    hide Exec, Answer, PortalRow, StampIf, ExecLogin, ExecLoginMfa, ExecLoginFactor, ExecLoginRecord, ExecRegistration;
    hide ExecChangePassword, ExecChangeReload, FamilyOf;
  }

  lemma CanMove(s: System, n: nat, user: User, ttl: Time, r: ReqId, pc: Pc)
    requires Scene(s, n, user, ttl) && At(s, r, pc) && !pc.Finished?
    ensures Enabled(s, r, Draw(n))
  {
    hide Reachable;
  }

  // ---- which routes hold a pending rotation back ----

  lemma SeatSignsIn(s: System, n: nat, user: User, ttl: Time, r: ReqId, row: User, passed: Option<Time>, at: Time)
    requires Scene(s, n, user, ttl) && At(s, r, Seat(FormReq(), row, passed, at))
    ensures Enabled(s, r, Draw(n)) && SignsIn(Exec(s.st, s.now, ttl, Seat(FormReq(), row, passed, at), Draw(n)))
  {
    hide Scene, At, Enabled, Exec, Answer, PortalRow, SignsIn;
    CanMove(s, n, user, ttl, r, Seat(FormReq(), row, passed, at));
    RowIsInserted(s, n, user, ttl, row, at);
    SeatSeals(s.st, s.now, ttl, row, passed, at, Draw(n));
  }

  lemma CreateSignsIn(s: System, n: nat, user: User, ttl: Time, r: ReqId, row: User, passed: Option<Time>, at: Time)
    requires Scene(s, n, user, ttl) && At(s, r, PortalCreate(USER, row, passed, at))
    ensures Enabled(s, r, Draw(n)) && SignsIn(Exec(s.st, s.now, ttl, PortalCreate(USER, row, passed, at), Draw(n)))
  {
    hide Scene, At, Enabled, Exec, Answer, PortalRow, SignsIn;
    CanMove(s, n, user, ttl, r, PortalCreate(USER, row, passed, at));
    RowIsInserted(s, n, user, ttl, row, at);
    CreateSeals(s.st, s.now, ttl, row, passed, at, Draw(n));
  }

  lemma IssueSignsIn(s: System, n: nat, user: User, ttl: Time, r: ReqId)
    requires Scene(s, n, user, ttl) && At(s, r, SilentCode())
    ensures Enabled(s, r, Draw(n)) && SignsIn(Exec(s.st, s.now, ttl, SilentCode(), Draw(n)))
  {
    var req := AuthReq(USER, CLIENT, [], 0, None, 0, 3);
    CanMove(s, n, user, ttl, r, SilentCode());
    hide Scene, At, Enabled;
    GrantIsDone(s, n, user, ttl, CodeGrant(req, None, None, 0, Draw(n)), 3);
    FormRuns(s.st, s.now, ttl, SilentCode(), Draw(n));
    hide Exec, Answer, AcceptScopes, ExecAuthLogin, ExecAuthMfa, ExecAuthFactor, ExecAuthRecord;
    hide ExecAuthClient, ExecSeat;
  }

  // Signing in with the row the request has read is slipping through.
  lemma RowSlips(s: System, n: nat, user: User, ttl: Time, r: ReqId, pc: Pc, pc0: Pc, route: Route)
    requires Scene(s, n, user, ttl) && At(s, r, pc) && CameAs(s, r, pc0) && RouteOf(pc0) == Some(route)
    requires SeenRow(s.h, r) == Some(user) && user.mustChange
    requires Enabled(s, r, Draw(n)) && SignsIn(Exec(s.st, s.now, ttl, pc, Draw(n)))
    ensures SlipsThrough(s, r, Draw(n), route)
  {
    SceneHas(s, n, user, ttl);
    hide Scene, Exec, Reachable, FreshChoice;
  }

  predicate MaySignIn(route: Route) {
    !route.StepUpTotp? && !route.StepUpPasskey?
  }

  const PLAIN: User := User(true, false, false, true)
  const ENROLLED: User := User(true, true, false, true)

  lemma {:induction false} FormSlips(ttl: Time) returns (s: System, r: ReqId, ch: Choice)
    requires ttl >= 0
    ensures SlipsThrough(s, r, ch, AuthorizeForm) && s.ttl == ttl
  {
    hide Scene, Exec, SignsIn, Enabled, SlipsThrough;
    var way;
    s, way := ToSeat(PLAIN, ttl);
    SeatSignsIn(s, 2, PLAIN, ttl, REQ1, PLAIN, None, 0);
    RowSlips(s, 2, PLAIN, ttl, REQ1, Seat(FormReq(), PLAIN, None, 0), AuthForm(), AuthorizeForm);
    SceneHas(s, 2, PLAIN, ttl);
    r, ch := REQ1, Draw(2);
  }

  lemma {:induction false} FactorSlips(webauthn: bool, ttl: Time) returns (s: System, r: ReqId, ch: Choice)
    requires ttl >= 0
    ensures SlipsThrough(s, r, ch, if webauthn then AuthorizePasskey else AuthorizeTotp) && s.ttl == ttl
  {
    hide Scene, Exec, SignsIn, Enabled, SlipsThrough;
    var n;
    s, n := ToFactor(ENROLLED, webauthn, ttl, 0);
    SeatSignsIn(s, n, ENROLLED, ttl, REQ2, ENROLLED, Some(0), 0);
    RowSlips(s, n, ENROLLED, ttl, REQ2, Seat(FormReq(), ENROLLED, Some(0), 0), FactorForm(webauthn),
             if webauthn then AuthorizePasskey else AuthorizeTotp);
    SceneHas(s, n, ENROLLED, ttl);
    r, ch := REQ2, Draw(n);
  }

  lemma {:induction false} PasskeySlips(ttl: Time) returns (s: System, r: ReqId, ch: Choice)
    requires ttl >= 0
    ensures SlipsThrough(s, r, ch, PasskeyForm) && s.ttl == ttl
  {
    hide Scene, Exec, SignsIn, Enabled, SlipsThrough;
    s := ToPasskey(ENROLLED, ttl, 0);
    CreateSignsIn(s, 4, ENROLLED, ttl, REQ2, ENROLLED, Some(0), 0);
    RowSlips(s, 4, ENROLLED, ttl, REQ2, PortalCreate(USER, ENROLLED, Some(0), 0), PasskeyLogin(), PasskeyForm);
    SceneHas(s, 4, ENROLLED, ttl);
    r, ch := REQ2, Draw(4);
  }

  lemma {:induction false} RotationSlips(ttl: Time) returns (s: System, r: ReqId, ch: Choice)
    requires ttl >= 0
    ensures SlipsThrough(s, r, ch, RotationForm) && s.ttl == ttl
  {
    hide Scene, Exec, SignsIn, Enabled, SlipsThrough;
    s := ToRotation(PLAIN, ttl);
    CreateSignsIn(s, 4, PLAIN, ttl, REQ2, PLAIN, None, 0);
    RowSlips(s, 4, PLAIN, ttl, REQ2, PortalCreate(USER, PLAIN, None, 0), RotationLogin(), RotationForm);
    SceneHas(s, 4, PLAIN, ttl);
    r, ch := REQ2, Draw(4);
  }

  lemma {:induction false} SilentSlips(ttl: Time) returns (s: System, r: ReqId, ch: Choice)
    requires ttl >= 0
    ensures SlipsThrough(s, r, ch, SilentSignOn) && s.ttl == ttl
  {
    hide Scene, Exec, SignsIn, Enabled, SlipsThrough, DrawnRow;
    s := ToSilentCode(PLAIN, ttl);
    IssueSignsIn(s, 8, PLAIN, ttl, REQ2);
    RowSlips(s, 8, PLAIN, ttl, REQ2, SilentCode(), SilentForm(DrawnRow(PLAIN, 0, SEAT).access), SilentSignOn);
    SceneHas(s, 8, PLAIN, ttl);
    r, ch := REQ2, Draw(8);
  }

  // For every step-up TTL a server can have.
  lemma {:induction false} UngatedRouteSlips(route: Route, ttl: Time) returns (s: System, r: ReqId, ch: Choice)
    requires MaySignIn(route) && !Gated(route) && ttl >= 0
    ensures SlipsThrough(s, r, ch, route) && s.ttl == ttl
  {
    hide SlipsThrough;
    match route
    case AuthorizeForm => s, r, ch := FormSlips(ttl);
    case AuthorizeTotp => s, r, ch := FactorSlips(false, ttl);
    case AuthorizePasskey => s, r, ch := FactorSlips(true, ttl);
    case PasskeyForm => s, r, ch := PasskeySlips(ttl);
    case RotationForm => s, r, ch := RotationSlips(ttl);
    case SilentSignOn => s, r, ch := SilentSlips(ttl);
  }

  /**
   A request that came in by a route can sign in a user whose row had a
   rotation pending when the request last read it, unless the route is the
   portal's password form, its TOTP form or the registration form: in no run
   through these three, and, whatever the server's TTL, in some run through
   each of the others. For the registration form there is nothing to hold back: a new account never has a
   rotation pending.
   */
  lemma {:induction false} RotationGate(route: Route, ttl: Time)
    requires MaySignIn(route) && ttl >= 0
    ensures Gated(route) <==> forall s: System, r, ch | s.ttl == ttl :: !SlipsThrough(s, r, ch, route)
  {
    hide SlipsThrough;
    if Gated(route) {
      forall s: System, r, ch | s.ttl == ttl ensures !SlipsThrough(s, r, ch, route) {
        GatedRoutesHold(s, r, ch, route);
      }
    } else {
      var s, r, ch := UngatedRouteSlips(route, ttl);
    }
  }

  // ---- which routes stamp a factor late ----

  predicate Stamping(route: Route) {
    || route.TotpForm? || route.PasskeyForm? || route.AuthorizeTotp? || route.AuthorizePasskey?
    || route.StepUpTotp? || route.StepUpPasskey?
  }

  predicate AtOnce(route: Route) {
    route.TotpForm? || route.StepUpTotp?
  }

  // The stamp k was made by a request that came in by the route.
  ghost predicate StampCameBy(s: System, k: (UserId, Time), route: Route) {
    k in s.h.challenges && CameBy(s, s.h.challenges[k].req, route)
  }

  // And after the challenge.
  ghost predicate Lags(s: System, k: (UserId, Time), route: Route) {
    Reachable(s) && StampCameBy(s, k, route) && s.h.challenges[k].passed < k.1
  }

  // Request r ended in a console URL for a step-up role whose stamp came by
  // the route, and its user passed no challenge within the TTL before the gate.
  ghost predicate StaleUrl(s: System, r: ReqId, route: Route) {
    && Reachable(s) && r in s.reqs && s.reqs[r].Finished?
    && s.reqs[r].out.ConsoleUrl? && s.reqs[r].out.stepUpRole && s.reqs[r].out.mfaAt.Some?
    && var out := s.reqs[r].out;
    StampCameBy(s, (out.uid, out.mfaAt.value), route)
    && forall v | (out.uid, v) in s.h.verified :: !(out.gateAt - s.ttl <= v <= out.gateAt)
  }

  lemma AtOnceIsDirect(pc0: Pc)
    requires RouteOf(pc0).Some? && AtOnce(RouteOf(pc0).value)
    ensures Direct(pc0)
  {
  }

  lemma DirectNeverLags(s: System, k: (UserId, Time), route: Route)
    requires AtOnce(route)
    ensures !Lags(s, k, route)
  {
    hide Inv, Reachable, RouteOf, Direct;
    if Lags(s, k, route) {
      ReachableInv(s);
      StampMeansChallenge(s, k.0, k.1);
      AtOnceIsDirect(s.h.arrived[s.h.challenges[k].req].pc);
    }
  }

  lemma DirectIsNeverStale(s: System, r: ReqId, route: Route)
    requires AtOnce(route)
    ensures !StaleUrl(s, r, route)
  {
    hide Inv, Reachable, RouteOf, Direct;
    if StaleUrl(s, r, route) {
      var out := s.reqs[r].out;
      ConsoleUrlMeansFreshChallenge(s, r);
      AtOnceIsDirect(s.h.arrived[s.h.challenges[(out.uid, out.mfaAt.value)].req].pc);
    }
  }

  // A challenge at 0, its stamp and a console URL at `late`.
  ghost predicate OldChallenge(s: System, r: ReqId, ttl: Time, late: Time, pc0: Pc) {
    && Reachable(s) && s.ttl == ttl && At(s, r, UrlAt(late)) && s.h.verified == {(USER, 0)}
    && StampedBy(s, REQ2, late) && CameAs(s, REQ2, pc0)
  }

  const LATECOMER: User := User(true, true, false, false)

  // Signed in after a factor, and on to the console.
  lemma {:induction false} SignInGetsUrl(s1: System, n: nat, ttl: Time, pc: Pc, pc0: Pc) returns (s: System)
    requires Scene(s1, n, LATECOMER, ttl) && ttl >= 0 && Seating(pc, LATECOMER, s1.now)
    requires OnTheWay(s1, REQ2, pc, Way(pc0, Some(LATECOMER), {(USER, 0)}))
    ensures OldChallenge(s, REQ3, ttl, s1.now, pc0)
  {
    hide Scene, OnTheWay, Seating, Seated, StampedBy, CameAs, Reachable;
    var s2 := Seats(s1, n, LATECOMER, ttl, pc, Way(pc0, Some(LATECOMER), {(USER, 0)}));
    s := ToUrl(s2, n, n + 1, LATECOMER, ttl, pc0);
    SceneHas(s, n + 5, LATECOMER, ttl);
  }

  lemma {:induction false} PasskeyUrl(ttl: Time, late: Time) returns (s: System)
    requires ttl >= 0 && late >= 0
    ensures OldChallenge(s, REQ3, ttl, late, PasskeyLogin())
  {
    hide Scene, OnTheWay, OldChallenge;
    var s1 := ToPasskey(LATECOMER, ttl, late);
    s := SignInGetsUrl(s1, 4, ttl, PortalCreate(USER, LATECOMER, Some(0), late), PasskeyLogin());
  }

  lemma {:induction false} FactorUrl(webauthn: bool, ttl: Time, late: Time) returns (s: System)
    requires ttl >= 0 && late >= 0
    ensures OldChallenge(s, REQ3, ttl, late, FactorForm(webauthn))
  {
    hide Scene, OnTheWay, OldChallenge;
    var s1, n := ToFactor(LATECOMER, webauthn, ttl, late);
    s := SignInGetsUrl(s1, n, ttl, Seat(FormReq(), LATECOMER, Some(0), late), FactorForm(webauthn));
  }

  lemma {:induction false} StepUpUrl(ttl: Time, late: Time) returns (s: System)
    requires ttl >= 0 && late >= 0
    ensures OldChallenge(s, REQ2, ttl, late, StepUpForm(DrawnRow(NEW_USER, 0, SEAT).access))
  {
    hide Scene, Leads, Follows, StampedBy, CameAs, StepUpForm, DrawnRow, Reachable, At;
    var s1 := ToGo(ttl, late);
    StepUpGoes(s1.st, ttl, late, Draw(9));
    s := Led(s1, 9, NEW_USER, ttl, REQ2, StepUpGo(USER, late, true), UrlAt(late), None, None);
    SceneHas(s, 10, NEW_USER, ttl);
    FollowsKeepsStamp(s1, REQ2, UrlAt(late), None, s, REQ2, late, StepUpForm(DrawnRow(NEW_USER, 0, SEAT).access));
  }

  lemma OldIsStale(s: System, r: ReqId, ttl: Time, late: Time, pc0: Pc, route: Route)
    requires OldChallenge(s, r, ttl, late, pc0) && RouteOf(pc0) == Some(route) && late > ttl
    ensures StaleUrl(s, r, route)
  {
    hide Reachable, RouteOf;
  }

  lemma OldHasTtl(s: System, r: ReqId, ttl: Time, late: Time, pc0: Pc)
    requires OldChallenge(s, r, ttl, late, pc0)
    ensures s.ttl == ttl
  {
    hide Reachable;
  }

  lemma OldLags(s: System, r: ReqId, ttl: Time, late: Time, pc0: Pc, route: Route)
    requires OldChallenge(s, r, ttl, late, pc0) && RouteOf(pc0) == Some(route) && late > 0
    ensures Lags(s, (USER, late), route)
  {
    hide Reachable, RouteOf;
  }

  lemma {:induction false} IndirectRouteIsOld(route: Route, ttl: Time, late: Time)
    returns (s: System, r: ReqId, pc0: Pc)
    requires Stamping(route) && !AtOnce(route) && ttl >= 0 && late >= 0
    ensures OldChallenge(s, r, ttl, late, pc0) && RouteOf(pc0) == Some(route)
  {
    hide OldChallenge, DrawnRow;
    match route
    case PasskeyForm =>
      s := PasskeyUrl(ttl, late);
      r, pc0 := REQ3, PasskeyLogin();
    case AuthorizeTotp =>
      s := FactorUrl(false, ttl, late);
      r, pc0 := REQ3, FactorForm(false);
    case AuthorizePasskey =>
      s := FactorUrl(true, ttl, late);
      r, pc0 := REQ3, FactorForm(true);
    case StepUpPasskey =>
      s := StepUpUrl(ttl, late);
      r, pc0 := REQ2, StepUpForm(DrawnRow(NEW_USER, 0, SEAT).access);
  }

  /**
   On a server with any step-up TTL: an MFA time is the very time of the
   challenge in every run exactly if it was stamped by one of the portal's two
   TOTP forms; every other route has a store call between verifying the factor and reading the clock for its stamp.
   */
  lemma {:induction false} StampIsTheChallenge(route: Route, ttl: Time)
    requires Stamping(route) && ttl >= 0
    ensures AtOnce(route) <==> forall s: System, k | s.ttl == ttl :: !Lags(s, k, route)
  {
    hide Lags, OldChallenge, RouteOf;
    if AtOnce(route) {
      forall s: System, k | s.ttl == ttl ensures !Lags(s, k, route) { DirectNeverLags(s, k, route); }
    } else {
      var s, r, pc0 := IndirectRouteIsOld(route, ttl, 1);
      assert s.ttl == ttl by { OldHasTtl(s, r, ttl, 1, pc0); }
      OldLags(s, r, ttl, 1, pc0, route);
    }
  }

  /**
   Whatever the TTL and however late: by each of the other routes a run ends in
   a console URL for a step-up role, issued at a gate passed at `late`, whose
   user passed one challenge ever, at time 0.
   */
  lemma {:induction false} UrlAfterAnOldChallenge(route: Route, ttl: Time, late: Time) returns (s: System, r: ReqId)
    requires Stamping(route) && !AtOnce(route) && 0 <= ttl < late
    ensures StaleUrl(s, r, route) && s.ttl == ttl
    ensures At(s, r, Finished(ConsoleUrl(USER, true, late, Some(late)))) && s.h.verified == {(USER, 0)}
  {
    hide StaleUrl, RouteOf, Reachable;
    var pc0;
    s, r, pc0 := IndirectRouteIsOld(route, ttl, late);
    OldIsStale(s, r, ttl, late, pc0, route);
  }

  /**
   On a server with any step-up TTL: every console URL for a step-up role has a
   challenge of its user within the TTL before the gate, in every run, exactly
   if the MFA time it went by was stamped by one of the portal's TOTP forms.
   */
  lemma {:induction false} UrlIsFresh(route: Route, ttl: Time)
    requires Stamping(route) && ttl >= 0
    ensures AtOnce(route) <==> forall s: System, r | s.ttl == ttl :: !StaleUrl(s, r, route)
  {
    hide StaleUrl;
    if AtOnce(route) {
      forall s: System, r | s.ttl == ttl ensures !StaleUrl(s, r, route) { DirectIsNeverStale(s, r, route); }
    } else {
      var s, r := UrlAfterAnOldChallenge(route, ttl, ttl + 1);
    }
  }
}
