/**
 The step of a run at which a session was born, and what its request had read
 from the tables before it.
 */
module Moments {
  import opened Model
  import opened Stores
  import opened Protocol
  import opened Invariant
  import opened Keep
  import opened Inductive
  import opened Provenance
  import Outcomes

  // Action a is a step of request r.
  ghost predicate Moves(s: System, a: Action, r: ReqId) {
    a.Step? && a.r == r && r in s.reqs && Enabled(s, r, a.ch)
  }

  // Action a is the step that creates session sid.
  ghost predicate Bears(s: System, a: Action, sid: SessionId) {
    && a.Step? && Enabled(s, a.r, a.ch) && sid !in s.st.sessions && sid in Apply(s, a).st.sessions
    && sid !in s.h.born && sid in Apply(s, a).h.born
    && Apply(s, a).st.sessions[sid] == Apply(s, a).h.born[sid].row
  }

  // ---- one action ----

  lemma BirthIsAnInsert(s: System, a: Action, sid: SessionId)
    requires Inv(s) && sid !in s.h.born && sid in Apply(s, a).h.born
    ensures Bears(s, a, sid)
    ensures var w := Exec(s.st, s.now, s.ttl, s.reqs[a.r], a.ch).write;
      w.InsertSession? && Apply(s, a).h.born[sid] == Birth(w.row.(createdAt := s.now), w.source)
  {
    hide Inv, Exec, Perform, Record, Initial, Administrative, FreshChoice, WroteGrants;
    if a.Step? && Enabled(s, a.r, a.ch) {
      var o := Exec(s.st, s.now, s.ttl, s.reqs[a.r], a.ch);
      RecordShape(s, a.r, a.ch, o);
      UnbornIsAbsent(s, sid);
      InsertLands(s.st, s.now, o.write);
    }
  }

  lemma UnbornIsAbsent(s: System, sid: SessionId)
    requires Inv(s) && sid !in s.h.born
    ensures sid !in s.st.sessions
  {
    hide FreshInv, LineageInv, CodesInv, DevicesInv, PcsInv, JarInv, RotationsInv, AcceptedInv, ChallengesInv;
    hide BirthsInv;
    assert sid in s.st.sessions ==> SessionOk(s.h, s.now, sid, s.st.sessions[sid]);
  }

  lemma InsertLands(st: Store, now: Time, w: Write)
    requires w.InsertSession? && Answer(st, w) == Done
    ensures w.sid in Perform(st, now, w).sessions && Perform(st, now, w).sessions[w.sid] == w.row.(createdAt := now)
  {
    hide Answer;
  }

  // Where an action leaves a request.
  lemma Next(s: System, a: Action, r: ReqId)
    requires r in Apply(s, a).reqs
    ensures var pc := Apply(s, a).reqs[r];
      if Moves(s, a, r) then pc == Exec(s.st, s.now, s.ttl, s.reqs[r], a.ch).next
      else pc.Finished? || (r in s.reqs && s.reqs[r] == pc) || Initial(s.jar, s.now, pc)
  {
    hide Exec, Perform, Record, Initial, Administrative, FreshChoice;
  }

  // ---- the birth of a session ----

  /** Every session was inserted at one step of the run. */
  lemma {:induction false} SessionHasAMoment(s: System, acts: seq<Action>, sid: SessionId) returns (n: nat)
    requires Inv(s) && sid !in s.h.born && sid in Run(s, acts).h.born
    ensures n < |acts| && Bears(Run(s, acts[..n]), acts[n], sid)
    ensures Run(s, acts).h.born[sid] == Apply(Run(s, acts[..n]), acts[n]).h.born[sid]
    decreases |acts|
  {
    hide Inv, Apply, Bears;
    n := |acts| - 1;
    var s1 := Run(s, acts[..n]);
    RunSnoc(s, acts, n);
    assert acts[..n + 1] == acts;
    RunKeepsInv(s, acts[..n]);
    if sid in s1.h.born {
      BornForGood(s1, acts[n], sid);
      var m := SessionHasAMoment(s, acts[..n], sid);
      assert acts[..n][..m] == acts[..m];
      n := m;
    } else {
      BirthIsAnInsert(s1, acts[n], sid);
    }
  }

  lemma BornForGood(s: System, a: Action, sid: SessionId)
    requires Inv(s) && sid in s.h.born
    ensures sid in Apply(s, a).h.born && Apply(s, a).h.born[sid] == s.h.born[sid]
  {
    hide Inv, Apply, CodesGrow, DevicesGrow, RestGrows;
    ActionGrows(s, a);
  }

  // ---- what creates a session ----

  // Only minting, seating and the portal login insert sessions.
  lemma OnlyMintersInsert(st: Store, now: Time, ttl: Time, pc: Pc, ch: Choice)
    ensures var w := Exec(st, now, ttl, pc, ch).write;
      w.InsertSession? ==>
        && (w.source.ByDevice? ==> pc.DeviceMint? && pc.did == w.source.device && w.row.user == pc.device.user)
        && (w.source.ByPortal? ==>
              && (pc.Seat? || pc.PortalCreate?) && Going(pc).Some?
              && w.row == PortalRow(Going(pc).value.0, Going(pc).value.1, pc.at, ch))
  {
    hide Answer, ExecRefresh, ExecCode, ExecDevice, ExecClient, ExecAuthorize, ExecPortalLogin, ExecPortal, PortalRow;
    match FamilyOf(pc)
    case RefreshFamily => RefreshWrites(st, now, pc, ch);
    case CodeFamily => hide CodeRow; CodeWrites(st, now, pc, ch);
    case DeviceFamily => DeviceWrites(st, now, pc, ch);
    case ClientFamily => hide CredsRow; ClientWrites(st, now, pc, ch);
    case AuthorizeFamily => FormsInsert(st, now, pc, ch);
    case LoginFamily => LoginsInsert(st, now, pc, ch);
    case PortalFamily => CookiesInsertNothing(st, now, ttl, pc, ch);
    case Over =>
  }

  lemma FormsInsert(st: Store, now: Time, pc: Pc, ch: Choice)
    ensures var w := ExecAuthorize(st, now, pc, ch).write;
      w.InsertSession? ==>
        pc.Seat? && w == InsertSession(ch.id, PortalRow(pc.req.user, pc.user, pc.at, ch), ByPortal)
  {
    hide Answer, PortalRow, CodeGrant, ExecAuthorize;
    if pc.Seat? || pc.IssueCode? { SeatsAndIssues(st, now, pc, ch); } else { AuthorizeWrites(st, now, pc, ch); }
  }

  lemma SeatsAndIssues(st: Store, now: Time, pc: Pc, ch: Choice)
    requires pc.Seat? || pc.IssueCode?
    ensures ExecAuthorize(st, now, pc, ch)
      == (if pc.Seat? then ExecSeat(st, now, pc.req, pc.user, pc.passedAt, pc.at, ch)
          else ExecIssueCode(st, pc.req, pc.mfaAt, pc.passedAt, pc.at, ch))
  {
    hide ExecSeat, ExecIssueCode;
  }

  lemma LoginsInsert(st: Store, now: Time, pc: Pc, ch: Choice)
    ensures var w := ExecPortalLogin(st, now, pc, ch).write;
      w.InsertSession? ==>
        pc.PortalCreate? && w == InsertSession(ch.id, PortalRow(pc.who, pc.user, pc.at, ch), ByPortal)
  {
    hide ExecPortalLogin, Answer, PortalRow;
    if pc.PortalCreate? { CreateRuns(st, now, pc, ch); }
    else if pc.Login? { PasswordWrites(st, now, pc, ch); }
    else { LoginWrites(st, now, pc, ch); }
  }

  lemma CookiesInsertNothing(st: Store, now: Time, ttl: Time, pc: Pc, ch: Choice)
    ensures !ExecPortal(st, now, ttl, pc, ch).write.InsertSession?
  {
    hide Answer, SessionTokenLive, SilentMfaAt, StepUpFresh, UnregisteredScope, SplitScopes;
  }

  // ---- the approver of a device grant ----

  // Action a is the step in which request r, having redeemed the grant, reads
  // the approver's row and finds the account active.
  ghost predicate ReadsActive(s: System, a: Action, r: ReqId, did: DeviceId, uid: UserId) {
    && Moves(s, a, r) && s.reqs[r].DeviceUser? && s.reqs[r].did == did && s.reqs[r].device.user == Some(uid)
    && uid in s.st.users && s.st.users[uid].active
  }

  lemma MintsAfterReading(st: Store, now: Time, ttl: Time, pc: Pc, ch: Choice)
    ensures var next := Exec(st, now, ttl, pc, ch).next;
      next.DeviceMint? ==>
        && pc.DeviceUser? && pc.did == next.did && pc.device == next.device
        && pc.device.user.Some? && pc.device.user.value in st.users && st.users[pc.device.user.value].active
  {
    hide ExecRefresh, ExecCode, ExecDevice, ExecClient, ExecAuthorize, ExecPortalLogin, ExecPortal;
    match FamilyOf(pc)
    case DeviceFamily => PollsMint(st, now, pc, ch);
    case AuthorizeFamily => FormsGoBy(st, now, pc, ch);
    case LoginFamily => LoginsGoBy(st, now, pc, ch);
    case _ => TokensGoByNone(st, now, ttl, pc, ch);
  }

  lemma PollsMint(st: Store, now: Time, pc: Pc, ch: Choice)
    requires FamilyOf(pc) == DeviceFamily
    ensures var next := ExecDevice(st, now, pc, ch).next;
      && Going(next).None?
      && (next.DeviceMint? ==>
            && pc.DeviceUser? && pc.did == next.did && pc.device == next.device
            && pc.device.user.Some? && pc.device.user.value in st.users && st.users[pc.device.user.value].active)
  {
    hide Answer, DeviceRow;
  }

  lemma {:induction false} ApproverWasRead(s: System, acts: seq<Action>, r: ReqId) returns (m: nat)
    requires s.reqs == map[] && r in Run(s, acts).reqs && Run(s, acts).reqs[r].DeviceMint?
    ensures var pc := Run(s, acts).reqs[r];
      m < |acts| && pc.device.user.Some? && ReadsActive(Run(s, acts[..m]), acts[m], r, pc.did, pc.device.user.value)
    decreases |acts|
  {
    hide Apply, Enabled;
    assert acts[..|acts|] == acts;
    if acts != [] {
      m := |acts| - 1;
      RunSnoc(s, acts, m);
      var s1 := Run(s, acts[..m]);
      Next(s1, acts[m], r);
      if Moves(s1, acts[m], r) {
        MintsAfterReading(s1.st, s1.now, s1.ttl, s1.reqs[r], acts[m].ch);
      } else {
        var k := ApproverWasRead(s, acts[..m], r);
        assert acts[..m][..k] == acts[..k];
        m := k;
      }
    }
  }

  /**
   Behind every session minted for a device code stands a step of the very
   request that redeemed it, before the mint: it read the row of the user who
   had approved, and the account was active.
   */
  lemma {:induction false} ApproverWasActive(s0: System, acts: seq<Action>, sid: SessionId, did: DeviceId)
    returns (m: nat, n: nat)
    requires Start(s0) && MintedFromDevice(Run(s0, acts), sid, did)
    ensures m < n < |acts| && Bears(Run(s0, acts[..n]), acts[n], sid)
    ensures did in Run(s0, acts).h.approvals && did in Run(s0, acts).h.devRedeemer
    ensures var h := Run(s0, acts).h;
      var r, uid := h.devRedeemer[did], h.approvals[did].uid;
      && acts[n].r == r && h.born[sid].row.user == Some(uid)
      && ReadsActive(Run(s0, acts[..m]), acts[m], r, did, uid)
  {
    hide Run, Inv, Apply, Bears, ReadsActive, Enabled;
    StartInv(s0);
    NothingBornYet(s0);
    n := SessionHasAMoment(s0, acts, sid);
    var s1 := Run(s0, acts[..n]);
    RunKeepsInv(s0, acts[..n]);
    RunKeepsInv(s0, acts);
    MintedDeviceRow(Run(s0, acts), sid, did);
    BearsUnborn(s1, acts[n], sid);
    MintIsTheRedeemers(s1, acts[n], sid, did);
    m := ApproverWasRead(s0, acts[..n], acts[n].r);
    assert acts[..n][..m] == acts[..m];
    RedeemerStays(s0, acts, n, did);
  }

  lemma NothingBornYet(s: System)
    requires Start(s)
    ensures s.reqs == map[] && s.h.born == map[]
  {
  }

  // The step that mints for a device code is one of its redeemer's.
  lemma MintIsTheRedeemers(s: System, a: Action, sid: SessionId, did: DeviceId)
    requires Inv(s) && Bears(s, a, sid) && Apply(s, a).h.born[sid].source == ByDevice(did)
    ensures a.r in s.reqs && s.reqs[a.r].DeviceMint? && s.reqs[a.r].did == did
      && Apply(s, a).h.born[sid].row.user == s.reqs[a.r].device.user
    ensures did in s.h.devRedeemer && s.h.devRedeemer[did] == a.r
  {
    hide Inv, Apply, Bears, DevicePcOk;
    assert sid !in s.h.born && sid in Apply(s, a).h.born && Enabled(s, a.r, a.ch) by { BearsUnborn(s, a, sid); }
    BirthIsAnInsert(s, a, sid);
    OnlyMintersInsert(s.st, s.now, s.ttl, s.reqs[a.r], a.ch);
    MinterHolds(s, a.r, did);
  }

  lemma MinterHolds(s: System, r: ReqId, did: DeviceId)
    requires Inv(s) && WonDevice(s, r, did)
    ensures HoldsDevice(s.h, r, did)
  {
    hide FreshInv, SessionsInv, LineageInv, CodesInv, DevicesInv, PcsInv, JarInv, RotationsInv, AcceptedInv, BirthsInv;
    hide ChallengesInv;
    WinnerHoldsDevice(s, r, did);
  }

  lemma BearsUnborn(s: System, a: Action, sid: SessionId)
    requires Bears(s, a, sid)
    ensures a.Step? && Enabled(s, a.r, a.ch) && sid !in s.h.born && sid in Apply(s, a).h.born
  {
    hide Apply;
  }

  lemma {:induction false} RedeemerStays(s: System, acts: seq<Action>, n: nat, did: DeviceId)
    requires n <= |acts| && Inv(s) && did in Run(s, acts[..n]).h.devRedeemer
    ensures did in Run(s, acts).h.devRedeemer
      && Run(s, acts).h.devRedeemer[did] == Run(s, acts[..n]).h.devRedeemer[did]
  {
    hide Run, Inv, SessionsGrow, CodesGrow, RestGrows;
    RunKeepsInv(s, acts[..n]);
    assert acts == acts[..n] + acts[n..];
    RunAppend(s, acts[..n], acts[n..]);
    RunGrows(Run(s, acts[..n]), acts[n..]);
  }

  // ---- whose row a login goes by ----

  // The user a login is for and the row it goes by.
  function Going(pc: Pc): Option<(UserId, User)> {
    if pc.AuthFactor? || pc.AuthRecord? || pc.AuthClient? || pc.Seat? then Some((pc.req.user, pc.user))
    else if pc.LoginFactor? || pc.LoginRecord? || pc.PortalCreate? then Some((pc.who, pc.user))
    else if pc.RegisterCount? || pc.RegisterPromote? then Some((pc.uid, pc.user))
    else None
  }

  // Whose row a login or a form is about to read.
  function Consults(pc: Pc): Option<UserId> {
    if pc.AuthMfa? then Some(pc.req.user)
    else if pc.AuthLogin? || pc.Login? || pc.LoginMfa? || pc.ChangePassword? || pc.ChangeReload? then Some(pc.who)
    else None
  }

  // A step after which the request knows more about its user's row.
  ghost predicate Informs(s: System, a: Action, r: ReqId) {
    Moves(s, a, r) && (s.reqs[r].Register? || s.reqs[r].RegisterPromote? || Consults(s.reqs[r]).Some?)
  }

  // The row of uid as this step leaves it with the request: read from the
  // table, or just inserted, or just promoted.
  ghost predicate Learns(s: System, a: Action, r: ReqId, uid: UserId, user: User) {
    && Informs(s, a, r)
    && var pc, users := s.reqs[r], Apply(s, a).st.users;
    && (pc.Register? ==> uid !in s.st.users && uid in users && users[uid] == user && !user.isAdmin)
    && (pc.RegisterPromote? ==> pc.uid == uid && user.isAdmin && (uid in users ==> users[uid].isAdmin))
    && (Consults(pc).Some? ==> Consults(pc) == Some(uid) && uid in s.st.users && s.st.users[uid] == user)
  }

  // What a step leaves a login with.
  ghost predicate GoesBy(st: Store, pc: Pc, o: Out, ch: Choice) {
    Going(o.next).Some? ==>
      var (uid, user) := Going(o.next).value;
      if pc.Register? then
        uid == ch.id && o.write == InsertUser(uid, user) && Answer(st, o.write) == Done && !user.isAdmin
      else if pc.RegisterPromote? then pc.uid == uid && user.isAdmin && o.write == PromoteUser(uid)
      else if Consults(pc).Some? then Consults(pc) == Some(uid) && uid in st.users && st.users[uid] == user
      else Going(pc) == Some((uid, user))
  }

  lemma FormsGoBy(st: Store, now: Time, pc: Pc, ch: Choice)
    requires FamilyOf(pc) == AuthorizeFamily
    ensures GoesBy(st, pc, ExecAuthorize(st, now, pc, ch), ch) && !ExecAuthorize(st, now, pc, ch).next.DeviceMint?
  {
    hide Answer, PortalRow, CodeGrant, UnregisteredScope, SplitScopes;
  }

  lemma LoginsGoBy(st: Store, now: Time, pc: Pc, ch: Choice)
    requires FamilyOf(pc) == LoginFamily
    ensures GoesBy(st, pc, ExecPortalLogin(st, now, pc, ch), ch) && !ExecPortalLogin(st, now, pc, ch).next.DeviceMint?
  {
    hide Answer, PortalRow;
  }

  lemma TokensGoByNone(st: Store, now: Time, ttl: Time, pc: Pc, ch: Choice)
    requires FamilyOf(pc) !in {DeviceFamily, AuthorizeFamily, LoginFamily}
    ensures Going(Exec(st, now, ttl, pc, ch).next).None? && !Exec(st, now, ttl, pc, ch).next.DeviceMint?
  {
    hide ExecRefresh, ExecCode, ExecClient, ExecAuthorize, ExecPortalLogin, ExecPortal;
    match FamilyOf(pc)
    case RefreshFamily => RefreshGoesByNone(st, now, pc, ch);
    case CodeFamily => CodesGoByNone(st, now, pc, ch);
    case ClientFamily => ClientsGoByNone(st, now, pc, ch);
    case PortalFamily => CookiesGoByNone(st, now, ttl, pc, ch);
    case Over =>
  }

  lemma RefreshGoesByNone(st: Store, now: Time, pc: Pc, ch: Choice)
    requires FamilyOf(pc) == RefreshFamily
    ensures var next := ExecRefresh(st, now, pc, ch).next; Going(next).None? && !next.DeviceMint?
  {
    hide Answer, RotateWrite;
  }

  lemma CodesGoByNone(st: Store, now: Time, pc: Pc, ch: Choice)
    requires FamilyOf(pc) == CodeFamily
    ensures var next := ExecCode(st, now, pc, ch).next; Going(next).None? && !next.DeviceMint?
  {
    hide Answer, CodeRow, VerifyPkce;
  }

  lemma ClientsGoByNone(st: Store, now: Time, pc: Pc, ch: Choice)
    requires FamilyOf(pc) == ClientFamily
    ensures var next := ExecClient(st, now, pc, ch).next; Going(next).None? && !next.DeviceMint?
  {
    hide Answer, CredsRow, PendingDevice, UnregisteredScope, SplitScopes, AllRegistered, DeviceScopes;
  }

  lemma CookiesGoByNone(st: Store, now: Time, ttl: Time, pc: Pc, ch: Choice)
    requires FamilyOf(pc) == PortalFamily
    ensures var next := ExecPortal(st, now, ttl, pc, ch).next; Going(next).None? && !next.DeviceMint?
  {
    hide Answer, SessionTokenLive, SilentMfaAt, StepUpFresh, UnregisteredScope, SplitScopes;
  }

  lemma StepGoesBy(st: Store, now: Time, ttl: Time, pc: Pc, ch: Choice)
    ensures GoesBy(st, pc, Exec(st, now, ttl, pc, ch), ch)
  {
    hide Answer, ExecRefresh, ExecCode, ExecDevice, ExecClient, ExecAuthorize, ExecPortalLogin, ExecPortal;
    match FamilyOf(pc)
    case DeviceFamily => PollsMint(st, now, pc, ch);
    case AuthorizeFamily => FormsGoBy(st, now, pc, ch);
    case LoginFamily => LoginsGoBy(st, now, pc, ch);
    case _ => TokensGoByNone(st, now, ttl, pc, ch);
  }

  lemma GoesByIsLearnt(s: System, a: Action, r: ReqId)
    requires Informs(s, a, r) && GoesBy(s.st, s.reqs[r], Exec(s.st, s.now, s.ttl, s.reqs[r], a.ch), a.ch)
    requires r in Apply(s, a).reqs && Going(Apply(s, a).reqs[r]).Some?
    ensures var (uid, user) := Going(Apply(s, a).reqs[r]).value; Learns(s, a, r, uid, user)
  {
    hide Exec, Record, FreshChoice, WithoutSessions, SessionsOf, SessionsOfClient, ExpiredSessions, StoredDeviceScopes;
  }

  /** What a login goes by is what it learnt last. */
  lemma {:induction false} LearntLast(s: System, acts: seq<Action>, r: ReqId) returns (m: nat)
    requires s.reqs == map[] && r in Run(s, acts).reqs && Going(Run(s, acts).reqs[r]).Some?
    ensures var (uid, user) := Going(Run(s, acts).reqs[r]).value;
      m < |acts| && Learns(Run(s, acts[..m]), acts[m], r, uid, user)
    ensures forall k | m < k < |acts| :: !Informs(Run(s, acts[..k]), acts[k], r)
    decreases |acts|
  {
    hide Apply, Enabled, Learns, GoesBy;
    assert acts[..|acts|] == acts;
    if acts != [] {
      var n := |acts| - 1;
      RunSnoc(s, acts, n);
      var s1 := Run(s, acts[..n]);
      Next(s1, acts[n], r);
      if Moves(s1, acts[n], r) { StepGoesBy(s1.st, s1.now, s1.ttl, s1.reqs[r], acts[n].ch); }
      if Informs(s1, acts[n], r) {
        m := n;
        GoesByIsLearnt(s1, acts[n], r);
      } else {
        GoesOn(s1, acts[n], r);
        m := LearntLast(s, acts[..n], r);
        assert acts[..n][..m] == acts[..m];
        forall k | m < k < |acts| ensures !Informs(Run(s, acts[..k]), acts[k], r) {
          if k < n { assert acts[..n][..k] == acts[..k] && acts[..n][k] == acts[k]; }
        }
      }
    }
  }

  lemma GoesOn(s: System, a: Action, r: ReqId)
    requires r in Apply(s, a).reqs && Going(Apply(s, a).reqs[r]).Some? && !Informs(s, a, r)
    requires Moves(s, a, r) ==> GoesBy(s.st, s.reqs[r], Exec(s.st, s.now, s.ttl, s.reqs[r], a.ch), a.ch)
    ensures r in s.reqs && Going(s.reqs[r]) == Going(Apply(s, a).reqs[r])
  {
    hide Apply, Exec, Answer, Enabled;
    Next(s, a, r);
  }

  /**
   A portal session administrates exactly if its user does: if and only if the
   row its request had learnt last, reading it or making it, is an
   administrator's. That holds for a login on the portal, with or without a
   second factor, for a registration and for the seat of /authorize.
   */
  lemma {:induction false} AdminMeansAdministrator(s0: System, acts: seq<Action>, sid: SessionId)
    returns (m: nat, n: nat, user: User)
    requires Start(s0) && sid in Run(s0, acts).st.sessions && IsPortalSession(Run(s0, acts).h, sid)
    ensures m < n < |acts| && Bears(Run(s0, acts[..n]), acts[n], sid)
    ensures var row := Run(s0, acts).st.sessions[sid];
      && row.user.Some? && Learns(Run(s0, acts[..m]), acts[m], acts[n].r, row.user.value, user)
      && (forall k | m < k < n :: !Informs(Run(s0, acts[..k]), acts[k], acts[n].r))
      && (forall scope :: scope in row.scopes <==> scope == "portal" || (scope == "admin" && user.isAdmin))
  {
    hide Run, Inv, Apply, Bears, Learns, Informs, Enabled, BirthOk;
    StartInv(s0);
    NothingBornYet(s0);
    RunKeepsInv(s0, acts);
    LivingAsBorn(Run(s0, acts), sid);
    n := SessionHasAMoment(s0, acts, sid);
    var s1 := Run(s0, acts[..n]);
    RunKeepsInv(s0, acts[..n]);
    BearsUnborn(s1, acts[n], sid);
    SeatGoesBy(s1, acts[n], sid);
    m := LearntLast(s0, acts[..n], acts[n].r);
    assert acts[..n][..m] == acts[..m];
    forall k | m < k < n ensures !Informs(Run(s0, acts[..k]), acts[k], acts[n].r) {
      assert acts[..n][..k] == acts[..k] && acts[..n][k] == acts[k];
    }
    user := Going(s1.reqs[acts[n].r]).value.1;
  }

  lemma SeatGoesBy(s: System, a: Action, sid: SessionId)
    requires Inv(s) && Bears(s, a, sid) && Apply(s, a).h.born[sid].source.ByPortal?
    ensures a.r in s.reqs && Going(s.reqs[a.r]).Some?
    ensures var ((uid, user), row) := (Going(s.reqs[a.r]).value, Apply(s, a).h.born[sid].row);
      && row.user == Some(uid)
      && (forall scope :: scope in row.scopes <==> scope == "portal" || (scope == "admin" && user.isAdmin))
  {
    hide Inv, Apply, Bears;
    BearsUnborn(s, a, sid);
    BirthIsAnInsert(s, a, sid);
    OnlyMintersInsert(s.st, s.now, s.ttl, s.reqs[a.r], a.ch);
  }

  // ---- the cookies between a password and its second factor ----

  // The step seals a cookie for uid: the password was right, on an active
  // account that a second factor or a rotation stands before.
  ghost predicate Seals(s: System, a: Action, uid: UserId, c: Cookie) {
    && a.Step? && a.r in s.reqs && Enabled(s, a.r, a.ch) && a.ch.ok && c in Apply(s, a).jar
    && (s.reqs[a.r].AuthLogin? || s.reqs[a.r].Login?) && s.reqs[a.r].who == uid
    && uid in s.st.users && s.st.users[uid].active
    && (s.st.users[uid].mfaEnabled || (s.st.users[uid].mustChange && s.reqs[a.r].Login?))
  }

  // What each cookie says of the step that sealed it at time now.
  ghost predicate SealedAt(st: Store, now: Time, pc: Pc, ch: Choice, c: Cookie) {
    match c
    case AuthCookie(req, exp) =>
      && pc.AuthLogin? && pc.who == req.user && ch.ok && req.authTime == now && exp == now + 15 * Outcomes.MINUTE
      && req.user in st.users && st.users[req.user].active && st.users[req.user].mfaEnabled
    case LoginCookie(uid, exp) =>
      && pc.Login? && pc.who == uid && ch.ok && exp == now + 10 * Outcomes.MINUTE
      && uid in st.users && st.users[uid].active && (st.users[uid].mfaEnabled || st.users[uid].mustChange)
    case PortalCookie(_) => true
  }

  lemma OnlyPasswordsSeal(st: Store, now: Time, ttl: Time, pc: Pc, ch: Choice)
    ensures var o := Exec(st, now, ttl, pc, ch); o.seal.Some? ==> SealedAt(st, now, pc, ch, o.seal.value)
  {
    hide Answer, ExecRefresh, ExecCode, ExecDevice, ExecClient, ExecAuthorize, ExecPortalLogin, ExecPortal;
    match FamilyOf(pc)
    case RefreshFamily => RefreshWrites(st, now, pc, ch);
    case CodeFamily => CodeWrites(st, now, pc, ch);
    case DeviceFamily => DeviceWrites(st, now, pc, ch);
    case ClientFamily => ClientWrites(st, now, pc, ch);
    case AuthorizeFamily => FormsSeal(st, now, pc, ch);
    case LoginFamily => LoginsSeal(st, now, pc, ch);
    case PortalFamily => CookiesSealNothing(st, now, ttl, pc, ch);
    case Over =>
  }

  lemma FormsSeal(st: Store, now: Time, pc: Pc, ch: Choice)
    ensures var o := ExecAuthorize(st, now, pc, ch); o.seal.Some? ==> SealedAt(st, now, pc, ch, o.seal.value)
  {
    hide Answer, PortalRow, CodeGrant, UnregisteredScope, SplitScopes;
  }

  lemma LoginsSeal(st: Store, now: Time, pc: Pc, ch: Choice)
    ensures var o := ExecPortalLogin(st, now, pc, ch); o.seal.Some? ==> SealedAt(st, now, pc, ch, o.seal.value)
  {
    hide Answer, PortalRow;
  }

  lemma CookiesSealNothing(st: Store, now: Time, ttl: Time, pc: Pc, ch: Choice)
    ensures ExecPortal(st, now, ttl, pc, ch).seal.None?
  {
    hide Answer, SessionTokenLive, SilentMfaAt, StepUpFresh, UnregisteredScope, SplitScopes;
  }

  lemma NewCookie(s: System, a: Action, c: Cookie)
    requires c !in s.jar && c in Apply(s, a).jar
    ensures a.Step? && a.r in s.reqs && Enabled(s, a.r, a.ch) && SealedAt(s.st, s.now, s.reqs[a.r], a.ch, c)
  {
    hide Exec, Perform, Record, Initial, Administrative, FreshChoice, SealedAt;
    if a.Step? && a.r in s.reqs && Enabled(s, a.r, a.ch) {
      OnlyPasswordsSeal(s.st, s.now, s.ttl, s.reqs[a.r], a.ch);
    }
  }

  lemma {:induction false} CookieHasAMoment(s: System, acts: seq<Action>, c: Cookie) returns (n: nat)
    requires c !in s.jar && c in Run(s, acts).jar
    ensures n < |acts|
    ensures var s1 := Run(s, acts[..n]);
      && acts[n].Step? && acts[n].r in s1.reqs && Enabled(s1, acts[n].r, acts[n].ch) && c in Apply(s1, acts[n]).jar
      && SealedAt(s1.st, s1.now, s1.reqs[acts[n].r], acts[n].ch, c)
    decreases |acts|
  {
    hide Apply, SealedAt, Enabled;
    assert acts[..|acts|] == acts;
    if acts != [] {
      n := |acts| - 1;
      RunSnoc(s, acts, n);
      var s1 := Run(s, acts[..n]);
      if c in s1.jar {
        var m := CookieHasAMoment(s, acts[..n], c);
        assert acts[..n][..m] == acts[..m];
        n := m;
      } else {
        NewCookie(s1, acts[n], c);
      }
    }
  }

  lemma NoCookiesYet(s: System)
    requires Start(s)
    ensures s.jar == {}
  {
  }

  /**
   The form for a second factor of /authorize opens exactly until fifteen
   minutes after the step in which the right password for the same user's
   active account sealed its cookie, and that step was the time of the login.
   */
  lemma {:induction false} FactorFormOpens(s0: System, acts: seq<Action>, req: AuthReq, exp: Time, webauthn: bool)
    returns (n: nat)
    requires Start(s0) && AuthCookie(req, exp) in Run(s0, acts).jar
    ensures n < |acts| && Seals(Run(s0, acts[..n]), acts[n], req.user, AuthCookie(req, exp))
    ensures req.authTime == Run(s0, acts[..n]).now
    ensures Initial(Run(s0, acts).jar, Run(s0, acts).now, AuthMfa(req, exp, webauthn))
      <==> Run(s0, acts).now <= Run(s0, acts[..n]).now + 15 * Outcomes.MINUTE
  {
    hide Run, Apply, Enabled;
    NoCookiesYet(s0);
    n := CookieHasAMoment(s0, acts, AuthCookie(req, exp));
  }

  /** The forms behind a portal login open for ten minutes in the same way. */
  lemma {:induction false} LoginFormOpens(s0: System, acts: seq<Action>, uid: UserId, exp: Time, webauthn: bool)
    returns (n: nat)
    requires Start(s0) && LoginCookie(uid, exp) in Run(s0, acts).jar
    ensures n < |acts| && Seals(Run(s0, acts[..n]), acts[n], uid, LoginCookie(uid, exp))
    ensures var s, until := Run(s0, acts), Run(s0, acts[..n]).now + 10 * Outcomes.MINUTE;
      && (Initial(s.jar, s.now, LoginMfa(uid, exp, webauthn)) <==> s.now <= until)
      && (Initial(s.jar, s.now, ChangePassword(uid, exp)) <==> s.now <= until)
  {
    hide Run, Apply, Enabled;
    NoCookiesYet(s0);
    n := CookieHasAMoment(s0, acts, LoginCookie(uid, exp));
  }
}
