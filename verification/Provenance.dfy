/**
 What a session owes to the code or the device grant behind it, over whole runs.
 */
module Provenance {
  import opened Model
  import opened Stores
  import opened Protocol
  import opened Invariant
  import opened Keep
  import opened Inductive

  // ---- nothing on record is ever revised ----

  lemma GrowsTransitive(h: History, h1: History, h2: History)
    requires Grows(h, h1) && Grows(h1, h2)
    ensures Grows(h, h2)
  {
    hide SessionsGrow, CodesGrow, DevicesGrow, RestGrows;
    SessionsGrowOn(h, h1, h2);
    CodesGrowOn(h, h1, h2);
    DevicesGrowOn(h, h1, h2);
    RestGrowsOn(h, h1, h2);
  }

  lemma SessionsGrowOn(h: History, h1: History, h2: History)
    requires SessionsGrow(h, h1) && SessionsGrow(h1, h2)
    ensures SessionsGrow(h, h2)
  {
  }

  lemma CodesGrowOn(h: History, h1: History, h2: History)
    requires CodesGrow(h, h1) && CodesGrow(h1, h2)
    ensures CodesGrow(h, h2)
  {
  }

  lemma DevicesGrowOn(h: History, h1: History, h2: History)
    requires DevicesGrow(h, h1) && DevicesGrow(h1, h2)
    ensures DevicesGrow(h, h2)
  {
  }

  lemma RestGrowsOn(h: History, h1: History, h2: History)
    requires RestGrows(h, h1) && RestGrows(h1, h2)
    ensures RestGrows(h, h2)
  {
  }

  lemma ActionGrows(s: System, a: Action)
    requires Inv(s)
    ensures Grows(s.h, Apply(s, a).h)
  {
    hide FreshInv, SessionsInv, LineageInv, CodesInv, DevicesInv, BirthsInv, PcsInv, JarInv, RotationsInv;
    hide AcceptedInv, ChallengesInv;
    hide Exec, Perform, Record, Initial, Administrative, FreshChoice, Permitted, Recorded, SideOk, PcOk, Grows;
    if a.Step? && a.r in s.reqs && !s.reqs[a.r].Finished? && FreshChoice(s.h, a.ch) {
      EveryStepIsOk(s, a.r, a.ch);
    } else if a.Arrive? && a.r !in s.reqs && Initial(s.jar, s.now, a.pc) {
      ArriveGrows(s, a.r, a.pc);
    } else {
      GrowsReflexive(s.h);
    }
  }

  lemma {:induction false} RunGrows(s: System, acts: seq<Action>)
    requires Inv(s)
    ensures Grows(s.h, Run(s, acts).h)
    decreases |acts|
  {
    hide Inv, Apply, Grows;
    if acts == [] {
      GrowsReflexive(s.h);
    } else {
      ActionKeepsInv(s, acts[0]);
      ActionGrows(s, acts[0]);
      RunGrows(Apply(s, acts[0]), acts[1..]);
      GrowsTransitive(s.h, Apply(s, acts[0]).h, Run(s, acts).h);
    }
  }

  // A living session says what its insert said; only a portal session's MFA
  // time can have moved.
  ghost predicate AsBorn(h: History, sid: SessionId, row: Session) {
    && sid in h.born
    && var b := h.born[sid].row;
    && row.user == b.user && row.client == b.client && row.scopes == b.scopes
    && row.authTime == b.authTime && row.createdAt == b.createdAt
    && (!h.born[sid].source.ByPortal? ==> row.mfaVerified == b.mfaVerified && row.mfaAt == b.mfaAt)
  }

  lemma LivingAsBorn(s: System, sid: SessionId)
    requires Inv(s) && sid in s.st.sessions
    ensures AsBorn(s.h, sid, s.st.sessions[sid]) && BirthOk(s.h, sid, s.h.born[sid])
  {
    hide FreshInv, LineageInv, CodesInv, DevicesInv, PcsInv, JarInv, RotationsInv, AcceptedInv, ChallengesInv;
    assert SessionOk(s.h, s.now, sid, s.st.sessions[sid]);
    assert BirthOk(s.h, sid, s.h.born[sid]);
  }

  // ---- authorization codes (section 4.1.2 of RFC 6749) ----

  // Session sid is the answer to code gid.
  ghost predicate MintedFromCode(s: System, sid: SessionId, gid: GrantId) {
    sid in s.h.born && s.h.born[sid].source == ByCode(gid)
  }

  /**
   However a run continues from the moment a code is on the books, at most one
   session is ever minted for it, and that session has the code's user,
   client, scopes, MFA time and auth time for as long as it lives.
   */
  lemma {:induction false} CodeYieldsOneFaithfulSession(s: System, acts: seq<Action>, gid: GrantId, a: SessionId,
                                                        b: SessionId)
    requires Reachable(s) && gid in s.st.grants
    requires MintedFromCode(Run(s, acts), a, gid) && MintedFromCode(Run(s, acts), b, gid)
    ensures a == b && FromGrant(Run(s, acts).h.born[a].row, s.st.grants[gid])
    ensures a in Run(s, acts).st.sessions ==> FromGrant(Run(s, acts).st.sessions[a], s.st.grants[gid])
  {
    hide Run, Reachable, FreshInv, SessionsInv, LineageInv, DevicesInv, PcsInv, JarInv, RotationsInv;
    hide AcceptedInv, ChallengesInv;
    hide SessionsGrow, DevicesGrow, RestGrows;
    ReachableInv(s);
    RunKeepsInv(s, acts);
    RunGrows(s, acts);
    var s' := Run(s, acts);
    assert BirthOk(s'.h, a, s'.h.born[a]) && BirthOk(s'.h, b, s'.h.born[b]);
    assert GrantOf(s.h, gid, s.st.grants[gid]);
    if a in s'.st.sessions { LivingAsBorn(s', a); }
  }

  lemma MintedCodeOnRecord(s: System, sid: SessionId, gid: GrantId)
    requires BirthsInv(s.h) && MintedFromCode(s, sid, gid)
    ensures gid in s.h.codeSession && s.h.codeSession[gid] == sid
  {
    assert BirthOk(s.h, sid, s.h.born[sid]);
  }

  // Request r has won code gid and is on its way to mint.
  ghost predicate WonCode(s: System, r: ReqId, gid: GrantId) {
    r in s.reqs && (s.reqs[r].CodeUser? || s.reqs[r].CodeMint?) && s.reqs[r].gid == gid
  }

  lemma WinnerHoldsCode(s: System, r: ReqId, gid: GrantId)
    requires PcsInv(s.h, s.now, s.ttl, s.reqs) && WonCode(s, r, gid)
    ensures Holds(s.h, r, gid)
  {
    assert PcOk(s.h, s.now, s.ttl, r, s.reqs[r]);
  }

  // Of all concurrent redemptions of a code one wins.
  lemma OneRequestWinsACode(s: System, a: ReqId, b: ReqId, gid: GrantId)
    requires Reachable(s) && WonCode(s, a, gid) && WonCode(s, b, gid)
    ensures a == b && forall sid :: !MintedFromCode(s, sid, gid)
  {
    ReachableInv(s);
    hide PcsInv, BirthsInv, WonCode, MintedFromCode, FreshInv, SessionsInv, LineageInv, DevicesInv, CodesInv;
    hide JarInv, RotationsInv;
    WinnerHoldsCode(s, a, gid);
    WinnerHoldsCode(s, b, gid);
    forall sid ensures !MintedFromCode(s, sid, gid) {
      if MintedFromCode(s, sid, gid) { MintedCodeOnRecord(s, sid, gid); }
    }
  }

  // ---- device grants (sections 3.4 and 3.5 of RFC 8628) ----

  ghost predicate MintedFromDevice(s: System, sid: SessionId, did: DeviceId) {
    sid in s.h.born && s.h.born[sid].source == ByDevice(did)
  }

  lemma OneSessionPerDevice(s: System, did: DeviceId, a: SessionId, b: SessionId)
    requires Reachable(s) && MintedFromDevice(s, a, did) && MintedFromDevice(s, b, did)
    ensures a == b
  {
    ReachableInv(s);
    hide FreshInv, SessionsInv, LineageInv, CodesInv, PcsInv, JarInv, RotationsInv, DevicesInv, BirthsInv;
    MintedDeviceOnRecord(s, a, did);
    MintedDeviceOnRecord(s, b, did);
  }

  lemma MintedDeviceOnRecord(s: System, sid: SessionId, did: DeviceId)
    requires BirthsInv(s.h) && MintedFromDevice(s, sid, did)
    ensures did in s.h.devSession && s.h.devSession[did] == sid && did in s.h.approvals
  {
    assert BirthOk(s.h, sid, s.h.born[sid]);
  }

  ghost predicate WonDevice(s: System, r: ReqId, did: DeviceId) {
    r in s.reqs && (s.reqs[r].DeviceUser? || s.reqs[r].DeviceMint?) && s.reqs[r].did == did
  }

  lemma WinnerHoldsDevice(s: System, r: ReqId, did: DeviceId)
    requires PcsInv(s.h, s.now, s.ttl, s.reqs) && WonDevice(s, r, did)
    ensures HoldsDevice(s.h, r, did)
  {
    assert PcOk(s.h, s.now, s.ttl, r, s.reqs[r]);
  }

  // Of all concurrent polls of an approved grant one gets to mint.
  lemma OneRequestWinsADevice(s: System, a: ReqId, b: ReqId, did: DeviceId)
    requires Reachable(s) && WonDevice(s, a, did) && WonDevice(s, b, did)
    ensures a == b && forall sid :: !MintedFromDevice(s, sid, did)
  {
    ReachableInv(s);
    hide PcsInv, BirthsInv, WonDevice, MintedFromDevice, FreshInv, SessionsInv, LineageInv, DevicesInv;
    hide CodesInv, JarInv, RotationsInv;
    WinnerHoldsDevice(s, a, did);
    WinnerHoldsDevice(s, b, did);
    forall sid ensures !MintedFromDevice(s, sid, did) {
      if MintedFromDevice(s, sid, did) { MintedDeviceOnRecord(s, sid, did); }
    }
  }

  // A grant denied at some point of a run never leads to a session.
  lemma {:induction false} DeniedNeverMints(s: System, acts: seq<Action>, did: DeviceId, sid: SessionId)
    requires Reachable(s) && did in s.st.devices && s.st.devices[did].status == Denied
    ensures !MintedFromDevice(Run(s, acts), sid, did)
  {
    hide Run, Reachable, FreshInv, SessionsInv, LineageInv, CodesInv, PcsInv, JarInv, RotationsInv, AcceptedInv;
    hide ChallengesInv;
    hide SessionsGrow, CodesGrow, RestGrows;
    ReachableInv(s);
    RunKeepsInv(s, acts);
    RunGrows(s, acts);
    var s' := Run(s, acts);
    assert DeviceOk(s.h, did, s.st.devices[did]);
    if MintedFromDevice(s', sid, did) { MintedDeviceOnRecord(s', sid, did); }
  }

  // Request r is about to approve device grant pc.purpose.did.
  ghost predicate Approving(s: System, r: ReqId) {
    r in s.reqs && s.reqs[r].PortalAct? && s.reqs[r].purpose.Approve?
  }

  lemma ApprovalIsRecorded(s: System, r: ReqId, ch: Choice)
    requires Approving(s, r) && FreshChoice(s.h, ch)
    requires Apply(s, Step(r, ch)).reqs[r] == Finished(Decided)
    ensures var pc, h' := s.reqs[r], Apply(s, Step(r, ch)).h;
      && pc.purpose.did in s.st.devices && s.st.devices[pc.purpose.did].status == Pending
      && pc.purpose.did in h'.approvals
      && h'.approvals[pc.purpose.did] == Approval(pc.uid, pc.row.mfaVerified, pc.row.mfaAt)
  {
    hide FreshChoice, Perform, Exec, RecordRest, RecordChecks;
    ApproveExec(s.st, s.now, s.ttl, s.reqs[r], ch);
    var o := Exec(s.st, s.now, s.ttl, s.reqs[r], ch);
    var pc := s.reqs[r];
    RestKeepsApprovals(RecordWrite(s.h, s.now, r, o.write), s.now, r, ch, o,
                       PasswordPassed(s.st, pc, ch), FactorPassed(pc, ch), RowRead(s.st, pc, ch));
  }

  lemma ApproveExec(st: Store, now: Time, ttl: Time, pc: Pc, ch: Choice)
    requires pc.PortalAct? && pc.purpose.Approve?
    ensures var w := ApproveDevice(pc.purpose.did, pc.uid, pc.row.mfaVerified, pc.row.mfaAt);
      Exec(st, now, ttl, pc, ch) == Do(w, if Answer(st, w) == Done then Finished(Decided) else Finished(Rejected))
  {
    hide Answer;
  }

  lemma RestKeepsApprovals(h: History, now: Time, r: ReqId, ch: Choice, o: Out, password: Option<UserId>,
                           factor: Option<UserId>, row: Option<User>)
    ensures RecordChecks(RecordRest(h, r, ch, o), now, r, password, factor, row).approvals == h.approvals
  {
  }

  // The row says what the device asked for and what the approver had.
  ghost predicate AsApproved(h: History, did: DeviceId, row: Session) {
    did in h.devices && did in h.approvals && FromApproval(row, h.devices[did], h.approvals[did])
  }

  /**
   A session minted from a device code belongs to the user whose portal
   session approved it and carries that session's MFA state as the approval
   read it, whatever happens between approval, poll, redeem and mint.
   */
  lemma {:induction false} DeviceSessionIsTheApprovers(s: System, acts: seq<Action>, did: DeviceId, sid: SessionId)
    requires Reachable(s) && did in s.h.approvals && MintedFromDevice(Run(s, acts), sid, did)
    ensures AsApproved(s.h, did, Run(s, acts).h.born[sid].row)
    ensures sid in Run(s, acts).st.sessions ==> AsApproved(s.h, did, Run(s, acts).st.sessions[sid])
  {
    hide Run, Reachable, FreshInv, SessionsInv, LineageInv, CodesInv, PcsInv, JarInv, RotationsInv, AcceptedInv;
    hide ChallengesInv;
    hide SessionsGrow, CodesGrow, RestGrows, FromApproval, DeviceRowsInv;
    ReachableInv(s);
    RunKeepsInv(s, acts);
    RunGrows(s, acts);
    MintedDeviceRow(Run(s, acts), sid, did);
  }

  lemma {:induction false} StepThenRun(s: System, a: Action, acts: seq<Action>)
    ensures Run(s, [a] + acts) == Run(Apply(s, a), acts)
  {
    hide Apply;
    assert ([a] + acts)[1..] == acts;
  }

  lemma MintedDeviceRow(s: System, sid: SessionId, did: DeviceId)
    requires Inv(s) && MintedFromDevice(s, sid, did)
    ensures AsApproved(s.h, did, s.h.born[sid].row)
    ensures sid in s.st.sessions ==> AsApproved(s.h, did, s.st.sessions[sid])
  {
    hide FreshInv, SessionsInv, LineageInv, CodesInv, PcsInv, JarInv, RotationsInv, AcceptedInv, ChallengesInv;
    hide DevicesInv;
    assert BirthOk(s.h, sid, s.h.born[sid]);
    if sid in s.st.sessions { LivingAsBorn(s, sid); }
  }

  // The arrows of the device-grant state diagram.
  predicate Arrow(a: Status, b: Status) {
    (a == Pending && (b == Approved || b == Denied)) || (a == Approved && b == Redeemed)
  }

  predicate Path(a: Status, b: Status) {
    a == b || Arrow(a, b) || (a == Pending && b == Redeemed)
  }

  lemma PerformMovesDevice(st: Store, now: Time, w: Write, did: DeviceId)
    requires did in st.devices && did in Perform(st, now, w).devices
    ensures var a, b := st.devices[did].status, Perform(st, now, w).devices[did].status; a == b || Arrow(a, b)
  {
    hide StoredDeviceScopes, TokensUnused, OwnersExist;
  }

  // One action moves a device grant along at most one arrow.
  lemma ActionMovesDevice(s: System, a: Action, did: DeviceId)
    requires did in s.st.devices && did in Apply(s, a).st.devices
    ensures var x, y := s.st.devices[did].status, Apply(s, a).st.devices[did].status; x == y || Arrow(x, y)
  {
    hide Exec, Perform, Record, Initial, Administrative, FreshChoice, Arrow;
    match a
    case Step(r, ch) =>
      if r in s.reqs && !s.reqs[r].Finished? && FreshChoice(s.h, ch) {
        PerformMovesDevice(s.st, s.now, Exec(s.st, s.now, s.ttl, s.reqs[r], ch).write, did);
      }
    case Admin(w) => if Administrative(w) { PerformMovesDevice(s.st, s.now, w, did); }
    case _ =>
  }

  lemma OthersAddNoDevice(st: Store, now: Time, w: Write, did: DeviceId)
    requires !w.InsertDevice? && did !in st.devices
    ensures did !in Perform(st, now, w).devices
  {
  }

  lemma PerformReusesNoDevice(s: System, r: ReqId, ch: Choice, w: Write, did: DeviceId)
    requires did in s.h.devices && did !in s.st.devices && FreshInv(s.h) && FreshChoice(s.h, ch)
    requires Permitted(s, r, ch, w) || Administrative(w)
    ensures did !in Perform(s.st, s.now, w).devices
  {
    hide SourcePermitted, StoredDeviceScopes, TokensUnused, OwnersExist;
    if !w.InsertDevice? {
      hide Perform;
      OthersAddNoDevice(s.st, s.now, w, did);
    }
  }

  lemma ActionReusesNoDevice(s: System, a: Action, did: DeviceId)
    requires Inv(s) && did in s.h.devices && did !in s.st.devices
    ensures did !in Apply(s, a).st.devices
  {
    hide Exec, Perform, Record, Initial, Administrative, FreshInv, SessionsInv, LineageInv, RotationsInv;
    hide CodesInv, DevicesInv, BirthsInv, PcsInv, JarInv, FreshChoice, Permitted, SideOk, PcOk, Recorded, Grows;
    match a
    case Step(r, ch) =>
      if r in s.reqs && !s.reqs[r].Finished? && FreshChoice(s.h, ch) {
        EveryStepIsOk(s, r, ch);
        PerformReusesNoDevice(s, r, ch, Exec(s.st, s.now, s.ttl, s.reqs[r], ch).write, did);
      }
    case Admin(w) => if Administrative(w) { AdminAddsNoDevice(s.st, s.now, w, did); }
    case _ =>
  }

  lemma AdminAddsNoDevice(st: Store, now: Time, w: Write, did: DeviceId)
    requires Administrative(w) && did !in st.devices
    ensures did !in Perform(st, now, w).devices
  {
  }

  /**
   Under every interleaving of approvals, denials, polls and reaping a device
   grant only moves pending -> approved -> redeemed or pending -> denied; a
   reaped one does not come back.
   */
  lemma {:induction false} DeviceStatusOnlyAdvances(s: System, acts: seq<Action>, did: DeviceId)
    requires Inv(s) && did in s.h.devices && did in Run(s, acts).st.devices
    ensures did in s.st.devices && Path(s.st.devices[did].status, Run(s, acts).st.devices[did].status)
    decreases |acts|
  {
    hide Inv, Apply;
    if acts != [] {
      ActionKeepsInv(s, acts[0]);
      DeviceStaysOnRecord(s, acts[0], did);
      DeviceStatusOnlyAdvances(Apply(s, acts[0]), acts[1..], did);
      if did in s.st.devices { ActionMovesDevice(s, acts[0], did); } else { ActionReusesNoDevice(s, acts[0], did); }
    }
  }

  lemma DeviceStaysOnRecord(s: System, a: Action, did: DeviceId)
    requires Inv(s) && did in s.h.devices
    ensures did in Apply(s, a).h.devices
  {
    hide Inv, Apply, SessionsGrow, CodesGrow, RestGrows;
    ActionGrows(s, a);
  }

  // ---- what a bearer session keeps ----

  // Not a portal session.
  ghost predicate IsBearer(h: History, sid: SessionId) {
    sid in h.born && !h.born[sid].source.ByPortal?
  }

  // Refreshing, sliding and time never move the MFA time of a bearer session.
  lemma {:induction false} MfaTimeIsCarried(s: System, acts: seq<Action>, sid: SessionId)
    requires Reachable(s) && sid in s.st.sessions && IsBearer(s.h, sid)
    requires sid in Run(s, acts).st.sessions
    ensures var row, row' := s.st.sessions[sid], Run(s, acts).st.sessions[sid];
      && row'.mfaAt == row.mfaAt && row'.mfaVerified == row.mfaVerified && row'.user == row.user
      && row'.client == row.client && row'.scopes == row.scopes && row'.authTime == row.authTime
      && row'.createdAt == row.createdAt
  {
    hide Inv, Run, Reachable, CodesGrow, DevicesGrow, RestGrows, BirthOk;
    ReachableInv(s);
    RunKeepsInv(s, acts);
    RunGrows(s, acts);
    LivingAsBorn(s, sid);
    LivingAsBorn(Run(s, acts), sid);
  }

  // ---- lifetime ----

  /**
   Both expiries stay within the absolute lifetime, so the separate age check
   of the refresh grant and of the bearer gate never decides anything.
   */
  lemma AgeCheckIsRedundant(s: System, sid: SessionId)
    requires Reachable(s) && sid in s.st.sessions
    ensures var row := s.st.sessions[sid];
      && row.accessExp <= row.createdAt + ABSOLUTE_TTL && row.refreshExp <= row.createdAt + ABSOLUTE_TTL
      && (SessionTokenLive(row, s.now) <==> s.now <= row.accessExp)
      && (s.now > row.createdAt + ABSOLUTE_TTL ==> s.now > row.refreshExp)
  {
    ReachableInv(s);
    hide FreshInv, LineageInv, CodesInv, PcsInv, JarInv, RotationsInv, AcceptedInv, DevicesInv, BirthsInv;
    hide ChallengesInv;
    assert SessionOk(s.h, s.now, sid, s.st.sessions[sid]);
  }

  /** No access token outlives now by more than 15 minutes, no refresh token by more than an hour. */
  lemma TokensAreShortLived(s: System, sid: SessionId)
    requires Reachable(s) && sid in s.st.sessions
    ensures s.st.sessions[sid].accessExp <= s.now + ACCESS_TTL && s.st.sessions[sid].refreshExp <= s.now + REFRESH_TTL
  {
    ReachableInv(s);
    hide FreshInv, LineageInv, CodesInv, PcsInv, JarInv, RotationsInv, AcceptedInv, DevicesInv, BirthsInv;
    hide ChallengesInv;
    assert SessionOk(s.h, s.now, sid, s.st.sessions[sid]);
  }
}
