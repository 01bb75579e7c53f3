/**
 Refresh tokens: the lineage of a session, and the end of a session whose
 retired token is presented again (section 4.14 of RFC 9700).
 */
module Reuse {
  import opened Model
  import opened Stores
  import opened Protocol
  import opened Invariant
  import opened Keep
  import opened KeepSessions
  import opened Inductive

  // ---- every refresh token is current, retired or dead ----

  ghost predicate CurrentOn(s: System, token: Token, sid: SessionId) {
    sid in s.st.sessions && s.st.sessions[sid].refresh == token
  }

  ghost predicate RetiredFor(s: System, token: Token, sid: SessionId) {
    token in s.st.retired && s.st.retired[token] == sid && sid in s.st.sessions
  }

  // Neither lookup of handleTokenRefresh finds a session.
  ghost predicate Unknown(s: System, token: Token) {
    FindByRefresh(s.st, token).None? && FindByRetired(s.st, token).None?
  }

  lemma TokenTrichotomy(s: System, token: Token)
    requires Reachable(s) && token in s.h.refreshOf
    ensures var sid := s.h.refreshOf[token];
      && (CurrentOn(s, token, sid) || RetiredFor(s, token, sid) || Unknown(s, token))
      && !(CurrentOn(s, token, sid) && RetiredFor(s, token, sid))
      && (Unknown(s, token) <==> sid !in s.st.sessions)
      && (forall id :: CurrentOn(s, token, id) || RetiredFor(s, token, id) ==> id == sid)
  {
    ReachableInv(s);
    hide FreshInv, SessionsInv, LineageInv, CodesInv, DevicesInv, BirthsInv, PcsInv, JarInv, RotationsInv;
    hide ChallengesInv, AcceptedInv;
    LineageNeeds(s.st, s.h, s.now);
    Trichotomy(s, token);
  }

  lemma Trichotomy(s: System, token: Token)
    requires LineageInv(s.st, s.h) && OwnTokens(s.st, s.h) && token in s.h.refreshOf
    ensures var sid := s.h.refreshOf[token];
      && (CurrentOn(s, token, sid) || RetiredFor(s, token, sid) || Unknown(s, token))
      && !(CurrentOn(s, token, sid) && RetiredFor(s, token, sid))
      && (Unknown(s, token) <==> sid !in s.st.sessions)
      && (forall id :: CurrentOn(s, token, id) || RetiredFor(s, token, id) ==> id == sid)
  {
  }

  lemma RetiredCountsRotations(s: System, sid: SessionId)
    requires Reachable(s) && sid in s.st.sessions
    ensures sid in s.h.rotations && |RetiredOf(s.st, sid)| == s.h.rotations[sid]
    ensures forall t :: t in RetiredOf(s.st, sid) <==> t in s.h.spent && t in s.h.refreshOf && s.h.refreshOf[t] == sid
  {
    ReachableInv(s);
    hide CodesInv, DevicesInv, BirthsInv, PcsInv, JarInv, SessionsInv;
  }

  // Of all the access tokens a session ever had, exactly one resolves.
  lemma OneAccessTokenResolves(s: System, sid: SessionId, token: Token)
    requires Reachable(s) && sid in s.st.sessions
    ensures FindByAccess(s.st, token) == Some(sid) <==> token == s.st.sessions[sid].access
    ensures FindByAccess(s.st, token) == Some(sid) ==> token in s.h.accessOf && s.h.accessOf[token] == sid
  {
    ReachableInv(s);
    hide CodesInv, DevicesInv, BirthsInv, PcsInv, JarInv, LineageInv, RotationsInv;
    var row := s.st.sessions[sid];
    assert SessionOk(s.h, s.now, sid, row);
    var found := FindByAccess(s.st, row.access);
    if found.Some? { assert SessionOk(s.h, s.now, found.value, s.st.sessions[found.value]); }
  }

  // A token that has been rotated away is never rotated again.
  lemma SpentTokenNeverRotates(s: System, w: Write)
    requires Reachable(s) && w.Rotate? && w.spent in s.h.spent
    ensures Answer(s.st, w) == NoRow
  {
    ReachableInv(s);
    hide CodesInv, DevicesInv, BirthsInv, PcsInv, JarInv, SessionsInv, RotationsInv;
  }

  // ---- a dead family stays dead ----

  // No token of the session resolves anywhere.
  ghost predicate FamilyGone(s: System, sid: SessionId) {
    && sid !in s.st.sessions
    && (forall t | t in s.st.retired :: s.st.retired[t] != sid)
    && (forall t | t in s.h.refreshOf && s.h.refreshOf[t] == sid :: Unknown(s, t))
    && (forall t | t in s.h.accessOf && s.h.accessOf[t] == sid :: FindByAccess(s.st, t).None?)
  }

  lemma DeadMeansGone(s: System, sid: SessionId)
    requires Inv(s) && sid !in s.st.sessions
    ensures FamilyGone(s, sid)
  {
    hide CodesInv, DevicesInv, BirthsInv, PcsInv, JarInv, RotationsInv;
    forall id | id in s.st.sessions
      ensures s.st.sessions[id].refresh in s.h.refreshOf && s.h.refreshOf[s.st.sessions[id].refresh] == id
      ensures s.st.sessions[id].access in s.h.accessOf && s.h.accessOf[s.st.sessions[id].access] == id
    {
      assert SessionOk(s.h, s.now, id, s.st.sessions[id]);
    }
  }

  lemma WriteKeepsDead(s: System, r: ReqId, ch: Choice, w: Write, sid: SessionId)
    requires FreshInv(s.h) && sid in s.h.born && sid !in s.st.sessions
    requires FreshChoice(s.h, ch) && Permitted(s, r, ch, w)
    ensures sid !in Perform(s.st, s.now, w).sessions
  {
    hide Perform, Permitted;
    if w.InsertSession? {
      PermittedIds(s, r, ch, w);
      InsertAddsItsOwn(s.st, s.now, w, sid);
    } else {
      OthersAddNoSession(s.st, s.now, w, sid);
    }
  }

  lemma InsertAddsItsOwn(st: Store, now: Time, w: Write, sid: SessionId)
    requires w.InsertSession? && w.sid != sid && sid !in st.sessions
    ensures sid !in Perform(st, now, w).sessions
  {
    hide TokensUnused, OwnersExist;
  }

  lemma OthersAddNoSession(st: Store, now: Time, w: Write, sid: SessionId)
    requires !w.InsertSession? && sid !in st.sessions
    ensures sid !in Perform(st, now, w).sessions
  {
    hide TokensUnused, OwnersExist;
  }

  lemma AdminKeepsDead(st: Store, now: Time, w: Write, sid: SessionId)
    requires Administrative(w) && sid !in st.sessions
    ensures sid !in Perform(st, now, w).sessions
  {
    hide Perform;
    NoRowWritten(st, now, w);
  }

  lemma BornStaysBorn(s: System, r: ReqId, ch: Choice, o: Out)
    requires Grows(s.h, Record(s, r, ch, o))
    ensures var h' := Record(s, r, ch, o);
      Extends(s.h.born, h'.born) && Extends(s.h.spent, h'.spent) && Extends(s.h.refreshOf, h'.refreshOf)
  {
    hide Record;
  }

  lemma ActionKeepsDead(s: System, a: Action, sid: SessionId)
    requires Inv(s) && sid in s.h.born && sid !in s.st.sessions
    ensures sid in Apply(s, a).h.born && sid !in Apply(s, a).st.sessions
  {
    hide Exec, Perform, Record, Initial, Administrative, FreshInv, SessionsInv, LineageInv, RotationsInv;
    hide CodesInv, DevicesInv, BirthsInv, PcsInv, JarInv, FreshChoice, Permitted, SideOk, PcOk, Recorded, Grows;
    match a
    case Step(r, ch) =>
      if r in s.reqs && !s.reqs[r].Finished? && FreshChoice(s.h, ch) {
        var o := Exec(s.st, s.now, s.ttl, s.reqs[r], ch);
        EveryStepIsOk(s, r, ch);
        WriteKeepsDead(s, r, ch, o.write, sid);
        BornStaysBorn(s, r, ch, o);
      }
    case Admin(w) => if Administrative(w) { AdminKeepsDead(s.st, s.now, w, sid); }
    case _ =>
  }

  lemma {:induction false} RunKeepsDead(s: System, acts: seq<Action>, sid: SessionId)
    requires Inv(s) && sid in s.h.born && sid !in s.st.sessions
    ensures FamilyGone(Run(s, acts), sid)
    decreases |acts|
  {
    hide Inv, Apply;
    if acts == [] {
      DeadMeansGone(s, sid);
    } else {
      ActionKeepsInv(s, acts[0]);
      ActionKeepsDead(s, acts[0], sid);
      RunKeepsDead(Apply(s, acts[0]), acts[1..], sid);
    }
  }

  // ---- replaying a rotated token ----

  // Request r is about to look up, rotate or report a token that its own
  // client's session has already rotated away from.
  ghost predicate Replaying(s: System, r: ReqId, token: Token) {
    && r in s.reqs && token in s.h.spent && token in s.h.refreshOf && s.h.refreshOf[token] in s.h.born
    && var pc := s.reqs[r]; var owner := s.h.born[s.h.refreshOf[token]].row.client;
    && (pc.RefreshLookup? || pc.RefreshRotate? || pc.ReuseLookup? || pc.ReuseDelete?)
    && pc.token == token && pc.client == owner
  }

  ghost predicate Revoked(s: System, r: ReqId, token: Token) {
    && r in s.reqs && s.reqs[r].Finished? && token in s.h.refreshOf && s.h.refreshOf[token] in s.h.born
    && s.h.refreshOf[token] !in s.st.sessions
  }

  ghost predicate GaveUp(s: System, r: ReqId) {
    r in s.reqs && s.reqs[r] == Finished(Aborted)
  }

  lemma ReplayExec(s: System, r: ReqId, ch: Choice, token: Token)
    requires SessionsInv(s.st, s.h, s.now) && LineageInv(s.st, s.h) && Replaying(s, r, token)
    requires RefreshPcOk(s.h, s.now, s.reqs[r])
    ensures var o := ExecRefresh(s.st, s.now, s.reqs[r], ch); var sid := s.h.refreshOf[token];
      || (s.reqs[r].RefreshLookup? && o.write == Nothing && o.next == ReuseLookup(s.reqs[r].client, token))
      || (s.reqs[r].ReuseLookup? && o.write == Nothing && o.next == ReuseDelete(s.reqs[r].client, token, sid))
      || (s.reqs[r].RefreshRotate? && o.write.Rotate? && Answer(s.st, o.write) == NoRow
          && o.next == ReuseLookup(s.reqs[r].client, token))
      || (o.write == Nothing && o.next == Finished(Rejected) && sid !in s.st.sessions)
      || (o.write == DropSession(sid) && o.next == Finished(FamilyRevoked(sid)))
  {
    var sid := s.h.refreshOf[token];
    if sid in s.st.sessions { assert SessionOk(s.h, s.now, sid, s.st.sessions[sid]); }
    hide SessionOk;
    match s.reqs[r]
    case RefreshLookup(client, _) =>
      hide ExecReuseLookup, ExecRefreshRotate;
      assert FindByRefresh(s.st, token).None?;
    case RefreshRotate(client, _, id, row, at) =>
      hide ExecReuseLookup, ExecRefreshLookup;
      assert Answer(s.st, RotateWrite(token, id, row, at, ch)) == NoRow;
    case ReuseLookup(client, _) => hide ExecRefreshLookup, ExecRefreshRotate;
    case ReuseDelete(client, _, id) => hide ExecRefreshLookup, ExecReuseLookup, ExecRefreshRotate;
  }

  lemma ReplayStep(s: System, r: ReqId, ch: Choice, token: Token)
    requires Inv(s) && Replaying(s, r, token) && FreshChoice(s.h, ch)
    ensures var s' := Apply(s, Step(r, ch)); Replaying(s', r, token) || Revoked(s', r, token)
  {
    hide FreshInv, SessionsInv, LineageInv, RotationsInv, CodesInv, DevicesInv, BirthsInv, JarInv, FreshChoice;
    hide Permitted, SideOk, RefreshPcOk, Recorded, Grows, ExecRefresh, Record, ChallengesInv, AcceptedInv;
    hide ExecCode, ExecDevice, ExecClient, ExecAuthorize, ExecPortalLogin, ExecPortal, PcsInv, Began, FamilyOk;
    hide Perform, Answer;
    var pc := s.reqs[r];
    ReplayPcOk(s, r, token);
    ReplayExec(s, r, ch, token);
    var o := ExecRefresh(s.st, s.now, pc, ch);
    DoesNothing(s.st, s.now);
    DropsOneSession(s.st, s.now, s.h.refreshOf[token]);
    EveryStepIsOk(s, r, ch);
    BornStaysBorn(s, r, ch, o);
  }

  lemma ReplayAction(s: System, a: Action, r: ReqId, token: Token)
    requires Inv(s) && Replaying(s, r, token)
    ensures var s' := Apply(s, a); Replaying(s', r, token) || Revoked(s', r, token) || GaveUp(s', r)
  {
    hide Inv, Exec, Perform, Record, Initial, Administrative, FreshChoice, StepOk;
    if a.Step? && a.r == r {
      if FreshChoice(s.h, a.ch) { ReplayStep(s, r, a.ch, token); }
    } else if a.Step? && a.r in s.reqs && !s.reqs[a.r].Finished? && FreshChoice(s.h, a.ch) {
      OtherStepKeepsHistory(s, a.r, a.ch);
    }
  }

  lemma OtherStepKeepsHistory(s: System, r: ReqId, ch: Choice)
    requires Inv(s) && Enabled(s, r, ch)
    ensures var h' := Record(s, r, ch, Exec(s.st, s.now, s.ttl, s.reqs[r], ch));
      Extends(s.h.born, h'.born) && Extends(s.h.spent, h'.spent) && Extends(s.h.refreshOf, h'.refreshOf)
  {
    hide FreshInv, SessionsInv, LineageInv, RotationsInv, CodesInv, DevicesInv, BirthsInv, JarInv, PcsInv;
    hide FreshChoice, Permitted, SideOk, Recorded, Grows, Exec, Record;
    EveryStepIsOk(s, r, ch);
    BornStaysBorn(s, r, ch, Exec(s.st, s.now, s.ttl, s.reqs[r], ch));
  }

  // A finished request stays finished and a revoked session stays revoked.
  lemma DoneAction(s: System, a: Action, r: ReqId, token: Token)
    requires Inv(s) && (Revoked(s, r, token) || GaveUp(s, r))
    ensures var s' := Apply(s, a); Revoked(s', r, token) || GaveUp(s', r)
  {
    hide Inv, Exec, Perform, Record, Initial, Administrative, FreshChoice, StepOk;
    if Revoked(s, r, token) { ActionKeepsDead(s, a, s.h.refreshOf[token]); }
    if a.Step? && a.r in s.reqs && !s.reqs[a.r].Finished? && FreshChoice(s.h, a.ch) {
      OtherStepKeepsHistory(s, a.r, a.ch);
    }
  }

  lemma {:induction false} ReplayRun(s: System, acts: seq<Action>, r: ReqId, token: Token)
    requires Inv(s) && (Replaying(s, r, token) || Revoked(s, r, token) || GaveUp(s, r))
    ensures var s' := Run(s, acts); Replaying(s', r, token) || Revoked(s', r, token) || GaveUp(s', r)
    decreases |acts|
  {
    hide Inv, Apply, Replaying, Revoked, GaveUp;
    if acts != [] {
      ActionKeepsInv(s, acts[0]);
      if Replaying(s, r, token) { ReplayAction(s, acts[0], r, token); } else { DoneAction(s, acts[0], r, token); }
      ReplayRun(Apply(s, acts[0]), acts[1..], r, token);
    }
  }

  /**
   Reuse ends the family. In any reachable state, let a request of the owning
   client stand before its lookup or its guarded rotate with a token that has
   been rotated away. However the run goes on, once that request has answered
   (and was not cut off by a fault) its session is gone, and in every later
   state no access token, refresh token or retired token of the session
   resolves.
   */
  lemma {:induction false} ReuseEndsFamily(s: System, r: ReqId, token: Token, during: seq<Action>, later: seq<Action>)
    requires Reachable(s) && Replaying(s, r, token)
    ensures var s' := Run(s, during);
      && r in s'.reqs
      && (s'.reqs[r].Finished? && s'.reqs[r] != Finished(Aborted) ==> FamilyGone(Run(s', later), s.h.refreshOf[token]))
  {
    hide Inv, Run, Reachable, FamilyGone;
    ReachableInv(s);
    ReplayRun(s, during, r, token);
    RunKeepsInv(s, during);
    var s' := Run(s, during);
    if Revoked(s', r, token) {
      RunKeepsOwner(s, during, token);
      RunKeepsDead(s', later, s.h.refreshOf[token]);
    }
  }

  lemma ActionKeepsOwner(s: System, a: Action, token: Token)
    requires Inv(s) && token in s.h.refreshOf
    ensures var s' := Apply(s, a); token in s'.h.refreshOf && s'.h.refreshOf[token] == s.h.refreshOf[token]
  {
    hide Inv, Exec, After, Initial, Administrative, FreshChoice, Perform;
    if a.Step? && a.r in s.reqs && !s.reqs[a.r].Finished? && FreshChoice(s.h, a.ch) {
      OtherStepKeepsHistory(s, a.r, a.ch);
      AfterRecords(s, a.r, a.ch);
    }
  }

  lemma {:induction false} RunKeepsOwner(s: System, acts: seq<Action>, token: Token)
    requires Inv(s) && token in s.h.refreshOf
    ensures var s' := Run(s, acts); token in s'.h.refreshOf && s'.h.refreshOf[token] == s.h.refreshOf[token]
    decreases |acts|
  {
    hide Inv, Apply;
    if acts != [] {
      ActionKeepsInv(s, acts[0]);
      ActionKeepsOwner(s, acts[0], token);
      RunKeepsOwner(Apply(s, acts[0]), acts[1..], token);
    }
  }

  lemma AfterRecords(s: System, r: ReqId, ch: Choice)
    requires r in s.reqs
    ensures var o := Exec(s.st, s.now, s.ttl, s.reqs[r], ch); After(s, r, ch, o).h == Record(s, r, ch, o)
  {
    hide Exec, Record, Perform;
  }

  // The steps a replaying request still needs.
  function StepsLeftAt(pc: Pc): nat {
    if pc.RefreshLookup? then 3
    else if pc.RefreshRotate? then 3
    else if pc.ReuseLookup? then 2
    else if pc.ReuseDelete? then 1
    else 0
  }

  function StepsLeft(s: System, r: ReqId): nat {
    if r in s.reqs then StepsLeftAt(s.reqs[r]) else 0
  }

  lemma ReplayPcOk(s: System, r: ReqId, token: Token)
    requires Inv(s) && Replaying(s, r, token)
    ensures SessionsInv(s.st, s.h, s.now) && LineageInv(s.st, s.h) && RefreshPcOk(s.h, s.now, s.reqs[r])
  {
    hide FreshInv, SessionsInv, LineageInv, RotationsInv, CodesInv, DevicesInv, BirthsInv, JarInv, ChallengesInv;
    hide AcceptedInv, RefreshPcOk, CodePcOk, DevicePcOk, ClientPcOk, AuthorizePcOk, LoginPcOk, PortalPcOk, UrlOk;
    assert PcOk(s.h, s.now, s.ttl, r, s.reqs[r]);
  }

  lemma ReplayShortens(s: System, r: ReqId, ch: Choice, token: Token)
    requires SessionsInv(s.st, s.h, s.now) && LineageInv(s.st, s.h) && Replaying(s, r, token)
    requires RefreshPcOk(s.h, s.now, s.reqs[r])
    ensures var next := ExecRefresh(s.st, s.now, s.reqs[r], ch).next;
      next.Finished? || StepsLeftAt(next) < StepsLeft(s, r)
  {
    ReplayExec(s, r, ch, token);
    hide ExecRefresh, SessionsInv, LineageInv, RefreshPcOk, Answer, FreshChoice;
  }

  lemma StepMovesOn(s: System, r: ReqId, ch: Choice)
    requires Enabled(s, r, ch) && FamilyOf(s.reqs[r]) == RefreshFamily
    ensures var s' := Apply(s, Step(r, ch)); r in s'.reqs && s'.reqs[r] == ExecRefresh(s.st, s.now, s.reqs[r], ch).next
  {
    hide ExecRefresh, ExecCode, ExecDevice, ExecClient, ExecAuthorize, ExecPortalLogin, ExecPortal, Record, Perform;
    hide Answer, FreshChoice;
  }

  lemma ReplayingIsInFlight(s: System, r: ReqId, token: Token)
    requires Replaying(s, r, token)
    ensures r in s.reqs && !s.reqs[r].Finished? && FamilyOf(s.reqs[r]) == RefreshFamily
  {
  }

  lemma ReplayProgress(s: System, r: ReqId, ch: Choice, token: Token)
    requires Inv(s) && Replaying(s, r, token) && FreshChoice(s.h, ch)
    ensures var s' := Apply(s, Step(r, ch));
      Revoked(s', r, token) || (Replaying(s', r, token) && StepsLeft(s', r) < StepsLeft(s, r))
  {
    ReplayStep(s, r, ch, token);
    hide Inv, Apply, FreshChoice, ExecRefresh, SessionsInv, LineageInv, RefreshPcOk, StepsLeftAt, Revoked;
    hide Replaying, FamilyOf;
    ReplayPcOk(s, r, token);
    ReplayingIsInFlight(s, r, token);
    ReplayShortens(s, r, ch, token);
    StepMovesOn(s, r, ch);
    var s' := Apply(s, Step(r, ch));
    if Replaying(s', r, token) { ReplayingIsInFlight(s', r, token); }
  }

  ghost predicate AllFresh(h: History, chs: seq<Choice>) {
    && (forall i | 0 <= i < |chs| :: FreshChoice(h, chs[i]))
    && (forall i, j | 0 <= i < j < |chs| :: chs[i].id != chs[j].id && {chs[i].t1, chs[i].t2} !! {chs[j].t1, chs[j].t2})
  }

  ghost function StepsOf(r: ReqId, chs: seq<Choice>): (acts: seq<Action>)
    ensures |acts| == |chs|
  {
    seq(|chs|, i requires 0 <= i < |chs| => Step(r, chs[i]))
  }

  /** Left to itself, a replaying request revokes the session in at most three steps. */
  lemma {:induction false} ReuseCompletes(s: System, r: ReqId, token: Token, chs: seq<Choice>)
    requires Inv(s) && Replaying(s, r, token) && AllFresh(s.h, chs) && |chs| == StepsLeft(s, r)
    ensures Revoked(Run(s, StepsOf(r, chs)), r, token)
    decreases |chs|
  {
    hide Inv, Replaying, Revoked, Exec, After, AllFresh, StepsLeft;
    var acts := StepsOf(r, chs);
    StepsLeftPositive(s, r, token);
    assert FreshChoice(s.h, chs[0]) by { FreshHead(s.h, chs); }
    ReplayProgress(s, r, chs[0], token);
    ActionKeepsInv(s, acts[0]);
    var s' := Apply(s, acts[0]);
    if Revoked(s', r, token) {
      RevokedStays(s', acts[1..], r, token);
    } else {
      FreshTail(s, r, chs);
      var n := StepsLeft(s', r);
      var rest := chs[1..][..n];
      assert AllFresh(s'.h, rest) by { FreshPrefix(s'.h, chs[1..], n); }
      ReuseCompletes(s', r, token, rest);
      assert acts[1..] == StepsOf(r, rest) + acts[1 + n..];
      RunAppend(s', StepsOf(r, rest), acts[1 + n..]);
      RunKeepsInv(s', StepsOf(r, rest));
      RevokedStays(Run(s', StepsOf(r, rest)), acts[1 + n..], r, token);
    }
  }

  lemma StepsLeftPositive(s: System, r: ReqId, token: Token)
    requires Replaying(s, r, token)
    ensures StepsLeft(s, r) > 0
  {
  }

  lemma {:induction false} FreshHead(h: History, chs: seq<Choice>)
    requires AllFresh(h, chs) && |chs| > 0
    ensures FreshChoice(h, chs[0])
  {
  }

  lemma {:induction false} FreshPrefix(h: History, chs: seq<Choice>, n: nat)
    requires AllFresh(h, chs) && n <= |chs|
    ensures AllFresh(h, chs[..n])
  {
  }

  lemma {:induction false} FreshTail(s: System, r: ReqId, chs: seq<Choice>)
    requires |chs| > 0 && AllFresh(s.h, chs) && r in s.reqs && !s.reqs[r].Finished?
    ensures AllFresh(Apply(s, Step(r, chs[0])).h, chs[1..])
  {
    hide Exec, Perform, RecordWrite, Answer;
    var o := Exec(s.st, s.now, s.ttl, s.reqs[r], chs[0]);
    WriteDrawsNothing(s.h, s.now, r, o.write);
  }

  lemma {:induction false} RevokedStays(s: System, acts: seq<Action>, r: ReqId, token: Token)
    requires Inv(s) && Revoked(s, r, token)
    ensures Revoked(Run(s, acts), r, token)
    decreases |acts|
  {
    hide Inv, Exec, After, Perform, Initial, Administrative, FreshChoice;
    if acts != [] {
      var a := acts[0];
      ActionKeepsInv(s, a);
      ActionKeepsDead(s, a, s.h.refreshOf[token]);
      if a.Step? && a.r in s.reqs && !s.reqs[a.r].Finished? && FreshChoice(s.h, a.ch) {
        OtherStepKeepsHistory(s, a.r, a.ch);
        AfterRecords(s, a.r, a.ch);
        AfterMoves(s, a.r, a.ch);
      }
      RevokedStays(Apply(s, a), acts[1..], r, token);
    }
  }

  lemma AfterMoves(s: System, r: ReqId, ch: Choice)
    requires r in s.reqs
    ensures var o := Exec(s.st, s.now, s.ttl, s.reqs[r], ch); After(s, r, ch, o).reqs == s.reqs[r := o.next]
  {
    hide Exec, Record, Perform;
  }
}
