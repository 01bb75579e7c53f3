/** Inv holds in every reachable state. */
module Inductive {
  import opened Model
  import opened Stores
  import opened Protocol
  import opened Invariant
  import opened Keep
  import opened KeepSessions
  import opened KeepGrants

  // ---- each step is a good step ----

  ghost predicate Tables(s: System) {
    && FreshInv(s.h) && SessionsInv(s.st, s.h, s.now) && LineageInv(s.st, s.h)
    && CodesInv(s.st, s.h, s.now) && DevicesInv(s.st, s.h)
  }

  lemma StillBegan(h: History, h': History, now: Time, r: ReqId)
    requires Began(h, now, r) && Grows(h, h')
    ensures Began(h', now, r)
  {
    hide SessionsGrow, CodesGrow, DevicesGrow;
  }

  lemma RefreshStep(s: System, r: ReqId, pc: Pc, ch: Choice)
    requires PcAt(s, r) == pc && FamilyOf(pc) == RefreshFamily && PcOk(s.h, s.now, s.ttl, r, pc) && Tables(s)
      && FreshChoice(s.h, ch)
    ensures StepOk(s, r, ch, ExecRefresh(s.st, s.now, pc, ch))
  {
    hide Began;
    hide Permitted, Grows, Recorded, SideOk, RefreshPcOk, Record, ExecRefresh, FreshInv, SessionsInv;
    hide LineageInv, CodesInv, DevicesInv, FreshChoice, Stays;
    var o := ExecRefresh(s.st, s.now, pc, ch);
    var h' := Record(s, r, ch, o);
    PermittedRefresh(s, r, pc, ch);
    RecordGrows(s, r, ch, o);
    StillBegan(s.h, h', s.now, r);
    RecordRecords(s, r, ch, o);
    NextRefresh(s, r, pc, ch, h');
    StayedIsOk(h', s.now, s.ttl, r, RefreshFamily, o.next);
    SideRefresh(s, r, pc, ch, h');
  }

  lemma CodeStep(s: System, r: ReqId, pc: Pc, ch: Choice)
    requires PcAt(s, r) == pc && FamilyOf(pc) == CodeFamily && PcOk(s.h, s.now, s.ttl, r, pc) && Tables(s)
      && FreshChoice(s.h, ch)
    ensures StepOk(s, r, ch, ExecCode(s.st, s.now, pc, ch))
  {
    hide Began;
    hide Permitted, Recorded, SideOk, CodePcOk, Record, ExecCode, FreshInv, SessionsInv, LineageInv, CodesInv;
    hide DevicesInv, FreshChoice, Stays;
    hide SessionsGrow, CodesGrow, DevicesGrow, RestGrows;
    var o := ExecCode(s.st, s.now, pc, ch);
    var h' := Record(s, r, ch, o);
    PermittedCode(s, r, pc, ch);
    RecordGrows(s, r, ch, o);
    StillBegan(s.h, h', s.now, r);
    RecordRecords(s, r, ch, o);
    NextCode(s, r, pc, ch, h');
    StayedIsOk(h', s.now, s.ttl, r, CodeFamily, o.next);
    SideCode(s, r, pc, ch, h');
  }

  lemma DeviceStep(s: System, r: ReqId, pc: Pc, ch: Choice)
    requires PcAt(s, r) == pc && FamilyOf(pc) == DeviceFamily && PcOk(s.h, s.now, s.ttl, r, pc) && Tables(s)
      && FreshChoice(s.h, ch)
    ensures StepOk(s, r, ch, ExecDevice(s.st, s.now, pc, ch))
  {
    hide Began;
    hide Permitted, Recorded, SideOk, DevicePcOk, Record, ExecDevice, FreshInv, SessionsInv, LineageInv;
    hide CodesInv, DevicesInv, FreshChoice, Stays;
    hide SessionsGrow, CodesGrow, DevicesGrow, RestGrows;
    var o := ExecDevice(s.st, s.now, pc, ch);
    var h' := Record(s, r, ch, o);
    PermittedDevice(s, r, pc, ch);
    RecordGrows(s, r, ch, o);
    StillBegan(s.h, h', s.now, r);
    RecordRecords(s, r, ch, o);
    NextDevice(s, r, pc, ch, h');
    StayedIsOk(h', s.now, s.ttl, r, DeviceFamily, o.next);
    SideDevice(s, r, pc, ch, h');
  }

  lemma ClientStep(s: System, r: ReqId, pc: Pc, ch: Choice)
    requires PcAt(s, r) == pc && FamilyOf(pc) == ClientFamily && PcOk(s.h, s.now, s.ttl, r, pc) && Tables(s)
      && FreshChoice(s.h, ch)
    ensures StepOk(s, r, ch, ExecClient(s.st, s.now, pc, ch))
  {
    hide Began;
    hide Permitted, Grows, Recorded, SideOk, ClientPcOk, Record, ExecClient, FreshInv, SessionsInv, LineageInv;
    hide CodesInv, DevicesInv, FreshChoice, Stays;
    var o := ExecClient(s.st, s.now, pc, ch);
    var h' := Record(s, r, ch, o);
    PermittedClient(s, r, pc, ch);
    RecordGrows(s, r, ch, o);
    StillBegan(s.h, h', s.now, r);
    RecordRecords(s, r, ch, o);
    NextClient(s, r, pc, ch, h');
    StayedIsOk(h', s.now, s.ttl, r, ClientFamily, o.next);
    SideClient(s, r, pc, ch, h');
  }

  lemma AuthorizeStep(s: System, r: ReqId, pc: Pc, ch: Choice)
    requires PcAt(s, r) == pc && FamilyOf(pc) == AuthorizeFamily && PcOk(s.h, s.now, s.ttl, r, pc) && Tables(s)
      && FreshChoice(s.h, ch)
    ensures StepOk(s, r, ch, ExecAuthorize(s.st, s.now, pc, ch))
  {
    hide Began;
    hide Permitted, Recorded, SideOk, AuthorizePcOk, Record, ExecAuthorize, FreshInv, SessionsInv, LineageInv;
    hide CodesInv, DevicesInv, FreshChoice, Stays;
    hide SessionsGrow, CodesGrow, DevicesGrow, RestGrows;
    var o := ExecAuthorize(s.st, s.now, pc, ch);
    var h' := Record(s, r, ch, o);
    PermittedAuthorize(s, r, pc, ch);
    RecordGrows(s, r, ch, o);
    StillBegan(s.h, h', s.now, r);
    RecordRecords(s, r, ch, o);
    NextAuthorize(s, r, pc, ch, h');
    StayedIsOk(h', s.now, s.ttl, r, AuthorizeFamily, o.next);
    SideAuthorize(s, r, pc, ch, h');
  }

  lemma LoginStep(s: System, r: ReqId, pc: Pc, ch: Choice)
    requires PcAt(s, r) == pc && FamilyOf(pc) == LoginFamily && PcOk(s.h, s.now, s.ttl, r, pc) && Tables(s)
      && FreshChoice(s.h, ch)
    ensures StepOk(s, r, ch, ExecPortalLogin(s.st, s.now, pc, ch))
  {
    hide Began;
    hide Permitted, SideOk, LoginPcOk, Checked, SessionsGrow, CodesGrow, DevicesGrow, RestGrows, Answer, Record;
    hide ExecPortalLogin, FreshInv, SessionsInv, LineageInv, CodesInv, DevicesInv, FreshChoice, Stays;
    var o := ExecPortalLogin(s.st, s.now, pc, ch);
    var h' := Record(s, r, ch, o);
    PermittedLogin(s, r, pc, ch);
    RecordGrows(s, r, ch, o);
    StillBegan(s.h, h', s.now, r);
    RecordRecords(s, r, ch, o);
    NextLogin(s, r, pc, ch, h');
    StayedIsOk(h', s.now, s.ttl, r, LoginFamily, o.next);
    SideLogin(s, r, pc, ch, h');
  }

  lemma PortalNextIsOk(h: History, now: Time, ttl: Time, r: ReqId, pc: Pc)
    requires PortalNextOk(h, now, ttl, r, pc) && Began(h, now, r)
    ensures PcOk(h, now, ttl, r, pc)
  {
    hide UrlOk, AuthorizePcOk, PortalPcOk, Began;
  }

  lemma PortalStep(s: System, r: ReqId, pc: Pc, ch: Choice)
    requires PcAt(s, r) == pc && FamilyOf(pc) == PortalFamily && PcOk(s.h, s.now, s.ttl, r, pc) && Tables(s)
      && FreshChoice(s.h, ch)
    requires s.ttl >= 0 && ChallengesInv(s.h, s.now)
    ensures StepOk(s, r, ch, ExecPortal(s.st, s.now, s.ttl, pc, ch))
  {
    hide Began;
    hide Permitted, Recorded, SideOk, PortalPcOk, Record, ExecPortal, FreshInv, SessionsInv, LineageInv;
    hide CodesInv, DevicesInv, FreshChoice, PortalNextOk, ChallengesInv;
    hide SessionsGrow, CodesGrow, DevicesGrow, RestGrows;
    var o := ExecPortal(s.st, s.now, s.ttl, pc, ch);
    var h' := Record(s, r, ch, o);
    PermittedPortal(s, r, pc, ch);
    RecordGrows(s, r, ch, o);
    StillBegan(s.h, h', s.now, r);
    RecordRecords(s, r, ch, o);
    NextPortal(s, r, pc, ch, h');
    PortalNextIsOk(h', s.now, s.ttl, r, o.next);
    SidePortal(s, r, pc, ch, h');
  }

  lemma EveryStepIsOk(s: System, r: ReqId, ch: Choice)
    requires Tables(s) && s.ttl >= 0 && ChallengesInv(s.h, s.now) && PcsInv(s.h, s.now, s.ttl, s.reqs)
    requires Enabled(s, r, ch)
    ensures StepOk(s, r, ch, Exec(s.st, s.now, s.ttl, s.reqs[r], ch))
  {
    hide StepOk, Tables, PcOk, ChallengesInv;
    hide ExecRefresh, ExecCode, ExecDevice, ExecClient, ExecAuthorize, ExecPortalLogin, ExecPortal;
    var pc := s.reqs[r];
    assert PcOk(s.h, s.now, s.ttl, r, pc);
    match FamilyOf(pc)
    case RefreshFamily => RefreshStep(s, r, pc, ch);
    case CodeFamily => CodeStep(s, r, pc, ch);
    case DeviceFamily => DeviceStep(s, r, pc, ch);
    case ClientFamily => ClientStep(s, r, pc, ch);
    case AuthorizeFamily => AuthorizeStep(s, r, pc, ch);
    case LoginFamily => LoginStep(s, r, pc, ch);
    case PortalFamily => PortalStep(s, r, pc, ch);
    case Over =>
  }

  // ---- each step keeps each invariant ----

  predicate Took(s: System, o: Out) {
    Answer(s.st, o.write) == Done
  }

  // RecordWrite, field by field.
  ghost predicate WroteSessions(h: History, now: Time, w: Write, h': History) {
    && (w.InsertSession? ==>
          h'.born == h.born[w.sid := Birth(w.row.(createdAt := now), w.source)]
          && h'.refreshOf == h.refreshOf[w.row.refresh := w.sid] && h'.accessOf == h.accessOf[w.row.access := w.sid]
          && h'.rotations == h.rotations[w.sid := 0]
          && h'.codeSession == (if w.source.ByCode? then h.codeSession[w.source.grant := w.sid] else h.codeSession)
          && h'.devSession == (if w.source.ByDevice? then h.devSession[w.source.device := w.sid] else h.devSession))
    && (w.Rotate? ==>
          h'.refreshOf == h.refreshOf[w.refresh := w.sid] && h'.accessOf == h.accessOf[w.access := w.sid]
          && h'.spent == h.spent[w.spent := w.refresh]
          && h'.rotations == h.rotations[w.sid := if w.sid in h.rotations then h.rotations[w.sid] + 1 else 1])
    && (!w.InsertSession? ==> h'.born == h.born && h'.codeSession == h.codeSession && h'.devSession == h.devSession)
    && (!w.Rotate? ==> h'.spent == h.spent)
    && (!w.InsertSession? && !w.Rotate? ==>
          h'.refreshOf == h.refreshOf && h'.accessOf == h.accessOf && h'.rotations == h.rotations)
  }

  ghost predicate WroteGrants(h: History, w: Write, h': History) {
    && h'.grants == (if w.InsertGrant? then h.grants[w.gid := w.grant] else h.grants)
    && h'.codeTicket == (if w.InsertGrant? then h.codeTicket[w.gid := w.ticket] else h.codeTicket)
    && (!w.UseGrant? ==> h'.redeemer == h.redeemer)
    && (!w.InsertDevice? && !Decides(w) ==> SameDecisions(h, h'))
    && h'.devices == (if w.InsertDevice? then h.devices[w.did := w.device] else h.devices)
    && h'.deviceTicket == (if w.InsertDevice? then h.deviceTicket[w.did := w.ticket] else h.deviceTicket)
  }

  ghost predicate Wrote(h: History, now: Time, w: Write, h': History) {
    WroteSessions(h, now, w, h') && WroteGrants(h, w, h')
  }

  // Record, field by field.
  ghost predicate Shape(s: System, r: ReqId, ch: Choice, o: Out, h': History) {
    && Wrote(s.h, s.now, if Took(s, o) then o.write else Nothing, h')
    && h'.drawn == s.h.drawn + {ch.t1, ch.t2} && h'.ids == s.h.ids + {ch.id}
    && h'.challenges == (if o.stamp.Some?
         then s.h.challenges[(o.stamp.value.uid, o.stamp.value.at) := Proof(r, o.stamp.value.passed)]
         else s.h.challenges)
    && h'.accepted == (if o.accept.Some? then s.h.accepted[ch.id := Ticket(r, o.accept.value)] else s.h.accepted)
    && h'.arrived == s.h.arrived
  }

  lemma WriteShapeInsert(h: History, now: Time, r: ReqId, w: Write)
    requires w.InsertSession?
    ensures WroteSessions(h, now, w, RecordWrite(h, now, r, w))
  {
  }

  lemma WriteShapeRotate(h: History, now: Time, r: ReqId, w: Write)
    requires w.Rotate?
    ensures WroteSessions(h, now, w, RecordWrite(h, now, r, w))
  {
  }

  ghost predicate SameSessions(h: History, h': History) {
    && h'.born == h.born && h'.codeSession == h.codeSession && h'.devSession == h.devSession && h'.spent == h.spent
    && h'.refreshOf == h.refreshOf && h'.accessOf == h.accessOf && h'.rotations == h.rotations
  }

  lemma GrantsLeaveSessions(h: History, now: Time, r: ReqId, w: Write)
    requires w.InsertGrant? || w.UseGrant? || w.InsertDevice?
    ensures SameSessions(h, RecordWrite(h, now, r, w))
  {
  }

  lemma DecisionsLeaveSessions(h: History, now: Time, r: ReqId, w: Write)
    requires Decides(w)
    ensures SameSessions(h, RecordWrite(h, now, r, w))
  {
  }

  lemma OthersLeaveSessions(h: History, now: Time, r: ReqId, w: Write)
    requires !w.InsertSession? && !w.Rotate? && !w.InsertGrant? && !w.UseGrant? && !w.InsertDevice? && !Decides(w)
    ensures SameSessions(h, RecordWrite(h, now, r, w))
  {
  }

  lemma LeavesSessions(h: History, now: Time, r: ReqId, w: Write)
    requires !w.InsertSession? && !w.Rotate?
    ensures WroteSessions(h, now, w, RecordWrite(h, now, r, w))
  {
    hide RecordWrite;
    if w.InsertGrant? || w.UseGrant? || w.InsertDevice? { GrantsLeaveSessions(h, now, r, w); }
    else if Decides(w) { DecisionsLeaveSessions(h, now, r, w); }
    else { OthersLeaveSessions(h, now, r, w); }
  }

  lemma WriteShapeSessions(h: History, now: Time, r: ReqId, w: Write)
    ensures WroteSessions(h, now, w, RecordWrite(h, now, r, w))
  {
    hide WroteSessions, RecordWrite;
    if w.InsertSession? { WriteShapeInsert(h, now, r, w); }
    else if w.Rotate? { WriteShapeRotate(h, now, r, w); }
    else { LeavesSessions(h, now, r, w); }
  }

  lemma WriteShapeGrants(h: History, now: Time, r: ReqId, w: Write)
    ensures WroteGrants(h, w, RecordWrite(h, now, r, w))
  {
    if w.InsertGrant? || w.UseGrant? { assert SameDecisions(h, RecordWrite(h, now, r, w)); }
    else if w.InsertDevice? || Decides(w) { }
    else { LeavesGrants(h, now, r, w); }
  }

  ghost predicate SameGrants(h: History, h': History) {
    && h'.grants == h.grants && h'.codeTicket == h.codeTicket && h'.redeemer == h.redeemer && SameDecisions(h, h')
  }

  lemma SessionsLeaveGrants(h: History, now: Time, r: ReqId, w: Write)
    requires w.InsertSession? || w.Rotate?
    ensures SameGrants(h, RecordWrite(h, now, r, w))
  {
  }

  lemma OthersLeaveGrants(h: History, now: Time, r: ReqId, w: Write)
    requires !w.InsertSession? && !w.Rotate? && !w.InsertGrant? && !w.UseGrant? && !w.InsertDevice? && !Decides(w)
    ensures SameGrants(h, RecordWrite(h, now, r, w))
  {
  }

  lemma LeavesGrants(h: History, now: Time, r: ReqId, w: Write)
    requires !w.InsertGrant? && !w.UseGrant? && !w.InsertDevice? && !Decides(w)
    ensures WroteGrants(h, w, RecordWrite(h, now, r, w))
  {
    hide RecordWrite;
    if w.InsertSession? || w.Rotate? { SessionsLeaveGrants(h, now, r, w); } else { OthersLeaveGrants(h, now, r, w); }
  }

  lemma WriteShape(h: History, now: Time, r: ReqId, w: Write)
    ensures Wrote(h, now, w, RecordWrite(h, now, r, w))
  {
    hide WroteSessions, WroteGrants, RecordWrite;
    WriteShapeSessions(h, now, r, w);
    WriteShapeGrants(h, now, r, w);
  }

  ghost predicate SameRest(h: History, h': History) {
    && h'.drawn == h.drawn && h'.ids == h.ids && h'.challenges == h.challenges && h'.accepted == h.accepted
    && h'.arrived == h.arrived
  }

  lemma SessionsDrawNothing(h: History, now: Time, r: ReqId, w: Write)
    requires w.InsertSession? || w.Rotate?
    ensures SameRest(h, RecordWrite(h, now, r, w))
  {
  }

  lemma GrantsDrawNothing(h: History, now: Time, r: ReqId, w: Write)
    requires w.InsertGrant? || w.UseGrant? || w.InsertDevice?
    ensures SameRest(h, RecordWrite(h, now, r, w))
  {
  }

  lemma OthersDrawNothing(h: History, now: Time, r: ReqId, w: Write)
    requires !w.InsertSession? && !w.Rotate? && !w.InsertGrant? && !w.UseGrant? && !w.InsertDevice?
    ensures SameRest(h, RecordWrite(h, now, r, w))
  {
  }

  lemma WriteDrawsNothing(h: History, now: Time, r: ReqId, w: Write)
    ensures SameRest(h, RecordWrite(h, now, r, w))
  {
    hide SameRest, RecordWrite;
    if w.InsertSession? || w.Rotate? { SessionsDrawNothing(h, now, r, w); }
    else if w.InsertGrant? || w.UseGrant? || w.InsertDevice? { GrantsDrawNothing(h, now, r, w); }
    else { OthersDrawNothing(h, now, r, w); }
  }

  lemma RestShape(h: History, now: Time, r: ReqId, ch: Choice, o: Out, password: Option<UserId>, factor: Option<UserId>,
                  row: Option<User>)
    ensures var h' := RecordChecks(RecordRest(h, r, ch, o), now, r, password, factor, row);
      h' == h.(drawn := h.drawn + {ch.t1, ch.t2}, ids := h.ids + {ch.id}, challenges := h'.challenges,
               accepted := h'.accepted, known := h'.known, verified := h'.verified, seen := h'.seen)
    ensures var rest := RecordRest(h, r, ch, o);
      var h' := RecordChecks(rest, now, r, password, factor, row);
      h'.challenges == rest.challenges && h'.accepted == rest.accepted
  {
  }

  lemma RecordShape(s: System, r: ReqId, ch: Choice, o: Out)
    ensures Shape(s, r, ch, o, Record(s, r, ch, o))
  {
    hide Answer, PasswordPassed, FactorPassed, RowRead, RecordChecks, RecordWrite;
    var pc := PcAt(s, r);
    var written := if Took(s, o) then RecordWrite(s.h, s.now, r, o.write) else s.h;
    RestShape(written, s.now, r, ch, o, PasswordPassed(s.st, pc, ch), FactorPassed(pc, ch), RowRead(s.st, pc, ch));
    WriteShape(s.h, s.now, r, o.write);
    WriteDrawsNothing(s.h, s.now, r, o.write);
  }

  lemma KeepsFreshTokens(s: System, r: ReqId, ch: Choice, o: Out, h': History)
    requires FreshTokens(s.h) && SessionsInv(s.st, s.h, s.now) && FreshChoice(s.h, ch) && Permitted(s, r, ch, o.write)
    requires Shape(s, r, ch, o, h')
    ensures FreshTokens(h')
  {
    hide Permitted, SessionOk, WroteGrants;
    PermittedIds(s, r, ch, o.write);
    if o.write.Rotate? && Took(s, o) {
      assert SessionOk(s.h, s.now, o.write.sid, s.st.sessions[o.write.sid]);
    }
  }

  lemma KeepsFresh(s: System, r: ReqId, ch: Choice, o: Out)
    requires FreshInv(s.h) && SessionsInv(s.st, s.h, s.now) && FreshChoice(s.h, ch) && Permitted(s, r, ch, o.write)
    ensures FreshInv(Record(s, r, ch, o))
  {
    hide Permitted, SessionsInv, Record, SameDecisions, WroteSessions, FreshTokens;
    RecordShape(s, r, ch, o);
    PermittedIds(s, r, ch, o.write);
    KeepsFreshTokens(s, r, ch, o, Record(s, r, ch, o));
  }

  lemma BirthStable(h: History, h': History, sid: SessionId, b: Birth)
    requires BirthOk(h, sid, b) && Grows(h, h')
    ensures BirthOk(h', sid, b)
  {
  }

  lemma NewBirth(s: System, r: ReqId, ch: Choice, o: Out, h': History)
    requires o.write.InsertSession? && Answer(s.st, o.write) == Done
    requires Permitted(s, r, ch, o.write) && Vouched(h', o.write) && Grows(s.h, h')
    requires var source := o.write.source;
      (source.ByCode? ==> h'.codeSession == s.h.codeSession[source.grant := o.write.sid])
      && (source.ByDevice? ==> h'.devSession == s.h.devSession[source.device := o.write.sid])
    ensures BirthOk(h', ch.id, Birth(o.write.row.(createdAt := s.now), o.write.source))
  {
    hide Answer;
  }

  lemma KeepsBirths(s: System, r: ReqId, ch: Choice, o: Out)
    requires BirthsInv(s.h) && Permitted(s, r, ch, o.write)
    requires Grows(s.h, Record(s, r, ch, o)) && Vouched(Record(s, r, ch, o), o.write)
    ensures BirthsInv(Record(s, r, ch, o))
  {
    hide Permitted, Grows, Vouched, Answer, BirthOk, Record;
    var h' := Record(s, r, ch, o);
    RecordShape(s, r, ch, o);
    forall sid | sid in h'.born
      ensures BirthOk(h', sid, h'.born[sid])
    {
      if o.write.InsertSession? && Answer(s.st, o.write) == Done && sid == o.write.sid {
        InsertsFreshId(s, r, ch, o.write);
        NewBirth(s, r, ch, o, h');
      } else {
        BirthStable(s.h, h', sid, s.h.born[sid]);
      }
    }
  }

  lemma InsertsFreshId(s: System, r: ReqId, ch: Choice, w: Write)
    requires Permitted(s, r, ch, w) && w.InsertSession?
    ensures w.sid == ch.id
  {
  }

  lemma KeepsAccepted(s: System, r: ReqId, ch: Choice, o: Out)
    requires AcceptedInv(s.h) && SideOk(s, r, o, Record(s, r, ch, o))
    ensures AcceptedInv(Record(s, r, ch, o))
  {
    hide Answer, AllRegistered, Vouched, CookieOk, Record;
    RecordShape(s, r, ch, o);
  }

  lemma KeepsChallenges(s: System, r: ReqId, ch: Choice, o: Out)
    requires ChallengesInv(s.h, s.now) && SideOk(s, r, o, Record(s, r, ch, o)) && Grows(s.h, Record(s, r, ch, o))
    ensures ChallengesInv(Record(s, r, ch, o), s.now)
  {
    hide Answer, AcceptanceOk, Vouched, CookieOk, Record, SessionsGrow, CodesGrow, DevicesGrow;
    RecordShape(s, r, ch, o);
  }

  lemma CookieStable(h: History, h': History, now: Time, now': Time, c: Cookie)
    requires CookieOk(h, now, c) && SessionsGrow(h, h') && RestGrows(h, h') && now <= now'
    ensures CookieOk(h', now', c)
  {
  }

  lemma KeepsJar(h: History, h': History, now: Time, now': Time, jar: set<Cookie>)
    requires JarInv(h, now, jar) && SessionsGrow(h, h') && RestGrows(h, h') && now <= now'
    ensures JarInv(h', now', jar)
  {
    hide CookieOk, SessionsGrow, RestGrows;
    forall c | c in jar
      ensures CookieOk(h', now', c)
    {
      CookieStable(h, h', now, now', c);
    }
  }

  // The code or device grant a request holds is still unspent.
  ghost predicate StillHeld(h': History, pc: Pc) {
    && (pc.CodeUser? || pc.CodeMint? ==> pc.gid !in h'.codeSession)
    && (pc.DeviceUser? || pc.DeviceMint? ==> pc.did !in h'.devSession)
  }

  lemma RefreshStable(h: History, h': History, now: Time, now': Time, pc: Pc)
    requires Grows(h, h') && now <= now' && RefreshPcOk(h, now, pc)
    ensures RefreshPcOk(h', now', pc)
  {
    hide CodesGrow, DevicesGrow, RestGrows;
  }

  lemma CodeStable(h: History, h': History, now: Time, now': Time, r: ReqId, pc: Pc)
    requires Grows(h, h') && now <= now' && StillHeld(h', pc) && CodePcOk(h, now, r, pc)
    ensures CodePcOk(h', now', r, pc)
  {
    hide SessionsGrow, DevicesGrow, RestGrows;
  }

  lemma DeviceStable(h: History, h': History, now: Time, now': Time, r: ReqId, pc: Pc)
    requires Grows(h, h') && now <= now' && StillHeld(h', pc) && DevicePcOk(h, now, r, pc)
    ensures DevicePcOk(h', now', r, pc)
  {
    hide SessionsGrow, CodesGrow, RestGrows;
  }

  lemma ClientStable(h: History, h': History, now: Time, now': Time, r: ReqId, pc: Pc)
    requires RestGrows(h, h') && now <= now' && ClientPcOk(h, now, r, pc)
    ensures ClientPcOk(h', now', r, pc)
  {
    FactsStable(h, h', now, now', r);
    hide RestGrows, Ticketed;
  }

  lemma SeatStable(h: History, h': History, now: Time, now': Time, r: ReqId, pc: Pc)
    requires RestGrows(h, h') && now <= now' && (pc.Seat? || pc.IssueCode?) && AuthorizePcOk(h, now, r, pc)
    ensures AuthorizePcOk(h', now', r, pc)
  {
    FactsStable(h, h', now, now', r);
    hide RestGrows, ReqOk, Indirect, Verified, Stampable, Ticketed, Began, Justified;
  }

  lemma FactorFormStable(h: History, h': History, now: Time, now': Time, r: ReqId, pc: Pc)
    requires RestGrows(h, h') && now <= now' && AuthorizePcOk(h, now, r, pc)
    requires pc.AuthMfa? || pc.AuthFactor? || pc.AuthRecord? || pc.AuthClient?
    ensures AuthorizePcOk(h', now', r, pc)
  {
    FactsStable(h, h', now, now', r);
    hide RestGrows, ReqOk, Indirect, Verified, Stampable, Ticketed, Began, Justified, Known;
  }

  lemma AuthorizeStable(h: History, h': History, now: Time, now': Time, r: ReqId, pc: Pc)
    requires RestGrows(h, h') && now <= now' && AuthorizePcOk(h, now, r, pc)
    ensures AuthorizePcOk(h', now', r, pc)
  {
    if pc.Seat? || pc.IssueCode? {
      hide AuthorizePcOk, RestGrows;
      SeatStable(h, h', now, now', r, pc);
    } else if pc.AuthMfa? || pc.AuthFactor? || pc.AuthRecord? || pc.AuthClient? {
      hide AuthorizePcOk, RestGrows;
      FactorFormStable(h, h', now, now', r, pc);
    } else {
      FactsStable(h, h', now, now', r);
      hide RestGrows, ReqOk, Indirect, Verified, Stampable, Ticketed, Began, FactorOk, OwnTicket;
    }
  }

  lemma LoginStable(h: History, h': History, now: Time, now': Time, r: ReqId, pc: Pc)
    requires RestGrows(h, h') && now <= now' && Began(h, now, r) && LoginPcOk(h, now, r, pc)
    ensures LoginPcOk(h', now', r, pc)
  {
    FactsStable(h, h', now, now', r);
    assert h'.arrived[r] == h.arrived[r];
    hide RestGrows, Known, Indirect, Verified, Stampable, Began;
  }

  lemma PortalRowStable(h: History, h': History, now: Time, now': Time, sid: SessionId, row: Session)
    requires SessionsGrow(h, h') && RestGrows(h, h') && now <= now' && PortalRowOk(h, now, sid, row)
    ensures PortalRowOk(h', now', sid, row)
  {
  }

  lemma PortalStable(h: History, h': History, now: Time, now': Time, r: ReqId, pc: Pc)
    requires SessionsGrow(h, h') && RestGrows(h, h') && now <= now' && PortalPcOk(h, now, r, pc)
    ensures PortalPcOk(h', now', r, pc)
  {
    FactsStable(h, h', now, now', r);
    hide PurposeOk, Indirect, Verified, Stampable, Began, Known;
    if pc.PortalUser? || pc.PortalSlide? || pc.PortalAct? {
      PortalRowStable(h, h', now, now', pc.sid, pc.row);
      hide SessionsGrow, RestGrows, PortalRowOk;
    } else {
      hide PortalRowOk;
    }
  }

  lemma UrlStable(h: History, h': History, ttl: Time, out: Outcome)
    requires RestGrows(h, h') && UrlOk(h, ttl, out)
    ensures UrlOk(h', ttl, out)
  {
  }

  lemma PcStable(h: History, h': History, now: Time, now': Time, ttl: Time, r: ReqId, pc: Pc)
    requires PcOk(h, now, ttl, r, pc) && Grows(h, h') && now <= now' && StillHeld(h', pc)
    ensures PcOk(h', now', ttl, r, pc)
  {
    hide RefreshPcOk, CodePcOk, DevicePcOk, ClientPcOk, AuthorizePcOk, LoginPcOk, PortalPcOk, UrlOk;
    hide SessionsGrow, CodesGrow, DevicesGrow, StillHeld, FamilyOk;
    FamilyStable(h, h', now, now', ttl, r, pc);
  }

  lemma FamilyStable(h: History, h': History, now: Time, now': Time, ttl: Time, r: ReqId, pc: Pc)
    requires Began(h, now, r) && FamilyOk(h, now, ttl, r, pc) && Grows(h, h') && now <= now' && StillHeld(h', pc)
    ensures FamilyOk(h', now', ttl, r, pc)
  {
    hide RefreshPcOk, CodePcOk, DevicePcOk, ClientPcOk, AuthorizePcOk, LoginPcOk, PortalPcOk, UrlOk;
    hide SessionsGrow, CodesGrow, DevicesGrow, RestGrows, StillHeld, Began;
    match FamilyOf(pc)
    case RefreshFamily => RefreshStable(h, h', now, now', pc);
    case CodeFamily => CodeStable(h, h', now, now', r, pc);
    case DeviceFamily => DeviceStable(h, h', now, now', r, pc);
    case ClientFamily => ClientStable(h, h', now, now', r, pc);
    case AuthorizeFamily => AuthorizeStable(h, h', now, now', r, pc);
    case LoginFamily => LoginStable(h, h', now, now', r, pc);
    case PortalFamily => PortalStable(h, h', now, now', r, pc);
    case Over => UrlStable(h, h', ttl, pc.out);
  }

  lemma KeepsSessions(s: System, r: ReqId, ch: Choice, o: Out)
    requires SessionsInv(s.st, s.h, s.now) && StepOk(s, r, ch, o)
    ensures SessionsInv(Perform(s.st, s.now, o.write), Record(s, r, ch, o), s.now)
  {
    hide Permitted, Vouched, PcOk, Recorded, CookieOk, AllRegistered, Record, Answer, Perform, SessionOk;
    hide SessionsGrow, RestGrows, CodesGrow, DevicesGrow;
    var h', w := Record(s, r, ch, o), o.write;
    RecordShape(s, r, ch, o);
    SessionsStable(s.st, s.h, h', s.now, s.now);
    BornGrow(s.h, h');
    PermittedIds(s, r, ch, w);
    if w.InsertSession? || w.Rotate? {
      if Took(s, o) {
        if w.InsertSession? { InsertKeepsSessions(s, r, ch, o, h'); } else { RotateKeepsSessions(s, r, ch, w, h'); }
      } else {
        NotTaken(s.st, s.now, w);
      }
    } else if w.Extend? || w.MarkMfa? {
      TouchKeepsSessions(s, r, ch, w, h');
    } else {
      NoRowWritten(s.st, s.now, w);
    }
  }

  lemma BornGrow(h: History, h': History)
    requires SessionsGrow(h, h')
    ensures Extends(h.born, h'.born)
  {
  }

  lemma NotTaken(st: Store, now: Time, w: Write)
    requires Answer(st, w) != Done
    ensures Perform(st, now, w) == st
  {
    hide Answer;
  }

  // Handlers write fresh ids and fresh tokens.
  lemma PermittedIds(s: System, r: ReqId, ch: Choice, w: Write)
    requires Permitted(s, r, ch, w)
    ensures w.InsertSession? ==> w.sid == ch.id && w.row.access == ch.t1 && w.row.refresh == ch.t2
    ensures w.Rotate? ==> w.access == ch.t1 && w.refresh == ch.t2
    ensures w.InsertGrant? ==> w.gid == ch.id
    ensures w.InsertDevice? ==> w.did == ch.id
    ensures w.Rotate? ==> w.sid in s.h.born
  {
    hide SourcePermitted;
  }

  // The session tables right after an insert or a rotation.
  lemma TokenTables(st: Store, now: Time, w: Write)
    requires (w.InsertSession? || w.Rotate?) && Answer(st, w) == Done
    ensures var st' := Perform(st, now, w);
      && w.sid in st'.sessions && st'.sessions == st.sessions[w.sid := st'.sessions[w.sid]]
      && (w.InsertSession? ==>
            w.sid !in st.sessions && st'.sessions[w.sid].refresh == w.row.refresh && st'.retired == st.retired)
      && (w.Rotate? ==>
            w.sid in st.sessions && st.sessions[w.sid].refresh == w.spent && st'.sessions[w.sid].refresh == w.refresh)
      && (w.Rotate? ==> st'.retired == if w.spent in st.retired then st.retired else st.retired[w.spent := w.sid])
  {
    hide TokensUnused;
  }

  lemma LineageNeeds(st: Store, h: History, now: Time)
    requires SessionsInv(st, h, now) && LineageInv(st, h) && FreshInv(h)
    ensures OwnTokens(st, h) && h.spent.Keys <= h.drawn && h.refreshOf.Keys <= h.drawn
    ensures forall sid | sid in st.sessions :: sid in h.born && sid in h.rotations
  {
    forall sid | sid in st.sessions
      ensures st.sessions[sid].refresh in h.refreshOf && h.refreshOf[st.sessions[sid].refresh] == sid && sid in h.born
    {
      assert SessionOk(h, now, sid, st.sessions[sid]);
    }
  }

  lemma TakenKeepsLineage(s: System, r: ReqId, ch: Choice, o: Out)
    requires FreshInv(s.h) && SessionsInv(s.st, s.h, s.now) && LineageInv(s.st, s.h) && RotationsInv(s.st, s.h)
    requires FreshChoice(s.h, ch) && Permitted(s, r, ch, o.write)
    requires (o.write.InsertSession? || o.write.Rotate?) && Took(s, o)
    ensures LineageInv(Perform(s.st, s.now, o.write), Record(s, r, ch, o))
    ensures RotationsInv(Perform(s.st, s.now, o.write), Record(s, r, ch, o))
  {
    hide Permitted, Record, Answer, Perform, SessionsInv, LineageInv, RotationsInv, WroteGrants;
    var st', h', w := Perform(s.st, s.now, o.write), Record(s, r, ch, o), o.write;
    RecordShape(s, r, ch, o);
    PermittedIds(s, r, ch, w);
    LineageNeeds(s.st, s.h, s.now);
    TokenTables(s.st, s.now, w);
    var row := st'.sessions[w.sid];
    if w.InsertSession? {
      InsertKeepsLineage(s.st, s.h, st', h', w.sid, row);
      InsertKeepsRotations(s.st, s.h, st', h', w.sid, row);
    } else {
      RotateKeepsLineage(s.st, s.h, st', h', w.sid, row, w.spent);
      RotateKeepsRotations(s.st, s.h, st', h', w.sid, row, w.spent);
    }
  }

  lemma KeepsLineage(s: System, r: ReqId, ch: Choice, o: Out)
    requires FreshInv(s.h) && SessionsInv(s.st, s.h, s.now) && LineageInv(s.st, s.h) && RotationsInv(s.st, s.h)
    requires FreshChoice(s.h, ch) && Permitted(s, r, ch, o.write)
    ensures LineageInv(Perform(s.st, s.now, o.write), Record(s, r, ch, o))
    ensures RotationsInv(Perform(s.st, s.now, o.write), Record(s, r, ch, o))
  {
    hide Permitted, Record, Answer, Perform, SessionsInv, LineageInv, RotationsInv, WroteGrants;
    var st', h', w := Perform(s.st, s.now, o.write), Record(s, r, ch, o), o.write;
    if (w.InsertSession? || w.Rotate?) && Took(s, o) {
      TakenKeepsLineage(s, r, ch, o);
    } else {
      hide FreshInv, FreshChoice;
      RecordShape(s, r, ch, o);
      if w.InsertSession? || w.Rotate? {
        NotTaken(s.st, s.now, w);
      } else {
        PerformKeepsLineage(s.st, s.now, s.h, w);
      }
      LineageReadsSessions(st', st', s.h, h');
    }
  }

  lemma KeepsCodes(s: System, r: ReqId, ch: Choice, o: Out)
    requires FreshInv(s.h) && CodesInv(s.st, s.h, s.now) && FreshChoice(s.h, ch) && StepOk(s, r, ch, o)
    ensures CodesInv(Perform(s.st, s.now, o.write), Record(s, r, ch, o), s.now)
  {
    hide Vouched, PcOk, CookieOk, AllRegistered, Record, Answer, Perform, SessionsGrow, RestGrows, CodesGrow;
    hide DevicesGrow, CodesInv;
    var h', w := Record(s, r, ch, o), o.write;
    RecordShape(s, r, ch, o);
    PermittedIds(s, r, ch, w);
    if w.InsertGrant? && Took(s, o) {
      IssueKeepsCodes(s, r, ch, o, h');
    } else if w.UseGrant? && Took(s, o) {
      UseShape(s, r, ch, o);
      UseKeepsCodes(s, r, w.gid, h');
    } else {
      if w.InsertGrant? || w.UseGrant? { NotTaken(s.st, s.now, w); } else { OthersKeepCodes(s.st, s.now, w); }
      FewerCodes(s.st, Perform(s.st, s.now, w), s.h, s.now);
      CodeSessionsRedeemed(s, r, ch, o);
      CodesStable(Perform(s.st, s.now, w), s.h, h', s.now, s.now);
    }
  }

  lemma UseShape(s: System, r: ReqId, ch: Choice, o: Out)
    requires o.write.UseGrant? && Took(s, o)
    ensures Record(s, r, ch, o).redeemer == s.h.redeemer[o.write.gid := r]
  {
    hide Answer;
  }

  lemma CodeSessionsRedeemed(s: System, r: ReqId, ch: Choice, o: Out)
    requires CodesInv(s.st, s.h, s.now) && StepOk(s, r, ch, o) && !(o.write.UseGrant? && Took(s, o))
    ensures var h' := Record(s, r, ch, o); s.h.codeSession.Keys <= h'.codeSession.Keys <= s.h.redeemer.Keys
  {
    hide PcOk, SideOk, Recorded, SessionsGrow, RestGrows, DevicesGrow, Record, Answer;
    RecordShape(s, r, ch, o);
  }

  lemma DeviceSessionsRedeemed(s: System, r: ReqId, ch: Choice, o: Out)
    requires DevicesInv(s.st, s.h) && StepOk(s, r, ch, o)
    ensures var h' := Record(s, r, ch, o); h'.devSession.Keys <= s.h.devRedeemer.Keys
  {
    hide PcOk, SideOk, Recorded, SessionsGrow, RestGrows, DevicesGrow, CodesGrow, Record, Answer;
    RecordShape(s, r, ch, o);
  }

  lemma DecisionShape(s: System, r: ReqId, ch: Choice, o: Out)
    requires Took(s, o)
    ensures SameDecisions(RecordWrite(s.h, s.now, r, o.write), Record(s, r, ch, o))
  {
    hide Answer, RecordWrite;
  }

  lemma KeepsDevices(s: System, r: ReqId, ch: Choice, o: Out)
    requires FreshInv(s.h) && DevicesInv(s.st, s.h) && FreshChoice(s.h, ch) && StepOk(s, r, ch, o)
    ensures DevicesInv(Perform(s.st, s.now, o.write), Record(s, r, ch, o))
  {
    hide Vouched, PcOk, CookieOk, AllRegistered, Record, Answer, Perform, SessionsGrow, RestGrows, CodesGrow;
    hide DevicesGrow, DeviceHistoryInv, DeviceRowsInv, Permitted, RecordWrite;
    var st', h', w := Perform(s.st, s.now, o.write), Record(s, r, ch, o), o.write;
    RecordShape(s, r, ch, o);
    if (w.InsertDevice? || Decides(w)) && Took(s, o) {
      DecisionShape(s, r, ch, o);
      if w.InsertDevice? {
        CreationKeepsDevices(s, r, ch, w, h');
      } else {
        DecisionKeepsRows(s, r, w, h');
        DecisionKeepsHistory(s, r, ch, w, h');
      }
    } else {
      if w.InsertDevice? || Decides(w) { NotTaken(s.st, s.now, w); } else { OthersKeepDevices(s.st, s.now, w, s.h); }
      DeviceSessionsRedeemed(s, r, ch, o);
      DevicesStable(st', s.h, h');
    }
  }

  // A mint uses up the code or device grant its own request holds.
  lemma HeldByOthersStays(s: System, r: ReqId, ch: Choice, o: Out, other: ReqId)
    requires PcsInv(s.h, s.now, s.ttl, s.reqs) && other in s.reqs && other != r
    requires Permitted(s, r, ch, o.write)
    ensures StillHeld(Record(s, r, ch, o), s.reqs[other])
  {
    hide Answer, Record, FromGrant, FromApproval;
    RecordShape(s, r, ch, o);
    assert PcOk(s.h, s.now, s.ttl, other, s.reqs[other]);
  }

  lemma KeepsPcs(s: System, r: ReqId, ch: Choice, o: Out)
    requires PcsInv(s.h, s.now, s.ttl, s.reqs) && StepOk(s, r, ch, o)
    ensures PcsInv(Record(s, r, ch, o), s.now, s.ttl, s.reqs[r := o.next])
  {
    hide Permitted, Grows, Recorded, PcOk, SideOk, Record;
    var h' := Record(s, r, ch, o);
    forall other | other in s.reqs && other != r
      ensures PcOk(h', s.now, s.ttl, other, s.reqs[other])
    {
      HeldByOthersStays(s, r, ch, o, other);
      PcStable(s.h, h', s.now, s.now, s.ttl, other, s.reqs[other]);
    }
  }

  // ---- every action keeps the invariant ----

  lemma StepKeepsInv(s: System, r: ReqId, ch: Choice)
    requires Inv(s) && Enabled(s, r, ch)
    ensures Inv(After(s, r, ch, Exec(s.st, s.now, s.ttl, s.reqs[r], ch)))
  {
    hide Exec, Perform, Record, Answer, FreshInv, BirthsInv, AcceptedInv, ChallengesInv, SessionsInv;
    hide LineageInv, RotationsInv, CodesInv, DevicesInv, PcsInv, CookieOk, PcOk, FreshChoice, Permitted;
    hide Recorded, SessionsGrow, RestGrows, CodesGrow, DevicesGrow, Vouched, AllRegistered;
    var o := Exec(s.st, s.now, s.ttl, s.reqs[r], ch);
    var h' := Record(s, r, ch, o);
    EveryStepIsOk(s, r, ch);
    KeepsFresh(s, r, ch, o);
    KeepsBirths(s, r, ch, o);
    KeepsAccepted(s, r, ch, o);
    KeepsChallenges(s, r, ch, o);
    KeepsSessions(s, r, ch, o);
    KeepsLineage(s, r, ch, o);
    KeepsCodes(s, r, ch, o);
    KeepsDevices(s, r, ch, o);
    KeepsJar(s.h, h', s.now, s.now, s.jar);
    KeepsPcs(s, r, ch, o);
    ArrivalsStay(s, r, ch, o);
  }

  lemma ArrivalsStay(s: System, r: ReqId, ch: Choice, o: Out)
    ensures Record(s, r, ch, o).arrived == s.h.arrived
  {
    hide Record, Wrote;
    RecordShape(s, r, ch, o);
  }

  lemma AdminKeepsInv(s: System, w: Write)
    requires Inv(s) && Administrative(w)
    ensures Inv(s.(st := Perform(s.st, s.now, w)))
  {
    hide Perform, Answer, FreshInv, BirthsInv, AcceptedInv, ChallengesInv, LineageInv, RotationsInv, CodesInv;
    hide DevicesInv, PcsInv, JarInv, SessionOk;
    NoRowWritten(s.st, s.now, w);
    PerformKeepsLineage(s.st, s.now, s.h, w);
    OthersKeepCodes(s.st, s.now, w);
    FewerCodes(s.st, Perform(s.st, s.now, w), s.h, s.now);
    OthersKeepDevices(s.st, s.now, w, s.h);
  }

  lemma GrowsReflexive(h: History)
    ensures Grows(h, h)
  {
  }

  lemma TickKeepsInv(s: System, to: Time)
    requires Inv(s) && s.now <= to
    ensures Inv(s.(now := to))
  {
    hide PcOk, CookieOk, SessionsInv, LineageInv, RotationsInv, DevicesInv, BirthsInv, FreshInv, AcceptedInv;
    hide SessionsGrow, RestGrows, CodesGrow, DevicesGrow, CodesInv;
    GrowsReflexive(s.h);
    SessionsStable(s.st, s.h, s.h, s.now, to);
    LaterCodes(s.st, s.h, s.now, to);
    KeepsJar(s.h, s.h, s.now, to, s.jar);
    forall r | r in s.reqs
      ensures PcOk(s.h, to, s.ttl, r, s.reqs[r])
    {
      assert PcOk(s.h, s.now, s.ttl, r, s.reqs[r]);
      HeldNow(s, r);
      PcStable(s.h, s.h, s.now, to, s.ttl, r, s.reqs[r]);
    }
  }

  lemma HeldNow(s: System, r: ReqId)
    requires r in s.reqs && PcOk(s.h, s.now, s.ttl, r, s.reqs[r])
    ensures StillHeld(s.h, s.reqs[r])
  {
  }

  lemma LaterCodes(st: Store, h: History, now: Time, now': Time)
    requires CodesInv(st, h, now) && now <= now'
    ensures CodesInv(st, h, now')
  {
  }

  lemma ArriveGrows(s: System, r: ReqId, pc: Pc)
    requires Inv(s) && r !in s.reqs
    ensures Grows(s.h, Arrived(s, r, pc).h)
  {
  }

  lemma {:induction false} ChallengesStable(h: History, h': History, now: Time)
    requires ChallengesInv(h, now) && RestGrows(h, h') && h'.challenges == h.challenges
    ensures ChallengesInv(h', now)
  {
    hide RestGrows, Stampable;
    forall k | k in h'.challenges
      ensures Stampable(h', now, h'.challenges[k].req, k.0, h'.challenges[k].passed, k.1)
    {
      FactsStable(h, h', now, now, h.challenges[k].req);
    }
  }

  lemma ArrivalKeepsRest(s: System, r: ReqId, pc: Pc)
    requires Inv(s) && r !in s.reqs
    ensures var s' := Arrived(s, r, pc);
      && FreshInv(s'.h) && AcceptedInv(s'.h) && LineageInv(s'.st, s'.h) && RotationsInv(s'.st, s'.h)
      && s'.h.arrived.Keys <= s'.reqs.Keys
  {
    hide SessionsInv, CodesInv, DevicesInv, PcsInv, JarInv, BirthsInv, ChallengesInv, AllRegistered, RetiredOf;
  }

  lemma ArrivalKeepsBirths(s: System, r: ReqId, pc: Pc)
    requires BirthsInv(s.h) && Grows(s.h, Arrived(s, r, pc).h)
    ensures BirthsInv(Arrived(s, r, pc).h)
  {
    hide BirthOk, Grows;
    var h' := Arrived(s, r, pc).h;
    forall sid | sid in h'.born
      ensures BirthOk(h', sid, h'.born[sid])
    {
      BirthStable(s.h, h', sid, s.h.born[sid]);
    }
  }

  lemma ArrivalKeepsPcs(s: System, r: ReqId, pc: Pc)
    requires PcsInv(s.h, s.now, s.ttl, s.reqs) && JarInv(s.h, s.now, s.jar) && r !in s.reqs && Initial(s.jar, s.now, pc)
    requires Grows(s.h, Arrived(s, r, pc).h)
    ensures var s' := Arrived(s, r, pc); PcsInv(s'.h, s.now, s.ttl, s'.reqs)
  {
    hide PcOk, JarInv, Initial, SessionsGrow, CodesGrow, DevicesGrow, RestGrows;
    var h' := Arrived(s, r, pc).h;
    forall other | other in s.reqs
      ensures PcOk(h', s.now, s.ttl, other, s.reqs[other])
    {
      HeldNow(s, other);
      PcStable(s.h, h', s.now, s.now, s.ttl, other, s.reqs[other]);
    }
    KeepsJar(s.h, h', s.now, s.now, s.jar);
    InitialPcOk(h', s.now, s.ttl, r, s.jar, pc);
  }

  lemma ArriveKeepsInv(s: System, r: ReqId, pc: Pc)
    requires Inv(s) && r !in s.reqs && Initial(s.jar, s.now, pc)
    ensures Inv(Arrived(s, r, pc))
  {
    hide SessionsInv, LineageInv, RotationsInv, DevicesInv, BirthsInv, FreshInv, AcceptedInv, CodesInv, PcsInv, JarInv;
    hide ChallengesInv, CookieOk, SessionsGrow, CodesGrow, DevicesGrow, RestGrows, Initial;
    var s' := Arrived(s, r, pc);
    ArriveGrows(s, r, pc);
    ArrivalKeepsRest(s, r, pc);
    ArrivalKeepsBirths(s, r, pc);
    SessionsStable(s.st, s.h, s'.h, s.now, s.now);
    SameKeys(s);
    CodesStable(s.st, s.h, s'.h, s.now, s.now);
    DevicesStable(s.st, s.h, s'.h);
    ChallengesStable(s.h, s'.h, s.now);
    KeepsJar(s.h, s'.h, s.now, s.now, s.jar);
    ArrivalKeepsPcs(s, r, pc);
  }

  lemma SameKeys(s: System)
    requires CodesInv(s.st, s.h, s.now) && DevicesInv(s.st, s.h)
    ensures s.h.codeSession.Keys <= s.h.redeemer.Keys && s.h.devSession.Keys <= s.h.devRedeemer.Keys
  {
  }

  lemma AbortKeepsInv(s: System, r: ReqId)
    requires Inv(s) && r in s.reqs
    ensures Inv(s.(reqs := s.reqs[r := Finished(Aborted)]))
  {
    hide SessionsInv, LineageInv, RotationsInv, DevicesInv, BirthsInv, FreshInv, AcceptedInv, CodesInv, JarInv;
    hide ChallengesInv, Began;
    assert PcOk(s.h, s.now, s.ttl, r, s.reqs[r]);
  }

  lemma InitialToken(h: History, now: Time, ttl: Time, r: ReqId, pc: Pc)
    requires pc.RefreshLookup? || pc.CodeLookup? || pc.DeviceLookup? || pc.DeviceRequest? || pc.CredsRequest?
    ensures FamilyOk(h, now, ttl, r, pc)
  {
    hide AuthorizePcOk, LoginPcOk, PortalPcOk, UrlOk, Ticketed, Holds, HoldsDevice, GrantOf, DeviceOf, ApprovalOf;
    hide LooksUp, RowOf;
  }

  lemma InitialAuthorize(h: History, now: Time, r: ReqId, jar: set<Cookie>, pc: Pc)
    requires pc.AuthRequest? || pc.AuthMfa?
    requires JarInv(h, now, jar) && Initial(jar, now, pc) && r in h.arrived && h.arrived[r] == Arrival(now, pc)
    ensures AuthorizePcOk(h, now, r, pc)
  {
    hide ReqOk, Justified, FactorOk, Ticketed;
    if pc.AuthMfa? { assert CookieOk(h, now, AuthCookie(pc.req, pc.exp)); }
  }

  lemma InitialLogin(h: History, now: Time, r: ReqId, jar: set<Cookie>, pc: Pc)
    requires pc.Login? || pc.LoginMfa? || pc.ChangePassword? || pc.Register?
    requires JarInv(h, now, jar) && Initial(jar, now, pc) && r in h.arrived && h.arrived[r] == Arrival(now, pc)
    ensures LoginPcOk(h, now, r, pc)
  {
    hide Known, FactorOk;
    if pc.LoginMfa? || pc.ChangePassword? { assert CookieOk(h, now, LoginCookie(pc.who, pc.exp)); }
  }

  lemma InitialPortal(h: History, now: Time, r: ReqId, jar: set<Cookie>, pc: Pc)
    requires pc.SilentRequest? || pc.PortalRead?
    requires JarInv(h, now, jar) && Initial(jar, now, pc) && r in h.arrived && h.arrived[r] == Arrival(now, pc)
    ensures PortalPcOk(h, now, r, pc)
  {
    hide IsPortalSession, Ticketed;
    assert CookieOk(h, now, PortalCookie(pc.token));
  }

  lemma InitialPcOk(h: History, now: Time, ttl: Time, r: ReqId, jar: set<Cookie>, pc: Pc)
    requires JarInv(h, now, jar) && Initial(jar, now, pc) && r in h.arrived && h.arrived[r] == Arrival(now, pc)
    ensures PcOk(h, now, ttl, r, pc)
  {
    hide JarInv, AuthorizePcOk, LoginPcOk, PortalPcOk, ClientPcOk, RefreshPcOk, CodePcOk, DevicePcOk, UrlOk;
    if pc.AuthRequest? || pc.AuthMfa? { InitialAuthorize(h, now, r, jar, pc); }
    else if pc.Login? || pc.LoginMfa? || pc.ChangePassword? || pc.Register? { InitialLogin(h, now, r, jar, pc); }
    else if pc.SilentRequest? || pc.PortalRead? { InitialPortal(h, now, r, jar, pc); }
    else { InitialToken(h, now, ttl, r, pc); }
  }

  lemma ActionKeepsInv(s: System, a: Action)
    requires Inv(s)
    ensures Inv(Apply(s, a))
  {
    hide Inv, After, Perform, Initial, Administrative, Arrived;
    match a
    case Tick(to) => if s.now <= to { TickKeepsInv(s, to); }
    case Arrive(r, pc) => if r !in s.reqs && Initial(s.jar, s.now, pc) { ArriveKeepsInv(s, r, pc); }
    case Step(r, ch) => if r in s.reqs && !s.reqs[r].Finished? && FreshChoice(s.h, ch) { StepKeepsInv(s, r, ch); }
    case Abort(r) => if r in s.reqs && !s.reqs[r].Finished? { AbortKeepsInv(s, r); }
    case Admin(w) => if Administrative(w) { AdminKeepsInv(s, w); }
  }

  lemma {:induction false} RunKeepsInv(s: System, acts: seq<Action>)
    requires Inv(s)
    ensures Inv(Run(s, acts))
    decreases |acts|
  {
    hide Inv, Apply;
    if acts != [] {
      ActionKeepsInv(s, acts[0]);
      RunKeepsInv(Apply(s, acts[0]), acts[1..]);
    }
  }

  // A state some run leads to.
  ghost predicate Reachable(s: System) {
    exists s0, acts :: Start(s0) && s == Run(s0, acts)
  }

  lemma ReachableInv(s: System)
    requires Reachable(s)
    ensures Inv(s)
  {
    hide Inv, Run;
    var s0, acts :| Start(s0) && s == Run(s0, acts);
    StartInv(s0);
    RunKeepsInv(s0, acts);
  }
}
