/** What a single handler step may do, and that every handler does only that. */
module Keep {
  import opened Text
  import opened Model
  import opened Stores
  import opened Protocol
  import opened Invariant

  // ---- what a statement issued by a handler looks like ----

  ghost predicate SourcePermitted(h: History, r: ReqId, row: Session, source: Source) {
    match source
    case ByPortal => FromPortal(row)
    case ByClient(ticket) => row.user == None && row.mfaAt == None && Accepted(h, ticket, row.client, row.scopes)
    case ByCode(gid) => Holds(h, r, gid) && gid in h.grants && FromGrant(row, h.grants[gid])
    case ByDevice(did) =>
      HoldsDevice(h, r, did) && did in h.devices && did in h.approvals
      && FromApproval(row, h.devices[did], h.approvals[did])
  }

  ghost predicate Permitted(s: System, r: ReqId, ch: Choice, w: Write) {
    match w
    case Nothing => true
    case InsertSession(sid, row, source) =>
      && sid == ch.id && row.access == ch.t1 && row.refresh == ch.t2
      && row.mfaVerified == row.mfaAt.Some?
      && row.accessExp <= s.now + ACCESS_TTL && row.refreshExp <= s.now + REFRESH_TTL
      && SourcePermitted(s.h, r, row, source)
    case Rotate(sid, spent, access, refresh, accessExp, refreshExp) =>
      && access == ch.t1 && refresh == ch.t2 && sid in s.h.born
      && accessExp <= s.h.born[sid].row.createdAt + ABSOLUTE_TTL
      && refreshExp <= s.h.born[sid].row.createdAt + ABSOLUTE_TTL
      && accessExp <= s.now + ACCESS_TTL && refreshExp <= s.now + REFRESH_TTL
    case Extend(sid, accessExp) =>
      sid in s.h.born && accessExp <= s.h.born[sid].row.createdAt + ABSOLUTE_TTL && accessExp <= s.now + PORTAL_TTL
    case MarkMfa(sid, when) => IsPortalSession(s.h, sid)
    case DropSession(_) => true
    case InsertGrant(gid, g, ticket) =>
      gid == ch.id && g.code == ch.t1 && !g.used && Accepted(s.h, ticket, g.client, g.scopes) && g.authTime <= s.now
    case UseGrant(gid) => gid in s.h.grants
    case InsertDevice(did, d, ticket) => did == ch.id && d.code == ch.t1 && Accepted(s.h, ticket, d.client, d.scopes)
    case ApproveDevice(_, uid, mfaVerified, mfaAt) =>
      mfaVerified == mfaAt.Some? && Justified(s.h, Some(uid), mfaAt) && Known(s.h, uid)
    case DenyDevice(_) => true
    case RedeemDevice(did) => did in s.h.approvals
    case PollDevice(_, _, _) => true
    case InsertUser(uid, _) => uid == ch.id
    case PromoteUser(_) => true
    case ResetPassword(_) => true
    case DropUser(_) => true
    case _ => false
  }

  // The MFA times a statement writes are stamps on record.
  ghost predicate Vouched(h: History, w: Write) {
    if w.InsertSession? then Justified(h, w.row.user, w.row.mfaAt) && KnownUser(h, w.row.user)
    else if w.MarkMfa? then w.sid in h.born && Justified(h, h.born[w.sid].row.user, Some(w.when))
    else if w.InsertGrant? then Justified(h, Some(w.grant.user), w.grant.mfaAt) && Known(h, w.grant.user)
    else true
  }

  ghost predicate Enabled(s: System, r: ReqId, ch: Choice) {
    r in s.reqs && !s.reqs[r].Finished? && FreshChoice(s.h, ch)
  }

  // ---- which statements each handler issues ----

  // Nothing is handed out but the answer.
  predicate Plain(o: Out) {
    o == Do(o.write, o.next)
  }

  lemma RefreshWrites(st: Store, now: Time, pc: Pc, ch: Choice)
    ensures var o := ExecRefresh(st, now, pc, ch);
      && Plain(o) && (o.write.Nothing? || o.write.DropSession? || pc.RefreshRotate?)
      && (pc.RefreshRotate? ==> o.write == RotateWrite(pc.token, pc.sid, pc.row, pc.at, ch))
  {
    hide Answer, ExecRefreshLookup, ExecReuseLookup, RotateWrite;
  }

  lemma CodeWrites(st: Store, now: Time, pc: Pc, ch: Choice)
    ensures var o := ExecCode(st, now, pc, ch);
      && Plain(o) && (o.write.Nothing? || pc.CodeUse? || pc.CodeMint?)
      && (pc.CodeUse? ==> o.write == UseGrant(pc.gid))
      && (pc.CodeMint? ==> o.write == InsertSession(ch.id, CodeRow(pc.client, pc.grant, pc.at, ch), ByCode(pc.gid)))
  {
    hide Answer, ExecCodeLookup, CodeRow;
  }

  lemma DeviceWrites(st: Store, now: Time, pc: Pc, ch: Choice)
    ensures var o := ExecDevice(st, now, pc, ch);
      && Plain(o) && (o.write.Nothing? || o.write.PollDevice? || pc.DeviceRedeem? || pc.DeviceMint?)
      && (pc.DeviceRedeem? ==> o.write == RedeemDevice(pc.did))
      && (pc.DeviceMint? ==>
            o.write == InsertSession(ch.id, DeviceRow(pc.client, pc.device, pc.at, ch), ByDevice(pc.did)))
  {
    hide Answer, ExecDeviceLookup, DeviceRow;
  }

  lemma PermittedRefresh(s: System, r: ReqId, pc: Pc, ch: Choice)
    requires RefreshPcOk(s.h, s.now, pc)
    ensures Permitted(s, r, ch, ExecRefresh(s.st, s.now, pc, ch).write)
  {
    hide ExecRefresh;
    RefreshWrites(s.st, s.now, pc, ch);
  }

  lemma PermittedCode(s: System, r: ReqId, pc: Pc, ch: Choice)
    requires CodePcOk(s.h, s.now, r, pc)
    ensures Permitted(s, r, ch, ExecCode(s.st, s.now, pc, ch).write)
  {
    hide ExecCode;
    CodeWrites(s.st, s.now, pc, ch);
  }

  lemma PermittedDeviceMint(s: System, r: ReqId, client: ClientId, did: DeviceId, d: DeviceGrant, at: Time, ch: Choice)
    requires DevicePcOk(s.h, s.now, r, DeviceMint(client, did, d, at)) && DevicesInv(s.st, s.h)
    ensures Permitted(s, r, ch, InsertSession(ch.id, DeviceRow(client, d, at, ch), ByDevice(did)))
  {
  }

  lemma PermittedDevice(s: System, r: ReqId, pc: Pc, ch: Choice)
    requires DevicePcOk(s.h, s.now, r, pc) && DevicesInv(s.st, s.h)
    ensures Permitted(s, r, ch, ExecDevice(s.st, s.now, pc, ch).write)
  {
    hide ExecDevice, DevicesInv, DeviceRow, SourcePermitted;
    DeviceWrites(s.st, s.now, pc, ch);
    if pc.DeviceMint? { PermittedDeviceMint(s, r, pc.client, pc.did, pc.device, pc.at, ch); }
  }

  lemma PermittedClient(s: System, r: ReqId, pc: Pc, ch: Choice)
    requires ClientPcOk(s.h, s.now, r, pc)
    ensures Permitted(s, r, ch, ExecClient(s.st, s.now, pc, ch).write)
  {
    hide Answer, SplitScopes;
  }

  // Only seating and issuing write.
  lemma AuthorizeWrites(st: Store, now: Time, pc: Pc, ch: Choice)
    requires !pc.Seat? && !pc.IssueCode?
    ensures ExecAuthorize(st, now, pc, ch).write.Nothing?
  {
    hide Answer, SplitScopes, UnregisteredScope, ExecSeat, ExecIssueCode;
  }

  lemma PermittedSeat(s: System, r: ReqId, pc: Pc, ch: Choice)
    requires pc.Seat? && AuthorizePcOk(s.h, s.now, r, pc)
    ensures Permitted(s, r, ch, ExecSeat(s.st, s.now, pc.req, pc.user, pc.passedAt, pc.at, ch).write)
  {
    hide Answer, FactorOk, OwnTicket, Indirect, Justified;
  }

  lemma PermittedIssue(s: System, r: ReqId, pc: Pc, ch: Choice)
    requires pc.IssueCode? && AuthorizePcOk(s.h, s.now, r, pc)
    ensures Permitted(s, r, ch, ExecIssueCode(s.st, pc.req, pc.mfaAt, pc.passedAt, pc.at, ch).write)
  {
    hide Answer, Stampable, Justified;
  }

  lemma PermittedAuthorize(s: System, r: ReqId, pc: Pc, ch: Choice)
    requires AuthorizePcOk(s.h, s.now, r, pc)
    ensures Permitted(s, r, ch, ExecAuthorize(s.st, s.now, pc, ch).write)
  {
    hide Permitted, AuthorizePcOk, ExecSeat, ExecIssueCode;
    if pc.Seat? { PermittedSeat(s, r, pc, ch); }
    else if pc.IssueCode? { PermittedIssue(s, r, pc, ch); }
    else {
      AuthorizeWrites(s.st, s.now, pc, ch);
      NothingIsPermitted(s, r, ch);
    }
  }

  lemma NothingIsPermitted(s: System, r: ReqId, ch: Choice)
    ensures Permitted(s, r, ch, Nothing)
  {
  }

  lemma PermittedCreate(s: System, r: ReqId, pc: Pc, ch: Choice)
    requires pc.PortalCreate? && LoginPcOk(s.h, s.now, r, pc)
    ensures Permitted(s, r, ch, ExecPortalCreate(s.st, pc.who, pc.user, pc.passedAt, pc.at, ch).write)
  {
    hide Answer, FactorOk, Known;
  }

  lemma PermittedLogin(s: System, r: ReqId, pc: Pc, ch: Choice)
    requires LoginPcOk(s.h, s.now, r, pc)
    ensures Permitted(s, r, ch, ExecPortalLogin(s.st, s.now, pc, ch).write)
  {
    hide ExecPortalLogin, LoginPcOk, ExecPortalCreate, ExecLogin, Permitted;
    if pc.PortalCreate? {
      CreateRuns(s.st, s.now, pc, ch);
      PermittedCreate(s, r, pc, ch);
    } else {
      if pc.Login? { PasswordWrites(s.st, s.now, pc, ch); } else { LoginWrites(s.st, s.now, pc, ch); }
      UserWritesArePermitted(s, r, ch, ExecPortalLogin(s.st, s.now, pc, ch).write);
    }
  }

  lemma CreateRuns(st: Store, now: Time, pc: Pc, ch: Choice)
    requires pc.PortalCreate?
    ensures ExecPortalLogin(st, now, pc, ch) == ExecPortalCreate(st, pc.who, pc.user, pc.passedAt, pc.at, ch)
  {
    hide ExecPortalCreate;
  }

  lemma PasswordWrites(st: Store, now: Time, pc: Pc, ch: Choice)
    requires pc.Login?
    ensures ExecPortalLogin(st, now, pc, ch).write.Nothing?
  {
    hide ExecPortalLogin;
    PasswordRuns(st, now, pc, ch);
  }

  lemma UserWritesArePermitted(s: System, r: ReqId, ch: Choice, w: Write)
    requires w.Nothing? || w.InsertUser? || w.PromoteUser? || w.ResetPassword? || w.DropUser?
    requires w.InsertUser? ==> w.uid == ch.id
    ensures Permitted(s, r, ch, w)
  {
  }

  lemma PermittedAct(s: System, r: ReqId, pc: Pc, ch: Choice)
    requires pc.PortalAct? && PortalPcOk(s.h, s.now, r, pc)
    ensures Permitted(s, r, ch, ExecPortal(s.st, s.now, s.ttl, pc, ch).write)
  {
    hide Answer, AcceptScopes, ExecPortalRead, ExecPortalUser, ExecPortalSlide, ExecStepUpRecord, ExecStepUpMark;
    hide ExecStepUpGo, StepUpFresh, SilentMfaAt;
  }

  lemma PermittedTouch(s: System, r: ReqId, pc: Pc, ch: Choice)
    requires (pc.PortalSlide? || pc.StepUpMark?) && PortalPcOk(s.h, s.now, r, pc)
    ensures Permitted(s, r, ch, ExecPortal(s.st, s.now, s.ttl, pc, ch).write)
  {
    hide AcceptScopes, ExecPortalRead, ExecPortalUser, ExecPortalAct, ExecStepUpRecord, ExecStepUpGo, PurposeOk;
    hide MfaOk, KnownUser, Stampable;
  }

  lemma PortalWrites(st: Store, now: Time, ttl: Time, pc: Pc, ch: Choice)
    requires !pc.PortalAct? && !pc.PortalSlide? && !pc.StepUpMark?
    ensures ExecPortal(st, now, ttl, pc, ch).write.Nothing?
  {
    hide ExecPortalSlide, ExecPortalAct, ExecStepUpMark, UnregisteredScope, SplitScopes;
  }

  lemma PermittedPortal(s: System, r: ReqId, pc: Pc, ch: Choice)
    requires PortalPcOk(s.h, s.now, r, pc)
    ensures Permitted(s, r, ch, ExecPortal(s.st, s.now, s.ttl, pc, ch).write)
  {
    hide ExecPortal, PortalPcOk, Permitted;
    if pc.PortalAct? { PermittedAct(s, r, pc, ch); }
    else if pc.PortalSlide? || pc.StepUpMark? { PermittedTouch(s, r, pc, ch); }
    else {
      PortalWrites(s.st, s.now, s.ttl, pc, ch);
      NothingIsPermitted(s, r, ch);
    }
  }

  // ---- history grows ----

  lemma InsertGrows(s: System, r: ReqId, ch: Choice, w: Write)
    requires FreshInv(s.h) && FreshChoice(s.h, ch) && Permitted(s, r, ch, w)
    requires w.InsertSession? || w.InsertGrant? || w.InsertDevice?
    ensures Grows(s.h, RecordWrite(s.h, s.now, r, w))
  {
  }

  lemma RotateGrows(s: System, r: ReqId, ch: Choice, w: Write)
    requires FreshInv(s.h) && SessionsInv(s.st, s.h, s.now) && LineageInv(s.st, s.h)
    requires FreshChoice(s.h, ch) && Permitted(s, r, ch, w) && w.Rotate? && Answer(s.st, w) == Done
    ensures Grows(s.h, RecordWrite(s.h, s.now, r, w))
  {
  }

  lemma UseGrows(s: System, r: ReqId, w: Write)
    requires CodesInv(s.st, s.h, s.now) && w.UseGrant? && Answer(s.st, w) == Done
    ensures Grows(s.h, RecordWrite(s.h, s.now, r, w))
  {
  }

  lemma DecideGrows(s: System, r: ReqId, w: Write)
    requires DevicesInv(s.st, s.h) && (w.ApproveDevice? || w.DenyDevice? || w.RedeemDevice?)
    requires Answer(s.st, w) == Done
    ensures Grows(s.h, RecordWrite(s.h, s.now, r, w))
  {
    assert DeviceOk(s.h, w.did, s.st.devices[w.did]);
  }

  lemma QuietGrows(s: System, r: ReqId, w: Write)
    requires !w.InsertSession? && !w.InsertGrant? && !w.InsertDevice? && !w.Rotate? && !w.UseGrant?
    requires !w.ApproveDevice? && !w.DenyDevice? && !w.RedeemDevice?
    ensures Grows(s.h, RecordWrite(s.h, s.now, r, w))
  {
  }

  lemma WriteGrows(s: System, r: ReqId, ch: Choice, w: Write)
    requires FreshInv(s.h) && SessionsInv(s.st, s.h, s.now) && LineageInv(s.st, s.h)
    requires CodesInv(s.st, s.h, s.now) && DevicesInv(s.st, s.h)
    requires FreshChoice(s.h, ch) && Permitted(s, r, ch, w) && Answer(s.st, w) == Done
    ensures Grows(s.h, RecordWrite(s.h, s.now, r, w))
  {
    hide Answer, Permitted, FreshInv, SessionsInv, LineageInv, CodesInv, DevicesInv;
    if w.InsertSession? || w.InsertGrant? || w.InsertDevice? { InsertGrows(s, r, ch, w); }
    else if w.Rotate? { RotateGrows(s, r, ch, w); }
    else if w.UseGrant? { UseGrows(s, r, w); }
    else if w.ApproveDevice? || w.DenyDevice? || w.RedeemDevice? { DecideGrows(s, r, w); }
    else { QuietGrows(s, r, w); }
  }

  lemma SameGrows(h: History)
    ensures Grows(h, h)
  {
  }

  lemma RestKeepsGrowth(h: History, h': History, now: Time, r: ReqId, ch: Choice, o: Out, password: Option<UserId>,
                        factor: Option<UserId>, row: Option<User>)
    requires Grows(h, h') && h.accepted.Keys <= h.ids && ch.id !in h.ids
    ensures Grows(h, RecordChecks(RecordRest(h', r, ch, o), now, r, password, factor, row))
  {
  }

  lemma RecordGrows(s: System, r: ReqId, ch: Choice, o: Out)
    requires FreshInv(s.h) && SessionsInv(s.st, s.h, s.now) && LineageInv(s.st, s.h)
    requires CodesInv(s.st, s.h, s.now) && DevicesInv(s.st, s.h)
    requires FreshChoice(s.h, ch) && Permitted(s, r, ch, o.write)
    ensures Grows(s.h, Record(s, r, ch, o))
  {
    hide Answer, Permitted, SessionsInv, LineageInv, CodesInv, DevicesInv, RecordWrite, RecordRest, RecordChecks;
    hide Grows, PasswordPassed, FactorPassed, RowRead;
    var pc, w := PcAt(s, r), o.write;
    var h1 := if Answer(s.st, w) == Done then RecordWrite(s.h, s.now, r, w) else s.h;
    if Answer(s.st, w) == Done { WriteGrows(s, r, ch, w); } else { SameGrows(s.h); }
    RestKeepsGrowth(s.h, h1, s.now, r, ch, o, PasswordPassed(s.st, pc, ch), FactorPassed(pc, ch),
                    RowRead(s.st, pc, ch));
  }

  // ---- where a step leads ----

  // The step stays within its handler or ends without a console URL.
  ghost predicate Stays(f: Family, pc: Pc) {
    FamilyOf(pc) == f || (pc.Finished? && !pc.out.ConsoleUrl?)
  }

  ghost predicate Checked(s: System, pc: Pc, ch: Choice, h': History) {
    && (PasswordPassed(s.st, pc, ch).Some? ==> PasswordPassed(s.st, pc, ch).value in h'.known)
    && (FactorPassed(pc, ch).Some? ==> (FactorPassed(pc, ch).value, s.now) in h'.verified)
  }

  ghost predicate WriteRecorded(h: History, now: Time, r: ReqId, w: Write, h': History) {
    && (w.UseGrant? ==> w.gid in h'.redeemer && h'.redeemer[w.gid] == r)
    && (w.RedeemDevice? ==> w.did in h'.devRedeemer && h'.devRedeemer[w.did] == r)
    && (w.InsertSession? ==>
          && w.row.access in h'.accessOf && h'.accessOf[w.row.access] == w.sid
          && w.sid in h'.born && h'.born[w.sid] == Birth(w.row.(createdAt := now), w.source))
    && (w.InsertUser? ==> w.uid in h'.enrolled)
    && (!w.InsertSession? ==> h'.codeSession == h.codeSession && h'.devSession == h.devSession)
  }

  // What Record has added for this very step.
  ghost predicate Recorded(s: System, r: ReqId, pc: Pc, ch: Choice, o: Out, h': History) {
    && (o.stamp.Some? ==> (o.stamp.value.uid, o.stamp.value.at) in h'.challenges)
    && (o.accept.Some? ==> Ticketed(h', r, ch.id, o.accept.value.client, o.accept.value.scopes))
    && Checked(s, pc, ch, h')
    && (Answer(s.st, o.write) == Done ==> WriteRecorded(s.h, s.now, r, o.write, h'))
  }

  lemma WriteIsRecorded(h: History, now: Time, r: ReqId, w: Write)
    ensures WriteRecorded(h, now, r, w, RecordWrite(h, now, r, w))
  {
  }

  lemma RecordRecords(s: System, r: ReqId, ch: Choice, o: Out)
    ensures Recorded(s, r, PcAt(s, r), ch, o, Record(s, r, ch, o))
  {
    hide PasswordPassed, FactorPassed, RowRead, Answer, RecordWrite;
    WriteIsRecorded(s.h, s.now, r, o.write);
  }

  lemma NextRefreshLookup(s: System, client: ClientId, token: Token, h': History)
    requires SessionsInv(s.st, s.h, s.now) && SessionsGrow(s.h, h')
    ensures var next := ExecRefreshLookup(s.st, s.now, client, token).next;
      Stays(RefreshFamily, next) && RefreshPcOk(h', s.now, next)
  {
    if FindByRefresh(s.st, token).Some? {
      var sid := FindByRefresh(s.st, token).value;
      assert SessionOk(s.h, s.now, sid, s.st.sessions[sid]);
    }
  }

  lemma NextReuseLookup(s: System, client: ClientId, token: Token, h': History)
    requires SessionsInv(s.st, s.h, s.now) && LineageInv(s.st, s.h) && SessionsGrow(s.h, h')
    ensures var next := ExecReuseLookup(s.st, client, token).next;
      Stays(RefreshFamily, next) && RefreshPcOk(h', s.now, next)
  {
    if FindByRetired(s.st, token).Some? {
      var sid := FindByRetired(s.st, token).value;
      assert SessionOk(s.h, s.now, sid, s.st.sessions[sid]);
    }
  }

  lemma LooksUpStable(h: History, h': History, client: ClientId, token: Token, sid: SessionId)
    requires LooksUp(h, client, token, sid) && SessionsGrow(h, h')
    ensures LooksUp(h', client, token, sid)
    ensures forall row :: RowOf(h, sid, row) ==> RowOf(h', sid, row)
  {
  }

  lemma RefreshGoesOn(st: Store, now: Time, pc: Pc, ch: Choice)
    requires pc.RefreshUser? || pc.RefreshRotate? || pc.ReuseDelete?
    ensures var next := ExecRefresh(st, now, pc, ch).next;
      || (next.Finished? && !next.out.ConsoleUrl?) || next == ReuseLookup(pc.client, pc.token)
      || (pc.RefreshUser? && next == RefreshRotate(pc.client, pc.token, pc.sid, pc.row, pc.at))
  {
    hide ExecRefreshLookup, ExecReuseLookup, Answer, RotateWrite;
  }

  lemma NextRefreshWay(s: System, pc: Pc, ch: Choice, h': History)
    requires pc.RefreshUser? || pc.RefreshRotate? || pc.ReuseDelete?
    requires RefreshPcOk(s.h, s.now, pc) && SessionsGrow(s.h, h')
    ensures var next := ExecRefresh(s.st, s.now, pc, ch).next;
      Stays(RefreshFamily, next) && RefreshPcOk(h', s.now, next)
  {
    hide ExecRefresh, SessionsGrow, LooksUp, RowOf;
    RefreshGoesOn(s.st, s.now, pc, ch);
    LooksUpStable(s.h, h', pc.client, pc.token, pc.sid);
  }

  lemma NextRefresh(s: System, r: ReqId, pc: Pc, ch: Choice, h': History)
    requires FamilyOf(pc) == RefreshFamily && RefreshPcOk(s.h, s.now, pc) && Grows(s.h, h')
    requires SessionsInv(s.st, s.h, s.now) && LineageInv(s.st, s.h)
    ensures var next := ExecRefresh(s.st, s.now, pc, ch).next;
      Stays(RefreshFamily, next) && RefreshPcOk(h', s.now, next)
  {
    hide ExecRefreshLookup, ExecReuseLookup, SessionsGrow, CodesGrow, DevicesGrow, RestGrows, SessionsInv;
    hide LineageInv, RefreshPcOk, Stays;
    if pc.RefreshLookup? {
      NextRefreshLookup(s, pc.client, pc.token, h');
    } else if pc.ReuseLookup? {
      NextReuseLookup(s, pc.client, pc.token, h');
    } else {
      hide ExecRefresh;
      NextRefreshWay(s, pc, ch, h');
    }
  }

  lemma NextCodeLookup(s: System, r: ReqId, client: ClientId, code: Token, redirectUri: nat, verifier: nat, h': History)
    requires CodesInv(s.st, s.h, s.now) && CodesGrow(s.h, h')
    ensures var next := ExecCodeLookup(s.st, s.now, client, code, redirectUri, verifier).next;
      Stays(CodeFamily, next) && CodePcOk(h', s.now, r, next)
  {
  }

  lemma NextCodeUse(s: System, r: ReqId, pc: Pc, ch: Choice, h': History)
    requires pc.CodeUse? && CodePcOk(s.h, s.now, r, pc) && CodesGrow(s.h, h') && CodesInv(s.st, s.h, s.now)
    requires Recorded(s, r, pc, ch, ExecCodeUse(s.st, pc.client, pc.gid, pc.grant), h')
    ensures var next := ExecCodeUse(s.st, pc.client, pc.gid, pc.grant).next;
      Stays(CodeFamily, next) && CodePcOk(h', s.now, r, next)
  {
    hide Checked, Ticketed, GrantOk;
  }

  lemma NextCodeEnds(s: System, r: ReqId, pc: Pc, ch: Choice, h': History)
    requires FamilyOf(pc) == CodeFamily && !pc.CodeLookup? && !pc.CodeUse? && CodePcOk(s.h, s.now, r, pc)
    requires CodesGrow(s.h, h') && Recorded(s, r, pc, ch, ExecCode(s.st, s.now, pc, ch), h')
    ensures var next := ExecCode(s.st, s.now, pc, ch).next;
      Stays(CodeFamily, next) && CodePcOk(h', s.now, r, next)
  {
    hide ExecCodeLookup, ExecCodeUse, Checked, Ticketed, CodeRow;
  }

  lemma NextCode(s: System, r: ReqId, pc: Pc, ch: Choice, h': History)
    requires FamilyOf(pc) == CodeFamily && CodePcOk(s.h, s.now, r, pc) && Grows(s.h, h')
    requires Recorded(s, r, pc, ch, ExecCode(s.st, s.now, pc, ch), h') && CodesInv(s.st, s.h, s.now)
    ensures var next := ExecCode(s.st, s.now, pc, ch).next;
      Stays(CodeFamily, next) && CodePcOk(h', s.now, r, next)
  {
    if pc.CodeLookup? {
      hide ExecCodeLookup, CodesInv, Recorded;
      NextCodeLookup(s, r, pc.client, pc.code, pc.redirectUri, pc.verifier, h');
    } else if pc.CodeUse? {
      hide ExecCodeUse, CodesInv, Recorded, CodePcOk;
      NextCodeUse(s, r, pc, ch, h');
    } else {
      hide ExecCode, CodePcOk, CodesGrow, SessionsGrow, DevicesGrow, RestGrows, CodesInv, Recorded;
      NextCodeEnds(s, r, pc, ch, h');
    }
  }

  lemma NextDeviceLookup(s: System, r: ReqId, client: ClientId, code: Token, h': History)
    requires DevicesInv(s.st, s.h) && DevicesGrow(s.h, h')
    ensures var next := ExecDeviceLookup(s.st, s.now, client, code).next;
      Stays(DeviceFamily, next) && DevicePcOk(h', s.now, r, next)
  {
    if FindDevice(s.st, code).Some? {
      var did := FindDevice(s.st, code).value;
      assert DeviceOk(s.h, did, s.st.devices[did]);
    }
  }

  lemma DeviceFactsStable(h: History, h': History, did: DeviceId, d: DeviceGrant)
    requires DeviceOf(h, did, d) && ApprovalOf(h, did, d) && DevicesGrow(h, h')
    ensures DeviceOf(h', did, d) && ApprovalOf(h', did, d)
  {
  }

  lemma RedeemHolds(s: System, r: ReqId, pc: Pc, did: DeviceId, next: Pc, ch: Choice, h': History)
    requires DevicesInv(s.st, s.h) && Recorded(s, r, pc, ch, Do(RedeemDevice(did), next), h')
    requires Answer(s.st, RedeemDevice(did)) == Done
    ensures HoldsDevice(h', r, did)
  {
    hide Checked;
    assert DeviceOk(s.h, did, s.st.devices[did]);
  }

  lemma NextDeviceRedeem(s: System, r: ReqId, pc: Pc, client: ClientId, did: DeviceId, d: DeviceGrant, ch: Choice,
                         h': History)
    requires DeviceOf(s.h, did, d) && ApprovalOf(s.h, did, d) && d.client == client && DevicesInv(s.st, s.h)
    requires DevicesGrow(s.h, h') && Recorded(s, r, pc, ch, ExecDeviceRedeem(s.st, client, did, d), h')
    ensures var next := ExecDeviceRedeem(s.st, client, did, d).next;
      Stays(DeviceFamily, next) && DevicePcOk(h', s.now, r, next)
  {
    hide DeviceOf, ApprovalOf, DevicesGrow, DevicesInv, Recorded, Answer, HoldsDevice;
    DeviceFactsStable(s.h, h', did, d);
    if Answer(s.st, RedeemDevice(did)) == Done {
      RedeemHolds(s, r, pc, did, ExecDeviceRedeem(s.st, client, did, d).next, ch, h');
    }
  }

  lemma NextDeviceUser(s: System, r: ReqId, pc: Pc, ch: Choice, h': History)
    requires pc.DeviceUser? && DevicePcOk(s.h, s.now, r, pc) && DevicesGrow(s.h, h')
    requires Recorded(s, r, pc, ch, ExecDeviceUser(s.st, s.now, pc.client, pc.did, pc.device), h')
    ensures var next := ExecDeviceUser(s.st, s.now, pc.client, pc.did, pc.device).next;
      Stays(DeviceFamily, next) && DevicePcOk(h', s.now, r, next)
  {
    hide Checked;
  }

  lemma NextDevice(s: System, r: ReqId, pc: Pc, ch: Choice, h': History)
    requires FamilyOf(pc) == DeviceFamily && DevicePcOk(s.h, s.now, r, pc) && Grows(s.h, h')
    requires Recorded(s, r, pc, ch, ExecDevice(s.st, s.now, pc, ch), h') && DevicesInv(s.st, s.h)
    ensures var next := ExecDevice(s.st, s.now, pc, ch).next;
      Stays(DeviceFamily, next) && DevicePcOk(h', s.now, r, next)
  {
    hide ExecDeviceLookup, ExecDeviceRedeem, ExecDeviceUser, SessionsGrow, CodesGrow, RestGrows, DevicesGrow;
    hide DevicesInv;
    hide Checked, DevicePcOk, Answer, DeviceRow;
    match pc
    case DeviceLookup(client, code) => hide Recorded; NextDeviceLookup(s, r, client, code, h');
    case DeviceRedeem(client, did, d) => hide Stays; NextDeviceDue(s, r, pc, ch, h');
    case DeviceUser(client, did, d) => hide Stays; NextDeviceUser(s, r, pc, ch, h');
    case _ => hide Recorded; DeviceEnds(s, r, pc, ch, h');
  }

  lemma DeviceEnds(s: System, r: ReqId, pc: Pc, ch: Choice, h': History)
    requires (pc.DevicePoll? || pc.DeviceMint?) && DevicePcOk(s.h, s.now, r, pc)
    ensures var next := ExecDevice(s.st, s.now, pc, ch).next;
      Stays(DeviceFamily, next) && DevicePcOk(h', s.now, r, next)
  {
    hide Answer, DeviceRow, DeviceOf, ApprovalOf, HoldsDevice;
  }

  lemma NextDeviceDue(s: System, r: ReqId, pc: Pc, ch: Choice, h': History)
    requires pc.DeviceRedeem? && DevicePcOk(s.h, s.now, r, pc) && DevicesGrow(s.h, h') && DevicesInv(s.st, s.h)
    requires Recorded(s, r, pc, ch, ExecDeviceRedeem(s.st, pc.client, pc.did, pc.device), h')
    ensures var next := ExecDeviceRedeem(s.st, pc.client, pc.did, pc.device).next;
      Stays(DeviceFamily, next) && DevicePcOk(h', s.now, r, next)
  {
    hide Recorded, DevicesInv, DevicesGrow, DeviceOf, ApprovalOf;
    NextDeviceRedeem(s, r, pc, pc.client, pc.did, pc.device, ch, h');
  }

  lemma NextClient(s: System, r: ReqId, pc: Pc, ch: Choice, h': History)
    requires FamilyOf(pc) == ClientFamily && Recorded(s, r, pc, ch, ExecClient(s.st, s.now, pc, ch), h')
    requires ClientPcOk(s.h, s.now, r, pc)
    ensures var next := ExecClient(s.st, s.now, pc, ch).next;
      Stays(ClientFamily, next) && ClientPcOk(h', s.now, r, next)
  {
    hide UnregisteredScope, SplitScopes, Checked, Answer, Ticketed;
  }

  // What a request may rely on about itself stays true as history grows.
  lemma {:induction false} FactsStable(h: History, h': History, now: Time, now': Time, r: ReqId)
    requires RestGrows(h, h') && now <= now'
    ensures Began(h, now, r) ==> Began(h', now', r)
    ensures Indirect(h, r) ==> Indirect(h', r)
    ensures forall req :: ReqOk(h, now, req) ==> ReqOk(h', now', req)
    ensures forall uid :: Known(h, uid) ==> Known(h', uid)
    ensures forall uid, passed :: Verified(h, now, r, uid, passed) ==> Verified(h', now', r, uid, passed)
    ensures forall uid, passed, at :: Stampable(h, now, r, uid, passed, at) ==> Stampable(h', now', r, uid, passed, at)
    ensures forall user, at :: Justified(h, user, at) ==> Justified(h', user, at)
    ensures forall ticket, client, scopes ::
      Ticketed(h, r, ticket, client, scopes) ==> Ticketed(h', r, ticket, client, scopes)
    ensures forall purpose :: PurposeOk(h, r, purpose) ==> PurposeOk(h', r, purpose)
  {
  }

  // A factor verified in this step.
  lemma JustVerified(s: System, r: ReqId, pc: Pc, ch: Choice, h': History)
    requires Checked(s, pc, ch, h') && FactorPassed(pc, ch).Some? && Began(h', s.now, r)
    ensures Verified(h', s.now, r, FactorPassed(pc, ch).value, s.now)
    ensures Stampable(h', s.now, r, FactorPassed(pc, ch).value, s.now, s.now)
  {
  }

  lemma NextAuthRequest(s: System, r: ReqId, pc: Pc, ch: Choice, h': History)
    requires pc.AuthRequest? && Recorded(s, r, pc, ch, ExecAuthorize(s.st, s.now, pc, ch), h')
    ensures var next := ExecAuthorize(s.st, s.now, pc, ch).next;
      Stays(AuthorizeFamily, next) && AuthorizePcOk(h', s.now, r, next)
  {
    hide Answer, SplitScopes, UnregisteredScope, Checked, ExecAuthLogin, ExecAuthMfa, ExecAuthFactor, ExecAuthRecord;
    hide ExecAuthClient, ExecSeat, ExecIssueCode;
  }

  lemma NextAuthLogin(s: System, r: ReqId, pc: Pc, ch: Choice, h': History)
    requires pc.AuthLogin? && AuthorizePcOk(s.h, s.now, r, pc) && RestGrows(s.h, h') && Checked(s, pc, ch, h')
    ensures var next := ExecAuthorize(s.st, s.now, pc, ch).next;
      Stays(AuthorizeFamily, next) && AuthorizePcOk(h', s.now, r, next)
  {
    hide ExecAuthMfa, ExecAuthFactor, ExecAuthRecord, ExecAuthClient, ExecSeat, ExecIssueCode, AcceptScopes, Answer;
    FactsStable(s.h, h', s.now, s.now, r);
    hide RestGrows;
  }

  lemma NextAuthUser(s: System, r: ReqId, pc: Pc, ch: Choice, h': History)
    requires (pc.AuthMfa? || pc.AuthClient?) && AuthorizePcOk(s.h, s.now, r, pc) && RestGrows(s.h, h')
      && Began(s.h, s.now, r)
    ensures var next := ExecAuthorize(s.st, s.now, pc, ch).next;
      Stays(AuthorizeFamily, next) && AuthorizePcOk(h', s.now, r, next)
  {
    hide ExecAuthLogin, ExecAuthFactor, ExecAuthRecord, ExecSeat, ExecIssueCode, AcceptScopes, Answer;
    FactsStable(s.h, h', s.now, s.now, r);
    hide RestGrows, ReqOk, Indirect;
  }

  lemma NextAuthFactor(s: System, r: ReqId, pc: Pc, ch: Choice, h': History)
    requires pc.AuthFactor? && AuthorizePcOk(s.h, s.now, r, pc) && RestGrows(s.h, h') && Began(s.h, s.now, r)
    requires Checked(s, pc, ch, h')
    ensures var next := ExecAuthorize(s.st, s.now, pc, ch).next;
      Stays(AuthorizeFamily, next) && AuthorizePcOk(h', s.now, r, next)
  {
    hide ExecAuthLogin, ExecAuthMfa, ExecAuthRecord, ExecAuthClient, ExecSeat, ExecIssueCode, AcceptScopes, Stampable;
    FactsStable(s.h, h', s.now, s.now, r);
    if ch.ok { JustVerified(s, r, pc, ch, h'); }
    hide RestGrows, ReqOk, Indirect, Verified, Began, Checked;
  }

  lemma NextAuthRecord(s: System, r: ReqId, pc: Pc, ch: Choice, h': History)
    requires pc.AuthRecord? && AuthorizePcOk(s.h, s.now, r, pc) && RestGrows(s.h, h')
    ensures var next := ExecAuthorize(s.st, s.now, pc, ch).next;
      Stays(AuthorizeFamily, next) && AuthorizePcOk(h', s.now, r, next)
  {
    hide ExecAuthLogin, ExecAuthMfa, ExecAuthFactor, ExecAuthClient, ExecSeat, ExecIssueCode, AcceptScopes, Stampable;
    FactsStable(s.h, h', s.now, s.now, r);
    hide RestGrows, ReqOk, Indirect, Verified;
  }

  lemma NextSeat(s: System, r: ReqId, pc: Pc, ch: Choice, h': History)
    requires pc.Seat? && AuthorizePcOk(s.h, s.now, r, pc) && RestGrows(s.h, h') && Began(s.h, s.now, r)
    ensures var next := ExecAuthorize(s.st, s.now, pc, ch).next;
      Stays(AuthorizeFamily, next) && AuthorizePcOk(h', s.now, r, next)
  {
    hide ExecAuthLogin, ExecAuthMfa, ExecAuthFactor, ExecAuthRecord, ExecAuthClient, ExecIssueCode, AcceptScopes;
    FactsStable(s.h, h', s.now, s.now, r);
    if pc.passedAt.Some? { SeatStamps(h', s.now, r, pc.req.user, pc.passedAt.value, pc.at); }
    hide RestGrows, ReqOk, Indirect, Stampable, Answer, PortalRow, StampIf, Ticketed, Began;
  }

  lemma NextIssue(s: System, r: ReqId, pc: Pc, ch: Choice, h': History)
    requires pc.IssueCode? && AuthorizePcOk(s.h, s.now, r, pc) && RestGrows(s.h, h') && Began(s.h, s.now, r)
    ensures var next := ExecAuthorize(s.st, s.now, pc, ch).next;
      Stays(AuthorizeFamily, next) && AuthorizePcOk(h', s.now, r, next)
  {
    hide ExecAuthLogin, ExecAuthMfa, ExecAuthFactor, ExecAuthRecord, ExecAuthClient, ExecSeat, AcceptScopes;
    FactsStable(s.h, h', s.now, s.now, r);
    hide RestGrows, Answer, CodeGrant;
  }

  lemma SeatStamps(h: History, now: Time, r: ReqId, uid: UserId, passed: Time, at: Time)
    requires Stampable(h, now, r, uid, passed, at) && Indirect(h, r)
    ensures Stampable(h, now, r, uid, passed, now)
  {
  }

  lemma NextAuthorize(s: System, r: ReqId, pc: Pc, ch: Choice, h': History)
    requires FamilyOf(pc) == AuthorizeFamily && AuthorizePcOk(s.h, s.now, r, pc) && Grows(s.h, h')
      && Began(s.h, s.now, r)
    requires Recorded(s, r, pc, ch, ExecAuthorize(s.st, s.now, pc, ch), h')
    ensures var next := ExecAuthorize(s.st, s.now, pc, ch).next;
      Stays(AuthorizeFamily, next) && AuthorizePcOk(h', s.now, r, next)
  {
    hide Answer, ExecAuthorize, AuthorizePcOk, Stays, SessionsGrow, CodesGrow, DevicesGrow, RestGrows, Began, Checked;
    if pc.AuthRequest? { NextAuthRequest(s, r, pc, ch, h'); }
    else if pc.AuthLogin? { NextAuthLogin(s, r, pc, ch, h'); }
    else if pc.AuthMfa? || pc.AuthClient? { NextAuthUser(s, r, pc, ch, h'); }
    else if pc.AuthFactor? { NextAuthFactor(s, r, pc, ch, h'); }
    else if pc.AuthRecord? { NextAuthRecord(s, r, pc, ch, h'); }
    else if pc.Seat? { NextSeat(s, r, pc, ch, h'); }
    else { NextIssue(s, r, pc, ch, h'); }
  }

  lemma NextRegister(s: System, r: ReqId, pc: Pc, ch: Choice, h': History)
    requires pc.Register? && LoginPcOk(s.h, s.now, r, pc) && RestGrows(s.h, h') && Began(s.h, s.now, r)
      && Recorded(s, r, pc, ch, ExecPortalLogin(s.st, s.now, pc, ch), h')
    ensures var next := ExecPortalLogin(s.st, s.now, pc, ch).next;
      Stays(LoginFamily, next) && LoginPcOk(h', s.now, r, next)
  {
    hide RestGrows, Checked, Began, ExecLogin, ExecLoginMfa, ExecLoginFactor, ExecLoginRecord, ExecChangePassword;
    hide ExecChangeReload, ExecPortalCreate, ExecRegisterCount, ExecRegisterPromote;
  }

  lemma RegisterGoesOn(h: History, st: Store, now: Time, pc: Pc, ch: Choice)
    requires (pc.RegisterCount? || pc.RegisterPromote?) && !pc.user.mfaEnabled
    ensures LoginGoesOn(h, now, pc.uid, ExecPortalLogin(st, now, pc, ch).next)
  {
    hide ExecLogin, ExecLoginMfa, ExecLoginFactor, ExecLoginRecord, ExecPortalCreate, ExecChangePassword;
    hide ExecChangeReload;
    hide ExecRegister;
  }

  lemma NextRegistered(s: System, r: ReqId, pc: Pc, ch: Choice, h': History)
    requires (pc.RegisterCount? || pc.RegisterPromote?) && LoginPcOk(s.h, s.now, r, pc) && RestGrows(s.h, h')
    ensures var next := ExecPortalLogin(s.st, s.now, pc, ch).next;
      Stays(LoginFamily, next) && LoginPcOk(h', s.now, r, next)
  {
    hide ExecPortalLogin, LoginPcOk, Stays, LoginGoesOn, RestGrows, Known;
    LoginKnows(s.h, s.now, r, pc);
    KnownStable(s.h, h', pc.uid);
    RegisterGoesOn(h', s.st, s.now, pc, ch);
    GoesOnIsOk(h', s.now, r, pc.uid, ExecPortalLogin(s.st, s.now, pc, ch).next);
  }

  lemma NextUndo(s: System, r: ReqId, pc: Pc, ch: Choice, h': History)
    requires pc.RegisterUndo?
    ensures var next := ExecPortalLogin(s.st, s.now, pc, ch).next;
      Stays(LoginFamily, next) && LoginPcOk(h', s.now, r, next)
  {
    hide ExecLogin, ExecLoginMfa, ExecLoginFactor, ExecLoginRecord, ExecPortalCreate, ExecChangePassword;
    hide ExecChangeReload;
    hide ExecRegister, ExecRegisterCount, ExecRegisterPromote;
  }

  lemma NextPassword(s: System, r: ReqId, pc: Pc, ch: Choice, h': History)
    requires pc.Login? && LoginPcOk(s.h, s.now, r, pc) && RestGrows(s.h, h') && Began(s.h, s.now, r)
      && Checked(s, pc, ch, h')
    ensures var next := ExecPortalLogin(s.st, s.now, pc, ch).next;
      Stays(LoginFamily, next) && LoginPcOk(h', s.now, r, next)
  {
    hide ExecPortalLogin, RestGrows, Began;
    PasswordRuns(s.st, s.now, pc, ch);
  }

  lemma PasswordRuns(st: Store, now: Time, pc: Pc, ch: Choice)
    requires pc.Login?
    ensures ExecPortalLogin(st, now, pc, ch) == ExecLogin(st, now, pc.who, ch)
  {
    hide ExecLogin, ExecLoginMfa, ExecLoginFactor, ExecLoginRecord, ExecChangePassword, ExecChangeReload;
    hide ExecPortalCreate, ExecRegistration;
  }

  lemma KnownStable(h: History, h': History, uid: UserId)
    requires Known(h, uid) && RestGrows(h, h')
    ensures Known(h', uid)
  {
  }

  // Where the steps without a factor of their own lead.
  ghost predicate LoginGoesOn(h: History, now: Time, who: UserId, next: Pc) {
    || (next.Finished? && !next.out.ConsoleUrl?)
    || next == ChangeStore(who) || next == ChangeReload(who) || next == RegisterUndo(who)
    || (next.RegisterCount? && next.uid == who && !next.user.mfaEnabled)
    || (next.RegisterPromote? && next.uid == who && !next.user.mfaEnabled)
    || (next.PortalCreate? && next.who == who && !next.user.mfaEnabled && next.passedAt.None? && next.at <= now)
  }

  lemma GoesOnIsOk(h: History, now: Time, r: ReqId, who: UserId, next: Pc)
    requires Known(h, who) && LoginGoesOn(h, now, who, next)
    ensures Stays(LoginFamily, next) && LoginPcOk(h, now, r, next)
  {
    hide Known;
  }

  lemma LoginKnows(h: History, now: Time, r: ReqId, pc: Pc)
    requires LoginPcOk(h, now, r, pc)
    ensures pc.ChangePassword? || pc.ChangeStore? || pc.ChangeReload? ==> Known(h, pc.who)
    ensures pc.RegisterCount? || pc.RegisterPromote? ==> Known(h, pc.uid) && !pc.user.mfaEnabled
  {
    hide Known;
  }

  lemma ChangeGoesOn(h: History, st: Store, now: Time, pc: Pc, ch: Choice)
    requires pc.ChangePassword? || pc.ChangeStore? || pc.ChangeReload?
    ensures LoginGoesOn(h, now, pc.who, ExecPortalLogin(st, now, pc, ch).next)
  {
    hide ExecLogin, ExecLoginMfa, ExecLoginFactor, ExecLoginRecord, ExecPortalCreate, ExecRegistration;
  }

  lemma NextChange(s: System, r: ReqId, pc: Pc, ch: Choice, h': History)
    requires (pc.ChangePassword? || pc.ChangeStore? || pc.ChangeReload?) && LoginPcOk(s.h, s.now, r, pc)
      && RestGrows(s.h, h')
    ensures var next := ExecPortalLogin(s.st, s.now, pc, ch).next;
      Stays(LoginFamily, next) && LoginPcOk(h', s.now, r, next)
  {
    hide ExecPortalLogin, LoginPcOk, Stays, LoginGoesOn, RestGrows, Known;
    LoginKnows(s.h, s.now, r, pc);
    KnownStable(s.h, h', pc.who);
    ChangeGoesOn(h', s.st, s.now, pc, ch);
    GoesOnIsOk(h', s.now, r, pc.who, ExecPortalLogin(s.st, s.now, pc, ch).next);
  }

  lemma NextLoginMfa(s: System, r: ReqId, pc: Pc, ch: Choice, h': History)
    requires pc.LoginMfa? && LoginPcOk(s.h, s.now, r, pc) && RestGrows(s.h, h') && Began(s.h, s.now, r)
    ensures var next := ExecPortalLogin(s.st, s.now, pc, ch).next;
      Stays(LoginFamily, next) && LoginPcOk(h', s.now, r, next)
  {
    hide ExecLogin, ExecLoginFactor, ExecLoginRecord, ExecChangePassword, ExecChangeReload, ExecPortalCreate;
    hide ExecRegistration;
    KnownStable(s.h, h', pc.who);
    assert h'.arrived[r] == s.h.arrived[r];
    hide RestGrows, Known, Began;
  }

  lemma NextLoginFactor(s: System, r: ReqId, pc: Pc, ch: Choice, h': History)
    requires pc.LoginFactor? && LoginPcOk(s.h, s.now, r, pc) && RestGrows(s.h, h') && Began(s.h, s.now, r)
      && Checked(s, pc, ch, h')
    ensures var next := ExecPortalLogin(s.st, s.now, pc, ch).next;
      Stays(LoginFamily, next) && LoginPcOk(h', s.now, r, next)
  {
    hide ExecLogin, ExecLoginMfa, ExecLoginRecord, ExecChangePassword, ExecChangeReload, ExecPortalCreate;
    hide ExecRegistration;
    KnownStable(s.h, h', pc.who);
    BeganStable(s.h, h', s.now, r);
    if ch.ok { JustVerified(s, r, pc, ch, h'); }
    assert h'.arrived[r] == s.h.arrived[r];
    hide RestGrows, Known, Checked, Verified, Stampable, Began;
  }

  lemma NextLoginRecord(s: System, r: ReqId, pc: Pc, ch: Choice, h': History)
    requires pc.LoginRecord? && LoginPcOk(s.h, s.now, r, pc) && RestGrows(s.h, h') && Began(s.h, s.now, r)
    ensures var next := ExecPortalLogin(s.st, s.now, pc, ch).next;
      Stays(LoginFamily, next) && LoginPcOk(h', s.now, r, next)
  {
    hide ExecLogin, ExecLoginMfa, ExecLoginFactor, ExecChangePassword, ExecChangeReload, ExecPortalCreate;
    hide ExecRegistration;
    KnownStable(s.h, h', pc.who);
    VerifiedStable(s.h, h', s.now, r, pc.who, pc.passed);
    assert h'.arrived[r] == s.h.arrived[r];
    hide RestGrows, Known, Began;
  }

  lemma VerifiedStable(h: History, h': History, now: Time, r: ReqId, uid: UserId, passed: Time)
    requires Verified(h, now, r, uid, passed) && RestGrows(h, h')
    ensures Verified(h', now, r, uid, passed) && passed <= now
  {
  }

  lemma NextPortalCreate(s: System, r: ReqId, pc: Pc, ch: Choice, h': History)
    requires pc.PortalCreate? && LoginPcOk(s.h, s.now, r, pc) && RestGrows(s.h, h') && Began(s.h, s.now, r)
    ensures var next := ExecPortalLogin(s.st, s.now, pc, ch).next;
      Stays(LoginFamily, next) && LoginPcOk(h', s.now, r, next)
  {
    hide RestGrows, Answer, PortalRow, StampIf, Began, Known, FactorOk, ExecLogin, ExecLoginMfa, ExecLoginFactor;
    hide ExecLoginRecord, ExecChangePassword, ExecChangeReload, ExecRegistration;
  }

  lemma NextLogin(s: System, r: ReqId, pc: Pc, ch: Choice, h': History)
    requires FamilyOf(pc) == LoginFamily && LoginPcOk(s.h, s.now, r, pc) && Began(s.h, s.now, r)
    requires RestGrows(s.h, h') && Recorded(s, r, pc, ch, ExecPortalLogin(s.st, s.now, pc, ch), h')
    ensures var next := ExecPortalLogin(s.st, s.now, pc, ch).next;
      Stays(LoginFamily, next) && LoginPcOk(h', s.now, r, next)
  {
    hide Answer, ExecPortalLogin, LoginPcOk, Stays, RestGrows, Began, Checked;
    if pc.Register? { NextRegister(s, r, pc, ch, h'); }
    else if pc.RegisterCount? || pc.RegisterPromote? { NextRegistered(s, r, pc, ch, h'); }
    else if pc.RegisterUndo? { NextUndo(s, r, pc, ch, h'); }
    else if pc.LoginMfa? { NextLoginMfa(s, r, pc, ch, h'); }
    else if pc.LoginFactor? { NextLoginFactor(s, r, pc, ch, h'); }
    else if pc.LoginRecord? { NextLoginRecord(s, r, pc, ch, h'); }
    else if pc.Login? { NextPassword(s, r, pc, ch, h'); }
    else if pc.PortalCreate? { NextPortalCreate(s, r, pc, ch, h'); }
    else { NextChange(s, r, pc, ch, h'); }
  }

  lemma NextPortalRead(s: System, r: ReqId, token: Token, purpose: Purpose, h': History)
    requires CookieOk(s.h, s.now, PortalCookie(token)) && PurposeOk(s.h, r, purpose)
    requires SessionsGrow(s.h, h') && RestGrows(s.h, h') && SessionsInv(s.st, s.h, s.now)
    ensures var next := ExecPortalRead(s.st, s.now, token, purpose).next;
      || next == Finished(Rejected)
      || (next.PortalUser? && next.purpose == purpose && PortalRowOk(h', s.now, next.sid, next.row)
          && PurposeOk(h', r, purpose))
  {
    if FindByAccess(s.st, token).Some? {
      var sid := FindByAccess(s.st, token).value;
      assert SessionOk(s.h, s.now, sid, s.st.sessions[sid]);
    }
  }

  // A step of a portal request may end in a console URL or turn into the
  // issuing of a code; silent sign-on never falls back to the creation time.
  ghost predicate PortalNextOk(h': History, now: Time, ttl: Time, r: ReqId, next: Pc) {
    if next.Finished? then UrlOk(h', ttl, next.out)
    else if next.IssueCode? then AuthorizePcOk(h', now, r, next)
    else FamilyOf(next) == PortalFamily && PortalPcOk(h', now, r, next)
  }

  lemma NextPortalAct(s: System, r: ReqId, sid: SessionId, row: Session, uid: UserId, purpose: Purpose, ch: Choice,
                      h': History)
    requires PortalRowOk(s.h, s.now, sid, row) && PurposeOk(s.h, r, purpose) && row.user == Some(uid)
    requires ChallengesInv(s.h, s.now) && SessionsGrow(s.h, h') && RestGrows(s.h, h') && Began(s.h, s.now, r)
    requires Checked(s, PortalAct(sid, row, uid, purpose), ch, h')
    ensures PortalNextOk(h', s.now, s.ttl, r, ExecPortalAct(s.st, s.now, s.ttl, sid, row, uid, purpose, ch).next)
  {
    var pc := PortalAct(sid, row, uid, purpose);
    FactsStable(s.h, h', s.now, s.now, r);
    match purpose
    case StepUp(webauthn, console) => if ch.ok { NextStepUp(s, r, pc, ch, h'); }
    case Console(_) => NextConsole(s, r, pc, ch, h');
    case Silent(_, _, _, _, _) => NextSilentAct(s, r, pc, ch, h');
    case _ => hide Answer;
  }

  lemma PortalSessionStable(h: History, h': History, sid: SessionId)
    requires IsPortalSession(h, sid) && SessionsGrow(h, h')
    ensures IsPortalSession(h', sid) && h'.born[sid] == h.born[sid]
  {
  }

  lemma PortalRowUser(h: History, now: Time, sid: SessionId, row: Session)
    requires PortalRowOk(h, now, sid, row)
    ensures IsPortalSession(h, sid) && h.born[sid].row.user == row.user
  {
  }

  lemma NextStepUp(s: System, r: ReqId, pc: Pc, ch: Choice, h': History)
    requires pc.PortalAct? && pc.purpose.StepUp? && ch.ok
    requires PortalRowOk(s.h, s.now, pc.sid, pc.row) && PurposeOk(s.h, r, pc.purpose) && pc.row.user == Some(pc.uid)
    requires SessionsGrow(s.h, h') && RestGrows(s.h, h') && Began(s.h, s.now, r) && Checked(s, pc, ch, h')
    ensures PortalNextOk(h', s.now, s.ttl, r,
                         ExecPortalAct(s.st, s.now, s.ttl, pc.sid, pc.row, pc.uid, pc.purpose, ch).next)
  {
    hide ExecPortalAct, PortalNextOk, SessionsGrow, RestGrows, PortalRowOk, PurposeOk, Checked, Began, IsPortalSession;
    PortalRowUser(s.h, s.now, pc.sid, pc.row);
    PortalSessionStable(s.h, h', pc.sid);
    PurposeStable(s.h, h', r, pc.purpose);
    BeganStable(s.h, h', s.now, r);
    JustVerified(s, r, pc, ch, h');
    FactorLeads(s, r, pc, ch, h');
  }

  lemma FactorLeads(s: System, r: ReqId, pc: Pc, ch: Choice, h': History)
    requires pc.PortalAct? && pc.purpose.StepUp? && ch.ok && PurposeOk(h', r, pc.purpose)
    requires IsPortalSession(h', pc.sid) && h'.born[pc.sid].row.user == Some(pc.uid)
    requires Verified(h', s.now, r, pc.uid, s.now) && Stampable(h', s.now, r, pc.uid, s.now, s.now)
    ensures PortalNextOk(h', s.now, s.ttl, r,
                         ExecPortalAct(s.st, s.now, s.ttl, pc.sid, pc.row, pc.uid, pc.purpose, ch).next)
  {
    hide Answer, StepUpFresh, SilentMfaAt, AuthorizePcOk, IsPortalSession, Stampable, Verified, CookieOk, PortalRowOk;
  }

  lemma NextConsole(s: System, r: ReqId, pc: Pc, ch: Choice, h': History)
    requires pc.PortalAct? && pc.purpose.Console? && PortalRowOk(s.h, s.now, pc.sid, pc.row)
      && pc.row.user == Some(pc.uid)
    requires ChallengesInv(s.h, s.now) && RestGrows(s.h, h')
    ensures PortalNextOk(h', s.now, s.ttl, r,
                         ExecPortalAct(s.st, s.now, s.ttl, pc.sid, pc.row, pc.uid, pc.purpose, ch).next)
  {
    hide KnownUser, RowOf, Verified, Stampable;
    if pc.row.mfaAt.Some? { StampBeforeNow(s, (pc.uid, pc.row.mfaAt.value)); }
  }

  lemma StampBeforeNow(s: System, k: (UserId, Time))
    requires ChallengesInv(s.h, s.now) && k in s.h.challenges
    ensures k.1 <= s.now
  {
  }

  lemma NextSilentAct(s: System, r: ReqId, pc: Pc, ch: Choice, h': History)
    requires pc.PortalAct? && pc.purpose.Silent? && PortalRowOk(s.h, s.now, pc.sid, pc.row)
      && pc.row.user == Some(pc.uid)
    requires PurposeOk(s.h, r, pc.purpose) && RestGrows(s.h, h')
    ensures PortalNextOk(h', s.now, s.ttl, r,
                         ExecPortalAct(s.st, s.now, s.ttl, pc.sid, pc.row, pc.uid, pc.purpose, ch).next)
  {
    FactsStable(s.h, h', s.now, s.now, r);
    hide RestGrows, RowOf;
  }

  function SilentPurpose(pc: Pc, ticket: TicketId): Purpose
    requires pc.SilentRequest?
  {
    Silent(pc.client, SplitScopes(pc.scope), pc.redirectUri, pc.codeChallenge, ticket)
  }

  lemma NextSilentRequest(s: System, r: ReqId, pc: Pc, ch: Choice, h': History)
    requires pc.SilentRequest? && PortalPcOk(s.h, s.now, r, pc) && SessionsGrow(s.h, h')
    requires Recorded(s, r, pc, ch,
                      AcceptScopes(s.st, pc.client, pc.scope, PortalRead(pc.token, SilentPurpose(pc, ch.id))), h')
    ensures PortalNextOk(h', s.now, s.ttl, r,
                         AcceptScopes(s.st, pc.client, pc.scope, PortalRead(pc.token, SilentPurpose(pc, ch.id))).next)
  {
    hide SplitScopes, Answer;
  }

  lemma PortalRowStable(h: History, h': History, now: Time, sid: SessionId, row: Session)
    requires PortalRowOk(h, now, sid, row) && SessionsGrow(h, h') && RestGrows(h, h')
    ensures PortalRowOk(h', now, sid, row)
  {
  }

  lemma NextPortalSlide(s: System, r: ReqId, pc: Pc, ch: Choice, h': History)
    requires (pc.PortalUser? || pc.PortalSlide?) && PortalPcOk(s.h, s.now, r, pc)
    requires SessionsGrow(s.h, h') && RestGrows(s.h, h')
    ensures PortalNextOk(h', s.now, s.ttl, r, ExecPortal(s.st, s.now, s.ttl, pc, ch).next)
  {
    hide ExecPortal, PortalNextOk, SlidesTo, SessionsGrow, RestGrows, PortalRowOk, PurposeOk;
    SlideGoesOn(s.st, s.now, s.ttl, pc, ch);
    PurposeStable(s.h, h', r, pc.purpose);
    PortalRowStable(s.h, h', s.now, pc.sid, pc.row);
    SlideLeads(h', s.now, s.ttl, r, pc, ExecPortal(s.st, s.now, s.ttl, pc, ch).next);
  }

  ghost predicate SlidesTo(now: Time, pc: Pc, next: Pc) {
    || next == Finished(Rejected)
    || (pc.PortalUser? && pc.row.user.Some? && next == PortalSlide(pc.sid, pc.row, pc.row.user.value, pc.purpose, now))
    || (pc.PortalSlide? && next == PortalAct(pc.sid, pc.row, pc.uid, pc.purpose))
  }

  lemma SlideLeads(h: History, now: Time, ttl: Time, r: ReqId, pc: Pc, next: Pc)
    requires (pc.PortalUser? || pc.PortalSlide?) && SlidesTo(now, pc, next)
    requires pc.PortalSlide? ==> pc.row.user == Some(pc.uid)
    requires PortalRowOk(h, now, pc.sid, pc.row) && PurposeOk(h, r, pc.purpose)
    ensures PortalNextOk(h, now, ttl, r, next)
  {
    hide PortalRowOk, PurposeOk, AuthorizePcOk;
  }

  lemma SlideGoesOn(st: Store, now: Time, ttl: Time, pc: Pc, ch: Choice)
    requires pc.PortalUser? || pc.PortalSlide?
    ensures SlidesTo(now, pc, ExecPortal(st, now, ttl, pc, ch).next)
  {
    hide AcceptScopes, ExecPortalRead, ExecPortalAct, ExecStepUpRecord, ExecStepUpMark, ExecStepUpGo, CapByAbsolute;
  }

  lemma PurposeStable(h: History, h': History, r: ReqId, purpose: Purpose)
    requires PurposeOk(h, r, purpose) && RestGrows(h, h')
    ensures PurposeOk(h', r, purpose)
  {
  }

  lemma NextStepUpRecord(s: System, r: ReqId, pc: Pc, ch: Choice, h': History)
    requires pc.StepUpRecord? && PortalPcOk(s.h, s.now, r, pc) && SessionsGrow(s.h, h') && RestGrows(s.h, h')
    ensures PortalNextOk(h', s.now, s.ttl, r, ExecPortal(s.st, s.now, s.ttl, pc, ch).next)
  {
    hide AcceptScopes, ExecPortalRead, ExecPortalUser, ExecPortalSlide, ExecPortalAct, ExecStepUpMark, ExecStepUpGo;
    hide AuthorizePcOk;
    PortalSessionStable(s.h, h', pc.sid);
    VerifiedStable(s.h, h', s.now, r, pc.uid, pc.passed);
    assert h'.arrived[r] == s.h.arrived[r];
    hide SessionsGrow, RestGrows, Verified, IsPortalSession, Began;
  }

  lemma NextStepUpMark(s: System, r: ReqId, pc: Pc, ch: Choice, h': History)
    requires pc.StepUpMark? && Recorded(s, r, pc, ch, ExecPortal(s.st, s.now, s.ttl, pc, ch), h')
    ensures PortalNextOk(h', s.now, s.ttl, r, ExecPortal(s.st, s.now, s.ttl, pc, ch).next)
  {
    hide AcceptScopes, ExecPortalRead, ExecPortalUser, ExecPortalSlide, ExecPortalAct, ExecStepUpRecord, ExecStepUpGo;
    hide AuthorizePcOk, UrlOk, Checked, Answer, Ticketed;
  }

  lemma NextStepUpGo(s: System, r: ReqId, pc: Pc, ch: Choice, h': History)
    requires pc.StepUpGo? && PortalPcOk(s.h, s.now, r, pc) && s.ttl >= 0 && RestGrows(s.h, h')
    ensures PortalNextOk(h', s.now, s.ttl, r, ExecPortal(s.st, s.now, s.ttl, pc, ch).next)
  {
    hide AcceptScopes, ExecPortalRead, ExecPortalUser, ExecPortalSlide, ExecPortalAct, ExecStepUpRecord;
    hide ExecStepUpMark;
  }

  lemma NextPortal(s: System, r: ReqId, pc: Pc, ch: Choice, h': History)
    requires FamilyOf(pc) == PortalFamily && PortalPcOk(s.h, s.now, r, pc) && s.ttl >= 0 && Grows(s.h, h')
    requires Recorded(s, r, pc, ch, ExecPortal(s.st, s.now, s.ttl, pc, ch), h') && Began(s.h, s.now, r)
    requires SessionsInv(s.st, s.h, s.now) && ChallengesInv(s.h, s.now)
    ensures PortalNextOk(h', s.now, s.ttl, r, ExecPortal(s.st, s.now, s.ttl, pc, ch).next)
  {
    hide AcceptScopes, ExecPortalRead, ExecPortalAct, SplitScopes, SessionsInv, ChallengesInv, SessionsGrow;
    hide CodesGrow, DevicesGrow, RestGrows, PortalRowOk, PurposeOk, CookieOk, Began, Stampable, Verified, Indirect;
    if pc.SilentRequest? {
      NextSilentRequest(s, r, pc, ch, h');
    } else if pc.PortalRead? {
      NextPortalRead(s, r, pc.token, pc.purpose, h');
    } else if pc.PortalAct? {
      NextPortalAct(s, r, pc.sid, pc.row, pc.uid, pc.purpose, ch, h');
    } else {
      hide ExecPortal, PortalNextOk;
      if pc.PortalUser? || pc.PortalSlide? { NextPortalSlide(s, r, pc, ch, h'); }
      else if pc.StepUpGo? { NextStepUpGo(s, r, pc, ch, h'); }
      else if pc.StepUpRecord? { NextStepUpRecord(s, r, pc, ch, h'); }
      else { NextStepUpMark(s, r, pc, ch, h'); }
    }
  }

  // ---- what a step hands out and vouches for ----

  // The scopes were checked against what the client is registered for now.
  ghost predicate AcceptanceOk(st: Store, a: Acceptance) {
    a.client in st.clients && a.registered == st.clients[a.client].scopes && AllRegistered(a.registered, a.scopes)
  }

  ghost predicate SideOk(s: System, r: ReqId, o: Out, h': History) {
    && (o.seal.Some? ==> CookieOk(h', s.now, o.seal.value))
    && (o.accept.Some? ==> AcceptanceOk(s.st, o.accept.value))
    && (o.stamp.Some? ==> Stampable(h', s.now, r, o.stamp.value.uid, o.stamp.value.passed, o.stamp.value.at))
    && Vouched(h', o.write)
  }

  lemma SideRefresh(s: System, r: ReqId, pc: Pc, ch: Choice, h': History)
    ensures SideOk(s, r, ExecRefresh(s.st, s.now, pc, ch), h')
  {
    hide ExecRefresh, CookieOk, AcceptanceOk, Stampable;
    RefreshWrites(s.st, s.now, pc, ch);
  }

  lemma SideCode(s: System, r: ReqId, pc: Pc, ch: Choice, h': History)
    requires CodePcOk(s.h, s.now, r, pc) && CodesInv(s.st, s.h, s.now) && RestGrows(s.h, h')
    ensures SideOk(s, r, ExecCode(s.st, s.now, pc, ch), h')
  {
    hide ExecCode, CookieOk, AcceptanceOk, Stampable;
    CodeWrites(s.st, s.now, pc, ch);
    if pc.CodeMint? { assert GrantOk(s.h, s.now, pc.gid, s.h.grants[pc.gid]); }
  }

  lemma SideDeviceMint(s: System, r: ReqId, client: ClientId, did: DeviceId, d: DeviceGrant, at: Time, ch: Choice,
                       h': History)
    requires DevicePcOk(s.h, s.now, r, DeviceMint(client, did, d, at)) && DeviceHistoryInv(s.h) && RestGrows(s.h, h')
    ensures Vouched(h', InsertSession(ch.id, DeviceRow(client, d, at, ch), ByDevice(did)))
  {
  }

  lemma SideDevice(s: System, r: ReqId, pc: Pc, ch: Choice, h': History)
    requires DevicePcOk(s.h, s.now, r, pc) && DevicesInv(s.st, s.h) && RestGrows(s.h, h')
    ensures SideOk(s, r, ExecDevice(s.st, s.now, pc, ch), h')
  {
    hide ExecDevice, CookieOk, AcceptanceOk, Stampable, DevicePcOk, DeviceRowsInv, DeviceHistoryInv, DeviceRow;
    hide RestGrows;
    DeviceWrites(s.st, s.now, pc, ch);
    if pc.DeviceMint? { SideDeviceMint(s, r, pc.client, pc.did, pc.device, pc.at, ch, h'); }
  }

  // A scope list is accepted only when all of it is registered.
  lemma AcceptedAreRegistered(st: Store, client: ClientId, scope: string, next: Pc)
    ensures var o := AcceptScopes(st, client, scope, next);
      o.accept.Some? <==> client in st.clients && AllRegistered(st.clients[client].scopes, SplitScopes(scope))
    ensures var o := AcceptScopes(st, client, scope, next);
      o.accept.Some? ==> o.accept.value == Acceptance(client, SplitScopes(scope), st.clients[client].scopes)
  {
    if client in st.clients {
      FieldsAreWords(scope, IsSpace);
      UnregisteredScopeIsExact(st.clients[client].scopes, SplitScopes(scope));
    }
  }

  // What the client's own requests write and hand out.
  lemma ClientWrites(st: Store, now: Time, pc: Pc, ch: Choice)
    ensures var o := ExecClient(st, now, pc, ch);
      && o.seal.None? && o.stamp.None?
      && (o.accept.Some? ==> AcceptanceOk(st, o.accept.value))
      && (o.write.Nothing? || o.write.InsertDevice?
          || (pc.CredsMint?
              && o.write == InsertSession(ch.id, CredsRow(pc.client, pc.scopes, pc.at, ch), ByClient(pc.ticket))))
  {
    hide Answer, SplitScopes, AllRegistered, CredsRow, PendingDevice, DeviceScopes, UnregisteredScope;
    if pc.CredsRequest? {
      AcceptedAreRegistered(st, pc.client, pc.scope, CredsMint(pc.client, SplitScopes(pc.scope), ch.id, now));
    }
  }

  lemma SideClient(s: System, r: ReqId, pc: Pc, ch: Choice, h': History)
    ensures SideOk(s, r, ExecClient(s.st, s.now, pc, ch), h')
  {
    hide ExecClient, CookieOk, AcceptanceOk, Stampable;
    ClientWrites(s.st, s.now, pc, ch);
  }

  lemma SideAuthRequest(s: System, r: ReqId, pc: Pc, ch: Choice, h': History)
    requires pc.AuthRequest?
    ensures SideOk(s, r, ExecAuthorize(s.st, s.now, pc, ch), h')
  {
    hide Answer, SplitScopes, AllRegistered, UnregisteredScope, CookieOk, Stampable, ExecAuthLogin, ExecAuthMfa;
    hide ExecAuthFactor, ExecAuthRecord, ExecAuthClient, ExecSeat, ExecIssueCode;
    AcceptedAreRegistered(s.st, pc.client, pc.scope,
                          AuthLogin(pc.client, SplitScopes(pc.scope), pc.who, pc.redirectUri, pc.codeChallenge, ch.id));
  }

  lemma SideAuthLogin(s: System, r: ReqId, pc: Pc, ch: Choice, h': History)
    requires pc.AuthLogin? && AuthorizePcOk(s.h, s.now, r, pc) && RestGrows(s.h, h') && Checked(s, pc, ch, h')
    ensures SideOk(s, r, ExecAuthorize(s.st, s.now, pc, ch), h')
  {
    hide ExecAuthMfa, ExecAuthFactor, ExecAuthRecord, ExecAuthClient, ExecSeat, ExecIssueCode, AcceptScopes;
    FactsStable(s.h, h', s.now, s.now, r);
    hide RestGrows, Answer, AcceptanceOk, Stampable;
  }

  lemma SideSeat(s: System, r: ReqId, pc: Pc, ch: Choice, h': History)
    requires pc.Seat? && AuthorizePcOk(s.h, s.now, r, pc) && RestGrows(s.h, h')
    requires Recorded(s, r, pc, ch, ExecAuthorize(s.st, s.now, pc, ch), h')
    ensures SideOk(s, r, ExecAuthorize(s.st, s.now, pc, ch), h')
  {
    hide ExecAuthLogin, ExecAuthMfa, ExecAuthFactor, ExecAuthRecord, ExecAuthClient, ExecIssueCode, AcceptScopes;
    FactsStable(s.h, h', s.now, s.now, r);
    hide RestGrows, Answer, AcceptanceOk, Checked, Stampable, Known, OwnTicket, Accepted, Ticketed;
  }

  lemma SideIssue(s: System, r: ReqId, pc: Pc, ch: Choice, h': History)
    requires pc.IssueCode? && AuthorizePcOk(s.h, s.now, r, pc) && RestGrows(s.h, h')
    requires Recorded(s, r, pc, ch, ExecAuthorize(s.st, s.now, pc, ch), h')
    ensures SideOk(s, r, ExecAuthorize(s.st, s.now, pc, ch), h')
  {
    hide ExecAuthLogin, ExecAuthMfa, ExecAuthFactor, ExecAuthRecord, ExecAuthClient, ExecSeat, AcceptScopes;
    FactsStable(s.h, h', s.now, s.now, r);
    hide RestGrows, Answer, AcceptanceOk, Checked, Stampable, Known, OwnTicket, Accepted, Ticketed, CookieOk;
  }

  lemma SideAuthorize(s: System, r: ReqId, pc: Pc, ch: Choice, h': History)
    requires AuthorizePcOk(s.h, s.now, r, pc) && RestGrows(s.h, h')
    requires Recorded(s, r, pc, ch, ExecAuthorize(s.st, s.now, pc, ch), h')
    ensures SideOk(s, r, ExecAuthorize(s.st, s.now, pc, ch), h')
  {
    hide Answer, AuthorizePcOk, RestGrows, SideOk, Checked;
    if pc.AuthRequest? { SideAuthRequest(s, r, pc, ch, h'); }
    else if pc.AuthLogin? { SideAuthLogin(s, r, pc, ch, h'); }
    else if pc.Seat? { SideSeat(s, r, pc, ch, h'); }
    else if pc.IssueCode? { SideIssue(s, r, pc, ch, h'); }
    else {
      AuthorizeQuiet(s.st, s.now, pc, ch);
      hide ExecAuthorize;
      SideQuiet(s, r, ExecAuthorize(s.st, s.now, pc, ch), h');
    }
  }

  lemma AuthorizeQuiet(st: Store, now: Time, pc: Pc, ch: Choice)
    requires !pc.AuthRequest? && !pc.AuthLogin? && !pc.Seat? && !pc.IssueCode?
    ensures var o := ExecAuthorize(st, now, pc, ch); o == Go(o.next)
  {
    hide AcceptScopes, ExecAuthLogin, ExecSeat, ExecIssueCode;
  }

  // A step that writes, seals, accepts and stamps nothing.
  lemma SideQuiet(s: System, r: ReqId, o: Out, h': History)
    requires o == Go(o.next)
    ensures SideOk(s, r, o, h')
  {
  }

  lemma SidePortalCreate(s: System, r: ReqId, pc: Pc, ch: Choice, h': History)
    requires pc.PortalCreate? && LoginPcOk(s.h, s.now, r, pc) && RestGrows(s.h, h')
    requires Recorded(s, r, pc, ch, ExecPortalLogin(s.st, s.now, pc, ch), h')
    ensures SideOk(s, r, ExecPortalLogin(s.st, s.now, pc, ch), h')
  {
    hide ExecLogin, ExecLoginMfa, ExecLoginFactor, ExecLoginRecord, ExecChangePassword, ExecChangeReload;
    hide ExecRegistration;
    FactsStable(s.h, h', s.now, s.now, r);
    hide RestGrows, Answer, AcceptanceOk, Checked, Stampable, Known;
  }

  predicate WritesUsers(o: Out, ch: Choice) {
    && Plain(o) && (o.write.InsertUser? ==> o.write.uid == ch.id)
    && (o.write.Nothing? || o.write.InsertUser? || o.write.PromoteUser? || o.write.ResetPassword? || o.write.DropUser?)
  }

  lemma RegistrationWrites(st: Store, now: Time, pc: Pc, ch: Choice)
    ensures WritesUsers(ExecRegistration(st, now, pc, ch), ch)
  {
    hide Answer, Registered;
  }

  // What the other login steps write and hand out.
  lemma LoginWrites(st: Store, now: Time, pc: Pc, ch: Choice)
    requires !pc.PortalCreate? && !pc.Login?
    ensures WritesUsers(ExecPortalLogin(st, now, pc, ch), ch)
  {
    hide Answer, ExecPortalCreate, ExecLogin, ExecRegistration;
    RegistrationWrites(st, now, pc, ch);
  }

  lemma SideLogin(s: System, r: ReqId, pc: Pc, ch: Choice, h': History)
    requires LoginPcOk(s.h, s.now, r, pc) && RestGrows(s.h, h')
      && Recorded(s, r, pc, ch, ExecPortalLogin(s.st, s.now, pc, ch), h')
    ensures SideOk(s, r, ExecPortalLogin(s.st, s.now, pc, ch), h')
  {
    hide ExecPortalLogin, LoginPcOk, RestGrows, Recorded, SideOk;
    if pc.PortalCreate? { SidePortalCreate(s, r, pc, ch, h'); }
    else if pc.Login? { SidePassword(s, r, pc, ch, h'); }
    else {
      LoginWrites(s.st, s.now, pc, ch);
      SideUsers(s, r, ExecPortalLogin(s.st, s.now, pc, ch), ch, h');
    }
  }

  lemma SideUsers(s: System, r: ReqId, o: Out, ch: Choice, h': History)
    requires WritesUsers(o, ch)
    ensures SideOk(s, r, o, h')
  {
  }

  lemma SidePassword(s: System, r: ReqId, pc: Pc, ch: Choice, h': History)
    requires pc.Login? && RestGrows(s.h, h') && Recorded(s, r, pc, ch, ExecPortalLogin(s.st, s.now, pc, ch), h')
    ensures SideOk(s, r, ExecPortalLogin(s.st, s.now, pc, ch), h')
  {
    hide ExecPortalLogin, Answer, AcceptanceOk, Stampable, RestGrows;
    PasswordRuns(s.st, s.now, pc, ch);
  }

  lemma SideStepUp(s: System, r: ReqId, pc: Pc, ch: Choice, h': History)
    requires pc.StepUpMark? && PortalPcOk(s.h, s.now, r, pc) && SessionsGrow(s.h, h') && RestGrows(s.h, h')
    requires Recorded(s, r, pc, ch, ExecPortal(s.st, s.now, s.ttl, pc, ch), h')
    ensures SideOk(s, r, ExecPortal(s.st, s.now, s.ttl, pc, ch), h')
  {
    hide AcceptScopes, ExecPortalRead, ExecPortalUser, ExecPortalSlide, ExecPortalAct, ExecStepUpRecord, ExecStepUpGo;
    FactsStable(s.h, h', s.now, s.now, r);
    hide RestGrows, Stampable, Checked, CookieOk, AcceptanceOk;
  }

  lemma SidePortalOther(s: System, r: ReqId, pc: Pc, ch: Choice, h': History)
    requires !pc.StepUpMark?
    ensures SideOk(s, r, ExecPortal(s.st, s.now, s.ttl, pc, ch), h')
  {
    hide CookieOk, Answer, SplitScopes, AllRegistered, SessionTokenLive, StepUpFresh, SilentMfaAt, UnregisteredScope;
    hide Stampable;
    if pc.SilentRequest? {
      AcceptedAreRegistered(s.st, pc.client, pc.scope, PortalRead(pc.token, SilentPurpose(pc, ch.id)));
    }
  }

  lemma SidePortal(s: System, r: ReqId, pc: Pc, ch: Choice, h': History)
    requires PortalPcOk(s.h, s.now, r, pc) && SessionsGrow(s.h, h') && RestGrows(s.h, h')
    requires Recorded(s, r, pc, ch, ExecPortal(s.st, s.now, s.ttl, pc, ch), h')
    ensures SideOk(s, r, ExecPortal(s.st, s.now, s.ttl, pc, ch), h')
  {
    hide ExecPortal, PortalPcOk, SideOk, Recorded, SessionsGrow, RestGrows;
    if pc.StepUpMark? { SideStepUp(s, r, pc, ch, h'); } else { SidePortalOther(s, r, pc, ch, h'); }
  }

  // ---- one request step, whatever the handler ----

  ghost predicate StepOk(s: System, r: ReqId, ch: Choice, o: Out) {
    var h' := Record(s, r, ch, o);
    Permitted(s, r, ch, o.write) && Grows(s.h, h') && Recorded(s, r, PcAt(s, r), ch, o, h')
    && PcOk(h', s.now, s.ttl, r, o.next) && SideOk(s, r, o, h')
  }

  lemma StayedIsOk(h: History, now: Time, ttl: Time, r: ReqId, f: Family, pc: Pc)
    requires Stays(f, pc) && Began(h, now, r)
    requires match f
      case RefreshFamily => RefreshPcOk(h, now, pc)
      case CodeFamily => CodePcOk(h, now, r, pc)
      case DeviceFamily => DevicePcOk(h, now, r, pc)
      case ClientFamily => ClientPcOk(h, now, r, pc)
      case AuthorizeFamily => AuthorizePcOk(h, now, r, pc)
      case LoginFamily => LoginPcOk(h, now, r, pc)
      case _ => false
    ensures PcOk(h, now, ttl, r, pc)
  {
    hide RefreshPcOk, CodePcOk, DevicePcOk, ClientPcOk, AuthorizePcOk, LoginPcOk, Began;
  }

  lemma BeganStable(h: History, h': History, now: Time, r: ReqId)
    requires Began(h, now, r) && RestGrows(h, h')
    ensures Began(h', now, r)
  {
  }
}
