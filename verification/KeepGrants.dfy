/** The invariants of codes and device grants survive every statement. */
module KeepGrants {
  import opened Model
  import opened Stores
  import opened Protocol
  import opened Invariant
  import opened Keep

  // ---- authorization codes ----

  lemma CodesStable(st: Store, h: History, h': History, now: Time, now': Time)
    requires CodesInv(st, h, now) && RestGrows(h, h') && now <= now'
    requires h'.grants == h.grants && h'.codeTicket == h.codeTicket && h'.redeemer == h.redeemer
    requires h.codeSession.Keys <= h'.codeSession.Keys <= h.redeemer.Keys
    ensures CodesInv(st, h', now')
  {
    forall gid | gid in h'.grants
      ensures GrantOk(h', now', gid, h'.grants[gid])
    {
      assert GrantOk(h, now, gid, h.grants[gid]);
    }
  }

  lemma FewerCodes(st: Store, st': Store, h: History, now: Time)
    requires CodesInv(st, h, now) && st'.grants.Keys <= st.grants.Keys
    requires forall gid | gid in st'.grants :: st'.grants[gid] == st.grants[gid]
    ensures CodesInv(st', h, now)
  {
  }

  // Only account deletion and the reaper remove codes.
  predicate RemovesCodes(w: Write) {
    w.DropUser? || w.DropClient? || w.ReapGrants?
  }

  lemma RemovalKeepsCodes(st: Store, now: Time, w: Write)
    requires RemovesCodes(w)
    ensures var st' := Perform(st, now, w);
      st'.grants.Keys <= st.grants.Keys && forall gid | gid in st'.grants :: st'.grants[gid] == st.grants[gid]
  {
    hide WithoutSessions, SessionsOf, SessionsOfClient;
  }

  lemma LeavesCodes(st: Store, now: Time, w: Write)
    requires !w.InsertGrant? && !w.UseGrant? && !RemovesCodes(w)
    ensures Perform(st, now, w).grants == st.grants
  {
    hide StoredDeviceScopes, TokensUnused, OwnersExist, SessionsOf, SessionsOfClient, ExpiredSessions;
  }

  lemma OthersKeepCodes(st: Store, now: Time, w: Write)
    requires !w.InsertGrant? && !w.UseGrant?
    ensures var st' := Perform(st, now, w);
      st'.grants.Keys <= st.grants.Keys && forall gid | gid in st'.grants :: st'.grants[gid] == st.grants[gid]
  {
    hide Perform;
    if RemovesCodes(w) { RemovalKeepsCodes(st, now, w); } else { LeavesCodes(st, now, w); }
  }

  lemma IssueKeepsCodes(s: System, r: ReqId, ch: Choice, o: Out, h': History)
    requires o.write.InsertGrant? && Answer(s.st, o.write) == Done && FreshInv(s.h) && FreshChoice(s.h, ch)
    requires CodesInv(s.st, s.h, s.now) && Permitted(s, r, ch, o.write) && Vouched(h', o.write)
    requires RestGrows(s.h, h') && ch.t1 in h'.drawn
    requires h'.grants == s.h.grants[ch.id := o.write.grant] && h'.codeTicket == s.h.codeTicket[ch.id := o.write.ticket]
    requires h'.redeemer == s.h.redeemer && h'.codeSession == s.h.codeSession
    ensures CodesInv(Perform(s.st, s.now, o.write), h', s.now)
  {
    NewGrantIsOk(s, r, ch, o.write, h');
    IssuedRow(s.st, s.now, o.write);
    assert ch.id !in s.h.ids && s.h.grants.Keys <= s.h.ids;
    hide Permitted, Vouched, Perform, Answer, GrantOk, FreshInv, FreshChoice, CodesInv, RestGrows;
    IssuedCodes(s.st, Perform(s.st, s.now, o.write), s.h, h', s.now, ch.id, o.write.grant);
  }

  lemma IssuedCodes(st: Store, st': Store, h: History, h': History, now: Time, gid: GrantId, g: Grant)
    requires CodesInv(st, h, now) && RestGrows(h, h') && GrantOk(h', now, gid, g) && gid !in h.grants && !g.used
    requires h'.grants == h.grants[gid := g] && h'.redeemer == h.redeemer && h'.codeSession == h.codeSession
    requires forall id | id in h.grants :: (id in h'.codeTicket <==> id in h.codeTicket)
    requires forall id | id in h.grants && id in h.codeTicket :: h'.codeTicket[id] == h.codeTicket[id]
    requires st'.grants == st.grants[gid := g.(used := false)]
    ensures CodesInv(st', h', now)
  {
    hide GrantOk, RestGrows;
    GrantsHaveTickets(st, h, now);
    forall id | id in h'.grants && id != gid
      ensures GrantOk(h', now, id, h'.grants[id])
    {
      GrantStable(h, h', now, id);
    }
  }

  lemma GrantsHaveTickets(st: Store, h: History, now: Time)
    requires CodesInv(st, h, now)
    ensures forall gid | gid in h.grants :: GrantOk(h, now, gid, h.grants[gid]) && gid in h.codeTicket
  {
    hide Accepted, Justified, Known;
  }

  lemma IssuedRow(st: Store, now: Time, w: Write)
    requires w.InsertGrant? && Answer(st, w) == Done
    ensures Perform(st, now, w).grants == st.grants[w.gid := w.grant.(used := false)]
  {
    hide TokensUnused, OwnersExist;
  }

  lemma NewGrantIsOk(s: System, r: ReqId, ch: Choice, w: Write, h': History)
    requires w.InsertGrant? && Permitted(s, r, ch, w) && Vouched(h', w) && RestGrows(s.h, h') && ch.t1 in h'.drawn
    requires w.gid in h'.codeTicket && h'.codeTicket[w.gid] == w.ticket
    ensures w.gid == ch.id && !w.grant.used && GrantOk(h', s.now, w.gid, w.grant)
  {
  }

  lemma GrantStable(h: History, h': History, now: Time, gid: GrantId)
    requires gid in h.grants && GrantOk(h, now, gid, h.grants[gid]) && RestGrows(h, h')
    requires gid in h'.grants && h'.grants[gid] == h.grants[gid]
    requires gid in h.codeTicket && gid in h'.codeTicket && h'.codeTicket[gid] == h.codeTicket[gid]
    ensures GrantOk(h', now, gid, h'.grants[gid])
  {
  }

  lemma UseKeepsCodes(s: System, r: ReqId, gid: GrantId, h': History)
    requires Answer(s.st, UseGrant(gid)) == Done && CodesInv(s.st, s.h, s.now) && RestGrows(s.h, h')
    requires h'.grants == s.h.grants && h'.codeTicket == s.h.codeTicket
    requires h'.redeemer == s.h.redeemer[gid := r] && h'.codeSession == s.h.codeSession
    ensures CodesInv(Perform(s.st, s.now, UseGrant(gid)), h', s.now)
  {
    hide GrantOk, RestGrows;
    GrantsHaveTickets(s.st, s.h, s.now);
    forall id | id in h'.grants
      ensures GrantOk(h', s.now, id, h'.grants[id])
    {
      GrantStable(s.h, h', s.now, id);
    }
  }

  // ---- device grants ----

  ghost predicate SameDecisions(h: History, h': History) {
    && h'.devices == h.devices && h'.deviceTicket == h.deviceTicket && h'.approvals == h.approvals
    && h'.denied == h.denied && h'.devRedeemer == h.devRedeemer
  }

  lemma DevicesStable(st: Store, h: History, h': History)
    requires DevicesInv(st, h) && RestGrows(h, h') && SameDecisions(h, h')
    requires h'.devSession.Keys <= h'.devRedeemer.Keys
    ensures DevicesInv(st, h')
  {
    forall did | did in st.devices
      ensures DeviceOk(h', did, st.devices[did])
    {
      assert DeviceOk(h, did, st.devices[did]);
    }
  }

  // Every other row keeps its meaning when one row is decided.
  lemma OtherDevice(h: History, h': History, did: DeviceId, d: DeviceGrant)
    requires DeviceOk(h, did, d)
    requires did in h.devices && did in h'.devices && h'.devices[did] == h.devices[did]
    requires did in h'.approvals <==> did in h.approvals
    requires did in h.approvals ==> h'.approvals[did] == h.approvals[did]
    requires (did in h'.denied <==> did in h.denied) && (did in h'.devRedeemer <==> did in h.devRedeemer)
    ensures DeviceOk(h', did, d)
  {
  }

  ghost predicate Decides(w: Write) {
    w.ApproveDevice? || w.DenyDevice? || w.RedeemDevice?
  }

  lemma DecisionKeepsHistory(s: System, r: ReqId, ch: Choice, w: Write, h': History)
    requires Decides(w) && Answer(s.st, w) == Done
    requires DevicesInv(s.st, s.h) && Permitted(s, r, ch, w) && RestGrows(s.h, h')
    requires SameDecisions(RecordWrite(s.h, s.now, r, w), h') && h'.devSession == s.h.devSession
    ensures DeviceHistoryInv(h')
  {
    hide Permitted, DeviceHistoryInv;
    DecisionPermits(s, r, ch, w);
    assert DeviceOk(s.h, w.did, s.st.devices[w.did]);
    if w.ApproveDevice? { ApprovalKeepsHistory(s.h, h', w.did, Approval(w.uid, w.mfaVerified, w.mfaAt)); }
    else if w.DenyDevice? { DenialKeepsHistory(s.h, h', w.did); }
    else { RedemptionKeepsHistory(s.h, h', w.did, r); }
  }

  lemma ApprovalKeepsHistory(h: History, h': History, did: DeviceId, a: Approval)
    requires DeviceHistoryInv(h) && RestGrows(h, h') && did in h.devices && did !in h.denied
    requires a.mfaVerified == a.mfaAt.Some? && Justified(h, Some(a.uid), a.mfaAt) && Known(h, a.uid)
    requires h'.devices == h.devices && h'.deviceTicket == h.deviceTicket && h'.approvals == h.approvals[did := a]
      && h'.denied == h.denied
    requires h'.devRedeemer == h.devRedeemer && h'.devSession == h.devSession
    ensures DeviceHistoryInv(h')
  {
  }

  lemma DenialKeepsHistory(h: History, h': History, did: DeviceId)
    requires DeviceHistoryInv(h) && RestGrows(h, h') && did in h.devices && did !in h.approvals
    requires h'.devices == h.devices && h'.deviceTicket == h.deviceTicket && h'.approvals == h.approvals
      && h'.denied == h.denied + {did}
    requires h'.devRedeemer == h.devRedeemer && h'.devSession == h.devSession
    ensures DeviceHistoryInv(h')
  {
  }

  lemma RedemptionKeepsHistory(h: History, h': History, did: DeviceId, r: ReqId)
    requires DeviceHistoryInv(h) && RestGrows(h, h') && did in h.approvals
    requires h'.devices == h.devices && h'.deviceTicket == h.deviceTicket && h'.approvals == h.approvals
      && h'.denied == h.denied
    requires h'.devRedeemer == h.devRedeemer[did := r] && h'.devSession == h.devSession
    ensures DeviceHistoryInv(h')
  {
  }

  lemma DecisionPermits(s: System, r: ReqId, ch: Choice, w: Write)
    requires Permitted(s, r, ch, w)
    ensures w.ApproveDevice? ==>
      w.mfaVerified == w.mfaAt.Some? && Justified(s.h, Some(w.uid), w.mfaAt) && Known(s.h, w.uid)
    ensures w.RedeemDevice? ==> w.did in s.h.approvals
    ensures w.InsertDevice? ==>
      w.did == ch.id && w.device.code == ch.t1 && Accepted(s.h, w.ticket, w.device.client, w.device.scopes)
  {
    hide SourcePermitted, Justified, Accepted;
  }

  // The one row a decision moves.
  function Decided(d: DeviceGrant, w: Write): DeviceGrant
    requires Decides(w)
  {
    match w
    case ApproveDevice(_, uid, mfaVerified, mfaAt) =>
      d.(status := Approved, user := Some(uid), mfaVerified := mfaVerified, mfaAt := mfaAt)
    case DenyDevice(_) => d.(status := Denied)
    case RedeemDevice(_) => d.(status := Redeemed)
  }

  lemma DecisionMovesOneRow(st: Store, now: Time, w: Write)
    requires Decides(w) && Answer(st, w) == Done
    ensures w.did in st.devices && st.devices[w.did].status == (if w.RedeemDevice? then Approved else Pending)
    ensures Perform(st, now, w).devices == st.devices[w.did := Decided(st.devices[w.did], w)]
  {
  }

  // What the record keeps of a decision.
  lemma DecisionIsRecorded(h: History, now: Time, r: ReqId, w: Write)
    requires Decides(w)
    ensures SameDecisions(RecordWrite(h, now, r, w),
                          if w.ApproveDevice? then
                            h.(approvals := h.approvals[w.did := Approval(w.uid, w.mfaVerified, w.mfaAt)])
                          else if w.DenyDevice? then h.(denied := h.denied + {w.did})
                          else h.(devRedeemer := h.devRedeemer[w.did := r]))
  {
  }

  lemma DecidedRow(h: History, h': History, r: ReqId, w: Write, d: DeviceGrant)
    requires Decides(w) && DeviceOk(h, w.did, d) && d.status == (if w.RedeemDevice? then Approved else Pending)
    requires h'.devices == h.devices && h.devRedeemer.Keys <= h.approvals.Keys
    requires h'.approvals
      == if w.ApproveDevice? then h.approvals[w.did := Approval(w.uid, w.mfaVerified, w.mfaAt)] else h.approvals
    requires h'.denied == if w.DenyDevice? then h.denied + {w.did} else h.denied
    requires h'.devRedeemer == if w.RedeemDevice? then h.devRedeemer[w.did := r] else h.devRedeemer
    ensures DeviceOk(h', w.did, Decided(d, w))
  {
  }

  lemma DecidedIsOk(s: System, r: ReqId, w: Write, h': History)
    requires Decides(w) && Answer(s.st, w) == Done && DevicesInv(s.st, s.h)
    requires SameDecisions(RecordWrite(s.h, s.now, r, w), h')
    ensures DeviceOk(h', w.did, Perform(s.st, s.now, w).devices[w.did])
  {
    hide Perform, Answer, RecordWrite, DeviceOk, Decided;
    DecisionMovesOneRow(s.st, s.now, w);
    DecisionIsRecorded(s.h, s.now, r, w);
    DecidedRow(s.h, h', r, w, s.st.devices[w.did]);
  }

  lemma DecisionKeepsRows(s: System, r: ReqId, w: Write, h': History)
    requires Decides(w) && Answer(s.st, w) == Done && DevicesInv(s.st, s.h)
    requires SameDecisions(RecordWrite(s.h, s.now, r, w), h')
    ensures DeviceRowsInv(Perform(s.st, s.now, w), h')
  {
    var st' := Perform(s.st, s.now, w);
    DecidedIsOk(s, r, w, h');
    DecisionMovesOneRow(s.st, s.now, w);
    hide Perform, Answer, RecordWrite, SameDecisions;
    forall did | did in st'.devices && did != w.did
      ensures DeviceOk(h', did, st'.devices[did])
    {
      assert DeviceOk(s.h, did, s.st.devices[did]);
      OthersStayDecided(s.h, s.now, r, w, h', did, s.st.devices[did]);
    }
    hide DeviceOk;
  }

  lemma OthersStayDecided(h: History, now: Time, r: ReqId, w: Write, h': History, did: DeviceId, d: DeviceGrant)
    requires Decides(w) && did in h.devices && did != w.did && DeviceOk(h, did, d)
    requires SameDecisions(RecordWrite(h, now, r, w), h')
    ensures DeviceOk(h', did, d)
  {
    hide DeviceOk, RecordWrite;
    DecisionIsRecorded(h, now, r, w);
    OtherDevice(h, h', did, d);
  }

  lemma NewDeviceIsOk(s: System, r: ReqId, ch: Choice, w: Write, h': History)
    requires w.InsertDevice? && Answer(s.st, w) == Done && FreshInv(s.h) && FreshChoice(s.h, ch) && w.did == ch.id
    requires DeviceHistoryInv(s.h) && SameDecisions(RecordWrite(s.h, s.now, r, w), h')
    ensures DeviceOk(h', w.did, Perform(s.st, s.now, w).devices[w.did])
  {
    hide StoredDeviceScopes, TokensUnused, OwnersExist;
  }

  lemma CreationKeepsRows(s: System, r: ReqId, ch: Choice, w: Write, h': History)
    requires w.InsertDevice? && Answer(s.st, w) == Done && FreshInv(s.h) && FreshChoice(s.h, ch) && w.did == ch.id
    requires DevicesInv(s.st, s.h) && SameDecisions(RecordWrite(s.h, s.now, r, w), h')
    ensures DeviceRowsInv(Perform(s.st, s.now, w), h')
  {
    hide StoredDeviceScopes;
    var st' := Perform(s.st, s.now, w);
    NewDeviceIsOk(s, r, ch, w, h');
    forall did | did in st'.devices && did != w.did
      ensures DeviceOk(h', did, st'.devices[did])
    {
      OtherDevice(s.h, h', did, s.st.devices[did]);
    }
  }

  // The history of device grants after a new one.
  lemma NewDeviceHistory(h: History, h': History, did: DeviceId, d: DeviceGrant, ticket: TicketId)
    requires DeviceHistoryInv(h) && RestGrows(h, h') && did !in h.devices && d.code in h'.drawn
    requires Accepted(h, ticket, d.client, d.scopes)
    requires h'.devices == h.devices[did := d] && h'.deviceTicket == h.deviceTicket[did := ticket]
    requires h'.approvals == h.approvals && h'.denied == h.denied && h'.devRedeemer == h.devRedeemer
    requires h'.devSession == h.devSession
    ensures DeviceHistoryInv(h')
  {
    forall k | k in h'.approvals
      ensures h'.approvals[k].mfaVerified == h'.approvals[k].mfaAt.Some?
      ensures Justified(h', Some(h'.approvals[k].uid), h'.approvals[k].mfaAt) && Known(h', h'.approvals[k].uid)
    {
    }
  }

  lemma CreationKeepsHistory(s: System, r: ReqId, ch: Choice, w: Write, h': History)
    requires w.InsertDevice? && FreshInv(s.h) && FreshChoice(s.h, ch) && w.did == ch.id && w.device.code == ch.t1
    requires Accepted(s.h, w.ticket, w.device.client, w.device.scopes)
    requires DeviceHistoryInv(s.h) && RestGrows(s.h, h') && ch.t1 in h'.drawn
    requires SameDecisions(RecordWrite(s.h, s.now, r, w), h') && h'.devSession == s.h.devSession
    ensures DeviceHistoryInv(h')
  {
    hide DeviceHistoryInv, RestGrows, Accepted;
    NewDeviceHistory(s.h, h', w.did, w.device, w.ticket);
  }

  lemma CreationKeepsDevices(s: System, r: ReqId, ch: Choice, w: Write, h': History)
    requires w.InsertDevice? && Answer(s.st, w) == Done && FreshInv(s.h) && FreshChoice(s.h, ch)
    requires DevicesInv(s.st, s.h) && Permitted(s, r, ch, w) && RestGrows(s.h, h') && ch.t1 in h'.drawn
    requires SameDecisions(RecordWrite(s.h, s.now, r, w), h') && h'.devSession == s.h.devSession
    ensures DevicesInv(Perform(s.st, s.now, w), h')
  {
    hide Permitted, Answer, Perform, FreshInv, FreshChoice, DeviceRowsInv, DeviceHistoryInv, SameDecisions, Accepted;
    hide RestGrows;
    DecisionPermits(s, r, ch, w);
    CreationKeepsRows(s, r, ch, w, h');
    CreationKeepsHistory(s, r, ch, w, h');
  }

  ghost predicate Undecided(d: DeviceGrant, d': DeviceGrant) {
    || (d' == d.(user := d'.user) && d'.user in {d.user, None})
    || d' == d.(lastPolled := d'.lastPolled, interval := d'.interval)
  }

  lemma OthersLeaveDevices(st: Store, now: Time, w: Write)
    requires !w.InsertDevice? && !w.ApproveDevice? && !w.DenyDevice? && !w.RedeemDevice?
    requires !w.PollDevice? && !w.ReapDevices? && !w.DropUser? && !w.DropClient?
    ensures Perform(st, now, w).devices == st.devices
  {
    hide Answer, StoredDeviceScopes, SessionsOf, SessionsOfClient, ExpiredSessions;
  }

  lemma OthersLeaveUndecided(st: Store, now: Time, w: Write)
    requires !w.InsertDevice? && !w.ApproveDevice? && !w.DenyDevice? && !w.RedeemDevice?
    ensures var st' := Perform(st, now, w);
      forall did | did in st'.devices :: did in st.devices && Undecided(st.devices[did], st'.devices[did])
  {
    if w.PollDevice? || w.ReapDevices? || w.DropUser? || w.DropClient? {
      hide Answer, StoredDeviceScopes, SessionsOf, SessionsOfClient;
    } else {
      hide Perform;
      OthersLeaveDevices(st, now, w);
    }
  }

  // Polling, reaping and deleting accounts decide nothing.
  lemma OthersKeepDevices(st: Store, now: Time, w: Write, h: History)
    requires !w.InsertDevice? && !w.ApproveDevice? && !w.DenyDevice? && !w.RedeemDevice?
    requires DevicesInv(st, h)
    ensures DevicesInv(Perform(st, now, w), h)
  {
    var st' := Perform(st, now, w);
    hide Perform;
    OthersLeaveUndecided(st, now, w);
    forall did | did in st'.devices
      ensures DeviceOk(h, did, st'.devices[did])
    {
      assert DeviceOk(h, did, st.devices[did]);
    }
  }
}
