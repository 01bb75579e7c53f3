/** The invariants of living sessions survive every statement. */
module KeepSessions {
  import opened Model
  import opened Stores
  import opened Protocol
  import opened Invariant
  import opened Keep

  // ---- deleting sessions ----

  lemma RemovalKeepsLineage(st: Store, h: History, dead: set<SessionId>)
    requires LineageInv(st, h)
    ensures LineageInv(WithoutSessions(st, dead), h)
  {
  }

  lemma RemovalKeepsRotations(st: Store, h: History, dead: set<SessionId>)
    requires RotationsInv(st, h)
    ensures RotationsInv(WithoutSessions(st, dead), h)
  {
    var st' := WithoutSessions(st, dead);
    forall sid | sid in st'.sessions
      ensures sid in h.rotations && |RetiredOf(st', sid)| == h.rotations[sid]
    {
      assert RetiredOf(st', sid) == RetiredOf(st, sid);
    }
  }

  // ---- inserting a session ----

  lemma InsertKeepsLineage(st: Store, h: History, st': Store, h': History, sid: SessionId, row: Session)
    requires LineageInv(st, h) && FreshInv(h) && sid !in h.born && sid !in st.sessions
    requires row.refresh !in h.drawn && h.spent.Keys <= h.drawn
    requires st'.sessions == st.sessions[sid := row] && st'.retired == st.retired
    requires h'.spent == h.spent && h'.refreshOf == h.refreshOf[row.refresh := sid]
    ensures LineageInv(st', h')
  {
  }

  lemma InsertKeepsRotations(st: Store, h: History, st': Store, h': History, sid: SessionId, row: Session)
    requires RotationsInv(st, h) && LineageInv(st, h) && sid !in st.sessions
    requires st'.sessions == st.sessions[sid := row] && st'.retired == st.retired
    requires h'.rotations == h.rotations[sid := 0]
    ensures RotationsInv(st', h')
  {
    forall id | id in st'.sessions
      ensures id in h'.rotations && |RetiredOf(st', id)| == h'.rotations[id]
    {
      assert RetiredOf(st', id) == RetiredOf(st, id);
      if id == sid { assert RetiredOf(st, id) == {}; }
    }
  }

  // ---- rotating ----

  // A refresh token is current on no session but its own.
  ghost predicate OwnTokens(st: Store, h: History) {
    forall sid | sid in st.sessions ::
      st.sessions[sid].refresh in h.refreshOf && h.refreshOf[st.sessions[sid].refresh] == sid
  }

  lemma RotateKeepsSpent(st: Store, h: History, st': Store, h': History, sid: SessionId, row: Session, token: Token)
    requires LineageInv(st, h) && h.refreshOf.Keys <= h.drawn
    requires OwnTokens(st, h) && sid in st.sessions && st.sessions[sid].refresh == token
    requires row.refresh !in h.drawn
    requires st'.sessions == st.sessions[sid := row]
    requires st'.retired == if token in st.retired then st.retired else st.retired[token := sid]
    requires h'.spent == h.spent[token := row.refresh] && h'.refreshOf == h.refreshOf[row.refresh := sid]
    ensures forall t | t in h'.spent ::
      t in h'.refreshOf && h'.spent[t] in h'.refreshOf && h'.refreshOf[h'.spent[t]] == h'.refreshOf[t]
      && (h'.refreshOf[t] in st'.sessions ==> t in st'.retired)
  {
    assert token !in h.spent && token !in st.retired;
    forall t | t in h'.spent
      ensures t in h'.refreshOf && h'.spent[t] in h'.refreshOf && h'.refreshOf[h'.spent[t]] == h'.refreshOf[t]
      ensures h'.refreshOf[t] in st'.sessions ==> t in st'.retired
    {
      assert t == token || t in h.spent;
    }
  }

  lemma RotateKeepsCurrent(st: Store, h: History, st': Store, h': History, sid: SessionId, row: Session, token: Token)
    requires LineageInv(st, h) && h.refreshOf.Keys <= h.drawn
    requires OwnTokens(st, h) && sid in st.sessions && st.sessions[sid].refresh == token
    requires row.refresh !in h.drawn
    requires st'.sessions == st.sessions[sid := row]
    requires h'.spent == h.spent[token := row.refresh] && h'.refreshOf == h.refreshOf[row.refresh := sid]
    ensures forall id | id in st'.sessions :: st'.sessions[id].refresh !in h'.spent
    ensures forall t | t in h'.refreshOf && h'.refreshOf[t] in st'.sessions ::
      t in h'.spent || st'.sessions[h'.refreshOf[t]].refresh == t
  {
    forall t | t in h'.refreshOf && h'.refreshOf[t] in st'.sessions
      ensures t in h'.spent || st'.sessions[h'.refreshOf[t]].refresh == t
    {
      assert t == row.refresh || t in h.refreshOf;
    }
    forall id | id in st'.sessions
      ensures st'.sessions[id].refresh !in h'.spent
    {
      if id != sid { assert h.refreshOf[st.sessions[id].refresh] == id; }
    }
  }

  lemma RotateKeepsLineage(st: Store, h: History, st': Store, h': History, sid: SessionId, row: Session, token: Token)
    requires LineageInv(st, h) && h.refreshOf.Keys <= h.drawn
    requires OwnTokens(st, h) && sid in st.sessions && st.sessions[sid].refresh == token
    requires row.refresh !in h.drawn
    requires st'.sessions == st.sessions[sid := row]
    requires st'.retired == if token in st.retired then st.retired else st.retired[token := sid]
    requires h'.spent == h.spent[token := row.refresh] && h'.refreshOf == h.refreshOf[row.refresh := sid]
    ensures LineageInv(st', h')
  {
    RotateKeepsSpent(st, h, st', h', sid, row, token);
    RotateKeepsCurrent(st, h, st', h', sid, row, token);
    hide OwnTokens;
    assert token !in st.retired;
    forall t | t in st'.retired
      ensures st'.retired[t] in st'.sessions && t in h'.spent && t in h'.refreshOf && h'.refreshOf[t] == st'.retired[t]
    {
      assert t == token || t in st.retired;
    }
  }

  lemma RotateKeepsRotations(st: Store, h: History, st': Store, h': History, sid: SessionId, row: Session, token: Token)
    requires RotationsInv(st, h) && LineageInv(st, h)
    requires sid in st.sessions && st.sessions[sid].refresh == token && sid in h.rotations
    requires st'.sessions == st.sessions[sid := row]
    requires st'.retired == if token in st.retired then st.retired else st.retired[token := sid]
    requires h'.rotations == h.rotations[sid := h.rotations[sid] + 1]
    ensures RotationsInv(st', h')
  {
    assert token !in st.retired by { hide RotationsInv; }
    RetiredGains(st, st', sid, token);
    hide LineageInv, RetiredOf;
  }

  lemma RetiredGains(st: Store, st': Store, sid: SessionId, token: Token)
    requires token !in st.retired && st'.retired == st.retired[token := sid]
    ensures |RetiredOf(st', sid)| == |RetiredOf(st, sid)| + 1
    ensures forall id | id != sid :: RetiredOf(st', id) == RetiredOf(st, id)
  {
    assert RetiredOf(st', sid) == RetiredOf(st, sid) + {token};
    forall id | id != sid ensures RetiredOf(st', id) == RetiredOf(st, id) {}
  }

  // ---- anything that leaves the refresh tokens alone ----

  ghost predicate SameTokens(st: Store, st': Store) {
    && st'.retired == st.retired && st'.sessions.Keys == st.sessions.Keys
    && forall sid | sid in st.sessions :: st'.sessions[sid].refresh == st.sessions[sid].refresh
  }

  lemma SameTokensKeepLineage(st: Store, h: History, st': Store)
    requires LineageInv(st, h) && RotationsInv(st, h) && SameTokens(st, st')
    ensures LineageInv(st', h) && RotationsInv(st', h)
  {
    forall sid | sid in st'.sessions
      ensures sid in h.rotations && |RetiredOf(st', sid)| == h.rotations[sid]
    {
      assert RetiredOf(st', sid) == RetiredOf(st, sid);
    }
  }

  function Dead(st: Store, now: Time, w: Write): set<SessionId> {
    if w.DropSession? then {w.sid}
    else if w.DropUserSessions? then SessionsOf(st, w.uid)
    else if w.ReapSessions? then ExpiredSessions(st, now)
    else if w.DropUser? then SessionsOf(st, w.uid)
    else if w.DropClient? then SessionsOfClient(st, w.cid)
    else {}
  }

  predicate Deletes(w: Write) {
    w.DropSession? || w.DropUserSessions? || w.ReapSessions? || w.DropUser? || w.DropClient?
  }

  predicate Touches(w: Write) {
    w.InsertSession? || w.Rotate?
  }

  // The session tables after a deletion.
  lemma DeletionRemoves(st: Store, now: Time, w: Write)
    requires Deletes(w)
    ensures var st' := Perform(st, now, w); var gone := WithoutSessions(st, Dead(st, now, w));
      st'.sessions == gone.sessions && st'.retired == gone.retired
  {
  }

  lemma OthersLeaveSessions(st: Store, now: Time, w: Write)
    requires !Deletes(w) && !Touches(w) && !w.Extend? && !w.MarkMfa?
    ensures var st' := Perform(st, now, w); st'.sessions == st.sessions && st'.retired == st.retired
  {
    hide Answer, WithSession, WithoutSessions, StoredDeviceScopes;
  }

  lemma OthersKeepTokens(st: Store, now: Time, w: Write)
    requires !Deletes(w) && !Touches(w)
    ensures SameTokens(st, Perform(st, now, w))
  {
    if !w.Extend? && !w.MarkMfa? {
      hide Perform;
      OthersLeaveSessions(st, now, w);
    } else {
      hide Answer;
    }
  }

  lemma LineageReadsSessions(st: Store, st': Store, h: History, h': History)
    requires st'.sessions == st.sessions && st'.retired == st.retired
    requires h'.spent == h.spent && h'.refreshOf == h.refreshOf && h'.rotations == h.rotations
    requires LineageInv(st, h) && RotationsInv(st, h)
    ensures LineageInv(st', h') && RotationsInv(st', h')
  {
    forall sid | sid in st'.sessions
      ensures sid in h'.rotations && |RetiredOf(st', sid)| == h'.rotations[sid]
    {
      assert RetiredOf(st', sid) == RetiredOf(st, sid);
    }
  }

  lemma PerformKeepsLineage(st: Store, now: Time, h: History, w: Write)
    requires LineageInv(st, h) && RotationsInv(st, h) && !Touches(w)
    ensures LineageInv(Perform(st, now, w), h) && RotationsInv(Perform(st, now, w), h)
  {
    hide LineageInv, RotationsInv, Perform;
    if Deletes(w) {
      DeletionRemoves(st, now, w);
      RemovalKeepsLineage(st, h, Dead(st, now, w));
      RemovalKeepsRotations(st, h, Dead(st, now, w));
      LineageReadsSessions(WithoutSessions(st, Dead(st, now, w)), Perform(st, now, w), h, h);
    } else {
      OthersKeepTokens(st, now, w);
      SameTokensKeepLineage(st, h, Perform(st, now, w));
    }
  }

  // ---- the rows themselves ----

  lemma SessionStable(h: History, h': History, now: Time, now': Time, sid: SessionId, row: Session)
    requires SessionOk(h, now, sid, row) && SessionsGrow(h, h') && RestGrows(h, h') && now <= now'
    ensures SessionOk(h', now', sid, row)
  {
  }

  lemma SessionsStable(st: Store, h: History, h': History, now: Time, now': Time)
    requires SessionsInv(st, h, now) && SessionsGrow(h, h') && RestGrows(h, h') && now <= now'
    ensures SessionsInv(st, h', now')
  {
    forall sid | sid in st.sessions
      ensures SessionOk(h', now', sid, st.sessions[sid])
    {
      SessionStable(h, h', now, now', sid, st.sessions[sid]);
    }
  }

  lemma NoRowWritten(st: Store, now: Time, w: Write)
    requires !w.InsertSession? && !w.Rotate? && !w.Extend? && !w.MarkMfa?
    ensures var st' := Perform(st, now, w);
      st'.sessions.Keys <= st.sessions.Keys && forall sid | sid in st'.sessions :: st'.sessions[sid] == st.sessions[sid]
  {
    hide Perform;
    if Deletes(w) { DeletionRemoves(st, now, w); } else { OthersLeaveSessions(st, now, w); }
  }

  lemma InsertKeepsSessions(s: System, r: ReqId, ch: Choice, o: Out, h': History)
    requires o.write.InsertSession? && Answer(s.st, o.write) == Done
    requires SessionsInv(s.st, h', s.now) && Permitted(s, r, ch, o.write) && Vouched(h', o.write)
    requires h'.born == s.h.born[ch.id := Birth(o.write.row.(createdAt := s.now), o.write.source)]
    requires h'.accessOf == s.h.accessOf[ch.t1 := ch.id] && h'.refreshOf == s.h.refreshOf[ch.t2 := ch.id]
    ensures SessionsInv(Perform(s.st, s.now, o.write), h', s.now)
  {
    hide SourcePermitted, TokensUnused;
    var st' := Perform(s.st, s.now, o.write);
    assert SessionOk(h', s.now, ch.id, st'.sessions[ch.id]);
    hide SessionOk, Permitted, Vouched;
  }

  lemma RotateKeepsSessions(s: System, r: ReqId, ch: Choice, w: Write, h': History)
    requires w.Rotate? && Answer(s.st, w) == Done
    requires SessionsInv(s.st, h', s.now) && Permitted(s, r, ch, w) && Extends(s.h.born, h'.born)
    requires h'.accessOf == s.h.accessOf[ch.t1 := w.sid] && h'.refreshOf == s.h.refreshOf[ch.t2 := w.sid]
    ensures SessionsInv(Perform(s.st, s.now, w), h', s.now)
  {
    hide TokensUnused;
    var st' := Perform(s.st, s.now, w);
    assert SessionOk(h', s.now, w.sid, s.st.sessions[w.sid]);
    assert SessionOk(h', s.now, w.sid, st'.sessions[w.sid]);
  }

  lemma TouchKeepsSessions(s: System, r: ReqId, ch: Choice, w: Write, h': History)
    requires w.Extend? || w.MarkMfa?
    requires SessionsInv(s.st, h', s.now) && Permitted(s, r, ch, w) && Vouched(h', w) && Extends(s.h.born, h'.born)
    ensures SessionsInv(Perform(s.st, s.now, w), h', s.now)
  {
    hide SourcePermitted;
    var st' := Perform(s.st, s.now, w);
    if w.sid in s.st.sessions {
      assert SessionOk(h', s.now, w.sid, s.st.sessions[w.sid]);
      assert SessionOk(h', s.now, w.sid, st'.sessions[w.sid]);
    }
    hide SessionOk, Permitted, Vouched;
  }
}
