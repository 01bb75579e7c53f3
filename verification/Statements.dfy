/**
 What the statements that remove rows leave behind, row by row: the three
 reapers, and the deletes with what goes along by cascade.
 */
module Statements {
  import opened Model
  import opened Stores

  // Only session rows went, and the retired tokens of exactly those.
  ghost predicate OnlySessionsWent(st: Store, st': Store) {
    && st' == st.(sessions := st'.sessions, retired := st'.retired)
    && (forall sid | sid in st'.sessions :: sid in st.sessions && st'.sessions[sid] == st.sessions[sid])
    && (forall t :: t in st'.retired <==>
          t in st.retired && !(st.retired[t] in st.sessions && st.retired[t] !in st'.sessions))
    && (forall t | t in st'.retired :: st'.retired[t] == st.retired[t])
  }

  // Every retired token belongs to a session on the books.
  ghost predicate RetiredHaveSessions(st: Store) {
    forall t | t in st.retired :: st.retired[t] in st.sessions
  }

  /** A session goes with its refresh token's time, a code and a device grant with their own. */
  lemma ReapersGoByTheClock(st: Store, now: Time)
    requires RetiredHaveSessions(st)
    ensures var st' := Perform(st, now, ReapSessions);
      OnlySessionsWent(st, st')
      && forall sid :: sid in st'.sessions <==> sid in st.sessions && st.sessions[sid].refreshExp >= now
    ensures var st' := Perform(st, now, ReapGrants);
      && st' == st.(grants := st'.grants)
      && (forall gid :: gid in st'.grants <==> gid in st.grants && st.grants[gid].expiresAt >= now)
      && (forall gid | gid in st'.grants :: st'.grants[gid] == st.grants[gid])
    ensures var st' := Perform(st, now, ReapDevices);
      && st' == st.(devices := st'.devices)
      && (forall did :: did in st'.devices <==> did in st.devices && st.devices[did].expiresAt >= now)
      && (forall did | did in st'.devices :: st'.devices[did] == st.devices[did])
  {
    hide TokensUnused, OwnersExist, WithoutSessions, Perform;
    Removes(st, now, 0, 0);
  }

  lemma Removes(st: Store, now: Time, sid: SessionId, uid: UserId)
    ensures Perform(st, now, ReapSessions) == WithoutSessions(st, ExpiredSessions(st, now))
    ensures Perform(st, now, ReapGrants)
      == st.(grants := map gid | gid in st.grants && now <= st.grants[gid].expiresAt :: st.grants[gid])
    ensures Perform(st, now, ReapDevices)
      == st.(devices := map did | did in st.devices && now <= st.devices[did].expiresAt :: st.devices[did])
    ensures Perform(st, now, DropSession(sid)) == WithoutSessions(st, {sid})
    ensures Perform(st, now, DropUserSessions(uid)) == WithoutSessions(st, SessionsOf(st, uid))
  {
    hide *;
    ReapsSessions(st, now);
    ReapsCodes(st, now);
    ReapsDevices(st, now);
    DropsOneSession(st, now, sid);
    DropsUserSessions(st, now, uid);
  }

  lemma ReapsSessions(st: Store, now: Time)
    ensures Perform(st, now, ReapSessions) == WithoutSessions(st, ExpiredSessions(st, now))
  {
    hide WithoutSessions, ExpiredSessions;
  }

  lemma ReapsCodes(st: Store, now: Time)
    ensures Perform(st, now, ReapGrants)
      == st.(grants := map gid | gid in st.grants && now <= st.grants[gid].expiresAt :: st.grants[gid])
  {
    hide WithoutSessions;
  }

  lemma ReapsDevices(st: Store, now: Time)
    ensures Perform(st, now, ReapDevices)
      == st.(devices := map did | did in st.devices && now <= st.devices[did].expiresAt :: st.devices[did])
  {
    hide WithoutSessions;
  }

  lemma DropsUserSessions(st: Store, now: Time, uid: UserId)
    ensures Perform(st, now, DropUserSessions(uid)) == WithoutSessions(st, SessionsOf(st, uid))
  {
    hide WithoutSessions, SessionsOf;
  }

  lemma SessionsGo(st: Store, now: Time, sid: SessionId, uid: UserId)
    requires RetiredHaveSessions(st)
    ensures var st' := Perform(st, now, DropSession(sid));
      OnlySessionsWent(st, st') && forall id :: id in st'.sessions <==> id in st.sessions && id != sid
    ensures var st' := Perform(st, now, DropUserSessions(uid));
      OnlySessionsWent(st, st')
      && forall id :: id in st'.sessions <==> id in st.sessions && st.sessions[id].user != Some(uid)
  {
    hide TokensUnused, OwnersExist, WithoutSessions, Perform;
    Removes(st, now, sid, uid);
  }

  /**
   An account goes with its sessions and codes; the device grants it approved
   stay and lose their approver; nothing else moves.
   */
  lemma AccountGoes(st: Store, now: Time, uid: UserId)
    requires RetiredHaveSessions(st)
    ensures var st' := Perform(st, now, DropUser(uid));
      && OnlySessionsWent(st, st'.(users := st.users, grants := st.grants, devices := st.devices))
      && (forall id :: id in st'.sessions <==> id in st.sessions && st.sessions[id].user != Some(uid))
      && (forall id :: id in st'.users <==> id in st.users && id != uid)
      && (forall id | id in st'.users :: st'.users[id] == st.users[id])
      && (forall id :: id in st'.grants <==> id in st.grants && st.grants[id].user != uid)
      && (forall id | id in st'.grants :: st'.grants[id] == st.grants[id])
      && st'.devices.Keys == st.devices.Keys
      && (forall id | id in st'.devices :: st'.devices[id].user != Some(uid)
            && st.devices[id] in {st'.devices[id], st'.devices[id].(user := Some(uid))})
  {
    hide TokensUnused, OwnersExist, WithoutSessions;
    DropsOneUser(st, now, uid);
  }

  /** A client goes with everything that names it, and nothing else moves. */
  lemma ClientGoes(st: Store, now: Time, cid: ClientId)
    requires RetiredHaveSessions(st)
    ensures var st' := Perform(st, now, DropClient(cid));
      && OnlySessionsWent(st, st'.(clients := st.clients, grants := st.grants, devices := st.devices))
      && (forall id :: id in st'.sessions <==> id in st.sessions && st.sessions[id].client != cid)
      && (forall id :: id in st'.clients <==> id in st.clients && id != cid)
      && (forall id | id in st'.clients :: st'.clients[id] == st.clients[id])
      && (forall id :: id in st'.grants <==> id in st.grants && st.grants[id].client != cid)
      && (forall id | id in st'.grants :: st'.grants[id] == st.grants[id])
      && (forall id :: id in st'.devices <==> id in st.devices && st.devices[id].client != cid)
      && (forall id | id in st'.devices :: st'.devices[id] == st.devices[id])
  {
    hide TokensUnused, OwnersExist, WithoutSessions;
    DropsOneClient(st, now, cid);
  }

  lemma DropsOneClient(st: Store, now: Time, cid: ClientId)
    ensures Perform(st, now, DropClient(cid)) == WithoutSessions(st, SessionsOfClient(st, cid)).(
        clients := st.clients - {cid},
        grants := map gid | gid in st.grants && st.grants[gid].client != cid :: st.grants[gid],
        devices := map did | did in st.devices && st.devices[did].client != cid :: st.devices[did])
  {
    hide WithoutSessions, SessionsOfClient;
  }

  /** A registration that is taken back leaves no trace. */
  lemma TakenBack(st: Store, now: Time, uid: UserId, user: User)
    requires uid !in st.users && RetiredHaveSessions(st)
    requires (forall id | id in st.sessions :: st.sessions[id].user != Some(uid))
    requires (forall id | id in st.grants :: st.grants[id].user != uid)
    requires (forall id | id in st.devices :: st.devices[id].user != Some(uid))
    ensures Perform(st.(users := st.users[uid := user]), now, DropUser(uid)) == st
  {
    hide Perform;
    var st1 := st.(users := st.users[uid := user]);
    AccountGoes(st1, now, uid);
    var st' := Perform(st1, now, DropUser(uid));
    assert st'.users == st.users && st'.grants == st.grants;
    assert st'.devices == st.devices by {
      forall id | id in st.devices ensures st'.devices[id] == st.devices[id] {}
    }
    assert st'.sessions == st.sessions && st'.retired == st.retired;
  }

  /** A device grant without an interval gets five seconds; whatever it says, it starts out pending and unpolled. */
  lemma DeviceStarts(st: Store, now: Time, did: DeviceId, d: DeviceGrant, ticket: TicketId)
    ensures var w := InsertDevice(did, d, ticket);
      Answer(st, w) == Done ==>
        && did in Perform(st, now, w).devices
        && var row := Perform(st, now, w).devices[did];
        && row.interval == (if d.interval > 0 then d.interval else 5)
        && row.status == Pending && row.user == None && !row.mfaVerified && row.mfaAt == None && row.lastPolled == None
        && row.code == d.code && row.userCode == d.userCode && row.client == d.client && row.expiresAt == d.expiresAt
  {
    hide Answer, StoredDeviceScopes;
  }
}
