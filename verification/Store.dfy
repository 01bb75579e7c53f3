/**
 The tables behind the token, code and device protocols, and what each SQL
 statement of the postgres store does to them.

 Store is the value of the tables between two statements. A statement is a
 Write; Perform and Answer say what it changes and what it reports. The class
 Database holds the tables as fields and executes the same statements.
 */
module Stores {
  import opened Model

  datatype Store = Store(
    users: map<UserId, User>,
    clients: map<ClientId, Client>,
    sessions: map<SessionId, Session>,
    retired: map<Token, SessionId>,
    grants: map<GrantId, Grant>,
    devices: map<DeviceId, DeviceGrant>)

  // What a session was minted from, and the scope check (ticket) behind a row.
  // They annotate an insert and are not stored.
  datatype Source = ByPortal | ByClient(ticket: TicketId) | ByCode(grant: GrantId) | ByDevice(device: DeviceId)

  datatype Write =
    | Nothing
    | InsertSession(sid: SessionId, row: Session, source: Source)
    | Rotate(sid: SessionId, spent: Token, access: Token, refresh: Token, accessExp: Time, refreshExp: Time)
    | Extend(sid: SessionId, accessExp: Time)
    | MarkMfa(sid: SessionId, when: Time)
    | DropSession(sid: SessionId)
    | DropUserSessions(uid: UserId)
    | ReapSessions
    | InsertGrant(gid: GrantId, grant: Grant, ticket: TicketId)
    | UseGrant(gid: GrantId)
    | ReapGrants
    | InsertDevice(did: DeviceId, device: DeviceGrant, ticket: TicketId)
    | ApproveDevice(did: DeviceId, uid: UserId, mfaVerified: bool, mfaAt: Option<Time>)
    | DenyDevice(did: DeviceId)
    | RedeemDevice(did: DeviceId)
    | PollDevice(did: DeviceId, at: Time, interval: nat)
    | ReapDevices
    | InsertUser(uid: UserId, user: User)
    | PromoteUser(uid: UserId)
    | ResetPassword(uid: UserId)
    | SetUser(uid: UserId, user: User)
    | DropUser(uid: UserId)
    | SetClient(cid: ClientId, client: Client)
    | DropClient(cid: ClientId)

  // Done: the statement took effect. NoRow: store.ErrNotFound. Refused: any
  // other error, such as a violated constraint.
  datatype Sql = Done | NoRow | Refused

  // ---- reads ----

  ghost function FindByRefresh(st: Store, token: Token): (r: Option<SessionId>)
    ensures r.Some? ==> r.value in st.sessions && st.sessions[r.value].refresh == token
    ensures r.None? ==> forall sid | sid in st.sessions :: st.sessions[sid].refresh != token
  {
    if exists sid :: sid in st.sessions && st.sessions[sid].refresh == token then
      var sid :| sid in st.sessions && st.sessions[sid].refresh == token;
      Some(sid)
    else None
  }

  ghost function FindByAccess(st: Store, token: Token): (r: Option<SessionId>)
    ensures r.Some? ==> r.value in st.sessions && st.sessions[r.value].access == token
    ensures r.None? ==> forall sid | sid in st.sessions :: st.sessions[sid].access != token
  {
    if exists sid :: sid in st.sessions && st.sessions[sid].access == token then
      var sid :| sid in st.sessions && st.sessions[sid].access == token;
      Some(sid)
    else None
  }

  ghost function FindByRetired(st: Store, token: Token): Option<SessionId> {
    if token in st.retired && st.retired[token] in st.sessions then Some(st.retired[token]) else None
  }

  ghost function FindGrant(st: Store, code: Token): (r: Option<GrantId>)
    ensures r.Some? ==> r.value in st.grants && st.grants[r.value].code == code
    ensures r.None? ==> forall gid | gid in st.grants :: st.grants[gid].code != code
  {
    if exists gid :: gid in st.grants && st.grants[gid].code == code then
      var gid :| gid in st.grants && st.grants[gid].code == code;
      Some(gid)
    else None
  }

  ghost function FindDevice(st: Store, code: Token): (r: Option<DeviceId>)
    ensures r.Some? ==> r.value in st.devices && st.devices[r.value].code == code
    ensures r.None? ==> forall did | did in st.devices :: st.devices[did].code != code
  {
    if exists did :: did in st.devices && st.devices[did].code == code then
      var did :| did in st.devices && st.devices[did].code == code;
      Some(did)
    else None
  }

  // ---- writes ----

  // The UNIQUE columns of sessions, for a row other than `except`.
  predicate TokensUnused(st: Store, access: Token, refresh: Token, except: Option<SessionId>) {
    forall sid | sid in st.sessions && except != Some(sid) ::
      st.sessions[sid].access != access && st.sessions[sid].refresh != refresh
  }

  predicate OwnersExist(st: Store, user: Option<UserId>, client: ClientId) {
    (user.Some? ==> user.value in st.users) && client in st.clients
  }

  function Answer(st: Store, w: Write): Sql {
    if w.InsertSession? then
      if w.sid !in st.sessions && OwnersExist(st, w.row.user, w.row.client)
        && TokensUnused(st, w.row.access, w.row.refresh, None) then Done else Refused
    else if w.Rotate? then
      if w.sid !in st.sessions || st.sessions[w.sid].refresh != w.spent then NoRow
      else if TokensUnused(st, w.access, w.refresh, Some(w.sid)) then Done
      else Refused
    else if w.InsertGrant? then
      if w.gid !in st.grants && OwnersExist(st, Some(w.grant.user), w.grant.client)
        && (forall id | id in st.grants :: st.grants[id].code != w.grant.code) then Done else Refused
    else if w.UseGrant? then if w.gid in st.grants && !st.grants[w.gid].used then Done else NoRow
    else if w.InsertDevice? then
      if w.did !in st.devices && OwnersExist(st, None, w.device.client)
        && (forall id | id in st.devices ::
              st.devices[id].code != w.device.code && st.devices[id].userCode != w.device.userCode)
      then Done else Refused
    else if w.ApproveDevice? then
      if w.did !in st.devices || st.devices[w.did].status != Pending then NoRow
      else if w.uid in st.users then Done
      else Refused
    else if w.DenyDevice? then if w.did in st.devices && st.devices[w.did].status == Pending then Done else NoRow
    else if w.RedeemDevice? then if w.did in st.devices && st.devices[w.did].status == Approved then Done else NoRow
    else if w.InsertUser? then if w.uid !in st.users then Done else Refused
    else Done
  }

  // Deleting sessions takes their retired tokens with them (ON DELETE CASCADE).
  function WithoutSessions(st: Store, dead: set<SessionId>): (st': Store)
    ensures st'.sessions.Keys == st.sessions.Keys - dead
    ensures forall sid | sid in st'.sessions :: st'.sessions[sid] == st.sessions[sid]
    ensures forall t :: t in st'.retired <==> t in st.retired && st.retired[t] !in dead
    ensures forall t | t in st'.retired :: st'.retired[t] == st.retired[t]
    ensures st' == st.(sessions := st'.sessions, retired := st'.retired)
  {
    st.(sessions := st.sessions - dead,
        retired := map t | t in st.retired && st.retired[t] !in dead :: st.retired[t])
  }

  function SessionsOf(st: Store, uid: UserId): set<SessionId> {
    set sid | sid in st.sessions && st.sessions[sid].user == Some(uid)
  }

  function SessionsOfClient(st: Store, cid: ClientId): set<SessionId> {
    set sid | sid in st.sessions && st.sessions[sid].client == cid
  }

  function ExpiredSessions(st: Store, now: Time): set<SessionId> {
    set sid | sid in st.sessions && st.sessions[sid].refreshExp < now
  }

  function WithSession(st: Store, sid: SessionId, row: Session): Store {
    st.(sessions := st.sessions[sid := row])
  }

  function WithDevice(st: Store, did: DeviceId, row: DeviceGrant): Store {
    st.(devices := st.devices[did := row])
  }

  // The tables after statement w, executed at time now.
  function Perform(st: Store, now: Time, w: Write): Store {
    if Answer(st, w) != Done then st else
    match w
    case Nothing => st
    case InsertSession(sid, row, _) => WithSession(st, sid, row.(createdAt := now))
    case Rotate(sid, spent, access, refresh, accessExp, refreshExp) =>
      var row := st.sessions[sid].(access := access, refresh := refresh,
                                   accessExp := accessExp, refreshExp := refreshExp);
      WithSession(st, sid, row).(retired := if spent in st.retired then st.retired else st.retired[spent := sid])
    case Extend(sid, accessExp) =>
      if sid in st.sessions then WithSession(st, sid, st.sessions[sid].(accessExp := accessExp)) else st
    case MarkMfa(sid, when) =>
      if sid in st.sessions
      then WithSession(st, sid, st.sessions[sid].(mfaVerified := true, mfaAt := Some(when))) else st
    case DropSession(sid) => WithoutSessions(st, {sid})
    case DropUserSessions(uid) => WithoutSessions(st, SessionsOf(st, uid))
    case ReapSessions => WithoutSessions(st, ExpiredSessions(st, now))
    case InsertGrant(gid, g, _) => st.(grants := st.grants[gid := g.(used := false)])
    case UseGrant(gid) => st.(grants := st.grants[gid := st.grants[gid].(used := true)])
    case ReapGrants => st.(grants := map gid | gid in st.grants && now <= st.grants[gid].expiresAt :: st.grants[gid])
    case InsertDevice(did, d, _) =>
      WithDevice(st, did, d.(scopes := StoredDeviceScopes(d.scopes), status := Pending, user := None,
                             mfaVerified := false, mfaAt := None, lastPolled := None,
                             interval := if d.interval == 0 then DEVICE_INTERVAL else d.interval))
    case ApproveDevice(did, uid, mfaVerified, mfaAt) =>
      WithDevice(st, did, st.devices[did].(status := Approved, user := Some(uid),
                                           mfaVerified := mfaVerified, mfaAt := mfaAt))
    case DenyDevice(did) => WithDevice(st, did, st.devices[did].(status := Denied))
    case RedeemDevice(did) => WithDevice(st, did, st.devices[did].(status := Redeemed))
    case PollDevice(did, at, interval) =>
      if did in st.devices
      then WithDevice(st, did, st.devices[did].(lastPolled := Some(at), interval := interval)) else st
    case ReapDevices =>
      st.(devices := map did | did in st.devices && now <= st.devices[did].expiresAt :: st.devices[did])
    case InsertUser(uid, user) => st.(users := st.users[uid := user])
    case PromoteUser(uid) =>
      if uid in st.users then st.(users := st.users[uid := st.users[uid].(isAdmin := true)]) else st
    case ResetPassword(uid) =>
      if uid in st.users then st.(users := st.users[uid := st.users[uid].(mustChange := false)]) else st
    case SetUser(uid, user) => st.(users := st.users[uid := user])
    case DropUser(uid) =>
      WithoutSessions(st, SessionsOf(st, uid)).(
        users := st.users - {uid},
        grants := map gid | gid in st.grants && st.grants[gid].user != uid :: st.grants[gid],
        devices := map did | did in st.devices ::
          if st.devices[did].user == Some(uid) then st.devices[did].(user := None) else st.devices[did])
    case SetClient(cid, client) => st.(clients := st.clients[cid := client])
    case DropClient(cid) =>
      WithoutSessions(st, SessionsOfClient(st, cid)).(
        clients := st.clients - {cid},
        grants := map gid | gid in st.grants && st.grants[gid].client != cid :: st.grants[gid],
        devices := map did | did in st.devices && st.devices[did].client != cid :: st.devices[did])
  }

  // Perform, one statement at a time.

  lemma DropsOneSession(st: Store, now: Time, sid: SessionId)
    ensures Perform(st, now, DropSession(sid)) == WithoutSessions(st, {sid})
  {
    hide WithoutSessions;
  }

  lemma DropsOneUser(st: Store, now: Time, uid: UserId)
    ensures Perform(st, now, DropUser(uid)) == WithoutSessions(st, SessionsOf(st, uid)).(
        users := st.users - {uid},
        grants := map gid | gid in st.grants && st.grants[gid].user != uid :: st.grants[gid],
        devices := map did | did in st.devices ::
          if st.devices[did].user == Some(uid) then st.devices[did].(user := None) else st.devices[did])
  {
    hide WithoutSessions, SessionsOf;
  }

  lemma DoesNothing(st: Store, now: Time)
    ensures Perform(st, now, Nothing) == st
  {
  }
}
