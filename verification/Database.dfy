/**
 The postgres store: the tables as fields, one method per SQL statement.

 Every statement is proved to do to the tables what Perform says and to report
 what Answer says, and to keep the constraints of the schema.
 */
module Databases {
  import opened Model
  import opened Stores

  class Database {
    var users: map<UserId, User>
    var clients: map<ClientId, Client>
    var sessions: map<SessionId, Session>
    var retired: map<Token, SessionId>
    var grants: map<GrantId, Grant>
    var devices: map<DeviceId, DeviceGrant>

    ghost function View(): Store
      reads this
    {
      Store(users, clients, sessions, retired, grants, devices)
    }

    // UNIQUE and REFERENCES.
    ghost predicate Valid()
      reads this
    {
      Constraints(View())
    }

    constructor (users: map<UserId, User>, clients: map<ClientId, Client>)
      ensures Valid() && View() == Store(users, clients, map[], map[], map[], map[])
    {
      this.users, this.clients := users, clients;
      sessions, retired, grants, devices := map[], map[], map[], map[];
    }

    // ---- sessions (postgres_sessions.go) ----

    method GetSessionByRefreshToken(token: Token) returns (r: Option<SessionId>)
      requires Valid()
      ensures r == FindByRefresh(View(), token)
    {
      if sid :| sid in sessions && sessions[sid].refresh == token { r := Some(sid); } else { r := None; }
    }

    method GetSessionByAccessToken(token: Token) returns (r: Option<SessionId>)
      requires Valid()
      ensures r == FindByAccess(View(), token)
    {
      if sid :| sid in sessions && sessions[sid].access == token { r := Some(sid); } else { r := None; }
    }

    method GetSessionByRetiredRefreshToken(token: Token) returns (r: Option<SessionId>)
      ensures r == FindByRetired(View(), token)
    {
      r := None;
      if token in retired && retired[token] in sessions { r := Some(retired[token]); }
    }

    method CreateSession(sid: SessionId, row: Session, ghost source: Source, now: Time) returns (r: Sql)
      requires Valid()
      modifies `sessions
      ensures Valid() && r == Answer(old(View()), InsertSession(sid, row, source))
      ensures View() == Perform(old(View()), now, InsertSession(sid, row, source))
    {
      if sid in sessions || (row.user.Some? && row.user.value !in users) || row.client !in clients
        || exists id :: id in sessions && (sessions[id].access == row.access || sessions[id].refresh == row.refresh)
      {
        return Refused;
      }
      sessions := sessions[sid := row.(createdAt := now)];
      r := Done;
    }

    // One transaction: the guarded UPDATE, then the retired token.
    method RotateRefreshToken(sid: SessionId, spent: Token, access: Token, refresh: Token,
                              accessExp: Time, refreshExp: Time, ghost now: Time) returns (r: Sql)
      requires Valid()
      modifies `sessions, `retired
      ensures var w := Rotate(sid, spent, access, refresh, accessExp, refreshExp);
        Valid() && r == Answer(old(View()), w) && View() == Perform(old(View()), now, w)
    {
      if sid !in sessions || sessions[sid].refresh != spent { return NoRow; }
      if exists id ::
          id in sessions && id != sid && (sessions[id].access == access || sessions[id].refresh == refresh) {
        return Refused;
      }
      sessions := sessions[sid := sessions[sid].(access := access, refresh := refresh,
                                                 accessExp := accessExp, refreshExp := refreshExp)];
      if spent !in retired { retired := retired[spent := sid]; }
      r := Done;
    }

    method ExtendSessionExpiry(sid: SessionId, accessExp: Time, ghost now: Time)
      requires Valid()
      modifies `sessions
      ensures Valid() && View() == Perform(old(View()), now, Extend(sid, accessExp))
    {
      if sid in sessions { sessions := sessions[sid := sessions[sid].(accessExp := accessExp)]; }
    }

    method MarkSessionMfa(sid: SessionId, when: Time, ghost now: Time)
      requires Valid()
      modifies `sessions
      ensures Valid() && View() == Perform(old(View()), now, MarkMfa(sid, when))
    {
      if sid in sessions { sessions := sessions[sid := sessions[sid].(mfaVerified := true, mfaAt := Some(when))]; }
    }

    // The rows of retired_refresh_tokens go with their session.
    method DeleteSession(sid: SessionId, ghost now: Time)
      requires Valid()
      modifies `sessions, `retired
      ensures Valid() && View() == Perform(old(View()), now, DropSession(sid))
    {
      hide Perform, Constraints, WithoutSessions;
      ghost var gone := WithoutSessions(View(), {sid});
      DropsOneSession(View(), now, sid);
      RemovalConstrained(View(), {sid});
      sessions := sessions - {sid};
      retired := map t | t in retired && retired[t] != sid :: retired[t];
      assert sessions == gone.sessions && retired == gone.retired;
    }

    method DeleteExpiredSessions(now: Time)
      requires Valid()
      modifies `sessions, `retired
      ensures Valid() && View() == Perform(old(View()), now, ReapSessions)
    {
      var dead := set sid | sid in sessions && sessions[sid].refreshExp < now;
      retired := map t | t in retired && retired[t] !in dead :: retired[t];
      sessions := sessions - dead;
    }

    // ---- users (postgres_users.go) ----

    method CreateUser(uid: UserId, user: User, ghost now: Time) returns (r: Sql)
      requires Valid()
      modifies `users
      ensures Valid() && r == Answer(old(View()), InsertUser(uid, user))
      ensures View() == Perform(old(View()), now, InsertUser(uid, user))
    {
      if uid in users { return Refused; }
      users := users[uid := user];
      r := Done;
    }

    method SetUserAdmin(uid: UserId, ghost now: Time)
      requires Valid()
      modifies `users
      ensures Valid() && View() == Perform(old(View()), now, PromoteUser(uid))
    {
      if uid in users { users := users[uid := users[uid].(isAdmin := true)]; }
    }

    // Every new password takes a pending rotation off.
    method UpdateUserPassword(uid: UserId, ghost now: Time)
      requires Valid()
      modifies `users
      ensures Valid() && View() == Perform(old(View()), now, ResetPassword(uid))
    {
      if uid in users { users := users[uid := users[uid].(mustChange := false)]; }
    }

    // Sessions and codes go with their user, a device grant loses its approver.
    method DeleteUser(uid: UserId, ghost now: Time)
      requires Valid()
      modifies this
      ensures Valid() && View() == Perform(old(View()), now, DropUser(uid))
    {
      hide Constraints, Perform;
      WithoutUserIs(View(), now, uid);
      var dead := set sid | sid in sessions && sessions[sid].user == Some(uid);
      var kept := map t | t in retired && retired[t] !in dead :: retired[t];
      var codes := map gid | gid in grants && grants[gid].user != uid :: grants[gid];
      var orphans := map did | did in devices :: Orphaned(devices[did], uid);
      users, sessions, retired, grants, devices := users - {uid}, sessions - dead, kept, codes, orphans;
    }

    // ---- grants (postgres_grants.go) ----

    method GetGrantByCode(code: Token) returns (r: Option<GrantId>)
      requires Valid()
      ensures r == FindGrant(View(), code)
    {
      if gid :| gid in grants && grants[gid].code == code { r := Some(gid); } else { r := None; }
    }

    method CreateGrant(gid: GrantId, g: Grant, ghost ticket: TicketId, ghost now: Time) returns (r: Sql)
      requires Valid()
      modifies `grants
      ensures Valid() && r == Answer(old(View()), InsertGrant(gid, g, ticket))
      ensures View() == Perform(old(View()), now, InsertGrant(gid, g, ticket))
    {
      if gid in grants || g.user !in users || g.client !in clients
        || exists id :: id in grants && grants[id].code == g.code
      {
        return Refused;
      }
      grants := grants[gid := g.(used := false)];
      r := Done;
    }

    method MarkGrantUsed(gid: GrantId, ghost now: Time) returns (r: Sql)
      requires Valid()
      modifies `grants
      ensures Valid() && r == Answer(old(View()), UseGrant(gid)) && View() == Perform(old(View()), now, UseGrant(gid))
    {
      if gid !in grants || grants[gid].used { return NoRow; }
      grants := grants[gid := grants[gid].(used := true)];
      r := Done;
    }

    // ---- device grants (postgres_device_grants.go) ----

    method GetDeviceGrantByCode(code: Token) returns (r: Option<DeviceId>)
      requires Valid()
      ensures r == FindDevice(View(), code)
    {
      if did :| did in devices && devices[did].code == code { r := Some(did); } else { r := None; }
    }

    method CreateDeviceGrant(did: DeviceId, d: DeviceGrant, ghost ticket: TicketId, ghost now: Time) returns (r: Sql)
      requires Valid()
      modifies `devices
      ensures Valid() && r == Answer(old(View()), InsertDevice(did, d, ticket))
      ensures View() == Perform(old(View()), now, InsertDevice(did, d, ticket))
    {
      if did in devices || d.client !in clients
        || exists id :: id in devices && (devices[id].code == d.code || devices[id].userCode == d.userCode)
      {
        return Refused;
      }
      var interval := if d.interval == 0 then DEVICE_INTERVAL else d.interval;
      devices := devices[did := DeviceGrant(d.code, d.userCode, d.client, StoredDeviceScopes(d.scopes), Pending,
                                            None, false, None, interval, None, d.expiresAt)];
      r := Done;
    }

    method MarkDeviceGrantApproved(did: DeviceId, uid: UserId, mfaVerified: bool, mfaAt: Option<Time>, ghost now: Time)
      returns (r: Sql)
      requires Valid()
      modifies `devices
      ensures var w := ApproveDevice(did, uid, mfaVerified, mfaAt);
        Valid() && r == Answer(old(View()), w) && View() == Perform(old(View()), now, w)
    {
      if did !in devices || devices[did].status != Pending { return NoRow; }
      if uid !in users { return Refused; }
      devices := devices[did := devices[did].(status := Approved, user := Some(uid),
                                              mfaVerified := mfaVerified, mfaAt := mfaAt)];
      r := Done;
    }

    method MarkDeviceGrantDenied(did: DeviceId, ghost now: Time) returns (r: Sql)
      requires Valid()
      modifies `devices
      ensures Valid() && r == Answer(old(View()), DenyDevice(did))
        && View() == Perform(old(View()), now, DenyDevice(did))
    {
      if did !in devices || devices[did].status != Pending { return NoRow; }
      devices := devices[did := devices[did].(status := Denied)];
      r := Done;
    }

    method MarkDeviceGrantRedeemed(did: DeviceId, ghost now: Time) returns (r: Sql)
      requires Valid()
      modifies `devices
      ensures Valid() && r == Answer(old(View()), RedeemDevice(did))
        && View() == Perform(old(View()), now, RedeemDevice(did))
    {
      if did !in devices || devices[did].status != Approved { return NoRow; }
      devices := devices[did := devices[did].(status := Redeemed)];
      r := Done;
    }

    method UpdateDeviceGrantPoll(did: DeviceId, at: Time, interval: nat, ghost now: Time)
      requires Valid()
      modifies `devices
      ensures Valid() && View() == Perform(old(View()), now, PollDevice(did, at, interval))
    {
      if did in devices { devices := devices[did := devices[did].(lastPolled := Some(at), interval := interval)]; }
    }

    method DeleteExpiredDeviceGrants(now: Time) returns (n: nat)
      requires Valid()
      modifies `devices
      ensures Valid() && View() == Perform(old(View()), now, ReapDevices)
      ensures n == |set did | did in old(devices) && did !in devices|
    {
      var dead := set did | did in devices && devices[did].expiresAt < now;
      ghost var before := devices;
      devices := map did | did in devices && did !in dead :: devices[did];
      assert devices == map did | did in before && now <= before[did].expiresAt :: before[did];
      assert dead == set did | did in before && did !in devices;
      n := |dead|;
    }
  }

  ghost predicate Constraints(st: Store) {
    && (forall a, b | a in st.sessions && b in st.sessions && a != b ::
          st.sessions[a].access != st.sessions[b].access && st.sessions[a].refresh != st.sessions[b].refresh)
    && (forall a, b | a in st.grants && b in st.grants && a != b :: st.grants[a].code != st.grants[b].code)
    && (forall a, b | a in st.devices && b in st.devices && a != b ::
          st.devices[a].code != st.devices[b].code && st.devices[a].userCode != st.devices[b].userCode)
    && (forall t | t in st.retired :: st.retired[t] in st.sessions)
  }

  lemma RemovalConstrained(st: Store, dead: set<SessionId>)
    requires Constraints(st)
    ensures Constraints(WithoutSessions(st, dead))
  {
  }

  function Orphaned(d: DeviceGrant, uid: UserId): DeviceGrant {
    if d.user == Some(uid) then d.(user := None) else d
  }

  lemma WithoutUserConstrained(st: Store, now: Time, uid: UserId)
    requires Constraints(st)
    ensures Constraints(Perform(st, now, DropUser(uid)))
  {
    hide Perform;
    DropsOneUser(st, now, uid);
  }

  lemma WithoutUserIs(st: Store, now: Time, uid: UserId)
    requires Constraints(st)
    ensures Constraints(Perform(st, now, DropUser(uid)))
    ensures var dead := set sid | sid in st.sessions && st.sessions[sid].user == Some(uid);
      Perform(st, now, DropUser(uid)) == Store(
        st.users - {uid}, st.clients, st.sessions - dead,
        map t | t in st.retired && st.retired[t] !in dead :: st.retired[t],
        map gid | gid in st.grants && st.grants[gid].user != uid :: st.grants[gid],
        map did | did in st.devices :: Orphaned(st.devices[did], uid))
  {
    WithoutUserConstrained(st, now, uid);
    hide Constraints, Perform;
    DropsOneUser(st, now, uid);
    assert SessionsOf(st, uid) == set sid | sid in st.sessions && st.sessions[sid].user == Some(uid);
  }
}
