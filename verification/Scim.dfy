/**
 Pushing users and groups to a SCIM server (internal/provision/scim and
 internal/provision/sync.go), with external_ids as a cache of record ids.

 The server is abstract: POST on an e-mail it already knows returns the
 existing record unchanged. Requests and cache writes succeed.
 */
module Scim {
  import opened Model

  type RecordId = nat
  type GroupId = nat

  datatype Person = Person(id: UserId, email: string, active: bool, name: string)
  datatype Record = Record(email: string, externalId: Option<UserId>, active: bool, name: string)
  datatype Group = Group(id: GroupId, displayName: string, members: seq<UserId>)
  datatype RemoteGroup = RemoteGroup(displayName: string, members: seq<RecordId>)

  // The server and the cache.
  datatype Remote = Remote(records: map<RecordId, Record>, groups: map<GroupId, RemoteGroup>, next: RecordId)
  datatype State = State(cache: map<UserId, RecordId>, remote: Remote)

  // ---- the server ----

  // One record per e-mail; ids are handed out in order.
  ghost predicate Consistent(r: Remote) {
    && (forall id | id in r.records :: id < r.next)
    && (forall a, b | a in r.records && b in r.records && a != b :: r.records[a].email != r.records[b].email)
  }

  ghost function FindByEmail(r: Remote, email: string): (id: Option<RecordId>)
    ensures id.Some? ==> id.value in r.records && r.records[id.value].email == email
    ensures id.None? ==> forall i | i in r.records :: r.records[i].email != email
  {
    if exists i :: i in r.records && r.records[i].email == email then
      var i :| i in r.records && r.records[i].email == email;
      Some(i)
    else None
  }

  function RecordOf(u: Person): Record {
    Record(u.email, Some(u.id), u.active, u.name)
  }

  ghost function Posted(r: Remote, u: Person): (Remote, RecordId) {
    match FindByEmail(r, u.email)
    case Some(id) => (r, id)
    case None => (r.(records := r.records[r.next := RecordOf(u)], next := r.next + 1), r.next)
  }

  function Patched(r: Remote, id: RecordId, u: Person): Remote {
    if id !in r.records then r
    else r.(records := r.records[id := r.records[id].(externalId := Some(u.id), active := u.active, name := u.name)])
  }

  class Directory {
    var records: map<RecordId, Record>
    var groups: map<GroupId, RemoteGroup>
    var next: RecordId

    ghost function View(): Remote
      reads this
    {
      Remote(records, groups, next)
    }

    ghost predicate Valid()
      reads this
    {
      Consistent(View())
    }

    constructor ()
      ensures Valid() && View() == Remote(map[], map[], 0)
    {
      records, groups, next := map[], map[], 0;
    }

    method PostUser(u: Person) returns (id: RecordId)
      requires Valid()
      modifies this
      ensures Valid() && (View(), id) == Posted(old(View()), u)
    {
      if known :| known in records && records[known].email == u.email { return known; }
      id := next;
      records, next := records[id := RecordOf(u)], next + 1;
    }

    method PatchUser(id: RecordId, u: Person) returns (found: bool)
      requires Valid()
      modifies this
      ensures Valid() && View() == Patched(old(View()), id, u) && found == (id in old(records))
    {
      found := id in records;
      if found {
        records := records[id := records[id].(externalId := Some(u.id), active := u.active, name := u.name)];
      }
    }

    method PatchActive(id: RecordId, active: bool) returns (found: bool)
      requires Valid()
      modifies `records
      ensures Valid() && found == (id in old(records))
      ensures records == if found then old(records)[id := old(records)[id].(active := active)] else old(records)
    {
      found := id in records;
      if found { records := records[id := records[id].(active := active)]; }
    }

    method FindUserByExternalId(uid: UserId) returns (id: Option<RecordId>)
      ensures id.Some? ==> id.value in records && records[id.value].externalId == Some(uid)
      ensures id.None? ==> forall i | i in records :: records[i].externalId != Some(uid)
    {
      if i :| i in records && records[i].externalId == Some(uid) { id := Some(i); } else { id := None; }
    }

    method PutGroup(id: GroupId, g: RemoteGroup) returns (found: bool)
      requires Valid()
      modifies this
      ensures Valid() && found == (id in old(groups))
      ensures View() == if found then old(View()).(groups := old(groups)[id := g]) else old(View())
    {
      found := id in groups;
      if found { groups := groups[id := g]; }
    }

    method PostGroup(id: GroupId, g: RemoteGroup)
      requires Valid()
      modifies this
      ensures Valid() && View() == old(View()).(groups := old(groups)[id := g])
    {
      groups := groups[id := g];
    }
  }

  // ---- users ----

  ghost function Created(st: State, u: Person): State {
    var (remote, id) := Posted(st.remote, u);
    State(st.cache[u.id := id], remote)
  }

  // A cached id that the server still knows is patched; else the user is
  // created, or met under its e-mail.
  ghost function Upserted(st: State, u: Person): State {
    if u.id in st.cache && st.cache[u.id] in st.remote.records
    then st.(remote := Patched(st.remote, st.cache[u.id], u))
    else Created(st, u)
  }

  ghost function UsersSynced(st: State, users: seq<Person>): State {
    if users == [] then st else Upserted(UsersSynced(st, users[..|users| - 1]), users[|users| - 1])
  }

  // ---- groups ----

  // The members of g that are users, in the order of g.
  function KnownMembers(users: seq<Person>, members: seq<UserId>): (ids: seq<UserId>)
    ensures forall uid | uid in ids :: exists u :: u in users && u.id == uid
  {
    if members == [] then []
    else
      var rest := KnownMembers(users, members[..|members| - 1]);
      var last := members[|members| - 1];
      if exists u | u in users :: u.id == last then rest + [last] else rest
  }

  function Refs(cache: map<UserId, RecordId>, ids: seq<UserId>): (refs: seq<RecordId>)
    requires forall id | id in ids :: id in cache
    ensures |refs| == |ids| && forall i | 0 <= i < |ids| :: refs[i] == cache[ids[i]]
  {
    seq(|ids|, i requires 0 <= i < |ids| => assert ids[i] in ids; cache[ids[i]])
  }

  ghost predicate AllCached(st: State, users: seq<Person>) {
    forall u | u in users :: u.id in st.cache
  }

  ghost function GroupsSynced(st: State, users: seq<Person>, groups: seq<Group>): (st': State)
    requires AllCached(st, users)
    ensures st'.cache == st.cache && st'.remote == st.remote.(groups := st'.remote.groups)
  {
    if groups == [] then st
    else
      var g := groups[|groups| - 1];
      var before := GroupsSynced(st, users, groups[..|groups| - 1]);
      var refs := Refs(st.cache, KnownMembers(users, g.members));
      before.(remote := before.remote.(groups := before.remote.groups[g.id := RemoteGroup(g.displayName, refs)]))
  }

  class Client {
    const remote: Directory
    var cache: map<UserId, RecordId>

    ghost function View(): State
      reads this, remote
    {
      State(cache, remote.View())
    }

    constructor (remote: Directory)
      ensures this.remote == remote && cache == map[]
    {
      this.remote := remote;
      cache := map[];
    }

    method CreateUser(u: Person) returns (id: RecordId)
      requires remote.Valid()
      modifies this, remote
      ensures remote.Valid() && View() == Created(old(View()), u) && cache[u.id] == id
    {
      id := remote.PostUser(u);
      cache := cache[u.id := id];
    }

    method UpsertUser(u: Person) returns (id: RecordId)
      requires remote.Valid()
      modifies this, remote
      ensures remote.Valid() && View() == Upserted(old(View()), u)
      ensures u.id in cache && cache[u.id] == id
    {
      if u.id in cache {
        id := cache[u.id];
        var found := remote.PatchUser(id, u);
        if found { return; }
        cache := cache - {u.id};
      }
      id := CreateUser(u);
      assert forall i | i in old(cache) && i != u.id :: i in cache;
      assert cache == old(cache)[u.id := id];
    }

    // A lookup on the server fills the cache.
    method ResolveUserId(u: Person) returns (id: Option<RecordId>)
      modifies `cache
      ensures u.id in old(cache) ==> id == Some(old(cache)[u.id]) && cache == old(cache)
      ensures u.id !in old(cache) && id.Some? ==>
        && cache == old(cache)[u.id := id.value] && id.value in remote.records
        && remote.records[id.value].externalId == Some(u.id)
      ensures id.None? ==> cache == old(cache)
      ensures id.None? ==> forall i | i in remote.records :: remote.records[i].externalId != Some(u.id)
    {
      if u.id in cache { return Some(cache[u.id]); }
      id := remote.FindUserByExternalId(u.id);
      if id.Some? { cache := cache[u.id := id.value]; }
    }

    // setUserActive. A stale cache entry is dropped and nothing else happens:
    // the user's record, if the server has one under another id, is left alone.
    method SetUserActive(u: Person, active: bool)
      requires remote.Valid()
      modifies this, remote`records
      ensures remote.Valid()
      ensures u.id in old(cache) && old(cache)[u.id] in old(remote.records) ==>
        cache == old(cache)
        && remote.records == old(remote.records)[cache[u.id] := old(remote.records)[cache[u.id]].(active := active)]
      ensures u.id in old(cache) && old(cache)[u.id] !in old(remote.records) ==>
        cache == old(cache) - {u.id} && remote.records == old(remote.records)
      ensures u.id !in old(cache) ==>
        if exists i :: i in old(remote.records) && old(remote.records)[i].externalId == Some(u.id)
        then u.id in cache && cache[u.id] in remote.records && remote.records[cache[u.id]].active == active
        else cache == old(cache) && remote.records == old(remote.records)
    {
      var id := ResolveUserId(u);
      if id.None? { return; }
      var found := remote.PatchActive(id.value, active);
      if !found { cache := cache - {u.id}; }
    }

    // Every member ends up cached; those that were keep their ids.
    method ResolveGroupMembers(members: seq<Person>) returns (out: seq<RecordId>)
      requires remote.Valid()
      modifies this, remote
      ensures remote.Valid() && remote.groups == old(remote.groups)
      ensures |out| == |members|
      ensures forall i | 0 <= i < |members| :: members[i].id in cache && out[i] == cache[members[i].id]
      ensures forall uid | uid in old(cache) :: uid in cache && cache[uid] == old(cache)[uid]
      ensures (forall m | m in members :: m.id in old(cache)) ==> View() == old(View())
    {
      out := [];
      var i := 0;
      while i < |members|
        invariant 0 <= i == |out| <= |members|
        invariant remote.Valid() && remote.groups == old(remote.groups)
        invariant forall j | 0 <= j < i :: members[j].id in cache && out[j] == cache[members[j].id]
        invariant forall uid | uid in old(cache) :: uid in cache && cache[uid] == old(cache)[uid]
        invariant (forall m | m in members :: m.id in old(cache)) ==> View() == old(View())
      {
        var m := members[i];
        var id := ResolveUserId(m);
        if id.None? {
          var made := CreateUser(m);
          id := Some(made);
        }
        out := out + [id.value];
        i := i + 1;
      }
    }

    method UpsertGroup(g: Group, members: seq<Person>)
      requires remote.Valid()
      modifies this, remote
      ensures remote.Valid()
      ensures forall m | m in members :: m.id in cache
      ensures g.id in remote.groups && remote.groups[g.id].displayName == g.displayName
      ensures |remote.groups[g.id].members| == |members|
      ensures forall i | 0 <= i < |members| :: remote.groups[g.id].members[i] == cache[members[i].id]
      ensures remote.groups == old(remote.groups)[g.id := remote.groups[g.id]]
      ensures (forall m | m in members :: m.id in old(cache)) ==>
        cache == old(cache) && remote.View() == old(remote.View()).(groups := remote.groups)
    {
      var refs := ResolveGroupMembers(members);
      var body := RemoteGroup(g.displayName, refs);
      var found := remote.PutGroup(g.id, body);
      if !found { remote.PostGroup(g.id, body); }
    }

    // provision.SyncAll: every user, then every group; what succeeded and failed.
    method SyncAll(users: seq<Person>, groups: seq<Group>) returns (userOk: nat, userFail: nat, groupOk: nat,
                   groupFail: nat)
      requires remote.Valid()
      modifies this, remote
      ensures remote.Valid()
      ensures AllCached(UsersSynced(old(View()), users), users)
      ensures View() == GroupsSynced(UsersSynced(old(View()), users), users, groups)
      ensures userOk == |users| && groupOk == |groups| && userFail == 0 && groupFail == 0
    {
      userOk, userFail, groupOk, groupFail := 0, 0, 0, 0;
      var k := 0;
      while k < |users|
        invariant 0 <= k == userOk <= |users| && remote.Valid()
        invariant View() == UsersSynced(old(View()), users[..k])
        invariant forall i | 0 <= i < k :: users[i].id in cache
      {
        var _ := UpsertUser(users[k]);
        assert users[..k + 1][..k] == users[..k];
        userOk := userOk + 1;
        k := k + 1;
      }
      assert users[..k] == users;
      ghost var st := View();
      assert AllCached(st, users);
      var n := 0;
      while n < |groups|
        invariant 0 <= n == groupOk <= |groups| && remote.Valid() && cache == st.cache
        invariant View() == GroupsSynced(st, users, groups[..n])
      {
        SyncGroup(st, users, groups, n);
        groupOk := groupOk + 1;
        n := n + 1;
      }
      assert groups[..n] == groups;
    }

    method SyncGroup(ghost st: State, users: seq<Person>, groups: seq<Group>, n: nat)
      requires remote.Valid() && n < |groups| && AllCached(st, users) && cache == st.cache
      requires View() == GroupsSynced(st, users, groups[..n])
      modifies this, remote
      ensures remote.Valid() && cache == st.cache && View() == GroupsSynced(st, users, groups[..n + 1])
    {
      var g := groups[n];
      var members := MembersOf(users, g.members);
      ghost var ids := KnownMembers(users, g.members);
      UpsertGroup(g, members);
      assert groups[..n + 1][..n] == groups[..n];
      assert remote.groups[g.id].members == Refs(st.cache, ids);
    }

    // The users of a membership list that are known, through a table by id.
    method MembersOf(users: seq<Person>, ids: seq<UserId>) returns (members: seq<Person>)
      ensures |members| == |KnownMembers(users, ids)|
      ensures forall i | 0 <= i < |members| :: members[i] in users && members[i].id == KnownMembers(users, ids)[i]
    {
      var usersById: map<UserId, Person> := map[];
      var k := 0;
      while k < |users|
        invariant 0 <= k <= |users|
        invariant forall uid | uid in usersById :: usersById[uid] in users && usersById[uid].id == uid
        invariant forall i | 0 <= i < k :: users[i].id in usersById
      {
        usersById := usersById[users[k].id := users[k]];
        k := k + 1;
      }
      members := [];
      var i := 0;
      while i < |ids|
        invariant 0 <= i <= |ids|
        invariant |members| == |KnownMembers(users, ids[..i])|
        invariant forall j | 0 <= j < |members| ::
          members[j] in users && members[j].id == KnownMembers(users, ids[..i])[j]
      {
        assert ids[..i + 1][..i] == ids[..i];
        if ids[i] in usersById { members := members + [usersById[ids[i]]]; }
        i := i + 1;
      }
      assert ids[..i] == ids;
    }
  }
}
