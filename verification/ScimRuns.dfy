/** How many passes of SyncAll it takes for a SCIM server to agree. */
module ScimRuns {
  import opened Model
  import opened Scim

  // The primary key and the UNIQUE e-mail of users.
  ghost predicate Distinct(users: seq<Person>) {
    forall i, j | 0 <= i < j < |users| :: users[i].id != users[j].id && users[i].email != users[j].email
  }

  // Every cached id was issued by the server, and is stale or names the record
  // with the user's e-mail.
  ghost predicate Admissible(st: State, users: seq<Person>) {
    && Consistent(st.remote)
    && (forall uid | uid in st.cache :: st.cache[uid] < st.remote.next)
    && forall u | u in users && Known(st, u) :: st.remote.records[st.cache[u.id]].email == u.email
  }

  // u's cached id is a record the server has.
  ghost predicate Known(st: State, u: Person) {
    u.id in st.cache && st.cache[u.id] in st.remote.records
  }

  ghost predicate Linked(st: State, u: Person) {
    Known(st, u) && st.remote.records[st.cache[u.id]].email == u.email
  }

  // The record says what u says.
  predicate Says(record: Record, u: Person) {
    && record.email == u.email && record.externalId == Some(u.id)
    && record.active == u.active && record.name == u.name
  }

  lemma SaysAll(record: Record, u: Person)
    ensures Says(record, u) <==> record == RecordOf(u)
  {
  }

  // The record u is linked to says what u says.
  ghost predicate Current(st: State, u: Person) {
    Known(st, u) && Says(st.remote.records[st.cache[u.id]], u)
  }

  ghost predicate AllLinked(st: State, users: seq<Person>) {
    forall u | u in users :: Linked(st, u)
  }

  ghost predicate AllCurrent(st: State, users: seq<Person>) {
    forall u | u in users :: Current(st, u)
  }

  // ---- one user ----

  // What the server and the cache have under u's e-mail and id.
  ghost predicate SameFor(st: State, st': State, u: Person) {
    && (u.id in st.cache <==> u.id in st'.cache) && (u.id in st.cache ==> st'.cache[u.id] == st.cache[u.id])
    && (forall id | id in st.remote.records && st.remote.records[id].email == u.email ::
          id in st'.remote.records && st'.remote.records[id] == st.remote.records[id])
    && (forall id | id in st'.remote.records && st'.remote.records[id].email == u.email :: id in st.remote.records)
    && (forall id | id in st.remote.records ::
          id in st'.remote.records && st'.remote.records[id].email == st.remote.records[id].email)
  }

  lemma UpsertKeepsAdmissible(st: State, u: Person, users: seq<Person>)
    requires Admissible(st, users) && u in users && Distinct(users)
    ensures Admissible(Upserted(st, u), users)
  {
    var st' := Upserted(st, u);
    forall v | v in users && Known(st', v)
      ensures st'.remote.records[st'.cache[v.id]].email == v.email
    {
      if v.id == u.id { SameUser(users, u, v); }
    }
  }

  lemma SameUser(users: seq<Person>, u: Person, v: Person)
    requires Distinct(users) && u in users && v in users && (u.id == v.id || u.email == v.email)
    ensures u == v
  {
    var i :| 0 <= i < |users| && users[i] == u;
    var j :| 0 <= j < |users| && users[j] == v;
    assert i == j;
  }

  lemma UpsertSparesOthers(st: State, u: Person, other: Person, users: seq<Person>)
    requires Admissible(st, users) && u in users && u.id != other.id && u.email != other.email
    ensures SameFor(st, Upserted(st, u), other)
  {
    assert Known(st, u) ==> st.remote.records[st.cache[u.id]].email == u.email;
  }

  lemma UpsertLinks(st: State, u: Person, users: seq<Person>)
    requires Admissible(st, users) && u in users
    ensures Linked(Upserted(st, u), u)
    ensures Current(Upserted(st, u), u) <==> Ready(st, u)
    ensures Known(st, u) ==> Upserted(st, u).cache == st.cache
  {
    assert Known(st, u) ==> st.remote.records[st.cache[u.id]].email == u.email;
  }

  // One pass makes u's record say what u says: not when u is not linked yet
  // and its e-mail has a record that says something else.
  ghost predicate Ready(st: State, u: Person) {
    || Known(st, u)
    || forall id | id in st.remote.records && st.remote.records[id].email == u.email ::
         Says(st.remote.records[id], u)
  }

  lemma SameForKeeps(st: State, st': State, u: Person, users: seq<Person>)
    requires SameFor(st, st', u) && u in users && Admissible(st, users) && Admissible(st', users)
    ensures Ready(st, u) <==> Ready(st', u)
    ensures Linked(st, u) <==> Linked(st', u)
    ensures Current(st, u) <==> Current(st', u)
  {
    if Known(st, u) { assert st.remote.records[st.cache[u.id]].email == u.email; }
    if Known(st', u) { assert st'.remote.records[st'.cache[u.id]].email == u.email; }
  }

  // ---- a pass over the users ----

  lemma {:induction false} PrefixAdmissible(st: State, users: seq<Person>, k: nat)
    requires Admissible(st, users) && Distinct(users) && k <= |users|
    ensures Admissible(UsersSynced(st, users[..k]), users)
    decreases k
  {
    if k > 0 {
      PrefixAdmissible(st, users, k - 1);
      assert users[..k][..k - 1] == users[..k - 1];
      UpsertKeepsAdmissible(UsersSynced(st, users[..k - 1]), users[k - 1], users);
    }
  }

  // From state m to state k of the pass nobody touches user i, if i is not in between.
  lemma {:induction false} OthersSpare(st: State, users: seq<Person>, m: nat, k: nat, i: nat)
    requires Admissible(st, users) && Distinct(users) && m <= k <= |users| && i < |users| && !(m <= i < k)
    ensures SameFor(UsersSynced(st, users[..m]), UsersSynced(st, users[..k]), users[i])
    decreases k
  {
    if m < k {
      OthersSpare(st, users, m, k - 1, i);
      PrefixAdmissible(st, users, k - 1);
      assert users[..k][..k - 1] == users[..k - 1];
      UpsertSparesOthers(UsersSynced(st, users[..k - 1]), users[k - 1], users[i], users);
    }
  }

  /**
   After one pass every user is linked to the record with its e-mail, and that
   record says what the user says exactly for the users that were ready.
   */
  lemma {:induction false} OnePass(st: State, users: seq<Person>, i: nat)
    requires Admissible(st, users) && Distinct(users) && i < |users|
    ensures Linked(UsersSynced(st, users), users[i])
    ensures Current(UsersSynced(st, users), users[i]) <==> Ready(st, users[i])
  {
    hide SameFor, Ready, Linked, Current;
    var u := users[i];
    var before, after, end := UsersSynced(st, users[..i]), UsersSynced(st, users[..i + 1]), UsersSynced(st, users);
    assert users[..0] == [] && users[..i + 1][..i] == users[..i] && users[..|users|] == users;
    PrefixAdmissible(st, users, i);
    PrefixAdmissible(st, users, i + 1);
    PrefixAdmissible(st, users, |users|);
    OthersSpare(st, users, 0, i, i);
    SameForKeeps(st, before, u, users);
    UpsertLinks(before, u, users);
    OthersSpare(st, users, i + 1, |users|, i);
    SameForKeeps(after, end, u, users);
  }

  lemma {:induction false} PassLinks(st: State, users: seq<Person>)
    requires Admissible(st, users) && Distinct(users)
    ensures Admissible(UsersSynced(st, users), users) && AllLinked(UsersSynced(st, users), users)
  {
    PrefixAdmissible(st, users, |users|);
    assert users[..|users|] == users;
    forall u | u in users ensures Linked(UsersSynced(st, users), u) {
      var i :| 0 <= i < |users| && users[i] == u;
      OnePass(st, users, i);
    }
  }

  lemma {:induction false} LinkedPassIsCurrent(st: State, users: seq<Person>)
    requires Admissible(st, users) && Distinct(users) && AllLinked(st, users)
    ensures AllCurrent(UsersSynced(st, users), users)
  {
    forall u | u in users ensures Current(UsersSynced(st, users), u) {
      var i :| 0 <= i < |users| && users[i] == u;
      OnePass(st, users, i);
    }
  }

  lemma {:induction false} CurrentPassIsIdle(st: State, users: seq<Person>)
    requires AllCurrent(st, users)
    ensures UsersSynced(st, users) == st
    decreases |users|
  {
    if users != [] {
      var k := |users| - 1;
      CurrentPassIsIdle(st, users[..k]);
      assert Current(st, users[k]);
      SaysAll(st.remote.records[st.cache[users[k].id]], users[k]);
      assert st.remote.records[st.cache[users[k].id] := RecordOf(users[k])] == st.remote.records;
    }
  }

  lemma {:induction false} SyncedAreCached(st: State, users: seq<Person>)
    ensures AllCached(UsersSynced(st, users), users)
    ensures forall uid | uid in st.cache :: uid in UsersSynced(st, users).cache
    decreases |users|
  {
    if users != [] {
      var k := |users| - 1;
      SyncedAreCached(st, users[..k]);
      assert users == users[..k] + [users[k]];
    }
  }

  // ---- a whole pass ----

  ghost function Pass(st: State, users: seq<Person>, groups: seq<Group>): State {
    SyncedAreCached(st, users);
    GroupsSynced(UsersSynced(st, users), users, groups)
  }

  ghost predicate DistinctGroups(groups: seq<Group>) {
    forall i, j | 0 <= i < j < |groups| :: groups[i].id != groups[j].id
  }

  // The group on the server is what one pass makes of it.
  ghost predicate GroupSet(st: State, users: seq<Person>, g: Group) {
    AllCached(st, users) && g.id in st.remote.groups
    && st.remote.groups[g.id] == RemoteGroup(g.displayName, Refs(st.cache, KnownMembers(users, g.members)))
  }

  ghost predicate GroupsSet(st: State, users: seq<Person>, groups: seq<Group>) {
    forall g | g in groups :: GroupSet(st, users, g)
  }

  predicate Listed(users: seq<Person>, uid: UserId) {
    exists u :: u in users && u.id == uid
  }

  // The places of the members that are listed users, in order and all of them.
  ghost predicate Places(users: seq<Person>, members: seq<UserId>, at: seq<nat>) {
    && (forall i | 0 <= i < |at| :: at[i] < |members| && Listed(users, members[at[i]]))
    && (forall i, j | 0 <= i < j < |at| :: at[i] < at[j])
    && (forall k: nat | k < |members| && Listed(users, members[k]) :: k in at)
  }

  // The group has its name and, for each place at which its membership has a
  // listed user, that user's cached id, in the same order and nothing else.
  ghost predicate GroupRight(st: State, users: seq<Person>, g: Group) {
    && AllCached(st, users) && g.id in st.remote.groups && st.remote.groups[g.id].displayName == g.displayName
    && exists at :: Places(users, g.members, at) && Mirrors(st, g, at)
  }

  ghost predicate Mirrors(st: State, g: Group, at: seq<nat>)
    requires g.id in st.remote.groups
  {
    var refs := st.remote.groups[g.id].members;
    && |refs| == |at|
    && forall i | 0 <= i < |at| ::
         && at[i] < |g.members| && g.members[at[i]] in st.cache
         && refs[i] == st.cache[g.members[at[i]]]
  }

  lemma {:induction false} PlacesStep(users: seq<Person>, members: seq<UserId>, front: seq<nat>)
    requires members != [] && Places(users, members[..|members| - 1], front)
    ensures var n := |members| - 1;
      Places(users, members, if Listed(users, members[n]) then front + [n] else front)
  {
    var n := |members| - 1;
    hide Listed;
    assert forall k: nat | k < n :: members[..n][k] == members[k];
    var at := if Listed(users, members[n]) then front + [n] else front;
    forall k: nat | k < |members| && Listed(users, members[k]) ensures k in at {
      if k < n { assert k in front; } else { assert at[|at| - 1] == n; }
    }
  }

  lemma {:induction false} KnownStep(users: seq<Person>, members: seq<UserId>)
    requires members != []
    ensures var n := |members| - 1; var front := KnownMembers(users, members[..n]);
      KnownMembers(users, members) == if Listed(users, members[n]) then front + [members[n]] else front
  {
  }

  // ids are the members at these places.
  ghost predicate Picks(members: seq<UserId>, at: seq<nat>, ids: seq<UserId>) {
    |ids| == |at| && forall i | 0 <= i < |at| :: at[i] < |members| && ids[i] == members[at[i]]
  }

  lemma PicksStep(members: seq<UserId>, at: seq<nat>, ids: seq<UserId>)
    requires members != [] && Picks(members[..|members| - 1], at, ids)
    ensures var n := |members| - 1; Picks(members, at, ids) && Picks(members, at + [n], ids + [members[n]])
  {
  }

  // The listed members are those at such places.
  lemma {:induction false} ListedPlaces(users: seq<Person>, members: seq<UserId>) returns (at: seq<nat>)
    ensures Places(users, members, at) && Picks(members, at, KnownMembers(users, members))
    decreases |members|
  {
    if members == [] {
      at := [];
    } else {
      hide Places, Picks, KnownMembers, Listed;
      var n := |members| - 1;
      var front := ListedPlaces(users, members[..n]);
      PlacesStep(users, members, front);
      KnownStep(users, members);
      PicksStep(members, front, KnownMembers(users, members[..n]));
      at := if Listed(users, members[n]) then front + [n] else front;
    }
  }

  lemma {:induction false} KnownAreCounted(users: seq<Person>, members: seq<UserId>, uid: UserId)
    requires Listed(users, uid)
    ensures multiset(KnownMembers(users, members))[uid] == multiset(members)[uid]
    decreases |members|
  {
    if members != [] {
      var n := |members| - 1;
      KnownAreCounted(users, members[..n], uid);
      assert members == members[..n] + [members[n]];
    }
  }

  lemma {:induction false} RefsAreCounted(cache: map<UserId, RecordId>, ids: seq<UserId>, uid: UserId)
    requires (forall id | id in ids :: id in cache) && uid in cache
    requires forall id | id in ids && cache[id] == cache[uid] :: id == uid
    ensures multiset(Refs(cache, ids))[cache[uid]] == multiset(ids)[uid]
    decreases |ids|
  {
    if ids != [] {
      var n := |ids| - 1;
      var front := ids[..n];
      assert ids == front + [ids[n]] && ids[n] in ids;
      RefsAreCounted(cache, front, uid);
      assert Refs(cache, ids) == Refs(cache, front) + [cache[ids[n]]];
    }
  }

  // Each listed user's record is in the group as often as the user is in its membership.
  ghost predicate Counted(st: State, g: Group, u: Person) {
    && u.id in st.cache && g.id in st.remote.groups
    && multiset(st.remote.groups[g.id].members)[st.cache[u.id]] == multiset(g.members)[u.id]
  }

  lemma {:induction false} SetIsCounted(st: State, users: seq<Person>, g: Group, u: Person)
    requires AllCurrent(st, users) && Distinct(users) && GroupSet(st, users, g) && u in users
    ensures Counted(st, g, u)
  {
    var ids := KnownMembers(users, g.members);
    forall id | id in ids && st.cache[id] == st.cache[u.id] ensures id == u.id {
      var v :| v in users && v.id == id;
      assert Current(st, u) && Current(st, v);
    }
    KnownAreCounted(users, g.members, u.id);
    assert Current(st, u);
    RefsAreCounted(st.cache, ids, u.id);
  }

  lemma SetIsRight(st: State, users: seq<Person>, g: Group)
    requires GroupSet(st, users, g)
    ensures GroupRight(st, users, g)
  {
    var at := ListedPlaces(users, g.members);
    var ids := KnownMembers(users, g.members);
    assert forall i | 0 <= i < |ids| :: ids[i] in ids;
    assert Mirrors(st, g, at);
  }

  ghost predicate GroupsRight(st: State, users: seq<Person>, groups: seq<Group>) {
    forall g | g in groups :: GroupRight(st, users, g)
  }

  lemma {:induction false} PassSetsGroups(st: State, users: seq<Person>, groups: seq<Group>)
    requires AllCached(st, users) && DistinctGroups(groups)
    ensures GroupsSet(GroupsSynced(st, users, groups), users, groups)
    decreases |groups|
  {
    if groups != [] {
      var k := |groups| - 1;
      hide KnownMembers, Refs;
      PassSetsGroups(st, users, groups[..k]);
      forall i | 0 <= i < |groups| ensures GroupSet(GroupsSynced(st, users, groups), users, groups[i]) {
        if i < k {
          assert groups[i] in groups[..k];
          assert GroupSet(GroupsSynced(st, users, groups[..k]), users, groups[i]);
          assert groups[i].id != groups[k].id;
        }
      }
    }
  }

  lemma SetGroupsAreRight(st: State, users: seq<Person>, groups: seq<Group>)
    requires GroupsSet(st, users, groups)
    ensures GroupsRight(st, users, groups)
  {
    hide GroupSet, GroupRight;
    forall g | g in groups ensures GroupRight(st, users, g) { SetIsRight(st, users, g); }
  }

  lemma {:induction false} SetGroupsAreIdle(st: State, users: seq<Person>, groups: seq<Group>)
    requires AllCached(st, users) && GroupsSet(st, users, groups)
    ensures GroupsSynced(st, users, groups) == st
    decreases |groups|
  {
    if groups != [] {
      var k := |groups| - 1;
      SetGroupsAreIdle(st, users, groups[..k]);
      assert GroupSet(st, users, groups[k]);
    }
  }

  lemma {:induction false} PassKeeps(st: State, users: seq<Person>, groups: seq<Group>)
    requires Admissible(st, users) && Distinct(users)
    ensures var st' := Pass(st, users, groups);
      Admissible(st', users) && AllLinked(st', users) && (AllLinked(st, users) ==> AllCurrent(st', users))
  {
    PassLinks(st, users);
    if AllLinked(st, users) { LinkedPassIsCurrent(st, users); }
  }

  /**
   From any admissible cache and any consistent server two passes converge:
   every cached id names a record with the user's e-mail, external id, active
   flag and name; every group has the records of the listed users of its
   membership, in its order, each as often as the user is in it, and nothing
   else; and a third pass changes nothing.
   */
  lemma {:induction false} TwoPassesConverge(st: State, users: seq<Person>, groups: seq<Group>)
    requires Admissible(st, users) && Distinct(users) && DistinctGroups(groups)
    ensures var st2 := Pass(Pass(st, users, groups), users, groups);
      && AllCurrent(st2, users) && GroupsRight(st2, users, groups)
      && (forall g, u | g in groups && u in users :: Counted(st2, g, u))
      && Pass(st2, users, groups) == st2
  {
    hide Admissible, AllLinked, AllCurrent, GroupSet, GroupRight, Counted;
    var st1 := Pass(st, users, groups);
    PassKeeps(st, users, groups);
    PassKeeps(st1, users, groups);
    SyncedAreCached(st1, users);
    PassSetsGroups(UsersSynced(st1, users), users, groups);
    var st2 := Pass(st1, users, groups);
    CurrentPassIsIdle(st2, users);
    SetGroupsAreIdle(st2, users, groups);
    SetGroupsAreRight(st2, users, groups);
    forall g, u | g in groups && u in users ensures Counted(st2, g, u) { SetIsCounted(st2, users, g, u); }
  }

  /**
   One pass is enough exactly when every user is ready: an unlinked user whose
   e-mail already has a record with other details is only met, not updated, by
   the first pass.
   */
  lemma {:induction false} OnePassIffReady(st: State, users: seq<Person>, groups: seq<Group>)
    requires Admissible(st, users) && Distinct(users)
    ensures AllCurrent(Pass(st, users, groups), users) <==> forall u | u in users :: Ready(st, u)
  {
    var synced := UsersSynced(st, users);
    forall u | u in users ensures Current(Pass(st, users, groups), u) <==> Ready(st, u) {
      var i :| 0 <= i < |users| && users[i] == u;
      OnePass(st, users, i);
    }
  }

  // A record that came from elsewhere: active there, disabled here.
  lemma {:induction false} OnePassCanLeaveAnActiveRecord()
    ensures var u := Person(7, "a@x", false, "A");
      var st := State(map[], Remote(map[0 := Record("a@x", None, true, "A")], map[], 1));
      && Admissible(st, [u]) && Distinct([u])
      && !AllCurrent(Pass(st, [u], []), [u]) && AllCurrent(Pass(Pass(st, [u], []), [u], []), [u])
  {
    var u := Person(7, "a@x", false, "A");
    var st := State(map[], Remote(map[0 := Record("a@x", None, true, "A")], map[], 1));
    assert st.remote.records[0].email == u.email && st.remote.records[0] != RecordOf(u);
    assert !Ready(st, u);
    OnePassIffReady(st, [u], []);
    TwoPassesConverge(st, [u], []);
    assert u in [u];
  }
}
