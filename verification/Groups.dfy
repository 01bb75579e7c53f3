/**
 Group membership: reconciling a user's groups with a selection, and the two
 computations of who may assume an AWS role.
 */
module Groups {
  import opened Text
  import opened Model

  type GroupId = nat
  type RoleId = nat

  datatype Group = Group(id: GroupId, displayName: string)

  // A provision.OpUpdate event with the group's members after the change.
  datatype Event = Update(group: GroupId, members: set<UserId>)

  datatype Assignment = Assignment(group: GroupId, role: RoleId)

  // ---- what reconciling does ----

  function Reconciled(members: map<GroupId, set<UserId>>, uid: UserId, selected: set<GroupId>)
    : map<GroupId, set<UserId>>
  {
    map g | g in members :: if g in selected then members[g] + {uid} else members[g] - {uid}
  }

  // One event per group whose membership changes, in the order of the catalogue.
  function EventsOf(groups: seq<Group>, members: map<GroupId, set<UserId>>, uid: UserId,
                    selected: set<GroupId>): seq<Event>
    requires forall g | g in groups :: g.id in members
  {
    if groups == [] then []
    else
      var front, g := EventsOf(groups[..|groups| - 1], members, uid, selected), groups[|groups| - 1];
      if (uid in members[g.id]) == (g.id in selected) then front
      else front + [Update(g.id, Reconciled(members, uid, selected)[g.id])]
  }

  function IdsOf(groups: seq<Group>): set<GroupId> {
    set g | g in groups :: g.id
  }

  type Progress = (map<GroupId, set<UserId>>, seq<Event>)

  function WalkOne(p: Progress, g: GroupId, uid: UserId, selected: set<GroupId>): Progress {
    var (m, es) := p;
    if g !in m || (uid in m[g]) == (g in selected) then p
    else
      var m' := m[g := if g in selected then m[g] + {uid} else m[g] - {uid}];
      (m', es + [Update(g, m'[g])])
  }

  // The groups one after the other.
  function Walk(p: Progress, groups: seq<Group>, uid: UserId, selected: set<GroupId>): Progress {
    if groups == [] then p
    else WalkOne(Walk(p, groups[..|groups| - 1], uid, selected), groups[|groups| - 1].id, uid, selected)
  }

  // Reconciling leaves a group alone exactly when it was right before.
  lemma {:induction false} RightBefore(members: map<GroupId, set<UserId>>, g: GroupId, uid: UserId,
                                       selected: set<GroupId>)
    requires g in members
    ensures var after := Reconciled(members, uid, selected);
      after[g] == members[g] <==> (uid in members[g]) == (g in selected)
    ensures Reconciled(members, uid, selected)[g] == if g in selected then members[g] + {uid} else members[g] - {uid}
  {
    assert uid in Reconciled(members, uid, selected)[g] <==> g in selected;
  }

  lemma {:induction false} IdsNext(groups: seq<Group>)
    requires groups != [] && forall i, j | 0 <= i < j < |groups| :: groups[i].id != groups[j].id
    ensures var n := |groups| - 1;
      IdsOf(groups) == IdsOf(groups[..n]) + {groups[n].id} && groups[n].id !in IdsOf(groups[..n])
  {
    assert groups == groups[..|groups| - 1] + [groups[|groups| - 1]];
  }

  lemma {:induction false} WalkSoFar(p: Progress, groups: seq<Group>, uid: UserId, selected: set<GroupId>)
    requires forall g | g in groups :: g.id in p.0
    requires forall i, j | 0 <= i < j < |groups| :: groups[i].id != groups[j].id
    ensures var (m, es), after := Walk(p, groups, uid, selected), Reconciled(p.0, uid, selected);
      && m.Keys == p.0.Keys && after.Keys == p.0.Keys && es == p.1 + EventsOf(groups, p.0, uid, selected)
      && forall g | g in p.0 :: m[g] == if g in IdsOf(groups) then after[g] else p.0[g]
    decreases |groups|
  {
    if groups != [] {
      var front, g := groups[..|groups| - 1], groups[|groups| - 1];
      WalkSoFar(p, front, uid, selected);
      IdsNext(groups);
      RightBefore(p.0, g.id, uid, selected);
      hide Reconciled, IdsOf;
    }
  }

  lemma {:induction false} WalkStarts(p: Progress, groups: seq<Group>, uid: UserId, selected: set<GroupId>)
    ensures Walk(p, groups[..0], uid, selected) == p
  {
  }

  lemma {:induction false} WalkNext(p: Progress, groups: seq<Group>, i: nat, uid: UserId, selected: set<GroupId>)
    requires i < |groups|
    ensures Walk(p, groups[..i + 1], uid, selected)
      == WalkOne(Walk(p, groups[..i], uid, selected), groups[i].id, uid, selected)
  {
    assert groups[..i + 1][..i] == groups[..i];
  }

  lemma {:induction false} IdsHave(groups: seq<Group>, i: nat)
    requires i < |groups|
    ensures groups[i].id in IdsOf(groups)
  {
    assert groups[i] in groups;
  }

  lemma {:induction false} WalkReconciles(p: Progress, groups: seq<Group>, uid: UserId, selected: set<GroupId>)
    requires p.0.Keys == IdsOf(groups)
    requires forall i, j | 0 <= i < j < |groups| :: groups[i].id != groups[j].id
    ensures Walk(p, groups, uid, selected)
      == (Reconciled(p.0, uid, selected), p.1 + EventsOf(groups, p.0, uid, selected))
  {
    WalkSoFar(p, groups, uid, selected);
    assert Walk(p, groups, uid, selected).0 == Reconciled(p.0, uid, selected);
  }

  // ---- who may assume a role ----

  ghost predicate Authorizes(assignments: seq<Assignment>, members: map<GroupId, set<UserId>>, uid: UserId,
                             role: RoleId, g: GroupId) {
    Assignment(g, role) in assignments && g in members && uid in members[g]
  }

  // The display names, with repetitions, of the groups that authorize.
  function NamesOf(groups: seq<Group>, assignments: seq<Assignment>, members: map<GroupId, set<UserId>>, uid: UserId,
                   role: RoleId)
    : seq<string>
    requires forall g | g in groups :: g.id in members
  {
    if groups == [] then []
    else
      var front, g := NamesOf(groups[..|groups| - 1], assignments, members, uid, role), groups[|groups| - 1];
      if Assignment(g.id, role) in assignments && uid in members[g.id] then front + [g.displayName] else front
  }

  function SetOf(ids: seq<UserId>): set<UserId> {
    set uid | uid in ids
  }

  // ORDER BY display_name.
  ghost predicate ByName(names: map<RoleId, string>, rs: seq<RoleId>)
    requires forall r | r in rs :: r in names
  {
    forall i, j | 0 <= i < j < |rs| :: Below(names[rs[i]], names[rs[j]])
  }

  function InsertByName(names: map<RoleId, string>, rs: seq<RoleId>, r: RoleId): (out: seq<RoleId>)
    requires r in names && forall x | x in rs :: x in names
    ensures forall x :: x in out <==> x in rs || x == r
  {
    if rs == [] then [r]
    else if Below(names[r], names[rs[0]]) then [r] + rs
    else [rs[0]] + InsertByName(names, rs[1..], r)
  }

  lemma {:induction false} InsertedByName(names: map<RoleId, string>, rs: seq<RoleId>, r: RoleId)
    requires r in names && r !in rs && (forall x | x in rs :: x in names) && ByName(names, rs)
    requires forall i, j | 0 <= i < j < |rs| :: rs[i] != rs[j]
    ensures var out := InsertByName(names, rs, r);
      ByName(names, out) && forall i, j | 0 <= i < j < |out| :: out[i] != out[j]
    decreases |rs|
  {
    hide Below;
    if rs != [] {
      if Below(names[r], names[rs[0]]) {
        forall j | 0 <= j < |rs| ensures Below(names[r], names[rs[j]]) {
          if j > 0 { BelowIsTransitive(names[r], names[rs[0]], names[rs[j]]); }
        }
      } else {
        BelowIsTotal(names[r], names[rs[0]]);
        InsertedByName(names, rs[1..], r);
        var tail := InsertByName(names, rs[1..], r);
        forall x | x in tail ensures Below(names[rs[0]], names[x]) && x != rs[0] {
          if x != r {
            var i :| 0 <= i < |rs| - 1 && rs[1..][i] == x;
            assert Below(names[rs[0]], names[rs[i + 1]]);
          }
        }
      }
    }
  }

  class Catalogue {
    var groups: seq<Group>                    // scim_groups, as listed
    var members: map<GroupId, set<UserId>>    // scim_group_members
    var roles: map<RoleId, string>            // aws_roles, with their display names
    var assignments: seq<Assignment>          // aws_role_assignments
    var events: seq<Event>                    // what provisioners were told

    // Primary and foreign keys.
    ghost predicate Valid()
      reads this
    {
      && (forall i, j | 0 <= i < j < |groups| :: groups[i].id != groups[j].id)
      && members.Keys == IdsOf(groups)
      && (forall a | a in assignments :: a.group in members && a.role in roles)
    }

    constructor ()
      ensures Valid() && groups == [] && members == map[] && assignments == [] && events == []
    {
      groups, members, roles, assignments, events := [], map[], map[], [], [];
    }

    method AddGroupMember(g: GroupId, uid: UserId)
      requires g in members
      modifies `members
      ensures members == old(members)[g := old(members)[g] + {uid}]
    {
      members := members[g := members[g] + {uid}];
    }

    method RemoveGroupMember(g: GroupId, uid: UserId)
      requires g in members
      modifies `members
      ensures members == old(members)[g := old(members)[g] - {uid}]
    {
      members := members[g := members[g] - {uid}];
    }

    method ReplaceGroupMembers(g: GroupId, ids: seq<UserId>)
      requires Valid() && g in members
      modifies `members
      ensures Valid() && members == old(members)[g := SetOf(ids)]
      ensures forall uid :: uid in members[g] <==> uid in ids
    {
      members := members[g := {}];
      var i := 0;
      while i < |ids|
        invariant 0 <= i <= |ids| && members.Keys == old(members).Keys
        invariant members[g] == SetOf(ids[..i])
        invariant forall other | other in members && other != g :: members[other] == old(members)[other]
      {
        assert ids[..i + 1] == ids[..i] + [ids[i]];
        members := members[g := members[g] + {ids[i]}];
        i := i + 1;
      }
      assert ids[..i] == ids;
    }

    method SyncUserGroups(uid: UserId, selected: set<GroupId>)
      requires Valid()
      modifies `members, `events
      ensures Valid() && members == Reconciled(old(members), uid, selected)
      ensures events == old(events) + EventsOf(groups, old(members), uid, selected)
    {
      hide Walk, IdsOf, EventsOf, Reconciled;
      ghost var start := (members, events);
      WalkStarts(start, groups, uid, selected);
      var i := 0;
      while i < |groups|
        invariant 0 <= i <= |groups| && members.Keys == start.0.Keys
        invariant (members, events) == Walk(start, groups[..i], uid, selected)
      {
        var g := groups[i].id;
        WalkNext(start, groups, i, uid, selected);
        IdsHave(groups, i);
        var wasMember, isMember := uid in members[g], g in selected;
        if wasMember != isMember {
          if isMember { AddGroupMember(g, uid); } else { RemoveGroupMember(g, uid); }
          events := events + [Update(g, members[g])];
        }
        i := i + 1;
      }
      assert groups[..i] == groups;
      WalkReconciles(start, groups, uid, selected);
    }

    // The SQL join: each role once, ordered by display name.
    method ListAwsRolesForUser(uid: UserId) returns (listed: seq<RoleId>)
      requires Valid()
      ensures forall r :: r in listed <==> r in roles && exists g :: Authorizes(assignments, members, uid, r, g)
      ensures forall i, j | 0 <= i < j < |listed| :: listed[i] != listed[j]
      ensures (forall r | r in listed :: r in roles) && ByName(roles, listed)
    {
      var joined :=
        set a | a in assignments && a.role in roles && a.group in members && uid in members[a.group] :: a.role;
      forall r ensures r in joined <==> r in roles && exists g :: Authorizes(assignments, members, uid, r, g) {
        if r in roles && exists g :: Authorizes(assignments, members, uid, r, g) {
          var g :| Authorizes(assignments, members, uid, r, g);
          assert Assignment(g, r).role == r;
        }
        if r in joined {
          var a :| a in assignments && a.role in roles && a.group in members && uid in members[a.group] && a.role == r;
          assert a == Assignment(a.group, r);
          assert Authorizes(assignments, members, uid, r, a.group);
        }
      }
      listed := [];
      var todo := joined;
      while todo != {}
        invariant todo <= joined && (forall r :: r in joined <==> r in todo || r in listed)
        invariant forall r | r in listed :: r in roles && r !in todo
        invariant forall i, j | 0 <= i < j < |listed| :: listed[i] != listed[j]
        invariant ByName(roles, listed)
        decreases |todo|
      {
        var r :| r in todo;
        InsertedByName(roles, listed, r);
        listed := InsertByName(roles, listed, r);
        todo := todo - {r};
      }
    }

    // The two-table walk.
    method AuthorizingGroupsForRole(uid: UserId, role: RoleId) returns (names: seq<string>)
      requires Valid()
      ensures Sorted(names) && multiset(names) == multiset(NamesOf(groups, assignments, members, uid, role))
    {
      var authorizing: set<GroupId> := {};
      var k := 0;
      while k < |assignments|
        invariant 0 <= k <= |assignments|
        invariant forall g :: g in authorizing <==> Assignment(g, role) in assignments[..k]
      {
        assert assignments[..k + 1] == assignments[..k] + [assignments[k]];
        if assignments[k].role == role { authorizing := authorizing + {assignments[k].group}; }
        k := k + 1;
      }
      assert assignments[..k] == assignments;
      if authorizing == {} {
        NoNames(groups, assignments, members, uid, role);
        return [];
      }
      names := [];
      var i := 0;
      while i < |groups|
        invariant 0 <= i <= |groups|
        invariant names == NamesOf(groups[..i], assignments, members, uid, role)
      {
        assert groups[..i + 1][..i] == groups[..i];
        if groups[i].id in authorizing && uid in members[groups[i].id] { names := names + [groups[i].displayName]; }
        i := i + 1;
      }
      assert groups[..i] == groups;
      SortSorts(names);
      names := Sort(names);
    }
  }

  // ---- what they guarantee ----

  lemma {:induction false} NoNames(groups: seq<Group>, assignments: seq<Assignment>,
                                   members: map<GroupId, set<UserId>>, uid: UserId, role: RoleId)
    requires forall g | g in groups :: g.id in members
    requires forall g: GroupId :: Assignment(g, role) !in assignments
    ensures NamesOf(groups, assignments, members, uid, role) == []
    decreases |groups|
  {
    if groups != [] { NoNames(groups[..|groups| - 1], assignments, members, uid, role); }
  }

  lemma {:induction false} NamesNonempty(groups: seq<Group>, assignments: seq<Assignment>,
                                         members: map<GroupId, set<UserId>>, uid: UserId, role: RoleId)
    requires forall g | g in groups :: g.id in members
    ensures NamesOf(groups, assignments, members, uid, role) != []
      <==> exists i :: 0 <= i < |groups| && Authorizes(assignments, members, uid, role, groups[i].id)
    decreases |groups|
  {
    if groups != [] {
      var n := |groups| - 1;
      NamesNonempty(groups[..n], assignments, members, uid, role);
      assert forall i | 0 <= i < n :: groups[..n][i] == groups[i];
      if Authorizes(assignments, members, uid, role, groups[n].id) {
        assert NamesOf(groups, assignments, members, uid, role) != [];
      } else if i :| 0 <= i < |groups| && Authorizes(assignments, members, uid, role, groups[i].id) {
        assert Authorizes(assignments, members, uid, role, groups[..n][i].id);
      }
    }
  }

  /**
   The join lists a role for a user exactly when the walk finds a group that
   authorizes it.
   */
  method TwoComputationsAgree(c: Catalogue, uid: UserId, role: RoleId) returns (listed: seq<RoleId>, names: seq<string>)
    requires c.Valid()
    ensures role in listed <==> names != []
  {
    listed := c.ListAwsRolesForUser(uid);
    names := c.AuthorizingGroupsForRole(uid, role);
    ghost var unsorted := NamesOf(c.groups, c.assignments, c.members, uid, role);
    NamesNonempty(c.groups, c.assignments, c.members, uid, role);
    assert names == [] <==> unsorted == [] by {
      assert |multiset(names)| == |names| && |multiset(unsorted)| == |unsorted|;
    }
    if role in listed {
      ghost var g :| Authorizes(c.assignments, c.members, uid, role, g);
      ghost var i :| 0 <= i < |c.groups| && c.groups[i].id == g;
      assert Authorizes(c.assignments, c.members, uid, role, c.groups[i].id);
    }
    if names != [] {
      ghost var i :| 0 <= i < |c.groups| && Authorizes(c.assignments, c.members, uid, role, c.groups[i].id);
      assert Assignment(c.groups[i].id, role) in c.assignments;
    }
  }

  // A name's multiplicity is the number of authorizing groups that bear it.
  function Bearers(groups: seq<Group>, assignments: seq<Assignment>, members: map<GroupId, set<UserId>>, uid: UserId,
                   role: RoleId, name: string)
    : set<GroupId>
    requires forall g | g in groups :: g.id in members
  {
    set g | g in groups && g.displayName == name && Assignment(g.id, role) in assignments && uid in members[g.id]
      :: g.id
  }

  lemma BearersGrow(groups: seq<Group>, assignments: seq<Assignment>, members: map<GroupId, set<UserId>>, uid: UserId,
                    role: RoleId, name: string)
    requires groups != [] && forall g | g in groups :: g.id in members
    requires forall i, j | 0 <= i < j < |groups| :: groups[i].id != groups[j].id
    ensures var g := groups[|groups| - 1];
      var earlier := Bearers(groups[..|groups| - 1], assignments, members, uid, role, name);
      && g.id !in earlier
      && Bearers(groups, assignments, members, uid, role, name)
         == earlier + if g.displayName == name && Assignment(g.id, role) in assignments && uid in members[g.id]
                      then {g.id} else {}
  {
    var n := |groups| - 1;
    assert groups == groups[..n] + [groups[n]];
  }

  lemma {:induction false} NamesAreCounted(groups: seq<Group>, assignments: seq<Assignment>,
                                           members: map<GroupId, set<UserId>>, uid: UserId, role: RoleId, name: string)
    requires forall g | g in groups :: g.id in members
    requires forall i, j | 0 <= i < j < |groups| :: groups[i].id != groups[j].id
    ensures multiset(NamesOf(groups, assignments, members, uid, role))[name]
      == |Bearers(groups, assignments, members, uid, role, name)|
    decreases |groups|
  {
    if groups == [] {
      assert Bearers(groups, assignments, members, uid, role, name) == {};
    } else {
      hide Bearers;
      NamesAreCounted(groups[..|groups| - 1], assignments, members, uid, role, name);
      BearersGrow(groups, assignments, members, uid, role, name);
    }
  }

  /**
   After a sync the user is in exactly the existing groups selected, nobody
   else moved, and a second sync tells provisioners nothing.
   */
  lemma {:induction false} ReconciledIsTheSelection(groups: seq<Group>, members: map<GroupId, set<UserId>>,
                                                    uid: UserId, selected: set<GroupId>)
    requires forall g | g in groups :: g.id in members
    ensures var after := Reconciled(members, uid, selected);
      && after.Keys == members.Keys
      && (forall g | g in members :: (uid in after[g] <==> g in selected))
      && (forall g, other | g in members && other != uid :: other in after[g] <==> other in members[g])
      && Reconciled(after, uid, selected) == after && EventsOf(groups, after, uid, selected) == []
    decreases |groups|
  {
    if groups != [] { ReconciledIsTheSelection(groups[..|groups| - 1], members, uid, selected); }
    var after := Reconciled(members, uid, selected);
    forall g | g in members ensures Reconciled(after, uid, selected)[g] == after[g] {
      assert uid in after[g] <==> g in selected;
    }
    assert Reconciled(after, uid, selected) == after;
  }

  /** Exactly the groups that changed are announced, once each, with their new members. */
  lemma {:induction false} EventsAreTheChanges(groups: seq<Group>, members: map<GroupId, set<UserId>>, uid: UserId,
                                               selected: set<GroupId>)
    requires forall g | g in groups :: g.id in members
    requires forall i, j | 0 <= i < j < |groups| :: groups[i].id != groups[j].id
    ensures var es, after := EventsOf(groups, members, uid, selected), Reconciled(members, uid, selected);
      && (forall e | e in es :: e.group in members && e.members == after[e.group] && after[e.group] != members[e.group]
                               && exists g :: g in groups && g.id == e.group)
      && (forall g | g in groups && after[g.id] != members[g.id] :: Update(g.id, after[g.id]) in es)
      && (forall i, j | 0 <= i < j < |es| :: es[i].group != es[j].group)
    decreases |groups|
  {
    if groups != [] {
      var n := |groups| - 1;
      var front, g := groups[..n], groups[n];
      EventsAreTheChanges(front, members, uid, selected);
      assert groups == front + [g];
      var after := Reconciled(members, uid, selected);
      assert (uid in members[g.id]) == (g.id in selected) <==> after[g.id] == members[g.id] by {
        assert uid in after[g.id] <==> g.id in selected;
      }
    }
  }
}
