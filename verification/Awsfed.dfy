/**
 Revoking AWS access (internal/provision/awsfed): one inline policy per role
 denies the sessions of revoked users, the rows of aws_revoked_users remember
 until when.

 Store and IAM calls succeed, and a whole revoke or reap is one step. The
 policy document is represented by the set of subjects it denies.
 */
module Awsfed {
  import opened Text
  import opened Model

  type Sub = string
  type RoleId = nat

  datatype Role = Role(id: RoleId, arn: string, maxSessionDurationSec: int)

  // The rows of aws_revoked_users, and each role name's policy.
  datatype Aws = Aws(rows: map<(RoleId, Sub), Time>, policies: map<string, set<Sub>>)

  // ---- names, durations, subjects ----

  // What follows the last '/', "" when there is none.
  function RoleName(arn: string): (name: string)
    ensures '/' !in arn ==> name == ""
    ensures '/' in arn ==>
      '/' !in name && exists k :: 0 <= k < |arn| && arn[k] == '/' && name == arn[k + 1..]
  {
    if '/' !in arn then ""
    else if '/' in arn[1..] then
      var name := RoleName(arn[1..]);
      assert forall k | 0 <= k < |arn| - 1 :: arn[1..][k] == arn[k + 1] && arn[1..][k + 1..] == arn[k + 2..];
      name
    else
      assert arn[0] == '/';
      arn[1..]
  }

  lemma NameIsAfterTheLastSlash(arn: string, k: nat)
    requires k < |arn| && arn[k] == '/' && '/' !in arn[k + 1..]
    ensures RoleName(arn) == arn[k + 1..]
  {
    var j :| 0 <= j < |arn| && arn[j] == '/' && RoleName(arn) == arn[j + 1..];
    assert forall m | j < m < |arn| :: arn[m] == arn[j + 1..][m - j - 1];
    assert forall m | k < m < |arn| :: arn[m] == arn[k + 1..][m - k - 1];
  }

  // A stored duration of 0 or less counts as an hour.
  function Duration(role: Role): Time {
    if role.maxSessionDurationSec <= 0 then 3600 * SECOND else role.maxSessionDurationSec * SECOND
  }

  function SubsOf(rows: map<(RoleId, Sub), Time>, id: RoleId): set<Sub> {
    set k | k in rows && k.0 == id :: k.1
  }

  predicate IsExpired(rows: map<(RoleId, Sub), Time>, role: Role, now: Time, k: (RoleId, Sub)) {
    k in rows && k.0 == role.id && rows[k] < now - Duration(role)
  }

  // ---- what revoking and reaping do to one role, and to all ----

  function RevokeRole(aws: Aws, role: Role, sub: Sub, now: Time): Aws {
    var rows := aws.rows[(role.id, sub) := now];
    var name := RoleName(role.arn);
    Aws(rows, if name == "" then aws.policies else aws.policies[name := SubsOf(rows, role.id)])
  }

  function RevokeAll(aws: Aws, roles: seq<Role>, sub: Sub, now: Time): Aws {
    if roles == [] then aws
    else RevokeRole(RevokeAll(aws, roles[..|roles| - 1], sub, now), roles[|roles| - 1], sub, now)
  }

  function Kept(rows: map<(RoleId, Sub), Time>, role: Role, now: Time): map<(RoleId, Sub), Time> {
    map k | k in rows && !IsExpired(rows, role, now, k) :: rows[k]
  }

  function ReapRole(aws: Aws, role: Role, now: Time): Aws {
    var rows := Kept(aws.rows, role, now);
    var name, subs := RoleName(role.arn), SubsOf(rows, role.id);
    if rows == aws.rows || name == "" then aws.(rows := rows)
    else Aws(rows, if subs == {} then aws.policies - {name} else aws.policies[name := subs])
  }

  function ReapAll(aws: Aws, roles: seq<Role>, now: Time): Aws {
    if roles == [] then aws
    else ReapRole(ReapAll(aws, roles[..|roles| - 1], now), roles[|roles| - 1], now)
  }

  // BuildRevocationPolicy: whom a policy for these subjects denies.
  function DeniedBy(subs: seq<Sub>): set<Sub> {
    set s | s in subs
  }

  lemma {:induction false} OnceEach(xs: seq<Sub>, s: set<Sub>)
    requires (forall x :: x in xs <==> x in s) && forall i, j | 0 <= i < j < |xs| :: xs[i] != xs[j]
    ensures multiset(xs) == multiset(s)
    decreases |xs|
  {
    if xs == [] {
      assert s == {};
    } else {
      assert xs == [xs[0]] + xs[1..];
      OnceEach(xs[1..], s - {xs[0]});
    }
  }

  // After the first n listed rows those of them before the cutoff are gone.
  ghost predicate Swept(was: map<(RoleId, Sub), Time>, rows: map<(RoleId, Sub), Time>, id: RoleId,
                        list: seq<(Sub, Time)>, cutoff: Time, n: nat)
    requires n <= |list|
  {
    && (forall k :: k in rows <==> k in was && !(exists j :: 0 <= j < n && k == (id, list[j].0) && list[j].1 < cutoff))
    && (forall k | k in rows :: rows[k] == was[k])
  }

  lemma SweepOne(was: map<(RoleId, Sub), Time>, rows: map<(RoleId, Sub), Time>, id: RoleId,
                 list: seq<(Sub, Time)>, cutoff: Time, n: nat)
    requires n < |list| && Swept(was, rows, id, list, cutoff, n)
    ensures Swept(was, if list[n].1 < cutoff then rows - {(id, list[n].0)} else rows, id, list, cutoff, n + 1)
  {
  }

  lemma SweptIsKept(was: map<(RoleId, Sub), Time>, rows: map<(RoleId, Sub), Time>, role: Role, now: Time,
                    list: seq<(Sub, Time)>)
    requires Swept(was, rows, role.id, list, now - Duration(role), |list|)
    requires forall i | 0 <= i < |list| :: (role.id, list[i].0) in was && was[(role.id, list[i].0)] == list[i].1
    requires forall k | k in was && k.0 == role.id :: (k.1, was[k]) in list
    ensures rows == Kept(was, role, now)
    ensures rows == was <==> forall j | 0 <= j < |list| :: list[j].1 >= now - Duration(role)
  {
    forall k | k in was ensures k in rows <==> !IsExpired(was, role, now, k) {
      if k.0 == role.id { assert (k.1, was[k]) in list; }
    }
    forall j | 0 <= j < |list| && list[j].1 < now - Duration(role) ensures rows != was {
      assert (role.id, list[j].0) in was && (role.id, list[j].0) !in rows;
    }
  }

  lemma SameMembers(subs: seq<Sub>, all: set<Sub>)
    requires multiset(subs) == multiset(all)
    ensures DeniedBy(subs) == all
  {
    assert forall s :: s in subs <==> s in multiset(subs);
  }

  lemma ListedAreSubs(rows: map<(RoleId, Sub), Time>, id: RoleId, list: seq<(Sub, Time)>, subs: seq<Sub>)
    requires |subs| == |list| && forall j | 0 <= j < |list| :: subs[j] == list[j].0
    requires forall i | 0 <= i < |list| :: (id, list[i].0) in rows
    requires forall k | k in rows && k.0 == id :: (k.1, rows[k]) in list
    requires forall i, j | 0 <= i < j < |list| :: list[i].0 != list[j].0
    ensures multiset(subs) == multiset(SubsOf(rows, id))
  {
    forall s | s in SubsOf(rows, id) ensures s in subs {
      assert (s, rows[(id, s)]) in list;
    }
    forall s | s in subs ensures s in SubsOf(rows, id) {
      assert (id, s) in rows && (id, s).1 == s;
    }
    OnceEach(subs, SubsOf(rows, id));
  }

  // ---- the provisioner ----

  class Provisioner {
    const roles: seq<Role>
    var rows: map<(RoleId, Sub), Time>
    var policies: map<string, set<Sub>>

    ghost function View(): Aws
      reads this
    {
      Aws(rows, policies)
    }

    constructor (roles: seq<Role>)
      ensures this.roles == roles && View() == Aws(map[], map[])
    {
      this.roles, rows, policies := roles, map[], map[];
    }

    static method RoleNameFromArn(arn: string) returns (name: string)
      ensures name == RoleName(arn)
    {
      var i := |arn|;
      while i > 0
        invariant 0 <= i <= |arn| && '/' !in arn[i..]
      {
        i := i - 1;
        if arn[i] == '/' {
          NameIsAfterTheLastSlash(arn, i);
          return arn[i + 1..];
        }
        assert arn[i..] == [arn[i]] + arn[i + 1..];
      }
      assert arn[0..] == arn;
      name := "";
    }

    // In no particular order, each row once.
    method ListRevokedUsers(id: RoleId) returns (list: seq<(Sub, Time)>)
      ensures forall i | 0 <= i < |list| :: (id, list[i].0) in rows && rows[(id, list[i].0)] == list[i].1
      ensures forall k | k in rows && k.0 == id :: (k.1, rows[k]) in list
      ensures forall i, j | 0 <= i < j < |list| :: list[i].0 != list[j].0
    {
      list := [];
      var todo := rows.Keys;
      while todo != {}
        invariant todo <= rows.Keys
        invariant forall i | 0 <= i < |list| :: (id, list[i].0) in rows && rows[(id, list[i].0)] == list[i].1
        invariant forall i | 0 <= i < |list| :: (id, list[i].0) !in todo
        invariant forall i, j | 0 <= i < j < |list| :: list[i].0 != list[j].0
        invariant forall k | k in rows && k.0 == id && k !in todo :: (k.1, rows[k]) in list
        decreases |todo|
      {
        var k :| k in todo;
        if k.0 == id { list := list + [(k.1, rows[k])]; }
        todo := todo - {k};
      }
    }

    // The subjects of the role's rows, each once, in order.
    method CollectActiveRevokedSubs(id: RoleId) returns (subs: seq<Sub>)
      ensures Sorted(subs) && multiset(subs) == multiset(SubsOf(rows, id)) && DeniedBy(subs) == SubsOf(rows, id)
    {
      var list := ListRevokedUsers(id);
      subs := [];
      var i := 0;
      while i < |list|
        invariant 0 <= i == |subs| <= |list|
        invariant forall j | 0 <= j < i :: subs[j] == list[j].0
      {
        subs := subs + [list[i].0];
        i := i + 1;
      }
      ListedAreSubs(rows, id, list, subs);
      SortSorts(subs);
      SameMembers(Sort(subs), SubsOf(rows, id));
      subs := Sort(subs);
    }

    method RevokeOneRole(role: Role, sub: Sub, now: Time) returns (ok: bool)
      modifies this
      ensures View() == RevokeRole(old(View()), role, sub, now)
      ensures ok <==> RoleName(role.arn) != ""
    {
      rows := rows[(role.id, sub) := now];
      var subs := CollectActiveRevokedSubs(role.id);
      var name := RoleNameFromArn(role.arn);
      if name == "" { return false; }
      policies := policies[name := DeniedBy(subs)];
      ok := true;
    }

    // A failing role does not stop the others.
    method RevokeUser(sub: Sub, now: Time) returns (ok: bool)
      modifies this
      ensures View() == RevokeAll(old(View()), roles, sub, now)
      ensures ok <==> forall i | 0 <= i < |roles| :: RoleName(roles[i].arn) != ""
    {
      hide RevokeRole, RoleName;
      ok := true;
      var k := 0;
      while k < |roles|
        invariant 0 <= k <= |roles|
        invariant View() == RevokeAll(old(View()), roles[..k], sub, now)
        invariant ok <==> forall i | 0 <= i < k :: RoleName(roles[i].arn) != ""
      {
        var one := RevokeOneRole(roles[k], sub, now);
        assert roles[..k + 1][..k] == roles[..k];
        ok := ok && one;
        k := k + 1;
      }
      assert roles[..k] == roles;
    }

    // Deletes the expired rows one by one and counts them.
    method DeleteExpiredRows(role: Role, now: Time) returns (removed: nat)
      modifies `rows
      ensures rows == Kept(old(rows), role, now)
      ensures var seconds := if role.maxSessionDurationSec > 0 then role.maxSessionDurationSec else 3600;
        forall k :: k in rows <==> k in old(rows) && (k.0 == role.id ==> now <= old(rows)[k] + seconds * 1_000_000_000)
      ensures removed == 0 <==> rows == old(rows)
    {
      var expired := ListRevokedUsers(role.id);
      var cutoff := now - Duration(role);
      removed := 0;
      var i := 0;
      while i < |expired|
        invariant 0 <= i <= |expired|
        invariant Swept(old(rows), rows, role.id, expired, cutoff, i)
        invariant removed == 0 <==> forall j | 0 <= j < i :: expired[j].1 >= cutoff
      {
        SweepOne(old(rows), rows, role.id, expired, cutoff, i);
        if expired[i].1 < cutoff {
          rows := rows - {(role.id, expired[i].0)};
          removed := removed + 1;
        }
        i := i + 1;
      }
      SweptIsKept(old(rows), rows, role, now, expired);
    }

    method ReapOneRole(role: Role, now: Time)
      modifies this
      ensures View() == ReapRole(old(View()), role, now)
    {
      var removed := DeleteExpiredRows(role, now);
      if removed == 0 { return; }
      var subs := CollectActiveRevokedSubs(role.id);
      var name := RoleNameFromArn(role.arn);
      if name == "" { return; }
      if subs == [] {
        policies := policies - {name};
      } else {
        policies := policies[name := DeniedBy(subs)];
      }
    }

    method ReapExpired(now: Time)
      modifies this
      ensures View() == ReapAll(old(View()), roles, now)
    {
      var k := 0;
      while k < |roles|
        invariant 0 <= k <= |roles|
        invariant View() == ReapAll(old(View()), roles[..k], now)
      {
        ReapOneRole(roles[k], now);
        assert roles[..k + 1][..k] == roles[..k];
        k := k + 1;
      }
      assert roles[..k] == roles;
    }
  }
}
