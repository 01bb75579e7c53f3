/**
 Runs of minting, revoking and reaping AWS access: which catalogues keep the
 policies in step with the rows, and why a revoked session stays dead.
 */
module AwsRuns {
  import opened Model
  import opened Awsfed

  // A session AWS has issued. The tag `sub` travels with it.
  datatype Sts = Sts(role: Role, sub: Sub, mintedAt: Time)

  datatype World = World(now: Time, aws: Aws, minted: set<Sts>, revokedAt: map<Sub, Time>)

  datatype Event =
    | Wait(to: Time)
    | Mint(k: nat, sub: Sub)
    | Revoke(sub: Sub)
    | Reap

  // STS refuses a session without a positive duration.
  predicate Mintable(role: Role) {
    role.maxSessionDurationSec > 0
  }

  // How long a revocation has to stand: as long as a session of the role can
  // live, and an hour for a role that none can be had for.
  function Lasts(role: Role): Time {
    if Mintable(role) then role.maxSessionDurationSec * SECOND else 3600 * SECOND
  }

  function Happen(roles: seq<Role>, w: World, e: Event): World {
    match e
    case Wait(to) => if w.now <= to then w.(now := to) else w
    case Mint(k, sub) =>
      if k < |roles| && Mintable(roles[k])
      then w.(minted := w.minted + {Sts(roles[k], sub, w.now)}) else w
    case Revoke(sub) =>
      w.(aws := RevokeAll(w.aws, roles, sub, w.now), revokedAt := w.revokedAt[sub := w.now])
    case Reap => w.(aws := ReapAll(w.aws, roles, w.now))
  }

  function Run(roles: seq<Role>, w: World, es: seq<Event>): World
    decreases |es|
  {
    if es == [] then w else Run(roles, Happen(roles, w, es[0]), es[1..])
  }

  function Fresh(now: Time): World {
    World(now, Aws(map[], map[]), {}, map[])
  }

  // ---- what is wanted ----

  // The policy under `name` denies exactly subs; none is there if there are none.
  ghost predicate Matches(policies: map<string, set<Sub>>, name: string, subs: set<Sub>) {
    if subs == {} then name !in policies else name in policies && policies[name] == subs
  }

  ghost predicate Agrees(roles: seq<Role>, aws: Aws) {
    forall i | 0 <= i < |roles| :: Matches(aws.policies, RoleName(roles[i].arn), SubsOf(aws.rows, roles[i].id))
  }

  ghost predicate IsDenied(aws: Aws, x: Sts) {
    var name := RoleName(x.role.arn);
    name in aws.policies && x.sub in aws.policies[name]
  }

  // STS lets a session live for the seconds in its role's column.
  ghost predicate IsOver(now: Time, x: Sts) {
    now > x.mintedAt + x.role.maxSessionDurationSec * 1_000_000_000
  }

  // A session no younger than its subject's latest revocation.
  ghost predicate IsRevoked(w: World, x: Sts) {
    x.sub in w.revokedAt && x.mintedAt <= w.revokedAt[x.sub]
  }

  ghost predicate Safe(w: World) {
    forall x | x in w.minted && IsRevoked(w, x) :: IsOver(w.now, x) || IsDenied(w.aws, x)
  }

  // ---- catalogues ----

  // The primary key of aws_roles.
  ghost predicate Catalogue(roles: seq<Role>) {
    forall i, j | 0 <= i < j < |roles| :: roles[i].id != roles[j].id
  }

  ghost predicate SameName(roles: seq<Role>, i: nat, j: nat)
    requires i < |roles| && j < |roles|
  {
    RoleName(roles[i].arn) == RoleName(roles[j].arn)
  }

  // Every ARN ends in a name, and roles of the same name last equally long.
  ghost predicate Sound(roles: seq<Role>) {
    && (forall i | 0 <= i < |roles| :: RoleName(roles[i].arn) != "")
    && (forall i: nat, j: nat | i < |roles| && j < |roles| && SameName(roles, i, j) ::
          Lasts(roles[i]) == Lasts(roles[j]))
  }

  // ---- the rows, in closed form ----

  ghost predicate Listed(roles: seq<Role>, id: RoleId) {
    exists i :: 0 <= i < |roles| && roles[i].id == id
  }

  lemma {:induction false} RevokeAllRows(aws: Aws, roles: seq<Role>, sub: Sub, now: Time)
    ensures var rows := RevokeAll(aws, roles, sub, now).rows;
      forall k :: (k in rows <==> k in aws.rows || (Listed(roles, k.0) && k.1 == sub))
               && (k in rows ==> rows[k] == if Listed(roles, k.0) && k.1 == sub then now else aws.rows[k])
    decreases |roles|
  {
    if roles != [] {
      var n := |roles| - 1;
      RevokeAllRows(aws, roles[..n], sub, now);
      ListedLast(roles);
    }
  }

  lemma {:induction false} ListedLast(roles: seq<Role>)
    requires roles != []
    ensures var n := |roles| - 1; forall id :: Listed(roles, id) <==> Listed(roles[..n], id) || id == roles[n].id
  {
    var n := |roles| - 1;
    forall id ensures Listed(roles, id) <==> Listed(roles[..n], id) || id == roles[n].id {
      if Listed(roles[..n], id) {
        var i :| 0 <= i < n && roles[..n][i].id == id;
        assert roles[i].id == id;
      }
      if Listed(roles, id) && id != roles[n].id {
        var i :| 0 <= i < |roles| && roles[i].id == id;
        assert roles[..n][i].id == id;
      }
    }
  }

  // The role's row is older than the seconds in the role's column, or than an
  // hour if there are none.
  ghost predicate Outlived(rows: map<(RoleId, Sub), Time>, role: Role, now: Time, k: (RoleId, Sub)) {
    && k in rows && k.0 == role.id
    && now > rows[k] + (if role.maxSessionDurationSec > 0 then role.maxSessionDurationSec else 3600) * 1_000_000_000
  }

  // The sweep goes by exactly that.
  lemma SweepGoesByAge(rows: map<(RoleId, Sub), Time>, role: Role, now: Time)
    ensures forall k :: IsExpired(rows, role, now, k) <==> Outlived(rows, role, now, k)
  {
  }

  // Some role of that id has outlived the row.
  ghost predicate Reaped(rows: map<(RoleId, Sub), Time>, roles: seq<Role>, now: Time, k: (RoleId, Sub)) {
    exists i :: 0 <= i < |roles| && Outlived(rows, roles[i], now, k)
  }

  lemma {:induction false} ReapAllRows(aws: Aws, roles: seq<Role>, now: Time)
    ensures var rows := ReapAll(aws, roles, now).rows;
      forall k ::
        (k in rows <==> k in aws.rows && !Reaped(aws.rows, roles, now, k)) && (k in rows ==> rows[k] == aws.rows[k])
    decreases |roles|
  {
    if roles != [] {
      var n := |roles| - 1;
      ReapAllRows(aws, roles[..n], now);
      forall k
        ensures Reaped(aws.rows, roles, now, k) <==>
          Reaped(aws.rows, roles[..n], now, k) || Outlived(aws.rows, roles[n], now, k)
      {
        if Reaped(aws.rows, roles[..n], now, k) {
          var i :| 0 <= i < n && Outlived(aws.rows, roles[..n][i], now, k);
          assert Outlived(aws.rows, roles[i], now, k);
        }
        if Reaped(aws.rows, roles, now, k) && !Outlived(aws.rows, roles[n], now, k) {
          var i :| 0 <= i < |roles| && Outlived(aws.rows, roles[i], now, k);
          assert Outlived(aws.rows, roles[..n][i], now, k);
        }
      }
    }
  }

  // ---- the invariant of sound catalogues ----

  // Rows belong to the catalogue and date from the latest revocation of their
  // subject; same-named roles have the same ones.
  ghost predicate RowsInStep(roles: seq<Role>, w: World) {
    && (forall i: nat, j: nat, s | i < |roles| && j < |roles| && SameName(roles, i, j) ::
          (roles[i].id, s) in w.aws.rows ==> (roles[j].id, s) in w.aws.rows)
    && (forall k | k in w.aws.rows :: Listed(roles, k.0) && k.1 in w.revokedAt && w.aws.rows[k] == w.revokedAt[k.1])
  }

  // A row lasts as long as any session it has to deny.
  ghost predicate RowLasts(w: World, role: Role, s: Sub) {
    s in w.revokedAt ==>
      w.revokedAt[s] <= w.now && ((role.id, s) in w.aws.rows || w.now > w.revokedAt[s] + Lasts(role))
  }

  ghost predicate RowsLast(roles: seq<Role>, w: World) {
    forall i: nat, s | i < |roles| :: RowLasts(w, roles[i], s)
  }

  ghost predicate Minted(roles: seq<Role>, w: World) {
    forall x | x in w.minted :: x.role in roles && Mintable(x.role) && x.mintedAt <= w.now
  }

  ghost predicate InStep(roles: seq<Role>, w: World) {
    RowsInStep(roles, w) && RowsLast(roles, w) && Minted(roles, w) && Agrees(roles, w.aws)
  }

  lemma {:induction false} FreshIsInStep(roles: seq<Role>, now: Time)
    ensures InStep(roles, Fresh(now))
  {
  }

  // Same-named roles deny the same subjects.
  ghost predicate SubsInStep(roles: seq<Role>, rows: map<(RoleId, Sub), Time>) {
    forall i: nat, j: nat | i < |roles| && j < |roles| && SameName(roles, i, j) ::
      SubsOf(rows, roles[i].id) == SubsOf(rows, roles[j].id)
  }

  lemma SubsOfHas(rows: map<(RoleId, Sub), Time>, id: RoleId)
    ensures forall s :: s in SubsOf(rows, id) <==> (id, s) in rows
  {
    forall s ensures s in SubsOf(rows, id) <==> (id, s) in rows {
      if (id, s) in rows { assert (id, s).1 == s; }
    }
  }

  lemma {:induction false} InStepSubs(roles: seq<Role>, rows: map<(RoleId, Sub), Time>)
    requires forall i: nat, j: nat, s | i < |roles| && j < |roles| && SameName(roles, i, j) ::
      (roles[i].id, s) in rows ==> (roles[j].id, s) in rows
    ensures SubsInStep(roles, rows)
  {
    forall i: nat, j: nat | i < |roles| && j < |roles| && SameName(roles, i, j)
      ensures SubsOf(rows, roles[i].id) == SubsOf(rows, roles[j].id)
    {
      SubsOfHas(rows, roles[i].id);
      SubsOfHas(rows, roles[j].id);
      assert SameName(roles, j, i);
    }
  }

  // ---- a revoke ----

  lemma {:induction false} ListedAll(roles: seq<Role>, i: nat)
    requires i < |roles|
    ensures Listed(roles, roles[i].id)
  {
  }

  lemma {:induction false} RevokeRowsInStep(roles: seq<Role>, w: World, sub: Sub)
    requires RowsInStep(roles, w)
    ensures RowsInStep(roles, Happen(roles, w, Revoke(sub)))
  {
    RevokeAllRows(w.aws, roles, sub, w.now);
    forall i: nat | i < |roles| ensures Listed(roles, roles[i].id) { ListedAll(roles, i); }
  }

  // Later roles do not touch the rows of role m - 1.
  lemma {:induction false} RevokedSubs(roles: seq<Role>, aws: Aws, sub: Sub, now: Time, m: nat)
    requires 0 < m <= |roles|
    ensures SubsOf(RevokeAll(aws, roles[..m], sub, now).rows, roles[m - 1].id)
      == SubsOf(RevokeAll(aws, roles, sub, now).rows, roles[m - 1].id)
  {
    hide RevokeAll, SubsOf;
    var part, id := roles[..m], roles[m - 1].id;
    RevokeAllRows(aws, roles, sub, now);
    RevokeAllRows(aws, part, sub, now);
    ListedAll(roles, m - 1);
    ListedAll(part, m - 1);
    SubsOfHas(RevokeAll(aws, part, sub, now).rows, id);
    SubsOfHas(RevokeAll(aws, roles, sub, now).rows, id);
  }

  lemma {:induction false} RevokeStep(roles: seq<Role>, aws: Aws, sub: Sub, now: Time, m: nat)
    requires 0 < m <= |roles|
    ensures RevokeAll(aws, roles[..m], sub, now)
      == RevokeRole(RevokeAll(aws, roles[..m - 1], sub, now), roles[m - 1], sub, now)
  {
    assert roles[..m][..m - 1] == roles[..m - 1] && roles[..m][m - 1] == roles[m - 1];
  }

  lemma {:induction false} RevokePrefix(roles: seq<Role>, aws: Aws, sub: Sub, now: Time, m: nat)
    requires m <= |roles| && SubsInStep(roles, RevokeAll(aws, roles, sub, now).rows)
    requires forall i | 0 <= i < |roles| :: RoleName(roles[i].arn) != ""
    ensures var p, rows := RevokeAll(aws, roles[..m], sub, now).policies, RevokeAll(aws, roles, sub, now).rows;
      forall i | 0 <= i < m :: RoleName(roles[i].arn) in p && p[RoleName(roles[i].arn)] == SubsOf(rows, roles[i].id)
    decreases m
  {
    hide SubsOf;
    if m > 0 {
      RevokePrefix(roles, aws, sub, now, m - 1);
      RevokedSubs(roles, aws, sub, now, m);
      RevokeStep(roles, aws, sub, now, m);
      hide RevokeAll;
      var rows, role := RevokeAll(aws, roles, sub, now).rows, roles[m - 1];
      forall i | 0 <= i < m - 1 && RoleName(roles[i].arn) == RoleName(role.arn)
        ensures SubsOf(rows, roles[i].id) == SubsOf(rows, role.id)
      {
        assert SameName(roles, i, m - 1);
      }
    }
  }

  lemma {:induction false} RevokeAgrees(roles: seq<Role>, w: World, sub: Sub)
    requires Sound(roles) && RowsInStep(roles, w)
    ensures Agrees(roles, Happen(roles, w, Revoke(sub)).aws)
  {
    var w' := Happen(roles, w, Revoke(sub));
    RevokeRowsInStep(roles, w, sub);
    InStepSubs(roles, w'.aws.rows);
    RevokePrefix(roles, w.aws, sub, w.now, |roles|);
    assert roles[..|roles|] == roles;
    forall i | 0 <= i < |roles|
      ensures Matches(w'.aws.policies, RoleName(roles[i].arn), SubsOf(w'.aws.rows, roles[i].id))
    {
      RevokeAllRows(w.aws, roles, sub, w.now);
      ListedAll(roles, i);
      SubsOfHas(w'.aws.rows, roles[i].id);
      assert sub in SubsOf(w'.aws.rows, roles[i].id);
    }
  }

  lemma {:induction false} RevokeLasts(roles: seq<Role>, w: World, sub: Sub)
    requires RowsLast(roles, w)
    ensures RowsLast(roles, Happen(roles, w, Revoke(sub)))
  {
    RevokeAllRows(w.aws, roles, sub, w.now);
    forall i: nat, s | i < |roles|
      ensures RowLasts(Happen(roles, w, Revoke(sub)), roles[i], s)
    {
      assert RowLasts(w, roles[i], s);
      ListedAll(roles, i);
    }
  }

  // ---- a reap ----

  // With distinct ids only its own role reaps a row.
  lemma {:induction false} ReapedByOwn(roles: seq<Role>, rows: map<(RoleId, Sub), Time>, now: Time, i: nat, s: Sub)
    requires Catalogue(roles) && i < |roles|
    ensures Reaped(rows, roles, now, (roles[i].id, s)) <==> Outlived(rows, roles[i], now, (roles[i].id, s))
  {
  }

  lemma {:induction false} ReapRowsInStep(roles: seq<Role>, w: World)
    requires Catalogue(roles) && Sound(roles) && RowsInStep(roles, w)
    ensures RowsInStep(roles, Happen(roles, w, Reap))
  {
    ReapAllRows(w.aws, roles, w.now);
    var rows := Happen(roles, w, Reap).aws.rows;
    forall i: nat, j: nat, s | i < |roles| && j < |roles| && SameName(roles, i, j) && (roles[i].id, s) in rows
      ensures (roles[j].id, s) in rows
    {
      ReapedByOwn(roles, w.aws.rows, w.now, i, s);
      ReapedByOwn(roles, w.aws.rows, w.now, j, s);
    }
  }

  // What reaping the first m roles leaves of role i's rows.
  lemma {:induction false} PrefixRows(roles: seq<Role>, aws: Aws, now: Time, m: nat, i: nat)
    requires Catalogue(roles) && m <= |roles| && i < |roles|
    ensures SubsOf(ReapAll(aws, roles[..m], now).rows, roles[i].id)
      == SubsOf(if i < m then ReapAll(aws, roles, now).rows else aws.rows, roles[i].id)
  {
    var id, part := roles[i].id, roles[..m];
    ReapAllRows(aws, roles, now);
    ReapAllRows(aws, part, now);
    SubsOfHas(ReapAll(aws, part, now).rows, id);
    SubsOfHas(ReapAll(aws, roles, now).rows, id);
    SubsOfHas(aws.rows, id);
    forall s ensures Reaped(aws.rows, part, now, (id, s)) <==> i < m && Reaped(aws.rows, roles, now, (id, s)) {
      ReapedByOwn(roles, aws.rows, now, i, s);
      if i < m { assert part[i] == roles[i]; }
    }
  }

  ghost predicate NamedBefore(roles: seq<Role>, m: nat, i: nat)
    requires m <= |roles| && i < |roles|
  {
    exists j: nat :: j < m && SameName(roles, j, i)
  }

  // After the first m roles: done for the names met so far, untouched elsewhere.
  ghost predicate ReapedTo(roles: seq<Role>, aws: Aws, now: Time, m: nat)
    requires m <= |roles|
  {
    var p, rows := ReapAll(aws, roles[..m], now).policies, ReapAll(aws, roles, now).rows;
    forall i: nat | i < |roles| ::
      Matches(p, RoleName(roles[i].arn), SubsOf(if NamedBefore(roles, m, i) then rows else aws.rows, roles[i].id))
  }

  lemma {:induction false} NamedBeforeNext(roles: seq<Role>, m: nat, i: nat)
    requires m < |roles| && i < |roles|
    ensures NamedBefore(roles, m + 1, i) <==> NamedBefore(roles, m, i) || SameName(roles, m, i)
  {
  }

  lemma ReapRoleShape(aws: Aws, role: Role, now: Time)
    requires RoleName(role.arn) != ""
    ensures var aws', name := ReapRole(aws, role, now), RoleName(role.arn);
      && (aws'.rows == aws.rows ==> aws' == aws)
      && (aws'.rows != aws.rows ==> Matches(aws'.policies, name, SubsOf(aws'.rows, role.id)))
      && (forall other, subs | other != name ::
            Matches(aws'.policies, other, subs) <==> Matches(aws.policies, other, subs))
  {
  }

  lemma {:induction false} ReapOwnName(roles: seq<Role>, aws: Aws, now: Time, m: nat)
    requires Catalogue(roles) && m < |roles| && ReapedTo(roles, aws, now, m) && RoleName(roles[m].arn) != ""
    requires SubsInStep(roles, ReapAll(aws, roles, now).rows)
    ensures ReapAll(aws, roles[..m + 1], now) == ReapRole(ReapAll(aws, roles[..m], now), roles[m], now)
    ensures Matches(ReapAll(aws, roles[..m + 1], now).policies, RoleName(roles[m].arn),
                    SubsOf(ReapAll(aws, roles, now).rows, roles[m].id))
  {
    hide ReapRole, SubsOf, Matches, NamedBefore;
    var before, after := ReapAll(aws, roles[..m], now), ReapAll(aws, roles[..m + 1], now);
    var rows, role := ReapAll(aws, roles, now).rows, roles[m];
    assert roles[..m + 1][..m] == roles[..m];
    ReapRoleShape(before, role, now);
    PrefixRows(roles, aws, now, m, m);
    PrefixRows(roles, aws, now, m + 1, m);
    assert Matches(before.policies, RoleName(role.arn),
                   SubsOf(if NamedBefore(roles, m, m) then rows else aws.rows, role.id));
  }

  lemma {:induction false} ReapStep(roles: seq<Role>, aws: Aws, now: Time, m: nat)
    requires Catalogue(roles) && m < |roles| && ReapedTo(roles, aws, now, m) && RoleName(roles[m].arn) != ""
    requires SubsInStep(roles, ReapAll(aws, roles, now).rows)
    ensures ReapedTo(roles, aws, now, m + 1)
  {
    hide ReapRole, ReapAll, SubsOf, Matches, NamedBefore;
    var before, after := ReapAll(aws, roles[..m], now), ReapAll(aws, roles[..m + 1], now);
    var rows, role := ReapAll(aws, roles, now).rows, roles[m];
    ReapOwnName(roles, aws, now, m);
    ReapRoleShape(before, role, now);
    forall i: nat | i < |roles|
      ensures Matches(after.policies, RoleName(roles[i].arn),
                      SubsOf(if NamedBefore(roles, m + 1, i) then rows else aws.rows, roles[i].id))
    {
      NamedBeforeNext(roles, m, i);
      if SameName(roles, m, i) {
        assert SubsOf(rows, roles[i].id) == SubsOf(rows, role.id);
      } else {
        assert Matches(before.policies, RoleName(roles[i].arn),
                       SubsOf(if NamedBefore(roles, m, i) then rows else aws.rows, roles[i].id));
      }
    }
  }

  lemma {:induction false} NoneReaped(roles: seq<Role>, aws: Aws, now: Time)
    requires Agrees(roles, aws)
    ensures ReapedTo(roles, aws, now, 0)
  {
    assert roles[..0] == [] && ReapAll(aws, roles[..0], now) == aws;
    hide ReapAll, SubsOf, Matches;
  }

  lemma {:induction false} ReapPrefix(roles: seq<Role>, aws: Aws, now: Time, m: nat)
    requires Catalogue(roles) && m <= |roles| && Agrees(roles, aws)
    requires forall i | 0 <= i < |roles| :: RoleName(roles[i].arn) != ""
    requires SubsInStep(roles, ReapAll(aws, roles, now).rows)
    ensures ReapedTo(roles, aws, now, m)
    decreases m
  {
    hide ReapAll, SubsOf, SubsInStep, Agrees, ReapedTo, Matches;
    if m == 0 {
      NoneReaped(roles, aws, now);
    } else {
      ReapPrefix(roles, aws, now, m - 1);
      ReapStep(roles, aws, now, m - 1);
    }
  }

  lemma {:induction false} ReapAgrees(roles: seq<Role>, w: World)
    requires Catalogue(roles) && Sound(roles) && RowsInStep(roles, w) && Agrees(roles, w.aws)
    ensures Agrees(roles, Happen(roles, w, Reap).aws)
  {
    var w' := Happen(roles, w, Reap);
    ReapRowsInStep(roles, w);
    InStepSubs(roles, w'.aws.rows);
    ReapPrefix(roles, w.aws, w.now, |roles|);
    assert roles[..|roles|] == roles;
    forall i: nat | i < |roles|
      ensures Matches(w'.aws.policies, RoleName(roles[i].arn), SubsOf(w'.aws.rows, roles[i].id))
    {
      assert SameName(roles, i, i);
      assert NamedBefore(roles, |roles|, i);
    }
  }

  // A row is reaped only when every session it denies is over.
  lemma {:induction false} ReapLasts(roles: seq<Role>, w: World)
    requires Catalogue(roles) && RowsInStep(roles, w) && RowsLast(roles, w)
    ensures RowsLast(roles, Happen(roles, w, Reap))
  {
    ReapAllRows(w.aws, roles, w.now);
    forall i: nat, s | i < |roles|
      ensures RowLasts(Happen(roles, w, Reap), roles[i], s)
    {
      assert RowLasts(w, roles[i], s);
      ReapedByOwn(roles, w.aws.rows, w.now, i, s);
    }
  }

  // ---- runs ----

  lemma {:induction false} WaitKeeps(roles: seq<Role>, w: World, to: Time)
    requires InStep(roles, w)
    ensures InStep(roles, Happen(roles, w, Wait(to)))
  {
    hide Agrees;
    forall i: nat, s | i < |roles|
      ensures RowLasts(Happen(roles, w, Wait(to)), roles[i], s)
    {
      assert RowLasts(w, roles[i], s);
    }
  }

  lemma {:induction false} MintKeeps(roles: seq<Role>, w: World, k: nat, sub: Sub)
    requires InStep(roles, w)
    ensures InStep(roles, Happen(roles, w, Mint(k, sub)))
  {
    hide Agrees;
    forall i: nat, s | i < |roles|
      ensures RowLasts(Happen(roles, w, Mint(k, sub)), roles[i], s)
    {
      assert RowLasts(w, roles[i], s);
    }
  }

  lemma {:induction false} StepKeeps(roles: seq<Role>, w: World, e: Event)
    requires Catalogue(roles) && Sound(roles) && InStep(roles, w)
    ensures InStep(roles, Happen(roles, w, e))
  {
    hide Agrees, Sound, Catalogue;
    match e
    case Wait(to) => WaitKeeps(roles, w, to);
    case Mint(k, sub) => MintKeeps(roles, w, k, sub);
    case Revoke(sub) =>
      hide RowsInStep, RowsLast;
      RevokeRowsInStep(roles, w, sub);
      RevokeLasts(roles, w, sub);
      RevokeAgrees(roles, w, sub);
    case Reap =>
      hide RowsInStep, RowsLast;
      ReapRowsInStep(roles, w);
      ReapLasts(roles, w);
      ReapAgrees(roles, w);
  }

  lemma {:induction false} RunKeeps(roles: seq<Role>, w: World, es: seq<Event>)
    requires Catalogue(roles) && Sound(roles) && InStep(roles, w)
    ensures InStep(roles, Run(roles, w, es))
    decreases |es|
  {
    hide InStep, Sound, Catalogue, Happen;
    if es != [] {
      StepKeeps(roles, w, es[0]);
      RunKeeps(roles, Happen(roles, w, es[0]), es[1..]);
    }
  }

  lemma {:induction false} InStepIsSafe(roles: seq<Role>, w: World)
    requires InStep(roles, w)
    ensures Safe(w)
  {
    forall x | x in w.minted && IsRevoked(w, x)
      ensures IsOver(w.now, x) || IsDenied(w.aws, x)
    {
      var i :| 0 <= i < |roles| && roles[i] == x.role;
      assert RowLasts(w, roles[i], x.sub);
      if !IsOver(w.now, x) {
        SubsOfHas(w.aws.rows, x.role.id);
        assert Matches(w.aws.policies, RoleName(roles[i].arn), SubsOf(w.aws.rows, roles[i].id));
      }
    }
  }

  /**
   With a sound catalogue, after any run every policy denies exactly the
   subjects of its rows and is absent when there are none, and every session
   minted no later than its subject's latest revocation is over or denied.
   */
  lemma {:induction false} SoundRunsAreSafe(roles: seq<Role>, start: Time, es: seq<Event>)
    requires Catalogue(roles) && Sound(roles)
    ensures var w := Run(roles, Fresh(start), es); Agrees(roles, w.aws) && Safe(w)
  {
    hide Sound, Catalogue, Run;
    FreshIsInStep(roles, start);
    RunKeeps(roles, Fresh(start), es);
    InStepIsSafe(roles, Run(roles, Fresh(start), es));
  }

  // ---- unsound catalogues ----

  lemma {:induction false} NoPolicyWithoutName(aws: Aws, roles: seq<Role>, sub: Sub, now: Time)
    requires "" !in aws.policies
    ensures "" !in RevokeAll(aws, roles, sub, now).policies
    decreases |roles|
  {
    if roles != [] { NoPolicyWithoutName(aws, roles[..|roles| - 1], sub, now); }
  }

  // A role without a name gets a row but no policy.
  lemma {:induction false} NamelessRoleFails(roles: seq<Role>, start: Time, i: nat)
    requires i < |roles| && RoleName(roles[i].arn) == ""
    ensures !Agrees(roles, Run(roles, Fresh(start), [Revoke("u")]).aws)
  {
    var w := Fresh(start);
    assert [Revoke("u")][1..] == [];
    var aws := RevokeAll(w.aws, roles, "u", start);
    NoPolicyWithoutName(w.aws, roles, "u", start);
    RevokeAllRows(w.aws, roles, "u", start);
    ListedAll(roles, i);
    SubsOfHas(aws.rows, roles[i].id);
    assert "u" in SubsOf(aws.rows, roles[i].id);
  }

  lemma OneMatch(policies: map<string, set<Sub>>, name: string, a: set<Sub>, b: set<Sub>)
    requires a != b
    ensures !(Matches(policies, name, a) && Matches(policies, name, b))
  {
  }

  function TooEarly(role: Role, start: Time): seq<Event> {
    [Revoke("u"), Wait(start + Lasts(role) + 1), Reap]
  }

  lemma {:induction false} RunOfThree(roles: seq<Role>, w: World, a: Event, b: Event, c: Event)
    ensures Run(roles, w, [a, b, c]) == Happen(roles, Happen(roles, Happen(roles, w, a), b), c)
  {
    assert [a, b, c][1..] == [b, c] && [b, c][1..] == [c] && [c][1..] == [];
    var w2 := Happen(roles, Happen(roles, w, a), b);
    assert Run(roles, w2, [c]) == Run(roles, Happen(roles, w2, c), []);
  }

  // The shorter of two same-named roles loses its row while the longer one
  // keeps its own.
  lemma {:induction false} RowsPartWays(roles: seq<Role>, start: Time, i: nat, j: nat)
    requires Catalogue(roles) && i < |roles| && j < |roles| && Lasts(roles[i]) < Lasts(roles[j])
    ensures var rows := Run(roles, Fresh(start), TooEarly(roles[i], start)).aws.rows;
      (roles[i].id, "u") !in rows && (roles[j].id, "u") in rows
  {
    hide Run, RevokeAll, ReapAll, Reaped, Listed;
    var w := Fresh(start);
    RunOfThree(roles, w, Revoke("u"), Wait(start + Lasts(roles[i]) + 1), Reap);
    var aws := RevokeAll(w.aws, roles, "u", start);
    var later := start + Lasts(roles[i]) + 1;
    RevokeAllRows(w.aws, roles, "u", start);
    ReapAllRows(aws, roles, later);
    ListedAll(roles, i);
    ListedAll(roles, j);
    ReapedByOwn(roles, aws.rows, later, i, "u");
    ReapedByOwn(roles, aws.rows, later, j, "u");
  }

  // They share one policy, which cannot be right for both.
  lemma {:induction false} SharedNameFails(roles: seq<Role>, start: Time, i: nat, j: nat)
    requires Catalogue(roles) && i < |roles| && j < |roles| && SameName(roles, i, j)
    requires Lasts(roles[i]) < Lasts(roles[j])
    ensures !Agrees(roles, Run(roles, Fresh(start), TooEarly(roles[i], start)).aws)
  {
    hide Run, TooEarly, Matches;
    var aws := Run(roles, Fresh(start), TooEarly(roles[i], start)).aws;
    RowsPartWays(roles, start, i, j);
    SubsOfHas(aws.rows, roles[i].id);
    SubsOfHas(aws.rows, roles[j].id);
    assert "u" in SubsOf(aws.rows, roles[j].id) && "u" !in SubsOf(aws.rows, roles[i].id);
    OneMatch(aws.policies, RoleName(roles[i].arn), SubsOf(aws.rows, roles[i].id), SubsOf(aws.rows, roles[j].id));
  }

  /**
   The catalogues for which every run keeps the policies in step with the rows
   are exactly the sound ones.
   */
  lemma {:induction false} AgreesIffSound(roles: seq<Role>, start: Time)
    requires Catalogue(roles)
    ensures Sound(roles) <==> forall es :: Agrees(roles, Run(roles, Fresh(start), es).aws)
  {
    if Sound(roles) {
      forall es ensures Agrees(roles, Run(roles, Fresh(start), es).aws) { SoundRunsAreSafe(roles, start, es); }
    } else if i: nat :| i < |roles| && RoleName(roles[i].arn) == "" {
      NamelessRoleFails(roles, start, i);
    } else {
      var i: nat, j: nat :|
        i < |roles| && j < |roles| && SameName(roles, i, j) && Lasts(roles[i]) != Lasts(roles[j]);
      if Lasts(roles[i]) < Lasts(roles[j]) {
        SharedNameFails(roles, start, i, j);
      } else {
        assert SameName(roles, j, i);
        SharedNameFails(roles, start, j, i);
      }
    }
  }

  // ---- what safety alone needs ----

  // Every role sessions can be had for has a name, and no role of the same
  // name is shorter.
  ghost predicate Guarded(roles: seq<Role>) {
    forall k: nat | k < |roles| && Mintable(roles[k]) ::
      RoleName(roles[k].arn) != ""
      && forall j: nat | j < |roles| && SameName(roles, j, k) :: Lasts(roles[k]) <= Lasts(roles[j])
  }

  ghost predicate Covers(policies: map<string, set<Sub>>, name: string, rows: map<(RoleId, Sub), Time>, id: RoleId) {
    forall s | (id, s) in rows :: name in policies && s in policies[name]
  }

  // What role k has a row for, every role of its name has.
  ghost predicate Nested(roles: seq<Role>, rows: map<(RoleId, Sub), Time>, k: nat)
    requires k < |roles|
  {
    forall j: nat, s | j < |roles| && SameName(roles, j, k) && (roles[k].id, s) in rows :: (roles[j].id, s) in rows
  }

  ghost predicate Dated(roles: seq<Role>, w: World) {
    forall key | key in w.aws.rows ::
      Listed(roles, key.0) && key.1 in w.revokedAt && w.aws.rows[key] == w.revokedAt[key.1]
  }

  ghost predicate CoversRole(roles: seq<Role>, aws: Aws, k: nat)
    requires k < |roles|
  {
    Nested(roles, aws.rows, k) && Covers(aws.policies, RoleName(roles[k].arn), aws.rows, roles[k].id)
  }

  ghost predicate InForce(roles: seq<Role>, w: World) {
    && Dated(roles, w) && RowsLast(roles, w) && Minted(roles, w)
    && forall k: nat | k < |roles| && Mintable(roles[k]) :: CoversRole(roles, w.aws, k)
  }

  lemma {:induction false} RevokeNests(roles: seq<Role>, aws: Aws, sub: Sub, now: Time, k: nat)
    requires k < |roles| && Nested(roles, aws.rows, k)
    ensures Nested(roles, RevokeAll(aws, roles, sub, now).rows, k)
  {
    RevokeAllRows(aws, roles, sub, now);
    forall j: nat | j < |roles| ensures Listed(roles, roles[j].id) { ListedAll(roles, j); }
  }

  lemma {:induction false} RevokeCovers(roles: seq<Role>, aws: Aws, sub: Sub, now: Time, m: nat, k: nat)
    requires m <= |roles| && k < |roles| && RoleName(roles[k].arn) != "" && NamedBefore(roles, m, k)
    requires Nested(roles, RevokeAll(aws, roles, sub, now).rows, k)
    ensures Covers(RevokeAll(aws, roles[..m], sub, now).policies, RoleName(roles[k].arn),
                   RevokeAll(aws, roles, sub, now).rows, roles[k].id)
    decreases m
  {
    hide SubsOf, Nested;
    var rows, role := RevokeAll(aws, roles, sub, now).rows, roles[m - 1];
    RevokeStep(roles, aws, sub, now, m);
    if SameName(roles, m - 1, k) {
      RevokedSubs(roles, aws, sub, now, m);
      SubsOfHas(rows, role.id);
      NestedAt(roles, rows, k, m - 1);
    } else {
      NamedBeforeNext(roles, m - 1, k);
      RevokeCovers(roles, aws, sub, now, m - 1, k);
    }
  }

  lemma {:induction false} NestedAt(roles: seq<Role>, rows: map<(RoleId, Sub), Time>, k: nat, j: nat)
    requires k < |roles| && j < |roles| && SameName(roles, j, k) && Nested(roles, rows, k)
    ensures forall s :: (roles[k].id, s) in rows ==> (roles[j].id, s) in rows
  {
  }

  // The longer-lived rows of the namesakes outlast those of role k.
  lemma {:induction false} ReapNests(roles: seq<Role>, w: World, k: nat)
    requires Catalogue(roles) && k < |roles| && Nested(roles, w.aws.rows, k) && Dated(roles, w)
    requires forall j: nat | j < |roles| && SameName(roles, j, k) :: Lasts(roles[k]) <= Lasts(roles[j])
    ensures Nested(roles, ReapAll(w.aws, roles, w.now).rows, k)
  {
    ReapAllRows(w.aws, roles, w.now);
    var rows := ReapAll(w.aws, roles, w.now).rows;
    forall j: nat, s | j < |roles| && SameName(roles, j, k) && (roles[k].id, s) in rows
      ensures (roles[j].id, s) in rows
    {
      ReapedByOwn(roles, w.aws.rows, w.now, k, s);
      ReapedByOwn(roles, w.aws.rows, w.now, j, s);
    }
  }

  lemma {:induction false} ReapAllStep(roles: seq<Role>, aws: Aws, now: Time, m: nat)
    requires 0 < m <= |roles|
    ensures ReapAll(aws, roles[..m], now) == ReapRole(ReapAll(aws, roles[..m - 1], now), roles[m - 1], now)
  {
    hide ReapRole;
    assert roles[..m][..m - 1] == roles[..m - 1] && roles[..m][m - 1] == roles[m - 1];
  }

  lemma {:induction false} ReapCoversNone(roles: seq<Role>, aws: Aws, now: Time, k: nat)
    requires k < |roles| && Covers(aws.policies, RoleName(roles[k].arn), aws.rows, roles[k].id)
    ensures Covers(ReapAll(aws, roles[..0], now).policies, RoleName(roles[k].arn), ReapAll(aws, roles, now).rows,
                   roles[k].id)
  {
    assert roles[..0] == [] && ReapAll(aws, roles[..0], now) == aws;
    ReapAllRows(aws, roles, now);
    hide ReapAll, Reaped;
  }

  lemma {:induction false} ReapCovers(roles: seq<Role>, aws: Aws, now: Time, m: nat, k: nat)
    requires Catalogue(roles) && m <= |roles| && k < |roles| && RoleName(roles[k].arn) != ""
    requires Covers(aws.policies, RoleName(roles[k].arn), aws.rows, roles[k].id)
    requires Nested(roles, ReapAll(aws, roles, now).rows, k)
    ensures Covers(ReapAll(aws, roles[..m], now).policies, RoleName(roles[k].arn), ReapAll(aws, roles, now).rows,
                   roles[k].id)
    decreases m
  {
    hide SubsOf, Nested, Reaped, ReapAll;
    if m == 0 {
      ReapCoversNone(roles, aws, now, k);
    } else {
      var rows, role := ReapAll(aws, roles, now).rows, roles[m - 1];
      ReapAllStep(roles, aws, now, m);
      ReapCovers(roles, aws, now, m - 1, k);
      if SameName(roles, m - 1, k) {
        PrefixRows(roles, aws, now, m, m - 1);
        SubsOfHas(rows, role.id);
        NestedAt(roles, rows, k, m - 1);
      }
    }
  }

  lemma {:induction false} RevokeInForce(roles: seq<Role>, w: World, sub: Sub)
    requires Guarded(roles) && InForce(roles, w)
    ensures InForce(roles, Happen(roles, w, Revoke(sub)))
  {
    hide RowsLast, Nested, Covers;
    var w' := Happen(roles, w, Revoke(sub));
    RevokeLasts(roles, w, sub);
    RevokeAllRows(w.aws, roles, sub, w.now);
    forall k: nat | k < |roles| && Mintable(roles[k])
      ensures CoversRole(roles, w'.aws, k)
    {
      assert CoversRole(roles, w.aws, k);
      RevokeNests(roles, w.aws, sub, w.now, k);
      assert SameName(roles, k, k);
      assert NamedBefore(roles, |roles|, k);
      RevokeCovers(roles, w.aws, sub, w.now, |roles|, k);
      assert roles[..|roles|] == roles;
    }
  }

  lemma {:induction false} ReapInForce(roles: seq<Role>, w: World)
    requires Catalogue(roles) && Guarded(roles) && InForce(roles, w)
    ensures InForce(roles, Happen(roles, w, Reap))
  {
    hide Catalogue, Nested, Covers, Reaped;
    var w' := Happen(roles, w, Reap);
    RowsLastAfterReap(roles, w);
    ReapAllRows(w.aws, roles, w.now);
    forall k: nat | k < |roles| && Mintable(roles[k])
      ensures CoversRole(roles, w'.aws, k)
    {
      assert CoversRole(roles, w.aws, k);
      ReapNests(roles, w, k);
      ReapCovers(roles, w.aws, w.now, |roles|, k);
      assert roles[..|roles|] == roles;
    }
  }

  // A row is reaped only when every session it denies is over.
  lemma {:induction false} RowsLastAfterReap(roles: seq<Role>, w: World)
    requires Catalogue(roles) && Dated(roles, w) && RowsLast(roles, w)
    ensures RowsLast(roles, Happen(roles, w, Reap))
  {
    ReapAllRows(w.aws, roles, w.now);
    forall i: nat, s | i < |roles|
      ensures RowLasts(Happen(roles, w, Reap), roles[i], s)
    {
      assert RowLasts(w, roles[i], s);
      ReapedByOwn(roles, w.aws.rows, w.now, i, s);
    }
  }

  lemma {:induction false} StaysInForce(roles: seq<Role>, w: World, e: Event)
    requires Catalogue(roles) && Guarded(roles) && InForce(roles, w)
    ensures InForce(roles, Happen(roles, w, e))
  {
    hide Guarded, Catalogue, CoversRole;
    match e
    case Revoke(sub) => hide InForce; RevokeInForce(roles, w, sub);
    case Reap => hide InForce; ReapInForce(roles, w);
    case _ =>
      forall i: nat, s | i < |roles|
        ensures RowLasts(Happen(roles, w, e), roles[i], s)
      {
        assert RowLasts(w, roles[i], s);
      }
  }

  lemma {:induction false} RunInForce(roles: seq<Role>, w: World, es: seq<Event>)
    requires Catalogue(roles) && Guarded(roles) && InForce(roles, w)
    ensures InForce(roles, Run(roles, w, es))
    decreases |es|
  {
    hide InForce, Guarded, Catalogue, Happen;
    if es != [] {
      StaysInForce(roles, w, es[0]);
      RunInForce(roles, Happen(roles, w, es[0]), es[1..]);
    }
  }

  lemma {:induction false} InForceIsSafe(roles: seq<Role>, w: World)
    requires InForce(roles, w)
    ensures Safe(w)
  {
    forall x | x in w.minted && IsRevoked(w, x)
      ensures IsOver(w.now, x) || IsDenied(w.aws, x)
    {
      var i :| 0 <= i < |roles| && roles[i] == x.role;
      assert RowLasts(w, roles[i], x.sub);
      assert CoversRole(roles, w.aws, i);
    }
  }

  // A session of a role without a name is never denied.
  lemma {:induction false} NamelessSessionLives(roles: seq<Role>, start: Time, k: nat)
    requires k < |roles| && Mintable(roles[k]) && RoleName(roles[k].arn) == ""
    ensures !Safe(Run(roles, Fresh(start), [Mint(k, "u"), Revoke("u")]))
  {
    hide RevokeAll, RoleName;
    var w, x := Fresh(start), Sts(roles[k], "u", start);
    var w1 := Happen(roles, w, Mint(k, "u"));
    assert [Mint(k, "u"), Revoke("u")][1..] == [Revoke("u")] && [Revoke("u")][1..] == [];
    NoPolicyWithoutName(w1.aws, roles, "u", start);
    var w2 := Happen(roles, w1, Revoke("u"));
    assert Run(roles, w1, [Revoke("u")]) == Run(roles, w2, []);
    assert x in w2.minted && IsRevoked(w2, x) && !IsOver(w2.now, x) && !IsDenied(w2.aws, x);
  }

  // The only subject with rows is "u", and role j has outlived its row: from
  // its turn in the sweep on nothing is denied under its name.
  lemma {:induction false} PolicyGoes(roles: seq<Role>, aws: Aws, now: Time, j: nat, m: nat)
    requires Catalogue(roles) && j < m <= |roles| && RoleName(roles[j].arn) != ""
    requires (forall key | key in aws.rows :: key.1 == "u") && Outlived(aws.rows, roles[j], now, (roles[j].id, "u"))
    ensures RoleName(roles[j].arn) !in ReapAll(aws, roles[..m], now).policies
    decreases m
  {
    hide SubsOf, Reaped;
    var role, before, after := roles[m - 1], ReapAll(aws, roles[..m - 1], now), ReapAll(aws, roles[..m], now);
    assert roles[..m][..m - 1] == roles[..m - 1] && roles[..m][m - 1] == role;
    ReapAllRows(aws, roles[..m - 1], now);
    PrefixHasOwnRow(roles, aws, now, m - 1);
    OneSubject(before, role, now);
    if m - 1 > j { PolicyGoes(roles, aws, now, j, m - 1); }
  }

  // Reaping the roles before it leaves role m its rows.
  lemma {:induction false} PrefixHasOwnRow(roles: seq<Role>, aws: Aws, now: Time, m: nat)
    requires Catalogue(roles) && m < |roles|
    ensures forall s :: (roles[m].id, s) in ReapAll(aws, roles[..m], now).rows <==> (roles[m].id, s) in aws.rows
  {
    hide SubsOf;
    PrefixRows(roles, aws, now, m, m);
    SubsOfHas(ReapAll(aws, roles[..m], now).rows, roles[m].id);
    SubsOfHas(aws.rows, roles[m].id);
  }

  // If the sweep takes a row of this role, it takes the role's only one.
  lemma OneSubject(aws: Aws, role: Role, now: Time)
    requires forall key | key in aws.rows :: key.1 == "u"
    ensures var aws', name := ReapRole(aws, role, now), RoleName(role.arn);
      && (name != "" && Outlived(aws.rows, role, now, (role.id, "u")) ==> aws'.policies == aws.policies - {name})
      && (!Outlived(aws.rows, role, now, (role.id, "u")) || name == "" ==> aws'.policies == aws.policies)
  {
    var rows := Awsfed.Kept(aws.rows, role, now);
    SubsOfHas(rows, role.id);
    if Outlived(aws.rows, role, now, (role.id, "u")) {
      assert (role.id, "u") in aws.rows && (role.id, "u") !in rows;
      assert SubsOf(rows, role.id) == {};
    } else {
      assert forall key | key in aws.rows :: !Outlived(aws.rows, role, now, key) by {
        forall key | key in aws.rows ensures !Outlived(aws.rows, role, now, key) {
          if key.0 == role.id { assert key == (role.id, "u"); }
        }
      }
      assert rows == aws.rows;
    }
  }

  function TooShort(k: nat, role: Role, start: Time): seq<Event> {
    [Mint(k, "u"), Revoke("u"), Wait(start + Lasts(role) + 1), Reap]
  }

  lemma {:induction false} RunOfFour(roles: seq<Role>, w: World, es: seq<Event>)
    requires |es| == 4
    ensures Run(roles, w, es)
      == Happen(roles, Happen(roles, Happen(roles, Happen(roles, w, es[0]), es[1]), es[2]), es[3])
  {
    hide Happen;
    var w1 := Happen(roles, w, es[0]);
    assert es[1..] == [es[1], es[2], es[3]];
    RunOfThree(roles, w1, es[1], es[2], es[3]);
  }

  // The shorter namesake takes the shared policy away while the session lives.
  lemma {:induction false} ShortNamesakeFrees(roles: seq<Role>, start: Time, k: nat, j: nat)
    requires Catalogue(roles) && k < |roles| && j < |roles| && Mintable(roles[k]) && RoleName(roles[k].arn) != ""
    requires SameName(roles, j, k) && Lasts(roles[j]) < Lasts(roles[k])
    ensures !Safe(Run(roles, Fresh(start), TooShort(k, roles[j], start)))
  {
    hide RevokeAll, ReapAll, Run, RoleName, Listed;
    var w, x, later := Fresh(start), Sts(roles[k], "u", start), start + Lasts(roles[j]) + 1;
    RunOfFour(roles, w, TooShort(k, roles[j], start));
    var w1 := Happen(roles, w, Mint(k, "u"));
    var w2 := Happen(roles, w1, Revoke("u"));
    RevokeAllRows(w1.aws, roles, "u", start);
    ListedAll(roles, j);
    PolicyGoes(roles, w2.aws, later, j, |roles|);
    assert roles[..|roles|] == roles;
    var w4 := Happen(roles, Happen(roles, w2, Wait(later)), Reap);
    assert x in w4.minted && IsRevoked(w4, x) && !IsOver(w4.now, x) && !IsDenied(w4.aws, x);
  }

  /**
   The catalogues for which every session revoked is over or denied in every
   run are exactly those in which a role that sessions can be had for has a
   name and no shorter namesake.
   */
  lemma {:induction false} SafeIffGuarded(roles: seq<Role>, start: Time)
    requires Catalogue(roles)
    ensures Guarded(roles) <==> forall es :: Safe(Run(roles, Fresh(start), es))
  {
    if Guarded(roles) {
      forall es ensures Safe(Run(roles, Fresh(start), es)) {
        RunInForce(roles, Fresh(start), es);
        InForceIsSafe(roles, Run(roles, Fresh(start), es));
      }
    } else {
      var k: nat :| k < |roles| && Mintable(roles[k])
        && !(RoleName(roles[k].arn) != ""
             && forall j: nat | j < |roles| && SameName(roles, j, k) :: Lasts(roles[k]) <= Lasts(roles[j]));
      if RoleName(roles[k].arn) == "" {
        NamelessSessionLives(roles, start, k);
      } else {
        var j: nat :| j < |roles| && SameName(roles, j, k) && Lasts(roles[k]) > Lasts(roles[j]);
        ShortNamesakeFrees(roles, start, k, j);
      }
    }
  }

  // ---- two things the comments say otherwise ----

  // The time at which event i of a run happens.
  ghost function NowAt(roles: seq<Role>, start: Time, es: seq<Event>, i: nat): Time
    requires i <= |es|
  {
    Run(roles, Fresh(start), es[..i]).now
  }

  ghost predicate Latest(es: seq<Event>, sub: Sub, i: nat) {
    i < |es| && es[i] == Revoke(sub) && forall j | i < j < |es| :: es[j] != Revoke(sub)
  }

  // Event i is the latest revocation of the subject, and no sweep since has
  // found it older than sessions of the role last.
  ghost predicate Stands(roles: seq<Role>, start: Time, es: seq<Event>, role: Role, sub: Sub, i: nat) {
    Latest(es, sub, i)
    && forall j | i < j < |es| && es[j].Reap? ::
         NowAt(roles, start, es, j) <= NowAt(roles, start, es, i) + Lasts(role)
  }

  lemma {:induction false} RunSnoc(roles: seq<Role>, w: World, es: seq<Event>)
    requires es != []
    ensures Run(roles, w, es) == Happen(roles, Run(roles, w, es[..|es| - 1]), es[|es| - 1])
    decreases |es|
  {
    hide Happen;
    if |es| == 1 {
      assert es[1..] == [] && es[..0] == [];
    } else {
      RunSnoc(roles, Happen(roles, w, es[0]), es[1..]);
      assert es[1..][..|es| - 2] == es[..|es| - 1][1..] && es[..|es| - 1][0] == es[0];
    }
  }

  lemma {:induction false} StandsBefore(roles: seq<Role>, start: Time, es: seq<Event>, role: Role, sub: Sub, i: nat)
    requires es != [] && i < |es| - 1
    ensures var n := |es| - 1;
      Stands(roles, start, es, role, sub, i) <==>
        && Stands(roles, start, es[..n], role, sub, i) && es[n] != Revoke(sub)
        && (es[n].Reap? ==> NowAt(roles, start, es, n) <= NowAt(roles, start, es, i) + Lasts(role))
    ensures NowAt(roles, start, es[..|es| - 1], i) == NowAt(roles, start, es, i)
    ensures Latest(es, sub, i) <==> Latest(es[..|es| - 1], sub, i) && es[|es| - 1] != Revoke(sub)
  {
    hide Run;
    var n := |es| - 1;
    var front := es[..n];
    assert forall j | 0 <= j <= n :: front[..j] == es[..j];
    assert forall j | 0 <= j < n :: front[j] == es[j];
  }

  lemma {:induction false} LatestDates(roles: seq<Role>, start: Time, es: seq<Event>, sub: Sub, i: nat)
    requires Latest(es, sub, i)
    ensures var w := Run(roles, Fresh(start), es); sub in w.revokedAt && w.revokedAt[sub] == NowAt(roles, start, es, i)
    decreases |es|
  {
    hide Run;
    RunSnoc(roles, Fresh(start), es);
    if i < |es| - 1 {
      StandsBefore(roles, start, es, Role(0, "", 0), sub, i);
      LatestDates(roles, start, es[..|es| - 1], sub, i);
    }
  }

  lemma {:induction false} RowStands(roles: seq<Role>, start: Time, es: seq<Event>, k: nat, sub: Sub)
    requires Catalogue(roles) && k < |roles|
    ensures (roles[k].id, sub) in Run(roles, Fresh(start), es).aws.rows
      <==> exists i: nat :: Stands(roles, start, es, roles[k], sub, i)
    decreases |es|
  {
    hide Run, Catalogue, Stands, Latest;
    if es == [] {
      assert Run(roles, Fresh(start), []) == Fresh(start) by { EmptyRun(roles, Fresh(start)); }
      NothingStands(roles, start, roles[k], sub);
    } else {
      var n := |es| - 1;
      RunSnoc(roles, Fresh(start), es);
      RowStands(roles, start, es[..n], k, sub);
      if es[n] == Revoke(sub) {
        RevokedStands(roles, start, es, k, sub);
      } else {
        RowMoves(roles, start, es, k, sub);
        if i: nat :| Stands(roles, start, es, roles[k], sub, i) { IsEarlier(roles, start, es, roles[k], sub, i); }
        if i: nat :| Stands(roles, start, es[..n], roles[k], sub, i) { IsEarlier(roles, start, es, roles[k], sub, i); }
      }
    }
  }

  lemma EmptyRun(roles: seq<Role>, w: World)
    ensures Run(roles, w, []) == w
  {
  }

  lemma NothingStands(roles: seq<Role>, start: Time, role: Role, sub: Sub)
    ensures forall i: nat :: !Stands(roles, start, [], role, sub, i)
  {
  }

  lemma {:induction false} RevokedStands(roles: seq<Role>, start: Time, es: seq<Event>, k: nat, sub: Sub)
    requires es != [] && es[|es| - 1] == Revoke(sub) && k < |roles|
    ensures (roles[k].id, sub) in Run(roles, Fresh(start), es).aws.rows
    ensures Stands(roles, start, es, roles[k], sub, |es| - 1)
  {
    hide Run;
    RunSnoc(roles, Fresh(start), es);
    var w := Run(roles, Fresh(start), es[..|es| - 1]);
    RevokeAllRows(w.aws, roles, sub, w.now);
    ListedAll(roles, k);
  }

  // A standing revocation before the last event is one of the shorter run.
  lemma {:induction false} IsEarlier(roles: seq<Role>, start: Time, es: seq<Event>, role: Role, sub: Sub, i: nat)
    requires es != [] && es[|es| - 1] != Revoke(sub)
    requires Stands(roles, start, es, role, sub, i) || Stands(roles, start, es[..|es| - 1], role, sub, i)
    ensures i < |es| - 1
    ensures var n := |es| - 1;
      Stands(roles, start, es, role, sub, i) <==>
        && Stands(roles, start, es[..n], role, sub, i)
        && (es[n].Reap? ==>
              && sub in Run(roles, Fresh(start), es[..n]).revokedAt
              && NowAt(roles, start, es, n) <= Run(roles, Fresh(start), es[..n]).revokedAt[sub] + Lasts(role))
  {
    hide Run;
    StandsBefore(roles, start, es, role, sub, i);
    LatestDates(roles, start, es[..|es| - 1], sub, i);
  }

  // Only a sweep takes the row away, and only one that finds it too old.
  lemma {:induction false} RowMoves(roles: seq<Role>, start: Time, es: seq<Event>, k: nat, sub: Sub)
    requires Catalogue(roles) && k < |roles| && es != [] && es[|es| - 1] != Revoke(sub)
    ensures var n, key := |es| - 1, (roles[k].id, sub); var w := Run(roles, Fresh(start), es[..n]);
      key in Run(roles, Fresh(start), es).aws.rows <==>
        && key in w.aws.rows
        && (es[n].Reap? ==> sub in w.revokedAt && NowAt(roles, start, es, n) <= w.revokedAt[sub] + Lasts(roles[k]))
  {
    hide Run, Catalogue, Reaped;
    var n := |es| - 1;
    RunSnoc(roles, Fresh(start), es);
    RunDates(roles, Fresh(start), es[..n]);
    var w := Run(roles, Fresh(start), es[..n]);
    match es[n]
    case Revoke(other) => RevokeAllRows(w.aws, roles, other, w.now);
    case Reap =>
      ReapAllRows(w.aws, roles, w.now);
      ReapedByOwn(roles, w.aws.rows, w.now, k, sub);
    case _ =>
  }

  lemma {:induction false} RunDates(roles: seq<Role>, w: World, es: seq<Event>)
    requires Dated(roles, w)
    ensures Dated(roles, Run(roles, w, es))
    decreases |es|
  {
    hide Dated, Happen;
    if es != [] {
      HappenDates(roles, w, es[0]);
      RunDates(roles, Happen(roles, w, es[0]), es[1..]);
    }
  }

  lemma {:induction false} HappenDates(roles: seq<Role>, w: World, e: Event)
    requires Dated(roles, w)
    ensures Dated(roles, Happen(roles, w, e))
  {
    match e
    case Revoke(sub) => RevokeAllRows(w.aws, roles, sub, w.now);
    case Reap => ReapAllRows(w.aws, roles, w.now);
    case _ =>
  }

  /**
   A revocation is not limited to the sessions already issued: after any run a
   session minted now is denied exactly if its subject has been revoked and no
   sweep since the latest revocation came later than that revocation plus the
   role's duration.
   */
  lemma {:induction false} LaterSessionsAreDeniedToo(roles: seq<Role>, start: Time, es: seq<Event>, sub: Sub, k: nat)
    requires Catalogue(roles) && Sound(roles) && k < |roles|
    ensures var w := Run(roles, Fresh(start), es);
      IsDenied(w.aws, Sts(roles[k], sub, w.now)) <==> exists i: nat :: Stands(roles, start, es, roles[k], sub, i)
  {
    hide Run, Sound, Catalogue, Stands, SubsOf;
    var w := Run(roles, Fresh(start), es);
    SoundRunsAreSafe(roles, start, es);
    RowStands(roles, start, es, k, sub);
    SubsOfHas(w.aws.rows, roles[k].id);
    assert Matches(w.aws.policies, RoleName(roles[k].arn), SubsOf(w.aws.rows, roles[k].id));
  }

  /**
   The reaper is no retry of a failed push: as long as no row is old enough to
   go it leaves every policy as it is, in step with the rows or not.
   */
  lemma {:induction false} ReapIsNoRetry(aws: Aws, roles: seq<Role>, now: Time)
    requires forall k :: !Reaped(aws.rows, roles, now, k)
    ensures ReapAll(aws, roles, now) == aws
    decreases |roles|
  {
    if roles != [] {
      var n := |roles| - 1;
      forall k ensures !Reaped(aws.rows, roles[..n], now, k) && !Outlived(aws.rows, roles[n], now, k) {
        assert !Reaped(aws.rows, roles, now, k);
        assert forall i | 0 <= i < n :: roles[..n][i] == roles[i];
      }
      ReapIsNoRetry(aws, roles[..n], now);
      SweepGoesByAge(aws.rows, roles[n], now);
      assert Awsfed.Kept(aws.rows, roles[n], now) == aws.rows;
    }
  }
}
