/**
 Login attempts that overlap: the failure counter is read at the start of an
 attempt and overwritten at its end, without a guard. When it is still exact,
 and how many wrong passwords get by before the account locks.
 */
module LockoutRuns {
  import opened Model
  import opened Lockout

  type ReqId = nat

  // An attempt that has read the user row.
  datatype Seen = Seen(row: Account, a: Attempt)

  datatype Desk = Desk(account: Account, open: map<ReqId, Seen>)

  datatype Move =
    | Look(r: ReqId, a: Attempt)
    | Reply(r: ReqId)

  // An attempt overwrites the counter and the lock with what the row it has
  // read makes of them, unless it writes nothing.
  function Written(rules: seq<Rule>, account: Account, x: Seen): Account {
    var after := After(rules, x.row, x.a);
    if x.a.passwordOk && !Accepts(rules, x.row, x.a) then account
    else account.(failed := after.failed, lockedUntil := after.lockedUntil)
  }

  // A move that is not possible changes nothing.
  function Take(rules: seq<Rule>, d: Desk, m: Move): Desk {
    match m
    case Look(r, a) => if r in d.open then d else d.(open := d.open[r := Seen(d.account, a)])
    case Reply(r) => if r in d.open then Desk(Written(rules, d.account, d.open[r]), d.open - {r}) else d
  }

  function Play(rules: seq<Rule>, d: Desk, moves: seq<Move>): Desk
    decreases |moves|
  {
    if moves == [] then d else Play(rules, Take(rules, d, moves[0]), moves[1..])
  }

  lemma {:induction false} PlayAppend(rules: seq<Rule>, d: Desk, xs: seq<Move>, ys: seq<Move>)
    ensures Play(rules, d, xs + ys) == Play(rules, Play(rules, d, xs), ys)
    decreases |xs|
  {
    if xs == [] {
      assert xs + ys == ys;
    } else {
      assert (xs + ys)[1..] == xs[1..] + ys;
      PlayAppend(rules, Take(rules, d, xs[0]), xs[1..], ys);
    }
  }

  lemma {:induction false} PlaySnoc(rules: seq<Rule>, d: Desk, moves: seq<Move>, n: nat)
    requires n < |moves|
    ensures Play(rules, d, moves[..n + 1]) == Take(rules, Play(rules, d, moves[..n]), moves[n])
  {
    assert moves[..n + 1] == moves[..n] + [moves[n]];
    PlayAppend(rules, d, moves[..n], [moves[n]]);
    assert [moves[n]][1..] == [];
  }

  // ---- when the counter is exact ----

  // The wrong passwords answered since the last accepted login, counting n before this move.
  function Tally(rules: seq<Rule>, d: Desk, m: Move, n: nat): nat {
    if m.Look? || m.r !in d.open then n
    else
      var x := d.open[m.r];
      if !x.a.passwordOk then n + 1 else if Accepts(rules, x.row, x.a) then 0 else n
  }

  function Failures(rules: seq<Rule>, d: Desk, moves: seq<Move>, n: nat): nat
    decreases |moves|
  {
    if moves == [] then n else Failures(rules, Take(rules, d, moves[0]), moves[1..], Tally(rules, d, moves[0], n))
  }

  lemma {:induction false} FailuresSnoc(rules: seq<Rule>, d: Desk, moves: seq<Move>, n: nat, k: nat)
    requires k < |moves|
    ensures Failures(rules, d, moves[..k + 1], n)
      == Tally(rules, Play(rules, d, moves[..k]), moves[k], Failures(rules, d, moves[..k], n))
    decreases k
  {
    hide Take, Tally;
    if k == 0 {
      assert moves[..1] == [moves[0]] && moves[..0] == [] && moves[..1][1..] == [];
    } else {
      assert moves[..k + 1][1..] == moves[1..][..k] && moves[..k][1..] == moves[1..][..k - 1]
        && moves[..k][0] == moves[0];
      FailuresSnoc(rules, Take(rules, d, moves[0]), moves[1..], Tally(rules, d, moves[0], n), k - 1);
    }
  }

  predicate CountsFailures(rules: seq<Rule>, d: Desk, moves: seq<Move>, k: nat)
    requires k <= |moves|
  {
    Play(rules, d, moves[..k]).account.failed == Failures(rules, d, moves[..k], d.account.failed)
  }

  // If move k answers a wrong password, the count that attempt read is still
  // the count: the guard the UPDATE lacks.
  predicate UpToDate(rules: seq<Rule>, d: Desk, moves: seq<Move>, k: nat)
    requires k < |moves|
  {
    var now, m := Play(rules, d, moves[..k]), moves[k];
    m.Reply? && m.r in now.open && !now.open[m.r].a.passwordOk ==> now.open[m.r].row.failed == now.account.failed
  }

  lemma {:induction false} OneMoreCounts(rules: seq<Rule>, d: Desk, moves: seq<Move>, k: nat)
    requires k < |moves| && CountsFailures(rules, d, moves, k)
    ensures CountsFailures(rules, d, moves, k + 1) <==> UpToDate(rules, d, moves, k)
  {
    hide Play, Failures, Accepts;
    PlaySnoc(rules, d, moves, k);
    FailuresSnoc(rules, d, moves, d.account.failed, k);
  }

  /**
   Over every interleaving of any number of attempts: the counter is at every
   moment the number of wrong passwords answered since the last accepted login
   if and only if every one of them was answered on the count it had read.
   */
  lemma {:induction false} CounterExactIffUpToDate(rules: seq<Rule>, d: Desk, moves: seq<Move>)
    ensures (forall k: nat | k <= |moves| :: CountsFailures(rules, d, moves, k))
      <==> (forall k: nat | k < |moves| :: UpToDate(rules, d, moves, k))
  {
    hide CountsFailures, UpToDate;
    if forall k: nat | k < |moves| :: UpToDate(rules, d, moves, k) { CountsUpTo(rules, d, moves, |moves|); }
    if forall k: nat | k <= |moves| :: CountsFailures(rules, d, moves, k) {
      forall k: nat | k < |moves| ensures UpToDate(rules, d, moves, k) {
        assert CountsFailures(rules, d, moves, k + 1);
        OneMoreCounts(rules, d, moves, k);
      }
    }
  }

  lemma {:induction false} CountsUpTo(rules: seq<Rule>, d: Desk, moves: seq<Move>, n: nat)
    requires n <= |moves| && forall k: nat | k < |moves| :: UpToDate(rules, d, moves, k)
    ensures forall k: nat | k <= n :: CountsFailures(rules, d, moves, k)
    decreases n
  {
    if n == 0 {
      assert moves[..0] == [];
    } else {
      hide CountsFailures, UpToDate;
      CountsUpTo(rules, d, moves, n - 1);
      assert UpToDate(rules, d, moves, n - 1);
      OneMoreCounts(rules, d, moves, n - 1);
    }
  }

  predicate LockFits(account: Account) {
    account.lockedUntil.Some? <==> account.failed >= MAX_FAILURES
  }

  /** An attempt into which no other answer falls is up to date when it is answered. */
  lemma {:induction false} AloneIsUpToDate(rules: seq<Rule>, d: Desk, r: ReqId, a: Attempt, moves: seq<Move>)
    requires r !in d.open && forall m | m in moves :: m.Look?
    ensures var late := Play(rules, Take(rules, d, Look(r, a)), moves);
      r in late.open && late.open[r] == Seen(d.account, a) && late.account == d.account
  {
    LooksChangeNothing(rules, Take(rules, d, Look(r, a)), moves);
  }

  lemma {:induction false} LooksChangeNothing(rules: seq<Rule>, d: Desk, moves: seq<Move>)
    requires forall m | m in moves :: m.Look?
    ensures var late := Play(rules, d, moves);
      late.account == d.account && forall r | r in d.open :: r in late.open && late.open[r] == d.open[r]
    decreases |moves|
  {
    if moves != [] { LooksChangeNothing(rules, Take(rules, d, moves[0]), moves[1..]); }
  }

  /**
   Two wrong passwords that both read the row before either is answered count
   once.
   */
  lemma {:induction false} TornFailuresCountOnce(rules: seq<Rule>, d: Desk, a: ReqId, x: Attempt, b: ReqId, y: Attempt)
    requires a != b && a !in d.open && b !in d.open && !x.passwordOk && !y.passwordOk
    ensures var moves := [Look(a, x), Look(b, y), Reply(a), Reply(b)];
      && Failures(rules, d, moves, 0) == 2
      && Play(rules, d, moves).account.failed == d.account.failed + 1
  {
    hide Accepts;
    var moves := [Look(a, x), Look(b, y), Reply(a), Reply(b)];
    var d1 := Take(rules, d, moves[0]);
    var d2 := Take(rules, d1, moves[1]);
    var d3 := Take(rules, d2, moves[2]);
    var last := [Reply(b)];
    var late := [Reply(a), Reply(b)];
    assert moves[1..][1..] == late && late[1..] == last && last[1..] == [];
    assert Play(rules, d, moves) == Play(rules, d2, late)
      && Failures(rules, d, moves, 0) == Failures(rules, d2, late, 0);
    assert Play(rules, d2, late) == Play(rules, d3, last) == Take(rules, d3, Reply(b));
    assert Failures(rules, d2, late, 0) == Failures(rules, d3, last, 1);
    assert d2.open[a] == Seen(d.account, x) && d3.open[b] == Seen(d.account, y);
  }

  // A count lost is a lock lost: overlapping or not, the account is locked
  // exactly while the counter stands at ten or more.
  lemma {:induction false} LockFollowsCounter(rules: seq<Rule>, d: Desk, moves: seq<Move>)
    requires LockFits(d.account)
    ensures LockFits(Play(rules, d, moves).account)
    decreases |moves|
  {
    if moves != [] { LockFollowsCounter(rules, Take(rules, d, moves[0]), moves[1..]); }
  }

  // ---- how a lock comes off again ----

  predicate Stands(account: Account, end: Time) {
    account.lockedUntil.Some? && account.lockedUntil.value >= end
  }

  // An answer after which no lock up to `end` is on.
  predicate Undoes(rules: seq<Rule>, x: Seen, end: Time) {
    if x.a.passwordOk then Accepts(rules, x.row, x.a)
    else x.row.failed + 1 < MAX_FAILURES || x.a.at + LOCK_DURATION < end
  }

  predicate UndoneAt(rules: seq<Rule>, d: Desk, moves: seq<Move>, end: Time, k: nat)
    requires k < |moves|
  {
    var now, m := Play(rules, d, moves[..k]), moves[k];
    m.Reply? && m.r in now.open && Undoes(rules, now.open[m.r], end)
  }

  lemma {:induction false} OneMoreStands(rules: seq<Rule>, d: Desk, moves: seq<Move>, end: Time, k: nat)
    requires k < |moves| && Stands(Play(rules, d, moves[..k]).account, end)
    ensures Stands(Play(rules, d, moves[..k + 1]).account, end) <==> !UndoneAt(rules, d, moves, end, k)
  {
    hide Play, Accepts;
    PlaySnoc(rules, d, moves, k);
  }

  lemma {:induction false} StandsUpTo(rules: seq<Rule>, d: Desk, moves: seq<Move>, end: Time, n: nat)
    requires Stands(d.account, end) && n <= |moves| && forall k: nat | k < n :: !UndoneAt(rules, d, moves, end, k)
    ensures forall k: nat | k <= n :: Stands(Play(rules, d, moves[..k]).account, end)
    decreases n
  {
    if n == 0 {
      assert moves[..0] == [];
    } else {
      hide Play, UndoneAt;
      StandsUpTo(rules, d, moves, end, n - 1);
      OneMoreStands(rules, d, moves, end, n - 1);
    }
  }

  /**
   Whatever the interleaving: a lock is on all the time if and only if no wrong
   password is answered on a count below nine, none with a clock reading older
   than the lock's, and no login is accepted.
   */
  lemma {:induction false} LockStandsIffNotUndone(rules: seq<Rule>, d: Desk, moves: seq<Move>, end: Time)
    requires Stands(d.account, end)
    ensures (forall k: nat | k <= |moves| :: Stands(Play(rules, d, moves[..k]).account, end))
      <==> (forall k: nat | k < |moves| :: !UndoneAt(rules, d, moves, end, k))
  {
    hide Play, UndoneAt, Stands;
    if forall k: nat | k < |moves| :: !UndoneAt(rules, d, moves, end, k) { StandsUpTo(rules, d, moves, end, |moves|); }
    if forall k: nat | k <= |moves| :: Stands(Play(rules, d, moves[..k]).account, end) {
      forall k: nat | k < |moves| ensures !UndoneAt(rules, d, moves, end, k) {
        OneMoreStands(rules, d, moves, end, k);
      }
    }
  }

  lemma {:induction false} StandingLockRefuses(rules: seq<Rule>, d: Desk, moves: seq<Move>, end: Time, a: Attempt)
    requires Stands(d.account, end) && AccountLockout in rules && a.at < end
    requires forall k: nat | k < |moves| :: !UndoneAt(rules, d, moves, end, k)
    ensures !Accepts(rules, Play(rules, d, moves).account, a)
  {
    StandsUpTo(rules, d, moves, end, |moves|);
    assert moves[..|moves|] == moves;
    hide Play, UndoneAt;
    assert Violates(AccountLockout, ContextOf(Play(rules, d, moves).account, a));
  }

  /**
   So a login that reads the row within the half hour of a locking failure is
   accepted only if some answer in between has undone the lock.
   */
  lemma {:induction false} LoginMeansUndone(rules: seq<Rule>, d: Desk, moves: seq<Move>, end: Time, a: Attempt)
    requires Stands(d.account, end) && AccountLockout in rules && a.at < end
    requires Accepts(rules, Play(rules, d, moves).account, a)
    ensures exists k: nat | k < |moves| :: UndoneAt(rules, d, moves, end, k)
  {
    hide Play, UndoneAt, Accepts;
    if forall k: nat | k < |moves| :: !UndoneAt(rules, d, moves, end, k) {
      StandingLockRefuses(rules, d, moves, end, a);
    }
  }

  // n attempts with this wrong password, one after another.
  function Singles(n: nat, w: Attempt): seq<Move> {
    if n == 0 then [] else Singles(n - 1, w) + [Look(1, w), Reply(1)]
  }

  lemma {:induction false} SingleCounts(rules: seq<Rule>, d: Desk, w: Attempt)
    requires !w.passwordOk && 1 !in d.open
    ensures Play(rules, d, [Look(1, w), Reply(1)]) == d.(account := After(rules, d.account, w))
  {
    hide Accepts;
    var d1 := Take(rules, d, Look(1, w));
    assert [Look(1, w), Reply(1)][1..] == [Reply(1)] && [Reply(1)][1..] == [];
    assert d1.open - {1} == d.open;
  }

  lemma {:induction false} SinglesCount(rules: seq<Rule>, d: Desk, n: nat, w: Attempt)
    requires !w.passwordOk && 1 !in d.open && n > 0
    ensures var lock := if d.account.failed + n >= MAX_FAILURES then Some(w.at + LOCK_DURATION) else None;
      Play(rules, d, Singles(n, w)) == d.(account := d.account.(failed := d.account.failed + n, lockedUntil := lock))
    decreases n
  {
    hide Take;
    var d1 := Play(rules, d, Singles(n - 1, w));
    if n > 1 { SinglesCount(rules, d, n - 1, w); }
    PlayAppend(rules, d, Singles(n - 1, w), [Look(1, w), Reply(1)]);
    SingleCounts(rules, d1, w);
  }

  /**
   One wrong password that read the row first and is answered last takes off
   the lock that ten others have put on in the meantime.
   */
  lemma {:induction false} LateAnswerUnlocks(rules: seq<Rule>, account: Account, w: Attempt)
    requires Unblemished(account) && !w.passwordOk
    ensures var d := Play(rules, Desk(account, map[]), [Look(0, w)] + Singles(10, w));
      && d.account == account.(failed := 10, lockedUntil := Some(w.at + LOCK_DURATION))
      && Take(rules, d, Reply(0)) == Desk(account.(failed := 1, lockedUntil := None), map[])
  {
    hide Accepts;
    var start := Desk(account, map[]);
    var d1 := Take(rules, start, Look(0, w));
    PlayAppend(rules, start, [Look(0, w)], Singles(10, w));
    assert [Look(0, w)][1..] == [];
    SinglesCount(rules, d1, 10, w);
    assert map[0 := Seen(account, w)] - {0} == map[];
  }

  /**
   And then a right password is accepted at any time, were it within the half
   hour, if the other rules let it pass.
   */
  lemma {:induction false} LoginWithinTheHalfHour(rules: seq<Rule>, account: Account, w: Attempt, a: Attempt)
    requires Unblemished(account) && account.active && !w.passwordOk && a.passwordOk
    requires forall r | r in rules && r != AccountLockout :: !Violates(r, ContextOf(account, a))
    ensures var moves := [Look(0, w)] + Singles(10, w) + [Reply(0)];
      Accepts(rules, Play(rules, Desk(account, map[]), moves).account, a)
  {
    var start := Desk(account, map[]);
    LateAnswerUnlocks(rules, account, w);
    PlayAppend(rules, start, [Look(0, w)] + Singles(10, w), [Reply(0)]);
    assert [Reply(0)][1..] == [];
    hide Play, Take;
    var late := account.(failed := 1, lockedUntil := None);
    forall r | r in rules ensures !Violates(r, ContextOf(late, a)) {
      if r != AccountLockout { assert !Violates(r, ContextOf(account, a)); }
    }
  }

  // ---- how many wrong passwords get by ----

  // Wrong passwords answered.
  function Guesses(rules: seq<Rule>, d: Desk, moves: seq<Move>): nat
    decreases |moves|
  {
    if moves == [] then 0
    else
      var one := if moves[0].Reply? && moves[0].r in d.open then 1 else 0;
      one + Guesses(rules, Take(rules, d, moves[0]), moves[1..])
  }

  predicate ReadBelow(d: Desk, m: Move, count: nat) {
    m.Reply? && m.r in d.open && d.open[m.r].row.failed < count
  }

  // Those of them that had read a lower count.
  function Tries(rules: seq<Rule>, d: Desk, moves: seq<Move>, count: nat): nat
    decreases |moves|
  {
    if moves == [] then 0
    else (if ReadBelow(d, moves[0], count) then 1 else 0) + Tries(rules, Take(rules, d, moves[0]), moves[1..], count)
  }

  // All attempts are wrong passwords, and at most c overlap.
  predicate Overlap(rules: seq<Rule>, d: Desk, moves: seq<Move>, c: nat)
    decreases |moves|
  {
    && |d.open| <= c
    && (moves != [] ==>
          (moves[0].Look? ==> !moves[0].a.passwordOk) && Overlap(rules, Take(rules, d, moves[0]), moves[1..], c))
  }

  // The counter never exceeds this.
  predicate Below(rules: seq<Rule>, d: Desk, moves: seq<Move>, top: nat)
    decreases |moves|
  {
    d.account.failed <= top && (moves != [] ==> Below(rules, Take(rules, d, moves[0]), moves[1..], top))
  }

  // The account never locks.
  predicate Unnoticed(rules: seq<Rule>, d: Desk, moves: seq<Move>, c: nat) {
    Overlap(rules, d, moves, c) && Below(rules, d, moves, MAX_FAILURES - 1)
  }

  // The ways to place j attempts on so many counts, without regard to order.
  function Ways(j: nat, levels: nat): nat
    decreases j + levels
  {
    if j == 0 then 1 else if levels == 0 then 0 else Ways(j - 1, levels) + Ways(j, levels - 1)
  }

  function Choose(n: nat, k: nat): nat {
    if k == 0 then 1 else if n == 0 then 0 else Choose(n - 1, k - 1) + Choose(n - 1, k)
  }

  lemma {:induction false} ChooseTooMany(n: nat, k: nat)
    requires k > n
    ensures Choose(n, k) == 0
    decreases n
  {
    if n > 0 {
      ChooseTooMany(n - 1, k - 1);
      ChooseTooMany(n - 1, k);
    }
  }

  lemma {:induction false} WaysIsChoose(j: nat, levels: nat)
    requires levels > 0
    ensures Ways(j, levels) == Choose(j + levels - 1, j)
    decreases j + levels
  {
    if j > 0 {
      WaysIsChoose(j - 1, levels);
      if levels > 1 { WaysIsChoose(j, levels - 1); } else { ChooseTooMany(j - 1, j); }
    }
  }

  lemma {:induction false} MoreWays(i: nat, j: nat, levels: nat)
    requires i <= j && levels > 0
    ensures Ways(i, levels) <= Ways(j, levels)
    decreases j
  {
    if i < j { MoreWays(i, j - 1, levels); }
  }

  lemma {:induction false} MoreLevels(j: nat, levels: nat)
    ensures Ways(j, levels) <= Ways(j, levels + 1)
  {
  }

  function Sum(cs: seq<nat>): nat {
    if cs == [] then 0 else cs[0] + Sum(cs[1..])
  }

  // cs[x] attempts on count x, from the lowest count up: how many such
  // placements come later in the order in which fewer on a lower count is later.
  function Left(cs: seq<nat>): int
    decreases |cs|
  {
    if cs == [] then 0 else Ways(Sum(cs), |cs|) - Ways(Sum(cs[1..]), |cs|) + Left(cs[1..])
  }

  lemma {:induction false} LeftIsBounded(cs: seq<nat>)
    requires cs != [] || Sum(cs) == 0
    ensures 0 <= Left(cs) < Ways(Sum(cs), |cs|)
    decreases |cs|
  {
    if cs != [] {
      var rest := Sum(cs[1..]);
      LeftIsBounded(cs[1..]);
      MoreLevels(rest, |cs| - 1);
      MoreWays(rest, Sum(cs), |cs|);
    }
  }

  // Fewer on some count, with the counts below unchanged, is later.
  lemma {:induction false} LeftDecreases(cs: seq<nat>, cs': seq<nat>, x: nat)
    requires |cs| == |cs'| && Sum(cs) == Sum(cs') && x < |cs| && cs[..x] == cs'[..x] && cs'[x] < cs[x]
    ensures Left(cs') < Left(cs)
    decreases x
  {
    if x > 0 {
      assert cs[..x][0] == cs'[..x][0] && cs[1..][..x - 1] == cs[..x][1..] && cs'[1..][..x - 1] == cs'[..x][1..];
      LeftDecreases(cs[1..], cs'[1..], x - 1);
    } else {
      var n, rest, rest' := |cs|, Sum(cs[1..]), Sum(cs'[1..]);
      LeftIsBounded(cs[1..]);
      LeftIsBounded(cs'[1..]);
      assert rest' > rest;
      assert Ways(rest', n) == Ways(rest' - 1, n) + Ways(rest', n - 1);
      MoreWays(rest, rest' - 1, n);
    }
  }

  lemma {:induction false} SumUpdate(cs: seq<nat>, x: nat, n: nat)
    requires x < |cs|
    ensures Sum(cs[x := n]) == Sum(cs) - cs[x] + n
    decreases x
  {
    if x == 0 {
      assert cs[0 := n][1..] == cs[1..];
    } else {
      assert cs[x := n][1..] == cs[1..][x - 1 := n];
      SumUpdate(cs[1..], x - 1, n);
    }
  }

  // The slot of a count: those from the last slot's on share it.
  function Slot(failed: nat, slots: nat): nat
    requires slots > 0
  {
    if failed < slots then failed else slots - 1
  }

  function At(open: map<ReqId, Seen>, x: nat, slots: nat): set<ReqId>
    requires slots > 0
  {
    set r | r in open && Slot(open[r].row.failed, slots) == x
  }

  // c attempts: each open one sits in the slot of the count it read, the rest
  // in that of the count as it stands.
  ghost predicate Placed(d: Desk, c: nat, cs: seq<nat>) {
    && |cs| > 0 && Sum(cs) == c && |d.open| <= c && (forall r | r in d.open :: !d.open[r].a.passwordOk)
    && forall x: nat | x < |cs| ::
         cs[x] == |At(d.open, x, |cs|)| + if x == Slot(d.account.failed, |cs|) then c - |d.open| else 0
  }

  lemma {:induction false} LookKeepsPlaces(rules: seq<Rule>, d: Desk, m: Move, c: nat, cs: seq<nat>)
    requires Placed(d, c, cs) && m.Look? && !m.a.passwordOk && |Take(rules, d, m).open| <= c
    ensures Placed(Take(rules, d, m), c, cs)
  {
    var d' := Take(rules, d, m);
    if m.r !in d.open {
      LookAdds(d.open, m.r, Seen(d.account, m.a));
      forall x: nat | x < |cs|
        ensures |At(d'.open, x, |cs|)| == |At(d.open, x, |cs|)| + if x == Slot(d.account.failed, |cs|) then 1 else 0
      {
        LookAddsAt(d.open, m.r, Seen(d.account, m.a), x, |cs|);
      }
      hide At, Slot, Sum;
    }
  }

  lemma LookAdds(open: map<ReqId, Seen>, r: ReqId, x: Seen)
    requires r !in open
    ensures |open[r := x]| == |open| + 1
  {
    assert open[r := x].Keys == open.Keys + {r};
    assert |open[r := x]| == |open[r := x].Keys| && |open| == |open.Keys|;
  }

  lemma LookAddsAt(open: map<ReqId, Seen>, r: ReqId, seen: Seen, x: nat, slots: nat)
    requires r !in open && slots > 0
    ensures |At(open[r := seen], x, slots)| == |At(open, x, slots)| + if x == Slot(seen.row.failed, slots) then 1 else 0
  {
    var here := At(open, x, slots);
    assert At(open[r := seen], x, slots) == if x == Slot(seen.row.failed, slots) then here + {r} else here;
  }

  lemma ReplyTakes(open: map<ReqId, Seen>, r: ReqId)
    requires r in open
    ensures |open - {r}| == |open| - 1
  {
    assert (open - {r}).Keys == open.Keys - {r};
    assert |open - {r}| == |(open - {r}).Keys| && |open| == |open.Keys|;
  }

  lemma ReplyTakesAt(open: map<ReqId, Seen>, r: ReqId, x: nat, slots: nat)
    requires r in open && slots > 0
    ensures var here := if x == Slot(open[r].row.failed, slots) then 1 else 0;
      here <= |At(open, x, slots)| && |At(open - {r}, x, slots)| == |At(open, x, slots)| - here
  {
    var here := At(open, x, slots);
    if x == Slot(open[r].row.failed, slots) {
      assert r in here && At(open - {r}, x, slots) == here - {r};
    } else {
      assert At(open - {r}, x, slots) == here;
    }
  }

  // An answer from slot u that leaves the counter in slot v: the replier's
  // place and the free ones of the old counter's slot `was` are there.
  function Moved(cs: seq<nat>, was: nat, free: nat, u: nat, v: nat): (cs': seq<nat>)
    requires was < |cs| && u < |cs| && v < |cs| && cs[u] >= 1 && cs[was] >= free + (if u == was then 1 else 0)
    ensures |cs'| == |cs|
    ensures forall x | 0 <= x < |cs| ::
      cs'[x] == cs[x] - (if x == was then free else 0) - (if x == u then 1 else 0) + (if x == v then free + 1 else 0)
  {
    var c1: seq<nat> := cs[was := cs[was] - free];
    var c2: seq<nat> := c1[u := c1[u] - 1];
    c2[v := c2[v] + free + 1]
  }

  lemma {:induction false} MovedSum(cs: seq<nat>, was: nat, free: nat, u: nat, v: nat)
    requires was < |cs| && u < |cs| && v < |cs| && cs[u] >= 1 && cs[was] >= free + (if u == was then 1 else 0)
    ensures Sum(Moved(cs, was, free, u, v)) == Sum(cs)
  {
    var c1: seq<nat> := cs[was := cs[was] - free];
    SumUpdate(cs, was, cs[was] - free);
    var c2: seq<nat> := c1[u := c1[u] - 1];
    SumUpdate(c1, u, c1[u] - 1);
    SumUpdate(c2, v, c2[v] + free + 1);
  }

  // A step up is later; staying in the last slot is not earlier.
  lemma {:induction false} MovedIsLater(cs: seq<nat>, was: nat, free: nat, u: nat, v: nat)
    requires was < |cs| && u < |cs| && v < |cs| && cs[u] >= 1 && cs[was] >= free + (if u == was then 1 else 0)
    requires v == u + 1 || (u == v == |cs| - 1)
    ensures Left(Moved(cs, was, free, u, v)) <= Left(cs)
    ensures v == u + 1 ==> Left(Moved(cs, was, free, u, v)) < Left(cs)
  {
    var cs' := Moved(cs, was, free, u, v);
    MovedSum(cs, was, free, u, v);
    if free > 0 && (was < u || (u == v && was < v)) {
      assert cs[..was] == cs'[..was];
      LeftDecreases(cs, cs', was);
    } else if v == u + 1 {
      assert cs[..u] == cs'[..u];
      LeftDecreases(cs, cs', u);
    } else {
      assert cs' == cs;
    }
  }

  lemma {:induction false} ReplyIsLater(rules: seq<Rule>, d: Desk, m: Move, c: nat, cs: seq<nat>)
    returns (cs': seq<nat>)
    requires Placed(d, c, cs) && m.Reply? && m.r in d.open
    ensures Placed(Take(rules, d, m), c, cs') && |cs'| == |cs| && Left(cs') <= Left(cs)
    ensures ReadBelow(d, m, |cs| - 1) ==> Left(cs') < Left(cs)
  {
    hide At, Left, Sum, Accepts;
    var d', n, failed, free := Take(rules, d, m), |cs|, d.open[m.r].row.failed, c - |d.open|;
    var was, u, v := Slot(d.account.failed, n), Slot(failed, n), Slot(failed + 1, n);
    ReplyTakes(d.open, m.r);
    ReplyTakesAt(d.open, m.r, u, n);
    cs' := Moved(cs, was, free, u, v);
    MovedSum(cs, was, free, u, v);
    MovedIsLater(cs, was, free, u, v);
    forall x: nat | x < n ensures cs'[x] == |At(d'.open, x, n)| + if x == v then c - |d'.open| else 0 {
      ReplyTakesAt(d.open, m.r, x, n);
    }
    hide Moved;
  }

  lemma {:induction false} TriesAreLeft(rules: seq<Rule>, d: Desk, moves: seq<Move>, c: nat, cs: seq<nat>)
    requires Overlap(rules, d, moves, c) && Placed(d, c, cs)
    ensures Tries(rules, d, moves, |cs| - 1) <= Left(cs)
    decreases |moves|
  {
    hide Placed, Take, Left;
    LeftNonnegative(d, c, cs);
    if moves != [] {
      var m, d' := moves[0], Take(rules, d, moves[0]);
      if m.Look? {
        LookKeepsPlaces(rules, d, m, c, cs);
        TriesAreLeft(rules, d', moves[1..], c, cs);
      } else if m.r in d.open {
        var cs' := ReplyIsLater(rules, d, m, c, cs);
        TriesAreLeft(rules, d', moves[1..], c, cs');
      } else {
        NoSuchAttempt(rules, d, m);
        TriesAreLeft(rules, d', moves[1..], c, cs);
      }
    }
  }

  lemma LeftNonnegative(d: Desk, c: nat, cs: seq<nat>)
    requires Placed(d, c, cs)
    ensures 0 <= Left(cs) && |cs| > 0
  {
    hide At, Left;
    LeftIsBounded(cs);
  }

  lemma NoSuchAttempt(rules: seq<Rule>, d: Desk, m: Move)
    requires m.Reply? && m.r !in d.open
    ensures Take(rules, d, m) == d
  {
  }

  // The slots of a fresh desk.
  function AllAt(c: nat, n: nat): (cs: seq<nat>)
    requires n > 0
    ensures |cs| == n && cs[0] == c && forall x | 0 < x < n :: cs[x] == 0
  {
    seq(n, x requires 0 <= x < n => if x == 0 then c else 0)
  }

  lemma {:induction false} NoneLeft(cs: seq<nat>)
    requires forall x | 0 <= x < |cs| :: cs[x] == 0
    ensures Sum(cs) == 0 && Left(cs) == 0
    decreases |cs|
  {
    if cs != [] { NoneLeft(cs[1..]); }
  }

  lemma {:induction false} TriesAreBounded(rules: seq<Rule>, account: Account, moves: seq<Move>, c: nat, count: nat)
    requires account.failed == 0 && Overlap(rules, Desk(account, map[]), moves, c)
    ensures Tries(rules, Desk(account, map[]), moves, count) <= Choose(c + count, c) - 1
  {
    var d, n := Desk(account, map[]), count + 1;
    var cs := AllAt(c, n);
    NoneLeft(cs[1..]);
    forall x: nat ensures At(d.open, x, n) == {} {}
    assert Placed(d, c, cs);
    hide Placed, Overlap, Tries;
    TriesAreLeft(rules, d, moves, c, cs);
    WaysIsChoose(c, count + 1);
  }

  // Until the account locks every answer had read a count below nine.
  lemma {:induction false} GuessesAreTries(rules: seq<Rule>, d: Desk, moves: seq<Move>, c: nat)
    requires Unnoticed(rules, d, moves, c) && forall r | r in d.open :: !d.open[r].a.passwordOk
    ensures Guesses(rules, d, moves) == Tries(rules, d, moves, MAX_FAILURES - 1)
    decreases |moves|
  {
    hide Accepts;
    if moves != [] { GuessesAreTries(rules, Take(rules, d, moves[0]), moves[1..], c); }
  }

  /**
   With at most c attempts in flight, no more than C(c + 9, c) - 1 wrong
   passwords in a row are answered without the account being locked: nine one
   at a time, 54 two at a time, 219 three at a time.
   */
  lemma {:induction false} GuessesBeforeTheLock(rules: seq<Rule>, account: Account, moves: seq<Move>, c: nat)
    requires account.failed == 0 && Unnoticed(rules, Desk(account, map[]), moves, c)
    ensures Guesses(rules, Desk(account, map[]), moves) <= Choose(c + 9, c) - 1
  {
    hide Unnoticed, Overlap, Guesses, Tries;
    GuessesAreTries(rules, Desk(account, map[]), moves, c);
    assert Overlap(rules, Desk(account, map[]), moves, c) by {
      UnnoticedOverlaps(rules, Desk(account, map[]), moves, c);
    }
    TriesAreBounded(rules, account, moves, c, MAX_FAILURES - 1);
  }

  lemma UnnoticedOverlaps(rules: seq<Rule>, d: Desk, moves: seq<Move>, c: nat)
    requires Unnoticed(rules, d, moves, c)
    ensures Overlap(rules, d, moves, c)
  {
  }

  // Wrong passwords tried on a row that had no lock on it.
  function UnlockedTries(rules: seq<Rule>, d: Desk, moves: seq<Move>): nat
    decreases |moves|
  {
    if moves == [] then 0
    else
      var m := moves[0];
      var one := if m.Reply? && m.r in d.open && d.open[m.r].row.lockedUntil.None? then 1 else 0;
      one + UnlockedTries(rules, Take(rules, d, m), moves[1..])
  }

  lemma {:induction false} UnlockedMeansBelow(rules: seq<Rule>, d: Desk, moves: seq<Move>)
    requires LockFits(d.account) && forall r | r in d.open :: LockFits(d.open[r].row)
    ensures UnlockedTries(rules, d, moves) == Tries(rules, d, moves, MAX_FAILURES)
    decreases |moves|
  {
    hide Accepts;
    if moves != [] { UnlockedMeansBelow(rules, Take(rules, d, moves[0]), moves[1..]); }
  }

  /**
   However many wrong passwords come in, at most c at a time, and however often
   a lock goes on and comes off: all in all no more than C(c + 10, c) - 1 of them
   are tried on a row without a lock: ten one at a time, 65 two at a time, 285
   three at a time.
   */
  lemma {:induction false} UnlockedTriesEver(rules: seq<Rule>, account: Account, moves: seq<Move>, c: nat)
    requires Unblemished(account) && Overlap(rules, Desk(account, map[]), moves, c)
    ensures UnlockedTries(rules, Desk(account, map[]), moves) <= Choose(c + 10, c) - 1
  {
    hide Overlap, UnlockedTries, Tries;
    UnlockedMeansBelow(rules, Desk(account, map[]), moves);
    TriesAreBounded(rules, account, moves, c, MAX_FAILURES);
  }

  // ---- and that many do ----

  // Slot j reads the count first and answers last; in between the slots below
  // it run the count up to `top` as often as they can.
  function Schedule(j: nat, v: nat, a: Attempt, top: nat): seq<Move>
    decreases j, top - v
  {
    if j == 0 || v >= top then []
    else [Look(j, a)] + Schedule(j - 1, v, a, top) + [Reply(j)] + Schedule(j, v + 1, a, top)
  }

  lemma {:induction false} TriesAppend(rules: seq<Rule>, d: Desk, xs: seq<Move>, ys: seq<Move>, count: nat)
    ensures Tries(rules, d, xs + ys, count) == Tries(rules, d, xs, count) + Tries(rules, Play(rules, d, xs), ys, count)
    decreases |xs|
  {
    if xs == [] {
      assert xs + ys == ys;
    } else {
      assert (xs + ys)[1..] == xs[1..] + ys;
      TriesAppend(rules, Take(rules, d, xs[0]), xs[1..], ys, count);
    }
  }

  // At most c overlap, and the counter stays up to `top`.
  predicate Within(rules: seq<Rule>, d: Desk, moves: seq<Move>, c: nat, top: nat) {
    Overlap(rules, d, moves, c) && Below(rules, d, moves, top)
  }

  lemma {:induction false} WithinAppend(rules: seq<Rule>, d: Desk, xs: seq<Move>, ys: seq<Move>, c: nat, top: nat)
    requires Within(rules, d, xs, c, top) && Within(rules, Play(rules, d, xs), ys, c, top)
    ensures Within(rules, d, xs + ys, c, top)
    decreases |xs|
  {
    if xs == [] {
      assert xs + ys == ys;
    } else {
      assert (xs + ys)[1..] == xs[1..] + ys;
      WithinAppend(rules, Take(rules, d, xs[0]), xs[1..], ys, c, top);
    }
  }

  lemma {:induction false} Chain(rules: seq<Rule>, d: Desk, xs: seq<Move>, ys: seq<Move>, c: nat, top: nat)
    requires Within(rules, d, xs, c, top) && Within(rules, Play(rules, d, xs), ys, c, top)
    ensures Within(rules, d, xs + ys, c, top) && Play(rules, d, xs + ys) == Play(rules, Play(rules, d, xs), ys)
    ensures Tries(rules, d, xs + ys, top) == Tries(rules, d, xs, top) + Tries(rules, Play(rules, d, xs), ys, top)
  {
    hide Play, Tries, Within;
    PlayAppend(rules, d, xs, ys);
    TriesAppend(rules, d, xs, ys, top);
    WithinAppend(rules, d, xs, ys, c, top);
  }

  // What a schedule does from count v, with the slots up to j free.
  ghost predicate Works(rules: seq<Rule>, d: Desk, j: nat, v: nat, a: Attempt, c: nat, top: nat) {
    var moves := Schedule(j, v, a, top); var d' := Play(rules, d, moves);
    && v <= top && Within(rules, d, moves, c, top) && Tries(rules, d, moves, top) == Ways(j, top + 1 - v) - 1
    && d'.open == d.open && d'.account.failed == if j == 0 then v else top
  }

  // Slot j reads, and the slots below it run.
  lemma {:induction false} ScheduleRuns(rules: seq<Rule>, d: Desk, j: nat, v: nat, a: Attempt, c: nat, top: nat)
    returns (d2: Desk)
    requires !a.passwordOk && j > 0 && d.account.failed == v < top && |d.open| + j <= c
    requires forall r | 1 <= r <= j :: r !in d.open
    requires Works(rules, Take(rules, d, Look(j, a)), j - 1, v, a, c, top)
    ensures var moves := [Look(j, a)] + Schedule(j - 1, v, a, top);
      && Within(rules, d, moves, c, top) && Tries(rules, d, moves, top) == Ways(j - 1, top + 1 - v) - 1
      && d2 == Play(rules, d, moves) && d2.open == Take(rules, d, Look(j, a)).open
    ensures d2.account.failed <= top && |d2.open| <= c
  {
    hide Take, Ways, Schedule;
    Prepend(rules, d, Look(j, a), Schedule(j - 1, v, a, top), c, top);
    d2 := Play(rules, d, [Look(j, a)] + Schedule(j - 1, v, a, top));
    EndsWithin(rules, d, [Look(j, a)] + Schedule(j - 1, v, a, top), c, top);
  }

  // Slot j answers, and the rest of the schedule runs from the next count.
  lemma {:induction false} ScheduleFinishes(rules: seq<Rule>, d: Desk, d2: Desk, d3: Desk, j: nat, v: nat, a: Attempt,
                                            c: nat, top: nat)
    requires 0 < j && v < top && d3.open == d.open
    requires var m1 := [Look(j, a)] + Schedule(j - 1, v, a, top);
      && Within(rules, d, m1, c, top) && Tries(rules, d, m1, top) == Ways(j - 1, top + 1 - v) - 1
      && d2 == Play(rules, d, m1)
    requires Within(rules, d2, [Reply(j)], c, top) && Play(rules, d2, [Reply(j)]) == d3
      && Tries(rules, d2, [Reply(j)], top) == 1
    requires Works(rules, d3, j, v + 1, a, c, top)
    ensures Works(rules, d, j, v, a, c, top)
  {
    hide Play, Tries, Within;
    var m1, m3 := [Look(j, a)] + Schedule(j - 1, v, a, top), Schedule(j, v + 1, a, top);
    Chain(rules, d, m1, [Reply(j)], c, top);
    Chain(rules, d, m1 + [Reply(j)], m3, c, top);
    assert Schedule(j, v, a, top) == m1 + [Reply(j)] + m3;
    assert Ways(j, top + 1 - v) == Ways(j - 1, top + 1 - v) + Ways(j, top - v);
  }

  lemma {:induction false} ScheduleWorks(rules: seq<Rule>, d: Desk, j: nat, v: nat, a: Attempt, c: nat, top: nat)
    requires !a.passwordOk && d.account.failed == v <= top && |d.open| + j <= c
    requires forall r | 1 <= r <= j :: r !in d.open
    ensures Works(rules, d, j, v, a, c, top)
    decreases j, top - v
  {
    if j == 0 {
    } else if v == top {
      OneLevel(j);
    } else {
      hide Take, Play, Tries, Within, Works, Ways, Schedule;
      FirstHalf(rules, d, j, v, a, c);
      ScheduleWorks(rules, Take(rules, d, Look(j, a)), j - 1, v, a, c, top);
      var d2 := ScheduleRuns(rules, d, j, v, a, c, top);
      var d3 := SlotAnswers(rules, d, d2, j, v, a, c, top);
      ScheduleWorks(rules, d3, j, v + 1, a, c, top);
      ScheduleFinishes(rules, d, d2, d3, j, v, a, c, top);
    }
  }

  // The answer of slot j.
  lemma {:induction false} SlotAnswers(rules: seq<Rule>, d: Desk, d2: Desk, j: nat, v: nat, a: Attempt, c: nat,
                                       top: nat)
    returns (d3: Desk)
    requires !a.passwordOk && j > 0 && d.account.failed == v < top && |d.open| + j <= c
    requires forall r | 1 <= r <= j :: r !in d.open
    requires d2.open == Take(rules, d, Look(j, a)).open && d2.account.failed <= top && |d2.open| <= c
    ensures d3 == Take(rules, d2, Reply(j)) && d3.account.failed == v + 1 && d3.open == d.open
    ensures Within(rules, d2, [Reply(j)], c, top) && Play(rules, d2, [Reply(j)]) == d3
      && Tries(rules, d2, [Reply(j)], top) == 1
  {
    FirstHalf(rules, d, j, v, a, c);
    hide Take, Play, Tries, Within;
    ReplyWrites(rules, d2, j, v, a, c);
    d3 := Take(rules, d2, Reply(j));
    Single(rules, d2, Reply(j), c, top);
  }

  lemma WorksIs(rules: seq<Rule>, d: Desk, j: nat, v: nat, a: Attempt, c: nat, top: nat)
    requires Works(rules, d, j, v, a, c, top)
    ensures var moves := Schedule(j, v, a, top);
      v <= top && Within(rules, d, moves, c, top) && Tries(rules, d, moves, top) == Ways(j, top + 1 - v) - 1
  {
    hide Play, Tries, Within, Ways, Schedule;
  }

  lemma {:induction false} EndsWithin(rules: seq<Rule>, d: Desk, moves: seq<Move>, c: nat, top: nat)
    requires Within(rules, d, moves, c, top)
    ensures var d' := Play(rules, d, moves); d'.account.failed <= top && |d'.open| <= c
    decreases |moves|
  {
    if moves != [] { EndsWithin(rules, Take(rules, d, moves[0]), moves[1..], c, top); }
  }

  lemma {:induction false} OneLevel(j: nat)
    ensures Ways(j, 1) == 1
    decreases j
  {
    if j > 0 { OneLevel(j - 1); }
  }

  lemma FirstHalf(rules: seq<Rule>, d: Desk, j: nat, v: nat, a: Attempt, c: nat)
    requires d.account.failed == v && j > 0 && |d.open| + j <= c && forall r | 1 <= r <= j :: r !in d.open
    ensures var d1 := Take(rules, d, Look(j, a));
      && d1.account == d.account && |d1.open| + (j - 1) <= c && (forall r | 1 <= r <= j - 1 :: r !in d1.open)
      && j in d1.open && d1.open[j] == Seen(d.account, a) && d1.open - {j} == d.open
  {
    LookAdds(d.open, j, Seen(d.account, a));
  }

  lemma ReplyWrites(rules: seq<Rule>, d: Desk, j: ReqId, v: nat, a: Attempt, c: nat)
    requires j in d.open && d.open[j].row.failed == v && d.open[j].a == a && !a.passwordOk && |d.open| <= c
    ensures var d' := Take(rules, d, Reply(j));
      d'.account.failed == v + 1 && d'.open == d.open - {j} && |d'.open| + 1 == |d.open|
  {
    ReplyTakes(d.open, j);
  }

  lemma {:induction false} Prepend(rules: seq<Rule>, d: Desk, m: Move, moves: seq<Move>, c: nat, top: nat)
    requires d.account.failed <= top && |d.open| <= c && m.Look? && !m.a.passwordOk
    requires Within(rules, Take(rules, d, m), moves, c, top)
    ensures Within(rules, d, [m] + moves, c, top)
    ensures Play(rules, d, [m] + moves) == Play(rules, Take(rules, d, m), moves)
    ensures Tries(rules, d, [m] + moves, top) == Tries(rules, Take(rules, d, m), moves, top)
  {
    hide Take;
    assert ([m] + moves)[1..] == moves;
  }

  lemma {:induction false} Single(rules: seq<Rule>, d: Desk, m: Move, c: nat, top: nat)
    requires ReadBelow(d, m, top) && d.account.failed <= top && |d.open| <= c
    requires Take(rules, d, m).account.failed <= top && |Take(rules, d, m).open| <= c
    ensures Within(rules, d, [m], c, top) && Play(rules, d, [m]) == Take(rules, d, m) && Tries(rules, d, [m], top) == 1
  {
    hide Take;
    assert [m][1..] == [];
    assert Within(rules, Take(rules, d, m), [], c, top) && Tries(rules, Take(rules, d, m), [], top) == 0;
  }

  lemma {:induction false} ScheduleTries(rules: seq<Rule>, account: Account, a: Attempt, c: nat, top: nat)
    requires account.failed == 0 && !a.passwordOk
    ensures var d, moves := Desk(account, map[]), Schedule(c, 0, a, top);
      Within(rules, d, moves, c, top) && Tries(rules, d, moves, top) == Choose(c + top, c) - 1
  {
    hide Works, Within, Tries, Ways, Choose, Schedule;
    ScheduleWorks(rules, Desk(account, map[]), c, 0, a, c, top);
    WorksIs(rules, Desk(account, map[]), c, 0, a, c, top);
    WaysIsChoose(c, top + 1);
  }

  /** The bound is reached, for every c and with any wrong password. */
  lemma {:induction false} BoundIsReached(rules: seq<Rule>, account: Account, a: Attempt, c: nat)
    requires account.failed == 0 && !a.passwordOk
    ensures var d, moves := Desk(account, map[]), Schedule(c, 0, a, 9);
      Unnoticed(rules, d, moves, c) && Guesses(rules, d, moves) == Choose(c + 9, c) - 1
  {
    hide Tries, Guesses, Overlap, Below, Choose, Schedule;
    ScheduleTries(rules, account, a, c, 9);
    GuessesAreTries(rules, Desk(account, map[]), Schedule(c, 0, a, 9), c);
  }

  /** And so is the bound with locks that come off. */
  lemma {:induction false} UnlockedBoundIsReached(rules: seq<Rule>, account: Account, a: Attempt, c: nat)
    requires Unblemished(account) && !a.passwordOk
    ensures var d, moves := Desk(account, map[]), Schedule(c, 0, a, 10);
      Overlap(rules, d, moves, c) && UnlockedTries(rules, d, moves) == Choose(c + 10, c) - 1
  {
    hide Tries, UnlockedTries, Overlap, Below, Choose, Schedule;
    ScheduleTries(rules, account, a, c, 10);
    UnlockedMeansBelow(rules, Desk(account, map[]), Schedule(c, 0, a, 10));
  }
}
