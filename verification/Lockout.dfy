/**
 Account lockout: the password step of both login handlers, the counter it
 keeps, and the policy rule that reads it.
 */
module Lockout {
  import opened Model

  const MAX_FAILURES: nat := 10
  const LOCK_DURATION: Time := 1_800_000_000_000

  // The columns of users that the password step reads or writes.
  datatype Account = Account(active: bool, mfaEnabled: bool, passwordChangedAt: Time, failed: nat,
                             lockedUntil: Option<Time>)

  // Rules this model does not look into are Opaque.
  datatype Rule = AccountLockout | PasswordAge(maxAge: Time) | MfaRequired | Opaque(violated: bool)

  // publicClient is None at the portal, where no client is involved.
  datatype Context = Context(account: Account, now: Time, publicClient: Option<bool>, passwordSet: bool,
                             mfaVerified: bool)

  predicate Violates(rule: Rule, ctx: Context) {
    match rule
    case AccountLockout => ctx.account.lockedUntil.Some? && ctx.now < ctx.account.lockedUntil.value
    case PasswordAge(maxAge) => !ctx.account.mfaEnabled && ctx.now - ctx.account.passwordChangedAt > maxAge
    case MfaRequired =>
      ctx.publicClient == Some(false) && (if ctx.passwordSet then !ctx.account.mfaEnabled else !ctx.mfaVerified)
    case Opaque(violated) => violated
  }

  // xs is ys with some elements left out.
  predicate InOrder(xs: seq<Rule>, ys: seq<Rule>)
    decreases |ys|
  {
    if xs == [] then true
    else if ys == [] then false
    else
      var x, y := xs[|xs| - 1], ys[|ys| - 1];
      InOrder(xs, ys[..|ys| - 1]) || (x == y && InOrder(xs[..|xs| - 1], ys[..|ys| - 1]))
  }

  lemma {:induction false} InOrderGrows(xs: seq<Rule>, ys: seq<Rule>, y: Rule)
    requires InOrder(xs, ys)
    ensures InOrder(xs, ys + [y]) && InOrder(xs + [y], ys + [y])
  {
    assert (ys + [y])[..|ys|] == ys && (xs + [y])[..|xs|] == xs;
  }

  class Engine {
    var rules: seq<Rule>

    constructor (rules: seq<Rule>)
      ensures this.rules == rules
    {
      this.rules := rules;
    }

    // Every violated rule, in the order of the rules, as often as it is listed.
    method Evaluate(ctx: Context) returns (violations: seq<Rule>)
      ensures forall r :: multiset(violations)[r] == if Violates(r, ctx) then multiset(rules)[r] else 0
      ensures InOrder(violations, rules)
    {
      violations := [];
      var i := 0;
      while i < |rules|
        invariant 0 <= i <= |rules|
        invariant forall r :: multiset(violations)[r] == if Violates(r, ctx) then multiset(rules[..i])[r] else 0
        invariant InOrder(violations, rules[..i])
      {
        assert rules[..i + 1] == rules[..i] + [rules[i]];
        InOrderGrows(violations, rules[..i], rules[i]);
        if Violates(rules[i], ctx) { violations := violations + [rules[i]]; }
        i := i + 1;
      }
      assert rules[..i] == rules;
    }

    ghost predicate IsFirst(i: nat, ctx: Context)
      reads this
    {
      i < |rules| && Violates(rules[i], ctx) && forall j | 0 <= j < i :: !Violates(rules[j], ctx)
    }

    // None if and only if every rule passes.
    method First(ctx: Context) returns (v: Option<Rule>)
      ensures v.None? <==> forall r | r in rules :: !Violates(r, ctx)
      ensures v.Some? ==> exists i: nat :: IsFirst(i, ctx) && v == Some(rules[i])
    {
      var i := 0;
      while i < |rules|
        invariant 0 <= i <= |rules|
        invariant forall j | 0 <= j < i :: !Violates(rules[j], ctx)
      {
        if Violates(rules[i], ctx) {
          assert IsFirst(i, ctx);
          return Some(rules[i]);
        }
        i := i + 1;
      }
      v := None;
    }
  }

  // ---- one attempt ----

  datatype Attempt = Attempt(at: Time, passwordOk: bool, publicClient: Option<bool>, passwordSet: bool)

  function ContextOf(account: Account, a: Attempt): Context {
    Context(account, a.at, a.publicClient, a.passwordSet, false)
  }

  predicate Accepts(rules: seq<Rule>, account: Account, a: Attempt) {
    a.passwordOk && account.active && forall r | r in rules :: !Violates(r, ContextOf(account, a))
  }

  // A wrong password counts; the tenth in a row and every further one lock
  // the account; an accepted login wipes the slate; a right password that is
  // turned away does neither.
  function After(rules: seq<Rule>, account: Account, a: Attempt): Account {
    if !a.passwordOk then
      account.(failed := account.failed + 1,
               lockedUntil := if account.failed + 1 >= MAX_FAILURES then Some(a.at + LOCK_DURATION) else None)
    else if Accepts(rules, account, a) then account.(failed := 0, lockedUntil := None)
    else account
  }

  /**
   Who gets in: the right password, an active account, no lock that still
   stands, a password young enough for every rule that limits its age (unless
   the account has a second factor), and at a confidential client a second
   factor where the rules ask for one and a password is set.
   */
  lemma AcceptedExactly(rules: seq<Rule>, account: Account, a: Attempt)
    ensures Accepts(rules, account, a) <==>
      && a.passwordOk && account.active
      && (AccountLockout in rules && account.lockedUntil.Some? ==> account.lockedUntil.value <= a.at)
      && (forall maxAge | PasswordAge(maxAge) in rules ::
            account.mfaEnabled || a.at <= account.passwordChangedAt + maxAge)
      && (MfaRequired in rules && a.publicClient == Some(false) ==> a.passwordSet && account.mfaEnabled)
      && Opaque(true) !in rules
  {
    var ctx := ContextOf(account, a);
    if Accepts(rules, account, a) {
      assert Violates(Opaque(true), ctx);
      assert AccountLockout in rules ==> !Violates(AccountLockout, ctx);
      assert MfaRequired in rules ==> !Violates(MfaRequired, ctx);
      forall maxAge | PasswordAge(maxAge) in rules
        ensures account.mfaEnabled || a.at <= account.passwordChangedAt + maxAge
      {
        assert !Violates(PasswordAge(maxAge), ctx);
      }
    } else if a.passwordOk && account.active {
      var r :| r in rules && Violates(r, ctx);
    }
  }

  class Login {
    const policy: Engine
    var account: Account

    constructor (policy: Engine, account: Account)
      ensures this.policy == policy && this.account == account
    {
      this.policy, this.account := policy, account;
    }

    method IncrementFailedAttempts(at: Time)
      modifies `account
      ensures account == After(policy.rules, old(account), Attempt(at, false, None, false))
    {
      var count := account.failed + 1;
      var lockedUntil := None;
      if count >= 10 { lockedUntil := Some(at + LOCK_DURATION); }
      account := account.(failed := count, lockedUntil := lockedUntil);
    }

    method PasswordStep(a: Attempt) returns (accepted: bool)
      modifies `account
      ensures account == After(policy.rules, old(account), a)
      ensures accepted == Accepts(policy.rules, old(account), a)
    {
      if !a.passwordOk {
        IncrementFailedAttempts(a.at);
        return false;
      }
      if !account.active { return false; }
      var v := policy.First(ContextOf(account, a));
      if v.Some? { return false; }
      account := account.(failed := 0, lockedUntil := None);
      accepted := true;
    }
  }

  // ---- runs of attempts, one at a time ----

  function Run(rules: seq<Rule>, start: Account, attempts: seq<Attempt>): Account {
    if attempts == [] then start
    else After(rules, Run(rules, start, attempts[..|attempts| - 1]), attempts[|attempts| - 1])
  }

  predicate AcceptedAt(rules: seq<Rule>, start: Account, attempts: seq<Attempt>, i: nat)
    requires i < |attempts|
  {
    Accepts(rules, Run(rules, start, attempts[..i]), attempts[i])
  }

  // Wrong passwords since the last accepted login.
  function FailuresSince(rules: seq<Rule>, start: Account, attempts: seq<Attempt>): nat {
    if attempts == [] then 0
    else
      var n := |attempts| - 1;
      if AcceptedAt(rules, start, attempts, n) then 0
      else FailuresSince(rules, start, attempts[..n]) + if attempts[n].passwordOk then 0 else 1
  }

  // When the lock put on by the latest wrong password runs out.
  function LockEnd(attempts: seq<Attempt>): Option<Time> {
    if attempts == [] then None
    else if !attempts[|attempts| - 1].passwordOk then Some(attempts[|attempts| - 1].at + 1_800_000_000_000)
    else LockEnd(attempts[..|attempts| - 1])
  }

  predicate Unblemished(a: Account) {
    a.failed == 0 && a.lockedUntil == None
  }

  /**
   The counter is the number of wrong passwords since the last accepted login,
   and the account is locked, until half an hour after the latest of them,
   exactly when there are ten or more.
   */
  lemma {:induction false} CounterIsExact(rules: seq<Rule>, start: Account, attempts: seq<Attempt>)
    requires Unblemished(start)
    ensures var account, n := Run(rules, start, attempts), FailuresSince(rules, start, attempts);
      account == start.(failed := n, lockedUntil := if n >= 10 then LockEnd(attempts) else None)
    ensures Run(rules, start, attempts).lockedUntil.Some? <==> Run(rules, start, attempts).failed >= 10
    decreases |attempts|
  {
    if attempts != [] {
      var n := |attempts| - 1;
      var front := attempts[..n];
      CounterIsExact(rules, start, front);
      LockEndKnown(rules, start, attempts);
    }
  }

  lemma {:induction false} LockEndKnown(rules: seq<Rule>, start: Account, attempts: seq<Attempt>)
    ensures FailuresSince(rules, start, attempts) > 0 ==> LockEnd(attempts).Some?
    decreases |attempts|
  {
    if attempts != [] { LockEndKnown(rules, start, attempts[..|attempts| - 1]); }
  }

  predicate Ordered(attempts: seq<Attempt>) {
    forall i, j | 0 <= i <= j < |attempts| :: attempts[i].at <= attempts[j].at
  }

  // Attempt j is a wrong password, the tenth or later in its row.
  predicate Locks(rules: seq<Rule>, start: Account, attempts: seq<Attempt>, j: nat)
    requires j < |attempts|
  {
    !attempts[j].passwordOk && FailuresSince(rules, start, attempts[..j + 1]) >= 10
  }

  // Up to attempt m the lock holds, or its half hour is over.
  lemma {:induction false} LockHolds(rules: seq<Rule>, start: Account, attempts: seq<Attempt>, j: nat, m: nat)
    requires Unblemished(start) && AccountLockout in rules && Ordered(attempts)
    requires j < m <= |attempts| && Locks(rules, start, attempts, j)
    ensures var end, account := attempts[j].at + LOCK_DURATION, Run(rules, start, attempts[..m]);
      (account.lockedUntil.Some? && account.lockedUntil.value >= end) || attempts[m - 1].at >= end
    decreases m
  {
    var part := attempts[..m];
    assert part[..m - 1] == attempts[..m - 1] && part[m - 1] == attempts[m - 1];
    CounterIsExact(rules, start, part);
    if m > j + 1 {
      LockHolds(rules, start, attempts, j, m - 1);
      var before := Run(rules, start, attempts[..m - 1]);
      CounterIsExact(rules, start, attempts[..m - 1]);
      if attempts[m - 1].passwordOk && before.lockedUntil.Some? && attempts[m - 1].at < before.lockedUntil.value {
        assert Violates(AccountLockout, ContextOf(before, attempts[m - 1]));
      }
    }
  }

  /**
   No login is accepted within 30 minutes after a wrong password that was the
   tenth or later since the last accepted login.
   */
  lemma {:induction false} NoLoginWhileLocked(rules: seq<Rule>, start: Account, attempts: seq<Attempt>, j: nat, i: nat)
    requires Unblemished(start) && AccountLockout in rules && Ordered(attempts)
    requires j < i < |attempts| && Locks(rules, start, attempts, j) && AcceptedAt(rules, start, attempts, i)
    ensures attempts[i].at >= attempts[j].at + 1_800_000_000_000
  {
    LockHolds(rules, start, attempts, j, i);
    assert !Violates(AccountLockout, ContextOf(Run(rules, start, attempts[..i]), attempts[i]));
  }
}
