/**
 How often a device may poll (section 3.5 of RFC 8628), with every poll taken
 as one step: the arithmetic, and whole polls on the tables.
 */
module Pacing {
  import opened Model
  import opened Stores
  import opened Protocol
  import opened Databases
  import opened Handlers
  import opened Outcomes
  import opened Exchanges

  datatype Poll = Poll(at: Time, answer: Outcome, interval: nat)

  // The answers to polls at `times` of a pending grant, each with the
  // interval stored after it.
  function Polls(interval: nat, last: Option<Time>, times: seq<Time>): (ps: seq<Poll>)
    ensures |ps| == |times|
    decreases |times|
  {
    if times == [] then []
    else
      var (interval', answer) := PollAnswer(interval, last, times[0]);
      [Poll(times[0], answer, interval')] + Polls(interval', Some(times[0]), times[1..])
  }

  function Count(ps: seq<Poll>, answer: Outcome): nat {
    if ps == [] then 0 else (if ps[0].answer == answer then 1 else 0) + Count(ps[1..], answer)
  }

  lemma {:induction false} CountPrefix(ps: seq<Poll>, answer: Outcome, n: nat)
    requires n < |ps|
    ensures Count(ps[..n + 1], answer) == Count(ps[..n], answer) + (if ps[n].answer == answer then 1 else 0)
    decreases n
  {
    if n > 0 {
      CountPrefix(ps[1..], answer, n - 1);
      assert ps[..n + 1][1..] == ps[1..][..n];
      assert ps[..n][1..] == ps[1..][..n - 1];
    } else {
      assert ps[..1][1..] == [];
    }
  }

  // Poll n of the run, from what the polls before it left.
  lemma {:induction false} PollAt(interval: nat, last: Option<Time>, times: seq<Time>, n: nat)
    requires n < |times|
    ensures var ps := Polls(interval, last, times);
      var before := if n == 0 then interval else ps[n - 1].interval;
      var previous := if n == 0 then last else Some(times[n - 1]);
      ps[n].at == times[n] && (ps[n].interval, ps[n].answer) == PollAnswer(before, previous, times[n])
    decreases n
  {
    if n > 0 {
      var (interval', _) := PollAnswer(interval, last, times[0]);
      PollAt(interval', Some(times[0]), times[1..], n - 1);
    }
  }

  const START_INTERVAL: nat := DEVICE_INTERVAL

  /** After k slow_down answers the stored interval is exactly 5(k + 1) seconds. */
  lemma {:induction false} IntervalCountsSlowDowns(times: seq<Time>, n: nat)
    requires n < |times|
    ensures var ps := Polls(START_INTERVAL, None, times);
      ps[n].interval == DEVICE_INTERVAL * (Count(ps[..n + 1], SlowDown) + 1)
    decreases n
  {
    var ps := Polls(START_INTERVAL, None, times);
    PollAt(START_INTERVAL, None, times, n);
    CountPrefix(ps, SlowDown, n);
    if n > 0 { IntervalCountsSlowDowns(times, n - 1); } else { assert ps[..0] == []; }
  }

  /**
   Every authorization_pending after the first poll comes at least the
   current interval after the poll before it, and every slow_down earlier.
   */
  lemma {:induction false} PendingComesLate(times: seq<Time>, n: nat)
    requires 0 < n < |times|
    ensures var ps := Polls(START_INTERVAL, None, times); var k := Count(ps[..n], SlowDown);
      && (ps[n].answer == AuthorizationPending <==> times[n] - times[n - 1] >= DEVICE_INTERVAL * (k + 1) * SECOND)
      && (ps[n].answer == SlowDown <==> times[n] - times[n - 1] < DEVICE_INTERVAL * (k + 1) * SECOND)
  {
    PollAt(START_INTERVAL, None, times, n);
    IntervalCountsSlowDowns(times, n - 1);
  }

  predicate Ordered(times: seq<Time>) {
    forall i | 0 < i < |times| :: times[i - 1] <= times[i]
  }

  // The pending answers up to poll n span five seconds each but the first.
  lemma {:induction false} PendingsTakeTime(times: seq<Time>, n: nat)
    requires Ordered(times) && n < |times|
    ensures var ps := Polls(START_INTERVAL, None, times);
      (Count(ps[..n + 1], AuthorizationPending) - 1) * (DEVICE_INTERVAL * SECOND) <= times[n] - times[0]
    ensures Count(Polls(START_INTERVAL, None, times)[..n + 1], AuthorizationPending) >= 1
    decreases n
  {
    var ps := Polls(START_INTERVAL, None, times);
    CountPrefix(ps, AuthorizationPending, n);
    PollAt(START_INTERVAL, None, times, n);
    if n == 0 {
      assert ps[..0] == [];
    } else {
      PendingsTakeTime(times, n - 1);
      IntervalCountsSlowDowns(times, n - 1);
      var k := Count(ps[..n - 1 + 1], SlowDown);
      assert DEVICE_INTERVAL * (k + 1) * SECOND >= DEVICE_INTERVAL * SECOND;
    }
  }

  const MOST_PENDINGS: nat := 181

  /** In a code's 15 minutes at most 181 polls are answered authorization_pending. */
  lemma {:induction false} AtMost181Pendings(created: Time, times: seq<Time>)
    requires Ordered(times) && forall i | 0 <= i < |times| :: created <= times[i] <= created + DEVICE_TTL
    ensures Count(Polls(START_INTERVAL, None, times), AuthorizationPending) <= MOST_PENDINGS
  {
    if times != [] {
      PendingsTakeTime(times, |times| - 1);
      var ps := Polls(START_INTERVAL, None, times);
      assert ps[..|times| - 1 + 1] == ps;
    }
  }

  // Polling every five seconds sharp from the start.
  function Steady(created: Time, n: nat): (times: seq<Time>)
    ensures |times| == n
    ensures forall i | 0 <= i < n :: times[i] == created + i * (DEVICE_INTERVAL * SECOND)
  {
    seq(n, i requires 0 <= i < n => created + i * (DEVICE_INTERVAL * SECOND))
  }

  lemma {:induction false} SteadyNeverSlowsDown(created: Time, n: nat, m: nat)
    requires m <= n
    ensures var ps := Polls(START_INTERVAL, None, Steady(created, n));
      Count(ps[..m], AuthorizationPending) == m && Count(ps[..m], SlowDown) == 0
    decreases m
  {
    var times := Steady(created, n);
    var ps := Polls(START_INTERVAL, None, times);
    if m == 0 {
      assert ps[..0] == [];
    } else {
      SteadyNeverSlowsDown(created, n, m - 1);
      CountPrefix(ps, AuthorizationPending, m - 1);
      CountPrefix(ps, SlowDown, m - 1);
      PollAt(START_INTERVAL, None, times, m - 1);
      if m > 1 {
        PendingComesLate(times, m - 1);
        assert times[m - 1] - times[m - 2] == DEVICE_INTERVAL * SECOND;
      }
    }
  }

  /** The bound is attained: 181 polls, five seconds apart, all within the 15 minutes. */
  lemma BoundIsAttained(created: Time)
    ensures var times := Steady(created, MOST_PENDINGS);
      && Ordered(times) && (forall i | 0 <= i < |times| :: created <= times[i] <= created + DEVICE_TTL)
      && Count(Polls(START_INTERVAL, None, times), AuthorizationPending) == MOST_PENDINGS
  {
    SteadyNeverSlowsDown(created, MOST_PENDINGS, MOST_PENDINGS);
    var ps := Polls(START_INTERVAL, None, Steady(created, MOST_PENDINGS));
    assert ps[..MOST_PENDINGS] == ps;
  }

  // ---- a poll of the machine ----

  // A poll of a pending grant run alone is one PollAnswer.
  lemma {:induction false} PollAlone(st: Store, now: Time, ttl: Time, client: ClientId, code: Token, env: seq<Choice>)
    requires |env| == 2 && FindDevice(st, code).Some?
    requires var d := st.devices[FindDevice(st, code).value];
      d.client == client && d.status == Pending && now <= d.expiresAt
    ensures var did := FindDevice(st, code).value; var d := st.devices[did];
      var (interval, answer) := PollAnswer(d.interval, d.lastPolled, now);
      Solo(st, now, ttl, DeviceLookup(client, code), env)
        == (WithDevice(st, did, d.(lastPolled := Some(now), interval := interval)), Finished(answer))
  {
    hide Solo, Perform, PollAnswer;
    var did := FindDevice(st, code).value;
    var d := st.devices[did];
    var (interval, answer) := PollAnswer(d.interval, d.lastPolled, now);
    SoloNext(st, now, ttl, DeviceLookup(client, code), env);
    SoloEnds(st, now, ttl, DevicePoll(did, now, interval, answer), answer, env[1..]);
    PollWrites(st, now, did, interval);
  }

  lemma PollWrites(st: Store, now: Time, did: DeviceId, interval: nat)
    requires did in st.devices
    ensures Perform(st, now, PollDevice(did, now, interval))
      == WithDevice(st, did, st.devices[did].(lastPolled := Some(now), interval := interval))
  {
  }

  // A poll after the code's life, alone.
  lemma {:induction false} LatePollAlone(st: Store, now: Time, ttl: Time, client: ClientId, code: Token,
                                         env: seq<Choice>)
    requires |env| == 2 && FindDevice(st, code).Some?
    requires var d := st.devices[FindDevice(st, code).value]; d.client == client && now > d.expiresAt
    ensures Solo(st, now, ttl, DeviceLookup(client, code), env) == (st, Finished(ExpiredToken))
  {
    hide Solo;
    SoloEnds(st, now, ttl, DeviceLookup(client, code), ExpiredToken, env);
  }

  // The answers to polls at `times`, each a whole request on the tables the
  // one before it left.
  ghost function Answers(st: Store, ttl: Time, client: ClientId, code: Token, times: seq<Time>,
                         env: seq<Choice>): (ps: seq<Poll>)
    ensures |ps| == |times|
    decreases |times|
  {
    if times == [] then []
    else
      var (st', pc) := Solo(st, times[0], ttl, DeviceLookup(client, code), env);
      var answer := if pc.Finished? then pc.out else Aborted;
      var interval := if FindDevice(st', code).Some? then st'.devices[FindDevice(st', code).value].interval else 0;
      [Poll(times[0], answer, interval)] + Answers(st', ttl, client, code, times[1..], env)
  }

  ghost predicate Waiting(st: Store, client: ClientId, code: Token, did: DeviceId) {
    && Constraints(st) && did in st.devices && st.devices[did].code == code && st.devices[did].client == client
    && st.devices[did].status == Pending
  }

  // The polls up to n fall within the code's life.
  predicate InLife(expiresAt: Time, times: seq<Time>, n: nat) {
    && n <= |times| && (forall i | 0 <= i < n :: times[i] <= expiresAt)
    && (forall i | n <= i < |times| :: times[i] > expiresAt)
  }

  lemma {:induction false} LateAnswers(st: Store, ttl: Time, client: ClientId, code: Token, did: DeviceId,
                                       times: seq<Time>, env: seq<Choice>)
    requires |env| == 2 && Waiting(st, client, code, did) && InLife(st.devices[did].expiresAt, times, 0)
    ensures forall i | 0 <= i < |times| :: Answers(st, ttl, client, code, times, env)[i].answer == ExpiredToken
    decreases |times|
  {
    hide Solo;
    if times != [] {
      assert FindDevice(st, code) == Some(did);
      LatePollAlone(st, times[0], ttl, client, code, env);
      LateAnswers(st, ttl, client, code, did, times[1..], env);
    }
  }

  // Whole polls of a pending grant are the arithmetic, until its code expires.
  lemma {:induction false} AnswersArePolls(st: Store, ttl: Time, client: ClientId, code: Token, did: DeviceId,
                                           times: seq<Time>,
                                           n: nat, env: seq<Choice>)
    requires |env| == 2 && Waiting(st, client, code, did) && InLife(st.devices[did].expiresAt, times, n)
    ensures var d := st.devices[did];
      Answers(st, ttl, client, code, times, env)[..n] == Polls(d.interval, d.lastPolled, times[..n])
    ensures forall i | n <= i < |times| :: Answers(st, ttl, client, code, times, env)[i].answer == ExpiredToken
    decreases |times|
  {
    hide Solo, PollAnswer;
    if n == 0 {
      LateAnswers(st, ttl, client, code, did, times, env);
    } else {
      var d := st.devices[did];
      assert FindDevice(st, code) == Some(did);
      PollAlone(st, times[0], ttl, client, code, env);
      var (interval, answer) := PollAnswer(d.interval, d.lastPolled, times[0]);
      var st' := WithDevice(st, did, d.(lastPolled := Some(times[0]), interval := interval));
      assert Waiting(st', client, code, did);
      assert FindDevice(st', code) == Some(did) by { hide WithDevice; }
      AnswersArePolls(st', ttl, client, code, did, times[1..], n - 1, env);
      var answers := Answers(st, ttl, client, code, times, env);
      assert answers == [Poll(times[0], answer, interval)] + Answers(st', ttl, client, code, times[1..], env);
      assert answers[..n] == [answers[0]] + answers[1..][..n - 1];
      assert times[..n][1..] == times[1..][..n - 1] && times[..n][0] == times[0];
      forall i | n <= i < |times| ensures answers[i].answer == ExpiredToken {
        assert answers[i] == Answers(st', ttl, client, code, times[1..], env)[i - 1];
      }
    }
  }

  lemma {:induction false} NoneFrom(ps: seq<Poll>, n: nat, answer: Outcome)
    requires n <= |ps| && forall i | n <= i < |ps| :: ps[i].answer != answer
    ensures Count(ps, answer) == Count(ps[..n], answer)
    decreases |ps|
  {
    if n > 0 {
      NoneFrom(ps[1..], n - 1, answer);
      assert ps[..n][1..] == ps[1..][..n - 1];
    } else if ps != [] {
      NoneFrom(ps[1..], 0, answer);
    }
  }

  lemma {:induction false} LifeEnds(expiresAt: Time, times: seq<Time>) returns (n: nat)
    requires Ordered(times)
    ensures InLife(expiresAt, times, n)
    decreases |times|
  {
    n := 0;
    if times != [] && times[0] <= expiresAt {
      n := LifeEnds(expiresAt, times[1..]);
      n := n + 1;
    } else if times != [] {
      Increasing(times);
    }
  }

  lemma {:induction false} Increasing(times: seq<Time>)
    requires Ordered(times)
    ensures forall i | 0 <= i < |times| :: times[0] <= times[i]
    decreases |times|
  {
    if |times| > 1 { Increasing(times[1..]); }
  }

  /**
   Whatever polls a fresh device code meets, each a whole request: after k
   slow_down answers the stored interval is 5(k + 1) seconds, and
   authorization_pending is answered at most 181 times ever.
   */
  lemma {:induction false} FreshCodeIsPaced(st: Store, ttl: Time, client: ClientId, code: Token, did: DeviceId,
                                            made: Time,
                                            times: seq<Time>, env: seq<Choice>)
    requires |env| == 2 && Waiting(st, client, code, did) && Ordered(times) && (times != [] ==> made <= times[0])
    requires var d := st.devices[did];
      d.interval == START_INTERVAL && d.lastPolled == None && d.expiresAt == made + DEVICE_TTL
    ensures var ps := Answers(st, ttl, client, code, times, env);
      && Count(ps, AuthorizationPending) <= MOST_PENDINGS
      && forall i | 0 <= i < |ps| && times[i] <= made + DEVICE_TTL ::
           ps[i].interval == DEVICE_INTERVAL * (Count(ps[..i + 1], SlowDown) + 1)
  {
    hide Answers, Polls;
    var n := LifeEnds(made + DEVICE_TTL, times);
    AnswersArePolls(st, ttl, client, code, did, times, n, env);
    var ps := Answers(st, ttl, client, code, times, env);
    NoneFrom(ps, n, AuthorizationPending);
    Increasing(times);
    AtMost181Pendings(made, times[..n]);
    forall i | 0 <= i < |ps| && times[i] <= made + DEVICE_TTL
      ensures ps[i].interval == DEVICE_INTERVAL * (Count(ps[..i + 1], SlowDown) + 1)
    {
      IntervalCountsSlowDowns(times[..n], i);
      assert ps[..n][..i + 1] == ps[..i + 1];
    }
  }

  lemma NewCodeWaits(st: Store, now: Time, client: ClientId, scopes: Scopes, ch: Choice)
    requires Constraints(st) && CanPend(st, ch, client)
    ensures var row := FreshDevice(client, scopes, now, ch);
      && Waiting(st.(devices := st.devices[ch.id := row]), client, ch.t1, ch.id)
      && row.interval == START_INTERVAL && row.lastPolled == None && row.expiresAt == now + DEVICE_TTL
  {
    PendingKeepsConstraints(st, ch, client, FreshDevice(client, scopes, now, ch));
    hide Constraints, CanPend;
  }

  /**
   From the device authorization request on: after k slow_down answers the
   interval is 5(k + 1) seconds, as long as the code lives, and
   authorization_pending is answered at most 181 times ever.
   */
  lemma {:induction false} NewCodeIsPaced(st: Store, now: Time, ttl: Time, client: ClientId, scope: string,
                                          env: seq<Choice>, times: seq<Time>, poll: seq<Choice>)
    requires Constraints(st) && |env| == 2 && |poll| == 2 && Ordered(times) && (times != [] ==> now <= times[0])
    requires MayUseDevices(st, client, scope) && CanPend(st, env[1], client)
    ensures var (st', pc) := Solo(st, now, ttl, DeviceRequest(client, scope), env);
      var ps := Answers(st', ttl, client, env[1].t1, times, poll);
      && pc == Finished(DeviceCode(env[1].id))
      && Count(ps, AuthorizationPending) <= 181
      && forall i | 0 <= i < |ps| && times[i] <= now + 15 * MINUTE ::
           ps[i].interval == 5 * (Count(ps[..i + 1], SlowDown) + 1)
  {
    var scopes := Wanted(st.clients[client].scopes, scope);
    var row := FreshDevice(client, scopes, now, env[1]);
    NewCodeWaits(st, now, client, scopes, env[1]);
    hide Solo, Constraints, Waiting, CanPend, MayUseDevices, Wanted, Answers, Polls, FreshDevice, Ordered;
    DeviceAuthorization(st, now, ttl, client, scope, env);
    FreshCodeIsPaced(st.(devices := st.devices[env[1].id := row]), ttl, client, env[1].t1, env[1].id, now, times, poll);
  }
}
