/**
 Device polls over runs of the protocol machine, where a poll is a read and an
 unguarded write: exactly when the stored interval still counts the slow_down
 answers.
 */
module PollRuns {
  import opened Model
  import opened Stores
  import opened Protocol
  import opened Invariant
  import opened Keep
  import opened KeepGrants
  import opened Inductive
  import opened Provenance

  // Action a is the write of a poll of grant did.
  ghost predicate Polls(s: System, a: Action, did: DeviceId) {
    a.Step? && Enabled(s, a.r, a.ch) && s.reqs[a.r].DevicePoll? && s.reqs[a.r].did == did
  }

  // The interval the poll found when it read the row.
  function Found(pc: Pc): int
    requires pc.DevicePoll?
  {
    if pc.answer == SlowDown then pc.interval - DEVICE_INTERVAL else pc.interval
  }

  // The row still has the interval the poll found: the guard the UPDATE lacks.
  ghost predicate StillFound(s: System, a: Action, did: DeviceId)
    requires Polls(s, a, did)
  {
    did in s.st.devices ==> s.st.devices[did].interval == Found(s.reqs[a.r])
  }

  // The slow_down answers given to polls of did.
  ghost function SlowDowns(s: System, acts: seq<Action>, did: DeviceId): nat
    decreases |acts|
  {
    if acts == [] then 0
    else
      (if Polls(s, acts[0], did) && s.reqs[acts[0].r].answer == SlowDown then 1 else 0)
      + SlowDowns(Apply(s, acts[0]), acts[1..], did)
  }

  // Each slow_down has raised the interval by five seconds, and nothing else has moved it.
  ghost predicate Counts(interval: int, s: System, acts: seq<Action>, did: DeviceId) {
    did in Run(s, acts).st.devices ==>
      Run(s, acts).st.devices[did].interval == interval + DEVICE_INTERVAL * SlowDowns(s, acts, did)
  }

  // The n-th action, if it is the write of a poll, finds what the poll had read.
  ghost predicate Undisturbed(s: System, acts: seq<Action>, did: DeviceId, n: nat)
    requires n < |acts|
  {
    Polls(Run(s, acts[..n]), acts[n], did) ==> StillFound(Run(s, acts[..n]), acts[n], did)
  }

  // ---- what moves the interval ----

  lemma OnlyPollsPoll(st: Store, now: Time, ttl: Time, pc: Pc, ch: Choice)
    ensures var w := Exec(st, now, ttl, pc, ch).write;
      && (w.PollDevice? ==> pc.DevicePoll?)
      && (pc.DevicePoll? ==> w == PollDevice(pc.did, pc.at, pc.interval))
  {
    hide Answer, ExecRefresh, ExecCode, ExecClient, ExecAuthorize, ExecPortalLogin, ExecPortal;
    match FamilyOf(pc)
    case RefreshFamily => hide ExecDevice; RefreshWrites(st, now, pc, ch);
    case CodeFamily => hide ExecDevice; CodeWrites(st, now, pc, ch);
    case DeviceFamily => hide ExecDeviceLookup, DeviceRow;
    case ClientFamily => hide ExecDevice; ClientWrites(st, now, pc, ch);
    case AuthorizeFamily => hide ExecDevice; FormsDoNotPoll(st, now, pc, ch);
    case LoginFamily => hide ExecDevice; LoginsDoNotPoll(st, now, pc, ch);
    case PortalFamily => hide ExecDevice; CookiesDoNotPoll(st, now, ttl, pc, ch);
    case Over =>
  }

  lemma FormsDoNotPoll(st: Store, now: Time, pc: Pc, ch: Choice)
    ensures !ExecAuthorize(st, now, pc, ch).write.PollDevice?
  {
    hide Answer, PortalRow, CodeGrant, UnregisteredScope, SplitScopes;
  }

  lemma LoginsDoNotPoll(st: Store, now: Time, pc: Pc, ch: Choice)
    ensures !ExecPortalLogin(st, now, pc, ch).write.PollDevice?
  {
    hide Answer, PortalRow, Registered;
  }

  lemma CookiesDoNotPoll(st: Store, now: Time, ttl: Time, pc: Pc, ch: Choice)
    ensures !ExecPortal(st, now, ttl, pc, ch).write.PollDevice?
  {
    hide Answer, SessionTokenLive, SilentMfaAt, StepUpFresh, UnregisteredScope, SplitScopes;
  }

  lemma DecisionMovesNoInterval(st: Store, now: Time, w: Write, did: DeviceId)
    requires did in st.devices && Decides(w)
    ensures did in Perform(st, now, w).devices && Perform(st, now, w).devices[did].interval == st.devices[did].interval
  {
  }

  lemma PollMovesInterval(st: Store, now: Time, w: Write, did: DeviceId)
    requires did in st.devices && w.PollDevice?
    ensures did in Perform(st, now, w).devices
    ensures Perform(st, now, w).devices[did].interval == if w.did == did then w.interval else st.devices[did].interval
  {
  }

  lemma OthersMoveNoInterval(st: Store, now: Time, w: Write, did: DeviceId)
    requires did in st.devices && did in Perform(st, now, w).devices && !w.InsertDevice? && !w.PollDevice?
      && !Decides(w)
    ensures Perform(st, now, w).devices[did].interval == st.devices[did].interval
  {
    hide StoredDeviceScopes, TokensUnused, OwnersExist, WithoutSessions, SessionsOf, SessionsOfClient, ExpiredSessions;
  }

  lemma PerformMovesInterval(st: Store, now: Time, w: Write, did: DeviceId)
    requires did in st.devices && did in Perform(st, now, w).devices && !w.InsertDevice?
    ensures Perform(st, now, w).devices[did].interval
      == if w.PollDevice? && w.did == did then w.interval else st.devices[did].interval
  {
    hide Perform;
    if w.PollDevice? { PollMovesInterval(st, now, w, did); }
    else if Decides(w) { DecisionMovesNoInterval(st, now, w, did); }
    else { OthersMoveNoInterval(st, now, w, did); }
  }

  lemma InsertMovesNoInterval(st: Store, now: Time, w: Write, did: DeviceId)
    requires did in st.devices && w.InsertDevice?
    ensures did in Perform(st, now, w).devices && Perform(st, now, w).devices[did] == st.devices[did]
  {
    hide StoredDeviceScopes;
  }

  lemma ActionMovesInterval(s: System, a: Action, did: DeviceId)
    requires did in s.st.devices && did in Apply(s, a).st.devices
    ensures Apply(s, a).st.devices[did].interval
      == if Polls(s, a, did) then s.reqs[a.r].interval else s.st.devices[did].interval
  {
    hide Exec, Perform, Record, Initial, Administrative, FreshChoice;
    if a.Step? && Enabled(s, a.r, a.ch) {
      var w := Exec(s.st, s.now, s.ttl, s.reqs[a.r], a.ch).write;
      OnlyPollsPoll(s.st, s.now, s.ttl, s.reqs[a.r], a.ch);
      if w.InsertDevice? {
        InsertMovesNoInterval(s.st, s.now, w, did);
      } else {
        PerformMovesInterval(s.st, s.now, w, did);
      }
    } else if a.Admin? && Administrative(a.w) {
      AdminDoesNotPoll(a.w);
      PerformMovesInterval(s.st, s.now, a.w, did);
    }
  }

  lemma AdminDoesNotPoll(w: Write)
    requires Administrative(w)
    ensures !w.PollDevice? && !w.InsertDevice?
  {
  }

  // ---- over runs ----

  lemma {:induction false} SlowDownsSnoc(s: System, acts: seq<Action>, did: DeviceId, n: nat)
    requires n < |acts|
    ensures var s' := Run(s, acts[..n]);
      SlowDowns(s, acts[..n + 1], did)
        == SlowDowns(s, acts[..n], did)
           + if Polls(s', acts[n], did) && s'.reqs[acts[n].r].answer == SlowDown then 1 else 0
    decreases n
  {
    hide Apply, Polls;
    if n == 0 {
      assert acts[..1] == [acts[0]] && acts[..0] == [] && acts[..1][1..] == [];
    } else {
      assert acts[..n + 1][1..] == acts[1..][..n] && acts[..n][1..] == acts[1..][..n - 1] && acts[..n][0] == acts[0];
      SlowDownsSnoc(Apply(s, acts[0]), acts[1..], did, n - 1);
    }
  }

  // As long as the count is right, one more action keeps it right exactly if
  // it is not a poll's write that has been overtaken.
  lemma {:induction false} OneMore(interval: int, s: System, acts: seq<Action>, did: DeviceId, n: nat)
    requires n < |acts| && Inv(s) && did in s.h.devices && Counts(interval, s, acts[..n], did)
    requires did in Run(s, acts[..n + 1]).st.devices
    ensures Counts(interval, s, acts[..n + 1], did) <==> Undisturbed(s, acts, did, n)
  {
    hide Inv, Run, Apply, SlowDowns, Enabled;
    var s' := Run(s, acts[..n]);
    RunSnoc(s, acts, n);
    SlowDownsSnoc(s, acts, did, n);
    RunKeepsInv(s, acts[..n]);
    RunKeepsDeviceRecord(s, acts[..n], did);
    if did !in s'.st.devices { ActionReusesNoDevice(s', acts[n], did); }
    ActionMovesInterval(s', acts[n], did);
  }

  lemma {:induction false} RunKeepsDeviceRecord(s: System, acts: seq<Action>, did: DeviceId)
    requires Inv(s) && did in s.h.devices
    ensures did in Run(s, acts).h.devices
  {
    hide Inv, Run, SessionsGrow, CodesGrow, RestGrows;
    RunGrows(s, acts);
  }

  // Once the row is gone there is nothing to get wrong.
  lemma {:induction false} GoneCounts(interval: int, s: System, acts: seq<Action>, did: DeviceId, n: nat)
    requires n < |acts| && did !in Run(s, acts[..n + 1]).st.devices
    ensures Counts(interval, s, acts[..n + 1], did)
  {
  }

  lemma {:induction false} GoneIsUndisturbed(s: System, acts: seq<Action>, did: DeviceId, n: nat)
    requires n < |acts| && Inv(s) && did in s.h.devices && did !in Run(s, acts[..n + 1]).st.devices
    ensures Undisturbed(s, acts, did, n)
  {
    hide Inv, Run, Apply, Enabled;
    RunSnoc(s, acts, n);
    var s' := Run(s, acts[..n]);
    if did in s'.st.devices && Polls(s', acts[n], did) { PollKeepsRow(s', acts[n], did); }
  }

  lemma PollKeepsRow(s: System, a: Action, did: DeviceId)
    requires did in s.st.devices && Polls(s, a, did)
    ensures did in Apply(s, a).st.devices
  {
    hide Record, FreshChoice, Exec;
    OnlyPollsPoll(s.st, s.now, s.ttl, s.reqs[a.r], a.ch);
  }

  /**
   Over any run of the machine, whatever interleaves: the stored interval is at
   every moment the starting one plus five seconds for every slow_down answer,
   if and only if every poll's write finds the interval the poll had read.
   */
  lemma {:induction false} IntervalExactIffUndisturbed(s: System, acts: seq<Action>, did: DeviceId)
    requires Inv(s) && did in s.st.devices
    ensures (forall n: nat | n <= |acts| :: Counts(s.st.devices[did].interval, s, acts[..n], did))
      <==> (forall n: nat | n < |acts| :: Undisturbed(s, acts, did, n))
  {
    hide Inv, Run, SlowDowns, Counts, Undisturbed;
    var interval := s.st.devices[did].interval;
    DeviceOnRecord(s, did);
    StartCounts(s, acts, did);
    if forall n: nat | n < |acts| :: Undisturbed(s, acts, did, n) {
      CountsUpTo(interval, s, acts, did, |acts|);
    }
    if forall n: nat | n <= |acts| :: Counts(interval, s, acts[..n], did) {
      forall n: nat | n < |acts| ensures Undisturbed(s, acts, did, n) {
        assert Counts(interval, s, acts[..n], did) && Counts(interval, s, acts[..n + 1], did);
        if did in Run(s, acts[..n + 1]).st.devices { OneMore(interval, s, acts, did, n); }
        else { GoneIsUndisturbed(s, acts, did, n); }
      }
    }
  }

  lemma DeviceOnRecord(s: System, did: DeviceId)
    requires Inv(s) && did in s.st.devices
    ensures did in s.h.devices
  {
    hide FreshInv, SessionsInv, LineageInv, RotationsInv, CodesInv, BirthsInv, PcsInv, JarInv, AcceptedInv;
    hide ChallengesInv;
    assert DeviceOk(s.h, did, s.st.devices[did]);
  }

  lemma {:induction false} StartCounts(s: System, acts: seq<Action>, did: DeviceId)
    requires did in s.st.devices
    ensures Counts(s.st.devices[did].interval, s, acts[..0], did)
  {
    assert acts[..0] == [];
  }

  lemma {:induction false} CountsUpTo(interval: int, s: System, acts: seq<Action>, did: DeviceId, n: nat)
    requires n <= |acts| && Inv(s) && did in s.h.devices && Counts(interval, s, acts[..0], did)
    requires forall m: nat | m < |acts| :: Undisturbed(s, acts, did, m)
    ensures forall m: nat | m <= n :: Counts(interval, s, acts[..m], did)
    decreases n
  {
    hide Inv, Run, SlowDowns, Counts, Undisturbed;
    if n > 0 {
      CountsUpTo(interval, s, acts, did, n - 1);
      assert Undisturbed(s, acts, did, n - 1);
      assert Counts(interval, s, acts[..n - 1], did);
      if did in Run(s, acts[..n - 1 + 1]).st.devices { OneMore(interval, s, acts, did, n - 1); }
      else { GoneCounts(interval, s, acts, did, n - 1); }
    }
  }

  // No poll of did is written while acts run.
  ghost predicate NoPollWritten(s: System, acts: seq<Action>, did: DeviceId) {
    forall n: nat | n < |acts| :: !Polls(Run(s, acts[..n]), acts[n], did)
  }

  lemma {:induction false} NoneWrittenNoneSlowed(s: System, acts: seq<Action>, did: DeviceId)
    requires NoPollWritten(s, acts, did)
    ensures SlowDowns(s, acts, did) == 0
    decreases |acts|
  {
    hide Apply, Polls;
    if acts != [] {
      assert acts[..0] == [] && !Polls(Run(s, acts[..0]), acts[0], did);
      forall n: nat | n < |acts| - 1 ensures !Polls(Run(Apply(s, acts[0]), acts[1..][..n]), acts[1..][n], did) {
        assert acts[..n + 1][1..] == acts[1..][..n] && acts[..n + 1][0] == acts[0];
        assert !Polls(Run(s, acts[..n + 1]), acts[n + 1], did);
      }
      NoneWrittenNoneSlowed(Apply(s, acts[0]), acts[1..], did);
    }
  }

  /** A poll whose row no other poll writes between its read and its write is undisturbed. */
  lemma {:induction false} AloneIsUndisturbed(s: System, r: ReqId, ch: Choice, acts: seq<Action>, did: DeviceId)
    requires Inv(s) && r in s.reqs && s.reqs[r].DeviceLookup? && FreshChoice(s.h, ch)
    requires var s1 := Apply(s, Step(r, ch));
      && s1.reqs[r].DevicePoll? && s1.reqs[r].did == did && NoPollWritten(s1, acts, did)
      && did in Run(s1, acts).st.devices
    ensures var s1 := Apply(s, Step(r, ch)); Run(s1, acts).st.devices[did].interval == Found(s1.reqs[r])
  {
    hide Inv, Run, SlowDowns, Apply, FreshChoice;
    var s1 := Apply(s, Step(r, ch));
    ActionKeepsInv(s, Step(r, ch));
    LookupFinds(s, r, ch);
    NoneWrittenNoneSlowed(s1, acts, did);
    DeviceOnRecord(s1, did);
    forall n: nat | n < |acts| ensures Undisturbed(s1, acts, did, n) {}
    StartCounts(s1, acts, did);
    CountsUpTo(s1.st.devices[did].interval, s1, acts, did, |acts|);
    assert acts[..|acts|] == acts;
    assert Counts(s1.st.devices[did].interval, s1, acts[..|acts|], did);
  }

  lemma LookupFinds(s: System, r: ReqId, ch: Choice)
    requires r in s.reqs && s.reqs[r].DeviceLookup? && FreshChoice(s.h, ch)
    ensures var s1 := Apply(s, Step(r, ch));
      r in s1.reqs && (s1.reqs[r].DevicePoll? ==>
        s1.reqs[r].did in s1.st.devices && s1.st.devices[s1.reqs[r].did].interval == Found(s1.reqs[r]))
  {
    hide Record, FreshChoice;
  }

  // ---- a run in which it goes wrong ----

  // Request r stands before the lookup of a pending grant polled too early.
  ghost predicate AboutToPoll(s: System, r: ReqId, did: DeviceId) {
    && did in s.st.devices && r in s.reqs && s.reqs[r].DeviceLookup?
    && FindDevice(s.st, s.reqs[r].code) == Some(did)
    && var d := s.st.devices[did];
    d.client == s.reqs[r].client && d.status == Pending && s.now <= d.expiresAt
    && d.lastPolled.Some? && s.now - d.lastPolled.value < d.interval * SECOND
  }

  lemma LookupReads(s: System, r: ReqId, did: DeviceId, ch: Choice)
    requires AboutToPoll(s, r, did) && FreshChoice(s.h, ch)
    ensures var s' := Apply(s, Step(r, ch));
      && s'.st == s.st && s'.now == s.now
      && s'.reqs == s.reqs[r := DevicePoll(did, s.now, s.st.devices[did].interval + DEVICE_INTERVAL, SlowDown)]
  {
    hide Record, FreshChoice;
  }

  lemma PollWrites(s: System, r: ReqId, ch: Choice)
    requires r in s.reqs && s.reqs[r].DevicePoll? && s.reqs[r].did in s.st.devices && FreshChoice(s.h, ch)
    ensures var s', pc := Apply(s, Step(r, ch)), s.reqs[r];
      && pc.did in s'.st.devices && s'.st.devices[pc.did].interval == pc.interval
      && s'.reqs == s.reqs[r := Finished(pc.answer)]
  {
    hide Record, FreshChoice;
  }

  function FourSteps(a: ReqId, b: ReqId, chs: seq<Choice>): seq<Action>
    requires |chs| == 4
  {
    [Step(a, chs[0]), Step(b, chs[1]), Step(a, chs[2]), Step(b, chs[3])]
  }

  // The choices of the four steps are fresh when they are made.
  ghost predicate FreshInTurn(s: System, a: ReqId, b: ReqId, chs: seq<Choice>)
    requires |chs| == 4
  {
    var s1 := Apply(s, Step(a, chs[0]));
    var s2 := Apply(s1, Step(b, chs[1]));
    var s3 := Apply(s2, Step(a, chs[2]));
    FreshChoice(s.h, chs[0]) && FreshChoice(s1.h, chs[1]) && FreshChoice(s2.h, chs[2]) && FreshChoice(s3.h, chs[3])
  }

  lemma {:induction false} BothRead(s: System, a: ReqId, b: ReqId, did: DeviceId, chs: seq<Choice>)
    requires a != b && AboutToPoll(s, a, did) && AboutToPoll(s, b, did) && |chs| == 4 && FreshInTurn(s, a, b, chs)
    ensures var s2 := Apply(Apply(s, Step(a, chs[0])), Step(b, chs[1]));
      var pc := DevicePoll(did, s.now, s.st.devices[did].interval + DEVICE_INTERVAL, SlowDown);
      s2.st == s.st && s2.reqs == s.reqs[a := pc][b := pc]
    ensures b in Apply(s, Step(a, chs[0])).reqs && !Apply(s, Step(a, chs[0])).reqs[b].DevicePoll?
  {
    hide Apply, FreshChoice;
    LookupReads(s, a, did, chs[0]);
    LookupReads(Apply(s, Step(a, chs[0])), b, did, chs[1]);
  }

  lemma {:induction false} BothWrite(s: System, a: ReqId, b: ReqId, pc: Pc, ca: Choice, cb: Choice)
    requires a != b && a in s.reqs && b in s.reqs && s.reqs[a] == pc && s.reqs[b] == pc && pc.DevicePoll?
    requires pc.did in s.st.devices && FreshChoice(s.h, ca) && FreshChoice(Apply(s, Step(a, ca)).h, cb)
    ensures var s1 := Apply(s, Step(a, ca)); var s2 := Apply(s1, Step(b, cb));
      && pc.did in s2.st.devices && s2.st.devices[pc.did].interval == pc.interval
      && a in s2.reqs && b in s2.reqs && s2.reqs[a] == Finished(pc.answer) && s2.reqs[b] == Finished(pc.answer)
      && b in s1.reqs && s1.reqs[b] == pc
  {
    hide Apply, FreshChoice;
    PollWrites(s, a, ca);
    PollWrites(Apply(s, Step(a, ca)), b, cb);
  }

  /**
   When two early polls read the row before either writes, both are answered
   slow_down and the interval is raised once.
   */
  lemma {:induction false} TornPollsLoseABackoff(s: System, a: ReqId, b: ReqId, did: DeviceId, chs: seq<Choice>)
    requires a != b && AboutToPoll(s, a, did) && AboutToPoll(s, b, did) && |chs| == 4 && FreshInTurn(s, a, b, chs)
    ensures var acts := FourSteps(a, b, chs); var s' := Run(s, acts);
      && SlowDowns(s, acts, did) == 2
      && a in s'.reqs && b in s'.reqs && s'.reqs[a] == Finished(SlowDown) && s'.reqs[b] == Finished(SlowDown)
      && did in s'.st.devices && s'.st.devices[did].interval == s.st.devices[did].interval + DEVICE_INTERVAL
  {
    hide Apply, FreshChoice, Run, SlowDowns;
    var acts := FourSteps(a, b, chs);
    var s2 := Apply(Apply(s, acts[0]), acts[1]);
    BothRead(s, a, b, did, chs);
    BothWrite(s2, a, b, s2.reqs[a], chs[2], chs[3]);
    FourRun(s, acts);
    FourSlowDowns(s, acts, did);
  }

  lemma {:induction false} FourRun(s: System, acts: seq<Action>)
    requires |acts| == 4
    ensures Run(s, acts) == Apply(Apply(Apply(Apply(s, acts[0]), acts[1]), acts[2]), acts[3])
  {
    hide Apply;
    assert acts[1..][1..] == acts[2..] && acts[2..][1..] == acts[3..] && acts[3..][1..] == [];
    assert Run(s, acts) == Run(Apply(s, acts[0]), acts[1..]);
    assert Run(Apply(s, acts[0]), acts[1..]) == Run(Apply(Apply(s, acts[0]), acts[1]), acts[2..]);
    var s2 := Apply(Apply(s, acts[0]), acts[1]);
    var s3 := Apply(s2, acts[2]);
    assert Run(s2, acts[2..]) == Run(s3, acts[3..]);
    assert Run(s3, acts[3..]) == Run(Apply(s3, acts[3]), acts[3..][1..]);
  }

  lemma {:induction false} FourSlowDowns(s: System, acts: seq<Action>, did: DeviceId)
    requires |acts| == 4
    requires var s1 := Apply(s, acts[0]); var s2 := Apply(s1, acts[1]); var s3 := Apply(s2, acts[2]);
      && !Polls(s, acts[0], did) && !Polls(s1, acts[1], did)
      && Polls(s2, acts[2], did) && s2.reqs[acts[2].r].answer == SlowDown
      && Polls(s3, acts[3], did) && s3.reqs[acts[3].r].answer == SlowDown
    ensures SlowDowns(s, acts, did) == 2
  {
    hide Apply, Polls;
    assert acts[1..][1..] == acts[2..] && acts[2..][1..] == acts[3..] && acts[3..][1..] == [];
    var s1 := Apply(s, acts[0]);
    var s2 := Apply(s1, acts[1]);
    var s3 := Apply(s2, acts[2]);
    assert SlowDowns(s3, acts[3..], did) == 1;
    assert SlowDowns(s2, acts[2..], did) == 2;
    assert SlowDowns(s1, acts[1..], did) == 2;
  }
}
