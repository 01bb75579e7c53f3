/**
 Second factors over runs: what an MFA time means, how old the challenge
 behind it can be, and what a console URL says about its user.
 */
module Factors {
  import opened Model
  import opened Protocol
  import opened Invariant
  import opened Inductive

  // Request q of uid verified a factor at time v, in flight since it arrived,
  // and stamped it t; the direct forms stamp the very time of the challenge.
  ghost predicate Challenged(h: History, uid: UserId, t: Time, q: ReqId, v: Time) {
    && (uid, t) in h.challenges && h.challenges[(uid, t)] == Proof(q, v) && (uid, v) in h.verified
    && q in h.arrived && h.arrived[q].at <= v <= t
    && (Direct(h.arrived[q].pc) ==> v == t)
  }

  lemma StampMeansChallenge(s: System, uid: UserId, t: Time)
    requires Inv(s) && (uid, t) in s.h.challenges
    ensures var p := s.h.challenges[(uid, t)]; Challenged(s.h, uid, t, p.req, p.passed) && t <= s.now
  {
    hide FreshInv, SessionsInv, LineageInv, CodesInv, PcsInv, JarInv, RotationsInv, AcceptedInv, DevicesInv;
    hide BirthsInv;
  }

  /**
   A session is MFA-verified exactly when it has an MFA time, and that time
   stamps a challenge its own user completed within one request. The user of a
   session passed a password check before, or chose the password on registering.
   */
  lemma VerifiedMeansChallenged(s: System, sid: SessionId)
    requires Reachable(s) && sid in s.st.sessions
    ensures var row := s.st.sessions[sid];
      && (row.mfaVerified <==> row.mfaAt.Some?)
      && (row.mfaVerified ==> row.user.Some? && exists q, v :: Challenged(s.h, row.user.value, row.mfaAt.value, q, v))
      && (row.user.Some? ==> row.user.value in s.h.known || row.user.value in s.h.enrolled)
  {
    ReachableInv(s);
    hide FreshInv, LineageInv, CodesInv, PcsInv, JarInv, RotationsInv, AcceptedInv, DevicesInv, BirthsInv;
    hide ChallengesInv;
    var row := s.st.sessions[sid];
    assert SessionOk(s.h, s.now, sid, row);
    if row.mfaAt.Some? { StampMeansChallenge(s, row.user.value, row.mfaAt.value); }
  }

  // The challenge lies in [t - ttl - lag, t], where lag is what request q took
  // from coming in to reading the clock for its stamp; without lag if direct.
  ghost predicate FreshAt(h: History, ttl: Time, t: Time, stamp: Time, q: ReqId, v: Time)
    requires q in h.arrived
  {
    && t - ttl - (stamp - h.arrived[q].at) <= v <= t
    && (Direct(h.arrived[q].pc) ==> t - ttl <= v)
  }

  lemma UrlIsOnRecord(s: System, r: ReqId)
    requires Inv(s) && r in s.reqs && s.reqs[r].Finished?
    ensures UrlOk(s.h, s.ttl, s.reqs[r].out)
  {
    hide FreshInv, SessionsInv, LineageInv, CodesInv, JarInv, RotationsInv, AcceptedInv, DevicesInv, BirthsInv;
    hide ChallengesInv, UrlOk, RefreshPcOk, CodePcOk, DevicePcOk, ClientPcOk, AuthorizePcOk, LoginPcOk, PortalPcOk;
    assert PcOk(s.h, s.now, s.ttl, r, s.reqs[r]);
  }

  /**
   A console URL for a step-up role, issued at a gate passed at time t, means
   a challenge of that very user, stamped within the TTL before t, and older
   than its stamp by no more than the time the one request took that made it.
   */
  lemma ConsoleUrlMeansFreshChallenge(s: System, r: ReqId)
    requires Reachable(s) && r in s.reqs && s.reqs[r].Finished?
    requires s.reqs[r].out.ConsoleUrl? && s.reqs[r].out.stepUpRole
    ensures var out := s.reqs[r].out;
      out.mfaAt.Some? && out.gateAt - s.ttl <= out.mfaAt.value <= out.gateAt
      && exists q, v :: Challenged(s.h, out.uid, out.mfaAt.value, q, v)
                        && FreshAt(s.h, s.ttl, out.gateAt, out.mfaAt.value, q, v)
  {
    ReachableInv(s);
    hide Inv, Reachable;
    UrlIsOnRecord(s, r);
    var out := s.reqs[r].out;
    StampMeansChallenge(s, out.uid, out.mfaAt.value);
    var p := s.h.challenges[(out.uid, out.mfaAt.value)];
    assert FreshAt(s.h, s.ttl, out.gateAt, out.mfaAt.value, p.req, p.passed);
  }
}
