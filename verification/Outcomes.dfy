/**
 What a whole request does when no other moves, said from the tables alone: who
 gets what, with which lifetimes, and what the tables are afterwards. The
 modules Exchanges, SignIns and Hits say it for every endpoint; here is what
 they share.
 */
module Outcomes {
  import opened Model
  import opened Stores
  import opened Protocol
  import opened Databases
  import opened Handlers

  const MINUTE: Time := 60_000_000_000

  // A session row can be inserted: a new id, a user and a client on the books,
  // and tokens no other session has.
  ghost predicate CanSeat(st: Store, ch: Choice, user: Option<UserId>, client: ClientId) {
    && ch.id !in st.sessions && (user.Some? ==> user.value in st.users) && client in st.clients
    && forall sid | sid in st.sessions :: st.sessions[sid].access != ch.t1 && st.sessions[sid].refresh != ch.t2
  }

  // An authorization code can be inserted.
  ghost predicate CanGrant(st: Store, ch: Choice, user: UserId, client: ClientId) {
    && ch.id !in st.grants && user in st.users && client in st.clients
    && forall gid | gid in st.grants :: st.grants[gid].code != ch.t1
  }

  lemma Seats(st: Store, now: Time, row: Session, source: Source, ch: Choice)
    requires row.access == ch.t1 && row.refresh == ch.t2
    ensures var w := InsertSession(ch.id, row, source);
      if CanSeat(st, ch, row.user, row.client) then
        && Answer(st, w) == Done
        && Perform(st, now, w) == st.(sessions := st.sessions[ch.id := row.(createdAt := now)])
      else Answer(st, w) == Refused && Perform(st, now, w) == st
  {
  }

  lemma Grants(st: Store, now: Time, g: Grant, ticket: TicketId, ch: Choice)
    requires g.code == ch.t1 && !g.used
    ensures var w := InsertGrant(ch.id, g, ticket);
      if CanGrant(st, ch, g.user, g.client) then
        Answer(st, w) == Done && Perform(st, now, w) == st.(grants := st.grants[ch.id := g])
      else Answer(st, w) == Refused && Perform(st, now, w) == st
  {
  }

  lemma SeatingKeepsConstraints(st: Store, ch: Choice, row: Session)
    requires Constraints(st) && CanSeat(st, ch, row.user, row.client) && row.access == ch.t1 && row.refresh == ch.t2
    ensures Constraints(st.(sessions := st.sessions[ch.id := row]))
  {
  }

  // Which handler a step belongs to.

  lemma RefreshStep(st: Store, now: Time, ttl: Time, pc: Pc, ch: Choice)
    requires FamilyOf(pc) == RefreshFamily
    ensures Exec(st, now, ttl, pc, ch) == ExecRefresh(st, now, pc, ch)
  {
    hide FamilyOf, ExecRefresh, ExecCode, ExecDevice, ExecClient, ExecAuthorize, ExecPortalLogin, ExecPortal;
  }

  lemma CodeStep(st: Store, now: Time, ttl: Time, pc: Pc, ch: Choice)
    requires FamilyOf(pc) == CodeFamily
    ensures Exec(st, now, ttl, pc, ch) == ExecCode(st, now, pc, ch)
  {
    hide FamilyOf, ExecRefresh, ExecCode, ExecDevice, ExecClient, ExecAuthorize, ExecPortalLogin, ExecPortal;
  }

  lemma DeviceStep(st: Store, now: Time, ttl: Time, pc: Pc, ch: Choice)
    requires FamilyOf(pc) == DeviceFamily
    ensures Exec(st, now, ttl, pc, ch) == ExecDevice(st, now, pc, ch)
  {
    hide FamilyOf, ExecRefresh, ExecCode, ExecDevice, ExecClient, ExecAuthorize, ExecPortalLogin, ExecPortal;
  }

  lemma ClientStep(st: Store, now: Time, ttl: Time, pc: Pc, ch: Choice)
    requires FamilyOf(pc) == ClientFamily
    ensures Exec(st, now, ttl, pc, ch) == ExecClient(st, now, pc, ch)
  {
    hide FamilyOf, ExecRefresh, ExecCode, ExecDevice, ExecClient, ExecAuthorize, ExecPortalLogin, ExecPortal;
  }

  lemma FormStep(st: Store, now: Time, ttl: Time, pc: Pc, ch: Choice)
    requires FamilyOf(pc) == AuthorizeFamily
    ensures Exec(st, now, ttl, pc, ch) == ExecAuthorize(st, now, pc, ch)
  {
    hide FamilyOf, ExecRefresh, ExecCode, ExecDevice, ExecClient, ExecAuthorize, ExecPortalLogin, ExecPortal;
  }

  lemma LoginStep(st: Store, now: Time, ttl: Time, pc: Pc, ch: Choice)
    requires FamilyOf(pc) == LoginFamily
    ensures Exec(st, now, ttl, pc, ch) == ExecPortalLogin(st, now, pc, ch)
  {
    hide FamilyOf, ExecRefresh, ExecCode, ExecDevice, ExecClient, ExecAuthorize, ExecPortalLogin, ExecPortal;
  }

  lemma CookieStep(st: Store, now: Time, ttl: Time, pc: Pc, ch: Choice)
    requires FamilyOf(pc) == PortalFamily
    ensures Exec(st, now, ttl, pc, ch) == ExecPortal(st, now, ttl, pc, ch)
  {
    hide FamilyOf, ExecRefresh, ExecCode, ExecDevice, ExecClient, ExecAuthorize, ExecPortalLogin, ExecPortal;
  }
}
