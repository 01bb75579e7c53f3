/**
 The records the server stores (internal/model/model.go) and the lifetimes it
 gives them.

 Raw tokens and their hashes are one opaque type: hashing is modelled as an
 injection, so comparing hashes is comparing tokens.  Times are nanoseconds.
 */
module Model {
  import opened Text

  datatype Option<+T> = None | Some(value: T)

  type UserId = nat
  type ClientId = nat
  type SessionId = nat
  type GrantId = nat
  type DeviceId = nat
  type TicketId = nat
  type Token = nat
  type Time = int
  type Scopes = seq<string>

  const SECOND: Time := 1_000_000_000
  const ACCESS_TTL: Time := 900_000_000_000
  const REFRESH_TTL: Time := 3_600_000_000_000
  const ABSOLUTE_TTL: Time := 14_400_000_000_000
  const CODE_TTL: Time := 600_000_000_000
  const AUTH_STATE_TTL: Time := 900_000_000_000
  const PORTAL_TTL: Time := 900_000_000_000
  const PORTAL_LOGIN_TTL: Time := 600_000_000_000
  const DEVICE_TTL: Time := 900_000_000_000
  const DEVICE_INTERVAL: nat := 5

  // The built-in client that owns the portal's own sessions.
  const PORTAL_CLIENT: ClientId := 0

  datatype User = User(active: bool, mfaEnabled: bool, isAdmin: bool, mustChange: bool)

  datatype Client = Client(scopes: Scopes, isPublic: bool, allowDevice: bool)

  // One row backs a portal cookie or a bearer credential. user is None for
  // machine sessions, authTime is None when unknown.
  datatype Session = Session(
    user: Option<UserId>, client: ClientId, access: Token, refresh: Token, scopes: Scopes,
    accessExp: Time, refreshExp: Time, mfaVerified: bool, mfaAt: Option<Time>,
    authTime: Option<Time>, createdAt: Time)

  datatype Grant = Grant(
    user: UserId, client: ClientId, code: Token, challenge: Option<nat>, scopes: Scopes,
    redirect: nat, expiresAt: Time, used: bool, mfaAt: Option<Time>, authTime: Time)

  datatype Status = Pending | Approved | Denied | Redeemed | Expired

  datatype DeviceGrant = DeviceGrant(
    code: Token, userCode: Token, client: ClientId, scopes: Scopes, status: Status,
    user: Option<UserId>, mfaVerified: bool, mfaAt: Option<Time>,
    interval: nat, lastPolled: Option<Time>, expiresAt: Time)

  function Min(a: Time, b: Time): Time {
    if a <= b then a else b
  }

  // A slide never reaches past the absolute lifetime.
  function CapByAbsolute(deadline: Time, createdAt: Time): Time {
    Min(deadline, createdAt + ABSOLUTE_TTL)
  }

  // Both gates of a bearer access token.
  predicate SessionTokenLive(row: Session, now: Time) {
    now <= row.accessExp && now <= row.createdAt + ABSOLUTE_TTL
  }

  // ---- scopes ----

  function Lower(c: char): char {
    if 'A' <= c <= 'Z' then c - 'A' + 'a' else c
  }

  predicate EqualFold(a: string, b: string) {
    |a| == |b| && forall i | 0 <= i < |a| :: Lower(a[i]) == Lower(b[i])
  }

  predicate ContainsStr(ss: Scopes, target: string) {
    exists i | 0 <= i < |ss| :: EqualFold(ss[i], target)
  }

  predicate AllRegistered(registered: Scopes, scopes: Scopes) {
    forall i | 0 <= i < |scopes| :: ContainsStr(registered, scopes[i])
  }

  // The first scope the client is not registered for, "" when there is none.
  function UnregisteredScope(registered: Scopes, scopes: Scopes): string {
    if scopes == [] then ""
    else if !ContainsStr(registered, scopes[0]) then scopes[0]
    else UnregisteredScope(registered, scopes[1..])
  }

  function SplitScopes(scope: string): Scopes {
    Fields(scope, IsSpace)
  }

  // A device grant keeps its scopes in one text column.
  function StoredDeviceScopes(scopes: Scopes): Scopes {
    Fields(Join(scopes, ' '), IsSpace)
  }

  // "" is the answer for "all registered", so the check is exact only because
  // a requested scope is never the empty string.
  lemma {:induction false} UnregisteredScopeIsExact(registered: Scopes, scopes: Scopes)
    requires AreWords(scopes, IsSpace)
    ensures UnregisteredScope(registered, scopes) == "" <==> AllRegistered(registered, scopes)
  {
    if scopes != [] {
      assert IsWord(scopes[0], IsSpace);
      assert AreWords(scopes[1..], IsSpace);
      UnregisteredScopeIsExact(registered, scopes[1..]);
      if ContainsStr(registered, scopes[0]) && AllRegistered(registered, scopes[1..]) {
        forall i | 0 <= i < |scopes|
          ensures ContainsStr(registered, scopes[i])
        {
          if i > 0 { assert scopes[1..][i - 1] == scopes[i]; }
        }
      }
      if AllRegistered(registered, scopes) {
        forall i | 0 <= i < |scopes[1..]|
          ensures ContainsStr(registered, scopes[1..][i])
        {
          assert scopes[1..][i] == scopes[i + 1];
        }
      }
    }
  }

  lemma {:induction false} OwnScopesAreRegistered(scopes: Scopes)
    ensures AllRegistered(scopes, scopes)
  {
    forall i | 0 <= i < |scopes|
      ensures ContainsStr(scopes, scopes[i])
    {
      assert EqualFold(scopes[i], scopes[i]);
    }
  }
}
