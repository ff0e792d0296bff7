/** OAuth tokens, how a refresh builds new ones, and the keys they are stored under. */
module Tokens {
  import opened Prelude

  datatype TokenType = AccessType | RefreshType | IdType | UnknownType(name: string)

  datatype AuthToken = AuthToken(
    id: string, value: string, expiresAt: Time, subject: string,
    tokenURL: string, providerID: string, typ: TokenType)
  {
    predicate Expired(now: Time) {
      PastExpiry(expiresAt, now)
    }

    predicate ExpiresSoon(now: Time, margin: int) {
      expiresAt != 0 && expiresAt - margin < now
    }
  }

  const EMPTY_TOKEN := AuthToken("", "", 0, "", "", "", UnknownType(""))

  /** Stands for a token that Redis no longer has: it expired one second into year 1. */
  const PLACEHOLDER: AuthToken := EMPTY_TOKEN.(expiresAt := SECOND)

  datatype AuthTokenSet = AuthTokenSet(access: AuthToken, refresh: AuthToken, idToken: AuthToken)
  {
    predicate ValidTypes() {
      && access.id == refresh.id == idToken.id
      && access.providerID == refresh.providerID == idToken.providerID
      && access.typ == AccessType && refresh.typ == RefreshType && idToken.typ == IdType
    }

    function WithID(tokenID: string): AuthTokenSet {
      AuthTokenSet(access.(id := tokenID), refresh.(id := tokenID), idToken.(id := tokenID))
    }
  }

  // ---- The provider's side of a refresh -------------------------------------------------

  datatype IdClaims = IdClaims(value: string, expiresAt: Time, subject: string)

  /**
   * A successful refresh response; `refresh == ""` when the provider does not rotate. `ulid` is the client's
   * own fresh ID.
   */
  datatype Grant = Grant(
    ulid: string, access: string, accessExpiry: Time,
    refresh: string, refreshExpiry: Time, idToken: Option<IdClaims>)

  /**
   * What came of contacting the provider. `Garbled` is a grant the client then fails on: it could not
   * draw an ID, the ID token did not verify, or the new refresh token is not a readable JWT (that last
   * error is only logged at first, but returned at the end). The provider has acted, but the tokens
   * are dropped.
   */
  datatype Reply = Refused | Garbled(grant: Grant) | Granted(grant: Grant)

  datatype Client = Client(id: string, tokenURL: string)

  type ClientStore = map<string, Client>

  predicate WellKeyed(clients: ClientStore) {
    forall k :: k in clients ==> clients[k].id == k
  }

  datatype ClientConfig = ClientConfig(tokenURL: string, valid: bool)

  /** Every configured provider becomes a client whose ID is its key; one bad configuration fails them all. */
  method NewClientStore(configs: map<string, ClientConfig>) returns (r: Result<ClientStore, string>)
    ensures r.Ok? <==> forall k :: k in configs ==> configs[k].valid
    ensures r.Ok? ==> r.value.Keys == configs.Keys && WellKeyed(r.value)
    ensures r.Ok? ==> forall k :: k in configs ==> r.value[k].tokenURL == configs[k].tokenURL
  {
    var clients: ClientStore := map[];
    var todo := configs.Keys;
    while todo != {}
      invariant todo <= configs.Keys
      invariant clients.Keys == configs.Keys - todo
      invariant WellKeyed(clients)
      invariant forall k :: k in clients ==> configs[k].valid && clients[k].tokenURL == configs[k].tokenURL
    {
      var id :| id in todo;
      if !configs[id].valid {
        return Err(id);
      }
      clients := clients[id := Client(id, configs[id].tokenURL)];
      todo := todo - {id};
    }
    r := Ok(clients);
  }

  /** The tokens `oidcClient.refreshAccessToken` makes out of a grant for the refresh token `rt`. */
  function BuildTokenSet(client: Client, rt: AuthToken, grant: Grant): AuthTokenSet {
    var access := AuthToken(grant.ulid, grant.access, grant.accessExpiry, "", client.tokenURL, client.id, AccessType);
    var refresh := if grant.refresh == "" then rt else
      AuthToken(grant.ulid, grant.refresh, grant.refreshExpiry, "", client.tokenURL, client.id, RefreshType);
    match grant.idToken
    case None => AuthTokenSet(access, refresh, EMPTY_TOKEN)
    case Some(claims) =>
      AuthTokenSet(
        access.(subject := claims.subject),
        refresh.(subject := claims.subject),
        AuthToken(grant.ulid, claims.value, claims.expiresAt, claims.subject, "", client.id, IdType))
  }

  /** `ClientStore.RefreshAccessToken`: dispatch on the refresh token's provider. */
  function RefreshWith(clients: ClientStore, rt: AuthToken, reply: Reply): Option<AuthTokenSet> {
    if rt.providerID !in clients then None
    else match reply
      case Granted(grant) => Some(BuildTokenSet(clients[rt.providerID], rt, grant))
      case _ => None
  }

  /** Moves a fresh set under the token ID being refreshed; an absent ID token stays absent. */
  function Relabelled(s: AuthTokenSet, tokenID: string): AuthTokenSet {
    AuthTokenSet(
      s.access.(id := tokenID),
      s.refresh.(id := tokenID),
      if s.idToken.id != "" then s.idToken.(id := tokenID) else s.idToken)
  }

  // ---- Redis keys -----------------------------------------------------------------------

  function Prefix(typ: TokenType): string {
    match typ
    case AccessType => "accessToken"
    case RefreshType => "refreshToken"
    case IdType => "idToken"
    case UnknownType(_) => "unknown"
  }

  function TokenKey(typ: TokenType, id: string): string {
    Prefix(typ) + ":" + id
  }

  function SessionKey(id: string): string {
    "session" + ":" + id
  }

  /** A prefix without ':' can be read back from the key, whatever the ID contains. */
  lemma KeySplits(p: string, i: string, q: string, j: string)
    requires ':' !in p && ':' !in q
    requires p + ":" + i == q + ":" + j
    ensures p == q && i == j
  {
    var s, t := p + ":" + i, q + ":" + j;
    assert s[|p|] == ':' == t[|q|];
    assert forall k :: 0 <= k < |p| ==> s[k] == p[k] != ':';
    assert forall k :: 0 <= k < |q| ==> t[k] == q[k] != ':';
    assert |p| == |q|;
    assert p == s[..|p|] && q == t[..|q|];
    assert i == s[|p| + 1..] && j == t[|q| + 1..];
  }

  /**
   * The access, refresh, ID and session key spaces are disjoint and each is injective in the ID, even for IDs
   * with ':'.
   */
  lemma KeySpacesDisjoint(a: TokenType, i: string, b: TokenType, j: string)
    requires !a.UnknownType? && !b.UnknownType?
    ensures TokenKey(a, i) == TokenKey(b, j) <==> a == b && i == j
    ensures TokenKey(a, i) != SessionKey(j)
    ensures SessionKey(i) == SessionKey(j) <==> i == j
  {
    if TokenKey(a, i) == TokenKey(b, j) {
      KeySplits(Prefix(a), i, Prefix(b), j);
    }
    if TokenKey(a, i) == SessionKey(j) {
      KeySplits(Prefix(a), i, "session", j);
    }
    if SessionKey(i) == SessionKey(j) {
      KeySplits("session", i, "session", j);
    }
  }
}
