/**
 * What the token store answers and leaves behind, in terms of what was stored and what the provider
 * granted: the token types, values, dates and keys are spelled out here once more, apart from the code.
 */
module TokenAnswers {
  import opened Prelude
  import opened Tokens
  import opened RefreshCall
  import opened TokenRepos
  import opened TokenStores

  /** The keys of the records, as other programs that share the store know them. */
  lemma KeysSpelled(id: string)
    ensures TokenKey(AccessType, id) == "accessToken:" + id
    ensures TokenKey(RefreshType, id) == "refreshToken:" + id
    ensures TokenKey(IdType, id) == "idToken:" + id
    ensures SessionKey(id) == "session:" + id
  {
    assert "accessToken" + ":" == "accessToken:" && "refreshToken" + ":" == "refreshToken:";
    assert "idToken" + ":" == "idToken:" && "session" + ":" == "session:";
  }

  /** A record with an expiry date outlives it by nine seconds at least and may go after ten; others stay. */
  lemma EvictedLate(token: AuthToken, now: Time)
    ensures Evictable(token, now) ==> token.expiresAt != 0 && token.expiresAt + 9 * SECOND < now
    ensures token.expiresAt != 0 && token.expiresAt + 10 * SECOND < now ==> Evictable(token, now)
  {
  }

  // ---- Tokens out of a grant --------------------------------------------------------------

  /** The grant comes with an ID token, and no ID is missing, which would make it count as absent. */
  predicate NewIdToken(id: string, g: Grant) {
    g.idToken.Some? && g.ulid != "" && id != ""
  }

  function AccessOf(clients: ClientStore, id: string, rt: AuthToken, g: Grant): AuthToken
    requires rt.providerID in clients
  {
    AuthToken(id, g.access, g.accessExpiry, if g.idToken.Some? then g.idToken.value.subject else "",
      clients[rt.providerID].tokenURL, rt.providerID, AccessType)
  }

  /** A new refresh token, or the one that was used. */
  function RefreshOf(clients: ClientStore, id: string, rt: AuthToken, g: Grant): AuthToken
    requires rt.providerID in clients
  {
    if g.refresh != "" then
      AuthToken(id, g.refresh, g.refreshExpiry, if g.idToken.Some? then g.idToken.value.subject else "",
        clients[rt.providerID].tokenURL, rt.providerID, RefreshType)
    else
      AuthToken(id, rt.value, rt.expiresAt, if g.idToken.Some? then g.idToken.value.subject else rt.subject,
        rt.tokenURL, rt.providerID, rt.typ)
  }

  function IdOf(id: string, rt: AuthToken, g: Grant): AuthToken
    requires NewIdToken(id, g)
  {
    AuthToken(id, g.idToken.value.value, g.idToken.value.expiresAt, g.idToken.value.subject, "", rt.providerID, IdType)
  }

  /** `s` is what a grant for the refresh token `rt` gives the token ID `id`. */
  predicate FromGrant(clients: ClientStore, id: string, rt: AuthToken, g: Grant, s: AuthTokenSet)
    requires rt.providerID in clients
  {
    && s.access == AccessOf(clients, id, rt, g) && s.refresh == RefreshOf(clients, id, rt, g)
    && if NewIdToken(id, g) then s.idToken == IdOf(id, rt, g) else s.idToken.id == ""
  }

  /** The tokens of a refresh carry the values and dates of the grant, each under its own type. */
  lemma SetIsFromGrant(clients: ClientStore, id: string, rt: AuthToken, g: Grant)
    requires WellKeyed(clients) && rt.providerID in clients
    ensures RefreshWith(clients, rt, Granted(g)).Some?
    ensures FromGrant(clients, id, rt, g, Relabelled(RefreshWith(clients, rt, Granted(g)).value, id))
  {
  }

  // ---- A refresh ---------------------------------------------------------------------------

  /** The refresh token is there, and its provider grants for it. */
  predicate Grants(cfg: Config, records: Records, evicts: bool, env: CallEnv, rt: AuthToken, g: Grant) {
    && env.up(7) && Look(records, evicts, RefreshType, cfg.tokenID, env.clock(7)) == Some(rt)
    && rt.providerID in cfg.clients && env.provider(rt) == Granted(g)
  }

  /** Redis takes every write of it. (A refresh token that is used again must have been stored as one.) */
  predicate Takes(cfg: Config, env: CallEnv, rt: AuthToken, g: Grant) {
    env.up(5) && env.up(4) && (NewIdToken(cfg.tokenID, g) ==> env.up(3)) && (g.refresh == "" ==> rt.typ == RefreshType)
  }

  /** The records with the grant's tokens in their slots; without an ID token that slot stays as it is. */
  function Rewritten(cfg: Config, records: Records, rt: AuthToken, g: Grant): Records
    requires rt.providerID in cfg.clients
  {
    var id := cfg.tokenID;
    var two := records[TokenKey(AccessType, id) := AccessOf(cfg.clients, id, rt, g)]
                      [TokenKey(RefreshType, id) := RefreshOf(cfg.clients, id, rt, g)];
    if NewIdToken(id, g) then two[TokenKey(IdType, id) := IdOf(id, rt, g)] else two
  }

  /** How far the writes get: the access token, then the refresh token, then the ID token. */
  function WrittenSoFar(cfg: Config, records: Records, env: CallEnv, rt: AuthToken, g: Grant): Records
    requires rt.providerID in cfg.clients
  {
    var id := cfg.tokenID;
    if !env.up(5) then records
    else if !env.up(4) || (g.refresh == "" && rt.typ != RefreshType) then
      records[TokenKey(AccessType, id) := AccessOf(cfg.clients, id, rt, g)]
    else
      records[TokenKey(AccessType, id) := AccessOf(cfg.clients, id, rt, g)]
             [TokenKey(RefreshType, id) := RefreshOf(cfg.clients, id, rt, g)]
  }

  /**
   * `refreshAccessToken`: what is granted is returned and stored, each token in its own slot, if all
   * writes are taken; otherwise it fails, and what was written before the failure stays.
   */
  lemma RefreshStoresGrant(cfg: Config, records: Records, evicts: bool, env: CallEnv, rt: AuthToken, g: Grant)
    requires WellKeyed(cfg.clients) && Grants(cfg, records, evicts, env, rt, g)
    ensures
      var x := Refresh(cfg, records, evicts, env);
      if Takes(cfg, env, rt, g) then
        && x.issued.Some? && FromGrant(cfg.clients, cfg.tokenID, rt, g, x.issued.value)
        && x.records == Rewritten(cfg, records, rt, g)
      else x == Refreshed(None, WrittenSoFar(cfg, records, env, rt, g))
  {
    SetIsFromGrant(cfg.clients, cfg.tokenID, rt, g);
  }

  /** Without a refresh token, a provider or a grant it fails and changes nothing. */
  lemma RefreshWithoutGrant(cfg: Config, records: Records, evicts: bool, env: CallEnv)
    requires forall rt, g :: !Grants(cfg, records, evicts, env, rt, g)
    ensures Refresh(cfg, records, evicts, env) == Refreshed(None, records)
  {
    var rt := Look(records, evicts, RefreshType, cfg.tokenID, env.clock(7));
    if env.up(7) && rt.Some? && rt.value.providerID in cfg.clients && env.provider(rt.value).Granted? {
      assert Grants(cfg, records, evicts, env, rt.value, env.provider(rt.value).grant);
    }
  }

  // ---- A call ------------------------------------------------------------------------------

  predicate Past(expiresAt: Time, now: Time) {
    expiresAt != 0 && expiresAt < now
  }

  /** What a call returns when this token is in hand at the end. */
  function Final(token: AuthToken, env: CallEnv): Result<AuthToken, CallError> {
    if Past(token.expiresAt, env.clock(1)) then Err(TokenExpired) else Ok(token)
  }

  /** The slot's token is due by the second clock reading, or missing. */
  predicate Due(cfg: Config, kind: Kind, records: Records, evicts: bool, env: CallEnv) {
    match Look(records, evicts, kind.Slot(), cfg.tokenID, env.clock(9))
    case None => true
    case Some(t) => t.expiresAt != 0 && t.expiresAt - cfg.margin < env.clock(8)
  }

  /** What a call returns that is left with what the slot held at first. */
  function Stale(cfg: Config, kind: Kind, records: Records, evicts: bool, env: CallEnv): Result<AuthToken, CallError> {
    match Look(records, evicts, kind.Slot(), cfg.tokenID, env.clock(9))
    case None => Err(TokenExpired)
    case Some(t) => Final(t, env)
  }

  /** A call that cannot read its slot fails; one whose token is not due answers with it; neither changes anything. */
  lemma IdleCall(cfg: Config, kind: Kind, records: Records, evicts: bool, env: CallEnv)
    requires !env.up(9) || !Due(cfg, kind, records, evicts, env)
    ensures
      var o := Call(cfg, kind, records, evicts, env);
      && o.records == records && !o.refreshed
      && o.result == if env.up(9) then Stale(cfg, kind, records, evicts, env) else Err(StoreFailed)
  {
  }

  lemma PlaceholderIsPast(env: CallEnv)
    requires env.Sound()
    ensures Past(PLACEHOLDER.expiresAt, env.clock(1)) && PLACEHOLDER.expiresAt == SECOND < env.clock(8)
  {
  }

  /**
   * A due call whose refresh is granted and stored: `GetFreshAccessToken` answers with the granted access
   * token, `GetFreshIDToken` with the granted ID token, or with the old one if none came.
   */
  lemma GrantedCall(
    cfg: Config, kind: Kind, records: Records, evicts: bool, env: CallEnv, rt: AuthToken, g: Grant)
    requires 0 <= cfg.margin && env.Sound() && WellKeyed(cfg.clients)
    requires env.up(9) && Due(cfg, kind, records, evicts, env)
    requires Grants(cfg, records, evicts, env, rt, g) && Takes(cfg, env, rt, g)
    ensures
      var o := Call(cfg, kind, records, evicts, env);
      && o.refreshed && o.records == Rewritten(cfg, records, rt, g)
      && o.result ==
           if kind.FreshAccess? then Final(AccessOf(cfg.clients, cfg.tokenID, rt, g), env)
           else if NewIdToken(cfg.tokenID, g) then Final(IdOf(cfg.tokenID, rt, g), env)
           else Stale(cfg, kind, records, evicts, env)
  {
    RefreshStoresGrant(cfg, records, evicts, env, rt, g);
    PlaceholderIsPast(env);
  }

  /** So a granted access token that has not expired is the answer, with the grant's value and date. */
  lemma FreshTokenIsGranted(cfg: Config, records: Records, evicts: bool, env: CallEnv, rt: AuthToken, g: Grant)
    requires 0 <= cfg.margin && env.Sound() && WellKeyed(cfg.clients)
    requires env.up(9) && Due(cfg, FreshAccess, records, evicts, env)
    requires Grants(cfg, records, evicts, env, rt, g) && Takes(cfg, env, rt, g) && !Past(g.accessExpiry, env.clock(1))
    ensures
      var r := Call(cfg, FreshAccess, records, evicts, env).result;
      && r.Ok? && r.value.value == g.access && r.value.expiresAt == g.accessExpiry
      && r.value.id == cfg.tokenID && r.value.typ == AccessType
  {
    GrantedCall(cfg, FreshAccess, records, evicts, env, rt, g);
  }

  /** The refresh fails with these records behind it: it is not granted, or some write is refused. */
  ghost predicate FailsWith(cfg: Config, records: Records, evicts: bool, env: CallEnv, after: Records) {
    if exists rt, g :: Grants(cfg, records, evicts, env, rt, g) then
      exists rt, g :: Grants(cfg, records, evicts, env, rt, g) && !Takes(cfg, env, rt, g)
                      && after == WrittenSoFar(cfg, records, env, rt, g)
    else after == records
  }

  /**
   * A due call whose refresh fails, wherever it does: what was written before the failure stays, and the
   * answer is what a second read of the slot shows, or else what the first had shown.
   */
  lemma FailedCall(cfg: Config, kind: Kind, records: Records, evicts: bool, env: CallEnv, after: Records)
    requires 0 <= cfg.margin && env.Sound() && WellKeyed(cfg.clients)
    requires env.up(9) && Due(cfg, kind, records, evicts, env)
    requires FailsWith(cfg, records, evicts, env, after)
    ensures
      var o := Call(cfg, kind, records, evicts, env);
      var again := Look(after, evicts, kind.Slot(), cfg.tokenID, env.clock(2));
      && o.records == after && !o.refreshed
      && o.result ==
           if env.up(2) && again.Some? then Final(again.value, env) else Stale(cfg, kind, records, evicts, env)
  {
    PlaceholderIsPast(env);
    if exists rt, g :: Grants(cfg, records, evicts, env, rt, g) {
      var rt, g :| Grants(cfg, records, evicts, env, rt, g) && !Takes(cfg, env, rt, g)
        && after == WrittenSoFar(cfg, records, env, rt, g);
      RefreshStoresGrant(cfg, records, evicts, env, rt, g);
    } else {
      RefreshWithoutGrant(cfg, records, evicts, env);
    }
  }
}
