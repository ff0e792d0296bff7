/** The values behind a session's token map, over any run of requests: what its last exchange brought. */
module LoginValues {
  import opened Prelude
  import opened Tokens
  import opened Sessions
  import opened Logins
  import opened LoginRuns
  import opened LoginLaws
  import opened LoginTokens
  import opened LoginAnswers
  import RefreshCall
  import TokenRepos
  import TokenStores
  import TokenAnswers
  import TokenRepoLaws

  /** What Redis holds under a token ID. */
  function Under(tokens: TokenRepos.Records, id: string): (Option<AuthToken>, Option<AuthToken>, Option<AuthToken>) {
    (Find(tokens, TokenKey(AccessType, id)),
     Find(tokens, TokenKey(RefreshType, id)),
     Find(tokens, TokenKey(IdType, id)))
  }

  /** Exactly the tokens of a code exchange, with their values and dates. */
  function Brought(client: Client, id: string, t: CodeTokens)
    : (Option<AuthToken>, Option<AuthToken>, Option<AuthToken>)
  {
    (Some(CodeAccess(client, id, t)), Some(CodeRefresh(client, id, t)), Some(CodeId(client, id, t)))
  }

  // ---- What leaves an ID alone --------------------------------------------------------------

  lemma KeysApart(id: string, other: string)
    requires id != other
    ensures forall a, b :: a in {AccessType, RefreshType, IdType} && b in {AccessType, RefreshType, IdType} ==>
      TokenKey(a, id) != TokenKey(b, other)
  {
    forall a, b | a in {AccessType, RefreshType, IdType} && b in {AccessType, RefreshType, IdType}
      ensures TokenKey(a, id) != TokenKey(b, other)
    {
      KeySpacesDisjoint(a, id, b, other);
    }
  }

  lemma StoredElsewhere(
    tokens: TokenRepos.Records, client: Client, id: string, t: CodeTokens, up: nat -> bool, other: string)
    requires id != other
    ensures Under(CodeStored(tokens, client, id, t, up), other) == Under(tokens, other)
  {
    KeysApart(id, other);
  }

  lemma RefreshElsewhere(
    cfg: RefreshCall.Config, records: TokenRepos.Records, evicts: bool, env: TokenStores.CallEnv, other: string)
    requires WellKeyed(cfg.clients) && cfg.tokenID != other
    ensures Under(TokenStores.Refresh(cfg, records, evicts, env).records, other) == Under(records, other)
  {
    KeysApart(cfg.tokenID, other);
    if exists rt, g :: TokenAnswers.Grants(cfg, records, evicts, env, rt, g) {
      var rt, g :| TokenAnswers.Grants(cfg, records, evicts, env, rt, g);
      TokenAnswers.RefreshStoresGrant(cfg, records, evicts, env, rt, g);
    } else {
      TokenAnswers.RefreshWithoutGrant(cfg, records, evicts, env);
    }
  }

  lemma CallElsewhere(
    cfg: RefreshCall.Config, kind: RefreshCall.Kind, records: TokenRepos.Records, evicts: bool,
    env: TokenStores.CallEnv, other: string)
    requires WellKeyed(cfg.clients) && cfg.tokenID != other
    ensures Under(TokenStores.Call(cfg, kind, records, evicts, env).records, other) == Under(records, other)
  {
    RefreshElsewhere(cfg, records, evicts, env, other);
  }

  /** A login's exchange or a call of the token store that is for this ID. */
  predicate Concerns(op: TokenRepoLaws.Op, id: string) {
    match op
    case Exchanged(session, client, t, _) => FiledUnder(client.id, session.userID, t) == id
    case Called(tokenID, _, _) => tokenID == id
  }

  lemma OpElsewhere(gw: Gateway, tokens: TokenRepos.Records, op: TokenRepoLaws.Op, id: string)
    requires WellKeyed(gw.logins.clients) && !Concerns(op, id)
    ensures Under(TokenRepoLaws.After(gw.margin, gw.logins.clients, gw.evicts, tokens, op), id) == Under(tokens, id)
  {
    match op
    case Exchanged(session, client, t, up) =>
      ReceivedIsStored(Login(session, tokens), client, t, up);
      StoredElsewhere(tokens, client, FiledUnder(client.id, session.userID, t), t, up, id);
    case Called(tokenID, kind, env) =>
      CallElsewhere(RefreshCall.Config(tokenID, gw.margin, gw.logins.clients), kind, tokens, gw.evicts, env, id);
  }

  lemma {:induction false} OpsElsewhere(
    gw: Gateway, tokens: TokenRepos.Records, ops: seq<TokenRepoLaws.Op>, id: string)
    requires WellKeyed(gw.logins.clients) && forall i :: 0 <= i < |ops| ==> !Concerns(ops[i], id)
    ensures
      Under(TokenRepoLaws.AfterAll(gw.margin, gw.logins.clients, gw.evicts, tokens, ops), id) == Under(tokens, id)
    decreases |ops|
  {
    if ops != [] {
      OpElsewhere(gw, tokens, ops[0], id);
      OpsElsewhere(
        gw, TokenRepoLaws.After(gw.margin, gw.logins.clients, gw.evicts, tokens, ops[0]), ops[1..], id);
    }
  }

  /** The visit exchanges a code, or asks for a token, under this ID. */
  predicate Meddles(gw: Gateway, w: World, v: Visit, id: string) {
    match v.work
    case Other(_, ops) => exists i :: 0 <= i < |ops| && Concerns(ops[i], id)
    case CallbackTo(cb) =>
      var s := Reached(gw, w, v);
      && s.Some? && ExchangesCode(gw.logins, s.value, cb)
      && FiledUnder(s.value.loginSequence[0], s.value.userID, cb.exchange.tokens) == id
  }

  lemma VisitElsewhere(gw: Gateway, w: World, v: Visit, id: string)
    requires WellKeyed(gw.logins.clients) && !Meddles(gw, w, v, id)
    ensures Under(Visited(gw, w, v).tokens, id) == Under(w.tokens, id)
  {
    match v.work
    case Other(_, ops) => OpsElsewhere(gw, w.tokens, ops, id);
    case CallbackTo(cb) =>
      var s := Reached(gw, w, v);
      ServedTokens(gw, w, v);
      if s.Some? {
        CallbackStores(gw.logins, Login(s.value, w.tokens), cb);
        if ExchangesCode(gw.logins, s.value, cb) {
          var p, t := s.value.loginSequence[0], cb.exchange.tokens;
          StoredElsewhere(w.tokens, gw.logins.clients[p], FiledUnder(p, s.value.userID, t), t, cb.up, id);
        }
      }
  }

  // ---- What the map leads to ----------------------------------------------------------------

  /** The session's map leads from the provider to exactly the tokens of this exchange. */
  predicate LeadsTo(gw: Gateway, w: World, sid: string, provider: string, id: string, t: CodeTokens) {
    && provider in gw.logins.clients && sid in w.records
    && Find(w.records[sid].tokenIDs, provider) == Some(id)
    && Under(w.tokens, id) == Brought(gw.logins.clients[provider], id, t)
  }

  lemma AllStored(tokens: TokenRepos.Records, client: Client, id: string, t: CodeTokens, up: nat -> bool)
    requires AllUp(up)
    ensures Under(CodeStored(tokens, client, id, t, up), id) == Brought(client, id, t)
  {
    KeySpacesDisjoint(AccessType, id, RefreshType, id);
    KeySpacesDisjoint(AccessType, id, IdType, id);
    KeySpacesDisjoint(RefreshType, id, IdType, id);
  }

  lemma ExchangeLeads(gw: Gateway, w: World, v: Visit, sid: string, provider: string)
    requires sid != "" && Tame(w.records, sid) && Regular(gw, w, v, sid) && WellKeyed(gw.logins.clients)
    requires Exchanges(gw, w, v, sid, provider) && AllUp(v.work.cb.up)
    ensures
      var t := v.work.cb.exchange.tokens;
      LeadsTo(gw, Visited(gw, w, v), sid, provider, FiledUnder(provider, w.records[sid].userID, t), t)
  {
    var touched := Login(w.records[sid].Touched(v.now), w.tokens);
    var t := v.work.cb.exchange.tokens;
    LiveCallback(gw, w, v, sid);
    CallbackStores(gw.logins, touched, v.work.cb);
    AllStored(w.tokens, gw.logins.clients[provider], FiledUnder(provider, w.records[sid].userID, t), t, v.work.cb.up);
  }

  lemma VisitLeadsOn(gw: Gateway, w: World, v: Visit, sid: string, provider: string, id: string, t: CodeTokens)
    requires sid != "" && Tame(w.records, sid) && Regular(gw, w, v, sid) && WellKeyed(gw.logins.clients)
    requires LeadsTo(gw, w, sid, provider, id, t) && !Exchanges(gw, w, v, sid, provider) && !Meddles(gw, w, v, id)
    requires sid in Visited(gw, w, v).records
    ensures LeadsTo(gw, Visited(gw, w, v), sid, provider, id, t)
  {
    OneVisit(gw, w, v, sid);
    VisitMap(gw, w, v, sid, Visited(gw, w, v), provider);
    VisitElsewhere(gw, w, v, id);
  }

  /**
   * What a login leaves under a provider: once an exchange of its code has been stored whole, the session's
   * map leads to exactly the access, refresh and ID token that came, with their values and dates, for as
   * long as no other exchange or refresh is made for that provider or under that ID.
   */
  lemma {:induction false} MapLeadsToItsTokens(
    gw: Gateway, ws: seq<World>, vs: seq<Visit>, sid: string, i: nat, n: nat, provider: string)
    requires Course(gw, ws, vs, sid) && i < n <= |vs| && sid in ws[n].records && WellKeyed(gw.logins.clients)
    requires Exchanges(gw, ws[i], vs[i], sid, provider) && AllUp(vs[i].work.cb.up)
    requires
      var id := FiledUnder(provider, ws[i].records[sid].userID, vs[i].work.cb.exchange.tokens);
      forall j :: i < j < n ==> !Exchanges(gw, ws[j], vs[j], sid, provider) && !Meddles(gw, ws[j], vs[j], id)
    ensures
      var t := vs[i].work.cb.exchange.tokens;
      LeadsTo(gw, ws[n], sid, provider, FiledUnder(provider, ws[i].records[sid].userID, t), t)
    decreases n
  {
    var m, t := n - 1, vs[i].work.cb.exchange.tokens;
    CourseStep(gw, ws, vs, sid, m);
    if i == m {
      ExchangeLeads(gw, ws[m], vs[m], sid, provider);
    } else {
      MapLeadsToItsTokens(gw, ws, vs, sid, i, m, provider);
      VisitLeadsOn(gw, ws[m], vs[m], sid, provider, FiledUnder(provider, ws[i].records[sid].userID, t), t);
    }
  }
}
