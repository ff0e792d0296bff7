/**
 * What a login leaves behind, over any run of requests on the stored sessions: the providers its token
 * map names, and the tokens behind those names.
 */
module LoginTokens {
  import opened Prelude
  import opened Tokens
  import opened TokenRepos
  import opened Sessions
  import opened SessionLaws
  import opened Logins
  import opened LoginRuns
  import opened LoginLaws
  import opened TokenRepoLaws

  // ---- The token map --------------------------------------------------------------------

  /** The session accepts the visit as a callback, for a configured provider, and its code exchange succeeds. */
  predicate Exchanging(gw: Gateway, w: World, v: Visit, sid: string) {
    AcceptedBy(gw, w, v, sid) && v.work.cb.exchange.Exchanged? && TakesConfigured(gw, w, sid)
  }

  predicate Exchanges(gw: Gateway, w: World, v: Visit, sid: string, provider: string) {
    Exchanging(gw, w, v, sid) && Sequence(w, sid)[0] == provider
  }

  /** One of the first `n` visits is an accepted callback of this provider whose exchange succeeds. */
  ghost predicate HadExchange(gw: Gateway, ws: seq<World>, vs: seq<Visit>, sid: string, n: nat, provider: string)
    requires n <= |vs| <= |ws|
  {
    exists i :: 0 <= i < n && Exchanges(gw, ws[i], vs[i], sid, provider)
  }

  /** What the session's map has for the provider after the visit. */
  function IDAfter(gw: Gateway, w: World, v: Visit, sid: string, provider: string): Option<string>
    requires sid in w.records
  {
    var r := w.records[sid];
    if !Exchanges(gw, w, v, sid, provider) then Find(r.tokenIDs, provider)
    else
      var t := v.work.cb.exchange.tokens;
      Some(TokenID(provider, if provider == "renku" then t.subject else r.userID, t.ulid))
  }

  lemma CalledBackMap(cfg: LoginConfig, l: Login, cb: Callback)
    requires WellKeyed(cfg.clients)
    ensures
      var before, after := l.session, CalledBack(cfg, l, cb).0.session;
      after.tokenIDs ==
      if Accepts(before, cb) && before.loginSequence[0] in cfg.clients && cb.exchange.Exchanged? then
        var p, t := before.loginSequence[0], cb.exchange.tokens;
        before.tokenIDs[p := TokenID(p, if p == "renku" then t.subject else before.userID, t.ulid)]
      else before.tokenIDs
  {
  }

  lemma VisitMap(gw: Gateway, w: World, v: Visit, sid: string, after: World, provider: string)
    requires WellKeyed(gw.logins.clients) && Follows(gw, w, v, sid, after.records) && sid in after.records
    ensures Find(after.records[sid].tokenIDs, provider) == IDAfter(gw, w, v, sid, provider)
  {
    if AcceptedBy(gw, w, v, sid) {
      CalledBackMap(gw.logins, Login(w.records[sid], w.tokens), v.work.cb);
    }
  }

  /**
   * The token map names a provider exactly when it did at first or an accepted callback of that provider
   * had its exchange succeed, whatever becomes of the other exchanges and of all token writes.
   */
  lemma {:induction false} MapHoldsExchanged(
    gw: Gateway, ws: seq<World>, vs: seq<Visit>, sid: string, n: nat, provider: string)
    requires Course(gw, ws, vs, sid) && n <= |vs| && WellKeyed(gw.logins.clients) && sid in ws[n].records
    ensures sid in ws[0].records
    ensures provider in ws[n].records[sid].tokenIDs <==>
      provider in ws[0].records[sid].tokenIDs || HadExchange(gw, ws, vs, sid, n, provider)
  {
    if n > 0 {
      CourseStep(gw, ws, vs, sid, n - 1);
      MapHoldsExchanged(gw, ws, vs, sid, n - 1, provider);
      VisitMap(gw, ws[n - 1], vs[n - 1], sid, ws[n], provider);
    }
  }

  lemma {:induction false} CountGrows(gw: Gateway, ws: seq<World>, vs: seq<Visit>, sid: string, i: nat, n: nat)
    requires i <= n <= |vs| <= |ws|
    ensures AcceptedCount(gw, ws, vs, sid, i) <= AcceptedCount(gw, ws, vs, sid, n)
  {
    if i < n {
      CountGrows(gw, ws, vs, sid, i, n - 1);
    }
  }

  /** The provider an accepted callback takes is among those the login has behind it. */
  lemma AcceptedIsTaken(gw: Gateway, ws: seq<World>, vs: seq<Visit>, sid: string, i: nat, n: nat)
    requires Course(gw, ws, vs, sid) && i < n <= |vs| && AcceptedBy(gw, ws[i], vs[i], sid)
    ensures AcceptedCount(gw, ws, vs, sid, n) <= |Sequence(ws[0], sid)|
    ensures Sequence(ws[i], sid)[0] in Sequence(ws[0], sid)[..AcceptedCount(gw, ws, vs, sid, n)]
  {
    var first, at := Sequence(ws[0], sid), AcceptedCount(gw, ws, vs, sid, i);
    CallbacksConsumeProviders(gw, ws, vs, sid, i);
    CallbacksConsumeProviders(gw, ws, vs, sid, n);
    CountGrows(gw, ws, vs, sid, i + 1, n);
    assert first[at..][0] == first[..AcceptedCount(gw, ws, vs, sid, n)][at];
  }

  /**
   * A login that began without tokens has tokens noted for all providers it has behind it exactly when
   * each of those had a successful exchange, in spite of failing exchanges advancing it as well.
   */
  lemma MapIsComplete(gw: Gateway, ws: seq<World>, vs: seq<Visit>, sid: string, n: nat)
    requires Course(gw, ws, vs, sid) && n <= |vs| && WellKeyed(gw.logins.clients) && sid in ws[n].records
    requires sid in ws[0].records ==> ws[0].records[sid].tokenIDs == map[]
    ensures
      var k := AcceptedCount(gw, ws, vs, sid, n);
      && k <= |Sequence(ws[0], sid)|
      && var behind := Sequence(ws[0], sid)[..k];
      && (forall p :: p in ws[n].records[sid].tokenIDs ==> p in behind)
      && (ws[n].records[sid].tokenIDs.Keys == (set p | p in behind) <==>
            forall p :: p in behind ==> HadExchange(gw, ws, vs, sid, n, p))
  {
    CallbacksConsumeProviders(gw, ws, vs, sid, n);
    var behind := Sequence(ws[0], sid)[..AcceptedCount(gw, ws, vs, sid, n)];
    forall p
      ensures p in ws[n].records[sid].tokenIDs <==> HadExchange(gw, ws, vs, sid, n, p)
      ensures HadExchange(gw, ws, vs, sid, n, p) ==> p in behind
    {
      MapHoldsExchanged(gw, ws, vs, sid, n, p);
      if HadExchange(gw, ws, vs, sid, n, p) {
        var i :| 0 <= i < n && Exchanges(gw, ws[i], vs[i], sid, p);
        AcceptedIsTaken(gw, ws, vs, sid, i, n);
      }
    }
  }

  /** A login of one provider whose only exchange fails: it finishes, and the session stored has no tokens. */
  lemma LoginWithoutTokens(
    gw: Gateway, env: Inbound, now: Time, id: string, state: string, provider: string, up: nat -> bool)
    returns (w: World, v: Visit)
    requires Validated(gw.sessions) && provider in gw.logins.clients && 0 < now && id != "" && state != ""
    requires env.readable && env.writable && env.cookie == id
    ensures w == LoggingIn(gw, env, now, id, state, provider)
    ensures Course(gw, [w, Visited(gw, w, v)], [v], id) && AcceptedBy(gw, w, v, id) && ReplyTo(gw, w, v).Finished?
    ensures
      var after := Visited(gw, w, v).records;
      id in after && after[id].loginSequence == [] && after[id].tokenIDs == map[]
  {
    var cb := Callback(state, ExchangeFailed, up, None);
    w, v := LoggingIn(gw, env, now, id, state, provider), Visit(env, now, CallbackTo(cb));
    LoggingInAccepts(gw, env, env, now, id, provider, cb);
    LastProviderFinishes(gw, w, v, id);
    LiveCallback(gw, w, v, id);
  }

  // ---- The tokens behind the map --------------------------------------------------------

  /** The ID names an access, a refresh and an ID token of the provider. */
  predicate Backed(tokens: TokenRepos.Records, provider: string, id: string) {
    forall typ :: typ in {AccessType, RefreshType, IdType} ==>
      var key := TokenKey(typ, id);
      key in tokens && tokens[key].typ == typ && tokens[key].id == id && tokens[key].providerID == provider
  }

  lemma PrefixedNotPlain(p: string, u: string)
    ensures ':' in p + ":" + u
  {
    assert (p + ":" + u)[|p|] == ':';
  }

  /** Under a prefixed ID only the provider of that prefix ever stores tokens. */
  lemma PrefixOwner(provider: string, userID: string, ulid: string, u: string)
    requires ':' !in ulid
    ensures TokenID(provider, userID, ulid) == "renku:" + u ==> provider == "renku"
    ensures TokenID(provider, userID, ulid) == "gitlab:" + u ==> provider == "gitlab"
  {
    PrefixedNotPlain("renku", u);
    PrefixedNotPlain("gitlab", u);
    assert "renku" + ":" + u == "renku:" + u && "gitlab" + ":" + u == "gitlab:" + u;
    assert ("renku:" + u)[0] == 'r' == ("renku:" + userID)[0];
    assert ("gitlab:" + u)[0] == 'g' == ("gitlab:" + userID)[0];
  }

  predicate AllUp(up: nat -> bool) {
    up(0) && up(1) && up(2)
  }

  /** The exchange succeeds and every token write is taken. */
  predicate Succeeds(cb: Callback) {
    cb.exchange.Exchanged? && AllUp(cb.up)
  }

  /** All three tokens are there. */
  predicate Present(tokens: TokenRepos.Records, id: string) {
    TokenKey(AccessType, id) in tokens && TokenKey(RefreshType, id) in tokens && TokenKey(IdType, id) in tokens
  }

  lemma PresentIsBacked(owner: string -> string, tokens: TokenRepos.Records, id: string)
    requires Owned(owner, tokens) && Present(tokens, id)
    ensures Backed(tokens, owner(id), id)
  {
    OwnedSlot(owner, tokens, AccessType, id);
    OwnedSlot(owner, tokens, RefreshType, id);
    OwnedSlot(owner, tokens, IdType, id);
  }

  /** The session a callback works on, if it gets one. */
  function Reached(gw: Gateway, w: World, v: Visit): Option<Record> {
    var st := Arrived(gw, w, v);
    var g := Fetched(gw.sessions.evicts, st.records, v.env, st.ctx, v.now);
    if g.result.Ok? then Some(g.result.value) else None
  }

  /** Whatever IDs a visit draws are drawn for the provider that gets them. */
  predicate ForItsProvider(gw: Gateway, owner: string -> string, w: World, v: Visit) {
    match v.work
    case Other(_, ops) => forall i :: 0 <= i < |ops| ==> DrawnFor(owner, ops[i])
    case CallbackTo(cb) =>
      var s := Reached(gw, w, v);
      s.Some? && Accepts(s.value, cb) && cb.exchange.Exchanged? ==>
        owner(cb.exchange.tokens.ulid) == s.value.loginSequence[0]
  }

  lemma CalledBackTokens(gw: Gateway, owner: string -> string, l: Login, cb: Callback)
    requires WellKeyed(gw.logins.clients) && Proper(owner) && Owned(owner, l.tokens)
    requires Accepts(l.session, cb) && cb.exchange.Exchanged? ==>
        owner(cb.exchange.tokens.ulid) == l.session.loginSequence[0]
    ensures var after := CalledBack(gw.logins, l, cb).0.tokens; Owned(owner, after) && l.tokens.Keys <= after.Keys
  {
    if Accepts(l.session, cb) && l.session.loginSequence[0] in gw.logins.clients && cb.exchange.Exchanged? {
      var client := gw.logins.clients[l.session.loginSequence[0]];
      var popped := l.session.(loginSequence := l.session.loginSequence[1..]);
      ExchangeStaysOwned(owner, popped, l.tokens, client, cb.exchange.tokens, cb.up);
      KeysGrow(gw.margin, gw.logins.clients, gw.evicts, l.tokens,
        Op.Exchanged(popped, client, cb.exchange.tokens, cb.up));
    }
  }

  lemma ServedTokens(gw: Gateway, w: World, v: Visit)
    requires v.work.CallbackTo?
    ensures
      var s := Reached(gw, w, v);
      Visited(gw, w, v).tokens == w.tokens
      || (s.Some? && Visited(gw, w, v).tokens == CalledBack(gw.logins, Login(s.value, w.tokens), v.work.cb).0.tokens)
  {
  }

  /** Every visit keeps tokens with their owners and removes none. */
  lemma VisitTokens(gw: Gateway, owner: string -> string, w: World, v: Visit)
    requires WellKeyed(gw.logins.clients) && Proper(owner) && Owned(owner, w.tokens) && ForItsProvider(gw, owner, w, v)
    ensures var after := Visited(gw, w, v).tokens; Owned(owner, after) && w.tokens.Keys <= after.Keys
  {
    match v.work {
      case Other(_, ops) =>
        RepositoryStaysOwned(owner, gw.margin, gw.logins.clients, gw.evicts, w.tokens, ops);
        KeysGrowAll(gw.margin, gw.logins.clients, gw.evicts, w.tokens, ops);
      case CallbackTo(cb) =>
        var s := Reached(gw, w, v);
        ServedTokens(gw, w, v);
        if s.Some? {
          CalledBackTokens(gw, owner, Login(s.value, w.tokens), cb);
        }
    }
  }

  lemma SavedTokens(l: Login, s: AuthTokenSet, up: nat -> bool)
    requires s.ValidTypes() && AllUp(up)
    ensures Present(TokensSaved(l, s, up).tokens, s.access.id)
  {
  }

  lemma ReceivedTokens(l: Login, client: Client, t: CodeTokens, up: nat -> bool)
    requires AllUp(up)
    ensures
      var after := CodeReceived(l, client, client.id, t, up);
      client.id in after.session.tokenIDs && Present(after.tokens, after.session.tokenIDs[client.id])
  {
    var userID := if client.id == "renku" then t.subject else l.session.userID;
    SavedTokens(l.(session := l.session.(loginState := "", userID := userID)),
      CodeTokenSet(client, t).WithID(TokenID(client.id, userID, t.ulid)), up);
  }

  /** The session's map names stored tokens for the provider, under an ID that only it ever uses. */
  predicate Named(owner: string -> string, w: World, sid: string, provider: string) {
    && sid in w.records && provider in w.records[sid].tokenIDs
    && var id := w.records[sid].tokenIDs[provider];
    owner(id) == provider && Present(w.tokens, id)
  }

  lemma TokenIDOwner(owner: string -> string, provider: string, u: string, ulid: string)
    requires Proper(owner) && owner(ulid) == provider
    ensures owner(TokenID(provider, u, ulid)) == provider
  {
  }

  lemma ExchangeNames(gw: Gateway, owner: string -> string, w: World, v: Visit, sid: string, provider: string)
    requires sid != "" && Tame(w.records, sid) && Regular(gw, w, v, sid)
    requires WellKeyed(gw.logins.clients) && Proper(owner) && ForItsProvider(gw, owner, w, v)
    requires Exchanges(gw, w, v, sid, provider) && AllUp(v.work.cb.up)
    ensures Named(owner, Visited(gw, w, v), sid, provider)
  {
    var cb, client := v.work.cb, gw.logins.clients[provider];
    var r := w.records[sid].Touched(v.now);
    LiveCallback(gw, w, v, sid);
    assert Reached(gw, w, v) == Some(r);
    var popped := Login(r.(loginSequence := r.loginSequence[1..]), w.tokens);
    ReceivedTokens(popped, client, cb.exchange.tokens, cb.up);
    TokenIDOwner(owner, provider, if provider == "renku" then cb.exchange.tokens.subject else r.userID,
      cb.exchange.tokens.ulid);
  }

  lemma VisitKeepsNamed(gw: Gateway, owner: string -> string, w: World, v: Visit, sid: string, provider: string)
    requires sid != "" && Tame(w.records, sid) && Regular(gw, w, v, sid)
    requires WellKeyed(gw.logins.clients) && Proper(owner) && Owned(owner, w.tokens) && ForItsProvider(gw, owner, w, v)
    requires Named(owner, w, sid, provider) && !Exchanges(gw, w, v, sid, provider)
    requires sid in Visited(gw, w, v).records
    ensures Named(owner, Visited(gw, w, v), sid, provider)
  {
    OneVisit(gw, w, v, sid);
    VisitTokens(gw, owner, w, v);
    VisitMap(gw, w, v, sid, Visited(gw, w, v), provider);
  }

  /** All IDs are drawn for the providers that get them. */
  ghost predicate Drawn(gw: Gateway, owner: string -> string, ws: seq<World>, vs: seq<Visit>)
    requires |vs| <= |ws|
  {
    forall i :: 0 <= i < |vs| ==> ForItsProvider(gw, owner, ws[i], vs[i])
  }

  lemma {:induction false} TokensAlongCourse(
    gw: Gateway, owner: string -> string, ws: seq<World>, vs: seq<Visit>, sid: string, n: nat)
    requires Course(gw, ws, vs, sid) && n <= |vs| && WellKeyed(gw.logins.clients) && Proper(owner)
    requires Drawn(gw, owner, ws, vs) && Owned(owner, ws[0].tokens)
    ensures Owned(owner, ws[n].tokens)
  {
    if n > 0 {
      TokensAlongCourse(gw, owner, ws, vs, sid, n - 1);
      VisitTokens(gw, owner, ws[n - 1], vs[n - 1]);
    }
  }

  /** The provider had a successful exchange, and the token writes of the last one were taken. */
  predicate LastSaved(gw: Gateway, ws: seq<World>, vs: seq<Visit>, sid: string, n: nat, provider: string)
    requires n <= |vs| <= |ws|
  {
    n > 0 &&
    if Exchanges(gw, ws[n - 1], vs[n - 1], sid, provider) then AllUp(vs[n - 1].work.cb.up)
    else LastSaved(gw, ws, vs, sid, n - 1, provider)
  }

  lemma NamedStep(
    gw: Gateway, owner: string -> string, ws: seq<World>, vs: seq<Visit>, sid: string, m: nat, provider: string)
    requires Course(gw, ws, vs, sid) && m < |vs| && sid in ws[m + 1].records
    requires WellKeyed(gw.logins.clients) && Proper(owner) && Drawn(gw, owner, ws, vs) && Owned(owner, ws[0].tokens)
    requires
      if Exchanges(gw, ws[m], vs[m], sid, provider) then AllUp(vs[m].work.cb.up) else Named(owner, ws[m], sid, provider)
    ensures Named(owner, ws[m + 1], sid, provider)
  {
    CourseStep(gw, ws, vs, sid, m);
    TokensAlongCourse(gw, owner, ws, vs, sid, m);
    if Exchanges(gw, ws[m], vs[m], sid, provider) {
      ExchangeNames(gw, owner, ws[m], vs[m], sid, provider);
    } else {
      VisitKeepsNamed(gw, owner, ws[m], vs[m], sid, provider);
    }
  }

  lemma StoredBefore(gw: Gateway, ws: seq<World>, vs: seq<Visit>, sid: string, m: nat)
    requires Course(gw, ws, vs, sid) && m < |vs| && sid in ws[m + 1].records
    ensures sid in ws[m].records
  {
    CourseStep(gw, ws, vs, sid, m);
  }

  lemma {:induction false} NamedAlongCourse(
    gw: Gateway, owner: string -> string, ws: seq<World>, vs: seq<Visit>, sid: string, n: nat, provider: string)
    requires Course(gw, ws, vs, sid) && n <= |vs| && sid in ws[n].records
    requires WellKeyed(gw.logins.clients) && Proper(owner) && Drawn(gw, owner, ws, vs) && Owned(owner, ws[0].tokens)
    requires LastSaved(gw, ws, vs, sid, n, provider)
    ensures Named(owner, ws[n], sid, provider)
  {
    if !Exchanges(gw, ws[n - 1], vs[n - 1], sid, provider) {
      StoredBefore(gw, ws, vs, sid, n - 1);
      NamedAlongCourse(gw, owner, ws, vs, sid, n - 1, provider);
    }
    NamedStep(gw, owner, ws, vs, sid, n - 1, provider);
  }

  /**
   * A name in the map is good as soon as the writes of its last exchange were taken: from then on it names
   * a stored access, refresh and ID token of that provider, whatever fails elsewhere.
   */
  lemma MapIsBacked(
    gw: Gateway, owner: string -> string, ws: seq<World>, vs: seq<Visit>, sid: string, n: nat, provider: string)
    requires Course(gw, ws, vs, sid) && n <= |vs| && sid in ws[n].records
    requires WellKeyed(gw.logins.clients) && Proper(owner) && Drawn(gw, owner, ws, vs) && Owned(owner, ws[0].tokens)
    requires LastSaved(gw, ws, vs, sid, n, provider)
    ensures
      var tokenIDs := ws[n].records[sid].tokenIDs;
      provider in tokenIDs && Backed(ws[n].tokens, provider, tokenIDs[provider])
  {
    NamedAlongCourse(gw, owner, ws, vs, sid, n, provider);
    TokensAlongCourse(gw, owner, ws, vs, sid, n);
    PresentIsBacked(owner, ws[n].tokens, ws[n].records[sid].tokenIDs[provider]);
  }

  // ---- Logins that succeed --------------------------------------------------------------

  /** The exchanges of the accepted callbacks succeed, and so do all token writes of theirs. */
  ghost predicate Successful(gw: Gateway, ws: seq<World>, vs: seq<Visit>, sid: string)
    requires |vs| <= |ws|
  {
    forall i :: 0 <= i < |vs| && AcceptedBy(gw, ws[i], vs[i], sid) ==> Succeeds(vs[i].work.cb)
  }

  /** Every provider the login has behind it had its exchange, and has its tokens. */
  lemma {:induction false} TakenIsExchanged(
    gw: Gateway, ws: seq<World>, vs: seq<Visit>, sid: string, n: nat, provider: string)
    requires Course(gw, ws, vs, sid) && n <= |vs| && Successful(gw, ws, vs, sid)
    requires Configured(gw.logins, Sequence(ws[0], sid))
    requires AcceptedCount(gw, ws, vs, sid, n) <= |Sequence(ws[0], sid)|
    requires provider in Sequence(ws[0], sid)[..AcceptedCount(gw, ws, vs, sid, n)]
    ensures HadExchange(gw, ws, vs, sid, n, provider) && LastSaved(gw, ws, vs, sid, n, provider)
  {
    var m, first := n - 1, Sequence(ws[0], sid);
    if !Exchanges(gw, ws[m], vs[m], sid, provider) {
      var k := AcceptedCount(gw, ws, vs, sid, m);
      CallbacksConsumeProviders(gw, ws, vs, sid, m);
      if AcceptedBy(gw, ws[m], vs[m], sid) {
        assert first[k..][0] == first[k] && first[k] in first;
        assert first[..k + 1] == first[..k] + [first[k]];
      }
      TakenIsExchanged(gw, ws, vs, sid, m, provider);
    }
  }

  /**
   * Login progress: after k accepted callbacks on a sequence of providers, all their exchanges
   * succeeding, and whatever else was served, the stored session waits for providers[k..], and its token
   * map has exactly providers[..k], each naming a stored access, refresh and ID token of that provider.
   */
  lemma LoginProgress(gw: Gateway, owner: string -> string, ws: seq<World>, vs: seq<Visit>, sid: string, n: nat)
    requires Course(gw, ws, vs, sid) && n <= |vs| && sid in ws[n].records
    requires WellKeyed(gw.logins.clients) && Proper(owner) && Drawn(gw, owner, ws, vs) && Owned(owner, ws[0].tokens)
    requires Configured(gw.logins, Sequence(ws[0], sid)) && Successful(gw, ws, vs, sid)
    requires sid in ws[0].records ==> ws[0].records[sid].tokenIDs == map[]
    ensures
      var providers, k, s := Sequence(ws[0], sid), AcceptedCount(gw, ws, vs, sid, n), ws[n].records[sid];
      && k <= |providers| && s.loginSequence == providers[k..] && s.tokenIDs.Keys == (set p | p in providers[..k])
      && forall p :: p in providers[..k] ==> Backed(ws[n].tokens, p, s.tokenIDs[p])
  {
    CallbacksConsumeProviders(gw, ws, vs, sid, n);
    MapIsComplete(gw, ws, vs, sid, n);
    var behind := Sequence(ws[0], sid)[..AcceptedCount(gw, ws, vs, sid, n)];
    var tokenIDs := ws[n].records[sid].tokenIDs;
    forall p | p in behind
      ensures HadExchange(gw, ws, vs, sid, n, p) && p in tokenIDs && Backed(ws[n].tokens, p, tokenIDs[p])
    {
      TakenIsExchanged(gw, ws, vs, sid, n, p);
      MapIsBacked(gw, owner, ws, vs, sid, n, p);
    }
  }

  // ---- The default login ----------------------------------------------------------------

  /** The user of a callback of provider `renku`, and of none other. */
  predicate OfUser(w: World, v: Visit, sid: string, user: string)
    requires v.work.CallbackTo?
  {
    && v.work.cb.exchange.Exchanged?
    && (Sequence(w, sid) != [] && Sequence(w, sid)[0] == "renku" ==> v.work.cb.exchange.tokens.subject == user)
  }

  /** The session after so many callbacks of the default login. */
  predicate Stage(r: Record, user: string, k: nat) {
    && (k == 0 ==> r.loginSequence == ["renku", "gitlab"] && r.tokenIDs == map[])
    && (k == 1 ==> r.loginSequence == ["gitlab"] && r.userID == user && r.tokenIDs == map["renku" := "renku:" + user])
    && (k >= 2 ==>
          && r.loginSequence == [] && r.userID == user
          && r.tokenIDs == map["renku" := "renku:" + user, "gitlab" := "gitlab:" + user])
  }

  lemma StageStep(gw: Gateway, w: World, v: Visit, sid: string, after: World, user: string, k: nat)
    requires WellKeyed(gw.logins.clients) && "renku" in gw.logins.clients && "gitlab" in gw.logins.clients
    requires Follows(gw, w, v, sid, after.records) && sid in after.records && user != ""
    requires Stage(w.records[sid], user, k) && AcceptedBy(gw, w, v, sid) && OfUser(w, v, sid, user)
    ensures Stage(after.records[sid], user, k + 1)
  {
    CalledBackMap(gw.logins, Login(w.records[sid], w.tokens), v.work.cb);
  }

  lemma {:induction false} StageAlongCourse(
    gw: Gateway, ws: seq<World>, vs: seq<Visit>, sid: string, user: string, n: nat)
    requires Course(gw, ws, vs, sid) && n <= |vs| && sid in ws[n].records && user != ""
    requires WellKeyed(gw.logins.clients) && "renku" in gw.logins.clients && "gitlab" in gw.logins.clients
    requires sid in ws[0].records ==> Stage(ws[0].records[sid], user, 0)
    requires forall i :: 0 <= i < |vs| && AcceptedBy(gw, ws[i], vs[i], sid) ==> OfUser(ws[i], vs[i], sid, user)
    ensures Stage(ws[n].records[sid], user, AcceptedCount(gw, ws, vs, sid, n))
  {
    if n > 0 {
      var m := n - 1;
      CourseStep(gw, ws, vs, sid, m);
      StageAlongCourse(gw, ws, vs, sid, user, m);
      if AcceptedBy(gw, ws[m], vs[m], sid) {
        StageStep(gw, ws[m], vs[m], sid, ws[n], user, AcceptedCount(gw, ws, vs, sid, m));
      }
    }
  }

  /**
   * The default login, over any run: once both callbacks of `renku, gitlab` are accepted, for a user U,
   * the stored session has the same user and token map as a request gets that comes without a cookie and
   * with U's bearer token.
   */
  lemma DefaultLoginMatchesBearer(
    gw: Gateway, ws: seq<World>, vs: seq<Visit>, sid: string, user: string, n: nat, env: Inbound, now: Time)
    requires Course(gw, ws, vs, sid) && n <= |vs| && sid in ws[n].records && user != ""
    requires WellKeyed(gw.logins.clients) && Configured(gw.logins, ["renku", "gitlab"])
    requires sid in ws[0].records ==>
      ws[0].records[sid].loginSequence == ["renku", "gitlab"] && ws[0].records[sid].tokenIDs == map[]
    requires forall i :: 0 <= i < |vs| && AcceptedBy(gw, ws[i], vs[i], sid) ==> OfUser(ws[i], vs[i], sid, user)
    requires AcceptedCount(gw, ws, vs, sid, n) == 2
    requires env.cookie == "" && env.bearer == Some(user)
    ensures
      var s, got := ws[n].records[sid], Fetched(gw.sessions.evicts, ws[n].records, env, None, now).result;
      && got.Ok? && s.userID == user == got.value.userID && s.loginSequence == []
      && s.tokenIDs == got.value.tokenIDs == map["renku" := "renku:" + user, "gitlab" := "gitlab:" + user]
  {
    assert "renku" in ["renku", "gitlab"] && "gitlab" in ["renku", "gitlab"];
    StageAlongCourse(gw, ws, vs, sid, user, n);
  }
}
