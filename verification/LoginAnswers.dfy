/**
 * What the login routes answer, note in the session and store, spelled out here once more apart from
 * the code: providers, URLs, states, token IDs, and the values and dates of the tokens.
 */
module LoginAnswers {
  import opened Prelude
  import opened Tokens
  import TokenRepos
  import opened Sessions
  import opened SessionLaws
  import opened Logins
  import opened LoginRuns
  import opened LoginLaws

  /** The callback presents the state that the session waits for, while a provider is left. */
  predicate Presents(r: Record, cb: Callback) {
    cb.state != "" && r.loginState == cb.state && |r.loginSequence| > 0
  }

  /** A callback that does not is refused, and nothing changes. */
  lemma Refuses(cfg: LoginConfig, l: Login, cb: Callback)
    requires !Presents(l.session, cb)
    ensures CalledBack(cfg, l, cb) == (l, Failed)
  {
  }

  // ---- The tokens -------------------------------------------------------------------------

  /** The ID a provider's tokens go under: after the user where one is known, else the one drawn. */
  function FiledUnder(provider: string, known: string, t: CodeTokens): string {
    if provider == "renku" then (if t.subject == "" then t.ulid else "renku:" + t.subject)
    else if provider == "gitlab" then (if known == "" then t.ulid else "gitlab:" + known)
    else t.ulid
  }

  function CodeAccess(client: Client, id: string, t: CodeTokens): AuthToken {
    AuthToken(id, t.access, t.accessExpiry, t.subject, client.tokenURL, client.id, AccessType)
  }

  function CodeRefresh(client: Client, id: string, t: CodeTokens): AuthToken {
    AuthToken(id, t.refresh, t.refreshExpiry, t.subject, client.tokenURL, client.id, RefreshType)
  }

  function CodeId(client: Client, id: string, t: CodeTokens): AuthToken {
    AuthToken(id, t.idToken, t.idExpiry, t.subject, "", client.id, IdType)
  }

  /** The tokens of a code exchange in their slots, up to the first write that is refused. */
  function CodeStored(
    tokens: TokenRepos.Records, client: Client, id: string, t: CodeTokens, up: nat -> bool): TokenRepos.Records {
    var one := tokens[TokenKey(AccessType, id) := CodeAccess(client, id, t)];
    var two := one[TokenKey(RefreshType, id) := CodeRefresh(client, id, t)];
    if !up(0) then tokens
    else if !up(1) then one
    else if !up(2) then two
    else two[TokenKey(IdType, id) := CodeId(client, id, t)]
  }

  /** An accepted callback that exchanged its code. */
  predicate ExchangesCode(cfg: LoginConfig, r: Record, cb: Callback) {
    Presents(r, cb) && r.loginSequence[0] in cfg.clients && cb.exchange.Exchanged?
  }

  lemma SetIsStored(l: Login, client: Client, id: string, t: CodeTokens, up: nat -> bool)
    ensures
      var after := TokensSaved(l, CodeTokenSet(client, t).WithID(id), up);
      && after.tokens == CodeStored(l.tokens, client, id, t, up)
      && after.session == l.session.(tokenIDs := l.session.tokenIDs[client.id := id])
  {
  }

  lemma ReceivedIsStored(l: Login, client: Client, t: CodeTokens, up: nat -> bool)
    ensures
      var after := CodeReceived(l, client, client.id, t, up);
      var id := FiledUnder(client.id, l.session.userID, t);
      && after.tokens == CodeStored(l.tokens, client, id, t, up)
      && after.session.tokenIDs == l.session.tokenIDs[client.id := id]
      && after.session.userID == (if client.id == "renku" then t.subject else l.session.userID)
  {
    var userID := if client.id == "renku" then t.subject else l.session.userID;
    var id := FiledUnder(client.id, l.session.userID, t);
    assert TokenID(client.id, userID, t.ulid) == id;
    SetIsStored(l.(session := l.session.(loginState := "", userID := userID)), client, id, t, up);
  }

  /**
   * Once its code is exchanged, a callback stores the access, the refresh and the ID token that came, with
   * their values and dates, and notes the ID in the session; otherwise it touches no token and notes none.
   */
  lemma CallbackStores(cfg: LoginConfig, l: Login, cb: Callback)
    requires WellKeyed(cfg.clients)
    ensures
      var after := CalledBack(cfg, l, cb).0;
      if ExchangesCode(cfg, l.session, cb) then
        var p, t := l.session.loginSequence[0], cb.exchange.tokens;
        var id := FiledUnder(p, l.session.userID, t);
        && after.tokens == CodeStored(l.tokens, cfg.clients[p], id, t, cb.up)
        && after.session.tokenIDs == l.session.tokenIDs[p := id]
        && after.session.userID == (if p == "renku" then t.subject else l.session.userID)
      else
        && after.tokens == l.tokens && after.session.tokenIDs == l.session.tokenIDs
        && after.session.userID == l.session.userID
  {
    if ExchangesCode(cfg, l.session, cb) {
      var popped := l.session.(loginSequence := l.session.loginSequence[1..]);
      ReceivedIsStored(Login(popped, l.tokens), cfg.clients[l.session.loginSequence[0]], cb.exchange.tokens, cb.up);
    }
  }

  // ---- The session and the reply ------------------------------------------------------------

  /** What comes after a provider: another one, the end, or a failure. `url` is where the login should end. */
  function Onward(cfg: LoginConfig, rest: seq<string>, url: string, next: Option<string>): Logins.Reply {
    if rest == [] then Finished(if url != "" then url else cfg.baseURL)
    else if next == None || rest[0] !in cfg.clients then Failed
    else SentTo(rest[0], next.value)
  }

  /**
   * An accepted callback takes its provider off the sequence and answers with the next one, or with the
   * URL the login began with; only a provider that is not configured stops it there. The state is the one
   * it drew for the next provider, or else none after an exchange, and unchanged without.
   */
  lemma CallbackMovesOn(cfg: LoginConfig, l: Login, cb: Callback)
    requires Presents(l.session, cb)
    ensures
      var (after, reply) := CalledBack(cfg, l, cb);
      var before, r, rest := l.session, after.session, l.session.loginSequence[1..];
      && r.loginSequence == rest
      && (r.id, r.createdAt, r.expiresAt, r.idle, r.max)
         == (before.id, before.createdAt, before.expiresAt, before.idle, before.max)
      && if before.loginSequence[0] !in cfg.clients then
           reply == Failed && r.loginState == before.loginState && r.loginRedirectURL == before.loginRedirectURL
         else
           && reply == Onward(cfg, rest, before.loginRedirectURL, cb.next)
           && r.loginRedirectURL == (if rest == [] then "" else before.loginRedirectURL)
           && r.loginState ==
                if rest != [] && cb.next.Some? then cb.next.value
                else if cb.exchange.Exchanged? then "" else before.loginState
  {
  }

  /** A login begins with the providers asked for, or `renku` and, where GitLab is enabled, `gitlab` after it. */
  function FirstProviders(gitlab: bool, providers: seq<string>): seq<string> {
    if providers != [] then providers else if gitlab then ["renku", "gitlab"] else ["renku"]
  }

  /**
   * A login sends its client to the first provider, with a new state, and notes where to end: at the URL
   * asked for, or the base URL.
   */
  lemma LoginSends(cfg: LoginConfig, made: Record, redirect: string, providers: seq<string>, next: Option<string>)
    ensures
      var (r, reply) := NextStep(cfg, LoginBegun(cfg, made, redirect, providers), next);
      var first := FirstProviders(cfg.gitlab, providers);
      && first != [] && reply == Onward(cfg, first, "", next)
      && r == made.(loginSequence := first, loginRedirectURL := if redirect == "" then cfg.baseURL else redirect,
                    loginState := if next.Some? then next.value else made.loginState)
  {
  }

  /** What the middleware then stores: that sequence, URL and state, no user, and no tokens. */
  lemma LoginStores(
    gw: Gateway, records: Sessions.Records, env: Inbound, now: Time,
    redirect: string, providers: seq<string>, id: string, next: Option<string>)
    requires Validated(gw.sessions) && SessionLaws.WellFiled(records) && 0 < now && id != ""
    requires env.writable && next.Some?
    ensures
      var after := LoginServed(gw, records, env, now, redirect, providers, id, next);
      && after.Keys == records.Keys + {id} && (forall k :: k in records && k != id ==> after[k] == records[k])
      && after[id].loginSequence == FirstProviders(gw.logins.gitlab, providers)
      && after[id].loginRedirectURL == (if redirect == "" then gw.logins.baseURL else redirect)
      && after[id].loginState == next.value && after[id].tokenIDs == map[] && after[id].userID == ""
      && after[id].createdAt == now
  {
    LoginIsStored(gw, records, env, now, redirect, providers, id, next);
    var made := Sessions.Made(gw.sessions.idle, gw.sessions.max, id, now);
    var n := NextStep(gw.logins, LoginBegun(gw.logins, made, redirect, providers), next);
    LoginSends(gw.logins, made, redirect, providers, next);
    var st := State(records, Some(n.0), true);
    LiveSaved(gw.sessions.evicts, st, env, now, id);
    LiveSaved(gw.sessions.evicts, st.(records := records[id := n.0]), env, now, id);
  }

  // ---- Over whole logins ----------------------------------------------------------------------

  /** The reply to an accepted callback on a stored session. */
  lemma AcceptedReply(gw: Gateway, w: World, v: Visit, sid: string)
    requires sid != "" && 0 < v.now && Tame(w.records, sid) && AcceptedBy(gw, w, v, sid)
    ensures
      var r := w.records[sid];
      var rest := r.loginSequence[1..];
      ReplyTo(gw, w, v) ==
      if TakesConfigured(gw, w, sid) then Onward(gw.logins, rest, r.loginRedirectURL, v.work.cb.next) else Failed
  {
    var touched := Login(w.records[sid].Touched(v.now), w.tokens);
    assert Arrived(gw, w, v) == State(w.records, Some(touched.session), false);
    assert !touched.session.Expired(v.now);
    CallbackMovesOn(gw.logins, touched, v.work.cb);
  }

  /** A client is only ever sent to the provider at the head of the stored sequence, with the stored state. */
  lemma SentToTheNext(gw: Gateway, w: World, v: Visit, sid: string)
    requires sid != "" && 0 < v.now && Tame(w.records, sid) && AcceptedBy(gw, w, v, sid) && v.env.writable
    requires ReplyTo(gw, w, v).SentTo?
    ensures
      var after := Visited(gw, w, v).records;
      && sid in after && after[sid].loginSequence != []
      && ReplyTo(gw, w, v) == SentTo(after[sid].loginSequence[0], after[sid].loginState)
  {
    AcceptedReply(gw, w, v, sid);
    CallbackMovesOn(gw.logins, Login(w.records[sid].Touched(v.now), w.tokens), v.work.cb);
    LiveCallback(gw, w, v, sid);
  }

  lemma VisitKeepsUrl(gw: Gateway, w: World, v: Visit, sid: string, after: World)
    requires Follows(gw, w, v, sid, after.records) && sid in after.records && Sequence(after, sid) != []
    ensures after.records[sid].loginRedirectURL == w.records[sid].loginRedirectURL
  {
    if AcceptedBy(gw, w, v, sid) {
      CallbackMovesOn(gw.logins, Login(w.records[sid], w.tokens), v.work.cb);
    }
  }

  lemma {:induction false} UrlAlongCourse(gw: Gateway, ws: seq<World>, vs: seq<Visit>, sid: string, n: nat)
    requires Course(gw, ws, vs, sid) && n <= |vs| && sid in ws[n].records && Sequence(ws[n], sid) != []
    ensures sid in ws[0].records && ws[n].records[sid].loginRedirectURL == ws[0].records[sid].loginRedirectURL
  {
    if n > 0 {
      CourseStep(gw, ws, vs, sid, n - 1);
      OneVisitSequence(gw, ws[n - 1], vs[n - 1], sid, ws[n]);
      UrlAlongCourse(gw, ws, vs, sid, n - 1);
      VisitKeepsUrl(gw, ws[n - 1], vs[n - 1], sid, ws[n]);
    }
  }

  /**
   * A login ends where it said it would: the accepted callback of the last provider answers with the URL
   * stored when the login began, whatever was served in between, and no other callback ends it.
   */
  lemma EndsWhereItShould(gw: Gateway, ws: seq<World>, vs: seq<Visit>, sid: string, n: nat)
    requires Course(gw, ws, vs, sid) && n < |vs| && AcceptedBy(gw, ws[n], vs[n], sid)
    ensures sid in ws[0].records
    ensures
      var url, reply := ws[0].records[sid].loginRedirectURL, ReplyTo(gw, ws[n], vs[n]);
      && (reply.Finished? <==> |Sequence(ws[n], sid)| == 1 && TakesConfigured(gw, ws[n], sid))
      && (reply.Finished? ==> reply.url == if url == "" then gw.logins.baseURL else url)
  {
    CourseStep(gw, ws, vs, sid, n);
    AcceptedReply(gw, ws[n], vs[n], sid);
    UrlAlongCourse(gw, ws, vs, sid, n);
  }
}
