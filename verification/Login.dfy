/** The login routes: start a login, take one callback per provider, finish. */
module Logins {
  import opened Prelude
  import opened Tokens
  import opened TokenRepos
  import opened Sessions

  // ---- Tokens out of a code exchange ----------------------------------------------------

  /** What the provider answers to an authorization code; `ulid` is the client's fresh token ID. */
  datatype CodeTokens = CodeTokens(
    ulid: string, access: string, accessExpiry: Time, refresh: string, refreshExpiry: Time,
    idToken: string, idExpiry: Time, subject: string)

  /** A failed exchange never reaches the token callback, and the login goes on regardless. */
  datatype Exchange = ExchangeFailed | Exchanged(tokens: CodeTokens)

  function CodeTokenSet(client: Client, t: CodeTokens): AuthTokenSet {
    AuthTokenSet(
      AuthToken(t.ulid, t.access, t.accessExpiry, t.subject, client.tokenURL, client.id, AccessType),
      AuthToken(t.ulid, t.refresh, t.refreshExpiry, t.subject, client.tokenURL, client.id, RefreshType),
      AuthToken(t.ulid, t.idToken, t.idExpiry, t.subject, "", client.id, IdType))
  }

  /** The ID tokens get in the store: named after the user where one is known, else the fresh ID. */
  function TokenID(provider: string, userID: string, ulid: string): string {
    if provider == "renku" && userID != "" then "renku:" + userID
    else if provider == "gitlab" && userID != "" then "gitlab:" + userID
    else ulid
  }

  // ---- The routes, as values ------------------------------------------------------------

  datatype LoginConfig = LoginConfig(clients: ClientStore, gitlab: bool, baseURL: string)

  /**
   * A callback request: the state it presents, how the exchange goes, which token writes succeed, and
   * the next state, if one can be drawn.
   */
  datatype Callback = Callback(state: string, exchange: Exchange, up: nat -> bool, next: Option<string>)

  datatype Login = Login(session: Record, tokens: TokenRepos.Records)

  datatype Reply = Finished(url: string) | SentTo(provider: string, state: string) | Failed

  function DefaultSequence(cfg: LoginConfig): seq<string> {
    if cfg.gitlab then ["renku", "gitlab"] else ["renku"]
  }

  /** `SaveTokens`: note the ID in the session, then write the three tokens until one write fails. */
  function TokensSaved(l: Login, s: AuthTokenSet, up: nat -> bool): Login {
    if !s.ValidTypes() then l
    else
      var session := l.session.(tokenIDs := l.session.tokenIDs[s.access.providerID := s.access.id]);
      if !up(0) then Login(session, l.tokens)
      else var t := Put(l.tokens, s.access);
        if !up(1) then Login(session, t)
        else var t' := Put(t, s.refresh);
          Login(session, if up(2) then Put(t', s.idToken) else t')
  }

  /** What the token callback does once an exchange succeeded. */
  function CodeReceived(l: Login, client: Client, provider: string, t: CodeTokens, up: nat -> bool): Login {
    var userID := if provider == "renku" then t.subject else l.session.userID;
    var session := l.session.(loginState := "", userID := userID);
    TokensSaved(Login(session, l.tokens), CodeTokenSet(client, t).WithID(TokenID(provider, userID, t.ulid)), up)
  }

  /** The session and the reply after `nextAuthStep`. */
  function NextStep(cfg: LoginConfig, r: Record, next: Option<string>): (Record, Reply) {
    if r.loginSequence == [] then
      (r.(loginRedirectURL := ""), Finished(if r.loginRedirectURL == "" then cfg.baseURL else r.loginRedirectURL))
    else if next.None? then (r, Failed)
    else
      (r.(loginState := next.value),
       if r.loginSequence[0] in cfg.clients then SentTo(r.loginSequence[0], next.value) else Failed)
  }

  /** The guards of `GetCallback`. */
  predicate Accepts(r: Record, cb: Callback) {
    cb.state != "" && cb.state == r.loginState && r.loginSequence != []
  }

  /** The session and the tokens after a callback on a live session, and the reply. */
  function CalledBack(cfg: LoginConfig, l: Login, cb: Callback): (Login, Reply) {
    if !Accepts(l.session, cb) then (l, Failed)
    else
      var provider := l.session.loginSequence[0];
      var popped := l.(session := l.session.(loginSequence := l.session.loginSequence[1..]));
      if provider !in cfg.clients then (popped, Failed)
      else
        var received :=
          if cb.exchange.Exchanged?
            then CodeReceived(popped, cfg.clients[provider], provider, cb.exchange.tokens, cb.up)
          else popped;
        var n := NextStep(cfg, received.session, cb.next);
        (received.(session := n.0), n.1)
  }

  // ---- The same through the session store -----------------------------------------------

  datatype Outcome = Outcome(state: State, tokens: TokenRepos.Records, reply: Reply)

  /** `GetCallback`: the session it changes is the one in the request context. */
  function CallbackServed(
    cfg: LoginConfig, evicts: bool, st: State, tokens: TokenRepos.Records, env: Inbound, now: Time,
      cb: Callback): Outcome
  {
    if cb.state == "" then Outcome(st, tokens, Failed)
    else
      var g := Fetched(evicts, st.records, env, st.ctx, now);
      var st' := State(st.records, g.ctx, g.attached);
      if g.result.Err? then Outcome(st', tokens, Failed)
      else
        var (l, reply) := CalledBack(cfg, Login(g.result.value, tokens), cb);
        var st'' := if g.attached then st'.(ctx := Some(l.session)) else st';
        Outcome(if reply.Failed? then st'' else Saved(evicts, st'', env, now), l.tokens, reply)
  }

  /** A session as `GetLogin` sets it up, before the first step. */
  function LoginBegun(cfg: LoginConfig, made: Record, redirect: string, providers: seq<string>): Record {
    made.(loginRedirectURL := if redirect != "" then redirect else cfg.baseURL,
          loginSequence := if providers != [] then providers else DefaultSequence(cfg))
  }

  class LoginServer {
    const cfg: LoginConfig
    const sessions: SessionStore
    const tokens: TokenRepo

    constructor (cfg: LoginConfig, sessions: SessionStore, tokens: TokenRepo)
      ensures this.cfg == cfg && this.sessions == sessions && this.tokens == tokens
    {
      this.cfg := cfg;
      this.sessions := sessions;
      this.tokens := tokens;
    }

    method SaveTokens(s: Session, issued: AuthTokenSet, up: nat -> bool) returns (ok: bool)
      requires tokens.Valid()
      modifies s`tokenIDs, tokens
      ensures tokens.Valid()
      ensures Login(s.Rec(), tokens.records) == TokensSaved(Login(old(s.Rec()), old(tokens.records)), issued, up)
    {
      if !issued.ValidTypes() {
        return false;
      }
      s.tokenIDs := s.tokenIDs[issued.access.providerID := issued.access.id];
      var r := tokens.SetToken(AccessType, issued.access, up(0));
      if r.Err? {
        return false;
      }
      r := tokens.SetToken(RefreshType, issued.refresh, up(1));
      if r.Err? {
        return false;
      }
      r := tokens.SetToken(IdType, issued.idToken, up(2));
      ok := r.Ok?;
    }

    /** The callback handed to the code exchange. */
    method TokenCallback(s: Session, provider: string, t: CodeTokens, up: nat -> bool)
      requires tokens.Valid() && provider in cfg.clients
      modifies s`loginState, s`userID, s`tokenIDs, tokens
      ensures tokens.Valid()
      ensures Login(s.Rec(), tokens.records) ==
        CodeReceived(Login(old(s.Rec()), old(tokens.records)), cfg.clients[provider], provider, t, up)
    {
      var issued := CodeTokenSet(cfg.clients[provider], t);
      s.loginState := "";
      if provider == "renku" {
        s.userID := issued.idToken.subject;
        if s.userID != "" {
          issued := issued.WithID("renku:" + s.userID);
        }
      } else if provider == "gitlab" && s.userID != "" {
        issued := issued.WithID("gitlab:" + s.userID);
      }
      var _ := SaveTokens(s, issued, up);
    }

    method NextAuthStep(c: RequestContext, s: Session, next: Option<string>, now: Time) returns (reply: Reply)
      modifies sessions, c, s
      ensures c.session == old(c.session) || fresh(c.session)
      ensures s.Rec() == NextStep(cfg, old(s.Rec()), next).0 && reply == NextStep(cfg, old(s.Rec()), next).1
      ensures
        var ctx := if s == old(c.session) then Some(s.Rec()) else old(c.Value());
        var st := State(old(sessions.records), ctx, s == old(c.session));
        var st' := if reply.Failed? then st else Saved(sessions.cfg.evicts, st, c.env, now);
        sessions.records == st'.records && c.Value() == st'.ctx
    {
      if s.loginSequence == [] {
        var url := s.loginRedirectURL;
        s.loginRedirectURL := "";
        if url == "" {
          url := cfg.baseURL;
        }
        var _ := sessions.Save(c, now);
        return Finished(url);
      }
      var provider := s.loginSequence[0];
      if next.None? {
        return Failed;
      }
      s.loginState := next.value;
      if provider !in cfg.clients {
        return Failed;
      }
      reply := SentTo(provider, s.loginState);
      var _ := sessions.Save(c, now);
    }

    /** Without a new session the login fails and nothing changes. */
    method GetLogin(
      c: RequestContext, redirect: string, providers: seq<string>, id: Option<string>, next: Option<string>, now: Time)
      returns (reply: Reply)
      modifies sessions, c
      ensures id.None? ==> reply.Failed? && sessions.records == old(sessions.records) && c.session == old(c.session)
      ensures id.Some? ==>
        var made := Made(sessions.cfg.idle, sessions.cfg.max, id.value, now);
        var n := NextStep(cfg, LoginBegun(cfg, made, redirect, providers), next);
        var st := State(old(sessions.records), Some(n.0), true);
        var st' := if n.1.Failed? then st else Saved(sessions.cfg.evicts, st, c.env, now);
        reply == n.1 && sessions.records == st'.records && c.Value() == st'.ctx
    {
      var s := sessions.Create(c, id, now);
      if s == null {
        return Failed;
      }
      s.loginRedirectURL := if redirect != "" then redirect else cfg.baseURL;
      if providers != [] {
        s.loginSequence := providers;
      } else {
        s.loginSequence := DefaultSequence(cfg);
      }
      reply := NextAuthStep(c, s, next, now);
    }

    /** The rest of `GetCallback`, from where the provider is taken off the sequence. */
    method ExchangeAndContinue(c: RequestContext, s: Session, cb: Callback, now: Time) returns (reply: Reply)
      requires tokens.Valid() && Accepts(s.Rec(), cb)
      modifies sessions, c, s, tokens
      ensures tokens.Valid()
      ensures c.session == old(c.session) || fresh(c.session)
      ensures
        var (l, answer) := CalledBack(cfg, Login(old(s.Rec()), old(tokens.records)), cb);
        var ctx := if s == old(c.session) then Some(l.session) else old(c.Value());
        var st := State(old(sessions.records), ctx, s == old(c.session));
        var st' := if answer.Failed? then st else Saved(sessions.cfg.evicts, st, c.env, now);
        && reply == answer && tokens.records == l.tokens
        && sessions.records == st'.records && c.Value() == st'.ctx
    {
      var provider := s.loginSequence[0];
      s.loginSequence := s.loginSequence[1..];
      if provider !in cfg.clients {
        return Failed;
      }
      if cb.exchange.Exchanged? {
        TokenCallback(s, provider, cb.exchange.tokens, cb.up);
      }
      reply := NextAuthStep(c, s, cb.next, now);
    }

    method GetCallback(c: RequestContext, cb: Callback, now: Time) returns (reply: Reply)
      requires tokens.Valid()
      modifies sessions, c, c.session, tokens
      ensures tokens.Valid()
      ensures c.session == old(c.session) || fresh(c.session)
      ensures
        var st := State(old(sessions.records), old(c.Value()), true);
        var o := CallbackServed(cfg, sessions.cfg.evicts, st, old(tokens.records), c.env, now, cb);
        && reply == o.reply && tokens.records == o.tokens
        && sessions.records == o.state.records && c.Value() == o.state.ctx
    {
      if cb.state == "" {
        return Failed;
      }
      var s, err := sessions.Get(c, now);
      if err.Some? || cb.state != s.loginState || s.loginSequence == [] {
        return Failed;
      }
      reply := ExchangeAndContinue(c, s, cb, now);
    }

    /** `GetLogout` as far as sessions go: look the session up, then delete it and clear the context. */
    method GetLogout(c: RequestContext, now: Time) returns (ok: bool)
      modifies sessions, c
      ensures ok <==> c.env.cookie == "" || c.env.removable
      ensures sessions.records ==
        if c.env.cookie != "" && ok then old(sessions.records) - {c.env.cookie} else old(sessions.records)
      ensures c.Value() == Some(EMPTY)
      ensures
        var start := State(old(sessions.records), old(c.Value()), false);
        var st := Handled(sessions.cfg, start, c.env, now, [DoGet, DoDelete]);
        sessions.records == st.records && c.Value() == st.ctx
    {
      ghost var st := State(sessions.records, c.Value(), false);
      ghost var st' := Acted(sessions.cfg, st, c.env, now, DoGet);
      assert [DoGet, DoDelete][1..] == [DoDelete] && [DoDelete][1..] == [];
      assert Handled(sessions.cfg, st, c.env, now, [DoGet, DoDelete]) ==
          Acted(sessions.cfg, st', c.env, now, DoDelete) by {
        assert Handled(sessions.cfg, st', c.env, now, [DoDelete]) == Acted(sessions.cfg, st', c.env, now, DoDelete);
      }
      var _, _ := sessions.Get(c, now);
      ok := sessions.Delete(c);
    }
  }
}
