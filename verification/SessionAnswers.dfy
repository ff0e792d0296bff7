/** Which session a request gets, and what becomes of it, field by field. */
module SessionAnswers {
  import opened Prelude
  import opened Sessions

  /** A session that has no end, or has not reached it. */
  predicate Live(r: Record, now: Time) {
    r.expiresAt == 0 || now <= r.expiresAt
  }

  /** A session in the request context is the one to use, as long as it is live, whatever else the request brings. */
  lemma ContextFirst(evicts: bool, records: Records, env: Inbound, ctx: Option<Record>, now: Time)
    requires ctx.Some? && Live(ctx.value, now)
    ensures Fetched(evicts, records, env, ctx, now) == Got(Ok(ctx.value), ctx, true, false)
  {
  }

  /** The session of a request that shows who its user is, but no cookie. */
  predicate StandsFor(r: Record, user: string, now: Time) {
    && r.id == "" && r.createdAt == now && r.expiresAt == 0 && r.userID == user
    && r.tokenIDs == map["renku" := "renku:" + user, "gitlab" := "gitlab:" + user]
    && r.loginSequence == [] && r.loginState == "" && r.loginRedirectURL == ""
  }

  /**
   * A request without a cookie gets the session of the user of its bearer token, else of the user of its
   * basic credentials, else none. The session joins the context, has no ID and never expires.
   */
  lemma WithoutCookie(evicts: bool, records: Records, env: Inbound, ctx: Option<Record>, now: Time)
    requires env.cookie == "" && (ctx.Some? ==> !Live(ctx.value, now))
    ensures
      var g := Fetched(evicts, records, env, ctx, now);
      if env.bearer.Some? then
        g.result.Ok? && StandsFor(g.result.value, env.bearer.value, now) && g.ctx == Some(g.result.value) && g.attached
      else if env.basic.Some? then
        g.result.Ok? && StandsFor(g.result.value, env.basic.value, now) && g.ctx == Some(g.result.value) && g.attached
      else g.result == Err(SessionNotFound) && g.ctx == ctx
  {
  }

  /** The moment a session ends after an access, by its two TTLs. */
  predicate EndsBy(r: Record, e: Time, now: Time) {
    var cap := r.createdAt + r.max * SECOND;
    if r.idle != 0 then
      && e <= now + r.idle * SECOND && (0 < r.max ==> e <= cap)
      && (e == now + r.idle * SECOND || (0 < r.max && e == cap))
    else e == if r.max == 0 then 0 else cap
  }

  /** `Touch` moves nothing but the end of the session. */
  lemma TouchMovesTheEnd(r: Record, now: Time)
    ensures EndsBy(r, r.Touched(now).expiresAt, now)
    ensures r.Touched(now).(expiresAt := r.expiresAt) == r
  {
  }

  /**
   * A request with a cookie gets the record under that ID, touched, whoever its credentials name; unless
   * the repository fails, or the record is missing, dropped by Redis, or expired, which are told apart.
   */
  lemma WithCookie(evicts: bool, records: Records, env: Inbound, ctx: Option<Record>, now: Time)
    requires env.cookie != "" && (ctx.Some? ==> !Live(ctx.value, now))
    ensures
      var g := Fetched(evicts, records, env, ctx, now);
      && g.ctx == ctx && !g.attached
      && g.result ==
           if !env.readable then Err(RepositoryFailed)
           else if env.cookie !in records then Err(SessionNotFound)
           else
             var r := records[env.cookie];
             if evicts && Deadline(r.expiresAt) < now then Err(SessionNotFound)
             else if !Live(r, now) then Err(SessionExpired)
             else Ok(r.Touched(now))
  {
  }

  /**
   * A new session carries the TTLs of the configuration, starts now, and knows no user, tokens or login. It
   * ends after the idle TTL, at once with a maximum of 0, and never without an idle TTL.
   */
  lemma NewSession(idle: int, max: int, id: string, now: Time)
    ensures
      var r := Made(idle, max, id, now);
      && r.id == id && r.createdAt == now && r.idle == idle && r.max == max
      && (idle == 0 ==> r.expiresAt == 0)
      && (idle != 0 ==> r.expiresAt == if max == 0 then now else now + idle * SECOND)
      && r.userID == "" && r.tokenIDs == map[] && r.loginSequence == [] && r.loginState == ""
      && r.loginRedirectURL == ""
  {
  }

  /** After a logout the rest of the request sees a session of nobody, that is never stored. */
  lemma AfterLogout(cfg: Config, st: State, env: Inbound, now: Time)
    ensures
      var st' := Acted(cfg, st, env, now, DoDelete);
      var g := Fetched(cfg.evicts, st'.records, env, st'.ctx, now);
      && g.result.Ok? && g.result.value.id == "" && g.result.value.userID == "" && g.result.value.tokenIDs == map[]
      && Saved(cfg.evicts, st', env, now).records == st'.records
      && (env.cookie != "" && env.removable ==> st'.records == st.records - {env.cookie})
      && (env.cookie == "" || !env.removable ==> st'.records == st.records)
  {
  }
}
