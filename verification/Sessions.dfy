/** Sessions, the session store, and the middleware that wraps every request. */
module Sessions {
  import opened Prelude

  /** A session as it is stored. */
  datatype Record = Record(
    id: string, createdAt: Time, expiresAt: Time, idle: int, max: int,
    userID: string, tokenIDs: map<string, string>,
    loginRedirectURL: string, loginSequence: seq<string>, loginState: string)
  {
    predicate Expired(now: Time) {
      PastExpiry(expiresAt, now)
    }

    /** The effect of `Session.Touch`. */
    function Touched(now: Time): Record {
      if idle == 0 && max == 0 then this.(expiresAt := 0)
      else if idle == 0 then this.(expiresAt := createdAt + max * SECOND)
      else
        var cap := createdAt + max * SECOND;
        var next := now + idle * SECOND;
        this.(expiresAt := if max > 0 && cap < next then cap else next)
    }
  }

  const EMPTY: Record := Record("", 0, 0, 0, 0, "", map[], "", [], "")

  /** `NewSession`: what the session maker makes out of its two TTLs. */
  function Made(idle: int, max: int, id: string, now: Time): Record {
    var expiresAt :=
      if idle == 0 then 0
      else if max == 0 then now + max * SECOND
      else now + idle * SECOND;
    Record(id, now, expiresAt, idle, max, "", map[], "", [], "")
  }

  /** A session without ID, built from verified credentials. */
  function Ephemeral(userID: string, now: Time): Record {
    EMPTY.(createdAt := now, userID := userID,
      tokenIDs := map["renku" := "renku:" + userID, "gitlab" := "gitlab:" + userID])
  }

  /** What a handler may overwrite in the session it was given. */
  datatype Edit = Edit(
    userID: string, tokenIDs: map<string, string>,
    loginRedirectURL: string, loginSequence: seq<string>, loginState: string)

  function Edited(r: Record, e: Edit): Record {
    r.(userID := e.userID, tokenIDs := e.tokenIDs, loginRedirectURL := e.loginRedirectURL,
       loginSequence := e.loginSequence, loginState := e.loginState)
  }

  // ---- The store, as a value ------------------------------------------------------------

  type Records = map<string, Record>

  /** The configured TTLs, and whether the store evicts records past their deadline. */
  datatype Config = Config(idle: int, max: int, evicts: bool)

  /**
   * What a request brings and meets: the session ID its cookie decodes to (empty when there is none),
   * the subjects of credentials that verify, and whether the repository answers its reads, takes its
   * writes and takes its removals.
   */
  datatype Inbound = Inbound(
    cookie: string, bearer: Option<string>, basic: Option<string>, readable: bool, writable: bool, removable: bool)

  datatype GetError = SessionNotFound | SessionExpired | RepositoryFailed

  /**
   * `attached` says that the caller and the request context share one session object, `renewed` that
   * the context has been pointed at a new object.
   */
  datatype Got = Got(result: Result<Record, GetError>, ctx: Option<Record>, attached: bool, renewed: bool)

  /** SetSession always sets EXPIREAT, even on a zero date. */
  predicate Evictable(r: Record, now: Time) {
    Deadline(r.expiresAt) < now
  }

  function Load(evicts: bool, records: Records, id: string, now: Time): Option<Record> {
    if id in records && !(evicts && Evictable(records[id], now)) then Some(records[id]) else None
  }

  /** The effect of `SessionStore.Get`. */
  function Fetched(evicts: bool, records: Records, env: Inbound, ctx: Option<Record>, now: Time): Got {
    if ctx.Some? && !ctx.value.Expired(now) then Got(Ok(ctx.value), ctx, true, false)
    else if env.cookie == "" then
      if env.bearer.Some? then var e := Ephemeral(env.bearer.value, now); Got(Ok(e), Some(e), true, true)
      else if env.basic.Some? then var e := Ephemeral(env.basic.value, now); Got(Ok(e), Some(e), true, true)
      else Got(Err(SessionNotFound), ctx, false, false)
    else if !env.readable then Got(Err(RepositoryFailed), ctx, false, false)
    else match Load(evicts, records, env.cookie, now)
      case None => Got(Err(SessionNotFound), ctx, false, false)
      case Some(r) => Got(if r.Expired(now) then Err(SessionExpired) else Ok(r.Touched(now)), ctx, false, false)
  }

  /** A handler is whatever it does with sessions. */
  datatype Action = DoGet | DoCreate(id: string) | DoDelete | DoSave | DoEdit(edit: Edit)

  datatype State = State(records: Records, ctx: Option<Record>, attached: bool)

  /** The effect of `SessionStore.Save`. */
  function Saved(evicts: bool, st: State, env: Inbound, now: Time): State {
    var g := Fetched(evicts, st.records, env, st.ctx, now);
    State(
      if g.result.Err? || g.result.value.id == "" || !env.writable then st.records
        else st.records[g.result.value.id := g.result.value],
      g.ctx,
      st.attached && !g.renewed)
  }

  function Acted(cfg: Config, st: State, env: Inbound, now: Time, a: Action): State {
    match a
    case DoGet =>
      var g := Fetched(cfg.evicts, st.records, env, st.ctx, now);
      st.(ctx := g.ctx, attached := g.attached)
    case DoCreate(id) => st.(ctx := Some(Made(cfg.idle, cfg.max, id, now)), attached := true)
    case DoDelete =>
      State(if env.cookie == "" || !env.removable then st.records else st.records - {env.cookie}, Some(EMPTY), false)
    case DoSave => Saved(cfg.evicts, st, env, now)
    case DoEdit(e) => if st.attached && st.ctx.Some? then st.(ctx := Some(Edited(st.ctx.value, e))) else st
  }

  function Handled(cfg: Config, st: State, env: Inbound, now: Time, acts: seq<Action>): State
    decreases |acts|
  {
    if acts == [] then st else Handled(cfg, Acted(cfg, st, env, now, acts[0]), env, now, acts[1..])
  }

  datatype Request = Request(env: Inbound, now: Time, acts: seq<Action>)

  /** Where a request stands when its handler starts. */
  function Entered(cfg: Config, records: Records, r: Request): State {
    var g := Fetched(cfg.evicts, records, r.env, None, r.now);
    State(records, if g.result.Ok? then Some(g.result.value) else g.ctx, false)
  }

  /** The store after one request through the middleware: get, handle, save. */
  function Served(cfg: Config, records: Records, r: Request): Records {
    Saved(cfg.evicts, Handled(cfg, Entered(cfg, records, r), r.env, r.now, r.acts), r.env, r.now).records
  }

  predicate Accepted(cfg: Config, records: Records, r: Request) {
    Fetched(cfg.evicts, records, r.env, None, r.now).result.Ok?
  }

  // ---- The classes ----------------------------------------------------------------------

  class Session {
    var id: string
    var createdAt: Time
    var expiresAt: Time
    var idle: int
    var max: int
    var userID: string
    var tokenIDs: map<string, string>
    var loginRedirectURL: string
    var loginSequence: seq<string>
    var loginState: string

    function Rec(): Record
      reads this
    {
      Record(id, createdAt, expiresAt, idle, max, userID, tokenIDs, loginRedirectURL, loginSequence, loginState)
    }

    constructor (r: Record)
      ensures Rec() == r
    {
      id, createdAt, expiresAt, idle, max := r.id, r.createdAt, r.expiresAt, r.idle, r.max;
      userID, tokenIDs, loginRedirectURL := r.userID, r.tokenIDs, r.loginRedirectURL;
      loginSequence, loginState := r.loginSequence, r.loginState;
    }

    predicate Expired(now: Time)
      reads this
    {
      Rec().Expired(now)
    }

    method Touch(now: Time)
      modifies this`expiresAt
      ensures Rec() == old(Rec()).Touched(now)
    {
      if idle == 0 && max == 0 {
        expiresAt := 0;
        return;
      } else if idle == 0 {
        expiresAt := createdAt + max * SECOND;
        return;
      }
      var maxExpiresAt := createdAt + max * SECOND;
      var next := now + idle * SECOND;
      if max > 0 && maxExpiresAt < next {
        next := maxExpiresAt;
      }
      expiresAt := next;
    }

    method Apply(e: Edit)
      modifies this
      ensures Rec() == Edited(old(Rec()), e)
    {
      userID, tokenIDs, loginRedirectURL := e.userID, e.tokenIDs, e.loginRedirectURL;
      loginSequence, loginState := e.loginSequence, e.loginState;
    }
  }

  /** The request context: handlers and middleware share the session object it points to. */
  class RequestContext {
    const env: Inbound
    var session: Session?

    constructor (env: Inbound)
      ensures this.env == env && session == null
    {
      this.env := env;
      session := null;
    }

    function Value(): Option<Record>
      reads this, session
    {
      if session == null then None else Some(session.Rec())
    }
  }

  class SessionStore {
    const cfg: Config
    var records: Records

    constructor (cfg: Config)
      ensures this.cfg == cfg && records == map[]
    {
      this.cfg := cfg;
      records := map[];
    }

    method Get(c: RequestContext, now: Time) returns (s: Session, r: Option<GetError>)
      modifies c
      ensures
        var g := Fetched(cfg.evicts, records, c.env, old(c.Value()), now);
        && c.Value() == g.ctx
        && (r.None? <==> g.result.Ok?)
        && (if r.None? then g.result == Ok(s.Rec()) else g.result == Err(r.value))
        && (g.attached ==> s == c.session)
        && (!g.attached ==> fresh(s) && c.session == old(c.session))
      ensures if Fetched(cfg.evicts, records, c.env, old(c.Value()), now).renewed
              then fresh(c.session) && c.session == s else c.session == old(c.session)
    {
      if c.session != null && !c.session.Expired(now) {
        return c.session, None;
      }
      if c.env.cookie == "" {
        if c.env.bearer.Some? {
          s := new Session(Ephemeral(c.env.bearer.value, now));
          c.session := s;
          return s, None;
        }
        if c.env.basic.Some? {
          s := new Session(Ephemeral(c.env.basic.value, now));
          c.session := s;
          return s, None;
        }
        s := new Session(EMPTY);
        return s, Some(SessionNotFound);
      }
      if !c.env.readable {
        s := new Session(EMPTY);
        return s, Some(RepositoryFailed);
      }
      var found := Load(cfg.evicts, records, c.env.cookie, now);
      if found.None? {
        s := new Session(EMPTY);
        return s, Some(SessionNotFound);
      }
      s := new Session(found.value);
      if s.Expired(now) {
        s := new Session(EMPTY);
        return s, Some(SessionExpired);
      }
      s.Touch(now);
      r := None;
    }

    /** `id` is what the session maker drew, if it and the encoding of the cookie worked; without it nothing happens. */
    method Create(c: RequestContext, id: Option<string>, now: Time) returns (s: Session?)
      modifies c
      ensures s == null <==> id.None?
      ensures s == null ==> c.session == old(c.session)
      ensures s != null ==> fresh(s) && c.session == s && s.Rec() == Made(cfg.idle, cfg.max, id.value, now)
    {
      if id.None? {
        return null;
      }
      var expiresAt := 0;
      if cfg.idle == 0 {
      } else if cfg.max == 0 {
        expiresAt := now + cfg.max * SECOND;
      } else {
        expiresAt := now + cfg.idle * SECOND;
      }
      s := new Session(Record(id.value, now, expiresAt, cfg.idle, cfg.max, "", map[], "", [], ""));
      c.session := s;
    }

    /** What it reports: the error of the lookup, or that the write was refused. */
    method Save(c: RequestContext, now: Time) returns (r: Option<GetError>)
      modifies this, c
      ensures var st := Saved(cfg.evicts, State(old(records), old(c.Value()), true), c.env, now);
        && records == st.records && c.Value() == st.ctx
        && if st.attached then c.session == old(c.session) else fresh(c.session)
      ensures
        var g := Fetched(cfg.evicts, old(records), c.env, old(c.Value()), now).result;
        r == if g.Err? then Some(g.error) else if g.value.id != "" && !c.env.writable then Some(RepositoryFailed)
          else None
    {
      var s;
      s, r := Get(c, now);
      if r.Some? {
        return;
      }
      if s.id == "" {
        return;
      }
      if !c.env.writable {
        return Some(RepositoryFailed);
      }
      records := records[s.id := s.Rec()];
    }

    /** The context loses its session even when the removal fails. */
    method Delete(c: RequestContext) returns (ok: bool)
      modifies this, c
      ensures fresh(c.session) && c.Value() == Some(EMPTY)
      ensures ok <==> c.env.cookie == "" || c.env.removable
      ensures records == if c.env.cookie == "" || !ok then old(records) else old(records) - {c.env.cookie}
    {
      c.session := new Session(EMPTY);
      ok := true;
      if c.env.cookie != "" {
        ok := c.env.removable;
        if ok {
          records := records - {c.env.cookie};
        }
      }
    }

    /** The handler: `h` is the session pointer it last received. */
    method Handle(c: RequestContext, now: Time, acts: seq<Action>)
      modifies this, c, c.session
      ensures c.session == old(c.session) || fresh(c.session)
      ensures var st := Handled(cfg, State(old(records), old(c.Value()), false), c.env, now, acts);
        records == st.records && c.Value() == st.ctx
    {
      var h: Session? := null;
      ghost var st := State(records, c.Value(), false);
      ghost var goal := Handled(cfg, st, c.env, now, acts);
      for i := 0 to |acts|
        invariant Handled(cfg, st, c.env, now, acts[i..]) == goal
        invariant st.records == records && st.ctx == c.Value()
        invariant st.attached && c.session != null <==> h != null && h == c.session
        invariant c.session == old(c.session) || fresh(c.session)
        invariant h != null && h != c.session ==> h == old(c.session) || fresh(h)
      {
        ghost var rest := acts[i..];
        assert rest[0] == acts[i] && rest[1..] == acts[i + 1..];
        ghost var next := Acted(cfg, st, c.env, now, acts[i]);
        match acts[i] {
          case DoGet =>
            var err;
            h, err := Get(c, now);
          case DoCreate(id) =>
            h := Create(c, Some(id), now);
          case DoDelete =>
            var _ := Delete(c);
          case DoSave =>
            var _ := Save(c, now);
          case DoEdit(e) =>
            if h != null {
              h.Apply(e);
            }
        }
        st := next;
      }
      assert acts[|acts|..] == [];
    }

    /** The session middleware around a handler: what the handler does to the shared object is what gets saved. */
    method Middleware(c: RequestContext, now: Time, acts: seq<Action>)
      requires c.session == null
      modifies this, c
      ensures records == Served(cfg, old(records), Request(c.env, now, acts))
    {
      var s, err := Get(c, now);
      if err.None? {
        c.session := s;
      }
      ghost var start := State(records, c.Value(), false);
      assert start == Entered(cfg, old(records), Request(c.env, now, acts));
      Handle(c, now, acts);
      var _ := Save(c, now);
    }
  }
}
