/**
 * Runs of requests through the session middleware, callbacks among them, over the stored sessions: what
 * one request does to the login fields of one stored session.
 */
module LoginRuns {
  import opened Prelude
  import opened Tokens
  import opened Sessions
  import opened SessionLaws
  import opened Logins
  import TokenRepos
  import TokenRepoLaws

  /**
   * What a request does: a callback, or anything else a handler does with sessions, along with token
   * exchanges and refreshes on any token IDs.
   */
  datatype Work = CallbackTo(cb: Callback) | Other(acts: seq<Action>, ops: seq<TokenRepoLaws.Op>)

  datatype Visit = Visit(env: Inbound, now: Time, work: Work)

  datatype World = World(records: Sessions.Records, tokens: TokenRepos.Records)

  /** The gateway's configuration: logins, sessions, the refresh margin, and whether the token store evicts. */
  datatype Gateway = Gateway(logins: LoginConfig, sessions: Config, margin: int, evicts: bool)

  /** Where a visit stands when the middleware hands it on. */
  function Arrived(gw: Gateway, w: World, v: Visit): State {
    Entered(gw.sessions, w.records, Request(v.env, v.now, []))
  }

  /** The world after one visit through the middleware, with its trailing save. */
  function Visited(gw: Gateway, w: World, v: Visit): World {
    match v.work
    case CallbackTo(cb) =>
      var o := CallbackServed(gw.logins, gw.sessions.evicts, Arrived(gw, w, v), w.tokens, v.env, v.now, cb);
      World(Saved(gw.sessions.evicts, o.state, v.env, v.now).records, o.tokens)
    case Other(acts, ops) =>
      World(Served(gw.sessions, w.records, Request(v.env, v.now, acts)),
            TokenRepoLaws.AfterAll(gw.margin, gw.logins.clients, gw.evicts, w.tokens, ops))
  }

  /** Whether the caller of `GetCallback` holds a session already makes no difference. */
  lemma AttachedIsMoot(gw: Gateway, w: World, v: Visit)
    requires v.work.CallbackTo?
    ensures
      var st := Arrived(gw, w, v).(attached := true);
      var o := CallbackServed(gw.logins, gw.sessions.evicts, st, w.tokens, v.env, v.now, v.work.cb);
      Visited(gw, w, v) == World(Saved(gw.sessions.evicts, o.state, v.env, v.now).records, o.tokens)
  {
  }

  /** The session middleware around `GetCallback`. */
  method ServeCallback(gw: Gateway, server: LoginServer, c: RequestContext, cb: Callback, now: Time)
    returns (reply: Logins.Reply)
    requires server.tokens.Valid() && server.cfg == gw.logins && server.sessions.cfg == gw.sessions && c.session == null
    modifies server.sessions, c, server.tokens
    ensures
      var w := World(old(server.sessions.records), old(server.tokens.records));
      World(server.sessions.records, server.tokens.records) == Visited(gw, w, Visit(c.env, now, CallbackTo(cb)))
  {
    ghost var w := World(server.sessions.records, server.tokens.records);
    ghost var v := Visit(c.env, now, CallbackTo(cb));
    var s, err := server.sessions.Get(c, now);
    if err.None? {
      c.session := s;
    }
    ghost var st := State(server.sessions.records, c.Value(), true);
    assert st == Arrived(gw, w, v).(attached := true);
    ghost var o := CallbackServed(gw.logins, gw.sessions.evicts, st, w.tokens, c.env, now, cb);
    reply := server.GetCallback(c, cb, now);
    assert server.sessions.records == o.state.records && c.Value() == o.state.ctx && server.tokens.records == o.tokens;
    AttachedIsMoot(gw, w, v);
    var _ := server.sessions.Save(c, now);
  }

  // ---- The login fields of one session ----------------------------------------------------

  /** What a login works on in a session. */
  function Fields(r: Record): Edit {
    Edit(r.userID, r.tokenIDs, r.loginRedirectURL, r.loginSequence, r.loginState)
  }

  /** A session as a validated configuration makes and keeps it: touching a live one leaves it live. */
  predicate Kept(r: Record) {
    && 0 < r.createdAt && 0 < r.idle && r.expiresAt != 0
    && (0 < r.max ==> r.expiresAt <= r.createdAt + r.max * SECOND)
  }

  predicate Tame(records: Sessions.Records, sid: string) {
    WellFiled(records) && (sid in records ==> Kept(records[sid]))
  }

  /** The handler does not edit the session it was given, though it may well edit one it creates. */
  predicate HandsOff(acts: seq<Action>) {
    acts == [] || acts[0].DoCreate? || acts[0].DoDelete? || (!acts[0].DoEdit? && HandsOff(acts[1..]))
  }

  /** The visit is a callback that the stored session `sid` accepts. */
  predicate AcceptedBy(gw: Gateway, w: World, v: Visit, sid: string) {
    && v.work.CallbackTo? && v.env.cookie == sid && sid in w.records
    && Accepted(gw.sessions, w.records, Request(v.env, v.now, []))
    && Accepts(w.records[sid], v.work.cb)
  }

  /**
   * A visit as the login results take it: only callbacks edit the session, no visit draws its ID again,
   * and the repository takes the writes of the callbacks it accepts.
   */
  predicate Regular(gw: Gateway, w: World, v: Visit, sid: string) {
    && 0 < v.now
    && match v.work {
         case CallbackTo(_) => AcceptedBy(gw, w, v, sid) ==> v.env.writable
         case Other(acts, _) => NoCreate(acts, sid) && (v.env.cookie == sid ==> HandsOff(acts))
       }
  }

  /** A record of the session with these login fields. */
  predicate Still(r: Record, f: Edit) {
    Kept(r) && Fields(r) == f
  }

  predicate Unedited(st: State, sid: string, f: Edit) {
    && WellFiled(st.records)
    && (sid in st.records ==> Still(st.records[sid], f))
    && (st.ctx.Some? && st.ctx.value.id == sid ==> sid in st.records && Still(st.ctx.value, f))
  }

  lemma TouchedStill(r: Record, now: Time, f: Edit)
    requires Still(r, f) && 0 < now
    ensures r.Touched(now).id == r.id && Still(r.Touched(now), f)
    ensures !r.Expired(now) ==> !r.Touched(now).Expired(now)
  {
  }

  lemma FetchedUnedited(evicts: bool, st: State, env: Inbound, now: Time, sid: string, f: Edit)
    requires sid != "" && 0 < now && Unedited(st, sid, f)
    ensures var g := Fetched(evicts, st.records, env, st.ctx, now);
      && (g.result.Ok? && g.result.value.id == sid ==> sid in st.records && Still(g.result.value, f))
      && (g.ctx == st.ctx || Away(g.ctx, sid))
  {
    if env.cookie in st.records && env.cookie == sid {
      TouchedStill(st.records[env.cookie], now, f);
    }
  }

  lemma SavedUnedited(evicts: bool, st: State, env: Inbound, now: Time, sid: string, f: Edit)
    requires sid != "" && 0 < now && Unedited(st, sid, f)
    ensures var st' := Saved(evicts, st, env, now);
      && Unedited(st', sid, f) && (sid in st'.records ==> sid in st.records)
      && (Away(st.ctx, sid) ==> Away(st'.ctx, sid))
  {
    FetchedUnedited(evicts, st, env, now, sid, f);
    var g := Fetched(evicts, st.records, env, st.ctx, now);
    var st' := Saved(evicts, st, env, now);
    assert forall k :: k in st'.records ==>
      (k in st.records && st'.records[k] == st.records[k])
        || (g.result.Ok? && k == g.result.value.id != "" && st'.records[k] == g.result.value);
  }

  lemma ActedUnedited(cfg: Config, st: State, env: Inbound, now: Time, a: Action, sid: string, f: Edit)
    requires sid != "" && 0 < now && Unedited(st, sid, f) && NoCreate([a], sid)
    requires a.DoEdit? ==> Away(st.ctx, sid)
    ensures var st' := Acted(cfg, st, env, now, a);
      && Unedited(st', sid, f) && (sid in st'.records ==> sid in st.records)
      && (Away(st.ctx, sid) || a.DoCreate? || a.DoDelete? ==> Away(st'.ctx, sid))
  {
    assert a in [a];
    if a.DoSave? {
      SavedUnedited(cfg.evicts, st, env, now, sid, f);
    } else if a.DoGet? {
      FetchedUnedited(cfg.evicts, st, env, now, sid, f);
    }
  }

  lemma {:induction false} HandledUnedited(
    cfg: Config, st: State, env: Inbound, now: Time, acts: seq<Action>, sid: string, f: Edit)
    requires sid != "" && 0 < now && Unedited(st, sid, f) && NoCreate(acts, sid)
    requires Away(st.ctx, sid) || HandsOff(acts)
    ensures var st' := Handled(cfg, st, env, now, acts);
      Unedited(st', sid, f) && (sid in st'.records ==> sid in st.records)
    decreases |acts|
  {
    if acts != [] {
      ActedUnedited(cfg, st, env, now, acts[0], sid, f);
      HandledUnedited(cfg, Acted(cfg, st, env, now, acts[0]), env, now, acts[1..], sid, f);
    }
  }

  lemma {:induction false} HandsOffThenSave(acts: seq<Action>)
    requires HandsOff(acts)
    ensures HandsOff(acts + [DoSave])
  {
    if acts != [] && !acts[0].DoCreate? && !acts[0].DoDelete? {
      HandsOffThenSave(acts[1..]);
      assert (acts + [DoSave])[1..] == acts[1..] + [DoSave];
    } else if acts == [] {
      assert (acts + [DoSave])[0] == DoSave && (acts + [DoSave])[1..] == [];
    }
  }

  lemma ArrivedUnedited(gw: Gateway, w: World, v: Visit, sid: string)
    requires sid != "" && 0 < v.now && Tame(w.records, sid)
    ensures var f := if sid in w.records then Fields(w.records[sid]) else Edit("", map[], "", [], "");
      Unedited(Arrived(gw, w, v), sid, f)
    ensures v.env.cookie != sid ==> Away(Arrived(gw, w, v).ctx, sid)
  {
  }

  /** What a visit leaves in the login fields of the session: what the callback did, if it was accepted. */
  function FieldsAfter(gw: Gateway, w: World, v: Visit, sid: string): Edit
    requires sid in w.records
  {
    if AcceptedBy(gw, w, v, sid)
    then Fields(CalledBack(gw.logins, Login(w.records[sid], w.tokens), v.work.cb).0.session)
    else Fields(w.records[sid])
  }

  ghost predicate Follows(gw: Gateway, w: World, v: Visit, sid: string, after: Sessions.Records) {
    && Tame(after, sid)
    && (sid in after ==> sid in w.records && Fields(after[sid]) == FieldsAfter(gw, w, v, sid))
  }

  lemma OtherVisit(gw: Gateway, w: World, v: Visit, sid: string)
    requires sid != "" && Tame(w.records, sid) && Regular(gw, w, v, sid) && v.work.Other?
    ensures Follows(gw, w, v, sid, Visited(gw, w, v).records)
  {
    var acts := v.work.acts;
    var st := Arrived(gw, w, v);
    var f := if sid in w.records then Fields(w.records[sid]) else Edit("", map[], "", [], "");
    ArrivedUnedited(gw, w, v, sid);
    SavedIsActed(gw.sessions, st, v.env, v.now, acts);
    if v.env.cookie == sid {
      HandsOffThenSave(acts);
    }
    HandledUnedited(gw.sessions, st, v.env, v.now, acts + [DoSave], sid, f);
  }

  lemma ReceivedOnlyEdits(l: Login, client: Client, provider: string, t: CodeTokens, up: nat -> bool)
    ensures var after := CodeReceived(l, client, provider, t, up).session; Edited(l.session, Fields(after)) == after
  {
  }

  /** A callback changes nothing in the session but its login fields. */
  lemma CallbackOnlyEdits(cfg: LoginConfig, l: Login, cb: Callback)
    ensures var after := CalledBack(cfg, l, cb).0.session; Edited(l.session, Fields(after)) == after
  {
    if Accepts(l.session, cb) {
      var provider := l.session.loginSequence[0];
      var l' := l.(session := l.session.(loginSequence := l.session.loginSequence[1..]));
      if provider in cfg.clients && cb.exchange.Exchanged? {
        ReceivedOnlyEdits(l', cfg.clients[provider], provider, cb.exchange.tokens, cb.up);
      }
    }
  }

  lemma CallbackKeepsID(cfg: LoginConfig, l: Login, cb: Callback)
    ensures CalledBack(cfg, l, cb).0.session.id == l.session.id
  {
    CallbackOnlyEdits(cfg, l, cb);
  }

  lemma ReceivedFields(l: Login, m: Login, client: Client, provider: string, t: CodeTokens, up: nat -> bool)
    requires Fields(l.session) == Fields(m.session)
    ensures Fields(CodeReceived(l, client, provider, t, up).session) ==
        Fields(CodeReceived(m, client, provider, t, up).session)
  {
  }

  /** And what it makes of those depends on nothing else. */
  lemma CalledBackFields(cfg: LoginConfig, l: Login, m: Login, cb: Callback)
    requires Fields(l.session) == Fields(m.session)
    ensures Fields(CalledBack(cfg, l, cb).0.session) == Fields(CalledBack(cfg, m, cb).0.session)
  {
    if Accepts(l.session, cb) {
      var provider := l.session.loginSequence[0];
      var l' := l.(session := l.session.(loginSequence := l.session.loginSequence[1..]));
      var m' := m.(session := m.session.(loginSequence := m.session.loginSequence[1..]));
      if provider in cfg.clients && cb.exchange.Exchanged? {
        ReceivedFields(l', m', cfg.clients[provider], provider, cb.exchange.tokens, cb.up);
      }
    }
  }

  /** The state after the handler made `after` of the session it got, and before it saved it. */
  function Changed(st: State, g: Got, after: Record): State {
    State(st.records, if g.result.Ok? && g.attached then Some(after) else g.ctx, g.attached)
  }

  function MadeOf(gw: Gateway, g: Got, tokens: TokenRepos.Records, cb: Callback): Record {
    if g.result.Err? then EMPTY else CalledBack(gw.logins, Login(g.result.value, tokens), cb).0.session
  }

  lemma ServedIsChanged(gw: Gateway, st: State, tokens: TokenRepos.Records, v: Visit)
    requires v.work.CallbackTo?
    ensures
      var o := CallbackServed(gw.logins, gw.sessions.evicts, st, tokens, v.env, v.now, v.work.cb);
      var g := Fetched(gw.sessions.evicts, st.records, v.env, st.ctx, v.now);
      var st' := Changed(st, g, MadeOf(gw, g, tokens, v.work.cb));
      o.state == st || o.state == st' || o.state == Saved(gw.sessions.evicts, st', v.env, v.now)
  {
  }

  lemma ForeignChanged(gw: Gateway, st: State, v: Visit, after: Record, sid: string, f: Edit)
    requires sid != "" && 0 < v.now && Unedited(st, sid, f) && Away(st.ctx, sid)
    ensures
      var g := Fetched(gw.sessions.evicts, st.records, v.env, st.ctx, v.now);
      var st' := Changed(st, g, after);
      (g.result.Ok? ==> after.id == g.result.value.id) ==> Unedited(st', sid, f) && Away(st'.ctx, sid)
  {
    FetchedUnedited(gw.sessions.evicts, st, v.env, v.now, sid, f);
  }

  /** A callback with another cookie leaves the session alone. */
  lemma ForeignCallback(gw: Gateway, w: World, v: Visit, sid: string)
    requires sid != "" && Tame(w.records, sid) && Regular(gw, w, v, sid) && v.work.CallbackTo? && v.env.cookie != sid
    ensures Follows(gw, w, v, sid, Visited(gw, w, v).records)
  {
    var st := Arrived(gw, w, v);
    var f := if sid in w.records then Fields(w.records[sid]) else Edit("", map[], "", [], "");
    ArrivedUnedited(gw, w, v, sid);
    var evicts := gw.sessions.evicts;
    var g := Fetched(evicts, st.records, v.env, st.ctx, v.now);
    var after := MadeOf(gw, g, w.tokens, v.work.cb);
    if g.result.Ok? {
      CallbackKeepsID(gw.logins, Login(g.result.value, w.tokens), v.work.cb);
    }
    ForeignChanged(gw, st, v, after, sid, f);
    ServedIsChanged(gw, st, w.tokens, v);
    SavedUnedited(evicts, st, v.env, v.now, sid, f);
    SavedUnedited(evicts, Changed(st, g, after), v.env, v.now, sid, f);
    SavedUnedited(evicts, Saved(evicts, Changed(st, g, after), v.env, v.now), v.env, v.now, sid, f);
  }

  /** Saving a live session that the context holds. */
  lemma LiveSaved(evicts: bool, st: State, env: Inbound, now: Time, sid: string)
    requires sid != "" && st.ctx.Some? && st.ctx.value.id == sid && !st.ctx.value.Expired(now)
    ensures Saved(evicts, st, env, now) ==
            st.(records := if env.writable then st.records[sid := st.ctx.value] else st.records)
  {
  }

  /** A callback to a live session leaves what `CalledBack` makes of the touched session, if that can be written. */
  lemma LiveCallback(gw: Gateway, w: World, v: Visit, sid: string)
    requires sid != "" && 0 < v.now && Tame(w.records, sid) && v.work.CallbackTo? && v.env.cookie == sid
        && sid in w.records
    requires Accepted(gw.sessions, w.records, Request(v.env, v.now, []))
    ensures
      var touched := w.records[sid].Touched(v.now);
      var l := CalledBack(gw.logins, Login(touched, w.tokens), v.work.cb).0;
      Visited(gw, w, v) == World(if v.env.writable then w.records[sid := l.session] else w.records, l.tokens)
  {
    var touched := w.records[sid].Touched(v.now);
    var st := State(w.records, Some(touched), false);
    assert Arrived(gw, w, v) == st && !touched.Expired(v.now);
    var l := CalledBack(gw.logins, Login(touched, w.tokens), v.work.cb).0;
    CallbackOnlyEdits(gw.logins, Login(touched, w.tokens), v.work.cb);
    var st' := State(w.records, Some(l.session), true);
    LiveSaved(gw.sessions.evicts, st, v.env, v.now, sid);
    LiveSaved(gw.sessions.evicts, st', v.env, v.now, sid);
    LiveSaved(gw.sessions.evicts, Saved(gw.sessions.evicts, st', v.env, v.now), v.env, v.now, sid);
    assert (w.records[sid := l.session])[sid := l.session] == w.records[sid := l.session];
  }

  /** A callback to a session that is gone, expired or unreadable changes nothing. */
  lemma UnseenCallback(gw: Gateway, w: World, v: Visit, sid: string)
    requires sid != "" && WellFiled(w.records) && v.work.CallbackTo? && v.env.cookie == sid
    requires !(sid in w.records && Accepted(gw.sessions, w.records, Request(v.env, v.now, [])))
    ensures Visited(gw, w, v) == w
  {
    assert Arrived(gw, w, v) == State(w.records, None, false);
  }

  lemma OwnCallback(gw: Gateway, w: World, v: Visit, sid: string)
    requires sid != "" && Tame(w.records, sid) && Regular(gw, w, v, sid) && v.work.CallbackTo? && v.env.cookie == sid
    ensures Follows(gw, w, v, sid, Visited(gw, w, v).records)
  {
    if sid in w.records && Accepted(gw.sessions, w.records, Request(v.env, v.now, [])) {
      var touched := Login(w.records[sid].Touched(v.now), w.tokens);
      var after := CalledBack(gw.logins, touched, v.work.cb).0.session;
      LiveCallback(gw, w, v, sid);
      TouchedStill(w.records[sid], v.now, Fields(w.records[sid]));
      CallbackOnlyEdits(gw.logins, touched, v.work.cb);
      CalledBackFields(gw.logins, touched, Login(w.records[sid], w.tokens), v.work.cb);
      assert after.id == sid && Kept(after);
      if !Accepts(w.records[sid], v.work.cb) {
        assert after == touched.session;
      }
    } else {
      UnseenCallback(gw, w, v, sid);
    }
  }

  /** One visit, of whatever kind, does to the stored session what it should. */
  lemma OneVisit(gw: Gateway, w: World, v: Visit, sid: string)
    requires sid != "" && Tame(w.records, sid) && Regular(gw, w, v, sid)
    ensures Follows(gw, w, v, sid, Visited(gw, w, v).records)
  {
    if v.work.Other? {
      OtherVisit(gw, w, v, sid);
    } else if v.env.cookie == sid {
      OwnCallback(gw, w, v, sid);
    } else {
      ForeignCallback(gw, w, v, sid);
    }
  }

  // ---- Runs -------------------------------------------------------------------------------

  /** `ws[i + 1]` is the world after visit `i`, and all visits are regular for the session `sid`. */
  ghost predicate Course(gw: Gateway, ws: seq<World>, vs: seq<Visit>, sid: string) {
    && |ws| == |vs| + 1 && sid != "" && Tame(ws[0].records, sid)
    && forall i :: 0 <= i < |vs| ==> Regular(gw, ws[i], vs[i], sid) && ws[i + 1] == Visited(gw, ws[i], vs[i])
  }

  lemma {:induction false} CourseStep(gw: Gateway, ws: seq<World>, vs: seq<Visit>, sid: string, n: nat)
    requires Course(gw, ws, vs, sid) && n <= |vs|
    ensures Tame(ws[n].records, sid)
    ensures n < |vs| ==> Follows(gw, ws[n], vs[n], sid, ws[n + 1].records)
  {
    if n > 0 {
      CourseStep(gw, ws, vs, sid, n - 1);
    }
    if n < |vs| {
      OneVisit(gw, ws[n], vs[n], sid);
    }
  }

  /** A login through the middleware: the records after it, when a session could be made. */
  function LoginServed(
    gw: Gateway, records: Sessions.Records, env: Inbound, now: Time,
    redirect: string, providers: seq<string>, id: string, next: Option<string>): Sessions.Records
  {
    var n := NextStep(gw.logins,
      LoginBegun(gw.logins, Made(gw.sessions.idle, gw.sessions.max, id, now), redirect, providers), next);
    var st := State(records, Some(n.0), true);
    Saved(gw.sessions.evicts, if n.1.Failed? then st else Saved(gw.sessions.evicts, st, env, now), env, now).records
  }

  /** It stores a session with the whole sequence ahead and no tokens, from which a course can start. */
  lemma LoginIsStored(
    gw: Gateway, records: Sessions.Records, env: Inbound, now: Time,
    redirect: string, providers: seq<string>, id: string, next: Option<string>)
    requires Validated(gw.sessions) && WellFiled(records) && 0 < now && id != "" && env.writable && next.Some?
    ensures
      var after := LoginServed(gw, records, env, now, redirect, providers, id, next);
      && id in after && Tame(after, id)
      && after[id].loginSequence == (if providers != [] then providers else DefaultSequence(gw.logins))
      && after[id].loginState == next.value && after[id].tokenIDs == map[] && now <= after[id].expiresAt
  {
    var made := Sessions.Made(gw.sessions.idle, gw.sessions.max, id, now);
    var n := NextStep(gw.logins, LoginBegun(gw.logins, made, redirect, providers), next);
    var st := State(records, Some(n.0), true);
    LiveSaved(gw.sessions.evicts, st, env, now, id);
    LiveSaved(gw.sessions.evicts, st.(records := records[id := n.0]), env, now, id);
  }

  /** The session middleware around `GetLogin`; a login that gets no session is a visit that does nothing. */
  method ServeLogin(
    gw: Gateway, server: LoginServer, c: RequestContext,
    redirect: string, providers: seq<string>, id: Option<string>, next: Option<string>, now: Time)
    returns (reply: Logins.Reply)
    requires server.cfg == gw.logins && server.sessions.cfg == gw.sessions && c.session == null
    modifies server.sessions, c
    ensures id.Some? ==>
      server.sessions.records ==
      LoginServed(gw, old(server.sessions.records), c.env, now, redirect, providers, id.value, next)
    ensures id.None? ==>
      server.sessions.records == Served(gw.sessions, old(server.sessions.records), Request(c.env, now, []))
  {
    ghost var records := server.sessions.records;
    var s, err := server.sessions.Get(c, now);
    if err.None? {
      c.session := s;
    }
    ghost var st := Entered(gw.sessions, records, Request(c.env, now, []));
    assert c.Value() == st.ctx && server.sessions.records == records;
    reply := server.GetLogin(c, redirect, providers, id, next, now);
    assert Handled(gw.sessions, st, c.env, now, []) == st;
    var _ := server.sessions.Save(c, now);
  }
}
