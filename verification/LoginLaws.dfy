/**
 * What whole logins promise, over any run of requests on the stored sessions: each state value works
 * once, and the session ends up naming stored tokens.
 */
module LoginLaws {
  import opened Prelude
  import opened TokenRepos
  import opened Sessions
  import opened SessionLaws
  import opened Logins
  import opened LoginRuns
  import SessionLifetimes

  /** How many of the first `n` visits are callbacks that the session accepts. */
  function AcceptedCount(gw: Gateway, ws: seq<World>, vs: seq<Visit>, sid: string, n: nat): nat
    requires n <= |vs| <= |ws|
  {
    if n == 0 then 0
    else AcceptedCount(gw, ws, vs, sid, n - 1) + if AcceptedBy(gw, ws[n - 1], vs[n - 1], sid) then 1 else 0
  }

  function Sequence(w: World, sid: string): seq<string> {
    if sid in w.records then w.records[sid].loginSequence else []
  }

  // ---- At most once ---------------------------------------------------------------------

  lemma OneCallback(cfg: LoginConfig, l: Login, cb: Callback)
    requires Accepts(l.session, cb)
    ensures CalledBack(cfg, l, cb).0.session.loginSequence == l.session.loginSequence[1..]
  {
  }

  lemma OneVisitSequence(gw: Gateway, w: World, v: Visit, sid: string, after: World)
    requires Follows(gw, w, v, sid, after.records) && sid in after.records
    ensures Sequence(after, sid) == if AcceptedBy(gw, w, v, sid) then Sequence(w, sid)[1..] else Sequence(w, sid)
    ensures AcceptedBy(gw, w, v, sid) ==> Sequence(w, sid) != []
  {
    if AcceptedBy(gw, w, v, sid) {
      OneCallback(gw.logins, Login(w.records[sid], w.tokens), v.work.cb);
    }
  }

  /**
   * Callbacks are paid for with providers: as long as the session is stored, accepted callbacks and
   * remaining providers add up to the length of the sequence it had at first. This holds whatever the
   * exchanges do and whatever else is served in between.
   */
  lemma {:induction false} CallbacksConsumeProviders(gw: Gateway, ws: seq<World>, vs: seq<Visit>, sid: string, n: nat)
    requires Course(gw, ws, vs, sid) && n <= |vs|
    ensures AcceptedCount(gw, ws, vs, sid, n) <= |Sequence(ws[0], sid)|
    ensures sid in ws[n].records ==>
      && sid in ws[0].records
      && Sequence(ws[n], sid) == Sequence(ws[0], sid)[AcceptedCount(gw, ws, vs, sid, n)..]
  {
    if n > 0 {
      CallbacksConsumeProviders(gw, ws, vs, sid, n - 1);
      CourseStep(gw, ws, vs, sid, n - 1);
      if sid in ws[n].records {
        OneVisitSequence(gw, ws[n - 1], vs[n - 1], sid, ws[n]);
      }
    }
  }

  /** A login of n providers accepts at most n callbacks, and a session without providers none. */
  lemma AtMostAsManyAsProviders(gw: Gateway, ws: seq<World>, vs: seq<Visit>, sid: string, n: nat)
    requires Course(gw, ws, vs, sid) && n < |vs|
    ensures AcceptedCount(gw, ws, vs, sid, n) <= |Sequence(ws[0], sid)|
    ensures AcceptedCount(gw, ws, vs, sid, n) == |Sequence(ws[0], sid)| ==> !AcceptedBy(gw, ws[n], vs[n], sid)
  {
    CallbacksConsumeProviders(gw, ws, vs, sid, n);
  }

  /** The state a visit draws for the next step, if it is a callback. */
  function Draws(v: Visit): Option<string> {
    if v.work.CallbackTo? then v.work.cb.next else None
  }

  /** The states drawn for the next steps are all different, and different from the first. */
  predicate FreshStates(first: string, vs: seq<Visit>) {
    && (forall i :: 0 <= i < |vs| ==> Draws(vs[i]) != Some(first))
    && (forall i, j :: 0 <= i < j < |vs| && Draws(vs[i]).Some? ==> Draws(vs[i]) != Draws(vs[j]))
  }

  /** Callbacks the session accepts can draw a state for the next step. */
  predicate CanDraw(gw: Gateway, ws: seq<World>, vs: seq<Visit>, sid: string)
    requires |vs| <= |ws|
  {
    forall i :: 0 <= i < |vs| && AcceptedBy(gw, ws[i], vs[i], sid) ==> Draws(vs[i]).Some?
  }

  predicate Configured(cfg: LoginConfig, providers: seq<string>) {
    forall p :: p in providers ==> p in cfg.clients
  }

  /** The state the stored session waits for was drawn by a visit from `from` on. */
  ghost predicate DrawnSince(ws: seq<World>, vs: seq<Visit>, sid: string, from: nat, n: nat)
    requires n < |ws| && n <= |vs| && sid in ws[n].records
  {
    exists k :: from <= k < n && Draws(vs[k]) == Some(ws[n].records[sid].loginState)
  }

  lemma OneVisitState(gw: Gateway, w: World, v: Visit, sid: string, after: World)
    requires Follows(gw, w, v, sid, after.records) && sid in after.records
    ensures after.records[sid].loginState in {w.records[sid].loginState, ""}
        || Draws(v) == Some(after.records[sid].loginState)
    ensures !AcceptedBy(gw, w, v, sid) ==> after.records[sid].loginState == w.records[sid].loginState
  {
  }

  lemma {:induction false} StateOrigin(gw: Gateway, ws: seq<World>, vs: seq<Visit>, sid: string, n: nat)
    requires Course(gw, ws, vs, sid) && n <= |vs| && sid in ws[n].records
    ensures sid in ws[0].records
    ensures ws[n].records[sid].loginState in {ws[0].records[sid].loginState, ""} || DrawnSince(ws, vs, sid, 0, n)
  {
    if n > 0 {
      CourseStep(gw, ws, vs, sid, n - 1);
      StateOrigin(gw, ws, vs, sid, n - 1);
      OneVisitState(gw, ws[n - 1], vs[n - 1], sid, ws[n]);
    }
  }

  /** The callback takes a provider that is configured. */
  predicate TakesConfigured(gw: Gateway, w: World, sid: string) {
    Sequence(w, sid) != [] && Sequence(w, sid)[0] in gw.logins.clients
  }

  lemma AcceptedVisitState(gw: Gateway, w: World, v: Visit, sid: string, after: World)
    requires Follows(gw, w, v, sid, after.records) && sid in after.records && AcceptedBy(gw, w, v, sid)
    requires TakesConfigured(gw, w, sid) && Draws(v).Some?
    ensures Sequence(after, sid) == [] || Draws(v) == Some(after.records[sid].loginState)
  {
  }

  /** After an accepted callback the session waits for a state drawn since, or for nothing. */
  lemma {:induction false} StateAfterAccept(
    gw: Gateway, ws: seq<World>, vs: seq<Visit>, sid: string, i: nat, n: nat)
    requires Course(gw, ws, vs, sid) && i < n <= |vs| && sid in ws[n].records && AcceptedBy(gw, ws[i], vs[i], sid)
    requires forall k :: i <= k < n && AcceptedBy(gw, ws[k], vs[k], sid) ==> TakesConfigured(gw, ws[k], sid)
    requires CanDraw(gw, ws, vs, sid)
    ensures Sequence(ws[n], sid) == [] || DrawnSince(ws, vs, sid, i, n)
    decreases n
  {
    var m := n - 1;
    CourseStep(gw, ws, vs, sid, m);
    OneVisitSequence(gw, ws[m], vs[m], sid, ws[n]);
    OneVisitState(gw, ws[m], vs[m], sid, ws[n]);
    if i < m {
      StateAfterAccept(gw, ws, vs, sid, i, m);
    }
    if AcceptedBy(gw, ws[m], vs[m], sid) {
      AcceptedVisitState(gw, ws[m], vs[m], sid, ws[n]);
    }
  }

  /** At most once, as long as the callbacks accepted take configured providers. */
  lemma ConfiguredOnce(gw: Gateway, ws: seq<World>, vs: seq<Visit>, sid: string, i: nat, j: nat)
    requires Course(gw, ws, vs, sid) && i < j < |vs| && sid in ws[0].records
    requires FreshStates(ws[0].records[sid].loginState, vs) && CanDraw(gw, ws, vs, sid)
    requires forall k :: i <= k < j && AcceptedBy(gw, ws[k], vs[k], sid) ==> TakesConfigured(gw, ws[k], sid)
    requires AcceptedBy(gw, ws[i], vs[i], sid) && AcceptedBy(gw, ws[j], vs[j], sid)
    ensures vs[i].work.cb.state != vs[j].work.cb.state
  {
    StateOrigin(gw, ws, vs, sid, i);
    StateAfterAccept(gw, ws, vs, sid, i, j);
    var k :| i <= k < j && Draws(vs[k]) == Some(ws[j].records[sid].loginState);
  }

  // ---- States that were handed out ------------------------------------------------------

  /** What a callback visit answers. */
  function ReplyTo(gw: Gateway, w: World, v: Visit): Logins.Reply
    requires v.work.CallbackTo?
  {
    CallbackServed(gw.logins, gw.sessions.evicts, Arrived(gw, w, v), w.tokens, v.env, v.now, v.work.cb).reply
  }

  /** The visit sends its client to a provider with this state. */
  predicate Hands(gw: Gateway, w: World, v: Visit, state: string) {
    v.work.CallbackTo? && ReplyTo(gw, w, v).SentTo? && ReplyTo(gw, w, v).state == state
  }

  /** Some client was sent to a provider with this state: by an earlier visit, or by the login itself. */
  ghost predicate HandedOut(gw: Gateway, ws: seq<World>, vs: seq<Visit>, sid: string, n: nat, state: string)
    requires n <= |vs| <= |ws| && 0 < |ws|
  {
    || (sid in ws[0].records && state == ws[0].records[sid].loginState && TakesConfigured(gw, ws[0], sid))
    || exists k :: 0 <= k < n && Hands(gw, ws[k], vs[k], state)
  }

  /** Clients present only states that were handed out. */
  ghost predicate Presented(gw: Gateway, ws: seq<World>, vs: seq<Visit>, sid: string)
    requires |vs| <= |ws| && 0 < |ws|
  {
    forall k :: 0 <= k < |vs| && AcceptedBy(gw, ws[k], vs[k], sid) ==>
      HandedOut(gw, ws, vs, sid, k, vs[k].work.cb.state)
  }

  lemma HandsWhatItDraws(gw: Gateway, w: World, v: Visit, state: string)
    requires Hands(gw, w, v, state)
    ensures Draws(v) == Some(state)
  {
  }

  /** A callback that sends its client on leaves a configured provider at the head. */
  lemma SentToConfigured(gw: Gateway, w: World, v: Visit, sid: string, state: string)
    requires sid != "" && 0 < v.now && Tame(w.records, sid) && AcceptedBy(gw, w, v, sid) && v.env.writable
    requires Hands(gw, w, v, state)
    ensures TakesConfigured(gw, Visited(gw, w, v), sid)
  {
    LiveCallback(gw, w, v, sid);
  }

  lemma DrawnOnce(first: string, vs: seq<Visit>, k: nat, m: nat, state: string)
    requires FreshStates(first, vs) && k <= m < |vs| && Draws(vs[k]) == Some(state) == Draws(vs[m])
    ensures k == m && state != first
  {
  }

  /** A state drawn by visit `m` and handed out by then was handed out by that very visit. */
  lemma HandedLast(gw: Gateway, ws: seq<World>, vs: seq<Visit>, sid: string, m: nat, state: string)
    requires |ws| == |vs| + 1 && m < |vs| && sid in ws[0].records && FreshStates(ws[0].records[sid].loginState, vs)
    requires Draws(vs[m]) == Some(state) && HandedOut(gw, ws, vs, sid, m + 1, state)
    ensures Hands(gw, ws[m], vs[m], state)
  {
    var first := ws[0].records[sid].loginState;
    DrawnOnce(first, vs, m, m, state);
    forall k | 0 <= k < m + 1 && Hands(gw, ws[k], vs[k], state)
      ensures k == m
    {
      HandsWhatItDraws(gw, ws[k], vs[k], state);
      DrawnOnce(first, vs, k, m, state);
    }
  }

  /** A state the session waited for already was handed out before. */
  lemma HandedBefore(gw: Gateway, ws: seq<World>, vs: seq<Visit>, sid: string, m: nat, state: string)
    requires Course(gw, ws, vs, sid) && m < |vs| && sid in ws[0].records && sid in ws[m].records
    requires FreshStates(ws[0].records[sid].loginState, vs) && state == ws[m].records[sid].loginState != ""
    requires HandedOut(gw, ws, vs, sid, m + 1, state)
    ensures HandedOut(gw, ws, vs, sid, m, state)
  {
    StateOrigin(gw, ws, vs, sid, m);
    if Hands(gw, ws[m], vs[m], state) {
      HandsWhatItDraws(gw, ws[m], vs[m], state);
    }
  }

  /** A state the session waits for, once handed out, has a configured provider behind it. */
  lemma {:induction false} HandedOutIsConfigured(gw: Gateway, ws: seq<World>, vs: seq<Visit>, sid: string, n: nat)
    requires Course(gw, ws, vs, sid) && n <= |vs| && sid in ws[0].records && sid in ws[n].records
    requires FreshStates(ws[0].records[sid].loginState, vs) && CanDraw(gw, ws, vs, sid)
    requires Presented(gw, ws, vs, sid)
    requires ws[n].records[sid].loginState != "" && HandedOut(gw, ws, vs, sid, n, ws[n].records[sid].loginState)
    ensures Sequence(ws[n], sid) == [] || TakesConfigured(gw, ws[n], sid)
  {
    if n > 0 {
      var m := n - 1;
      var w, v, state := ws[m], vs[m], ws[n].records[sid].loginState;
      CourseStep(gw, ws, vs, sid, m);
      OneVisitSequence(gw, w, v, sid, ws[n]);
      OneVisitState(gw, w, v, sid, ws[n]);
      if AcceptedBy(gw, w, v, sid) {
        HandedOutIsConfigured(gw, ws, vs, sid, m);
        AcceptedVisitState(gw, w, v, sid, ws[n]);
        if Sequence(ws[n], sid) != [] {
          HandedLast(gw, ws, vs, sid, m, state);
          SentToConfigured(gw, w, v, sid, state);
        }
      } else {
        HandedBefore(gw, ws, vs, sid, m, state);
        HandedOutIsConfigured(gw, ws, vs, sid, m);
      }
    }
  }

  /**
   * At most once, whatever providers a login names, configured or not: as long as clients present
   * only states they were sent to a provider with, no two callbacks that a session accepts present the
   * same state, whether or not the exchanges succeed and whatever is served in between.
   */
  lemma StatesAcceptedOnce(gw: Gateway, ws: seq<World>, vs: seq<Visit>, sid: string, i: nat, j: nat)
    requires Course(gw, ws, vs, sid) && i < j < |vs| && sid in ws[0].records
    requires FreshStates(ws[0].records[sid].loginState, vs) && CanDraw(gw, ws, vs, sid)
    requires Presented(gw, ws, vs, sid)
    requires AcceptedBy(gw, ws[i], vs[i], sid) && AcceptedBy(gw, ws[j], vs[j], sid)
    ensures vs[i].work.cb.state != vs[j].work.cb.state
  {
    forall k | i <= k < j && AcceptedBy(gw, ws[k], vs[k], sid)
      ensures TakesConfigured(gw, ws[k], sid)
    {
      HandedOutIsConfigured(gw, ws, vs, sid, k);
    }
    ConfiguredOnce(gw, ws, vs, sid, i, j);
  }

  /**
   * Why those conditions: the stored session accepts an accepted callback again exactly when the write
   * was refused, or another provider follows and either this one is not configured or the exchange
   * failed and no new state could be drawn.
   */
  lemma RepeatableCallback(gw: Gateway, w: World, v: Visit, sid: string)
    requires sid != "" && 0 < v.now && Tame(w.records, sid) && AcceptedBy(gw, w, v, sid)
    requires v.work.cb.next != Some(v.work.cb.state)
    ensures
      var cb, providers, after := v.work.cb, Sequence(w, sid), Visited(gw, w, v).records;
      sid in after && (Accepts(after[sid], cb) <==>
        || !v.env.writable
        || (2 <= |providers| &&
            (providers[0] !in gw.logins.clients || (cb.exchange.ExchangeFailed? && cb.next.None?))))
  {
    LiveCallback(gw, w, v, sid);
  }

  /** An empty gateway after a login with one provider. */
  function LoggingIn(gw: Gateway, env: Inbound, now: Time, id: string, state: string, provider: string): World {
    World(LoginServed(gw, map[], env, now, "", [provider], id, Some(state)), map[])
  }

  lemma LoggingInAccepts(
    gw: Gateway, env: Inbound, later: Inbound, now: Time, id: string, provider: string, cb: Callback)
    requires Validated(gw.sessions) && 0 < now && id != "" && cb.state != ""
    requires env.writable && later.readable && later.cookie == id
    ensures
      var w := LoggingIn(gw, env, now, id, cb.state, provider);
      && Tame(w.records, id) && AcceptedBy(gw, w, Visit(later, now, CallbackTo(cb)), id)
      && w.records[id].loginSequence == [provider] && w.records[id].loginState == cb.state
      && w.records[id].tokenIDs == map[]
  {
    LoginIsStored(gw, map[], env, now, "", [provider], id, Some(cb.state));
  }

  lemma LastProviderFinishes(gw: Gateway, w: World, v: Visit, sid: string)
    requires sid != "" && 0 < v.now && Tame(w.records, sid)
    requires AcceptedBy(gw, w, v, sid) && TakesConfigured(gw, w, sid) && |Sequence(w, sid)| == 1
    ensures ReplyTo(gw, w, v).Finished?
  {
  }

  /**
   * A login whose callback cannot be written, with nothing else amiss: the client is told that it has
   * finished, and the stored session, still waiting for the same state, accepts the callback again.
   */
  lemma RefusedWriteRepeats(gw: Gateway, env: Inbound, now: Time, id: string, provider: string, cb: Callback)
    returns (w: World, v: Visit)
    requires Validated(gw.sessions) && provider in gw.logins.clients && 0 < now && id != "" && cb.state != ""
    requires env.readable && env.writable && env.cookie == id
    ensures w == LoggingIn(gw, env, now, id, cb.state, provider)
    ensures v == Visit(env.(writable := false), now, CallbackTo(cb))
    ensures AcceptedBy(gw, w, v, id) && ReplyTo(gw, w, v).Finished?
    ensures Visited(gw, w, v).records == w.records && AcceptedBy(gw, Visited(gw, w, v), v, id)
  {
    w, v := LoggingIn(gw, env, now, id, cb.state, provider), Visit(env.(writable := false), now, CallbackTo(cb));
    LoggingInAccepts(gw, env, v.env, now, id, provider, cb);
    LastProviderFinishes(gw, w, v, id);
    LiveCallback(gw, w, v, id);
    assert Visited(gw, w, v).records == w.records;
  }

  // ---- Callbacks as handlers ------------------------------------------------------------

  /** What a callback does with the session it got: edit it, and save it unless the callback failed. */
  function CallbackActions(e: Edit, saves: bool): seq<Action> {
    [DoGet, DoEdit(e)] + if saves then [DoSave] else []
  }

  lemma CallbackActionsHandled(scfg: Config, st: State, env: Inbound, now: Time, e: Edit, saves: bool)
    ensures
      var st2 := Acted(scfg, Acted(scfg, st, env, now, DoGet), env, now, DoEdit(e));
      Handled(scfg, st, env, now, CallbackActions(e, saves)) == if saves then Saved(scfg.evicts, st2, env, now) else st2
    ensures SessionLifetimes.Persists(CallbackActions(e, saves))
  {
    var tail := if saves then [DoSave] else [];
    var acts := CallbackActions(e, saves);
    var st1 := Acted(scfg, st, env, now, DoGet);
    var st2 := Acted(scfg, st1, env, now, DoEdit(e));
    assert acts[1..] == [DoEdit(e)] + tail && ([DoEdit(e)] + tail)[1..] == tail;
    assert Handled(scfg, st1, env, now, [DoEdit(e)] + tail) == Handled(scfg, st2, env, now, tail);
    assert SessionLifetimes.Persists(tail) && SessionLifetimes.Persists([DoEdit(e)] + tail);
    if saves {
      assert [DoSave][1..] == [];
      assert Handled(scfg, Acted(scfg, st2, env, now, DoSave), env, now, []) == Saved(scfg.evicts, st2, env, now);
    }
  }

  /**
   * To the session store an accepted or rejected callback on a session it knows is one more handler: it
   * gets, edits and saves that session, so the session lifetime and logout results cover it.
   */
  lemma CallbackIsAHandler(
    cfg: LoginConfig, scfg: Config, st: State, tokens: TokenRepos.Records, env: Inbound, now: Time, cb: Callback)
    requires !st.attached && cb.state != "" && Fetched(scfg.evicts, st.records, env, st.ctx, now).result.Ok?
    ensures
      var (l, reply) := CalledBack(cfg,
        Login(Fetched(scfg.evicts, st.records, env, st.ctx, now).result.value, tokens), cb);
      var acts := CallbackActions(Fields(l.session), !reply.Failed?);
      var h := Handled(scfg, st, env, now, acts);
      var o := CallbackServed(cfg, scfg.evicts, st, tokens, env, now, cb).state;
      SessionLifetimes.Persists(acts) && h.records == o.records && h.ctx == o.ctx
  {
    var l0 := Login(Fetched(scfg.evicts, st.records, env, st.ctx, now).result.value, tokens);
    var (l, reply) := CalledBack(cfg, l0, cb);
    CallbackOnlyEdits(cfg, l0, cb);
    CallbackActionsHandled(scfg, st, env, now, Fields(l.session), !reply.Failed?);
  }
}
