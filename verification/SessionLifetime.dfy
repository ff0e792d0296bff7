/** When exactly a session is accepted, over whole runs of requests, and that eviction does not show. */
module SessionLifetimes {
  import opened Prelude
  import opened Sessions
  import opened SessionLaws

  // ---- The rule, without any reference to the code --------------------------------------

  /**
   * A session born at `born` is good at `t` after accesses at the given times when no two consecutive
   * moments among birth, accesses and `t` are further apart than the idle TTL, and `t` is within the
   * maximum TTL (which counts only when positive).
   */
  ghost predicate Good(cfg: Config, born: Time, accesses: seq<Time>, t: Time) {
    var moments := [born] + accesses + [t];
    && (forall i :: 0 <= i <= |accesses| ==> moments[i + 1] - moments[i] <= cfg.idle * SECOND)
    && (0 < cfg.max ==> t <= born + cfg.max * SECOND)
  }

  predicate Sorted(ts: seq<Time>) {
    forall i, j :: 0 <= i < j < |ts| ==> ts[i] <= ts[j]
  }

  // ---- What the stored expiry is --------------------------------------------------------

  /** `min(t + Idle, born + Max)`: the expiry an accepted access at `t` leaves behind. */
  function Next(cfg: Config, born: Time, t: Time): Time {
    var cap := born + cfg.max * SECOND;
    if 0 < cfg.max && cap < t + cfg.idle * SECOND then cap else t + cfg.idle * SECOND
  }

  function Expiry(cfg: Config, born: Time, accesses: seq<Time>): Time {
    if accesses == [] then Next(cfg, born, born)
    else
      var n := |accesses| - 1;
      var e := Expiry(cfg, born, accesses[..n]);
      if accesses[n] <= e then Next(cfg, born, accesses[n]) else e
  }

  lemma {:induction false} GoodUntilExpiry(cfg: Config, born: Time, accesses: seq<Time>, t: Time)
    requires Validated(cfg) && Sorted([born] + accesses + [t])
    ensures Good(cfg, born, accesses, t) <==> t <= Expiry(cfg, born, accesses)
  {
    var moments := [born] + accesses + [t];
    if accesses == [] {
      assert moments == [born, t];
      assert Good(cfg, born, accesses, t) <==>
          t - born <= cfg.idle * SECOND && (0 < cfg.max ==> t <= born + cfg.max * SECOND) by {
        assert moments[1] - moments[0] == t - born;
      }
    } else {
      var n := |accesses| - 1;
      var before, last := accesses[..n], accesses[n];
      assert accesses == before + [last];
      var shorter := [born] + before + [last];
      assert moments == shorter + [t];
      assert forall i :: 0 <= i < |shorter| ==> shorter[i] == moments[i];
      assert Sorted(shorter);
      GoodUntilExpiry(cfg, born, before, last);
      assert moments[n + 1] == last && moments[n + 2] == t;
      assert last <= t;
      assert Good(cfg, born, accesses, t) <==>
        Good(cfg, born, before, last) && t - last <= cfg.idle * SECOND
          && (0 < cfg.max ==> t <= born + cfg.max * SECOND);
    }
  }

  // ---- Requests and accesses ------------------------------------------------------------

  /** The handler lets the touched session be saved: it does not switch to a new session or log out first. */
  predicate Persists(acts: seq<Action>) {
    acts == [] || acts[0].DoSave? || (!acts[0].DoCreate? && !acts[0].DoDelete? && Persists(acts[1..]))
  }

  /** The request would save the session it presents: its handler lets it, and the repository works. */
  predicate Saves(r: Request) {
    Persists(r.acts) && r.env.readable && r.env.writable
  }

  /** The access, if any, that a request makes to the session `sid`. */
  function AccessBy(sid: string, r: Request): seq<Time> {
    if r.env.cookie == sid && Saves(r) then [r.now] else []
  }

  /** When the session `sid` was presented by a request that would save it. */
  function Accesses(sid: string, reqs: seq<Request>): seq<Time> {
    if reqs == [] then []
    else
      var n := |reqs| - 1;
      Accesses(sid, reqs[..n]) + AccessBy(sid, reqs[n])
  }

  predicate NoDelete(acts: seq<Action>) {
    DoDelete !in acts
  }

  predicate SameTimes(a: Record, b: Record) {
    a.createdAt == b.createdAt && a.expiresAt == b.expiresAt && a.idle == b.idle && a.max == b.max
  }

  predicate Elsewhere(st: State, sid: string) {
    WellFiled(st.records) && Away(st.ctx, sid)
  }

  lemma ActedLeavesOthersAlone(cfg: Config, st: State, env: Inbound, now: Time, a: Action, sid: string)
    requires Elsewhere(st, sid) && sid != "" && env.cookie != sid && NoCreate([a], sid)
    ensures var st' := Acted(cfg, st, env, now, a);
      Elsewhere(st', sid) && Find(st'.records, sid) == Find(st.records, sid)
  {
    assert a in [a];
  }

  /** Requests that present another cookie leave the session alone. */
  lemma {:induction false} OthersLeaveAlone(
    cfg: Config, st: State, env: Inbound, now: Time, acts: seq<Action>, sid: string)
    requires Elsewhere(st, sid) && sid != "" && env.cookie != sid && NoCreate(acts, sid)
    ensures Find(Handled(cfg, st, env, now, acts).records, sid) == Find(st.records, sid)
    decreases |acts|
  {
    if acts != [] {
      ActedLeavesOthersAlone(cfg, st, env, now, acts[0], sid);
      OthersLeaveAlone(cfg, Acted(cfg, st, env, now, acts[0]), env, now, acts[1..], sid);
    }
  }

  /** The handler's context holds a valid session: the presented one, touched, or one created since. */
  predicate Serving(cfg: Config, st: State, now: Time, sid: string, touched: Record) {
    && WellFiled(st.records) && sid in st.records
    && st.ctx.Some? && !st.ctx.value.Expired(now)
    && (st.ctx.value.id == sid ==> SameTimes(st.ctx.value, touched))
  }

  lemma ActedWhileServing(cfg: Config, st: State, env: Inbound, now: Time, a: Action, sid: string, touched: Record)
    requires Validated(cfg) && env.cookie == sid && sid != "" && Serving(cfg, st, now, sid, touched)
    requires NoCreate([a], sid) && a != DoDelete
    ensures
      var st' := Acted(cfg, st, env, now, a);
      && Serving(cfg, st', now, sid, touched)
      && (st'.ctx.value.id == sid <==> st.ctx.value.id == sid && !a.DoCreate?)
      && SameTimes(st'.records[sid], if st.ctx.value.id == sid && a.DoSave? && env.writable then touched
        else st.records[sid])
  {
    assert a in [a];
  }

  /**
   * The presented session ends up with its touched expiry exactly when the handler and the repository let it be
   * saved.
   */
  lemma {:induction false} HandledWhileServing(
    cfg: Config, st: State, env: Inbound, now: Time, acts: seq<Action>, sid: string, touched: Record)
    requires Validated(cfg) && env.cookie == sid && sid != "" && Serving(cfg, st, now, sid, touched)
    requires NoCreate(acts, sid) && NoDelete(acts)
    ensures
      var after := Handled(cfg, st, env, now, acts + [DoSave]).records;
      sid in after && WellFiled(after) &&
      SameTimes(after[sid], if st.ctx.value.id == sid && Persists(acts) && env.writable then touched
        else st.records[sid])
    decreases |acts|
  {
    if acts == [] {
      assert acts + [DoSave] == [DoSave];
      ActedWhileServing(cfg, st, env, now, DoSave, sid, touched);
      var st' := Acted(cfg, st, env, now, DoSave);
      assert Handled(cfg, st', env, now, []) == st';
    } else {
      assert (acts + [DoSave])[1..] == acts[1..] + [DoSave];
      ActedWhileServing(cfg, st, env, now, acts[0], sid, touched);
      HandledWhileServing(cfg, Acted(cfg, st, env, now, acts[0]), env, now, acts[1..], sid, touched);
    }
  }

  /** A stored session of this configuration, born at `born`. */
  predicate Stored(cfg: Config, records: Records, sid: string, born: Time, expiresAt: Time) {
    && WellFiled(records) && sid in records
    && records[sid].createdAt == born && records[sid].idle == cfg.idle && records[sid].max == cfg.max
    && records[sid].expiresAt == expiresAt
  }

  lemma {:induction false} HandledUnaccepted(
    cfg: Config, st: State, env: Inbound, now: Time, acts: seq<Action>, sid: string)
    requires sid != "" && Lifeless(st, sid, now) && sid in st.records && NoCreate(acts, sid) && NoDelete(acts)
    ensures var st' := Handled(cfg, st, env, now, acts); sid in st'.records && st'.records[sid] == st.records[sid]
    decreases |acts|
  {
    if acts != [] {
      ActedLeavesDead(cfg, st, env, now, acts[0], sid);
      HandledUnaccepted(cfg, Acted(cfg, st, env, now, acts[0]), env, now, acts[1..], sid);
    }
  }

  lemma ActedUnread(cfg: Config, st: State, env: Inbound, now: Time, a: Action, sid: string)
    requires sid != "" && !env.readable && env.cookie == sid && Elsewhere(st, sid) && sid in st.records
    requires NoCreate([a], sid) && a != DoDelete
    ensures var st' := Acted(cfg, st, env, now, a);
      Elsewhere(st', sid) && sid in st'.records && st'.records[sid] == st.records[sid]
  {
    assert a in [a];
  }

  /** A request the repository does not let read its session leaves the session alone. */
  lemma {:induction false} HandledUnread(
    cfg: Config, st: State, env: Inbound, now: Time, acts: seq<Action>, sid: string)
    requires sid != "" && !env.readable && env.cookie == sid && Elsewhere(st, sid) && sid in st.records
    requires NoCreate(acts, sid) && NoDelete(acts)
    ensures var st' := Handled(cfg, st, env, now, acts); sid in st'.records && st'.records[sid] == st.records[sid]
    decreases |acts|
  {
    if acts != [] {
      ActedUnread(cfg, st, env, now, acts[0], sid);
      HandledUnread(cfg, Acted(cfg, st, env, now, acts[0]), env, now, acts[1..], sid);
    }
  }

  /** One request, seen from a stored session: accepted until its expiry, and extended if saved. */
  lemma OneRequest(cfg: Config, records: Records, r: Request, sid: string, born: Time, expiresAt: Time)
    requires Validated(cfg) && sid != "" && 0 < born <= r.now && Stored(cfg, records, sid, born, expiresAt)
    requires 0 < expiresAt && (0 < cfg.max ==> expiresAt <= born + cfg.max * SECOND)
    requires NoCreate(r.acts, sid) && (r.env.cookie == sid ==> NoDelete(r.acts))
    ensures r.env.cookie == sid ==> (Accepted(cfg, records, r) <==> r.env.readable && r.now <= expiresAt)
    ensures Stored(cfg, Served(cfg, records, r), sid, born,
                   if r.env.cookie == sid && Saves(r) && r.now <= expiresAt then Next(cfg, born, r.now) else expiresAt)
  {
    var st := Entered(cfg, records, r);
    SavedIsActed(cfg, st, r.env, r.now, r.acts);
    if r.env.cookie != sid {
      HandledKeepsFiling(cfg, st, r.env, r.now, r.acts + [DoSave]);
      OthersLeaveAlone(cfg, st, r.env, r.now, r.acts + [DoSave], sid);
      assert sid in Served(cfg, records, r);
    } else if !r.env.readable {
      HandledUnread(cfg, st, r.env, r.now, r.acts + [DoSave], sid);
      HandledKeepsFiling(cfg, st, r.env, r.now, r.acts + [DoSave]);
    } else if r.now <= expiresAt {
      HandledWhileServing(cfg, st, r.env, r.now, r.acts, sid, records[sid].Touched(r.now));
    } else {
      HandledUnaccepted(cfg, st, r.env, r.now, r.acts + [DoSave], sid);
      HandledKeepsFiling(cfg, st, r.env, r.now, r.acts + [DoSave]);
    }
  }

  // ---- Whole runs -----------------------------------------------------------------------

  /** The request comes after `born`, does not log the session out, and does not draw its ID again. */
  predicate Regular(r: Request, sid: string, born: Time) {
    born <= r.now && NoCreate(r.acts, sid) && (r.env.cookie == sid ==> NoDelete(r.acts))
  }

  /** A run of regular requests from a store that holds the session `sid` as it was created at `born`. */
  predicate LifeOf(cfg: Config, states: seq<Records>, reqs: seq<Request>, sid: string, born: Time) {
    && Validated(cfg) && sid != "" && 0 < born
    && IsHistory(cfg, states, reqs)
    && (forall i :: 0 <= i < |reqs| ==> Regular(reqs[i], sid, born))
    && Stored(cfg, states[0], sid, born, Made(cfg.idle, cfg.max, sid, born).expiresAt)
  }

  lemma AccessesStep(sid: string, reqs: seq<Request>, n: nat)
    requires 0 < n <= |reqs|
    ensures Accesses(sid, reqs[..n]) == Accesses(sid, reqs[..n - 1]) + AccessBy(sid, reqs[n - 1])
  {
    assert reqs[..n][..n - 1] == reqs[..n - 1];
  }

  lemma ExpiryStep(cfg: Config, born: Time, before: seq<Time>, t: Time)
    ensures var e := Expiry(cfg, born, before);
      Expiry(cfg, born, before + [t]) == if t <= e then Next(cfg, born, t) else e
  {
    assert (before + [t])[..|before|] == before;
  }

  predicate StoredUntil(cfg: Config, records: Records, sid: string, born: Time, e: Time) {
    Stored(cfg, records, sid, born, e) && 0 < e && (0 < cfg.max ==> e <= born + cfg.max * SECOND)
  }

  lemma OneRequestExpiry(cfg: Config, records: Records, r: Request, sid: string, born: Time, before: seq<Time>)
    requires Validated(cfg) && sid != "" && 0 < born && Regular(r, sid, born)
    requires StoredUntil(cfg, records, sid, born, Expiry(cfg, born, before))
    ensures StoredUntil(cfg, Served(cfg, records, r), sid, born, Expiry(cfg, born, before + AccessBy(sid, r)))
  {
    var e := Expiry(cfg, born, before);
    ExpiryStep(cfg, born, before, r.now);
    OneRequest(cfg, records, r, sid, born, e);
    assert before + [] == before;
  }

  lemma {:induction false} ExpiryAlongRun(
    cfg: Config, states: seq<Records>, reqs: seq<Request>, sid: string, born: Time, n: nat)
    requires LifeOf(cfg, states, reqs, sid, born) && cfg.max != 0 && n <= |reqs|
    ensures StoredUntil(cfg, states[n], sid, born, Expiry(cfg, born, Accesses(sid, reqs[..n])))
  {
    if n > 0 {
      ExpiryAlongRun(cfg, states, reqs, sid, born, n - 1);
      AccessesStep(sid, reqs, n);
      assert Regular(reqs[n - 1], sid, born);
      OneRequestExpiry(cfg, states[n - 1], reqs[n - 1], sid, born, Accesses(sid, reqs[..n - 1]));
    }
  }

  lemma {:induction false} AccessesInOrder(sid: string, reqs: seq<Request>, n: nat, t: Time)
    requires InOrder(reqs) && n <= |reqs| && forall i :: 0 <= i < n ==> reqs[i].now <= t
    ensures Sorted(Accesses(sid, reqs[..n]) + [t])
  {
    if n > 0 {
      AccessesStep(sid, reqs, n);
      var before := Accesses(sid, reqs[..n - 1]);
      if Accesses(sid, reqs[..n]) == before {
        AccessesInOrder(sid, reqs, n - 1, t);
      } else {
        AccessesInOrder(sid, reqs, n - 1, reqs[n - 1].now);
        var shorter := before + [reqs[n - 1].now];
        assert Accesses(sid, reqs[..n]) == shorter;
        assert forall i :: 0 <= i < |shorter| ==> shorter[i] <= shorter[|shorter| - 1] <= t;
      }
    }
  }

  lemma {:induction false} AccessesAfterBirth(sid: string, reqs: seq<Request>, born: Time, n: nat)
    requires n <= |reqs| && forall i :: 0 <= i < |reqs| ==> Regular(reqs[i], sid, born)
    ensures forall i :: 0 <= i < |Accesses(sid, reqs[..n])| ==> born <= Accesses(sid, reqs[..n])[i]
  {
    if n > 0 {
      AccessesStep(sid, reqs, n);
      AccessesAfterBirth(sid, reqs, born, n - 1);
    }
  }

  lemma RuleAtRequest(cfg: Config, reqs: seq<Request>, sid: string, born: Time, n: nat)
    requires Validated(cfg) && InOrder(reqs) && n < |reqs| && forall i :: 0 <= i < |reqs| ==>
        Regular(reqs[i], sid, born)
    ensures var before := Accesses(sid, reqs[..n]);
      Good(cfg, born, before, reqs[n].now) <==> reqs[n].now <= Expiry(cfg, born, before)
  {
    var before := Accesses(sid, reqs[..n]);
    AccessesInOrder(sid, reqs, n, reqs[n].now);
    AccessesAfterBirth(sid, reqs, born, n);
    assert Regular(reqs[n], sid, born);
    assert [born] + before + [reqs[n].now] == [born] + (before + [reqs[n].now]);
    GoodUntilExpiry(cfg, born, before, reqs[n].now);
  }

  /**
   * Session lifetime: a session created at `born` is accepted at a request's time if and only if every
   * gap between consecutive accesses, counting birth and now, is at most the idle TTL and the maximum
   * TTL has not passed, given that the repository answers; whatever else is served in between, whichever
   * reads and writes fail, and whether or not the store evicts. An accepted access that is saved leaves
   * the expiry min(now + Idle, born + Max).
   */
  lemma SessionLifetime(cfg: Config, states: seq<Records>, reqs: seq<Request>, sid: string, born: Time, n: nat)
    requires LifeOf(cfg, states, reqs, sid, born) && cfg.max != 0 && InOrder(reqs) && n < |reqs|
    requires reqs[n].env.cookie == sid
    ensures Accepted(cfg, states[n], reqs[n]) <==>
            reqs[n].env.readable && Good(cfg, born, Accesses(sid, reqs[..n]), reqs[n].now)
    ensures Accepted(cfg, states[n], reqs[n]) && Saves(reqs[n]) ==>
              Stored(cfg, states[n + 1], sid, born, Next(cfg, born, reqs[n].now))
  {
    var before := Accesses(sid, reqs[..n]);
    assert Regular(reqs[n], sid, born);
    ExpiryAlongRun(cfg, states, reqs, sid, born, n);
    OneRequest(cfg, states[n], reqs[n], sid, born, Expiry(cfg, born, before));
    RuleAtRequest(cfg, reqs, sid, born, n);
  }

  lemma {:induction false} CreatedIsSaved(
    cfg: Config, st: State, env: Inbound, now: Time, acts: seq<Action>, sid: string, made: Record)
    requires WellFiled(st.records) && sid != "" && forall a :: a in acts ==> a.DoGet? || a.DoSave? || a.DoEdit?
    requires env.writable && st.ctx.Some? && st.ctx.value.id == sid && SameTimes(st.ctx.value, made)
        && !made.Expired(now)
    ensures var after := Saved(cfg.evicts, Handled(cfg, st, env, now, acts), env, now).records;
      WellFiled(after) && sid in after && SameTimes(after[sid], made)
    decreases |acts|
  {
    if acts != [] {
      assert acts[0] in acts;
      CreatedIsSaved(cfg, Acted(cfg, st, env, now, acts[0]), env, now, acts[1..], sid, made);
    }
  }

  /** A request that creates a session leaves it stored with the expiry of a new session. */
  lemma CreatedIsStored(cfg: Config, records: Records, r: Request, sid: string)
    requires Validated(cfg) && WellFiled(records) && sid != "" && 0 < r.now
    requires r.acts != [] && r.acts[0] == DoCreate(sid) && r.env.writable
    requires forall a :: a in r.acts[1..] ==> a.DoGet? || a.DoSave? || a.DoEdit?
    ensures Stored(cfg, Served(cfg, records, r), sid, r.now, Made(cfg.idle, cfg.max, sid, r.now).expiresAt)
  {
    var st := Acted(cfg, Entered(cfg, records, r), r.env, r.now, r.acts[0]);
    CreatedIsSaved(cfg, st, r.env, r.now, r.acts[1..], sid, Made(cfg.idle, cfg.max, sid, r.now));
  }

  /**
   * `max != 0` cannot be dropped from the lifetime rule: with a maximum TTL of 0, which validation
   * admits, a new session expires at the instant it is born.
   */
  lemma StillbornWithoutMax(cfg: Config, records: Records, r: Request, sid: string, born: Time)
    requires Validated(cfg) && cfg.max == 0 && sid != "" && 0 < born <= r.now
    requires Stored(cfg, records, sid, born, Made(cfg.idle, cfg.max, sid, born).expiresAt)
    requires r.env.cookie == sid
    ensures Accepted(cfg, records, r) <==> r.now == born && r.env.readable
    ensures Good(cfg, born, [], r.now) <==> r.now - born <= cfg.idle * SECOND
  {
    var moments := [born] + [] + [r.now];
    assert moments[0] == born && moments[1] == r.now;
  }

  /**
   * Nor is it even stored, unless the clock stands still: the saving lookup reads the clock again, at
   * `later`, and passes an expired session over.
   */
  lemma StillbornIsNotSaved(cfg: Config, records: Records, env: Inbound, sid: string, born: Time, later: Time)
    requires Validated(cfg) && cfg.max == 0 && WellFiled(records) && sid != "" && 0 < born <= later
    requires sid !in records && env.writable
    ensures
      var made := Made(cfg.idle, cfg.max, sid, born);
      sid in Saved(cfg.evicts, State(records, Some(made), true), env, later).records <==> later == born
  {
  }

  // ---- Eviction -------------------------------------------------------------------------

  /** Sessions of a validated configuration carry real dates. */
  predicate Dated(r: Record) {
    0 < r.createdAt && 0 < r.expiresAt && 0 < r.idle
  }

  predicate AllDated(records: Records, ctx: Option<Record>) {
    && (forall k :: k in records ==> Dated(records[k]))
    && (ctx.Some? && ctx.value.id != "" ==> Dated(ctx.value))
  }

  /** An evicting store differs only in the name of the error. */
  lemma FetchIgnoresEviction(records: Records, env: Inbound, ctx: Option<Record>, now: Time)
    requires AllDated(records, ctx) && 0 < now
    ensures
      var a, b := Fetched(true, records, env, ctx, now), Fetched(false, records, env, ctx, now);
      && (a.result.Ok? <==> b.result.Ok?) && (a.result.Ok? ==> a == b)
      && a.(result := b.result) == b
      && AllDated(records, b.ctx) && (b.result.Ok? && b.result.value.id != "" ==> Dated(b.result.value))
  {
  }

  lemma ActedIgnoresEviction(cfg: Config, st: State, env: Inbound, now: Time, a: Action)
    requires Validated(cfg) && AllDated(st.records, st.ctx) && 0 < now
    ensures var st' := Acted(cfg, st, env, now, a);
      && st' == Acted(cfg.(evicts := true), st, env, now, a) == Acted(cfg.(evicts := false), st, env, now, a)
      && AllDated(st'.records, st'.ctx)
  {
    FetchIgnoresEviction(st.records, env, st.ctx, now);
  }

  lemma {:induction false} HandledIgnoresEviction(
    cfg: Config, st: State, env: Inbound, now: Time, acts: seq<Action>)
    requires Validated(cfg) && AllDated(st.records, st.ctx) && 0 < now
    ensures Handled(cfg.(evicts := true), st, env, now, acts) == Handled(cfg.(evicts := false), st, env, now, acts)
    ensures var st' := Handled(cfg, st, env, now, acts); AllDated(st'.records, st'.ctx)
    decreases |acts|
  {
    if acts != [] {
      ActedIgnoresEviction(cfg, st, env, now, acts[0]);
      HandledIgnoresEviction(cfg, Acted(cfg, st, env, now, acts[0]), env, now, acts[1..]);
    }
  }

  lemma ServedIgnoresEviction(cfg: Config, records: Records, r: Request)
    requires Validated(cfg) && AllDated(records, None) && 0 < r.now
    ensures Served(cfg.(evicts := true), records, r) == Served(cfg.(evicts := false), records, r)
    ensures Accepted(cfg.(evicts := true), records, r) == Accepted(cfg.(evicts := false), records, r)
    ensures AllDated(Served(cfg, records, r), None)
  {
    FetchIgnoresEviction(records, r.env, None, r.now);
    var st := Entered(cfg, records, r);
    assert st == Entered(cfg.(evicts := true), records, r) == Entered(cfg.(evicts := false), records, r);
    HandledIgnoresEviction(cfg, st, r.env, r.now, r.acts);
    var st' := Handled(cfg, st, r.env, r.now, r.acts);
    assert st' == Handled(cfg.(evicts := true), st, r.env, r.now, r.acts);
    FetchIgnoresEviction(st'.records, r.env, st'.ctx, r.now);
  }

  /** Over whole runs an evicting session store accepts the same requests as one that never evicts. */
  lemma {:induction false} EvictionUnobservable(
    cfg: Config, states: seq<Records>, states': seq<Records>, reqs: seq<Request>, n: nat)
    requires Validated(cfg) && IsHistory(cfg.(evicts := true), states, reqs)
        && IsHistory(cfg.(evicts := false), states', reqs)
    requires states[0] == states'[0] && AllDated(states[0], None) && n < |reqs| && forall r :: r in reqs ==> 0 < r.now
    ensures states[n] == states'[n] && AllDated(states[n], None)
    ensures Accepted(cfg.(evicts := true), states[n], reqs[n]) <==> Accepted(cfg.(evicts := false), states'[n], reqs[n])
  {
    if n > 0 {
      EvictionUnobservable(cfg, states, states', reqs, n - 1);
      ServedIgnoresEviction(cfg, states[n - 1], reqs[n - 1]);
      ServedIgnoresEviction(cfg.(evicts := true), states[n - 1], reqs[n - 1]);
    }
    ServedIgnoresEviction(cfg, states[n], reqs[n]);
  }
}
