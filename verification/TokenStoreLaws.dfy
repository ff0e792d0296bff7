/** What undisturbed calls promise: eviction makes no difference, and refreshes are rare. */
module TokenStoreLaws {
  import opened Prelude
  import opened Tokens
  import opened RefreshCall
  import opened TokenRepos
  import opened TokenStores

  /** A provider refuses refresh tokens that have expired by the time it is asked. */
  ghost predicate RefusesExpired(env: CallEnv) {
    forall rt: AuthToken :: rt.Expired(env.clock(EXCHANGE)) ==> env.provider(rt).Refused?
  }

  /** Over an evicting store a refresh receives, and writes, what it does over one that never evicts. */
  lemma RefreshIgnoresEviction(cfg: Config, records: Records, env: CallEnv)
    requires env.Sound() && RefusesExpired(env)
    ensures Refresh(cfg, records, true, env) == Refresh(cfg, records, false, env)
  {
    var rt := Look(records, false, RefreshType, cfg.tokenID, env.clock(7));
    if rt.Some? && Evictable(rt.value, env.clock(7)) {
      assert env.clock(7) <= env.clock(EXCHANGE);
      assert rt.value.Expired(env.clock(EXCHANGE));
    }
  }

  lemma ReceivedIDs(cfg: Config, records: Records, evicts: bool, env: CallEnv)
    requires Received(cfg, records, evicts, env).Some?
    ensures
      var issued := Received(cfg, records, evicts, env).value;
      && issued.access.id == issued.refresh.id == cfg.tokenID && issued.access.typ == AccessType
      && (issued.idToken.id != "" ==> issued.idToken.id == cfg.tokenID && issued.idToken.typ == IdType)
  {
  }

  /** The slot a call serves, after its refresh: untouched, or just written with the received token. */
  lemma SlotAfterRefresh(cfg: Config, kind: Kind, records: Records, evicts: bool, env: CallEnv)
    requires Refresh(cfg, records, evicts, env).issued.None?
    ensures
      var key := TokenKey(kind.Slot(), cfg.tokenID);
      var after := Refresh(cfg, records, evicts, env).records;
      var issued := Received(cfg, records, evicts, env);
      Find(after, key) ==
        if kind.FreshAccess? && issued.Some? && CanStore(issued.value.access, AccessType, env.up(5))
        then Some(issued.value.access) else Find(records, key)
  {
    KeySpacesDisjoint(AccessType, cfg.tokenID, RefreshType, cfg.tokenID);
    KeySpacesDisjoint(IdType, cfg.tokenID, RefreshType, cfg.tokenID);
    KeySpacesDisjoint(IdType, cfg.tokenID, AccessType, cfg.tokenID);
    var issued := Received(cfg, records, evicts, env);
    if issued.Some? {
      ReceivedIDs(cfg, records, evicts, env);
      var typ := issued.value.refresh.typ;
      if typ == RefreshType {
        KeySpacesDisjoint(AccessType, cfg.tokenID, RefreshType, issued.value.refresh.id);
        KeySpacesDisjoint(IdType, cfg.tokenID, RefreshType, issued.value.refresh.id);
      }
    }
  }

  /**
   * The one way an evicting store shows: the refresh stores its new access token but then fails on a
   * later write, that new token is already past its deadline at the reload, and the old one, though
   * due for a refresh, is still valid at the final check.
   */
  predicate ReloadLosesNewToken(cfg: Config, records: Records, env: CallEnv) {
    var old' := Look(records, true, AccessType, cfg.tokenID, env.clock(9));
    var issued := Received(cfg, records, true, env);
    && env.up(9) && old'.Some? && old'.value.ExpiresSoon(env.clock(8), cfg.margin) && !old'.value.Expired(env.clock(1))
    && issued.Some? && CanStore(issued.value.access, AccessType, env.up(5))
    && (|| !CanStore(issued.value.refresh, RefreshType, env.up(4))
        || (issued.value.idToken.id != "" && !CanStore(issued.value.idToken, IdType, env.up(3))))
    && env.up(2) && Evictable(issued.value.access, env.clock(2))
  }

  lemma ClockOrder(env: CallEnv)
    requires env.Sound()
    ensures SECOND < env.clock(9) <= env.clock(8) <= env.clock(2) <= env.clock(1)
  {
  }

  /** `GetFreshIDToken` behaves the same over an evicting store as over one that never evicts. */
  lemma EvictionUnobservableForId(cfg: Config, records: Records, env: CallEnv)
    requires 0 <= cfg.margin && env.Sound() && RefusesExpired(env)
    ensures Call(cfg, FreshId, records, true, env) == Call(cfg, FreshId, records, false, env)
  {
    RefreshIgnoresEviction(cfg, records, env);
    ClockOrder(env);
    if Refresh(cfg, records, true, env).issued.None? {
      SlotAfterRefresh(cfg, FreshId, records, true, env);
    }
  }

  lemma EffectIgnoresEviction(cfg: Config, kind: Kind, records: Records, env: CallEnv)
    requires 0 <= cfg.margin && env.Sound() && RefusesExpired(env)
    ensures Call(cfg, kind, records, true, env).records == Call(cfg, kind, records, false, env).records
    ensures Call(cfg, kind, records, true, env).refreshed == Call(cfg, kind, records, false, env).refreshed
  {
    RefreshIgnoresEviction(cfg, records, env);
    ClockOrder(env);
  }

  /**
   * `GetFreshAccessToken` returns the same over an evicting store as over one that never evicts,
   * except in the one case above; it leaves the same records always.
   */
  lemma EvictionUnobservableForAccess(cfg: Config, records: Records, env: CallEnv)
    requires 0 <= cfg.margin && env.Sound() && RefusesExpired(env)
    ensures Call(cfg, FreshAccess, records, true, env).records == Call(cfg, FreshAccess, records, false, env).records
    ensures Call(cfg, FreshAccess, records, true, env).refreshed ==
        Call(cfg, FreshAccess, records, false, env).refreshed
    ensures Call(cfg, FreshAccess, records, true, env).result == Call(cfg, FreshAccess, records, false, env).result
            <==> !ReloadLosesNewToken(cfg, records, env)
  {
    EffectIgnoresEviction(cfg, FreshAccess, records, env);
    RefreshIgnoresEviction(cfg, records, env);
    ClockOrder(env);
    if Refresh(cfg, records, true, env).issued.None? {
      SlotAfterRefresh(cfg, FreshAccess, records, true, env);
    }
  }

  /** When Redis takes every write the exception cannot arise. */
  lemma NoFailedWriteNoLoss(cfg: Config, records: Records, env: CallEnv)
    requires WellFiled(records) && env.up(3) && env.up(4)
    ensures !ReloadLosesNewToken(cfg, records, env)
  {
    var rt := Look(records, true, RefreshType, cfg.tokenID, env.clock(7));
    if Received(cfg, records, true, env).Some? {
      ReceivedIDs(cfg, records, true, env);
      KeySplits(Prefix(RefreshType), cfg.tokenID, Prefix(rt.value.typ), rt.value.id);
    }
  }

  /** No access token issued during the call can be evicted by the time of the reload. */
  ghost predicate IssuedOutlastReload(env: CallEnv) {
    forall rt: AuthToken :: env.provider(rt).Granted? ==>
      var e := env.provider(rt).grant.accessExpiry; e == 0 || env.clock(2) <= Deadline(e)
  }

  /** Nor can it when issued access tokens last that long, whichever writes fail. */
  lemma LastingTokensNoLoss(cfg: Config, records: Records, env: CallEnv)
    requires IssuedOutlastReload(env)
    ensures !ReloadLosesNewToken(cfg, records, env)
  {
    var rt := Look(records, true, RefreshType, cfg.tokenID, env.clock(7));
    if rt.Some? && env.provider(rt.value).Granted? {
      assert env.provider(rt.value).grant.accessExpiry == 0
        || env.clock(2) <= Deadline(env.provider(rt.value).grant.accessExpiry);
    }
  }

  /**
   * The exception at work: a margin of three minutes, an access token with 100 seconds to go, and a
   * provider whose new one expired 50 seconds ago. The refresh token write fails, and the old access
   * token is returned if Redis evicts the new one, while an error is if it does not.
   */
  lemma EvictionCanShow() returns (cfg: Config, records: Records, env: CallEnv)
    ensures 0 <= cfg.margin && WellFiled(records) && env.Sound() && RefusesExpired(env)
    ensures Call(cfg, FreshAccess, records, true, env).result.Ok?
    ensures Call(cfg, FreshAccess, records, false, env).result == Err(TokenExpired)
  {
    var now := 100 * SECOND;
    var access := AuthToken("id", "a", 200 * SECOND, "", "", "renku", AccessType);
    var refresh := AuthToken("id", "r", 0, "", "", "renku", RefreshType);
    var grant := Grant("u", "b", 50 * SECOND, "s", 0, None);
    cfg := Config("id", 180 * SECOND, map["renku" := Client("renku", "")]);
    records := Put(Put(map[], access), refresh);
    env := CallEnv(_ => now, i => i != 4, (rt: AuthToken) => if rt.Expired(now) then Refused else Granted(grant));
    KeySpacesDisjoint(AccessType, "id", RefreshType, "id");
    assert Look(records, true, AccessType, "id", now) == Some(access) == Look(records, false, AccessType, "id", now);
    assert Look(records, true, RefreshType, "id", now) == Some(refresh);
    assert ReloadLosesNewToken(cfg, records, env);
    EvictionUnobservableForAccess(cfg, records, env);
  }

  datatype Request = Request(tokenID: string, kind: Kind, env: CallEnv)

  /** The answers to a sequence of undisturbed calls, on any token IDs. */
  function Answers(margin: int, clients: ClientStore, records: Records, evicts: bool, reqs: seq<Request>)
    : seq<Result<AuthToken, CallError>>
    decreases |reqs|
  {
    if reqs == [] then []
    else
      var o := Call(Config(reqs[0].tokenID, margin, clients), reqs[0].kind, records, evicts, reqs[0].env);
      [o.result] + Answers(margin, clients, o.records, evicts, reqs[1..])
  }

  lemma WritesKeepFiling(issued: AuthTokenSet, records: Records, up: nat -> bool)
    requires WellFiled(records)
    ensures WellFiled(WriteAll(issued, records, up).records)
  {
  }

  lemma CallKeepsFiling(cfg: Config, kind: Kind, records: Records, evicts: bool, env: CallEnv)
    requires WellFiled(records)
    ensures WellFiled(Call(cfg, kind, records, evicts, env).records)
  {
    var issued := Received(cfg, records, evicts, env);
    if issued.Some? {
      WritesKeepFiling(issued.value, records, env.up);
    }
    assert WellFiled(Refresh(cfg, records, evicts, env).records);
  }

  /** A provider that refuses expired tokens, and either the last two writes taken or tokens that last. */
  ghost predicate Calm(env: CallEnv) {
    env.Sound() && RefusesExpired(env) && ((env.up(3) && env.up(4)) || IssuedOutlastReload(env))
  }

  lemma SameEitherWay(cfg: Config, kind: Kind, records: Records, env: CallEnv)
    requires 0 <= cfg.margin && WellFiled(records) && Calm(env)
    ensures Call(cfg, kind, records, true, env) == Call(cfg, kind, records, false, env)
  {
    if IssuedOutlastReload(env) {
      LastingTokensNoLoss(cfg, records, env);
    } else {
      NoFailedWriteNoLoss(cfg, records, env);
    }
    match kind
    case FreshAccess => EvictionUnobservableForAccess(cfg, records, env);
    case FreshId => EvictionUnobservableForId(cfg, records, env);
  }

  /**
   * Over whole runs of such calls, on any token IDs, nobody can tell an evicting store from one that
   * never evicts.
   */
  lemma {:induction false} EvictionUnobservable(margin: int, clients: ClientStore, records: Records, reqs: seq<Request>)
    requires 0 <= margin && WellFiled(records)
    requires forall r :: r in reqs ==> Calm(r.env)
    ensures Answers(margin, clients, records, true, reqs) == Answers(margin, clients, records, false, reqs)
    decreases |reqs|
  {
    if reqs != [] {
      var r := reqs[0];
      var cfg := Config(r.tokenID, margin, clients);
      SameEitherWay(cfg, r.kind, records, r.env);
      CallKeepsFiling(cfg, r.kind, records, true, r.env);
      EvictionUnobservable(margin, clients, Call(cfg, r.kind, records, true, r.env).records, reqs[1..]);
    }
  }

  // ---- How often an access token is refreshed -------------------------------------------

  /** A successful refresh leaves its access token in the slot. */
  lemma RefreshStores(cfg: Config, records: Records, evicts: bool, env: CallEnv)
    requires Refresh(cfg, records, evicts, env).issued.Some?
    ensures
      var key := TokenKey(AccessType, cfg.tokenID);
      var after := Refresh(cfg, records, evicts, env).records;
      Received(cfg, records, evicts, env).Some? && key in after
      && after[key] == Received(cfg, records, evicts, env).value.access
  {
    ReceivedIDs(cfg, records, evicts, env);
    KeySpacesDisjoint(IdType, cfg.tokenID, AccessType, cfg.tokenID);
    KeySpacesDisjoint(RefreshType, cfg.tokenID, AccessType, cfg.tokenID);
  }

  lemma NotDueCall(cfg: Config, records: Records, evicts: bool, env: CallEnv)
    requires 0 <= cfg.margin && env.Sound() && env.up(9)
    requires var key := TokenKey(AccessType, cfg.tokenID);
      key in records && !records[key].ExpiresSoon(env.clock(8), cfg.margin)
    ensures
      var stored := records[TokenKey(AccessType, cfg.tokenID)];
      Call(cfg, FreshAccess, records, evicts, env) == Outcome(Checked(stored, env.clock(1)), records, false)
  {
    assert env.clock(9) <= env.clock(8);
  }

  /** The records after a sequence of `GetFreshAccessToken` calls on one ID. */
  function RecordsAfter(cfg: Config, records: Records, evicts: bool, envs: seq<CallEnv>): Records
    decreases |envs|
  {
    if envs == [] then records
    else RecordsAfter(cfg, Call(cfg, FreshAccess, records, evicts, envs[0]).records, evicts, envs[1..])
  }

  /**
   * Until the stored token is due, calls neither refresh nor change anything: after any sequence of
   * them, the records are the same and the next call, if it is not due either, returns that token.
   */
  lemma {:induction false} NotDueIsReturnedUnchanged(
    cfg: Config, records: Records, evicts: bool, envs: seq<CallEnv>, next: CallEnv)
    requires 0 <= cfg.margin && TokenKey(AccessType, cfg.tokenID) in records
    requires forall env :: env in envs + [next] ==>
      env.Sound() && env.up(9) && !records[TokenKey(AccessType, cfg.tokenID)].ExpiresSoon(env.clock(8), cfg.margin)
    ensures RecordsAfter(cfg, records, evicts, envs) == records
    ensures
      Call(cfg, FreshAccess, RecordsAfter(cfg, records, evicts, envs), evicts, next) ==
      Outcome(Checked(records[TokenKey(AccessType, cfg.tokenID)], next.clock(1)), records, false)
    decreases |envs|
  {
    assert next in envs + [next];
    NotDueCall(cfg, records, evicts, next);
    if envs != [] {
      assert envs[0] in envs + [next];
      NotDueCall(cfg, records, evicts, envs[0]);
      assert forall env :: env in envs[1..] + [next] ==> env in envs + [next];
      NotDueIsReturnedUnchanged(cfg, records, evicts, envs[1..], next);
    }
  }

  /**
   * In particular between refreshes: the access token a successful refresh brought is what every later
   * call returns, as long as they come before it is due, and nothing changes in between.
   */
  lemma BetweenRefreshes(cfg: Config, records: Records, evicts: bool, first: CallEnv, envs: seq<CallEnv>, next: CallEnv)
    requires 0 <= cfg.margin && Call(cfg, FreshAccess, records, evicts, first).refreshed
    requires var token := Received(cfg, records, evicts, first).value.access;
      forall env :: env in envs + [next] ==> env.Sound() && env.up(9) && !token.ExpiresSoon(env.clock(8), cfg.margin)
    ensures
      var token := Received(cfg, records, evicts, first).value.access;
      var after := Call(cfg, FreshAccess, records, evicts, first).records;
      && RecordsAfter(cfg, records, evicts, [first] + envs) == after
      && Call(cfg, FreshAccess, after, evicts, next) == Outcome(Checked(token, next.clock(1)), after, false)
  {
    var token := Received(cfg, records, evicts, first).value.access;
    var after := Call(cfg, FreshAccess, records, evicts, first).records;
    RefreshStores(cfg, records, evicts, first);
    assert ([first] + envs)[1..] == envs;
    NotDueIsReturnedUnchanged(cfg, after, evicts, envs, next);
  }

  /** Every access token the provider issues lives at least `life` from its exchange. */
  ghost predicate IssuesFor(env: CallEnv, life: int) {
    forall rt: AuthToken :: env.provider(rt).Granted? ==>
      var e := env.provider(rt).grant.accessExpiry; e == 0 || env.clock(EXCHANGE) + life <= e
  }

  /** Every call reads its clock in order, and every access token issued to it lives at least `life`. */
  ghost predicate AllIssueFor(envs: seq<CallEnv>, life: int) {
    forall i :: 0 <= i < |envs| ==> envs[i].Sound() && IssuesFor(envs[i], life)
  }

  /** When, in a sequence of `GetFreshAccessToken` calls on one ID, a refresh succeeded: the time of its exchange. */
  function RefreshTimes(cfg: Config, records: Records, evicts: bool, envs: seq<CallEnv>): seq<Time>
    decreases |envs|
  {
    if envs == [] then []
    else
      var o := Call(cfg, FreshAccess, records, evicts, envs[0]);
      (if o.refreshed then [envs[0].clock(EXCHANGE)] else []) + RefreshTimes(cfg, o.records, evicts, envs[1..])
  }

  /** The stored access token is good until `until`. */
  predicate LastsUntil(cfg: Config, records: Records, until: Time) {
    var key := TokenKey(AccessType, cfg.tokenID);
    key in records && (records[key].expiresAt == 0 || until <= records[key].expiresAt)
  }

  /** A refresh leaves an access token that lasts as long as the old one, and longer if it wrote one. */
  lemma RefreshExtends(cfg: Config, records: Records, evicts: bool, env: CallEnv, life: int, until: Time)
    requires IssuesFor(env, life) && until <= env.clock(EXCHANGE) + life
    ensures
      var x := Refresh(cfg, records, evicts, env);
      && (x.issued.Some? ==> LastsUntil(cfg, x.records, env.clock(EXCHANGE) + life))
      && (LastsUntil(cfg, records, until) ==> LastsUntil(cfg, x.records, until))
  {
    var issued := Received(cfg, records, evicts, env);
    if issued.Some? {
      ReceivedIDs(cfg, records, evicts, env);
      KeySpacesDisjoint(IdType, cfg.tokenID, AccessType, cfg.tokenID);
      KeySpacesDisjoint(RefreshType, cfg.tokenID, AccessType, cfg.tokenID);
      assert issued.value.access.expiresAt == 0 || env.clock(EXCHANGE) + life <= issued.value.access.expiresAt;
    }
  }

  lemma RefreshedCall(cfg: Config, records: Records, evicts: bool, env: CallEnv, life: int, until: Time)
    requires 0 <= cfg.margin < life && env.Sound() && IssuesFor(env, life)
    ensures
      var o := Call(cfg, FreshAccess, records, evicts, env);
      && (o.refreshed ==> LastsUntil(cfg, o.records, env.clock(EXCHANGE) + life))
      && (o.refreshed && LastsUntil(cfg, records, until) ==> until - cfg.margin < env.clock(EXCHANGE))
      && (LastsUntil(cfg, records, until) ==> LastsUntil(cfg, o.records, until))
  {
    assert env.clock(9) <= env.clock(8) <= env.clock(EXCHANGE);
    var token := Starting(cfg, FreshAccess, records, evicts, env);
    if env.up(9) && token.ExpiresSoon(env.clock(8), cfg.margin) {
      if LastsUntil(cfg, records, until) {
        assert until - cfg.margin < env.clock(EXCHANGE);
        RefreshExtends(cfg, records, evicts, env, life, until);
      } else {
        RefreshExtends(cfg, records, evicts, env, life, env.clock(EXCHANGE));
      }
    }
  }

  lemma {:induction false} TimesAfter(
    cfg: Config, records: Records, evicts: bool, envs: seq<CallEnv>, life: int, until: Time)
    requires 0 <= cfg.margin < life && AllIssueFor(envs, life)
    requires LastsUntil(cfg, records, until)
    ensures var times := RefreshTimes(cfg, records, evicts, envs); times != [] ==> until - cfg.margin < times[0]
    decreases |envs|
  {
    if envs != [] {
      RefreshedCall(cfg, records, evicts, envs[0], life, until);
      TimesAfter(cfg, Call(cfg, FreshAccess, records, evicts, envs[0]).records, evicts, envs[1..], life, until);
    }
  }

  lemma TimesSplit(cfg: Config, records: Records, evicts: bool, envs: seq<CallEnv>)
    requires envs != []
    ensures
      var o := Call(cfg, FreshAccess, records, evicts, envs[0]);
      var rest := RefreshTimes(cfg, o.records, evicts, envs[1..]);
      RefreshTimes(cfg, records, evicts, envs) == if o.refreshed then [envs[0].clock(EXCHANGE)] + rest else rest
  {
  }

  /** Neighbours are more than `gap` apart. */
  predicate Spread(times: seq<Time>, gap: int) {
    forall i :: 0 <= i < |times| - 1 ==> gap < times[i + 1] - times[i]
  }

  lemma SpreadGrows(first: Time, rest: seq<Time>, gap: int)
    requires Spread(rest, gap) && (rest != [] ==> gap < rest[0] - first)
    ensures Spread([first] + rest, gap)
  {
    var times := [first] + rest;
    forall i | 0 <= i < |times| - 1
      ensures gap < times[i + 1] - times[i]
    {
      assert i > 0 ==> times[i] == rest[i - 1] && times[i + 1] == rest[i - 1 + 1];
    }
  }

  lemma {:induction false} GapsBetweenRefreshes(
    cfg: Config, records: Records, evicts: bool, envs: seq<CallEnv>, life: int)
    requires 0 <= cfg.margin < life && AllIssueFor(envs, life)
    ensures Spread(RefreshTimes(cfg, records, evicts, envs), life - cfg.margin)
    decreases |envs|
  {
    if envs != [] {
      var o, at := Call(cfg, FreshAccess, records, evicts, envs[0]), envs[0].clock(EXCHANGE);
      TimesSplit(cfg, records, evicts, envs);
      GapsBetweenRefreshes(cfg, o.records, evicts, envs[1..], life);
      if o.refreshed {
        RefreshedCall(cfg, records, evicts, envs[0], life, 0);
        TimesAfter(cfg, o.records, evicts, envs[1..], life, at + life);
        SpreadGrows(at, RefreshTimes(cfg, o.records, evicts, envs[1..]), life - cfg.margin);
      }
    }
  }

  lemma OneGapMore(n: int, gap: int, sofar: int, next: int)
    requires n * gap < sofar && gap < next
    ensures (n + 1) * gap < sofar + next
  {
  }

  /**
   * Refresh rate: if issued access tokens live at least `life`, longer than the margin, then `k`
   * successful refreshes (numbers i to i+k-1, k at least 2) span more than (k-1)*(life-margin).
   */
  lemma {:induction false} RefreshRateBound(
    cfg: Config, records: Records, evicts: bool, envs: seq<CallEnv>, life: int, i: nat, k: nat)
    requires 0 <= cfg.margin < life && AllIssueFor(envs, life)
    requires 2 <= k && i + k <= |RefreshTimes(cfg, records, evicts, envs)|
    ensures var times := RefreshTimes(cfg, records, evicts, envs);
      (k - 1) * (life - cfg.margin) < times[i + k - 1] - times[i]
    decreases k
  {
    var times, gap := RefreshTimes(cfg, records, evicts, envs), life - cfg.margin;
    GapsBetweenRefreshes(cfg, records, evicts, envs, life);
    assert gap < times[i + k - 2 + 1] - times[i + k - 2];
    if 2 < k {
      RefreshRateBound(cfg, records, evicts, envs, life, i, k - 1);
      OneGapMore(k - 2, gap, times[i + k - 2] - times[i], times[i + k - 1] - times[i + k - 2]);
    }
  }
}
