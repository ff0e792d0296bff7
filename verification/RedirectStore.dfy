/** The redirect store as one request runs it, shown to do what the steps of RedirectCache do undisturbed. */
module RedirectStores {
  import opened Prelude
  import opened PercentCodec
  import opened RedirectCache

  /** The outside world during one lookup: the clock, indexed by the steps still to take, and the upstream. */
  datatype LookupEnv = LookupEnv(clock: nat -> Time, upstream: Bytes -> Reply)

  datatype Outcome = Outcome(result: Option<Entry>, cache: Cache)

  /** Runs a lookup from `pc` to its end with no interference. */
  function Finish(ttl: int, cache: Cache, pc: Pc, env: LookupEnv): Outcome
    decreases StepsLeft(pc)
  {
    if pc.Done? then Outcome(pc.result, cache)
    else
      var (pc', write) := Advance(ttl, cache, env.clock(StepsLeft(pc)), pc, env.upstream(pc.key));
      Finish(ttl, if write.Some? then cache[pc.key := write.value] else cache, pc', env)
  }

  /** A whole undisturbed lookup. */
  function Lookup(ttl: int, cache: Cache, key: Bytes, env: LookupEnv): Outcome {
    var seen := Find(cache, key);
    if Valid(ttl, seen, env.clock(5)) || !Stale(ttl, seen, env.clock(3)) then Outcome(seen, cache)
    else match env.upstream(key)
      case Unavailable => Outcome(None, cache)
      case Answer(source, target) =>
        var e := Entry(source, target, env.clock(1));
        Outcome(Some(e), cache[key := e])
  }

  lemma FinishFetch(ttl: int, cache: Cache, key: Bytes, decided: Time, env: LookupEnv)
    ensures Finish(ttl, cache, Fetching(key, decided), env) ==
      match env.upstream(key)
      case Unavailable => Outcome(None, cache)
      case Answer(source, target) =>
        var e := Entry(source, target, env.clock(1));
        Outcome(Some(e), cache[key := e])
  {
    var reply := env.upstream(key);
    if reply.Answer? {
      var e := Entry(reply.source, reply.target, env.clock(1));
      assert Finish(ttl, cache, Fetching(key, decided), env) == Finish(ttl, cache, Storing(key, decided, reply), env);
      assert Finish(ttl, cache, Storing(key, decided, reply), env) ==
             Finish(ttl, cache[key := e], Done(key, Some(e), env.clock(1)), env);
    } else {
      assert Finish(ttl, cache, Fetching(key, decided), env) == Finish(ttl, cache, Done(key, None, env.clock(2)), env);
    }
  }

  /** The steps of the concurrent machine, taken by one thread alone, make up the lookup. */
  lemma LookupIsItsSteps(ttl: int, cache: Cache, key: Bytes, env: LookupEnv)
    ensures Finish(ttl, cache, Look(key), env) == Lookup(ttl, cache, key, env)
  {
    var seen := Find(cache, key);
    assert Finish(ttl, cache, Look(key), env) == Finish(ttl, cache, CheckFast(key, seen), env);
    if Valid(ttl, seen, env.clock(5)) {
      assert Finish(ttl, cache, CheckFast(key, seen), env) == Finish(ttl, cache, Done(key, seen, env.clock(5)), env);
    } else {
      assert Finish(ttl, cache, CheckFast(key, seen), env) == Finish(ttl, cache, WaitLock(key), env);
      assert Finish(ttl, cache, WaitLock(key), env) == Finish(ttl, cache, CheckSlow(key), env);
      if Stale(ttl, seen, env.clock(3)) {
        FinishFetch(ttl, cache, key, env.clock(3), env);
        assert Finish(ttl, cache, CheckSlow(key), env) == Finish(ttl, cache, Fetching(key, env.clock(3)), env);
      } else {
        assert Finish(ttl, cache, CheckSlow(key), env) == Finish(ttl, cache, Done(key, seen, env.clock(3)), env);
      }
    }
  }

  // ---- The cache against the API it speeds up ---------------------------------------------

  /** The upstream's answers, as long as they do not change. */
  predicate AgreesWith(cache: Cache, api: Bytes -> Reply) {
    forall k :: k in cache ==> api(k) == Answer(cache[k].source, cache[k].target)
  }

  /** A sequence of lookups, one after another. */
  function Lookups(ttl: int, cache: Cache, reqs: seq<(Bytes, LookupEnv)>): Cache
    decreases |reqs|
  {
    if reqs == [] then cache else Lookups(ttl, Lookup(ttl, cache, reqs[0].0, reqs[0].1).cache, reqs[1..])
  }

  /** Each request, if it reaches the API, gets its answer. */
  ghost predicate Answering(api: Bytes -> Reply, reqs: seq<(Bytes, LookupEnv)>) {
    forall i, k :: 0 <= i < |reqs| ==> reqs[i].1.upstream(k) == api(k) || reqs[i].1.upstream(k) == Unavailable
  }

  /**
   * While the API's answers stand, any sequence of lookups leaves a cache that agrees with it, so a
   * lookup answers as the API would, or fails only because the API failed.
   */
  lemma {:induction false} CacheAgrees(
    ttl: int, cache: Cache, api: Bytes -> Reply, reqs: seq<(Bytes, LookupEnv)>, key: Bytes, env: LookupEnv)
    requires AgreesWith(cache, api) && Answering(api, reqs)
    requires forall k :: env.upstream(k) == api(k) || env.upstream(k) == Unavailable
    ensures AgreesWith(Lookups(ttl, cache, reqs), api)
    ensures
      var r := Lookup(ttl, Lookups(ttl, cache, reqs), key, env).result;
      if r.Some? then api(key) == Answer(r.value.source, r.value.target) else env.upstream(key) == Unavailable
    decreases |reqs|
  {
    if reqs != [] {
      var next := Lookup(ttl, cache, reqs[0].0, reqs[0].1).cache;
      assert reqs[0].1.upstream(reqs[0].0) == api(reqs[0].0) || reqs[0].1.upstream(reqs[0].0) == Unavailable;
      CacheAgrees(ttl, next, api, reqs[1..], key, env);
    }
  }

  datatype RedirectError = NotRedirected | UpstreamFailed

  class RedirectStore {
    const pathPrefix: Bytes
    const redirectedHost: Bytes
    const entryTtl: int
    var redirectMap: Cache

    constructor (pathPrefix: Bytes, redirectedHost: Bytes, entryTtl: int)
      ensures redirectMap == map[]
      ensures this.pathPrefix == pathPrefix && this.redirectedHost == redirectedHost && this.entryTtl == entryTtl
    {
      this.pathPrefix := pathPrefix;
      this.redirectedHost := redirectedHost;
      this.entryTtl := entryTtl;
      redirectMap := map[];
    }

    /** A path outside the prefix is refused and changes nothing; any other is looked up under its key. */
    method GetRedirectEntry(path: Bytes, env: LookupEnv) returns (r: Result<Entry, RedirectError>)
      modifies this
      ensures match UrlToKey(pathPrefix, redirectedHost, path)
        case None => r == Err(NotRedirected) && redirectMap == old(redirectMap)
        case Some(key) =>
          var o := Lookup(entryTtl, old(redirectMap), key, env);
          && redirectMap == o.cache
          && r == if o.result.Some? then Ok(o.result.value) else Err(UpstreamFailed)
    {
      var k := UrlToKey(pathPrefix, redirectedHost, path);
      if k.None? {
        return Err(NotRedirected);
      }
      var key := k.value;
      // under the read lock
      var entry := Find(redirectMap, key);
      if entry.Some? && env.clock(5) < entry.value.updatedAt + entryTtl {
        return Ok(entry.value);
      }
      // under the write lock: it might have been updated meanwhile
      entry := Find(redirectMap, key);
      if entry.None? || entry.value.updatedAt + entryTtl < env.clock(3) {
        var updated := env.upstream(key);
        if updated.Unavailable? {
          return Err(UpstreamFailed);
        }
        entry := Some(Entry(updated.source, updated.target, env.clock(1)));
        redirectMap := redirectMap[key := entry.value];
      }
      r := Ok(entry.value);
    }
  }
}
