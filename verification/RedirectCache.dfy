/**
 * Any number of requests looking up redirects through one cache behind a read-write lock. Each
 * `GetRedirectEntry` is cut at its lock operations, clock readings and the upstream request, so all
 * interleavings are runs of this machine.
 */
module RedirectCache {
  import opened Prelude
  import opened PercentCodec

  // ---- Keys -----------------------------------------------------------------------------

  /** `urlToKey`: the redirected URL, escaped; None when the path does not start with the prefix. */
  function UrlToKey(prefix: Bytes, host: Bytes, path: Bytes): Option<Bytes> {
    if path == [] || !(prefix <= path) then None
    else Some(Escape("https://" + host + "/" + path[|prefix|..], QueryMode))
  }

  /** Different paths never share a key, and a key decodes to the URL it stands for. */
  lemma KeysAreInjective(prefix: Bytes, host: Bytes, path: Bytes, other: Bytes)
    requires UrlToKey(prefix, host, path).Some? && UrlToKey(prefix, host, other).Some?
    ensures UrlToKey(prefix, host, path) == UrlToKey(prefix, host, other) <==> path == other
    ensures Unescape(UrlToKey(prefix, host, path).value, QueryMode) == Some("https://" + host + "/" + path[|prefix|..])
  {
    var base := "https://" + host + "/";
    EscapeRoundTrip(base + path[|prefix|..], QueryMode);
    if UrlToKey(prefix, host, path) == UrlToKey(prefix, host, other) {
      EscapeInjective(base + path[|prefix|..], base + other[|prefix|..], QueryMode);
      assert (base + path[|prefix|..])[|base|..] == path[|prefix|..];
      assert (base + other[|prefix|..])[|base|..] == other[|prefix|..];
      assert path == prefix + path[|prefix|..] && other == prefix + other[|prefix|..];
    }
  }

  /** Exactly the nonempty paths under the prefix are looked up. */
  lemma PathsLookedUp(prefix: Bytes, host: Bytes, path: Bytes)
    ensures UrlToKey(prefix, host, path).Some? <==> path != [] && exists rest :: path == prefix + rest
  {
    if path != [] && prefix <= path {
      assert path == prefix + path[|prefix|..];
    }
  }

  /** A key can stand in a URL path as it is: it has no separator, and no other reserved byte. */
  lemma KeysAreSafe(prefix: Bytes, host: Bytes, path: Bytes)
    requires UrlToKey(prefix, host, path).Some?
    ensures forall c :: c in UrlToKey(prefix, host, path).value ==>
      StandsForItself(c, QueryMode) || c == '%' || c == '+'
  {
    EscapedAlphabet("https://" + host + "/" + path[|prefix|..], QueryMode);
  }

  // ---- The machine ----------------------------------------------------------------------

  datatype Entry = Entry(source: string, target: string, updatedAt: Time)

  type Cache = map<Bytes, Entry>

  /** What the upstream API says about a key when it is asked. */
  datatype Reply = Unavailable | Answer(source: string, target: string)

  /** `decidedAt` is the clock reading that made the lookup ask upstream, `at` the one that decided the result. */
  datatype Pc =
    | Look(key: Bytes)
    | CheckFast(key: Bytes, seen: Option<Entry>)
    | WaitLock(key: Bytes)
    | CheckSlow(key: Bytes)
    | Fetching(key: Bytes, decidedAt: Time)
    | Storing(key: Bytes, decidedAt: Time, answer: Reply)
    | Done(key: Bytes, result: Option<Entry>, at: Time)

  predicate Holds(pc: Pc) {
    pc.CheckSlow? || pc.Fetching? || pc.Storing?
  }

  datatype World = World(now: Time, cache: Cache, writer: Option<nat>, threads: map<nat, Pc>)

  datatype Label = Tick(later: Time) | Spawn(tid: nat, key: Bytes) | Run(tid: nat, reply: Reply)

  /** `time.After`: the entry is served without the write lock. */
  predicate Valid(ttl: int, seen: Option<Entry>, now: Time) {
    seen.Some? && now < seen.value.updatedAt + ttl
  }

  /** `time.Before`: under the write lock an entry is refetched only once it is past its time. */
  predicate Stale(ttl: int, seen: Option<Entry>, now: Time) {
    seen.None? || seen.value.updatedAt + ttl < now
  }

  /** The counter after a step, and what it stores. */
  function Advance(ttl: int, cache: Cache, now: Time, pc: Pc, reply: Reply): (Pc, Option<Entry>) {
    match pc
    case Look(key) => (CheckFast(key, Find(cache, key)), None)
    case CheckFast(key, seen) => (if Valid(ttl, seen, now) then Done(key, seen, now) else WaitLock(key), None)
    case WaitLock(key) => (CheckSlow(key), None)
    case CheckSlow(key) =>
      var seen := Find(cache, key);
      (if Stale(ttl, seen, now) then Fetching(key, now) else Done(key, seen, now), None)
    case Fetching(key, decidedAt) =>
      (if reply.Unavailable? then Done(key, None, now) else Storing(key, decidedAt, reply), None)
    case Storing(key, _, answer) =>
      if answer.Unavailable? then (Done(key, None, now), None)
      else var e := Entry(answer.source, answer.target, now); (Done(key, Some(e), now), Some(e))
    case Done(_, _, _) => (pc, None)
  }

  predicate Enabled(w: World, l: Label) {
    match l
    case Tick(later) => w.now <= later
    case Spawn(tid, _) => tid !in w.threads
    case Run(tid, _) =>
      && tid in w.threads && !w.threads[tid].Done?
      && (w.threads[tid].Look? || w.threads[tid].WaitLock? ==> w.writer.None?)
  }

  function Apply(ttl: int, w: World, l: Label): World
    requires Enabled(w, l)
  {
    match l
    case Tick(later) => w.(now := later)
    case Spawn(tid, key) => w.(threads := w.threads[tid := Look(key)])
    case Run(tid, reply) =>
      var pc := w.threads[tid];
      var (pc', write) := Advance(ttl, w.cache, w.now, pc, reply);
      w.(threads := w.threads[tid := pc'],
         cache := if write.Some? then w.cache[pc.key := write.value] else w.cache,
         writer := if Holds(pc') then Some(tid) else if Holds(pc) then None else w.writer)
  }

  predicate Next(ttl: int, w: World, l: Label, w': World) {
    Enabled(w, l) && w' == Apply(ttl, w, l)
  }

  predicate IsRun(ttl: int, ws: seq<World>, ls: seq<Label>) {
    && |ws| == |ls| + 1
    && ws[0].cache == map[] && ws[0].writer.None? && ws[0].threads == map[]
    && forall i :: 0 <= i < |ls| ==> Next(ttl, ws[i], ls[i], ws[i + 1])
  }

  // ---- Mutual exclusion and the cache invariant -------------------------------------------

  predicate PcFits(ttl: int, w: World, pc: Pc) {
    match pc
    case Fetching(key, decidedAt) => decidedAt <= w.now && Stale(ttl, Find(w.cache, key), decidedAt)
    case Storing(key, decidedAt, answer) => decidedAt <= w.now && Stale(ttl, Find(w.cache, key), decidedAt)
      && answer.Answer?
    case _ => true
  }

  predicate Inv(ttl: int, w: World) {
    && (forall k :: k in w.cache ==> w.cache[k].updatedAt <= w.now)
    && (w.writer.Some? ==> w.writer.value in w.threads && Holds(w.threads[w.writer.value]))
    && (forall t :: t in w.threads && Holds(w.threads[t]) ==> w.writer == Some(t))
    && (forall t :: t in w.threads ==> PcFits(ttl, w, w.threads[t]))
  }

  lemma StepKeepsInv(ttl: int, w: World, l: Label, w': World)
    requires Inv(ttl, w) && Next(ttl, w, l, w')
    ensures Inv(ttl, w')
  {
    if l.Run? {
      assert PcFits(ttl, w, w.threads[l.tid]);
      forall t | t in w'.threads
        ensures PcFits(ttl, w', w'.threads[t])
      {
        assert t != l.tid ==> PcFits(ttl, w, w.threads[t]);
      }
    }
  }

  lemma {:induction false} InvAlongRun(ttl: int, ws: seq<World>, ls: seq<Label>, n: nat)
    requires IsRun(ttl, ws, ls) && n <= |ls|
    ensures Inv(ttl, ws[n])
  {
    if n > 0 {
      InvAlongRun(ttl, ws, ls, n - 1);
      StepKeepsInv(ttl, ws[n - 1], ls[n - 1], ws[n]);
    }
  }

  /** A lookup's steps left, at most. */
  function StepsLeft(pc: Pc): nat {
    match pc
    case Look(_) => 6
    case CheckFast(_, _) => 5
    case WaitLock(_) => 4
    case CheckSlow(_) => 3
    case Fetching(_, _) => 2
    case Storing(_, _, _) => 1
    case Done(_, _, _) => 0
  }

  lemma StepsCountDown(ttl: int, cache: Cache, now: Time, pc: Pc, reply: Reply)
    requires !pc.Done?
    ensures StepsLeft(Advance(ttl, cache, now, pc, reply).0) < StepsLeft(pc)
  {
  }

  /**
   * Some thread can always go on, and gets closer to its end by it: whoever waits, waits for a holder
   * that does not.
   */
  lemma NeverStuck(ttl: int, ws: seq<World>, ls: seq<Label>, n: nat, tid: nat) returns (mover: nat)
    requires IsRun(ttl, ws, ls) && n <= |ls| && tid in ws[n].threads && !ws[n].threads[tid].Done?
    ensures forall reply ::
      && Enabled(ws[n], Run(mover, reply))
      && StepsLeft(Apply(ttl, ws[n], Run(mover, reply)).threads[mover]) < StepsLeft(ws[n].threads[mover])
  {
    InvAlongRun(ttl, ws, ls, n);
    mover := if ws[n].writer.Some? then ws[n].writer.value else tid;
    forall reply
      ensures Enabled(ws[n], Run(mover, reply))
      ensures StepsLeft(Apply(ttl, ws[n], Run(mover, reply)).threads[mover]) < StepsLeft(ws[n].threads[mover])
    {
      StepsCountDown(ttl, ws[n].cache, ws[n].now, ws[n].threads[mover], reply);
    }
  }

  // ---- What a lookup returns --------------------------------------------------------------

  /** Step `i` is the upstream's reply to a request for `key`. */
  predicate Asked(ws: seq<World>, ls: seq<Label>, i: nat, key: Bytes, reply: Reply)
    requires |ws| == |ls| + 1 && i < |ls|
  {
    && ls[i].Run? && ls[i].tid in ws[i].threads && ls[i].reply == reply
    && ws[i].threads[ls[i].tid].Fetching? && ws[i].threads[ls[i].tid].key == key
  }

  /** Before step `n` the upstream gave this answer for exactly this key, no later than the entry says. */
  ghost predicate Upstream(ws: seq<World>, ls: seq<Label>, n: nat, key: Bytes, e: Entry)
    requires |ws| == |ls| + 1 && n <= |ls|
  {
    exists i :: 0 <= i < n && Asked(ws, ls, i, key, Answer(e.source, e.target)) && ws[i].now <= e.updatedAt
  }

  /** The thread's own request for the key failed at that time. */
  ghost predicate Failed(ws: seq<World>, ls: seq<Label>, n: nat, tid: nat, key: Bytes, at: Time)
    requires |ws| == |ls| + 1 && n <= |ls|
  {
    exists i :: 0 <= i < n && Asked(ws, ls, i, key, Unavailable) && ls[i].tid == tid && ws[i].now == at
  }

  ghost predicate Backed(ttl: int, ws: seq<World>, ls: seq<Label>, n: nat, tid: nat, pc: Pc)
    requires |ws| == |ls| + 1 && n <= |ls|
  {
    match pc
    case CheckFast(key, seen) => seen.Some? ==>
      Upstream(ws, ls, n, key, seen.value) && seen.value.updatedAt <= ws[n].now
    case Storing(key, _, answer) => answer.Answer?
      && Upstream(ws, ls, n, key, Entry(answer.source, answer.target, ws[n].now))
    case Done(key, Some(e), at) =>
      && Upstream(ws, ls, n, key, e)
      && e.updatedAt <= at <= ws[n].now
      && (at <= e.updatedAt + ttl || at == e.updatedAt)
    case Done(key, None, at) => Failed(ws, ls, n, tid, key, at)
    case _ => true
  }

  ghost predicate AllBacked(ttl: int, ws: seq<World>, ls: seq<Label>, n: nat)
    requires |ws| == |ls| + 1 && n <= |ls|
  {
    && (forall k :: k in ws[n].cache ==> Upstream(ws, ls, n, k, ws[n].cache[k]))
    && forall t :: t in ws[n].threads ==> Backed(ttl, ws, ls, n, t, ws[n].threads[t])
  }

  lemma UpstreamStays(ttl: int, ws: seq<World>, ls: seq<Label>, n: nat, key: Bytes, e: Entry, later: Time)
    requires IsRun(ttl, ws, ls) && n < |ls| && Upstream(ws, ls, n, key, e) && e.updatedAt <= later
    ensures Upstream(ws, ls, n + 1, key, e) && Upstream(ws, ls, n + 1, key, e.(updatedAt := later))
  {
    var i :| 0 <= i < n && Asked(ws, ls, i, key, Answer(e.source, e.target)) && ws[i].now <= e.updatedAt;
    assert Asked(ws, ls, i, key, Answer(e.source, e.target)) && i < n + 1;
  }

  lemma BackedStays(ttl: int, ws: seq<World>, ls: seq<Label>, n: nat, tid: nat, pc: Pc)
    requires IsRun(ttl, ws, ls) && n < |ls| && Backed(ttl, ws, ls, n, tid, pc)
    ensures Backed(ttl, ws, ls, n + 1, tid, pc)
  {
    assert Next(ttl, ws[n], ls[n], ws[n + 1]);
    match pc
    case CheckFast(key, Some(e)) => UpstreamStays(ttl, ws, ls, n, key, e, e.updatedAt);
    case Storing(key, _, answer) =>
      UpstreamStays(ttl, ws, ls, n, key, Entry(answer.source, answer.target, ws[n].now), ws[n + 1].now);
    case Done(key, Some(e), _) => UpstreamStays(ttl, ws, ls, n, key, e, e.updatedAt);
    case Done(key, None, at) =>
      var i :| 0 <= i < n && Asked(ws, ls, i, key, Unavailable) && ls[i].tid == tid && ws[i].now == at;
      assert i < n + 1;
    case _ =>
  }

  lemma RunIsBacked(ttl: int, ws: seq<World>, ls: seq<Label>, n: nat)
    requires IsRun(ttl, ws, ls) && n < |ls| && ls[n].Run? && Inv(ttl, ws[n]) && AllBacked(ttl, ws, ls, n)
    ensures ls[n].tid in ws[n + 1].threads && Backed(ttl, ws, ls, n + 1, ls[n].tid, ws[n + 1].threads[ls[n].tid])
  {
    var w, l := ws[n], ls[n];
    assert Next(ttl, w, l, ws[n + 1]);
    var pc := w.threads[l.tid];
    assert Backed(ttl, ws, ls, n, l.tid, pc);
    BackedStays(ttl, ws, ls, n, l.tid, pc);
    if pc.Look? || pc.CheckSlow? {
      if pc.key in w.cache {
        UpstreamStays(ttl, ws, ls, n, pc.key, w.cache[pc.key], w.now);
      }
    } else if pc.Fetching? {
      assert Asked(ws, ls, n, pc.key, l.reply);
    }
  }

  lemma {:induction false} BackedAlongRun(ttl: int, ws: seq<World>, ls: seq<Label>, n: nat)
    requires IsRun(ttl, ws, ls) && n <= |ls|
    ensures AllBacked(ttl, ws, ls, n)
  {
    if n > 0 {
      var m := n - 1;
      BackedAlongRun(ttl, ws, ls, m);
      InvAlongRun(ttl, ws, ls, m);
      assert Next(ttl, ws[m], ls[m], ws[n]);
      if ls[m].Run? {
        RunIsBacked(ttl, ws, ls, m);
      }
      forall t | t in ws[n].threads
        ensures Backed(ttl, ws, ls, n, t, ws[n].threads[t])
      {
        if t in ws[m].threads && !(ls[m].Run? && ls[m].tid == t) {
          BackedStays(ttl, ws, ls, m, t, ws[m].threads[t]);
        }
      }
      forall k | k in ws[n].cache
        ensures Upstream(ws, ls, n, k, ws[n].cache[k])
      {
        if k in ws[m].cache && ws[n].cache[k] == ws[m].cache[k] {
          UpstreamStays(ttl, ws, ls, m, k, ws[m].cache[k], ws[n].now);
        }
      }
    }
  }

  /**
   * In every interleaving, an entry returned was the upstream's answer for exactly the key asked for,
   * and at the clock reading that decided it was at most the TTL old (or just fetched); an error is
   * returned only when the thread's own request for that key failed at that time.
   */
  lemma ReturnedIsUpstreams(ttl: int, ws: seq<World>, ls: seq<Label>, n: nat, tid: nat)
    requires IsRun(ttl, ws, ls) && n <= |ls| && tid in ws[n].threads && ws[n].threads[tid].Done?
    ensures
      var pc := ws[n].threads[tid];
      match pc.result
      case Some(e) => Upstream(ws, ls, n, pc.key, e) && e.updatedAt <= pc.at
        && (pc.at <= e.updatedAt + ttl || pc.at == e.updatedAt)
      case None => Failed(ws, ls, n, tid, pc.key, pc.at)
  {
    BackedAlongRun(ttl, ws, ls, n);
    assert Backed(ttl, ws, ls, n, tid, ws[n].threads[tid]);
  }

  // ---- Single flight ----------------------------------------------------------------------

  /** Step `i` stores what a successful fetch for `key` brought. */
  predicate Stores(ws: seq<World>, ls: seq<Label>, i: nat, key: Bytes)
    requires |ws| == |ls| + 1 && i < |ls|
  {
    ls[i].Run? && ls[i].tid in ws[i].threads && ws[i].threads[ls[i].tid].Storing? && ws[i].threads[ls[i].tid].key == key
  }

  /** Cached entries are only ever replaced by newer ones. */
  lemma {:induction false} CachedSince(ttl: int, ws: seq<World>, ls: seq<Label>, i: nat, n: nat, key: Bytes)
    requires IsRun(ttl, ws, ls) && i < n <= |ls| && Stores(ws, ls, i, key)
    ensures key in ws[n].cache && ws[i].now <= ws[n].cache[key].updatedAt <= ws[n].now
  {
    var m := n - 1;
    InvAlongRun(ttl, ws, ls, m);
    assert Next(ttl, ws[m], ls[m], ws[n]);
    if i == m {
      assert PcFits(ttl, ws[m], ws[m].threads[ls[m].tid]);
    } else {
      CachedSince(ttl, ws, ls, i, m, key);
    }
  }

  /**
   * Two stored fetches for one key, by whichever threads: the second was not even decided on until
   * more than the TTL after the first was stored.
   */
  lemma SingleFlight(ttl: int, ws: seq<World>, ls: seq<Label>, i: nat, j: nat, key: Bytes)
    requires IsRun(ttl, ws, ls) && i < j < |ls| && Stores(ws, ls, i, key) && Stores(ws, ls, j, key)
    ensures ws[i].now + ttl < ws[j].threads[ls[j].tid].decidedAt <= ws[j].now
  {
    CachedSince(ttl, ws, ls, i, j, key);
    InvAlongRun(ttl, ws, ls, j);
    assert PcFits(ttl, ws[j], ws[j].threads[ls[j].tid]);
  }

  /** From its answer on, a thread holds the lock with that answer until it stores. */
  lemma {:induction false} HeldUntilStored(
    ttl: int, ws: seq<World>, ls: seq<Label>, i: nat, n: nat, key: Bytes, a: Reply) returns (s: nat)
    requires IsRun(ttl, ws, ls) && i < n < |ls| && a.Answer? && Asked(ws, ls, i, key, a)
    ensures i < s <= n
    ensures s < n ==> Stores(ws, ls, s, key) && ls[s].tid == ls[i].tid
    ensures s == n ==>
      ls[i].tid in ws[n].threads && ws[n].threads[ls[i].tid].Storing? && ws[n].threads[ls[i].tid].key == key
  {
    var m := n - 1;
    assert Next(ttl, ws[m], ls[m], ws[n]);
    if m == i {
      s := n;
    } else {
      s := HeldUntilStored(ttl, ws, ls, i, m, key, a);
      if s == m && !(ls[m].Run? && ls[m].tid == ls[i].tid) {
        s := n;
      }
    }
  }

  /** Every successful answer is stored before anyone else may ask: the fetches are the stores. */
  lemma AnswersAreStored(
    ttl: int, ws: seq<World>, ls: seq<Label>, i: nat, j: nat, key: Bytes, other: Bytes, a: Reply,
    b: Reply) returns (s: nat)
    requires IsRun(ttl, ws, ls) && i < j < |ls| && a.Answer? && Asked(ws, ls, i, key, a) && Asked(ws, ls, j, other, b)
    ensures i < s < j && Stores(ws, ls, s, key) && ls[s].tid == ls[i].tid
  {
    s := HeldUntilStored(ttl, ws, ls, i, j, key, a);
    if s == j {
      InvAlongRun(ttl, ws, ls, j);
    }
  }

  /**
   * So any two successful answers for one key are more than the TTL apart, counted from the storing of
   * the first: a burst of misses asks the upstream successfully once.
   */
  lemma AnswersAreApart(ttl: int, ws: seq<World>, ls: seq<Label>, i: nat, j: nat, key: Bytes, a: Reply, b: Reply)
    requires IsRun(ttl, ws, ls) && i < j < |ls| && a.Answer? && Asked(ws, ls, i, key, a) && Asked(ws, ls, j, key, b)
    ensures exists s ::
      i < s < j && Stores(ws, ls, s, key) && ws[s].now + ttl < ws[j].threads[ls[j].tid].decidedAt <= ws[j].now
  {
    var s := AnswersAreStored(ttl, ws, ls, i, j, key, key, a, b);
    CachedSince(ttl, ws, ls, s, j, key);
    InvAlongRun(ttl, ws, ls, j);
    assert PcFits(ttl, ws[j], ws[j].threads[ls[j].tid]);
  }
}
