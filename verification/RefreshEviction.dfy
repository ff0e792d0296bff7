/**
 * Eviction under interleaving: whatever any number of calls do over a store that evicts, they can do
 * over one that never does, some reads failing instead.
 */
module RefreshEviction {
  import opened Prelude
  import opened Tokens
  import opened RefreshCall
  import opened RefreshProtocol

  /** Redis may have dropped a record with this token. */
  predicate Gone(token: AuthToken, now: Time) {
    token.expiresAt != 0 && Deadline(token.expiresAt) < now
  }

  /** The token in hand is the same, or the placeholder here and there an expired token that was evicted here. */
  predicate Matches(token: AuthToken, shadow: AuthToken, now: Time) {
    token == shadow || (token == PLACEHOLDER && Gone(shadow, now))
  }

  predicate PcMatches(pc: Pc, shadow: Pc, now: Time) {
    match pc
    case ReadSlot => shadow == pc
    case CheckSoon(token) => shadow.CheckSoon? && Matches(token, shadow.token, now)
    case ReadRefresh(token) => shadow.ReadRefresh? && Matches(token, shadow.token, now)
    case Exchange(token, rt) => shadow.Exchange? && Matches(token, shadow.token, now) && shadow.rt == rt
    case WriteAccess(token, issued) =>
      shadow.WriteAccess? && Matches(token, shadow.token, now) && shadow.issued == issued
    case WriteRefresh(token, issued) =>
      shadow.WriteRefresh? && Matches(token, shadow.token, now) && shadow.issued == issued
    case WriteId(token, issued) =>
      shadow.WriteId? && Matches(token, shadow.token, now) && shadow.issued == issued
    case Reload(token) => shadow.Reload? && Matches(token, shadow.token, now)
    case FinalCheck(token) => shadow.FinalCheck? && Matches(token, shadow.token, now)
    case Done(_, _) => shadow == pc
  }

  /** `u` is `w` with nothing evicted: it has more records only where they may have been dropped. */
  predicate Shadows(w: World, u: World) {
    && SECOND < w.now && u.now == w.now && u.provider == w.provider
    && (forall s :: s in w.slots ==> s in u.slots && u.slots[s] == w.slots[s])
    && (forall s :: s in u.slots && s !in w.slots ==> Gone(u.slots[s], w.now))
    && u.procs.Keys == w.procs.Keys
    && forall p :: p in w.procs ==> u.procs[p].kind == w.procs[p].kind && PcMatches(w.procs[p].pc, u.procs[p].pc, w.now)
  }

  /** A later read that finds nothing here is one that fails there; every other step is the same step. */
  function Shadow(w: World, l: Label): Label {
    if l.Run? && l.pid in w.procs && (w.procs[l.pid].pc.ReadRefresh? || w.procs[l.pid].pc.Reload?)
       && Seen(w, w.procs[l.pid]).None?
    then l.(ok := false)
    else l
  }

  /** One step of a call, here and there: the same write, and counters that still match. */
  predicate MovesAlike(cfg: Config, w: World, u: World, l: Label)
    requires Shadows(w, u) && l.Run? && Enabled(cfg, w, l)
  {
    var here := MoveOf(cfg, w, w.procs[l.pid], l.ok, l.reply);
    var there := MoveOf(cfg, u, u.procs[l.pid], Shadow(w, l).ok, l.reply);
    there.write == here.write && PcMatches(here.pc, there.pc, w.now)
  }

  /** A read, here and there. */
  lemma ReadMatches(cfg: Config, w: World, u: World, l: Label)
    requires Shadows(w, u) && l.Run? && Enabled(cfg, w, l) && Reads(w.procs[l.pid].kind, w.procs[l.pid].pc).Some?
    ensures MovesAlike(cfg, w, u, l)
  {
    var proc, shadow := w.procs[l.pid], u.procs[l.pid];
    assert shadow.kind == proc.kind && PcMatches(proc.pc, shadow.pc, w.now);
    var seen, unseen := Seen(w, proc), Seen(u, shadow);
    assert seen.Some? ==> unseen == seen;
    assert seen.None? && unseen.Some? ==> Gone(unseen.value, w.now);
  }

  /** A clock reading, here and there. */
  lemma CheckMatches(cfg: Config, w: World, u: World, l: Label)
    requires 0 <= cfg.margin && Shadows(w, u) && l.Run? && Enabled(cfg, w, l)
    requires w.procs[l.pid].pc.CheckSoon? || w.procs[l.pid].pc.FinalCheck?
    ensures MovesAlike(cfg, w, u, l)
  {
    assert PcMatches(w.procs[l.pid].pc, u.procs[l.pid].pc, w.now);
  }

  /** An exchange or a write, here and there. */
  lemma WriteMatches(cfg: Config, w: World, u: World, l: Label)
    requires Shadows(w, u) && l.Run? && Enabled(cfg, w, l)
    requires var pc := w.procs[l.pid].pc; pc.Exchange? || pc.WriteAccess? || pc.WriteRefresh? || pc.WriteId?
    ensures MovesAlike(cfg, w, u, l)
  {
    assert u.procs[l.pid].kind == w.procs[l.pid].kind && PcMatches(w.procs[l.pid].pc, u.procs[l.pid].pc, w.now);
  }

  lemma MoveMatches(cfg: Config, w: World, u: World, l: Label)
    requires 0 <= cfg.margin && Shadows(w, u) && l.Run? && Enabled(cfg, w, l)
    ensures MovesAlike(cfg, w, u, l)
  {
    match w.procs[l.pid].pc
    case ReadSlot | ReadRefresh(_) | Reload(_) => ReadMatches(cfg, w, u, l);
    case CheckSoon(_) | FinalCheck(_) => CheckMatches(cfg, w, u, l);
    case _ => WriteMatches(cfg, w, u, l);
  }

  lemma RunMatches(cfg: Config, w: World, l: Label, w': World, u: World)
    requires 0 <= cfg.margin && Shadows(w, u) && l.Run? && Next(cfg, w, l, w')
    ensures Enabled(cfg, u, Shadow(w, l)) && Shadows(w', Apply(cfg, u, Shadow(w, l)))
  {
    MoveMatches(cfg, w, u, l);
    assert PcMatches(w.procs[l.pid].pc, u.procs[l.pid].pc, w.now);
    var u' := Apply(cfg, u, Shadow(w, l));
    forall p | p in w'.procs
      ensures u'.procs[p].kind == w'.procs[p].kind && PcMatches(w'.procs[p].pc, u'.procs[p].pc, w'.now)
    {
      assert p in w.procs && PcMatches(w.procs[p].pc, u.procs[p].pc, w.now);
    }
  }

  lemma TickMatches(w: World, u: World, later: Time)
    requires Shadows(w, u) && w.now <= later
    ensures Shadows(w.(now := later), u.(now := later))
  {
    forall p | p in w.procs
      ensures PcMatches(w.procs[p].pc, u.procs[p].pc, later)
    {
      assert PcMatches(w.procs[p].pc, u.procs[p].pc, w.now);
    }
  }

  lemma OtherMatches(cfg: Config, w: World, l: Label, w': World, u: World)
    requires Shadows(w, u) && Next(cfg, w, l, w') && (l.Evict? || l.Login? || l.Spawn?)
    ensures l.Evict? ==> Shadows(w', u)
    ensures !l.Evict? ==> Enabled(cfg, u, l) && Shadows(w', Apply(cfg, u, l))
  {
  }

  lemma StepMatches(cfg: Config, w: World, l: Label, w': World, u: World)
    requires 0 <= cfg.margin && Shadows(w, u) && Next(cfg, w, l, w')
    ensures l.Evict? ==> Shadows(w', u)
    ensures !l.Evict? ==> Enabled(cfg, u, Shadow(w, l)) && Shadows(w', Apply(cfg, u, Shadow(w, l)))
  {
    if l.Run? {
      RunMatches(cfg, w, l, w', u);
    } else if l.Tick? {
      TickMatches(w, u, l.later);
    } else {
      OtherMatches(cfg, w, l, w', u);
    }
  }

  predicate NoEviction(ls: seq<Label>) {
    forall i :: 0 <= i < |ls| ==> !ls[i].Evict?
  }

  lemma Extended(cfg: Config, us: seq<World>, ms: seq<Label>, m: Label) returns (us': seq<World>)
    requires IsRun(cfg, us, ms) && NoEviction(ms) && !m.Evict? && Enabled(cfg, us[|ms|], m)
    ensures IsRun(cfg, us', ms + [m]) && NoEviction(ms + [m]) && us'[0] == us[0]
    ensures us'[|ms| + 1] == Apply(cfg, us[|ms|], m)
  {
    var ms' := ms + [m];
    us' := us + [Apply(cfg, us[|ms|], m)];
    forall i | 0 <= i < |ms'|
      ensures Next(cfg, us'[i], ms'[i], us'[i + 1])
    {
      assert i < |ms| ==> Next(cfg, us[i], ms[i], us[i + 1]);
    }
  }

  /** The shadow of the first `n` steps: evictions left out, and each other step its shadow. */
  function Shadowed(ws: seq<World>, ls: seq<Label>, n: nat): seq<Label>
    requires n <= |ls| <= |ws|
  {
    if n == 0 then []
    else Shadowed(ws, ls, n - 1) + if ls[n - 1].Evict? then [] else [Shadow(ws[n - 1], ls[n - 1])]
  }

  /**
   * Every run is shadowed by one without evictions: from the same start, step by step the same logins,
   * clock, calls and replies, with only the later reads that found nothing failing instead; what it
   * writes, what the provider does, and the result of every finished call are the same.
   */
  lemma {:induction false} EvictionAddsNothing(cfg: Config, ws: seq<World>, ls: seq<Label>, n: nat)
    returns (us: seq<World>)
    requires 0 <= cfg.margin && IsRun(cfg, ws, ls) && n <= |ls| && ws[0].procs == map[] && SECOND < ws[0].now
    ensures var ms := Shadowed(ws, ls, n);
      && IsRun(cfg, us, ms) && NoEviction(ms) && us[0] == ws[0] && Shadows(ws[n], us[|ms|])
      && us[|ms|].provider == ws[n].provider && us[|ms|].procs.Keys == ws[n].procs.Keys
      && forall p :: p in ws[n].procs && ws[n].procs[p].pc.Done? ==> us[|ms|].procs[p].pc == ws[n].procs[p].pc
  {
    var ms := Shadowed(ws, ls, n);
    if n == 0 {
      us := [ws[0]];
    } else {
      var l, before := ls[n - 1], Shadowed(ws, ls, n - 1);
      us := EvictionAddsNothing(cfg, ws, ls, n - 1);
      StepMatches(cfg, ws[n - 1], l, ws[n], us[|before|]);
      if l.Evict? {
        assert before + [] == before;
      } else {
        us := Extended(cfg, us, before, Shadow(ws[n - 1], l));
      }
    }
    forall p | p in ws[n].procs && ws[n].procs[p].pc.Done?
      ensures us[|ms|].procs[p].pc == ws[n].procs[p].pc
    {
      assert PcMatches(ws[n].procs[p].pc, us[|ms|].procs[p].pc, ws[n].now);
    }
  }
}
