/**
 * With a rotating provider and no login in between: where the live refresh token is, which
 * generations the slots hold, and what a refresher with a superseded token can still do.
 */
module RefreshRotation {
  import opened Prelude
  import opened Tokens
  import opened RefreshCall
  import opened RefreshProtocol

  // ---- Where the live refresh token is --------------------------------------------------

  /** A call owns the newest refresh token between its exchange and its `SetRefreshToken`. */
  predicate Holding(pc: Pc) {
    pc.WriteAccess? || pc.WriteRefresh?
  }

  predicate Holds(w: World, pid: nat) {
    pid in w.procs && Holding(w.procs[pid].pc)
  }

  predicate InSlot(w: World, v: string) {
    RefreshType in w.slots && w.slots[RefreshType].value == v
  }

  ghost predicate HeldBy(w: World, pid: nat, v: string) {
    && Holds(w, pid) && w.procs[pid].pc.issued.refresh.value == v
    && forall q :: Holds(w, q) ==> q == pid
  }

  /** In exactly one place: the slot and no hand, or one hand and not the slot. */
  ghost predicate InOnePlace(w: World, v: string) {
    || (InSlot(w, v) && forall q :: !Holds(w, q))
    || (!InSlot(w, v) && exists pid :: HeldBy(w, pid, v))
  }

  ghost predicate Nowhere(w: World, v: string) {
    !InSlot(w, v) && forall q :: !Holds(w, q)
  }

  /** The provider's one live refresh token is in one place, unless it has been dropped, and then it is nowhere. */
  ghost predicate Conserved(w: World, dropped: bool) {
    exists v :: w.provider.live.Keys == {v} && if dropped then Nowhere(w, v) else InOnePlace(w, v)
  }

  /**
   * The steps that drop the live token: the client fails on a granted reply, the store refuses the
   * access or refresh token of a finished exchange, or Redis evicts the live token itself.
   */
  predicate Drops(cfg: Config, w: World, l: Label) {
    match l
    case Run(pid, ok, reply) =>
      pid in w.procs && match w.procs[pid].pc {
        case Exchange(_, _) => Contacts(cfg, w.procs[pid].pc) && reply.Garbled?
        case WriteAccess(_, issued) => !CanStore(issued.access, AccessType, ok)
        case WriteRefresh(_, issued) => !CanStore(issued.refresh, RefreshType, ok)
        case _ => false
      }
    case Evict(slot) => slot == RefreshType && RefreshType in w.slots && w.slots[RefreshType].value in w.provider.live
    case _ => false
  }

  ghost predicate DroppedBefore(cfg: Config, ws: seq<World>, ls: seq<Label>, n: nat)
    requires n <= |ls| < |ws|
  {
    exists k :: 0 <= k < n && Drops(cfg, ws[k], ls[k])
  }

  predicate NoLogin(ls: seq<Label>) {
    forall i :: 0 <= i < |ls| ==> !ls[i].Login?
  }

  /** One grant, its refresh token stored, nobody running yet. */
  predicate Start(w: World, v: string) {
    && w.procs == map[]
    && w.provider.live.Keys == {v}
    && v in w.provider.stamp && w.provider.stamp[v] == w.provider.count
    && (forall x :: x in w.provider.stamp ==> w.provider.stamp[x] <= w.provider.count)
    && (forall s :: s in w.slots ==> w.slots[s].value in w.provider.stamp)
    && InSlot(w, v) && w.slots[RefreshType].expiresAt == w.provider.live[v]
  }

  // ---- The invariant --------------------------------------------------------------------

  ghost predicate Issued(w: World, v: string) {
    && w.provider.policy.Rotates? && w.provider.live.Keys == {v}
    && v in w.provider.stamp && w.provider.stamp[v] == w.provider.count
    && (forall x :: x in w.provider.stamp ==> w.provider.stamp[x] <= w.provider.count)
    && (forall s :: s in w.slots ==> w.slots[s].value in w.provider.stamp)
    && (InSlot(w, v) ==> w.slots[RefreshType].expiresAt == w.provider.live[v])
  }

  predicate PcIssued(p: Provider, v: string, pc: Pc)
    requires v in p.live
  {
    match pc
    case Exchange(_, rt) => rt.value in p.stamp
    case WriteAccess(_, issued) =>
      && issued.access.value in p.stamp && p.stamp[issued.access.value] == p.count
      && issued.refresh.value == v && issued.refresh.expiresAt == p.live[v]
      && (issued.idToken.id != "" ==> issued.idToken.value in p.stamp)
    case WriteRefresh(_, issued) =>
      && issued.refresh.value == v && issued.refresh.expiresAt == p.live[v]
      && (issued.idToken.id != "" ==> issued.idToken.value in p.stamp)
    case WriteId(_, issued) => issued.idToken.value in p.stamp
    case _ => true
  }

  ghost predicate Inv(w: World, v: string, dropped: bool) {
    && Issued(w, v)
    && (forall p :: p in w.procs ==> PcIssued(w.provider, v, w.procs[p].pc))
    && (forall p, q :: Holds(w, p) && Holds(w, q) ==> p == q)
    && ((exists p :: Holds(w, p)) ==> !InSlot(w, v) && !dropped)
    && (dropped ==> !InSlot(w, v))
    && (!dropped && !InSlot(w, v) ==> exists p :: Holds(w, p))
    && (!InSlot(w, v) && !PastExpiry(w.provider.live[v], w.now) ==>
          forall p :: p in w.procs && w.procs[p].pc.Exchange? ==> w.procs[p].pc.rt.value != v)
  }

  function NextLive(cfg: Config, w: World, l: Label, v: string): string {
    if l.Run? && l.pid in w.procs && Contacts(cfg, w.procs[l.pid].pc) && !l.reply.Refused?
      then l.reply.grant.refresh else v
  }

  /** An exchange that is granted finds the live token in the slot and nobody holding it. */
  lemma GrantFindsSlotFull(w: World, pid: nat, v: string, dropped: bool)
    requires Inv(w, v, dropped)
    requires pid in w.procs && w.procs[pid].pc.Exchange? && w.procs[pid].pc.rt.value == v
    requires !PastExpiry(w.provider.live[v], w.now)
    ensures InSlot(w, v) && !dropped && forall q :: !Holds(w, q)
  {
  }

  lemma EnvironmentKeepsInv(cfg: Config, w: World, l: Label, w': World, v: string, dropped: bool)
    requires Next(cfg, w, l, w') && !l.Login? && !l.Run? && Inv(w, v, dropped)
    ensures Inv(w', v, dropped || Drops(cfg, w, l))
  {
    assert forall q :: Holds(w', q) <==> Holds(w, q);
  }

  /** An exchange that is refused changes nothing but its own call, which goes on to reload. */
  lemma RefusalKeepsInv(cfg: Config, w: World, l: Label, w': World, v: string, dropped: bool)
    requires Next(cfg, w, l, w') && l.Run? && w.procs[l.pid].pc.Exchange? && Inv(w, v, dropped)
    requires !Contacts(cfg, w.procs[l.pid].pc) || l.reply.Refused?
    ensures Inv(w', v, dropped) && !Drops(cfg, w, l)
  {
    assert w'.provider == w.provider && w'.slots == w.slots && w'.procs[l.pid].pc.Reload?;
    assert forall q :: Holds(w', q) <==> Holds(w, q);
  }

  /** What a grant does to the calls: nobody else is past an exchange with the newest token. */
  lemma GrantKeepsPcs(cfg: Config, w: World, l: Label, w': World, v: string, dropped: bool)
    requires Next(cfg, w, l, w') && l.Run? && w.procs[l.pid].pc.Exchange? && Inv(w, v, dropped)
    requires Contacts(cfg, w.procs[l.pid].pc) && !l.reply.Refused?
    ensures w'.provider.live.Keys == {l.reply.grant.refresh}
    ensures forall q :: q in w'.procs ==> PcIssued(w'.provider, l.reply.grant.refresh, w'.procs[q].pc)
    ensures forall q :: Holds(w', q) ==> q == l.pid
  {
    GrantFindsSlotFull(w, l.pid, v, dropped);
    var p', v' := w'.provider, l.reply.grant.refresh;
    assert p'.live.Keys == {v'};
    forall q | q in w'.procs
      ensures PcIssued(p', v', w'.procs[q].pc) && (q != l.pid ==> !Holds(w', q))
    {
      if q != l.pid {
        assert PcIssued(w.provider, v, w.procs[q].pc) && !Holds(w, q);
      }
    }
  }

  lemma GrantKeepsInv(cfg: Config, w: World, l: Label, w': World, v: string, dropped: bool)
    requires Next(cfg, w, l, w') && l.Run? && w.procs[l.pid].pc.Exchange? && Inv(w, v, dropped)
    requires Contacts(cfg, w.procs[l.pid].pc) && !l.reply.Refused?
    ensures Inv(w', l.reply.grant.refresh, dropped || Drops(cfg, w, l))
  {
    GrantFindsSlotFull(w, l.pid, v, dropped);
    GrantKeepsPcs(cfg, w, l, w', v, dropped);
    assert l.reply.Granted? ==> Holds(w', l.pid);
  }

  lemma ExchangeKeepsInv(cfg: Config, w: World, l: Label, w': World, v: string, dropped: bool)
    requires Next(cfg, w, l, w') && l.Run? && w.procs[l.pid].pc.Exchange? && Inv(w, v, dropped)
    ensures Inv(w', NextLive(cfg, w, l, v), dropped || Drops(cfg, w, l))
  {
    if Contacts(cfg, w.procs[l.pid].pc) && !l.reply.Refused? {
      GrantKeepsInv(cfg, w, l, w', v, dropped);
    } else {
      RefusalKeepsInv(cfg, w, l, w', v, dropped);
    }
  }

  lemma WriteKeepsInv(cfg: Config, w: World, l: Label, w': World, v: string, dropped: bool)
    requires Next(cfg, w, l, w') && l.Run? && Holds(w, l.pid) && Inv(w, v, dropped)
    ensures Inv(w', v, dropped || Drops(cfg, w, l))
  {
    assert forall q :: q != l.pid ==> (Holds(w', q) <==> Holds(w, q));
    assert w.procs[l.pid].pc.WriteAccess? && !Drops(cfg, w, l) ==> Holds(w', l.pid);
  }

  lemma OtherKeepsInv(cfg: Config, w: World, l: Label, w': World, v: string, dropped: bool)
    requires Next(cfg, w, l, w') && l.Run? && !Holds(w, l.pid) && !w.procs[l.pid].pc.Exchange? && Inv(w, v, dropped)
    ensures Inv(w', v, dropped || Drops(cfg, w, l))
  {
    assert forall q :: Holds(w', q) <==> Holds(w, q);
    assert InSlot(w', v) <==> InSlot(w, v);
  }

  lemma StepKeepsInv(cfg: Config, w: World, l: Label, w': World, v: string, dropped: bool)
    requires Next(cfg, w, l, w') && !l.Login? && Inv(w, v, dropped)
    ensures Inv(w', NextLive(cfg, w, l, v), dropped || Drops(cfg, w, l))
  {
    if !l.Run? {
      EnvironmentKeepsInv(cfg, w, l, w', v, dropped);
    } else if w.procs[l.pid].pc.Exchange? {
      ExchangeKeepsInv(cfg, w, l, w', v, dropped);
    } else if Holds(w, l.pid) {
      WriteKeepsInv(cfg, w, l, w', v, dropped);
    } else {
      OtherKeepsInv(cfg, w, l, w', v, dropped);
    }
  }

  // ---- Over whole runs ------------------------------------------------------------------

  lemma {:induction false} InvAlongRun(
    cfg: Config, ws: seq<World>, ls: seq<Label>, start: string, n: nat) returns (v: string)
    requires IsRun(cfg, ws, ls) && NoLogin(ls) && ws[0].provider.policy.Rotates? && Start(ws[0], start) && n <= |ls|
    ensures Inv(ws[n], v, DroppedBefore(cfg, ws, ls, n))
  {
    if n == 0 {
      v := start;
      assert !DroppedBefore(cfg, ws, ls, 0);
    } else {
      var u := InvAlongRun(cfg, ws, ls, start, n - 1);
      StepKeepsInv(cfg, ws[n - 1], ls[n - 1], ws[n], u, DroppedBefore(cfg, ws, ls, n - 1));
      v := NextLive(cfg, ws[n - 1], ls[n - 1], u);
    }
  }

  /**
   * The refresh token is conserved: at every moment of every run the provider's one live refresh
   * token is in the slot or in exactly one hand, if and only if no step so far dropped it.
   */
  lemma RefreshTokenConserved(cfg: Config, ws: seq<World>, ls: seq<Label>, start: string, n: nat)
    requires IsRun(cfg, ws, ls) && NoLogin(ls) && ws[0].provider.policy.Rotates? && Start(ws[0], start) && n <= |ls|
    ensures Conserved(ws[n], DroppedBefore(cfg, ws, ls, n))
  {
    var w := ws[n];
    var v := InvAlongRun(cfg, ws, ls, start, n);
    if !DroppedBefore(cfg, ws, ls, n) && !InSlot(w, v) {
      var pid :| Holds(w, pid);
      assert PcIssued(w.provider, v, w.procs[pid].pc);
      assert HeldBy(w, pid, v);
    }
  }

  /** Eviction never costs a usable token: when Redis evicts the live refresh token it has already expired. */
  lemma EvictionDropsOnlyExpired(cfg: Config, ws: seq<World>, ls: seq<Label>, start: string, n: nat)
    requires IsRun(cfg, ws, ls) && NoLogin(ls) && ws[0].provider.policy.Rotates? && Start(ws[0], start) && n < |ls|
    requires ls[n].Evict? && Drops(cfg, ws[n], ls[n])
    ensures forall v :: v in ws[n].provider.live ==> PastExpiry(ws[n].provider.live[v], ws[n].now)
  {
    var v := InvAlongRun(cfg, ws, ls, start, n);
    assert Next(cfg, ws[n], ls[n], ws[n + 1]);
    assert forall u :: u in ws[n].provider.live ==> u in ws[n].provider.live.Keys;
  }

  ghost predicate StampsKept(a: Provider, b: Provider) {
    a.count <= b.count && forall x :: x in a.stamp ==> x in b.stamp && b.stamp[x] == a.stamp[x]
  }

  /** `slot` in `b` is as it was in `a`, or holds a generation no older than all issued by then. */
  ghost predicate SlotAdvances(a: World, b: World, slot: TokenType) {
    slot in b.slots ==>
      || (slot in a.slots && b.slots[slot] == a.slots[slot])
      || (b.slots[slot].value in b.provider.stamp && a.provider.count <= b.provider.stamp[b.slots[slot].value])
  }

  lemma StepAdvances(cfg: Config, w: World, l: Label, w': World, v: string, dropped: bool, slot: TokenType)
    requires Next(cfg, w, l, w') && !l.Login? && Inv(w, v, dropped)
    requires slot in {AccessType, RefreshType}
    ensures StampsKept(w.provider, w'.provider) && SlotAdvances(w, w', slot)
  {
    if l.Run? && w.procs[l.pid].pc.Exchange? {
      assert w'.slots == w.slots;
    } else if l.Run? {
      assert w'.provider == w.provider;
      assert PcIssued(w.provider, v, w.procs[l.pid].pc);
    }
  }

  lemma {:induction false} AdvancesAlongRun(
    cfg: Config, ws: seq<World>, ls: seq<Label>, start: string, i: nat, j: nat, slot: TokenType)
    requires IsRun(cfg, ws, ls) && NoLogin(ls) && ws[0].provider.policy.Rotates? && Start(ws[0], start)
    requires i <= j <= |ls| && slot in {AccessType, RefreshType}
    ensures StampsKept(ws[i].provider, ws[j].provider) && SlotAdvances(ws[i], ws[j], slot)
    decreases j
  {
    if i < j {
      AdvancesAlongRun(cfg, ws, ls, start, i, j - 1, slot);
      var v := InvAlongRun(cfg, ws, ls, start, j - 1);
      StepAdvances(cfg, ws[j - 1], ls[j - 1], ws[j], v, DroppedBefore(cfg, ws, ls, j - 1), slot);
    }
  }

  /**
   * With a rotating provider the access and the refresh slot never go back to an older generation,
   * whatever the interleaving, the failures and the evictions in between.
   */
  lemma SlotsNeverGoBack(cfg: Config, ws: seq<World>, ls: seq<Label>, start: string, i: nat, j: nat, slot: TokenType)
    requires IsRun(cfg, ws, ls) && NoLogin(ls) && ws[0].provider.policy.Rotates? && Start(ws[0], start)
    requires i <= j <= |ls| && slot in {AccessType, RefreshType} && slot in ws[i].slots && slot in ws[j].slots
    ensures
      var stamp := ws[j].provider.stamp;
      var was, now := ws[i].slots[slot].value, ws[j].slots[slot].value;
      was in stamp && now in stamp && stamp[was] <= stamp[now]
  {
    var v := InvAlongRun(cfg, ws, ls, start, i);
    var u := InvAlongRun(cfg, ws, ls, start, j);
    AdvancesAlongRun(cfg, ws, ls, start, i, j, slot);
  }

  // ---- Superseded refreshers ------------------------------------------------------------

  /** The call holds a refresh token the provider no longer accepts, or is past every write. */
  predicate Superseded(w: World, pid: nat) {
    pid in w.procs && match w.procs[pid].pc {
      case Exchange(_, rt) => rt.value in w.provider.stamp && rt.value !in w.provider.live
      case Reload(_) => true
      case FinalCheck(_) => true
      case Done(_, _) => true
      case _ => false
    }
  }

  lemma SupersededStep(cfg: Config, w: World, l: Label, w': World, pid: nat)
    requires Next(cfg, w, l, w') && Superseded(w, pid)
    ensures Superseded(w', pid)
    ensures l.Run? && l.pid == pid ==> w'.slots == w.slots && w'.provider == w.provider
  {
  }

  /**
   * A refresher whose refresh token has been superseded writes nothing for the rest of its call,
   * in every continuation of the run, logins included.
   */
  lemma {:induction false} SupersededWritesNothing(
    cfg: Config, ws: seq<World>, ls: seq<Label>, pid: nat, i: nat, j: nat)
    requires IsRun(cfg, ws, ls) && i <= j < |ls| && Superseded(ws[i], pid)
    ensures Superseded(ws[j], pid)
    ensures ls[j].Run? && ls[j].pid == pid ==> ws[j + 1].slots == ws[j].slots && ws[j + 1].provider == ws[j].provider
    decreases j
  {
    if i < j {
      SupersededWritesNothing(cfg, ws, ls, pid, i, j - 1);
      SupersededStep(cfg, ws[j - 1], ls[j - 1], ws[j], pid);
    }
    SupersededStep(cfg, ws[j], ls[j], ws[j + 1], pid);
  }

  /** Of two instances racing with the same refresh token, the first grant supersedes the other. */
  lemma GrantSupersedesRacers(cfg: Config, w: World, l: Label, w': World, racer: nat)
    requires w.provider.policy.Rotates? && Next(cfg, w, l, w') && l.Run? && l.pid != racer
    requires w.procs[l.pid].pc.Exchange? && Contacts(cfg, w.procs[l.pid].pc) && !l.reply.Refused?
    requires racer in w.procs && w.procs[racer].pc.Exchange?
    requires w.procs[racer].pc.rt.value == w.procs[l.pid].pc.rt.value
    requires w.procs[racer].pc.rt.value in w.provider.stamp
    ensures Superseded(w', racer)
  {
    var v := w.procs[racer].pc.rt.value;
    assert v != l.reply.grant.refresh;
  }
}
