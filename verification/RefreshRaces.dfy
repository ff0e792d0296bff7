/**
 * Races that take a slot back to an older generation: two calls, both due, refreshing side by side.
 */
module RefreshRaces {
  import opened Prelude
  import opened Tokens
  import opened RefreshCall
  import opened RefreshProtocol
  import opened RefreshRotation
  import opened RefreshSlots

  /** The token a call of this kind has in hand after reading its slot. */
  function InHand(w: World, kind: Kind): AuthToken {
    if kind.Slot() in w.slots then w.slots[kind.Slot()] else PLACEHOLDER
  }

  /** A call of this kind that starts now would set out to refresh. */
  predicate Due(cfg: Config, w: World, kind: Kind) {
    InHand(w, kind).ExpiresSoon(w.now, cfg.margin)
  }

  /** The stored refresh token would be granted `g`. */
  predicate Refreshable(cfg: Config, w: World, g: Grant) {
    && cfg.tokenID != "" && RefreshType in w.slots && w.slots[RefreshType].providerID in cfg.clients
    && Allowed(w.provider, w.now, w.slots[RefreshType], Granted(g))
    && w.slots[RefreshType].typ == RefreshType
  }

  function SetOf(cfg: Config, w: World, g: Grant): AuthTokenSet
    requires Refreshable(cfg, w, g)
  {
    Relabelled(BuildTokenSet(cfg.clients[w.slots[RefreshType].providerID], w.slots[RefreshType], g), cfg.tokenID)
  }

  predicate AtRefresh(w: World, pid: nat) {
    pid in w.procs && w.procs[pid].pc.ReadRefresh?
  }

  /** The world when a call has found its token due. */
  function BeforeRefresh(w: World, pid: nat, kind: Kind): World {
    w.(procs := w.procs[pid := Proc(kind, ReadRefresh(InHand(w, kind)))])
  }

  /** A run without logins leads from one world to the other. */
  ghost predicate Leads(cfg: Config, w: World, u: World) {
    exists ws, ls :: IsRun(cfg, ws, ls) && NoLogin(ls) && ws[0] == w && ws[|ls|] == u
  }

  lemma StepLeads(cfg: Config, w: World, l: Label, u: World)
    requires Next(cfg, w, l, u) && !l.Login?
    ensures Leads(cfg, w, u)
  {
    var ws, ls := [w, u], [l];
    assert IsRun(cfg, ws, ls) && NoLogin(ls) && ws[|ls|] == u;
  }

  lemma LeadsOn(cfg: Config, w: World, u: World, x: World)
    requires Leads(cfg, w, u) && Leads(cfg, u, x)
    ensures Leads(cfg, w, x)
  {
    var ws, ls :| IsRun(cfg, ws, ls) && NoLogin(ls) && ws[0] == w && ws[|ls|] == u;
    var us, ms :| IsRun(cfg, us, ms) && NoLogin(ms) && us[0] == u && us[|ms|] == x;
    Joined(cfg, ws, ls, us, ms);
    var all, labels := ws + us[1..], ls + ms;
    assert all[|ls| + |ms|] == x && NoLogin(labels);
  }

  lemma StepLeadsOn(cfg: Config, w: World, u: World, l: Label, x: World)
    requires Leads(cfg, w, u) && Next(cfg, u, l, x) && !l.Login?
    ensures Leads(cfg, w, x)
  {
    StepLeads(cfg, u, l, x);
    LeadsOn(cfg, w, u, x);
  }

  lemma ReachesRefresh(cfg: Config, w: World, pid: nat, kind: Kind)
    requires pid !in w.procs && Due(cfg, w, kind)
    ensures Leads(cfg, w, BeforeRefresh(w, pid, kind))
  {
    var w1 := w.(procs := w.procs[pid := Proc(kind, ReadSlot)]);
    var w2 := w.(procs := w.procs[pid := Proc(kind, CheckSoon(InHand(w, kind)))]);
    var step := Run(pid, true, Refused);
    StepLeads(cfg, w, Spawn(pid, kind), w1);
    StepLeadsOn(cfg, w, w1, step, w2);
    StepLeadsOn(cfg, w, w2, step, BeforeRefresh(w, pid, kind));
  }

  function WithPc(w: World, pid: nat, pc: Pc): World
    requires pid in w.procs
  {
    w.(procs := w.procs[pid := w.procs[pid].(pc := pc)])
  }

  function Stored(w: World, token: AuthToken): World {
    w.(slots := w.slots[token.typ := token])
  }

  function AfterGrant(cfg: Config, w: World, g: Grant): World
    requires Refreshable(cfg, w, g)
  {
    w.(provider := Issue(w.provider, w.slots[RefreshType], g))
  }

  /** The world when a call's refresh has only its ID token left to write. */
  function BeforeIdWrite(cfg: Config, w: World, pid: nat, g: Grant): World
    requires Refreshable(cfg, w, g) && AtRefresh(w, pid)
  {
    var s := SetOf(cfg, w, g);
    WithPc(Stored(Stored(AfterGrant(cfg, w, g), s.access), s.refresh), pid, WriteId(w.procs[pid].pc.token, s))
  }

  lemma ExchangeSteps(cfg: Config, w: World, pid: nat, g: Grant)
    requires Refreshable(cfg, w, g) && AtRefresh(w, pid)
    ensures Leads(cfg, w, WithPc(AfterGrant(cfg, w, g), pid, WriteAccess(w.procs[pid].pc.token, SetOf(cfg, w, g))))
  {
    var token, rt := w.procs[pid].pc.token, w.slots[RefreshType];
    var w1 := WithPc(w, pid, Exchange(token, rt));
    StepLeads(cfg, w, Run(pid, true, Refused), w1);
    StepLeadsOn(cfg, w, w1, Run(pid, true, Granted(g)),
      WithPc(AfterGrant(cfg, w, g), pid, WriteAccess(token, SetOf(cfg, w, g))));
  }

  /** From its grant on, a call that nothing disturbs gets to its last write. */
  lemma WriteSteps(cfg: Config, w: World, pid: nat, token: AuthToken, s: AuthTokenSet)
    requires pid in w.procs && w.procs[pid].pc == WriteAccess(token, s)
    requires s.access.typ == AccessType && s.refresh.typ == RefreshType && s.idToken.id != ""
    ensures Leads(cfg, w, WithPc(Stored(Stored(w, s.access), s.refresh), pid, WriteId(token, s)))
  {
    var w1 := WithPc(Stored(w, s.access), pid, WriteRefresh(token, s));
    StepLeads(cfg, w, Run(pid, true, Refused), w1);
    StepLeadsOn(cfg, w, w1, Run(pid, true, Refused),
      WithPc(Stored(Stored(w, s.access), s.refresh), pid, WriteId(token, s)));
  }

  lemma ExchangesAndWrites(cfg: Config, w: World, pid: nat, g: Grant)
    requires Refreshable(cfg, w, g) && AtRefresh(w, pid) && g.idToken.Some?
    ensures Leads(cfg, w, BeforeIdWrite(cfg, w, pid, g))
  {
    var token, s := w.procs[pid].pc.token, SetOf(cfg, w, g);
    var granted := WithPc(AfterGrant(cfg, w, g), pid, WriteAccess(token, s));
    ExchangeSteps(cfg, w, pid, g);
    WriteSteps(cfg, granted, pid, token, s);
    assert BeforeIdWrite(cfg, w, pid, g) ==
        WithPc(Stored(Stored(granted, s.access), s.refresh), pid, WriteId(token, s));
    LeadsOn(cfg, w, granted, BeforeIdWrite(cfg, w, pid, g));
  }

  /** Both calls have their ID tokens left to write; the second writes first. */
  lemma LateWriteGoesBack(cfg: Config, w: World, first: nat, second: nat) returns (ws: seq<World>, ls: seq<Label>)
    requires first != second && first in w.procs && second in w.procs
    requires w.procs[first].pc.WriteId? && w.procs[second].pc.WriteId?
    requires w.procs[first].pc.issued.idToken.typ == IdType && w.procs[second].pc.issued.idToken.typ == IdType
    requires Older(w.provider, w.procs[first].pc.issued.idToken.value, w.procs[second].pc.issued.idToken.value)
    ensures IsRun(cfg, ws, ls) && NoLogin(ls) && ws[0] == w && |ls| == 2 && Back(ws[1], ws[2], IdType)
  {
    ls := [Run(second, true, Refused), Run(first, true, Refused)];
    var w1 := Apply(cfg, w, ls[0]);
    ws := [w, w1, Apply(cfg, w1, ls[1])];
  }

  lemma LeadsBack(
    cfg: Config, w: World, u: World, first: nat, second: nat) returns (all: seq<World>, labels: seq<Label>)
    requires Leads(cfg, w, u) && first != second && first in u.procs && second in u.procs
    requires u.procs[first].pc.WriteId? && u.procs[second].pc.WriteId?
    requires u.procs[first].pc.issued.idToken.typ == IdType && u.procs[second].pc.issued.idToken.typ == IdType
    requires Older(u.provider, u.procs[first].pc.issued.idToken.value, u.procs[second].pc.issued.idToken.value)
    ensures IsRun(cfg, all, labels) && NoLogin(labels) && all[0] == w && GoesBack(all, IdType)
  {
    var ws, ls :| IsRun(cfg, ws, ls) && NoLogin(ls) && ws[0] == w && ws[|ls|] == u;
    var us, ms := LateWriteGoesBack(cfg, u, first, second);
    Joined(cfg, ws, ls, us, ms);
    all, labels := ws + us[1..], ls + ms;
    assert all[|ls| + 1] == us[1] && all[|ls| + 2] == us[2];
    assert Back(all[|ls| + 1], all[|ls| + 2], IdType);
  }

  /** After the first refresh the second is possible too, with the refresh token the first has left. */
  lemma SecondRefresh(cfg: Config, w: World, first: nat, g: Grant, h: Grant)
    requires WellKeyed(cfg.clients) && Refreshable(cfg, w, g) && AtRefresh(w, first) && g.idToken.Some?
    requires g.refresh != "" ==> !PastExpiry(g.refreshExpiry, w.now)
    requires FreshGrant(Issue(w.provider, w.slots[RefreshType], g), h) && h.idToken.Some?
    ensures Refreshable(cfg, BeforeIdWrite(cfg, w, first, g), h)
  {
  }

  /** Once both are there, the first holds the older ID token. */
  lemma FirstIsOlder(cfg: Config, w: World, first: nat, second: nat, g: Grant, h: Grant)
    requires first != second && Refreshable(cfg, w, g) && AtRefresh(w, first) && AtRefresh(w, second)
    requires Refreshable(cfg, BeforeIdWrite(cfg, w, first, g), h) && g.idToken.Some? && h.idToken.Some?
    ensures
      var u := BeforeIdWrite(cfg, BeforeIdWrite(cfg, w, first, g), second, h);
      && first in u.procs && second in u.procs && u.procs[first].pc.WriteId? && u.procs[second].pc.WriteId?
      && u.procs[first].pc.issued.idToken.typ == IdType && u.procs[second].pc.issued.idToken.typ == IdType
      && Older(u.provider, u.procs[first].pc.issued.idToken.value, u.procs[second].pc.issued.idToken.value)
  {
  }

  /**
   * The ordinary race takes the ID slot back: two calls, of whatever kinds, both find their tokens due;
   * the first refreshes up to its last write; the second, with the refresh token the first has left,
   * refreshes altogether; and then the first writes its ID token over the newer one. How long the
   * access tokens live does not matter.
   */
  lemma IdSlotCanGoBack(cfg: Config, w: World, first: nat, kind: Kind, second: nat, kind': Kind, g: Grant, h: Grant)
    returns (ws: seq<World>, ls: seq<Label>)
    requires WellKeyed(cfg.clients) && first != second && first !in w.procs && second !in w.procs
    requires Due(cfg, w, kind) && Due(cfg, w, kind') && Refreshable(cfg, w, g) && g.idToken.Some?
    requires g.refresh != "" ==> !PastExpiry(g.refreshExpiry, w.now)
    requires FreshGrant(Issue(w.provider, w.slots[RefreshType], g), h) && h.idToken.Some?
    ensures IsRun(cfg, ws, ls) && NoLogin(ls) && ws[0] == w && GoesBack(ws, IdType)
  {
    var w1 := BeforeRefresh(w, second, kind');
    var w2 := BeforeRefresh(w1, first, kind);
    var w3 := BeforeIdWrite(cfg, w2, first, g);
    SecondRefresh(cfg, w2, first, g, h);
    FirstIsOlder(cfg, w2, first, second, g, h);
    var w4 := BeforeIdWrite(cfg, w3, second, h);
    ReachesRefresh(cfg, w, second, kind');
    ReachesRefresh(cfg, w1, first, kind);
    LeadsOn(cfg, w, w1, w2);
    ExchangesAndWrites(cfg, w2, first, g);
    LeadsOn(cfg, w, w2, w3);
    ExchangesAndWrites(cfg, w3, second, h);
    LeadsOn(cfg, w, w3, w4);
    ws, ls := LeadsBack(cfg, w, w4, first, second);
  }

  // ---- Providers that leave the old refresh token valid -----------------------------------

  predicate AtWrites(w: World, pid: nat) {
    pid in w.procs && w.procs[pid].pc.WriteAccess?
  }

  function IssuedTo(w: World, pid: nat): AuthTokenSet
    requires AtWrites(w, pid)
  {
    w.procs[pid].pc.issued
  }

  /** Both calls hold sets of the right types, the first an older one. */
  predicate Crossed(w: World, first: nat, second: nat) {
    && first != second && AtWrites(w, first) && AtWrites(w, second)
    && IssuedTo(w, first).access.typ == AccessType && IssuedTo(w, second).access.typ == AccessType
    && IssuedTo(w, first).refresh.typ == RefreshType && IssuedTo(w, second).refresh.typ == RefreshType
    && Older(w.provider, IssuedTo(w, first).access.value, IssuedTo(w, second).access.value)
  }

  lemma CrossedAccessWrites(cfg: Config, w: World, first: nat, second: nat) returns (ws: seq<World>, ls: seq<Label>)
    requires Crossed(w, first, second)
    ensures IsRun(cfg, ws, ls) && NoLogin(ls) && ws[0] == w && |ls| == 2 && Back(ws[1], ws[2], AccessType)
    ensures ws[2].provider == w.provider && first in ws[2].procs && second in ws[2].procs
    ensures ws[2].procs[first].pc == WriteRefresh(w.procs[first].pc.token, IssuedTo(w, first))
    ensures ws[2].procs[second].pc == WriteRefresh(w.procs[second].pc.token, IssuedTo(w, second))
  {
    ls := [Run(second, true, Refused), Run(first, true, Refused)];
    var w1 := Apply(cfg, w, ls[0]);
    ws := [w, w1, Apply(cfg, w1, ls[1])];
  }

  lemma CrossedRefreshWrites(cfg: Config, w: World, first: nat, second: nat) returns (ws: seq<World>, ls: seq<Label>)
    requires first != second && first in w.procs && second in w.procs
    requires w.procs[first].pc.WriteRefresh? && w.procs[second].pc.WriteRefresh?
    requires w.procs[first].pc.issued.refresh.typ == RefreshType && w.procs[second].pc.issued.refresh.typ == RefreshType
    ensures IsRun(cfg, ws, ls) && NoLogin(ls) && ws[0] == w && |ls| == 2
    ensures
      Older(w.provider, w.procs[first].pc.issued.refresh.value, w.procs[second].pc.issued.refresh.value) ==>
        Back(ws[1], ws[2], RefreshType)
  {
    ls := [Run(second, true, Refused), Run(first, true, Refused)];
    var w1 := Apply(cfg, w, ls[0]);
    ws := [w, w1, Apply(cfg, w1, ls[1])];
  }

  lemma LeadsAcross(cfg: Config, w: World, u: World, first: nat, second: nat)
    returns (all: seq<World>, labels: seq<Label>)
    requires Leads(cfg, w, u) && Crossed(u, first, second)
    ensures IsRun(cfg, all, labels) && NoLogin(labels) && all[0] == w && GoesBack(all, AccessType)
    ensures Older(u.provider, IssuedTo(u, first).refresh.value, IssuedTo(u, second).refresh.value) ==>
      GoesBack(all, RefreshType)
  {
    var ws, ls :| IsRun(cfg, ws, ls) && NoLogin(ls) && ws[0] == w && ws[|ls|] == u;
    var us, ms := CrossedAccessWrites(cfg, u, first, second);
    Joined(cfg, ws, ls, us, ms);
    all, labels := ws + us[1..], ls + ms;
    var n := |ls|;
    assert all[n + 1] == us[1] && all[n + 2] == us[2] && Back(all[n + 1], all[n + 2], AccessType);
    var vs, ks := CrossedRefreshWrites(cfg, us[2], first, second);
    Joined(cfg, all, labels, vs, ks);
    var more := all + vs[1..];
    assert more[n + 1] == us[1] && more[n + 2] == us[2] && Back(more[n + 1], more[n + 2], AccessType);
    assert more[n + 3] == vs[1] by { assert more[|labels| + 1] == vs[1]; }
    assert more[n + 4] == vs[2] by { assert more[|labels| + 2] == vs[2]; }
    all, labels := more, labels + ks;
    if Older(u.provider, IssuedTo(u, first).refresh.value, IssuedTo(u, second).refresh.value) {
      assert Back(all[n + 3], all[n + 4], RefreshType);
    }
  }

  /** Both calls have read the one refresh token and are about to contact the provider. */
  predicate BothExchange(w: World, first: nat, second: nat) {
    && first != second && first in w.procs && second in w.procs && RefreshType in w.slots
    && w.procs[first].pc.Exchange? && w.procs[second].pc.Exchange?
    && w.procs[first].pc.rt == w.slots[RefreshType] == w.procs[second].pc.rt
  }

  lemma BothReach(cfg: Config, w: World, first: nat, kind: Kind, second: nat, kind': Kind) returns (u: World)
    requires first != second && first !in w.procs && second !in w.procs && RefreshType in w.slots
    requires Due(cfg, w, kind) && Due(cfg, w, kind')
    ensures Leads(cfg, w, u) && BothExchange(u, first, second)
    ensures u.slots == w.slots && u.provider == w.provider && u.now == w.now
  {
    var w1, step := BeforeRefresh(w, second, kind'), Run(first, true, Refused);
    var w2 := BeforeRefresh(w1, first, kind);
    ReachesRefresh(cfg, w, second, kind');
    ReachesRefresh(cfg, w1, first, kind);
    LeadsOn(cfg, w, w1, w2);
    var w3 := WithPc(w2, first, Exchange(InHand(w1, kind), w.slots[RefreshType]));
    StepLeadsOn(cfg, w, w2, step, w3);
    u := WithPc(w3, second, Exchange(InHand(w, kind'), w.slots[RefreshType]));
    StepLeadsOn(cfg, w, w3, Run(second, true, Refused), u);
  }

  function Granting(cfg: Config, w: World, pid: nat, g: Grant): World
    requires Refreshable(cfg, w, g) && pid in w.procs && w.procs[pid].pc.Exchange?
  {
    WithPc(AfterGrant(cfg, w, g), pid, WriteAccess(w.procs[pid].pc.token, SetOf(cfg, w, g)))
  }

  lemma GrantingSteps(cfg: Config, w: World, pid: nat, g: Grant)
    requires Refreshable(cfg, w, g) && pid in w.procs && w.procs[pid].pc.Exchange?
    requires w.procs[pid].pc.rt == w.slots[RefreshType]
    ensures Leads(cfg, w, Granting(cfg, w, pid, g))
  {
    StepLeads(cfg, w, Run(pid, true, Granted(g)), Granting(cfg, w, pid, g));
  }

  /** A refresh token left valid can be granted for again. */
  lemma StillRefreshable(cfg: Config, w: World, pid: nat, g: Grant, h: Grant)
    requires Refreshable(cfg, w, g) && pid in w.procs && w.procs[pid].pc.Exchange? && !w.provider.policy.Rotates?
    requires w.slots[RefreshType].value in w.provider.stamp
    requires FreshGrant(Issue(w.provider, w.slots[RefreshType], g), h)
    ensures Refreshable(cfg, Granting(cfg, w, pid, g), h)
  {
    var p := Issue(w.provider, w.slots[RefreshType], g);
    var v := w.slots[RefreshType].value;
    assert v in p.live && p.live[v] == w.provider.live[v];
  }

  lemma LaterGrantIsNewer(p: Provider, rt: AuthToken, g: Grant, h: Grant)
    requires FreshGrant(p, g) && FreshGrant(Issue(p, rt, g), h)
    ensures var r := Issue(Issue(p, rt, g), rt, h);
      && Older(r, g.access, h.access)
      && (g.refresh != "" && h.refresh != "" ==> Older(r, g.refresh, h.refresh))
  {
    var q := Issue(p, rt, g);
    assert q.stamp[g.access] == q.count && (g.refresh != "" ==> q.stamp[g.refresh] == q.count);
  }

  lemma GrantedAreCrossed(cfg: Config, w: World, first: nat, second: nat, g: Grant, h: Grant)
    requires BothExchange(w, first, second) && Refreshable(cfg, w, g)
    requires Refreshable(cfg, Granting(cfg, w, first, g), h)
    ensures var u := Granting(cfg, Granting(cfg, w, first, g), second, h);
      && Crossed(u, first, second)
      && (g.refresh != "" && h.refresh != "" ==>
            Older(u.provider, IssuedTo(u, first).refresh.value, IssuedTo(u, second).refresh.value))
  {
    LaterGrantIsNewer(w.provider, w.slots[RefreshType], g, h);
  }

  /** The provider grants twice for the same refresh token, if it leaves it valid. */
  lemma GrantsTwice(cfg: Config, w: World, first: nat, second: nat, g: Grant, h: Grant) returns (u: World)
    requires BothExchange(w, first, second) && Refreshable(cfg, w, g) && !w.provider.policy.Rotates?
    requires w.slots[RefreshType].value in w.provider.stamp
    requires FreshGrant(Issue(w.provider, w.slots[RefreshType], g), h)
    ensures Leads(cfg, w, u) && Crossed(u, first, second)
    ensures g.refresh != "" && h.refresh != "" ==>
      Older(u.provider, IssuedTo(u, first).refresh.value, IssuedTo(u, second).refresh.value)
  {
    var mid := Granting(cfg, w, first, g);
    GrantingSteps(cfg, w, first, g);
    StillRefreshable(cfg, w, first, g, h);
    u := Granting(cfg, mid, second, h);
    GrantingSteps(cfg, mid, second, h);
    LeadsOn(cfg, w, mid, u);
    GrantedAreCrossed(cfg, w, first, second, g, h);
  }

  /**
   * With a provider that leaves the old refresh token valid, the same race takes the access slot back,
   * and the refresh slot too if new refresh tokens are issued: both calls exchange the one refresh token,
   * and the call granted second writes first.
   */
  lemma SlotsCanGoBack(cfg: Config, w: World, first: nat, kind: Kind, second: nat, kind': Kind, g: Grant, h: Grant)
    returns (ws: seq<World>, ls: seq<Label>)
    requires first != second && first !in w.procs && second !in w.procs && !w.provider.policy.Rotates?
    requires Due(cfg, w, kind) && Due(cfg, w, kind') && Refreshable(cfg, w, g)
    requires FreshGrant(Issue(w.provider, w.slots[RefreshType], g), h)
    requires w.slots[RefreshType].value in w.provider.stamp
    ensures IsRun(cfg, ws, ls) && NoLogin(ls) && ws[0] == w && GoesBack(ws, AccessType)
    ensures g.refresh != "" && h.refresh != "" ==> GoesBack(ws, RefreshType)
  {
    var u := BothReach(cfg, w, first, kind, second, kind');
    var x := GrantsTwice(cfg, u, first, second, g, h);
    LeadsOn(cfg, w, u, x);
    ws, ls := LeadsAcross(cfg, w, x, first, second);
  }
}
