/**
 * Any number of instances refreshing any number of token IDs through one Redis, whose key space is flat:
 * seen from each single ID, every run is a run of the machine for that ID.
 */
module RefreshMany {
  import opened Prelude
  import opened Tokens
  import opened RefreshCall
  import opened RefreshProtocol
  import RefreshSafety
  import RefreshRotation
  import TokenRepos

  /** A call, and the token ID it is for. */
  datatype Caller = Caller(id: string, proc: Proc)

  /** All records under all keys, and the account each ID stands for at its provider. */
  datatype Gateways = Gateways(
    now: Time, records: TokenRepos.Records, accounts: string -> Provider, callers: map<nat, Caller>)

  datatype Event =
    | Waits(later: Time)
    | Drops(key: string)                         // Redis drops any record past its deadline
    | LogsIn(token: AuthToken)
    | Calls(pid: nat, id: string, kind: Kind)
    | Steps(pid: nat, ok: bool, reply: Reply)

  /** Margin and clients are the gateway's, the ID is the call's own. */
  function For(cfg: Config, id: string): Config {
    cfg.(tokenID := id)
  }

  const TYPES: set<TokenType> := {AccessType, RefreshType, IdType}

  // ---- Transitions ----------------------------------------------------------------------

  function Peek(g: Gateways, c: Caller): Option<AuthToken> {
    var r := Reads(c.proc.kind, c.proc.pc);
    if r.None? then None else Find(g.records, TokenKey(r.value, c.id))
  }

  function MoveIn(cfg: Config, g: Gateways, c: Caller, ok: bool, reply: Reply): Move {
    Advance(For(cfg, c.id), c.proc.kind, c.proc.pc, Peek(g, c), Input(g.now, ok, reply))
  }

  predicate Possible(cfg: Config, g: Gateways, e: Event) {
    match e
    case Waits(later) => g.now <= later
    case Drops(key) =>
      key in g.records && g.records[key].expiresAt != 0 && Deadline(g.records[key].expiresAt) < g.now
    case LogsIn(token) => token.typ in TYPES && token.value !in g.accounts(token.id).stamp
    case Calls(pid, _, _) => pid !in g.callers
    case Steps(pid, _, reply) =>
      && pid in g.callers && !g.callers[pid].proc.pc.Done?
      && var c := g.callers[pid];
      if Contacts(For(cfg, c.id), c.proc.pc) then Allowed(g.accounts(c.id), g.now, c.proc.pc.rt, reply)
      else reply.Refused?
  }

  function With(accounts: string -> Provider, id: string, p: Provider): string -> Provider {
    (i: string) => if i == id then p else accounts(i)
  }

  /** Every write goes under the key of the token written, whoever writes it. */
  function Happened(cfg: Config, g: Gateways, e: Event): Gateways
    requires Possible(cfg, g, e)
  {
    match e
    case Waits(later) => g.(now := later)
    case Drops(key) => g.(records := g.records - {key})
    case LogsIn(token) =>
      g.(records := TokenRepos.Put(g.records, token),
         accounts := With(g.accounts, token.id, Opened(g.accounts(token.id), token)))
    case Calls(pid, id, kind) => g.(callers := g.callers[pid := Caller(id, Proc(kind, ReadSlot))])
    case Steps(pid, ok, reply) =>
      var c := g.callers[pid];
      var m := MoveIn(cfg, g, c, ok, reply);
      var p := g.accounts(c.id);
      g.(callers := g.callers[pid := c.(proc := c.proc.(pc := m.pc))],
         records := if m.write.Some? then TokenRepos.Put(g.records, m.write.value) else g.records,
         accounts := With(g.accounts, c.id,
           if Contacts(For(cfg, c.id), c.proc.pc) then ProviderAfter(p, c.proc.pc.rt, reply) else p))
  }

  ghost predicate IsRun(cfg: Config, gs: seq<Gateways>, es: seq<Event>) {
    && |gs| == |es| + 1
    && forall i :: 0 <= i < |es| ==> Possible(cfg, gs[i], es[i]) && gs[i + 1] == Happened(cfg, gs[i], es[i])
  }

  // ---- What one ID sees of it -----------------------------------------------------------

  function Slots(records: TokenRepos.Records, id: string): map<TokenType, AuthToken> {
    map typ | typ in TYPES && TokenKey(typ, id) in records :: records[TokenKey(typ, id)]
  }

  function Procs(callers: map<nat, Caller>, id: string): map<nat, Proc> {
    map pid | pid in callers && callers[pid].id == id :: callers[pid].proc
  }

  function View(g: Gateways, id: string): World {
    World(g.now, Slots(g.records, id), g.accounts(id), Procs(g.callers, id))
  }

  /** The step the machine for one ID makes when this happens, if it makes one. */
  function Shadow(g: Gateways, e: Event, id: string): Option<Label> {
    match e
    case Waits(later) => Some(Tick(later))
    case Drops(key) =>
      if key == TokenKey(AccessType, id) then Some(Evict(AccessType))
      else if key == TokenKey(RefreshType, id) then Some(Evict(RefreshType))
      else if key == TokenKey(IdType, id) then Some(Evict(IdType))
      else None
    case LogsIn(token) => if token.id == id then Some(Login(token)) else None
    case Calls(pid, i, kind) => if i == id then Some(Spawn(pid, kind)) else None
    case Steps(pid, ok, reply) =>
      if pid in g.callers && g.callers[pid].id == id then Some(Run(pid, ok, reply)) else None
  }

  /** What a call is about to write is labelled with its own ID. */
  predicate Labelled(pc: Pc, id: string) {
    match pc
    case WriteAccess(_, issued) => issued.access.id == id && issued.refresh.id == id && issued.idToken.id in {id, ""}
    case WriteRefresh(_, issued) => issued.refresh.id == id && issued.idToken.id in {id, ""}
    case WriteId(_, issued) => issued.idToken.id == id
    case _ => true
  }

  predicate AllLabelled(g: Gateways) {
    forall pid :: pid in g.callers ==> Labelled(g.callers[pid].proc.pc, g.callers[pid].id)
  }

  /** A call moves on with what it will write labelled, and writes only a token of its own ID. */
  lemma MoveIsLabelled(cfg: Config, kind: Kind, pc: Pc, seen: Option<AuthToken>, inp: Input)
    requires Labelled(pc, cfg.tokenID)
    ensures
      var m := Advance(cfg, kind, pc, seen, inp);
      && Labelled(m.pc, cfg.tokenID)
      && (m.write.Some? ==> m.write.value.id == cfg.tokenID && m.write.value.typ in TYPES)
  {
  }

  lemma StaysLabelled(cfg: Config, g: Gateways, e: Event)
    requires Possible(cfg, g, e) && AllLabelled(g)
    ensures AllLabelled(Happened(cfg, g, e))
  {
    if e.Steps? {
      var c := g.callers[e.pid];
      MoveIsLabelled(For(cfg, c.id), c.proc.kind, c.proc.pc, Peek(g, c), Input(g.now, e.ok, e.reply));
    }
  }

  /** A write shows in the view of the token's own ID, and in no other. */
  lemma PutInView(records: TokenRepos.Records, token: AuthToken, typ: TokenType, id: string)
    requires token.typ in TYPES && typ in TYPES
    ensures Find(TokenRepos.Put(records, token), TokenKey(typ, id)) ==
        if token.id == id && token.typ == typ then Some(token) else Find(records, TokenKey(typ, id))
  {
    KeySpacesDisjoint(typ, id, token.typ, token.id);
  }

  lemma SameMap<K, V>(a: map<K, V>, b: map<K, V>)
    requires forall k :: Find(a, k) == Find(b, k)
    ensures a == b
  {
    forall k
      ensures k in a <==> k in b
      ensures k in a ==> a[k] == b[k]
    {
      assert Find(a, k) == Find(b, k);
    }
  }

  lemma SlotOf(records: TokenRepos.Records, id: string, typ: TokenType)
    ensures Find(Slots(records, id), typ) == if typ in TYPES then Find(records, TokenKey(typ, id)) else None
  {
  }

  lemma PutSlots(records: TokenRepos.Records, token: AuthToken, id: string)
    requires token.typ in TYPES
    ensures
      Slots(TokenRepos.Put(records, token), id) ==
      if token.id == id then Slots(records, id)[token.typ := token] else Slots(records, id)
  {
    var after := if token.id == id then Slots(records, id)[token.typ := token] else Slots(records, id);
    forall typ
      ensures Find(Slots(TokenRepos.Put(records, token), id), typ) == Find(after, typ)
    {
      SlotOf(records, id, typ);
      SlotOf(TokenRepos.Put(records, token), id, typ);
      if typ in TYPES {
        PutInView(records, token, typ, id);
      }
    }
    SameMap(Slots(TokenRepos.Put(records, token), id), after);
  }

  lemma DropSlots(records: TokenRepos.Records, id: string, typ: TokenType)
    requires typ in TYPES
    ensures Slots(records - {TokenKey(typ, id)}, id) == Slots(records, id) - {typ}
  {
    forall t | t in TYPES && t != typ
      ensures TokenKey(t, id) != TokenKey(typ, id)
    {
      KeySpacesDisjoint(typ, id, t, id);
    }
  }

  lemma DropElsewhere(records: TokenRepos.Records, key: string, id: string)
    requires forall typ :: typ in TYPES ==> key != TokenKey(typ, id)
    ensures Slots(records - {key}, id) == Slots(records, id)
  {
  }

  lemma CallProcs(callers: map<nat, Caller>, pid: nat, c: Caller, id: string)
    requires pid in callers ==> callers[pid].id == c.id
    ensures Procs(callers[pid := c], id) == if c.id == id then Procs(callers, id)[pid := c.proc] else Procs(callers, id)
  {
  }

  lemma PeekIsSeen(g: Gateways, c: Caller)
    ensures Peek(g, c) == Seen(View(g, c.id), c.proc)
  {
  }

  /** One step, as seen from an ID: a step of its machine, or none at all. */
  ghost predicate SeenAs(cfg: Config, g: Gateways, e: Event, g': Gateways, id: string) {
    match Shadow(g, e, id)
    case None => View(g', id) == View(g, id)
    case Some(l) => Next(For(cfg, id), View(g, id), l, View(g', id))
  }

  lemma StepElsewhere(cfg: Config, g: Gateways, e: Event, id: string)
    requires Possible(cfg, g, e) && AllLabelled(g) && e.Steps? && g.callers[e.pid].id != id
    ensures View(Happened(cfg, g, e), id) == View(g, id)
  {
    var c := g.callers[e.pid];
    var m := MoveIn(cfg, g, c, e.ok, e.reply);
    MoveIsLabelled(For(cfg, c.id), c.proc.kind, c.proc.pc, Peek(g, c), Input(g.now, e.ok, e.reply));
    CallProcs(g.callers, e.pid, c.(proc := c.proc.(pc := m.pc)), id);
    if m.write.Some? {
      PutSlots(g.records, m.write.value, id);
    }
  }

  lemma RunApplied(cfg: Config, w: World, pid: nat, ok: bool, reply: Reply, m: Move, w': World)
    requires Enabled(cfg, w, Run(pid, ok, reply)) && m == MoveOf(cfg, w, w.procs[pid], ok, reply)
    requires
      var proc := w.procs[pid];
      w' == World(w.now,
        if m.write.Some? then w.slots[m.write.value.typ := m.write.value] else w.slots,
        if Contacts(cfg, proc.pc) then ProviderAfter(w.provider, proc.pc.rt, reply) else w.provider,
        w.procs[pid := proc.(pc := m.pc)])
    ensures Next(cfg, w, Run(pid, ok, reply), w')
  {
  }

  lemma StepHere(cfg: Config, g: Gateways, e: Event)
    requires Possible(cfg, g, e) && AllLabelled(g) && e.Steps?
    ensures
      var id := g.callers[e.pid].id;
      Next(For(cfg, id), View(g, id), Run(e.pid, e.ok, e.reply), View(Happened(cfg, g, e), id))
  {
    var c := g.callers[e.pid];
    var m := MoveIn(cfg, g, c, e.ok, e.reply);
    MoveIsLabelled(For(cfg, c.id), c.proc.kind, c.proc.pc, Peek(g, c), Input(g.now, e.ok, e.reply));
    PeekIsSeen(g, c);
    CallProcs(g.callers, e.pid, c.(proc := c.proc.(pc := m.pc)), c.id);
    if m.write.Some? {
      PutSlots(g.records, m.write.value, c.id);
    }
    RunApplied(For(cfg, c.id), View(g, c.id), e.pid, e.ok, e.reply, m, View(Happened(cfg, g, e), c.id));
  }

  lemma StepIsSeen(cfg: Config, g: Gateways, e: Event, id: string)
    requires Possible(cfg, g, e) && AllLabelled(g) && e.Steps?
    ensures SeenAs(cfg, g, e, Happened(cfg, g, e), id)
  {
    if g.callers[e.pid].id == id {
      StepHere(cfg, g, e);
    } else {
      StepElsewhere(cfg, g, e, id);
    }
  }

  lemma DropIsSeen(cfg: Config, g: Gateways, key: string, id: string)
    requires Possible(cfg, g, Drops(key))
    ensures SeenAs(cfg, g, Drops(key), Happened(cfg, g, Drops(key)), id)
  {
    match Shadow(g, Drops(key), id) {
      case Some(l) => DropSlots(g.records, id, l.slot);
      case None => DropElsewhere(g.records, key, id);
    }
  }

  lemma LoginElsewhere(cfg: Config, g: Gateways, token: AuthToken, id: string)
    requires Possible(cfg, g, LogsIn(token)) && token.id != id
    ensures View(Happened(cfg, g, LogsIn(token)), id) == View(g, id)
  {
    PutSlots(g.records, token, id);
  }

  lemma LoginApplied(cfg: Config, w: World, token: AuthToken, w': World)
    requires token.id == cfg.tokenID && token.typ in TYPES && token.value !in w.provider.stamp
    requires w' == World(w.now, w.slots[token.typ := token], Opened(w.provider, token), w.procs)
    ensures Next(cfg, w, Login(token), w')
  {
  }

  lemma LoginHere(cfg: Config, g: Gateways, token: AuthToken)
    requires Possible(cfg, g, LogsIn(token))
    ensures
      Next(For(cfg, token.id), View(g, token.id), Login(token), View(Happened(cfg, g, LogsIn(token)), token.id))
  {
    var id := token.id;
    PutSlots(g.records, token, id);
    LoginApplied(For(cfg, id), View(g, id), token, View(Happened(cfg, g, LogsIn(token)), id));
  }

  lemma LoginIsSeen(cfg: Config, g: Gateways, token: AuthToken, id: string)
    requires Possible(cfg, g, LogsIn(token))
    ensures SeenAs(cfg, g, LogsIn(token), Happened(cfg, g, LogsIn(token)), id)
  {
    if token.id == id {
      LoginHere(cfg, g, token);
    } else {
      LoginElsewhere(cfg, g, token, id);
    }
  }

  lemma CallIsSeen(cfg: Config, g: Gateways, pid: nat, i: string, kind: Kind, id: string)
    requires Possible(cfg, g, Calls(pid, i, kind))
    ensures SeenAs(cfg, g, Calls(pid, i, kind), Happened(cfg, g, Calls(pid, i, kind)), id)
  {
    CallProcs(g.callers, pid, Caller(i, Proc(kind, ReadSlot)), id);
  }

  /**
   * IDs do not disturb each other: whatever happens is, for every ID, one step of that ID's own machine
   * or no change at all, though all records share one key space.
   */
  lemma EveryStepIsSeen(cfg: Config, g: Gateways, e: Event, id: string)
    requires Possible(cfg, g, e) && AllLabelled(g)
    ensures SeenAs(cfg, g, e, Happened(cfg, g, e), id)
  {
    match e {
      case Waits(_) =>
      case Drops(key) => DropIsSeen(cfg, g, key, id);
      case LogsIn(token) => LoginIsSeen(cfg, g, token, id);
      case Calls(pid, i, kind) => CallIsSeen(cfg, g, pid, i, kind, id);
      case Steps(_, _, _) => StepIsSeen(cfg, g, e, id);
    }
  }

  // ---- Runs, as one ID sees them --------------------------------------------------------

  /** The steps the ID's machine makes during the first `n` events. */
  function Labels(gs: seq<Gateways>, es: seq<Event>, id: string, n: nat): seq<Label>
    requires n <= |es| <= |gs|
  {
    if n == 0 then []
    else
      var l := Shadow(gs[n - 1], es[n - 1], id);
      Labels(gs, es, id, n - 1) + if l.Some? then [l.value] else []
  }

  /** And its worlds: the views that those steps lead through. */
  function Views(gs: seq<Gateways>, es: seq<Event>, id: string, n: nat): (ws: seq<World>)
    requires n <= |es| < |gs|
    ensures |ws| == |Labels(gs, es, id, n)| + 1 && ws[0] == View(gs[0], id)
  {
    if n == 0 then [View(gs[0], id)]
    else
      Views(gs, es, id, n - 1) + if Shadow(gs[n - 1], es[n - 1], id).Some? then [View(gs[n], id)] else []
  }

  lemma {:induction false} LabelledAlongRun(cfg: Config, gs: seq<Gateways>, es: seq<Event>, n: nat)
    requires IsRun(cfg, gs, es) && n <= |es| && AllLabelled(gs[0])
    ensures AllLabelled(gs[n])
  {
    if n > 0 {
      LabelledAlongRun(cfg, gs, es, n - 1);
      StaysLabelled(cfg, gs[n - 1], es[n - 1]);
    }
  }

  lemma RunExtends(cfg: Config, ws: seq<World>, ls: seq<Label>, l: Label, w': World)
    requires RefreshProtocol.IsRun(cfg, ws, ls) && Next(cfg, ws[|ls|], l, w')
    ensures RefreshProtocol.IsRun(cfg, ws + [w'], ls + [l])
  {
  }

  /**
   * Seen from any single ID, every run over all IDs is a run of the machine for that ID, and it ends in
   * what the ID sees at the end. So every result about that machine holds for each ID of a gateway.
   */
  lemma {:induction false} EveryRunIsSeen(cfg: Config, gs: seq<Gateways>, es: seq<Event>, id: string, n: nat)
    requires IsRun(cfg, gs, es) && n <= |es| && AllLabelled(gs[0])
    ensures
      var ws, ls := Views(gs, es, id, n), Labels(gs, es, id, n);
      RefreshProtocol.IsRun(For(cfg, id), ws, ls) && ws[|ls|] == View(gs[n], id)
  {
    if n > 0 {
      EveryRunIsSeen(cfg, gs, es, id, n - 1);
      LabelledAlongRun(cfg, gs, es, n - 1);
      EveryStepIsSeen(cfg, gs[n - 1], es[n - 1], id);
      var l := Shadow(gs[n - 1], es[n - 1], id);
      if l.Some? {
        RunExtends(For(cfg, id), Views(gs, es, id, n - 1), Labels(gs, es, id, n - 1), l.value, View(gs[n], id));
      }
    }
  }

  // ---- What that gives every ID ---------------------------------------------------------

  /** Nobody running, a clock past year 1, and records filled by logins through the owners of their IDs. */
  ghost predicate Start(cfg: Config, owner: string -> string, g: Gateways) {
    && g.callers == map[] && SECOND < g.now
    && forall typ, id :: typ in TYPES && TokenKey(typ, id) in g.records ==>
         RefreshSafety.Genuine(For(cfg, id), owner(id), g.accounts(id), g.records[TokenKey(typ, id)], typ)
  }

  predicate LoginsOwned(owner: string -> string, es: seq<Event>) {
    forall i :: 0 <= i < |es| && es[i].LogsIn? ==> es[i].token.providerID == owner(es[i].token.id)
  }

  lemma StartIsSeen(cfg: Config, owner: string -> string, g: Gateways, id: string)
    requires Start(cfg, owner, g)
    ensures RefreshSafety.Start(For(cfg, id), owner(id), View(g, id))
  {
  }

  lemma {:induction false} LoginsSeen(owner: string -> string, gs: seq<Gateways>, es: seq<Event>, id: string, n: nat)
    requires n <= |es| <= |gs| && LoginsOwned(owner, es)
    ensures RefreshSafety.LoginsFrom(owner(id), Labels(gs, es, id, n))
  {
    if n > 0 {
      LoginsSeen(owner, gs, es, id, n - 1);
    }
  }

  /** In every interleaving over all IDs, each key holds a token of its own type and ID, of the ID's provider. */
  lemma EverySlotAgrees(
    cfg: Config, owner: string -> string, gs: seq<Gateways>, es: seq<Event>, n: nat, typ: TokenType, id: string)
    requires WellKeyed(cfg.clients) && IsRun(cfg, gs, es) && n <= |es|
    requires Start(cfg, owner, gs[0]) && LoginsOwned(owner, es)
    requires typ in TYPES && TokenKey(typ, id) in gs[n].records
    ensures
      var token := gs[n].records[TokenKey(typ, id)];
      && token.typ == typ && token.id == id && token.providerID == owner(id)
      && Handout(typ, token.value, token.expiresAt) in gs[n].accounts(id).handed
  {
    EveryRunIsSeen(cfg, gs, es, id, n);
    StartIsSeen(cfg, owner, gs[0], id);
    LoginsSeen(owner, gs, es, id, n);
    var ls := Labels(gs, es, id, n);
    assert View(gs[n], id).slots[typ] == gs[n].records[TokenKey(typ, id)];
    RefreshSafety.SlotsAgree(For(cfg, id), owner(id), Views(gs, es, id, n), ls, |ls|, typ);
  }

  /** Every world an ID's machine passes is what the ID saw at some moment of the run. */
  lemma {:induction false} ViewsAreSeen(gs: seq<Gateways>, es: seq<Event>, id: string, n: nat, j: nat) returns (k: nat)
    requires n <= |es| < |gs| && j < |Views(gs, es, id, n)|
    ensures k <= n && Views(gs, es, id, n)[j] == View(gs[k], id)
  {
    if n == 0 {
      k := 0;
    } else if j < |Views(gs, es, id, n - 1)| {
      k := ViewsAreSeen(gs, es, id, n - 1, j);
    } else {
      k := n;
    }
  }

  /**
   * What a call for any ID returns without error, among calls for any other IDs, is an unexpired token of
   * that ID, the type asked for and the ID's provider, which had stood under the ID's key.
   */
  lemma EveryFreshTokenIsSafe(
    cfg: Config, owner: string -> string, gs: seq<Gateways>, es: seq<Event>, n: nat, pid: nat)
    requires WellKeyed(cfg.clients) && IsRun(cfg, gs, es) && n <= |es|
    requires Start(cfg, owner, gs[0]) && LoginsOwned(owner, es)
    requires pid in gs[n].callers
    requires gs[n].callers[pid].proc.pc.Done? && gs[n].callers[pid].proc.pc.result.Ok?
    ensures
      var c := gs[n].callers[pid];
      var token, key := c.proc.pc.result.value, TokenKey(c.proc.kind.Slot(), c.id);
      && token.id == c.id && token.typ == c.proc.kind.Slot() && token.providerID == owner(c.id)
      && Handout(c.proc.kind.Slot(), token.value, token.expiresAt) in gs[n].accounts(c.id).handed
      && !token.Expired(c.proc.pc.at)
      && exists k :: 0 <= k <= n && key in gs[k].records && gs[k].records[key] == token
  {
    var c := gs[n].callers[pid];
    var id, typ, token := c.id, c.proc.kind.Slot(), c.proc.pc.result.value;
    EveryRunIsSeen(cfg, gs, es, id, n);
    StartIsSeen(cfg, owner, gs[0], id);
    LoginsSeen(owner, gs, es, id, n);
    var ws, ls := Views(gs, es, id, n), Labels(gs, es, id, n);
    RefreshSafety.FreshTokenSafety(For(cfg, id), owner(id), ws, ls, |ls|, pid);
    var j :| 0 <= j <= |ls| && typ in ws[j].slots && ws[j].slots[typ] == token;
    var k := ViewsAreSeen(gs, es, id, n, j);
    SlotOf(gs[k].records, id, typ);
  }

  /** The event drops the refresh token of the ID's account. */
  predicate DropsOf(cfg: Config, g: Gateways, e: Event, id: string) {
    var l := Shadow(g, e, id);
    l.Some? && RefreshRotation.Drops(For(cfg, id), View(g, id), l.value)
  }

  ghost predicate DroppedBefore(cfg: Config, gs: seq<Gateways>, es: seq<Event>, id: string, n: nat)
    requires n <= |es| <= |gs|
  {
    exists k :: 0 <= k < n && DropsOf(cfg, gs[k], es[k], id)
  }

  lemma DroppedExtends(cfg: Config, ws: seq<World>, ls: seq<Label>, w': World, l: Label)
    requires |ws| == |ls| + 1
    ensures RefreshRotation.DroppedBefore(cfg, ws + [w'], ls + [l], |ls| + 1)
      <==> RefreshRotation.DroppedBefore(cfg, ws, ls, |ls|) || RefreshRotation.Drops(cfg, ws[|ls|], l)
  {
    var us, ms := ws + [w'], ls + [l];
    assert forall k :: 0 <= k < |ls| ==> us[k] == ws[k] && ms[k] == ls[k];
    assert us[|ls|] == ws[|ls|] && ms[|ls|] == l;
  }

  /** The ID's machine is at what the ID sees, after each of the first `n` events. */
  ghost predicate InStep(gs: seq<Gateways>, es: seq<Event>, id: string, n: nat)
    requires n <= |es| < |gs|
  {
    forall m :: 0 <= m <= n ==> Views(gs, es, id, m)[|Labels(gs, es, id, m)|] == View(gs[m], id)
  }

  lemma StaysInStep(cfg: Config, gs: seq<Gateways>, es: seq<Event>, id: string, n: nat)
    requires IsRun(cfg, gs, es) && n <= |es| && AllLabelled(gs[0])
    ensures InStep(gs, es, id, n)
  {
    forall m | 0 <= m <= n
      ensures Views(gs, es, id, m)[|Labels(gs, es, id, m)|] == View(gs[m], id)
    {
      EveryRunIsSeen(cfg, gs, es, id, m);
    }
  }

  lemma DroppedStep(cfg: Config, gs: seq<Gateways>, es: seq<Event>, id: string, n: nat)
    requires n < |es| < |gs|
    ensures DroppedBefore(cfg, gs, es, id, n + 1) <==>
      DroppedBefore(cfg, gs, es, id, n) || DropsOf(cfg, gs[n], es[n], id)
  {
  }

  /** The ID's machine has dropped its refresh token by then. */
  ghost predicate SeenDropped(cfg: Config, gs: seq<Gateways>, es: seq<Event>, id: string, n: nat)
    requires n <= |es| < |gs|
  {
    var ls := Labels(gs, es, id, n);
    RefreshRotation.DroppedBefore(For(cfg, id), Views(gs, es, id, n), ls, |ls|)
  }

  lemma SeenDroppedStep(cfg: Config, gs: seq<Gateways>, es: seq<Event>, id: string, n: nat)
    requires n < |es| < |gs| && Views(gs, es, id, n)[|Labels(gs, es, id, n)|] == View(gs[n], id)
    ensures SeenDropped(cfg, gs, es, id, n + 1) <==>
      SeenDropped(cfg, gs, es, id, n) || DropsOf(cfg, gs[n], es[n], id)
  {
    var ws, ls := Views(gs, es, id, n), Labels(gs, es, id, n);
    var l := Shadow(gs[n], es[n], id);
    if l.Some? {
      assert Views(gs, es, id, n + 1) == ws + [View(gs[n + 1], id)] && Labels(gs, es, id, n + 1) == ls + [l.value];
      DroppedExtends(For(cfg, id), ws, ls, View(gs[n + 1], id), l.value);
    } else {
      assert Views(gs, es, id, n + 1) == ws && Labels(gs, es, id, n + 1) == ls;
    }
  }

  lemma DroppedStaysSeen(cfg: Config, gs: seq<Gateways>, es: seq<Event>, id: string, n: nat)
    requires n < |es| < |gs| && InStep(gs, es, id, n)
    requires SeenDropped(cfg, gs, es, id, n) <==> DroppedBefore(cfg, gs, es, id, n)
    ensures SeenDropped(cfg, gs, es, id, n + 1) <==> DroppedBefore(cfg, gs, es, id, n + 1)
  {
    DroppedStep(cfg, gs, es, id, n);
    SeenDroppedStep(cfg, gs, es, id, n);
  }

  lemma {:induction false} DroppedIsSeen(cfg: Config, gs: seq<Gateways>, es: seq<Event>, id: string, n: nat)
    requires n <= |es| < |gs| && InStep(gs, es, id, n)
    ensures SeenDropped(cfg, gs, es, id, n) <==> DroppedBefore(cfg, gs, es, id, n)
  {
    if n > 0 {
      DroppedIsSeen(cfg, gs, es, id, n - 1);
      DroppedStaysSeen(cfg, gs, es, id, n - 1);
    }
  }

  predicate NoLoginOf(id: string, es: seq<Event>) {
    forall i :: 0 <= i < |es| && es[i].LogsIn? ==> es[i].token.id != id
  }

  lemma {:induction false} NoLoginSeen(gs: seq<Gateways>, es: seq<Event>, id: string, n: nat)
    requires n <= |es| <= |gs| && NoLoginOf(id, es)
    ensures RefreshRotation.NoLogin(Labels(gs, es, id, n))
  {
    if n > 0 {
      NoLoginSeen(gs, es, id, n - 1);
    }
  }

  /**
   * The refresh token of every ID whose provider rotates is conserved, whatever logins and calls on other
   * IDs do meanwhile: it is in the ID's slot or in one hand, if and only if no step so far dropped it.
   */
  lemma EveryRefreshTokenConserved(
    cfg: Config, gs: seq<Gateways>, es: seq<Event>, id: string, start: string, n: nat)
    requires IsRun(cfg, gs, es) && n <= |es| && gs[0].callers == map[] && NoLoginOf(id, es)
    requires gs[0].accounts(id).policy.Rotates? && RefreshRotation.Start(View(gs[0], id), start)
    ensures RefreshRotation.Conserved(View(gs[n], id), DroppedBefore(cfg, gs, es, id, n))
  {
    EveryRunIsSeen(cfg, gs, es, id, n);
    NoLoginSeen(gs, es, id, n);
    StaysInStep(cfg, gs, es, id, n);
    DroppedIsSeen(cfg, gs, es, id, n);
    var ls := Labels(gs, es, id, n);
    RefreshRotation.RefreshTokenConserved(For(cfg, id), Views(gs, es, id, n), ls, start, |ls|);
  }
}
