/**
 * Any number of gateway instances refreshing one token ID through one Redis and one provider.
 * Every step of a call is one transition, so all interleavings are runs of this machine.
 */
module RefreshProtocol {
  import opened Prelude
  import opened Tokens
  import opened RefreshCall

  /**
   * What a provider does with a refresh token it grants for (section 6 of RFC 6749): keep it, replace it
   * by a new one, or leave it valid beside a new one, if it issues one.
   */
  datatype Policy = Keeps | Rotates | Extends

  /** A token the provider handed out: as which kind of token, its value and its expiry. */
  datatype Handout = Handout(typ: TokenType, value: string, expiresAt: Time)

  /**
   * The provider: which refresh tokens it still accepts (with their expiry), the issue number of every
   * token value it ever handed out, and the tokens themselves. A value's number is its generation.
   */
  datatype Provider = Provider(
    policy: Policy, live: map<string, Time>, stamp: map<string, nat>, count: nat, handed: set<Handout>)

  datatype Proc = Proc(kind: Kind, pc: Pc)

  datatype World = World(
    now: Time, slots: map<TokenType, AuthToken>, provider: Provider, procs: map<nat, Proc>)

  datatype Label =
    | Tick(later: Time)
    | Evict(slot: TokenType)                     // Redis drops a record past its deadline
    | Login(token: AuthToken)                    // one of the three writes of a login
    | Spawn(pid: nat, kind: Kind)
    | Run(pid: nat, ok: bool, reply: Reply)

  // ---- Transitions ----------------------------------------------------------------------

  predicate FreshGrant(p: Provider, g: Grant) {
    && g.ulid != ""
    && (p.policy.Keeps? ==> g.refresh == "") && (p.policy.Rotates? ==> g.refresh != "")
    && g.access !in p.stamp && (g.refresh != "" ==> g.refresh !in p.stamp)
    && (g.idToken.Some? ==> g.idToken.value.value !in p.stamp)
  }

  /** A provider may refuse anything; it grants only for a live, unexpired refresh token. */
  predicate Allowed(p: Provider, now: Time, rt: AuthToken, reply: Reply) {
    match reply
    case Refused => true
    case Garbled(g) => rt.value in p.live && !PastExpiry(p.live[rt.value], now) && FreshGrant(p, g)
    case Granted(g) => rt.value in p.live && !PastExpiry(p.live[rt.value], now) && FreshGrant(p, g)
  }

  /** What a grant hands out. */
  function HandedIn(g: Grant): set<Handout> {
    {Handout(AccessType, g.access, g.accessExpiry)}
    + (if g.refresh == "" then {} else {Handout(RefreshType, g.refresh, g.refreshExpiry)})
    + (if g.idToken.None? then {} else {Handout(IdType, g.idToken.value.value, g.idToken.value.expiresAt)})
  }

  function Issue(p: Provider, rt: AuthToken, g: Grant): Provider {
    var n := p.count + 1;
    var handed := p.handed + HandedIn(g);
    var s := p.stamp[g.access := n];
    var s' := if g.idToken.Some? then s[g.idToken.value.value := n] else s;
    if g.refresh == "" then p.(stamp := s', count := n, handed := handed)
    else
      var live := if p.policy.Rotates? then p.live - {rt.value} else p.live;
      p.(live := live + map[g.refresh := g.refreshExpiry], stamp := s'[g.refresh := n], count := n, handed := handed)
  }

  function ProviderAfter(p: Provider, rt: AuthToken, reply: Reply): Provider {
    match reply
    case Refused => p
    case Garbled(g) => Issue(p, rt, g)
    case Granted(g) => Issue(p, rt, g)
  }

  /** A login's token is the newest, and live if it is a refresh token. */
  function Opened(p: Provider, token: AuthToken): Provider {
    p.(stamp := p.stamp[token.value := p.count + 1], count := p.count + 1,
       live := if token.typ == RefreshType then p.live[token.value := token.expiresAt] else p.live,
       handed := p.handed + {Handout(token.typ, token.value, token.expiresAt)})
  }

  function Seen(w: World, proc: Proc): Option<AuthToken> {
    var r := Reads(proc.kind, proc.pc);
    if r.None? then None else Find(w.slots, r.value)
  }

  function MoveOf(cfg: Config, w: World, proc: Proc, ok: bool, reply: Reply): Move {
    Advance(cfg, proc.kind, proc.pc, Seen(w, proc), Input(w.now, ok, reply))
  }

  predicate Contacts(cfg: Config, pc: Pc) {
    pc.Exchange? && pc.rt.providerID in cfg.clients
  }

  predicate Enabled(cfg: Config, w: World, l: Label) {
    match l
    case Tick(later) => w.now <= later
    case Evict(slot) =>
      slot in w.slots && w.slots[slot].expiresAt != 0 && Deadline(w.slots[slot].expiresAt) < w.now
    case Login(token) =>
      token.id == cfg.tokenID && token.typ in {AccessType, RefreshType, IdType} && token.value !in w.provider.stamp
    case Spawn(pid, _) => pid !in w.procs
    case Run(pid, _, reply) =>
      && pid in w.procs && !w.procs[pid].pc.Done?
      && if Contacts(cfg, w.procs[pid].pc) then Allowed(w.provider, w.now, w.procs[pid].pc.rt, reply)
        else reply.Refused?
  }

  function Apply(cfg: Config, w: World, l: Label): World
    requires Enabled(cfg, w, l)
  {
    match l
    case Tick(later) => w.(now := later)
    case Evict(slot) => w.(slots := w.slots - {slot})
    case Login(token) =>
      w.(slots := w.slots[token.typ := token], provider := Opened(w.provider, token))
    case Spawn(pid, kind) => w.(procs := w.procs[pid := Proc(kind, ReadSlot)])
    case Run(pid, ok, reply) =>
      var proc := w.procs[pid];
      var m := MoveOf(cfg, w, proc, ok, reply);
      w.(procs := w.procs[pid := proc.(pc := m.pc)],
         slots := if m.write.Some? then w.slots[m.write.value.typ := m.write.value] else w.slots,
         provider := if Contacts(cfg, proc.pc) then ProviderAfter(w.provider, proc.pc.rt, reply) else w.provider)
  }

  predicate Next(cfg: Config, w: World, l: Label, w': World) {
    Enabled(cfg, w, l) && w' == Apply(cfg, w, l)
  }

  /** A run: `ls[i]` leads from `ws[i]` to `ws[i + 1]`. */
  predicate IsRun(cfg: Config, ws: seq<World>, ls: seq<Label>) {
    && |ws| == |ls| + 1
    && forall i :: 0 <= i < |ls| ==> Next(cfg, ws[i], ls[i], ws[i + 1])
  }
}
