/**
 * What holds in every interleaving, with or without rotation, with logins, store failures and
 * evictions: what the slots contain, and what a call can return.
 */
module RefreshSafety {
  import opened Prelude
  import opened Tokens
  import opened RefreshCall
  import opened RefreshProtocol

  /** A token of the requested ID and type, which the provider `owner` handed out as that, with that expiry. */
  predicate Genuine(cfg: Config, owner: string, p: Provider, token: AuthToken, typ: TokenType) {
    && token.id == cfg.tokenID && token.typ == typ && token.providerID == owner && token.value in p.stamp
    && Handout(typ, token.value, token.expiresAt) in p.handed
  }

  predicate InHand(cfg: Config, owner: string, p: Provider, token: AuthToken, typ: TokenType) {
    token == PLACEHOLDER || Genuine(cfg, owner, p, token, typ)
  }

  predicate GenuineSet(cfg: Config, owner: string, p: Provider, s: AuthTokenSet) {
    && Genuine(cfg, owner, p, s.access, AccessType)
    && Genuine(cfg, owner, p, s.refresh, RefreshType)
    && (s.idToken.id != "" ==> Genuine(cfg, owner, p, s.idToken, IdType))
  }

  predicate SlotsGenuine(cfg: Config, owner: string, w: World) {
    forall typ :: typ in w.slots && !typ.UnknownType? ==> Genuine(cfg, owner, w.provider, w.slots[typ], typ)
  }

  predicate ProcGenuine(cfg: Config, owner: string, p: Provider, proc: Proc) {
    var slot := proc.kind.Slot();
    match proc.pc
    case ReadSlot => true
    case CheckSoon(token) => InHand(cfg, owner, p, token, slot)
    case ReadRefresh(token) => InHand(cfg, owner, p, token, slot)
    case Exchange(token, rt) => InHand(cfg, owner, p, token, slot) && Genuine(cfg, owner, p, rt, RefreshType)
    case WriteAccess(token, issued) => InHand(cfg, owner, p, token, slot) && GenuineSet(cfg, owner, p, issued)
    case WriteRefresh(token, issued) => InHand(cfg, owner, p, token, slot) && GenuineSet(cfg, owner, p, issued)
    case WriteId(token, issued) => InHand(cfg, owner, p, token, slot) && GenuineSet(cfg, owner, p, issued)
      && issued.idToken.id != ""
    case Reload(token) => InHand(cfg, owner, p, token, slot)
    case FinalCheck(token) => InHand(cfg, owner, p, token, slot)
    case Done(result, at) => result.Ok? ==> Genuine(cfg, owner, p, result.value, slot) && !result.value.Expired(at)
  }

  predicate Safe(cfg: Config, owner: string, w: World) {
    && SECOND < w.now
    && SlotsGenuine(cfg, owner, w)
    && forall p :: p in w.procs ==> ProcGenuine(cfg, owner, w.provider, w.procs[p])
  }

  /** Nobody running, a clock past year 1, and slots filled by logins through `owner`. */
  predicate Start(cfg: Config, owner: string, w: World) {
    w.procs == map[] && SECOND < w.now && SlotsGenuine(cfg, owner, w)
  }

  /** Logins that write under this token ID all come from the provider `owner` (see LoginTokens.PrefixOwner). */
  predicate LoginsFrom(owner: string, ls: seq<Label>) {
    forall i :: 0 <= i < |ls| && ls[i].Login? ==> ls[i].token.providerID == owner
  }

  ghost predicate Grows(p: Provider, p': Provider) {
    (forall v :: v in p.stamp ==> v in p'.stamp) && p.handed <= p'.handed
  }

  lemma GrantedSetIsGenuine(cfg: Config, owner: string, p: Provider, rt: AuthToken, g: Grant)
    requires WellKeyed(cfg.clients) && rt.providerID in cfg.clients
    requires Genuine(cfg, owner, p, rt, RefreshType) && FreshGrant(p, g)
    ensures GenuineSet(cfg, owner, Issue(p, rt, g),
        Relabelled(BuildTokenSet(cfg.clients[rt.providerID], rt, g), cfg.tokenID))
  {
  }

  /** One step of a call hands on only genuine tokens and writes only genuine tokens. */
  lemma MoveIsGenuine(cfg: Config, owner: string, w: World, proc: Proc, ok: bool, reply: Reply, p': Provider)
    requires WellKeyed(cfg.clients) && SlotsGenuine(cfg, owner, w) && ProcGenuine(cfg, owner, w.provider, proc)
    requires Contacts(cfg, proc.pc) ==>
      Allowed(w.provider, w.now, proc.pc.rt, reply) && p' == ProviderAfter(w.provider, proc.pc.rt, reply)
    requires !Contacts(cfg, proc.pc) ==> p' == w.provider
    requires SECOND < w.now
    ensures Grows(w.provider, p')
    ensures var m := MoveOf(cfg, w, proc, ok, reply);
      && ProcGenuine(cfg, owner, p', proc.(pc := m.pc))
      && (m.write.Some? ==>
            !m.write.value.typ.UnknownType? && Genuine(cfg, owner, p', m.write.value, m.write.value.typ))
  {
    if proc.pc.Exchange? && Contacts(cfg, proc.pc) && reply.Granted? {
      GrantedSetIsGenuine(cfg, owner, w.provider, proc.pc.rt, reply.grant);
    }
  }

  lemma StepStaysSafe(cfg: Config, owner: string, w: World, l: Label, w': World)
    requires WellKeyed(cfg.clients) && Next(cfg, w, l, w') && Safe(cfg, owner, w)
    requires l.Login? ==> l.token.providerID == owner
    ensures Safe(cfg, owner, w')
  {
    if l.Run? {
      MoveIsGenuine(cfg, owner, w, w.procs[l.pid], l.ok, l.reply, w'.provider);
    }
    assert Grows(w.provider, w'.provider);
    forall q | q in w'.procs
      ensures ProcGenuine(cfg, owner, w'.provider, w'.procs[q])
    {
      assert q in w.procs ==> ProcGenuine(cfg, owner, w.provider, w.procs[q]);
    }
  }

  lemma {:induction false} SafeAlongRun(cfg: Config, owner: string, ws: seq<World>, ls: seq<Label>, n: nat)
    requires WellKeyed(cfg.clients) && IsRun(cfg, ws, ls) && Start(cfg, owner, ws[0]) && LoginsFrom(owner, ls)
        && n <= |ls|
    ensures Safe(cfg, owner, ws[n])
  {
    if n > 0 {
      SafeAlongRun(cfg, owner, ws, ls, n - 1);
      StepStaysSafe(cfg, owner, ws[n - 1], ls[n - 1], ws[n]);
    }
  }

  /** In every interleaving each slot holds a token of its own type and ID, and all slots one provider's. */
  lemma SlotsAgree(cfg: Config, owner: string, ws: seq<World>, ls: seq<Label>, n: nat, typ: TokenType)
    requires WellKeyed(cfg.clients) && IsRun(cfg, ws, ls) && Start(cfg, owner, ws[0]) && LoginsFrom(owner, ls)
        && n <= |ls|
    requires typ in ws[n].slots && !typ.UnknownType?
    ensures ws[n].slots[typ].typ == typ && ws[n].slots[typ].id == cfg.tokenID && ws[n].slots[typ].providerID == owner
    ensures Handout(typ, ws[n].slots[typ].value, ws[n].slots[typ].expiresAt) in ws[n].provider.handed
  {
    SafeAlongRun(cfg, owner, ws, ls, n);
  }

  // ---- What a call returns --------------------------------------------------------------

  /** At some moment up to `n` the token stood in its slot. */
  ghost predicate Stood(ws: seq<World>, n: nat, typ: TokenType, token: AuthToken)
    requires n < |ws|
  {
    exists k :: 0 <= k <= n && typ in ws[k].slots && ws[k].slots[typ] == token
  }

  ghost predicate StoodInHand(ws: seq<World>, n: nat, typ: TokenType, token: AuthToken)
    requires n < |ws|
  {
    token == PLACEHOLDER || Stood(ws, n, typ, token)
  }

  ghost predicate PcStood(ws: seq<World>, n: nat, proc: Proc)
    requires n < |ws|
  {
    var slot := proc.kind.Slot();
    match proc.pc
    case ReadSlot => true
    case CheckSoon(token) => StoodInHand(ws, n, slot, token)
    case ReadRefresh(token) => StoodInHand(ws, n, slot, token)
    case Exchange(token, _) => StoodInHand(ws, n, slot, token)
    case WriteAccess(token, _) => StoodInHand(ws, n, slot, token)
    case WriteRefresh(token, issued) => StoodInHand(ws, n, slot, token) && Stood(ws, n, AccessType, issued.access)
    case WriteId(token, issued) => StoodInHand(ws, n, slot, token) && Stood(ws, n, AccessType, issued.access)
    case Reload(token) => StoodInHand(ws, n, slot, token)
    case FinalCheck(token) => StoodInHand(ws, n, slot, token)
    case Done(result, at) => result.Ok? ==> StoodInHand(ws, n, slot, result.value)
  }

  lemma StoodStep(cfg: Config, ws: seq<World>, ls: seq<Label>, n: nat)
    requires IsRun(cfg, ws, ls) && n < |ls| && ls[n].Run?
    requires ls[n].pid in ws[n].procs && PcStood(ws, n, ws[n].procs[ls[n].pid])
    requires forall typ, token :: Stood(ws, n, typ, token) ==> Stood(ws, n + 1, typ, token)
    ensures ls[n].pid in ws[n + 1].procs && PcStood(ws, n + 1, ws[n + 1].procs[ls[n].pid])
  {
    var w, l, w' := ws[n], ls[n], ws[n + 1];
    assert Next(cfg, w, l, w');
    var proc := w.procs[l.pid];
    var seen := Seen(w, proc);
    var m := MoveOf(cfg, w, proc, l.ok, l.reply);
    assert seen.Some? ==> Stood(ws, n + 1, Reads(proc.kind, proc.pc).value, seen.value);
    assert m.write.Some? ==> Stood(ws, n + 1, m.write.value.typ, m.write.value);
  }

  lemma {:induction false} StoodAlongRun(cfg: Config, ws: seq<World>, ls: seq<Label>, n: nat, pid: nat)
    requires IsRun(cfg, ws, ls) && ws[0].procs == map[] && n <= |ls| && pid in ws[n].procs
    ensures PcStood(ws, n, ws[n].procs[pid])
  {
    if n > 0 {
      var w, l, w' := ws[n - 1], ls[n - 1], ws[n];
      assert Next(cfg, w, l, w');
      forall typ, token | Stood(ws, n - 1, typ, token)
        ensures Stood(ws, n, typ, token)
      {
      }
      if pid in w.procs {
        StoodAlongRun(cfg, ws, ls, n - 1, pid);
        if l.Run? && l.pid == pid {
          StoodStep(cfg, ws, ls, n - 1);
        }
      }
    }
  }

  /**
   * In every interleaving, a token returned without error has the requested ID and type, was handed out
   * as such a token by the ID's provider, with that expiry, had stood in its slot, had not expired at the
   * final check, and is not the placeholder.
   */
  lemma FreshTokenSafety(cfg: Config, owner: string, ws: seq<World>, ls: seq<Label>, n: nat, pid: nat)
    requires WellKeyed(cfg.clients) && IsRun(cfg, ws, ls) && Start(cfg, owner, ws[0]) && LoginsFrom(owner, ls)
        && n <= |ls|
    requires pid in ws[n].procs && ws[n].procs[pid].pc.Done? && ws[n].procs[pid].pc.result.Ok?
    ensures
      var proc := ws[n].procs[pid];
      var token := proc.pc.result.value;
      && token.id == cfg.tokenID && token.typ == proc.kind.Slot() && token.providerID == owner
      && Handout(proc.kind.Slot(), token.value, token.expiresAt) in ws[n].provider.handed
      && !token.Expired(proc.pc.at) && token != PLACEHOLDER
      && Stood(ws, n, proc.kind.Slot(), token)
  {
    SafeAlongRun(cfg, owner, ws, ls, n);
    StoodAlongRun(cfg, ws, ls, n, pid);
    var proc := ws[n].procs[pid];
    assert ProcGenuine(cfg, owner, ws[n].provider, proc);
  }
}
