/** In every interleaving, what a call that refreshed writes and returns is what the provider granted to it. */
module RefreshGrants {
  import opened Prelude
  import opened Tokens
  import opened RefreshCall
  import opened RefreshProtocol
  import opened TokenAnswers

  /** Step `k` is the call's exchange: the provider grants to it, for the refresh token it read. */
  predicate GrantedAt(
    cfg: Config, ws: seq<World>, ls: seq<Label>, k: nat, pid: nat, rt: AuthToken, g: Grant)
    requires k < |ls| < |ws|
  {
    && ls[k].Run? && ls[k].pid == pid && ls[k].reply == Granted(g)
    && pid in ws[k].procs && ws[k].procs[pid].pc.Exchange? && ws[k].procs[pid].pc.rt == rt
    && rt.providerID in cfg.clients
  }

  /** What the call holds to write was granted to it before step `n`. */
  ghost predicate HoldsGrant(cfg: Config, ws: seq<World>, ls: seq<Label>, n: nat, pid: nat, s: AuthTokenSet)
    requires n <= |ls| < |ws|
  {
    exists k, rt, g ::
      0 <= k < n && GrantedAt(cfg, ws, ls, k, pid, rt, g) && FromGrant(cfg.clients, cfg.tokenID, rt, g, s)
  }

  ghost predicate PcHoldsGrant(cfg: Config, ws: seq<World>, ls: seq<Label>, n: nat, pid: nat, pc: Pc)
    requires n <= |ls| < |ws|
  {
    match pc
    case WriteAccess(_, issued) => HoldsGrant(cfg, ws, ls, n, pid, issued)
    case WriteRefresh(_, issued) => HoldsGrant(cfg, ws, ls, n, pid, issued)
    case WriteId(_, issued) => HoldsGrant(cfg, ws, ls, n, pid, issued) && issued.idToken.id != ""
    case _ => true
  }

  lemma HoldsGrantStays(cfg: Config, ws: seq<World>, ls: seq<Label>, n: nat, pid: nat, s: AuthTokenSet)
    requires n < |ls| < |ws| && HoldsGrant(cfg, ws, ls, n, pid, s)
    ensures HoldsGrant(cfg, ws, ls, n + 1, pid, s)
  {
    var k, rt, g :|
      0 <= k < n && GrantedAt(cfg, ws, ls, k, pid, rt, g) && FromGrant(cfg.clients, cfg.tokenID, rt, g, s);
  }

  lemma StepHoldsGrant(cfg: Config, ws: seq<World>, ls: seq<Label>, n: nat, pid: nat)
    requires WellKeyed(cfg.clients) && IsRun(cfg, ws, ls) && n < |ls| && pid in ws[n].procs
    requires PcHoldsGrant(cfg, ws, ls, n, pid, ws[n].procs[pid].pc)
    ensures pid in ws[n + 1].procs && PcHoldsGrant(cfg, ws, ls, n + 1, pid, ws[n + 1].procs[pid].pc)
  {
    var w, l, pc := ws[n], ls[n], ws[n].procs[pid].pc;
    assert Next(cfg, w, l, ws[n + 1]);
    if pc.WriteAccess? || pc.WriteRefresh? || pc.WriteId? {
      HoldsGrantStays(cfg, ws, ls, n, pid, pc.issued);
    } else if l.Run? && l.pid == pid && pc.Exchange? && l.reply.Granted? && pc.rt.providerID in cfg.clients {
      SetIsFromGrant(cfg.clients, cfg.tokenID, pc.rt, l.reply.grant);
      assert GrantedAt(cfg, ws, ls, n, pid, pc.rt, l.reply.grant);
    }
  }

  lemma {:induction false} GrantAlongRun(cfg: Config, ws: seq<World>, ls: seq<Label>, n: nat, pid: nat)
    requires WellKeyed(cfg.clients) && IsRun(cfg, ws, ls) && ws[0].procs == map[] && n <= |ls| && pid in ws[n].procs
    ensures PcHoldsGrant(cfg, ws, ls, n, pid, ws[n].procs[pid].pc)
  {
    if n > 0 {
      assert Next(cfg, ws[n - 1], ls[n - 1], ws[n]);
      if pid in ws[n - 1].procs {
        GrantAlongRun(cfg, ws, ls, n - 1, pid);
        StepHoldsGrant(cfg, ws, ls, n - 1, pid);
      }
    }
  }

  /** A step of a call that puts a token into a slot. */
  predicate Writes(w: World, l: Label) {
    && l.Run? && l.pid in w.procs && l.ok
    && (w.procs[l.pid].pc.WriteAccess? || w.procs[l.pid].pc.WriteRefresh? || w.procs[l.pid].pc.WriteId?)
  }

  /**
   * What a call writes, in every interleaving: the slot of its step gets the token of that kind which the
   * provider granted to that very call, with the granted value and date, and no other slot changes. (A
   * refresh token used again is refused unless it was stored as one.)
   */
  lemma WritesItsGrant(cfg: Config, ws: seq<World>, ls: seq<Label>, n: nat) returns (k: nat, rt: AuthToken, g: Grant)
    requires WellKeyed(cfg.clients) && IsRun(cfg, ws, ls) && ws[0].procs == map[] && n < |ls| && Writes(ws[n], ls[n])
    ensures k < n && GrantedAt(cfg, ws, ls, k, ls[n].pid, rt, g)
    ensures
      var slots, slots', id := ws[n].slots, ws[n + 1].slots, cfg.tokenID;
      match ws[n].procs[ls[n].pid].pc
      case WriteAccess(_, _) => slots' == slots[AccessType := AccessOf(cfg.clients, id, rt, g)]
      case WriteRefresh(_, _) =>
        slots' == if g.refresh == "" && rt.typ != RefreshType then slots
          else slots[RefreshType := RefreshOf(cfg.clients, id, rt, g)]
      case _ => NewIdToken(id, g) && slots' == slots[IdType := IdOf(id, rt, g)]
  {
    var pid, pc := ls[n].pid, ws[n].procs[ls[n].pid].pc;
    assert Next(cfg, ws[n], ls[n], ws[n + 1]);
    GrantAlongRun(cfg, ws, ls, n, pid);
    k, rt, g :| 0 <= k < n && GrantedAt(cfg, ws, ls, k, pid, rt, g)
      && FromGrant(cfg.clients, cfg.tokenID, rt, g, pc.issued);
  }

  /** The step that ends a whole refresh: from the last write to the final check. */
  predicate EndsRefresh(ws: seq<World>, ls: seq<Label>, m: nat, pid: nat)
    requires m < |ls| < |ws|
  {
    && ls[m].Run? && ls[m].pid == pid && pid in ws[m].procs && pid in ws[m + 1].procs
    && (ws[m].procs[pid].pc.WriteRefresh? || ws[m].procs[pid].pc.WriteId?)
    && ws[m + 1].procs[pid].pc.FinalCheck?
  }

  /** `token` is what a call of this kind should answer with after the grant: `held` is what it held before. */
  predicate Answers(cfg: Config, kind: Kind, held: AuthToken, rt: AuthToken, g: Grant, token: AuthToken)
    requires rt.providerID in cfg.clients
  {
    if kind.FreshAccess? then token == AccessOf(cfg.clients, cfg.tokenID, rt, g)
    else if NewIdToken(cfg.tokenID, g) then token == IdOf(cfg.tokenID, rt, g)
    else token == held
  }

  lemma RefreshEndsInGrant(cfg: Config, ws: seq<World>, ls: seq<Label>, m: nat, pid: nat)
    returns (k: nat, rt: AuthToken, g: Grant)
    requires WellKeyed(cfg.clients) && IsRun(cfg, ws, ls) && ws[0].procs == map[] && m < |ls|
    requires EndsRefresh(ws, ls, m, pid)
    ensures k < m && GrantedAt(cfg, ws, ls, k, pid, rt, g)
    ensures
      var proc := ws[m].procs[pid];
      Answers(cfg, proc.kind, proc.pc.token, rt, g, ws[m + 1].procs[pid].pc.token)
  {
    var pc := ws[m].procs[pid].pc;
    assert Next(cfg, ws[m], ls[m], ws[m + 1]);
    GrantAlongRun(cfg, ws, ls, m, pid);
    k, rt, g :| 0 <= k < m && GrantedAt(cfg, ws, ls, k, pid, rt, g)
      && FromGrant(cfg.clients, cfg.tokenID, rt, g, pc.issued);
  }

  /** What the call makes of the token it holds at its final check: it waits with it, or has answered. */
  predicate Settled(pc: Pc, token: AuthToken) {
    match pc
    case FinalCheck(t) => t == token
    case Done(r, at) => r == if Past(token.expiresAt, at) then Err(TokenExpired) else Ok(token)
    case _ => false
  }

  lemma {:induction false} StaysSettled(
    cfg: Config, ws: seq<World>, ls: seq<Label>, m: nat, n: nat, pid: nat, token: AuthToken)
    requires IsRun(cfg, ws, ls) && m <= n <= |ls| && pid in ws[m].procs && Settled(ws[m].procs[pid].pc, token)
    ensures pid in ws[n].procs && ws[n].procs[pid].kind == ws[m].procs[pid].kind && Settled(ws[n].procs[pid].pc, token)
    decreases n
  {
    if m < n {
      StaysSettled(cfg, ws, ls, m, n - 1, pid, token);
      assert Next(cfg, ws[n - 1], ls[n - 1], ws[n]);
    }
  }

  /**
   * A call that refreshed answers with what it was granted, in every interleaving: `GetFreshAccessToken`
   * with that access token, `GetFreshIDToken` with that ID token, or with what it held if none came; unless
   * that has expired by the final check.
   */
  lemma RefreshedCallAnswers(cfg: Config, ws: seq<World>, ls: seq<Label>, m: nat, n: nat, pid: nat)
    returns (k: nat, rt: AuthToken, g: Grant, token: AuthToken)
    requires WellKeyed(cfg.clients) && IsRun(cfg, ws, ls) && ws[0].procs == map[] && m < n <= |ls|
    requires EndsRefresh(ws, ls, m, pid) && pid in ws[n].procs && ws[n].procs[pid].pc.Done?
    ensures k < m && GrantedAt(cfg, ws, ls, k, pid, rt, g)
    ensures Answers(cfg, ws[n].procs[pid].kind, ws[m].procs[pid].pc.token, rt, g, token)
    ensures
      var end := ws[n].procs[pid].pc;
      end.result == if Past(token.expiresAt, end.at) then Err(TokenExpired) else Ok(token)
  {
    k, rt, g := RefreshEndsInGrant(cfg, ws, ls, m, pid);
    token := ws[m + 1].procs[pid].pc.token;
    assert Next(cfg, ws[m], ls[m], ws[m + 1]);
    StaysSettled(cfg, ws, ls, m + 1, n, pid, token);
  }
}
