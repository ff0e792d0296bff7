/** With a provider that does not rotate refresh tokens, many instances may refresh with the same one at once. */
module RefreshKeepsToken {
  import opened Prelude
  import opened Tokens
  import opened RefreshCall
  import opened RefreshProtocol

  predicate Carries(token: AuthToken, v: string, expiry: Time) {
    token.value == v && token.expiresAt == expiry
  }

  predicate Start(w: World, v: string) {
    && w.procs == map[] && w.provider.policy.Keeps? && w.provider.live.Keys == {v}
    && RefreshType in w.slots && Carries(w.slots[RefreshType], v, w.provider.live[v])
  }

  predicate PcCarries(pc: Pc, v: string, expiry: Time) {
    match pc
    case Exchange(_, rt) => Carries(rt, v, expiry)
    case WriteAccess(_, issued) => Carries(issued.refresh, v, expiry)
    case WriteRefresh(_, issued) => Carries(issued.refresh, v, expiry)
    case _ => true
  }

  predicate Inv(w: World, v: string, expiry: Time) {
    && w.provider.policy.Keeps? && w.provider.live == map[v := expiry]
    && (RefreshType in w.slots ==> Carries(w.slots[RefreshType], v, expiry))
    && (RefreshType !in w.slots ==> PastExpiry(expiry, w.now))
    && forall p :: p in w.procs ==> PcCarries(w.procs[p].pc, v, expiry)
  }

  lemma StepKeepsInv(cfg: Config, w: World, l: Label, w': World, v: string, expiry: Time)
    requires Next(cfg, w, l, w') && !l.Login? && Inv(w, v, expiry)
    ensures Inv(w', v, expiry)
  {
    if l.Run? {
      var proc := w.procs[l.pid];
      assert PcCarries(proc.pc, v, expiry);
    }
  }

  /**
   * Without rotation the stored refresh token never changes, however many instances refresh at once
   * and whichever writes fail; it is missing only once it has expired.
   */
  lemma {:induction false} RefreshTokenStays(cfg: Config, ws: seq<World>, ls: seq<Label>, v: string, n: nat)
    requires IsRun(cfg, ws, ls) && Start(ws[0], v) && n <= |ls|
    requires forall i :: 0 <= i < |ls| ==> !ls[i].Login?
    ensures Inv(ws[n], v, ws[0].provider.live[v])
    ensures RefreshType in ws[n].slots ==> ws[n].slots[RefreshType].value == v
    ensures RefreshType !in ws[n].slots ==> PastExpiry(ws[0].provider.live[v], ws[n].now)
  {
    if n == 0 {
      assert ws[0].provider.live == map[v := ws[0].provider.live[v]];
    } else {
      RefreshTokenStays(cfg, ws, ls, v, n - 1);
      StepKeepsInv(cfg, ws[n - 1], ls[n - 1], ws[n], v, ws[0].provider.live[v]);
    }
  }
}
