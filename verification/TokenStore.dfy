/**
 * The token store as one instance runs it: its methods are shown to do exactly what the steps of
 * RefreshCall do when nothing interferes.
 */
module TokenStores {
  import opened Prelude
  import opened Tokens
  import opened RefreshCall
  import opened TokenRepos

  /**
   * What the outside world does during one call, indexed by the steps the call still has to take:
   * the clock, whether Redis answers, and how the provider replies to a refresh token.
   */
  datatype CallEnv = CallEnv(clock: nat -> Time, up: nat -> bool, provider: AuthToken -> Reply)
  {
    /** The clock does not run backwards, and has passed year 1. */
    ghost predicate Sound() {
      (forall i: nat, j: nat :: i <= j ==> clock(j) <= clock(i)) && forall i: nat :: SECOND < clock(i)
    }

    function At(pc: Pc): Input {
      Input(clock(StepsLeft(pc)), up(StepsLeft(pc)), if pc.Exchange? then provider(pc.rt) else Refused)
    }
  }

  const EXCHANGE: nat := 6   // StepsLeft of the exchange

  datatype Outcome = Outcome(result: Result<AuthToken, CallError>, records: Records, refreshed: bool)

  function StepOf(cfg: Config, kind: Kind, pc: Pc, records: Records, evicts: bool, env: CallEnv): Move {
    var inp := env.At(pc);
    var r := Reads(kind, pc);
    Advance(cfg, kind, pc, if r.None? then None else Look(records, evicts, r.value, cfg.tokenID, inp.now), inp)
  }

  /** Runs a call from `pc` to its end with no interference. `refreshed` says that a whole refresh succeeded. */
  function Finish(cfg: Config, kind: Kind, pc: Pc, records: Records, evicts: bool, env: CallEnv): Outcome
    decreases StepsLeft(pc)
  {
    if pc.Done? then Outcome(pc.result, records, false)
    else
      var m := StepOf(cfg, kind, pc, records, evicts, env);
      var o := Finish(cfg, kind, m.pc, if m.write.Some? then Put(records, m.write.value) else records, evicts, env);
      if (pc.WriteRefresh? || pc.WriteId?) && m.pc.FinalCheck? then o.(refreshed := true) else o
  }

  // ---- The steps put together -----------------------------------------------------------

  datatype Refreshed = Refreshed(issued: Option<AuthTokenSet>, records: Records)

  /** The effect of `refreshAccessToken` from its three writes on. */
  function WriteAll(issued: AuthTokenSet, records: Records, up: nat -> bool): Refreshed {
    if !CanStore(issued.access, AccessType, up(5)) then Refreshed(None, records)
    else var r := Put(records, issued.access);
      if !CanStore(issued.refresh, RefreshType, up(4)) then Refreshed(None, r)
      else var r' := Put(r, issued.refresh);
        if issued.idToken.id == "" then Refreshed(Some(issued), r')
        else if !CanStore(issued.idToken, IdType, up(3)) then Refreshed(None, r')
        else Refreshed(Some(issued), Put(r', issued.idToken))
  }

  /** What an undisturbed `refreshAccessToken` receives from the provider, if it gets that far. */
  function Received(cfg: Config, records: Records, evicts: bool, env: CallEnv): Option<AuthTokenSet> {
    var rt := Look(records, evicts, RefreshType, cfg.tokenID, env.clock(7));
    if !env.up(7) || rt.None? then None
    else match RefreshWith(cfg.clients, rt.value, env.provider(rt.value))
      case None => None
      case Some(issued) => Some(Relabelled(issued, cfg.tokenID))
  }

  function Refresh(cfg: Config, records: Records, evicts: bool, env: CallEnv): Refreshed {
    match Received(cfg, records, evicts, env)
    case None => Refreshed(None, records)
    case Some(issued) => WriteAll(issued, records, env.up)
  }

  function Checked(token: AuthToken, now: Time): Result<AuthToken, CallError> {
    if token.Expired(now) then Err(TokenExpired) else Ok(token)
  }

  lemma FinishCheck(cfg: Config, kind: Kind, token: AuthToken, records: Records, evicts: bool, env: CallEnv)
    ensures Finish(cfg, kind, FinalCheck(token), records, evicts, env) ==
        Outcome(Checked(token, env.clock(1)), records, false)
  {
    assert StepOf(cfg, kind, FinalCheck(token), records, evicts, env).pc.Done?;
  }

  /** The token in hand after a reload: the stored one if Redis shows it, else the old one. */
  function Reloaded(
    cfg: Config, kind: Kind, token: AuthToken, records: Records, evicts: bool, env: CallEnv): AuthToken {
    var again := Look(records, evicts, kind.Slot(), cfg.tokenID, env.clock(2));
    if env.up(2) && again.Some? then again.value else token
  }

  lemma FinishReload(cfg: Config, kind: Kind, token: AuthToken, records: Records, evicts: bool, env: CallEnv)
    ensures Finish(cfg, kind, Reload(token), records, evicts, env) ==
            Outcome(Checked(Reloaded(cfg, kind, token, records, evicts, env), env.clock(1)), records, false)
  {
    FinishCheck(cfg, kind, Reloaded(cfg, kind, token, records, evicts, env), records, evicts, env);
  }

  lemma FinishWriteId(
    cfg: Config, kind: Kind, token: AuthToken, issued: AuthTokenSet, records: Records, evicts: bool, env: CallEnv)
    ensures Finish(cfg, kind, WriteId(token, issued), records, evicts, env) ==
      if CanStore(issued.idToken, IdType, env.up(3))
      then Finish(cfg, kind, AfterRefresh(kind, token, issued), Put(records, issued.idToken), evicts,
        env).(refreshed := true)
      else Finish(cfg, kind, Reload(token), records, evicts, env)
  {
  }

  lemma FinishWriteRefresh(
    cfg: Config, kind: Kind, token: AuthToken, issued: AuthTokenSet, records: Records, evicts: bool, env: CallEnv)
    ensures Finish(cfg, kind, WriteRefresh(token, issued), records, evicts, env) ==
      var r := Put(records, issued.refresh);
      if !CanStore(issued.refresh, RefreshType, env.up(4)) then Finish(cfg, kind, Reload(token), records, evicts, env)
      else if issued.idToken.id != "" then Finish(cfg, kind, WriteId(token, issued), r, evicts, env)
      else Finish(cfg, kind, AfterRefresh(kind, token, issued), r, evicts, env).(refreshed := true)
  {
  }

  lemma FinishWriteAccess(
    cfg: Config, kind: Kind, token: AuthToken, issued: AuthTokenSet, records: Records, evicts: bool, env: CallEnv)
    ensures Finish(cfg, kind, WriteAccess(token, issued), records, evicts, env) ==
      if !CanStore(issued.access, AccessType, env.up(5)) then Finish(cfg, kind, Reload(token), records, evicts, env)
      else Finish(cfg, kind, WriteRefresh(token, issued), Put(records, issued.access), evicts, env)
  {
  }

  lemma FinishExchange(
    cfg: Config, kind: Kind, token: AuthToken, rt: AuthToken, records: Records, evicts: bool, env: CallEnv)
    ensures
      Finish(cfg, kind, Exchange(token, rt), records, evicts, env) ==
      match RefreshWith(cfg.clients, rt, env.provider(rt))
      case None => Finish(cfg, kind, Reload(token), records, evicts, env)
      case Some(issued) => Finish(cfg, kind, WriteAccess(token, Relabelled(issued, cfg.tokenID)), records, evicts, env)
  {
  }

  lemma FinishReadRefresh(cfg: Config, kind: Kind, token: AuthToken, records: Records, evicts: bool, env: CallEnv)
    ensures
      Finish(cfg, kind, ReadRefresh(token), records, evicts, env) ==
      var rt := Look(records, evicts, RefreshType, cfg.tokenID, env.clock(7));
      Finish(cfg, kind, if env.up(7) && rt.Some? then Exchange(token, rt.value)
        else Reload(token), records, evicts, env)
  {
  }

  /** From `ReadRefresh`, the steps amount to `Refresh`. */
  lemma FinishRefresh(cfg: Config, kind: Kind, token: AuthToken, records: Records, evicts: bool, env: CallEnv)
    ensures var x := Refresh(cfg, records, evicts, env);
      var pc := if x.issued.Some? then AfterRefresh(kind, token, x.issued.value) else Reload(token);
      Finish(cfg, kind, ReadRefresh(token), records, evicts, env) ==
      Finish(cfg, kind, pc, x.records, evicts, env).(refreshed := x.issued.Some?)
  {
    FinishReadRefresh(cfg, kind, token, records, evicts, env);
    FinishReload(cfg, kind, token, Refresh(cfg, records, evicts, env).records, evicts, env);
    var rt := Look(records, evicts, RefreshType, cfg.tokenID, env.clock(7));
    if env.up(7) && rt.Some? {
      FinishExchange(cfg, kind, token, rt.value, records, evicts, env);
      var issued := Received(cfg, records, evicts, env);
      if issued.Some? {
        var r := Put(records, issued.value.access);
        FinishWriteAccess(cfg, kind, token, issued.value, records, evicts, env);
        FinishWriteRefresh(cfg, kind, token, issued.value, r, evicts, env);
        FinishWriteId(cfg, kind, token, issued.value, Put(r, issued.value.refresh), evicts, env);
      }
    }
  }

  /** The token a call starts with: the stored one, or the placeholder. */
  function Starting(cfg: Config, kind: Kind, records: Records, evicts: bool, env: CallEnv): AuthToken {
    match Look(records, evicts, kind.Slot(), cfg.tokenID, env.clock(9))
    case None => PLACEHOLDER
    case Some(token) => token
  }

  /** A whole undisturbed call. */
  function Call(cfg: Config, kind: Kind, records: Records, evicts: bool, env: CallEnv): Outcome {
    var token := Starting(cfg, kind, records, evicts, env);
    var x := Refresh(cfg, records, evicts, env);
    if !env.up(9) then Outcome(Err(StoreFailed), records, false)
    else if !token.ExpiresSoon(env.clock(8), cfg.margin) then Outcome(Checked(token, env.clock(1)), records, false)
    else if x.issued.None? then
      Outcome(Checked(Reloaded(cfg, kind, token, x.records, evicts, env), env.clock(1)), x.records, false)
    else Outcome(Checked(AfterRefresh(kind, token, x.issued.value).token, env.clock(1)), x.records, true)
  }

  /** The steps of the concurrent protocol, taken by one instance with no interference, make up the call. */
  lemma CallIsItsSteps(cfg: Config, kind: Kind, records: Records, evicts: bool, env: CallEnv)
    ensures Finish(cfg, kind, ReadSlot, records, evicts, env) == Call(cfg, kind, records, evicts, env)
  {
    var token := Starting(cfg, kind, records, evicts, env);
    var x := Refresh(cfg, records, evicts, env);
    if env.up(9) {
      assert Finish(cfg, kind, ReadSlot, records, evicts, env) ==
          Finish(cfg, kind, CheckSoon(token), records, evicts, env);
      if !token.ExpiresSoon(env.clock(8), cfg.margin) {
        FinishCheck(cfg, kind, token, records, evicts, env);
      } else {
        FinishRefresh(cfg, kind, token, records, evicts, env);
        if x.issued.None? {
          FinishReload(cfg, kind, token, x.records, evicts, env);
        } else {
          FinishCheck(cfg, kind, AfterRefresh(kind, token, x.issued.value).token, x.records, evicts, env);
        }
      }
    } else {
      assert StepOf(cfg, kind, ReadSlot, records, evicts, env).pc.Done?;
    }
  }

  class TokenStore {
    const expiryMargin: int
    const providers: ClientStore
    const repo: TokenRepo

    constructor (expiryMargin: int, providers: ClientStore, repo: TokenRepo)
      ensures this.expiryMargin == expiryMargin && this.providers == providers && this.repo == repo
    {
      this.expiryMargin := expiryMargin;
      this.providers := providers;
      this.repo := repo;
    }

    function Cfg(tokenID: string): Config {
      Config(tokenID, expiryMargin, providers)
    }

    /** `refreshAccessToken`: read the refresh token, exchange it, write what came back. */
    method RefreshAccessToken(tokenID: string, env: CallEnv) returns (r: Option<AuthTokenSet>)
      requires repo.Valid()
      modifies repo
      ensures repo.Valid()
      ensures Refreshed(r, repo.records) == Refresh(Cfg(tokenID), old(repo.records), repo.evicts, env)
    {
      var rt := repo.GetToken(RefreshType, tokenID, env.clock(7), env.up(7));
      if rt.Err? {
        return None;
      }
      var got := RefreshWith(providers, rt.value, env.provider(rt.value));
      if got.None? {
        return None;
      }
      var issued := Relabelled(got.value, tokenID);
      var w := repo.SetToken(AccessType, issued.access, env.up(5));
      if w.Err? {
        return None;
      }
      w := repo.SetToken(RefreshType, issued.refresh, env.up(4));
      if w.Err? {
        return None;
      }
      if issued.idToken.id != "" {
        w := repo.SetToken(IdType, issued.idToken, env.up(3));
        if w.Err? {
          return None;
        }
      }
      r := Some(issued);
    }

    /** One undisturbed call does exactly what the steps of the protocol do. */
    method GetFreshAccessToken(tokenID: string, env: CallEnv) returns (r: Result<AuthToken, CallError>)
      requires repo.Valid()
      modifies repo
      ensures repo.Valid()
      ensures var o := Call(Cfg(tokenID), FreshAccess, old(repo.records), repo.evicts, env);
        r == o.result && repo.records == o.records
    {
      var token := PLACEHOLDER;
      var read := repo.GetToken(AccessType, tokenID, env.clock(9), env.up(9));
      if read.Ok? {
        token := read.value;
      } else if read.error != TokenNotFound {
        return Err(StoreFailed);
      }
      ghost var first := token;
      assert first == Starting(Cfg(tokenID), FreshAccess, old(repo.records), repo.evicts, env);
      if token.ExpiresSoon(env.clock(8), expiryMargin) {
        var issued := RefreshAccessToken(tokenID, env);
        if issued.None? {
          // it may have been refreshed by another instance
          var reloaded := repo.GetToken(AccessType, tokenID, env.clock(2), env.up(2));
          if reloaded.Ok? {
            token := reloaded.value;
          }
          assert token == Reloaded(Cfg(tokenID), FreshAccess, first, repo.records, repo.evicts, env);
        } else {
          token := issued.value.access;
        }
      }
      if token.Expired(env.clock(1)) {
        return Err(TokenExpired);
      }
      r := Ok(token);
    }

    method GetFreshIDToken(tokenID: string, env: CallEnv) returns (r: Result<AuthToken, CallError>)
      requires repo.Valid()
      modifies repo
      ensures repo.Valid()
      ensures var o := Call(Cfg(tokenID), FreshId, old(repo.records), repo.evicts, env);
        r == o.result && repo.records == o.records
    {
      var token := PLACEHOLDER;
      var read := repo.GetToken(IdType, tokenID, env.clock(9), env.up(9));
      if read.Ok? {
        token := read.value;
      } else if read.error != TokenNotFound {
        return Err(StoreFailed);
      }
      if token.ExpiresSoon(env.clock(8), expiryMargin) {
        var issued := RefreshAccessToken(tokenID, env);
        if issued.None? {
          var reloaded := repo.GetToken(IdType, tokenID, env.clock(2), env.up(2));
          if reloaded.Ok? {
            token := reloaded.value;
          }
        } else if issued.value.idToken.id != "" {
          token := issued.value.idToken;
        }
      }
      if token.Expired(env.clock(1)) {
        return Err(TokenExpired);
      }
      r := Ok(token);
    }
  }
}
