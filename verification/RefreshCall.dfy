/**
 * One call of `TokenStore.GetFreshAccessToken` or `GetFreshIDToken`, cut at its accesses to shared
 * state: each program counter names the access (or clock reading) the call is about to make.
 */
module RefreshCall {
  import opened Prelude
  import opened Tokens

  datatype Kind = FreshAccess | FreshId
  {
    /** The slot whose token the caller asked for. */
    function Slot(): TokenType {
      if FreshAccess? then AccessType else IdType
    }
  }

  datatype CallError = StoreFailed | TokenExpired

  /** `token` is the token in hand, `rt` the refresh token read, `issued` the set received. */
  datatype Pc =
    | ReadSlot
    | CheckSoon(token: AuthToken)
    | ReadRefresh(token: AuthToken)
    | Exchange(token: AuthToken, rt: AuthToken)
    | WriteAccess(token: AuthToken, issued: AuthTokenSet)
    | WriteRefresh(token: AuthToken, issued: AuthTokenSet)
    | WriteId(token: AuthToken, issued: AuthTokenSet)
    | Reload(token: AuthToken)
    | FinalCheck(token: AuthToken)
    | Done(result: Result<AuthToken, CallError>, at: Time)

  datatype Config = Config(tokenID: string, margin: int, clients: ClientStore)

  /** What one step sees: the clock, whether Redis answered, and the provider's reply. */
  datatype Input = Input(now: Time, ok: bool, reply: Reply)

  datatype Move = Move(pc: Pc, write: Option<AuthToken>)

  /** The slot a program counter reads, if any. */
  function Reads(kind: Kind, pc: Pc): Option<TokenType> {
    match pc
    case ReadSlot | Reload(_) => Some(kind.Slot())
    case ReadRefresh(_) => Some(RefreshType)
    case _ => None
  }

  /** `SetAccessToken`, `SetRefreshToken`, `SetIDToken`: refuse a token of another type. */
  predicate CanStore(token: AuthToken, typ: TokenType, ok: bool) {
    token.typ == typ && ok
  }

  /** What the call returns its caller once the refresh succeeded. */
  function AfterRefresh(kind: Kind, token: AuthToken, issued: AuthTokenSet): Pc {
    match kind
    case FreshAccess => FinalCheck(issued.access)
    case FreshId => FinalCheck(if issued.idToken.id != "" then issued.idToken else token)
  }

  /** One step; `seen` is the visible content of the slot `Reads` names. */
  function Advance(cfg: Config, kind: Kind, pc: Pc, seen: Option<AuthToken>, inp: Input): Move {
    match pc
    case ReadSlot =>
      if !inp.ok then Move(Done(Err(StoreFailed), inp.now), None)
      else if seen.None? then Move(CheckSoon(PLACEHOLDER), None)
      else Move(CheckSoon(seen.value), None)
    case CheckSoon(token) =>
      Move(if token.ExpiresSoon(inp.now, cfg.margin) then ReadRefresh(token) else FinalCheck(token), None)
    case ReadRefresh(token) =>
      Move(if inp.ok && seen.Some? then Exchange(token, seen.value) else Reload(token), None)
    case Exchange(token, rt) =>
      var r := RefreshWith(cfg.clients, rt, inp.reply);
      Move(if r.Some? then WriteAccess(token, Relabelled(r.value, cfg.tokenID)) else Reload(token), None)
    case WriteAccess(token, issued) =>
      if CanStore(issued.access, AccessType, inp.ok)
      then Move(WriteRefresh(token, issued), Some(issued.access))
      else Move(Reload(token), None)
    case WriteRefresh(token, issued) =>
      if CanStore(issued.refresh, RefreshType, inp.ok)
      then Move(if issued.idToken.id != "" then WriteId(token, issued)
        else AfterRefresh(kind, token, issued), Some(issued.refresh))
      else Move(Reload(token), None)
    case WriteId(token, issued) =>
      if CanStore(issued.idToken, IdType, inp.ok)
      then Move(AfterRefresh(kind, token, issued), Some(issued.idToken))
      else Move(Reload(token), None)
    case Reload(token) =>
      Move(FinalCheck(if inp.ok && seen.Some? then seen.value else token), None)
    case FinalCheck(token) =>
      Move(Done(if token.Expired(inp.now) then Err(TokenExpired) else Ok(token), inp.now), None)
    case Done(_, _) =>
      Move(pc, None)
  }

  /** Steps left, at most: a call never revisits a program counter. */
  function StepsLeft(pc: Pc): nat {
    match pc
    case ReadSlot => 9
    case CheckSoon(_) => 8
    case ReadRefresh(_) => 7
    case Exchange(_, _) => 6
    case WriteAccess(_, _) => 5
    case WriteRefresh(_, _) => 4
    case WriteId(_, _) => 3
    case Reload(_) => 2
    case FinalCheck(_) => 1
    case Done(_, _) => 0
  }
}
