/** The token records in Redis: one record a key, each with the deadline EXPIREAT gave it. */
module TokenRepos {
  import opened Prelude
  import opened Tokens

  datatype RepoError = TokenNotFound | Unavailable | WrongType

  type Records = map<string, AuthToken>

  /** Redis may have dropped this record by `now`. */
  predicate Evictable(token: AuthToken, now: Time) {
    token.expiresAt != 0 && Deadline(token.expiresAt) < now
  }

  /** What a read at `now` finds; the mock client never evicts. */
  function Look(records: Records, evicts: bool, typ: TokenType, id: string, now: Time): Option<AuthToken> {
    var key := TokenKey(typ, id);
    if key in records && !(evicts && Evictable(records[key], now)) then Some(records[key]) else None
  }

  function Put(records: Records, token: AuthToken): Records {
    records[TokenKey(token.typ, token.id) := token]
  }

  /** Every record has the type of its key's prefix and the ID in its key. */
  ghost predicate WellFiled(records: Records) {
    forall k :: k in records ==> k == TokenKey(records[k].typ, records[k].id) && !records[k].typ.UnknownType?
  }

  /** A write under one key leaves every other slot, and every other ID, as it was. */
  lemma PutFrame(records: Records, token: AuthToken, evicts: bool, typ: TokenType, id: string, now: Time)
    requires !token.typ.UnknownType? && !typ.UnknownType?
    ensures Look(Put(records, token), evicts, typ, id, now) ==
            if typ == token.typ && id == token.id
            then (if evicts && Evictable(token, now) then None else Some(token))
            else Look(records, evicts, typ, id, now)
  {
    KeySpacesDisjoint(typ, id, token.typ, token.id);
  }

  class TokenRepo {
    const evicts: bool
    var records: Records
    var deadlines: map<string, Time>

    ghost predicate Valid()
      reads this
    {
      && WellFiled(records)
      && deadlines.Keys <= records.Keys
      && forall k :: k in records ==>
           && (k in deadlines <==> records[k].expiresAt != 0)
           && (k in deadlines ==> deadlines[k] == Deadline(records[k].expiresAt))
    }

    constructor (evicts: bool)
      ensures Valid() && records == map[] && this.evicts == evicts
    {
      this.evicts := evicts;
      records := map[];
      deadlines := map[];
    }

    /** `GetAccessToken`, `GetRefreshToken`, `GetIDToken`; `ok` is false when Redis does not answer. */
    method GetToken(typ: TokenType, id: string, now: Time, ok: bool) returns (r: Result<AuthToken, RepoError>)
      requires Valid()
      ensures r == if !ok then Err(Unavailable)
                   else match Look(records, evicts, typ, id, now)
                        case None => Err(TokenNotFound)
                        case Some(token) => Ok(token)
    {
      var key := TokenKey(typ, id);
      if !ok {
        return Err(Unavailable);
      }
      if key !in records || (evicts && key in deadlines && deadlines[key] < now) {
        return Err(TokenNotFound);
      }
      r := Ok(records[key]);
    }

    /** `SetAccessToken`, `SetRefreshToken`, `SetIDToken`: HSET, then PERSIST or EXPIREAT, as one step. */
    method SetToken(typ: TokenType, token: AuthToken, ok: bool) returns (r: Result<(), RepoError>)
      requires Valid() && !typ.UnknownType?
      modifies this
      ensures Valid()
      ensures r.Ok? <==> token.typ == typ && ok
      ensures records == if r.Ok? then Put(old(records), token) else old(records)
    {
      if token.typ != typ {
        return Err(WrongType);
      }
      if !ok {
        return Err(Unavailable);
      }
      var key := TokenKey(token.typ, token.id);
      records := records[key := token];
      if token.expiresAt == 0 {
        deadlines := deadlines - {key};
      } else {
        deadlines := deadlines[key := Deadline(token.expiresAt)];
      }
      r := Ok(());
    }
  }
}
