/** The Redis adapter over a hash store: its methods, whole runs of writes, and what merging HSETs change. */
module RedisAdapters {
  import opened Prelude
  import opened Tokens
  import opened RedisCodec
  import opened RedisRecords
  import Sessions
  import TokenRepos

  // ---- Merging and replacing --------------------------------------------------------------

  /** Redis merges the fields of an HSET into the record; the mock client replaces the record. */
  function Put(merges: bool, store: Store, key: string, h: Hash): Store {
    store[key := if merges && key in store then store[key] + h else h]
  }

  /** Merging is replacing exactly when the new record has every field of the old one. */
  lemma MergeReplaces(old_: Hash, new_: Hash)
    ensures old_ + new_ == new_ <==> old_.Keys <= new_.Keys
  {
    if old_.Keys <= new_.Keys {
      assert (old_ + new_).Keys == new_.Keys;
    } else {
      var k :| k in old_.Keys && k !in new_.Keys;
      assert k in (old_ + new_).Keys;
    }
  }

  /** A write to the store, or a removal. */
  datatype Write = SetSession(session: Session) | SetToken(token: AuthToken, nonce: string) | RemoveSession(id: string)

  predicate Sound(aead: Option<Aead>, w: Write) {
    w.SetToken? ==> !w.token.typ.UnknownType? && GoodNonce(aead, w.nonce)
  }

  function Written(codec: Codec, aead: Option<Aead>, merges: bool, store: Store, w: Write): Store
    requires Sound(aead, w)
  {
    match w
    case SetSession(r) => Put(merges, store, SessionKey(r.id), Pairs(Serialized(codec, SessionFields(r))))
    case SetToken(t, nonce) =>
      Put(merges, store, TokenKey(t.typ, t.id), Pairs(Serialized(codec, TokenFields(Sealed(aead, nonce, t)))))
    case RemoveSession(id) => store - {SessionKey(id)}
  }

  function WrittenAll(codec: Codec, aead: Option<Aead>, merges: bool, store: Store, ws: seq<Write>): Store
    requires forall i :: 0 <= i < |ws| ==> Sound(aead, ws[i])
    decreases |ws|
  {
    if ws == [] then store else WrittenAll(codec, aead, merges, Written(codec, aead, merges, store, ws[0]), ws[1..])
  }

  function Names(fields: seq<Field>): set<string> {
    set i | 0 <= i < |fields| && fields[i].exported :: fields[i].name
  }

  lemma WrittenNames(codec: Codec, fields: seq<Field>, zero: seq<Field>)
    requires Distinct(fields) && SameShape(fields, zero)
    ensures Pairs(Serialized(codec, fields)).Keys == Names(zero)
  {
    SerializedHolds(codec, fields);
    var h := Pairs(Serialized(codec, fields));
    forall k
      ensures k in h.Keys <==> k in Names(zero)
    {
      if k in Names(zero) {
        var i :| 0 <= i < |zero| && zero[i].exported && zero[i].name == k;
        assert fields[i].exported && fields[i].name == k;
      }
      if k in h {
        var i :| 0 <= i < |fields| && fields[i].exported && fields[i].name == k;
        assert zero[i].exported && zero[i].name == k;
      }
    }
  }

  /** Every record has the fields of the struct its key is for. */
  ghost predicate Uniform(store: Store) {
    && (forall id :: SessionKey(id) in store ==> store[SessionKey(id)].Keys == Names(ZERO_SESSION))
    && (forall typ: TokenType, id :: !typ.UnknownType? && TokenKey(typ, id) in store ==>
          store[TokenKey(typ, id)].Keys == Names(ZERO_TOKEN))
  }

  lemma SessionPutStaysUniform(store: Store, id: string, h: Hash)
    requires Uniform(store) && h.Keys == Names(ZERO_SESSION)
    ensures Put(true, store, SessionKey(id), h) == Put(false, store, SessionKey(id), h)
    ensures Uniform(store[SessionKey(id) := h])
  {
    if SessionKey(id) in store {
      MergeReplaces(store[SessionKey(id)], h);
    }
    forall typ: TokenType, other | !typ.UnknownType?
      ensures TokenKey(typ, other) != SessionKey(id)
    {
      KeySpacesDisjoint(typ, other, typ, id);
    }
  }

  lemma TokenPutStaysUniform(store: Store, typ: TokenType, id: string, h: Hash)
    requires Uniform(store) && h.Keys == Names(ZERO_TOKEN) && !typ.UnknownType?
    ensures Put(true, store, TokenKey(typ, id), h) == Put(false, store, TokenKey(typ, id), h)
    ensures Uniform(store[TokenKey(typ, id) := h])
  {
    if TokenKey(typ, id) in store {
      MergeReplaces(store[TokenKey(typ, id)], h);
    }
    forall other
      ensures TokenKey(typ, id) != SessionKey(other)
    {
      KeySpacesDisjoint(typ, id, typ, other);
    }
  }

  lemma WriteStaysUniform(codec: Codec, aead: Option<Aead>, store: Store, w: Write)
    requires Sound(aead, w) && Uniform(store)
    ensures Written(codec, aead, true, store, w) == Written(codec, aead, false, store, w)
    ensures Uniform(Written(codec, aead, false, store, w))
  {
    match w
    case SetSession(r) =>
      SessionShape(r);
      WrittenNames(codec, SessionFields(r), ZERO_SESSION);
      SessionPutStaysUniform(store, r.id, Pairs(Serialized(codec, SessionFields(r))));
    case SetToken(t, nonce) =>
      var s := Sealed(aead, nonce, t);
      TokenShape(s);
      WrittenNames(codec, TokenFields(s), ZERO_TOKEN);
      TokenPutStaysUniform(store, t.typ, t.id, Pairs(Serialized(codec, TokenFields(s))));
    case RemoveSession(_) =>
  }

  /** Over any run of session and token writes and removals, a merging store and a replacing one hold the same. */
  lemma {:induction false} MergingIsReplacing(codec: Codec, aead: Option<Aead>, store: Store, ws: seq<Write>)
    requires Uniform(store) && forall i :: 0 <= i < |ws| ==> Sound(aead, ws[i])
    ensures WrittenAll(codec, aead, true, store, ws) == WrittenAll(codec, aead, false, store, ws)
    decreases |ws|
  {
    if ws != [] {
      WriteStaysUniform(codec, aead, store, ws[0]);
      MergingIsReplacing(codec, aead, Written(codec, aead, false, store, ws[0]), ws[1..]);
    }
  }

  // ---- The records the rest of the model works on -----------------------------------------

  /** Dates and TTLs that have a text form. */
  predicate Encodes(codec: Codec, w: Write) {
    match w
    case SetSession(r) => AllEncodable(codec, SessionFields(r))
    case SetToken(t, _) => codec.timeText(t.expiresAt).Some?
    case RemoveSession(_) => true
  }

  function TokensAfter(tokens: TokenRepos.Records, ws: seq<Write>): TokenRepos.Records
    decreases |ws|
  {
    if ws == [] then tokens
    else TokensAfter(if ws[0].SetToken? then TokenRepos.Put(tokens, ws[0].token) else tokens, ws[1..])
  }

  function SessionAfter(sessions: Sessions.Records, w: Write): Sessions.Records {
    match w
    case SetSession(r) => sessions[r.id := r]
    case SetToken(_, _) => sessions
    case RemoveSession(id) => sessions - {id}
  }

  function SessionsAfter(sessions: Sessions.Records, ws: seq<Write>): Sessions.Records
    decreases |ws|
  {
    if ws == [] then sessions else SessionsAfter(SessionAfter(sessions, ws[0]), ws[1..])
  }

  /** Reading through the codec shows exactly these sessions. */
  ghost predicate ShowsSessions(codec: Codec, store: Store, sessions: Sessions.Records) {
    forall id :: ReadSession(codec, store, id) == if id in sessions then Ok(sessions[id]) else Err(NotFound)
  }

  /** Reading through the codec and the cipher shows exactly these tokens. */
  ghost predicate ShowsTokens(codec: Codec, aead: Option<Aead>, store: Store, tokens: TokenRepos.Records) {
    forall typ: TokenType, id :: !typ.UnknownType? ==>
      ReadToken(codec, aead, store, typ, id) ==
      match TokenRepos.Look(tokens, false, typ, id, 0) case None => Err(NotFound) case Some(t) => Ok(t)
  }

  ghost predicate Shows(
    codec: Codec, aead: Option<Aead>, store: Store, tokens: TokenRepos.Records, sessions: Sessions.Records) {
    ShowsSessions(codec, store, sessions) && ShowsTokens(codec, aead, store, tokens)
  }

  /** A read looks at one key. */
  lemma ReadsOneKey(codec: Codec, zero: seq<Field>, store: Store, after: Store, key: string)
    requires key in store <==> key in after
    requires key in store ==> store[key] == after[key]
    ensures ReadStruct(codec, zero, store, key) == ReadStruct(codec, zero, after, key)
  {
  }

  lemma SessionWriteShowsSessions(codec: Codec, aead: Option<Aead>, store: Store, sessions: Sessions.Records, w: Write)
    requires codec.Inverse() && Encodes(codec, w) && Sound(aead, w) && !w.SetToken?
        && ShowsSessions(codec, store, sessions)
    ensures ShowsSessions(codec, Written(codec, aead, false, store, w), SessionAfter(sessions, w))
  {
    var written := if w.SetSession? then w.session.id else w.id;
    var after, sessions' := Written(codec, aead, false, store, w), SessionAfter(sessions, w);
    if w.SetSession? {
      SessionRoundTrip(codec, store, w.session);
    }
    forall id
      ensures ReadSession(codec, after, id) == if id in sessions' then Ok(sessions'[id]) else Err(NotFound)
    {
      if id != written {
        KeySpacesDisjoint(AccessType, id, AccessType, written);
        ReadsOneKey(codec, ZERO_SESSION, store, after, SessionKey(id));
      }
    }
  }

  lemma SessionWriteShowsTokens(codec: Codec, aead: Option<Aead>, store: Store, tokens: TokenRepos.Records, w: Write)
    requires Sound(aead, w) && !w.SetToken? && ShowsTokens(codec, aead, store, tokens)
    ensures ShowsTokens(codec, aead, Written(codec, aead, false, store, w), tokens)
  {
    var written := if w.SetSession? then w.session.id else w.id;
    var after := Written(codec, aead, false, store, w);
    forall typ: TokenType, id | !typ.UnknownType?
      ensures ReadToken(codec, aead, after, typ, id) == ReadToken(codec, aead, store, typ, id)
    {
      KeySpacesDisjoint(typ, id, typ, written);
      ReadsOneKey(codec, ZERO_TOKEN, store, after, TokenKey(typ, id));
    }
  }

  lemma TokenWriteShowsSessions(codec: Codec, aead: Option<Aead>, store: Store, sessions: Sessions.Records, w: Write)
    requires Sound(aead, w) && w.SetToken? && ShowsSessions(codec, store, sessions)
    ensures ShowsSessions(codec, Written(codec, aead, false, store, w), sessions)
  {
    var t, after := w.token, Written(codec, aead, false, store, w);
    forall id
      ensures ReadSession(codec, after, id) == ReadSession(codec, store, id)
    {
      KeySpacesDisjoint(t.typ, t.id, t.typ, id);
      ReadsOneKey(codec, ZERO_SESSION, store, after, SessionKey(id));
    }
  }

  lemma TokenWriteShowsTokens(codec: Codec, aead: Option<Aead>, store: Store, tokens: TokenRepos.Records, w: Write)
    requires codec.Inverse() && (aead.Some? ==> aead.value.Opens()) && Encodes(codec, w) && Sound(aead, w)
        && w.SetToken?
    requires ShowsTokens(codec, aead, store, tokens)
    ensures ShowsTokens(codec, aead, Written(codec, aead, false, store, w), TokenRepos.Put(tokens, w.token))
  {
    var t, after := w.token, Written(codec, aead, false, store, w);
    TokenRoundTrip(codec, aead, w.nonce, store, t);
    forall typ: TokenType, id | !typ.UnknownType?
      ensures ReadToken(codec, aead, after, typ, id) ==
        match TokenRepos.Look(TokenRepos.Put(tokens, t), false, typ, id, 0)
        case None => Err(NotFound)
        case Some(u) => Ok(u)
    {
      TokenRepos.PutFrame(tokens, t, false, typ, id, 0);
      if !(typ == t.typ && id == t.id) {
        KeySpacesDisjoint(typ, id, t.typ, t.id);
        ReadsOneKey(codec, ZERO_TOKEN, store, after, TokenKey(typ, id));
      }
    }
  }

  /**
   * After any run of writes, reading shows exactly the records that were written last: the maps of
   * tokens and sessions the other modules work on are what Redis holds, encryption and text included.
   */
  lemma {:induction false} StoreShowsRecords(
    codec: Codec, aead: Option<Aead>, store: Store, tokens: TokenRepos.Records, sessions: Sessions.Records,
    ws: seq<Write>)
    requires codec.Inverse() && (aead.Some? ==> aead.value.Opens())
    requires forall i :: 0 <= i < |ws| ==> Sound(aead, ws[i]) && Encodes(codec, ws[i])
    requires Shows(codec, aead, store, tokens, sessions)
    ensures Shows(codec, aead, WrittenAll(codec, aead, false, store, ws), TokensAfter(tokens, ws),
        SessionsAfter(sessions, ws))
    decreases |ws|
  {
    if ws != [] {
      var next := Written(codec, aead, false, store, ws[0]);
      if ws[0].SetToken? {
        TokenWriteShowsSessions(codec, aead, store, sessions, ws[0]);
        TokenWriteShowsTokens(codec, aead, store, tokens, ws[0]);
        StoreShowsRecords(codec, aead, next, TokenRepos.Put(tokens, ws[0].token), sessions, ws[1..]);
      } else {
        SessionWriteShowsSessions(codec, aead, store, sessions, ws[0]);
        SessionWriteShowsTokens(codec, aead, store, tokens, ws[0]);
        StoreShowsRecords(codec, aead, next, tokens, SessionAfter(sessions, ws[0]), ws[1..]);
      }
    }
  }

  // ---- The classes ----------------------------------------------------------------------

  class MockRedisClient {
    var store: Store

    constructor ()
      ensures store == map[]
    {
      store := map[];
    }

    /** An odd argument list is an error, but replaces the record by an empty one all the same. */
    method HSet(key: string, values: seq<Value>) returns (ok: bool)
      requires |values| % 2 == 0 ==> Alternating(values)
      modifies this
      ensures ok <==> |values| % 2 == 0
      ensures store == old(store)[key := if ok then Pairs(values) else map[]]
    {
      var h;
      ok, h := ConvertValuesToMap(values);
      store := store[key := h];
    }

    method Del(keys: seq<string>)
      modifies this
      ensures store == old(store) - set k | k in keys
    {
      for i := 0 to |keys|
        invariant store == old(store) - set k | k in keys[..i]
      {
        store := store - {keys[i]};
        assert keys[..i + 1] == keys[..i] + [keys[i]];
      }
      assert keys[..|keys|] == keys;
    }

    /** The mock client keeps everything for ever, and says that it did as told. */
    method ExpireAt(key: string, at: Time) returns (ok: bool)
      ensures ok
    {
      ok := true;
    }

    method Persist(key: string) returns (ok: bool)
      ensures ok
    {
      ok := true;
    }

    /** The texts under a key, none if there is no record; fails if a value has no text. */
    method HGetAll(codec: Codec, key: string) returns (r: Option<map<string, string>>)
      ensures r == if key in store then Texts(codec, store[key]) else Some(map[])
    {
      if key !in store {
        return Some(map[]);
      }
      var values := store[key];
      var texts: map<string, string> := map[];
      var todo := values.Keys;
      while todo != {}
        invariant todo <= values.Keys && texts.Keys == values.Keys - todo
        invariant forall k :: k in texts ==> Text(codec, values[k]) == Some(texts[k])
      {
        var k :| k in todo;
        var text := Text(codec, values[k]);
        if text.None? {
          return None;
        }
        texts := texts[k := text.value];
        todo := todo - {k};
      }
      assert texts == Texts(codec, values).value;
      r := Some(texts);
    }
  }

  datatype WriteError = UnknownTokenType | NoNonce | Refused

  class RedisAdapter {
    const rdb: MockRedisClient
    const codec: Codec
    const encryptor: Option<Aead>

    constructor (rdb: MockRedisClient, codec: Codec, encryptor: Option<Aead>)
      ensures this.rdb == rdb && this.codec == codec && this.encryptor == encryptor
    {
      this.rdb := rdb;
      this.codec := codec;
      this.encryptor := encryptor;
    }

    method GetStruct(key: string, zero: seq<Field>) returns (r: Result<seq<Field>, ReadError>)
      ensures r == ReadStruct(codec, zero, rdb.store, key)
    {
      var raw := rdb.HGetAll(codec, key);
      if raw.None? {
        return Err(Undecodable);
      }
      if raw.value == map[] {
        return Err(NotFound);
      }
      var output := Decoded(codec, zero, raw.value);
      if output.None? {
        return Err(Undecodable);
      }
      r := Ok(output.value);
    }

    method GetSession(id: string) returns (r: Result<Session, ReadError>)
      ensures r == ReadSession(codec, rdb.store, id)
    {
      var got := GetStruct(SessionKey(id), ZERO_SESSION);
      if got.Err? {
        return Err(got.error);
      }
      r := Ok(SessionOf(got.value));
    }

    /** Against the mock client both commands of a write succeed. */
    method SetSession(session: Session) returns (ok: bool)
      modifies rdb
      ensures ok
      ensures rdb.store == Written(codec, encryptor, false, old(rdb.store), Write.SetSession(session))
    {
      var key := SessionKey(session.id);
      var values := SerializeStruct(codec, SessionFields(session));
      ok := rdb.HSet(key, values);
      if !ok {
        return;
      }
      ok := rdb.ExpireAt(key, session.expiresAt + LEEWAY);
    }

    method RemoveSession(id: string)
      modifies rdb
      ensures rdb.store == Written(codec, encryptor, false, old(rdb.store), Write.RemoveSession(id))
    {
      rdb.Del([SessionKey(id)]);
    }

    /** `getAuthToken`. */
    method GetAuthToken(typ: TokenType, id: string) returns (r: Result<AuthToken, ReadError>)
      ensures r == ReadToken(codec, encryptor, rdb.store, typ, id)
    {
      var got := GetStruct(TokenKey(typ, id), ZERO_TOKEN);
      if got.Err? {
        return Err(got.error);
      }
      r := Unsealed(encryptor, TokenOf(got.value));
    }

    /** `setAuthToken`; `nonce` is what the random source gave, if it gave anything. */
    method SetAuthToken(token: AuthToken, nonce: Option<string>) returns (r: Result<(), WriteError>)
      requires nonce.Some? ==> GoodNonce(encryptor, nonce.value)
      modifies rdb
      ensures r.Ok? <==> !token.typ.UnknownType? && (encryptor.Some? ==> nonce.Some?)
      ensures r.Err? ==> rdb.store == old(rdb.store)
      ensures r.Ok? && nonce.Some? ==>
        rdb.store == Written(codec, encryptor, false, old(rdb.store), SetToken(token, nonce.value))
      ensures r.Ok? && encryptor.None? ==>
        rdb.store == Written(codec, None, false, old(rdb.store), SetToken(token, ""))
    {
      if token.typ.UnknownType? {
        return Err(UnknownTokenType);
      }
      var encToken := token;
      if encryptor.Some? {
        if nonce.None? {
          return Err(NoNonce);
        }
        encToken := token.(value := encryptor.value.Encrypt(nonce.value, token.value));
      }
      var key := TokenKey(token.typ, token.id);
      var values := SerializeStruct(codec, TokenFields(encToken));
      var ok := rdb.HSet(key, values);
      if ok {
        if token.expiresAt == 0 {
          ok := rdb.Persist(key);
        } else {
          ok := rdb.ExpireAt(key, token.expiresAt + LEEWAY);
        }
      }
      r := if ok then Ok(()) else Err(WriteError.Refused);
    }
  }
}
