/** What is in Redis under a key, name by name and text by text, and which reads fail how. */
module RedisHashes {
  import opened Prelude
  import opened Tokens
  import opened RedisCodec
  import opened RedisRecords
  import opened RedisAdapters
  import Decimal
  import Sessions
  import TokenRepos

  /** The type of a token as its record names it. */
  function TypeName(typ: TokenType): string {
    match typ
    case AccessType => "AccessToken"
    case RefreshType => "RefreshToken"
    case IdType => "IDToken"
    case UnknownType(name) => name
  }

  /** A date goes in as its text, or as it is if it has none. */
  function DateText(codec: Codec, t: Time): Value {
    match codec.timeText(t)
    case Some(s) => StringValue(s)
    case None => TimeValue(t)
  }

  /** What is stored of a token's value: behind its nonce, sealed under it, if there is a cipher. */
  function Hidden(aead: Option<Aead>, nonce: string, value: string): string {
    match aead
    case None => value
    case Some(cipher) => nonce + cipher.seal(nonce, value)
  }

  /** The record of a token: these seven fields and no other. */
  predicate TokenRecord(codec: Codec, aead: Option<Aead>, nonce: string, t: AuthToken, h: Hash) {
    && h.Keys == {"ID", "Value", "ExpiresAt", "Subject", "TokenURL", "ProviderID", "Type"}
    && h["ID"] == StringValue(t.id) && h["Value"] == StringValue(Hidden(aead, nonce, t.value))
    && h["ExpiresAt"] == DateText(codec, t.expiresAt) && h["Subject"] == StringValue(t.subject)
    && h["TokenURL"] == StringValue(t.tokenURL) && h["ProviderID"] == StringValue(t.providerID)
    && h["Type"] == StringValue(TypeName(t.typ))
  }

  /** The record of a session: these ten fields and no other. */
  predicate SessionRecord(codec: Codec, r: Session, h: Hash) {
    && h.Keys == {"ID", "CreatedAt", "ExpiresAt", "IdleTTLSeconds", "MaxTTLSeconds", "UserID", "TokenIDs",
                  "LoginRedirectURL", "LoginSequence", "LoginState"}
    && h["ID"] == StringValue(r.id) && h["UserID"] == StringValue(r.userID)
    && h["CreatedAt"] == DateText(codec, r.createdAt) && h["ExpiresAt"] == DateText(codec, r.expiresAt)
    && h["IdleTTLSeconds"] == StringValue(Decimal.Itoa(r.idle))
    && h["MaxTTLSeconds"] == StringValue(Decimal.Itoa(r.max))
    && h["TokenIDs"] == StringValue(codec.mapText(r.tokenIDs))
    && h["LoginRedirectURL"] == StringValue(r.loginRedirectURL)
    && h["LoginSequence"] == StringValue(codec.listText(r.loginSequence))
    && h["LoginState"] == StringValue(r.loginState)
  }

  /** A field of a struct, in the hash made of it. */
  lemma FieldIsHashed(codec: Codec, fields: seq<Field>, i: nat)
    requires Distinct(fields) && i < |fields| && fields[i].exported
    ensures var h := Pairs(Serialized(codec, fields));
      fields[i].name in h && h[fields[i].name] == Encoded(codec, fields[i].value)
  {
    SerializedHolds(codec, fields);
  }

  lemma KeysAreNames(codec: Codec, fields: seq<Field>)
    requires Distinct(fields)
    ensures Pairs(Serialized(codec, fields)).Keys == Names(fields)
  {
    SerializedHolds(codec, fields);
    var h := Pairs(Serialized(codec, fields));
    forall k
      ensures k in h.Keys <==> k in Names(fields)
    {
      if k in Names(fields) {
        var i :| 0 <= i < |fields| && fields[i].exported && fields[i].name == k;
      }
      if k in h {
        var i :| 0 <= i < |fields| && fields[i].exported && fields[i].name == k;
      }
    }
  }

  lemma TokenNamesAre(t: AuthToken)
    ensures Names(TokenFields(t)) == {"ID", "Value", "ExpiresAt", "Subject", "TokenURL", "ProviderID", "Type"}
  {
    var f := TokenFields(t);
    assert Names(f) == {f[0].name, f[1].name, f[2].name, f[3].name, f[4].name, f[5].name, f[6].name};
  }

  lemma SessionNamesAre(r: Session)
    ensures
      Names(SessionFields(r)) ==
      {"ID", "CreatedAt", "ExpiresAt", "IdleTTLSeconds", "MaxTTLSeconds", "UserID", "TokenIDs",
       "LoginRedirectURL", "LoginSequence", "LoginState"}
  {
    var f := SessionFields(r);
    assert Names(f) == {f[0].name, f[1].name, f[2].name, f[3].name, f[4].name, f[5].name, f[6].name, f[7].name,
      f[8].name, f[9].name};
  }

  lemma TokenIsHashed(codec: Codec, aead: Option<Aead>, nonce: string, t: AuthToken)
    requires GoodNonce(aead, nonce)
    ensures TokenRecord(codec, aead, nonce, t, Pairs(Serialized(codec, TokenFields(Sealed(aead, nonce, t)))))
  {
    var s := Sealed(aead, nonce, t);
    var fields := TokenFields(s);
    TokenShape(s);
    KeysAreNames(codec, fields);
    TokenNamesAre(s);
    FieldIsHashed(codec, fields, 0);
    FieldIsHashed(codec, fields, 1);
    FieldIsHashed(codec, fields, 2);
    FieldIsHashed(codec, fields, 3);
    FieldIsHashed(codec, fields, 4);
    FieldIsHashed(codec, fields, 5);
    FieldIsHashed(codec, fields, 6);
  }

  lemma SessionIsHashed(codec: Codec, r: Session)
    ensures SessionRecord(codec, r, Pairs(Serialized(codec, SessionFields(r))))
  {
    var fields := SessionFields(r);
    SessionShape(r);
    KeysAreNames(codec, fields);
    SessionNamesAre(r);
    FieldIsHashed(codec, fields, 0);
    FieldIsHashed(codec, fields, 1);
    FieldIsHashed(codec, fields, 2);
    FieldIsHashed(codec, fields, 3);
    FieldIsHashed(codec, fields, 4);
    FieldIsHashed(codec, fields, 5);
    FieldIsHashed(codec, fields, 6);
    FieldIsHashed(codec, fields, 7);
    FieldIsHashed(codec, fields, 8);
    FieldIsHashed(codec, fields, 9);
  }

  // ---- Writes -----------------------------------------------------------------------------

  /** A write leaves exactly that record under its key, or none after a removal, and all others as they are. */
  lemma WriteLeaves(codec: Codec, aead: Option<Aead>, store: Store, w: Write)
    requires Sound(aead, w)
    ensures
      var after := Written(codec, aead, false, store, w);
      match w
      case SetToken(t, nonce) =>
        && TokenKey(t.typ, t.id) in after && TokenRecord(codec, aead, nonce, t, after[TokenKey(t.typ, t.id)])
        && after == store[TokenKey(t.typ, t.id) := after[TokenKey(t.typ, t.id)]]
      case SetSession(r) =>
        && SessionKey(r.id) in after && SessionRecord(codec, r, after[SessionKey(r.id)])
        && after == store[SessionKey(r.id) := after[SessionKey(r.id)]]
      case RemoveSession(id) =>
        SessionKey(id) !in after && forall k :: k != SessionKey(id) ==> Find(after, k) == Find(store, k)
  {
    match w
    case SetToken(t, nonce) => TokenIsHashed(codec, aead, nonce, t);
    case SetSession(r) => SessionIsHashed(codec, r);
    case RemoveSession(_) =>
  }

  // ---- Reads that fail ----------------------------------------------------------------------

  /** Some field of the struct is there, but its text does not decode. */
  ghost predicate Garbled(codec: Codec, zero: seq<Field>, h: map<string, string>) {
    exists i :: 0 <= i < |zero| && zero[i].exported && zero[i].name in h
                && ValueOf(codec, zero[i].value, h[zero[i].name]).None?
  }

  lemma {:induction false} DecodedUnlessGarbled(codec: Codec, zero: seq<Field>, h: map<string, string>)
    ensures Decoded(codec, zero, h).None? <==> Garbled(codec, zero, h)
    decreases |zero|
  {
    if zero != [] {
      var n := |zero| - 1;
      DecodedUnlessGarbled(codec, zero[..n], h);
      if Garbled(codec, zero[..n], h) {
        var i :| 0 <= i < n && zero[..n][i].exported && zero[..n][i].name in h
          && ValueOf(codec, zero[..n][i].value, h[zero[..n][i].name]).None?;
        assert zero[i].exported && ValueOf(codec, zero[i].value, h[zero[i].name]).None?;
      } else if Garbled(codec, zero, h) {
        var i :| 0 <= i < |zero| && zero[i].exported && zero[i].name in h
          && ValueOf(codec, zero[i].value, h[zero[i].name]).None?;
        assert i < n ==> zero[..n][i] == zero[i];
      }
    }
  }

  /** A record is missing if it is not there or empty, and otherwise undecodable exactly if some text is no good. */
  lemma ReadFailures(codec: Codec, zero: seq<Field>, store: Store, key: string)
    ensures
      var r := ReadStruct(codec, zero, store, key);
      && (r == Err(NotFound) <==> key !in store || store[key] == map[])
      && (key in store && store[key] != map[] ==>
           (r == Err(Undecodable) <==>
              || (exists k :: k in store[key] && Text(codec, store[key][k]).None?)
              || (Texts(codec, store[key]).Some? && Garbled(codec, zero, Texts(codec, store[key]).value)))
           && (r.Ok? || r == Err(Undecodable)))
  {
    if key in store {
      var t := Texts(codec, store[key]);
      if t.Some? {
        DecodedUnlessGarbled(codec, zero, t.value);
        assert t.value.Keys == store[key].Keys;
        assert t.value == map[] <==> store[key] == map[];
      }
    }
  }

  /**
   * A stored value is opened under the nonce in front of it: one that does not open is never returned,
   * and one shorter than a nonce makes the source panic.
   */
  lemma StoredValueIsOpened(codec: Codec, aead: Option<Aead>, store: Store, t: AuthToken)
    requires codec.Inverse() && !t.typ.UnknownType? && codec.timeText(t.expiresAt).Some?
    requires TokenKey(t.typ, t.id) in store && store[TokenKey(t.typ, t.id)] == Pairs(Serialized(codec, TokenFields(t)))
    ensures ReadToken(codec, aead, store, t.typ, t.id) ==
      match aead
      case None => Ok(t)
      case Some(cipher) =>
        if |t.value| < cipher.nonceSize then Err(Panics)
        else match cipher.open(t.value[..cipher.nonceSize], t.value[cipher.nonceSize..])
          case None => Err(Undecryptable)
          case Some(text) => Ok(t.(value := text))
  {
    TokenShape(t);
    TokenEncodable(codec, t);
    StructReadBack(codec, store, TokenKey(t.typ, t.id), TokenFields(t), ZERO_TOKEN);
    assert store == WriteStruct(codec, store, TokenKey(t.typ, t.id), TokenFields(t));
  }
}
