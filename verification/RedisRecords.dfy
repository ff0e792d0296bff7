/** Sessions and tokens as Redis hashes: writing one and reading it back, encryption included. */
module RedisRecords {
  import opened Prelude
  import opened Tokens
  import opened RedisCodec
  import Sessions

  type Session = Sessions.Record

  function SessionFields(r: Session): (fields: seq<Field>)
    ensures |fields| == 10
  {
    [ Field("ID", true, StringValue(r.id)),
      Field("CreatedAt", true, TimeValue(r.createdAt)),
      Field("ExpiresAt", true, TimeValue(r.expiresAt)),
      Field("IdleTTLSeconds", true, IntValue(r.idle)),
      Field("MaxTTLSeconds", true, IntValue(r.max)),
      Field("UserID", true, StringValue(r.userID)),
      Field("TokenIDs", true, MapValue(r.tokenIDs)),
      Field("LoginRedirectURL", true, StringValue(r.loginRedirectURL)),
      Field("LoginSequence", true, ListValue(r.loginSequence)),
      Field("LoginState", true, StringValue(r.loginState)) ]
  }

  const ZERO_SESSION: seq<Field> := SessionFields(Sessions.EMPTY)

  function SessionOf(fields: seq<Field>): Session
    requires SameShape(fields, ZERO_SESSION)
  {
    Sessions.Record(
      fields[0].value.s, fields[1].value.t, fields[2].value.t, fields[3].value.n, fields[4].value.n,
      fields[5].value.s, fields[6].value.m, fields[7].value.s, fields[8].value.l, fields[9].value.s)
  }

  function TokenFields(t: AuthToken): (fields: seq<Field>)
    ensures |fields| == 7
  {
    [ Field("ID", true, StringValue(t.id)),
      Field("Value", true, StringValue(t.value)),
      Field("ExpiresAt", true, TimeValue(t.expiresAt)),
      Field("Subject", true, StringValue(t.subject)),
      Field("TokenURL", true, StringValue(t.tokenURL)),
      Field("ProviderID", true, StringValue(t.providerID)),
      Field("Type", true, TypeValue(t.typ)) ]
  }

  const ZERO_TOKEN: seq<Field> := TokenFields(EMPTY_TOKEN)

  function TokenOf(fields: seq<Field>): AuthToken
    requires SameShape(fields, ZERO_TOKEN)
  {
    AuthToken(fields[0].value.s, fields[1].value.s, fields[2].value.t, fields[3].value.s,
              fields[4].value.s, fields[5].value.s, fields[6].value.typ)
  }

  lemma SessionNames(r: Session)
    ensures Distinct(SessionFields(r))
  {
    var f := SessionFields(r);
    assert |f[0].name| == 2 && |f[1].name| == 9 && |f[2].name| == 9 && |f[3].name| == 14 && |f[4].name| == 13;
    assert |f[5].name| == 6 && |f[6].name| == 8 && |f[7].name| == 16 && |f[8].name| == 13 && |f[9].name| == 10;
    assert f[1].name[0] == 'C' && f[2].name[0] == 'E' && f[4].name[0] == 'M' && f[8].name[0] == 'L';
  }

  lemma SessionShape(r: Session)
    ensures SameShape(SessionFields(r), ZERO_SESSION) && Distinct(SessionFields(r))
    ensures SessionOf(SessionFields(r)) == r
  {
    SessionNames(r);
  }

  lemma TokenShape(t: AuthToken)
    ensures SameShape(TokenFields(t), ZERO_TOKEN) && Distinct(TokenFields(t))
    ensures TokenOf(TokenFields(t)) == t
  {
    var f := TokenFields(t);
    assert |f[0].name| == 2 && |f[1].name| == 5 && |f[2].name| == 9 && |f[3].name| == 7;
    assert |f[4].name| == 8 && |f[5].name| == 10 && |f[6].name| == 4;
  }

  lemma SessionOfFields(fields: seq<Field>)
    requires SameShape(fields, ZERO_SESSION)
    ensures SessionFields(SessionOf(fields)) == fields
  {
    assert forall i :: 0 <= i < 10 ==> fields[i].exported && SameKind(fields[i].value, ZERO_SESSION[i].value);
  }

  // ---- Encryption -----------------------------------------------------------------------

  /** An authenticated cipher; `seal` and `open` take the nonce first. */
  datatype Aead = Aead(nonceSize: nat, seal: (string, string) -> string, open: (string, string) -> Option<string>)
  {
    /** Opening undoes sealing. */
    ghost predicate Opens() {
      forall nonce, text :: |nonce| == nonceSize ==> open(nonce, seal(nonce, text)) == Some(text)
    }

    /** The nonce goes in front of the ciphertext. */
    function Encrypt(nonce: string, text: string): string
      requires |nonce| == nonceSize
    {
      nonce + seal(nonce, text)
    }

    /** The source slices without a length check, so a shorter value is not for this function. */
    function Decrypt(text: string): Option<string>
      requires nonceSize <= |text|
    {
      open(text[..nonceSize], text[nonceSize..])
    }

    lemma DecryptEncrypt(nonce: string, text: string)
      requires Opens() && |nonce| == nonceSize
      ensures nonceSize <= |Encrypt(nonce, text)| && Decrypt(Encrypt(nonce, text)) == Some(text)
    {
      var e := Encrypt(nonce, text);
      assert e[..nonceSize] == nonce && e[nonceSize..] == seal(nonce, text);
    }
  }

  // ---- The store, as a value --------------------------------------------------------------

  type Store = map<string, Hash>

  datatype ReadError = NotFound | Undecodable | Undecryptable | Panics

  lemma {:induction false} DecodedShape(codec: Codec, zero: seq<Field>, h: map<string, string>)
    ensures Decoded(codec, zero, h).Some? ==> SameShape(Decoded(codec, zero, h).value, zero)
    decreases |zero|
  {
    if zero != [] {
      DecodedShape(codec, zero[..|zero| - 1], h);
    }
  }

  /** `HGetAll` and `deserializeToStruct`: no hash, or an empty one, is a missing record. */
  function ReadStruct(codec: Codec, zero: seq<Field>, store: Store, key: string): (r: Result<seq<Field>, ReadError>)
    ensures r.Ok? ==> SameShape(r.value, zero)
  {
    if key !in store then Err(NotFound)
    else
      var t := Texts(codec, store[key]);
      if t.None? then Err(Undecodable)
      else if t.value == map[] then Err(NotFound)
      else
        var d := Decoded(codec, zero, t.value);
        DecodedShape(codec, zero, t.value);
        if d.None? then Err(Undecodable) else Ok(d.value)
  }

  function ReadSession(codec: Codec, store: Store, id: string): Result<Session, ReadError> {
    match ReadStruct(codec, ZERO_SESSION, store, SessionKey(id))
    case Err(e) => Err(e)
    case Ok(fields) => Ok(SessionOf(fields))
  }

  /** The mock client's HSET: the record under the key becomes this one. */
  function WriteStruct(codec: Codec, store: Store, key: string, fields: seq<Field>): Store {
    store[key := Pairs(Serialized(codec, fields))]
  }

  function WriteSession(codec: Codec, store: Store, r: Session): Store {
    WriteStruct(codec, store, SessionKey(r.id), SessionFields(r))
  }

  /** `token.Decrypt`. */
  function Unsealed(aead: Option<Aead>, t: AuthToken): Result<AuthToken, ReadError> {
    if aead.None? then Ok(t)
    else if |t.value| < aead.value.nonceSize then Err(Panics)
    else
      var text := aead.value.Decrypt(t.value);
      if text.None? then Err(Undecryptable) else Ok(t.(value := text.value))
  }

  function ReadToken(
    codec: Codec, aead: Option<Aead>, store: Store, typ: TokenType, id: string): Result<AuthToken, ReadError> {
    match ReadStruct(codec, ZERO_TOKEN, store, TokenKey(typ, id))
    case Err(e) => Err(e)
    case Ok(fields) => Unsealed(aead, TokenOf(fields))
  }

  predicate GoodNonce(aead: Option<Aead>, nonce: string) {
    aead.Some? ==> |nonce| == aead.value.nonceSize
  }

  /** `token.Encrypt`. */
  function Sealed(aead: Option<Aead>, nonce: string, t: AuthToken): AuthToken
    requires GoodNonce(aead, nonce)
  {
    if aead.None? then t else t.(value := aead.value.Encrypt(nonce, t.value))
  }

  function WriteToken(codec: Codec, aead: Option<Aead>, nonce: string, store: Store, t: AuthToken): Store
    requires GoodNonce(aead, nonce)
  {
    WriteStruct(codec, store, TokenKey(t.typ, t.id), TokenFields(Sealed(aead, nonce, t)))
  }

  // ---- Round trips ------------------------------------------------------------------------

  lemma StructReadBack(codec: Codec, store: Store, key: string, fields: seq<Field>, zero: seq<Field>)
    requires codec.Inverse() && Distinct(fields) && SameShape(fields, zero) && fields != [] && fields[0].exported
    ensures ReadStruct(codec, zero, WriteStruct(codec, store, key, fields), key) == Ok(fields) <==>
        AllEncodable(codec, fields)
  {
    StructRoundTrip(codec, fields, zero);
    SerializedTexts(codec, fields);
    var t := Texts(codec, Pairs(Serialized(codec, fields)));
    assert t.Some? ==> fields[0].name in t.value;
  }

  /** A session written is the session read, exactly when its dates and TTLs have a text form. */
  lemma SessionRoundTrip(codec: Codec, store: Store, r: Session)
    requires codec.Inverse()
    ensures ReadSession(codec, WriteSession(codec, store, r), r.id) == Ok(r) <==> AllEncodable(codec, SessionFields(r))
  {
    SessionShape(r);
    StructReadBack(codec, store, SessionKey(r.id), SessionFields(r), ZERO_SESSION);
    var got := ReadStruct(codec, ZERO_SESSION, WriteSession(codec, store, r), SessionKey(r.id));
    if got.Ok? {
      SessionOfFields(got.value);
    }
  }

  lemma TokenEncodable(codec: Codec, t: AuthToken)
    requires !t.typ.UnknownType?
    ensures AllEncodable(codec, TokenFields(t)) <==> codec.timeText(t.expiresAt).Some?
  {
    assert TokenFields(t)[2].exported;
    if codec.timeText(t.expiresAt).Some? {
      forall i | 0 <= i < 7
        ensures Encodable(codec, TokenFields(t)[i].value)
      {
      }
    }
  }

  /**
   * The same for tokens, through encryption: the plain token comes back, exactly when its expiry date
   * has a text form.
   */
  lemma TokenRoundTrip(codec: Codec, aead: Option<Aead>, nonce: string, store: Store, t: AuthToken)
    requires codec.Inverse() && GoodNonce(aead, nonce) && (aead.Some? ==> aead.value.Opens()) && !t.typ.UnknownType?
    ensures ReadToken(codec, aead, WriteToken(codec, aead, nonce, store, t), t.typ, t.id) == Ok(t)
            <==> codec.timeText(t.expiresAt).Some?
  {
    var s := Sealed(aead, nonce, t);
    TokenShape(s);
    TokenEncodable(codec, s);
    StructReadBack(codec, store, TokenKey(t.typ, t.id), TokenFields(s), ZERO_TOKEN);
    if aead.Some? {
      aead.value.DecryptEncrypt(nonce, t.value);
    }
    if codec.timeText(t.expiresAt).None? {
      SerializedTexts(codec, TokenFields(s));
      assert TokenFields(s)[2].exported && Text(codec, TokenFields(s)[2].value).None?;
    }
  }
}
