/** What every login and every refresh, on any token IDs, keeps true of the token repository. */
module TokenRepoLaws {
  import opened Prelude
  import opened Tokens
  import opened RefreshCall
  import opened TokenRepos
  import opened TokenStores
  import Logins
  import Sessions

  /** A successful code exchange of some session's login, or one whole call of the token store. */
  datatype Op =
    | Exchanged(session: Sessions.Record, client: Client, tokens: Logins.CodeTokens, up: nat -> bool)
    | Called(tokenID: string, kind: Kind, env: CallEnv)

  function After(margin: int, clients: ClientStore, evicts: bool, records: Records, op: Op): Records {
    match op
    case Exchanged(session, client, t, up) =>
      Logins.CodeReceived(Logins.Login(session, records), client, client.id, t, up).tokens
    case Called(tokenID, kind, env) => Call(Config(tokenID, margin, clients), kind, records, evicts, env).records
  }

  function AfterAll(margin: int, clients: ClientStore, evicts: bool, records: Records, ops: seq<Op>): Records
    decreases |ops|
  {
    if ops == [] then records
    else AfterAll(margin, clients, evicts, After(margin, clients, evicts, records, ops[0]), ops[1..])
  }

  /** Whose tokens an ID is for: prefixed IDs show it. */
  ghost predicate Proper(owner: string -> string) {
    forall u: string :: owner("renku:" + u) == "renku" && owner("gitlab:" + u) == "gitlab"
  }

  /** The owners that follow from which provider each ID was drawn for. */
  function OwnerBy(drawn: map<string, string>): string -> string {
    (id: string) =>
      if "renku:" <= id then "renku" else if "gitlab:" <= id then "gitlab" else if id in drawn then drawn[id] else ""
  }

  lemma PrefixIsInside(p: string, id: string, k: nat)
    requires k < |p|
    ensures p <= id ==> p[k] in id
  {
    assert p <= id ==> id[k] == p[k];
  }

  /** IDs drawn without ':' never clash with prefixed ones, so there is always a proper owner of them all. */
  lemma OwnersExist(drawn: map<string, string>)
    requires forall id :: id in drawn ==> ':' !in id
    ensures Proper(OwnerBy(drawn))
    ensures forall id :: id in drawn ==> OwnerBy(drawn)(id) == drawn[id]
  {
    assert "renku:"[5] == ':' && "gitlab:"[6] == ':';
    forall u: string
      ensures OwnerBy(drawn)("renku:" + u) == "renku" && OwnerBy(drawn)("gitlab:" + u) == "gitlab"
    {
      assert "renku:" <= "renku:" + u && "gitlab:" <= "gitlab:" + u;
      assert ("gitlab:" + u)[0] == 'g' && "renku:"[0] == 'r';
    }
    forall id | id in drawn
      ensures OwnerBy(drawn)(id) == drawn[id]
    {
      PrefixIsInside("renku:", id, 5);
      PrefixIsInside("gitlab:", id, 6);
    }
  }

  /** An ID the client drew is for the provider it was drawn for. */
  predicate DrawnFor(owner: string -> string, op: Op) {
    op.Exchanged? ==> owner(op.tokens.ulid) == op.client.id
  }

  /** Every record has the type and the ID of its key, and is the ID's owner's. */
  ghost predicate Owned(owner: string -> string, records: Records) {
    WellFiled(records) && forall k :: k in records ==> records[k].providerID == owner(records[k].id)
  }

  predicate OwnedSet(owner: string -> string, s: AuthTokenSet) {
    && s.access.providerID == owner(s.access.id)
    && s.refresh.providerID == owner(s.refresh.id)
    && (s.idToken.id != "" ==> s.idToken.providerID == owner(s.idToken.id))
  }

  lemma ReceivedIsOwned(owner: string -> string, cfg: Config, records: Records, evicts: bool, env: CallEnv)
    requires Owned(owner, records) && WellKeyed(cfg.clients)
    ensures var s := Received(cfg, records, evicts, env); s.Some? ==> OwnedSet(owner, s.value)
  {
    var rt := Look(records, evicts, RefreshType, cfg.tokenID, env.clock(7));
    if rt.Some? {
      KeySplits(Prefix(RefreshType), cfg.tokenID, Prefix(rt.value.typ), rt.value.id);
    }
  }

  lemma PutStaysOwned(owner: string -> string, records: Records, token: AuthToken)
    requires Owned(owner, records) && !token.typ.UnknownType? && token.providerID == owner(token.id)
    ensures Owned(owner, Put(records, token))
  {
  }

  lemma WritesStayOwned(owner: string -> string, issued: AuthTokenSet, records: Records, up: nat -> bool)
    requires Owned(owner, records) && OwnedSet(owner, issued)
    ensures Owned(owner, WriteAll(issued, records, up).records)
  {
    if CanStore(issued.access, AccessType, up(5)) {
      var r := Put(records, issued.access);
      PutStaysOwned(owner, records, issued.access);
      if CanStore(issued.refresh, RefreshType, up(4)) {
        PutStaysOwned(owner, r, issued.refresh);
        if issued.idToken.id != "" && CanStore(issued.idToken, IdType, up(3)) {
          PutStaysOwned(owner, Put(r, issued.refresh), issued.idToken);
        }
      }
    }
  }

  lemma CallStaysOwned(owner: string -> string, cfg: Config, kind: Kind, records: Records, evicts: bool, env: CallEnv)
    requires Owned(owner, records) && WellKeyed(cfg.clients)
    ensures Owned(owner, Call(cfg, kind, records, evicts, env).records)
  {
    var issued := Received(cfg, records, evicts, env);
    ReceivedIsOwned(owner, cfg, records, evicts, env);
    if issued.Some? {
      WritesStayOwned(owner, issued.value, records, env.up);
    }
    assert Owned(owner, Refresh(cfg, records, evicts, env).records);
  }

  lemma SavedStaysOwned(owner: string -> string, l: Logins.Login, s: AuthTokenSet, up: nat -> bool)
    requires Owned(owner, l.tokens) && s.access.providerID == owner(s.access.id)
    ensures Owned(owner, Logins.TokensSaved(l, s, up).tokens)
  {
    if s.ValidTypes() {
      var t := Put(l.tokens, s.access);
      PutStaysOwned(owner, l.tokens, s.access);
      PutStaysOwned(owner, t, s.refresh);
      PutStaysOwned(owner, Put(t, s.refresh), s.idToken);
    }
  }

  lemma ExchangeStaysOwned(
    owner: string -> string, session: Sessions.Record, records: Records, client: Client, t: Logins.CodeTokens,
      up: nat -> bool)
    requires Owned(owner, records) && Proper(owner) && owner(t.ulid) == client.id
    ensures Owned(owner, Logins.CodeReceived(Logins.Login(session, records), client, client.id, t, up).tokens)
  {
    var userID := if client.id == "renku" then t.subject else session.userID;
    var id := Logins.TokenID(client.id, userID, t.ulid);
    assert owner(id) == client.id;
    var l := Logins.Login(session.(loginState := "", userID := userID), records);
    SavedStaysOwned(owner, l, Logins.CodeTokenSet(client, t).WithID(id), up);
  }

  /** Nothing but Redis itself removes a token. */
  lemma KeysGrow(margin: int, clients: ClientStore, evicts: bool, records: Records, op: Op)
    ensures records.Keys <= After(margin, clients, evicts, records, op).Keys
  {
  }

  lemma {:induction false} KeysGrowAll(margin: int, clients: ClientStore, evicts: bool, records: Records, ops: seq<Op>)
    ensures records.Keys <= AfterAll(margin, clients, evicts, records, ops).Keys
    decreases |ops|
  {
    if ops != [] {
      KeysGrow(margin, clients, evicts, records, ops[0]);
      KeysGrowAll(margin, clients, evicts, After(margin, clients, evicts, records, ops[0]), ops[1..]);
    }
  }

  /**
   * Over any run of logins and refreshes, on any IDs and with any failed writes, every record under a
   * token key has the type of its prefix and the ID in its key, and is the ID's owner's.
   */
  lemma {:induction false} RepositoryStaysOwned(
    owner: string -> string, margin: int, clients: ClientStore, evicts: bool, records: Records, ops: seq<Op>)
    requires Owned(owner, records) && Proper(owner) && WellKeyed(clients)
    requires forall i :: 0 <= i < |ops| ==> DrawnFor(owner, ops[i])
    ensures Owned(owner, AfterAll(margin, clients, evicts, records, ops))
    decreases |ops|
  {
    if ops != [] {
      var op := ops[0];
      assert DrawnFor(owner, op);
      match op {
        case Exchanged(session, client, t, up) => ExchangeStaysOwned(owner, session, records, client, t, up);
        case Called(tokenID, kind, env) =>
          CallStaysOwned(owner, Config(tokenID, margin, clients), kind, records, evicts, env);
      }
      RepositoryStaysOwned(owner, margin, clients, evicts, After(margin, clients, evicts, records, op), ops[1..]);
    }
  }

  lemma OwnedSlot(owner: string -> string, records: Records, typ: TokenType, id: string)
    requires Owned(owner, records) && TokenKey(typ, id) in records && !typ.UnknownType?
    ensures var token := records[TokenKey(typ, id)]; token.typ == typ && token.id == id && token.providerID == owner(id)
  {
    var token := records[TokenKey(typ, id)];
    KeySpacesDisjoint(typ, id, token.typ, token.id);
  }

  /** So every slot holds a token of its own type and ID, and all slots of one ID agree on the provider. */
  lemma SlotsAgreeOnProvider(
    owner: string -> string, margin: int, clients: ClientStore, evicts: bool, ops: seq<Op>,
    a: TokenType, b: TokenType, id: string)
    requires Proper(owner) && WellKeyed(clients) && !a.UnknownType? && !b.UnknownType?
    requires forall i :: 0 <= i < |ops| ==> DrawnFor(owner, ops[i])
    ensures
      var records := AfterAll(margin, clients, evicts, map[], ops);
      TokenKey(a, id) in records && TokenKey(b, id) in records ==>
        var s, t := records[TokenKey(a, id)], records[TokenKey(b, id)];
        s.typ == a && s.id == id && t.typ == b && t.id == id && s.providerID == t.providerID
  {
    RepositoryStaysOwned(owner, margin, clients, evicts, map[], ops);
    var records := AfterAll(margin, clients, evicts, map[], ops);
    if TokenKey(a, id) in records && TokenKey(b, id) in records {
      OwnedSlot(owner, records, a, id);
      OwnedSlot(owner, records, b, id);
    }
  }
}
