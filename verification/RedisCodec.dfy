/** How structs become Redis hashes and come back: `serializeStruct`, `convertValuesToMap`, `HGetAll`, decoding. */
module RedisCodec {
  import opened Prelude
  import opened Tokens
  import opened Decimal

  /** A struct field's value; everything but a string has its own text form. */
  datatype Value =
    | StringValue(s: string)
    | TimeValue(t: Time)
    | IntValue(n: int)
    | MapValue(m: map<string, string>)
    | ListValue(l: seq<string>)
    | TypeValue(typ: TokenType)

  datatype Field = Field(name: string, exported: bool, value: Value)

  /** The text forms of other packages: RFC 3339 times, which fail past year 9999, and JSON. */
  datatype Codec = Codec(
    timeText: Time -> Option<string>, timeOf: string -> Option<Time>,
    mapText: map<string, string> -> string, mapOf: string -> Option<map<string, string>>,
    listText: seq<string> -> string, listOf: string -> Option<seq<string>>)
  {
    /** Reading undoes writing. */
    ghost predicate Inverse() {
      && (forall t :: timeText(t).Some? ==> timeOf(timeText(t).value) == Some(t))
      && (forall m :: mapOf(mapText(m)) == Some(m))
      && (forall l :: listOf(listText(l)) == Some(l))
    }
  }

  function TypeText(typ: TokenType): string {
    match typ
    case AccessType => "AccessToken"
    case RefreshType => "RefreshToken"
    case IdType => "IDToken"
    case UnknownType(name) => name
  }

  function TypeOf(s: string): TokenType {
    if s == "AccessToken" then AccessType
    else if s == "RefreshToken" then RefreshType
    else if s == "IDToken" then IdType
    else UnknownType(s)
  }

  /** `MarshalText`, and a string as it is. */
  function Text(codec: Codec, v: Value): Option<string> {
    match v
    case StringValue(s) => Some(s)
    case TimeValue(t) => codec.timeText(t)
    case IntValue(n) => Some(Itoa(n))
    case MapValue(m) => Some(codec.mapText(m))
    case ListValue(l) => Some(codec.listText(l))
    case TypeValue(typ) => Some(TypeText(typ))
  }

  /** Decodes a text into a field that now holds `zero`. */
  function ValueOf(codec: Codec, zero: Value, text: string): Option<Value> {
    match zero
    case StringValue(_) => Some(StringValue(text))
    case TimeValue(_) => var t := codec.timeOf(text); if t.Some? then Some(TimeValue(t.value)) else None
    case IntValue(_) => var n := Atoi(text); if n.Some? then Some(IntValue(n.value)) else None
    case MapValue(_) => var m := codec.mapOf(text); if m.Some? then Some(MapValue(m.value)) else None
    case ListValue(_) => var l := codec.listOf(text); if l.Some? then Some(ListValue(l.value)) else None
    case TypeValue(_) => Some(TypeValue(TypeOf(text)))
  }

  predicate SameKind(v: Value, w: Value) {
    match v
    case StringValue(_) => w.StringValue?
    case TimeValue(_) => w.TimeValue?
    case IntValue(_) => w.IntValue?
    case MapValue(_) => w.MapValue?
    case ListValue(_) => w.ListValue?
    case TypeValue(_) => w.TypeValue?
  }

  /** A time before year 10000, a 64-bit integer, a token type with one spelling. */
  predicate Encodable(codec: Codec, v: Value) {
    match v
    case TimeValue(t) => codec.timeText(t).Some?
    case IntValue(n) => MIN_INT <= n <= MAX_INT
    case TypeValue(typ) => typ.UnknownType? ==> TypeOf(typ.name) == typ
    case _ => true
  }

  /** One value comes back exactly if it is encodable. */
  lemma ValueRoundTrip(codec: Codec, v: Value, zero: Value)
    requires codec.Inverse() && SameKind(v, zero)
    ensures Encodable(codec, v) <==> Text(codec, v).Some? && ValueOf(codec, zero, Text(codec, v).value) == Some(v)
  {
    match v
    case IntValue(n) => AtoiItoa(n);
    case TypeValue(_) =>
    case _ =>
  }

  // ---- Writing --------------------------------------------------------------------------

  /** What goes into the argument list: the text, or the value itself where it has none. */
  function Encoded(codec: Codec, v: Value): Value {
    var t := Text(codec, v);
    if t.Some? then StringValue(t.value) else v
  }

  function Serialized(codec: Codec, fields: seq<Field>): (out: seq<Value>)
    ensures |out| % 2 == 0
    ensures forall i :: 0 <= i < |out| && i % 2 == 0 ==> out[i].StringValue?
  {
    if fields == [] then []
    else
      var f := fields[|fields| - 1];
      Serialized(codec, fields[..|fields| - 1]) +
      if f.exported then [StringValue(f.name), Encoded(codec, f.value)] else []
  }

  method SerializeStruct(codec: Codec, fields: seq<Field>) returns (output: seq<Value>)
    ensures output == Serialized(codec, fields)
  {
    output := [];
    for i := 0 to |fields|
      invariant output == Serialized(codec, fields[..i])
    {
      var f := fields[i];
      assert fields[..i + 1][..i] == fields[..i];
      if !f.exported {
        continue;
      }
      if f.value.StringValue? {
        output := output + [StringValue(f.name), f.value];
        continue;
      }
      var text := Text(codec, f.value);
      if text.None? {
        output := output + [StringValue(f.name), f.value];
        continue;
      }
      output := output + [StringValue(f.name), StringValue(text.value)];
    }
    assert fields[..|fields|] == fields;
  }

  type Hash = map<string, Value>

  predicate Alternating(values: seq<Value>) {
    |values| % 2 == 0 && forall i :: 0 <= i < |values| && i % 2 == 0 ==> values[i].StringValue?
  }

  /** The pairs of an alternating list; of two with one key the later counts. */
  function Pairs(values: seq<Value>): Hash
    requires Alternating(values)
    decreases |values|
  {
    if values == [] then map[]
    else
      assert Alternating(values[..|values| - 2]);
      Pairs(values[..|values| - 2])[values[|values| - 2].s := values[|values| - 1]]
  }

  /** From `i` on the list has this value for the key, and nothing more for it later on. */
  predicate LastAt(values: seq<Value>, i: nat, k: string, v: Value)
    requires Alternating(values)
  {
    && i < |values| - 1 && i % 2 == 0 && values[i] == StringValue(k) && values[i + 1] == v
    && forall j :: i < j < |values| && j % 2 == 0 ==> values[j] != StringValue(k)
  }

  ghost predicate LastFor(values: seq<Value>, k: string, v: Value)
    requires Alternating(values)
  {
    exists i: nat :: LastAt(values, i, k, v)
  }

  lemma LastForExtends(values: seq<Value>, name: Value, value: Value, k: string, v: Value)
    requires Alternating(values) && name.StringValue?
    ensures var more := values + [name, value];
      Alternating(more) && (LastFor(more, k, v) <==> if name.s == k then v == value else LastFor(values, k, v))
  {
    var more, n := values + [name, value], |values|;
    assert more[n] == name && more[n + 1] == value;
    if LastFor(more, k, v) {
      var i: nat :| LastAt(more, i, k, v);
      if i < n {
        assert more[n] != StringValue(k) && i + 1 < n;
        assert values[i] == more[i] && values[i + 1] == more[i + 1];
        assert forall j :: 0 <= j < n ==> values[j] == more[j];
        assert LastAt(values, i, k, v);
      }
    }
    if name.s == k && v == value {
      assert LastAt(more, n, k, v);
    } else if name.s != k && LastFor(values, k, v) {
      var i: nat :| LastAt(values, i, k, v);
      assert LastAt(more, i, k, v);
    }
  }

  /** The map of a list has exactly the keys of the list, each with the last value that follows it. */
  lemma {:induction false} PairsAreTheLast(values: seq<Value>, k: string, v: Value)
    requires Alternating(values)
    ensures Find(Pairs(values), k) == Some(v) <==> LastFor(values, k, v)
    decreases |values|
  {
    if values != [] {
      var n := |values| - 2;
      assert values == values[..n] + [values[n], values[n + 1]];
      assert Alternating(values[..n]);
      PairsAreTheLast(values[..n], k, v);
      LastForExtends(values[..n], values[n], values[n + 1], k, v);
    }
  }

  /** Fails on a list of odd length. */
  method ConvertValuesToMap(values: seq<Value>) returns (ok: bool, output: Hash)
    requires |values| % 2 == 0 ==> Alternating(values)
    ensures ok <==> |values| % 2 == 0
    ensures output == if ok then Pairs(values) else map[]
  {
    output := map[];
    if |values| % 2 != 0 {
      return false, output;
    }
    var i := 0;
    while i < |values|
      invariant 0 <= i <= |values| && i % 2 == 0 && Alternating(values[..i])
      invariant output == Pairs(values[..i])
    {
      assert values[..i + 2][..i] == values[..i];
      output := output[values[i].s := values[i + 1]];
      i := i + 2;
    }
    assert values[..|values|] == values;
    ok := true;
  }

  predicate Distinct(fields: seq<Field>) {
    forall i, j :: 0 <= i < j < |fields| ==> fields[i].name != fields[j].name
  }

  /** The struct's exported fields, and nothing else, are in the hash under their names. */
  ghost predicate Holds(codec: Codec, fields: seq<Field>, h: Hash) {
    && (forall i :: 0 <= i < |fields| && fields[i].exported ==>
          fields[i].name in h && h[fields[i].name] == Encoded(codec, fields[i].value))
    && (forall k :: k in h ==> exists i :: 0 <= i < |fields| && fields[i].exported && fields[i].name == k)
  }

  lemma HoldsOneMore(codec: Codec, fields: seq<Field>, h: Hash)
    requires fields != [] && Distinct(fields) && Holds(codec, fields[..|fields| - 1], h)
    ensures var f := fields[|fields| - 1];
      Holds(codec, fields, if f.exported then h[f.name := Encoded(codec, f.value)] else h)
  {
    var n := |fields| - 1;
    var f, init := fields[n], fields[..n];
    var h' := if f.exported then h[f.name := Encoded(codec, f.value)] else h;
    forall k | k in h'
      ensures exists i :: 0 <= i < |fields| && fields[i].exported && fields[i].name == k
    {
      if k in h {
        var i :| 0 <= i < |init| && init[i].exported && init[i].name == k;
        assert fields[i].exported && fields[i].name == k;
      } else {
        assert fields[n].exported && fields[n].name == k;
      }
    }
    forall i | 0 <= i < |fields| && fields[i].exported
      ensures fields[i].name in h' && h'[fields[i].name] == Encoded(codec, fields[i].value)
    {
      assert i < n ==> init[i] == fields[i];
    }
  }

  lemma {:induction false} SerializedHolds(codec: Codec, fields: seq<Field>)
    requires Distinct(fields)
    ensures Holds(codec, fields, Pairs(Serialized(codec, fields)))
    decreases |fields|
  {
    if fields != [] {
      var n := |fields| - 1;
      var s := Serialized(codec, fields[..n]);
      SerializedHolds(codec, fields[..n]);
      HoldsOneMore(codec, fields, Pairs(s));
      if fields[n].exported {
        assert (s + [StringValue(fields[n].name), Encoded(codec, fields[n].value)])[..|s|] == s;
      } else {
        assert s + [] == s;
      }
    }
  }

  // ---- Reading --------------------------------------------------------------------------

  /** The texts of a hash; None if one has none. */
  function Texts(codec: Codec, h: Hash): Option<map<string, string>> {
    if forall k :: k in h ==> Text(codec, h[k]).Some?
    then Some(map k | k in h :: Text(codec, h[k]).value)
    else None
  }

  /** Decodes a hash into a struct: a field that is not in the hash, or not exported, keeps its value. */
  function Decoded(codec: Codec, zero: seq<Field>, h: map<string, string>): (r: Option<seq<Field>>)
    ensures r.Some? ==> |r.value| == |zero|
  {
    if zero == [] then Some([])
    else
      var n := |zero| - 1;
      var f := zero[n];
      var rest := Decoded(codec, zero[..n], h);
      if rest.None? then None
      else if !f.exported || f.name !in h then Some(rest.value + [f])
      else
        var v := ValueOf(codec, f.value, h[f.name]);
        if v.None? then None else Some(rest.value + [f.(value := v.value)])
  }

  predicate SameShape(fields: seq<Field>, zero: seq<Field>) {
    && |fields| == |zero|
    && forall i :: 0 <= i < |fields| ==>
         && fields[i].name == zero[i].name && fields[i].exported == zero[i].exported
         && SameKind(fields[i].value, zero[i].value)
         && (!fields[i].exported ==> fields[i] == zero[i])
  }

  predicate AllEncodable(codec: Codec, fields: seq<Field>) {
    forall i :: 0 <= i < |fields| && fields[i].exported ==> Encodable(codec, fields[i].value)
  }

  /** The hash holds the fields' texts. */
  predicate Carries(codec: Codec, fields: seq<Field>, h: map<string, string>) {
    forall i :: 0 <= i < |fields| && fields[i].exported ==>
      fields[i].name in h && Text(codec, fields[i].value) == Some(h[fields[i].name])
  }

  lemma DecodedOneMore(codec: Codec, fields: seq<Field>, zero: seq<Field>, h: map<string, string>)
    requires codec.Inverse() && SameShape(fields, zero) && Carries(codec, fields, h) && fields != []
    ensures
      var n := |fields| - 1;
      var f := fields[n];
      Decoded(codec, zero, h) == Some(fields) <==>
        Decoded(codec, zero[..n], h) == Some(fields[..n]) && (f.exported ==> Encodable(codec, f.value))
  {
    var n := |fields| - 1;
    ValueRoundTrip(codec, fields[n].value, zero[n].value);
    assert fields == fields[..n] + [fields[n]];
    var rest := Decoded(codec, zero[..n], h);
    if rest.Some? {
      assert forall f: Field :: (rest.value + [f])[..n] == rest.value && (rest.value + [f])[n] == f;
    }
  }

  lemma {:induction false} DecodedFields(codec: Codec, fields: seq<Field>, zero: seq<Field>, h: map<string, string>)
    requires codec.Inverse() && SameShape(fields, zero) && Carries(codec, fields, h)
    ensures Decoded(codec, zero, h) == Some(fields) <==> AllEncodable(codec, fields)
    decreases |fields|
  {
    if fields != [] {
      var n := |fields| - 1;
      DecodedFields(codec, fields[..n], zero[..n], h);
      DecodedOneMore(codec, fields, zero, h);
      assert AllEncodable(codec, fields) <==>
        AllEncodable(codec, fields[..n]) && (fields[n].exported ==> Encodable(codec, fields[n].value));
    }
  }

  /** The text form of a struct's hash. */
  lemma SerializedTexts(codec: Codec, fields: seq<Field>)
    requires Distinct(fields)
    ensures var t := Texts(codec, Pairs(Serialized(codec, fields)));
      && (t.Some? <==> forall i :: 0 <= i < |fields| && fields[i].exported ==> Text(codec, fields[i].value).Some?)
      && (t.Some? ==> Carries(codec, fields, t.value))
  {
    var h := Pairs(Serialized(codec, fields));
    SerializedHolds(codec, fields);
    if Texts(codec, h).Some? {
      forall i | 0 <= i < |fields| && fields[i].exported
        ensures Text(codec, fields[i].value).Some?
      {
        assert fields[i].name in h && Text(codec, h[fields[i].name]).Some?;
      }
    } else {
      var k :| k in h && Text(codec, h[k]).None?;
      var i :| 0 <= i < |fields| && fields[i].exported && fields[i].name == k;
      assert Text(codec, fields[i].value).None?;
    }
  }

  /**
   * Writing a struct and reading it back gives the same struct, exactly when every exported field can
   * be encoded.
   */
  lemma StructRoundTrip(codec: Codec, fields: seq<Field>, zero: seq<Field>)
    requires codec.Inverse() && Distinct(fields) && SameShape(fields, zero)
    ensures var t := Texts(codec, Pairs(Serialized(codec, fields)));
      (t.Some? && Decoded(codec, zero, t.value) == Some(fields)) <==> AllEncodable(codec, fields)
  {
    SerializedTexts(codec, fields);
    var t := Texts(codec, Pairs(Serialized(codec, fields)));
    if t.Some? {
      DecodedFields(codec, fields, zero, t.value);
    } else {
      var i :| 0 <= i < |fields| && fields[i].exported && Text(codec, fields[i].value).None?;
      ValueRoundTrip(codec, fields[i].value, zero[i].value);
    }
  }
}
