/**
  The tagged-Decimal metadata codec (infrastructure/database/repositories/common.py).
  `D` is the type of decimals; `show` and `parse` are its conversion to and from text.
 */
module MetadataCodec {
  import opened Wrappers

  const DECIMAL_TAG: string := "__atlas_decimal__"

  /** Values the application hands over. */
  datatype Value<D> =
    | Text(text: string)
    | Whole(whole: int)
    | Flag(flag: bool)
    | Amount(amount: D)
    | Nothing
    | Tuple(items: seq<Value<D>>)
    | List(items: seq<Value<D>>)
    | Dict(fields: map<string, Value<D>>)

  /** Values the JSON column holds. */
  datatype Json =
    | JText(text: string)
    | JWhole(whole: int)
    | JFlag(flag: bool)
    | JFloat
    | JNull
    | JList(items: seq<Json>)
    | JDict(fields: map<string, Json>)

  datatype Error = NotADecimal | UnsupportedValue

  function EncodeValue<D>(show: D -> string, v: Value<D>): Json
    decreases v, 1
  {
    match v
    case Amount(d) => JDict(map[DECIMAL_TAG := JText(show(d))])
    case Dict(_) => JDict(EncodeFields(show, v))
    case Tuple(_) => JList(EncodeItems(show, v))
    case List(_) => JList(EncodeItems(show, v))
    case Text(t) => JText(t)
    case Whole(n) => JWhole(n)
    case Flag(b) => JFlag(b)
    case Nothing => JNull
  }

  function EncodeFields<D>(show: D -> string, v: Value<D>): map<string, Json>
    requires v.Dict?
    decreases v, 0
  {
    map k | k in v.fields :: EncodeValue(show, v.fields[k])
  }

  function EncodeItems<D>(show: D -> string, v: Value<D>): seq<Json>
    requires v.Tuple? || v.List?
    decreases v, 0
  {
    seq(|v.items|, i requires 0 <= i < |v.items| => EncodeValue(show, v.items[i]))
  }

  predicate IsTagged(fields: map<string, Json>) {
    fields.Keys == {DECIMAL_TAG} && fields[DECIMAL_TAG].JText?
  }

  function DecodeValue<D>(parse: string -> Option<D>, j: Json): Result<Value<D>, Error>
    decreases j, 1
  {
    match j
    case JDict(fields) =>
      if IsTagged(fields) then
        match parse(fields[DECIMAL_TAG].text)
        case None => Err(NotADecimal)
        case Some(d) => Ok(Amount(d))
      else DecodeFields(parse, j)
    case JList(_) => DecodeItems(parse, j)
    case JText(t) => Ok(Text(t))
    case JWhole(n) => Ok(Whole(n))
    case JFlag(b) => Ok(Flag(b))
    case JNull => Ok(Nothing)
    case JFloat => Err(UnsupportedValue)
  }

  function DecodeFields<D>(parse: string -> Option<D>, j: Json): Result<Value<D>, Error>
    requires j.JDict?
    decreases j, 0
  {
    if exists k :: k in j.fields && DecodeValue(parse, j.fields[k]).Err? then Err(UnsupportedValue)
    else Ok(Dict(map k | k in j.fields :: DecodeValue(parse, j.fields[k]).value))
  }

  function DecodeItems<D>(parse: string -> Option<D>, j: Json): Result<Value<D>, Error>
    requires j.JList?
    decreases j, 0
  {
    if exists i :: 0 <= i < |j.items| && DecodeValue(parse, j.items[i]).Err? then Err(UnsupportedValue)
    else Ok(List(seq(|j.items|, i requires 0 <= i < |j.items| => DecodeValue(parse, j.items[i]).value)))
  }

  /** Metadata is the content of a dict; its own keys are encoded and decoded without looking for a tag. */
  type Metadata<D> = map<string, Value<D>>

  function Encode<D>(show: D -> string, m: Metadata<D>): map<string, Json> {
    EncodeFields(show, Dict(m))
  }

  function Decode<D>(parse: string -> Option<D>, j: map<string, Json>): Result<Metadata<D>, Error> {
    match DecodeFields(parse, JDict(j))
    case Err(e) => Err(e)
    case Ok(v) => Ok(v.fields)
  }

  // ---------- the round trip ----------

  /** What survives storage: the same value with every tuple turned into a list. */
  function TuplesAsLists<D>(v: Value<D>): Value<D>
    decreases v, 1
  {
    match v
    case Tuple(_) => List(ItemsAsLists(v))
    case List(_) => List(ItemsAsLists(v))
    case Dict(_) => Dict(FieldsAsLists(v))
    case _ => v
  }

  function ItemsAsLists<D>(v: Value<D>): seq<Value<D>>
    requires v.Tuple? || v.List?
    decreases v, 0
  {
    seq(|v.items|, i requires 0 <= i < |v.items| => TuplesAsLists(v.items[i]))
  }

  function FieldsAsLists<D>(v: Value<D>): map<string, Value<D>>
    requires v.Dict?
    decreases v, 0
  {
    map k | k in v.fields :: TuplesAsLists(v.fields[k])
  }

  /** A dict that looks like an encoded decimal: exactly the tag key, with a text value. */
  predicate Impostor<D>(v: Value<D>) {
    v.Dict? && v.fields.Keys == {DECIMAL_TAG} && v.fields[DECIMAL_TAG].Text?
  }

  /** No impostor anywhere inside. */
  predicate Unambiguous<D>(v: Value<D>)
    decreases v, 1
  {
    !Impostor(v) && UnambiguousParts(v)
  }

  predicate UnambiguousParts<D>(v: Value<D>)
    decreases v, 0
  {
    match v
    case Tuple(items) => forall i :: 0 <= i < |items| ==> Unambiguous(items[i])
    case List(items) => forall i :: 0 <= i < |items| ==> Unambiguous(items[i])
    case Dict(fields) => forall k :: k in fields ==> Unambiguous(fields[k])
    case _ => true
  }

  /** Text conversion of decimals loses nothing. */
  ghost predicate Faithful<D(!new)>(show: D -> string, parse: string -> Option<D>) {
    forall d :: parse(show(d)) == Some(d)
  }

  /** An encoded dict passes for a decimal exactly when it is an impostor. */
  lemma EncodedTag<D>(show: D -> string, v: Value<D>)
    requires v.Dict?
    ensures IsTagged(EncodeFields(show, v)) <==> Impostor(v)
  {
    assert EncodeFields(show, v).Keys == v.fields.Keys;
  }

  lemma {:induction false} ItemsRoundTrip<D(!new)>(show: D -> string, parse: string -> Option<D>, v: Value<D>)
    requires Faithful(show, parse) && (v.Tuple? || v.List?)
    ensures DecodeItems(parse, JList(EncodeItems(show, v))) == Ok(List(ItemsAsLists(v))) <==> UnambiguousParts(v)
    decreases v, 0
  {
    var encoded, wanted := EncodeItems(show, v), ItemsAsLists(v);
    var decoded := DecodeItems(parse, JList(encoded));
    forall i | 0 <= i < |v.items|
      ensures DecodeValue(parse, encoded[i]) == Ok(wanted[i]) <==> Unambiguous(v.items[i])
    {
      ValueRoundTrip(show, parse, v.items[i]);
    }
    if decoded.Ok? {
      var got := decoded.value.items;
      assert forall i :: 0 <= i < |v.items| ==> DecodeValue(parse, encoded[i]) == Ok(got[i]);
      assert got == wanted <==> forall i :: 0 <= i < |v.items| ==> got[i] == wanted[i];
    }
  }

  lemma {:induction false} FieldsRoundTrip<D(!new)>(show: D -> string, parse: string -> Option<D>, v: Value<D>)
    requires Faithful(show, parse) && v.Dict?
    ensures DecodeFields(parse, JDict(EncodeFields(show, v))) == Ok(Dict(FieldsAsLists(v))) <==> UnambiguousParts(v)
    decreases v, 0
  {
    hide Faithful, Unambiguous, DecodeValue, TuplesAsLists, EncodeValue;
    var encoded, wanted := EncodeFields(show, v), FieldsAsLists(v);
    var decoded := DecodeFields(parse, JDict(encoded));
    forall k | k in v.fields
      ensures DecodeValue(parse, encoded[k]) == Ok(wanted[k]) <==> Unambiguous(v.fields[k])
    {
      ValueRoundTrip(show, parse, v.fields[k]);
    }
    if decoded.Ok? {
      var got := decoded.value.fields;
      assert forall k :: k in v.fields ==> DecodeValue(parse, encoded[k]) == Ok(got[k]);
      assert got == wanted <==> forall k :: k in v.fields ==> got[k] == wanted[k];
    }
  }

  /** A stored value comes back, with tuples as lists, exactly when it holds no impostor. */
  lemma {:induction false} ValueRoundTrip<D(!new)>(show: D -> string, parse: string -> Option<D>, v: Value<D>)
    requires Faithful(show, parse)
    ensures DecodeValue(parse, EncodeValue(show, v)) == Ok(TuplesAsLists(v)) <==> Unambiguous(v)
    decreases v, 1
  {
    match v
    case Tuple(_) => ItemsRoundTrip(show, parse, v);
    case List(_) => ItemsRoundTrip(show, parse, v);
    case Dict(_) =>
      EncodedTag(show, v);
      FieldsRoundTrip(show, parse, v);
    case Amount(d) =>
      assert map[DECIMAL_TAG := JText(show(d))].Keys == {DECIMAL_TAG};
    case _ =>
  }

  /**
    The round trip of whole metadata, in both directions: it comes back with tuples as
    lists exactly when no nested dict is an impostor. The top level is exempt.
   */
  lemma MetadataRoundTrip<D(!new)>(show: D -> string, parse: string -> Option<D>, m: Metadata<D>)
    requires Faithful(show, parse)
    ensures Decode(parse, Encode(show, m)) == Ok(FieldsAsLists(Dict(m))) <==>
            forall k :: k in m ==> Unambiguous(m[k])
  {
    FieldsRoundTrip(show, parse, Dict(m));
  }

  /**
    The collision, concretely: nested, a dict of the tag and a decimal's text comes
    back as that decimal; as the metadata itself it comes back unchanged.
   */
  lemma ImpostorBecomesDecimal<D(!new)>(show: D -> string, parse: string -> Option<D>, d: D)
    requires Faithful(show, parse)
    ensures var impostor := Dict(map[DECIMAL_TAG := Text(show(d))]);
            DecodeValue(parse, EncodeValue(show, impostor)) == Ok(Amount(d)) &&
            Decode(parse, Encode(show, impostor.fields)) == Ok(impostor.fields)
  {
    var impostor := Dict(map[DECIMAL_TAG := Text(show(d))]);
    EncodedTag(show, impostor);
    assert EncodeValue(show, impostor.fields[DECIMAL_TAG]) == JText(show(d));
    assert EncodeFields(show, impostor)[DECIMAL_TAG] == JText(show(d));
    assert UnambiguousParts(impostor);
    FieldsRoundTrip(show, parse, impostor);
    assert FieldsAsLists(impostor) == impostor.fields;
  }

  // ---------- what is stored, and what cannot be read ----------

  /** A decimal is stored as a dict of one tagged text, every other scalar as itself, tuples and lists as lists. */
  lemma StoredShape<D>(show: D -> string, v: Value<D>)
    ensures v.Amount? ==> EncodeValue(show, v) == JDict(map["__atlas_decimal__" := JText(show(v.amount))])
    ensures v.Text? ==> EncodeValue(show, v) == JText(v.text)
    ensures v.Whole? ==> EncodeValue(show, v) == JWhole(v.whole)
    ensures v.Flag? ==> EncodeValue(show, v) == JFlag(v.flag)
    ensures v.Nothing? ==> EncodeValue(show, v) == JNull
    ensures v.Tuple? || v.List? ==>
              var j := EncodeValue(show, v);
              j.JList? && |j.items| == |v.items| &&
              forall i :: 0 <= i < |v.items| ==> j.items[i] == EncodeValue(show, v.items[i])
    ensures v.Dict? ==>
              var j := EncodeValue(show, v);
              j.JDict? && j.fields.Keys == v.fields.Keys &&
              forall k :: k in v.fields ==> j.fields[k] == EncodeValue(show, v.fields[k])
  {}

  /** A float, or a tagged text that is not a decimal, somewhere inside. */
  predicate Unreadable<D>(parse: string -> Option<D>, j: Json) {
    match j
    case JFloat => true
    case JDict(fields) =>
      if fields.Keys == {"__atlas_decimal__"} && fields["__atlas_decimal__"].JText? then
        parse(fields["__atlas_decimal__"].text).None?
      else exists k :: k in fields && Unreadable(parse, fields[k])
    case JList(items) => exists i :: 0 <= i < |items| && Unreadable(parse, items[i])
    case _ => false
  }

  /** Decoding fails exactly on what is unreadable. */
  lemma {:induction false} DecodeFailsIffUnreadable<D>(parse: string -> Option<D>, j: Json)
    ensures DecodeValue(parse, j).Err? <==> Unreadable(parse, j)
    decreases j
  {
    match j
    case JDict(fields) =>
      forall k | k in fields ensures DecodeValue(parse, fields[k]).Err? <==> Unreadable(parse, fields[k]) {
        DecodeFailsIffUnreadable(parse, fields[k]);
      }
    case JList(items) =>
      forall i | 0 <= i < |items| ensures DecodeValue(parse, items[i]).Err? <==> Unreadable(parse, items[i]) {
        DecodeFailsIffUnreadable(parse, items[i]);
      }
    case _ =>
  }
}
