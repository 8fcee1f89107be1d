/**
  The field-level machinery every SPDX record is decoded and encoded with:
  path-qualified errors, decoders for JSON scalars, arrays and closed objects,
  one combinator per way a field can be declared (required or optional, single
  value or list with a minimum length), their encoders, and the matching
  schema predicates. The lemmas at the end show, once for all records, that
  each combinator loses nothing, forgets nothing and rejects exactly what its
  schema predicate rejects, provided the element codec it is given does.
 */
module Codec {
  import opened Wrappers
  import opened Json

  /** One step of the path from the document root to the offending value. */
  datatype Step = Key(name: string) | Index(position: nat)

  datatype Kind = ObjectKind | StringKind | BoolKind | IntegerKind | ArrayKind

  datatype Reason =
    | WrongKind(expected: Kind)
    | UnknownKeys(keys: set<string>)
    | MissingKey(key: string)
    | BadLiteral(literal: string)
    | TooFewItems(minItems: nat, count: nat)

  datatype Error = Error(path: seq<Step>, reason: Reason)

  type Decoded<T> = Result<T, Error>

  function Fail<T>(reason: Reason): Decoded<T> {
    Err(Error([], reason))
  }

  /** Prefixes the path of an error with the step that led to it. */
  function Within<T>(step: Step, r: Decoded<T>): Decoded<T> {
    match r
    case Ok(_) => r
    case Err(e) => Err(Error([step] + e.path, e.reason))
  }

  // ---------------------------------------------------------------- scalars

  function AsString(j: Json): Decoded<string> {
    if j.JString? then Ok(j.s) else Fail(WrongKind(StringKind))
  }

  function AsBool(j: Json): Decoded<bool> {
    if j.JBool? then Ok(j.b) else Fail(WrongKind(BoolKind))
  }

  function AsInt(j: Json): Decoded<int> {
    if j.JInt? then Ok(j.i) else Fail(WrongKind(IntegerKind))
  }

  /** An open mapping of string keys to arbitrary JSON values, taken as it is. */
  function AsObject(j: Json): Decoded<map<string, Json>> {
    if j.JObject? then Ok(j.fields) else Fail(WrongKind(ObjectKind))
  }

  function EncodeString(s: string): Json {
    JString(s)
  }

  function EncodeBool(b: bool): Json {
    JBool(b)
  }

  function EncodeInt(i: int): Json {
    JInt(i)
  }

  function EncodeObject(fields: map<string, Json>): Json {
    JObject(fields)
  }

  // ---------------------------------------------------------------- records

  /**
    The fields of a record object whose declared keys are `keys`: anything
    but an object, or an object with a key outside `keys`, is rejected.
   */
  function ClosedObject(j: Json, keys: set<string>): (r: Decoded<map<string, Json>>)
    ensures r.Ok? <==> Closed(j, keys)
    ensures r.Ok? ==> r.value == j.fields
    ensures j.JObject? && !Closed(j, keys) ==> r == Fail(UnknownKeys(j.fields.Keys - keys))
  {
    if !j.JObject? then Fail(WrongKind(ObjectKind))
    else if !(j.fields.Keys <= keys) then Fail(UnknownKeys(j.fields.Keys - keys))
    else Ok(j.fields)
  }

  // ---------------------------------------------------------------- arrays

  /**
    Decodes every element with `dec`, in order; the first element that fails
    decides the error, qualified by its index.
   */
  function DecodeItems<T>(items: seq<Json>, dec: Json -> Decoded<T>): (r: Decoded<seq<T>>)
    ensures r.Ok? <==> forall i | 0 <= i < |items| :: dec(items[i]).Ok?
    ensures r.Ok? ==>
              |r.value| == |items| &&
              forall i | 0 <= i < |items| :: dec(items[i]) == Ok(r.value[i])
    decreases |items|
  {
    if items == [] then Ok([])
    else
      var n := |items| - 1;
      var init :- DecodeItems(items[..n], dec);
      var last :- Within(Index(n), dec(items[n]));
      Ok(init + [last])
  }

  /** A JSON array of at least `minItems` elements, each decoded with `dec`. */
  function DecodeArray<T>(j: Json, dec: Json -> Decoded<T>, minItems: nat): (r: Decoded<seq<T>>)
    ensures r.Ok? ==> j.JArray? && minItems <= |j.items|
    ensures j.JArray? && |j.items| < minItems ==> r == Fail(TooFewItems(minItems, |j.items|))
  {
    if !j.JArray? then Fail(WrongKind(ArrayKind))
    else if |j.items| < minItems then Fail(TooFewItems(minItems, |j.items|))
    else DecodeItems(j.items, dec)
  }

  function EncodeArray<T>(xs: seq<T>, enc: T -> Json): (r: Json)
    ensures r.JArray? && |r.items| == |xs|
  {
    JArray(seq(|xs|, i requires 0 <= i < |xs| => enc(xs[i])))
  }

  // ---------------------------------------------------------------- fields

  /** A field declared without a default: absence is an error. */
  function Required<T>(obj: map<string, Json>, key: string, dec: Json -> Decoded<T>): Decoded<T> {
    if key in obj then Within(Key(key), dec(obj[key])) else Fail(MissingKey(key))
  }

  /** A field declared with a `None` default: absence is remembered as None. */
  function Optional<T>(obj: map<string, Json>, key: string, dec: Json -> Decoded<T>): Decoded<Option<T>> {
    if key !in obj then Ok(None)
    else
      var v :- Within(Key(key), dec(obj[key]));
      Ok(Some(v))
  }

  /** A required list field with a minimum length (`min_items`). */
  function RequiredArray<T>(obj: map<string, Json>, key: string, dec: Json -> Decoded<T>, minItems: nat)
    : Decoded<seq<T>>
  {
    if key in obj then Within(Key(key), DecodeArray(obj[key], dec, minItems)) else Fail(MissingKey(key))
  }

  /** An optional list field; none of the optional lists declares a minimum length. */
  function OptionalArray<T>(obj: map<string, Json>, key: string, dec: Json -> Decoded<T>)
    : Decoded<Option<seq<T>>>
  {
    if key !in obj then Ok(None)
    else
      var xs :- Within(Key(key), DecodeArray(obj[key], dec, 0));
      Ok(Some(xs))
  }

  /** The wire value of an optional field: nothing at all when it was never supplied. */
  function Present<T>(v: Option<T>, enc: T -> Json): Option<Json> {
    match v
    case None => None
    case Some(x) => Some(enc(x))
  }

  function PresentArray<T>(v: Option<seq<T>>, enc: T -> Json): Option<Json> {
    match v
    case None => None
    case Some(xs) => Some(EncodeArray(xs, enc))
  }

  // ---------------------------------------------------------------- schema

  predicate IsString(j: Json) {
    j.JString?
  }

  predicate IsBool(j: Json) {
    j.JBool?
  }

  predicate IsInteger(j: Json) {
    j.JInt?
  }

  predicate IsObject(j: Json) {
    j.JObject?
  }

  /** `additionalProperties: false`: an object with no key outside `keys`. */
  predicate Closed(j: Json, keys: set<string>) {
    j.JObject? && j.fields.Keys <= keys
  }

  /** An array of at least `minItems` elements, each satisfying `ok`. */
  predicate ArrayOf(j: Json, ok: Json -> bool, minItems: nat) {
    j.JArray? && minItems <= |j.items| && forall i | 0 <= i < |j.items| :: ok(j.items[i])
  }

  predicate HasRequired(obj: map<string, Json>, key: string, ok: Json -> bool) {
    key in obj && ok(obj[key])
  }

  predicate MayHave(obj: map<string, Json>, key: string, ok: Json -> bool) {
    key in obj ==> ok(obj[key])
  }

  predicate HasRequiredArray(obj: map<string, Json>, key: string, ok: Json -> bool, minItems: nat) {
    key in obj && ArrayOf(obj[key], ok, minItems)
  }

  predicate MayHaveArray(obj: map<string, Json>, key: string, ok: Json -> bool) {
    key in obj ==> ArrayOf(obj[key], ok, 0)
  }

  // ---------------------------------------------------------------- laws

  /** Encoding what `dec` decoded from `j` gives `j` back. */
  predicate Lossless<T>(dec: Json -> Decoded<T>, enc: T -> Json, j: Json) {
    dec(j).Ok? ==> enc(dec(j).value) == j
  }

  /** Decoding the encoding of `v` gives `v` back. */
  ghost predicate Faithful<T>(dec: Json -> Decoded<T>, enc: T -> Json, v: T) {
    dec(enc(v)) == Ok(v)
  }

  /** `dec` accepts `j` exactly when `j` satisfies the schema predicate `ok`. */
  predicate Agrees<T>(dec: Json -> Decoded<T>, ok: Json -> bool, j: Json) {
    dec(j).Ok? <==> ok(j)
  }

  lemma ScalarsLossless()
    ensures forall j :: Lossless(AsString, EncodeString, j)
    ensures forall j :: Lossless(AsBool, EncodeBool, j)
    ensures forall j :: Lossless(AsInt, EncodeInt, j)
    ensures forall j :: Lossless(AsObject, EncodeObject, j)
  {
  }

  lemma ScalarsFaithful()
    ensures forall s :: Faithful(AsString, EncodeString, s)
    ensures forall b :: Faithful(AsBool, EncodeBool, b)
    ensures forall i :: Faithful(AsInt, EncodeInt, i)
    ensures forall m :: Faithful(AsObject, EncodeObject, m)
  {
  }

  lemma ScalarsAgree()
    ensures forall j :: Agrees(AsString, IsString, j)
    ensures forall j :: Agrees(AsBool, IsBool, j)
    ensures forall j :: Agrees(AsInt, IsInteger, j)
    ensures forall j :: Agrees(AsObject, IsObject, j)
  {
  }

  /** Array decoding keeps order and length, so re-encoding gives the array back. */
  lemma ArrayLossless<T>(j: Json, dec: Json -> Decoded<T>, enc: T -> Json, minItems: nat)
    requires forall e :: Lossless(dec, enc, e)
    ensures DecodeArray(j, dec, minItems).Ok? ==> EncodeArray(DecodeArray(j, dec, minItems).value, enc) == j
  {
    if DecodeArray(j, dec, minItems).Ok? {
      var xs := DecodeArray(j, dec, minItems).value;
      forall i | 0 <= i < |j.items| ensures enc(xs[i]) == j.items[i] {
        assert Lossless(dec, enc, j.items[i]);
      }
    }
  }

  lemma ArrayFaithful<T>(xs: seq<T>, dec: Json -> Decoded<T>, enc: T -> Json, minItems: nat)
    requires minItems <= |xs|
    requires forall i | 0 <= i < |xs| :: Faithful(dec, enc, xs[i])
    ensures DecodeArray(EncodeArray(xs, enc), dec, minItems) == Ok(xs)
  {
    var items := EncodeArray(xs, enc).items;
    forall i | 0 <= i < |items| ensures dec(items[i]) == Ok(xs[i]) {
      assert Faithful(dec, enc, xs[i]);
    }
    var r := DecodeItems(items, dec);
    assert r.Ok?;
    assert r.value == xs;
  }

  lemma ArrayAgrees<T>(j: Json, dec: Json -> Decoded<T>, ok: Json -> bool, minItems: nat)
    requires forall e :: Agrees(dec, ok, e)
    ensures DecodeArray(j, dec, minItems).Ok? <==> ArrayOf(j, ok, minItems)
  {
    if j.JArray? {
      forall i | 0 <= i < |j.items| ensures dec(j.items[i]).Ok? <==> ok(j.items[i]) {
        assert Agrees(dec, ok, j.items[i]);
      }
    }
  }

  lemma RequiredLossless<T>(obj: map<string, Json>, key: string, dec: Json -> Decoded<T>, enc: T -> Json)
    requires forall e :: Lossless(dec, enc, e)
    ensures Required(obj, key, dec).Ok? ==> Some(enc(Required(obj, key, dec).value)) == Slot(obj, key)
  {
    if key in obj {
      assert Lossless(dec, enc, obj[key]);
    }
  }

  lemma OptionalLossless<T>(obj: map<string, Json>, key: string, dec: Json -> Decoded<T>, enc: T -> Json)
    requires forall e :: Lossless(dec, enc, e)
    ensures Optional(obj, key, dec).Ok? ==> Present(Optional(obj, key, dec).value, enc) == Slot(obj, key)
  {
    if key in obj {
      assert Lossless(dec, enc, obj[key]);
    }
  }

  lemma RequiredArrayLossless<T>(obj: map<string, Json>, key: string, dec: Json -> Decoded<T>, enc: T -> Json,
                                 minItems: nat)
    requires forall e :: Lossless(dec, enc, e)
    ensures RequiredArray(obj, key, dec, minItems).Ok? ==>
              Some(EncodeArray(RequiredArray(obj, key, dec, minItems).value, enc)) == Slot(obj, key)
  {
    if key in obj {
      ArrayLossless(obj[key], dec, enc, minItems);
    }
  }

  lemma OptionalArrayLossless<T>(obj: map<string, Json>, key: string, dec: Json -> Decoded<T>, enc: T -> Json)
    requires forall e :: Lossless(dec, enc, e)
    ensures OptionalArray(obj, key, dec).Ok? ==>
              PresentArray(OptionalArray(obj, key, dec).value, enc) == Slot(obj, key)
  {
    if key in obj {
      ArrayLossless(obj[key], dec, enc, 0);
    }
  }

  lemma RequiredFaithful<T>(obj: map<string, Json>, key: string, dec: Json -> Decoded<T>, enc: T -> Json, v: T)
    requires Slot(obj, key) == Some(enc(v))
    requires Faithful(dec, enc, v)
    ensures Required(obj, key, dec) == Ok(v)
  {
  }

  lemma OptionalFaithful<T>(obj: map<string, Json>, key: string, dec: Json -> Decoded<T>, enc: T -> Json,
                            v: Option<T>)
    requires Slot(obj, key) == Present(v, enc)
    requires v.Some? ==> Faithful(dec, enc, v.value)
    ensures Optional(obj, key, dec) == Ok(v)
  {
  }

  lemma RequiredArrayFaithful<T>(obj: map<string, Json>, key: string, dec: Json -> Decoded<T>, enc: T -> Json,
                                 minItems: nat, xs: seq<T>)
    requires Slot(obj, key) == Some(EncodeArray(xs, enc))
    requires minItems <= |xs|
    requires forall i | 0 <= i < |xs| :: Faithful(dec, enc, xs[i])
    ensures RequiredArray(obj, key, dec, minItems) == Ok(xs)
  {
    ArrayFaithful(xs, dec, enc, minItems);
  }

  lemma OptionalArrayFaithful<T>(obj: map<string, Json>, key: string, dec: Json -> Decoded<T>, enc: T -> Json,
                                 v: Option<seq<T>>)
    requires Slot(obj, key) == PresentArray(v, enc)
    requires v.Some? ==> forall i | 0 <= i < |v.value| :: Faithful(dec, enc, v.value[i])
    ensures OptionalArray(obj, key, dec) == Ok(v)
  {
    if v.Some? {
      ArrayFaithful(v.value, dec, enc, 0);
    }
  }

  lemma RequiredAgrees<T>(obj: map<string, Json>, key: string, dec: Json -> Decoded<T>, ok: Json -> bool)
    requires forall e :: Agrees(dec, ok, e)
    ensures Required(obj, key, dec).Ok? <==> HasRequired(obj, key, ok)
  {
    if key in obj {
      assert Agrees(dec, ok, obj[key]);
    }
  }

  lemma OptionalAgrees<T>(obj: map<string, Json>, key: string, dec: Json -> Decoded<T>, ok: Json -> bool)
    requires forall e :: Agrees(dec, ok, e)
    ensures Optional(obj, key, dec).Ok? <==> MayHave(obj, key, ok)
  {
    if key in obj {
      assert Agrees(dec, ok, obj[key]);
    }
  }

  lemma RequiredArrayAgrees<T>(obj: map<string, Json>, key: string, dec: Json -> Decoded<T>, ok: Json -> bool,
                               minItems: nat)
    requires forall e :: Agrees(dec, ok, e)
    ensures RequiredArray(obj, key, dec, minItems).Ok? <==> HasRequiredArray(obj, key, ok, minItems)
  {
    if key in obj {
      ArrayAgrees(obj[key], dec, ok, minItems);
    }
  }

  lemma OptionalArrayAgrees<T>(obj: map<string, Json>, key: string, dec: Json -> Decoded<T>, ok: Json -> bool)
    requires forall e :: Agrees(dec, ok, e)
    ensures OptionalArray(obj, key, dec).Ok? <==> MayHaveArray(obj, key, ok)
  {
    if key in obj {
      ArrayAgrees(obj[key], dec, ok, 0);
    }
  }

  /** Whatever `dec` promises of each value it produces holds of every item of a decoded list field. */
  lemma OptionalArrayEach<T>(obj: map<string, Json>, key: string, dec: Json -> Decoded<T>, p: T -> bool)
    requires forall j | dec(j).Ok? :: p(dec(j).value)
    ensures OptionalArray(obj, key, dec).Ok? && OptionalArray(obj, key, dec).value.Some? ==>
              forall i | 0 <= i < |OptionalArray(obj, key, dec).value.value| ::
                p(OptionalArray(obj, key, dec).value.value[i])
  {
    if OptionalArray(obj, key, dec).Ok? && key in obj {
      var xs := OptionalArray(obj, key, dec).value.value;
      var items := obj[key].items;
      forall i | 0 <= i < |xs| ensures p(xs[i]) {
        assert dec(items[i]) == Ok(xs[i]);
      }
    }
  }

  /** A supplied list field decodes item by item, in the order written. */
  lemma OptionalArrayInOrder<T>(obj: map<string, Json>, key: string, dec: Json -> Decoded<T>)
    requires OptionalArray(obj, key, dec).Ok? && key in obj
    ensures obj[key].JArray? && OptionalArray(obj, key, dec).value.Some?
    ensures |OptionalArray(obj, key, dec).value.value| == |obj[key].items|
    ensures forall i | 0 <= i < |obj[key].items| ::
              dec(obj[key].items[i]) == Ok(OptionalArray(obj, key, dec).value.value[i])
  {
    var r := DecodeArray(obj[key], dec, 0);
    assert Within(Key(key), r).Ok?;
    assert r.Ok? && r == DecodeItems(obj[key].items, dec);
    assert OptionalArray(obj, key, dec) == Ok(Some(r.value));
  }

  // ---------------------------------------------------------------- objects

  /** Two objects whose keys all lie in `keys` and that agree on each of `keys` are equal. */
  lemma SameObject(a: map<string, Json>, b: map<string, Json>, keys: set<string>)
    requires a.Keys <= keys && b.Keys <= keys
    requires forall k | k in keys :: Slot(a, k) == Slot(b, k)
    ensures a == b
  {
    forall k | k in a ensures k in b && a[k] == b[k] {
      assert Slot(a, k) == Slot(b, k);
    }
    forall k | k in b ensures k in a {
      assert Slot(a, k) == Slot(b, k);
    }
  }
}
