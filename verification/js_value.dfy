/**
 * JSON values as JSON.parse produces them, with the parts of JavaScript's semantics that the
 * relay's decision logic depends on: truthiness (ToBoolean, ECMA-262 section 7.1.2), optional
 * property reads (`v?.key`), `typeof v === 'object'`, and the order of `Object.keys`
 * (OrdinaryOwnPropertyKeys, ECMA-262 section 10.1.11.1).
 */
module JsValue {
  import opened Wrappers

  /** A JSON value. Numbers are kept exact: the rounding of IEEE doubles plays no part here. */
  datatype Json =
    | Null
    | Bool(b: bool)
    | Num(n: real)
    | Str(s: string)
    | Arr(items: seq<Json>)
    | Obj(fields: seq<Field>)

  /**
   * One entry of an object, in the order the parser met it. When a key occurs more than once,
   * JSON.parse keeps the position of its first occurrence and the value of its last one; the
   * model keeps every entry and reads it that way (see Lookup and FirstKey).
   */
  datatype Field = Field(key: string, value: Json)

  /** ToBoolean on a JSON value: null, false, 0 and "" are falsy, everything else is truthy. */
  predicate Truthy(v: Json) {
    match v
    case Null => false
    case Bool(b) => b
    case Num(n) => n != 0.0
    case Str(s) => s != ""
    case Arr(_) => true
    case Obj(_) => true
  }

  /** ToBoolean on a value that may be `undefined` (None), which is falsy. */
  predicate TruthyOpt(v: Option<Json>) {
    v.Some? && Truthy(v.value)
  }

  /** `typeof v === 'object'`: true for null, arrays and objects. */
  predicate TypeofObject(v: Json) {
    v.Null? || v.Arr? || v.Obj?
  }

  predicate HasKey(fields: seq<Field>, key: string) {
    exists i :: 0 <= i < |fields| && fields[i].key == key
  }

  /** `obj[key]` on a parsed object: the value of the last entry with that key, if any. */
  function Lookup(fields: seq<Field>, key: string): (r: Option<Json>)
    ensures r.Some? <==> HasKey(fields, key)
    ensures r.Some? ==> exists i :: 0 <= i < |fields| && fields[i].key == key && fields[i].value == r.value &&
                                   forall j :: i < j < |fields| ==> fields[j].key != key
  {
    if |fields| == 0 then None
    else if fields[|fields| - 1].key == key then Some(fields[|fields| - 1].value)
    else Lookup(fields[..|fields| - 1], key)
  }

  /**
   * `v?.key` for the property names this model reads (answers, data, objects, text, content,
   * result, response, output, message). None of them is an own property of an array or a string
   * or a property of their prototypes, so only objects can supply a value.
   */
  function Prop(v: Json, key: string): (r: Option<Json>)
    ensures r.Some? ==> v.Obj? && HasKey(v.fields, key)
  {
    if v.Obj? then Lookup(v.fields, key) else None
  }

  predicate IsDigit(c: char) {
    '0' <= c <= '9'
  }

  predicate AllDigits(s: string) {
    forall i :: 0 <= i < |s| ==> IsDigit(s[i])
  }

  /** The value of a string of decimal digits. */
  function DigitsValue(s: string): nat
    requires AllDigits(s)
  {
    if s == [] then 0 else DigitsValue(s[..|s| - 1]) * 10 + (s[|s| - 1] as int - '0' as int)
  }

  /** The largest array index, 2^32 - 2 (ECMA-262 section 6.1.7). */
  const MaxArrayIndex: nat := 0xFFFF_FFFE

  /** A canonical decimal string of an integer in [0, 2^32 - 2]: such keys come first in `Object.keys`. */
  predicate IsArrayIndex(k: string) {
    && |k| > 0
    && AllDigits(k)
    && (k[0] != '0' || |k| == 1)
    && DigitsValue(k) <= MaxArrayIndex
  }

  function IndexValue(k: string): nat
    requires IsArrayIndex(k)
  {
    DigitsValue(k)
  }

  /** The array-index key of least value among the entries, if there is one. */
  function MinIndexKey(fields: seq<Field>): (r: Option<string>)
    ensures r.Some? ==> IsArrayIndex(r.value) && HasKey(fields, r.value)
    ensures r.Some? ==> forall i :: 0 <= i < |fields| && IsArrayIndex(fields[i].key) ==>
                          IndexValue(r.value) <= IndexValue(fields[i].key)
    ensures r.None? ==> forall i :: 0 <= i < |fields| ==> !IsArrayIndex(fields[i].key)
  {
    if |fields| == 0 then None
    else
      var rest := MinIndexKey(fields[1..]);
      var k := fields[0].key;
      if !IsArrayIndex(k) then rest
      else if rest.None? || IndexValue(k) <= IndexValue(rest.value) then Some(k)
      else rest
  }

  /**
   * `Object.keys(obj)[0]`: OrdinaryOwnPropertyKeys lists the array-index keys in ascending
   * numeric order, then the other string keys in the order they were created.
   */
  function FirstKey(fields: seq<Field>): (r: Option<string>)
    ensures r.None? <==> |fields| == 0
    ensures r.Some? ==> HasKey(fields, r.value)
    ensures r.Some? && IsArrayIndex(r.value) ==>
              forall i :: 0 <= i < |fields| && IsArrayIndex(fields[i].key) ==>
                IndexValue(r.value) <= IndexValue(fields[i].key)
    ensures r.Some? && !IsArrayIndex(r.value) ==>
              r.value == fields[0].key && forall i :: 0 <= i < |fields| ==> !IsArrayIndex(fields[i].key)
  {
    match MinIndexKey(fields)
    case Some(k) => Some(k)
    case None => if |fields| == 0 then None else Some(fields[0].key)
  }

  /**
   * `v[Object.keys(v)[0]]` for a truthy `v`: the first entry of an object, the first element of
   * an array, the first character of a string; numbers and booleans have no own keys.
   */
  function FirstEntry(v: Json): (r: Option<Json>)
    ensures r.None? <==> match v
                         case Obj(fields) => |fields| == 0
                         case Arr(items) => |items| == 0
                         case Str(s) => |s| == 0
                         case _ => true
    ensures v.Obj? && r.Some? ==> exists k :: FirstKey(v.fields) == Some(k) && Lookup(v.fields, k) == r
  {
    match v
    case Obj(fields) =>
      (match FirstKey(fields)
       case Some(k) => Lookup(fields, k)
       case None => None)
    case Arr(items) => if |items| == 0 then None else Some(items[0])
    case Str(s) => if |s| == 0 then None else Some(Str([s[0]]))
    case _ => None
  }

  /** `data.objects` of a body, when `body?.data?.objects` is truthy. */
  function ObjectsOf(body: Json): (r: Option<Json>)
    ensures r.Some? ==> Truthy(r.value)
  {
    match Prop(body, "data")
    case None => None
    case Some(data) =>
      var objects := Prop(data, "objects");
      if TruthyOpt(objects) then objects else None
  }

  /** The value under the first key of a truthy `data.objects`, if it has a key. */
  function FirstObject(body: Json): Option<Json> {
    match ObjectsOf(body)
    case None => None
    case Some(objects) => FirstEntry(objects)
  }

  /** A body whose `data.objects` is the object with the given entries. */
  function ObjectsBody(objects: seq<Field>): Json {
    Obj([Field("data", Obj([Field("objects", Obj(objects))]))])
  }

  /**
   * When `data.objects` starts with a key that is not an array index and no later entry is an
   * array index or repeats that key, the first object is the value under that key.
   */
  lemma FirstObjectOfObjectsBody(k: string, v: Json, rest: seq<Field>)
    requires !IsArrayIndex(k)
    requires forall i :: 0 <= i < |rest| ==> !IsArrayIndex(rest[i].key) && rest[i].key != k
    ensures FirstObject(ObjectsBody([Field(k, v)] + rest)) == Some(v)
  {
    var objects := [Field(k, v)] + rest;
    assert forall i :: 0 <= i < |objects| ==> !IsArrayIndex(objects[i].key) by {
      forall i | 0 <= i < |objects|
        ensures !IsArrayIndex(objects[i].key)
      {
        if i > 0 {
          assert objects[i] == rest[i - 1];
        }
      }
    }
    assert FirstKey(objects) == Some(k);
    assert forall j :: 0 < j < |objects| ==> objects[j].key != k by {
      forall j | 0 < j < |objects|
        ensures objects[j].key != k
      {
        assert objects[j] == rest[j - 1];
      }
    }
    assert Lookup(objects, k) == Some(v);
  }

  /**
   * The JSON text functions of the JavaScript runtime, which the model does not define:
   * `parse` is JSON.parse (None when it throws), `stringify` is JSON.stringify(v),
   * `pretty` is JSON.stringify(v, null, 2) and `numberToString` is Number::toString.
   */
  datatype Codec = Codec(
    parse: string -> Option<Json>,
    stringify: Json -> string,
    pretty: Json -> string,
    numberToString: real -> string)

  /** `String(v)` for a value that is not `typeof 'object'`. */
  function ToJsString(v: Json, codec: Codec): (r: string)
    requires !TypeofObject(v)
    ensures v.Str? ==> r == v.s
    ensures v.Bool? ==> r == (if v.b then "true" else "false")
  {
    if v.Str? then v.s
    else if v.Bool? then (if v.b then "true" else "false")
    else codec.numberToString(v.n)
  }
}
