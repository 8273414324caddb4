/** A parsed JSON body (what `res.json()` yields) together with the two
    JavaScript rules the response handlers lean on: optional property access
    (`x?.key`, `x?.[0]`) and truthiness. */
module Json {
  import opened Wrappers

  /** Numbers are kept as reals; a JSON document cannot hold NaN. */
  datatype Json =
    | JNull
    | JBool(b: bool)
    | JNum(n: real)
    | JStr(s: string)
    | JArr(elems: seq<Json>)
    | JObj(fields: map<string, Json>)

  /** JavaScript truthiness of a JSON value: `null`, `false`, `0` and `""`
      are falsy, every array and object is truthy. */
  predicate Truthy(j: Json) {
    match j
    case JNull => false
    case JBool(b) => b
    case JNum(n) => n != 0.0
    case JStr(s) => s != ""
    case JArr(_) => true
    case JObj(_) => true
  }

  /** `undefined` is falsy. */
  predicate TruthyOpt(o: Option<Json>) {
    o.Some? && Truthy(o.value)
  }

  /** `o?.key`: only an object has the named properties used here. */
  function Field(o: Option<Json>, key: string): (r: Option<Json>)
    ensures r.Some? <==> o.Some? && o.value.JObj? && key in o.value.fields
    ensures r.Some? ==> r.value == o.value.fields[key]
  {
    if o.Some? && o.value.JObj? && key in o.value.fields then Some(o.value.fields[key]) else None
  }

  /** `o?.[0]`: only a non-empty array has an element 0. */
  function First(o: Option<Json>): (r: Option<Json>)
    ensures r.Some? <==> o.Some? && o.value.JArr? && o.value.elems != []
    ensures r.Some? ==> r.value == o.value.elems[0]
  {
    if o.Some? && o.value.JArr? && o.value.elems != [] then Some(o.value.elems[0]) else None
  }

  /** `Array.isArray(o)`. */
  predicate IsArray(o: Option<Json>) {
    o.Some? && o.value.JArr?
  }

  /** The object `o` with property `key` set to `v` (any other value becomes
      an object holding just that property). */
  function WithField(o: Json, key: string, v: Json): (r: Json)
    ensures r.JObj? && key in r.fields && r.fields[key] == v
  {
    if o.JObj? then JObj(o.fields[key := v]) else JObj(map[key := v])
  }

  /** Setting one property leaves every other property as it was. */
  lemma {:induction false} FieldOfOtherKey(o: Json, key: string, v: Json, other: string)
    requires o.JObj? && other != key
    ensures Field(Some(WithField(o, key, v)), other) == Field(Some(o), other)
  {
  }
}
