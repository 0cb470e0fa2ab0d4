/**
 * JSON values as `JSON.parse` produces them, with the JavaScript operations the webhook client
 * applies to them: truthiness, property access and the `a.k1 || a.k2 || ... || fallback` chain.
 * Numbers are integers here; fractional numbers and NaN are not modelled.
 */
module Json {
  import opened Common

  datatype Json =
    | JNull
    | JBool(b: bool)
    | JNum(n: int)
    | JStr(s: string)
    | JArr(items: seq<Json>)
    | JObj(fields: map<string, Json>)

  /** JavaScript truthiness: the falsy JSON values are exactly `null`, `false`, `0` and `""`; every array and object is truthy. */
  predicate Truthy(v: Json): (b: bool)
    ensures !b <==> v == JNull || v == JBool(false) || v == JNum(0) || v == JStr("")
  {
    match v
    case JNull => false
    case JBool(b) => b
    case JNum(n) => n != 0
    case JStr(s) => s != ""
    case JArr(_) => true
    case JObj(_) => true
  }

  /**
   * `v[key]` on a value that is not `null`: the own field of an object, and `undefined` (None)
   * otherwise. For the keys the webhook client reads (output, response, message, text) no
   * built-in prototype of a string, number, boolean or array supplies a value either.
   * On `null` the access throws, so callers rule that case out first.
   */
  function Field(v: Json, key: string): (r: Option<Json>)
    requires !v.JNull?
    ensures r.Some? <==> v.JObj? && key in v.fields
    ensures r.Some? ==> r.value == v.fields[key]
  {
    if v.JObj? && key in v.fields then Some(v.fields[key]) else None
  }

  /** Whether `v[key]` is truthy (an absent field reads as `undefined`, which is falsy). */
  predicate TruthyField(v: Json, key: string)
    requires !v.JNull?
  {
    var f := Field(v, key);
    f.Some? && Truthy(f.value)
  }

  /** The position of the first key whose field is truthy, or `|keys|` when there is none. */
  function FirstTruthyIndex(v: Json, keys: seq<string>): (i: nat)
    requires !v.JNull?
    ensures i <= |keys|
    ensures forall j :: 0 <= j < i ==> !TruthyField(v, keys[j])
    ensures i < |keys| ==> TruthyField(v, keys[i])
    decreases |keys|
  {
    if keys == [] then 0
    else if TruthyField(v, keys[0]) then 0
    else 1 + FirstTruthyIndex(v, keys[1..])
  }

  /**
   * `v[keys[0]] || v[keys[1]] || ... || fallback`: the first truthy field in key order, and the
   * fallback when every field is falsy or absent.
   */
  function OrChain(v: Json, keys: seq<string>, fallback: Json): (r: Json)
    requires !v.JNull?
    ensures (forall j :: 0 <= j < |keys| ==> !TruthyField(v, keys[j])) ==> r == fallback
    ensures r != fallback ==> Truthy(r) && v.JObj? && r in v.fields.Values
    ensures var i := FirstTruthyIndex(v, keys); i < |keys| ==> r == Field(v, keys[i]).value
  {
    var i := FirstTruthyIndex(v, keys);
    if i < |keys| then Field(v, keys[i]).value else fallback
  }
}
