/**
 * JSON values as `serde_json::Value` holds them, with the accessors the code uses:
 * indexing by key (`value["key"]`, which reads `null` when the key is missing or the value is not
 * an object), `as_str` and `as_f64`.
 */
module Json {

  import opened Wrappers

  datatype Json =
    | JNull
    | JBool(b: bool)
    | JNumber(n: real)
    | JString(s: string)
    | JArray(items: seq<Json>)
    | JObject(fields: seq<(string, Json)>)

  /** The value of the first field named `key` in `fields`, if any. */
  function Lookup(fields: seq<(string, Json)>, key: string): (r: Option<Json>)
    ensures r.Some? <==> exists i :: 0 <= i < |fields| && fields[i].0 == key
    ensures r.Some? ==> exists i :: 0 <= i < |fields| && fields[i] == (key, r.value)
    decreases |fields|
  {
    if |fields| == 0 then None
    else if fields[0].0 == key then Some(fields[0].1)
    else
      var rest := Lookup(fields[1..], key);
      assert forall i :: 1 <= i < |fields| ==> fields[i] == fields[1..][i - 1];
      rest
  }

  /** `value.get(key)`: the field of an object, None for a missing key or a non-object. */
  function Get(v: Json, key: string): (r: Option<Json>)
    ensures r.Some? ==> v.JObject?
  {
    if v.JObject? then Lookup(v.fields, key) else None
  }

  /** `value[key]`: like `get`, but `null` when absent. */
  function Index(v: Json, key: string): (r: Json)
  {
    Get(v, key).GetOr(JNull)
  }

  function AsStr(v: Json): (r: Option<string>)
  {
    if v.JString? then Some(v.s) else None
  }

  function AsF64(v: Json): (r: Option<real>)
  {
    if v.JNumber? then Some(v.n) else None
  }

  /** A field found in an object is the first one with that name. */
  lemma {:induction false} GetFindsFirstField(fields: seq<(string, Json)>, key: string, i: nat)
    requires i < |fields| && fields[i].0 == key
    requires forall j :: 0 <= j < i ==> fields[j].0 != key
    ensures Get(JObject(fields), key) == Some(fields[i].1)
    decreases i
  {
    if i > 0 {
      GetFindsFirstField(fields[1..], key, i - 1);
    }
  }
}
