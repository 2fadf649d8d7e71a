/**
 * JSON values as they reach the Flask handlers (after request.get_json) and the
 * browser (after response.json()), with the truthiness rules of both languages.
 * Numbers are exact reals; NaN cannot occur in JSON.
 */
module Json {
  import opened Wrappers

  datatype Json =
    | JNull
    | JBool(b: bool)
    | JNum(n: real)
    | JStr(s: string)
    | JArray(items: seq<Json>)
    | JObject(entries: seq<(string, Json)>)

  predicate KeysDistinct(entries: seq<(string, Json)>)
  {
    forall i, j :: 0 <= i < j < |entries| ==> entries[i].0 != entries[j].0
  }

  /** A Python dict decoded from a JSON object: keys are unique, iteration follows insertion order. */
  type Dict = d: seq<(string, Json)> | KeysDistinct(d) witness []

  predicate HasKey(d: seq<(string, Json)>, key: string)
  {
    exists i :: 0 <= i < |d| && d[i].0 == key
  }

  /** dict.get(key): the value stored under key, if any. */
  function Get(d: seq<(string, Json)>, key: string): (r: Option<Json>)
    ensures r.Some? <==> HasKey(d, key)
    ensures r.Some? ==> exists i :: 0 <= i < |d| && d[i] == (key, r.value)
  {
    if d == [] then None
    else if d[0].0 == key then Some(d[0].1)
    else Get(d[1..], key)
  }

  /** In a dict the value found under a key is the one stored with it. */
  lemma GetUnique(d: Dict, i: nat)
    requires i < |d|
    ensures Get(d, d[i].0) == Some(d[i].1)
  {
    if i > 0 {
      assert d[1..][i - 1] == d[i];
      GetUnique(d[1..], i - 1);
    }
  }

  /** Python bool(value). */
  predicate PyTruthy(v: Json)
  {
    match v
    case JNull => false
    case JBool(b) => b
    case JNum(n) => n != 0.0
    case JStr(s) => s != []
    case JArray(items) => items != []
    case JObject(entries) => entries != []
  }

  /** JavaScript ToBoolean: unlike Python, empty arrays and objects are truthy. */
  predicate JsTruthy(v: Json)
  {
    match v
    case JNull => false
    case JBool(b) => b
    case JNum(n) => n != 0.0
    case JStr(s) => s != []
    case JArray(_) => true
    case JObject(_) => true
  }

  /** `data.get(key)` used as a condition in Python: present and truthy. */
  predicate PyGetTruthy(d: seq<(string, Json)>, key: string)
  {
    var v := Get(d, key);
    v.Some? && PyTruthy(v.value)
  }

  /** `obj.key` on a JavaScript value: undefined (None) unless obj is an object holding key. */
  function Member(v: Json, key: string): Option<Json>
  {
    if v.JObject? then Get(v.entries, key) else None
  }
}
