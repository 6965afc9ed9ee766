/**
 * JSON values as Python's `json` module hands them to the program, and the
 * few dictionary, truthiness and container operations the core applies to
 * them. Objects keep their keys in insertion order, as Python dicts do, and
 * are assumed to carry each key once.
 */
module PyJson {
  import opened Wrappers

  datatype Json =
    | JNull                                // None
    | JBool(b: bool)
    | JInt(i: int)
    | JFloat(repr: string)                 // a float, carried as Python's repr of it
    | JStr(s: string)
    | JArray(items: seq<Json>)
    | JObject(fields: seq<(string, Json)>)

  /** The keys of an object, in insertion order. */
  function Keys(fields: seq<(string, Json)>): (ks: seq<string>)
    ensures |ks| == |fields|
    ensures forall i :: 0 <= i < |fields| ==> ks[i] == fields[i].0
  {
    if fields == [] then [] else [fields[0].0] + Keys(fields[1..])
  }

  /** `d[key]`: the value of the first binding of key, if any. */
  function Get(fields: seq<(string, Json)>, key: string): Option<Json> {
    if fields == [] then None
    else if fields[0].0 == key then Some(fields[0].1)
    else Get(fields[1..], key)
  }

  /** `d[key]` finds a value exactly when key is among the keys. */
  lemma {:induction false} GetIffKey(fields: seq<(string, Json)>, key: string)
    ensures Get(fields, key).Some? <==> key in Keys(fields)
  {
    if fields != [] {
      GetIffKey(fields[1..], key);
      assert Keys(fields) == [fields[0].0] + Keys(fields[1..]);
    }
  }

  /** The binding at position i is the one `d[key]` finds when no earlier
      binding has that key. */
  lemma {:induction false} GetAt(fields: seq<(string, Json)>, i: nat, key: string)
    requires i < |fields| && fields[i].0 == key
    requires forall j :: 0 <= j < i ==> fields[j].0 != key
    ensures Get(fields, key) == Some(fields[i].1)
  {
    if i > 0 {
      GetAt(fields[1..], i - 1, key);
    }
  }

  predicate HasKey(fields: seq<(string, Json)>, key: string) {
    Get(fields, key).Some?
  }

  /** `d.get(key, default)` */
  function GetOr(fields: seq<(string, Json)>, key: string, default: Json): Json {
    match Get(fields, key)
    case Some(v) => v
    case None => default
  }

  /** `d.get(key)`: a missing key reads as None. */
  function GetOrNull(fields: seq<(string, Json)>, key: string): Json {
    GetOr(fields, key, JNull)
  }

  /** Python's truth value of a JSON value. */
  predicate Truthy(j: Json) {
    match j
    case JNull => false
    case JBool(b) => b
    case JInt(i) => i != 0
    case JFloat(r) => r != "0.0" && r != "-0.0"
    case JStr(s) => s != ""
    case JArray(items) => items != []
    case JObject(fields) => fields != []
  }

  /** `p in s` for two strings. */
  predicate IsSubstring(p: string, s: string) {
    p <= s || (s != [] && IsSubstring(p, s[1..]))
  }

  /** The values on which Python's `in` operator is defined for a string key. */
  predicate IsContainer(j: Json) {
    j.JObject? || j.JArray? || j.JStr?
  }

  /** `key in j`: key membership for a dict, element membership for a list,
      substring for a string; None where Python raises TypeError. */
  function Contains(j: Json, key: string): (r: Option<bool>)
    ensures r.Some? <==> IsContainer(j)
    ensures j.JObject? ==> r == Some(key in Keys(j.fields))
  {
    match j
    case JObject(fields) =>
      GetIffKey(fields, key);
      Some(HasKey(fields, key))
    case JArray(items) => Some(JStr(key) in items)
    case JStr(s) => Some(IsSubstring(key, s))
    case _ => None
  }

  /** `len(j)`; None where Python raises TypeError. */
  function PyLen(j: Json): Option<nat> {
    match j
    case JStr(s) => Some(|s|)
    case JArray(items) => Some(|items|)
    case JObject(fields) => Some(|fields|)
    case _ => None
  }
}
