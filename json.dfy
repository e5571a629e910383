/** JSON documents as the Python code sees them after `json.loads`: dicts keep
    their insertion order (iteration over `obj.values()` depends on it).
    Lookups find the first entry with a key. Numbers are exact reals. */
module JsonValues {
  import opened Wrappers

  datatype Json =
    | JNull
    | JBool(b: bool)
    | JNum(n: real)
    | JStr(s: string)
    | JArr(items: seq<Json>)
    | JObj(fields: seq<(string, Json)>)

  /** Python's `key in d`. */
  predicate HasKey(fields: seq<(string, Json)>, key: string) {
    exists i :: 0 <= i < |fields| && fields[i].0 == key
  }

  /** Python's `d.get(key)`: the value stored under `key`, if any. */
  function Get(fields: seq<(string, Json)>, key: string): (r: Option<Json>)
    ensures r.Some? <==> HasKey(fields, key)
    ensures r.Some? ==> (key, r.value) in fields
  {
    if fields == [] then None
    else if fields[0].0 == key then Some(fields[0].1)
    else Get(fields[1..], key)
  }

  /** Python's `d.get(key, default)`. */
  function GetOr(fields: seq<(string, Json)>, key: string, default: Json): (r: Json)
    ensures !HasKey(fields, key) ==> r == default
    ensures HasKey(fields, key) ==> (key, r) in fields
  {
    Get(fields, key).GetOr(default)
  }

  /** Python truthiness of a JSON value: null, false, 0, "", [] and {} are falsy. */
  predicate Truthy(j: Json) {
    match j
    case JNull => false
    case JBool(b) => b
    case JNum(n) => n != 0.0
    case JStr(s) => s != []
    case JArr(items) => items != []
    case JObj(fields) => fields != []
  }

  /** Python's `a or b`: `a` when it is truthy, otherwise `b`. */
  function OrElse(a: Json, b: Json): (r: Json)
    ensures Truthy(a) ==> r == a
    ensures !Truthy(a) ==> r == b
  {
    if Truthy(a) then a else b
  }

  /** Python's `float(v)` on a JSON value; `parse` is the string-to-float
      conversion, None when Python raises ValueError. A bool converts to 1 or 0;
      None, lists and dicts raise TypeError. */
  function PyFloat(j: Json, parse: string -> Option<real>): (r: Option<real>)
    ensures j.JNum? ==> r == Some(j.n)
    ensures j.JBool? ==> r == Some(if j.b then 1.0 else 0.0)
    ensures j.JStr? ==> r == parse(j.s)
    ensures j.JNull? || j.JArr? || j.JObj? ==> r.None?
  {
    match j
    case JNum(n) => Some(n)
    case JBool(b) => Some(if b then 1.0 else 0.0)
    case JStr(s) => parse(s)
    case _ => None
  }

  lemma {:induction false} GetFindsFirst(fields: seq<(string, Json)>, key: string, i: nat)
    requires i < |fields| && fields[i].0 == key
    requires forall k :: 0 <= k < i ==> fields[k].0 != key
    ensures Get(fields, key) == Some(fields[i].1)
  {
    if i > 0 {
      GetFindsFirst(fields[1..], key, i - 1);
    }
  }
}
