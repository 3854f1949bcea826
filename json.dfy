/** Optional values and results, for JavaScript's `undefined` and for settled promises. */
module Wrappers {

  datatype Option<+T> = None | Some(value: T)

  datatype Result<+R, +E> = Success(value: R) | Failure(error: E)
}

/** Character and string helpers shared by the matcher and the domain normalisation. */
module Text {

  /** JavaScript's line terminators, which the regular-expression `.` does not match. */
  predicate IsLineTerminator(c: char)
  {
    c == '\n' || c == '\r' || c == '\U{2028}' || c == '\U{2029}'
  }

  predicate NoLineTerminator(s: string)
  {
    forall i | 0 <= i < |s| :: !IsLineTerminator(s[i])
  }

  /** `s` ends with `t`. */
  predicate HasSuffix(s: string, t: string)
  {
    |t| <= |s| && s[|s| - |t|..] == t
  }
}

/**
 * Decoded JSON values as JavaScript's JSON.parse produces them, reduced to
 * what the manifest checks observe: the kind of each value, its truthiness,
 * and the named properties an object carries.
 */
module JsonValue {
  import opened Wrappers

  /**
   * A decoded JSON value. Numbers are only ever tested for truthiness, so a
   * number is represented by whether it is non-zero. An object is the
   * sequence of its own properties in for..in enumeration order, each key
   * occurring once (JSON.parse keeps one value per key).
   */
  datatype Json =
    | JNull
    | JBool(b: bool)
    | JNumber(nonZero: bool)
    | JString(s: string)
    | JArray(elems: seq<Json>)
    | JObject(members: seq<(string, Json)>)

  /** JavaScript truthiness: null, false, 0 and "" are falsy; arrays and objects never are. */
  predicate Truthy(v: Json)
  {
    match v
    case JNull => false
    case JBool(b) => b
    case JNumber(nz) => nz
    case JString(s) => s != ""
    case JArray(_) => true
    case JObject(_) => true
  }

  /** The value stored under `key` in an object's property list, None when there is none. */
  function Lookup(members: seq<(string, Json)>, key: string): (r: Option<Json>)
    ensures r.Some? <==> exists i :: 0 <= i < |members| && members[i].0 == key
    ensures r.Some? ==> exists i :: 0 <= i < |members| && members[i] == (key, r.value)
  {
    if |members| == 0 then None
    else if members[0].0 == key then Some(members[0].1)
    else
      var r := Lookup(members[1..], key);
      assert forall i :: 0 < i < |members| ==> members[i] == members[1..][i - 1];
      r
  }

  /**
   * The property access `v.key` on a non-null value: None stands for
   * `undefined`. Only objects carry named properties that a manifest can
   * ask for; arrays, strings, numbers and booleans yield `undefined`.
   */
  function Prop(v: Json, key: string): (r: Option<Json>)
    ensures r.Some? ==> v.JObject?
  {
    match v
    case JObject(ms) => Lookup(ms, key)
    case _ => None
  }

  /** `v.paths instanceof Array` */
  predicate HasArrayPaths(v: Json)
  {
    var p := Prop(v, "paths");
    p.Some? && p.value.JArray?
  }

  /** `typeof v.appID === 'string'` */
  predicate HasStringAppId(v: Json)
  {
    var a := Prop(v, "appID");
    a.Some? && a.value.JString?
  }

  /** Whether the value contains a JSON null anywhere. */
  predicate NullFree(v: Json)
  {
    match v
    case JNull => false
    case JArray(es) => forall i | 0 <= i < |es| :: NullFree(es[i])
    case JObject(ms) => forall i | 0 <= i < |ms| :: NullFree(ms[i].1)
    case _ => true
  }
}
