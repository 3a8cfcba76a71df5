/** The values `JSON.parse` produces, with strings as sequences of Unicode
    scalar values (a string holding an unpaired surrogate escape such as
    `\uD800` has no counterpart here), and the JavaScript operations the
    service applies to them: truthiness, property access and `.length`. */
module Json {
  import opened Wrappers

  /** A parsed JSON value. Numbers are kept as reals; an object is a map from
      keys to values (a repeated key keeps its last value, as in `JSON.parse`). */
  datatype Json =
    | JNull
    | JBool(b: bool)
    | JNumber(n: real)
    | JString(s: string)
    | JArray(items: seq<Json>)
    | JObject(fields: map<string, Json>)

  /** JavaScript truthiness; `None` stands for `undefined`. Arrays and objects
      are truthy even when empty; `0` and `""` are falsy. */
  predicate Truthy(v: Option<Json>)
    ensures Truthy(v) ==> v.Some? && !v.value.JNull?
    ensures v.Some? && (v.value.JArray? || v.value.JObject?) ==> Truthy(v)
  {
    match v
    case None => false
    case Some(JNull) => false
    case Some(JBool(b)) => b
    case Some(JNumber(n)) => n != 0.0
    case Some(JString(s)) => s != ""
    case Some(JArray(_)) => true
    case Some(JObject(_)) => true
  }

  /** `v[key]` for a key that is not inherited from any prototype, on a value
      that is not `null`: only an object's own property is found; on any other
      value the access yields `undefined`. */
  function Member(v: Json, key: string): (r: Option<Json>)
    ensures r.Some? <==> v.JObject? && key in v.fields
  {
    if v.JObject? && key in v.fields then Some(v.fields[key]) else None
  }

  /** The number of UTF-16 code units of `s`, which is what a JavaScript
      string's `length` counts: characters beyond the Basic Multilingual Plane
      take two. */
  function Utf16Length(s: string): (n: nat)
    ensures |s| <= n <= 2 * |s|
  {
    if s == [] then 0 else (if s[0] as int >= 0x1_0000 then 2 else 1) + Utf16Length(s[1..])
  }

  /** `v.length === 6` on a truthy, non-null value: an array's element count,
      a string's UTF-16 length, or an object's own `length` property when that
      is the number 6; a boolean or number has no `length` (`undefined`). */
  predicate LengthIsSix(v: Json)
    ensures LengthIsSix(v) ==> v.JArray? || v.JString? || v.JObject?
    ensures LengthIsSix(v) && v.JString? ==> 3 <= |v.s| <= 6
  {
    match v
    case JArray(items) => |items| == 6
    case JString(s) => Utf16Length(s) == 6
    case JObject(fields) => "length" in fields && fields["length"] == JNumber(6.0)
    case _ => false
  }

  /** A string of Basic Multilingual Plane characters has one code unit per character. */
  lemma {:induction false} Utf16LengthOfBmp(s: string)
    requires forall i :: 0 <= i < |s| ==> (s[i] as int) < 0x1_0000
    ensures Utf16Length(s) == |s|
  {
    if s != [] {
      Utf16LengthOfBmp(s[1..]);
    }
  }
}
