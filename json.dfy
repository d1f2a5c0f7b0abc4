/**
 * JSON values as JavaScript sees them after `JSON.parse`, and the few operations the source
 * applies to them: optional property access (`x?.k`), optional indexing (`x?.[i]`),
 * truthiness, `??`, `typeof x === 'object'` and `Array.isArray`.
 * Numbers are modelled as integers; `Option.None` stands for `undefined`.
 */
module Json {
  import opened Wrappers

  datatype Json =
    | JNull
    | JBool(b: bool)
    | JNum(n: int)
    | JStr(s: string)
    | JArr(items: seq<Json>)
    | JObj(fields: map<string, Json>)

  /** `x?.k`: the property `k` of an object, `undefined` for anything else. */
  function Field(x: Option<Json>, k: string): (r: Option<Json>)
    ensures r.Some? <==> x.Some? && x.value.JObj? && k in x.value.fields
    ensures r.Some? ==> r.value == x.value.fields[k]
  {
    match x
    case Some(JObj(m)) => if k in m then Some(m[k]) else None
    case _ => None
  }

  /** `x?.[i]` on an array; `undefined` outside its bounds or for a non-array. */
  function At(x: Option<Json>, i: nat): (r: Option<Json>)
    ensures r.Some? <==> x.Some? && x.value.JArr? && i < |x.value.items|
    ensures r.Some? ==> r.value == x.value.items[i]
  {
    match x
    case Some(JArr(a)) => if i < |a| then Some(a[i]) else None
    case _ => None
  }

  /**
   * `x?.[0]`: an array's first element, or an object's property `"0"`. A string's first
   * character is not produced: every use of it reads a property, which a character lacks.
   */
  function Index0(x: Option<Json>): (r: Option<Json>)
    ensures IsArray(x) ==> r == At(x, 0)
    ensures x.Some? && x.value.JObj? ==> r == Field(x, "0")
    ensures !IsArray(x) && !(x.Some? && x.value.JObj?) ==> r.None?
  {
    if IsArray(x) then At(x, 0) else Field(x, "0")
  }

  /** JavaScript truthiness of a value that may be `undefined`. */
  predicate Truthy(x: Option<Json>) {
    match x
    case None => false
    case Some(JNull) => false
    case Some(JBool(b)) => b
    case Some(JNum(n)) => n != 0
    case Some(JStr(s)) => s != ""
    case Some(_) => true
  }

  /** `a ?? b`: `b` exactly when `a` is `null` or `undefined`. */
  function Coalesce(a: Option<Json>, b: Option<Json>): (r: Option<Json>)
    ensures (a.None? || a == Some(JNull)) ==> r == b
    ensures !(a.None? || a == Some(JNull)) ==> r == a
  {
    if a.None? || a == Some(JNull) then b else a
  }

  /** `typeof x === 'object'` for a defined JSON value (true for `null` and arrays too). */
  predicate TypeofObject(x: Json) {
    x.JNull? || x.JArr? || x.JObj?
  }

  /** `Array.isArray(x)` */
  predicate IsArray(x: Option<Json>) {
    x.Some? && x.value.JArr?
  }

  /** `typeof x === 'string'` */
  predicate IsString(x: Option<Json>) {
    x.Some? && x.value.JStr?
  }

  /** `x === s` for a string literal `s`. */
  predicate IsStr(x: Option<Json>, s: string) {
    x == Some(JStr(s))
  }

  /** A truthy string value, and the string it holds. */
  predicate IsNonEmptyString(x: Option<Json>) {
    x.Some? && x.value.JStr? && x.value.s != ""
  }

  /** An object built from named fields, as JavaScript object literals are written. */
  function Obj(m: map<string, Json>): Json {
    JObj(m)
  }
}
