/**
 * The JavaScript values the route handler inspects: what JSON.parse can produce, with
 * JavaScript's truthiness and the outcome of a property read (a value, `undefined`, or a
 * thrown TypeError).
 */
module JsValues {

  datatype Json =
    | JNull
    | JBool(b: bool)
    | JNumber(n: real)
    | JString(s: string)
    | JArray(items: seq<Json>)
    | JObject(fields: map<string, Json>)

  /** JavaScript truthiness: null, false, 0 and "" are falsy; arrays and objects, even empty, are truthy. */
  predicate Truthy(v: Json) {
    match v
    case JNull => false
    case JBool(b) => b
    case JNumber(n) => n != 0.0
    case JString(s) => s != ""
    case JArray(_) => true
    case JObject(_) => true
  }

  /** The result of evaluating a property read. */
  datatype Access = Throws | Undefined | Defined(value: Json)

  /** `undefined` or `null`: the values whose properties cannot be read. */
  predicate Nullish(a: Access) {
    a.Undefined? || a == Defined(JNull)
  }

  /** The read yielded a truthy value (`undefined` is falsy; a throw yields nothing). */
  predicate IsTruthy(a: Access) {
    a.Defined? && Truthy(a.value)
  }

  /**
   * `a.key`. Reading a property of `undefined` or `null` throws; an object yields its own
   * property or `undefined`. The keys read by the handler (context, choices, message, content,
   * name, meaning, explanation) are not properties of strings, numbers, booleans or arrays,
   * nor of Object.prototype, so those yield `undefined`.
   */
  function Get(a: Access, key: string): (r: Access)
    ensures r.Throws? <==> a.Throws? || Nullish(a)
    ensures r.Defined? <==> a.Defined? && a.value.JObject? && key in a.value.fields
    ensures r.Defined? ==> r.value == a.value.fields[key]
  {
    match a
    case Throws => Throws
    case Undefined => Throws
    case Defined(v) =>
      match v
      case JNull => Throws
      case JObject(m) => if key in m then Defined(m[key]) else Undefined
      case _ => Undefined
  }

  /** `a?.key`: optional chaining yields `undefined` instead of throwing on `undefined` or `null`. */
  function OptGet(a: Access, key: string): (r: Access)
    ensures r.Throws? <==> a.Throws?
    ensures Nullish(a) ==> r == Undefined
    ensures !Nullish(a) ==> r == Get(a, key)
  {
    if a.Throws? then Throws
    else if Nullish(a) then Undefined
    else Get(a, key)
  }

  /**
   * `a[0]`. Indexing `undefined` or `null` throws; an array or string yields its first element
   * (a one-character string) or `undefined` when empty; an object yields its property "0".
   */
  function First(a: Access): (r: Access)
    ensures r.Throws? <==> a.Throws? || Nullish(a)
    ensures a.Defined? && a.value.JArray? ==>
      r == if |a.value.items| > 0 then Defined(a.value.items[0]) else Undefined
    ensures a.Defined? && a.value.JString? ==>
      r == if |a.value.s| > 0 then Defined(JString(a.value.s[..1])) else Undefined
    ensures a.Defined? && a.value.JObject? ==>
      r == if "0" in a.value.fields then Defined(a.value.fields["0"]) else Undefined
    ensures a.Defined? && (a.value.JBool? || a.value.JNumber?) ==> r == Undefined
  {
    match a
    case Throws => Throws
    case Undefined => Throws
    case Defined(v) =>
      match v
      case JNull => Throws
      case JArray(items) => if |items| > 0 then Defined(items[0]) else Undefined
      case JString(s) => if |s| > 0 then Defined(JString(s[..1])) else Undefined
      case JObject(m) => if "0" in m then Defined(m["0"]) else Undefined
      case _ => Undefined
  }
}
