/**
 * The JavaScript values that reach the library: the selector argument and the
 * options argument of the Scroll constructor, and the values of option properties.
 */
module JsValues {

  /** An opaque handle on a DOM element (an `HTMLElement` instance). */
  datatype Element = Element(id: nat)

  /**
   * A JavaScript value as far as the library can tell values apart.
   * `Obj` is any other object: `own` holds its own enumerable properties,
   * `inherited` the enumerable properties it sees through its prototype chain,
   * and `inheritsObject` whether `Object.prototype` is on that chain (so whether
   * `instanceof Object` holds of it). Functions are told apart by an identity.
   */
  datatype Value =
    | Undefined
    | Null
    | Bool(b: bool)
    | Num(n: int)
    | Str(s: string)
    | Fun(fid: nat)
    | Node(e: Element)
    | Obj(own: map<string, Value>, inherited: map<string, Value>, inheritsObject: bool)

  /** JavaScript's truthiness, as `if (v)` and `!v` test it. */
  predicate Truthy(v: Value)
    ensures !Truthy(v) <==> v == Undefined || v == Null || v == Bool(false) || v == Num(0) || v == Str("")
  {
    match v
    case Undefined => false
    case Null => false
    case Bool(b) => b
    case Num(n) => n != 0
    case Str(s) => s != ""
    case Fun(_) => true
    case Node(_) => true
    case Obj(_, _, _) => true
  }

  /** `v instanceof Object`: false for every primitive, true for functions and elements. */
  predicate InstanceOfObject(v: Value)
    ensures InstanceOfObject(v) ==> Truthy(v)
    ensures v.Undefined? || v.Null? || v.Bool? || v.Num? || v.Str? ==> !InstanceOfObject(v)
    ensures v.Fun? || v.Node? ==> InstanceOfObject(v)
  {
    match v
    case Fun(_) => true
    case Node(_) => true
    case Obj(_, _, inheritsObject) => inheritsObject
    case _ => false
  }

  /**
   * The names `for (k in v)` enumerates: own and inherited enumerable properties,
   * each once. Primitives, `null` and `undefined` enumerate nothing; functions and
   * elements are taken to carry no enumerable properties.
   */
  function EnumeratedNames(v: Value): set<string>
  {
    if v.Obj? then v.own.Keys + v.inherited.Keys else {}
  }

  /** `v.hasOwnProperty(k)` for an enumerated name `k`. */
  predicate HasOwnProperty(v: Value, k: string)
    ensures HasOwnProperty(v, k) ==> k in EnumeratedNames(v)
  {
    v.Obj? && k in v.own
  }

  /** The own enumerable properties of `v`: what a `hasOwnProperty`-filtered `for…in` visits. */
  function OwnProperties(v: Value): (own: map<string, Value>)
    ensures forall k :: k in own <==> k in EnumeratedNames(v) && HasOwnProperty(v, k)
    ensures forall k :: k in own ==> v.Obj? && k in v.own && own[k] == v.own[k]
  {
    if v.Obj? then v.own else map[]
  }
}
