/**
 * JavaScript values as the front ends and the services handle them: plain
 * objects built with spreads, read with optional chaining and checked for
 * truthiness. Numbers are exact rationals (no NaN, no rounding).
 */
module Json {
  import opened Wrappers

  datatype Value =
    | Null
    | Bool(b: bool)
    | Num(n: real)
    | Str(s: string)
    | Arr(items: seq<Value>)
    | Obj(fields: map<string, Value>)
    | Date(from: Value)   // `new Date(from)`; clocks and parsing are not modelled

  /** A plain object; a key that is absent reads as `undefined`. */
  type Object = map<string, Value>

  /** JavaScript truthiness: `null`, `false`, `0` and `""` are falsy, everything else truthy. */
  predicate Truthy(v: Value) {
    match v
    case Null => false
    case Bool(b) => b
    case Num(n) => n != 0.0
    case Str(s) => s != ""
    case Arr(_) => true
    case Obj(_) => true
    case Date(_) => true
  }

  /** `o[k]`, with `None` for `undefined`. */
  function Get(o: Object, k: string): Option<Value> {
    if k in o then Some(o[k]) else None
  }

  /** Truthiness of `o[k]` (`undefined` is falsy). */
  predicate TruthyAt(o: Object, k: string) {
    k in o && Truthy(o[k])
  }

  /** `o[k] != null`: present and not `null`. */
  predicate PresentAt(o: Object, k: string) {
    k in o && o[k] != Null
  }

  /** `{ ...a, ...b }`: every key of either object, the later object winning. */
  function Spread(a: Object, b: Object): (r: Object)
    ensures r.Keys == a.Keys + b.Keys
    ensures forall k :: k in b ==> r[k] == b[k]
    ensures forall k :: k in a && k !in b ==> r[k] == a[k]
  {
    a + b
  }

  /** Two objects with the same fields and the same values are the same object. */
  lemma SameObject(a: Object, b: Object)
    requires a.Keys == b.Keys
    requires forall k :: k in a ==> a[k] == b[k]
    ensures a == b
  {
  }

  /** `x ?? d`: the value unless it is `undefined` or `null`. */
  function Coalesce(x: Option<Value>, d: Value): (r: Value)
    ensures x.Some? && x.value != Null ==> r == x.value
    ensures (x.None? || x.value == Null) ==> r == d
  {
    if x.Some? && x.value != Null then x.value else d
  }

  /** `a || b` on values that may be `undefined`. */
  function OrElse(a: Option<Value>, b: Option<Value>): (r: Option<Value>)
    ensures a.Some? && Truthy(a.value) ==> r == a
    ensures !(a.Some? && Truthy(a.value)) ==> r == b
  {
    if a.Some? && Truthy(a.value) then a else b
  }

  /** `v || {}` for a value expected to be an object; any other value spreads to nothing. */
  function AsObject(v: Option<Value>): Object {
    match v
    case Some(Obj(m)) => m
    case _ => map[]
  }
}
