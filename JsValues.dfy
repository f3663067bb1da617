/**
 * The part of JavaScript's value semantics the front end relies on:
 * truthiness, the `||` and `??` operators, `typeof x === "object"`,
 * optional property access `x?.p` and array indexing.
 */
module JsValues {
  /** A JavaScript value. Numbers are integers here: NaN and fractions are not modelled. */
  datatype Js =
    | Undefined
    | Null
    | Bool(b: bool)
    | Num(n: int)
    | Str(s: string)
    | Arr(elems: seq<Js>)
    | Obj(props: map<string, Js>)
    | Func

  /** JavaScript truthiness: `undefined`, `null`, `false`, `0` and `""` are falsy. */
  predicate Truthy(v: Js) {
    match v
    case Undefined => false
    case Null => false
    case Bool(b) => b
    case Num(n) => n != 0
    case Str(s) => s != ""
    case _ => true
  }

  /** `typeof v === "object"`; note that `typeof null` is "object" too. */
  predicate IsTypeofObject(v: Js) {
    v.Null? || v.Arr? || v.Obj?
  }

  /** `a || b`: the left operand when it is truthy, otherwise the right one. */
  function Or(a: Js, b: Js): (r: Js)
    ensures Truthy(a) ==> r == a
    ensures !Truthy(a) ==> r == b
    ensures Truthy(r) <==> Truthy(a) || Truthy(b)
  {
    if Truthy(a) then a else b
  }

  /** `v?.key`: properties exist only on plain objects here; anything else yields `undefined`. */
  function Member(v: Js, key: string): (r: Js)
    ensures !v.Obj? ==> r == Undefined
    ensures v.Obj? && key !in v.props ==> r == Undefined
    ensures v.Obj? && key in v.props ==> r == v.props[key]
  {
    match v
    case Obj(props) => if key in props then props[key] else Undefined
    case _ => Undefined
  }

  /** `xs[i]` on an array: `undefined` past the end. */
  function Index(xs: seq<Js>, i: nat): (r: Js)
    ensures i < |xs| ==> r == xs[i]
    ensures i >= |xs| ==> r == Undefined
  {
    if i < |xs| then xs[i] else Undefined
  }
}
