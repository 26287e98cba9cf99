/** The loosely typed values a Meteor method receives from its caller, and
    JavaScript's notion of truthiness over them. */
module Js {
  /** A JavaScript value. Numbers are integers (NaN and fractions are not
      modelled); a function is known only by an identity. */
  datatype Value =
    | Undefined
    | Null
    | Bool(b: bool)
    | Num(n: int)
    | Str(s: string)
    | Arr(items: seq<Value>)
    | Obj(props: map<string, Value>)
    | Func(id: nat)

  /** `typeof v === "object" && !Array.isArray(v) && v !== null` */
  predicate IsPlainObject(v: Value) {
    v.Obj?
  }

  /** Property access `v[key]`; a missing property reads as undefined. */
  function Get(v: Value, key: string): (r: Value)
    ensures !IsPlainObject(v) ==> r == Undefined
    ensures IsPlainObject(v) && key !in v.props ==> r == Undefined
  {
    if v.Obj? && key in v.props then v.props[key] else Undefined
  }

  /** JavaScript truthiness: the falsy values are undefined, null, false, 0 and "". */
  predicate Truthy(v: Value) {
    match v
    case Undefined => false
    case Null => false
    case Bool(b) => b
    case Num(n) => n != 0
    case Str(s) => s != ""
    case _ => true
  }
}
