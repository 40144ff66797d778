/** The few JavaScript value semantics that ClassDebug relies on: optional
    arguments that may be `undefined`, `null` or a string, the `||` operator,
    the `=== undefined || === null` test, and template-literal conversion. */
module Js {

  datatype Option<+T> = None | Some(value: T)

  /** A value passed for an optional string argument (a prefix, a suffix,
      instance data) or stored as a default prefix. */
  datatype Value = Undefined | Null | Str(s: string)

  /** `v === undefined || v === null` */
  predicate Nullish(v: Value) {
    v.Undefined? || v.Null?
  }

  /** JavaScript truthiness: `undefined`, `null` and the empty string are falsy. */
  predicate Truthy(v: Value) {
    v.Str? && v.s != ""
  }

  /** The string that `${v}` in a template literal produces. */
  function Render(v: Value): (r: string)
    ensures r == "" <==> v == Str("")
  {
    match v
    case Undefined => "undefined"
    case Null => "null"
    case Str(s) => s
  }

  /** `a || b` */
  function Or(a: Value, b: Value): (r: Value)
    ensures r == a || r == b
    ensures Truthy(r) <==> Truthy(a) || Truthy(b)
    ensures Truthy(a) ==> r == a
  {
    if Truthy(a) then a else b
  }

  /** `(a === undefined || a === null) ? b : a` */
  function IfNullish(a: Value, b: Value): (r: Value)
    ensures r == a || r == b
    ensures Nullish(r) <==> Nullish(a) && Nullish(b)
    ensures !Nullish(a) ==> r == a
  {
    if Nullish(a) then b else a
  }

  /** Where the two defaulting rules differ: only the empty string, which
      `||` replaces and the nullish test keeps. */
  lemma DefaultingRulesDiffer(a: Value, b: Value)
    ensures Or(a, b) != IfNullish(a, b) <==> a == Str("") && b != Str("")
  {
  }
}
