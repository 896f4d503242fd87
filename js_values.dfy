/**
  The JavaScript values that reach a tool handler, and the small part of the
  JavaScript runtime the handlers lean on: template-literal interpolation,
  truthiness, and the behaviours the model takes from its host as parameters.
 */
module JsValues {

  /** A JavaScript value as a handler sees it after destructuring its arguments.
      A field missing from the arguments reads as `Undefined`. Numbers are exact
      rationals: IEEE-754 rounding is not modelled. */
  datatype Value =
    | Undefined
    | Null
    | Bool(b: bool)
    | Num(n: real)
    | Str(s: string)
    | Arr(elements: seq<Value>)
    | Obj(fields: map<string, Value>)

  /** The `arguments` object of a tool call, keyed by field name. */
  type Args = map<string, Value>

  /** The runtime failures the handlers can raise without a `throw` of their own. */
  datatype TypeFault =
    | CannotDestructure(property: string)  // `const { p, ... } = args` with `args` undefined
    | NotSplittable(receiver: Value)       // `text.split("")` with `text` not a string
    | NoPrimitive(value: Value)            // converting `value` to a string or a number

  /** What the host engine does that this model does not define:
      `numberText` is Number.prototype.toString on the values the model computes,
      `looseArithmetic(op, a, b)` is the text of `a op b` when an operand is not a
      number (implicit coercion), and `typeErrorMessage` is the engine's wording
      of a TypeError. */
  datatype Host = Host(
    numberText: real -> string,
    looseArithmetic: (string, Value, Value) -> string,
    typeErrorMessage: TypeFault -> string)

  /** Property access on the arguments object: a missing key is `undefined`. */
  function Property(args: Args, key: string): Value
  {
    if key in args then args[key] else Undefined
  }

  /** Whether JavaScript can convert `v` to a primitive (ToPrimitive), as a
      template literal and the arithmetic operators do. An object from JSON
      that has an own key `toString` has a `toString` that cannot be called,
      and its `valueOf` gives back the object itself, so the conversion throws a
      TypeError. An array converts by joining its elements, so it converts
      exactly when each element does. */
  predicate HasPrimitive(v: Value)
    decreases v
  {
    match v
    case Arr(xs) => forall i :: 0 <= i < |xs| ==> HasPrimitive(xs[i])
    case Obj(fields) => "toString" !in fields
    case _ => true
  }

  /** `${v}`, that is String(v), as a template literal renders it; defined
      where the conversion does not throw. */
  function Show(v: Value, host: Host): string
    requires HasPrimitive(v)
    decreases v, 1
  {
    match v
    case Undefined => "undefined"
    case Null => "null"
    case Bool(b) => if b then "true" else "false"
    case Num(x) => host.numberText(x)
    case Str(s) => s
    case Arr(xs) => Join(xs, host)
    case Obj(_) => "[object Object]"
  }

  /** Array.prototype.join with the default separator: null and undefined
      elements render as the empty string. */
  function Join(xs: seq<Value>, host: Host): string
    requires forall i :: 0 <= i < |xs| ==> HasPrimitive(xs[i])
    decreases xs, 0
  {
    if xs == [] then ""
    else
      var first := if xs[0].Undefined? || xs[0].Null? then "" else Show(xs[0], host);
      if |xs| == 1 then first else first + "," + Join(xs[1..], host)
  }

  /** JavaScript truthiness (NaN cannot arise from JSON arguments). */
  predicate Truthy(v: Value)
  {
    match v
    case Undefined => false
    case Null => false
    case Bool(b) => b
    case Num(x) => x != 0.0
    case Str(s) => s != ""
    case Arr(_) => true
    case Obj(_) => true
  }

  /** A string value is truthy exactly when it is not empty. */
  lemma StringTruthiness(s: string)
    ensures Truthy(Str(s)) <==> |s| > 0
  {
  }

  /** Only arrays and objects can fail to convert, and both are truthy, so a
      falsy value always converts. */
  lemma FalsyHasPrimitive(v: Value)
    ensures !HasPrimitive(v) ==> Truthy(v) && (v.Arr? || v.Obj?)
  {
  }
}
