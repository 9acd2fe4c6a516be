/** The slice of JavaScript's value semantics that the chat service leans on:
    the dynamic values a tool may return, truthiness, property access, the
    `in` operator, template-literal interpolation and `Number(x)`. */
module Js {
  import opened Wrappers
  import Text

  /** A JavaScript value as it can reach the service from the model runtime.
      Numbers are kept as reals: NaN and the infinities are not modelled. */
  datatype Value =
    | Undefined
    | Null
    | Bool(b: bool)
    | Num(x: real)
    | Str(s: string)
    | Arr(items: seq<Value>)
    | Obj(fields: map<string, Value>)

  /** A thrown value, as seen by `error instanceof Error ? error.message : …` */
  datatype Thrown = ErrorValue(message: string) | NonError

  /** Library behaviour taken as given rather than modelled: `JSON.parse`
      (None when it throws), the decimal rendering of a number in a template
      literal, `Number.prototype.toFixed(2)`, and `Number(s)` on a string
      (None for NaN). */
  datatype Host = Host(
    parseJson: string -> Option<Value>,
    showNumber: real -> string,
    toFixed2: real -> string,
    parseNumber: string -> Option<real>)

  /** `!!v` */
  predicate Truthy(v: Value) {
    match v
    case Undefined => false
    case Null => false
    case Bool(b) => b
    case Num(x) => x != 0.0
    case Str(s) => s != ""
    case Arr(_) => true
    case Obj(_) => true
  }

  /** `typeof v === 'object' && v !== null` */
  predicate IsObject(v: Value) {
    v.Arr? || v.Obj?
  }

  /** `key in v` for an object `v`. Only fixed key names that are not
      properties of any built-in prototype are ever asked about, so only
      own fields of plain objects can answer yes. */
  predicate Has(v: Value, key: string) {
    v.Obj? && key in v.fields
  }

  /** `v?.[key]`: the own field, or undefined (also when `v` is nullish) */
  function Get(v: Value, key: string): Value {
    if Has(v, key) then v.fields[key] else Undefined
  }

  /** Whether `${v}` and `Number(v)` succeed. Converting an object calls
      its `toString` and `valueOf` methods. A value of this model holds no
      functions, so an own `toString` field is never callable. The inherited
      `valueOf` then returns the object itself, and the conversion throws
      a TypeError. An array converts through `join`, which converts every
      element that is not nullish. */
  predicate Convertible(v: Value)
    decreases v
  {
    match v
    case Obj(fields) => "toString" !in fields
    case Arr(items) => forall i :: 0 <= i < |items| ==> Convertible(items[i])
    case _ => true
  }

  predicate AllConvertible(vs: seq<Value>) {
    forall i :: 0 <= i < |vs| ==> Convertible(vs[i])
  }

  /** The TypeError a failed conversion raises */
  const ConversionTypeError := ErrorValue("Cannot convert object to primitive value")

  /** `${v}`: how a convertible value is interpolated into a template literal */
  function Render(v: Value, host: Host): string
    decreases v
  {
    match v
    case Undefined => "undefined"
    case Null => "null"
    case Bool(b) => if b then "true" else "false"
    case Num(x) => host.showNumber(x)
    case Str(s) => s
    case Obj(_) => "[object Object]"
    case Arr(items) =>
      // Array.prototype.toString joins with "," and shows nullish elements as ""
      Text.Join(seq(|items|, i requires 0 <= i < |items| =>
                      if items[i].Undefined? || items[i].Null? then "" else Render(items[i], host)), ",")
  }

  /** `Number(v)` for a convertible `v`, None standing for NaN */
  function ToNumber(v: Value, host: Host): Option<real> {
    match v
    case Undefined => None
    case Null => Some(0.0)
    case Bool(b) => Some(if b then 1.0 else 0.0)
    case Num(x) => Some(x)
    case Str(s) => host.parseNumber(s)
    case _ => host.parseNumber(Render(v, host))
  }

  /** `Number(v).toFixed(2)` */
  function Fixed2(v: Value, host: Host): string {
    match ToNumber(v, host)
    case None => "NaN"
    case Some(x) => host.toFixed2(x)
  }
}
