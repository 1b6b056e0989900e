/**
 * The slice of JavaScript's value semantics that the tracking code relies on:
 * optional values, the dynamically typed values that end up in an analytics
 * property bag, truthiness, `a || b` and object spread.
 */
module JsValues {

  datatype Option<+T> = None | Some(value: T)

  /** A value that either is returned normally or is thrown as an `Error`. */
  datatype Result<+T> = Ok(value: T) | Thrown(message: string)

  /**
   * A JavaScript value as it is passed to the analytics sink. Numbers are
   * modelled as integers; `Undefined` stands for an omitted argument.
   */
  datatype Value =
    | Undefined
    | Str(s: string)
    | Num(n: int)
    | Bool(b: bool)
    | Obj(fields: map<string, Value>)

  /** A plain object used as a record of named properties. */
  type Props = map<string, Value>

  /** JavaScript truthiness: `undefined`, `""`, `0` and `false` are falsy. */
  predicate Truthy(v: Value) {
    match v
    case Undefined => false
    case Str(s) => s != ""
    case Num(n) => n != 0
    case Bool(b) => b
    case Obj(_) => true
  }

  /** `a || b`: the left operand when it is truthy, else the right one. */
  function Or(a: Value, b: Value): (r: Value)
    ensures Truthy(a) ==> r == a
    ensures !Truthy(a) ==> r == b
    ensures Truthy(r) <==> Truthy(a) || Truthy(b)
  {
    if Truthy(a) then a else b
  }

  /** The own properties that `{ ...p }` copies from an optional object. */
  function Spread(p: Option<Props>): Props {
    match p
    case None => map[]
    case Some(m) => m
  }

  /** True when a string read from storage is missing or empty, i.e. falsy. */
  predicate Falsy(o: Option<string>) {
    o.None? || o.value == ""
  }
}
