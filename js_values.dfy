/**
 * The part of JavaScript's value semantics that the configuration record
 * depends on: the values it can hold, truthiness, and the `||` operator.
 */
module JsValues {

  /**
   * The JavaScript values that occur in the configuration record:
   * `undefined` (an absent environment variable), a string, and a number.
   * Numbers are modelled as integers; the only number that occurs is the
   * literal port 5000.
   */
  datatype JsValue = Undefined | Str(s: string) | Num(n: int)

  /** JavaScript truthiness: `undefined`, `""` and `0` are falsy. */
  predicate Truthy(v: JsValue) {
    match v
    case Undefined => false
    case Str(s) => s != ""
    case Num(n) => n != 0
  }

  /** `a || b`: the left operand when it is truthy, else the right one. */
  function Or(a: JsValue, b: JsValue): JsValue {
    if Truthy(a) then a else b
  }

  /**
   * Reading `process.env.KEY`: the environment is a map from variable names
   * to strings, and a name the map does not hold reads as `undefined`.
   */
  function Lookup(env: map<string, string>, key: string): JsValue {
    if key in env then Str(env[key]) else Undefined
  }
}
