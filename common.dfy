/** Shared value types: optional values, the outcome of a call that may throw,
    and JavaScript truthiness of optional strings. */
module Common {

  datatype Option<+T> = None | Some(value: T) {
    /** `x ?? default`. */
    function GetOr(default: T): T
    {
      if Some? then value else default
    }
  }

  /** The outcome of an awaited call into code outside the model: it either
      produced a value or threw an exception carrying a message. */
  datatype Step<+T> = Done(value: T) | Threw(message: string)

  /** `!x` for a value that is a string or undefined: both `undefined` and the
      empty string are falsy. */
  predicate Falsy(x: Option<string>)
  {
    x.None? || x.value == ""
  }

  /** The string held by a truthy optional string. */
  function TruthyValue(x: Option<string>): (s: string)
    requires !Falsy(x)
    ensures s != "" && x == Some(s)
  {
    x.value
  }
}
