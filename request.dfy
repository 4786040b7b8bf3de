/**
 * The values a simulation request carries.  The request body is JSON, so an
 * override or knob is a number, a string, or something else (null, a list,
 * an object).
 */
module Request {
  import opened Wrappers

  /**
   * A JSON value as Python sees it.  `Text` keeps what Python's `float()`
   * makes of the string (`parsed`), since that parse is the only use the
   * pipeline has for a string besides formatting it.
   */
  datatype Value =
    | Num(x: real)
    | Text(s: string, parsed: Option<real>)
    | NonScalar

  /** Python's `float(value)`: None when it raises ValueError or TypeError. */
  function ToFloat(v: Value): Option<real>
  {
    match v
    case Num(x) => Some(x)
    case Text(_, parsed) => parsed
    case NonScalar => None
  }

  /** Python's `dict.get(key, default)`: a present key wins even when its value is null. */
  function Get(params: map<string, Value>, key: string, default: Value): Value
  {
    if key in params then params[key] else default
  }
}
