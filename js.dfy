/**
 * The few JavaScript value rules the core relies on: which numbers, strings
 * and flags are falsy, and what `||` and `??` return for them. `None` stands
 * for `undefined` (or `null`); NaN is not modelled for inputs.
 */
module Js {
  import opened Wrappers

  /** A number is truthy unless it is absent or zero. */
  predicate TruthyNum(x: Option<real>) {
    x.Some? && x.value != 0.0
  }

  /** A flag is truthy only when it is present and `true`. */
  predicate TruthyBool(x: Option<bool>) {
    x.Some? && x.value
  }

  /** A string is truthy unless it is absent or empty. */
  predicate TruthyString(x: Option<string>) {
    x.Some? && x.value != ""
  }

  /** `x || d` on a number. */
  function OrNum(x: Option<real>, d: real): (r: real)
    ensures TruthyNum(x) ==> r == x.value
    ensures !TruthyNum(x) ==> r == d
  {
    if TruthyNum(x) then x.value else d
  }

  /** `x || false` on a flag. */
  function OrFalse(x: Option<bool>): (r: bool)
    ensures r <==> x == Some(true)
  {
    TruthyBool(x)
  }

  /** `x || ""` on a string: the string itself when present, the empty string otherwise. */
  function OrEmpty(x: Option<string>): (r: string)
    ensures x.Some? ==> r == x.value
    ensures x.None? ==> r == ""
  {
    if TruthyString(x) then x.value else ""
  }

  /** `x || d` on an object: every present object is truthy. */
  function OrObject<T>(x: Option<T>, d: T): (r: T)
    ensures x.Some? ==> r == x.value
    ensures x.None? ==> r == d
  {
    if x.Some? then x.value else d
  }
}
