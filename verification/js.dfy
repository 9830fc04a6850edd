/** The few JavaScript value semantics the Node.js handlers depend on. */
module Js {
  import opened Wrappers
  import opened Text

  /** A JavaScript number as it arises in the handlers: an integral value, or
      NaN (what arithmetic on `undefined` yields). */
  datatype Number = Finite(value: int) | NaN

  /** `x <= 0`; every comparison with NaN is false. */
  predicate AtMostZero(x: Number)
  {
    x.Finite? && x.value <= 0
  }

  /** `x + y` on numbers; NaN is absorbing. */
  function Add(x: Number, y: Number): Number
  {
    if x.Finite? && y.Finite? then Finite(x.value + y.value) else NaN
  }

  /** `String(x)` for an integral number below 10^21 in magnitude, or NaN. */
  function NumberText(x: Number): (r: string)
    ensures r == "NaN" <==> x.NaN?
    ensures x.Finite? && x.value >= 0 ==> AllDigits(r) && DigitsValue(r) == x.value
    ensures x.Finite? && x.value < 0 ==>
      |r| > 1 && r[0] == '-' && AllDigits(r[1..]) && DigitsValue(r[1..]) == -x.value
  {
    match x
    case NaN => "NaN"
    case Finite(n) =>
      var r := if n < 0 then "-" + DecimalString(-n) else DecimalString(n);
      assert r[0] != "NaN"[0];
      r
  }

  /** The string conversion of a value that is a string or `undefined`, as a
      template literal or `URLSearchParams` performs it. */
  function StringOf(v: Option<string>): string
  {
    v.GetOr("undefined")
  }
}
