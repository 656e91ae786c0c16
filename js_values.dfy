/** The few JavaScript value semantics the dashboard's components rely on:
    `Number(s)` (possibly NaN), `Math.round`, and the `x || fallback` idiom. */
module JsValues {

  datatype Option<+T> = None | Some(value: T)

  /** A JavaScript number as produced by `Number(s)` on a form field: either NaN or a
      finite value. Infinities are not represented. */
  datatype Num = NaN | Val(value: real) {
    /** JavaScript truthiness of a number: NaN and zero are falsy. */
    predicate Truthy() {
      Val? && value != 0.0
    }
  }

  /** The one law of `Number` the components depend on: the empty string converts to 0,
      not to NaN. How other strings convert is left to the parser given to a component. */
  ghost predicate EmptyParsesToZero(toNumber: string -> Num) {
    toNumber("") == Val(0.0)
  }

  /** `Math.round`: the nearest integer, halves rounded toward positive infinity. */
  function Round(x: real): (r: int)
    ensures r as real - 0.5 <= x < r as real + 0.5
  {
    (x + 0.5).Floor
  }

  /** `Number(s) || null`: the number when it is truthy, null for NaN and zero. */
  function OrNull(n: Num): (r: Option<real>)
    ensures r.None? <==> !n.Truthy()
    ensures r.Some? ==> n == Val(r.value)
  {
    if n.Truthy() then Some(n.value) else None
  }

  /** `Number(s) || 0`: NaN becomes 0, every other value is kept. */
  function OrZero(n: Num): (r: real)
    ensures n.Val? ==> r == n.value
    ensures n.NaN? ==> r == 0.0
  {
    if n.Truthy() then n.value else 0.0
  }

  /** `s || fallback` on an optional string: missing and empty strings are falsy. */
  function StringOr(s: Option<string>, fallback: string): (r: string)
    ensures r == fallback || (s == Some(r) && r != "")
    ensures s.Some? && s.value != "" ==> r == s.value
    ensures r != "" || fallback == ""
  {
    if s.Some? && s.value != "" then s.value else fallback
  }
}
