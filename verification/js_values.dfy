/**
 * The few JavaScript value semantics the backend relies on: truthiness,
 * `String(x)` of a number or of `undefined`, and the `x || ""` fallback.
 */
module JsValues {
  import opened Wrappers

  /** A scalar field of a JSON request body: missing, a string or an integer. */
  datatype Scalar = Undefined | Str(s: string) | Num(n: int)

  /** JavaScript truthiness of a scalar: `undefined`, `""` and `0` are falsy. */
  predicate Truthy(v: Scalar) {
    match v
    case Undefined => false
    case Str(s) => s != ""
    case Num(n) => n != 0
  }

  /** Truthiness of an optional string field. */
  predicate Present(o: Option<string>) {
    o.Some? && o.value != ""
  }

  /** `x || d` for an optional string field. */
  function OrElse(o: Option<string>, d: string): (r: string)
    ensures Present(o) ==> r == o.value
    ensures !Present(o) ==> r == d
  {
    if Present(o) then o.value else d
  }

  /** `x || ""`: an absent field becomes the empty string, a present one is kept. */
  function OrEmpty(o: Option<string>): (r: string)
    ensures o.Some? ==> r == o.value
    ensures o.None? ==> r == ""
  {
    OrElse(o, "")
  }

  function DigitChar(d: nat): (c: char)
    requires d < 10
    ensures '0' <= c <= '9'
  {
    (('0' as int) + d) as char
  }

  /** Decimal rendering of a natural number, most significant digit first. */
  function NatToString(n: nat): (s: string)
    ensures |s| > 0
    ensures forall i :: 0 <= i < |s| ==> '0' <= s[i] <= '9'
    decreases n
  {
    if n < 10 then [DigitChar(n)] else NatToString(n / 10) + [DigitChar(n % 10)]
  }

  /** `String(n)` for an integer in the range JavaScript prints without an exponent. */
  function IntToString(n: int): (s: string)
    ensures |s| > 0
    ensures s[0] == '-' <==> n < 0
  {
    if n < 0 then "-" + NatToString(-n) else NatToString(n)
  }

  /** `String(v)` of a scalar field; `String(undefined)` is the text "undefined". */
  function ToStr(v: Scalar): (s: string)
    ensures Truthy(v) ==> s != ""
    ensures v.Str? ==> s == v.s
  {
    match v
    case Undefined => "undefined"
    case Str(t) => t
    case Num(n) => IntToString(n)
  }
}
