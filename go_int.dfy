/**
 * Go's integer and conversion semantics that the engine relies on, and the
 * outcome types used to model Go's panics and optional values.
 *
 * Go's `/` and `%` on `int` truncate toward zero; Dafny's are Euclidean.
 * Go's `int(f)` conversion of a float truncates toward zero as well.
 */
module GoInt {

  datatype Option<T> = None | Some(value: T)

  /** Why a Go computation aborted (a runtime panic, `panic(err)` or `log.Fatal`). */
  datatype Fault =
    | IndexOutOfRange
    | DivideByZero
    | NegativeLength
    | NilMapWrite
    | LoadFailed
    | CompileFailed
    | FatalExit

  /** The result of a Go computation that either returns a value or aborts. */
  datatype Outcome<T> = Ok(value: T) | Panic(fault: Fault)

  function Abs(x: int): nat { if x < 0 then -x else x }

  /** Go's `a / b` on integers: the quotient truncated toward zero. */
  function GoDiv(a: int, b: int): (q: int)
    requires b != 0
    ensures 0 <= a && 0 < b ==> 0 <= q && q == a / b
  {
    if a >= 0 then
      (if b > 0 then a / b else -(a / -b))
    else
      (if b > 0 then -((-a) / b) else (-a) / (-b))
  }

  /** Go's `a % b` on integers: the remainder takes the sign of `a`. */
  function GoMod(a: int, b: int): (r: int)
    requires b != 0
    ensures Abs(r) < Abs(b)
    ensures r == 0 || (r < 0 <==> a < 0)
    ensures 0 <= a && 0 < b ==> r == a % b
  {
    a - GoDiv(a, b) * b
  }

  /**
   * Truncated division: quotient times divisor plus remainder gives back the
   * dividend, the remainder is smaller than the divisor and has the
   * dividend's sign.
   */
  lemma DivModTruncated(a: int, b: int)
    requires b != 0
    ensures GoDiv(a, b) * b + GoMod(a, b) == a
    ensures Abs(a - GoDiv(a, b) * b) < Abs(b)
    ensures a - GoDiv(a, b) * b == 0 || (a - GoDiv(a, b) * b < 0 <==> a < 0)
  {
  }

  /** Go's `int(x)` for a float: truncation toward zero. */
  function Trunc(x: real): (n: int)
    ensures x >= 0.0 ==> 0 <= n && n as real <= x < n as real + 1.0
    ensures x < 0.0 ==> n <= 0 && n as real - 1.0 < x <= n as real
  {
    if x >= 0.0 then x.Floor else -((-x).Floor)
  }

  const TwoTo31: int := 0x8000_0000
  const TwoTo32: int := 0x1_0000_0000

  /** Go's `int32(x)`: two's-complement wrap-around into 32 bits. */
  function Int32(x: int): (r: int)
    ensures -TwoTo31 <= r < TwoTo31
    ensures (x - r) % TwoTo32 == 0
    ensures -TwoTo31 <= x < TwoTo31 ==> r == x
  {
    var m := x % TwoTo32;
    if m >= TwoTo31 then m - TwoTo32 else m
  }
}
