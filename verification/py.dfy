/** The bits of Python's behaviour the simulator leans on: exceptions as an
    error result, `None` as an absent value, and the numeric conversions
    `round` (which rounds halves to even) and `int()` (which truncates). */
module Py {

  /** The exceptions the modelled code can raise. */
  datatype PyError =
    | IndexError         // pop from an empty list, index past the end
    | TypeError          // comparing a list with an int
    | KeyError           // a value missing from a lookup table
    | ZeroDivisionError  // division by zero
    | ValueError         // `max` of an empty list, `list.index` of a missing value

  datatype Result<T> = Ok(value: T) | Err(error: PyError)

  datatype Option<T> = None | Some(value: T)

  /** `s[i]` with Python's indexing: a negative index counts from the end,
      an index outside the list raises `IndexError`. */
  function PyIndex<T>(s: seq<T>, i: int): (r: Result<T>)
    ensures r.Err? <==> i < -|s| || |s| <= i
    ensures r.Err? ==> r.error == IndexError
    ensures 0 <= i < |s| ==> r == Ok(s[i])
    ensures -|s| <= i < 0 ==> r == Ok(s[|s| + i])
  {
    if 0 <= i < |s| then Ok(s[i])
    else if -|s| <= i < 0 then Ok(s[|s| + i])
    else Err(IndexError)
  }

  /** `round(x)`: the nearest integer, halves going to the even one. */
  function RoundHalfEven(x: real): (r: int)
    ensures -(1.0 / 2.0) <= r as real - x <= 1.0 / 2.0
    ensures (r as real - x == 1.0 / 2.0 || x - r as real == 1.0 / 2.0) ==> r % 2 == 0
  {
    var f := x.Floor;
    var d := x - f as real;
    if d < 1.0 / 2.0 then f
    else if d > 1.0 / 2.0 then f + 1
    else if f % 2 == 0 then f
    else f + 1
  }

  /** `round(x, 2)` on exact reals: the nearest multiple of 1/100, halves
      going to an even number of hundredths. */
  function RoundTo2(x: real): (r: real)
    ensures -(1.0 / 200.0) <= r - x <= 1.0 / 200.0
  {
    RoundHalfEven(x * 100.0) as real / 100.0
  }

  /** `int(x)`: drops the fractional part, rounding toward zero. */
  function Trunc(x: real): (r: int)
    ensures x >= 0.0 ==> 0 <= r && r as real <= x < r as real + 1.0
    ensures x < 0.0 ==> r <= 0 && r as real - 1.0 < x <= r as real
  {
    if x >= 0.0 then x.Floor else -((-x).Floor)
  }

  function MinReal(a: real, b: real): (r: real)
    ensures r <= a && r <= b && (r == a || r == b)
  {
    if a <= b then a else b
  }

  function MaxReal(a: real, b: real): (r: real)
    ensures r >= a && r >= b && (r == a || r == b)
  {
    if a >= b then a else b
  }

  function Min(a: int, b: int): (r: int)
    ensures r <= a && r <= b && (r == a || r == b)
  {
    if a <= b then a else b
  }
}
