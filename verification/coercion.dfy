/**
 Lenient numeric coercion of the raw values the Fantasy Premier League
 feed supplies (`safe_float` in app.py).

 Python's own `float()` is not modelled character by character: a string is
 handed to a `Parser`, an abstract partial parse that either yields a number
 or fails (ValueError). Numbers are exact `real`s.
 */
module Coercion {

  datatype Option<+T> = None | Some(value: T)

  /** A raw cell of a player or fixture record. `Null` stands for Python's
      `None` and for every other object `float()` rejects with TypeError. */
  datatype Value = Num(x: real) | Text(s: string) | Null

  /** Python's string-to-float conversion; `None` means it raised ValueError. */
  type Parser = string -> Option<real>

  /** `float(v)`: a number converts to itself, a string goes through the
      parser, anything else raises TypeError (`None`). */
  function PyFloat(v: Value, parse: Parser): Option<real> {
    match v
    case Num(x) => Some(x)
    case Text(s) => parse(s)
    case Null => None
  }

  /** `safe_float`: the converted value when `float()` succeeds, exactly 0.0
      when it raises; it never fails. */
  function SafeFloat(v: Value, parse: Parser): (r: real)
    ensures PyFloat(v, parse).Some? ==> r == PyFloat(v, parse).value
    ensures PyFloat(v, parse).None? ==> r == 0.0
    ensures r != 0.0 ==> PyFloat(v, parse) == Some(r)
    ensures v.Num? ==> r == v.x
    ensures v.Null? ==> r == 0.0
    ensures r == 0.0 <==> PyFloat(v, parse).None? || PyFloat(v, parse) == Some(0.0)
  {
    match PyFloat(v, parse)
    case Some(x) => x
    case None => 0.0
  }
}
