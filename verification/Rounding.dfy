// Python's built-in round(x) to an integer: nearest, ties to even.
module Rounding {

  function RoundHalfEven(x: real): int {
    var f := x.Floor;
    var d := x - f as real;
    if d < 0.5 then f
    else if d > 0.5 then f + 1
    else if f % 2 == 0 then f else f + 1
  }

  /** r is the rounding of x exactly when it is within half a unit, and even on a tie. */
  lemma NearestTiesToEven(x: real, r: int)
    ensures r == RoundHalfEven(x) <==>
            && r as real - 0.5 <= x <= r as real + 0.5
            && (x == r as real - 0.5 || x == r as real + 0.5 ==> r % 2 == 0)
  {
  }
}
