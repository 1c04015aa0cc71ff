/** Rounding a real to an integer as the two runtimes of the system do it. */
module Rounding {

  /** JavaScript `Math.round`: the nearest integer, a tie going towards +infinity. */
  function JsRound(x: real): (r: int)
    ensures x - 0.5 < r as real <= x + 0.5
  {
    (x + 0.5).Floor
  }

  /** Python 3 `round(x)`: the nearest integer, a tie going to the even neighbour. */
  function PyRound(x: real): (r: int)
    ensures x - 0.5 <= r as real <= x + 0.5
    ensures (r as real - x == 0.5 || x - r as real == 0.5) ==> r % 2 == 0
  {
    var f := x.Floor;
    var d := x - f as real;
    if d < 0.5 then f
    else if d > 0.5 then f + 1
    else if f % 2 == 0 then f
    else f + 1
  }

  /** Python `round(x, 3)`: half-even rounding to three decimal places. */
  function PyRound3(x: real): (r: real)
    ensures x - 0.0005 <= r <= x + 0.0005
  {
    PyRound(x * 1000.0) as real / 1000.0
  }

  lemma JsRoundMonotone(x: real, y: real)
    requires x <= y
    ensures JsRound(x) <= JsRound(y)
  {
  }

  lemma PyRoundMonotone(x: real, y: real)
    requires x <= y
    ensures PyRound(x) <= PyRound(y)
  {
  }

  /** The two roundings differ only on a tie whose lower neighbour is even. */
  lemma RoundingsAgreeOffTies(x: real)
    requires x - x.Floor as real != 0.5 || x.Floor % 2 != 0
    ensures JsRound(x) == PyRound(x)
  {
  }

  /** Rounding never leaves an integer interval that holds its argument. */
  lemma JsRoundWithin(x: real, lo: int, hi: int)
    requires lo as real <= x <= hi as real
    ensures lo <= JsRound(x) <= hi
  {
  }

  lemma PyRoundWithin(x: real, lo: int, hi: int)
    requires lo as real <= x <= hi as real
    ensures lo <= PyRound(x) <= hi
  {
  }
}
