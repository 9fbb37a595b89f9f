/**
 * Numeric conventions shared by every view of the finance application:
 * amounts typed into a form or read from a stored record, the coercion
 * `Number(x || 0)`, left-to-right sums (`reduce((a, b) => a + b, 0)`) and
 * `Math.round`.
 */
module Amounts {

  datatype Option<+T> = None | Some(value: T)

  /** An amount as a form field or a stored record holds it: the empty
      string (or a missing field) or a number. */
  datatype Amount = Blank | Num(n: real)

  /** `Number(x || 0)`: a blank or missing amount counts as zero. */
  function Value(a: Amount): real
  {
    match a
    case Blank => 0.0
    case Num(n) => n
  }

  /** `s.reduce((a, b) => a + b, 0)`, folded from the left. */
  function Sum(s: seq<real>): real
  {
    if s == [] then 0.0 else Sum(s[..|s| - 1]) + s[|s| - 1]
  }

  lemma {:induction false} SumAppend(a: seq<real>, b: seq<real>)
    ensures Sum(a + b) == Sum(a) + Sum(b)
  {
    if b == [] {
      assert a + b == a;
    } else {
      assert (a + b)[..|a + b| - 1] == a + b[..|b| - 1];
      SumAppend(a, b[..|b| - 1]);
    }
  }

  /** `Math.round`: rounds half-way values up, towards positive infinity. */
  function Round(x: real): (r: int)
    ensures x - 0.5 < r as real <= x + 0.5
  {
    (x + 0.5).Floor
  }

  lemma RoundOfInteger(n: int)
    ensures Round(n as real) == n
  {
  }

  lemma RoundMonotonic(x: real, y: real)
    requires x <= y
    ensures Round(x) <= Round(y)
  {
  }
}
