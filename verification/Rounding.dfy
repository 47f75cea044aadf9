/** Rounding to six decimals, half away from zero, on real numbers. */
module Rounding {
  import opened Prelude

  /** math.Round: the nearest integer, and of two the one further from zero. */
  function Round(x: real): (n: int)
    ensures -0.5 <= n as real - x <= 0.5
    ensures n as real - x == 0.5 ==> x > 0.0
    ensures n as real - x == -0.5 ==> x < 0.0
  {
    if x >= 0.0 then (x + 0.5).Floor else -((-x + 0.5).Floor)
  }

  const HALF_MICRO := 0.0000005

  function Round6(x: real): (r: real) {
    Round(x * 1000000.0) as real / 1000000.0
  }

  /** A whole number of millionths. */
  ghost predicate Micro(x: real) {
    exists n: int :: x == Micros(n)
  }

  function Micros(n: int): real {
    n as real / 1000000.0
  }

  lemma Round6Near(x: real)
    ensures Abs(Round6(x) - x) <= HALF_MICRO
  {
  }

  lemma Round6Micro(x: real)
    ensures Micro(Round6(x))
  {
    assert Round6(x) == Micros(Round(x * 1000000.0));
  }

  lemma RoundWhole(n: int)
    ensures Round(n as real) == n
  {
    var m := Round(n as real);
    assert -0.5 <= (m - n) as real <= 0.5;
  }

  /** Rounding leaves a number of six decimals as it is. */
  lemma Round6Fixes(x: real)
    requires Micro(x)
    ensures Round6(x) == x
  {
    var n: int :| x == Micros(n);
    assert x * 1000000.0 == n as real;
    RoundWhole(n);
  }

  lemma MicroClosed(x: real, y: real)
    requires Micro(x) && Micro(y)
    ensures Micro(x + y) && Micro(x - y)
  {
    var n: int :| x == Micros(n);
    var m: int :| y == Micros(m);
    assert x + y == Micros(n + m) && x - y == Micros(n - m);
  }

  lemma MicroZero()
    ensures Micro(0.0)
  {
    assert 0.0 == Micros(0);
  }
}
