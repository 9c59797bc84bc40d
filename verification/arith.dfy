/** Small facts about multiplication and division the solver needs spelled out. */
module Arith {

  lemma MulAtLeast(b: int, t: int)
    requires b > 0 && t >= 1
    ensures b * t >= b
  {
  }

  lemma Distrib(b: int, x: int, y: int)
    ensures b * x - b * y == b * (x - y)
  {
  }

  /** Multiplying by a positive factor keeps a strict gap of at least that factor. */
  lemma MulMonotone(b: int, x: int, y: int)
    requires b > 0 && x < y
    ensures b * x + b <= b * y
  {
    Distrib(b, y, x);
    MulAtLeast(b, y - x);
  }

  /** The quotient is the unique `q` with `b * q <= a < b * q + b`. */
  lemma DivUnique(a: int, b: int, q: int)
    requires b > 0 && b * q <= a < b * q + b
    ensures a / b == q
  {
    var q' := a / b;
    Distrib(b, q, q');
    if q > q' {
      MulAtLeast(b, q - q');
    } else if q' > q {
      MulAtLeast(b, q' - q);
      Distrib(b, q', q);
    }
  }
}
