/** JavaScript's `Math.round` and `Math.abs` on exact numbers. */
module JsMath {

  /** `Math.round` of a non-negative number: halves round up. */
  function Round(x: real): (n: nat)
    requires x >= 0.0
    ensures n as real - 0.5 <= x < n as real + 0.5
  {
    (x + 0.5).Floor
  }

  /** A number no larger than an integer bound still rounds to at most that bound. */
  lemma RoundWithin(x: real, bound: int)
    requires 0.0 <= x <= bound as real
    ensures Round(x) <= bound
  {
  }

  /** A number no smaller than an integer bound still rounds to at least that bound. */
  lemma RoundAtLeast(x: real, bound: int)
    requires 0.0 <= x && bound as real <= x
    ensures bound <= Round(x)
  {
  }

  /** Rounding keeps the order of its arguments. */
  lemma RoundMonotone(x: real, y: real)
    requires 0.0 <= x <= y
    ensures Round(x) <= Round(y)
  {
  }

  /** Multiplying by a positive factor keeps a strict comparison. */
  lemma ScaleCompare(x: real, c: real, k: real)
    requires k > 0.0
    ensures x > c <==> x * k > c * k
  {
  }

  /** A part of a positive whole, as a share of it, lies in [0, 1] and is 1 for the whole. */
  lemma ShareInUnit(part: nat, whole: nat)
    requires 0 < whole && part <= whole
    ensures 0.0 <= part as real / whole as real <= 1.0
    ensures part == whole ==> part as real / whole as real == 1.0
  {
    assert part as real / whole as real * whole as real == part as real;
  }

  function Abs(x: real): (r: real)
    ensures r >= 0.0 && (r == x || r == -x)
  {
    if x < 0.0 then -x else x
  }
}
