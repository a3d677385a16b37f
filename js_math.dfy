/** The two JavaScript `Math` built-ins the calculator uses, over exact reals.
    Numbers are modelled as mathematical reals: IEEE-754 doubles, NaN and the
    infinities are not part of this model. */
module JsMath {

  /** `Math.round`: the integer closest to `x`, a tie going toward +infinity
      (section 21.3.2.28 of ECMA-262). */
  function Round(x: real): (r: int)
    ensures r as real - 0.5 <= x < r as real + 0.5
  {
    (x + 0.5).Floor
  }

  /** `Math.max` of two numbers. */
  function Max(a: real, b: real): (r: real)
    ensures a <= r && b <= r
    ensures r == a || r == b
  {
    if a < b then b else a
  }

  /** Distance from `x` to the integer `k`, used to state what "closest" means. */
  function Dist(x: real, k: int): (d: real)
    ensures 0.0 <= d
    ensures d == x - k as real || d == k as real - x
  {
    if x < k as real then k as real - x else x - k as real
  }

  /** `Round` is the unique integer in the half-open window (x - 1/2, x + 1/2]. */
  lemma RoundUnique(x: real, n: int)
    requires n as real - 0.5 <= x < n as real + 0.5
    ensures Round(x) == n
  {
  }

  /** No integer is closer to `x` than `Round(x)`; among two equally close
      integers `Round` picks the larger one. */
  lemma RoundIsNearest(x: real, n: int)
    ensures Dist(x, Round(x)) <= Dist(x, n)
    ensures Dist(x, Round(x)) == Dist(x, n) ==> n <= Round(x)
  {
  }

  /** The rule `Math.round` is specified by, written independently of `Round`:
      `n` is an integer no farther from `x` than any other, and the larger
      of two equally near integers. */
  ghost predicate IsMathRound(x: real, n: int)
  {
    forall k: int :: Dist(x, n) <= Dist(x, k) && (Dist(x, n) == Dist(x, k) ==> k <= n)
  }

  /** `Round` meets that rule, and no other integer does. */
  lemma RoundIsMathRound(x: real, n: int)
    ensures IsMathRound(x, n) <==> n == Round(x)
  {
    if n == Round(x) {
      forall k: int
        ensures Dist(x, n) <= Dist(x, k) && (Dist(x, n) == Dist(x, k) ==> k <= n)
      {
        RoundIsNearest(x, k);
      }
    }
    if IsMathRound(x, n) {
      var r := Round(x);
      assert Dist(x, n) <= Dist(x, r) && (Dist(x, n) == Dist(x, r) ==> r <= n);
      RoundIsNearest(x, n);
    }
  }

  /** Rounding an integer gives it back. */
  lemma RoundOfInt(n: int)
    ensures Round(n as real) == n
  {
  }

  /** Rounding never reverses the order of two numbers. */
  lemma RoundMonotone(x: real, y: real)
    requires x <= y
    ensures Round(x) <= Round(y)
  {
  }
}
