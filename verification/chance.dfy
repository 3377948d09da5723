/** Random draws. Every call to Math.random() in the game becomes a parameter of
    type Draw, so that each operation is a deterministic function of its draws. */
module Chance {

  /** A value Math.random() can return. */
  type Draw = r: real | 0.0 <= r < 1.0

  /** A draw scaled by n stays in [0, n). */
  lemma ProductBelow(r: Draw, n: nat)
    requires n > 0
    ensures 0.0 <= r * n as real < n as real
  {
    assert (1.0 - r) * n as real > 0.0;
  }

  /** The die `(int) (Math.random() * n) + 1`. The cast truncates toward zero,
      which for a non-negative product is the floor. */
  function Roll(r: Draw, n: nat): (face: int)
    requires n > 0
    ensures 1 <= face <= n
  {
    ProductBelow(r, n);
    (r * n as real).Floor + 1
  }

  /** Every face of the die comes up for some draw: face k for the draw (k - 1) / n. */
  lemma RollReachesEveryFace(n: nat, face: int)
    requires 1 <= face <= n
    ensures var r := (face - 1) as real / n as real;
      0.0 <= r < 1.0 && Roll(r, n) == face
  {
    var r := (face - 1) as real / n as real;
    assert r * n as real == (face - 1) as real;
  }

  /** A two-faced die shows 1 exactly when the draw is below one half. */
  lemma RollTwo(r: Draw)
    ensures Roll(r, 2) == 1 <==> r < 0.5
  {
  }
}
