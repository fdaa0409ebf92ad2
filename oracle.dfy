/**
 * The two foreign calls the simulation depends on, as oracles:
 * Math.random (a stream of draws in [0, 1)) and Math.sin (bounded by [-1, 1]).
 */
module Oracle {

  /** A value Math.random() can return. */
  type Unit = r: real | 0.0 <= r < 1.0

  /** A value Math.sin can return. */
  type Bounded = r: real | -1.0 <= r <= 1.0

  /** Math.random as a stream: the k-th call since page load returns the k-th draw. */
  type RandomStream = nat -> Unit

  /** Math.sin. */
  type Sine = real -> Bounded

  /** `Math.random() * n` lies in [0, n] when n is not negative. */
  lemma Scaled(r: Unit, n: real)
    requires 0.0 <= n
    ensures 0.0 <= r * n <= n
  {
    assert n - r * n == (1.0 - r) * n;
  }

  /** `Math.random() * n` for a length n: a point of [0, n]. */
  function Scale(r: Unit, n: real): (x: real)
    ensures 0.0 <= n ==> 0.0 <= x <= n
  {
    if 0.0 <= n then Scaled(r, n); r * n else r * n
  }
}
