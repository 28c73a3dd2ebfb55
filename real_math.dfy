/**
 * The browser's `Math` object, seen through the few laws the model relies on.
 *
 * The scripts call Math.sqrt, Math.sin, Math.cos, Math.exp and Math.PI.  Over
 * Dafny's `real` none of these can be computed, so a `MathLib` value carries
 * them as functions and `Lawful` states the facts the proofs use and nothing
 * more.  Every operation that needs a transcendental takes a `MathLib`.
 */
module RealMath {
  datatype MathLib = MathLib(
    sqrt: real -> real,
    sin: real -> real,
    cos: real -> real,
    exp: real -> real,
    pi: real)

  /** The principal square root of a non-negative number. */
  ghost predicate SqrtLaw(m: MathLib) {
    forall x :: x >= 0.0 ==> m.sqrt(x) >= 0.0 && m.sqrt(x) * m.sqrt(x) == x
  }

  /** The Pythagorean identity and the values at zero. */
  ghost predicate TrigLaw(m: MathLib) {
    && (forall t :: m.cos(t) * m.cos(t) + m.sin(t) * m.sin(t) == 1.0)
    && m.cos(0.0) == 1.0
    && m.sin(0.0) == 0.0
  }

  ghost predicate Lawful(m: MathLib) {
    SqrtLaw(m) && TrigLaw(m) && m.pi > 0.0
  }

  /** A non-negative number has exactly one non-negative square root. */
  lemma SqrtUnique(m: MathLib, x: real, r: real)
    requires SqrtLaw(m) && x >= 0.0
    requires r >= 0.0 && r * r == x
    ensures m.sqrt(x) == r
  {
    var s := m.sqrt(x);
    assert s >= 0.0 && s * s == x;
    var d, e := s + r, s - r;
    assert e * d == s * s - r * r == 0.0;
    if d > 0.0 {
      assert e == (e * d) / d;
    }
  }

  lemma SqrtOne(m: MathLib)
    requires SqrtLaw(m)
    ensures m.sqrt(1.0) == 1.0
  {
    SqrtUnique(m, 1.0, 1.0);
  }

  lemma SqrtPositive(m: MathLib, x: real)
    requires SqrtLaw(m) && x > 0.0
    ensures m.sqrt(x) > 0.0
  {
    assert m.sqrt(x) * m.sqrt(x) == x;
  }
}
