/**
 * The McMillan sextupole page: the invariant K_SX(p, q) of the sextupole-like
 * McMillan map evaluated on an 80 × 80 grid over [-1.5, 1.5]², its smallest
 * and largest value, and the contour spacing that splits that range into
 * `ncontours` levels.  The map parameter is a = −2·eps/gamma.
 */
module SextupoleMcMillan {
  import opened Wrappers
  import opened Series
  import opened Grids

  // ---------------------------------------------------------------------------
  // The invariants
  // ---------------------------------------------------------------------------

  /** The quadratic invariant p² − a·p·q + q². */
  function K0(p: real, q: real, a: real): real
  {
    p * p - a * p * q + q * q
  }

  /** The sextupole invariant: K0 plus p²·q + p·q². */
  function KSX(p: real, q: real, a: real): real
  {
    K0(p, q, a) + p * p * q + p * q * q
  }

  /** Both invariants are symmetric under p ↔ q. */
  lemma Symmetric(p: real, q: real, a: real)
    ensures K0(p, q, a) == K0(q, p, a)
    ensures KSX(p, q, a) == KSX(q, p, a)
  {
    assert a * p * q == a * q * p;
    assert p * p * q + p * q * q == q * q * p + q * p * p;
  }

  /** Both invariants vanish at the origin, the map's fixed point. */
  lemma VanishAtOrigin(a: real)
    ensures K0(0.0, 0.0, a) == 0.0 && KSX(0.0, 0.0, a) == 0.0
  {
  }

  /** The sextupole term is the cubic p·q·(p + q). */
  lemma CubicTerm(p: real, q: real, a: real)
    ensures KSX(p, q, a) == K0(p, q, a) + p * q * (p + q)
  {
    assert p * q * (p + q) == p * p * q + p * q * q;
  }

  /** On the anti-diagonal q = −p the cubic term cancels and K_SX = (2 + a)·p². */
  lemma AntiDiagonal(p: real, a: real)
    ensures KSX(p, -p, a) == K0(p, -p, a) == (2.0 + a) * (p * p)
  {
    CubicTerm(p, -p, a);
    assert p * -p * (p + -p) == 0.0;
    assert -a * p * -p == a * (p * p);
  }

  /**
   * For |a| <= 2 the quadratic invariant is positive semi-definite, so its level
   * sets near the origin are closed curves: K0 = (p − a·q/2)² + (1 − a²/4)·q².
   */
  lemma K0NonNegative(p: real, q: real, a: real)
    requires -2.0 <= a <= 2.0
    ensures K0(p, q, a) >= 0.0
  {
    var h := p - a * q / 2.0;
    var c := 1.0 - a * a / 4.0;
    assert K0(p, q, a) == h * h + c * (q * q) by {
      assert h * h == p * p - a * p * q + (a * a / 4.0) * (q * q);
    }
    assert c >= 0.0 by {
      NonNegativeProduct(2.0 - a, 2.0 + a, (2.0 - a) * (2.0 + a));
      assert (2.0 - a) * (2.0 + a) == 4.0 - a * a;
    }
    SquareNonNegative(h);
    SquareNonNegative(q);
    NonNegativeProduct(c, q * q, c * (q * q));
  }

  // ---------------------------------------------------------------------------
  // linspace and computeGrid
  // ---------------------------------------------------------------------------

  /** `min + step·i` with `step = (max − min)/(n − 1)` is the i-th uniform point. */
  lemma StepPoint(min: real, max: real, n: nat, i: nat)
    requires n >= 2
    ensures min + (max - min) / ((n - 1) as real) * (i as real) == UniformAt(min, max, n, i)
  {
    var k := (n - 1) as real;
    assert (max - min) / k * (i as real) == (max - min) * (i as real) / k;
  }

  /**
   * `linspace(min, max, n)`: n points with step (max − min)/(n − 1).  With n = 1
   * the step is a division by zero (the one point is NaN), so the model leaves
   * that count out; the page always asks for 80.
   */
  method Linspace(min: real, max: real, n: nat) returns (arr: array<real>)
    requires n != 1
    ensures fresh(arr) && arr.Length == n
    ensures n >= 2 ==> arr[..] == Uniform(min, max, n)
  {
    arr := new real[n];
    var step := (max - min) / ((n - 1) as real);
    for i := 0 to n
      invariant forall k :: 0 <= k < i ==> arr[k] == UniformAt(min, max, n, k)
    {
      arr[i] := min + step * (i as real);
      StepPoint(min, max, n, i);
    }
  }

  /**
   * `computeGrid(a, pMin, pMax, qMin, qMax, n)`: the two axes and the n × n table
   * Z[i][j] = K_SX(P[i], Q[j], a).  The source's array of rows is an `array2`.
   */
  method ComputeGrid(a: real, pMin: real, pMax: real, qMin: real, qMax: real, n: nat)
    returns (P: array<real>, Q: array<real>, Z: array2<real>)
    requires n != 1
    ensures fresh(P) && fresh(Q) && fresh(Z)
    ensures P.Length == n && Q.Length == n && Z.Length0 == n && Z.Length1 == n
    ensures n >= 2 ==> P[..] == Uniform(pMin, pMax, n) && Q[..] == Uniform(qMin, qMax, n)
    ensures forall i, j :: 0 <= i < n && 0 <= j < n ==> Z[i, j] == KSX(P[i], Q[j], a)
  {
    P := Linspace(pMin, pMax, n);
    Q := Linspace(qMin, qMax, n);
    Z := new real[n, n];
    for i := 0 to n
      modifies Z
      invariant forall i', j :: 0 <= i' < i && 0 <= j < n ==> Z[i', j] == KSX(P[i'], Q[j], a)
    {
      var p := P[i];
      for j := 0 to n
        modifies Z
        invariant forall i', j' :: 0 <= i' < i && 0 <= j' < n ==> Z[i', j'] == KSX(P[i'], Q[j'], a)
        invariant forall j' :: 0 <= j' < j ==> Z[i, j'] == KSX(P[i], Q[j'], a)
      {
        var q := Q[j];
        Z[i, j] := KSX(p, q, a);
      }
    }
  }

  // ---------------------------------------------------------------------------
  // The zmin / zmax scan and the contour spacing
  // ---------------------------------------------------------------------------

  /**
   * The double loop that starts from zmin = Infinity and zmax = −Infinity and
   * lowers / raises them cell by cell.  None stands for the untouched infinity:
   * it survives only when the table has no cell.  Otherwise both are values of
   * the table, zmin below every cell and zmax above.
   */
  method ZRange(Z: array2<real>) returns (zmin: Option<real>, zmax: Option<real>)
    ensures zmin.Some? <==> Z.Length0 > 0 && Z.Length1 > 0
    ensures zmax.Some? <==> zmin.Some?
    ensures zmin.Some? ==> forall i, j :: 0 <= i < Z.Length0 && 0 <= j < Z.Length1 ==> zmin.value <= Z[i, j] <= zmax.value
    ensures zmin.Some? ==> exists i, j :: 0 <= i < Z.Length0 && 0 <= j < Z.Length1 && Z[i, j] == zmin.value
    ensures zmax.Some? ==> exists i, j :: 0 <= i < Z.Length0 && 0 <= j < Z.Length1 && Z[i, j] == zmax.value
  {
    zmin, zmax := None, None;
    for i := 0 to Z.Length0
      invariant zmin.Some? <==> i > 0 && Z.Length1 > 0
      invariant zmax.Some? <==> zmin.Some?
      invariant zmin.Some? ==> forall i', j :: 0 <= i' < i && 0 <= j < Z.Length1 ==> zmin.value <= Z[i', j] <= zmax.value
      invariant zmin.Some? ==> exists i', j :: 0 <= i' < i && 0 <= j < Z.Length1 && Z[i', j] == zmin.value
      invariant zmax.Some? ==> exists i', j :: 0 <= i' < i && 0 <= j < Z.Length1 && Z[i', j] == zmax.value
    {
      for j := 0 to Z.Length1
        invariant zmin.Some? <==> (i > 0 && Z.Length1 > 0) || j > 0
        invariant zmax.Some? <==> zmin.Some?
        invariant zmin.Some? ==> forall i', j' :: 0 <= i' < i && 0 <= j' < Z.Length1 ==> zmin.value <= Z[i', j'] <= zmax.value
        invariant zmin.Some? ==> forall j' :: 0 <= j' < j ==> zmin.value <= Z[i, j'] <= zmax.value
        invariant zmin.Some? ==> exists i', j' :: 0 <= i' <= i && 0 <= j' < Z.Length1 && Z[i', j'] == zmin.value
        invariant zmax.Some? ==> exists i', j' :: 0 <= i' <= i && 0 <= j' < Z.Length1 && Z[i', j'] == zmax.value
      {
        var v := Z[i, j];
        if zmin.None? || v < zmin.value {
          zmin := Some(v);
        }
        if zmax.None? || v > zmax.value {
          zmax := Some(v);
        }
      }
    }
  }

  /** `a = −2·eps/gamma`; None stands for the infinity or NaN a zero gamma gives. */
  function MapParameter(gamma: real, eps: real): (a: Option<real>)
    ensures a.Some? <==> gamma != 0.0
    ensures a.Some? ==> a.value * gamma == -2.0 * eps
  {
    if gamma == 0.0 then None else Some(-2.0 * eps / gamma)
  }

  /**
   * `size = (zmax − zmin)/ncontours`: None for zero contours (a division by
   * zero).  The levels then split [zmin, zmax] into ncontours equal bands.
   */
  function ContourSize(zmin: real, zmax: real, ncontours: int): (size: Option<real>)
    ensures size.Some? <==> ncontours != 0
    ensures size.Some? ==> size.value * (ncontours as real) == zmax - zmin
    ensures size.Some? && ncontours > 0 && zmin <= zmax ==> size.value >= 0.0
  {
    if ncontours == 0 then None else Some((zmax - zmin) / (ncontours as real))
  }

  // ---------------------------------------------------------------------------
  // The page
  // ---------------------------------------------------------------------------

  /** `computeGrid(a, -1.5, 1.5, -1.5, 1.5, 80)`. */
  const Lo: real := -1.5
  const Hi: real := 1.5
  const GridSize: nat := 80

  /** What `updatePlot` draws: the contour plot of Z over (Q, P) from zmin to zmax. */
  datatype Contour = Contour(a: real, q: seq<real>, p: seq<real>, zmin: real, zmax: real, size: Option<real>)

  /**
   * `updatePlot` for the gamma, eps and ncontours inputs: a, the grid, its value
   * range and the contour spacing.  The grid has 80 × 80 cells, so the range is
   * always attained; the grid is symmetric because both axes are the same.
   */
  method UpdatePlot(gamma: real, eps: real, ncontours: int) returns (c: Contour, Z: array2<real>)
    requires gamma != 0.0
    ensures fresh(Z) && Z.Length0 == GridSize && Z.Length1 == GridSize
    ensures c.a == MapParameter(gamma, eps).value
    ensures c.p == Uniform(Lo, Hi, GridSize) && c.q == Uniform(Lo, Hi, GridSize)
    ensures forall i, j :: 0 <= i < GridSize && 0 <= j < GridSize ==> Z[i, j] == KSX(c.p[i], c.q[j], c.a)
    ensures forall i, j :: 0 <= i < GridSize && 0 <= j < GridSize ==> Z[i, j] == Z[j, i]
    ensures forall i, j :: 0 <= i < GridSize && 0 <= j < GridSize ==> c.zmin <= Z[i, j] <= c.zmax
    ensures exists i, j :: 0 <= i < GridSize && 0 <= j < GridSize && Z[i, j] == c.zmin
    ensures exists i, j :: 0 <= i < GridSize && 0 <= j < GridSize && Z[i, j] == c.zmax
    ensures c.size == ContourSize(c.zmin, c.zmax, ncontours)
  {
    var a := -2.0 * eps / gamma;
    var P, Q;
    P, Q, Z := ComputeGrid(a, Lo, Hi, Lo, Hi, GridSize);
    forall i, j | 0 <= i < GridSize && 0 <= j < GridSize
      ensures Z[i, j] == Z[j, i]
    {
      Symmetric(P[i], Q[j], a);
    }
    var zmin, zmax := ZRange(Z);
    var size := if ncontours == 0 then None else Some((zmax.value - zmin.value) / (ncontours as real));
    c := Contour(a, Q[..], P[..], zmin.value, zmax.value, size);
  }
}
