/**
 * Closed-form least-squares fit of a background plane z = a*x + b*y + c to
 * columns of samples. Each column is keyed by its absolute x; the sample
 * index along the column is its y. The nine running sums are accumulated
 * with arithmetic-series closed forms for the coordinate-only sums, and the
 * 3x3 normal equations are solved by Cramer's rule.
 */
module PlaneFit {

  /** Background plane z = a*x + b*y + c. */
  datatype Plane = Plane(a: real, b: real, c: real)

  const ZeroPlane := Plane(0.0, 0.0, 0.0)

  function Eval(p: Plane, x: real, y: real): real
  {
    p.a * x + p.b * y + p.c
  }

  /**
   * The running sums of fit_plane. Those built from coordinates only are
   * exact integers, those that involve a sample value are reals.
   */
  datatype Moments = Moments(
    n: int, sx: int, sy: int, sxx: int, syy: int, sxy: int,
    sz: real, sxz: real, syz: real)

  const Zero := Moments(0, 0, 0, 0, 0, 0, 0.0, 0.0, 0.0)

  function Add(m: Moments, k: Moments): Moments
  {
    Moments(m.n + k.n, m.sx + k.sx, m.sy + k.sy, m.sxx + k.sxx, m.syy + k.syy,
            m.sxy + k.sxy, m.sz + k.sz, m.sxz + k.sxz, m.syz + k.syz)
  }

  /** Contribution of one sample z at (x, y). */
  function PointMoments(x: int, y: int, z: real): Moments
  {
    Moments(1, x, y, x * x, y * y, x * y, z, x as real * z, y as real * z)
  }

  /** Reference definition: the sums of one column, taken point by point with y = 0, 1, .... */
  function ColumnMoments(x: int, zs: seq<real>): Moments
    decreases |zs|
  {
    if zs == [] then Zero
    else Add(ColumnMoments(x, zs[..|zs| - 1]), PointMoments(x, |zs| - 1, zs[|zs| - 1]))
  }

  lemma NonEmptyHasElement(s: set<int>)
    requires s != {}
    ensures exists x :: x in s
  {
    if forall x :: x !in s {
      assert false;
    }
  }

  /** The sums over the columns whose keys are in `keys`, in any order. */
  ghost function MapMoments(values: map<int, seq<real>>, keys: set<int>): Moments
    requires keys <= values.Keys
    decreases keys
  {
    if keys == {} then Zero
    else
      NonEmptyHasElement(keys);
      var x :| x in keys;
      Add(ColumnMoments(x, values[x]), MapMoments(values, keys - {x}))
  }

  /** The sums of all columns of the dictionary. */
  ghost function Statistics(values: map<int, seq<real>>): Moments
  {
    MapMoments(values, values.Keys)
  }

  /** Closed form of 0 + 1 + ... + (len - 1). */
  function TriangularSum(len: int): int
  {
    len * (len - 1) / 2
  }

  /** Closed form of 0^2 + 1^2 + ... + (len - 1)^2. */
  function SquareSum(len: int): int
  {
    (2 * len * len * len - 3 * len * len + len) / 6
  }

  // ---------------------------------------------------------------------------
  // The closed forms are exact

  lemma {:induction false} ColumnCounts(x: int, zs: seq<real>)
    ensures var m := ColumnMoments(x, zs);
      m.n == |zs| && m.sx == x * |zs| && m.sxx == x * x * |zs| && m.sxy == x * m.sy
    decreases |zs|
  {
    if zs != [] {
      var u := |zs| - 1;
      ColumnCounts(x, zs[..u]);
      var m := ColumnMoments(x, zs[..u]);
      assert x * m.sy + x * u == x * (m.sy + u);
      assert x * u + x == x * (u + 1);
      assert x * x * u + x * x == x * x * (u + 1);
    }
  }

  lemma {:induction false} ColumnTriangular(x: int, zs: seq<real>)
    ensures 2 * ColumnMoments(x, zs).sy == |zs| * (|zs| - 1)
    decreases |zs|
  {
    if zs != [] {
      var u := |zs| - 1;
      ColumnTriangular(x, zs[..u]);
      TriangularStep(u, |zs|, ColumnMoments(x, zs[..u]).sy);
    }
  }

  lemma TriangularStep(u: int, n: int, s: int)
    requires n == u + 1 && 2 * s == u * (u - 1)
    ensures 2 * (s + u) == n * (n - 1)
  {
  }

  lemma {:induction false} ColumnSquares(x: int, zs: seq<real>)
    ensures 6 * ColumnMoments(x, zs).syy == 2 * |zs| * |zs| * |zs| - 3 * |zs| * |zs| + |zs|
    decreases |zs|
  {
    if zs != [] {
      var u := |zs| - 1;
      ColumnSquares(x, zs[..u]);
      CubicStep(u, |zs|, ColumnMoments(x, zs[..u]).syy);
    }
  }

  lemma CubicStep(u: int, n: int, s: int)
    requires n == u + 1 && 6 * s == 2 * u * u * u - 3 * u * u + u
    ensures 6 * (s + u * u) == 2 * n * n * n - 3 * n * n + n
  {
  }

  /**
   * The per-column contributions fit_plane adds with closed forms equal the
   * point-by-point sums; in particular both integer divisions are exact.
   */
  lemma ClosedFormsExact(x: int, zs: seq<real>)
    ensures var m := ColumnMoments(x, zs);
      && m.n == |zs| && m.sx == x * |zs| && m.sxx == x * x * |zs|
      && m.sy == TriangularSum(|zs|) && m.syy == SquareSum(|zs|)
      && m.sxy == x * TriangularSum(|zs|)
  {
    ColumnCounts(x, zs);
    ColumnTriangular(x, zs);
    ColumnSquares(x, zs);
  }

  // ---------------------------------------------------------------------------
  // Order of the dictionary does not matter

  lemma {:induction false} MapMomentsRemove(values: map<int, seq<real>>, keys: set<int>, x: int)
    requires keys <= values.Keys && x in keys
    ensures MapMoments(values, keys) == Add(ColumnMoments(x, values[x]), MapMoments(values, keys - {x}))
    decreases keys
  {
    var y :| y in keys && MapMoments(values, keys) == Add(ColumnMoments(y, values[y]), MapMoments(values, keys - {y}));
    if y != x {
      var cx, cy := ColumnMoments(x, values[x]), ColumnMoments(y, values[y]);
      var rest := MapMoments(values, keys - {x} - {y});
      MapMomentsRemove(values, keys - {y}, x);
      MapMomentsRemove(values, keys - {x}, y);
      assert keys - {y} - {x} == keys - {x} - {y};
      assert MapMoments(values, keys) == Add(cy, Add(cx, rest));
      assert MapMoments(values, keys - {x}) == Add(cy, rest);
      AddSwap(cx, cy, rest);
    }
  }

  lemma AddSwap(p: Moments, q: Moments, r: Moments)
    ensures Add(q, Add(p, r)) == Add(p, Add(q, r))
  {
  }

  /** Adding one more column to the processed keys adds that column's sums. */
  lemma MapMomentsInsert(values: map<int, seq<real>>, keys: set<int>, x: int)
    requires keys <= values.Keys && x in values && x !in keys
    ensures MapMoments(values, keys + {x}) == Add(MapMoments(values, keys), ColumnMoments(x, values[x]))
  {
    MapMomentsRemove(values, keys + {x}, x);
    assert keys + {x} - {x} == keys;
  }

  // ---------------------------------------------------------------------------
  // Solving the normal equations

  /** Determinant of the normal matrix [[sxx, sxy, sx], [sxy, syy, sy], [sx, sy, n]]. */
  function Det(m: Moments): int
  {
    (m.n * m.sxx * m.syy) + (2 * m.sx * m.sxy * m.sy) - (m.sx * m.sx * m.syy)
      - (m.sy * m.sy * m.sxx) - (m.n * m.sxy * m.sxy)
  }

  /** The plane p solves the least-squares normal equations of the sums m. */
  ghost predicate NormalEquations(m: Moments, p: Plane)
  {
    NormalRows(m.sxx as real, m.sxy as real, m.sx as real, m.syy as real, m.sy as real, m.n as real,
               m.sxz, m.syz, m.sz, p)
  }

  /** p solves [[sxx, sxy, sx], [sxy, syy, sy], [sx, sy, n]] * (a, b, c) == (u, v, w). */
  ghost predicate NormalRows(sxx: real, sxy: real, sx: real, syy: real, sy: real, n: real,
                             u: real, v: real, w: real, p: Plane)
  {
    && sxx * p.a + sxy * p.b + sx * p.c == u
    && sxy * p.a + syy * p.b + sy * p.c == v
    && sx * p.a + sy * p.b + n * p.c == w
  }

  // Cofactors of the (symmetric) normal matrix, named as in fit_plane. The
  // source computes them as exact integers; here they are the same values
  // read as reals, since they only ever multiply the real sums.

  function Alpha1(m: Moments): real { (m.n as real * m.syy as real) - (m.sy as real * m.sy as real) }
  function Alpha2(m: Moments): real { (m.n as real * m.sxx as real) - (m.sx as real * m.sx as real) }
  function Alpha3(m: Moments): real { (m.sxx as real * m.syy as real) - (m.sxy as real * m.sxy as real) }
  function Beta1(m: Moments): real { (m.sx as real * m.sy as real) - (m.n as real * m.sxy as real) }
  function Beta2(m: Moments): real { (m.sx as real * m.sxy as real) - (m.sxx as real * m.sy as real) }
  function Gamma1(m: Moments): real { (m.sxy as real * m.sy as real) - (m.sx as real * m.syy as real) }

  /** The integer determinant, read as a real. */
  lemma DetAsReal(m: Moments)
    ensures var N, Sx, Sy, Sxx, Syy, Sxy := m.n as real, m.sx as real, m.sy as real, m.sxx as real, m.syy as real, m.sxy as real;
      Det(m) as real == N * Sxx * Syy + 2.0 * Sx * Sxy * Sy - Sx * Sx * Syy - Sy * Sy * Sxx - N * Sxy * Sxy
  {
  }

  /**
   * For the symmetric matrix [[sxx, sxy, sx], [sxy, syy, sy], [sx, sy, n]],
   * the adjugate [[a1, b1, g1], [b1, a2, b2], [g1, b2, a3]] times the
   * matrix is the determinant d times the identity.
   */
  lemma AdjugateOfSymmetric(n: real, sx: real, sy: real, sxx: real, syy: real, sxy: real,
                            a1: real, a2: real, a3: real, b1: real, b2: real, g1: real, d: real)
    requires a1 == n * syy - sy * sy && a2 == n * sxx - sx * sx && a3 == sxx * syy - sxy * sxy
    requires b1 == sx * sy - n * sxy && b2 == sx * sxy - sxx * sy && g1 == sxy * sy - sx * syy
    requires d == n * sxx * syy + 2.0 * sx * sxy * sy - sx * sx * syy - sy * sy * sxx - n * sxy * sxy
    ensures IsAdjugate(sxx, sxy, sx, syy, sy, n, a1, a2, a3, b1, b2, g1, d)
  {
  }

  /**
   * [[A1, B1, G1], [B1, A2, B2], [G1, B2, A3]] times the symmetric matrix
   * [[Sxx, Sxy, Sx], [Sxy, Syy, Sy], [Sx, Sy, N]] is d times the identity.
   */
  ghost predicate IsAdjugate(Sxx: real, Sxy: real, Sx: real, Syy: real, Sy: real, N: real,
                             A1: real, A2: real, A3: real, B1: real, B2: real, G1: real, d: real)
  {
    && A1 * Sxx + B1 * Sxy + G1 * Sx == d
    && A1 * Sxy + B1 * Syy + G1 * Sy == 0.0
    && A1 * Sx + B1 * Sy + G1 * N == 0.0
    && B1 * Sxx + A2 * Sxy + B2 * Sx == 0.0
    && B1 * Sxy + A2 * Syy + B2 * Sy == d
    && B1 * Sx + A2 * Sy + B2 * N == 0.0
    && G1 * Sxx + B2 * Sxy + A3 * Sx == 0.0
    && G1 * Sxy + B2 * Syy + A3 * Sy == 0.0
    && G1 * Sx + B2 * Sy + A3 * N == d
  }

  lemma InverseScales(d: real, r: real)
    requires d != 0.0
    ensures 1.0 / d * r == r / d
  {
  }

  /**
   * The plane fit_plane returns for the sums m: Cramer's rule when the
   * determinant is non-zero, the zero plane otherwise.
   */
  function Solve(m: Moments): (p: Plane)
    ensures Det(m) == 0 ==> p == ZeroPlane
    ensures Det(m) != 0 ==> NormalEquations(m, p)
  {
    if Det(m) == 0 then ZeroPlane
    else
      CramerSolves(m);
      Cramer(m)
  }

  /** Cramer's rule as fit_plane writes it: 1/det times the adjugate times the right-hand side. */
  function Cramer(m: Moments): Plane
    requires Det(m) != 0
  {
    ScaledAdjugate(Alpha1(m), Alpha2(m), Alpha3(m), Beta1(m), Beta2(m), Gamma1(m),
                   m.sxz, m.syz, m.sz, Det(m) as real)
  }

  /**
   * inv * [[a1, b1, g1], [b1, a2, b2], [g1, b2, a3]] * (u, v, w) with inv = 1/d,
   * the expressions fit_plane assigns to a, b and c.
   */
  function ScaledAdjugate(a1: real, a2: real, a3: real, b1: real, b2: real, g1: real,
                          u: real, v: real, w: real, d: real): Plane
    requires d != 0.0
  {
    var inv := 1.0 / d;
    Plane(inv * (a1 * u + b1 * v + g1 * w), inv * (b1 * u + a2 * v + b2 * w), inv * (g1 * u + b2 * v + a3 * w))
  }

  lemma CramerSolves(m: Moments)
    requires Det(m) != 0
    ensures NormalEquations(m, Cramer(m))
  {
    var d := Det(m) as real;
    var u, v, w := m.sxz, m.syz, m.sz;
    var A1, A2, A3, B1, B2, G1 := Alpha1(m), Alpha2(m), Alpha3(m), Beta1(m), Beta2(m), Gamma1(m);
    AdjugateIdentities(m);
    CramerRule(m.sxx as real, m.sxy as real, m.sx as real, m.syy as real, m.sy as real, m.n as real,
               A1, A2, A3, B1, B2, G1, u, v, w, d);
  }

  /** The adjugate identities for the cofactors of m. */
  lemma AdjugateIdentities(m: Moments)
    ensures IsAdjugate(m.sxx as real, m.sxy as real, m.sx as real, m.syy as real, m.sy as real, m.n as real,
                       Alpha1(m), Alpha2(m), Alpha3(m), Beta1(m), Beta2(m), Gamma1(m), Det(m) as real)
  {
    DetAsReal(m);
    AdjugateOfSymmetric(m.n as real, m.sx as real, m.sy as real, m.sxx as real, m.syy as real, m.sxy as real,
                        Alpha1(m), Alpha2(m), Alpha3(m), Beta1(m), Beta2(m), Gamma1(m), Det(m) as real);
  }

  lemma CramerRule(Sxx: real, Sxy: real, Sx: real, Syy: real, Sy: real, N: real,
                   A1: real, A2: real, A3: real, B1: real, B2: real, G1: real,
                   u: real, v: real, w: real, d: real)
    requires d != 0.0
    requires IsAdjugate(Sxx, Sxy, Sx, Syy, Sy, N, A1, A2, A3, B1, B2, G1, d)
    ensures NormalRows(Sxx, Sxy, Sx, Syy, Sy, N, u, v, w, ScaledAdjugate(A1, A2, A3, B1, B2, G1, u, v, w, d))
  {
    InverseScales(d, A1 * u + B1 * v + G1 * w);
    InverseScales(d, B1 * u + A2 * v + B2 * w);
    InverseScales(d, G1 * u + B2 * v + A3 * w);
    var ra, rb, rc := A1 * u + B1 * v + G1 * w, B1 * u + A2 * v + B2 * w, G1 * u + B2 * v + A3 * w;
    RowSolved(Sxx, Sxy, Sx, A1, B1, G1, A2, B2, A3, u, v, w, ra, rb, rc, d, u);
    RowSolved(Sxy, Syy, Sy, A1, B1, G1, A2, B2, A3, u, v, w, ra, rb, rc, d, v);
    RowSolved(Sx, Sy, N, A1, B1, G1, A2, B2, A3, u, v, w, ra, rb, rc, d, w);
  }

  /**
   * One normal equation: the row (s1, s2, s3) times the Cramer solution is
   * the right-hand side entry r, given the matching adjugate identity.
   */
  lemma RowSolved(s1: real, s2: real, s3: real, a1: real, b1: real, g1: real,
                  a2: real, b2: real, a3: real, u: real, v: real, w: real,
                  ra: real, rb: real, rc: real, d: real, r: real)
    requires d != 0.0
    requires ra == a1 * u + b1 * v + g1 * w && rb == b1 * u + a2 * v + b2 * w && rc == g1 * u + b2 * v + a3 * w
    requires var e1, e2, e3 := a1 * s1 + b1 * s2 + g1 * s3, b1 * s1 + a2 * s2 + b2 * s3, g1 * s1 + b2 * s2 + a3 * s3;
      || (r == u && e1 == d && e2 == 0.0 && e3 == 0.0)
      || (r == v && e1 == 0.0 && e2 == d && e3 == 0.0)
      || (r == w && e1 == 0.0 && e2 == 0.0 && e3 == d)
    ensures s1 * (ra / d) + s2 * (rb / d) + s3 * (rc / d) == r
  {
    var e1, e2, e3 := a1 * s1 + b1 * s2 + g1 * s3, b1 * s1 + a2 * s2 + b2 * s3, g1 * s1 + b2 * s2 + a3 * s3;
    Regroup(s1, s2, s3, a1, b1, g1, a2, b2, a3, u, v, w, ra, rb, rc, e1, e2, e3);
    SolveRow(s1, s2, s3, ra, rb, rc, e1, e2, e3, u, v, w, d, r);
  }

  /**
   * One normal equation: the row (s1, s2, s3) times the Cramer solution
   * (ra, rb, rc) / d is the right-hand side entry r, once the row times the
   * adjugate has been regrouped as u * e1 + v * e2 + w * e3 and the matching
   * adjugate identity leaves only r * d.
   */
  lemma SolveRow(s1: real, s2: real, s3: real, ra: real, rb: real, rc: real,
                 e1: real, e2: real, e3: real, u: real, v: real, w: real, d: real, r: real)
    requires d != 0.0
    requires s1 * ra + s2 * rb + s3 * rc == u * e1 + v * e2 + w * e3
    requires || (r == u && e1 == d && e2 == 0.0 && e3 == 0.0)
             || (r == v && e1 == 0.0 && e2 == d && e3 == 0.0)
             || (r == w && e1 == 0.0 && e2 == 0.0 && e3 == d)
    ensures s1 * (ra / d) + s2 * (rb / d) + s3 * (rc / d) == r
  {
    Combine(u, v, w, e1, e2, e3, d, r);
    DivideRow(s1, s2, s3, ra, rb, rc, d, r);
  }

  /** Row times (adjugate times right-hand side), regrouped by right-hand side entry. */
  lemma Regroup(s1: real, s2: real, s3: real, a1: real, b1: real, g1: real,
                a2: real, b2: real, a3: real, u: real, v: real, w: real,
                ra: real, rb: real, rc: real, e1: real, e2: real, e3: real)
    requires ra == a1 * u + b1 * v + g1 * w && rb == b1 * u + a2 * v + b2 * w && rc == g1 * u + b2 * v + a3 * w
    requires e1 == a1 * s1 + b1 * s2 + g1 * s3 && e2 == b1 * s1 + a2 * s2 + b2 * s3 && e3 == g1 * s1 + b2 * s2 + a3 * s3
    ensures s1 * ra + s2 * rb + s3 * rc == u * e1 + v * e2 + w * e3
  {
  }

  /** Only the entry of the matching right-hand side survives the regrouping. */
  lemma Combine(u: real, v: real, w: real, e1: real, e2: real, e3: real, d: real, r: real)
    requires (r == u && e1 == d && e2 == 0.0 && e3 == 0.0)
          || (r == v && e1 == 0.0 && e2 == d && e3 == 0.0)
          || (r == w && e1 == 0.0 && e2 == 0.0 && e3 == d)
    ensures u * e1 + v * e2 + w * e3 == r * d
  {
  }

  lemma DivideRow(s1: real, s2: real, s3: real, ra: real, rb: real, rc: real, d: real, r: real)
    requires d != 0.0 && s1 * ra + s2 * rb + s3 * rc == r * d
    ensures s1 * (ra / d) + s2 * (rb / d) + s3 * (rc / d) == r
  {
    assert s1 * (ra / d) + s2 * (rb / d) + s3 * (rc / d) == (s1 * ra + s2 * rb + s3 * rc) / d;
  }

  // ---------------------------------------------------------------------------
  // The solution is unique

  /**
   * Row (s1, s2, s3) of the adjugate applied to M * (qa, qb, qc) gives d times
   * the matching coordinate of q, so scaling by 1/d recovers it.
   */
  lemma RecoverRow(s1: real, s2: real, s3: real,
                   Sxx: real, Sxy: real, Sx: real, Syy: real, Sy: real, N: real,
                   qa: real, qb: real, qc: real, ra: real, rb: real, rc: real, d: real, r: real)
    requires d != 0.0
    requires ra == Sxx * qa + Sxy * qb + Sx * qc && rb == Sxy * qa + Syy * qb + Sy * qc && rc == Sx * qa + Sy * qb + N * qc
    requires var e1, e2, e3 := s1 * Sxx + s2 * Sxy + s3 * Sx, s1 * Sxy + s2 * Syy + s3 * Sy, s1 * Sx + s2 * Sy + s3 * N;
      || (r == qa && e1 == d && e2 == 0.0 && e3 == 0.0)
      || (r == qb && e1 == 0.0 && e2 == d && e3 == 0.0)
      || (r == qc && e1 == 0.0 && e2 == 0.0 && e3 == d)
    ensures 1.0 / d * (s1 * ra + s2 * rb + s3 * rc) == r
  {
    var e1, e2, e3 := Sxx * s1 + Sxy * s2 + Sx * s3, Sxy * s1 + Syy * s2 + Sy * s3, Sx * s1 + Sy * s2 + N * s3;
    Commute(s1, s2, s3, Sxx, Sxy, Sx);
    Commute(s1, s2, s3, Sxy, Syy, Sy);
    Commute(s1, s2, s3, Sx, Sy, N);
    Regroup(s1, s2, s3, Sxx, Sxy, Sx, Syy, Sy, N, qa, qb, qc, ra, rb, rc, e1, e2, e3);
    RecoverStep(s1, s2, s3, ra, rb, rc, e1, e2, e3, qa, qb, qc, d, r);
  }

  /** The regrouped row leaves only d times the matching coordinate; 1/d undoes it. */
  lemma RecoverStep(s1: real, s2: real, s3: real, ra: real, rb: real, rc: real,
                    e1: real, e2: real, e3: real, qa: real, qb: real, qc: real, d: real, r: real)
    requires d != 0.0
    requires s1 * ra + s2 * rb + s3 * rc == qa * e1 + qb * e2 + qc * e3
    requires || (r == qa && e1 == d && e2 == 0.0 && e3 == 0.0)
             || (r == qb && e1 == 0.0 && e2 == d && e3 == 0.0)
             || (r == qc && e1 == 0.0 && e2 == 0.0 && e3 == d)
    ensures 1.0 / d * (s1 * ra + s2 * rb + s3 * rc) == r
  {
    Combine(qa, qb, qc, e1, e2, e3, d, r);
    ScaleBack(d, s1 * ra + s2 * rb + s3 * rc, r);
  }

  lemma Commute(x1: real, x2: real, x3: real, y1: real, y2: real, y3: real)
    ensures x1 * y1 + x2 * y2 + x3 * y3 == y1 * x1 + y2 * x2 + y3 * x3
  {
  }

  lemma ScaleBack(d: real, x: real, r: real)
    requires d != 0.0 && x == r * d
    ensures 1.0 / d * x == r
  {
  }

  /** The scaled adjugate undoes the normal matrix. */
  lemma AdjugateInverts(Sxx: real, Sxy: real, Sx: real, Syy: real, Sy: real, N: real,
                        A1: real, A2: real, A3: real, B1: real, B2: real, G1: real,
                        u: real, v: real, w: real, q: Plane, d: real)
    requires d != 0.0
    requires IsAdjugate(Sxx, Sxy, Sx, Syy, Sy, N, A1, A2, A3, B1, B2, G1, d)
    requires NormalRows(Sxx, Sxy, Sx, Syy, Sy, N, u, v, w, q)
    ensures ScaledAdjugate(A1, A2, A3, B1, B2, G1, u, v, w, d) == q
  {
    RecoverRow(A1, B1, G1, Sxx, Sxy, Sx, Syy, Sy, N, q.a, q.b, q.c, u, v, w, d, q.a);
    RecoverRow(B1, A2, B2, Sxx, Sxy, Sx, Syy, Sy, N, q.a, q.b, q.c, u, v, w, d, q.b);
    RecoverRow(G1, B2, A3, Sxx, Sxy, Sx, Syy, Sy, N, q.a, q.b, q.c, u, v, w, d, q.c);
  }

  lemma SolveIsScaledAdjugate(m: Moments)
    requires Det(m) != 0
    ensures Solve(m) == ScaledAdjugate(Alpha1(m), Alpha2(m), Alpha3(m), Beta1(m), Beta2(m), Gamma1(m),
                                       m.sxz, m.syz, m.sz, Det(m) as real)
  {
  }

  /**
   * When the determinant is non-zero, the plane fit_plane returns is the only
   * solution of the normal equations.
   */
  lemma SolveUnique(m: Moments, q: Plane)
    requires Det(m) != 0 && NormalEquations(m, q)
    ensures Solve(m) == q
  {
    var Sxx, Sxy, Sx, Syy, Sy, N := m.sxx as real, m.sxy as real, m.sx as real, m.syy as real, m.sy as real, m.n as real;
    var A1, A2, A3, B1, B2, G1 := Alpha1(m), Alpha2(m), Alpha3(m), Beta1(m), Beta2(m), Gamma1(m);
    var d := Det(m) as real;
    SolveIsScaledAdjugate(m);
    AdjugateIdentities(m);
    AdjugateInverts(Sxx, Sxy, Sx, Syy, Sy, N, A1, A2, A3, B1, B2, G1, m.sxz, m.syz, m.sz, q, d);
  }

  // ---------------------------------------------------------------------------
  // Samples that lie on a plane

  /** Every sample of every column lies on q, with y the index in its column. */
  ghost predicate OnPlane(values: map<int, seq<real>>, q: Plane)
  {
    forall x, j :: x in values && 0 <= j < |values[x]| ==> values[x][j] == Eval(q, x as real, j as real)
  }

  /** The normal equations are linear in the sums. */
  lemma NormalEquationsAdd(m: Moments, k: Moments, q: Plane)
    requires NormalEquations(m, q) && NormalEquations(k, q)
    ensures NormalEquations(Add(m, k), q)
  {
    var s := Add(m, k);
    assert s.sxx as real * q.a == m.sxx as real * q.a + k.sxx as real * q.a;
    assert s.sxy as real * q.a == m.sxy as real * q.a + k.sxy as real * q.a;
    assert s.sx as real * q.a == m.sx as real * q.a + k.sx as real * q.a;
    assert s.sxy as real * q.b == m.sxy as real * q.b + k.sxy as real * q.b;
    assert s.syy as real * q.b == m.syy as real * q.b + k.syy as real * q.b;
    assert s.sy as real * q.b == m.sy as real * q.b + k.sy as real * q.b;
    assert s.sx as real * q.c == m.sx as real * q.c + k.sx as real * q.c;
    assert s.sy as real * q.c == m.sy as real * q.c + k.sy as real * q.c;
    assert s.n as real * q.c == m.n as real * q.c + k.n as real * q.c;
  }

  /** A single sample on q satisfies the normal equations of q. */
  lemma PointOnPlane(x: int, y: int, q: Plane)
    ensures NormalEquations(PointMoments(x, y, Eval(q, x as real, y as real)), q)
  {
    var X, Y := x as real, y as real;
    assert X * (q.a * X + q.b * Y + q.c) == X * X * q.a + X * Y * q.b + X * q.c;
    assert Y * (q.a * X + q.b * Y + q.c) == X * Y * q.a + Y * Y * q.b + Y * q.c;
  }

  lemma {:induction false} ColumnOnPlane(x: int, zs: seq<real>, q: Plane)
    requires forall j :: 0 <= j < |zs| ==> zs[j] == Eval(q, x as real, j as real)
    ensures NormalEquations(ColumnMoments(x, zs), q)
    decreases |zs|
  {
    if zs != [] {
      var u := |zs| - 1;
      ColumnOnPlane(x, zs[..u], q);
      PointOnPlane(x, u, q);
      NormalEquationsAdd(ColumnMoments(x, zs[..u]), PointMoments(x, u, zs[u]), q);
    }
  }

  lemma {:induction false} MapOnPlane(values: map<int, seq<real>>, keys: set<int>, q: Plane)
    requires keys <= values.Keys && OnPlane(values, q)
    ensures NormalEquations(MapMoments(values, keys), q)
    decreases keys
  {
    if keys != {} {
      NonEmptyHasElement(keys);
      var x :| x in keys;
      MapMomentsRemove(values, keys, x);
      MapOnPlane(values, keys - {x}, q);
      ColumnOnPlane(x, values[x], q);
      NormalEquationsAdd(ColumnMoments(x, values[x]), MapMoments(values, keys - {x}), q);
    }
  }

  /**
   * When every sample lies exactly on a plane q and the columns are not
   * degenerate, fit_plane gives back q.
   */
  lemma ExactPlaneRecovered(values: map<int, seq<real>>, q: Plane)
    requires OnPlane(values, q) && Det(Statistics(values)) != 0
    ensures Solve(Statistics(values)) == q
  {
    MapOnPlane(values, values.Keys, q);
    SolveUnique(Statistics(values), q);
  }

  // ---------------------------------------------------------------------------
  // Degenerate inputs

  /** All samples of one column share x, so the normal matrix is singular. */
  lemma SingleColumnDet(len: int, x: int, sy: int, syy: int, sz: real, sxz: real, syz: real)
    ensures Det(Moments(len, x * len, sy, x * x * len, syy, x * sy, sz, sxz, syz)) == 0
  {
  }

  /** The samples of one column all share x, so its normal matrix is singular. */
  lemma ColumnIsSingular(x: int, zs: seq<real>)
    ensures Det(ColumnMoments(x, zs)) == 0
  {
    var c := ColumnMoments(x, zs);
    ColumnCounts(x, zs);
    assert c == Moments(c.n, x * c.n, c.sy, x * x * c.n, c.syy, x * c.sy, c.sz, c.sxz, c.syz);
    SingleColumnDet(c.n, x, c.sy, c.syy, c.sz, c.sxz, c.syz);
  }

  /**
   * With at most one column (in particular with no column at all) the
   * determinant is zero and fit_plane returns the zero plane.
   */
  lemma AtMostOneColumnIsFlat(values: map<int, seq<real>>)
    requires |values.Keys| <= 1
    ensures Det(Statistics(values)) == 0
    ensures Solve(Statistics(values)) == ZeroPlane
  {
    if values.Keys != {} {
      NonEmptyHasElement(values.Keys);
      var x :| x in values.Keys;
      OneColumnStatistics(values, x);
      ColumnIsSingular(x, values[x]);
    }
  }

  lemma OneColumnStatistics(values: map<int, seq<real>>, x: int)
    requires |values.Keys| <= 1 && x in values
    ensures Statistics(values) == ColumnMoments(x, values[x])
  {
    assert values.Keys - {x} == {} by {
      assert |values.Keys - {x}| == |values.Keys| - 1;
    }
    MapMomentsRemove(values, values.Keys, x);
    AddZero(ColumnMoments(x, values[x]));
  }

  lemma AddZero(m: Moments)
    ensures Add(m, Zero) == m
  {
  }

  // ---------------------------------------------------------------------------
  // fit_plane

  /**
   * Extending a column by its next sample adds that point's terms to the sums
   * the inner loop keeps: Σz, Σxy, Σxz and Σyz.
   */
  lemma ColumnStep(x: int, zs: seq<real>, y: int, z: real)
    requires 0 <= y < |zs| && z == zs[y]
    ensures var c, c' := ColumnMoments(x, zs[..y]), ColumnMoments(x, zs[..y + 1]);
      && c'.sz == c.sz + z && c'.sxy == c.sxy + x * y
      && c'.sxz == c.sxz + x as real * z && c'.syz == c.syz + y as real * z
  {
    var s := zs[..y + 1];
    assert |s| - 1 == y && s[..|s| - 1] == zs[..y] && s[|s| - 1] == z;
    PointStep(ColumnMoments(x, zs[..y]), ColumnMoments(x, s), x, y, z);
  }

  /** The inner-loop sums of c' are those of c plus the terms of one point. */
  lemma PointStep(c: Moments, c': Moments, x: int, y: int, z: real)
    requires c' == Add(c, PointMoments(x, y, z))
    ensures && c'.sz == c.sz + z && c'.sxy == c.sxy + x * y
            && c'.sxz == c.sxz + x as real * z && c'.syz == c.syz + y as real * z
  {
  }

  /**
   * The four per-column increments fit_plane computes without visiting the
   * samples: x*len, x^2*len and the two arithmetic-series closed forms. They
   * equal the sums taken point by point.
   */
  method ClosedFormTerms(x: int, zList: seq<real>) returns (dX: int, dXX: int, dY: int, dYY: int)
    ensures var c := ColumnMoments(x, zList);
      dX == c.sx && dXX == c.sxx && dY == c.sy && dYY == c.syy
  {
    var len := |zList|;
    dX := x * len;
    dXX := x * x * len;
    dY := len * (len - 1) / 2;
    dYY := (2 * len * len * len - 3 * len * len + len) / 6;
    ClosedFormsExact(x, zList);
  }

  /** Moving key x from the to-do set to the done set keeps the two a partition of the keys. */
  lemma MoveKey(keys: set<int>, done: set<int>, todo: set<int>, x: int)
    requires done + todo == keys && done !! todo && x in todo
    ensures (done + {x}) + (todo - {x}) == keys && (done + {x}) !! (todo - {x})
  {
  }

  /**
   * One pass of fit_plane's outer loop: the closed-form coordinate sums of
   * column x, then the inner loop over its samples with y counting from 0.
   */
  method AddColumn(acc: Moments, x: int, zList: seq<real>) returns (r: Moments)
    ensures r == Add(acc, ColumnMoments(x, zList))
  {
    var len := |zList|;
    var dX, dXX, dY, dYY := ClosedFormTerms(x, zList);
    var sumX, sumXX, sumY, sumYY := acc.sx + dX, acc.sxx + dXX, acc.sy + dY, acc.syy + dYY;
    var n := acc.n + len;
    var sumZ, sumXY, sumXZ, sumYZ := acc.sz, acc.sxy, acc.sxz, acc.syz;
    for y := 0 to len
      invariant var c := ColumnMoments(x, zList[..y]);
        && sumZ == acc.sz + c.sz && sumXY == acc.sxy + c.sxy
        && sumXZ == acc.sxz + c.sxz && sumYZ == acc.syz + c.syz
    {
      var z := zList[y];
      ColumnStep(x, zList, y, z);
      sumZ := sumZ + z;
      sumXY := sumXY + x * y;
      sumXZ := sumXZ + x as real * z;
      sumYZ := sumYZ + y as real * z;
    }
    assert zList[..len] == zList;
    ColumnCounts(x, zList);
    r := Moments(n, sumX, sumY, sumXX, sumYY, sumXY, sumZ, sumXZ, sumYZ);
  }

  /**
   * fit_plane's outer loop: accumulates the nine sums column by column, in
   * whatever order the dictionary yields its keys.
   */
  method Accumulate(values: map<int, seq<real>>) returns (stats: Moments)
    ensures stats == Statistics(values)
  {
    stats := Zero;
    var todo := values.Keys;
    ghost var done: set<int> := {};
    while todo != {}
      invariant done + todo == values.Keys && done !! todo
      invariant stats == MapMoments(values, done)
      decreases todo
    {
      NonEmptyHasElement(todo);
      var x :| x in todo;
      stats := AddColumn(stats, x, values[x]);
      MapMomentsInsert(values, done, x);
      MoveKey(values.Keys, done, todo, x);
      done := done + {x};
      todo := todo - {x};
    }
    assert done == values.Keys;
  }

  /**
   * fit_plane: the sums of all samples, then Cramer's rule on the normal
   * equations, or (0, 0, 0) when their determinant is zero.
   */
  method FitPlane(values: map<int, seq<real>>) returns (p: Plane)
    ensures p == Solve(Statistics(values))
    ensures Det(Statistics(values)) != 0 ==> NormalEquations(Statistics(values), p)
    ensures Det(Statistics(values)) == 0 ==> p == ZeroPlane
  {
    var stats := Accumulate(values);
    var det := Det(stats);
    if det == 0 {
      p := ZeroPlane;
    } else {
      p := Cramer(stats);
    }
  }
}
