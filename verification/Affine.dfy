/** Vectors, 4x4 matrices and local transforms of the geometry-program frame.

    An angle carries its cosine and sine, so the arithmetic below is exact over
    the reals and needs nothing of trigonometry but c*c + s*s == 1.
 */
module Affine {

  datatype Vec3 = Vec3(x: real, y: real, z: real)

  datatype Angle = Angle(deg: real, c: real, s: real) {
    predicate Unit() {
      && c * c + s * s == 1.0
      && (deg == 0.0 ==> c == 1.0 && s == 0.0)
    }
  }

  datatype Transform = Transform(translation: Vec3, rx: Angle, ry: Angle, rz: Angle, scale: Vec3)

  datatype Row = Row(a: real, b: real, c: real, d: real)

  datatype Matrix = Matrix(r0: Row, r1: Row, r2: Row, r3: Row)

  const ZERO := Vec3(0.0, 0.0, 0.0)
  const ZERO_ANGLE := Angle(0.0, 1.0, 0.0)
  const IDENTITY := Transform(ZERO, ZERO_ANGLE, ZERO_ANGLE, ZERO_ANGLE, Vec3(1.0, 1.0, 1.0))
  const LAST_ROW := Row(0.0, 0.0, 0.0, 1.0)

  function Add(p: Vec3, q: Vec3): Vec3 { Vec3(p.x + q.x, p.y + q.y, p.z + q.z) }

  function Subtract(p: Vec3, q: Vec3): Vec3 { Vec3(p.x - q.x, p.y - q.y, p.z - q.z) }

  function Times(k: real, p: Vec3): Vec3 { Vec3(k * p.x, k * p.y, k * p.z) }

  function Dot(p: Vec3, q: Vec3): real { p.x * q.x + p.y * q.y + p.z * q.z }

  function Cross(p: Vec3, q: Vec3): Vec3 {
    Vec3(p.y * q.z - p.z * q.y, p.z * q.x - p.x * q.z, p.x * q.y - p.y * q.x)
  }

  function Abs(x: real): real { if x < 0.0 then -x else x }

  // ----- matrices, as the contract computes them

  function RowDot(r: Row, p: Vec3): real { r.a * p.x + r.b * p.y + r.c * p.z + r.d * 1.0 }

  function TransformPoint(m: Matrix, p: Vec3): Vec3 {
    Vec3(RowDot(m.r0, p), RowDot(m.r1, p), RowDot(m.r2, p))
  }

  function RowTimes(r: Row, m: Matrix): Row {
    Row(r.a * m.r0.a + r.b * m.r1.a + r.c * m.r2.a + r.d * m.r3.a,
        r.a * m.r0.b + r.b * m.r1.b + r.c * m.r2.b + r.d * m.r3.b,
        r.a * m.r0.c + r.b * m.r1.c + r.c * m.r2.c + r.d * m.r3.c,
        r.a * m.r0.d + r.b * m.r1.d + r.c * m.r2.d + r.d * m.r3.d)
  }

  function MatrixMultiply(m: Matrix, n: Matrix): Matrix {
    Matrix(RowTimes(m.r0, n), RowTimes(m.r1, n), RowTimes(m.r2, n), RowTimes(m.r3, n))
  }

  function TransformMatrix(t: Transform): Matrix {
    var cx, sx, cy, sy, cz, sz := t.rx.c, t.rx.s, t.ry.c, t.ry.s, t.rz.c, t.rz.s;
    Matrix(
      Row((cz * cy) * t.scale.x, (cz * sy * sx - sz * cx) * t.scale.y,
          (cz * sy * cx + sz * sx) * t.scale.z, t.translation.x),
      Row((sz * cy) * t.scale.x, (sz * sy * sx + cz * cx) * t.scale.y,
          (sz * sy * cx - cz * sx) * t.scale.z, t.translation.y),
      Row((-sy) * t.scale.x, (cy * sx) * t.scale.y, (cy * cx) * t.scale.z, t.translation.z),
      LAST_ROW)
  }

  predicate IsAffine(m: Matrix) { m.r3 == LAST_ROW }

  // ----- the same transform as Blender applies it: scale, then X, Y and Z rotations, then shift

  function Stretch(k: Vec3, p: Vec3): Vec3 { Vec3(k.x * p.x, k.y * p.y, k.z * p.z) }

  function RotateX(r: Angle, p: Vec3): Vec3 { Vec3(p.x, r.c * p.y - r.s * p.z, r.s * p.y + r.c * p.z) }

  function RotateY(r: Angle, p: Vec3): Vec3 { Vec3(r.c * p.x + r.s * p.z, p.y, r.c * p.z - r.s * p.x) }

  function RotateZ(r: Angle, p: Vec3): Vec3 { Vec3(r.c * p.x - r.s * p.y, r.s * p.x + r.c * p.y, p.z) }

  function Rotate(t: Transform, p: Vec3): Vec3 { RotateZ(t.rz, RotateY(t.ry, RotateX(t.rx, p))) }

  function ApplyTransform(t: Transform, p: Vec3): Vec3 {
    Add(t.translation, Rotate(t, Stretch(t.scale, p)))
  }

  /** The contract's closed-form matrix is the XYZ Euler order the worker asks Blender for. */
  lemma MatrixIsEulerOrder(t: Transform, p: Vec3)
    ensures IsAffine(TransformMatrix(t))
    ensures TransformPoint(TransformMatrix(t), p) == ApplyTransform(t, p)
  {
    FirstRow(t, p);
    SecondRow(t, p);
    ThirdRow(t, p);
  }

  lemma FirstRow(t: Transform, p: Vec3)
    ensures RowDot(TransformMatrix(t).r0, p) == ApplyTransform(t, p).x
  {
    var cx, sx, cy, sy, cz, sz := t.rx.c, t.rx.s, t.ry.c, t.ry.s, t.rz.c, t.rz.s;
    var q := Stretch(t.scale, p);
    var u := RotateX(t.rx, q);
    EulerRow(cz, -sz, t.ry, t.rx, p, q, u, RotateY(t.ry, u), t.scale,
             cz * cy, cz * sy * sx - sz * cx, cz * sy * cx + sz * sx, TransformMatrix(t).r0);
  }

  lemma SecondRow(t: Transform, p: Vec3)
    ensures RowDot(TransformMatrix(t).r1, p) == ApplyTransform(t, p).y
  {
    var cx, sx, cy, sy, cz, sz := t.rx.c, t.rx.s, t.ry.c, t.ry.s, t.rz.c, t.rz.s;
    var q := Stretch(t.scale, p);
    var u := RotateX(t.rx, q);
    EulerRow(sz, cz, t.ry, t.rx, p, q, u, RotateY(t.ry, u), t.scale,
             sz * cy, sz * sy * sx + cz * cx, sz * sy * cx - cz * sx, TransformMatrix(t).r1);
  }

  lemma ThirdRow(t: Transform, p: Vec3)
    ensures RowDot(TransformMatrix(t).r2, p) == ApplyTransform(t, p).z
  {
    var cx, sx, cy, sy := t.rx.c, t.rx.s, t.ry.c, t.ry.s;
    var q := Stretch(t.scale, p);
    var u := RotateX(t.rx, q);
    ScaledRow(TransformMatrix(t).r2, -sy, cy * sx, cy * cx, t.scale, p, q);
    RotatedLastRow(cy, sy, cx, sx, q.x, q.y, q.z, u.x, u.z);
  }

  lemma RotatedLastRow(cy: real, sy: real, cx: real, sx: real, x: real, y: real, z: real, ux: real, uz: real)
    requires ux == x && uz == sx * y + cx * z
    ensures (-sy) * x + (cy * sx) * y + (cy * cx) * z == cy * uz - sy * ux
  {
    EqualProducts(cy, uz, cy, sx * y + cx * z);
    EqualProducts(sy, ux, sy, x);
  }

  /** One of the first two rows, whose coefficients in the rotated coordinates are f and g;
      a, b and c are its entries before scaling. */
  lemma EulerRow(f: real, g: real, ry: Angle, rx: Angle, p: Vec3, q: Vec3, u: Vec3, v: Vec3, k: Vec3,
                 a: real, b: real, c: real, row: Row)
    requires q == Stretch(k, p) && u == RotateX(rx, q) && v == RotateY(ry, u)
    requires a == f * ry.c && b == f * ry.s * rx.s + g * rx.c && c == f * ry.s * rx.c - g * rx.s
    requires row.a == a * k.x && row.b == b * k.y && row.c == c * k.z
    ensures RowDot(row, p) == f * v.x + g * v.y + row.d
  {
    ScaledRow(row, a, b, c, k, p, q);
    RotatedRow(f, g, ry.c, ry.s, rx.c, rx.s, q.x, q.y, q.z, a, b, c, u.y, u.z, v.x, v.y);
  }

  lemma ScaledRow(row: Row, a: real, b: real, c: real, k: Vec3, p: Vec3, q: Vec3)
    requires q == Stretch(k, p)
    requires row.a == a * k.x && row.b == b * k.y && row.c == c * k.z
    ensures RowDot(row, p) == a * q.x + b * q.y + c * q.z + row.d
  {
    Associate(a, k.x, p.x, row.a, q.x);
    Associate(b, k.y, p.y, row.b, q.y);
    Associate(c, k.z, p.z, row.c, q.z);
  }

  lemma Associate(a: real, k: real, p: real, ak: real, kp: real)
    requires ak == a * k && kp == k * p
    ensures ak * p == a * kp
  {
    EqualProducts(ak, p, a * k, p);
    EqualProducts(a, kp, a, k * p);
  }

  lemma RotatedRow(f: real, g: real, cy: real, sy: real, cx: real, sx: real, x: real, y: real, z: real,
                   a: real, b: real, c: real, uy: real, uz: real, vx: real, vy: real)
    requires a == f * cy && b == f * sy * sx + g * cx && c == f * sy * cx - g * sx
    requires uy == cx * y - sx * z && uz == sx * y + cx * z
    requires vx == cy * x + sy * uz && vy == uy
    ensures a * x + b * y + c * z == f * vx + g * vy
  {
    EqualProducts(a, x, f * cy, x);
    EqualProducts(b, y, f * sy * sx + g * cx, y);
    EqualProducts(c, z, f * sy * cx - g * sx, z);
    EqualProducts(sy, uz, sy, sx * y + cx * z);
    EqualProducts(f, vx, f, cy * x + sy * (sx * y + cx * z));
    EqualProducts(g, vy, g, cx * y - sx * z);
  }

  /** Substitution under a product, which the solver does not do by itself. */
  lemma EqualProducts(a: real, b: real, a': real, b': real)
    requires a == a' && b == b'
    ensures a * b == a' * b'
  {
  }

  lemma ScaleLeq(k: real, v: real, w: real)
    requires k >= 0.0 && v <= w
    ensures k * v <= k * w
  {
  }

  lemma ScaleLess(k: real, v: real, w: real)
    requires k > 0.0 && v < w
    ensures k * v < k * w
  {
  }

  lemma ScaleByFraction(k: real, v: real)
    requires -1.0 <= v <= 1.0
    ensures k >= 0.0 ==> -k <= k * v <= k
    ensures k <= 0.0 ==> k <= k * v <= -k
  {
  }

  /** Rotations about one axis keep dot products, so their composition does: the rotation
      block of the transform matrix is orthogonal. */
  lemma RotationKeepsDots(t: Transform, p: Vec3, q: Vec3)
    requires t.rx.Unit() && t.ry.Unit() && t.rz.Unit()
    ensures Dot(Rotate(t, p), Rotate(t, q)) == Dot(p, q)
  {
    var p1, q1 := RotateX(t.rx, p), RotateX(t.rx, q);
    var p2, q2 := RotateY(t.ry, p1), RotateY(t.ry, q1);
    KeepsDotX(t.rx, p, q, p1, q1);
    KeepsDotY(t.ry, p1, q1, p2, q2);
    KeepsDotZ(t.rz, p2, q2, Rotate(t, p), Rotate(t, q));
  }

  lemma KeepsDotX(r: Angle, p: Vec3, q: Vec3, p': Vec3, q': Vec3)
    requires r.Unit() && p' == RotateX(r, p) && q' == RotateX(r, q)
    ensures Dot(p', q') == Dot(p, q)
  {
    PlaneRotation(r, p.y, p.z, q.y, q.z, p'.y, p'.z, q'.y, q'.z);
    EqualProducts(p'.x, q'.x, p.x, q.x);
  }

  lemma KeepsDotY(r: Angle, p: Vec3, q: Vec3, p': Vec3, q': Vec3)
    requires r.Unit() && p' == RotateY(r, p) && q' == RotateY(r, q)
    ensures Dot(p', q') == Dot(p, q)
  {
    PlaneRotation(r, p.z, p.x, q.z, q.x, p'.z, p'.x, q'.z, q'.x);
    EqualProducts(p'.y, q'.y, p.y, q.y);
  }

  lemma KeepsDotZ(r: Angle, p: Vec3, q: Vec3, p': Vec3, q': Vec3)
    requires r.Unit() && p' == RotateZ(r, p) && q' == RotateZ(r, q)
    ensures Dot(p', q') == Dot(p, q)
  {
    PlaneRotation(r, p.x, p.y, q.x, q.y, p'.x, p'.y, q'.x, q'.y);
    EqualProducts(p'.z, q'.z, p.z, q.z);
  }

  lemma PlaneRotation(r: Angle, u: real, v: real, u': real, v': real,
                      a: real, b: real, a': real, b': real)
    requires r.Unit()
    requires a == r.c * u - r.s * v && b == r.s * u + r.c * v
    requires a' == r.c * u' - r.s * v' && b' == r.s * u' + r.c * v'
    ensures a * a' + b * b' == u * u' + v * v'
  {
    EqualProducts(a, a', r.c * u - r.s * v, r.c * u' - r.s * v');
    EqualProducts(b, b', r.s * u + r.c * v, r.s * u' + r.c * v');
    assert (r.c * u - r.s * v) * (r.c * u' - r.s * v') + (r.s * u + r.c * v) * (r.s * u' + r.c * v')
        == (r.c * r.c + r.s * r.s) * (u * u' + v * v');
    EqualProducts(r.c * r.c + r.s * r.s, u * u' + v * v', 1.0, u * u' + v * v');
  }

  // ----- products of matrices act one after the other

  /** A named product. The solver carries equalities through a function call, but not
      reliably through the operator. */
  function Mul(a: real, b: real): real { a * b }

  lemma MulColumn(a: real, b: real, c: real, u: real, v: real, w: real, k: real, x: real)
    requires k == Mul(a, u) + Mul(b, v) + Mul(c, w)
    ensures Mul(k, x) == Mul(a, Mul(u, x)) + Mul(b, Mul(v, x)) + Mul(c, Mul(w, x))
  {
    EqualProducts(k, x, a * u + b * v + c * w, x);
  }

  lemma MulSpread(f: real, s: real, t: real, u: real, v: real, q: real)
    requires q == s + t + u + v
    ensures Mul(f, q) == Mul(f, s) + Mul(f, t) + Mul(f, u) + Mul(f, v)
  {
    EqualProducts(f, q, f, s + t + u + v);
  }

  lemma RowDotMul(r: Row, p: Vec3)
    ensures RowDot(r, p) == Mul(r.a, p.x) + Mul(r.b, p.y) + Mul(r.c, p.z) + r.d
  {
  }

  lemma RowTimesMul(r: Row, n: Matrix)
    requires IsAffine(n)
    ensures RowTimes(r, n).a == Mul(r.a, n.r0.a) + Mul(r.b, n.r1.a) + Mul(r.c, n.r2.a)
    ensures RowTimes(r, n).b == Mul(r.a, n.r0.b) + Mul(r.b, n.r1.b) + Mul(r.c, n.r2.b)
    ensures RowTimes(r, n).c == Mul(r.a, n.r0.c) + Mul(r.b, n.r1.c) + Mul(r.c, n.r2.c)
    ensures RowTimes(r, n).d == Mul(r.a, n.r0.d) + Mul(r.b, n.r1.d) + Mul(r.c, n.r2.d) + r.d
  {
  }

  lemma RowComposes(r: Row, n: Matrix, p: Vec3)
    requires IsAffine(n)
    ensures RowDot(RowTimes(r, n), p) == RowDot(r, TransformPoint(n, p))
  {
    var k, q := RowTimes(r, n), TransformPoint(n, p);
    RowTimesMul(r, n);
    RowDotMul(k, p);
    RowDotMul(r, q);
    RowDotMul(n.r0, p);
    RowDotMul(n.r1, p);
    RowDotMul(n.r2, p);
    MulColumn(r.a, r.b, r.c, n.r0.a, n.r1.a, n.r2.a, k.a, p.x);
    MulColumn(r.a, r.b, r.c, n.r0.b, n.r1.b, n.r2.b, k.b, p.y);
    MulColumn(r.a, r.b, r.c, n.r0.c, n.r1.c, n.r2.c, k.c, p.z);
    MulSpread(r.a, Mul(n.r0.a, p.x), Mul(n.r0.b, p.y), Mul(n.r0.c, p.z), n.r0.d, q.x);
    MulSpread(r.b, Mul(n.r1.a, p.x), Mul(n.r1.b, p.y), Mul(n.r1.c, p.z), n.r1.d, q.y);
    MulSpread(r.c, Mul(n.r2.a, p.x), Mul(n.r2.b, p.y), Mul(n.r2.c, p.z), n.r2.d, q.z);
  }

  lemma ProductApplies(m: Matrix, n: Matrix, p: Vec3)
    requires IsAffine(n)
    ensures TransformPoint(MatrixMultiply(m, n), p) == TransformPoint(m, TransformPoint(n, p))
    ensures IsAffine(m) ==> IsAffine(MatrixMultiply(m, n))
  {
    RowComposes(m.r0, n, p);
    RowComposes(m.r1, n, p);
    RowComposes(m.r2, n, p);
  }

  // ----- lengths

  lemma MulSign(a: real, b: real)
    requires a >= 0.0 && b > 0.0
    ensures Mul(a, b) >= 0.0 && (a > 0.0 ==> Mul(a, b) > 0.0)
  {
  }

  lemma SquareSign(x: real)
    ensures Mul(x, x) >= 0.0 && (x != 0.0 ==> Mul(x, x) > 0.0)
  {
    if x > 0.0 {
      MulSign(x, x);
    } else if x < 0.0 {
      MulSign(-x, -x);
      assert Mul(-x, -x) == Mul(x, x);
    }
  }

  function Length2(v: Vec3): real { Mul(v.x, v.x) + Mul(v.y, v.y) + Mul(v.z, v.z) }

  lemma DotIsLength2(v: Vec3)
    ensures Dot(v, v) == Length2(v)
  {
  }

  lemma DotSign(v: Vec3)
    ensures Dot(v, v) >= 0.0 && (v != ZERO ==> Dot(v, v) > 0.0)
  {
    DotIsLength2(v);
    SquareSign(v.x);
    SquareSign(v.y);
    SquareSign(v.z);
  }

  /** Two vectors are the same if their dot products with themselves and each other are. */
  lemma SameByDots(a: Vec3, b: Vec3)
    requires Dot(a, a) == Dot(a, b) && Dot(a, b) == Dot(b, b)
    ensures a == b
  {
    var d := Subtract(a, b);
    DotOfDifference(a.x, a.y, a.z, b.x, b.y, b.z);
    DotSign(d);
  }

  lemma DotOfDifference(x: real, y: real, z: real, u: real, v: real, w: real)
    ensures (x - u) * (x - u) + (y - v) * (y - v) + (z - w) * (z - w)
         == (x * x + y * y + z * z) - 2.0 * (x * u + y * v + z * w) + (u * u + v * v + w * w)
  {
  }

  /** A transform with positive scales places no two points alike. */
  lemma ApplyIsInjective(t: Transform, p: Vec3, q: Vec3)
    requires t.rx.Unit() && t.ry.Unit() && t.rz.Unit()
    requires t.scale.x > 0.0 && t.scale.y > 0.0 && t.scale.z > 0.0
    requires ApplyTransform(t, p) == ApplyTransform(t, q)
    ensures p == q
  {
    var a, b := Stretch(t.scale, p), Stretch(t.scale, q);
    AddCancels(t.translation, Rotate(t, a), Rotate(t, b));
    RotationKeepsDots(t, a, a);
    RotationKeepsDots(t, a, b);
    RotationKeepsDots(t, b, b);
    SameByDots(a, b);
    MulCancels(t.scale.x, p.x, q.x);
    MulCancels(t.scale.y, p.y, q.y);
    MulCancels(t.scale.z, p.z, q.z);
  }

  lemma AddCancels(t: Vec3, a: Vec3, b: Vec3)
    requires Add(t, a) == Add(t, b)
    ensures a == b
  {
  }

  lemma MulCancels(k: real, a: real, b: real)
    requires k > 0.0 && k * a == k * b
    ensures a == b
  {
    if a < b {
      ScaleLess(k, a, b);
    } else if b < a {
      ScaleLess(k, b, a);
    }
  }
}
