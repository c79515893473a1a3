/** Axis-aligned bounds and closed convex hulls of finite point lists. */
module Hull {
  import opened Affine

  datatype Box = Box(min: Vec3, max: Vec3)

  predicate Inside(b: Box, p: Vec3) {
    && b.min.x <= p.x <= b.max.x
    && b.min.y <= p.y <= b.max.y
    && b.min.z <= p.z <= b.max.z
  }

  /** The hull as an intersection of half spaces: along every direction f the point lies
      no further out than some listed point. */
  ghost predicate InHull(p: Vec3, points: seq<Vec3>) {
    forall f: Vec3 :: SomeBeyond(f, p, points)
  }

  ghost predicate SomeBeyond(f: Vec3, p: Vec3, points: seq<Vec3>) {
    exists i :: 0 <= i < |points| && Dot(f, p) <= Dot(f, points[i])
  }

  function Least(values: seq<real>): (m: real)
    requires values != []
    ensures m in values
    ensures forall i :: 0 <= i < |values| ==> m <= values[i]
  {
    if |values| == 1 then values[0]
    else
      var rest := Least(values[1..]);
      assert forall i :: 1 <= i < |values| ==> values[i] == values[1..][i - 1];
      if rest < values[0] then rest else values[0]
  }

  function Greatest(values: seq<real>): (m: real)
    requires values != []
    ensures m in values
    ensures forall i :: 0 <= i < |values| ==> values[i] <= m
  {
    if |values| == 1 then values[0]
    else
      var rest := Greatest(values[1..]);
      assert forall i :: 1 <= i < |values| ==> values[i] == values[1..][i - 1];
      if rest > values[0] then rest else values[0]
  }

  function Xs(points: seq<Vec3>): seq<real> { seq(|points|, i requires 0 <= i < |points| => points[i].x) }
  function Ys(points: seq<Vec3>): seq<real> { seq(|points|, i requires 0 <= i < |points| => points[i].y) }
  function Zs(points: seq<Vec3>): seq<real> { seq(|points|, i requires 0 <= i < |points| => points[i].z) }

  function PointBounds(points: seq<Vec3>): (b: Box)
    requires points != []
    ensures forall i :: 0 <= i < |points| ==> Inside(b, points[i])
  {
    assert forall i :: 0 <= i < |points| ==>
      Xs(points)[i] == points[i].x && Ys(points)[i] == points[i].y && Zs(points)[i] == points[i].z;
    Box(Vec3(Least(Xs(points)), Least(Ys(points)), Least(Zs(points))),
        Vec3(Greatest(Xs(points)), Greatest(Ys(points)), Greatest(Zs(points))))
  }

  function BoundsCorners(b: Box): seq<Vec3> {
    [Vec3(b.min.x, b.min.y, b.min.z), Vec3(b.min.x, b.min.y, b.max.z),
     Vec3(b.min.x, b.max.y, b.min.z), Vec3(b.min.x, b.max.y, b.max.z),
     Vec3(b.max.x, b.min.y, b.min.z), Vec3(b.max.x, b.min.y, b.max.z),
     Vec3(b.max.x, b.max.y, b.min.z), Vec3(b.max.x, b.max.y, b.max.z)]
  }

  // ----- hulls and boxes

  lemma {:induction false} MemberInHull(points: seq<Vec3>, i: nat)
    requires i < |points|
    ensures InHull(points[i], points)
  {
    forall f: Vec3 ensures SomeBeyond(f, points[i], points) {
      assert Dot(f, points[i]) <= Dot(f, points[i]);
    }
  }

  lemma {:induction false} HullTransitive(p: Vec3, inner: seq<Vec3>, outer: seq<Vec3>)
    requires InHull(p, inner)
    requires forall i :: 0 <= i < |inner| ==> InHull(inner[i], outer)
    ensures InHull(p, outer)
  {
    forall f: Vec3 ensures SomeBeyond(f, p, outer) {
      assert SomeBeyond(f, p, inner);
      var i :| 0 <= i < |inner| && Dot(f, p) <= Dot(f, inner[i]);
      assert SomeBeyond(f, inner[i], outer);
      var j :| 0 <= j < |outer| && Dot(f, inner[i]) <= Dot(f, outer[j]);
      assert Dot(f, p) <= Dot(f, outer[j]);
    }
  }

  lemma {:induction false} HullOfPart(p: Vec3, part: seq<Vec3>, whole: seq<Vec3>)
    requires InHull(p, part)
    requires forall i :: 0 <= i < |part| ==> part[i] in whole
    ensures InHull(p, whole)
  {
    forall i | 0 <= i < |part| ensures InHull(part[i], whole) {
      var j :| 0 <= j < |whole| && whole[j] == part[i];
      MemberInHull(whole, j);
    }
    HullTransitive(p, part, whole);
  }

  /** A point in the hull of a list is in the list's bounding box. */
  lemma {:induction false} HullInsideBounds(p: Vec3, points: seq<Vec3>)
    requires points != []
    requires InHull(p, points)
    ensures Inside(PointBounds(points), p)
  {
    AlongAxis(Vec3(1.0, 0.0, 0.0), p, points);
    AlongAxis(Vec3(-1.0, 0.0, 0.0), p, points);
    AlongAxis(Vec3(0.0, 1.0, 0.0), p, points);
    AlongAxis(Vec3(0.0, -1.0, 0.0), p, points);
    AlongAxis(Vec3(0.0, 0.0, 1.0), p, points);
    AlongAxis(Vec3(0.0, 0.0, -1.0), p, points);
  }

  lemma {:induction false} AlongAxis(f: Vec3, p: Vec3, points: seq<Vec3>)
    requires InHull(p, points)
    ensures exists i :: 0 <= i < |points| && Dot(f, p) <= Dot(f, points[i])
  {
    assert SomeBeyond(f, p, points);
  }

  /** Every point of a box is in the hull of its eight corners. */
  lemma {:induction false} BoxInCornerHull(b: Box, p: Vec3)
    requires Inside(b, p)
    ensures InHull(p, BoundsCorners(b))
  {
    var corners := BoundsCorners(b);
    forall f: Vec3 ensures SomeBeyond(f, p, corners) {
      var i := (if f.x >= 0.0 then 4 else 0) + (if f.y >= 0.0 then 2 else 0) + (if f.z >= 0.0 then 1 else 0);
      var far := Vec3(if f.x >= 0.0 then b.max.x else b.min.x,
                      if f.y >= 0.0 then b.max.y else b.min.y,
                      if f.z >= 0.0 then b.max.z else b.min.z);
      assert corners[i] == far;
      FarCorner(f, b, p, far);
    }
  }

  lemma {:induction false} FarCorner(f: Vec3, b: Box, p: Vec3, far: Vec3)
    requires Inside(b, p)
    requires far.x == if f.x >= 0.0 then b.max.x else b.min.x
    requires far.y == if f.y >= 0.0 then b.max.y else b.min.y
    requires far.z == if f.z >= 0.0 then b.max.z else b.min.z
    ensures Dot(f, p) <= Dot(f, far)
  {
    FarEnd(f.x, b.min.x, p.x, b.max.x, far.x);
    FarEnd(f.y, b.min.y, p.y, b.max.y, far.y);
    FarEnd(f.z, b.min.z, p.z, b.max.z, far.z);
    AddUp(f.x * p.x, f.x * far.x, f.y * p.y, f.y * far.y, f.z * p.z, f.z * far.z);
  }

  lemma AddUp(a: real, a': real, b: real, b': real, c: real, c': real)
    requires a <= a' && b <= b' && c <= c'
    ensures a + b + c <= a' + b' + c'
  {
  }

  lemma FarEnd(k: real, low: real, v: real, high: real, far: real)
    requires low <= v <= high
    requires far == if k >= 0.0 then high else low
    ensures k * v <= k * far
  {
  }

  // ----- hulls under affine maps

  function MapPoints(m: Matrix, points: seq<Vec3>): (r: seq<Vec3>)
    ensures |r| == |points|
  {
    seq(|points|, i requires 0 <= i < |points| => TransformPoint(m, points[i]))
  }

  /** The linear functional that f becomes when it is read through the matrix. */
  function PullBack(m: Matrix, f: Vec3): Vec3 {
    Vec3(f.x * m.r0.a + f.y * m.r1.a + f.z * m.r2.a,
         f.x * m.r0.b + f.y * m.r1.b + f.z * m.r2.b,
         f.x * m.r0.c + f.y * m.r1.c + f.z * m.r2.c)
  }

  lemma PullBackReads(m: Matrix, f: Vec3, p: Vec3)
    ensures Dot(f, TransformPoint(m, p))
         == Dot(PullBack(m, f), p) + (f.x * m.r0.d + f.y * m.r1.d + f.z * m.r2.d)
  {
    var g := PullBack(m, f);
    var q := TransformPoint(m, p);
    EqualProducts(g.x, p.x, f.x * m.r0.a + f.y * m.r1.a + f.z * m.r2.a, p.x);
    EqualProducts(g.y, p.y, f.x * m.r0.b + f.y * m.r1.b + f.z * m.r2.b, p.y);
    EqualProducts(g.z, p.z, f.x * m.r0.c + f.y * m.r1.c + f.z * m.r2.c, p.z);
    EqualProducts(f.x, q.x, f.x, m.r0.a * p.x + m.r0.b * p.y + m.r0.c * p.z + m.r0.d);
    EqualProducts(f.y, q.y, f.y, m.r1.a * p.x + m.r1.b * p.y + m.r1.c * p.z + m.r1.d);
    EqualProducts(f.z, q.z, f.z, m.r2.a * p.x + m.r2.b * p.y + m.r2.c * p.z + m.r2.d);
  }

  lemma {:induction false} HullMaps(m: Matrix, p: Vec3, points: seq<Vec3>)
    requires InHull(p, points)
    ensures InHull(TransformPoint(m, p), MapPoints(m, points))
  {
    var image := MapPoints(m, points);
    forall f: Vec3 ensures SomeBeyond(f, TransformPoint(m, p), image) {
      var g := PullBack(m, f);
      AlongAxis(g, p, points);
      var i :| 0 <= i < |points| && Dot(g, p) <= Dot(g, points[i]);
      PullBackReads(m, f, p);
      PullBackReads(m, f, points[i]);
      assert image[i] == TransformPoint(m, points[i]);
    }
  }

  lemma {:induction false} HullShifts(p: Vec3, points: seq<Vec3>, shift: Vec3, moved: seq<Vec3>)
    requires InHull(p, points)
    requires forall i :: 0 <= i < |points| ==> Add(points[i], shift) in moved
    ensures InHull(Add(p, shift), moved)
  {
    forall f: Vec3 ensures SomeBeyond(f, Add(p, shift), moved) {
      AlongAxis(f, p, points);
      var i :| 0 <= i < |points| && Dot(f, p) <= Dot(f, points[i]);
      DotOfSum(f, p, shift);
      DotOfSum(f, points[i], shift);
      var j :| 0 <= j < |moved| && moved[j] == Add(points[i], shift);
    }
  }

  lemma DotOfSum(f: Vec3, p: Vec3, q: Vec3)
    ensures Dot(f, Add(p, q)) == Dot(f, p) + Dot(f, q)
  {
    var s := Add(p, q);
    EqualProducts(f.x, s.x, f.x, p.x + q.x);
    EqualProducts(f.y, s.y, f.y, p.y + q.y);
    EqualProducts(f.z, s.z, f.z, p.z + q.z);
  }
}
