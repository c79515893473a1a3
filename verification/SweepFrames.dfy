/** The contract's own sweep frame, and when its vertex list is the worker's. */
module SweepFrames {
  import opened Affine
  import opened Polygon
  import opened MeshVertices

  const SHORTEST := 0.000000000001

  /** The contract's normalisation: vectors up to 1e-12 long count as having no direction. */
  function NormalizeVector(sqrt: real -> real, v: Vec3): Vec3 {
    var length := sqrt(Dot(v, v));
    if length <= SHORTEST then ZERO else Shrunk(v, length)
  }

  function ContractFrame(sqrt: real -> real, chord: Vec3): Frame { ContractAxes(sqrt, NormalizeVector(sqrt, chord)) }

  function ContractAxes(sqrt: real -> real, tangent: Vec3): Frame {
    var normal := NormalizeVector(sqrt, Cross(tangent, Reference(tangent)));
    Frame(normal, NormalizeVector(sqrt, Cross(tangent, normal)))
  }

  /** The contract's ring of vertices at one path point. */
  function ContractRing(sqrt: real -> real, outline: seq<Vec2>, path: seq<Vec3>, cyclic: bool, i: nat): seq<Vec3>
    requires i < |path|
  {
    FrameRing(outline, path[i], ContractFrame(sqrt, Chord(path, cyclic, i)))
  }

  function ContractRings(sqrt: real -> real, outline: seq<Vec2>, path: seq<Vec3>, cyclic: bool): seq<seq<Vec3>> {
    seq(|path|, i requires 0 <= i < |path| => ContractRing(sqrt, outline, path, cyclic, i))
  }

  // ----- lengths

  predicate ChordClear(v: Vec3) { Dot(v, v) == 0.0 || Dot(v, v) > SHORTEST * SHORTEST }

  lemma RootOrder(a: real, b: real)
    requires a >= 0.0 && b > 0.0
    ensures a <= b <==> a * a <= b * b
  {
    Factors(a, b);
    if a <= b {
      MulSign(b - a, b + a);
    } else {
      MulSign(a - b, b + a);
    }
  }

  lemma Factors(a: real, b: real)
    ensures Mul(b - a, b + a) == b * b - a * a
    ensures Mul(a - b, b + a) == a * a - b * b
  {
  }

  lemma ShrunkLength(v: Vec3, length: real)
    requires length > 0.0 && length * length == Dot(v, v)
    ensures Dot(Shrunk(v, length), Shrunk(v, length)) == 1.0
  {
    var u, k := Shrunk(v, length), length * length;
    DotIsLength2(u);
    DotIsLength2(v);
    SquareSign(length);
    Component(v.x, length, u.x, k);
    Component(v.y, length, u.y, k);
    Component(v.z, length, u.z, k);
    AddUpSquares(Mul(u.x, u.x), Mul(u.y, u.y), Mul(u.z, u.z), k);
  }

  lemma Component(v: real, length: real, u: real, k: real)
    requires length > 0.0 && u == v / length && k == length * length
    ensures Mul(Mul(u, u), k) == Mul(v, v)
  {
    assert u * length == v;
    EqualProducts(v, v, u * length, u * length);
    EqualProducts(u * u, k, u * u, length * length);
  }

  lemma AddUpSquares(a: real, b: real, c: real, k: real)
    requires k > 0.0 && Mul(a, k) + Mul(b, k) + Mul(c, k) == k
    ensures a + b + c == 1.0
  {
    assert (a + b + c - 1.0) * k == 0.0;
  }

  /** Both normalisations give a vector of length one where they see a direction. */
  lemma Lengths(sqrt: real -> real, v: Vec3)
    requires IsSquareRoot(sqrt)
    ensures Dot(v, v) == 0.0 ==> Normalized(sqrt, v) == ZERO
    ensures Dot(v, v) > 0.0 ==> Dot(Normalized(sqrt, v), Normalized(sqrt, v)) == 1.0
    ensures Dot(v, v) > SHORTEST * SHORTEST ==> NormalizeVector(sqrt, v) == Normalized(sqrt, v)
    ensures Dot(v, v) <= SHORTEST * SHORTEST ==> NormalizeVector(sqrt, v) == ZERO
  {
    var d := Dot(v, v);
    DotSign(v);
    RootFacts(sqrt, d);
    if d > 0.0 {
      ShrunkLength(v, sqrt(d));
    }
  }

  lemma RootFacts(sqrt: real -> real, d: real)
    requires IsSquareRoot(sqrt) && d >= 0.0
    ensures sqrt(d) >= 0.0 && sqrt(d) * sqrt(d) == d
    ensures sqrt(d) == 0.0 <==> d == 0.0
    ensures sqrt(d) <= SHORTEST <==> d <= SHORTEST * SHORTEST
  {
    RootOrder(sqrt(d), SHORTEST);
    SquareSign(sqrt(d));
  }

  // ----- the frame of a direction

  lemma CrossLength(a: Vec3, b: Vec3)
    ensures Dot(Cross(a, b), Cross(a, b)) == Mul(Dot(a, a), Dot(b, b)) - Mul(Dot(a, b), Dot(a, b))
  {
    var c := Cross(a, b);
    DotIsLength2(c);
    Lagrange(a.x, a.y, a.z, b.x, b.y, b.z, c.x, c.y, c.z, Dot(a, a), Dot(b, b), Dot(a, b));
  }

  lemma CrossIsPerpendicular(a: Vec3, b: Vec3)
    ensures Dot(a, Cross(a, b)) == 0.0 && Dot(b, Cross(a, b)) == 0.0
  {
    Perpendicular(a.x, a.y, a.z, b.x, b.y, b.z);
  }

  lemma Lagrange(x: real, y: real, z: real, u: real, v: real, w: real,
                 p: real, q: real, r: real, a: real, b: real, c: real)
    requires p == y * w - z * v && q == z * u - x * w && r == x * v - y * u
    requires a == x * x + y * y + z * z && b == u * u + v * v + w * w && c == x * u + y * v + z * w
    ensures Mul(p, p) + Mul(q, q) + Mul(r, r) == Mul(a, b) - Mul(c, c)
  {
    LagrangeIdentity(x, y, z, u, v, w);
  }

  lemma LagrangeIdentity(x: real, y: real, z: real, u: real, v: real, w: real)
    ensures Mul(y * w - z * v, y * w - z * v) + Mul(z * u - x * w, z * u - x * w) + Mul(x * v - y * u, x * v - y * u)
         == Mul(x * x + y * y + z * z, u * u + v * v + w * w) - Mul(x * u + y * v + z * w, x * u + y * v + z * w)
  {
  }

  lemma Perpendicular(x: real, y: real, z: real, u: real, v: real, w: real)
    ensures x * (y * w - z * v) + y * (z * u - x * w) + z * (x * v - y * u) == 0.0
    ensures u * (y * w - z * v) + v * (z * u - x * w) + w * (x * v - y * u) == 0.0
  {
  }

  lemma ReferenceIsFar(t: Vec3)
    requires Dot(t, t) == 1.0
    ensures Dot(Cross(t, Reference(t)), Cross(t, Reference(t))) >= 0.09
  {
    var c := Cross(t, Reference(t));
    DotIsLength2(t);
    DotIsLength2(c);
    SquareSign(t.x);
    SquareSign(t.y);
    SquareSign(t.z);
    assert Dot(t, UP) == t.z;
    if Abs(t.z) > 0.95 {
      SquareAbove(t.z);
      assert c == Vec3(0.0, t.z, -t.y);
      Negated(t.y);
    } else {
      SquareBelow(t.z);
      assert c == Vec3(t.y, -t.x, 0.0);
      Negated(t.x);
    }
  }

  lemma Negated(x: real)
    ensures Mul(-x, -x) == Mul(x, x)
  {
  }

  lemma SquareAbove(x: real)
    requires Abs(x) > 0.95
    ensures Mul(x, x) >= 0.9
  {
    Negated(x);
    MulSign(Abs(x) - 0.95, Abs(x) + 0.95);
    assert Mul(Abs(x) - 0.95, Abs(x) + 0.95) == Mul(Abs(x), Abs(x)) - 0.9025;
  }

  lemma SquareBelow(x: real)
    requires Abs(x) <= 0.95
    ensures Mul(x, x) <= 0.9025
  {
    Negated(x);
    MulSign(0.95 - Abs(x), Abs(x) + 0.95);
    assert Mul(0.95 - Abs(x), Abs(x) + 0.95) == 0.9025 - Mul(Abs(x), Abs(x));
  }

  /** From a unit tangent both programs make the same frame, and its axes are orthonormal. */
  lemma FrameOfTangent(sqrt: real -> real, t: Vec3, c: Vec3, n: Vec3)
    requires IsSquareRoot(sqrt) && Dot(t, t) == 1.0
    requires c == Cross(t, Reference(t)) && n == Normalized(sqrt, c)
    ensures NormalizeVector(sqrt, c) == n && Dot(n, n) == 1.0
    ensures NormalizeVector(sqrt, Cross(t, n)) == Normalized(sqrt, Cross(t, n)) == Cross(t, n)
    ensures Dot(Cross(t, n), Cross(t, n)) == 1.0 && Dot(n, Cross(t, n)) == 0.0
  {
    ReferenceIsFar(t);
    Lengths(sqrt, c);
    CrossIsPerpendicular(t, Reference(t));
    StillPerpendicular(sqrt, t, c, n);
    CrossLength(t, n);
    CrossIsPerpendicular(t, n);
    Lengths(sqrt, Cross(t, n));
    UnitStays(sqrt, Cross(t, n));
  }

  lemma StillPerpendicular(sqrt: real -> real, t: Vec3, c: Vec3, n: Vec3)
    requires IsSquareRoot(sqrt) && Dot(c, c) >= 0.09 && n == Normalized(sqrt, c) && Dot(t, c) == 0.0
    ensures Dot(t, n) == 0.0
  {
    var k := sqrt(Dot(c, c));
    RootFacts(sqrt, Dot(c, c));
    PartOf(t.x, c.x, n.x, k);
    PartOf(t.y, c.y, n.y, k);
    PartOf(t.z, c.z, n.z, k);
    NoSum(Mul(t.x, n.x), Mul(t.y, n.y), Mul(t.z, n.z), k);
  }

  lemma PartOf(t: real, c: real, n: real, k: real)
    requires k > 0.0 && n == c / k
    ensures Mul(Mul(t, n), k) == t * c
  {
    assert n * k == c;
    EqualProducts(t, c, t, n * k);
  }

  lemma NoSum(a: real, b: real, c: real, k: real)
    requires k > 0.0 && Mul(a, k) + Mul(b, k) + Mul(c, k) == 0.0
    ensures a + b + c == 0.0
  {
    assert (a + b + c) * k == 0.0;
  }

  lemma UnitStays(sqrt: real -> real, v: Vec3)
    requires IsSquareRoot(sqrt) && Dot(v, v) == 1.0
    ensures Normalized(sqrt, v) == v
  {
    var r := sqrt(1.0);
    assert r >= 0.0 && r * r == 1.0;
    assert (r - 1.0) * (r + 1.0) == 0.0;
    assert Shrunk(v, 1.0) == v;
  }

  lemma ZeroDot(v: Vec3)
    requires v == ZERO
    ensures Dot(v, v) == 0.0
  {
  }

  lemma ZeroCross(v: Vec3, w: Vec3)
    requires v == ZERO
    ensures Cross(v, w) == ZERO
  {
  }

  lemma ZeroStays(sqrt: real -> real, v: Vec3)
    requires IsSquareRoot(sqrt) && v == ZERO
    ensures Normalized(sqrt, v) == ZERO && NormalizeVector(sqrt, v) == ZERO
  {
    ZeroDot(v);
    Lengths(sqrt, v);
  }

  /** Without a tangent there is no frame. */
  lemma NoContractFrame(sqrt: real -> real, t: Vec3)
    requires IsSquareRoot(sqrt) && t == ZERO
    ensures ContractAxes(sqrt, t) == Frame(ZERO, ZERO)
  {
    ZeroCross(t, Reference(t));
    ZeroStays(sqrt, Cross(t, Reference(t)));
    ZeroCross(t, NormalizeVector(sqrt, Cross(t, Reference(t))));
    ZeroStays(sqrt, Cross(t, NormalizeVector(sqrt, Cross(t, Reference(t)))));
  }

  lemma NoWorkerFrame(sqrt: real -> real, t: Vec3)
    requires IsSquareRoot(sqrt) && t == ZERO
    ensures WorkerAxes(sqrt, t) == Frame(ZERO, ZERO)
  {
    ZeroCross(t, Reference(t));
    ZeroStays(sqrt, Cross(t, Reference(t)));
    ZeroCross(t, Normalized(sqrt, Cross(t, Reference(t))));
    ZeroStays(sqrt, Cross(t, Normalized(sqrt, Cross(t, Reference(t)))));
  }

  predicate Orthonormal(f: Frame) {
    Dot(f.normal, f.normal) == 1.0 && Dot(f.binormal, f.binormal) == 1.0 && Dot(f.normal, f.binormal) == 0.0
  }

  lemma UnitAxes(sqrt: real -> real, t: Vec3)
    requires IsSquareRoot(sqrt) && Dot(t, t) == 1.0
    ensures ContractAxes(sqrt, t) == WorkerAxes(sqrt, t) && Orthonormal(WorkerAxes(sqrt, t))
  {
    var c := Cross(t, Reference(t));
    FrameOfTangent(sqrt, t, c, Normalized(sqrt, c));
  }

  // ----- when the two frames agree

  lemma SameTangent(sqrt: real -> real, chord: Vec3)
    requires IsSquareRoot(sqrt)
    ensures ChordClear(chord) ==> NormalizeVector(sqrt, chord) == Normalized(sqrt, chord)
    ensures !ChordClear(chord) ==> NormalizeVector(sqrt, chord) == ZERO
    ensures !ChordClear(chord) ==> Dot(Normalized(sqrt, chord), Normalized(sqrt, chord)) == 1.0
    ensures Normalized(sqrt, chord) == ZERO || Dot(Normalized(sqrt, chord), Normalized(sqrt, chord)) == 1.0
  {
    DotSign(chord);
    Lengths(sqrt, chord);
  }

  lemma AxesAgree(sqrt: real -> real, t: Vec3)
    requires IsSquareRoot(sqrt) && (t == ZERO || Dot(t, t) == 1.0)
    ensures ContractAxes(sqrt, t) == WorkerAxes(sqrt, t)
  {
    if t == ZERO {
      NoContractFrame(sqrt, t);
      NoWorkerFrame(sqrt, t);
    } else {
      UnitAxes(sqrt, t);
    }
  }

  lemma ClearFramesAgree(sqrt: real -> real, chord: Vec3)
    requires IsSquareRoot(sqrt) && ChordClear(chord)
    ensures ContractFrame(sqrt, chord) == WorkerFrame(sqrt, chord)
  {
    SameTangent(sqrt, chord);
    AxesAgree(sqrt, Normalized(sqrt, chord));
  }

  /** On a chord that only the contract takes for nothing, the contract's frame collapses and
      the worker's does not. */
  lemma UnclearFramesDiffer(sqrt: real -> real, chord: Vec3)
    requires IsSquareRoot(sqrt) && !ChordClear(chord)
    ensures ContractFrame(sqrt, chord) == Frame(ZERO, ZERO) && Orthonormal(WorkerFrame(sqrt, chord))
  {
    SameTangent(sqrt, chord);
    NoContractFrame(sqrt, ZERO);
    UnitAxes(sqrt, Normalized(sqrt, chord));
  }

  lemma {:induction false} OrthonormalMoves(center: Vec3, f: Frame, p: Vec2)
    requires Orthonormal(f)
    requires p != Vec2(0.0, 0.0)
    ensures FrameVertex(center, f, p) != center
  {
    var n, b := f.normal, f.binormal;
    if FrameVertex(center, f, p) == center {
      Combination(p.x, p.y, n.x, n.y, n.z, b.x, b.y, b.z);
      SquareSign(p.x);
      SquareSign(p.y);
    }
  }

  lemma Combination(x: real, y: real, a: real, b: real, c: real, d: real, e: real, f: real)
    requires a * a + b * b + c * c == 1.0 && d * d + e * e + f * f == 1.0 && a * d + b * e + c * f == 0.0
    requires x * a + y * d == 0.0 && x * b + y * e == 0.0 && x * c + y * f == 0.0
    ensures Mul(x, x) + Mul(y, y) == 0.0
  {
    assert (x * a + y * d) * (x * a + y * d) + (x * b + y * e) * (x * b + y * e) + (x * c + y * f) * (x * c + y * f)
        == (x * x) * (a * a + b * b + c * c) + (y * y) * (d * d + e * e + f * f) + 2.0 * (x * y) * (a * d + b * e + c * f);
    EqualProducts(x * x, a * a + b * b + c * c, x * x, 1.0);
    EqualProducts(y * y, d * d + e * e + f * f, y * y, 1.0);
    EqualProducts(2.0 * (x * y), a * d + b * e + c * f, 2.0 * (x * y), 0.0);
  }

  lemma CollapsedVertex(center: Vec3, p: Vec2)
    ensures FrameVertex(center, Frame(ZERO, ZERO), p) == center
  {
  }

  // ----- when the two vertex lists agree

  ghost predicate PathClear(path: seq<Vec3>, cyclic: bool) {
    forall i :: 0 <= i < |path| ==> ChordClear(Chord(path, cyclic, i))
  }

  lemma {:induction false} RingsAgree(sqrt: real -> real, outline: seq<Vec2>, path: seq<Vec3>, cyclic: bool, i: nat)
    requires IsSquareRoot(sqrt) && i < |path|
    requires exists j :: 0 <= j < |outline| && outline[j] != Vec2(0.0, 0.0)
    ensures ContractRing(sqrt, outline, path, cyclic, i) == SweepRing(sqrt, outline, path, cyclic, i) <==>
              ChordClear(Chord(path, cyclic, i))
  {
    var chord := Chord(path, cyclic, i);
    if ChordClear(chord) {
      ClearFramesAgree(sqrt, chord);
    } else {
      var j :| 0 <= j < |outline| && outline[j] != Vec2(0.0, 0.0);
      UnclearFramesDiffer(sqrt, chord);
      CollapsedVertex(path[i], outline[j]);
      OrthonormalMoves(path[i], WorkerFrame(sqrt, chord), outline[j]);
      assert ContractRing(sqrt, outline, path, cyclic, i)[j] != SweepRing(sqrt, outline, path, cyclic, i)[j];
    }
  }

  lemma {:induction false} ClearListsAgree(sqrt: real -> real, outline: seq<Vec2>, path: seq<Vec3>, cyclic: bool)
    requires IsSquareRoot(sqrt) && PathClear(path, cyclic)
    ensures ContractRings(sqrt, outline, path, cyclic) == SweepRings(sqrt, outline, path, cyclic)
  {
    forall i | 0 <= i < |path|
      ensures ContractRing(sqrt, outline, path, cyclic, i) == SweepRing(sqrt, outline, path, cyclic, i)
    {
      ClearFramesAgree(sqrt, Chord(path, cyclic, i));
    }
  }

  /** The contract lists the worker's vertices exactly when every chord of the path is zero or
      longer than 1e-12. */
  lemma {:induction false} ListsAgree(sqrt: real -> real, outline: seq<Vec2>, path: seq<Vec3>, cyclic: bool)
    requires IsSquareRoot(sqrt)
    requires exists j :: 0 <= j < |outline| && outline[j] != Vec2(0.0, 0.0)
    ensures Stack(ContractRings(sqrt, outline, path, cyclic)) == Stack(SweepRings(sqrt, outline, path, cyclic)) <==>
              PathClear(path, cyclic)
  {
    AllRingsAgree(sqrt, outline, path, cyclic);
    RingWidths(sqrt, outline, path, cyclic);
    SameStack(ContractRings(sqrt, outline, path, cyclic), SweepRings(sqrt, outline, path, cyclic), |outline|);
  }

  lemma {:induction false} RingWidths(sqrt: real -> real, outline: seq<Vec2>, path: seq<Vec3>, cyclic: bool)
    ensures |ContractRings(sqrt, outline, path, cyclic)| == |SweepRings(sqrt, outline, path, cyclic)| == |path|
    ensures forall ring :: ring in ContractRings(sqrt, outline, path, cyclic) ==> |ring| == |outline|
    ensures forall ring :: ring in SweepRings(sqrt, outline, path, cyclic) ==> |ring| == |outline|
  {
  }

  lemma {:induction false} AllRingsAgree(sqrt: real -> real, outline: seq<Vec2>, path: seq<Vec3>, cyclic: bool)
    requires IsSquareRoot(sqrt)
    requires exists j :: 0 <= j < |outline| && outline[j] != Vec2(0.0, 0.0)
    ensures ContractRings(sqrt, outline, path, cyclic) == SweepRings(sqrt, outline, path, cyclic) <==> PathClear(path, cyclic)
  {
    if PathClear(path, cyclic) {
      ClearListsAgree(sqrt, outline, path, cyclic);
    }
    if ContractRings(sqrt, outline, path, cyclic) == SweepRings(sqrt, outline, path, cyclic) {
      forall i | 0 <= i < |path| ensures ChordClear(Chord(path, cyclic, i)) {
        assert ContractRings(sqrt, outline, path, cyclic)[i] == SweepRings(sqrt, outline, path, cyclic)[i];
        RingsAgree(sqrt, outline, path, cyclic, i);
      }
    }
  }

  lemma {:induction false} SameStack(a: seq<seq<Vec3>>, b: seq<seq<Vec3>>, width: nat)
    requires |a| == |b|
    requires forall ring :: ring in a ==> |ring| == width
    requires forall ring :: ring in b ==> |ring| == width
    ensures Stack(a) == Stack(b) <==> a == b
  {
    if Stack(a) == Stack(b) {
      forall i | 0 <= i < |a| ensures a[i] == b[i] {
        forall j | 0 <= j < width ensures a[i][j] == b[i][j] {
          StackAt(a, width, i, j);
          StackAt(b, width, i, j);
        }
      }
    }
  }
}
