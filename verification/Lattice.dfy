/** The legs of the parametric lattice tower, against the envelope radius that other parts use
    to place equipment on it. */
module LatticeTower {
  import opened Affine
  import opened Graphs

  datatype Segment = Segment(start: Vec3, end: Vec3)

  datatype Tower = Tower(height: real, base: real, topWidth: Option<real>, legs: nat)

  const LATTICE_TOP_RATIO := 0.25

  // ----- the envelope

  /** As in the source, a top width of zero counts as none. */
  function EnvelopeTop(t: Tower): real {
    if t.topWidth.Some? && t.topWidth.value != 0.0 then t.topWidth.value else t.base * LATTICE_TOP_RATIO
  }

  function Max(a: real, b: real): real { if a >= b then a else b }
  function Min(a: real, b: real): real { if a <= b then a else b }

  function EnvelopeRatio(t: Tower, z: real): real { Min(Max(z / Max(t.height, 0.000001), 0.0), 1.0) }

  function EnvelopeHalf(t: Tower, z: real): real {
    Max((t.base + (EnvelopeTop(t) - t.base) * EnvelopeRatio(t, z)) * 0.5, 0.02)
  }

  /** The envelope radius of a lattice tower at height z, in the direction whose sine and
      cosine are given. */
  function EnvelopeRadius(t: Tower, z: real, direction: Angle): real {
    var half := EnvelopeHalf(t, z);
    if t.legs != 3 then half / Max(Max(Abs(direction.s), Abs(direction.c)), 0.000001) else half
  }

  // ----- the legs

  function BuilderTop(t: Tower): real {
    if t.topWidth.Some? then t.topWidth.value else t.base * LATTICE_TOP_RATIO
  }

  function LevelHeight(t: Tower, i: nat, levels: nat): real
    requires levels > 0
  {
    t.height * i as real / levels as real
  }

  function LevelWidth(t: Tower, i: nat, levels: nat): real
    requires levels > 0
  {
    t.base - (t.base - BuilderTop(t)) * i as real / levels as real
  }

  /** `thirds` are the three directions a third of a turn apart. */
  function Corner(thirds: seq<Angle>, width: real, z: real, legs: nat, k: nat): Vec3
    requires |thirds| == 3 && k < LegCount(legs)
  {
    var half := width / 2.0;
    if legs == 3 then Vec3(thirds[k].s * half, thirds[k].c * half, z)
    else Vec3(if k == 0 || k == 3 then -half else half, if k < 2 then -half else half, z)
  }

  function LegCount(legs: nat): nat { if legs == 3 then 3 else 4 }

  function Levels(height: real): nat
    requires height >= 0.0
  {
    if (height / 4.0).Floor >= 4 then (height / 4.0).Floor else 4
  }

  function Leg(t: Tower, thirds: seq<Angle>, levels: nat, i: nat, k: nat): Segment
    requires levels > 0 && |thirds| == 3 && k < LegCount(t.legs)
  {
    Segment(Corner(thirds, LevelWidth(t, i, levels), LevelHeight(t, i, levels), t.legs, k),
            Corner(thirds, LevelWidth(t, i + 1, levels), LevelHeight(t, i + 1, levels), t.legs, k))
  }

  method BuildLegs(t: Tower, thirds: seq<Angle>) returns (legs: seq<seq<Segment>>)
    requires |thirds| == 3 && t.height >= 0.0
    ensures |legs| == Levels(t.height)
    ensures forall i :: 0 <= i < |legs| ==> |legs[i]| == LegCount(t.legs)
    ensures forall i, k :: 0 <= i < |legs| && 0 <= k < |legs[i]| && k < LegCount(t.legs) ==>
              legs[i][k] == Leg(t, thirds, Levels(t.height), i, k)
  {
    var levels := Levels(t.height);
    legs := [];
    for i := 0 to levels
      invariant |legs| == i
      invariant forall m :: 0 <= m < i ==> |legs[m]| == LegCount(t.legs)
      invariant forall m, k :: 0 <= m < i && 0 <= k < |legs[m]| && k < LegCount(t.legs) ==>
                  legs[m][k] == Leg(t, thirds, levels, m, k)
    {
      var row := [];
      for k := 0 to LegCount(t.legs)
        invariant |row| == k
        invariant forall m :: 0 <= m < k ==> row[m] == Leg(t, thirds, levels, i, m)
      {
        row := row + [Leg(t, thirds, levels, i, k)];
      }
      legs := legs + [row];
    }
  }

  // ----- points along a leg

  function Lerp(a: real, b: real, u: real): real { a + u * (b - a) }

  function Along(s: Segment, u: real): Vec3 {
    Vec3(Lerp(s.start.x, s.end.x, u), Lerp(s.start.y, s.end.y, u), Lerp(s.start.z, s.end.z, u))
  }

  /** How far up the tower the point u of level i is, from 0 to 1. */
  function Fraction(i: nat, levels: nat, u: real): real
    requires levels > 0
  {
    (i as real + u) / levels as real
  }

  lemma Quotient(v: real, n: real)
    requires n != 0.0
    ensures v / n * n == v
  {
  }

  lemma LerpOfLevels(v: real, i: real, n: real, u: real, f: real, a: real, b: real)
    requires n > 0.0 && f == (i + u) / n && a == v * i / n && b == v * (i + 1.0) / n
    ensures Lerp(a, b, u) == v * f
  {
    Quotient(v * i, n);
    Quotient(v * (i + 1.0), n);
    Quotient(i + u, n);
    assert a * n == v * i && b * n == v * (i + 1.0) && f * n == i + u;
    Scaled(v, i, n, u, f, a, b);
  }

  lemma Scaled(v: real, i: real, n: real, u: real, f: real, a: real, b: real)
    requires n > 0.0 && a * n == v * i && b * n == v * (i + 1.0) && f * n == i + u
    ensures Lerp(a, b, u) == v * f
  {
    assert b * n - a * n == v;
    EqualProducts(u, b * n - a * n, u, v);
    EqualProducts(v, f * n, v, i + u);
    assert (a + u * (b - a)) * n == a * n + u * (b * n - a * n);
    assert (a + u * (b - a) - v * f) * n == 0.0;
  }

  lemma {:induction false} FractionInRange(i: nat, levels: nat, u: real)
    requires i < levels && 0.0 <= u <= 1.0
    ensures 0.0 <= Fraction(i, levels, u) <= 1.0
  {
    var f, n := Fraction(i, levels, u), levels as real;
    Quotient(i as real + u, n);
    if f < 0.0 {
      ScaleLess(n, f, 0.0);
    }
    if f > 1.0 {
      ScaleLess(n, 1.0, f);
    }
  }

  /** The half width at a fraction of the height. */
  function HalfAt(t: Tower, f: real): real { (t.base - (t.base - BuilderTop(t)) * f) / 2.0 }

  lemma HalfBetween(t: Tower, f: real)
    requires 0.0 <= f <= 1.0 && t.base >= 0.04 && BuilderTop(t) >= 0.04
    ensures HalfAt(t, f) >= 0.02
  {
    var d := t.base - BuilderTop(t);
    WidthBetween(t.base, BuilderTop(t), f, d);
    EqualProducts(t.base - BuilderTop(t), f, d, f);
  }

  lemma WidthBetween(base: real, top: real, f: real, d: real)
    requires 0.0 <= f <= 1.0 && base >= 0.04 && top >= 0.04 && d == base - top
    ensures base - Mul(d, f) >= 0.04
  {
    ShareOf(d, f);
  }

  lemma ShareOf(d: real, f: real)
    requires 0.0 <= f <= 1.0
    ensures d >= 0.0 ==> Mul(d, f) <= d
    ensures d <= 0.0 ==> Mul(d, f) <= 0.0
  {
  }

  lemma {:induction false} WidthAlong(t: Tower, levels: nat, i: nat, u: real)
    requires i < levels
    ensures Lerp(LevelWidth(t, i, levels), LevelWidth(t, i + 1, levels), u) / 2.0 == HalfAt(t, Fraction(i, levels, u))
  {
    TaperAlong(t.base, t.base - BuilderTop(t), i as real, levels as real, u, Fraction(i, levels, u),
               LevelWidth(t, i, levels), LevelWidth(t, i + 1, levels));
  }

  lemma {:induction false} HeightAlong(t: Tower, levels: nat, i: nat, u: real)
    requires i < levels
    ensures Lerp(LevelHeight(t, i, levels), LevelHeight(t, i + 1, levels), u) == t.height * Fraction(i, levels, u)
  {
    LerpOfLevels(t.height, i as real, levels as real, u, Fraction(i, levels, u),
                 LevelHeight(t, i, levels), LevelHeight(t, i + 1, levels));
  }

  lemma TaperAlong(base: real, slope: real, i: real, n: real, u: real, f: real, w0: real, w1: real)
    requires n > 0.0 && f == (i + u) / n
    requires w0 == base - slope * i / n && w1 == base - slope * (i + 1.0) / n
    ensures Lerp(w0, w1, u) == base - slope * f
  {
    LerpOfLevels(slope, i, n, u, f, base - w0, base - w1);
    FromBase(base, base - w0, base - w1, w0, w1, u);
  }

  lemma FromBase(base: real, a: real, b: real, a': real, b': real, u: real)
    requires a' == base - a && b' == base - b
    ensures Lerp(a', b', u) == base - Lerp(a, b, u)
  {
    EqualProducts(u, b' - a', u, a - b);
  }

  /** The direction in which corner k lies, with the half width as its unit. */
  function CornerAxis(thirds: seq<Angle>, legs: nat, k: nat): Vec3
    requires |thirds| == 3 && k < LegCount(legs)
  {
    if legs == 3 then Vec3(thirds[k].s, thirds[k].c, 0.0)
    else Vec3(if k == 0 || k == 3 then -1.0 else 1.0, if k < 2 then -1.0 else 1.0, 0.0)
  }

  lemma {:induction false} CornerOnAxis(thirds: seq<Angle>, width: real, z: real, legs: nat, k: nat)
    requires |thirds| == 3 && k < LegCount(legs)
    ensures var c, axis := Corner(thirds, width, z, legs, k), CornerAxis(thirds, legs, k);
            c.x == Mul(axis.x, width / 2.0) && c.y == Mul(axis.y, width / 2.0) && c.z == z
  {
  }

  /** A coordinate that is a fixed multiple of the half width stays so along the leg. */
  lemma MultipleAlong(m: real, w0: real, w1: real, u: real, w: real, a: real, b: real)
    requires w == Lerp(w0, w1, u) && a == Mul(m, w0 / 2.0) && b == Mul(m, w1 / 2.0)
    ensures Lerp(a, b, u) == Mul(m, w / 2.0)
  {
    EqualProducts(u, b - a, u, m * (w1 / 2.0) - m * (w0 / 2.0));
    EqualProducts(m, w / 2.0, m, (w0 + u * (w1 - w0)) / 2.0);
  }

  /** p is at the given fraction of the height, half a width along the axis. */
  predicate OnAxis(t: Tower, p: Vec3, axis: Vec3, f: real) {
    p.x == Mul(axis.x, HalfAt(t, f)) && p.y == Mul(axis.y, HalfAt(t, f)) && p.z == t.height * f
  }

  lemma {:induction false} PointOnLeg(t: Tower, thirds: seq<Angle>, levels: nat, i: nat, k: nat, u: real)
    requires |thirds| == 3 && k < LegCount(t.legs) && i < levels
    ensures OnAxis(t, Along(Leg(t, thirds, levels, i, k), u), CornerAxis(thirds, t.legs, k), Fraction(i, levels, u))
  {
    var w0, w1 := LevelWidth(t, i, levels), LevelWidth(t, i + 1, levels);
    var axis, s := CornerAxis(thirds, t.legs, k), Leg(t, thirds, levels, i, k);
    CornerOnAxis(thirds, w0, LevelHeight(t, i, levels), t.legs, k);
    CornerOnAxis(thirds, w1, LevelHeight(t, i + 1, levels), t.legs, k);
    WidthAlong(t, levels, i, u);
    HeightAlong(t, levels, i, u);
    MultipleAlong(axis.x, w0, w1, u, Lerp(w0, w1, u), s.start.x, s.end.x);
    MultipleAlong(axis.y, w0, w1, u, Lerp(w0, w1, u), s.start.y, s.end.y);
  }

  // ----- the theorems

  /** Each leg runs unbroken from the ground to the tower's height. */
  lemma {:induction false} LegsJoin(t: Tower, thirds: seq<Angle>, levels: nat, i: nat, k: nat)
    requires |thirds| == 3 && k < LegCount(t.legs) && i < levels
    ensures Leg(t, thirds, levels, i, k).end == Leg(t, thirds, levels, i + 1, k).start
    ensures Leg(t, thirds, levels, 0, k).start.z == 0.0
    ensures Leg(t, thirds, levels, levels - 1, k).end.z == t.height
  {
    Quotient(t.height, levels as real);
    WholeHeight(t.height, levels as real);
  }

  lemma WholeHeight(v: real, n: real)
    requires n > 0.0
    ensures v * n / n == v && v * 0.0 / n == 0.0
  {
    Quotient(v * n, n);
    assert (v * n / n - v) * n == 0.0;
  }

  lemma SameLength(r: real, h: real, s: real, c: real, s': real, c': real)
    requires r > 0.0 && h > 0.0 && s * s + c * c == 1.0 && s' * s' + c' * c' == 1.0
    requires Mul(r, s) == Mul(s', h) && Mul(r, c) == Mul(c', h)
    ensures r == h
  {
    SquareLength(r, s, c, Mul(r, s), Mul(r, c));
    SquareLength(h, s', c', Mul(s', h), Mul(c', h));
    assert (r - h) * (r + h) == 0.0;
  }

  lemma SquareLength(r: real, s: real, c: real, x: real, y: real)
    requires s * s + c * c == 1.0 && x == r * s && y == r * c
    ensures x * x + y * y == r * r
  {
    EqualProducts(x, x, r * s, r * s);
    EqualProducts(y, y, r * c, r * c);
    EqualProducts(r * r, s * s + c * c, r * r, 1.0);
  }

  /** A point on a diagonal: the sine and cosine have the same size, which the envelope
      divides by. */
  lemma OnDiagonal(r: real, h: real, s: real, c: real, ax: real, ay: real)
    requires r > 0.0 && h > 0.0 && s * s + c * c == 1.0
    requires (ax == 1.0 || ax == -1.0) && (ay == 1.0 || ay == -1.0)
    requires Mul(r, s) == Mul(ax, h) && Mul(r, c) == Mul(ay, h)
    ensures Max(Max(Abs(s), Abs(c)), 0.000001) == Abs(s) && Abs(s) > 0.0 && Mul(r, Abs(s)) == h
  {
    SizeOf(r, h, s, ax);
    SizeOf(r, h, c, ay);
    SameFactor(r, Abs(s), Abs(c));
    if Abs(s) <= 0.000001 {
      SmallSquare(s);
      SmallSquare(c);
    }
  }

  lemma SameFactor(r: real, a: real, b: real)
    requires r > 0.0 && Mul(r, a) == Mul(r, b)
    ensures a == b
  {
    assert r * (a - b) == 0.0;
  }

  lemma SizeOf(r: real, h: real, s: real, a: real)
    requires r > 0.0 && h > 0.0 && (a == 1.0 || a == -1.0) && Mul(r, s) == Mul(a, h)
    ensures Mul(r, Abs(s)) == h
  {
    assert Mul(a, h) == h || Mul(a, h) == -h;
    if s < 0.0 {
      assert Mul(r, -s) == -Mul(r, s);
      NonNegative(r, -s);
    } else {
      NonNegative(r, s);
    }
  }

  lemma NonNegative(a: real, b: real)
    requires a >= 0.0 && b >= 0.0
    ensures Mul(a, b) >= 0.0
  {
  }

  lemma SmallSquare(s: real)
    requires Abs(s) <= 0.000001
    ensures s * s <= 0.1
  {
    NonNegative(0.1 - s, 0.1 + s);
    assert Mul(0.1 - s, 0.1 + s) == 0.01 - s * s;
  }

  lemma {:induction false} EnvelopeHalfIs(t: Tower, f: real, z: real)
    requires t.height >= 0.000001 && t.base >= 0.04 && BuilderTop(t) >= 0.04
    requires 0.0 <= f <= 1.0 && z == t.height * f
    ensures EnvelopeHalf(t, z) == HalfAt(t, f) >= 0.02
  {
    HalfBetween(t, f);
    Share(t.height, f, z);
    assert EnvelopeTop(t) == BuilderTop(t) && EnvelopeRatio(t, z) == f;
    UpOrDown(EnvelopeTop(t), t.base, f, EnvelopeRatio(t, z));
  }

  lemma Share(height: real, f: real, z: real)
    requires height > 0.0 && z == height * f
    ensures z / height == f
  {
    Quotient(z, height);
    assert (z / height - f) * height == 0.0;
  }

  lemma UpOrDown(top: real, base: real, f: real, ratio: real)
    requires ratio == f
    ensures (top - base) * ratio == -((base - top) * f)
  {
    EqualProducts(top - base, ratio, top - base, f);
  }

  /** p is at distance r from the axis of the tower in the given direction. */
  predicate OnRay(p: Vec3, r: real, direction: Angle) {
    p.x == Mul(r, direction.s) && p.y == Mul(r, direction.c)
  }

  /** Every point of every leg is exactly at the envelope radius for its height and azimuth. */
  lemma {:induction false} LegsOnEnvelope(t: Tower, thirds: seq<Angle>, levels: nat, i: nat, k: nat, u: real, p: Vec3, r: real, direction: Angle)
    requires |thirds| == 3 && forall a :: a in thirds ==> a.Unit()
    requires k < LegCount(t.legs) && i < levels && 0.0 <= u <= 1.0
    requires t.height >= 0.000001 && t.base >= 0.04 && BuilderTop(t) >= 0.04
    requires p == Along(Leg(t, thirds, levels, i, k), u)
    requires r > 0.0 && direction.Unit() && OnRay(p, r, direction)
    ensures r == EnvelopeRadius(t, p.z, direction)
  {
    FractionInRange(i, levels, u);
    CornerAxisFits(thirds, t.legs, k);
    PointOnLeg(t, thirds, levels, i, k, u);
    RadiusOnAxis(t, p, Fraction(i, levels, u), CornerAxis(thirds, t.legs, k), r, direction);
  }

  lemma {:induction false} RadiusOnAxis(t: Tower, p: Vec3, f: real, axis: Vec3, r: real, direction: Angle)
    requires t.height >= 0.000001 && t.base >= 0.04 && BuilderTop(t) >= 0.04
    requires 0.0 <= f <= 1.0 && OnAxis(t, p, axis, f) && AxisFits(axis, t.legs)
    requires r > 0.0 && direction.Unit() && OnRay(p, r, direction)
    ensures r == EnvelopeRadius(t, p.z, direction)
  {
    EnvelopeHalfIs(t, f, p.z);
    if t.legs == 3 {
      SameLength(r, HalfAt(t, f), direction.s, direction.c, axis.x, axis.y);
    } else {
      DiagonalRadius(t, p.z, HalfAt(t, f), axis, r, direction);
    }
  }

  lemma {:induction false} DiagonalRadius(t: Tower, z: real, half: real, axis: Vec3, r: real, direction: Angle)
    requires t.legs != 3 && half == EnvelopeHalf(t, z) && half > 0.0 && r > 0.0 && direction.Unit()
    requires (axis.x == 1.0 || axis.x == -1.0) && (axis.y == 1.0 || axis.y == -1.0)
    requires Mul(r, direction.s) == Mul(axis.x, half) && Mul(r, direction.c) == Mul(axis.y, half)
    ensures r == EnvelopeRadius(t, z, direction)
  {
    OnDiagonal(r, half, direction.s, direction.c, axis.x, axis.y);
    Divided(r, Abs(direction.s), half);
  }

  predicate AxisFits(axis: Vec3, legs: nat) {
    if legs == 3 then axis.x * axis.x + axis.y * axis.y == 1.0
    else (axis.x == 1.0 || axis.x == -1.0) && (axis.y == 1.0 || axis.y == -1.0)
  }

  lemma {:induction false} CornerAxisFits(thirds: seq<Angle>, legs: nat, k: nat)
    requires |thirds| == 3 && (forall a :: a in thirds ==> a.Unit()) && k < LegCount(legs)
    ensures AxisFits(CornerAxis(thirds, legs, k), legs)
  {
    if legs == 3 {
      assert thirds[k] in thirds;
    }
  }

  lemma Divided(r: real, d: real, half: real)
    requires d > 0.0 && Mul(r, d) == half
    ensures half / d == r
  {
    Quotient(half, d);
    assert (half / d - r) * d == 0.0;
  }

  // ----- where the legs leave the envelope

  /** Where the legs are thinner than the envelope's half width, they are inside it. */
  lemma ThinnerIsInside(t: Tower, p: Vec3, axis: Vec3, h: real, r: real, direction: Angle)
    requires AxisFits(axis, t.legs) && p.x == Mul(axis.x, h) && p.y == Mul(axis.y, h)
    requires 0.0 < h < EnvelopeHalf(t, p.z) && r > 0.0 && direction.Unit() && OnRay(p, r, direction)
    ensures r < EnvelopeRadius(t, p.z, direction)
  {
    if t.legs == 3 {
      SameLength(r, h, direction.s, direction.c, axis.x, axis.y);
    } else {
      OnDiagonal(r, h, direction.s, direction.c, axis.x, axis.y);
      LargerQuotient(r, Abs(direction.s), h, EnvelopeHalf(t, p.z));
    }
  }

  lemma LargerQuotient(r: real, d: real, h: real, half: real)
    requires d > 0.0 && Mul(r, d) == h < half
    ensures r < half / d
  {
    Quotient(half, d);
    if r >= half / d {
      ScaleLeq(d, half / d, r);
    }
  }

  /** A point of leg k at height fraction f, in a direction in which that corner lies. */
  lemma {:induction false} SomeRay(t: Tower, thirds: seq<Angle>, diagonal: Angle, h: real)
      returns (k: nat, r: real, direction: Angle)
    requires |thirds| == 3 && (forall a :: a in thirds ==> a.Unit()) && h > 0.0
    requires diagonal.Unit() && diagonal.s == diagonal.c > 0.0
    ensures k < LegCount(t.legs) && r > 0.0 && direction.Unit()
    ensures Mul(CornerAxis(thirds, t.legs, k).x, h) == Mul(r, direction.s)
    ensures Mul(CornerAxis(thirds, t.legs, k).y, h) == Mul(r, direction.c)
  {
    if t.legs == 3 {
      assert thirds[0] in thirds;
      k, r, direction := 0, h, thirds[0];
      MulCommutes(thirds[0].s, h);
      MulCommutes(thirds[0].c, h);
    } else {
      k, r, direction := 2, h / diagonal.s, diagonal;
      PositiveQuotient(h, diagonal.s);
    }
  }

  lemma MulCommutes(a: real, b: real)
    ensures Mul(a, b) == Mul(b, a)
  {
  }

  lemma PositiveQuotient(h: real, d: real)
    requires h > 0.0 && d > 0.0
    ensures h / d > 0.0 && Mul(h / d, d) == h && Mul(1.0, h) == h
  {
    Quotient(h, d);
    if h / d <= 0.0 {
      ScaleLeq(d, h / d, 0.0);
    }
  }

  /** p is a point of leg k, at distance r from the tower's axis. */
  predicate LegPoint(t: Tower, thirds: seq<Angle>, levels: nat, i: nat, k: nat, u: real, p: Vec3, r: real, direction: Angle)
    requires |thirds| == 3
  {
    && i < levels && k < LegCount(t.legs) && 0.0 <= u <= 1.0
    && p == Along(Leg(t, thirds, levels, i, k), u)
    && r > 0.0 && direction.Unit() && OnRay(p, r, direction)
  }

  /** All points of all legs are on the envelope. */
  ghost predicate LegsFit(t: Tower, thirds: seq<Angle>, levels: nat)
    requires |thirds| == 3
  {
    forall i, k, u, p, r, direction :: LegPoint(t, thirds, levels, i, k, u, p, r, direction) ==>
      r == EnvelopeRadius(t, p.z, direction)
  }

  /** At this fraction of the height the legs are thinner than the envelope. */
  predicate ThinAt(t: Tower, f: real) { 0.0 < HalfAt(t, f) < EnvelopeHalf(t, t.height * f) }

  lemma {:induction false} ThinPoint(t: Tower, thirds: seq<Angle>, levels: nat, i: nat, k: nat, u: real, f: real,
                                     p: Vec3, r: real, direction: Angle)
    requires |thirds| == 3 && forall a :: a in thirds ==> a.Unit()
    requires LegPoint(t, thirds, levels, i, k, u, p, r, direction) && f == Fraction(i, levels, u) && ThinAt(t, f)
    ensures r < EnvelopeRadius(t, p.z, direction)
  {
    PointOnLeg(t, thirds, levels, i, k, u);
    CornerAxisFits(thirds, t.legs, k);
    ThinnerIsInside(t, p, CornerAxis(thirds, t.legs, k), HalfAt(t, f), r, direction);
  }

  lemma {:induction false} PointAt(t: Tower, thirds: seq<Angle>, levels: nat, diagonal: Angle, i: nat, u: real, f: real)
      returns (k: nat, p: Vec3, r: real, direction: Angle)
    requires |thirds| == 3 && (forall a :: a in thirds ==> a.Unit()) && i < levels && 0.0 <= u <= 1.0
    requires diagonal.Unit() && diagonal.s == diagonal.c > 0.0
    requires f == Fraction(i, levels, u) && HalfAt(t, f) > 0.0
    ensures LegPoint(t, thirds, levels, i, k, u, p, r, direction)
  {
    k, r, direction := SomeRay(t, thirds, diagonal, HalfAt(t, f));
    p := Along(Leg(t, thirds, levels, i, k), u);
    PointOnLeg(t, thirds, levels, i, k, u);
  }

  /** One height at which the legs are thinner is enough. */
  lemma {:induction false} ThinLevel(t: Tower, thirds: seq<Angle>, levels: nat, diagonal: Angle, i: nat, u: real, f: real)
    requires |thirds| == 3 && (forall a :: a in thirds ==> a.Unit()) && i < levels && 0.0 <= u <= 1.0
    requires diagonal.Unit() && diagonal.s == diagonal.c > 0.0
    requires f == Fraction(i, levels, u) && ThinAt(t, f)
    ensures !LegsFit(t, thirds, levels)
  {
    var k, p, r, direction := PointAt(t, thirds, levels, diagonal, i, u, f);
    ThinPoint(t, thirds, levels, i, k, u, f, p, r, direction);
  }

  lemma {:induction false} ThinBase(t: Tower, levels: nat)
    requires levels > 0 && 0.0 < t.base < 0.04
    ensures Fraction(0, levels, 0.0) == 0.0 && ThinAt(t, 0.0)
  {
    WholeHeight(1.0, levels as real);
  }

  lemma {:induction false} ThinTop(t: Tower, levels: nat)
    requires levels > 0 && 0.0 < BuilderTop(t) < 0.04
    ensures Fraction(levels - 1, levels, 1.0) == 1.0 && ThinAt(t, 1.0)
  {
    WholeHeight(1.0, levels as real);
  }

  /** A tower that comes to a point: the envelope takes the missing top width for a quarter of
      the base. */
  lemma {:induction false} PointedTop(t: Tower, levels: nat, f: real)
    requires levels >= 2 && t.base > 0.0 && t.height >= 0.000001 && t.topWidth == Some(0.0)
    requires f == Fraction(levels - 1, levels, 0.0)
    ensures ThinAt(t, f)
  {
    BelowOne(levels as real, f);
    Share(t.height, f, t.height * f);
    assert EnvelopeRatio(t, t.height * f) == f;
    var slope, change, ratio := t.base - BuilderTop(t), EnvelopeTop(t) - t.base, EnvelopeRatio(t, t.height * f);
    Quarter(t.base, slope, f, change, ratio);
    EnvelopeHalfFrom(t, t.height * f, change, ratio);
    HalfAtFrom(t, f, slope);
  }

  lemma EnvelopeHalfFrom(t: Tower, z: real, change: real, ratio: real)
    requires change == EnvelopeTop(t) - t.base && ratio == EnvelopeRatio(t, z)
    ensures EnvelopeHalf(t, z) >= (t.base + Mul(change, ratio)) / 2.0
  {
    EqualProducts(change, ratio, EnvelopeTop(t) - t.base, EnvelopeRatio(t, z));
  }

  lemma HalfAtFrom(t: Tower, f: real, slope: real)
    requires slope == t.base - BuilderTop(t)
    ensures HalfAt(t, f) == (t.base - Mul(slope, f)) / 2.0
  {
    EqualProducts(slope, f, t.base - BuilderTop(t), f);
  }

  lemma BelowOne(n: real, f: real)
    requires n >= 2.0 && f == (n - 1.0) / n
    ensures 0.0 < f < 1.0
  {
    Quotient(n - 1.0, n);
    if f <= 0.0 {
      ScaleLeq(n, f, 0.0);
    }
    if f >= 1.0 {
      ScaleLeq(n, 1.0, f);
    }
  }

  lemma Quarter(base: real, slope: real, f: real, change: real, ratio: real)
    requires base > 0.0 && 0.0 < f < 1.0 && slope == base && change == base * 0.25 - base && ratio == f
    ensures base - Mul(slope, f) > 0.0
    ensures base + Mul(change, ratio) > base - Mul(slope, f)
  {
    ScaleLess(base, f, 1.0);
    ScaleLess(base, 0.0, f);
    EqualProducts(slope, f, base, f);
    EqualProducts(change, ratio, -0.75 * base, f);
    assert (-0.75 * base) * f == -0.75 * (base * f);
  }

  /** The legs lie on the envelope exactly for the towers that are at least four centimetres
      wide at both ends; for those the builder and the envelope agree on the top width. The
      parameter `diagonal` is the direction halfway between the axes. */
  lemma {:induction false} LegsFitIffWide(t: Tower, thirds: seq<Angle>, levels: nat, diagonal: Angle)
    requires |thirds| == 3 && (forall a :: a in thirds ==> a.Unit()) && levels >= 2
    requires diagonal.Unit() && diagonal.s == diagonal.c > 0.0
    requires t.height >= 0.000001 && t.base > 0.0 && (t.topWidth.Some? ==> t.topWidth.value >= 0.0)
    ensures LegsFit(t, thirds, levels) <==> t.base >= 0.04 && BuilderTop(t) >= 0.04 && EnvelopeTop(t) == BuilderTop(t)
  {
    if t.base >= 0.04 && BuilderTop(t) >= 0.04 {
      forall i, k, u, p, r, direction | LegPoint(t, thirds, levels, i, k, u, p, r, direction)
        ensures r == EnvelopeRadius(t, p.z, direction)
      {
        LegsOnEnvelope(t, thirds, levels, i, k, u, p, r, direction);
      }
    } else if t.base < 0.04 {
      ThinBase(t, levels);
      ThinLevel(t, thirds, levels, diagonal, 0, 0.0, 0.0);
    } else if BuilderTop(t) > 0.0 {
      ThinTop(t, levels);
      ThinLevel(t, thirds, levels, diagonal, levels - 1, 1.0, 1.0);
    } else {
      PointedTop(t, levels, Fraction(levels - 1, levels, 0.0));
      ThinLevel(t, thirds, levels, diagonal, levels - 1, 0.0, Fraction(levels - 1, levels, 0.0));
    }
  }

  /** A legal thin top: every leg ends strictly inside the envelope. */
  lemma {:induction false} ThinTopEndsInside(t: Tower, thirds: seq<Angle>, levels: nat, k: nat, p: Vec3, r: real, direction: Angle)
    requires |thirds| == 3 && (forall a :: a in thirds ==> a.Unit()) && levels > 0 && k < LegCount(t.legs)
    requires 0.0 < BuilderTop(t) < 0.04
    requires p == Leg(t, thirds, levels, levels - 1, k).end && r > 0.0 && direction.Unit() && OnRay(p, r, direction)
    ensures r < EnvelopeRadius(t, p.z, direction)
  {
    ThinTop(t, levels);
    EndOfLeg(Leg(t, thirds, levels, levels - 1, k));
    ThinPoint(t, thirds, levels, levels - 1, k, 1.0, 1.0, p, r, direction);
  }

  lemma EndOfLeg(s: Segment)
    ensures Along(s, 1.0) == s.end
  {
  }
}
