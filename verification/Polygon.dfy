/** Profile polygons: the segment crossing test, the self-intersection scan and the shoelace
    area of the profile validator. */
module Polygon {
  import opened Affine

  datatype Vec2 = Vec2(x: real, y: real)

  const TOLERANCE := 0.000000000001

  function Toward(start: Vec2, end: Vec2): Vec2 { Vec2(end.x - start.x, end.y - start.y) }

  function Cross2(u: Vec2, v: Vec2): real { u.x * v.y - u.y * v.x }

  function Orientation(start: Vec2, end: Vec2, p: Vec2): real { Cross2(Toward(start, end), Toward(start, p)) }

  predicate SegmentsIntersect(a: Vec2, b: Vec2, c: Vec2, d: Vec2) {
    && Orientation(a, b, c) * Orientation(a, b, d) < -TOLERANCE
    && Orientation(c, d, a) * Orientation(c, d, b) < -TOLERANCE
  }

  // ----- what the crossing test means

  function Along(a: Vec2, b: Vec2, t: real): Vec2 { Vec2(a.x + t * Toward(a, b).x, a.y + t * Toward(a, b).y) }

  /** The cross product of the two directions. */
  function Turn(a: Vec2, b: Vec2, c: Vec2, d: Vec2): real { Cross2(Toward(a, b), Toward(c, d)) }

  /** The segments meet strictly inside both, at parameters t and s, and far enough from
      being parallel or meeting at an end for the tolerance to notice. */
  ghost predicate ClearCrossing(a: Vec2, b: Vec2, c: Vec2, d: Vec2, t: real, s: real) {
    && 0.0 < t < 1.0 && 0.0 < s < 1.0
    && Along(a, b, t) == Along(c, d, s)
    && Clear(t, Turn(a, b, c, d)) && Clear(s, Turn(a, b, c, d))
  }

  predicate Clear(t: real, k: real) { t * (1.0 - t) * k * k > TOLERANCE }

  lemma CrossOfSum(u: Vec2, v: Vec2, w: Vec2, s: Vec2)
    requires s == Vec2(v.x + w.x, v.y + w.y)
    ensures Cross2(u, s) == Cross2(u, v) + Cross2(u, w)
  {
    EqualProducts(u.x, s.y, u.x, v.y + w.y);
    EqualProducts(u.y, s.x, u.y, v.x + w.x);
  }

  lemma CrossFlips(u: Vec2, v: Vec2)
    ensures Cross2(u, v) == -Cross2(v, u)
  {
  }

  lemma SidesDifferByTurn(a: Vec2, b: Vec2, c: Vec2, d: Vec2)
    ensures Orientation(a, b, d) - Orientation(a, b, c) == Turn(a, b, c, d)
    ensures Orientation(c, d, a) - Orientation(c, d, b) == Turn(a, b, c, d)
  {
    CrossOfSum(Toward(a, b), Toward(a, c), Toward(c, d), Toward(a, d));
    CrossOfSum(Toward(c, d), Toward(c, a), Toward(a, b), Toward(c, b));
    CrossFlips(Toward(a, b), Toward(c, d));
  }

  /** Three vectors r, q, w in the plane satisfy (r x q) w + (q x w) r + (w x r) q = 0. */
  lemma PlaneIdentity(r: Vec2, q: Vec2, w: Vec2, k: real, o1: real, o3: real)
    requires k == Cross2(r, q) && o3 == Cross2(q, w) && o1 == Cross2(w, r)
    ensures k * w.x + o3 * r.x + o1 * q.x == 0.0
    ensures k * w.y + o3 * r.y + o1 * q.y == 0.0
  {
    EqualProducts(k, w.x, r.x * q.y - r.y * q.x, w.x);
    EqualProducts(o3, r.x, q.x * w.y - q.y * w.x, r.x);
    EqualProducts(o1, q.x, w.x * r.y - w.y * r.x, q.x);
    EqualProducts(k, w.y, r.x * q.y - r.y * q.x, w.y);
    EqualProducts(o3, r.y, q.x * w.y - q.y * w.x, r.y);
    EqualProducts(o1, q.y, w.x * r.y - w.y * r.x, q.y);
  }

  lemma Quotient(u: real, v: real, k: real) returns (t: real)
    requires u - v == k && u * v < 0.0
    ensures k != 0.0 && t * k == u && 0.0 < t < 1.0
  {
    t := u / k;
    OppositeSigns(u, v);
    if u > 0.0 {
      Fraction(u, k, t);
    } else {
      Fraction(-u, -k, t);
    }
  }

  lemma OppositeSigns(u: real, v: real)
    requires u * v < 0.0
    ensures (u > 0.0 && v < 0.0) || (u < 0.0 && v > 0.0)
  {
  }

  lemma Fraction(u: real, k: real, t: real)
    requires 0.0 < u < k && t * k == u
    ensures 0.0 < t < 1.0
  {
    if t >= 1.0 {
      Multiple(t, k);
    } else if t <= 0.0 {
      Multiple(1.0 - t, k);
    }
  }

  lemma Multiple(t: real, k: real)
    requires t >= 1.0 && k > 0.0
    ensures t * k >= k && (1.0 - t) * k <= 0.0
  {
    MulSign(t - 1.0, k);
    assert Mul(t - 1.0, k) == t * k - k;
    assert (1.0 - t) * k == k - t * k;
  }

  lemma CrossingFound(a: Vec2, b: Vec2, c: Vec2, d: Vec2) returns (t: real, s: real)
    requires SegmentsIntersect(a, b, c, d)
    ensures ClearCrossing(a, b, c, d, t, s)
  {
    var k := Turn(a, b, c, d);
    SidesDifferByTurn(a, b, c, d);
    t := CrossingParameter(Orientation(c, d, a), Orientation(c, d, b), k);
    BothNegated(Orientation(a, b, c), Orientation(a, b, d), -Orientation(a, b, c), -Orientation(a, b, d));
    s := CrossingParameter(-Orientation(a, b, c), -Orientation(a, b, d), k);
    Meet(a, b, c, d, k, Orientation(a, b, c), Orientation(c, d, a), t, s);
  }

  lemma BothNegated(u: real, v: real, u': real, v': real)
    requires u' == -u && v' == -v
    ensures u' * v' == u * v
  {
    EqualProducts(u', v', -u, -v);
  }

  lemma CrossingParameter(u: real, v: real, k: real) returns (t: real)
    requires u - v == k && u * v < -TOLERANCE
    ensures k != 0.0 && t * k == u && 0.0 < t < 1.0 && Clear(t, k)
  {
    t := Quotient(u, v, k);
    SideProduct(k, t, u, v);
  }

  lemma SideProduct(k: real, t: real, u: real, v: real)
    requires u == t * k && u - v == k
    ensures u * v == -(t * (1.0 - t) * k * k)
  {
    EqualProducts(u, v, t * k, t * k - k);
  }

  lemma Meet(a: Vec2, b: Vec2, c: Vec2, d: Vec2, k: real, o1: real, o3: real, t: real, s: real)
    requires k == Turn(a, b, c, d) && k != 0.0
    requires o1 == Orientation(a, b, c) && o3 == Orientation(c, d, a)
    requires t * k == o3 && s * k == -o1
    ensures Along(a, b, t) == Along(c, d, s)
  {
    var r, q, w := Toward(a, b), Toward(c, d), Toward(c, a);
    assert o1 == Cross2(w, r) by {
      CrossFlips(w, r);
      CrossOpposite(r, w, Toward(a, c));
    }
    PlaneIdentity(r, q, w, k, o1, o3);
    MeetAxis(k, r.x, q.x, w.x, o1, o3, t, s);
    MeetAxis(k, r.y, q.y, w.y, o1, o3, t, s);
  }

  lemma CrossOpposite(u: Vec2, v: Vec2, v': Vec2)
    requires v' == Vec2(-v.x, -v.y)
    ensures Cross2(u, v') == -Cross2(u, v)
  {
    EqualProducts(u.x, v'.y, u.x, -v.y);
    EqualProducts(u.y, v'.x, u.y, -v.x);
  }

  lemma MeetAxis(k: real, r: real, q: real, w: real, o1: real, o3: real, t: real, s: real)
    requires k != 0.0 && k * w + o3 * r + o1 * q == 0.0
    requires t * k == o3 && s * k == -o1
    ensures w + t * r == s * q
  {
    EqualProducts(o3, r, t * k, r);
    EqualProducts(o1, q, -(s * k), q);
    assert k * (w + t * r - s * q) == 0.0;
  }

  lemma CrossingIsSeen(a: Vec2, b: Vec2, c: Vec2, d: Vec2, t: real, s: real)
    requires ClearCrossing(a, b, c, d, t, s)
    ensures SegmentsIntersect(a, b, c, d)
  {
    var k := Turn(a, b, c, d);
    SidesDifferByTurn(a, b, c, d);
    SideFromMeeting(a, b, c, d, t, s, k);
    var o1, o2, o3, o4 := Orientation(a, b, c), Orientation(a, b, d), Orientation(c, d, a), Orientation(c, d, b);
    OppositeSides(k, t, o3, o4);
    OppositeSides(k, s, -o1, -o2);
    EqualProducts(-(-o1), -(-o2), o1, o2);
    SidesSeen(a, b, c, d, o1, o2, o3, o4);
  }

  lemma OppositeSides(k: real, t: real, u: real, v: real)
    requires u == t * k && u - v == k && Clear(t, k)
    ensures u * v < -TOLERANCE && (-u) * (-v) < -TOLERANCE
  {
    SideProduct(k, t, u, v);
  }

  lemma SidesSeen(a: Vec2, b: Vec2, c: Vec2, d: Vec2, o1: real, o2: real, o3: real, o4: real)
    requires o1 == Orientation(a, b, c) && o2 == Orientation(a, b, d)
    requires o3 == Orientation(c, d, a) && o4 == Orientation(c, d, b)
    requires o1 * o2 < -TOLERANCE && o3 * o4 < -TOLERANCE
    ensures SegmentsIntersect(a, b, c, d)
  {
    EqualProducts(o1, o2, Orientation(a, b, c), Orientation(a, b, d));
    EqualProducts(o3, o4, Orientation(c, d, a), Orientation(c, d, b));
  }

  lemma SideFromMeeting(a: Vec2, b: Vec2, c: Vec2, d: Vec2, t: real, s: real, k: real)
    requires Along(a, b, t) == Along(c, d, s) && k == Turn(a, b, c, d)
    ensures Orientation(c, d, a) == t * k
    ensures -Orientation(a, b, c) == s * k
  {
    var r, q, w := Toward(a, b), Toward(c, d), Toward(c, a);
    SidesAtMeeting(r, q, w, t, s, k);
    CrossOpposite(r, w, Toward(a, c));
  }

  lemma SidesAtMeeting(r: Vec2, q: Vec2, w: Vec2, t: real, s: real, k: real)
    requires w.x + t * r.x == s * q.x && w.y + t * r.y == s * q.y
    requires k == Cross2(r, q)
    ensures Cross2(q, w) == t * k && Cross2(r, w) == s * k
  {
    EqualProducts(t, k, t, r.x * q.y - r.y * q.x);
    EqualProducts(s, k, s, r.x * q.y - r.y * q.x);
    EqualProducts(q.x, w.y, q.x, s * q.y - t * r.y);
    EqualProducts(q.y, w.x, q.y, s * q.x - t * r.x);
    EqualProducts(r.x, w.y, r.x, s * q.y - t * r.y);
    EqualProducts(r.y, w.x, r.y, s * q.x - t * r.x);
  }

  /** The test reports exactly the crossings that are strictly inside both segments and clear
      of the tolerance. */
  lemma SegmentTestExact(a: Vec2, b: Vec2, c: Vec2, d: Vec2)
    ensures SegmentsIntersect(a, b, c, d) <==> exists t, s :: ClearCrossing(a, b, c, d, t, s)
  {
    if SegmentsIntersect(a, b, c, d) {
      var t, s := CrossingFound(a, b, c, d);
    } else {
      forall t, s | ClearCrossing(a, b, c, d, t, s) ensures false {
        CrossingIsSeen(a, b, c, d, t, s);
      }
    }
  }

  predicate InSpeck(p: Vec2, o: Vec2) { 0.0 <= p.x - o.x <= 0.0005 && 0.0 <= p.y - o.y <= 0.0005 }

  /** The tolerance is absolute: no crossing within a square of side 0.5 mm is reported. */
  lemma SpeckCrossingsUnseen(a: Vec2, b: Vec2, c: Vec2, d: Vec2, o: Vec2)
    requires InSpeck(a, o) && InSpeck(b, o) && InSpeck(c, o) && InSpeck(d, o)
    ensures !SegmentsIntersect(a, b, c, d)
  {
    SpeckCross(Toward(a, b), Toward(a, c));
    SpeckCross(Toward(a, b), Toward(a, d));
    SpeckSides(Orientation(a, b, c), Orientation(a, b, d));
  }

  lemma SpeckCross(u: Vec2, v: Vec2)
    requires Abs(u.x) <= 0.0005 && Abs(u.y) <= 0.0005 && Abs(v.x) <= 0.0005 && Abs(v.y) <= 0.0005
    ensures Abs(Cross2(u, v)) <= 0.0000005
  {
    var m, n := u.x * v.y, u.y * v.x;
    ProductBound(u.x, v.y, 0.0005);
    ProductBound(u.y, v.x, 0.0005);
    assert Abs(m) <= 0.00000025 && Abs(n) <= 0.00000025;
    assert Cross2(u, v) == m - n;
  }

  lemma SpeckSides(o1: real, o2: real)
    requires Abs(o1) <= 0.0000005 && Abs(o2) <= 0.0000005
    ensures o1 * o2 >= -TOLERANCE
  {
    ProductBound(o1, o2, 0.0000005);
  }

  lemma ProductBound(a: real, b: real, k: real)
    requires Abs(a) <= k && Abs(b) <= k
    ensures Abs(a * b) <= k * k
  {
    SquareBound(a, b, k);
    SquareBound(-a, b, k);
  }

  lemma SquareBound(a: real, b: real, k: real)
    requires -k <= a <= k && -k <= b <= k
    ensures a * b <= k * k
  {
    NoLess(k - a, k + b);
    NoLess(k + a, k - b);
    assert Mul(k - a, k + b) + Mul(k + a, k - b) == 2.0 * (k * k) - 2.0 * (a * b);
  }

  lemma NoLess(u: real, v: real)
    requires u >= 0.0 && v >= 0.0
    ensures Mul(u, v) >= 0.0
  {
    if v > 0.0 {
      MulSign(u, v);
    } else {
      EqualProducts(u, v, u, 0.0);
    }
  }

  // ----- the scan over edge pairs

  function Next(i: nat, n: nat): (j: nat)
    requires i < n
    ensures j == if i + 1 == n then 0 else i + 1
  {
    (i + 1) % n
  }

  predicate EdgesCross(points: seq<Vec2>, i: nat, j: nat)
    requires i < |points| && j < |points|
  {
    SegmentsIntersect(points[i], points[Next(i, |points|)], points[j], points[Next(j, |points|)])
  }

  predicate Apart(i: nat, j: nat, n: nat)
    requires i < n && j < n
  {
    i != j && j != Next(i, n) && i != Next(j, n)
  }

  /** Some two edges that share no corner cross. */
  predicate SelfIntersects(points: seq<Vec2>) {
    exists i, j :: 0 <= i < |points| && 0 <= j < |points| && Apart(i, j, |points|) && EdgesCross(points, i, j)
  }

  method PolygonSelfIntersects(points: seq<Vec2>) returns (r: bool)
    ensures r <==> SelfIntersects(points)
  {
    var n := |points|;
    for first := 0 to n
      invariant forall i, j :: 0 <= i < first && i < j < n && Apart(i, j, n) ==> !EdgesCross(points, i, j)
    {
      for second := first + 1 to n
        invariant forall j :: first < j < second && Apart(first, j, n) ==> !EdgesCross(points, first, j)
      {
        var previous := if first == 0 then n - 1 else first - 1;
        if second != first && second != (first + 1) % n && second != previous {
          assert Apart(first, second, n);
          if SegmentsIntersect(points[first], points[(first + 1) % n], points[second], points[(second + 1) % n]) {
            assert EdgesCross(points, first, second);
            return true;
          }
        }
      }
    }
    forall i, j | 0 <= i < n && 0 <= j < n && Apart(i, j, n) ensures !EdgesCross(points, i, j) {
      if i < j {
      } else {
        assert Apart(j, i, n);
        assert !EdgesCross(points, j, i);
      }
    }
    return false;
  }

  // ----- moving and renumbering a polygon

  function Shifted(points: seq<Vec2>, shift: Vec2): (r: seq<Vec2>)
    ensures |r| == |points|
  {
    seq(|points|, i requires 0 <= i < |points| => Vec2(points[i].x + shift.x, points[i].y + shift.y))
  }

  function Rotated(points: seq<Vec2>): (r: seq<Vec2>)
    requires points != []
    ensures |r| == |points|
    ensures forall i :: 0 <= i < |r| ==> r[i] == points[Next(i, |points|)]
  {
    points[1..] + [points[0]]
  }

  lemma OrientationShifts(a: Vec2, b: Vec2, c: Vec2, a': Vec2, b': Vec2, c': Vec2, shift: Vec2)
    requires a' == Vec2(a.x + shift.x, a.y + shift.y)
    requires b' == Vec2(b.x + shift.x, b.y + shift.y)
    requires c' == Vec2(c.x + shift.x, c.y + shift.y)
    ensures Orientation(a', b', c') == Orientation(a, b, c)
  {
    assert Toward(a', b') == Toward(a, b) && Toward(a', c') == Toward(a, c);
  }

  lemma SegmentsShift(a: Vec2, b: Vec2, c: Vec2, d: Vec2, a': Vec2, b': Vec2, c': Vec2, d': Vec2, shift: Vec2)
    requires a' == Vec2(a.x + shift.x, a.y + shift.y) && b' == Vec2(b.x + shift.x, b.y + shift.y)
    requires c' == Vec2(c.x + shift.x, c.y + shift.y) && d' == Vec2(d.x + shift.x, d.y + shift.y)
    ensures SegmentsIntersect(a', b', c', d') <==> SegmentsIntersect(a, b, c, d)
  {
    OrientationShifts(a, b, c, a', b', c', shift);
    OrientationShifts(a, b, d, a', b', d', shift);
    OrientationShifts(c, d, a, c', d', a', shift);
    OrientationShifts(c, d, b, c', d', b', shift);
  }

  /** The scan does not depend on where the polygon is. */
  lemma {:induction false} SelfIntersectionShifts(points: seq<Vec2>, shift: Vec2)
    ensures SelfIntersects(Shifted(points, shift)) <==> SelfIntersects(points)
  {
    var n := |points|;
    var moved := Shifted(points, shift);
    forall i, j | 0 <= i < n && 0 <= j < n ensures EdgesCross(moved, i, j) <==> EdgesCross(points, i, j) {
      SegmentsShift(points[i], points[Next(i, n)], points[j], points[Next(j, n)],
                    moved[i], moved[Next(i, n)], moved[j], moved[Next(j, n)], shift);
    }
    if SelfIntersects(points) {
      var i, j :| 0 <= i < n && 0 <= j < n && Apart(i, j, n) && EdgesCross(points, i, j);
      assert EdgesCross(moved, i, j);
    }
    if SelfIntersects(moved) {
      var i, j :| 0 <= i < n && 0 <= j < n && Apart(i, j, n) && EdgesCross(moved, i, j);
      assert EdgesCross(points, i, j);
    }
  }

  /** Nor on which corner it starts. */
  lemma {:induction false} SelfIntersectionRotates(points: seq<Vec2>)
    requires points != []
    ensures SelfIntersects(Rotated(points)) <==> SelfIntersects(points)
  {
    var n := |points|;
    var turned := Rotated(points);
    if SelfIntersects(turned) {
      var i, j :| 0 <= i < n && 0 <= j < n && Apart(i, j, n) && EdgesCross(turned, i, j);
      assert Apart(Next(i, n), Next(j, n), n) && EdgesCross(points, Next(i, n), Next(j, n));
    }
    if SelfIntersects(points) {
      var i, j :| 0 <= i < n && 0 <= j < n && Apart(i, j, n) && EdgesCross(points, i, j);
      var i' := if i == 0 then n - 1 else i - 1;
      var j' := if j == 0 then n - 1 else j - 1;
      assert Next(i', n) == i && Next(j', n) == j;
      assert Apart(i', j', n) && EdgesCross(turned, i', j');
    }
  }

  // ----- the shoelace sum

  function CrossTerm(p: Vec2, q: Vec2): real { p.x * q.y - q.x * p.y }

  /** The first k terms of the shoelace sum. */
  function ShoelaceTo(points: seq<Vec2>, k: nat): real
    requires k <= |points|
  {
    if k == 0 then 0.0
    else ShoelaceTo(points, k - 1) + CrossTerm(points[k - 1], points[Next(k - 1, |points|)])
  }

  /** Twice the signed area. */
  function Shoelace(points: seq<Vec2>): real { ShoelaceTo(points, |points|) }

  method ShoelaceSum(points: seq<Vec2>) returns (area: real)
    ensures area == Shoelace(points)
  {
    area := 0.0;
    for index := 0 to |points|
      invariant area == ShoelaceTo(points, index)
    {
      var following := points[(index + 1) % |points|];
      area := area + (points[index].x * following.y - following.x * points[index].y);
    }
  }

  lemma TermShifts(p: Vec2, q: Vec2, p': Vec2, q': Vec2, shift: Vec2)
    requires p' == Vec2(p.x + shift.x, p.y + shift.y) && q' == Vec2(q.x + shift.x, q.y + shift.y)
    ensures CrossTerm(p', q') == CrossTerm(p, q) + Drift(p, q, shift)
  {
    EqualProducts(p'.x, q'.y, p.x + shift.x, q.y + shift.y);
    EqualProducts(q'.x, p'.y, q.x + shift.x, p.y + shift.y);
  }

  lemma {:induction false} ShoelaceShifts(points: seq<Vec2>, shift: Vec2, k: nat)
    requires points != [] && k <= |points|
    ensures ShoelaceTo(Shifted(points, shift), k)
         == ShoelaceTo(points, k) + Drift(points[0], points[if k == |points| then 0 else k], shift)
  {
    if k > 0 {
      var n := |points|;
      var p, q := points[k - 1], points[Next(k - 1, n)];
      ShoelaceShifts(points, shift, k - 1);
      TermShifts(p, q, Shifted(points, shift)[k - 1], Shifted(points, shift)[Next(k - 1, n)], shift);
      DriftsAdd(points[0], p, q, shift);
    }
  }

  /** What a shift adds to the cross terms of a path from p to q. */
  function Drift(p: Vec2, q: Vec2, shift: Vec2): real { shift.y * (p.x - q.x) + shift.x * (q.y - p.y) }

  lemma DriftsAdd(o: Vec2, p: Vec2, q: Vec2, shift: Vec2)
    ensures Drift(o, p, shift) + Drift(p, q, shift) == Drift(o, q, shift)
    ensures Drift(o, o, shift) == 0.0
  {
  }

  lemma {:induction false} ShoelaceRotates(points: seq<Vec2>, k: nat)
    requires k < |points|
    ensures ShoelaceTo(Rotated(points), k) == ShoelaceTo(points, k + 1) - ShoelaceTo(points, 1)
  {
    if k > 0 {
      ShoelaceRotates(points, k - 1);
      assert Rotated(points)[k - 1] == points[k];
      assert Rotated(points)[Next(k - 1, |points|)] == points[Next(k, |points|)];
    }
  }

  /** The shoelace sum, like the scan, belongs to the closed curve and not to its listing. */
  lemma {:induction false} ShoelaceInvariant(points: seq<Vec2>, shift: Vec2)
    requires points != []
    ensures Shoelace(Shifted(points, shift)) == Shoelace(points)
    ensures Shoelace(Rotated(points)) == Shoelace(points)
  {
    var n := |points|;
    ShoelaceShifts(points, shift, n);
    ShoelaceRotates(points, n - 1);
    var turned := Rotated(points);
    assert turned[n - 1] == points[0] && turned[Next(n - 1, n)] == points[Next(0, n)];
    assert ShoelaceTo(points, 1) == ShoelaceTo(points, 0) + CrossTerm(points[0], points[Next(0, n)]);
  }

  // ----- the profile validator

  /** The node-level checks of a profile. */
  predicate ProfileOk(points: seq<Vec2>, closed: bool) {
    && 2 <= |points| <= 128
    && (closed ==> |points| >= 3)
    && (forall p :: p in points ==> Abs(p.x) <= 300.0 && Abs(p.y) <= 300.0)
    && (forall i :: 1 <= i < |points| ==> points[i] != points[i - 1])
    && (closed ==>
          && points[0] != points[|points| - 1]
          && Abs(Shoelace(points)) > 0.000000001
          && !SelfIntersects(points))
  }

  // ----- a profile that crosses itself and is accepted

  /** Five corners whose sides 0 and 3 cross in the middle. */
  const KNOT: seq<Vec2> := [Vec2(0.0, 0.0), Vec2(0.0001, 0.0001), Vec2(0.0001, 1.0), Vec2(0.0, 0.0001), Vec2(0.0001, 0.0)]

  predicate IsKnot(points: seq<Vec2>) {
    && |points| == 5
    && points[0] == Vec2(0.0, 0.0) && points[1] == Vec2(0.0001, 0.0001) && points[2] == Vec2(0.0001, 1.0)
    && points[3] == Vec2(0.0, 0.0001) && points[4] == Vec2(0.0001, 0.0)
  }

  // The sides that the corners lie on.

  lemma FirstLine(a: Vec2, b: Vec2, p: Vec2)
    requires a == Vec2(0.0, 0.0) && b == Vec2(0.0001, 0.0001)
    ensures Orientation(a, b, p) == 0.0001 * (p.y - p.x)
  {
    assert Toward(a, b) == Vec2(0.0001, 0.0001);
    var v := Toward(a, p);
    EqualProducts(Toward(a, b).x, v.y, 0.0001, v.y);
    EqualProducts(Toward(a, b).y, v.x, 0.0001, v.x);
  }

  lemma SecondLine(a: Vec2, b: Vec2, p: Vec2)
    requires a == Vec2(0.0001, 0.0001) && b == Vec2(0.0001, 1.0)
    ensures Orientation(a, b, p) == -0.9999 * (p.x - 0.0001)
  {
    assert Toward(a, b) == Vec2(0.0, 0.9999);
    var v := Toward(a, p);
    EqualProducts(Toward(a, b).x, v.y, 0.0, v.y);
    EqualProducts(Toward(a, b).y, v.x, 0.9999, v.x);
  }

  lemma ThirdLine(a: Vec2, b: Vec2, p: Vec2)
    requires a == Vec2(0.0001, 1.0) && b == Vec2(0.0, 0.0001)
    ensures Orientation(a, b, p) == -0.0001 * (p.y - 1.0) + 0.9999 * (p.x - 0.0001)
  {
    assert Toward(a, b) == Vec2(-0.0001, -0.9999);
    var v := Toward(a, p);
    EqualProducts(Toward(a, b).x, v.y, -0.0001, v.y);
    EqualProducts(Toward(a, b).y, v.x, -0.9999, v.x);
  }

  // The five pairs of sides without a common corner; the second one is the crossing.

  lemma RisingSides(p0: Vec2, p1: Vec2, p2: Vec2, p3: Vec2)
    requires p0 == Vec2(0.0, 0.0) && p1 == Vec2(0.0001, 0.0001) && p2 == Vec2(0.0001, 1.0) && p3 == Vec2(0.0, 0.0001)
    ensures Orientation(p0, p1, p2) >= 0.0 && Orientation(p0, p1, p3) >= 0.0
  {
    FirstLine(p0, p1, p2);
    FirstLine(p0, p1, p3);
  }

  lemma RisingPair(p0: Vec2, p1: Vec2, p2: Vec2, p3: Vec2)
    requires p0 == Vec2(0.0, 0.0) && p1 == Vec2(0.0001, 0.0001) && p2 == Vec2(0.0001, 1.0) && p3 == Vec2(0.0, 0.0001)
    ensures !SegmentsIntersect(p0, p1, p2, p3) && !SegmentsIntersect(p2, p3, p0, p1)
  {
    RisingSides(p0, p1, p2, p3);
    SameSide(p0, p1, p2, p3);
  }

  lemma SteepSides(p1: Vec2, p2: Vec2, p3: Vec2, p4: Vec2)
    requires p1 == Vec2(0.0001, 0.0001) && p2 == Vec2(0.0001, 1.0) && p3 == Vec2(0.0, 0.0001) && p4 == Vec2(0.0001, 0.0)
    ensures Orientation(p1, p2, p3) >= 0.0 && Orientation(p1, p2, p4) >= 0.0
  {
    SecondLine(p1, p2, p3);
    SecondLine(p1, p2, p4);
  }

  lemma SteepPair(p1: Vec2, p2: Vec2, p3: Vec2, p4: Vec2)
    requires p1 == Vec2(0.0001, 0.0001) && p2 == Vec2(0.0001, 1.0) && p3 == Vec2(0.0, 0.0001) && p4 == Vec2(0.0001, 0.0)
    ensures !SegmentsIntersect(p1, p2, p3, p4) && !SegmentsIntersect(p3, p4, p1, p2)
  {
    SteepSides(p1, p2, p3, p4);
    SameSide(p1, p2, p3, p4);
  }

  lemma UprightSides(p1: Vec2, p2: Vec2, p4: Vec2, p0: Vec2)
    requires p1 == Vec2(0.0001, 0.0001) && p2 == Vec2(0.0001, 1.0) && p4 == Vec2(0.0001, 0.0) && p0 == Vec2(0.0, 0.0)
    ensures Orientation(p1, p2, p4) >= 0.0 && Orientation(p1, p2, p0) >= 0.0
  {
    SecondLine(p1, p2, p4);
    SecondLine(p1, p2, p0);
  }

  lemma UprightPair(p1: Vec2, p2: Vec2, p4: Vec2, p0: Vec2)
    requires p1 == Vec2(0.0001, 0.0001) && p2 == Vec2(0.0001, 1.0) && p4 == Vec2(0.0001, 0.0) && p0 == Vec2(0.0, 0.0)
    ensures !SegmentsIntersect(p1, p2, p4, p0) && !SegmentsIntersect(p4, p0, p1, p2)
  {
    UprightSides(p1, p2, p4, p0);
    SameSide(p1, p2, p4, p0);
  }

  lemma FallingSides(p2: Vec2, p3: Vec2, p4: Vec2, p0: Vec2)
    requires p2 == Vec2(0.0001, 1.0) && p3 == Vec2(0.0, 0.0001) && p4 == Vec2(0.0001, 0.0) && p0 == Vec2(0.0, 0.0)
    ensures Orientation(p2, p3, p4) >= 0.0 && Orientation(p2, p3, p0) >= 0.0
  {
    ThirdLine(p2, p3, p4);
    ThirdLine(p2, p3, p0);
  }

  lemma FallingPair(p2: Vec2, p3: Vec2, p4: Vec2, p0: Vec2)
    requires p2 == Vec2(0.0001, 1.0) && p3 == Vec2(0.0, 0.0001) && p4 == Vec2(0.0001, 0.0) && p0 == Vec2(0.0, 0.0)
    ensures !SegmentsIntersect(p2, p3, p4, p0) && !SegmentsIntersect(p4, p0, p2, p3)
  {
    FallingSides(p2, p3, p4, p0);
    SameSide(p2, p3, p4, p0);
  }

  lemma SameSide(a: Vec2, b: Vec2, c: Vec2, d: Vec2)
    requires Orientation(a, b, c) >= 0.0 && Orientation(a, b, d) >= 0.0
    ensures !SegmentsIntersect(a, b, c, d) && !SegmentsIntersect(c, d, a, b)
  {
    var o1, o2 := Orientation(a, b, c), Orientation(a, b, d);
    if o2 > 0.0 { MulSign(o1, o2); }
  }

  ghost predicate PairUnseen(points: seq<Vec2>, i: nat, j: nat)
    requires i < |points| && j < |points|
  {
    !EdgesCross(points, i, j) && !EdgesCross(points, j, i)
  }

  lemma {:induction false} PairFrom(points: seq<Vec2>, i: nat, j: nat, a: Vec2, b: Vec2, c: Vec2, d: Vec2)
    requires i < |points| && a == points[i] && b == points[Next(i, |points|)]
    requires j < |points| && c == points[j] && d == points[Next(j, |points|)]
    requires !SegmentsIntersect(a, b, c, d) && !SegmentsIntersect(c, d, a, b)
    ensures PairUnseen(points, i, j)
  {
  }

  lemma {:induction false} RisingUnseen(points: seq<Vec2>)
    requires IsKnot(points)
    ensures PairUnseen(points, 0, 2)
  {
    RisingPair(points[0], points[1], points[2], points[3]);
  }

  lemma {:induction false} CrossingUnseen(points: seq<Vec2>)
    requires IsKnot(points)
    ensures PairUnseen(points, 0, 3)
  {
    TinyUnseen(points, 0, 3, points[0]);
  }

  lemma {:induction false} TinyUnseen(points: seq<Vec2>, i: nat, j: nat, o: Vec2)
    requires i < |points| && j < |points|
    requires InSpeck(points[i], o) && InSpeck(points[Next(i, |points|)], o)
    requires InSpeck(points[j], o) && InSpeck(points[Next(j, |points|)], o)
    ensures PairUnseen(points, i, j)
  {
    var a, b, c, d := points[i], points[Next(i, |points|)], points[j], points[Next(j, |points|)];
    SpeckCrossingsUnseen(a, b, c, d, o);
    SpeckCrossingsUnseen(c, d, a, b, o);
    PairFrom(points, i, j, a, b, c, d);
  }

  lemma {:induction false} SteepUnseen(points: seq<Vec2>)
    requires IsKnot(points)
    ensures PairUnseen(points, 1, 3)
  {
    SteepPair(points[1], points[2], points[3], points[4]);
  }

  lemma {:induction false} UprightUnseen(points: seq<Vec2>)
    requires IsKnot(points)
    ensures PairUnseen(points, 1, 4)
  {
    UprightPair(points[1], points[2], points[4], points[0]);
  }

  lemma {:induction false} FallingUnseen(points: seq<Vec2>)
    requires IsKnot(points)
    ensures PairUnseen(points, 2, 4)
  {
    FallingPair(points[2], points[3], points[4], points[0]);
  }

  lemma {:induction false} FivePairs(points: seq<Vec2>)
    requires |points| == 5
    requires PairUnseen(points, 0, 2) && PairUnseen(points, 0, 3) && PairUnseen(points, 1, 3)
    requires PairUnseen(points, 1, 4) && PairUnseen(points, 2, 4)
    ensures !SelfIntersects(points)
  {
    forall i, j | 0 <= i < 5 && 0 <= j < 5 && Apart(i, j, 5) ensures !EdgesCross(points, i, j) {
      assert (i, j) == (0, 2) || (i, j) == (0, 3) || (i, j) == (1, 3) || (i, j) == (1, 4) || (i, j) == (2, 4)
          || (j, i) == (0, 2) || (j, i) == (0, 3) || (j, i) == (1, 3) || (j, i) == (1, 4) || (j, i) == (2, 4);
    }
  }

  lemma {:induction false} ShoelaceStep(points: seq<Vec2>, k: nat, sum: real, p: Vec2, q: Vec2, term: real)
    requires k < |points| && ShoelaceTo(points, k) == sum
    requires p == points[k] && q == points[Next(k, |points|)] && CrossTerm(p, q) == term
    ensures ShoelaceTo(points, k + 1) == sum + term
  {
  }

  lemma TermOf(p: Vec2, q: Vec2, a: real, b: real, c: real, d: real)
    requires p.x == a && p.y == b && q.x == c && q.y == d
    ensures CrossTerm(p, q) == Mul(a, d) - Mul(c, b)
  {
    EqualProducts(p.x, q.y, a, d);
    EqualProducts(q.x, p.y, c, b);
  }

  lemma FirstTerm(p: Vec2, q: Vec2)
    requires p == Vec2(0.0, 0.0) && q == Vec2(0.0001, 0.0001)
    ensures CrossTerm(p, q) == 0.0
  {
    EqualProducts(p.x, q.y, 0.0, 0.0001);
    EqualProducts(q.x, p.y, 0.0001, 0.0);
  }

  lemma SecondTerm(p: Vec2, q: Vec2)
    requires p == Vec2(0.0001, 0.0001) && q == Vec2(0.0001, 1.0)
    ensures CrossTerm(p, q) == 0.00009999
  {
    EqualProducts(p.x, q.y, 0.0001, 1.0);
    EqualProducts(q.x, p.y, 0.0001, 0.0001);
  }

  lemma ThirdTerm(p: Vec2, q: Vec2)
    requires p == Vec2(0.0001, 1.0) && q == Vec2(0.0, 0.0001)
    ensures CrossTerm(p, q) == 0.00000001
  {
    EqualProducts(p.x, q.y, 0.0001, 0.0001);
    EqualProducts(q.x, p.y, 0.0, 1.0);
  }

  lemma FourthTerm(p: Vec2, q: Vec2)
    requires p == Vec2(0.0, 0.0001) && q == Vec2(0.0001, 0.0)
    ensures CrossTerm(p, q) == -0.00000001
  {
    EqualProducts(p.x, q.y, 0.0, 0.0);
    EqualProducts(q.x, p.y, 0.0001, 0.0001);
  }

  lemma FifthTerm(p: Vec2, q: Vec2)
    requires p == Vec2(0.0001, 0.0) && q == Vec2(0.0, 0.0)
    ensures CrossTerm(p, q) == 0.0
  {
    EqualProducts(p.x, q.y, 0.0001, 0.0);
    EqualProducts(q.x, p.y, 0.0, 0.0);
  }

  lemma {:induction false} FiveSum(points: seq<Vec2>, a: real, b: real, c: real, d: real, e: real)
    requires |points| == 5 && a == CrossTerm(points[0], points[1]) && b == CrossTerm(points[1], points[2])
    requires c == CrossTerm(points[2], points[3]) && d == CrossTerm(points[3], points[4]) && e == CrossTerm(points[4], points[0])
    ensures Shoelace(points) == a + b + c + d + e
  {
    ShoelaceStep(points, 0, 0.0, points[0], points[1], a);
    ShoelaceStep(points, 1, a, points[1], points[2], b);
    ShoelaceStep(points, 2, a + b, points[2], points[3], c);
    ShoelaceStep(points, 3, a + b + c, points[3], points[4], d);
    ShoelaceStep(points, 4, a + b + c + d, points[4], points[0], e);
  }

  lemma {:induction false} KnotArea(points: seq<Vec2>)
    requires IsKnot(points)
    ensures Shoelace(points) == 0.00009999
  {
    FirstTerm(points[0], points[1]);
    SecondTerm(points[1], points[2]);
    ThirdTerm(points[2], points[3]);
    FourthTerm(points[3], points[4]);
    FifthTerm(points[4], points[0]);
    FiveSum(points, 0.0, 0.00009999, 0.00000001, -0.00000001, 0.0);
  }

  ghost predicate Steps(points: seq<Vec2>) {
    && 3 <= |points| <= 128
    && (forall p :: p in points ==> Abs(p.x) <= 300.0 && Abs(p.y) <= 300.0)
    && (forall i :: 1 <= i < |points| ==> points[i] != points[i - 1])
    && points[0] != points[|points| - 1]
  }

  lemma {:induction false} KnotSteps(points: seq<Vec2>)
    requires IsKnot(points)
    ensures Steps(points)
  {
  }

  lemma KnotCrosses(p0: Vec2, p1: Vec2, p3: Vec2, p4: Vec2)
    requires p0 == Vec2(0.0, 0.0) && p1 == Vec2(0.0001, 0.0001) && p3 == Vec2(0.0, 0.0001) && p4 == Vec2(0.0001, 0.0)
    ensures Along(p0, p1, 0.5) == Along(p3, p4, 0.5)
    ensures Turn(p0, p1, p3, p4) < 0.0
  {
    KnotTurn(Toward(p0, p1), Toward(p3, p4));
  }

  lemma KnotTurn(u: Vec2, v: Vec2)
    requires u == Vec2(0.0001, 0.0001) && v == Vec2(0.0001, -0.0001)
    ensures Cross2(u, v) < 0.0
  {
    EqualProducts(u.x, v.y, 0.0001, v.y);
    EqualProducts(u.y, v.x, 0.0001, v.x);
  }

  lemma {:induction false} KnotUnseen(points: seq<Vec2>)
    requires IsKnot(points)
    ensures !SelfIntersects(points)
  {
    RisingUnseen(points);
    CrossingUnseen(points);
    SteepUnseen(points);
    UprightUnseen(points);
    FallingUnseen(points);
    FivePairs(points);
  }

  lemma {:induction false} KnotOk(points: seq<Vec2>)
    requires IsKnot(points)
    ensures ProfileOk(points, true)
  {
    KnotSteps(points);
    KnotArea(points);
    KnotUnseen(points);
    ProfileFrom(points, 0.00009999);
  }

  lemma {:induction false} ProfileFrom(points: seq<Vec2>, area: real)
    requires Steps(points) && !SelfIntersects(points)
    requires area == Shoelace(points) && area > 0.000000001
    ensures ProfileOk(points, true)
  {
  }

  /** The profile validator accepts a closed curve two of whose sides cross in their middles. */
  lemma {:induction false} CrossingProfileAccepted()
    ensures ProfileOk(KNOT, true)
    ensures Along(KNOT[0], KNOT[1], 0.5) == Along(KNOT[3], KNOT[4], 0.5)
    ensures Turn(KNOT[0], KNOT[1], KNOT[3], KNOT[4]) < 0.0
  {
    KnotOk(KNOT);
    KnotCrosses(KNOT[0], KNOT[1], KNOT[3], KNOT[4]);
  }
}
