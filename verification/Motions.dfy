/** Moving whole trees of nodes by changing only the transforms of their roots, and what that
    does to world positions and bounds. Both repair passes are such motions. */
module Motions {
  import opened Affine
  import opened Hull
  import opened Graphs
  import opened Program

  /** A motion of the program's frame: scale about the origin, then shift. */
  datatype Motion = Motion(ratio: real, shift: Vec3)

  /** The motion of each moved root. */
  type Moves = map<string, Motion>

  const STILL := Motion(1.0, ZERO)

  function Moved(m: Motion, p: Vec3): Vec3 { Add(Times(m.ratio, p), m.shift) }

  function MoveTransform(m: Motion, t: Transform): Transform {
    t.(translation := Moved(m, t.translation), scale := Times(m.ratio, t.scale))
  }

  function MoveNode(moves: Moves, n: Node): Node {
    if n.id in moves then n.(transform := MoveTransform(moves[n.id], n.transform)) else n
  }

  function MoveNodes(moves: Moves, nodes: Nodes): Nodes {
    map id | id in nodes ::
      if id in moves then nodes[id].(transform := MoveTransform(moves[id], nodes[id].transform)) else nodes[id]
  }

  function MoveAll(m: Motion, points: seq<Vec3>): (r: seq<Vec3>)
    ensures |r| == |points|
  {
    seq(|points|, i requires 0 <= i < |points| => Moved(m, points[i]))
  }

  function MoveBox(m: Motion, b: Hull.Box): Hull.Box { Hull.Box(Moved(m, b.min), Moved(m, b.max)) }

  predicate RootsOnly(moves: Moves, nodes: Nodes) {
    forall id :: id in moves ==> id in nodes && nodes[id].parent.None? && moves[id].ratio > 0.0
  }

  function MotionOf(moves: Moves, id: string): Motion { if id in moves then moves[id] else STILL }

  // ----- one transform

  lemma RotateScales(t: Transform, r: real, q: Vec3, q': Vec3)
    requires q' == Times(r, q)
    ensures Rotate(t, q') == Times(r, Rotate(t, q))
  {
    var u, u' := RotateX(t.rx, q), RotateX(t.rx, q');
    TurnXScales(t.rx, r, q, q', u, u');
    var v, v' := RotateY(t.ry, u), RotateY(t.ry, u');
    TurnYScales(t.ry, r, u, u', v, v');
    TurnZScales(t.rz, r, v, v', RotateZ(t.rz, v), RotateZ(t.rz, v'));
  }

  lemma TurnXScales(a: Angle, r: real, q: Vec3, q': Vec3, u: Vec3, u': Vec3)
    requires q' == Times(r, q) && u == RotateX(a, q) && u' == RotateX(a, q')
    ensures u' == Times(r, u)
  {
    PlaneScales(a, r, q.y, q.z, q'.y, q'.z, u.y, u.z, u'.y, u'.z);
  }

  lemma TurnYScales(a: Angle, r: real, q: Vec3, q': Vec3, u: Vec3, u': Vec3)
    requires q' == Times(r, q) && u == RotateY(a, q) && u' == RotateY(a, q')
    ensures u' == Times(r, u)
  {
    PlaneScales(a, r, q.z, q.x, q'.z, q'.x, u.z, u.x, u'.z, u'.x);
  }

  lemma TurnZScales(a: Angle, r: real, q: Vec3, q': Vec3, u: Vec3, u': Vec3)
    requires q' == Times(r, q) && u == RotateZ(a, q) && u' == RotateZ(a, q')
    ensures u' == Times(r, u)
  {
    PlaneScales(a, r, q.x, q.y, q'.x, q'.y, u.x, u.y, u'.x, u'.y);
  }

  lemma PlaneScales(a: Angle, r: real, u: real, v: real, u': real, v': real, x: real, y: real, x': real, y': real)
    requires u' == r * u && v' == r * v
    requires x == a.c * u - a.s * v && y == a.s * u + a.c * v
    requires x' == a.c * u' - a.s * v' && y' == a.s * u' + a.c * v'
    ensures x' == r * x && y' == r * y
  {
    EqualProducts(a.c, u', a.c, r * u);
    EqualProducts(a.s, v', a.s, r * v);
    EqualProducts(a.s, u', a.s, r * u);
    EqualProducts(a.c, v', a.c, r * v);
    EqualProducts(r, x, r, a.c * u - a.s * v);
    EqualProducts(r, y, r, a.s * u + a.c * v);
  }

  lemma StretchScales(r: real, k: Vec3, k': Vec3, p: Vec3)
    requires k' == Times(r, k)
    ensures Stretch(k', p) == Times(r, Stretch(k, p))
  {
    var q := Stretch(k, p);
    Associate(r, k.x, p.x, k'.x, q.x);
    Associate(r, k.y, p.y, k'.y, q.y);
    Associate(r, k.z, p.z, k'.z, q.z);
  }

  lemma {:induction false} MovedSum(m: Motion, a: Vec3, b: Vec3, b': Vec3, sum: Vec3)
    requires sum == Add(a, b) && b' == Times(m.ratio, b)
    ensures Moved(m, sum) == Add(Moved(m, a), b')
  {
    Distribute(m.ratio, a.x, b.x, sum.x);
    Distribute(m.ratio, a.y, b.y, sum.y);
    Distribute(m.ratio, a.z, b.z, sum.z);
  }

  /** Moving a transform moves every point that it places. */
  lemma {:induction false} ApplyMoves(m: Motion, t: Transform, p: Vec3)
    ensures ApplyTransform(MoveTransform(m, t), p) == Moved(m, ApplyTransform(t, p))
  {
    var t' := MoveTransform(m, t);
    var q, q' := Stretch(t.scale, p), Stretch(t'.scale, p);
    StretchScales(m.ratio, t.scale, t'.scale, p);
    RotateScales(t, m.ratio, q, q');
    SameTurn(t, t', q');
    MovedSum(m, t.translation, Rotate(t, q), Rotate(t, q'), ApplyTransform(t, p));
  }

  lemma SameTurn(t: Transform, t': Transform, q: Vec3)
    requires t'.rx == t.rx && t'.ry == t.ry && t'.rz == t.rz
    ensures Rotate(t', q) == Rotate(t, q)
  {
  }

  lemma Distribute(r: real, a: real, b: real, c: real)
    requires c == a + b
    ensures r * c == r * a + r * b
  {
    EqualProducts(r, c, r, a + b);
  }

  // ----- whole trees

  lemma {:induction false} MotionKeepsGraph(moves: Moves, nodes: Nodes)
    ensures DependencyGraph(MoveNodes(moves, nodes)) == DependencyGraph(nodes)
    ensures KindsOk(nodes) ==> KindsOk(MoveNodes(moves, nodes))
    ensures Grounded(nodes) ==> Grounded(MoveNodes(moves, nodes))
  {
  }

  /** The topmost ancestor. */
  function Top(id: string, nodes: Nodes): string
    requires Grounded(nodes) && id in nodes
    decreases Rank(DependencyGraph(nodes))[id]
  {
    if nodes[id].parent.None? then id
    else
      assert nodes[id].parent.value in DependencyGraph(nodes)[id];
      Top(nodes[id].parent.value, nodes)
  }

  lemma {:induction false} TopIsRoot(id: string, nodes: Nodes)
    requires Grounded(nodes) && id in nodes
    ensures Top(id, nodes) in nodes && nodes[Top(id, nodes)].parent.None?
    decreases Rank(DependencyGraph(nodes))[id]
  {
    if nodes[id].parent.Some? {
      assert nodes[id].parent.value in DependencyGraph(nodes)[id];
      TopIsRoot(nodes[id].parent.value, nodes);
    }
  }

  ghost predicate TransformsOk(nodes: Nodes) {
    forall id :: id in nodes ==> TransformOk(nodes[id].transform)
  }

  lemma {:induction false} PlaceIsInjective(id: string, nodes: Nodes, p: Vec3, q: Vec3)
    requires Grounded(nodes) && id in nodes && TransformsOk(nodes)
    requires Place(id, nodes, p) == Place(id, nodes, q)
    ensures p == q
    decreases Rank(DependencyGraph(nodes))[id]
  {
    var node := nodes[id];
    if node.parent.Some? {
      assert node.parent.value in DependencyGraph(nodes)[id];
      PlaceIsInjective(node.parent.value, nodes, ApplyTransform(node.transform, p), ApplyTransform(node.transform, q));
    }
    ApplyIsInjective(node.transform, p, q);
  }

  /** Every point of a node moves with the node's topmost ancestor, and stays if that stays. */
  lemma {:induction false} PlacesMove(id: string, nodes: Nodes, moves: Moves, p: Vec3)
    requires Grounded(nodes) && id in nodes && RootsOnly(moves, nodes)
    ensures Grounded(MoveNodes(moves, nodes))
    ensures Place(id, MoveNodes(moves, nodes), p) == Moved(MotionOf(moves, Top(id, nodes)), Place(id, nodes, p))
    decreases Rank(DependencyGraph(nodes))[id]
  {
    MotionKeepsGraph(moves, nodes);
    var node := nodes[id];
    if node.parent.Some? {
      var parent := node.parent.value;
      assert parent in DependencyGraph(nodes)[id];
      PlacesMove(parent, nodes, moves, ApplyTransform(node.transform, p));
    } else if id in moves {
      ApplyMoves(moves[id], node.transform, p);
    } else {
      StillMoves(Place(id, nodes, p));
    }
  }

  lemma StillMoves(p: Vec3)
    ensures Moved(STILL, p) == p
  {
  }

  // ----- bounds

  lemma {:induction false} LeastMoves(v: seq<real>, w: seq<real>, r: real, k: real)
    requires v != [] && |w| == |v| && r > 0.0
    requires forall i :: 0 <= i < |v| ==> w[i] == Mul(r, v[i]) + k
    ensures Least(w) == Mul(r, Least(v)) + k
  {
    var i :| 0 <= i < |v| && v[i] == Least(v);
    forall j | 0 <= j < |v| ensures w[i] <= w[j] {
      assert Least(v) <= v[j];
      MulLeq(r, v[i], v[j]);
    }
    LeastIs(w, i);
  }

  lemma {:induction false} GreatestMoves(v: seq<real>, w: seq<real>, r: real, k: real)
    requires v != [] && |w| == |v| && r > 0.0
    requires forall i :: 0 <= i < |v| ==> w[i] == Mul(r, v[i]) + k
    ensures Greatest(w) == Mul(r, Greatest(v)) + k
  {
    var i :| 0 <= i < |v| && v[i] == Greatest(v);
    forall j | 0 <= j < |v| ensures w[j] <= w[i] {
      assert v[j] <= Greatest(v);
      MulLeq(r, v[j], v[i]);
    }
    GreatestIs(w, i);
  }

  lemma {:induction false} LeastIs(values: seq<real>, i: nat)
    requires i < |values| && forall j :: 0 <= j < |values| ==> values[i] <= values[j]
    ensures Least(values) == values[i]
  {
  }

  lemma {:induction false} GreatestIs(values: seq<real>, i: nat)
    requires i < |values| && forall j :: 0 <= j < |values| ==> values[j] <= values[i]
    ensures Greatest(values) == values[i]
  {
  }

  lemma MulLeq(r: real, a: real, b: real)
    requires r > 0.0 && a <= b
    ensures Mul(r, a) <= Mul(r, b)
  {
  }

  lemma {:induction false} BoundsMove(m: Motion, points: seq<Vec3>)
    requires points != [] && m.ratio > 0.0
    ensures PointBounds(MoveAll(m, points)) == MoveBox(m, PointBounds(points))
  {
    XBoundsMove(m, points);
    YBoundsMove(m, points);
    ZBoundsMove(m, points);
    MovedAxes(m, PointBounds(points).min);
    MovedAxes(m, PointBounds(points).max);
  }

  lemma {:induction false} MovedAxes(m: Motion, p: Vec3)
    ensures Moved(m, p).x == Mul(m.ratio, p.x) + m.shift.x
    ensures Moved(m, p).y == Mul(m.ratio, p.y) + m.shift.y
    ensures Moved(m, p).z == Mul(m.ratio, p.z) + m.shift.z
  {
  }

  lemma {:induction false} XBoundsMove(m: Motion, points: seq<Vec3>)
    requires points != [] && m.ratio > 0.0
    ensures PointBounds(MoveAll(m, points)).min.x == Mul(m.ratio, PointBounds(points).min.x) + m.shift.x
    ensures PointBounds(MoveAll(m, points)).max.x == Mul(m.ratio, PointBounds(points).max.x) + m.shift.x
  {
    var v, w := Xs(points), Xs(MoveAll(m, points));
    forall i | 0 <= i < |v| ensures w[i] == Mul(m.ratio, v[i]) + m.shift.x {
      MovedAxes(m, points[i]);
    }
    LeastMoves(v, w, m.ratio, m.shift.x);
    GreatestMoves(v, w, m.ratio, m.shift.x);
  }

  lemma {:induction false} YBoundsMove(m: Motion, points: seq<Vec3>)
    requires points != [] && m.ratio > 0.0
    ensures PointBounds(MoveAll(m, points)).min.y == Mul(m.ratio, PointBounds(points).min.y) + m.shift.y
    ensures PointBounds(MoveAll(m, points)).max.y == Mul(m.ratio, PointBounds(points).max.y) + m.shift.y
  {
    var v, w := Ys(points), Ys(MoveAll(m, points));
    forall i | 0 <= i < |v| ensures w[i] == Mul(m.ratio, v[i]) + m.shift.y {
      MovedAxes(m, points[i]);
    }
    LeastMoves(v, w, m.ratio, m.shift.y);
    GreatestMoves(v, w, m.ratio, m.shift.y);
  }

  lemma {:induction false} ZBoundsMove(m: Motion, points: seq<Vec3>)
    requires points != [] && m.ratio > 0.0
    ensures PointBounds(MoveAll(m, points)).min.z == Mul(m.ratio, PointBounds(points).min.z) + m.shift.z
    ensures PointBounds(MoveAll(m, points)).max.z == Mul(m.ratio, PointBounds(points).max.z) + m.shift.z
  {
    var v, w := Zs(points), Zs(MoveAll(m, points));
    forall i | 0 <= i < |v| ensures w[i] == Mul(m.ratio, v[i]) + m.shift.z {
      MovedAxes(m, points[i]);
    }
    LeastMoves(v, w, m.ratio, m.shift.z);
    GreatestMoves(v, w, m.ratio, m.shift.z);
  }

  lemma {:induction false} MoveAllAppends(m: Motion, a: seq<Vec3>, b: seq<Vec3>)
    ensures MoveAll(m, a + b) == MoveAll(m, a) + MoveAll(m, b)
  {
  }
}
