/** What the worker makes of each node, as a set of points, and the proof that the envelope
    contains it.

    A mesh stands for every point in the closed convex hull of its vertices, which contains
    the solid the mesh bounds. A boolean's result is only known to respect its operation, and a
    curve, a bevel or a solidified surface to stay close to what it is made from. */
module EnvelopeSound {
  import opened Affine
  import opened Hull
  import opened Graphs
  import opened Polygon
  import opened Program
  import opened MeshVertices
  import opened SweepFrames
  import opened Envelope

  type Solid = iset<Vec3>

  function Square(x: real): real { x * x }

  ghost predicate InShape(s: Shape, p: Vec3) {
    match s
    case Box(size) => Abs(p.x) <= size.x / 2.0 && Abs(p.y) <= size.y / 2.0 && Abs(p.z) <= size.z / 2.0
    case Cylinder(radius, height) => Square(p.x) + Square(p.y) <= Square(radius) && Abs(p.z) <= height / 2.0
    case Cone(radius, topRadius, height) =>
      Square(p.x) + Square(p.y) <= Square(MaxReal(radius, topRadius)) && Abs(p.z) <= height / 2.0
    case UvSphere(radius) => Square(p.x) + Square(p.y) + Square(p.z) <= Square(radius)
  }

  /** Of an imported asset nothing is known but its declared size. */
  predicate Covered(k: Kind) { !k.ExactAsset? }

  /** A tube around a path, or a bevelled or solidified surface: it has no vertex that is
      further than the depth from some point of what it is made from. */
  ghost predicate IsSwollen(source: Solid, depth: real, p: Vec3) {
    exists mesh :: Hugs(source, depth, mesh) && InHull(p, mesh)
  }

  ghost predicate Hugs(source: Solid, depth: real, mesh: seq<Vec3>) {
    forall i :: 0 <= i < |mesh| ==> exists c :: c in source && Close(mesh[i], c, depth)
  }

  predicate Close(v: Vec3, c: Vec3, depth: real) {
    Square(v.x - c.x) + Square(v.y - c.y) + Square(v.z - c.z) <= Square(depth)
  }

  ghost predicate MeshHolds(sqrt: real -> real, k: Kind, outline: seq<Vec2>, p: Vec3)
    requires KindOk(k)
  {
    match k
    case Primitive(shape) => InShape(shape, p)
    case Curve(points, depth) => IsSwollen((iset q | q in points), depth, p)
    case Extrude(_, depth) => InHull(p, ExtrudeVertices(outline, depth))
    case Revolve(_, _, _, rings) => InHull(p, Stack(RevolveRings(outline, rings)))
    case Sweep(_, path, cyclic) => InHull(p, Stack(SweepRings(sqrt, outline, path, cyclic)))
    case Terrain(width, breadth, columns, rows, heights) =>
      InHull(p, Stack(TerrainRows(width, breadth, columns, rows, heights)))
    case _ => false
  }

  /** A point of an operand, placed in the program's frame as the boolean bakes it. */
  ghost predicate InPlaced(id: string, nodes: Nodes, solids: map<string, Solid>, p: Vec3)
    requires Grounded(nodes) && id in nodes && solids.Keys == nodes.Keys
  {
    exists q :: q in solids[id] && p == Place(id, nodes, q)
  }

  function CopyAt(q: Vec3, k: nat, offset: Vec3): Vec3 { Add(q, Times(k as real, offset)) }

  ghost predicate IsCopy(source: Solid, count: nat, offset: Vec3, p: Vec3) {
    exists k: nat, q :: k < count && q in source && p == CopyAt(q, k, offset)
  }

  /** The mirror modifier works axis by axis: with k axes there are 2^k copies. */
  predicate MirroredCopy(m: Modifier, q: Vec3, p: Vec3)
    requires m.Mirror?
  {
    && (p.x == q.x || (m.onX && p.x == -q.x))
    && (p.y == q.y || (m.onY && p.y == -q.y))
    && (p.z == q.z || (m.onZ && p.z == -q.z))
  }

  ghost predicate IsMirrored(source: Solid, m: Modifier, p: Vec3)
    requires m.Mirror?
  {
    exists q :: q in source && MirroredCopy(m, q, p)
  }

  /** What a modifier may make of its source. */
  ghost predicate IsModified(source: Solid, m: Modifier, p: Vec3) {
    match m
    case Bevel(width) => IsSwollen(source, width, p)
    case Solidify(thickness) => IsSwollen(source, Abs(thickness), p)
    case Mirror(_, _, _) => IsMirrored(source, m, p)
  }

  /** p may be in what the worker makes of this node, given what it made of its sources. */
  ghost predicate Allows(sqrt: real -> real, id: string, nodes: Nodes, solids: map<string, Solid>, p: Vec3)
    requires Grounded(nodes) && KindsOk(nodes) && id in nodes && solids.Keys == nodes.Keys
    requires NodeDependencies(nodes[id].kind) <= nodes.Keys && KindOk(nodes[id].kind)
  {
    match nodes[id].kind
    case Instance(source) => p in solids[source]
    case Array(source, count, offset) => IsCopy(solids[source], count, offset, p)
    case Modified(source, modifier) => IsModified(solids[source], modifier, p)
    case Boolean(left, right, Union) => InPlaced(left, nodes, solids, p) || InPlaced(right, nodes, solids, p)
    case Boolean(left, right, Difference) => InPlaced(left, nodes, solids, p)
    case Boolean(left, right, Intersection) => InPlaced(left, nodes, solids, p) && InPlaced(right, nodes, solids, p)
    case _ =>
      var outline := OutlineFor(nodes[id].kind, nodes);
      outline.Ok? && MeshHolds(sqrt, nodes[id].kind, outline.value, p)
  }

  /** A possible outcome of compiling the program. */
  ghost predicate Compiled(sqrt: real -> real, nodes: Nodes, solids: map<string, Solid>)
    requires Grounded(nodes) && KindsOk(nodes)
  {
    && solids.Keys == nodes.Keys
    && forall id, p :: id in nodes && p in solids[id] ==>
         && Covered(nodes[id].kind)
         && KindOk(nodes[id].kind) && NodeDependencies(nodes[id].kind) <= nodes.Keys
         && Allows(sqrt, id, nodes, solids, p)
  }

  // ----- leaves

  lemma SquareBounds(x: real, rest: real, radius: real)
    requires rest >= 0.0 && radius >= 0.0 && Square(x) + rest <= Square(radius)
    ensures Abs(x) <= radius
  {
    SquareOfNegation(x);
    if Abs(x) > radius {
      Larger(radius, Abs(x));
    }
  }

  lemma SquareOfNegation(x: real)
    ensures Square(-x) == Square(x)
  {
  }

  lemma Larger(a: real, b: real)
    requires 0.0 <= a < b
    ensures Square(a) < Square(b)
  {
    assert b * b - a * a == (b - a) * (b + a);
    ScaleLess(b - a, 0.0, b + a);
  }

  lemma SquareIsNonNegative(x: real)
    ensures Square(x) >= 0.0
  {
  }

  lemma {:induction false} ShapeInBox(s: Shape, p: Vec3)
    requires ShapeOk(s) && InShape(s, p)
    ensures InHull(p, BoundsCorners(Centered(HalfSize(s))))
  {
    SquareIsNonNegative(p.x);
    SquareIsNonNegative(p.y);
    SquareIsNonNegative(p.z);
    match s {
      case Box(_) =>
      case Cylinder(radius, _) =>
        SquareBounds(p.x, Square(p.y), radius);
        SquareBounds(p.y, Square(p.x), radius);
      case Cone(radius, topRadius, _) =>
        SquareBounds(p.x, Square(p.y), MaxReal(radius, topRadius));
        SquareBounds(p.y, Square(p.x), MaxReal(radius, topRadius));
      case UvSphere(radius) =>
        SquareBounds(p.x, Square(p.y) + Square(p.z), radius);
        SquareBounds(p.y, Square(p.x) + Square(p.z), radius);
        SquareBounds(p.z, Square(p.x) + Square(p.y), radius);
    }
    BoxInCornerHull(Centered(HalfSize(s)), p);
  }

  /** If every vertex of a mesh is in a box, its hull is in the hull of the box's corners. */
  lemma {:induction false} VerticesInBox(vertices: seq<Vec3>, b: Hull.Box, p: Vec3)
    requires InHull(p, vertices)
    requires forall i :: 0 <= i < |vertices| ==> Inside(b, vertices[i])
    ensures InHull(p, BoundsCorners(b))
  {
    forall i | 0 <= i < |vertices| ensures InHull(vertices[i], BoundsCorners(b)) {
      BoxInCornerHull(b, vertices[i]);
    }
    HullTransitive(p, vertices, BoundsCorners(b));
  }

  lemma {:induction false} OutlineInRange(outline: seq<Vec2>, j: nat)
    requires j < |outline|
    ensures Least(OutlineXs(outline)) <= outline[j].x <= Greatest(OutlineXs(outline))
    ensures Least(OutlineYs(outline)) <= outline[j].y <= Greatest(OutlineYs(outline))
    ensures Abs(outline[j].x) <= Greatest(Radii(outline))
  {
    assert OutlineXs(outline)[j] == outline[j].x;
    assert OutlineYs(outline)[j] == outline[j].y;
    assert Radii(outline)[j] == Abs(outline[j].x);
  }

  lemma {:induction false} ExtrudeInBox(outline: seq<Vec2>, depth: real, p: Vec3)
    requires outline != [] && depth > 0.0
    requires InHull(p, ExtrudeVertices(outline, depth))
    ensures InHull(p, BoundsCorners(Slab(outline, -(depth / 2.0), depth / 2.0)))
  {
    var vertices := ExtrudeVertices(outline, depth);
    var b := Slab(outline, -(depth / 2.0), depth / 2.0);
    forall i | 0 <= i < |vertices| ensures Inside(b, vertices[i]) {
      OutlineInRange(outline, if i < |outline| then i else i - |outline|);
    }
    VerticesInBox(vertices, b, p);
  }

  lemma RotationKeepsRadius(p: Vec2, angle: Angle)
    requires angle.Unit()
    ensures Abs(RevolveVertex(p, angle).x) <= Abs(p.x)
    ensures Abs(RevolveVertex(p, angle).y) <= Abs(p.x)
  {
    UnitBounds(angle);
    Shrink(p.x, angle.c, RevolveVertex(p, angle).x);
    Shrink(p.x, angle.s, RevolveVertex(p, angle).y);
  }

  lemma UnitBounds(angle: Angle)
    requires angle.Unit()
    ensures Abs(angle.c) <= 1.0 && Abs(angle.s) <= 1.0
  {
    SquareIsNonNegative(angle.c);
    SquareIsNonNegative(angle.s);
    SquareBounds(angle.c, Square(angle.s), 1.0);
    SquareBounds(angle.s, Square(angle.c), 1.0);
  }

  lemma Shrink(r: real, c: real, v: real)
    requires Abs(c) <= 1.0 && v == r * c
    ensures Abs(v) <= Abs(r)
  {
    ScaleByFraction(r, c);
  }

  lemma {:induction false} RevolveVertexInside(outline: seq<Vec2>, angle: Angle, j: nat)
    requires angle.Unit() && j < |outline|
    ensures Inside(RevolveBox(outline), RevolveRing(outline, angle)[j])
  {
    OutlineInRange(outline, j);
    RotationKeepsRadius(outline[j], angle);
  }

  lemma {:induction false} RevolveInBox(outline: seq<Vec2>, rings: seq<Angle>, p: Vec3)
    requires outline != [] && forall i :: 0 <= i < |rings| ==> rings[i].Unit()
    requires InHull(p, Stack(RevolveRings(outline, rings)))
    ensures InHull(p, BoundsCorners(RevolveBox(outline)))
  {
    var vertices := Stack(RevolveRings(outline, rings));
    var b := RevolveBox(outline);
    forall k | 0 <= k < |vertices| ensures Inside(b, vertices[k]) {
      var i, j := StackMember(RevolveRings(outline, rings), k);
      RevolveVertexInside(outline, rings[i], j);
    }
    VerticesInBox(vertices, b, p);
  }

  lemma {:induction false} Proportion(width: real, k: nat, n: nat, v: real)
    requires width > 0.0 && 0 < n && k <= n && v == GridCoordinate(width, k, n)
    ensures -width / 2.0 <= v <= width / 2.0
  {
    Ratio(width, k as real, n as real, width * k as real / n as real);
  }

  lemma Ratio(width: real, a: real, b: real, q: real)
    requires width > 0.0 && 0.0 <= a <= b && b > 0.0 && q == width * a / b
    ensures 0.0 <= q <= width
  {
    assert b * q == width * a;
    ScaleLeq(width, a, b);
    ScaleLeq(width, 0.0, a);
    if q < 0.0 {
      ScaleLess(b, q, 0.0);
    }
    if q > width {
      ScaleLess(b, width, q);
    }
  }

  lemma {:induction false} TerrainVertexInside(width: real, breadth: real, columns: nat, rows: nat, heights: seq<real>, row: nat, column: nat)
    requires width > 0.0 && breadth > 0.0 && columns >= 2 && rows >= 2 && columns * rows == |heights| && heights != []
    requires row < rows && column < columns
    ensures Inside(TerrainBox(width, breadth, heights), TerrainRow(width, breadth, columns, rows, heights, row)[column])
  {
    GridIndex(row, column, rows, columns);
    var v := TerrainRow(width, breadth, columns, rows, heights, row)[column];
    Proportion(width, column, columns - 1, v.x);
    Proportion(breadth, row, rows - 1, v.y);
    assert v.z == heights[row * columns + column];
  }

  lemma {:induction false} TerrainInBox(width: real, breadth: real, columns: nat, rows: nat, heights: seq<real>, p: Vec3)
    requires width > 0.0 && breadth > 0.0 && columns >= 2 && rows >= 2 && columns * rows == |heights| && heights != []
    requires InHull(p, Stack(TerrainRows(width, breadth, columns, rows, heights)))
    ensures InHull(p, BoundsCorners(TerrainBox(width, breadth, heights)))
  {
    var grid := TerrainRows(width, breadth, columns, rows, heights);
    var b := TerrainBox(width, breadth, heights);
    forall k | 0 <= k < |Stack(grid)| ensures Inside(b, Stack(grid)[k]) {
      var row, column := StackMember(grid, k);
      TerrainVertexInside(width, breadth, columns, rows, heights, row, column);
    }
    VerticesInBox(Stack(grid), b, p);
  }

  lemma {:induction false} CloseInside(b: Hull.Box, depth: real, v: Vec3, c: Vec3)
    requires depth >= 0.0 && Inside(b, c) && Close(v, c, depth)
    ensures Inside(Padded(b, depth), v)
  {
    SquareIsNonNegative(v.x - c.x);
    SquareIsNonNegative(v.y - c.y);
    SquareIsNonNegative(v.z - c.z);
    SquareBounds(v.x - c.x, Square(v.y - c.y) + Square(v.z - c.z), depth);
    SquareBounds(v.y - c.y, Square(v.x - c.x) + Square(v.z - c.z), depth);
    SquareBounds(v.z - c.z, Square(v.x - c.x) + Square(v.y - c.y), depth);
  }

  lemma {:induction false} SwollenInBox(source: Solid, b: Hull.Box, depth: real, p: Vec3)
    requires depth >= 0.0 && IsSwollen(source, depth, p) && forall c :: c in source ==> Inside(b, c)
    ensures InHull(p, BoundsCorners(Padded(b, depth)))
  {
    var mesh :| Hugs(source, depth, mesh) && InHull(p, mesh);
    forall i | 0 <= i < |mesh| ensures Inside(Padded(b, depth), mesh[i]) {
      var c :| c in source && Close(mesh[i], c, depth);
      CloseInside(b, depth, mesh[i], c);
    }
    VerticesInBox(mesh, Padded(b, depth), p);
  }

  lemma {:induction false} PaddedContains(source: Solid, points: seq<Vec3>, depth: real, p: Vec3)
    requires points != [] && depth >= 0.0 && IsSwollen(source, depth, p) && forall c :: c in source ==> InHull(c, points)
    ensures InHull(p, BoundsCorners(Padded(PointBounds(points), depth)))
  {
    forall c | c in source ensures Inside(PointBounds(points), c) {
      HullInsideBounds(c, points);
    }
    SwollenInBox(source, PointBounds(points), depth, p);
  }

  lemma {:induction false} SweepInHull(sqrt: real -> real, outline: seq<Vec2>, path: seq<Vec3>, cyclic: bool, p: Vec3)
    requires IsSquareRoot(sqrt) && PathClear(path, cyclic)
    requires InHull(p, Stack(SweepRings(sqrt, outline, path, cyclic)))
    ensures InHull(p, Stack(ContractRings(sqrt, outline, path, cyclic)))
  {
    ClearListsAgree(sqrt, outline, path, cyclic);
  }

  /** A mesh that the worker builds from a node's own fields lies in the hull of the corners
      that the contract lists for it. */
  lemma {:induction false} LeafContains(sqrt: real -> real, k: Kind, outline: seq<Vec2>, p: Vec3)
    requires IsLeaf(k) && KindOk(k) && (UsesProfile(k) ==> outline != [])
    requires MeshHolds(sqrt, k, outline, p)
    requires k.Sweep? ==> IsSquareRoot(sqrt) && PathClear(k.path, k.cyclic)
    ensures InHull(p, LeafCorners(sqrt, k, outline))
  {
    if k.Primitive? {
      ShapeInBox(k.shape, p);
    } else if k.Curve? {
      SwollenInBox((iset q | q in k.points), PointBounds(k.points), k.bevelDepth, p);
    } else if k.Extrude? {
      ExtrudeInBox(outline, k.depth, p);
    } else if k.Revolve? {
      RevolveInBox(outline, k.rings, p);
    } else if k.Sweep? {
      SweepInHull(sqrt, outline, k.path, k.cyclic, p);
    } else if k.Terrain? {
      GridIndex(0, 0, k.rows, k.columns);
      TerrainInBox(k.width, k.breadth, k.columns, k.rows, k.heights, p);
    }
  }

  /** Every sweep path of the program is clear: along it the contract and the worker see the
      same directions. */
  ghost predicate PathsClear(nodes: Nodes) {
    forall id :: id in nodes && nodes[id].kind.Sweep? ==> PathClear(nodes[id].kind.path, nodes[id].kind.cyclic)
  }

  /** Every mirror of the program has one axis. */
  ghost predicate MirrorsSingle(nodes: Nodes) {
    forall id :: id in nodes && nodes[id].kind.Modified? && nodes[id].kind.modifier.Mirror? ==> SingleAxis(nodes[id].kind.modifier)
  }

  predicate SingleAxis(m: Modifier)
    requires m.Mirror?
  {
    (m.onX && !m.onY && !m.onZ) || (!m.onX && m.onY && !m.onZ) || (!m.onX && !m.onY && m.onZ)
  }

  // ----- mirrors

  lemma {:induction false} ReflectedDot(m: Modifier, f: Vec3, p: Vec3)
    requires m.Mirror?
    ensures Dot(f, ReflectPoint(m, p)) == Dot(ReflectPoint(m, f), p)
  {
  }

  lemma {:induction false} HullReflects(m: Modifier, q: Vec3, points: seq<Vec3>)
    requires m.Mirror? && InHull(q, points)
    ensures InHull(ReflectPoint(m, q), Reflect(points, m))
  {
    forall f: Vec3 ensures SomeBeyond(f, ReflectPoint(m, q), Reflect(points, m)) {
      var g := ReflectPoint(m, f);
      assert SomeBeyond(g, q, points);
      var i :| 0 <= i < |points| && Dot(g, q) <= Dot(g, points[i]);
      ReflectedDot(m, f, q);
      ReflectedDot(m, f, points[i]);
      assert Reflect(points, m)[i] == ReflectPoint(m, points[i]);
    }
  }

  lemma {:induction false} MirrorContains(m: Modifier, q: Vec3, p: Vec3, points: seq<Vec3>)
    requires m.Mirror? && SingleAxis(m) && MirroredCopy(m, q, p) && InHull(q, points)
    ensures InHull(p, points + Reflect(points, m))
  {
    if p == q {
      HullOfEither(p, points, Reflect(points, m));
    } else {
      assert p == ReflectPoint(m, q);
      HullReflects(m, q, points);
      HullOfEither(p, points, Reflect(points, m));
    }
  }

  lemma {:induction false} ModifiedContains(m: Modifier, source: Solid, points: seq<Vec3>, p: Vec3)
    requires points != [] && (m.Bevel? ==> m.width >= 0.0) && (m.Mirror? ==> SingleAxis(m))
    requires IsModified(source, m, p) && forall q :: q in source ==> InHull(q, points)
    ensures InHull(p, ModifiedCorners(points, m))
  {
    match m {
      case Bevel(width) =>
        PaddedContains(source, points, width, p);
      case Solidify(thickness) =>
        PaddedContains(source, points, Abs(thickness), p);
      case Mirror(_, _, _) =>
        var q :| q in source && MirroredCopy(m, q, p);
        MirrorContains(m, q, p, points);
    }
  }

  /** The contract reflects along all axes at once, so what it lists holds every copy of every
      geometry exactly if there is a single axis. */
  ghost predicate MirrorListed(m: Modifier)
    requires m.Mirror?
  {
    forall points, q, p :: points != [] && InHull(q, points) && MirroredCopy(m, q, p) ==> InHull(p, points + Reflect(points, m))
  }

  lemma {:induction false} MirrorListedIff(m: Modifier)
    requires m.Mirror? && (m.onX || m.onY || m.onZ)
    ensures MirrorListed(m) <==> SingleAxis(m)
  {
    if SingleAxis(m) {
      forall points, q, p | points != [] && InHull(q, points) && MirroredCopy(m, q, p)
        ensures InHull(p, points + Reflect(points, m))
      {
        MirrorContains(m, q, p, points);
      }
    } else {
      var p := if m.onX then Vec3(-1.0, 1.0, 1.0) else Vec3(1.0, -1.0, 1.0);
      var f := if !m.onX then Vec3(0.0, -1.0, 1.0) else if m.onY then Vec3(-1.0, 1.0, 0.0) else Vec3(-1.0, 0.0, 1.0);
      CopyIsBeyond(m, Vec3(1.0, 1.0, 1.0), p, f);
    }
  }

  lemma {:induction false} CopyIsBeyond(m: Modifier, q: Vec3, p: Vec3, f: Vec3)
    requires m.Mirror? && MirroredCopy(m, q, p) && Dot(f, p) > Dot(f, q) && Dot(f, p) > Dot(f, ReflectPoint(m, q))
    ensures !MirrorListed(m)
  {
    var points := [q];
    MemberInHull(points, 0);
    assert points + Reflect(points, m) == [q, ReflectPoint(m, q)];
    assert !SomeBeyond(f, p, [q, ReflectPoint(m, q)]);
    assert !InHull(p, points + Reflect(points, m));
  }

  // ----- copies and combinations

  lemma {:induction false} RepeatContains(points: seq<Vec3>, count: nat, offset: Vec3, k: nat, q: Vec3)
    requires k < count && InHull(q, points)
    ensures InHull(Add(q, Times(k as real, offset)), Repeat(points, count, offset))
  {
    var copies := Repeat(points, count, offset);
    var shift := Times((count - 1) as real, offset);
    if k == count - 1 {
      forall i | 0 <= i < |points| ensures Add(points[i], shift) in copies {
        assert ShiftAll(points, shift)[i] in ShiftAll(points, shift);
      }
      HullShifts(q, points, shift, copies);
    } else {
      RepeatContains(points, count - 1, offset, k, q);
      HullOfPart(Add(q, Times(k as real, offset)), Repeat(points, count - 1, offset), copies);
    }
  }

  lemma {:induction false} CombinedContains(operation: BooleanOp, left: seq<Vec3>, right: seq<Vec3>, p: Vec3)
    requires left != [] && right != [] && CombinedCorners(operation, left, right).Ok?
    requires match operation
             case Union => InHull(p, left) || InHull(p, right)
             case Difference => InHull(p, left)
             case Intersection => InHull(p, left) && InHull(p, right)
    ensures InHull(p, CombinedCorners(operation, left, right).value)
  {
    match operation {
      case Union =>
        HullOfEither(p, left, right);
      case Difference =>
      case Intersection =>
        HullInsideBounds(p, left);
        HullInsideBounds(p, right);
        BoxInCornerHull(Overlap(PointBounds(left), PointBounds(right)), p);
    }
  }

  lemma {:induction false} HullOfEither(p: Vec3, left: seq<Vec3>, right: seq<Vec3>)
    requires InHull(p, left) || InHull(p, right)
    ensures InHull(p, left + right)
  {
    if InHull(p, left) {
      HullOfPart(p, left, left + right);
    } else {
      HullOfPart(p, right, left + right);
    }
  }

  lemma {:induction false} PlacedContains(id: string, nodes: Nodes, q: Vec3, points: seq<Vec3>)
    requires Grounded(nodes) && id in nodes && InHull(q, points)
    ensures InHull(Place(id, nodes, q), MapPoints(WorldMatrix(id, nodes), points))
  {
    WorldMatrixPlaces(id, nodes, q);
    HullMaps(WorldMatrix(id, nodes), q, points);
  }

  /** The node-level theorem: a node's local geometry lies in the hull of its corner list. */
  lemma {:induction false} CornersContain(sqrt: real -> real, id: string, nodes: Nodes, solids: map<string, Solid>,
                                          visiting: set<string>, p: Vec3)
    requires Grounded(nodes) && KindsOk(nodes) && Compiled(sqrt, nodes, solids)
    requires IsSquareRoot(sqrt) && PathsClear(nodes) && MirrorsSingle(nodes)
    requires id in nodes && p in solids[id] && GeometryCorners(sqrt, id, nodes, visiting).Ok?
    ensures InHull(p, GeometryCorners(sqrt, id, nodes, visiting).value)
    decreases nodes.Keys - visiting, 1
  {
    var inner := visiting + {id};
    SourcesKnown(id, nodes);
    var kind := nodes[id].kind;
    if kind.Instance? {
      CornersContain(sqrt, kind.source, nodes, solids, inner, p);
    } else if kind.Array? {
      var k: nat, q :| k < kind.count && q in solids[kind.source] && p == CopyAt(q, k, kind.offset);
      CornersContain(sqrt, kind.source, nodes, solids, inner, q);
      RepeatContains(GeometryCorners(sqrt, kind.source, nodes, inner).value, kind.count, kind.offset, k, q);
    } else if kind.Modified? {
      forall q | q in solids[kind.source] ensures InHull(q, GeometryCorners(sqrt, kind.source, nodes, inner).value) {
        CornersContain(sqrt, kind.source, nodes, solids, inner, q);
      }
      ModifiedContains(kind.modifier, solids[kind.source], GeometryCorners(sqrt, kind.source, nodes, inner).value, p);
    } else if kind.Boolean? {
      BooleanContains(sqrt, id, nodes, solids, visiting, p);
    } else {
      LeafContains(sqrt, kind, OutlineFor(kind, nodes).value, p);
    }
  }

  lemma {:induction false} OperandContains(sqrt: real -> real, id: string, nodes: Nodes, solids: map<string, Solid>,
                                           visiting: set<string>, p: Vec3)
    requires Grounded(nodes) && KindsOk(nodes) && Compiled(sqrt, nodes, solids)
    requires IsSquareRoot(sqrt) && PathsClear(nodes) && MirrorsSingle(nodes)
    requires id in nodes && InPlaced(id, nodes, solids, p) && GeometryCorners(sqrt, id, nodes, visiting).Ok?
    ensures InHull(p, MapPoints(WorldMatrix(id, nodes), GeometryCorners(sqrt, id, nodes, visiting).value))
    decreases nodes.Keys - visiting, 2
  {
    var q :| q in solids[id] && p == Place(id, nodes, q);
    CornersContain(sqrt, id, nodes, solids, visiting, q);
    PlacedContains(id, nodes, q, GeometryCorners(sqrt, id, nodes, visiting).value);
  }

  lemma {:induction false} BooleanContains(sqrt: real -> real, id: string, nodes: Nodes, solids: map<string, Solid>,
                                           visiting: set<string>, p: Vec3)
    requires Grounded(nodes) && KindsOk(nodes) && Compiled(sqrt, nodes, solids)
    requires IsSquareRoot(sqrt) && PathsClear(nodes) && MirrorsSingle(nodes)
    requires id in nodes && p in solids[id] && nodes[id].kind.Boolean?
    requires GeometryCorners(sqrt, id, nodes, visiting).Ok?
    ensures InHull(p, GeometryCorners(sqrt, id, nodes, visiting).value)
    decreases nodes.Keys - visiting, 0
  {
    var inner := visiting + {id};
    SourcesKnown(id, nodes);
    var Boolean(left, right, operation) := nodes[id].kind;
    if InPlaced(left, nodes, solids, p) {
      OperandContains(sqrt, left, nodes, solids, inner, p);
    }
    if operation != Difference {
      if InPlaced(right, nodes, solids, p) {
        OperandContains(sqrt, right, nodes, solids, inner, p);
      }
      CombinedContains(operation,
                       MapPoints(WorldMatrix(left, nodes), GeometryCorners(sqrt, left, nodes, inner).value),
                       MapPoints(WorldMatrix(right, nodes), GeometryCorners(sqrt, right, nodes, inner).value), p);
    }
  }

  // ----- the program-level theorem

  lemma {:induction false} VisiblePointsHold(sqrt: real -> real, order: seq<string>, nodes: Nodes, hidden: set<string>, id: string)
    requires Grounded(nodes) && KindsOk(nodes) && forall v :: v in order ==> v in nodes
    requires VisiblePoints(sqrt, order, nodes, hidden).Ok? && id in order && id !in hidden
    ensures PlacedCorners(sqrt, id, nodes).Ok?
    ensures forall q :: q in PlacedCorners(sqrt, id, nodes).value ==> q in VisiblePoints(sqrt, order, nodes, hidden).value
  {
    var init, last := order[..|order| - 1], order[|order| - 1];
    assert order == init + [last];
    if id != last {
      assert id in init;
      VisiblePointsHold(sqrt, init, nodes, hidden, id);
    }
  }

  /** Every point that the worker can make of a visible node, carried through the whole
      chain of parents, is inside the bounds that the contract computes. */
  lemma {:induction false} EnvelopeIsSound(sqrt: real -> real, order: seq<string>, nodes: Nodes, hidden: set<string>,
                        solids: map<string, Solid>, id: string, p: Vec3)
    requires Grounded(nodes) && KindsOk(nodes) && forall v :: v in order ==> v in nodes
    requires Compiled(sqrt, nodes, solids)
    requires IsSquareRoot(sqrt) && PathsClear(nodes) && MirrorsSingle(nodes)
    requires ProgramBounds(sqrt, order, nodes, hidden).Ok?
    requires id in order && id !in hidden && p in solids[id]
    ensures Inside(ProgramBounds(sqrt, order, nodes, hidden).value, Place(id, nodes, p))
  {
    var points := VisiblePoints(sqrt, order, nodes, hidden).value;
    VisiblePointsHold(sqrt, order, nodes, hidden, id);
    var corners := GeometryCorners(sqrt, id, nodes, {}).value;
    CornersContain(sqrt, id, nodes, solids, {}, p);
    PlacedContains(id, nodes, p, corners);
    HullOfPart(Place(id, nodes, p), PlacedCorners(sqrt, id, nodes).value, points);
    HullInsideBounds(Place(id, nodes, p), points);
  }

  /** On a grounded program the corner computation never trips over its own visiting set. */
  lemma {:induction false} CornersNeverCycle(sqrt: real -> real, id: string, nodes: Nodes, visiting: set<string>)
    requires Grounded(nodes) && KindsOk(nodes) && id in nodes
    requires var rank := Rank(DependencyGraph(nodes)); forall v :: v in visiting ==> v in rank && rank[id] < rank[v]
    ensures GeometryCorners(sqrt, id, nodes, visiting) != Err(ReferenceCycle)
    decreases nodes.Keys - visiting
  {
    var rank := Rank(DependencyGraph(nodes));
    var inner := visiting + {id};
    SourcesKnown(id, nodes);
    forall v | v in NodeDependencies(nodes[id].kind) ensures GeometryCorners(sqrt, v, nodes, inner) != Err(ReferenceCycle) {
      assert v in DependencyGraph(nodes)[id];
      CornersNeverCycle(sqrt, v, nodes, inner);
    }
  }
}
