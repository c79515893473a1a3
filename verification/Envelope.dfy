/** The bounding envelope of a program, and its soundness: every point of what the worker
    makes of a visible node lies inside the computed bounds. */
module Envelope {
  import opened Affine
  import opened Hull
  import opened Graphs
  import opened Polygon
  import opened Program
  import opened MeshVertices
  import opened SweepFrames

  // ----- local corner lists

  function OutlineXs(outline: seq<Vec2>): seq<real> { seq(|outline|, i requires 0 <= i < |outline| => outline[i].x) }
  function OutlineYs(outline: seq<Vec2>): seq<real> { seq(|outline|, i requires 0 <= i < |outline| => outline[i].y) }
  function Radii(outline: seq<Vec2>): seq<real> { seq(|outline|, i requires 0 <= i < |outline| => Abs(outline[i].x)) }

  /** The outline's bounding rectangle, between two heights. */
  function Slab(outline: seq<Vec2>, low: real, high: real): Hull.Box
    requires outline != []
  {
    Hull.Box(Vec3(Least(OutlineXs(outline)), Least(OutlineYs(outline)), low),
             Vec3(Greatest(OutlineXs(outline)), Greatest(OutlineYs(outline)), high))
  }

  function RevolveBox(outline: seq<Vec2>): Hull.Box
    requires outline != []
  {
    var radius := Greatest(Radii(outline));
    Hull.Box(Vec3(-radius, -radius, Least(OutlineYs(outline))), Vec3(radius, radius, Greatest(OutlineYs(outline))))
  }

  function TerrainBox(width: real, breadth: real, heights: seq<real>): Hull.Box
    requires heights != []
  {
    Hull.Box(Vec3(-width / 2.0, -breadth / 2.0, Least(heights)), Vec3(width / 2.0, breadth / 2.0, Greatest(heights)))
  }

  function Centered(half: Vec3): Hull.Box { Hull.Box(Vec3(-half.x, -half.y, -half.z), half) }

  function HalfSize(s: Shape): Vec3 {
    match s
    case Box(size) => Vec3(size.x / 2.0, size.y / 2.0, size.z / 2.0)
    case Cylinder(radius, height) => Vec3(radius, radius, height / 2.0)
    case Cone(radius, topRadius, height) =>
      var widest := if radius >= topRadius then radius else topRadius;
      Vec3(widest, widest, height / 2.0)
    case UvSphere(radius) => Vec3(radius, radius, radius)
  }

  function Padded(b: Hull.Box, k: real): Hull.Box {
    Hull.Box(Vec3(b.min.x - k, b.min.y - k, b.min.z - k), Vec3(b.max.x + k, b.max.y + k, b.max.z + k))
  }

  function ShiftAll(points: seq<Vec3>, shift: Vec3): (r: seq<Vec3>)
    ensures |r| == |points|
  {
    seq(|points|, i requires 0 <= i < |points| => Add(points[i], shift))
  }

  /** `count` copies, the k-th moved by k times the offset. */
  function Repeat(points: seq<Vec3>, count: nat, offset: Vec3): seq<Vec3> {
    if count == 0 then []
    else Repeat(points, count - 1, offset) + ShiftAll(points, Times((count - 1) as real, offset))
  }

  function Reflect(points: seq<Vec3>, m: Modifier): (r: seq<Vec3>)
    requires m.Mirror?
    ensures |r| == |points|
  {
    seq(|points|, i requires 0 <= i < |points| => ReflectPoint(m, points[i]))
  }

  /** Reflected along all the axes of the modifier at once. */
  function ReflectPoint(m: Modifier, p: Vec3): Vec3
    requires m.Mirror?
  {
    Vec3(if m.onX then -p.x else p.x, if m.onY then -p.y else p.y, if m.onZ then -p.z else p.z)
  }

  function MaxReal(a: real, b: real): real { if a >= b then a else b }
  function MinReal(a: real, b: real): real { if a <= b then a else b }

  function Overlap(a: Hull.Box, b: Hull.Box): Hull.Box {
    Hull.Box(Vec3(MaxReal(a.min.x, b.min.x), MaxReal(a.min.y, b.min.y), MaxReal(a.min.z, b.min.z)),
             Vec3(MinReal(a.max.x, b.max.x), MinReal(a.max.y, b.max.y), MinReal(a.max.z, b.max.z)))
  }

  predicate Proper(b: Hull.Box) { b.min.x <= b.max.x && b.min.y <= b.max.y && b.min.z <= b.max.z }

  function ModifiedCorners(points: seq<Vec3>, m: Modifier): (r: seq<Vec3>)
    requires points != []
    ensures r != []
  {
    match m
    case Bevel(width) => BoundsCorners(Padded(PointBounds(points), width))
    case Solidify(thickness) => BoundsCorners(Padded(PointBounds(points), Abs(thickness)))
    case Mirror(_, _, _) => points + Reflect(points, m)
  }

  lemma {:induction false} RepeatIsNotEmpty(points: seq<Vec3>, count: nat, offset: Vec3)
    requires points != [] && count > 0
    ensures Repeat(points, count, offset) != []
  {
  }

  /** Kinds whose points come from their own fields and at most a profile. */
  predicate IsLeaf(k: Kind) { !k.Instance? && !k.Array? && !k.Boolean? && !k.Modified? }

  predicate UsesProfile(k: Kind) { k.Extrude? || k.Revolve? || k.Sweep? }

  function LeafCorners(sqrt: real -> real, k: Kind, outline: seq<Vec2>): (r: seq<Vec3>)
    requires IsLeaf(k) && KindOk(k) && (UsesProfile(k) ==> outline != [])
    ensures r != []
  {
    match k
    case Curve(points, depth) => BoundsCorners(Padded(PointBounds(points), depth))
    case Profile(own, _) => BoundsCorners(Slab(own, 0.0, 0.0))
    case Extrude(_, depth) => BoundsCorners(Slab(outline, -(depth / 2.0), depth / 2.0))
    case Revolve(_, _, _, _) => BoundsCorners(RevolveBox(outline))
    case Sweep(_, path, cyclic) =>
      SweepIsNotEmpty(sqrt, outline, path, cyclic);
      Stack(ContractRings(sqrt, outline, path, cyclic))
    case Terrain(width, breadth, columns, rows, heights) =>
      GridIndex(0, 0, rows, columns);
      BoundsCorners(TerrainBox(width, breadth, heights))
    case ExactAsset(d) => BoundsCorners(Centered(Vec3(d.x / 2.0, d.y / 2.0, d.z / 2.0)))
    case Primitive(shape) => BoundsCorners(Centered(HalfSize(shape)))
  }

  /** A union or intersection of placed operands. */
  function CombinedCorners(operation: BooleanOp, left: seq<Vec3>, right: seq<Vec3>): (r: Result<seq<Vec3>>)
    requires left != [] && right != []
    ensures r.Ok? ==> r.value != []
  {
    match operation
    case Difference => Ok(left)
    case Union => Ok(left + right)
    case Intersection =>
      var meet := Overlap(PointBounds(left), PointBounds(right));
      if Proper(meet) then Ok(BoundsCorners(meet)) else Err(OperandsDoNotOverlap)
  }

  /** The points whose bounds stand for a node's own geometry, in its local frame. */
  function GeometryCorners(sqrt: real -> real, id: string, nodes: Nodes, visiting: set<string>): (r: Result<seq<Vec3>>)
    requires Grounded(nodes) && KindsOk(nodes) && id in nodes
    ensures r.Ok? ==> r.value != []
    decreases nodes.Keys - visiting
  {
    if id in visiting then Err(ReferenceCycle)
    else
      var inner := visiting + {id};
      var kind := nodes[id].kind;
      SourcesKnown(id, nodes);
      if IsLeaf(kind) then
        var outline :- OutlineFor(kind, nodes);
        Ok(LeafCorners(sqrt, kind, outline))
      else match kind
      case Instance(source) => GeometryCorners(sqrt, source, nodes, inner)
      case Array(source, count, offset) =>
        var corners :- GeometryCorners(sqrt, source, nodes, inner);
        RepeatIsNotEmpty(corners, count, offset);
        Ok(Repeat(corners, count, offset))
      case Boolean(left, right, operation) =>
        var leftCorners :- GeometryCorners(sqrt, left, nodes, inner);
        var leftPlaced := MapPoints(WorldMatrix(left, nodes), leftCorners);
        if operation.Difference? then Ok(leftPlaced)
        else
          var rightCorners :- GeometryCorners(sqrt, right, nodes, inner);
          CombinedCorners(operation, leftPlaced, MapPoints(WorldMatrix(right, nodes), rightCorners))
      case Modified(source, modifier) =>
        var corners :- GeometryCorners(sqrt, source, nodes, inner);
        Ok(ModifiedCorners(corners, modifier))
  }

  lemma {:induction false} SourcesKnown(id: string, nodes: Nodes)
    requires Closed(DependencyGraph(nodes)) && KindsOk(nodes) && id in nodes
    ensures NodeDependencies(nodes[id].kind) <= nodes.Keys
    ensures KindOk(nodes[id].kind)
  {
    assert NodeDependencies(nodes[id].kind) <= DependencyGraph(nodes)[id];
  }

  /** The outline that an extrude, revolve or sweep is made from. */
  function OutlineFor(k: Kind, nodes: Nodes): (r: Result<seq<Vec2>>)
    requires NodeDependencies(k) <= nodes.Keys && KindsOk(nodes)
    ensures r.Ok? && UsesProfile(k) ==> r.value != []
  {
    if !UsesProfile(k) then Ok([])
    else if nodes[k.profile].kind.Profile? then
      assert KindOk(nodes[k.profile].kind);
      Ok(nodes[k.profile].kind.outline)
    else Err(NotAProfile)
  }

  lemma {:induction false} SweepIsNotEmpty(sqrt: real -> real, outline: seq<Vec2>, path: seq<Vec3>, cyclic: bool)
    requires outline != [] && path != []
    ensures Stack(ContractRings(sqrt, outline, path, cyclic)) != []
  {
    var rings := ContractRings(sqrt, outline, path, cyclic);
    assert rings[|rings| - 1] == ContractRing(sqrt, outline, path, cyclic, |path| - 1);
  }

  // ----- world bounds

  /** A node's own corner points, placed in the program's frame. */
  function PlacedCorners(sqrt: real -> real, id: string, nodes: Nodes): (r: Result<seq<Vec3>>)
    requires Grounded(nodes) && KindsOk(nodes) && id in nodes
    ensures r.Ok? ==> r.value != []
  {
    var corners :- GeometryCorners(sqrt, id, nodes, {});
    Ok(MapPoints(WorldMatrix(id, nodes), corners))
  }

  /** The placed corner points of the visible nodes, in list order. */
  function VisiblePoints(sqrt: real -> real, order: seq<string>, nodes: Nodes, hidden: set<string>): Result<seq<Vec3>>
    requires Grounded(nodes) && KindsOk(nodes) && forall id :: id in order ==> id in nodes
  {
    if order == [] then Ok([])
    else
      var before :- VisiblePoints(sqrt, order[..|order| - 1], nodes, hidden);
      var id := order[|order| - 1];
      if id in hidden then Ok(before)
      else
        var points :- PlacedCorners(sqrt, id, nodes);
        Ok(before + points)
  }

  function ProgramBounds(sqrt: real -> real, order: seq<string>, nodes: Nodes, hidden: set<string>): Result<Hull.Box>
    requires Grounded(nodes) && KindsOk(nodes) && forall id :: id in order ==> id in nodes
  {
    var points :- VisiblePoints(sqrt, order, nodes, hidden);
    if points == [] then Err(NothingVisible) else Ok(PointBounds(points))
  }

  /** The bounds computation, with its shared matrix cache. */
  method ComputeProgramBounds(sqrt: real -> real, order: seq<string>, nodes: Nodes, hidden: set<string>)
    returns (r: Result<Hull.Box>)
    requires Grounded(nodes) && KindsOk(nodes) && forall id :: id in order ==> id in nodes
    ensures r == ProgramBounds(sqrt, order, nodes, hidden)
  {
    var cache := new MatrixCache(nodes);
    var points: seq<Vec3> := [];
    for i := 0 to |order|
      invariant fresh(cache) && cache.Valid() && cache.nodes == nodes
      invariant VisiblePoints(sqrt, order[..i], nodes, hidden) == Ok(points)
    {
      VisibleStep(sqrt, order, nodes, hidden, i, points);
      var id := order[i];
      if id !in hidden {
        var corners := GeometryCorners(sqrt, id, nodes, {});
        if corners.Err? {
          FailureStays(sqrt, order, nodes, hidden, i + 1);
          return Err(corners.error);
        }
        var matrix := cache.NodeWorldMatrix(id);
        points := points + MapPoints(matrix, corners.value);
      }
    }
    assert order[..|order|] == order;
    r := if points == [] then Err(NothingVisible) else Ok(PointBounds(points));
  }

  lemma {:induction false} VisibleStep(sqrt: real -> real, order: seq<string>, nodes: Nodes, hidden: set<string>, i: nat, points: seq<Vec3>)
    requires Grounded(nodes) && KindsOk(nodes) && (forall id :: id in order ==> id in nodes) && i < |order|
    requires VisiblePoints(sqrt, order[..i], nodes, hidden) == Ok(points)
    ensures VisiblePoints(sqrt, order[..i + 1], nodes, hidden) ==
              if order[i] in hidden then Ok(points)
              else if PlacedCorners(sqrt, order[i], nodes).Err? then Err(PlacedCorners(sqrt, order[i], nodes).error)
              else Ok(points + PlacedCorners(sqrt, order[i], nodes).value)
  {
    assert order[..i + 1][..i] == order[..i];
  }

  lemma {:induction false} FailureStays(sqrt: real -> real, order: seq<string>, nodes: Nodes, hidden: set<string>, k: nat)
    requires Grounded(nodes) && KindsOk(nodes) && (forall id :: id in order ==> id in nodes) && k <= |order|
    requires VisiblePoints(sqrt, order[..k], nodes, hidden).Err?
    ensures VisiblePoints(sqrt, order, nodes, hidden) == VisiblePoints(sqrt, order[..k], nodes, hidden)
    decreases |order|
  {
    if k == |order| {
      assert order[..k] == order;
    } else {
      assert order[..|order| - 1][..k] == order[..k];
      FailureStays(sqrt, order[..|order| - 1], nodes, hidden, k);
    }
  }
}
