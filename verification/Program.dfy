/** The geometry program: nodes, references and field checks, and the world transforms of
    its nodes. */
module Program {
  import opened Affine
  import opened Graphs
  import opened Polygon

  datatype Result<+T> = Ok(value: T) | Err(error: Failure) {
    predicate IsFailure() { Err? }
    function PropagateFailure<U>(): Result<U>
      requires Err?
    {
      Err(error)
    }
    function Extract(): T
      requires Ok?
    {
      value
    }
  }

  datatype Failure = ReferenceCycle | NotAProfile | OperandsDoNotOverlap | NothingVisible

  datatype Shape =
    | Box(size: Vec3)
    | Cylinder(radius: real, height: real)
    | Cone(radius: real, topRadius: real, height: real)
    | UvSphere(radius: real)

  datatype BooleanOp = Union | Difference | Intersection

  datatype Modifier = Bevel(width: real) | Solidify(thickness: real) | Mirror(onX: bool, onY: bool, onZ: bool)

  /** A revolve carries the cosines and sines of its ring angles: `rings[i]` is the angle
      `angleDeg * i / segments`. */
  datatype Kind =
    | Primitive(shape: Shape)
    | Curve(points: seq<Vec3>, bevelDepth: real)
    | Instance(source: string)
    | Profile(outline: seq<Vec2>, closed: bool)
    | Extrude(profile: string, depth: real)
    | Revolve(profile: string, angleDeg: real, segments: nat, rings: seq<Angle>)
    | Sweep(profile: string, path: seq<Vec3>, cyclic: bool)
    | Array(source: string, count: nat, offset: Vec3)
    | Boolean(left: string, right: string, operation: BooleanOp)
    | Modified(source: string, modifier: Modifier)
    | Terrain(width: real, breadth: real, columns: nat, rows: nat, heights: seq<real>)
    | ExactAsset(dimensions: Vec3)

  datatype Node = Node(id: string, parent: Option<string>, material: Option<string>, role: Option<string>,
                       transform: Transform, kind: Kind)

  // ----- references

  /** What a node's geometry is made from. */
  function NodeDependencies(k: Kind): set<string> {
    match k
    case Instance(source) => {source}
    case Array(source, _, _) => {source}
    case Modified(source, _) => {source}
    case Extrude(profile, _) => {profile}
    case Revolve(profile, _, _, _) => {profile}
    case Sweep(profile, _, _) => {profile}
    case Boolean(left, right, _) => {left, right}
    case _ => {}
  }

  function ParentSet(n: Node): set<string> { if n.parent.Some? then {n.parent.value} else {} }

  type Nodes = map<string, Node>

  /** Parents and geometry references together. */
  function DependencyGraph(nodes: Nodes): Graph {
    map id | id in nodes :: ParentSet(nodes[id]) + NodeDependencies(nodes[id].kind)
  }

  /** The nodes by identifier; as in a dictionary, a later node replaces an earlier one. */
  function ById(nodes: seq<Node>): Nodes {
    if nodes == [] then map[] else ById(nodes[..|nodes| - 1])[nodes[|nodes| - 1].id := nodes[|nodes| - 1]]
  }

  predicate UniqueIds(nodes: seq<Node>) {
    forall i, j :: 0 <= i < j < |nodes| ==> nodes[i].id != nodes[j].id
  }

  function Ids(nodes: seq<Node>): set<string> { set n | n in nodes :: n.id }

  lemma {:induction false} ByIdHolds(nodes: seq<Node>)
    ensures ById(nodes).Keys == Ids(nodes)
    ensures forall id :: id in ById(nodes) ==> ById(nodes)[id] in nodes && ById(nodes)[id].id == id
    ensures UniqueIds(nodes) ==> forall n :: n in nodes ==> n.id in ById(nodes) && ById(nodes)[n.id] == n
  {
    if nodes != [] {
      var init, last := nodes[..|nodes| - 1], nodes[|nodes| - 1];
      assert nodes == init + [last];
      ByIdHolds(init);
      if UniqueIds(nodes) {
        forall n | n in nodes ensures n.id in ById(nodes) && ById(nodes)[n.id] == n {
          if n != last {
            assert n in init;
            var i :| 0 <= i < |init| && init[i] == n;
            assert nodes[i].id != last.id;
          }
        }
      }
    }
  }

  /** Two lists with the same nodes name the same program. */
  lemma {:induction false} ByIdIgnoresOrder(nodes: seq<Node>, other: seq<Node>)
    requires UniqueIds(nodes) && UniqueIds(other)
    requires forall n :: n in nodes <==> n in other
    ensures ById(nodes) == ById(other)
  {
    ByIdHolds(nodes);
    ByIdHolds(other);
    forall id | id in ById(nodes) ensures id in ById(other) && ById(other)[id] == ById(nodes)[id] {
      assert ById(nodes)[id] in other;
    }
    forall id | id in ById(other) ensures id in ById(nodes) {
      assert ById(other)[id] in nodes;
    }
  }

  /** References stay inside the program and never run in a circle. */
  ghost predicate Grounded(nodes: Nodes) {
    Closed(DependencyGraph(nodes)) && Acyclic(DependencyGraph(nodes))
  }

  // ----- the node-level field checks

  predicate Within(v: Vec3, bound: real) { Abs(v.x) <= bound && Abs(v.y) <= bound && Abs(v.z) <= bound }

  predicate ScaleOk(k: real) { 0.0 < k <= 100.0 }

  predicate TransformOk(t: Transform) {
    && ScaleOk(t.scale.x) && ScaleOk(t.scale.y) && ScaleOk(t.scale.z)
    && Within(t.translation, 1000.0)
    && Abs(t.rx.deg) <= 3600.0 && Abs(t.ry.deg) <= 3600.0 && Abs(t.rz.deg) <= 3600.0
    && t.rx.Unit() && t.ry.Unit() && t.rz.Unit()
  }

  predicate SizeOk(k: real, bound: real) { 0.0 < k <= bound }

  predicate ShapeOk(s: Shape) {
    match s
    case Box(size) => SizeOk(size.x, 300.0) && SizeOk(size.y, 300.0) && SizeOk(size.z, 300.0)
    case Cylinder(radius, height) => SizeOk(radius, 100.0) && SizeOk(height, 300.0)
    case Cone(radius, topRadius, height) => SizeOk(radius, 100.0) && 0.0 <= topRadius <= 100.0 && SizeOk(height, 300.0)
    case UvSphere(radius) => SizeOk(radius, 100.0)
  }

  /** A full turn is within 1e-9 degrees of 360. */
  predicate FullTurn(angleDeg: real) { Abs(angleDeg - 360.0) <= 0.000000001 }

  function RingCount(angleDeg: real, segments: nat): nat { if FullTurn(angleDeg) then segments else segments + 1 }

  predicate KindOk(k: Kind) {
    match k
    case Primitive(shape) => ShapeOk(shape)
    case Curve(points, depth) => 2 <= |points| <= 128 && SizeOk(depth, 2.0) && forall p :: p in points ==> Within(p, 1000.0)
    case Instance(_) => true
    case Profile(outline, closed) => ProfileOk(outline, closed)
    case Extrude(_, depth) => SizeOk(depth, 300.0)
    case Revolve(_, angle, segments, rings) =>
      && SizeOk(angle, 360.0) && 8 <= segments <= 128
      && |rings| == RingCount(angle, segments)
      && forall i :: 0 <= i < |rings| ==> rings[i].Unit() && rings[i].deg == angle * i as real / segments as real
    case Sweep(_, path, cyclic) =>
      && 2 <= |path| <= 128 && (cyclic ==> |path| >= 3)
      && (forall p :: p in path ==> Within(p, 1000.0))
      && forall i :: 1 <= i < |path| ==> path[i] != path[i - 1]
    case Array(_, count, offset) =>
      2 <= count <= 128 && Within(offset, 300.0) && !Within(offset, 0.000000000001)
    case Boolean(left, right, _) => left != right
    case Modified(_, Bevel(width)) => SizeOk(width, 2.0)
    case Modified(_, Solidify(thickness)) => thickness != 0.0 && Abs(thickness) <= 5.0
    case Modified(_, Mirror(x, y, z)) => x || y || z
    case Terrain(width, breadth, columns, rows, heights) =>
      && SizeOk(width, 1000.0) && SizeOk(breadth, 1000.0)
      && 2 <= columns <= 64 && 2 <= rows <= 64
      && columns * rows == |heights|
      && forall h :: h in heights ==> Abs(h) <= 100.0
    case ExactAsset(d) => d.x > 0.0 && d.y > 0.0 && d.z > 0.0
  }

  predicate NodeOk(n: Node) {
    && n.id != ""
    && TransformOk(n.transform)
    && KindOk(n.kind)
    && (n.kind.ExactAsset? ==>
          n.parent.None? && n.material.None? && n.transform.scale == Vec3(1.0, 1.0, 1.0))
  }

  predicate KindsOk(nodes: Nodes) {
    forall id :: id in nodes ==> KindOk(nodes[id].kind)
  }

  // ----- world transforms

  /** The product of the local matrices from the root down to the node. */
  function WorldMatrix(id: string, nodes: Nodes): Matrix
    requires Grounded(nodes) && id in nodes
    decreases Rank(DependencyGraph(nodes))[id]
  {
    var local := TransformMatrix(nodes[id].transform);
    if nodes[id].parent.None? then local
    else
      assert nodes[id].parent.value in DependencyGraph(nodes)[id];
      MatrixMultiply(WorldMatrix(nodes[id].parent.value, nodes), local)
  }

  /** The same placement one transform at a time: the node's own, then its parent's, and so
      on up. This is what nesting objects in the worker does. */
  function Place(id: string, nodes: Nodes, p: Vec3): Vec3
    requires Grounded(nodes) && id in nodes
    decreases Rank(DependencyGraph(nodes))[id]
  {
    var here := ApplyTransform(nodes[id].transform, p);
    if nodes[id].parent.None? then here
    else
      assert nodes[id].parent.value in DependencyGraph(nodes)[id];
      Place(nodes[id].parent.value, nodes, here)
  }

  lemma {:induction false} WorldMatrixPlaces(id: string, nodes: Nodes, p: Vec3)
    requires Grounded(nodes) && id in nodes
    ensures IsAffine(WorldMatrix(id, nodes))
    ensures TransformPoint(WorldMatrix(id, nodes), p) == Place(id, nodes, p)
    decreases Rank(DependencyGraph(nodes))[id]
  {
    var node := nodes[id];
    MatrixIsEulerOrder(node.transform, p);
    if node.parent.Some? {
      var parent := node.parent.value;
      assert parent in DependencyGraph(nodes)[id];
      WorldMatrixPlaces(parent, nodes, ApplyTransform(node.transform, p));
      ProductApplies(WorldMatrix(parent, nodes), TransformMatrix(node.transform), p);
    }
  }

  /** The cache that the bounds computation shares between nodes. */
  class MatrixCache {
    const nodes: Nodes
    var entries: map<string, Matrix>

    ghost predicate Valid()
      reads this
    {
      && Grounded(nodes)
      && forall id :: id in entries ==> id in nodes && entries[id] == WorldMatrix(id, nodes)
    }

    constructor (program: Nodes)
      requires Grounded(program)
      ensures Valid() && nodes == program && entries == map[]
    {
      nodes, entries := program, map[];
    }

    /** Whatever correct entries the cache already holds, the answer is the plain product,
        and every entry stays correct. */
    method NodeWorldMatrix(id: string) returns (m: Matrix)
      requires Valid() && id in nodes
      modifies this
      ensures Valid() && m == WorldMatrix(id, nodes)
      ensures old(entries.Keys) + {id} <= entries.Keys
      decreases Rank(DependencyGraph(nodes))[id]
    {
      if id in entries {
        return entries[id];
      }
      var node := nodes[id];
      m := TransformMatrix(node.transform);
      if node.parent.Some? {
        assert node.parent.value in DependencyGraph(nodes)[id];
        var above := NodeWorldMatrix(node.parent.value);
        m := MatrixMultiply(above, m);
      }
      entries := entries[id := m];
    }
  }
}
