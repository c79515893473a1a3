/** Small concrete programs, and what the validator and the envelope make of them. */
module SmallPrograms {
  import opened Affine
  import opened Hull
  import opened Graphs
  import opened Program
  import opened Envelope
  import opened EnvelopeSound
  import opened VisibleBoxes
  import opened Validator
  import opened Repair

  /** A program as the planner pins it: of version 2 and authored by a language model. */
  function Scene(nodes: seq<Node>, hidden: seq<string>, maximum: Option<Vec3>): GeometryProgram {
    GeometryProgram(true, "main", 1, true, maximum, [], nodes, [], [], [], hidden, [])
  }

  function Plain(translation: Vec3, scale: Vec3): Transform {
    Transform(translation, ZERO_ANGLE, ZERO_ANGLE, ZERO_ANGLE, scale)
  }

  function Shifted(translation: Vec3): Transform { Plain(translation, Vec3(1.0, 1.0, 1.0)) }

  function Cube(side: real): Kind { Primitive(Shape.Box(Vec3(side, side, side))) }

  /** A node that fits into a small scene: its references lead to nodes of lower rank. */
  predicate NodeFits(n: Node, nodes: Nodes, hidden: seq<string>, rank: map<string, nat>) {
    && NodeOk(n) && !n.kind.ExactAsset? && n.material == None
    && (n.kind.Profile? ==> n.id in hidden)
    && n.id in rank
    && (forall d :: d in ParentSet(n) + NodeDependencies(n.kind) ==> d in nodes && d in rank && rank[d] < rank[n.id])
    && SourcesOk(n, nodes)
  }

  /** An authored scene has three nodes or more; the last is the one with the semantic role. */
  predicate SceneOk(nodes: seq<Node>, hidden: seq<string>, rank: map<string, nat>) {
    && 3 <= |nodes| <= 512 && UniqueIds(nodes)
    && (forall i :: 0 <= i < |nodes| ==> NodeFits(nodes[i], ById(nodes), hidden, rank))
    && NoRepeats(hidden) && Members(hidden) <= Ids(nodes)
    && (forall i :: 0 <= i < |nodes| - 1 ==> nodes[i].role == None)
    && nodes[|nodes| - 1].role == Some("main") && nodes[|nodes| - 1].id !in hidden
  }

  lemma {:induction false} SceneNode(nodes: seq<Node>, hidden: seq<string>, rank: map<string, nat>, n: Node)
    requires SceneOk(nodes, hidden, rank) && n in nodes
    ensures NodeFits(n, ById(nodes), hidden, rank)
  {
    var i :| 0 <= i < |nodes| && nodes[i] == n;
  }

  lemma {:induction false} CubeFits(n: Node, side: real, nodes: Nodes, hidden: seq<string>, rank: map<string, nat>)
    requires n.id != "" && n.material == None && n.kind == Cube(side) && 0.0 < side <= 300.0
    requires n.transform == Shifted(n.transform.translation) && Within(n.transform.translation, 1000.0)
    requires n.id in rank
    requires n.parent.Some? ==> n.parent.value in nodes && n.parent.value in rank && rank[n.parent.value] < rank[n.id]
    ensures NodeFits(n, nodes, hidden, rank)
  {
  }

  lemma {:induction false} NoRoles(nodes: seq<Node>, role: string)
    requires forall i :: 0 <= i < |nodes| ==> nodes[i].role == None
    ensures RoleCount(nodes, role) == 0
  {
    if nodes != [] {
      NoRoles(nodes[..|nodes| - 1], role);
    }
  }

  lemma {:induction false} SceneRanks(nodes: seq<Node>, hidden: seq<string>, rank: map<string, nat>)
    requires SceneOk(nodes, hidden, rank)
    ensures Closed(DependencyGraph(ById(nodes))) && Ranks(DependencyGraph(ById(nodes)), rank)
  {
    ByIdHolds(nodes);
    var g := DependencyGraph(ById(nodes));
    forall v, d | v in g && d in g[v] ensures d in ById(nodes) && d in rank && v in rank && rank[d] < rank[v] {
      SceneNode(nodes, hidden, rank, ById(nodes)[v]);
    }
    forall v | v in g ensures v in rank {
      SceneNode(nodes, hidden, rank, ById(nodes)[v]);
    }
  }

  lemma {:induction false} SceneAttached(nodes: seq<Node>, hidden: seq<string>, rank: map<string, nat>, n: Node)
    requires SceneOk(nodes, hidden, rank) && n in nodes
    ensures AttachmentsOk(n, Ids(nodes), [])
  {
    SceneNode(nodes, hidden, rank, n);
    ByIdHolds(nodes);
    if n.parent.Some? {
      assert n.parent.value in ParentSet(n) + NodeDependencies(n.kind);
    }
    if n.kind.Instance? {
      assert n.kind.source in ParentSet(n) + NodeDependencies(n.kind);
    }
  }

  lemma {:induction false} SceneSemantics(nodes: seq<Node>, hidden: seq<string>, rank: map<string, nat>, maximum: Option<Vec3>)
    requires SceneOk(nodes, hidden, rank)
    ensures SemanticsOk(Scene(nodes, hidden, maximum))
  {
    NoRoles(nodes[..|nodes| - 1], "main");
    forall n | n in nodes && n.role == Some("main") ensures n.id !in hidden {
      var i :| 0 <= i < |nodes| && nodes[i] == n;
    }
  }

  lemma {:induction false} SceneLists(nodes: seq<Node>, hidden: seq<string>, rank: map<string, nat>, maximum: Option<Vec3>)
    requires SceneOk(nodes, hidden, rank)
    ensures ExactIsAlone(Scene(nodes, hidden, maximum)) && VersionOk(Scene(nodes, hidden, maximum))
    ensures ConstructionOk(Scene(nodes, hidden, maximum)) && AnchorsOk(Scene(nodes, hidden, maximum))
    ensures forall n :: n in nodes ==> AttachmentsOk(n, Ids(nodes), [])
  {
    forall n | n in nodes ensures AttachmentsOk(n, Ids(nodes), []) && NodeFits(n, ById(nodes), hidden, rank) {
      SceneAttached(nodes, hidden, rank, n);
      SceneNode(nodes, hidden, rank, n);
    }
  }

  /** Such a scene has sound structure, whatever its maximum. */
  lemma {:induction false} SceneIsSound(nodes: seq<Node>, hidden: seq<string>, rank: map<string, nat>, maximum: Option<Vec3>)
    requires SceneOk(nodes, hidden, rank)
    ensures ProgramFieldsOk(Scene(nodes, hidden, maximum)) && StructureOk(Scene(nodes, hidden, maximum))
    ensures Grounded(ById(nodes)) && KindsOk(ById(nodes))
  {
    SceneRanks(nodes, hidden, rank);
    PointerWalksAreRedundant(ById(nodes));
    SceneLists(nodes, hidden, rank, maximum);
    forall n | n in nodes ensures NodeFits(n, ById(nodes), hidden, rank) {
      SceneNode(nodes, hidden, rank, n);
    }
    SceneSemantics(nodes, hidden, rank, maximum);
    FieldsCarryOver(Scene(nodes, hidden, maximum));
  }

  /** Without the maximum it is valid. */
  lemma {:induction false} SceneIsValid(sqrt: real -> real, nodes: seq<Node>, hidden: seq<string>, rank: map<string, nat>, maximum: Option<Vec3>)
    requires SceneOk(nodes, hidden, rank)
    ensures Valid(sqrt, Unbounded(Scene(nodes, hidden, maximum)))
  {
    SceneIsSound(nodes, hidden, rank, maximum);
    MaximumIsSeparate(sqrt, Scene(nodes, hidden, maximum));
  }

  // ----- listings, node by node

  lemma {:induction false} ListOne(a: Node)
    ensures ById([a]) == map[a.id := a] && NodeOrder([a]) == [a.id] && Ids([a]) == {a.id}
  {
    assert [a][..0] == [];
    assert ById([a]) == ById([])[a.id := a];
  }

  lemma {:induction false} ListMore(nodes: seq<Node>, n: Node)
    ensures ById(nodes + [n]) == ById(nodes)[n.id := n]
    ensures NodeOrder(nodes + [n]) == NodeOrder(nodes) + [n.id]
    ensures Ids(nodes + [n]) == Ids(nodes) + {n.id}
  {
    assert (nodes + [n])[..|nodes|] == nodes;
    assert n in nodes + [n];
    forall m | m in nodes ensures m in nodes + [n] {
    }
  }

  lemma {:induction false} ListTwo(a: Node, b: Node)
    ensures ById([a, b]) == map[a.id := a][b.id := b] && NodeOrder([a, b]) == [a.id, b.id] && Ids([a, b]) == {a.id, b.id}
  {
    ListOne(a);
    ListMore([a], b);
    assert [a] + [b] == [a, b];
  }

  lemma {:induction false} ListThree(a: Node, b: Node, c: Node)
    ensures ById([a, b, c]) == map[a.id := a][b.id := b][c.id := c]
    ensures NodeOrder([a, b, c]) == [a.id, b.id, c.id] && Ids([a, b, c]) == {a.id, b.id, c.id}
  {
    ListTwo(a, b);
    ListMore([a, b], c);
    assert [a, b] + [c] == [a, b, c];
  }

  lemma {:induction false} ThreeScene(a: Node, b: Node, c: Node, hidden: seq<string>, rank: map<string, nat>)
    requires a.id != b.id && a.id != c.id && b.id != c.id
    requires NodeFits(a, ById([a, b, c]), hidden, rank) && NodeFits(b, ById([a, b, c]), hidden, rank) && NodeFits(c, ById([a, b, c]), hidden, rank)
    requires a.role == None && b.role == None && c.role == Some("main")
    requires NoRepeats(hidden) && Members(hidden) <= {a.id, b.id, c.id} && c.id !in hidden
    ensures SceneOk([a, b, c], hidden, rank)
  {
    ListThree(a, b, c);
  }

  /** A scene whose first two nodes are construction nodes. */
  lemma {:induction false} TwoHiddenScene(a: Node, b: Node, c: Node, rank: map<string, nat>)
    requires a.id != b.id && a.id != c.id && b.id != c.id
    requires NodeFits(a, ById([a, b, c]), [a.id, b.id], rank) && NodeFits(b, ById([a, b, c]), [a.id, b.id], rank)
    requires NodeFits(c, ById([a, b, c]), [a.id, b.id], rank)
    requires a.role == None && b.role == None && c.role == Some("main")
    ensures SceneOk([a, b, c], [a.id, b.id], rank)
  {
    assert NoRepeats([a.id, b.id]) && Members([a.id, b.id]) == {a.id, b.id};
    ThreeScene(a, b, c, [a.id, b.id], rank);
  }

  lemma {:induction false} FourScene(a: Node, b: Node, c: Node, d: Node, rank: map<string, nat>)
    requires a.id != b.id && a.id != c.id && a.id != d.id && b.id != c.id && b.id != d.id && c.id != d.id
    requires var nodes := ById([a, b, c, d]); NodeFits(a, nodes, [], rank) && NodeFits(b, nodes, [], rank)
    requires var nodes := ById([a, b, c, d]); NodeFits(c, nodes, [], rank) && NodeFits(d, nodes, [], rank)
    requires a.role == None && b.role == None && c.role == None && d.role == Some("main")
    ensures SceneOk([a, b, c, d], [], rank)
  {
  }

  // ----- what the worker makes of it

  ghost predicate SolidAllowed(sqrt: real -> real, id: string, nodes: Nodes, solids: map<string, Solid>)
    requires Grounded(nodes) && KindsOk(nodes) && id in nodes && solids.Keys == nodes.Keys
  {
    && Covered(nodes[id].kind) && NodeDependencies(nodes[id].kind) <= nodes.Keys
    && forall p :: p in solids[id] ==> Allows(sqrt, id, nodes, solids, p)
  }

  lemma {:induction false} CompiledByThree(sqrt: real -> real, a: string, b: string, c: string, nodes: Nodes, solids: map<string, Solid>)
    requires Grounded(nodes) && KindsOk(nodes) && nodes.Keys == {a, b, c} && solids.Keys == nodes.Keys
    requires SolidAllowed(sqrt, a, nodes, solids) && SolidAllowed(sqrt, b, nodes, solids) && SolidAllowed(sqrt, c, nodes, solids)
    ensures Compiled(sqrt, nodes, solids)
  {
  }

  // ----- where boxes are

  lemma PlainApplies(t: Transform, p: Vec3)
    requires t == Plain(t.translation, t.scale)
    ensures ApplyTransform(t, p) == Vec3(t.translation.x + t.scale.x * p.x, t.translation.y + t.scale.y * p.y, t.translation.z + t.scale.z * p.z)
  {
  }

  lemma {:induction false} BoxPlaced(sqrt: real -> real, id: string, nodes: Nodes, half: Vec3)
    requires Grounded(nodes) && KindsOk(nodes) && id in nodes
    requires nodes[id].kind == Primitive(Shape.Box(Vec3(2.0 * half.x, 2.0 * half.y, 2.0 * half.z)))
    ensures GeometryCorners(sqrt, id, nodes, {}) == Ok(BoundsCorners(Centered(half)))
    ensures PlacedCorners(sqrt, id, nodes).Ok? && |PlacedCorners(sqrt, id, nodes).value| == 8
    ensures forall i :: 0 <= i < 8 ==> PlacedCorners(sqrt, id, nodes).value[i] == Place(id, nodes, BoundsCorners(Centered(half))[i])
  {
    SourcesKnown(id, nodes);
    var corners := BoundsCorners(Centered(half));
    forall i | 0 <= i < 8 ensures MapPoints(WorldMatrix(id, nodes), corners)[i] == Place(id, nodes, corners[i]) {
      WorldMatrixPlaces(id, nodes, corners[i]);
    }
  }

  /** Half the size of the cubes of side two. */
  const UNIT_HALF := Vec3(1.0, 1.0, 1.0)

  function Around(d: Vec3, half: Vec3): Hull.Box { Hull.Box(Subtract(d, half), Add(d, half)) }

  /** The box of a box that its chain of ancestors only shifts. */
  lemma {:induction false} ShiftedBox(sqrt: real -> real, id: string, nodes: Nodes, half: Vec3, d: Vec3)
    requires Grounded(nodes) && KindsOk(nodes) && id in nodes && half.x >= 0.0 && half.y >= 0.0 && half.z >= 0.0
    requires nodes[id].kind == Primitive(Shape.Box(Vec3(2.0 * half.x, 2.0 * half.y, 2.0 * half.z)))
    requires forall p :: Place(id, nodes, p) == Add(p, d)
    ensures NodeBox(sqrt, id, nodes) == Ok(Around(d, half))
  {
    BoxPlaced(sqrt, id, nodes, half);
    ShiftedBounds(PlacedCorners(sqrt, id, nodes).value, half, d);
  }

  lemma {:induction false} ShiftedBounds(points: seq<Vec3>, half: Vec3, d: Vec3)
    requires half.x >= 0.0 && half.y >= 0.0 && half.z >= 0.0 && |points| == 8
    requires forall i :: 0 <= i < 8 ==> points[i] == Add(BoundsCorners(Centered(half))[i], d)
    ensures PointBounds(points) == Around(d, half)
  {
    CornersWithin(half);
    forall q | q in points ensures Inside(Around(d, half), q) {
      var i := IndexOf(points, q);
      assert Inside(Centered(half), BoundsCorners(Centered(half))[i]);
    }
    BoundsWithin(points, Around(d, half));
    assert points[0] == Around(d, half).min && points[7] == Around(d, half).max;
    SameBox(PointBounds(points), Around(d, half));
  }

  lemma {:induction false} CornersWithin(half: Vec3)
    requires half.x >= 0.0 && half.y >= 0.0 && half.z >= 0.0
    ensures forall i :: 0 <= i < 8 ==> Inside(Centered(half), BoundsCorners(Centered(half))[i])
    ensures BoundsCorners(Centered(half))[0] == Centered(half).min && BoundsCorners(Centered(half))[7] == Centered(half).max
  {
  }

  // ----- members of point lists

  lemma {:induction false} Listed(points: seq<Vec3>, i: nat, q: Vec3)
    requires i < |points| && points[i] == q
    ensures q in points
  {
  }

  lemma {:induction false} IndexOf(points: seq<Vec3>, q: Vec3) returns (i: nat)
    requires q in points
    ensures i < |points| && points[i] == q
  {
    i :| 0 <= i < |points| && points[i] == q;
  }

  lemma SameBox(a: Hull.Box, b: Hull.Box)
    requires Inside(a, b.min) && Inside(a, b.max) && Inside(b, a.min) && Inside(b, a.max)
    ensures a == b
  {
  }

  // ----- visible points

  lemma {:induction false} VisibleMeasured(sqrt: real -> real, order: seq<string>, nodes: Nodes, hidden: set<string>)
    requires Grounded(nodes) && KindsOk(nodes) && forall id :: id in order ==> id in nodes
    requires forall id :: id in order && id !in hidden ==> PlacedCorners(sqrt, id, nodes).Ok?
    ensures VisiblePoints(sqrt, order, nodes, hidden).Ok?
  {
    if order != [] {
      var init, last := order[..|order| - 1], order[|order| - 1];
      assert last in order && forall id :: id in init ==> id in order;
      VisibleMeasured(sqrt, init, nodes, hidden);
    }
  }

  lemma {:induction false} VisibleHolds(sqrt: real -> real, order: seq<string>, nodes: Nodes, hidden: set<string>, id: string, q: Vec3)
    requires Grounded(nodes) && KindsOk(nodes) && forall v :: v in order ==> v in nodes
    requires VisiblePoints(sqrt, order, nodes, hidden).Ok? && id in order && id !in hidden
    ensures PlacedCorners(sqrt, id, nodes).Ok?
    ensures q in PlacedCorners(sqrt, id, nodes).value ==> q in VisiblePoints(sqrt, order, nodes, hidden).value
  {
    var init, last := order[..|order| - 1], order[|order| - 1];
    if id != last {
      assert id in init;
      VisibleHolds(sqrt, init, nodes, hidden, id, q);
    }
  }

  /** Every visible point is some visible node's. */
  lemma {:induction false} VisibleFrom(sqrt: real -> real, order: seq<string>, nodes: Nodes, hidden: set<string>, q: Vec3) returns (id: string)
    requires Grounded(nodes) && KindsOk(nodes) && forall v :: v in order ==> v in nodes
    requires VisiblePoints(sqrt, order, nodes, hidden).Ok? && q in VisiblePoints(sqrt, order, nodes, hidden).value
    ensures id in order && id !in hidden && PlacedCorners(sqrt, id, nodes).Ok? && q in PlacedCorners(sqrt, id, nodes).value
  {
    var init, last := order[..|order| - 1], order[|order| - 1];
    if q in VisiblePoints(sqrt, init, nodes, hidden).value {
      id := VisibleFrom(sqrt, init, nodes, hidden, q);
    } else {
      id := last;
    }
  }

  /** So the bounds reach every corner of a visible node, if all visible nodes are measured. */
  lemma {:induction false} ReachesBounds(sqrt: real -> real, order: seq<string>, nodes: Nodes, hidden: set<string>, id: string, q: Vec3)
    requires Grounded(nodes) && KindsOk(nodes) && forall v :: v in order ==> v in nodes
    requires forall v :: v in order && v !in hidden ==> PlacedCorners(sqrt, v, nodes).Ok?
    requires id in order && id !in hidden && q in PlacedCorners(sqrt, id, nodes).value
    ensures ProgramBounds(sqrt, order, nodes, hidden).Ok? && Inside(ProgramBounds(sqrt, order, nodes, hidden).value, q)
  {
    VisibleMeasured(sqrt, order, nodes, hidden);
    VisibleHolds(sqrt, order, nodes, hidden, id, q);
    BoundsReach(VisiblePoints(sqrt, order, nodes, hidden).value, q);
  }

  lemma {:induction false} BoundsWithin(points: seq<Vec3>, b: Hull.Box)
    requires points != [] && forall q :: q in points ==> Inside(b, q)
    ensures Inside(b, PointBounds(points).min) && Inside(b, PointBounds(points).max)
  {
    var xs, ys, zs := Xs(points), Ys(points), Zs(points);
    forall i | 0 <= i < |points|
      ensures b.min.x <= xs[i] <= b.max.x && b.min.y <= ys[i] <= b.max.y && b.min.z <= zs[i] <= b.max.z
    {
      assert points[i] in points;
    }
    WithinAxis(xs, b.min.x, b.max.x);
    WithinAxis(ys, b.min.y, b.max.y);
    WithinAxis(zs, b.min.z, b.max.z);
  }

  lemma {:induction false} WithinAxis(values: seq<real>, low: real, high: real)
    requires values != [] && forall i :: 0 <= i < |values| ==> low <= values[i] <= high
    ensures low <= Least(values) <= high && low <= Greatest(values) <= high
  {
  }
}
