/** A valid sweep whose mesh leaves the envelope: its path is shorter than the contract's
    normalisation can see. */
module SweepFailure {
  import opened Affine
  import opened Hull
  import opened Graphs
  import opened Polygon
  import opened Program
  import opened MeshVertices
  import opened SweepFrames
  import opened Envelope
  import opened EnvelopeSound
  import opened Validator
  import opened Repair
  import opened Fitting
  import opened SmallPrograms

  const TRIANGLE: seq<Vec2> := [Vec2(0.0, 0.0), Vec2(1.0, 0.0), Vec2(0.0, 1.0)]
  const HAIR := 0.0000000000001
  const PATH: seq<Vec3> := [ZERO, Vec3(0.0, 0.0, HAIR)]
  const OUTLINE := Node("outline", None, None, None, IDENTITY, Profile(TRIANGLE, true))
  const WIRE := Node("wire", None, None, Some("main"), SmallPrograms.Shifted(ZERO), Sweep("outline", PATH, false))
  const GAUGE := Node("gauge", None, None, None, SmallPrograms.Shifted(ZERO), Cube(1.0))
  const WIRED := Scene([OUTLINE, GAUGE, WIRE], ["outline", "gauge"], None)

  ghost predicate Wired(nodes: Nodes) {
    && nodes == map["outline" := OUTLINE, "gauge" := GAUGE, "wire" := WIRE]
    && Grounded(nodes) && KindsOk(nodes)
  }

  // ----- it is valid

  lemma Products()
    ensures Mul(0.0, 0.0) == 0.0 && Mul(1.0, 0.0) == 0.0 && Mul(0.0, 1.0) == 0.0 && Mul(1.0, 1.0) == 1.0
  {
  }

  lemma CornerTerms(o: Vec2, x: Vec2, y: Vec2)
    requires o == Vec2(0.0, 0.0) && x == Vec2(1.0, 0.0) && y == Vec2(0.0, 1.0)
    ensures CrossTerm(o, x) == 0.0 && CrossTerm(x, y) == 1.0 && CrossTerm(y, o) == 0.0
  {
    TermOf(o, x, 0.0, 0.0, 1.0, 0.0);
    TermOf(x, y, 1.0, 0.0, 0.0, 1.0);
    TermOf(y, o, 0.0, 1.0, 0.0, 0.0);
    Products();
  }

  lemma {:induction false} ThreeSum(points: seq<Vec2>, a: real, b: real, c: real)
    requires |points| == 3 && a == CrossTerm(points[0], points[1]) && b == CrossTerm(points[1], points[2])
    requires c == CrossTerm(points[2], points[0])
    ensures Shoelace(points) == a + b + c
  {
    ShoelaceStep(points, 0, 0.0, points[0], points[1], a);
    ShoelaceStep(points, 1, a, points[1], points[2], b);
    ShoelaceStep(points, 2, a + b, points[2], points[0], c);
  }

  lemma {:induction false} TriangleArea(points: seq<Vec2>)
    requires |points| == 3 && points[0] == Vec2(0.0, 0.0) && points[1] == Vec2(1.0, 0.0) && points[2] == Vec2(0.0, 1.0)
    ensures Shoelace(points) == 1.0
  {
    CornerTerms(points[0], points[1], points[2]);
    ThreeSum(points, 0.0, 1.0, 0.0);
  }

  lemma {:induction false} TriangleIsSimple(points: seq<Vec2>)
    requires |points| == 3
    ensures !SelfIntersects(points)
  {
    forall i, j | 0 <= i < 3 && 0 <= j < 3 ensures !Apart(i, j, 3) {
    }
  }

  predicate TrianglePoints(points: seq<Vec2>) {
    |points| == 3 && points[0] == Vec2(0.0, 0.0) && points[1] == Vec2(1.0, 0.0) && points[2] == Vec2(0.0, 1.0)
  }

  lemma {:induction false} TriangleParts(points: seq<Vec2>)
    requires TrianglePoints(points)
    ensures forall p :: p in points ==> Abs(p.x) <= 300.0 && Abs(p.y) <= 300.0
    ensures forall i :: 1 <= i < |points| ==> points[i] != points[i - 1]
    ensures points[0] != points[2]
  {
  }

  lemma {:induction false} TriangleOk(points: seq<Vec2>)
    requires TrianglePoints(points)
    ensures ProfileOk(points, true)
  {
    TriangleParts(points);
    TriangleArea(points);
    TriangleIsSimple(points);
  }

  lemma {:induction false} BareNodeOk(n: Node)
    requires n.id != "" && n.transform == IDENTITY && KindOk(n.kind) && !n.kind.ExactAsset?
    ensures NodeOk(n)
  {
  }

  lemma {:induction false} OutlineOk()
    ensures NodeOk(OUTLINE)
  {
    TriangleOk(TRIANGLE);
    BareNodeOk(OUTLINE);
  }

  lemma {:induction false} PathOk(path: seq<Vec3>)
    requires path == PATH
    ensures KindOk(Sweep("outline", path, false))
  {
  }

  lemma {:induction false} WireOk()
    ensures NodeOk(WIRE)
  {
    PathOk(PATH);
  }

  lemma {:induction false} WiredFit(nodes: Nodes, rank: map<string, nat>)
    requires nodes == map["outline" := OUTLINE, "gauge" := GAUGE, "wire" := WIRE] && rank == map["outline" := 0, "gauge" := 1, "wire" := 2]
    ensures NodeFits(OUTLINE, nodes, ["outline", "gauge"], rank) && NodeFits(WIRE, nodes, ["outline", "gauge"], rank)
    ensures NodeFits(GAUGE, nodes, ["outline", "gauge"], rank)
  {
    OutlineOk();
    WireOk();
    WireSource();
    OutlineSource();
    CubeFits(GAUGE, 1.0, nodes, ["outline", "gauge"], rank);
  }

  lemma {:induction false} WireSource()
    ensures ParentSet(WIRE) + NodeDependencies(WIRE.kind) == {"outline"}
  {
  }

  lemma {:induction false} OutlineSource()
    ensures ParentSet(OUTLINE) + NodeDependencies(OUTLINE.kind) == {}
  {
  }

  lemma {:induction false} WiredLists()
    ensures NodeOrder(WIRED.nodes) == ["outline", "gauge", "wire"] && ById(WIRED.nodes) == map["outline" := OUTLINE, "gauge" := GAUGE, "wire" := WIRE]
    ensures Ids(WIRED.nodes) == {"outline", "gauge", "wire"} && Members(WIRED.construction) == {"outline", "gauge"}
  {
    ListThree(OUTLINE, GAUGE, WIRE);
  }

  lemma {:induction false} WiredIsScene(rank: map<string, nat>)
    requires rank == map["outline" := 0, "gauge" := 1, "wire" := 2]
    ensures SceneOk(WIRED.nodes, ["outline", "gauge"], rank)
  {
    WiredLists();
    WiredFit(ById(WIRED.nodes), rank);
    TwoHiddenScene(OUTLINE, GAUGE, WIRE, rank);
  }

  lemma {:induction false} WiredIsSound(sqrt: real -> real)
    ensures Valid(sqrt, Unbounded(WIRED)) && Wired(ById(WIRED.nodes))
  {
    var rank: map<string, nat> := map["outline" := 0, "gauge" := 1, "wire" := 2];
    WiredLists();
    WiredIsScene(rank);
    SceneIsSound(WIRED.nodes, ["outline", "gauge"], rank, None);
    SceneIsValid(sqrt, WIRED.nodes, ["outline", "gauge"], rank, None);
  }

  // ----- the contract sees only its path

  lemma {:induction false} HairIsUnclear(i: nat)
    requires i < 2
    ensures !ChordClear(Chord(PATH, false, i))
  {
    assert Chord(PATH, false, i) == Vec3(0.0, 0.0, HAIR);
  }

  lemma {:induction false} ContractCollapses(sqrt: real -> real, i: nat, j: nat)
    requires IsSquareRoot(sqrt) && i < 2 && j < 3
    ensures ContractRing(sqrt, TRIANGLE, PATH, false, i)[j] == PATH[i]
  {
    HairIsUnclear(i);
    UnclearFramesDiffer(sqrt, Chord(PATH, false, i));
    CollapsedVertex(PATH[i], TRIANGLE[j]);
  }

  const HAIR_BOX := Hull.Box(ZERO, Vec3(0.0, 0.0, HAIR))

  lemma {:induction false} ContractPoints(sqrt: real -> real, q: Vec3)
    requires IsSquareRoot(sqrt) && q in Stack(ContractRings(sqrt, TRIANGLE, PATH, false))
    ensures Inside(HAIR_BOX, q)
  {
    var k := IndexOf(Stack(ContractRings(sqrt, TRIANGLE, PATH, false)), q);
    var i, j := StackMember(ContractRings(sqrt, TRIANGLE, PATH, false), k);
    ContractCollapses(sqrt, i, j);
    PathInHair(i);
  }

  lemma PathInHair(i: nat)
    requires i < 2
    ensures Inside(HAIR_BOX, PATH[i])
  {
  }

  lemma {:induction false} WirePlaces(nodes: Nodes, p: Vec3)
    requires Wired(nodes)
    ensures Place("wire", nodes, p) == p
  {
    PlainApplies(WIRE.transform, p);
  }

  lemma {:induction false} WireCorners(sqrt: real -> real, nodes: Nodes)
    requires Wired(nodes)
    ensures GeometryCorners(sqrt, "wire", nodes, {}) == Ok(Stack(ContractRings(sqrt, TRIANGLE, PATH, false)))
  {
    SourcesKnown("wire", nodes);
    assert OutlineFor(WIRE.kind, nodes) == Ok(TRIANGLE);
  }

  lemma {:induction false} WirePoints(sqrt: real -> real, nodes: Nodes, q: Vec3)
    requires Wired(nodes) && IsSquareRoot(sqrt)
    ensures PlacedCorners(sqrt, "wire", nodes).Ok?
    ensures q in PlacedCorners(sqrt, "wire", nodes).value ==> Inside(HAIR_BOX, q)
  {
    WireCorners(sqrt, nodes);
    var corners := Stack(ContractRings(sqrt, TRIANGLE, PATH, false));
    if q in MapPoints(WorldMatrix("wire", nodes), corners) {
      var k := IndexOf(MapPoints(WorldMatrix("wire", nodes), corners), q);
      WorldMatrixPlaces("wire", nodes, corners[k]);
      WirePlaces(nodes, corners[k]);
      ContractPoints(sqrt, corners[k]);
    }
  }

  lemma {:induction false} WireBounds(sqrt: real -> real, order: seq<string>, nodes: Nodes)
    requires Wired(nodes) && IsSquareRoot(sqrt) && order == ["outline", "gauge", "wire"]
    ensures ProgramBounds(sqrt, order, nodes, {"outline", "gauge"}).Ok?
    ensures var b := ProgramBounds(sqrt, order, nodes, {"outline", "gauge"}).value; Inside(HAIR_BOX, b.min) && Inside(HAIR_BOX, b.max)
  {
    WirePoints(sqrt, nodes, ZERO);
    VisibleMeasured(sqrt, order, nodes, {"outline", "gauge"});
    var first := PlacedCorners(sqrt, "wire", nodes).value[0];
    assert order[2] == "wire";
    VisibleHolds(sqrt, order, nodes, {"outline", "gauge"}, "wire", first);
    forall q | q in VisiblePoints(sqrt, order, nodes, {"outline", "gauge"}).value ensures Inside(HAIR_BOX, q) {
      var id := VisibleFrom(sqrt, order, nodes, {"outline", "gauge"}, q);
      WirePoints(sqrt, nodes, q);
    }
    BoundsWithin(VisiblePoints(sqrt, order, nodes, {"outline", "gauge"}).value, HAIR_BOX);
  }

  // ----- the worker builds a ring of the profile's size

  lemma {:induction false} RingAt(outline: seq<Vec2>, center: Vec3, f: Frame, j: nat)
    requires j < |outline|
    ensures |FrameRing(outline, center, f)| == |outline| && FrameRing(outline, center, f)[j] == FrameVertex(center, f, outline[j])
  {
  }

  lemma {:induction false} RingVertex(rings: seq<seq<Vec3>>, outline: seq<Vec2>, f: Frame)
    requires |outline| == 3 && outline[1] == Vec2(1.0, 0.0)
    requires |rings| == 2 && |rings[0]| == 3 && |rings[1]| == 3 && rings[0] == FrameRing(outline, ZERO, f)
    ensures f.normal in Stack(rings)
  {
    RingAt(outline, ZERO, f, 1);
    AxisVertex(f, f.normal);
    StackAt(rings, 3, 0, 1);
    Listed(Stack(rings), 1, f.normal);
  }

  lemma {:induction false} FirstRing(sqrt: real -> real)
    ensures var rings := SweepRings(sqrt, TRIANGLE, PATH, false);
            && |rings| == 2 && |rings[0]| == 3 && |rings[1]| == 3
            && rings[0] == FrameRing(TRIANGLE, ZERO, WorkerFrame(sqrt, Chord(PATH, false, 0)))
  {
    SweepRingAt(sqrt, TRIANGLE, PATH, false, 0);
    SweepRingAt(sqrt, TRIANGLE, PATH, false, 1);
  }

  lemma {:induction false} WorkerVertex(sqrt: real -> real) returns (v: Vec3)
    requires IsSquareRoot(sqrt)
    ensures v in Stack(SweepRings(sqrt, TRIANGLE, PATH, false)) && Dot(v, v) == 1.0
  {
    HairIsUnclear(0);
    UnclearFramesDiffer(sqrt, Chord(PATH, false, 0));
    FirstRing(sqrt);
    RingVertex(SweepRings(sqrt, TRIANGLE, PATH, false), TRIANGLE, WorkerFrame(sqrt, Chord(PATH, false, 0)));
    v := WorkerFrame(sqrt, Chord(PATH, false, 0)).normal;
  }

  lemma AxisVertex(f: Frame, v: Vec3)
    requires v == f.normal
    ensures FrameVertex(ZERO, f, Vec2(1.0, 0.0)) == v
  {
  }

  lemma UnitIsOutside(v: Vec3)
    requires Dot(v, v) == 1.0
    ensures !Inside(HAIR_BOX, v)
  {
    if Inside(HAIR_BOX, v) {
      DotIsLength2(v);
      HairSquare(v.z);
    }
  }

  lemma HairSquare(z: real)
    requires 0.0 <= z <= HAIR
    ensures Mul(z, z) <= 0.5 && Mul(0.0, 0.0) == 0.0
  {
    SmallProduct(z, z);
  }

  lemma SmallProduct(a: real, b: real)
    requires 0.0 <= a <= 0.5 && 0.0 <= b <= 0.5
    ensures Mul(a, b) <= 0.5
  {
    MulSign(a, 1.0 - b);
    assert Mul(a, 1.0 - b) == a - Mul(a, b);
  }

  lemma {:induction false} WireCompiles(sqrt: real -> real, nodes: Nodes, solids: map<string, Solid>)
    requires Wired(nodes) && solids.Keys == {"outline", "gauge", "wire"} && solids["outline"] == iset{} && solids["gauge"] == iset{}
    requires solids["wire"] == iset p | InHull(p, Stack(SweepRings(sqrt, TRIANGLE, PATH, false)))
    ensures Compiled(sqrt, nodes, solids)
  {
    NothingAllowed(sqrt, "outline", nodes, solids);
    NothingAllowed(sqrt, "gauge", nodes, solids);
    WireOutline(nodes);
    SweepAllowed(sqrt, "wire", nodes, solids, TRIANGLE, PATH);
    CompiledByThree(sqrt, "outline", "gauge", "wire", nodes, solids);
  }

  lemma {:induction false} WireOutline(nodes: Nodes)
    requires Wired(nodes)
    ensures NodeDependencies(nodes["wire"].kind) <= nodes.Keys && OutlineFor(nodes["wire"].kind, nodes) == Ok(TRIANGLE)
  {
    SourcesKnown("wire", nodes);
  }

  lemma {:induction false} NothingAllowed(sqrt: real -> real, id: string, nodes: Nodes, solids: map<string, Solid>)
    requires Grounded(nodes) && KindsOk(nodes) && id in nodes && solids.Keys == nodes.Keys
    requires Covered(nodes[id].kind) && solids[id] == iset{}
    ensures SolidAllowed(sqrt, id, nodes, solids)
  {
    SourcesKnown(id, nodes);
  }

  lemma {:induction false} SweepAllowed(sqrt: real -> real, id: string, nodes: Nodes, solids: map<string, Solid>,
                                        outline: seq<Vec2>, path: seq<Vec3>)
    requires Grounded(nodes) && KindsOk(nodes) && id in nodes && solids.Keys == nodes.Keys
    requires nodes[id].kind.Sweep? && nodes[id].kind.path == path && !nodes[id].kind.cyclic
    requires NodeDependencies(nodes[id].kind) <= nodes.Keys && OutlineFor(nodes[id].kind, nodes) == Ok(outline)
    requires solids[id] == iset p | InHull(p, Stack(SweepRings(sqrt, outline, path, false)))
    ensures SolidAllowed(sqrt, id, nodes, solids)
  {
  }

  ghost predicate IsWired(sqrt: real -> real, p: GeometryProgram, nodes: Nodes) {
    && Valid(sqrt, Unbounded(p)) && Members(p.construction) == {"outline", "gauge"}
    && nodes == ById(p.nodes) && NodeOrder(p.nodes) == ["outline", "gauge", "wire"]
    && Wired(nodes)
  }

  lemma {:induction false} WireSolids(sqrt: real -> real, nodes: Nodes) returns (solids: map<string, Solid>, v: Vec3)
    requires IsSquareRoot(sqrt) && Wired(nodes)
    ensures Compiled(sqrt, nodes, solids) && "wire" in solids && v in solids["wire"] && Dot(v, v) == 1.0
  {
    solids := map["outline" := iset{}, "gauge" := iset{}, "wire" := iset p | InHull(p, Stack(SweepRings(sqrt, TRIANGLE, PATH, false)))];
    WireCompiles(sqrt, nodes, solids);
    v := VertexInside(sqrt, solids["wire"]);
  }

  lemma {:induction false} WiredEscapes(sqrt: real -> real, p: GeometryProgram, nodes: Nodes) returns (solids: map<string, Solid>, v: Vec3)
    requires IsSquareRoot(sqrt) && IsWired(sqrt, p, nodes)
    ensures Compiled(sqrt, nodes, solids) && "wire" in solids && v in solids["wire"]
    ensures BoundsOf(sqrt, p).Ok? && !Inside(BoundsOf(sqrt, p).value, Place("wire", nodes, v))
  {
    solids, v := WireSolids(sqrt, nodes);
    WireEscapes(sqrt, nodes, v);
    BoundsByParts(sqrt, p, ["outline", "gauge", "wire"], nodes);
  }

  lemma {:induction false} WiredIsWired(sqrt: real -> real)
    ensures IsWired(sqrt, WIRED, ById(WIRED.nodes))
  {
    WiredIsSound(sqrt);
    WiredLists();
  }

  /** The worker's first ring has a vertex one metre from the path; the bounds are a hair wide. */
  lemma {:induction false} ShortSweepEscapes(sqrt: real -> real) returns (solids: map<string, Solid>, v: Vec3)
    requires IsSquareRoot(sqrt)
    ensures Valid(sqrt, Unbounded(WIRED)) && Wired(ById(WIRED.nodes))
    ensures Compiled(sqrt, ById(WIRED.nodes), solids) && "wire" in solids && v in solids["wire"]
    ensures BoundsOf(sqrt, WIRED).Ok? && !Inside(BoundsOf(sqrt, WIRED).value, Place("wire", ById(WIRED.nodes), v))
  {
    WiredIsWired(sqrt);
    solids, v := WiredEscapes(sqrt, WIRED, ById(WIRED.nodes));
  }

  lemma {:induction false} VertexInside(sqrt: real -> real, solid: Solid) returns (v: Vec3)
    requires IsSquareRoot(sqrt) && solid == iset p | InHull(p, Stack(SweepRings(sqrt, TRIANGLE, PATH, false)))
    ensures v in solid && Dot(v, v) == 1.0
  {
    v := WorkerVertex(sqrt);
    var i := IndexOf(Stack(SweepRings(sqrt, TRIANGLE, PATH, false)), v);
    MemberInHull(Stack(SweepRings(sqrt, TRIANGLE, PATH, false)), i);
  }

  lemma {:induction false} WireEscapes(sqrt: real -> real, nodes: Nodes, v: Vec3)
    requires Wired(nodes) && IsSquareRoot(sqrt) && Dot(v, v) == 1.0
    ensures ProgramBounds(sqrt, ["outline", "gauge", "wire"], nodes, {"outline", "gauge"}).Ok?
    ensures !Inside(ProgramBounds(sqrt, ["outline", "gauge", "wire"], nodes, {"outline", "gauge"}).value, Place("wire", nodes, v))
  {
    WireBounds(sqrt, ["outline", "gauge", "wire"], nodes);
    WirePlaces(nodes, v);
    UnitIsOutside(v);
  }
}
