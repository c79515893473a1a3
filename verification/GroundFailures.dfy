/** Valid programs that the ground-contact pass leaves below the ground. */
module GroundFailures {
  import opened Affine
  import opened Hull
  import opened Graphs
  import opened Program
  import opened Envelope
  import opened Motions
  import opened MovedGeometry
  import opened VisibleBoxes
  import opened Validator
  import opened Repair
  import opened Fitting
  import opened GroundContact
  import opened SmallPrograms

  // ----- a child below a root that rests on the ground

  const BASE := Node("base", None, None, None, Shifted(Vec3(0.0, 0.0, 1.0)), Cube(2.0))
  const SHED := Node("shed", None, None, None, Shifted(Vec3(5.0, 0.0, 1.0)), Cube(2.0))
  const CELLAR := Node("cellar", Some("base"), None, Some("main"), Shifted(Vec3(0.0, 0.0, -5.0)), Cube(2.0))
  const SUNKEN := Scene([BASE, SHED, CELLAR], [], None)

  lemma {:induction false} SunkenLists()
    ensures NodeOrder(SUNKEN.nodes) == ["base", "shed", "cellar"]
    ensures ById(SUNKEN.nodes) == map["base" := BASE, "shed" := SHED, "cellar" := CELLAR]
    ensures Members(SUNKEN.construction) == {}
  {
    ListThree(BASE, SHED, CELLAR);
  }

  lemma {:induction false} SunkenFit(nodes: Nodes, rank: map<string, nat>)
    requires nodes == map["base" := BASE, "shed" := SHED, "cellar" := CELLAR]
    requires rank == map["base" := 0, "shed" := 1, "cellar" := 2]
    ensures NodeFits(BASE, nodes, [], rank) && NodeFits(SHED, nodes, [], rank) && NodeFits(CELLAR, nodes, [], rank)
  {
    CubeFits(BASE, 2.0, nodes, [], rank);
    CubeFits(SHED, 2.0, nodes, [], rank);
    CubeFits(CELLAR, 2.0, nodes, [], rank);
  }

  lemma {:induction false} SunkenIsSound(sqrt: real -> real)
    ensures Valid(sqrt, Unbounded(SUNKEN)) && Grounded(ById(SUNKEN.nodes)) && KindsOk(ById(SUNKEN.nodes))
  {
    var rank: map<string, nat> := map["base" := 0, "shed" := 1, "cellar" := 2];
    SunkenLists();
    SunkenFit(ById(SUNKEN.nodes), rank);
    ThreeScene(BASE, SHED, CELLAR, [], rank);
    SceneIsSound(SUNKEN.nodes, [], rank, None);
    SceneIsValid(sqrt, SUNKEN.nodes, [], rank, None);
  }

  /** The three nodes by name. */
  ghost predicate Sunken(nodes: Nodes) {
    && nodes == map["base" := BASE, "shed" := SHED, "cellar" := CELLAR]
    && Grounded(nodes) && KindsOk(nodes)
  }

  lemma {:induction false} BasePlaces(nodes: Nodes, p: Vec3)
    requires Sunken(nodes)
    ensures Place("base", nodes, p) == Add(p, Vec3(0.0, 0.0, 1.0))
  {
    PlainApplies(BASE.transform, p);
  }

  lemma {:induction false} ShedPlaces(nodes: Nodes, p: Vec3)
    requires Sunken(nodes)
    ensures Place("shed", nodes, p) == Add(p, Vec3(5.0, 0.0, 1.0))
  {
    PlainApplies(SHED.transform, p);
  }

  lemma {:induction false} CellarPlaces(nodes: Nodes, p: Vec3)
    requires Sunken(nodes)
    ensures Place("cellar", nodes, p) == Vec3(p.x, p.y, p.z - 4.0)
  {
    PlainApplies(CELLAR.transform, p);
    BasePlaces(nodes, Vec3(p.x, p.y, p.z - 5.0));
  }

  lemma {:induction false} SunkenStands(sqrt: real -> real, nodes: Nodes)
    requires Sunken(nodes)
    ensures Stands(sqrt, "base", nodes) && Stands(sqrt, "shed", nodes)
  {
    forall p ensures Place("base", nodes, p) == Add(p, Vec3(0.0, 0.0, 1.0)) {
      BasePlaces(nodes, p);
    }
    forall p ensures Place("shed", nodes, p) == Add(p, Vec3(5.0, 0.0, 1.0)) {
      ShedPlaces(nodes, p);
    }
    ShiftedBox(sqrt, "base", nodes, UNIT_HALF, Vec3(0.0, 0.0, 1.0));
    ShiftedBox(sqrt, "shed", nodes, UNIT_HALF, Vec3(5.0, 0.0, 1.0));
  }

  lemma {:induction false} CellarReaches(sqrt: real -> real, nodes: Nodes)
    requires Sunken(nodes)
    ensures PlacedCorners(sqrt, "cellar", nodes).Ok?
    ensures Vec3(-1.0, -1.0, -5.0) in PlacedCorners(sqrt, "cellar", nodes).value
  {
    BoxPlaced(sqrt, "cellar", nodes, UNIT_HALF);
    CellarPlaces(nodes, BoundsCorners(Centered(UNIT_HALF))[0]);
    Listed(PlacedCorners(sqrt, "cellar", nodes).value, 0, Vec3(-1.0, -1.0, -5.0));
  }

  lemma {:induction false} SunkenLifts(sqrt: real -> real, order: seq<string>, nodes: Nodes)
    requires Sunken(nodes) && order == ["base", "shed", "cellar"]
    ensures Lifts(sqrt, order, nodes, {}) == Ok(map[])
  {
    SunkenStands(sqrt, nodes);
    SunkenRoots(nodes);
    NothingToLift(sqrt, order, nodes, {});
  }

  lemma {:induction false} SunkenRoots(nodes: Nodes)
    requires Sunken(nodes)
    ensures forall id :: IsVisibleRoot(id, nodes, {}) ==> id == "base" || id == "shed"
  {
  }

  lemma {:induction false} SunkenBounds(sqrt: real -> real, order: seq<string>, nodes: Nodes)
    requires Sunken(nodes) && order == ["base", "shed", "cellar"]
    ensures ProgramBounds(sqrt, order, nodes, {}).Ok? && ProgramBounds(sqrt, order, nodes, {}).value.min.z <= -5.0
  {
    BoxPlaced(sqrt, "base", nodes, UNIT_HALF);
    BoxPlaced(sqrt, "shed", nodes, UNIT_HALF);
    CellarReaches(sqrt, nodes);
    LowestOf(sqrt, "base", "shed", "cellar", nodes, Vec3(-1.0, -1.0, -5.0));
  }

  lemma {:induction false} LowestOf(sqrt: real -> real, a: string, b: string, c: string, nodes: Nodes, q: Vec3)
    requires Grounded(nodes) && KindsOk(nodes) && a in nodes && b in nodes && c in nodes
    requires PlacedCorners(sqrt, a, nodes).Ok? && PlacedCorners(sqrt, b, nodes).Ok? && PlacedCorners(sqrt, c, nodes).Ok?
    requires q in PlacedCorners(sqrt, c, nodes).value
    ensures ProgramBounds(sqrt, [a, b, c], nodes, {}).Ok? && ProgramBounds(sqrt, [a, b, c], nodes, {}).value.min.z <= q.z
  {
    assert [a, b, c][2] == c;
    ReachesBounds(sqrt, [a, b, c], nodes, {}, c, q);
  }

  ghost predicate IsSunken(sqrt: real -> real, p: GeometryProgram, nodes: Nodes) {
    && Valid(sqrt, Unbounded(p)) && Members(p.construction) == {}
    && nodes == ById(p.nodes) && NodeOrder(p.nodes) == ["base", "shed", "cellar"]
    && Sunken(nodes)
  }

  lemma {:induction false} SunkenIsSunken(sqrt: real -> real)
    ensures IsSunken(sqrt, SUNKEN, ById(SUNKEN.nodes))
  {
    SunkenIsSound(sqrt);
    SunkenLists();
  }

  lemma {:induction false} SunkenStays(sqrt: real -> real, p: GeometryProgram, nodes: Nodes)
    requires IsSunken(sqrt, p, nodes)
    ensures Lifted(sqrt, true, p) == Ok(p)
    ensures BoundsOf(sqrt, p).Ok? && BoundsOf(sqrt, p).value.min.z <= -5.0
  {
    var order := ["base", "shed", "cellar"];
    SunkenLifts(sqrt, order, nodes);
    SunkenBounds(sqrt, order, nodes);
    LiftsByParts(sqrt, p, order, nodes);
    BoundsByParts(sqrt, p, order, nodes);
    LiftedUnfolds(sqrt, p);
  }

  /** The pass lifts nothing, since the roots rest on the ground, and the visible envelope
      still reaches five metres below it. */
  lemma {:induction false} ChildStaysBelow(sqrt: real -> real)
    ensures Valid(sqrt, Unbounded(SUNKEN)) && Grounded(ById(SUNKEN.nodes)) && KindsOk(ById(SUNKEN.nodes))
    ensures Lifted(sqrt, true, SUNKEN) == Ok(SUNKEN)
    ensures BoundsOf(sqrt, SUNKEN).Ok? && BoundsOf(sqrt, SUNKEN).value.min.z <= -5.0
  {
    SunkenIsSunken(sqrt);
    SunkenStays(sqrt, SUNKEN, ById(SUNKEN.nodes));
  }

  // ----- a boolean that its own operand pushes down

  const HALF_TURN := Angle(180.0, -1.0, 0.0)
  const BLOCK := Node("block", None, None, None, Shifted(ZERO), Cube(2.0))
  const TOOL := Node("tool", None, None, None, Shifted(ZERO), Cube(1.0))
  const CUT := Node("cut", None, None, Some("main"), Transform(ZERO, HALF_TURN, ZERO_ANGLE, ZERO_ANGLE, Vec3(1.0, 1.0, 1.0)),
                    Boolean("block", "tool", Difference))
  const CARVED := Scene([BLOCK, TOOL, CUT], ["tool"], None)

  ghost predicate Carved(nodes: Nodes) {
    && nodes == map["block" := BLOCK, "tool" := TOOL, "cut" := CUT]
    && Grounded(nodes) && KindsOk(nodes)
  }

  lemma {:induction false} CutFits(nodes: Nodes, rank: map<string, nat>)
    requires nodes == map["block" := BLOCK, "tool" := TOOL, "cut" := CUT]
    requires rank == map["block" := 0, "tool" := 1, "cut" := 2]
    ensures NodeFits(CUT, nodes, ["tool"], rank)
  {
    assert HALF_TURN.Unit();
    assert ParentSet(CUT) + NodeDependencies(CUT.kind) == {"block", "tool"};
    assert ResolvesToMesh("block", nodes, {}) == Mesh && ResolvesToMesh("tool", nodes, {}) == Mesh;
  }

  lemma {:induction false} CarvedLists()
    ensures NodeOrder(CARVED.nodes) == ["block", "tool", "cut"]
    ensures ById(CARVED.nodes) == map["block" := BLOCK, "tool" := TOOL, "cut" := CUT]
    ensures Ids(CARVED.nodes) == {"block", "tool", "cut"}
    ensures Members(CARVED.construction) == {"tool"}
  {
    ListThree(BLOCK, TOOL, CUT);
  }

  lemma {:induction false} CarvedIsScene(rank: map<string, nat>)
    requires rank == map["block" := 0, "tool" := 1, "cut" := 2]
    ensures SceneOk(CARVED.nodes, ["tool"], rank)
  {
    CarvedLists();
    CarvedFit(ById(CARVED.nodes), rank);
    assert NoRepeats(["tool"]) && Members(["tool"]) == {"tool"};
    ThreeScene(BLOCK, TOOL, CUT, ["tool"], rank);
  }

  lemma {:induction false} CarvedFit(nodes: Nodes, rank: map<string, nat>)
    requires nodes == map["block" := BLOCK, "tool" := TOOL, "cut" := CUT]
    requires rank == map["block" := 0, "tool" := 1, "cut" := 2]
    ensures NodeFits(BLOCK, nodes, ["tool"], rank) && NodeFits(TOOL, nodes, ["tool"], rank) && NodeFits(CUT, nodes, ["tool"], rank)
  {
    CubeFits(BLOCK, 2.0, nodes, ["tool"], rank);
    CubeFits(TOOL, 1.0, nodes, ["tool"], rank);
    CutFits(nodes, rank);
  }

  lemma {:induction false} CarvedIsSound(sqrt: real -> real)
    ensures Valid(sqrt, Unbounded(CARVED))
    ensures Grounded(ById(CARVED.nodes)) && KindsOk(ById(CARVED.nodes))
  {
    var rank: map<string, nat> := map["block" := 0, "tool" := 1, "cut" := 2];
    CarvedIsScene(rank);
    SceneIsSound(CARVED.nodes, ["tool"], rank, None);
    SceneIsValid(sqrt, CARVED.nodes, ["tool"], rank, None);
  }

  lemma {:induction false} BlockPlaces(nodes: Nodes, p: Vec3)
    requires Carved(nodes)
    ensures Place("block", nodes, p) == p
  {
    PlainApplies(BLOCK.transform, p);
  }

  lemma {:induction false} CutPlaces(nodes: Nodes, p: Vec3)
    requires Carved(nodes)
    ensures Place("cut", nodes, p) == Vec3(p.x, -p.y, -p.z)
  {
  }

  /** The cut's corners before the pass: the block's, turned over. */
  lemma {:induction false} CutCorners(sqrt: real -> real, nodes: Nodes)
    requires Carved(nodes)
    ensures GeometryCorners(sqrt, "cut", nodes, {}) == GeometryCorners(sqrt, "block", nodes, {"cut"})
    ensures GeometryCorners(sqrt, "cut", nodes, {}) == Ok(BoundsCorners(Centered(UNIT_HALF)))
  {
    BooleanLevel(sqrt, "cut", nodes, {});
    LeafLevel(sqrt, "block", nodes, {"cut"});
    assert {} + {"cut"} == {"cut"};
    var corners := BoundsCorners(Centered(UNIT_HALF));
    forall i | 0 <= i < 8 ensures MapPoints(WorldMatrix("block", nodes), corners)[i] == corners[i] {
      WorldMatrixPlaces("block", nodes, corners[i]);
      BlockPlaces(nodes, corners[i]);
    }
    assert MapPoints(WorldMatrix("block", nodes), corners) == corners;
  }

  lemma {:induction false} CubeHeights(corners: seq<Vec3>)
    requires corners == BoundsCorners(Centered(UNIT_HALF))
    ensures |corners| == 8 && corners[0].z == -1.0 && corners[1].z == 1.0
    ensures forall i :: 0 <= i < 8 ==> -1.0 <= corners[i].z <= 1.0
  {
  }

  lemma {:induction false} BlockCorners(sqrt: real -> real, nodes: Nodes)
    requires Carved(nodes)
    ensures PlacedCorners(sqrt, "block", nodes) == Ok(BoundsCorners(Centered(UNIT_HALF)))
  {
    var corners := BoundsCorners(Centered(UNIT_HALF));
    BoxPlaced(sqrt, "block", nodes, UNIT_HALF);
    var points := PlacedCorners(sqrt, "block", nodes).value;
    forall i | 0 <= i < 8 ensures points[i] == corners[i] {
      BlockPlaces(nodes, corners[i]);
    }
    assert points == corners;
  }

  lemma {:induction false} BlockBox(sqrt: real -> real, nodes: Nodes)
    requires Carved(nodes)
    ensures NodeBox(sqrt, "block", nodes).Ok? && NodeBox(sqrt, "block", nodes).value.min.z == -1.0
  {
    var corners := BoundsCorners(Centered(UNIT_HALF));
    BlockCorners(sqrt, nodes);
    CubeHeights(corners);
    BottomIs(sqrt, "block", nodes, corners, 0, -1.0);
  }

  lemma {:induction false} CutBox(sqrt: real -> real, nodes: Nodes)
    requires Carved(nodes)
    ensures NodeBox(sqrt, "cut", nodes).Ok? && NodeBox(sqrt, "cut", nodes).value.min.z == -1.0
  {
    var corners := BoundsCorners(Centered(UNIT_HALF));
    CutCorners(sqrt, nodes);
    CubeHeights(corners);
    var points := MapPoints(WorldMatrix("cut", nodes), corners);
    forall i | 0 <= i < 8 ensures points[i].z == -corners[i].z {
      WorldMatrixPlaces("cut", nodes, corners[i]);
      CutPlaces(nodes, corners[i]);
    }
    BottomIs(sqrt, "cut", nodes, points, 1, -1.0);
  }

  lemma {:induction false} BottomIs(sqrt: real -> real, id: string, nodes: Nodes, points: seq<Vec3>, k: nat, z: real)
    requires Grounded(nodes) && KindsOk(nodes) && id in nodes && PlacedCorners(sqrt, id, nodes) == Ok(points)
    requires k < |points| && points[k].z == z && forall i :: 0 <= i < |points| ==> points[i].z >= z
    ensures NodeBox(sqrt, id, nodes).Ok? && NodeBox(sqrt, id, nodes).value.min.z == z
  {
    LowestAt(points, k, z);
  }

  lemma {:induction false} LowestAt(points: seq<Vec3>, k: nat, z: real)
    requires k < |points| && points[k].z == z && forall i :: 0 <= i < |points| ==> points[i].z >= z
    ensures PointBounds(points).min.z == z
  {
    LowestIff(points, z);
    assert Inside(PointBounds(points), points[k]);
  }

  /** Both visible roots are lifted by one metre. */
  lemma {:induction false} CarvedLifts(sqrt: real -> real, order: seq<string>, nodes: Nodes, moves: Moves)
    requires Carved(nodes) && order == ["block", "tool", "cut"]
    requires moves == map["block" := Raise(1.0), "cut" := Raise(1.0)]
    ensures Lifts(sqrt, order, nodes, {"tool"}) == Ok(moves)
  {
    var one: Moves := map["block" := Raise(1.0)];
    BlockBox(sqrt, nodes);
    CutBox(sqrt, nodes);
    ThreeLifts(sqrt, "block", "tool", "cut", nodes, {"tool"}, one, one, moves);
  }

  lemma {:induction false} ThreeLifts(sqrt: real -> real, a: string, b: string, c: string, nodes: Nodes, hidden: set<string>,
                                      first: Moves, second: Moves, third: Moves)
    requires Grounded(nodes) && KindsOk(nodes) && a in nodes && b in nodes && c in nodes
    requires NoteLift(sqrt, map[], a, nodes, hidden) == Ok(first) && NoteLift(sqrt, first, b, nodes, hidden) == Ok(second)
    requires NoteLift(sqrt, second, c, nodes, hidden) == Ok(third)
    ensures Lifts(sqrt, [a, b, c], nodes, hidden) == Ok(third)
  {
    LiftsMore(sqrt, [], a, nodes, hidden, map[]);
    LiftsMore(sqrt, [a], b, nodes, hidden, first);
    LiftsMore(sqrt, [a, b], c, nodes, hidden, second);
    assert [] + [a] == [a] && [a] + [b] == [a, b] && [a, b] + [c] == [a, b, c];
  }

  lemma {:induction false} LiftsMore(sqrt: real -> real, order: seq<string>, id: string, nodes: Nodes, hidden: set<string>, moves: Moves)
    requires Grounded(nodes) && KindsOk(nodes) && id in nodes && forall v :: v in order ==> v in nodes
    requires Lifts(sqrt, order, nodes, hidden) == Ok(moves)
    ensures Lifts(sqrt, order + [id], nodes, hidden) == NoteLift(sqrt, moves, id, nodes, hidden)
  {
    assert (order + [id])[..|order|] == order;
  }

  lemma {:induction false} CutAfter(sqrt: real -> real, nodes: Nodes, moves: Moves, corners: seq<Vec3>)
    requires Carved(nodes) && moves == map["block" := Raise(1.0), "cut" := Raise(1.0)]
    requires corners == BoundsCorners(Centered(UNIT_HALF))
    ensures PlacedAfter(sqrt, "cut", nodes, moves) == OperandAfter("cut", nodes, moves, Ok(MoveAll(Raise(1.0), corners)))
  {
    CutCorners(sqrt, nodes);
    assert CornerSources(CUT.kind) == {"block"};
    BooleanMovesTwice(sqrt, "cut", nodes, moves, Raise(1.0));
  }

  function AfterPoint(nodes: Nodes, p: Vec3): Vec3
    requires Grounded(nodes) && "cut" in nodes
  {
    Moved(Raise(1.0), TransformPoint(WorldMatrix("cut", nodes), Moved(Raise(1.0), p)))
  }

  lemma {:induction false} CutPointAfter(nodes: Nodes, p: Vec3)
    requires Carved(nodes)
    ensures AfterPoint(nodes, p).z == -p.z
  {
    var up := Moved(Raise(1.0), p);
    WorldMatrixPlaces("cut", nodes, up);
    CutPlaces(nodes, up);
  }

  function AfterPoints(nodes: Nodes, corners: seq<Vec3>): seq<Vec3>
    requires Grounded(nodes) && "cut" in nodes
  {
    MoveAll(Raise(1.0), MapPoints(WorldMatrix("cut", nodes), MoveAll(Raise(1.0), corners)))
  }

  lemma {:induction false} AfterPointsAt(nodes: Nodes, corners: seq<Vec3>, i: nat)
    requires Grounded(nodes) && "cut" in nodes && i < |corners|
    ensures |AfterPoints(nodes, corners)| == |corners| && AfterPoints(nodes, corners)[i] == AfterPoint(nodes, corners[i])
  {
  }

  /** Afterwards the block has taken the cut's geometry up with it, which the half turn makes
      down, and the cut's own lift only brings it back to where it was. */
  lemma {:induction false} CutStaysBelow(sqrt: real -> real, nodes: Nodes, moves: Moves)
    requires Carved(nodes) && moves == map["block" := Raise(1.0), "cut" := Raise(1.0)]
    ensures BoxAfter(sqrt, "cut", nodes, moves).Ok? && BoxAfter(sqrt, "cut", nodes, moves).value.min.z == -1.0
  {
    var corners := BoundsCorners(Centered(UNIT_HALF));
    CutAfter(sqrt, nodes, moves, corners);
    CutPointsAfter(nodes, corners);
    LowestAt(AfterPoints(nodes, corners), 1, -1.0);
  }

  lemma {:induction false} CutPointsAfter(nodes: Nodes, corners: seq<Vec3>)
    requires Carved(nodes) && corners == BoundsCorners(Centered(UNIT_HALF))
    ensures |AfterPoints(nodes, corners)| == 8 && AfterPoints(nodes, corners)[1].z == -1.0
    ensures forall i :: 0 <= i < 8 ==> AfterPoints(nodes, corners)[i].z >= -1.0
  {
    CubeHeights(corners);
    forall i | 0 <= i < 8 ensures |AfterPoints(nodes, corners)| == 8 && AfterPoints(nodes, corners)[i].z == -corners[i].z {
      AfterPointsAt(nodes, corners, i);
      CutPointAfter(nodes, corners[i]);
    }
  }

  /** The carved program, its node list and its nodes by name. */
  ghost predicate IsCarved(sqrt: real -> real, p: GeometryProgram, nodes: Nodes) {
    && Valid(sqrt, Unbounded(p)) && p.adjustments == [] && Members(p.construction) == {"tool"}
    && nodes == ById(p.nodes) && NodeOrder(p.nodes) == ["block", "tool", "cut"]
    && Carved(nodes)
  }

  lemma {:induction false} CarvedIsCarved(sqrt: real -> real)
    ensures IsCarved(sqrt, CARVED, ById(CARVED.nodes))
  {
    CarvedIsSound(sqrt);
    CarvedLists();
  }

  lemma {:induction false} CarvedReaches(sqrt: real -> real, p: GeometryProgram, nodes: Nodes, moves: Moves)
    requires IsCarved(sqrt, p, nodes) && moves == map["block" := Raise(1.0), "cut" := Raise(1.0)]
    ensures LiftsOf(sqrt, p) == Ok(moves) && AllInReach(p, moves)
  {
    CarvedLifts(sqrt, ["block", "tool", "cut"], nodes, moves);
    CarvedLiftsOf(sqrt, p, nodes);
    CarvedInReach(p, nodes, moves);
  }

  lemma {:induction false} CarvedLiftsOf(sqrt: real -> real, p: GeometryProgram, nodes: Nodes)
    requires IsCarved(sqrt, p, nodes)
    ensures LiftsOf(sqrt, p) == Lifts(sqrt, ["block", "tool", "cut"], nodes, {"tool"})
  {
    LiftsByParts(sqrt, p, ["block", "tool", "cut"], nodes);
  }

  lemma {:induction false} CarvedInReach(p: GeometryProgram, nodes: Nodes, moves: Moves)
    requires nodes == ById(p.nodes) && Carved(nodes) && moves == map["block" := Raise(1.0), "cut" := Raise(1.0)]
    ensures AllInReach(p, moves)
  {
    forall id | id in moves && id in nodes ensures InReach(p, moves, id) {
      assert id == "block" || id == "cut";
    }
  }

  lemma {:induction false} CutAgain(sqrt: real -> real, p: GeometryProgram, nodes: Nodes)
    requires IsCarved(sqrt, p, nodes)
    ensures Lifted(sqrt, true, p).Ok?
    ensures var q := Lifted(sqrt, true, p).value;
            && Grounded(ById(q.nodes)) && KindsOk(ById(q.nodes)) && "cut" in ById(q.nodes)
            && NodeBox(sqrt, "cut", ById(q.nodes)).Ok? && NodeBox(sqrt, "cut", ById(q.nodes)).value.min.z == -1.0
            && Lifted(sqrt, true, q) != Ok(q)
  {
    var moves := map["block" := Raise(1.0), "cut" := Raise(1.0)];
    CarvedReaches(sqrt, p, nodes, moves);
    CutStaysBelow(sqrt, nodes, moves);
    assert IsVisibleRoot("cut", nodes, {"tool"});
    LiftedAgain(sqrt, p, nodes, moves, "cut");
  }

  /** So the pass leaves a visible root one metre below the ground, and a second pass would
      lift it again. */
  lemma {:induction false} CutIsLiftedAgain(sqrt: real -> real)
    ensures Valid(sqrt, Unbounded(CARVED)) && Lifted(sqrt, true, CARVED).Ok?
    ensures var q := Lifted(sqrt, true, CARVED).value;
            && Grounded(ById(q.nodes)) && KindsOk(ById(q.nodes)) && "cut" in ById(q.nodes)
            && NodeBox(sqrt, "cut", ById(q.nodes)).Ok? && NodeBox(sqrt, "cut", ById(q.nodes)).value.min.z == -1.0
            && Lifted(sqrt, true, q) != Ok(q)
  {
    CarvedIsCarved(sqrt);
    CutAgain(sqrt, CARVED, ById(CARVED.nodes));
  }

  /** A visible root that the pass leaves below the ground is one that a second pass moves. */
  lemma {:induction false} LiftedAgain(sqrt: real -> real, p: GeometryProgram, nodes: Nodes, moves: Moves, id: string)
    requires nodes == ById(p.nodes) && Grounded(nodes) && KindsOk(nodes) && IsVisibleRoot(id, nodes, Members(p.construction))
    requires Valid(sqrt, Unbounded(p)) && LiftsOf(sqrt, p) == Ok(moves) && moves != map[] && p.adjustments == []
    requires AllInReach(p, moves) && BoxAfter(sqrt, id, nodes, moves).Ok? && BelowGround(BoxAfter(sqrt, id, nodes, moves).value.min.z)
    ensures Lifted(sqrt, true, p).Ok?
    ensures var q := Lifted(sqrt, true, p).value;
            && Grounded(ById(q.nodes)) && KindsOk(ById(q.nodes)) && id in ById(q.nodes)
            && NodeBox(sqrt, id, ById(q.nodes)) == BoxAfter(sqrt, id, nodes, moves)
            && Lifted(sqrt, true, q) != Ok(q)
  {
    LiftGrounds(sqrt, p);
    LiftIsIdempotent(sqrt, p);
    assert !StandsAfter(sqrt, id, nodes, moves);
  }
}
