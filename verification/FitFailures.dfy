/** Valid programs that the uniform fit does not bring within their limit. */
module FitFailures {
  import opened Affine
  import opened Hull
  import opened Graphs
  import opened Program
  import opened Envelope
  import opened Motions
  import opened MovedGeometry
  import opened VisibleBoxes
  import opened Validator
  import opened Repair
  import opened Fitting
  import opened SmallPrograms

  // ----- when a fit happens, and when its result is too wide

  lemma {:induction false} TooLargeIsFitted(sqrt: real -> real, p: GeometryProgram, order: seq<string>, nodes: Nodes, b: Hull.Box)
    requires order == NodeOrder(p.nodes) && nodes == ById(p.nodes) && Grounded(nodes) && KindsOk(nodes)
    requires forall id :: id in order ==> id in nodes
    requires Valid(sqrt, Unbounded(p)) && p.maximum.Some? && MaximumOk(p.maximum.value)
    requires ProgramBounds(sqrt, order, nodes, Members(p.construction)) == Ok(b)
    requires Dimensions(b).x > p.maximum.value.x && Dimensions(b).x > 0.000000001
    requires Roots(p.nodes, Members(p.construction)) != []
    ensures Fit(sqrt, p).Fitted? && FitRatio(sqrt, p) == Least(Ratios(p.maximum.value, Dimensions(b)))
  {
    BoundsByParts(sqrt, p, order, nodes);
    BoundsIgnoreMaximum(sqrt, p);
    LessThanOne(p.maximum.value, Dimensions(b));
  }

  lemma {:induction false} BoundsIgnoreMaximum(sqrt: real -> real, p: GeometryProgram)
    requires Grounded(ById(p.nodes)) && KindsOk(ById(p.nodes))
    ensures BoundsOf(sqrt, Unbounded(p)) == BoundsOf(sqrt, p)
  {
  }

  lemma LessThanOne(maximum: Vec3, actual: Vec3)
    requires MaximumOk(maximum) && actual.x > maximum.x && actual.x > 0.000000001
    ensures Ratios(maximum, actual) != [] && Least(Ratios(maximum, actual)) < 1.0
  {
    var r := Least(Ratios(maximum, actual));
    RatioIsLeast(maximum, actual, r);
    Quotients(maximum.x, actual.x, r);
    if r >= 1.0 {
      ScaleLeq(actual.x, 1.0, r);
    }
  }

  /** Two placed points of the fitted program that are further apart than the limit. */
  lemma {:induction false} TooWideIsInvalid(sqrt: real -> real, p: GeometryProgram, nodes: Nodes, moves: Moves, m: Motion,
                                            a: string, left: Vec3, b: string, right: Vec3)
    requires nodes == ById(p.nodes) && Grounded(nodes) && KindsOk(nodes) && Fit(sqrt, p).Fitted?
    requires m == MotionFor(sqrt, p) && moves == RootMoves(p.nodes, Members(p.construction), m)
    requires a in nodes && a !in Members(p.construction) && b in nodes && b !in Members(p.construction)
    requires PlacedAfter(sqrt, a, nodes, moves).Ok? ==> left in PlacedAfter(sqrt, a, nodes, moves).value
    requires PlacedAfter(sqrt, b, nodes, moves).Ok? ==> right in PlacedAfter(sqrt, b, nodes, moves).value
    requires right.x - left.x > p.maximum.value.x + SLACK
    ensures !Valid(sqrt, Fit(sqrt, p).program)
  {
    FittedIsValid(sqrt, p);
    if Valid(sqrt, Fit(sqrt, p).program) {
      FitUnfolds(sqrt, p);
      RatioInRange(sqrt, p);
      RootsMove(p, m, FIT_NOTE);
      FurtherThanLimit(sqrt, nodes, Members(p.construction), moves, p.maximum.value, a, left, b, right);
    }
  }

  lemma {:induction false} FurtherThanLimit(sqrt: real -> real, nodes: Nodes, hidden: set<string>, moves: Moves, limit: Vec3,
                                            a: string, left: Vec3, b: string, right: Vec3)
    requires Grounded(nodes) && KindsOk(nodes) && RootsOnly(moves, nodes)
    requires Visible(a, nodes, hidden) && Visible(b, nodes, hidden) && right.x - left.x > limit.x + SLACK
    requires PlacedAfter(sqrt, a, nodes, moves).Ok? ==> left in PlacedAfter(sqrt, a, nodes, moves).value
    requires PlacedAfter(sqrt, b, nodes, moves).Ok? ==> right in PlacedAfter(sqrt, b, nodes, moves).value
    ensures !SpansFit(sqrt, nodes, hidden, moves, limit)
  {
    assert !Near(right, left, limit);
    if SpansFit(sqrt, nodes, hidden, moves, limit) {
      SpansAreMeasured(sqrt, nodes, hidden, moves, limit);
      AllPlaced(sqrt, nodes, hidden, moves);
      PairIsNear(sqrt, b, a, nodes, moves, limit);
    }
  }

  // ----- a visible node under a construction root

  const FRAME := Node("frame", None, None, None, Shifted(ZERO), Cube(1.0))
  const PANEL := Node("panel", Some("frame"), None, None, Shifted(ZERO), Cube(10.0))
  const LAMP := Node("lamp", None, None, Some("main"), Shifted(ZERO), Cube(1.0))
  const FIVE := Vec3(5.0, 5.0, 5.0)
  const FRAMED := Scene([FRAME, PANEL, LAMP], ["frame"], Some(FIVE))

  ghost predicate Framed(nodes: Nodes) {
    && nodes == map["frame" := FRAME, "panel" := PANEL, "lamp" := LAMP]
    && Grounded(nodes) && KindsOk(nodes)
  }

  ghost predicate IsFramed(sqrt: real -> real, p: GeometryProgram, nodes: Nodes) {
    && Valid(sqrt, Unbounded(p)) && Members(p.construction) == {"frame"} && p.maximum == Some(FIVE)
    && nodes == ById(p.nodes) && NodeOrder(p.nodes) == ["frame", "panel", "lamp"] && p.nodes == [FRAME, PANEL, LAMP]
    && Framed(nodes)
  }

  lemma {:induction false} FramedFit(nodes: Nodes, rank: map<string, nat>)
    requires nodes == map["frame" := FRAME, "panel" := PANEL, "lamp" := LAMP]
    requires rank == map["frame" := 0, "panel" := 1, "lamp" := 2]
    ensures NodeFits(FRAME, nodes, ["frame"], rank) && NodeFits(PANEL, nodes, ["frame"], rank) && NodeFits(LAMP, nodes, ["frame"], rank)
  {
    CubeFits(FRAME, 1.0, nodes, ["frame"], rank);
    CubeFits(PANEL, 10.0, nodes, ["frame"], rank);
    CubeFits(LAMP, 1.0, nodes, ["frame"], rank);
  }

  lemma {:induction false} FramedLists()
    ensures NodeOrder(FRAMED.nodes) == ["frame", "panel", "lamp"]
    ensures ById(FRAMED.nodes) == map["frame" := FRAME, "panel" := PANEL, "lamp" := LAMP]
    ensures Members(FRAMED.construction) == {"frame"}
  {
    ListThree(FRAME, PANEL, LAMP);
  }

  lemma {:induction false} FramedIsScene(rank: map<string, nat>)
    requires rank == map["frame" := 0, "panel" := 1, "lamp" := 2]
    ensures SceneOk(FRAMED.nodes, ["frame"], rank)
  {
    FramedLists();
    FramedFit(ById(FRAMED.nodes), rank);
    assert NoRepeats(["frame"]) && Members(["frame"]) == {"frame"};
    ThreeScene(FRAME, PANEL, LAMP, ["frame"], rank);
  }

  lemma {:induction false} FramedIsSound(sqrt: real -> real)
    ensures Valid(sqrt, Unbounded(FRAMED)) && Grounded(ById(FRAMED.nodes)) && KindsOk(ById(FRAMED.nodes))
  {
    var rank: map<string, nat> := map["frame" := 0, "panel" := 1, "lamp" := 2];
    FramedIsScene(rank);
    SceneIsSound(FRAMED.nodes, ["frame"], rank, Some(FIVE));
    SceneIsValid(sqrt, FRAMED.nodes, ["frame"], rank, Some(FIVE));
  }

  lemma {:induction false} FramedIsFramed(sqrt: real -> real)
    ensures IsFramed(sqrt, FRAMED, ById(FRAMED.nodes))
  {
    FramedIsSound(sqrt);
    FramedLists();
  }

  lemma {:induction false} PanelPlaces(nodes: Nodes, p: Vec3)
    requires Framed(nodes)
    ensures Place("panel", nodes, p) == p
  {
    PlainApplies(PANEL.transform, p);
    PlainApplies(FRAME.transform, p);
  }

  lemma {:induction false} PanelReaches(sqrt: real -> real, nodes: Nodes)
    requires Framed(nodes)
    ensures PlacedCorners(sqrt, "panel", nodes).Ok? && PlacedCorners(sqrt, "lamp", nodes).Ok?
    ensures Vec3(-5.0, -5.0, -5.0) in PlacedCorners(sqrt, "panel", nodes).value && FIVE in PlacedCorners(sqrt, "panel", nodes).value
  {
    var corners := BoundsCorners(Centered(FIVE));
    BoxPlaced(sqrt, "lamp", nodes, Vec3(0.5, 0.5, 0.5));
    BoxPlaced(sqrt, "panel", nodes, FIVE);
    PanelPlaces(nodes, corners[0]);
    PanelPlaces(nodes, corners[7]);
    Listed(PlacedCorners(sqrt, "panel", nodes).value, 0, Vec3(-5.0, -5.0, -5.0));
    Listed(PlacedCorners(sqrt, "panel", nodes).value, 7, FIVE);
  }

  lemma {:induction false} FramedIsTooLarge(sqrt: real -> real, order: seq<string>, nodes: Nodes)
    requires Framed(nodes) && order == ["frame", "panel", "lamp"]
    ensures ProgramBounds(sqrt, order, nodes, {"frame"}).Ok?
    ensures Dimensions(ProgramBounds(sqrt, order, nodes, {"frame"}).value).x >= 10.0
  {
    PanelReaches(sqrt, nodes);
    assert order[1] == "panel";
    ReachesBounds(sqrt, order, nodes, {"frame"}, "panel", Vec3(-5.0, -5.0, -5.0));
    ReachesBounds(sqrt, order, nodes, {"frame"}, "panel", FIVE);
  }

  lemma {:induction false} FramedFits(sqrt: real -> real, p: GeometryProgram, nodes: Nodes)
    requires IsFramed(sqrt, p, nodes)
    ensures Fit(sqrt, p).Fitted?
  {
    var order := ["frame", "panel", "lamp"];
    FramedIsTooLarge(sqrt, order, nodes);
    RootsAre(p.nodes, {"frame"});
    assert p.nodes[2] == LAMP;
    assert LAMP in Roots(p.nodes, {"frame"});
    TooLargeIsFitted(sqrt, p, order, nodes, ProgramBounds(sqrt, order, nodes, {"frame"}).value);
  }

  /** The panel does not move. */
  lemma {:induction false} PanelStays(sqrt: real -> real, nodes: Nodes, moves: Moves)
    requires Framed(nodes) && "frame" !in moves
    ensures PlacedAfter(sqrt, "panel", nodes, moves) == PlacedCorners(sqrt, "panel", nodes)
  {
    assert Top("panel", nodes) == "frame";
    assert Settled("panel", nodes, moves.Keys);
    SettledMoves(sqrt, "panel", nodes, moves);
    PanelReaches(sqrt, nodes);
    MoveAllStill(PlacedCorners(sqrt, "panel", nodes).value);
  }

  lemma {:induction false} FramedFails(sqrt: real -> real, p: GeometryProgram, nodes: Nodes)
    requires IsFramed(sqrt, p, nodes)
    ensures Fit(sqrt, p).Fitted? && !Valid(sqrt, Fit(sqrt, p).program)
  {
    FramedFits(sqrt, p, nodes);
    var m := MotionFor(sqrt, p);
    var moves := RootMoves(p.nodes, Members(p.construction), m);
    assert "frame" !in moves;
    PanelReaches(sqrt, nodes);
    PanelStays(sqrt, nodes, moves);
    assert NodeOrder(p.nodes)[1] == "panel";
    TooWideIsInvalid(sqrt, p, nodes, moves, m, "panel", Vec3(-5.0, -5.0, -5.0), "panel", FIVE);
  }

  /** A ten-metre panel under a construction frame keeps its size, so the fitted program is
      refused for the five-metre limit that it was fitted to. */
  lemma {:induction false} HiddenTreeSpoilsFit(sqrt: real -> real)
    ensures Valid(sqrt, Unbounded(FRAMED)) && Fit(sqrt, FRAMED).Fitted? && !Valid(sqrt, Fit(sqrt, FRAMED).program)
  {
    FramedIsFramed(sqrt);
    FramedFails(sqrt, FRAMED, ById(FRAMED.nodes));
  }

  // ----- a boolean whose operand moves with it

  const LOG := Node("log", None, None, None, Shifted(Vec3(10.0, 0.0, 0.0)), Cube(1.0))
  const SAW := Node("saw", None, None, None, Shifted(Vec3(10.0, 0.0, 0.0)), Cube(0.5))
  const PLANK := Node("plank", None, None, Some("main"), Plain(Vec3(-1000.0, 0.0, 0.0), Vec3(100.0, 1.0, 1.0)),
                      Boolean("log", "saw", Difference))
  const LIMIT := Vec3(50.0, 300.0, 300.0)
  const SAWN := Scene([LOG, SAW, PLANK], ["saw"], Some(LIMIT))
  const CUBE_HALF := Vec3(0.5, 0.5, 0.5)

  ghost predicate Sawn(nodes: Nodes) {
    && nodes == map["log" := LOG, "saw" := SAW, "plank" := PLANK]
    && Grounded(nodes) && KindsOk(nodes)
  }

  ghost predicate IsSawn(sqrt: real -> real, p: GeometryProgram, nodes: Nodes) {
    && Valid(sqrt, Unbounded(p)) && Members(p.construction) == {"saw"} && p.maximum == Some(LIMIT)
    && nodes == ById(p.nodes) && NodeOrder(p.nodes) == ["log", "saw", "plank"] && p.nodes == [LOG, SAW, PLANK]
    && Sawn(nodes)
  }

  lemma {:induction false} PlankFits(nodes: Nodes, rank: map<string, nat>)
    requires nodes == map["log" := LOG, "saw" := SAW, "plank" := PLANK]
    requires rank == map["log" := 0, "saw" := 1, "plank" := 2]
    ensures NodeFits(PLANK, nodes, ["saw"], rank)
  {
    assert ParentSet(PLANK) + NodeDependencies(PLANK.kind) == {"log", "saw"};
    assert ResolvesToMesh("log", nodes, {}) == Mesh && ResolvesToMesh("saw", nodes, {}) == Mesh;
  }

  lemma {:induction false} SawnLists()
    ensures NodeOrder(SAWN.nodes) == ["log", "saw", "plank"]
    ensures ById(SAWN.nodes) == map["log" := LOG, "saw" := SAW, "plank" := PLANK]
    ensures Members(SAWN.construction) == {"saw"}
  {
    ListThree(LOG, SAW, PLANK);
  }

  lemma {:induction false} SawnIsScene(rank: map<string, nat>)
    requires rank == map["log" := 0, "saw" := 1, "plank" := 2]
    ensures SceneOk(SAWN.nodes, ["saw"], rank)
  {
    SawnLists();
    SawnFit(ById(SAWN.nodes), rank);
    assert NoRepeats(["saw"]) && Members(["saw"]) == {"saw"};
    ThreeScene(LOG, SAW, PLANK, ["saw"], rank);
  }

  lemma {:induction false} SawnFit(nodes: Nodes, rank: map<string, nat>)
    requires nodes == map["log" := LOG, "saw" := SAW, "plank" := PLANK]
    requires rank == map["log" := 0, "saw" := 1, "plank" := 2]
    ensures NodeFits(LOG, nodes, ["saw"], rank) && NodeFits(SAW, nodes, ["saw"], rank) && NodeFits(PLANK, nodes, ["saw"], rank)
  {
    CubeFits(LOG, 1.0, nodes, ["saw"], rank);
    CubeFits(SAW, 0.5, nodes, ["saw"], rank);
    PlankFits(nodes, rank);
  }

  lemma {:induction false} SawnIsSound(sqrt: real -> real)
    ensures Valid(sqrt, Unbounded(SAWN)) && Grounded(ById(SAWN.nodes)) && KindsOk(ById(SAWN.nodes))
  {
    var rank: map<string, nat> := map["log" := 0, "saw" := 1, "plank" := 2];
    SawnIsScene(rank);
    SceneIsSound(SAWN.nodes, ["saw"], rank, Some(LIMIT));
    SceneIsValid(sqrt, SAWN.nodes, ["saw"], rank, Some(LIMIT));
  }

  lemma {:induction false} SawnIsSawn(sqrt: real -> real)
    ensures IsSawn(sqrt, SAWN, ById(SAWN.nodes))
  {
    SawnIsSound(sqrt);
    SawnLists();
  }

  // where its points are

  lemma {:induction false} LogPlaces(nodes: Nodes, p: Vec3)
    requires Sawn(nodes)
    ensures Place("log", nodes, p) == Vec3(p.x + 10.0, p.y, p.z)
  {
    PlainApplies(LOG.transform, p);
  }

  lemma {:induction false} PlankPlaces(nodes: Nodes, p: Vec3)
    requires Sawn(nodes)
    ensures Place("plank", nodes, p) == Vec3(100.0 * p.x - 1000.0, p.y, p.z)
  {
    PlainApplies(PLANK.transform, p);
  }

  lemma {:induction false} HalfCube(corners: seq<Vec3>)
    requires corners == BoundsCorners(Centered(CUBE_HALF))
    ensures |corners| == 8 && corners[0] == Vec3(-0.5, -0.5, -0.5) && corners[7] == CUBE_HALF
    ensures forall i :: 0 <= i < 8 ==> Inside(Centered(CUBE_HALF), corners[i])
  {
  }

  /** The log's points: a unit cube about x == 10. */
  function LogPoints(): seq<Vec3> {
    seq(8, i requires 0 <= i < 8 => Add(BoundsCorners(Centered(CUBE_HALF))[i], Vec3(10.0, 0.0, 0.0)))
  }

  lemma {:induction false} LogCorners(sqrt: real -> real, nodes: Nodes, visiting: set<string>)
    requires Sawn(nodes) && "log" !in visiting
    ensures PlacedOperand("log", nodes, GeometryCorners(sqrt, "log", nodes, visiting)) == Ok(LogPoints())
  {
    var corners := BoundsCorners(Centered(CUBE_HALF));
    LeafLevel(sqrt, "log", nodes, visiting);
    forall i | 0 <= i < 8 ensures MapPoints(WorldMatrix("log", nodes), corners)[i] == LogPoints()[i] {
      WorldMatrixPlaces("log", nodes, corners[i]);
      LogPlaces(nodes, corners[i]);
    }
    assert MapPoints(WorldMatrix("log", nodes), corners) == LogPoints();
  }

  lemma {:induction false} PlankCorners(sqrt: real -> real, nodes: Nodes)
    requires Sawn(nodes)
    ensures GeometryCorners(sqrt, "plank", nodes, {}) == Ok(LogPoints())
  {
    BooleanLevel(sqrt, "plank", nodes, {});
    LogCorners(sqrt, nodes, {} + {"plank"});
  }

  function PlankPoint(p: Vec3): Vec3 { Vec3(100.0 * p.x - 1000.0, p.y, p.z) }

  lemma {:induction false} PlankPlaced(nodes: Nodes, points: seq<Vec3>, i: nat)
    requires Sawn(nodes) && i < |points|
    ensures MapPoints(WorldMatrix("plank", nodes), points)[i] == PlankPoint(points[i])
  {
    WorldMatrixPlaces("plank", nodes, points[i]);
    PlankPlaces(nodes, points[i]);
  }

  const HUNDRED := Hull.Box(Vec3(-50.0, -0.5, -0.5), Vec3(50.0, 0.5, 0.5))

  lemma {:induction false} LogInside(i: nat)
    requires i < 8
    ensures Inside(HUNDRED, LogPoints()[i]) && Inside(HUNDRED, PlankPoint(LogPoints()[i]))
    ensures LogPoints()[0] == Vec3(9.5, -0.5, -0.5) && LogPoints()[7] == Vec3(10.5, 0.5, 0.5)
  {
    HalfCube(BoundsCorners(Centered(CUBE_HALF)));
  }

  lemma {:induction false} SawnMeasured(sqrt: real -> real, nodes: Nodes)
    requires Sawn(nodes)
    ensures PlacedCorners(sqrt, "log", nodes) == Ok(LogPoints())
    ensures PlacedCorners(sqrt, "plank", nodes) == Ok(MapPoints(WorldMatrix("plank", nodes), LogPoints()))
  {
    LogCorners(sqrt, nodes, {});
    PlankCorners(sqrt, nodes);
  }

  lemma {:induction false} SawnWithin(sqrt: real -> real, order: seq<string>, nodes: Nodes, q: Vec3)
    requires Sawn(nodes) && order == ["log", "saw", "plank"]
    requires VisiblePoints(sqrt, order, nodes, {"saw"}).Ok? && q in VisiblePoints(sqrt, order, nodes, {"saw"}).value
    ensures Inside(HUNDRED, q)
  {
    SawnMeasured(sqrt, nodes);
    var id := VisibleFrom(sqrt, order, nodes, {"saw"}, q);
    if id == "log" {
      var i := IndexOf(LogPoints(), q);
      LogInside(i);
    } else {
      var i := IndexOf(MapPoints(WorldMatrix("plank", nodes), LogPoints()), q);
      PlankPlaced(nodes, LogPoints(), i);
      LogInside(i);
    }
  }

  lemma {:induction false} PlankReach(nodes: Nodes, points: seq<Vec3>, i: nat, q: Vec3)
    requires Sawn(nodes) && i < |points| && q == PlankPoint(points[i])
    ensures q in MapPoints(WorldMatrix("plank", nodes), points)
  {
    PlankPlaced(nodes, points, i);
    Listed(MapPoints(WorldMatrix("plank", nodes), points), i, q);
  }

  lemma PlankEnds()
    ensures PlankPoint(Vec3(9.5, -0.5, -0.5)) == HUNDRED.min && PlankPoint(Vec3(10.5, 0.5, 0.5)) == HUNDRED.max
  {
  }

  lemma {:induction false} PlankReaches(nodes: Nodes, points: seq<Vec3>)
    requires Sawn(nodes) && |points| == 8 && points[0] == Vec3(9.5, -0.5, -0.5) && points[7] == Vec3(10.5, 0.5, 0.5)
    ensures HUNDRED.min in MapPoints(WorldMatrix("plank", nodes), points) && HUNDRED.max in MapPoints(WorldMatrix("plank", nodes), points)
  {
    PlankEnds();
    PlankReach(nodes, points, 0, HUNDRED.min);
    PlankReach(nodes, points, 7, HUNDRED.max);
  }

  lemma {:induction false} SawnReaches(sqrt: real -> real, nodes: Nodes)
    requires Sawn(nodes)
    ensures PlacedCorners(sqrt, "log", nodes).Ok? && PlacedCorners(sqrt, "plank", nodes).Ok?
    ensures HUNDRED.min in PlacedCorners(sqrt, "plank", nodes).value && HUNDRED.max in PlacedCorners(sqrt, "plank", nodes).value
  {
    SawnMeasured(sqrt, nodes);
    LogInside(0);
    PlankReaches(nodes, LogPoints());
  }

  lemma {:induction false} ExactBounds(sqrt: real -> real, order: seq<string>, nodes: Nodes, hidden: set<string>, id: string, b: Hull.Box)
    requires Grounded(nodes) && KindsOk(nodes) && forall v :: v in order ==> v in nodes
    requires forall v :: v in order && v !in hidden ==> PlacedCorners(sqrt, v, nodes).Ok?
    requires VisiblePoints(sqrt, order, nodes, hidden).Ok?
    requires forall q :: q in VisiblePoints(sqrt, order, nodes, hidden).value ==> Inside(b, q)
    requires id in order && id !in hidden
    requires b.min in PlacedCorners(sqrt, id, nodes).value && b.max in PlacedCorners(sqrt, id, nodes).value
    ensures ProgramBounds(sqrt, order, nodes, hidden) == Ok(b)
  {
    ReachesBounds(sqrt, order, nodes, hidden, id, b.min);
    ReachesBounds(sqrt, order, nodes, hidden, id, b.max);
    BoundsWithin(VisiblePoints(sqrt, order, nodes, hidden).value, b);
    SameBox(ProgramBounds(sqrt, order, nodes, hidden).value, b);
  }

  /** The scene is exactly a hundred metres long and one metre wide and high. */
  lemma {:induction false} SawnBounds(sqrt: real -> real, order: seq<string>, nodes: Nodes)
    requires Sawn(nodes) && order == ["log", "saw", "plank"]
    ensures ProgramBounds(sqrt, order, nodes, {"saw"}) == Ok(HUNDRED)
  {
    SawnReaches(sqrt, nodes);
    VisibleMeasured(sqrt, order, nodes, {"saw"});
    assert order[2] == "plank";
    forall q | q in VisiblePoints(sqrt, order, nodes, {"saw"}).value ensures Inside(HUNDRED, q) {
      SawnWithin(sqrt, order, nodes, q);
    }
    ExactBounds(sqrt, order, nodes, {"saw"}, "plank", HUNDRED);
  }

  // how it is fitted

  lemma {:induction false} SawnRatio()
    ensures Dimensions(HUNDRED) == Vec3(100.0, 1.0, 1.0)
    ensures Ratios(LIMIT, Vec3(100.0, 1.0, 1.0)) == [0.5, 300.0, 300.0]
    ensures Least([0.5, 300.0, 300.0]) == 0.5
  {
    LeastIs([0.5, 300.0, 300.0], 0);
  }

  lemma {:induction false} SawnRoots(nodes: seq<Node>)
    requires nodes == [LOG, SAW, PLANK]
    ensures Roots(nodes, {"saw"}) == [LOG, PLANK] && Pivot([LOG, PLANK]) == Vec3(-495.0, 0.0, 0.0)
  {
    assert nodes[..2] == [LOG, SAW] && nodes[..2][..1] == [LOG] && nodes[..2][..1][..0] == [];
    assert Roots([], {"saw"}) == [] && Roots([LOG], {"saw"}) == [LOG] && Roots([LOG, SAW], {"saw"}) == [LOG];
    assert [LOG, PLANK][..1] == [LOG] && [LOG][..0] == [];
    assert Total([]) == ZERO && Total([LOG]) == Vec3(10.0, 0.0, 0.0);
  }

  const HALVED := Motion(0.5, Vec3(-247.5, 0.0, 0.0))

  lemma {:induction false} MotionIs(sqrt: real -> real, p: GeometryProgram, roots: seq<Node>)
    requires Fit(sqrt, p).Fitted? && FitRatio(sqrt, p) == 0.5
    requires Roots(p.nodes, Members(p.construction)) == roots && roots != [] && Pivot(roots) == Vec3(-495.0, 0.0, 0.0)
    ensures MotionFor(sqrt, p) == HALVED
  {
    MotionForIs(sqrt, p, Vec3(-495.0, 0.0, 0.0), 0.5);
    HalvedMotion(Vec3(-495.0, 0.0, 0.0), 0.5);
  }

  lemma HalvedMotion(pivot: Vec3, r: real)
    requires pivot == Vec3(-495.0, 0.0, 0.0) && r == 0.5
    ensures FitMotion(pivot, r) == HALVED
  {
    HalfOf(r, pivot);
  }

  lemma HalfOf(r: real, v: Vec3)
    requires r == 0.5
    ensures Times(r, v) == Vec3(0.5 * v.x, 0.5 * v.y, 0.5 * v.z)
  {
    EqualProducts(r, v.x, 0.5, v.x);
    EqualProducts(r, v.y, 0.5, v.y);
    EqualProducts(r, v.z, 0.5, v.z);
  }

  lemma {:induction false} SawnIsFitted(sqrt: real -> real, p: GeometryProgram, nodes: Nodes)
    requires IsSawn(sqrt, p, nodes) && Roots(p.nodes, {"saw"}) != []
    ensures Fit(sqrt, p).Fitted? && FitRatio(sqrt, p) == 0.5
  {
    SawnBounds(sqrt, ["log", "saw", "plank"], nodes);
    SawnRatio();
    TooLargeIsFitted(sqrt, p, ["log", "saw", "plank"], nodes, HUNDRED);
  }

  lemma {:induction false} SawnFitted(sqrt: real -> real, p: GeometryProgram, nodes: Nodes)
    requires IsSawn(sqrt, p, nodes)
    ensures Fit(sqrt, p).Fitted? && MotionFor(sqrt, p) == HALVED
  {
    SawnRoots(p.nodes);
    SawnIsFitted(sqrt, p, nodes);
    MotionIs(sqrt, p, [LOG, PLANK]);
  }

  lemma {:induction false} SawnMoves(nodes: seq<Node>, moves: Moves)
    requires nodes == [LOG, SAW, PLANK] && moves == RootMoves(nodes, {"saw"}, HALVED)
    ensures moves == map["log" := HALVED, "plank" := HALVED]
  {
    assert LOG in nodes && PLANK in nodes && SAW in nodes;
    assert nodes[0] == LOG && nodes[1] == SAW && nodes[2] == PLANK;
  }

  /** The log halves about the pivot, and the plank does so twice. */
  lemma {:induction false} SawnAfter(sqrt: real -> real, nodes: Nodes, moves: Moves)
    requires Sawn(nodes) && moves == map["log" := HALVED, "plank" := HALVED]
    ensures PlacedAfter(sqrt, "log", nodes, moves) == Ok(MoveAll(HALVED, LogPoints()))
    ensures PlacedAfter(sqrt, "plank", nodes, moves)
         == Ok(MoveAll(HALVED, MapPoints(WorldMatrix("plank", nodes), MoveAll(HALVED, LogPoints()))))
  {
    SawnMeasured(sqrt, nodes);
    assert Settled("log", nodes, moves.Keys);
    SettledMoves(sqrt, "log", nodes, moves);
    PlankCorners(sqrt, nodes);
    assert CornerSources(PLANK.kind) == {"log"};
    BooleanMovesTwice(sqrt, "plank", nodes, moves, HALVED);
  }

  lemma {:induction false} HalvedLog(halved: seq<Vec3>)
    requires halved == MoveAll(HALVED, LogPoints())
    ensures |halved| == 8 && halved[7] == Vec3(-242.25, 0.25, 0.25) && halved[0] == Vec3(-242.75, -0.25, -0.25)
  {
    LogInside(0);
  }

  lemma {:induction false} MovedListed(m: Motion, points: seq<Vec3>, q: Vec3, q': Vec3)
    requires q in points && q' == Moved(m, q)
    ensures q' in MoveAll(m, points)
  {
    var i := IndexOf(points, q);
    Listed(MoveAll(m, points), i, q');
  }

  lemma {:induction false} HalvedPlank(nodes: Nodes, halved: seq<Vec3>)
    requires Sawn(nodes) && halved != [] && halved[0] == Vec3(-242.75, -0.25, -0.25)
    ensures Vec3(-12885.0, -0.125, -0.125) in MoveAll(HALVED, MapPoints(WorldMatrix("plank", nodes), halved))
  {
    HalvedEnd(halved[0]);
    PlankReach(nodes, halved, 0, PlankPoint(halved[0]));
    MovedListed(HALVED, MapPoints(WorldMatrix("plank", nodes), halved), PlankPoint(halved[0]), Vec3(-12885.0, -0.125, -0.125));
  }

  lemma HalvedEnd(p: Vec3)
    requires p == Vec3(-242.75, -0.25, -0.25)
    ensures Moved(HALVED, PlankPoint(p)) == Vec3(-12885.0, -0.125, -0.125)
  {
  }

  lemma {:induction false} SawnEnds(sqrt: real -> real, nodes: Nodes, moves: Moves)
    requires Sawn(nodes) && moves == map["log" := HALVED, "plank" := HALVED]
    ensures PlacedAfter(sqrt, "log", nodes, moves).Ok? && PlacedAfter(sqrt, "plank", nodes, moves).Ok?
    ensures Vec3(-242.25, 0.25, 0.25) in PlacedAfter(sqrt, "log", nodes, moves).value
    ensures Vec3(-12885.0, -0.125, -0.125) in PlacedAfter(sqrt, "plank", nodes, moves).value
  {
    SawnAfter(sqrt, nodes, moves);
    HalvedLog(MoveAll(HALVED, LogPoints()));
    Listed(MoveAll(HALVED, LogPoints()), 7, Vec3(-242.25, 0.25, 0.25));
    HalvedPlank(nodes, MoveAll(HALVED, LogPoints()));
  }

  lemma {:induction false} SawnFails(sqrt: real -> real, p: GeometryProgram, nodes: Nodes)
    requires IsSawn(sqrt, p, nodes)
    ensures Fit(sqrt, p).Fitted? && !Valid(sqrt, Fit(sqrt, p).program)
  {
    SawnFitted(sqrt, p, nodes);
    var moves := RootMoves(p.nodes, {"saw"}, HALVED);
    SawnMoves(p.nodes, moves);
    SawnEnds(sqrt, nodes, moves);
    assert NodeOrder(p.nodes)[0] == "log" && NodeOrder(p.nodes)[2] == "plank";
    TooWideIsInvalid(sqrt, p, nodes, moves, HALVED, "plank", Vec3(-12885.0, -0.125, -0.125),
                     "log", Vec3(-242.25, 0.25, 0.25));
  }

  /** A plank cut from a visible log, scaled up by its own root, is fitted to fifty metres and
      ends up more than twelve kilometres from its log. */
  lemma {:induction false} MovedOperandSpoilsFit(sqrt: real -> real)
    ensures Valid(sqrt, Unbounded(SAWN)) && Fit(sqrt, SAWN).Fitted? && !Valid(sqrt, Fit(sqrt, SAWN).program)
  {
    SawnIsSawn(sqrt);
    SawnFails(sqrt, SAWN, ById(SAWN.nodes));
  }
}
