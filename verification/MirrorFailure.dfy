/** A valid program whose mesh leaves the envelope: a mirror along two axes, turned against
    them. */
module MirrorFailure {
  import opened Affine
  import opened Hull
  import opened Graphs
  import opened Program
  import opened Envelope
  import opened EnvelopeSound
  import opened Validator
  import opened Repair
  import opened Fitting
  import opened SmallPrograms

  // A cube, its copy two metres along X and Y, and both of them mirrored along X and Y. The
  // worker makes copies about (0,0), (2,2), (-2,2), (2,-2) and (-2,-2); the contract lists only
  // the first two and the last, which are on one diagonal. Turning the node lays the diagonal
  // close to the Y axis.

  const DIAGONAL := Vec3(2.0, 2.0, 0.0)
  const CROSS := Mirror(true, true, false)
  const CUBE := Node("cube", None, None, None, Shifted(ZERO), Cube(1.0))
  const PAIR := Node("pair", None, None, None, Shifted(ZERO), Array("cube", 2, DIAGONAL))
  const SMALL_HALF := Vec3(0.5, 0.5, 0.5)
  const ASIDE := Vec3(-2.0, 2.0, 0.0)

  /** A turn by the angle of a triangle with sides 3, 4 and 5. */
  predicate Oblique(turn: Angle) { turn.c == 0.6 && turn.s == 0.8 && 53.0 < turn.deg < 54.0 }

  function Star(turn: Angle): Node {
    Node("star", None, None, Some("main"), Transform(ZERO, ZERO_ANGLE, ZERO_ANGLE, turn, Vec3(1.0, 1.0, 1.0)), Modified("pair", CROSS))
  }

  function StarScene(turn: Angle): GeometryProgram { Scene([CUBE, PAIR, Star(turn)], ["cube", "pair"], None) }

  ghost predicate Starry(nodes: Nodes, turn: Angle) {
    && nodes == map["cube" := CUBE, "pair" := PAIR, "star" := Star(turn)] && Oblique(turn)
    && Grounded(nodes) && KindsOk(nodes)
  }

  // ----- it is valid

  lemma {:induction false} PairFits(nodes: Nodes, rank: map<string, nat>)
    requires "cube" in nodes && nodes["cube"] == CUBE && "pair" in rank && "cube" in rank && rank["cube"] < rank["pair"]
    ensures NodeFits(PAIR, nodes, ["cube", "pair"], rank)
  {
    assert ParentSet(PAIR) + NodeDependencies(PAIR.kind) == {"cube"};
    assert ResolvesToMesh("cube", nodes, {}) == Mesh;
  }

  lemma {:induction false} StarNodeOk(turn: Angle)
    requires Oblique(turn)
    ensures NodeOk(Star(turn))
  {
    EqualProducts(turn.c, turn.c, 0.6, 0.6);
    EqualProducts(turn.s, turn.s, 0.8, 0.8);
  }

  lemma {:induction false} StarFits(nodes: Nodes, rank: map<string, nat>, turn: Angle)
    requires Oblique(turn) && "cube" in nodes && nodes["cube"] == CUBE && "pair" in nodes && nodes["pair"] == PAIR
    requires "star" in rank && "pair" in rank && rank["pair"] < rank["star"]
    ensures NodeFits(Star(turn), nodes, ["cube", "pair"], rank)
  {
    StarNodeOk(turn);
    assert ParentSet(Star(turn)) + NodeDependencies(Star(turn).kind) == {"pair"};
    assert ResolvesToMesh("cube", nodes, {} + {"pair"}) == Mesh;
    assert ResolvesToMesh("pair", nodes, {}) == Mesh;
  }

  lemma {:induction false} StarLists(turn: Angle)
    ensures var p := StarScene(turn);
            && NodeOrder(p.nodes) == ["cube", "pair", "star"]
            && ById(p.nodes) == map["cube" := CUBE, "pair" := PAIR, "star" := Star(turn)]
            && Members(p.construction) == {"cube", "pair"}
  {
    ListThree(CUBE, PAIR, Star(turn));
  }

  lemma {:induction false} StarryFit(nodes: Nodes, turn: Angle, rank: map<string, nat>)
    requires Oblique(turn) && nodes == map["cube" := CUBE, "pair" := PAIR, "star" := Star(turn)]
    requires rank == map["cube" := 0, "pair" := 1, "star" := 2]
    ensures NodeFits(CUBE, nodes, ["cube", "pair"], rank) && NodeFits(PAIR, nodes, ["cube", "pair"], rank)
    ensures NodeFits(Star(turn), nodes, ["cube", "pair"], rank)
  {
    CubeFits(CUBE, 1.0, nodes, ["cube", "pair"], rank);
    PairFits(nodes, rank);
    StarFits(nodes, rank, turn);
  }

  lemma {:induction false} StarIsScene(turn: Angle, rank: map<string, nat>)
    requires Oblique(turn) && rank == map["cube" := 0, "pair" := 1, "star" := 2]
    ensures SceneOk(StarScene(turn).nodes, ["cube", "pair"], rank)
  {
    var nodes := ById(StarScene(turn).nodes);
    StarLists(turn);
    StarryFit(nodes, turn, rank);
    TwoHiddenScene(CUBE, PAIR, Star(turn), rank);
  }

  lemma {:induction false} StarIsSound(sqrt: real -> real, turn: Angle)
    requires Oblique(turn)
    ensures Valid(sqrt, Unbounded(StarScene(turn))) && Starry(ById(StarScene(turn).nodes), turn)
  {
    var rank: map<string, nat> := map["cube" := 0, "pair" := 1, "star" := 2];
    StarIsScene(turn, rank);
    StarLists(turn);
    SceneIsSound(StarScene(turn).nodes, ["cube", "pair"], rank, None);
    SceneIsValid(sqrt, StarScene(turn).nodes, ["cube", "pair"], rank, None);
  }

  // ----- the contract sees one diagonal

  /** How far the turned point is from the YZ plane. */
  function Across(p: Vec3): real { 0.6 * p.x - 0.8 * p.y }

  predicate Narrow(points: seq<Vec3>) { forall i :: 0 <= i < |points| ==> -1.1 <= Across(points[i]) <= 1.1 }

  lemma {:induction false} StarPlaces(nodes: Nodes, turn: Angle, p: Vec3)
    requires Starry(nodes, turn)
    ensures Place("star", nodes, p).x == Across(p)
  {
    EqualProducts(turn.c, p.x, 0.6, p.x);
    EqualProducts(turn.s, p.y, 0.8, p.y);
  }

  lemma {:induction false} ShiftedAcross(points: seq<Vec3>, k: real)
    requires k == 0.0 || k == 1.0
    requires forall i :: 0 <= i < |points| ==> -0.7 <= Across(points[i]) <= 0.7
    ensures Narrow(ShiftAll(points, Times(k, DIAGONAL)))
  {
    var shift := Times(k, DIAGONAL);
    assert shift == ZERO || shift == DIAGONAL;
  }

  lemma {:induction false} PairIsNarrow(corners: seq<Vec3>)
    requires corners == BoundsCorners(Centered(SMALL_HALF))
    ensures Narrow(Repeat(corners, 2, DIAGONAL))
  {
    assert forall i :: 0 <= i < |corners| ==> -0.7 <= Across(corners[i]) <= 0.7;
    ShiftedAcross(corners, 0.0);
    ShiftedAcross(corners, 1.0);
    TwiceIs(corners, DIAGONAL);
  }

  lemma {:induction false} TwiceIs(points: seq<Vec3>, offset: Vec3)
    ensures Repeat(points, 2, offset) == ShiftAll(points, Times(0.0, offset)) + ShiftAll(points, Times(1.0, offset))
  {
    assert Repeat(points, 0, offset) == [];
    assert Repeat(points, 1, offset) == ShiftAll(points, Times(0.0, offset));
  }

  lemma {:induction false} ReflectedIsNarrow(points: seq<Vec3>)
    requires Narrow(points)
    ensures Narrow(points + Reflect(points, CROSS))
  {
    forall i | 0 <= i < |points| ensures Across(Reflect(points, CROSS)[i]) == -Across(points[i]) {
    }
  }

  lemma {:induction false} CubeCorners(sqrt: real -> real, nodes: Nodes, turn: Angle, visiting: set<string>)
    requires Starry(nodes, turn) && "cube" !in visiting
    ensures GeometryCorners(sqrt, "cube", nodes, visiting) == Ok(BoundsCorners(Centered(SMALL_HALF)))
  {
    SourcesKnown("cube", nodes);
  }

  lemma {:induction false} PairCorners(sqrt: real -> real, nodes: Nodes, turn: Angle, visiting: set<string>)
    requires Starry(nodes, turn) && "cube" !in visiting && "pair" !in visiting
    ensures GeometryCorners(sqrt, "pair", nodes, visiting) == Ok(Repeat(BoundsCorners(Centered(SMALL_HALF)), 2, DIAGONAL))
  {
    SourcesKnown("pair", nodes);
    CubeCorners(sqrt, nodes, turn, visiting + {"pair"});
  }

  lemma {:induction false} StarCorners(sqrt: real -> real, nodes: Nodes, turn: Angle)
    requires Starry(nodes, turn)
    ensures GeometryCorners(sqrt, "star", nodes, {}).Ok? && Narrow(GeometryCorners(sqrt, "star", nodes, {}).value)
  {
    SourcesKnown("star", nodes);
    PairCorners(sqrt, nodes, turn, {} + {"star"});
    PairIsNarrow(BoundsCorners(Centered(SMALL_HALF)));
    ReflectedIsNarrow(Repeat(BoundsCorners(Centered(SMALL_HALF)), 2, DIAGONAL));
  }

  lemma {:induction false} StarPlaced(sqrt: real -> real, nodes: Nodes, turn: Angle)
    requires Starry(nodes, turn)
    ensures PlacedCorners(sqrt, "star", nodes).Ok?
    ensures forall q :: q in PlacedCorners(sqrt, "star", nodes).value ==> q.x >= -1.1
  {
    StarCorners(sqrt, nodes, turn);
    var corners := GeometryCorners(sqrt, "star", nodes, {}).value;
    forall q | q in MapPoints(WorldMatrix("star", nodes), corners) ensures q.x >= -1.1 {
      var i := IndexOf(MapPoints(WorldMatrix("star", nodes), corners), q);
      WorldMatrixPlaces("star", nodes, corners[i]);
      StarPlaces(nodes, turn, corners[i]);
    }
  }

  lemma {:induction false} LeftEnd(points: seq<Vec3>, x: real)
    requires points != [] && forall q :: q in points ==> q.x >= x
    ensures PointBounds(points).min.x >= x
  {
    var xs := Xs(points);
    var i :| 0 <= i < |xs| && xs[i] == Least(xs);
    assert points[i] in points;
  }

  lemma {:induction false} StarBounds(sqrt: real -> real, order: seq<string>, nodes: Nodes, turn: Angle, hidden: set<string>)
    requires Starry(nodes, turn) && order == ["cube", "pair", "star"] && hidden == {"cube", "pair"}
    ensures ProgramBounds(sqrt, order, nodes, hidden).Ok? && ProgramBounds(sqrt, order, nodes, hidden).value.min.x >= -1.1
  {
    StarPlaced(sqrt, nodes, turn);
    OnlyStar(sqrt, "cube", "pair", "star", nodes, hidden);
    LeftEnd(PlacedCorners(sqrt, "star", nodes).value, -1.1);
  }

  lemma {:induction false} OnlyStar(sqrt: real -> real, a: string, b: string, c: string, nodes: Nodes, hidden: set<string>)
    requires Grounded(nodes) && KindsOk(nodes) && a in nodes && b in nodes && c in nodes
    requires a in hidden && b in hidden && c !in hidden && PlacedCorners(sqrt, c, nodes).Ok?
    ensures ProgramBounds(sqrt, [a, b, c], nodes, hidden) == Ok(PointBounds(PlacedCorners(sqrt, c, nodes).value))
  {
    OneMore(sqrt, [], a, nodes, hidden);
    OneMore(sqrt, [a], b, nodes, hidden);
    OneMore(sqrt, [a, b], c, nodes, hidden);
    assert [] + [a] == [a] && [a] + [b] == [a, b] && [a, b] + [c] == [a, b, c];
  }

  /** After hidden nodes only, the next one decides. */
  lemma {:induction false} OneMore(sqrt: real -> real, order: seq<string>, id: string, nodes: Nodes, hidden: set<string>)
    requires Grounded(nodes) && KindsOk(nodes) && id in nodes && forall v :: v in order ==> v in nodes
    requires VisiblePoints(sqrt, order, nodes, hidden) == Ok([]) && (id !in hidden ==> PlacedCorners(sqrt, id, nodes).Ok?)
    ensures VisiblePoints(sqrt, order + [id], nodes, hidden) ==
              if id in hidden then Ok([]) else PlacedCorners(sqrt, id, nodes)
  {
    assert (order + [id])[..|order|] == order;
    if id !in hidden {
      assert [] + PlacedCorners(sqrt, id, nodes).value == PlacedCorners(sqrt, id, nodes).value;
    }
  }

  // ----- the worker makes the other diagonal too

  ghost function CubeSolid(): Solid { iset p | InShape(CUBE.kind.shape, p) }
  ghost function PairSolid(): Solid { iset p | IsCopy(CubeSolid(), 2, DIAGONAL, p) }
  ghost function StarSolid(): Solid { iset p | IsMirrored(PairSolid(), CROSS, p) }

  ghost function StarSolids(): map<string, Solid> { map["cube" := CubeSolid(), "pair" := PairSolid(), "star" := StarSolid()] }

  lemma {:induction false} StarCompiles(sqrt: real -> real, nodes: Nodes, turn: Angle)
    requires Starry(nodes, turn)
    ensures Compiled(sqrt, nodes, StarSolids())
  {
    StarAllowed(sqrt, nodes, turn, StarSolids());
    CompiledByThree(sqrt, "cube", "pair", "star", nodes, StarSolids());
  }

  lemma {:induction false} StarAllowed(sqrt: real -> real, nodes: Nodes, turn: Angle, solids: map<string, Solid>)
    requires Starry(nodes, turn) && solids == StarSolids()
    ensures SolidAllowed(sqrt, "cube", nodes, solids) && SolidAllowed(sqrt, "pair", nodes, solids)
    ensures SolidAllowed(sqrt, "star", nodes, solids)
  {
    CubeAllowed(sqrt, nodes, turn, solids);
    PairAllowed(sqrt, nodes, turn, solids);
    SourcesKnown("star", nodes);
  }

  lemma {:induction false} CubeAllowed(sqrt: real -> real, nodes: Nodes, turn: Angle, solids: map<string, Solid>)
    requires Starry(nodes, turn) && solids.Keys == nodes.Keys && solids["cube"] == CubeSolid()
    ensures SolidAllowed(sqrt, "cube", nodes, solids)
  {
    ShapeAllowed(sqrt, "cube", nodes, solids);
  }

  lemma {:induction false} ShapeAllowed(sqrt: real -> real, id: string, nodes: Nodes, solids: map<string, Solid>)
    requires Grounded(nodes) && KindsOk(nodes) && id in nodes && solids.Keys == nodes.Keys && nodes[id].kind.Primitive?
    requires forall p :: p in solids[id] ==> InShape(nodes[id].kind.shape, p)
    ensures SolidAllowed(sqrt, id, nodes, solids)
  {
    SourcesKnown(id, nodes);
  }

  lemma {:induction false} PairAllowed(sqrt: real -> real, nodes: Nodes, turn: Angle, solids: map<string, Solid>)
    requires Starry(nodes, turn) && solids.Keys == nodes.Keys
    requires solids["cube"] == CubeSolid() && solids["pair"] == PairSolid()
    ensures SolidAllowed(sqrt, "pair", nodes, solids)
  {
    SourcesKnown("pair", nodes);
  }

  lemma AsideIsMade()
    ensures ASIDE in StarSolid()
  {
    assert Square(0.0) == 0.0;
    assert ZERO in CubeSolid();
    assert CopyAt(ZERO, 1, DIAGONAL) == DIAGONAL;
    assert IsCopy(CubeSolid(), 2, DIAGONAL, DIAGONAL);
    assert MirroredCopy(CROSS, DIAGONAL, ASIDE);
  }

  lemma {:induction false} StarEscapes(sqrt: real -> real, p: GeometryProgram, nodes: Nodes, turn: Angle)
    requires nodes == ById(p.nodes) && Starry(nodes, turn)
    requires NodeOrder(p.nodes) == ["cube", "pair", "star"] && Members(p.construction) == {"cube", "pair"}
    ensures BoundsOf(sqrt, p).Ok? && !Inside(BoundsOf(sqrt, p).value, Place("star", nodes, ASIDE))
  {
    StarBounds(sqrt, ["cube", "pair", "star"], nodes, turn, {"cube", "pair"});
    BoundsByParts(sqrt, p, ["cube", "pair", "star"], nodes);
    StarPlaces(nodes, turn, ASIDE);
  }

  /** The mesh reaches almost three metres to one side; the bounds end after little more than
      one. */
  lemma {:induction false} CrossedMirrorEscapes(sqrt: real -> real, turn: Angle)
    requires Oblique(turn)
    ensures var p := StarScene(turn);
            && Valid(sqrt, Unbounded(p)) && Starry(ById(p.nodes), turn)
            && Compiled(sqrt, ById(p.nodes), StarSolids()) && ASIDE in StarSolids()["star"]
            && BoundsOf(sqrt, p).Ok? && !Inside(BoundsOf(sqrt, p).value, Place("star", ById(p.nodes), ASIDE))
  {
    StarIsSound(sqrt, turn);
    StarLists(turn);
    StarCompiles(sqrt, ById(StarScene(turn).nodes), turn);
    AsideIsMade();
    StarEscapes(sqrt, StarScene(turn), ById(StarScene(turn).nodes), turn);
  }
}
