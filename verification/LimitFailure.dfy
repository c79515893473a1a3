/** A valid program that the ground-contact pass lifts out of its own size limit. */
module LimitFailure {
  import opened Affine
  import opened Graphs
  import opened Program
  import opened Motions
  import opened MovedGeometry
  import opened VisibleBoxes
  import opened Validator
  import opened Repair
  import opened Fitting
  import opened GroundContact
  import opened SmallPrograms

  // A slab on the ground with a pit five metres deep, and beside it a post that sticks one
  // metre into the ground and carries a cap eleven metres up: sixteen metres in all.

  const SLAB := Node("slab", None, None, None, Shifted(Vec3(0.0, 0.0, 1.0)), Cube(2.0))
  const PIT := Node("pit", Some("slab"), None, None, Shifted(Vec3(0.0, 0.0, -5.0)), Cube(2.0))
  const POST := Node("post", None, None, None, Shifted(ZERO), Cube(2.0))
  const CAP := Node("cap", Some("post"), None, Some("main"), Shifted(Vec3(0.0, 0.0, 10.0)), Cube(2.0))
  const SIXTEEN := Vec3(2.0, 2.0, 16.0)
  const YARD := Scene([SLAB, PIT, POST, CAP], [], Some(SIXTEEN))

  ghost predicate Yard(nodes: Nodes) {
    && nodes == map["slab" := SLAB, "pit" := PIT, "post" := POST, "cap" := CAP]
    && Grounded(nodes) && KindsOk(nodes)
  }

  ghost predicate IsYard(sqrt: real -> real, p: GeometryProgram, nodes: Nodes) {
    && Valid(sqrt, Unbounded(p)) && p.maximum == Some(SIXTEEN) && Members(p.construction) == {} && p.adjustments == []
    && nodes == ById(p.nodes) && Yard(nodes)
  }

  // ----- it is valid

  lemma {:induction false} YardLists()
    ensures ById(YARD.nodes) == map["slab" := SLAB, "pit" := PIT, "post" := POST, "cap" := CAP]
    ensures Members(YARD.construction) == {}
  {
    ListThree(SLAB, PIT, POST);
    ListMore([SLAB, PIT, POST], CAP);
    assert [SLAB, PIT, POST] + [CAP] == YARD.nodes;
  }

  lemma {:induction false} YardFit(nodes: Nodes, rank: map<string, nat>)
    requires nodes == map["slab" := SLAB, "pit" := PIT, "post" := POST, "cap" := CAP]
    requires rank == map["slab" := 0, "pit" := 1, "post" := 0, "cap" := 1]
    ensures NodeFits(SLAB, nodes, [], rank) && NodeFits(PIT, nodes, [], rank)
    ensures NodeFits(POST, nodes, [], rank) && NodeFits(CAP, nodes, [], rank)
  {
    CubeFits(SLAB, 2.0, nodes, [], rank);
    CubeFits(PIT, 2.0, nodes, [], rank);
    CubeFits(POST, 2.0, nodes, [], rank);
    CubeFits(CAP, 2.0, nodes, [], rank);
  }

  lemma {:induction false} YardIsYard(sqrt: real -> real)
    ensures IsYard(sqrt, YARD, ById(YARD.nodes))
  {
    var rank: map<string, nat> := map["slab" := 0, "pit" := 1, "post" := 0, "cap" := 1];
    YardLists();
    YardFit(ById(YARD.nodes), rank);
    FourScene(SLAB, PIT, POST, CAP, rank);
    SceneIsSound(YARD.nodes, [], rank, Some(SIXTEEN));
    SceneIsValid(sqrt, YARD.nodes, [], rank, Some(SIXTEEN));
  }

  /** How high a node's centre is. */
  function Level(id: string): real {
    if id == "slab" then 1.0 else if id == "pit" then -4.0 else if id == "post" then 0.0 else 10.0
  }

  lemma {:induction false} RootPlaces(nodes: Nodes, p: Vec3)
    requires Yard(nodes)
    ensures Place("slab", nodes, p) == Add(p, Vec3(0.0, 0.0, 1.0)) && Place("post", nodes, p) == Add(p, ZERO)
  {
    PlainApplies(SLAB.transform, p);
    PlainApplies(POST.transform, p);
  }

  lemma {:induction false} PitPlaces(nodes: Nodes, p: Vec3)
    requires Yard(nodes)
    ensures Place("pit", nodes, p) == Add(p, Vec3(0.0, 0.0, -4.0))
  {
    PlainApplies(PIT.transform, p);
    RootPlaces(nodes, Vec3(p.x, p.y, p.z - 5.0));
  }

  lemma {:induction false} CapPlaces(nodes: Nodes, p: Vec3)
    requires Yard(nodes)
    ensures Place("cap", nodes, p) == Add(p, Vec3(0.0, 0.0, 10.0))
  {
    PlainApplies(CAP.transform, p);
    RootPlaces(nodes, Vec3(p.x, p.y, p.z + 10.0));
  }

  lemma {:induction false} YardPlaces(id: string, nodes: Nodes, p: Vec3)
    requires Yard(nodes) && id in nodes
    ensures Place(id, nodes, p) == Add(p, Vec3(0.0, 0.0, Level(id)))
  {
    RootPlaces(nodes, p);
    PitPlaces(nodes, p);
    CapPlaces(nodes, p);
  }

  lemma {:induction false} YardBox(sqrt: real -> real, id: string, nodes: Nodes)
    requires Yard(nodes) && id in nodes
    ensures NodeBox(sqrt, id, nodes) == Ok(Around(Vec3(0.0, 0.0, Level(id)), UNIT_HALF))
  {
    forall p ensures Place(id, nodes, p) == Add(p, Vec3(0.0, 0.0, Level(id))) {
      YardPlaces(id, nodes, p);
    }
    ShiftedBox(sqrt, id, nodes, UNIT_HALF, Vec3(0.0, 0.0, Level(id)));
  }

  lemma ColumnFits(u: string, v: string)
    ensures SpanFits(Around(Vec3(0.0, 0.0, Level(u)), UNIT_HALF), Around(Vec3(0.0, 0.0, Level(v)), UNIT_HALF), SIXTEEN)
  {
  }

  lemma {:induction false} YardSpans(sqrt: real -> real, nodes: Nodes)
    requires Yard(nodes)
    ensures SpansFit(sqrt, nodes, {}, map[], SIXTEEN)
  {
    assert Visible("cap", nodes, {});
    forall u, v | Visible(u, nodes, {}) && Visible(v, nodes, {}) ensures PairFits(sqrt, u, v, nodes, map[], SIXTEEN) {
      YardPair(sqrt, u, v, nodes);
    }
  }

  lemma {:induction false} YardPair(sqrt: real -> real, u: string, v: string, nodes: Nodes)
    requires Yard(nodes) && u in nodes && v in nodes
    ensures PairFits(sqrt, u, v, nodes, map[], SIXTEEN)
  {
    PresentBox(sqrt, u, nodes);
    PresentBox(sqrt, v, nodes);
    YardBox(sqrt, u, nodes);
    YardBox(sqrt, v, nodes);
    ColumnFits(u, v);
  }

  lemma {:induction false} YardIsValid(sqrt: real -> real, p: GeometryProgram, nodes: Nodes)
    requires IsYard(sqrt, p, nodes)
    ensures Valid(sqrt, p)
  {
    OrderKnown(p.nodes);
    EveryIdListed(p.nodes);
    YardSpans(sqrt, nodes);
    BoxesDecide(sqrt, NodeOrder(p.nodes), nodes, {}, SIXTEEN);
    BoundsByParts(sqrt, p, NodeOrder(p.nodes), nodes);
    ValidByParts(sqrt, p);
  }

  // ----- the pass lifts the post and its cap, and nothing else

  lemma {:induction false} YardTrees(nodes: Nodes)
    requires Yard(nodes)
    ensures forall id :: IsVisibleRoot(id, nodes, {}) <==> id == "slab" || id == "post"
    ensures Top("cap", nodes) == "post" && Top("pit", nodes) == "slab"
  {
  }

  lemma {:induction false} YardSettled(nodes: Nodes, moved: set<string>)
    requires Yard(nodes)
    ensures AllSettled(nodes, {}, moved)
  {
    forall id | Visible(id, nodes, {}) ensures Settled(id, nodes, moved) {
      assert CornerSources(nodes[id].kind) == {};
    }
  }

  lemma {:induction false} YardIsMeasured(sqrt: real -> real, p: GeometryProgram, nodes: Nodes)
    requires IsYard(sqrt, p, nodes)
    ensures LiftsOf(sqrt, p).Ok?
  {
    OrderKnown(p.nodes);
    forall id | IsVisibleRoot(id, nodes, {}) ensures NodeBox(sqrt, id, nodes).Ok? {
      YardBox(sqrt, id, nodes);
    }
    LiftsOkIff(sqrt, NodeOrder(p.nodes), nodes, {});
    LiftsByParts(sqrt, p, NodeOrder(p.nodes), nodes);
  }

  lemma {:induction false} YardHeights(sqrt: real -> real, nodes: Nodes, moves: Moves)
    requires Yard(nodes) && GoodLifts(sqrt, moves, nodes, {}) && EveryRootNoted(sqrt, nodes, {}, moves)
    ensures HeightOf(moves, "post") == 1.0 && HeightOf(moves, "slab") == 0.0
  {
    YardTrees(nodes);
    YardBox(sqrt, "slab", nodes);
    YardBox(sqrt, "post", nodes);
    LiftHeight(sqrt, "post", nodes, {}, moves);
    LiftHeight(sqrt, "slab", nodes, {}, moves);
  }

  lemma {:induction false} YardInReach(sqrt: real -> real, p: GeometryProgram, nodes: Nodes, moves: Moves)
    requires nodes == ById(p.nodes) && Yard(nodes) && GoodLifts(sqrt, moves, nodes, {})
    requires HeightOf(moves, "post") == 1.0 && HeightOf(moves, "slab") == 0.0
    ensures AllInReach(p, moves)
  {
    YardTrees(nodes);
    forall id | id in moves && id in nodes ensures InReach(p, moves, id) {
      assert GoodLift(sqrt, id, moves[id], nodes, {});
    }
  }

  lemma {:induction false} YardIsLifted(sqrt: real -> real, p: GeometryProgram, nodes: Nodes)
    requires IsYard(sqrt, p, nodes)
    ensures LiftsOf(sqrt, p).Ok?
    ensures var moves := LiftsOf(sqrt, p).value;
            HeightOf(moves, "post") == 1.0 && HeightOf(moves, "slab") == 0.0 && AllInReach(p, moves)
  {
    YardIsMeasured(sqrt, p, nodes);
    YardIsUnique(sqrt, p, nodes);
    LiftsKeepRoots(sqrt, p);
    YardHeights(sqrt, nodes, LiftsOf(sqrt, p).value);
    YardInReach(sqrt, p, nodes, LiftsOf(sqrt, p).value);
  }

  lemma {:induction false} YardIsUnique(sqrt: real -> real, p: GeometryProgram, nodes: Nodes)
    requires IsYard(sqrt, p, nodes)
    ensures UniqueIds(p.nodes)
  {
    MaximumIsSeparate(sqrt, Unbounded(p));
  }

  lemma {:induction false} CapRisesTooFar(sqrt: real -> real, nodes: Nodes, moves: Moves)
    requires Yard(nodes) && HeightOf(moves, "post") == 1.0 && HeightOf(moves, "slab") == 0.0
    ensures !AllRiseWithin(sqrt, nodes, {}, moves, 16.0)
  {
    YardTrees(nodes);
    YardBox(sqrt, "cap", nodes);
    YardBox(sqrt, "pit", nodes);
    assert Visible("cap", nodes, {}) && Visible("pit", nodes, {});
    assert !RisesWithin(sqrt, "cap", "pit", nodes, moves, 16.0);
  }

  lemma {:induction false} YardFails(sqrt: real -> real, p: GeometryProgram, nodes: Nodes)
    requires IsYard(sqrt, p, nodes)
    ensures Valid(sqrt, p) && LiftsOf(sqrt, p).Ok? && AllInReach(p, LiftsOf(sqrt, p).value)
    ensures Lifted(sqrt, true, p).Ok? && !Valid(sqrt, Lifted(sqrt, true, p).value)
  {
    YardIsValid(sqrt, p, nodes);
    YardIsLifted(sqrt, p, nodes);
    YardSettled(nodes, LiftsOf(sqrt, p).value.Keys);
    CapRisesTooFar(sqrt, nodes, LiftsOf(sqrt, p).value);
    LiftKeepsLimit(sqrt, p);
  }

  /** The program is valid with its maximum of sixteen metres; the pass lifts the post by one
      metre and leaves the pit, and the scene is then seventeen metres high. */
  lemma {:induction false} LiftExceedsMaximum(sqrt: real -> real)
    ensures Valid(sqrt, YARD) && Grounded(ById(YARD.nodes)) && KindsOk(ById(YARD.nodes))
    ensures LiftsOf(sqrt, YARD).Ok? && AllInReach(YARD, LiftsOf(sqrt, YARD).value)
    ensures Lifted(sqrt, true, YARD).Ok? && !Valid(sqrt, Lifted(sqrt, true, YARD).value)
  {
    YardIsYard(sqrt);
    YardFails(sqrt, YARD, ById(YARD.nodes));
  }
}
