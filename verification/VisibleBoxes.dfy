/** The boxes of single nodes before and after a motion of roots, and how they decide whether
    the moved scene is within a size limit. */
module VisibleBoxes {
  import opened Affine
  import opened Hull
  import opened Program
  import opened Envelope
  import opened Motions
  import opened MovedGeometry
  import opened Validator

  /** The bounds of a node's own geometry, in the program's frame. */
  function NodeBox(sqrt: real -> real, id: string, nodes: Nodes): Result<Hull.Box>
    requires Grounded(nodes) && KindsOk(nodes) && id in nodes
  {
    var points :- PlacedCorners(sqrt, id, nodes);
    Ok(PointBounds(points))
  }

  /** The bounds of a node's own geometry in the moved program. */
  function BoxAfter(sqrt: real -> real, id: string, nodes: Nodes, moves: Moves): Result<Hull.Box>
    requires Grounded(nodes) && KindsOk(nodes) && id in nodes
  {
    var points :- PlacedAfter(sqrt, id, nodes, moves);
    Ok(PointBounds(points))
  }

  lemma {:induction false} NodeBoxMoves(sqrt: real -> real, id: string, nodes: Nodes, moves: Moves)
    requires Grounded(nodes) && KindsOk(nodes) && id in nodes && RootsOnly(moves, nodes)
    ensures Grounded(MoveNodes(moves, nodes)) && KindsOk(MoveNodes(moves, nodes))
    ensures NodeBox(sqrt, id, MoveNodes(moves, nodes)) == BoxAfter(sqrt, id, nodes, moves)
  {
    PlacedMove(sqrt, id, nodes, moves);
  }

  function MoveBoxResult(m: Motion, b: Result<Hull.Box>): Result<Hull.Box> { if b.Err? then b else Ok(MoveBox(m, b.value)) }

  /** The box of a settled node moves with its topmost ancestor. */
  lemma {:induction false} SettledBoxMoves(sqrt: real -> real, id: string, nodes: Nodes, moves: Moves)
    requires Grounded(nodes) && KindsOk(nodes) && id in nodes && Settled(id, nodes, moves.Keys) && RootsOnly(moves, nodes)
    ensures BoxAfter(sqrt, id, nodes, moves) == MoveBoxResult(MotionOf(moves, Top(id, nodes)), NodeBox(sqrt, id, nodes))
  {
    SettledMoves(sqrt, id, nodes, moves);
    if PlacedCorners(sqrt, id, nodes).Ok? {
      BoundsMove(MotionOf(moves, Top(id, nodes)), PlacedCorners(sqrt, id, nodes).value);
    }
  }

  /** Where a node's box will be: for a settled node its present box, moved with its topmost
      ancestor; only for a boolean that the motion reaches, a new look at its corners. */
  ghost function BoxThen(sqrt: real -> real, id: string, nodes: Nodes, moves: Moves): Result<Hull.Box>
    requires Grounded(nodes) && KindsOk(nodes) && id in nodes
  {
    if Settled(id, nodes, moves.Keys) then MoveBoxResult(MotionOf(moves, Top(id, nodes)), NodeBox(sqrt, id, nodes))
    else BoxAfter(sqrt, id, nodes, moves)
  }

  lemma {:induction false} BoxThenHolds(sqrt: real -> real, id: string, nodes: Nodes, moves: Moves)
    requires Grounded(nodes) && KindsOk(nodes) && id in nodes && RootsOnly(moves, nodes)
    ensures BoxThen(sqrt, id, nodes, moves) == BoxAfter(sqrt, id, nodes, moves)
  {
    if Settled(id, nodes, moves.Keys) {
      SettledBoxMoves(sqrt, id, nodes, moves);
    }
  }

  // ----- sizes, box by box

  /** From the low side of b to the high side of a it is no further than the limit, with the
      validator's slack. */
  predicate SpanFits(a: Hull.Box, b: Hull.Box, limit: Vec3) {
    a.max.x - b.min.x <= limit.x + SLACK && a.max.y - b.min.y <= limit.y + SLACK && a.max.z - b.min.z <= limit.z + SLACK
  }

  predicate Near(p: Vec3, q: Vec3, limit: Vec3) {
    p.x - q.x <= limit.x + SLACK && p.y - q.y <= limit.y + SLACK && p.z - q.z <= limit.z + SLACK
  }

  ghost predicate AllNear(ps: seq<Vec3>, qs: seq<Vec3>, limit: Vec3) {
    forall p, q :: p in ps && q in qs ==> Near(p, q, limit)
  }

  /** The bounds reach every point. */
  lemma {:induction false} BoundsReach(points: seq<Vec3>, q: Vec3)
    requires q in points
    ensures Inside(PointBounds(points), q)
  {
  }

  /** And each of their six sides is some point's. */
  lemma {:induction false} HighSides(points: seq<Vec3>)
    requires points != []
    ensures exists p :: p in points && p.x == PointBounds(points).max.x
    ensures exists p :: p in points && p.y == PointBounds(points).max.y
    ensures exists p :: p in points && p.z == PointBounds(points).max.z
  {
    var xs, ys, zs := Xs(points), Ys(points), Zs(points);
    var i :| 0 <= i < |xs| && xs[i] == Greatest(xs);
    var j :| 0 <= j < |ys| && ys[j] == Greatest(ys);
    var k :| 0 <= k < |zs| && zs[k] == Greatest(zs);
    assert points[i] in points && points[j] in points && points[k] in points;
  }

  lemma {:induction false} LowSides(points: seq<Vec3>)
    requires points != []
    ensures exists p :: p in points && p.x == PointBounds(points).min.x
    ensures exists p :: p in points && p.y == PointBounds(points).min.y
    ensures exists p :: p in points && p.z == PointBounds(points).min.z
  {
    var xs, ys, zs := Xs(points), Ys(points), Zs(points);
    var i :| 0 <= i < |xs| && xs[i] == Least(xs);
    var j :| 0 <= j < |ys| && ys[j] == Least(ys);
    var k :| 0 <= k < |zs| && zs[k] == Least(zs);
    assert points[i] in points && points[j] in points && points[k] in points;
  }

  lemma {:induction false} SpanIff(ps: seq<Vec3>, qs: seq<Vec3>, limit: Vec3)
    requires ps != [] && qs != []
    ensures SpanFits(PointBounds(ps), PointBounds(qs), limit) <==> AllNear(ps, qs, limit)
  {
    if SpanFits(PointBounds(ps), PointBounds(qs), limit) {
      forall p, q | p in ps && q in qs ensures Near(p, q, limit) {
        BoundsReach(ps, p);
        BoundsReach(qs, q);
      }
    }
    if AllNear(ps, qs, limit) {
      NearSpans(PointBounds(ps), PointBounds(qs), ps, qs, limit);
    }
  }

  lemma {:induction false} NearSpans(a: Hull.Box, b: Hull.Box, ps: seq<Vec3>, qs: seq<Vec3>, limit: Vec3)
    requires ps != [] && qs != [] && a == PointBounds(ps) && b == PointBounds(qs) && AllNear(ps, qs, limit)
    ensures SpanFits(a, b, limit)
  {
    HighSides(ps);
    LowSides(qs);
    var p :| p in ps && p.x == a.max.x;
    var q :| q in qs && q.x == b.min.x;
    assert Near(p, q, limit);
    var p' :| p' in ps && p'.y == a.max.y;
    var q' :| q' in qs && q'.y == b.min.y;
    assert Near(p', q', limit);
    var p'' :| p'' in ps && p''.z == a.max.z;
    var q'' :| q'' in qs && q''.z == b.min.z;
    assert Near(p'', q'', limit);
  }

  // ----- the points of the moved scene

  predicate Visible(id: string, nodes: Nodes, hidden: set<string>) { id in nodes && id !in hidden }

  lemma {:induction false} MovedVisibleIff(sqrt: real -> real, order: seq<string>, nodes: Nodes, hidden: set<string>, moves: Moves)
    requires Grounded(nodes) && KindsOk(nodes) && forall id :: id in order ==> id in nodes
    ensures MovedVisible(sqrt, order, nodes, hidden, moves).Ok? <==>
              forall id :: id in order && id !in hidden ==> PlacedAfter(sqrt, id, nodes, moves).Ok?
  {
    if order != [] {
      var init, last := order[..|order| - 1], order[|order| - 1];
      MovedVisibleIff(sqrt, init, nodes, hidden, moves);
      assert order == init + [last];
    }
  }

  lemma {:induction false} MovedVisibleHolds(sqrt: real -> real, order: seq<string>, nodes: Nodes, hidden: set<string>, moves: Moves, id: string, q: Vec3)
    requires Grounded(nodes) && KindsOk(nodes) && forall v :: v in order ==> v in nodes
    requires MovedVisible(sqrt, order, nodes, hidden, moves).Ok? && id in order && id !in hidden
    ensures PlacedAfter(sqrt, id, nodes, moves).Ok?
    ensures q in PlacedAfter(sqrt, id, nodes, moves).value ==> q in MovedVisible(sqrt, order, nodes, hidden, moves).value
  {
    var init, last := order[..|order| - 1], order[|order| - 1];
    if id != last {
      assert id in init;
      MovedVisibleHolds(sqrt, init, nodes, hidden, moves, id, q);
    }
  }

  lemma {:induction false} MovedVisibleFrom(sqrt: real -> real, order: seq<string>, nodes: Nodes, hidden: set<string>, moves: Moves, q: Vec3)
    returns (id: string)
    requires Grounded(nodes) && KindsOk(nodes) && forall v :: v in order ==> v in nodes
    requires MovedVisible(sqrt, order, nodes, hidden, moves).Ok? && q in MovedVisible(sqrt, order, nodes, hidden, moves).value
    ensures id in order && id !in hidden && PlacedAfter(sqrt, id, nodes, moves).Ok? && q in PlacedAfter(sqrt, id, nodes, moves).value
  {
    var init, last := order[..|order| - 1], order[|order| - 1];
    if q in MovedVisible(sqrt, init, nodes, hidden, moves).value {
      id := MovedVisibleFrom(sqrt, init, nodes, hidden, moves, q);
    } else {
      id := last;
    }
  }

  // ----- the size of the moved scene

  /** Something is visible, and everything visible can be measured. */
  ghost predicate Measurable(sqrt: real -> real, nodes: Nodes, hidden: set<string>, moves: Moves)
    requires Grounded(nodes) && KindsOk(nodes)
  {
    && (exists id :: Visible(id, nodes, hidden))
    && forall id :: Visible(id, nodes, hidden) ==> BoxThen(sqrt, id, nodes, moves).Ok?
  }

  ghost predicate PairFits(sqrt: real -> real, u: string, v: string, nodes: Nodes, moves: Moves, limit: Vec3)
    requires Grounded(nodes) && KindsOk(nodes) && u in nodes && v in nodes
  {
    && BoxThen(sqrt, u, nodes, moves).Ok? && BoxThen(sqrt, v, nodes, moves).Ok?
    && SpanFits(BoxThen(sqrt, u, nodes, moves).value, BoxThen(sqrt, v, nodes, moves).value, limit)
  }

  /** Something is visible, and no two visible boxes reach further than the limit allows. */
  ghost predicate SpansFit(sqrt: real -> real, nodes: Nodes, hidden: set<string>, moves: Moves, limit: Vec3)
    requires Grounded(nodes) && KindsOk(nodes)
  {
    && (exists id :: Visible(id, nodes, hidden))
    && forall u, v :: Visible(u, nodes, hidden) && Visible(v, nodes, hidden) ==> PairFits(sqrt, u, v, nodes, moves, limit)
  }

  lemma {:induction false} SpansAreMeasured(sqrt: real -> real, nodes: Nodes, hidden: set<string>, moves: Moves, limit: Vec3)
    requires Grounded(nodes) && KindsOk(nodes) && SpansFit(sqrt, nodes, hidden, moves, limit)
    ensures Measurable(sqrt, nodes, hidden, moves)
  {
    forall id | Visible(id, nodes, hidden) ensures BoxThen(sqrt, id, nodes, moves).Ok? {
      assert PairFits(sqrt, id, id, nodes, moves, limit);
    }
  }

  ghost predicate NodesNear(sqrt: real -> real, nodes: Nodes, hidden: set<string>, moves: Moves, limit: Vec3)
    requires Grounded(nodes) && KindsOk(nodes)
    requires forall id :: Visible(id, nodes, hidden) ==> PlacedAfter(sqrt, id, nodes, moves).Ok?
  {
    forall u, v :: Visible(u, nodes, hidden) && Visible(v, nodes, hidden) ==>
      AllNear(PlacedAfter(sqrt, u, nodes, moves).value, PlacedAfter(sqrt, v, nodes, moves).value, limit)
  }

  lemma {:induction false} PointsDecide(sqrt: real -> real, order: seq<string>, nodes: Nodes, hidden: set<string>, moves: Moves, limit: Vec3)
    requires Grounded(nodes) && KindsOk(nodes) && forall id :: id in order <==> id in nodes
    requires forall id :: Visible(id, nodes, hidden) ==> PlacedAfter(sqrt, id, nodes, moves).Ok?
    ensures MovedVisible(sqrt, order, nodes, hidden, moves).Ok?
    ensures var points := MovedVisible(sqrt, order, nodes, hidden, moves).value;
            AllNear(points, points, limit) <==> NodesNear(sqrt, nodes, hidden, moves, limit)
  {
    MovedVisibleIff(sqrt, order, nodes, hidden, moves);
    var points := MovedVisible(sqrt, order, nodes, hidden, moves).value;
    if AllNear(points, points, limit) {
      forall u, v, p, q |
        && Visible(u, nodes, hidden) && Visible(v, nodes, hidden)
        && p in PlacedAfter(sqrt, u, nodes, moves).value && q in PlacedAfter(sqrt, v, nodes, moves).value
        ensures Near(p, q, limit)
      {
        MovedVisibleHolds(sqrt, order, nodes, hidden, moves, u, p);
        MovedVisibleHolds(sqrt, order, nodes, hidden, moves, v, q);
      }
    }
    if NodesNear(sqrt, nodes, hidden, moves, limit) {
      forall p, q | p in points && q in points ensures Near(p, q, limit) {
        var u := MovedVisibleFrom(sqrt, order, nodes, hidden, moves, p);
        var v := MovedVisibleFrom(sqrt, order, nodes, hidden, moves, q);
        assert Visible(u, nodes, hidden) && Visible(v, nodes, hidden);
      }
    }
  }

  lemma {:induction false} SpansAreNear(sqrt: real -> real, nodes: Nodes, hidden: set<string>, moves: Moves, limit: Vec3)
    requires Grounded(nodes) && KindsOk(nodes) && RootsOnly(moves, nodes) && Measurable(sqrt, nodes, hidden, moves)
    ensures forall id :: Visible(id, nodes, hidden) ==> PlacedAfter(sqrt, id, nodes, moves).Ok?
    ensures SpansFit(sqrt, nodes, hidden, moves, limit) <==> NodesNear(sqrt, nodes, hidden, moves, limit)
  {
    AllPlaced(sqrt, nodes, hidden, moves);
    if SpansFit(sqrt, nodes, hidden, moves, limit) {
      forall u, v | Visible(u, nodes, hidden) && Visible(v, nodes, hidden)
        ensures AllNear(PlacedAfter(sqrt, u, nodes, moves).value, PlacedAfter(sqrt, v, nodes, moves).value, limit)
      {
        PairIsNear(sqrt, u, v, nodes, moves, limit);
      }
    }
    if NodesNear(sqrt, nodes, hidden, moves, limit) {
      forall u, v | Visible(u, nodes, hidden) && Visible(v, nodes, hidden) ensures PairFits(sqrt, u, v, nodes, moves, limit) {
        PairIsNear(sqrt, u, v, nodes, moves, limit);
      }
    }
  }

  lemma {:induction false} AllPlaced(sqrt: real -> real, nodes: Nodes, hidden: set<string>, moves: Moves)
    requires Grounded(nodes) && KindsOk(nodes) && RootsOnly(moves, nodes) && Measurable(sqrt, nodes, hidden, moves)
    ensures forall id :: Visible(id, nodes, hidden) ==> PlacedAfter(sqrt, id, nodes, moves).Ok?
  {
    forall id | Visible(id, nodes, hidden) ensures PlacedAfter(sqrt, id, nodes, moves).Ok? {
      BoxThenHolds(sqrt, id, nodes, moves);
    }
  }

  lemma {:induction false} PairIsNear(sqrt: real -> real, u: string, v: string, nodes: Nodes, moves: Moves, limit: Vec3)
    requires Grounded(nodes) && KindsOk(nodes) && RootsOnly(moves, nodes) && u in nodes && v in nodes
    requires PlacedAfter(sqrt, u, nodes, moves).Ok? && PlacedAfter(sqrt, v, nodes, moves).Ok?
    ensures PairFits(sqrt, u, v, nodes, moves, limit) <==>
            AllNear(PlacedAfter(sqrt, u, nodes, moves).value, PlacedAfter(sqrt, v, nodes, moves).value, limit)
  {
    BoxThenHolds(sqrt, u, nodes, moves);
    BoxThenHolds(sqrt, v, nodes, moves);
    SpanIff(PlacedAfter(sqrt, u, nodes, moves).value, PlacedAfter(sqrt, v, nodes, moves).value, limit);
  }

  lemma {:induction false} MeasuredIff(sqrt: real -> real, order: seq<string>, nodes: Nodes, hidden: set<string>, moves: Moves)
    requires Grounded(nodes) && KindsOk(nodes) && RootsOnly(moves, nodes) && forall id :: id in order <==> id in nodes
    ensures MovedBounds(sqrt, order, nodes, hidden, moves).Ok? <==> Measurable(sqrt, nodes, hidden, moves)
  {
    MovedVisibleIff(sqrt, order, nodes, hidden, moves);
    forall id | Visible(id, nodes, hidden)
      ensures BoxThen(sqrt, id, nodes, moves).Ok? <==> PlacedAfter(sqrt, id, nodes, moves).Ok?
    {
      BoxThenHolds(sqrt, id, nodes, moves);
    }
    if MovedVisible(sqrt, order, nodes, hidden, moves).Ok? {
      SomethingVisible(sqrt, order, nodes, hidden, moves);
    }
  }

  lemma {:induction false} SomethingVisible(sqrt: real -> real, order: seq<string>, nodes: Nodes, hidden: set<string>, moves: Moves)
    requires Grounded(nodes) && KindsOk(nodes) && forall id :: id in order <==> id in nodes
    requires MovedVisible(sqrt, order, nodes, hidden, moves).Ok?
    ensures MovedVisible(sqrt, order, nodes, hidden, moves).value != [] <==> exists id :: Visible(id, nodes, hidden)
  {
    var points := MovedVisible(sqrt, order, nodes, hidden, moves).value;
    if points != [] {
      var id := MovedVisibleFrom(sqrt, order, nodes, hidden, moves, points[0]);
      assert Visible(id, nodes, hidden);
    }
    if id :| Visible(id, nodes, hidden) {
      MovedVisibleHolds(sqrt, order, nodes, hidden, moves, id, ZERO);
      MovedVisibleHolds(sqrt, order, nodes, hidden, moves, id, PlacedAfter(sqrt, id, nodes, moves).value[0]);
    }
  }

  /** The moved scene is measured and within the limit exactly when the visible boxes are: on
      settled nodes a condition on the boxes that the nodes have before the motion. */
  lemma {:induction false} SpansDecide(sqrt: real -> real, order: seq<string>, nodes: Nodes, hidden: set<string>, moves: Moves, limit: Vec3)
    requires Grounded(nodes) && KindsOk(nodes) && RootsOnly(moves, nodes) && forall id :: id in order <==> id in nodes
    ensures (&& MovedBounds(sqrt, order, nodes, hidden, moves).Ok?
             && Fits(Dimensions(MovedBounds(sqrt, order, nodes, hidden, moves).value), limit))
            <==> SpansFit(sqrt, nodes, hidden, moves, limit)
  {
    MeasuredIff(sqrt, order, nodes, hidden, moves);
    if SpansFit(sqrt, nodes, hidden, moves, limit) {
      SpansAreMeasured(sqrt, nodes, hidden, moves, limit);
    }
    if Measurable(sqrt, nodes, hidden, moves) {
      SpansAreNear(sqrt, nodes, hidden, moves, limit);
      PointsDecide(sqrt, order, nodes, hidden, moves, limit);
      SpanIff(MovedVisible(sqrt, order, nodes, hidden, moves).value, MovedVisible(sqrt, order, nodes, hidden, moves).value, limit);
    }
  }

  // ----- the scene as it is

  lemma {:induction false} NoMoves(nodes: Nodes)
    ensures MoveNodes(map[], nodes) == nodes
  {
  }

  /** The same without a motion, for the boxes that the nodes have. */
  lemma {:induction false} BoxesDecide(sqrt: real -> real, order: seq<string>, nodes: Nodes, hidden: set<string>, limit: Vec3)
    requires Grounded(nodes) && KindsOk(nodes) && forall id :: id in order <==> id in nodes
    ensures (&& ProgramBounds(sqrt, order, nodes, hidden).Ok?
             && Fits(Dimensions(ProgramBounds(sqrt, order, nodes, hidden).value), limit))
            <==> SpansFit(sqrt, nodes, hidden, map[], limit)
  {
    NoMoves(nodes);
    BoundsAreMoved(sqrt, order, nodes, hidden, map[]);
    SpansDecide(sqrt, order, nodes, hidden, map[], limit);
  }

  lemma {:induction false} PresentBox(sqrt: real -> real, id: string, nodes: Nodes)
    requires Grounded(nodes) && KindsOk(nodes) && id in nodes
    ensures BoxThen(sqrt, id, nodes, map[]) == NodeBox(sqrt, id, nodes)
  {
    NoMoves(nodes);
    BoxThenHolds(sqrt, id, nodes, map[]);
    NodeBoxMoves(sqrt, id, nodes, map[]);
  }
}
