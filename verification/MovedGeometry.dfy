/** What moving the roots of a program does to its corner lists and to its envelope. */
module MovedGeometry {
  import opened Affine
  import opened Hull
  import opened Graphs
  import opened Program
  import opened Envelope
  import opened Motions

  // ----- corner lists, one level at a time

  function PlacedOperand(id: string, nodes: Nodes, corners: Result<seq<Vec3>>): (r: Result<seq<Vec3>>)
    requires Grounded(nodes) && id in nodes && (corners.Ok? ==> corners.value != [])
    ensures r.Ok? ==> r.value != []
  {
    if corners.Err? then corners else Ok(MapPoints(WorldMatrix(id, nodes), corners.value))
  }

  /** What a boolean makes of its placed operands; a difference looks at the left one only. */
  function FromOperands(operation: BooleanOp, left: Result<seq<Vec3>>, right: Result<seq<Vec3>>): (r: Result<seq<Vec3>>)
    requires left.Ok? ==> left.value != []
    requires right.Ok? ==> right.value != []
    ensures r.Ok? ==> r.value != []
  {
    if left.Err? || operation.Difference? then left
    else if right.Err? then right
    else CombinedCorners(operation, left.value, right.value)
  }

  predicate IsCopy(k: Kind) { k.Instance? || k.Array? || k.Modified? }

  /** What an instance, array or modifier makes of its source's corners. */
  function FromSource(k: Kind, source: Result<seq<Vec3>>): (r: Result<seq<Vec3>>)
    requires IsCopy(k) && KindOk(k) && (source.Ok? ==> source.value != [])
    ensures r.Ok? ==> r.value != []
  {
    if source.Err? || k.Instance? then source
    else if k.Array? then
      RepeatIsNotEmpty(source.value, k.count, k.offset);
      Ok(Repeat(source.value, k.count, k.offset))
    else Ok(ModifiedCorners(source.value, k.modifier))
  }

  function FromLeaf(sqrt: real -> real, k: Kind, nodes: Nodes): (r: Result<seq<Vec3>>)
    requires IsLeaf(k) && KindOk(k) && NodeDependencies(k) <= nodes.Keys && KindsOk(nodes)
    ensures r.Ok? ==> r.value != []
  {
    var outline :- OutlineFor(k, nodes);
    Ok(LeafCorners(sqrt, k, outline))
  }

  lemma {:induction false} LeafLevel(sqrt: real -> real, id: string, nodes: Nodes, visiting: set<string>)
    requires Grounded(nodes) && KindsOk(nodes) && id in nodes && id !in visiting && IsLeaf(nodes[id].kind)
    ensures NodeDependencies(nodes[id].kind) <= nodes.Keys
    ensures GeometryCorners(sqrt, id, nodes, visiting) == FromLeaf(sqrt, nodes[id].kind, nodes)
  {
    SourcesKnown(id, nodes);
  }

  lemma {:induction false} CopyLevel(sqrt: real -> real, id: string, nodes: Nodes, visiting: set<string>)
    requires Grounded(nodes) && KindsOk(nodes) && id in nodes && id !in visiting && IsCopy(nodes[id].kind)
    ensures nodes[id].kind.source in nodes
    ensures GeometryCorners(sqrt, id, nodes, visiting)
         == FromSource(nodes[id].kind, GeometryCorners(sqrt, nodes[id].kind.source, nodes, visiting + {id}))
  {
    SourcesKnown(id, nodes);
    CopySource(nodes[id].kind);
  }

  lemma {:induction false} CopySource(k: Kind)
    requires IsCopy(k)
    ensures k.source in NodeDependencies(k)
  {
  }

  lemma {:induction false} OperandsAreSources(k: Kind)
    requires k.Boolean?
    ensures k.left in NodeDependencies(k) && k.right in NodeDependencies(k)
    ensures k.left in CornerSources(k) && (!k.operation.Difference? ==> k.right in CornerSources(k))
  {
  }

  lemma {:induction false} BooleanLevel(sqrt: real -> real, id: string, nodes: Nodes, visiting: set<string>)
    requires Grounded(nodes) && KindsOk(nodes) && id in nodes && id !in visiting && nodes[id].kind.Boolean?
    ensures nodes[id].kind.left in nodes && nodes[id].kind.right in nodes
    ensures GeometryCorners(sqrt, id, nodes, visiting) ==
              FromOperands(nodes[id].kind.operation,
                PlacedOperand(nodes[id].kind.left, nodes, GeometryCorners(sqrt, nodes[id].kind.left, nodes, visiting + {id})),
                PlacedOperand(nodes[id].kind.right, nodes, GeometryCorners(sqrt, nodes[id].kind.right, nodes, visiting + {id})))
  {
    SourcesKnown(id, nodes);
    OperandsAreSources(nodes[id].kind);
  }

  // ----- the corner lists of the moved program

  function MoveResult(m: Motion, r: Result<seq<Vec3>>): (r': Result<seq<Vec3>>)
    ensures (r.Ok? ==> r.value != []) ==> r'.Ok? ==> r'.value != []
  {
    if r.Err? then r else Ok(MoveAll(m, r.value))
  }

  /** The same corners, placed by the moved program, are the placed corners moved. */
  lemma {:induction false} PlacedOperandMoves(id: string, nodes: Nodes, moves: Moves, corners: Result<seq<Vec3>>)
    requires Grounded(nodes) && id in nodes && RootsOnly(moves, nodes)
    requires corners.Ok? ==> corners.value != []
    ensures Grounded(MoveNodes(moves, nodes))
    ensures PlacedOperand(id, MoveNodes(moves, nodes), corners)
         == MoveResult(MotionOf(moves, Top(id, nodes)), PlacedOperand(id, nodes, corners))
  {
    MotionKeepsGraph(moves, nodes);
    if corners.Ok? {
      MatrixMoves(id, nodes, moves, corners.value);
    }
  }

  lemma {:induction false} MatrixMoves(id: string, nodes: Nodes, moves: Moves, points: seq<Vec3>)
    requires Grounded(nodes) && id in nodes && RootsOnly(moves, nodes)
    ensures Grounded(MoveNodes(moves, nodes))
    ensures MapPoints(WorldMatrix(id, MoveNodes(moves, nodes)), points)
         == MoveAll(MotionOf(moves, Top(id, nodes)), MapPoints(WorldMatrix(id, nodes), points))
  {
    MotionKeepsGraph(moves, nodes);
    var moved := MoveNodes(moves, nodes);
    var here, there := MapPoints(WorldMatrix(id, nodes), points), MapPoints(WorldMatrix(id, moved), points);
    forall i | 0 <= i < |points| ensures there[i] == Moved(MotionOf(moves, Top(id, nodes)), here[i]) {
      WorldMatrixPlaces(id, nodes, points[i]);
      WorldMatrixPlaces(id, moved, points[i]);
      PlacesMove(id, nodes, moves, points[i]);
    }
  }

  /** The corners of a node of the moved program, worked out from the program itself: only a
      boolean sees the motion, in the placement of its operands. */
  function CornersAfter(sqrt: real -> real, id: string, nodes: Nodes, moves: Moves, visiting: set<string>): (r: Result<seq<Vec3>>)
    requires Grounded(nodes) && KindsOk(nodes) && id in nodes
    ensures r.Ok? ==> r.value != []
    decreases nodes.Keys - visiting
  {
    if id in visiting then Err(ReferenceCycle)
    else
      SourcesKnown(id, nodes);
      var k, inner := nodes[id].kind, visiting + {id};
      if IsLeaf(k) then FromLeaf(sqrt, k, nodes)
      else if k.Boolean? then
        OperandsAreSources(k);
        FromOperands(k.operation,
          OperandAfter(k.left, nodes, moves, CornersAfter(sqrt, k.left, nodes, moves, inner)),
          OperandAfter(k.right, nodes, moves, CornersAfter(sqrt, k.right, nodes, moves, inner)))
      else
        CopySource(k);
        FromSource(k, CornersAfter(sqrt, k.source, nodes, moves, inner))
  }

  /** Corners placed, and then moved with their tree. */
  function OperandAfter(v: string, nodes: Nodes, moves: Moves, corners: Result<seq<Vec3>>): (r: Result<seq<Vec3>>)
    requires Grounded(nodes) && v in nodes && (corners.Ok? ==> corners.value != [])
    ensures r.Ok? ==> r.value != []
  {
    MoveResult(MotionOf(moves, Top(v, nodes)), PlacedOperand(v, nodes, corners))
  }

  lemma {:induction false} SameLeaf(sqrt: real -> real, k: Kind, nodes: Nodes, moves: Moves)
    requires IsLeaf(k) && KindOk(k) && NodeDependencies(k) <= nodes.Keys && KindsOk(nodes)
    ensures KindsOk(MoveNodes(moves, nodes))
    ensures FromLeaf(sqrt, k, MoveNodes(moves, nodes)) == FromLeaf(sqrt, k, nodes)
  {
    OutlineKept(k, nodes, moves);
  }

  lemma {:induction false} OutlineKept(k: Kind, nodes: Nodes, moves: Moves)
    requires NodeDependencies(k) <= nodes.Keys && KindsOk(nodes)
    ensures KindsOk(MoveNodes(moves, nodes))
    ensures OutlineFor(k, MoveNodes(moves, nodes)) == OutlineFor(k, nodes)
  {
  }

  lemma {:induction false} CornersMove(sqrt: real -> real, id: string, nodes: Nodes, moves: Moves, visiting: set<string>)
    requires Grounded(nodes) && KindsOk(nodes) && id in nodes && RootsOnly(moves, nodes)
    ensures Grounded(MoveNodes(moves, nodes)) && KindsOk(MoveNodes(moves, nodes))
    ensures GeometryCorners(sqrt, id, MoveNodes(moves, nodes), visiting) == CornersAfter(sqrt, id, nodes, moves, visiting)
    decreases nodes.Keys - visiting
  {
    MotionKeepsGraph(moves, nodes);
    if id !in visiting {
      SourcesKnown(id, nodes);
      var k, inner := nodes[id].kind, visiting + {id};
      if IsLeaf(k) {
        LeafMoves(sqrt, id, nodes, moves, visiting);
      } else if k.Boolean? {
        OperandsAreSources(k);
        CornersMove(sqrt, k.left, nodes, moves, inner);
        CornersMove(sqrt, k.right, nodes, moves, inner);
        BooleanMoves(sqrt, id, k.left, k.right, nodes, moves, visiting);
      } else {
        CopySource(k);
        CornersMove(sqrt, k.source, nodes, moves, inner);
        CopyLevel(sqrt, id, MoveNodes(moves, nodes), visiting);
      }
    }
  }

  lemma {:induction false} LeafMoves(sqrt: real -> real, id: string, nodes: Nodes, moves: Moves, visiting: set<string>)
    requires Grounded(nodes) && KindsOk(nodes) && id in nodes && id !in visiting && IsLeaf(nodes[id].kind)
    requires Grounded(MoveNodes(moves, nodes)) && KindsOk(MoveNodes(moves, nodes))
    ensures GeometryCorners(sqrt, id, MoveNodes(moves, nodes), visiting) == CornersAfter(sqrt, id, nodes, moves, visiting)
  {
    SourcesKnown(id, nodes);
    LeafLevel(sqrt, id, MoveNodes(moves, nodes), visiting);
    SameLeaf(sqrt, nodes[id].kind, nodes, moves);
  }

  lemma {:induction false} BooleanMoves(sqrt: real -> real, id: string, left: string, right: string, nodes: Nodes, moves: Moves, visiting: set<string>)
    requires Grounded(nodes) && KindsOk(nodes) && id in nodes && id !in visiting && RootsOnly(moves, nodes)
    requires nodes[id].kind.Boolean? && left == nodes[id].kind.left && right == nodes[id].kind.right
    requires left in nodes && right in nodes
    requires Grounded(MoveNodes(moves, nodes)) && KindsOk(MoveNodes(moves, nodes))
    requires GeometryCorners(sqrt, left, MoveNodes(moves, nodes), visiting + {id}) == CornersAfter(sqrt, left, nodes, moves, visiting + {id})
    requires GeometryCorners(sqrt, right, MoveNodes(moves, nodes), visiting + {id}) == CornersAfter(sqrt, right, nodes, moves, visiting + {id})
    ensures GeometryCorners(sqrt, id, MoveNodes(moves, nodes), visiting) == CornersAfter(sqrt, id, nodes, moves, visiting)
  {
    BooleanLevel(sqrt, id, MoveNodes(moves, nodes), visiting);
    PlacedOperandMoves(left, nodes, moves, CornersAfter(sqrt, left, nodes, moves, visiting + {id}));
    PlacedOperandMoves(right, nodes, moves, CornersAfter(sqrt, right, nodes, moves, visiting + {id}));
  }

  /** The placed corners of a node of the moved program. */
  function PlacedAfter(sqrt: real -> real, id: string, nodes: Nodes, moves: Moves): (r: Result<seq<Vec3>>)
    requires Grounded(nodes) && KindsOk(nodes) && id in nodes
    ensures r.Ok? ==> r.value != []
  {
    OperandAfter(id, nodes, moves, CornersAfter(sqrt, id, nodes, moves, {}))
  }

  lemma {:induction false} PlacedMove(sqrt: real -> real, id: string, nodes: Nodes, moves: Moves)
    requires Grounded(nodes) && KindsOk(nodes) && id in nodes && RootsOnly(moves, nodes)
    ensures Grounded(MoveNodes(moves, nodes)) && KindsOk(MoveNodes(moves, nodes))
    ensures PlacedCorners(sqrt, id, MoveNodes(moves, nodes)) == PlacedAfter(sqrt, id, nodes, moves)
  {
    CornersMove(sqrt, id, nodes, moves, {});
    PlacedOperandMoves(id, nodes, moves, CornersAfter(sqrt, id, nodes, moves, {}));
  }

  // ----- nodes whose local geometry the motion leaves alone

  /** The nodes whose corner lists go into a node's own. */
  function CornerSources(k: Kind): (sources: set<string>)
    ensures sources <= NodeDependencies(k)
  {
    if k.Boolean? && k.operation.Difference? then {k.left}
    else if IsLeaf(k) then {}
    else NodeDependencies(k)
  }

  /** No boolean that this node is made from bakes in the position of a moved tree. */
  ghost predicate Settled(id: string, nodes: Nodes, moved: set<string>)
    requires Grounded(nodes) && id in nodes
    decreases Rank(DependencyGraph(nodes))[id]
  {
    forall v :: v in CornerSources(nodes[id].kind) && v in nodes ==>
      && (nodes[id].kind.Boolean? ==> Top(v, nodes) !in moved)
      && (SourceIsBelow(id, nodes, v); Settled(v, nodes, moved))
  }

  lemma {:induction false} SourceIsBelow(id: string, nodes: Nodes, v: string)
    requires Grounded(nodes) && id in nodes && v in NodeDependencies(nodes[id].kind)
    ensures v in DependencyGraph(nodes)[id] && v in nodes
    ensures Rank(DependencyGraph(nodes))[v] < Rank(DependencyGraph(nodes))[id]
  {
  }

  ghost predicate SourcesSettled(id: string, nodes: Nodes, moved: set<string>)
    requires Grounded(nodes) && id in nodes
  {
    forall v :: v in CornerSources(nodes[id].kind) && v in nodes ==> Settled(v, nodes, moved)
  }

  lemma {:induction false} MoveAllStill(points: seq<Vec3>)
    ensures MoveAll(STILL, points) == points
  {
    forall i | 0 <= i < |points| ensures Moved(STILL, points[i]) == points[i] {
      StillMoves(points[i]);
    }
  }

  lemma {:induction false} StillOperand(v: string, nodes: Nodes, moves: Moves, corners: Result<seq<Vec3>>)
    requires Grounded(nodes) && v in nodes && (corners.Ok? ==> corners.value != [])
    requires Top(v, nodes) !in moves
    ensures OperandAfter(v, nodes, moves, corners) == PlacedOperand(v, nodes, corners)
  {
    if corners.Ok? {
      MoveAllStill(PlacedOperand(v, nodes, corners).value);
    }
  }

  lemma {:induction false} SameOperands(operation: BooleanOp, left: Result<seq<Vec3>>, right: Result<seq<Vec3>>,
                     left': Result<seq<Vec3>>, right': Result<seq<Vec3>>)
    requires (left.Ok? ==> left.value != []) && (right.Ok? ==> right.value != [])
    requires (left'.Ok? ==> left'.value != []) && (right'.Ok? ==> right'.value != [])
    requires left' == left && (!operation.Difference? ==> right' == right)
    ensures FromOperands(operation, left', right') == FromOperands(operation, left, right)
  {
  }

  /** The local geometry of a settled node is untouched by the motion. */
  lemma {:induction false} CornersKept(sqrt: real -> real, id: string, nodes: Nodes, moves: Moves, visiting: set<string>)
    requires Grounded(nodes) && KindsOk(nodes) && id in nodes && Settled(id, nodes, moves.Keys)
    ensures CornersAfter(sqrt, id, nodes, moves, visiting) == GeometryCorners(sqrt, id, nodes, visiting)
    decreases nodes.Keys - visiting
  {
    if id !in visiting {
      SourcesKnown(id, nodes);
      var k, inner := nodes[id].kind, visiting + {id};
      if IsLeaf(k) {
        LeafLevel(sqrt, id, nodes, visiting);
      } else if k.Boolean? {
        OperandsAreSources(k);
        CornersKept(sqrt, k.left, nodes, moves, inner);
        if !k.operation.Difference? {
          CornersKept(sqrt, k.right, nodes, moves, inner);
        }
        BooleanKept(sqrt, id, k.left, k.right, nodes, moves, visiting);
      } else {
        CopySource(k);
        CornersKept(sqrt, k.source, nodes, moves, inner);
        CopyLevel(sqrt, id, nodes, visiting);
      }
    }
  }

  lemma {:induction false} BooleanKept(sqrt: real -> real, id: string, left: string, right: string, nodes: Nodes, moves: Moves, visiting: set<string>)
    requires Grounded(nodes) && KindsOk(nodes) && id in nodes && id !in visiting
    requires nodes[id].kind.Boolean? && left == nodes[id].kind.left && right == nodes[id].kind.right
    requires left in nodes && right in nodes && Top(left, nodes) !in moves
    requires CornersAfter(sqrt, left, nodes, moves, visiting + {id}) == GeometryCorners(sqrt, left, nodes, visiting + {id})
    requires nodes[id].kind.operation.Difference? ||
             (&& Top(right, nodes) !in moves
              && CornersAfter(sqrt, right, nodes, moves, visiting + {id}) == GeometryCorners(sqrt, right, nodes, visiting + {id}))
    ensures CornersAfter(sqrt, id, nodes, moves, visiting) == GeometryCorners(sqrt, id, nodes, visiting)
  {
    var inner := visiting + {id};
    var leftCorners, rightCorners := CornersAfter(sqrt, left, nodes, moves, inner), CornersAfter(sqrt, right, nodes, moves, inner);
    BooleanLevel(sqrt, id, nodes, visiting);
    StillOperand(left, nodes, moves, leftCorners);
    if !nodes[id].kind.operation.Difference? {
      StillOperand(right, nodes, moves, rightCorners);
    }
    SameOperands(nodes[id].kind.operation,
                 PlacedOperand(left, nodes, leftCorners), PlacedOperand(right, nodes, GeometryCorners(sqrt, right, nodes, inner)),
                 OperandAfter(left, nodes, moves, leftCorners), OperandAfter(right, nodes, moves, rightCorners));
  }

  /** The placed corners of a settled node move with its tree. */
  lemma {:induction false} SettledMoves(sqrt: real -> real, id: string, nodes: Nodes, moves: Moves)
    requires Grounded(nodes) && KindsOk(nodes) && id in nodes && Settled(id, nodes, moves.Keys)
    ensures PlacedAfter(sqrt, id, nodes, moves) == MoveResult(MotionOf(moves, Top(id, nodes)), PlacedCorners(sqrt, id, nodes))
  {
    CornersKept(sqrt, id, nodes, moves, {});
  }

  // ----- booleans whose operands move together

  lemma {:induction false} OverlapMoves(m: Motion, a: Hull.Box, b: Hull.Box)
    requires m.ratio > 0.0
    ensures Overlap(MoveBox(m, a), MoveBox(m, b)) == MoveBox(m, Overlap(a, b))
    ensures Proper(MoveBox(m, Overlap(a, b))) <==> Proper(Overlap(a, b))
  {
    MovedAxes(m, a.min);
    MovedAxes(m, a.max);
    MovedAxes(m, b.min);
    MovedAxes(m, b.max);
    MovedAxes(m, Overlap(a, b).min);
    MovedAxes(m, Overlap(a, b).max);
    MulOrder(m.ratio, a.min.x, b.min.x);
    MulOrder(m.ratio, a.min.y, b.min.y);
    MulOrder(m.ratio, a.min.z, b.min.z);
    MulOrder(m.ratio, a.max.x, b.max.x);
    MulOrder(m.ratio, a.max.y, b.max.y);
    MulOrder(m.ratio, a.max.z, b.max.z);
    MulOrder(m.ratio, Overlap(a, b).min.x, Overlap(a, b).max.x);
    MulOrder(m.ratio, Overlap(a, b).min.y, Overlap(a, b).max.y);
    MulOrder(m.ratio, Overlap(a, b).min.z, Overlap(a, b).max.z);
  }

  lemma MulOrder(r: real, a: real, b: real)
    requires r > 0.0
    ensures a <= b <==> Mul(r, a) <= Mul(r, b)
  {
    if a <= b {
      MulLeq(r, a, b);
    } else {
      ScaleLess(r, b, a);
    }
  }

  lemma {:induction false} CornersOfMoved(m: Motion, b: Hull.Box)
    ensures BoundsCorners(MoveBox(m, b)) == MoveAll(m, BoundsCorners(b))
  {
    MovedAxes(m, b.min);
    MovedAxes(m, b.max);
    forall i | 0 <= i < 8 ensures BoundsCorners(MoveBox(m, b))[i] == Moved(m, BoundsCorners(b)[i]) {
      MovedAxes(m, BoundsCorners(b)[i]);
    }
  }

  /** If the operands of a boolean move alike, its corners move like them. */
  lemma {:induction false} FromOperandsMoves(operation: BooleanOp, left: Result<seq<Vec3>>, right: Result<seq<Vec3>>, m: Motion)
    requires (left.Ok? ==> left.value != []) && (right.Ok? ==> right.value != []) && m.ratio > 0.0
    ensures FromOperands(operation, MoveResult(m, left), MoveResult(m, right)) == MoveResult(m, FromOperands(operation, left, right))
  {
    if left.Ok? && right.Ok? && operation.Union? {
      MoveAllAppends(m, left.value, right.value);
    } else if left.Ok? && right.Ok? && operation.Intersection? {
      BoundsMove(m, left.value);
      BoundsMove(m, right.value);
      OverlapMoves(m, PointBounds(left.value), PointBounds(right.value));
      CornersOfMoved(m, Overlap(PointBounds(left.value), PointBounds(right.value)));
    }
  }

  /** The corner sources of a boolean all hang from roots with the motion m. */
  ghost predicate OperandsMove(id: string, nodes: Nodes, moves: Moves, m: Motion)
    requires Grounded(nodes) && id in nodes
  {
    forall v :: v in CornerSources(nodes[id].kind) && v in nodes ==> MotionOf(moves, Top(v, nodes)) == m
  }

  /** A boolean, whatever its operation, takes the motion of its operands' trees into its own
      local geometry. */
  lemma {:induction false} BooleanTakesMotion(sqrt: real -> real, id: string, nodes: Nodes, moves: Moves, m: Motion)
    requires Grounded(nodes) && KindsOk(nodes) && id in nodes && nodes[id].kind.Boolean?
    requires SourcesSettled(id, nodes, moves.Keys) && OperandsMove(id, nodes, moves, m) && m.ratio > 0.0
    ensures CornersAfter(sqrt, id, nodes, moves, {}) == MoveResult(m, GeometryCorners(sqrt, id, nodes, {}))
  {
    var k, inner := nodes[id].kind, {} + {id};
    SourcesKnown(id, nodes);
    OperandsAreSources(k);
    BooleanLevel(sqrt, id, nodes, {});
    CornersKept(sqrt, k.left, nodes, moves, inner);
    if !k.operation.Difference? {
      CornersKept(sqrt, k.right, nodes, moves, inner);
    }
    var left := PlacedOperand(k.left, nodes, GeometryCorners(sqrt, k.left, nodes, inner));
    var right := PlacedOperand(k.right, nodes, GeometryCorners(sqrt, k.right, nodes, inner));
    FromOperandsMoves(k.operation, left, right, m);
    SameOperands(k.operation, MoveResult(m, left), MoveResult(m, right),
                 OperandAfter(k.left, nodes, moves, CornersAfter(sqrt, k.left, nodes, moves, inner)),
                 OperandAfter(k.right, nodes, moves, CornersAfter(sqrt, k.right, nodes, moves, inner)));
  }

  /** So it takes that motion before its own placement, and its own tree's motion after it. */
  lemma {:induction false} BooleanMovesTwice(sqrt: real -> real, id: string, nodes: Nodes, moves: Moves, m: Motion)
    requires Grounded(nodes) && KindsOk(nodes) && id in nodes && nodes[id].kind.Boolean?
    requires SourcesSettled(id, nodes, moves.Keys) && OperandsMove(id, nodes, moves, m) && m.ratio > 0.0
    ensures PlacedAfter(sqrt, id, nodes, moves)
         == OperandAfter(id, nodes, moves, MoveResult(m, GeometryCorners(sqrt, id, nodes, {})))
  {
    BooleanTakesMotion(sqrt, id, nodes, moves, m);
  }

  // ----- the envelope

  /** The visible points of the moved program. */
  function MovedVisible(sqrt: real -> real, order: seq<string>, nodes: Nodes, hidden: set<string>, moves: Moves): Result<seq<Vec3>>
    requires Grounded(nodes) && KindsOk(nodes) && forall id :: id in order ==> id in nodes
  {
    if order == [] then Ok([])
    else
      var before :- MovedVisible(sqrt, order[..|order| - 1], nodes, hidden, moves);
      var id := order[|order| - 1];
      if id in hidden then Ok(before)
      else
        var points :- PlacedAfter(sqrt, id, nodes, moves);
        Ok(before + points)
  }

  lemma {:induction false} VisibleMove(sqrt: real -> real, order: seq<string>, nodes: Nodes, hidden: set<string>, moves: Moves)
    requires Grounded(nodes) && KindsOk(nodes) && forall id :: id in order ==> id in nodes
    requires RootsOnly(moves, nodes)
    ensures Grounded(MoveNodes(moves, nodes)) && KindsOk(MoveNodes(moves, nodes))
    ensures VisiblePoints(sqrt, order, MoveNodes(moves, nodes), hidden) == MovedVisible(sqrt, order, nodes, hidden, moves)
  {
    MotionKeepsGraph(moves, nodes);
    if order != [] {
      var init, last := order[..|order| - 1], order[|order| - 1];
      VisibleMove(sqrt, init, nodes, hidden, moves);
      PlacedMove(sqrt, last, nodes, moves);
    }
  }

  /** The bounds of the moved program, worked out from the program itself. */
  function MovedBounds(sqrt: real -> real, order: seq<string>, nodes: Nodes, hidden: set<string>, moves: Moves): Result<Hull.Box>
    requires Grounded(nodes) && KindsOk(nodes) && forall id :: id in order ==> id in nodes
  {
    var points :- MovedVisible(sqrt, order, nodes, hidden, moves);
    if points == [] then Err(NothingVisible) else Ok(PointBounds(points))
  }

  lemma {:induction false} BoundsAreMoved(sqrt: real -> real, order: seq<string>, nodes: Nodes, hidden: set<string>, moves: Moves)
    requires Grounded(nodes) && KindsOk(nodes) && forall id :: id in order ==> id in nodes
    requires RootsOnly(moves, nodes)
    ensures Grounded(MoveNodes(moves, nodes)) && KindsOk(MoveNodes(moves, nodes))
    ensures ProgramBounds(sqrt, order, MoveNodes(moves, nodes), hidden) == MovedBounds(sqrt, order, nodes, hidden, moves)
  {
    VisibleMove(sqrt, order, nodes, hidden, moves);
  }

  /** The visible nodes are settled and hang from roots with the motion m. */
  ghost predicate AllAlike(order: seq<string>, nodes: Nodes, hidden: set<string>, moves: Moves, m: Motion)
    requires Grounded(nodes) && forall id :: id in order ==> id in nodes
  {
    forall id :: id in order && id !in hidden ==> Settled(id, nodes, moves.Keys) && MotionOf(moves, Top(id, nodes)) == m
  }

  lemma {:induction false} SameMotion(sqrt: real -> real, order: seq<string>, nodes: Nodes, hidden: set<string>,
                                      moves: Moves, m: Motion)
    requires Grounded(nodes) && KindsOk(nodes) && forall id :: id in order ==> id in nodes
    requires AllAlike(order, nodes, hidden, moves, m)
    ensures MovedVisible(sqrt, order, nodes, hidden, moves) == MoveResult(m, VisiblePoints(sqrt, order, nodes, hidden))
  {
    if order != [] {
      var init, last := order[..|order| - 1], order[|order| - 1];
      SameMotion(sqrt, init, nodes, hidden, moves, m);
      if last !in hidden {
        SettledMoves(sqrt, last, nodes, moves);
        if VisiblePoints(sqrt, init, nodes, hidden).Ok? && PlacedCorners(sqrt, last, nodes).Ok? {
          MoveAllAppends(m, VisiblePoints(sqrt, init, nodes, hidden).value, PlacedCorners(sqrt, last, nodes).value);
        }
      }
    }
  }

  /** When all visible nodes move alike, so does the whole envelope. */
  lemma {:induction false} EnvelopeMoves(sqrt: real -> real, order: seq<string>, nodes: Nodes, hidden: set<string>, moves: Moves, m: Motion)
    requires Grounded(nodes) && KindsOk(nodes) && forall id :: id in order ==> id in nodes
    requires AllAlike(order, nodes, hidden, moves, m) && m.ratio > 0.0
    requires ProgramBounds(sqrt, order, nodes, hidden).Ok?
    ensures MovedBounds(sqrt, order, nodes, hidden, moves)
         == Ok(MoveBox(m, ProgramBounds(sqrt, order, nodes, hidden).value))
  {
    SameMotion(sqrt, order, nodes, hidden, moves, m);
    BoundsMove(m, VisiblePoints(sqrt, order, nodes, hidden).value);
  }
}
