/** The lift of visible roots to the ground. */
module GroundContact {
  import opened Affine
  import opened Hull
  import opened Graphs
  import opened Program
  import opened Envelope
  import opened Motions
  import opened MovedGeometry
  import opened VisibleBoxes
  import opened Validator
  import opened Repair
  import opened Fitting

  const LIFT_NOTE := "Aligned ground-contact visible root envelope(s) to Z=0."

  function Raise(height: real): Motion { Motion(1.0, Vec3(0.0, 0.0, height)) }

  predicate BelowGround(z: real) { z < -SLACK }

  /** Notes one more node: a visible root that reaches below the ground gets the height that
      lifts its lowest point to zero. */
  function NoteLift(sqrt: real -> real, moves: Moves, id: string, nodes: Nodes, hidden: set<string>): (r: Result<Moves>)
    requires Grounded(nodes) && KindsOk(nodes) && id in nodes
    ensures OnlyRaises(moves) && r.Ok? ==> OnlyRaises(r.value)
  {
    if id in hidden || nodes[id].parent.Some? then Ok(moves)
    else
      var box :- NodeBox(sqrt, id, nodes);
      Ok(if BelowGround(box.min.z) then moves[id := Raise(-box.min.z)] else moves)
  }

  predicate OnlyRaises(moves: Moves) { forall id :: id in moves ==> IsRaise(moves[id]) }

  function Lifts(sqrt: real -> real, order: seq<string>, nodes: Nodes, hidden: set<string>): Result<Moves>
    requires Grounded(nodes) && KindsOk(nodes) && forall id :: id in order ==> id in nodes
  {
    if order == [] then Ok(map[])
    else
      var before :- Lifts(sqrt, order[..|order| - 1], nodes, hidden);
      NoteLift(sqrt, before, order[|order| - 1], nodes, hidden)
  }

  function LiftsOf(sqrt: real -> real, p: GeometryProgram): Result<Moves>
    requires Grounded(ById(p.nodes)) && KindsOk(ById(p.nodes))
  {
    ByIdHolds(p.nodes);
    Lifts(sqrt, NodeOrder(p.nodes), ById(p.nodes), Members(p.construction))
  }

  /** What the pass leaves in the payload, or the error it stops with. */
  ghost function Lifted(sqrt: real -> real, required: bool, p: GeometryProgram): Result<GeometryProgram> {
    if !required || !Valid(sqrt, Unbounded(p)) then Ok(p)
    else
      StructureGrounds(Unbounded(p));
      var moves :- LiftsOf(sqrt, Unbounded(p));
      Ok(WithLifts(p, moves))
  }

  function WithLifts(p: GeometryProgram, moves: Moves): GeometryProgram {
    if moves == map[] || |p.adjustments| >= 16 then p else MoveProgram(moves, p, LIFT_NOTE)
  }

  // ----- the pass itself

  class Payload {
    var program: GeometryProgram

    constructor (p: GeometryProgram)
      ensures program == p
    {
      program := p;
    }

    /** `required` says that the texts of the request ask for ground contact. */
    method NormalizeGroundContact(sqrt: real -> real, required: bool) returns (failure: Option<Failure>)
      modifies this
      ensures match Lifted(sqrt, required, old(program))
              case Ok(after) => failure == None && program == after
              case Err(e) => failure == Some(e) && program == old(program)
    {
      if !required || !ProgramFieldsOk(program) {
        return None;
      }
      var candidate := Unbounded(program);
      var verdict := ValidateProgramGraph(sqrt, candidate);
      if verdict.Rejected? {
        return None;
      }
      StructureGrounds(candidate);
      var moves := VisibleRootLifts(sqrt, candidate);
      if moves.Err? {
        return Some(moves.error);
      }
      if moves.value == map[] || |program.adjustments| >= 16 {
        return None;
      }
      LiftNodes(moves.value);
      program := program.(adjustments := program.adjustments + [LIFT_NOTE]);
      return None;
    }

    method LiftNodes(moves: Moves)
      requires OnlyRaises(moves)
      modifies this
      ensures program == old(program).(nodes := MoveList(moves, old(program.nodes)))
    {
      ghost var nodes := program.nodes;
      for i := 0 to |program.nodes|
        invariant program == old(program).(nodes := program.nodes) && |program.nodes| == |nodes|
        invariant forall j :: 0 <= j < i ==> program.nodes[j] == MoveNode(moves, nodes[j])
        invariant forall j :: i <= j < |nodes| ==> program.nodes[j] == nodes[j]
      {
        var n := program.nodes[i];
        if n.id in moves {
          RaiseMoves(n.transform, moves[n.id]);
          program := program.(nodes := program.nodes[i := RaiseNode(n, moves[n.id].shift.z)]);
        }
      }
      assert program.nodes == MoveList(moves, nodes);
    }
  }

  predicate IsRaise(m: Motion) { m == Raise(m.shift.z) }

  function RaiseNode(n: Node, offset: real): Node {
    n.(transform := n.transform.(translation := n.transform.translation.(z := n.transform.translation.z + offset)))
  }

  lemma {:induction false} RaiseMoves(t: Transform, m: Motion)
    requires IsRaise(m)
    ensures MoveTransform(m, t) == t.(translation := t.translation.(z := t.translation.z + m.shift.z))
  {
  }

  method VisibleRootLifts(sqrt: real -> real, p: GeometryProgram) returns (r: Result<Moves>)
    requires Grounded(ById(p.nodes)) && KindsOk(ById(p.nodes))
    ensures r == LiftsOf(sqrt, p)
    ensures r.Ok? ==> OnlyRaises(r.value)
  {
    ByIdHolds(p.nodes);
    var order, nodes, hidden := NodeOrder(p.nodes), ById(p.nodes), Members(p.construction);
    r := Ok(map[]);
    for i := 0 to |order|
      invariant r.Ok? && r == Lifts(sqrt, order[..i], nodes, hidden) && OnlyRaises(r.value)
    {
      LiftsGrow(sqrt, order, nodes, hidden, i);
      r := NoteLift(sqrt, r.value, order[i], nodes, hidden);
      if r.Err? {
        LiftFails(sqrt, order, nodes, hidden, i + 1);
        return;
      }
    }
    assert order[..|order|] == order;
  }

  lemma {:induction false} LiftsGrow(sqrt: real -> real, order: seq<string>, nodes: Nodes, hidden: set<string>, i: nat)
    requires Grounded(nodes) && KindsOk(nodes) && (forall id :: id in order ==> id in nodes) && i < |order|
    requires Lifts(sqrt, order[..i], nodes, hidden).Ok?
    ensures Lifts(sqrt, order[..i + 1], nodes, hidden)
         == NoteLift(sqrt, Lifts(sqrt, order[..i], nodes, hidden).value, order[i], nodes, hidden)
  {
    assert order[..i + 1][..i] == order[..i];
  }

  lemma {:induction false} LiftFails(sqrt: real -> real, order: seq<string>, nodes: Nodes, hidden: set<string>, k: nat)
    requires Grounded(nodes) && KindsOk(nodes) && (forall id :: id in order ==> id in nodes) && k <= |order|
    requires Lifts(sqrt, order[..k], nodes, hidden).Err?
    ensures Lifts(sqrt, order, nodes, hidden) == Lifts(sqrt, order[..k], nodes, hidden)
    decreases |order|
  {
    if k == |order| {
      assert order[..k] == order;
    } else {
      assert order[..|order| - 1][..k] == order[..k];
      LiftFails(sqrt, order[..|order| - 1], nodes, hidden, k);
    }
  }

  // ----- what it achieves

  predicate IsVisibleRoot(id: string, nodes: Nodes, hidden: set<string>) {
    id in nodes && id !in hidden && nodes[id].parent.None?
  }

  /** The root was below the ground, and is lifted by its depth. */
  predicate GoodLift(sqrt: real -> real, id: string, m: Motion, nodes: Nodes, hidden: set<string>)
    requires Grounded(nodes) && KindsOk(nodes)
  {
    && IsVisibleRoot(id, nodes, hidden)
    && var box := NodeBox(sqrt, id, nodes);
       box.Ok? && BelowGround(box.value.min.z) && m == Raise(-box.value.min.z)
  }

  predicate Noted(sqrt: real -> real, id: string, nodes: Nodes, moves: Moves)
    requires Grounded(nodes) && KindsOk(nodes) && id in nodes
  {
    var box := NodeBox(sqrt, id, nodes);
    box.Ok? && (BelowGround(box.value.min.z) ==> id in moves)
  }

  ghost predicate GoodLifts(sqrt: real -> real, moves: Moves, nodes: Nodes, hidden: set<string>)
    requires Grounded(nodes) && KindsOk(nodes)
  {
    forall id :: id in moves ==> GoodLift(sqrt, id, moves[id], nodes, hidden)
  }

  lemma {:induction false} NoteLiftKeeps(sqrt: real -> real, moves: Moves, id: string, nodes: Nodes, hidden: set<string>, noted: Moves)
    requires Grounded(nodes) && KindsOk(nodes) && id in nodes && GoodLifts(sqrt, moves, nodes, hidden)
    requires NoteLift(sqrt, moves, id, nodes, hidden) == Ok(noted)
    ensures GoodLifts(sqrt, noted, nodes, hidden)
    ensures forall v :: v in nodes && Noted(sqrt, v, nodes, moves) ==> Noted(sqrt, v, nodes, noted)
    ensures IsVisibleRoot(id, nodes, hidden) ==> Noted(sqrt, id, nodes, noted)
  {
    NoteLiftIs(sqrt, moves, id, nodes, hidden, noted);
    if noted != moves {
      LiftAdds(sqrt, moves, id, noted[id], nodes, hidden);
    }
  }

  lemma {:induction false} NoteLiftIs(sqrt: real -> real, moves: Moves, id: string, nodes: Nodes, hidden: set<string>, noted: Moves)
    requires Grounded(nodes) && KindsOk(nodes) && id in nodes
    requires NoteLift(sqrt, moves, id, nodes, hidden) == Ok(noted)
    ensures noted == moves || (id in noted && noted == moves[id := noted[id]] && GoodLift(sqrt, id, noted[id], nodes, hidden))
    ensures IsVisibleRoot(id, nodes, hidden) ==> Noted(sqrt, id, nodes, noted)
  {
  }

  lemma {:induction false} LiftAdds(sqrt: real -> real, moves: Moves, id: string, m: Motion, nodes: Nodes, hidden: set<string>)
    requires Grounded(nodes) && KindsOk(nodes) && GoodLifts(sqrt, moves, nodes, hidden) && GoodLift(sqrt, id, m, nodes, hidden)
    ensures GoodLifts(sqrt, moves[id := m], nodes, hidden)
    ensures forall v :: v in nodes && Noted(sqrt, v, nodes, moves) ==> Noted(sqrt, v, nodes, moves[id := m])
  {
  }

  ghost predicate AllNoted(sqrt: real -> real, order: seq<string>, nodes: Nodes, hidden: set<string>, moves: Moves)
    requires Grounded(nodes) && KindsOk(nodes)
  {
    forall id :: id in order && IsVisibleRoot(id, nodes, hidden) ==> Noted(sqrt, id, nodes, moves)
  }

  /** The lifts of a node list: all of them due, and none missing. */
  ghost predicate LiftsFit(sqrt: real -> real, order: seq<string>, nodes: Nodes, hidden: set<string>, moves: Moves)
    requires Grounded(nodes) && KindsOk(nodes)
  {
    GoodLifts(sqrt, moves, nodes, hidden) && AllNoted(sqrt, order, nodes, hidden, moves)
  }

  lemma {:induction false} LiftsFitGrows(sqrt: real -> real, order: seq<string>, id: string, nodes: Nodes, hidden: set<string>, moves: Moves)
    requires Grounded(nodes) && KindsOk(nodes) && id in nodes
    requires LiftsFit(sqrt, order, nodes, hidden, moves)
    requires NoteLift(sqrt, moves, id, nodes, hidden).Ok?
    ensures LiftsFit(sqrt, order + [id], nodes, hidden, NoteLift(sqrt, moves, id, nodes, hidden).value)
  {
    NoteLiftKeeps(sqrt, moves, id, nodes, hidden, NoteLift(sqrt, moves, id, nodes, hidden).value);
  }

  lemma {:induction false} LiftsAre(sqrt: real -> real, order: seq<string>, nodes: Nodes, hidden: set<string>)
    requires Grounded(nodes) && KindsOk(nodes) && (forall id :: id in order ==> id in nodes)
    requires Lifts(sqrt, order, nodes, hidden).Ok?
    ensures LiftsFit(sqrt, order, nodes, hidden, Lifts(sqrt, order, nodes, hidden).value)
  {
    if order != [] {
      var init, last := order[..|order| - 1], order[|order| - 1];
      LiftsAre(sqrt, init, nodes, hidden);
      LiftsFitGrows(sqrt, init, last, nodes, hidden, Lifts(sqrt, init, nodes, hidden).value);
      assert order == init + [last];
    }
  }

  function RaiseBox(b: Hull.Box, height: real): Hull.Box {
    Hull.Box(b.min.(z := b.min.z + height), b.max.(z := b.max.z + height))
  }

  function HeightOf(moves: Moves, id: string): real { MotionOf(moves, id).shift.z }

  lemma {:induction false} RaisedPoint(m: Motion, p: Vec3)
    requires IsRaise(m)
    ensures Moved(m, p) == p.(z := p.z + m.shift.z)
  {
  }

  /** Every point of every node rises with its topmost ancestor, by that root's lift. */
  lemma {:induction false} PlacesRise(id: string, nodes: Nodes, moves: Moves, p: Vec3)
    requires Grounded(nodes) && id in nodes && RootsOnly(moves, nodes) && OnlyRaises(moves)
    ensures Grounded(MoveNodes(moves, nodes))
    ensures var before := Place(id, nodes, p);
            Place(id, MoveNodes(moves, nodes), p) == before.(z := before.z + HeightOf(moves, Top(id, nodes)))
  {
    PlacesMove(id, nodes, moves, p);
    RaisedPoint(MotionOf(moves, Top(id, nodes)), Place(id, nodes, p));
  }

  lemma {:induction false} RaisedBounds(m: Motion, points: seq<Vec3>)
    requires points != [] && IsRaise(m)
    ensures PointBounds(MoveAll(m, points)) == RaiseBox(PointBounds(points), m.shift.z)
  {
    BoundsMove(m, points);
    RaisedPoint(m, PointBounds(points).min);
    RaisedPoint(m, PointBounds(points).max);
  }

  /** The box of a settled node rises by the lift of its topmost ancestor. */
  lemma {:induction false} SettledBoxRises(sqrt: real -> real, id: string, nodes: Nodes, moves: Moves)
    requires Grounded(nodes) && KindsOk(nodes) && id in nodes && Settled(id, nodes, moves.Keys)
    requires OnlyRaises(moves) && NodeBox(sqrt, id, nodes).Ok?
    ensures BoxAfter(sqrt, id, nodes, moves) == Ok(RaiseBox(NodeBox(sqrt, id, nodes).value, HeightOf(moves, Top(id, nodes))))
  {
    SettledMoves(sqrt, id, nodes, moves);
    RaisedBounds(MotionOf(moves, Top(id, nodes)), PlacedCorners(sqrt, id, nodes).value);
  }

  ghost predicate EveryRootNoted(sqrt: real -> real, nodes: Nodes, hidden: set<string>, moves: Moves)
    requires Grounded(nodes) && KindsOk(nodes)
  {
    forall id :: IsVisibleRoot(id, nodes, hidden) ==> Noted(sqrt, id, nodes, moves)
  }

  lemma {:induction false} LiftsKeepRoots(sqrt: real -> real, p: GeometryProgram)
    requires UniqueIds(p.nodes) && Grounded(ById(p.nodes)) && KindsOk(ById(p.nodes)) && LiftsOf(sqrt, p).Ok?
    ensures var moves, nodes, hidden := LiftsOf(sqrt, p).value, ById(p.nodes), Members(p.construction);
            && RootsOnly(moves, nodes) && OnlyRaises(moves) && moves.Keys !! hidden
            && GoodLifts(sqrt, moves, nodes, hidden)
            && EveryRootNoted(sqrt, nodes, hidden, moves)
  {
    ByIdHolds(p.nodes);
    EveryIdListed(p.nodes);
    LiftsAre(sqrt, NodeOrder(p.nodes), ById(p.nodes), Members(p.construction));
  }

  /** The root's box after the pass: raised to the ground exactly if it was below it, and
      otherwise untouched. */
  predicate RootGrounded(sqrt: real -> real, id: string, nodes: Nodes, moves: Moves)
    requires Grounded(nodes) && KindsOk(nodes) && id in nodes
  {
    var before, now := NodeBox(sqrt, id, nodes), BoxAfter(sqrt, id, nodes, moves);
    && before.Ok?
    && now == Ok(RaiseBox(before.value, if BelowGround(before.value.min.z) then -before.value.min.z else 0.0))
    && !BelowGround(now.value.min.z)
  }

  lemma {:induction false} LiftHeight(sqrt: real -> real, id: string, nodes: Nodes, hidden: set<string>, moves: Moves)
    requires Grounded(nodes) && KindsOk(nodes) && id in nodes
    requires GoodLifts(sqrt, moves, nodes, hidden) && Noted(sqrt, id, nodes, moves)
    ensures NodeBox(sqrt, id, nodes).Ok?
    ensures var z := NodeBox(sqrt, id, nodes).value.min.z; HeightOf(moves, id) == if BelowGround(z) then -z else 0.0
  {
    if id in moves {
      assert GoodLift(sqrt, id, moves[id], nodes, hidden);
    }
  }

  lemma {:induction false} RootIsGrounded(sqrt: real -> real, id: string, nodes: Nodes, hidden: set<string>, moves: Moves)
    requires Grounded(nodes) && KindsOk(nodes) && id in nodes && nodes[id].parent.None?
    requires Settled(id, nodes, moves.Keys) && OnlyRaises(moves)
    requires GoodLifts(sqrt, moves, nodes, hidden) && Noted(sqrt, id, nodes, moves)
    ensures RootGrounded(sqrt, id, nodes, moves)
  {
    LiftHeight(sqrt, id, nodes, hidden, moves);
    SettledBoxRises(sqrt, id, nodes, moves);
    assert Top(id, nodes) == id;
  }

  /** After the pass the box of every visible root is the one worked out by BoxAfter; if the
      root is settled, its own lowest point is at zero if it was below, and otherwise where it
      was. */
  lemma {:induction false} LiftGrounds(sqrt: real -> real, p: GeometryProgram)
    requires Valid(sqrt, Unbounded(p)) && |p.adjustments| < 16
    requires Grounded(ById(p.nodes)) && KindsOk(ById(p.nodes)) && LiftsOf(sqrt, p).Ok?
    ensures Lifted(sqrt, true, p).Ok?
    ensures var q, moves := Lifted(sqrt, true, p).value, LiftsOf(sqrt, p).value;
            && Grounded(ById(q.nodes)) && KindsOk(ById(q.nodes)) && ById(q.nodes).Keys == ById(p.nodes).Keys
            && forall id :: IsVisibleRoot(id, ById(p.nodes), Members(p.construction)) ==>
                 && NodeBox(sqrt, id, ById(q.nodes)) == BoxAfter(sqrt, id, ById(p.nodes), moves)
                 && (Settled(id, ById(p.nodes), moves.Keys) ==> RootGrounded(sqrt, id, ById(p.nodes), moves))
  {
    var moves, nodes := LiftsOf(sqrt, p).value, ById(p.nodes);
    LiftedUnfolds(sqrt, p);
    LiftsKeepRoots(sqrt, p);
    LiftedNodes(p, moves);
    MotionKeepsGraph(moves, nodes);
    forall id | IsVisibleRoot(id, nodes, Members(p.construction))
      ensures NodeBox(sqrt, id, MoveNodes(moves, nodes)) == BoxAfter(sqrt, id, nodes, moves)
      ensures Settled(id, nodes, moves.Keys) ==> RootGrounded(sqrt, id, nodes, moves)
    {
      NodeBoxMoves(sqrt, id, nodes, moves);
      if Settled(id, nodes, moves.Keys) {
        RootIsGrounded(sqrt, id, nodes, Members(p.construction), moves);
      }
    }
  }

  lemma {:induction false} LiftedUnfolds(sqrt: real -> real, p: GeometryProgram)
    requires Valid(sqrt, Unbounded(p)) && Grounded(ById(p.nodes)) && KindsOk(ById(p.nodes))
    ensures Lifted(sqrt, true, p)
         == if LiftsOf(sqrt, p).Err? then Err(LiftsOf(sqrt, p).error) else Ok(WithLifts(p, LiftsOf(sqrt, p).value))
  {
    assert LiftsOf(sqrt, Unbounded(p)) == LiftsOf(sqrt, p);
  }

  lemma {:induction false} LiftedNodes(p: GeometryProgram, moves: Moves)
    requires |p.adjustments| < 16
    ensures ById(WithLifts(p, moves).nodes) == MoveNodes(moves, ById(p.nodes))
    ensures NodeOrder(WithLifts(p, moves).nodes) == NodeOrder(p.nodes)
  {
    if moves == map[] {
      assert MoveNodes(moves, ById(p.nodes)) == ById(p.nodes);
    } else {
      ByIdMoves(moves, p.nodes);
      IdsKept(moves, p.nodes);
    }
  }

  lemma {:induction false} NothingToLift(sqrt: real -> real, order: seq<string>, nodes: Nodes, hidden: set<string>)
    requires Grounded(nodes) && KindsOk(nodes) && (forall id :: id in order ==> id in nodes)
    requires forall id :: id in order && IsVisibleRoot(id, nodes, hidden) ==> Stands(sqrt, id, nodes)
    ensures Lifts(sqrt, order, nodes, hidden) == Ok(map[])
  {
    if order != [] {
      var init, last := order[..|order| - 1], order[|order| - 1];
      assert last in order && forall id :: id in init ==> id in order;
      NothingToLift(sqrt, init, nodes, hidden);
      NoLift(sqrt, last, nodes, hidden);
    }
  }

  lemma {:induction false} NoLift(sqrt: real -> real, id: string, nodes: Nodes, hidden: set<string>)
    requires Grounded(nodes) && KindsOk(nodes) && id in nodes
    requires IsVisibleRoot(id, nodes, hidden) ==> Stands(sqrt, id, nodes)
    ensures NoteLift(sqrt, map[], id, nodes, hidden) == Ok(map[])
  {
  }

  /** The lifts can be worked out exactly when every visible root can be measured. */
  lemma {:induction false} LiftsOkIff(sqrt: real -> real, order: seq<string>, nodes: Nodes, hidden: set<string>)
    requires Grounded(nodes) && KindsOk(nodes) && (forall id :: id in order ==> id in nodes)
    ensures Lifts(sqrt, order, nodes, hidden).Ok? <==>
              forall id :: id in order && IsVisibleRoot(id, nodes, hidden) ==> NodeBox(sqrt, id, nodes).Ok?
  {
    if order != [] {
      var init, last := order[..|order| - 1], order[|order| - 1];
      LiftsOkIff(sqrt, init, nodes, hidden);
      assert order == init + [last];
    }
  }

  /** The node's own geometry is at the ground or above. */
  predicate Stands(sqrt: real -> real, id: string, nodes: Nodes)
    requires Grounded(nodes) && KindsOk(nodes) && id in nodes
  {
    NodeBox(sqrt, id, nodes).Ok? && !BelowGround(NodeBox(sqrt, id, nodes).value.min.z)
  }

  predicate StandsAfter(sqrt: real -> real, id: string, nodes: Nodes, moves: Moves)
    requires Grounded(nodes) && KindsOk(nodes) && id in nodes
  {
    BoxAfter(sqrt, id, nodes, moves).Ok? && !BelowGround(BoxAfter(sqrt, id, nodes, moves).value.min.z)
  }

  lemma {:induction false} NoLiftsIff(sqrt: real -> real, order: seq<string>, nodes: Nodes, hidden: set<string>)
    requires Grounded(nodes) && KindsOk(nodes) && (forall id :: id in order ==> id in nodes)
    ensures Lifts(sqrt, order, nodes, hidden) == Ok(map[]) <==>
              forall id :: id in order && IsVisibleRoot(id, nodes, hidden) ==> Stands(sqrt, id, nodes)
  {
    if forall id :: id in order && IsVisibleRoot(id, nodes, hidden) ==> Stands(sqrt, id, nodes) {
      NothingToLift(sqrt, order, nodes, hidden);
    }
    if Lifts(sqrt, order, nodes, hidden) == Ok(map[]) {
      LiftsAre(sqrt, order, nodes, hidden);
      forall id | id in order && IsVisibleRoot(id, nodes, hidden) ensures Stands(sqrt, id, nodes) {
        assert Noted(sqrt, id, nodes, map[]);
      }
    }
  }

  /** Every visible root stands on or above the ground after the pass. */
  ghost predicate AllStandAfter(sqrt: real -> real, p: GeometryProgram, moves: Moves)
    requires Grounded(ById(p.nodes)) && KindsOk(ById(p.nodes))
  {
    forall id :: IsVisibleRoot(id, ById(p.nodes), Members(p.construction)) ==> StandsAfter(sqrt, id, ById(p.nodes), moves)
  }

  ghost predicate AllMeasuredAfter(sqrt: real -> real, p: GeometryProgram, moves: Moves)
    requires Grounded(ById(p.nodes)) && KindsOk(ById(p.nodes))
  {
    forall id :: IsVisibleRoot(id, ById(p.nodes), Members(p.construction)) ==> BoxAfter(sqrt, id, ById(p.nodes), moves).Ok?
  }

  lemma {:induction false} SecondLifts(sqrt: real -> real, p: GeometryProgram, moves: Moves)
    requires |p.adjustments| < 16
    requires Grounded(ById(p.nodes)) && KindsOk(ById(p.nodes)) && RootsOnly(moves, ById(p.nodes))
    ensures Grounded(ById(WithLifts(p, moves).nodes)) && KindsOk(ById(WithLifts(p, moves).nodes))
    ensures LiftsOf(sqrt, WithLifts(p, moves)) == Ok(map[]) <==> AllStandAfter(sqrt, p, moves)
    ensures LiftsOf(sqrt, WithLifts(p, moves)).Ok? <==> AllMeasuredAfter(sqrt, p, moves)
  {
    var order, nodes, hidden := NodeOrder(p.nodes), ById(p.nodes), Members(p.construction);
    OrderKnown(p.nodes);
    EveryIdListed(p.nodes);
    LiftedNodes(p, moves);
    MotionKeepsGraph(moves, nodes);
    LiftsByParts(sqrt, WithLifts(p, moves), order, MoveNodes(moves, nodes));
    LiftsOfMoved(sqrt, order, nodes, hidden, moves);
  }

  lemma {:induction false} LiftsByParts(sqrt: real -> real, q: GeometryProgram, order: seq<string>, nodes: Nodes)
    requires order == NodeOrder(q.nodes) && nodes == ById(q.nodes) && Grounded(nodes) && KindsOk(nodes)
    requires forall id :: id in order ==> id in nodes
    ensures LiftsOf(sqrt, q) == Lifts(sqrt, order, nodes, Members(q.construction))
  {
  }

  lemma {:induction false} LiftsOfMoved(sqrt: real -> real, order: seq<string>, nodes: Nodes, hidden: set<string>, moves: Moves)
    requires Grounded(nodes) && KindsOk(nodes) && RootsOnly(moves, nodes) && forall id :: id in order <==> id in nodes
    ensures Grounded(MoveNodes(moves, nodes)) && KindsOk(MoveNodes(moves, nodes))
    ensures Lifts(sqrt, order, MoveNodes(moves, nodes), hidden) == Ok(map[]) <==>
              forall id :: IsVisibleRoot(id, nodes, hidden) ==> StandsAfter(sqrt, id, nodes, moves)
    ensures Lifts(sqrt, order, MoveNodes(moves, nodes), hidden).Ok? <==>
              forall id :: IsVisibleRoot(id, nodes, hidden) ==> BoxAfter(sqrt, id, nodes, moves).Ok?
  {
    var moved := MoveNodes(moves, nodes);
    BoxesAfter(sqrt, nodes, moves);
    SameVisibleRoots(nodes, hidden, moves);
    NoLiftsIff(sqrt, order, moved, hidden);
    LiftsOkIff(sqrt, order, moved, hidden);
  }

  lemma {:induction false} SameVisibleRoots(nodes: Nodes, hidden: set<string>, moves: Moves)
    ensures forall id :: IsVisibleRoot(id, MoveNodes(moves, nodes), hidden) <==> IsVisibleRoot(id, nodes, hidden)
  {
  }

  lemma {:induction false} BoxesAfter(sqrt: real -> real, nodes: Nodes, moves: Moves)
    requires Grounded(nodes) && KindsOk(nodes) && RootsOnly(moves, nodes)
    ensures Grounded(MoveNodes(moves, nodes)) && KindsOk(MoveNodes(moves, nodes))
    ensures forall id :: id in nodes ==> NodeBox(sqrt, id, MoveNodes(moves, nodes)) == BoxAfter(sqrt, id, nodes, moves)
  {
    MotionKeepsGraph(moves, nodes);
    forall id | id in nodes ensures NodeBox(sqrt, id, MoveNodes(moves, nodes)) == BoxAfter(sqrt, id, nodes, moves) {
      NodeBoxMoves(sqrt, id, nodes, moves);
    }
  }

  /** Every visible root is settled. */
  ghost predicate RootsSettled(p: GeometryProgram, moved: set<string>)
    requires Grounded(ById(p.nodes))
  {
    forall id :: IsVisibleRoot(id, ById(p.nodes), Members(p.construction)) ==> Settled(id, ById(p.nodes), moved)
  }

  lemma {:induction false} SettledStand(sqrt: real -> real, p: GeometryProgram)
    requires UniqueIds(p.nodes) && Grounded(ById(p.nodes)) && KindsOk(ById(p.nodes)) && LiftsOf(sqrt, p).Ok?
    requires RootsSettled(p, LiftsOf(sqrt, p).value.Keys)
    ensures AllStandAfter(sqrt, p, LiftsOf(sqrt, p).value)
  {
    var moves, nodes := LiftsOf(sqrt, p).value, ById(p.nodes);
    LiftsKeepRoots(sqrt, p);
    forall id | IsVisibleRoot(id, nodes, Members(p.construction)) ensures StandsAfter(sqrt, id, nodes, moves) {
      RootIsGrounded(sqrt, id, nodes, Members(p.construction), moves);
    }
  }

  ghost predicate AllInReach(p: GeometryProgram, moves: Moves) {
    forall id :: id in moves && id in ById(p.nodes) ==> InReach(p, moves, id)
  }

  /** The second pass leaves the lifted program alone: its roots stand, or, when there is no
      room for another note, can at least be measured. */
  ghost predicate SecondIsIdle(sqrt: real -> real, p: GeometryProgram, moves: Moves)
    requires Grounded(ById(p.nodes)) && KindsOk(ById(p.nodes))
  {
    if |p.adjustments| < 15 then AllStandAfter(sqrt, p, moves) else AllMeasuredAfter(sqrt, p, moves)
  }

  /** A second pass changes nothing exactly when the first one changed nothing, or left the
      validator's bounds, or left no visible root below the ground; settled roots it never
      leaves there. */
  lemma {:induction false} LiftIsIdempotent(sqrt: real -> real, p: GeometryProgram)
    requires Valid(sqrt, Unbounded(p)) && Grounded(ById(p.nodes)) && KindsOk(ById(p.nodes)) && LiftsOf(sqrt, p).Ok?
    ensures Lifted(sqrt, true, p).Ok?
    ensures var q, moves := Lifted(sqrt, true, p).value, LiftsOf(sqrt, p).value;
            Lifted(sqrt, true, q) == Ok(q) <==>
              (moves == map[] || |p.adjustments| >= 16 || !AllInReach(p, moves) || SecondIsIdle(sqrt, p, moves))
    ensures RootsSettled(p, LiftsOf(sqrt, p).value.Keys) ==> SecondIsIdle(sqrt, p, LiftsOf(sqrt, p).value)
  {
    var moves := LiftsOf(sqrt, p).value;
    MaximumIsSeparate(sqrt, Unbounded(p));
    LiftedUnfolds(sqrt, p);
    LiftsKeepRoots(sqrt, p);
    if RootsSettled(p, moves.Keys) {
      SettledStand(sqrt, p);
    }
    if moves != map[] && |p.adjustments| < 16 {
      MovedIsValid(sqrt, p, moves);
      SecondLifts(sqrt, p, moves);
      SecondOutcome(sqrt, WithLifts(p, moves));
    }
  }

  /** What a pass leaves alone. */
  lemma {:induction false} SecondOutcome(sqrt: real -> real, q: GeometryProgram)
    requires Grounded(ById(q.nodes)) && KindsOk(ById(q.nodes))
    ensures Lifted(sqrt, true, q) == Ok(q) <==>
              (|| !Valid(sqrt, Unbounded(q))
               || LiftsOf(sqrt, q) == Ok(map[])
               || (|q.adjustments| >= 16 && LiftsOf(sqrt, q).Ok?))
  {
    if Valid(sqrt, Unbounded(q)) {
      LiftedUnfolds(sqrt, q);
      LiftChanges(q);
    }
  }

  /** A pass that finds something to lift leaves one more note. */
  lemma {:induction false} LiftChanges(q: GeometryProgram)
    ensures forall moves :: WithLifts(q, moves) == q <==> moves == map[] || |q.adjustments| >= 16
  {
    forall moves | moves != map[] && |q.adjustments| < 16 ensures WithLifts(q, moves) != q {
      assert |WithLifts(q, moves).adjustments| == |q.adjustments| + 1;
    }
  }

  // ----- the whole visible geometry

  /** The lowest of some points is at z0 or above exactly when all of them are. */
  lemma {:induction false} LowestIff(points: seq<Vec3>, z0: real)
    requires points != []
    ensures PointBounds(points).min.z >= z0 <==> AllAbove(points, z0)
  {
    var zs := Zs(points);
    assert forall i :: 0 <= i < |points| ==> zs[i] == points[i].z;
    var i :| 0 <= i < |zs| && zs[i] == Least(zs);
    assert points[i].z == PointBounds(points).min.z;
  }

  ghost predicate AllAbove(points: seq<Vec3>, z0: real) { forall i :: 0 <= i < |points| ==> points[i].z >= z0 }

  lemma {:induction false} VisibleAbove(sqrt: real -> real, order: seq<string>, nodes: Nodes, hidden: set<string>, moves: Moves)
    requires Grounded(nodes) && KindsOk(nodes) && forall id :: id in order ==> id in nodes
    requires MovedVisible(sqrt, order, nodes, hidden, moves).Ok?
    ensures AllAbove(MovedVisible(sqrt, order, nodes, hidden, moves).value, -SLACK) <==>
              forall id :: id in order && id !in hidden ==> StandsAfter(sqrt, id, nodes, moves)
  {
    var points := MovedVisible(sqrt, order, nodes, hidden, moves).value;
    if AllAbove(points, -SLACK) {
      forall id | id in order && id !in hidden ensures StandsAfter(sqrt, id, nodes, moves) {
        VisibleStands(sqrt, order, nodes, hidden, moves, id);
      }
    }
    if forall id :: id in order && id !in hidden ==> StandsAfter(sqrt, id, nodes, moves) {
      forall i | 0 <= i < |points| ensures points[i].z >= -SLACK {
        var id := MovedVisibleFrom(sqrt, order, nodes, hidden, moves, points[i]);
        NodeAbove(sqrt, id, nodes, moves);
      }
    }
  }

  lemma {:induction false} VisibleStands(sqrt: real -> real, order: seq<string>, nodes: Nodes, hidden: set<string>, moves: Moves, id: string)
    requires Grounded(nodes) && KindsOk(nodes) && forall v :: v in order ==> v in nodes
    requires MovedVisible(sqrt, order, nodes, hidden, moves).Ok? && id in order && id !in hidden
    requires AllAbove(MovedVisible(sqrt, order, nodes, hidden, moves).value, -SLACK)
    ensures StandsAfter(sqrt, id, nodes, moves)
  {
    MovedVisibleHolds(sqrt, order, nodes, hidden, moves, id, ZERO);
    var own := PlacedAfter(sqrt, id, nodes, moves).value;
    forall i | 0 <= i < |own| ensures own[i].z >= -SLACK {
      MovedVisibleHolds(sqrt, order, nodes, hidden, moves, id, own[i]);
    }
    NodeAbove(sqrt, id, nodes, moves);
  }

  lemma {:induction false} NodeAbove(sqrt: real -> real, id: string, nodes: Nodes, moves: Moves)
    requires Grounded(nodes) && KindsOk(nodes) && id in nodes && PlacedAfter(sqrt, id, nodes, moves).Ok?
    ensures StandsAfter(sqrt, id, nodes, moves) <==> AllAbove(PlacedAfter(sqrt, id, nodes, moves).value, -SLACK)
  {
    LowestIff(PlacedAfter(sqrt, id, nodes, moves).value, -SLACK);
  }

  /** What the ground policy asks for: after the pass the whole visible envelope is at the
      ground or above exactly when each visible node is, and a settled one is exactly when its
      lowest point, raised by the lift of its topmost ancestor, is. */
  lemma {:induction false} GroundPolicyIff(sqrt: real -> real, p: GeometryProgram)
    requires Valid(sqrt, Unbounded(p)) && |p.adjustments| < 16
    requires Grounded(ById(p.nodes)) && KindsOk(ById(p.nodes)) && LiftsOf(sqrt, p).Ok?
    ensures Lifted(sqrt, true, p).Ok?
    ensures Grounded(ById(Lifted(sqrt, true, p).value.nodes)) && KindsOk(ById(Lifted(sqrt, true, p).value.nodes))
    ensures var bounds, moves := BoundsOf(sqrt, Lifted(sqrt, true, p).value), LiftsOf(sqrt, p).value;
            bounds.Ok? ==>
              (!BelowGround(bounds.value.min.z) <==>
                 forall id :: id in ById(p.nodes) && id !in Members(p.construction) ==> StandsAfter(sqrt, id, ById(p.nodes), moves))
    ensures SettledStandIff(sqrt, ById(p.nodes), LiftsOf(sqrt, p).value)
  {
    var moves, nodes := LiftsOf(sqrt, p).value, ById(p.nodes);
    LiftedUnfolds(sqrt, p);
    LiftsKeepRoots(sqrt, p);
    LiftedNodes(p, moves);
    MotionKeepsGraph(moves, nodes);
    EnvelopeStandsIff(sqrt, p, moves);
    EachSettledStands(sqrt, nodes, moves);
  }

  /** A settled node stands after the pass exactly when its lowest point, raised by the lift of
      its topmost ancestor, is at the ground or above. */
  ghost predicate SettledStandIff(sqrt: real -> real, nodes: Nodes, moves: Moves)
    requires Grounded(nodes) && KindsOk(nodes)
  {
    forall id :: id in nodes && Settled(id, nodes, moves.Keys) && NodeBox(sqrt, id, nodes).Ok? ==>
      (StandsAfter(sqrt, id, nodes, moves) <==>
         !BelowGround(NodeBox(sqrt, id, nodes).value.min.z + HeightOf(moves, Top(id, nodes))))
  }

  lemma {:induction false} EachSettledStands(sqrt: real -> real, nodes: Nodes, moves: Moves)
    requires Grounded(nodes) && KindsOk(nodes) && RootsOnly(moves, nodes) && OnlyRaises(moves)
    ensures SettledStandIff(sqrt, nodes, moves)
  {
    forall id | id in nodes && Settled(id, nodes, moves.Keys) && NodeBox(sqrt, id, nodes).Ok?
      ensures StandsAfter(sqrt, id, nodes, moves) <==>
                !BelowGround(NodeBox(sqrt, id, nodes).value.min.z + HeightOf(moves, Top(id, nodes)))
    {
      SettledBoxRises(sqrt, id, nodes, moves);
    }
  }

  lemma {:induction false} EnvelopeStandsIff(sqrt: real -> real, p: GeometryProgram, moves: Moves)
    requires |p.adjustments| < 16 && Grounded(ById(p.nodes)) && KindsOk(ById(p.nodes)) && RootsOnly(moves, ById(p.nodes))
    ensures Grounded(ById(WithLifts(p, moves).nodes)) && KindsOk(ById(WithLifts(p, moves).nodes))
    ensures BoundsOf(sqrt, WithLifts(p, moves)).Ok? ==>
              (!BelowGround(BoundsOf(sqrt, WithLifts(p, moves)).value.min.z) <==>
                 forall id :: id in ById(p.nodes) && id !in Members(p.construction) ==> StandsAfter(sqrt, id, ById(p.nodes), moves))
  {
    var order, nodes, hidden := NodeOrder(p.nodes), ById(p.nodes), Members(p.construction);
    OrderKnown(p.nodes);
    EveryIdListed(p.nodes);
    LiftedNodes(p, moves);
    BoundsAreMoved(sqrt, order, nodes, hidden, moves);
    BoundsByParts(sqrt, WithLifts(p, moves), order, MoveNodes(moves, nodes));
    if MovedBounds(sqrt, order, nodes, hidden, moves).Ok? {
      VisibleAbove(sqrt, order, nodes, hidden, moves);
      LowestIff(MovedVisible(sqrt, order, nodes, hidden, moves).value, -SLACK);
    }
  }

  /** A boolean root whose operands hang from roots lifted alike is lifted twice: in its local
      geometry, before its own placement, and then by its own lift. */
  lemma {:induction false} OperandsLiftTwice(sqrt: real -> real, id: string, nodes: Nodes, moves: Moves, height: real)
    requires Grounded(nodes) && KindsOk(nodes) && id in nodes && nodes[id].kind.Boolean? && RootsOnly(moves, nodes)
    requires SourcesSettled(id, nodes, moves.Keys) && OperandsMove(id, nodes, moves, Raise(height))
    ensures Grounded(MoveNodes(moves, nodes)) && KindsOk(MoveNodes(moves, nodes))
    ensures PlacedCorners(sqrt, id, MoveNodes(moves, nodes)) ==
              OperandAfter(id, nodes, moves, MoveResult(Raise(height), GeometryCorners(sqrt, id, nodes, {})))
  {
    PlacedMove(sqrt, id, nodes, moves);
    BooleanMovesTwice(sqrt, id, nodes, moves, Raise(height));
  }

  /** The lifted program is valid exactly when no lift leaves the translation bound and, if the
      program has a maximum, the lifted boxes of its visible nodes are within it. A lift can
      pull a scene apart that fitted before. */
  lemma {:induction false} LiftedIsValid(sqrt: real -> real, p: GeometryProgram)
    requires Valid(sqrt, Unbounded(p)) && |p.adjustments| < 16
    requires Grounded(ById(p.nodes)) && KindsOk(ById(p.nodes)) && LiftsOf(sqrt, p).Ok?
    ensures Lifted(sqrt, true, p).Ok?
    ensures Valid(sqrt, Unbounded(Lifted(sqrt, true, p).value)) <==>
              AllInReach(p, LiftsOf(sqrt, p).value)
    ensures Valid(sqrt, Lifted(sqrt, true, p).value) <==>
              AllInReach(p, LiftsOf(sqrt, p).value) && LiftedFits(sqrt, p, LiftsOf(sqrt, p).value)
  {
    var moves := LiftsOf(sqrt, p).value;
    MaximumIsSeparate(sqrt, Unbounded(p));
    LiftedUnfolds(sqrt, p);
    LiftsKeepRoots(sqrt, p);
    if moves != map[] {
      MovedIsValid(sqrt, p, moves);
    }
    LiftedDimensions(sqrt, p, moves);
    ValidByParts(sqrt, WithLifts(p, moves));
  }

  /** The size limit of the program, on the boxes that the lift makes of its visible nodes. */
  ghost predicate LiftedFits(sqrt: real -> real, p: GeometryProgram, moves: Moves)
    requires Grounded(ById(p.nodes)) && KindsOk(ById(p.nodes))
  {
    p.maximum.Some? ==>
      && MaximumOk(p.maximum.value)
      && SpansFit(sqrt, ById(p.nodes), Members(p.construction), moves, p.maximum.value)
  }

  lemma {:induction false} LiftedDimensions(sqrt: real -> real, p: GeometryProgram, moves: Moves)
    requires |p.adjustments| < 16 && Grounded(ById(p.nodes)) && KindsOk(ById(p.nodes)) && RootsOnly(moves, ById(p.nodes))
    ensures Grounded(ById(WithLifts(p, moves).nodes)) && KindsOk(ById(WithLifts(p, moves).nodes))
    ensures DimensionsOk(sqrt, WithLifts(p, moves)) <==> LiftedFits(sqrt, p, moves)
  {
    var order, nodes, hidden := NodeOrder(p.nodes), ById(p.nodes), Members(p.construction);
    OrderKnown(p.nodes);
    EveryIdListed(p.nodes);
    LiftedNodes(p, moves);
    BoundsAreMoved(sqrt, order, nodes, hidden, moves);
    BoundsByParts(sqrt, WithLifts(p, moves), order, MoveNodes(moves, nodes));
    if p.maximum.Some? {
      SpansDecide(sqrt, order, nodes, hidden, moves, p.maximum.value);
    }
  }

  lemma {:induction false} ValidByParts(sqrt: real -> real, q: GeometryProgram)
    requires Grounded(ById(q.nodes)) && KindsOk(ById(q.nodes))
    ensures Valid(sqrt, q) <==> Valid(sqrt, Unbounded(q)) && DimensionsOk(sqrt, q)
  {
    if ProgramFieldsOk(q) {
      MaximumIsSeparate(sqrt, q);
    }
  }

  /** Every visible node is settled. */
  ghost predicate AllSettled(nodes: Nodes, hidden: set<string>, moved: set<string>)
    requires Grounded(nodes)
  {
    forall id :: Visible(id, nodes, hidden) ==> Settled(id, nodes, moved)
  }

  /** From the low sides of v to the high sides of u, each raised by the lift of its topmost
      ancestor, it is no further than the limit. */
  predicate RaisedFits(sqrt: real -> real, u: string, v: string, nodes: Nodes, moves: Moves, limit: Vec3)
    requires Grounded(nodes) && KindsOk(nodes) && u in nodes && v in nodes
  {
    && NodeBox(sqrt, u, nodes).Ok? && NodeBox(sqrt, v, nodes).Ok?
    && SpanFits(RaiseBox(NodeBox(sqrt, u, nodes).value, HeightOf(moves, Top(u, nodes))),
                RaiseBox(NodeBox(sqrt, v, nodes).value, HeightOf(moves, Top(v, nodes))), limit)
  }

  ghost predicate AllRaisedFit(sqrt: real -> real, nodes: Nodes, hidden: set<string>, moves: Moves, limit: Vec3)
    requires Grounded(nodes) && KindsOk(nodes)
  {
    && (exists id :: Visible(id, nodes, hidden))
    && forall u, v :: Visible(u, nodes, hidden) && Visible(v, nodes, hidden) ==> RaisedFits(sqrt, u, v, nodes, moves, limit)
  }

  /** On settled nodes the limit is a condition on the boxes that the nodes have: raised each
      by the lift of its topmost ancestor, and in X and Y where they are. */
  lemma {:induction false} LiftedSpans(sqrt: real -> real, nodes: Nodes, hidden: set<string>, moves: Moves, limit: Vec3)
    requires Grounded(nodes) && KindsOk(nodes) && OnlyRaises(moves) && AllSettled(nodes, hidden, moves.Keys)
    ensures SpansFit(sqrt, nodes, hidden, moves, limit) <==> AllRaisedFit(sqrt, nodes, hidden, moves, limit)
  {
    forall u, v | Visible(u, nodes, hidden) && Visible(v, nodes, hidden)
      ensures PairFits(sqrt, u, v, nodes, moves, limit) <==> RaisedFits(sqrt, u, v, nodes, moves, limit)
    {
      RaisedThen(sqrt, u, nodes, moves);
      RaisedThen(sqrt, v, nodes, moves);
    }
  }

  function RaiseBoxResult(b: Result<Hull.Box>, height: real): Result<Hull.Box> { if b.Err? then b else Ok(RaiseBox(b.value, height)) }

  lemma {:induction false} RaisedThen(sqrt: real -> real, id: string, nodes: Nodes, moves: Moves)
    requires Grounded(nodes) && KindsOk(nodes) && id in nodes && OnlyRaises(moves) && Settled(id, nodes, moves.Keys)
    ensures BoxThen(sqrt, id, nodes, moves) == RaiseBoxResult(NodeBox(sqrt, id, nodes), HeightOf(moves, Top(id, nodes)))
  {
    RaisedResult(MotionOf(moves, Top(id, nodes)), NodeBox(sqrt, id, nodes));
  }

  lemma {:induction false} RaisedResult(m: Motion, b: Result<Hull.Box>)
    requires IsRaise(m)
    ensures MoveBoxResult(m, b) == RaiseBoxResult(b, m.shift.z)
  {
    if b.Ok? {
      RaisedPoint(m, b.value.min);
      RaisedPoint(m, b.value.max);
    }
  }

  /** From the raised bottom of v to the raised top of u it is no further than the height. */
  predicate RisesWithin(sqrt: real -> real, u: string, v: string, nodes: Nodes, moves: Moves, height: real)
    requires Grounded(nodes) && KindsOk(nodes) && u in nodes && v in nodes
  {
    && NodeBox(sqrt, u, nodes).Ok? && NodeBox(sqrt, v, nodes).Ok?
    && (NodeBox(sqrt, u, nodes).value.max.z + HeightOf(moves, Top(u, nodes)))
         - (NodeBox(sqrt, v, nodes).value.min.z + HeightOf(moves, Top(v, nodes))) <= height + SLACK
  }

  ghost predicate AllRiseWithin(sqrt: real -> real, nodes: Nodes, hidden: set<string>, moves: Moves, height: real)
    requires Grounded(nodes) && KindsOk(nodes)
  {
    forall u, v :: Visible(u, nodes, hidden) && Visible(v, nodes, hidden) ==> RisesWithin(sqrt, u, v, nodes, moves, height)
  }

  /** A program that met its maximum still does so after the lift exactly when no visible top
      rises too far above a visible bottom. */
  lemma {:induction false} LiftKeepsLimit(sqrt: real -> real, p: GeometryProgram)
    requires Valid(sqrt, p) && p.maximum.Some? && |p.adjustments| < 16
    requires Grounded(ById(p.nodes)) && KindsOk(ById(p.nodes)) && LiftsOf(sqrt, p).Ok?
    requires AllSettled(ById(p.nodes), Members(p.construction), LiftsOf(sqrt, p).value.Keys)
    ensures Lifted(sqrt, true, p).Ok?
    ensures var moves := LiftsOf(sqrt, p).value;
            Valid(sqrt, Lifted(sqrt, true, p).value) <==>
              && AllInReach(p, moves)
              && AllRiseWithin(sqrt, ById(p.nodes), Members(p.construction), moves, p.maximum.value.z)
  {
    var moves := LiftsOf(sqrt, p).value;
    ValidByParts(sqrt, p);
    LiftedIsValid(sqrt, p);
    LiftsKeepRoots(sqrt, p);
    PresentSpans(sqrt, p);
    HeightsDecide(sqrt, ById(p.nodes), Members(p.construction), moves, p.maximum.value);
  }

  lemma {:induction false} PresentSpans(sqrt: real -> real, p: GeometryProgram)
    requires Grounded(ById(p.nodes)) && KindsOk(ById(p.nodes)) && p.maximum.Some? && DimensionsOk(sqrt, p)
    ensures SpansFit(sqrt, ById(p.nodes), Members(p.construction), map[], p.maximum.value)
  {
    OrderKnown(p.nodes);
    EveryIdListed(p.nodes);
    BoxesDecide(sqrt, NodeOrder(p.nodes), ById(p.nodes), Members(p.construction), p.maximum.value);
  }

  lemma {:induction false} HeightsDecide(sqrt: real -> real, nodes: Nodes, hidden: set<string>, moves: Moves, limit: Vec3)
    requires Grounded(nodes) && KindsOk(nodes) && SpansFit(sqrt, nodes, hidden, map[], limit)
    requires OnlyRaises(moves) && AllSettled(nodes, hidden, moves.Keys)
    ensures SpansFit(sqrt, nodes, hidden, moves, limit) <==> AllRiseWithin(sqrt, nodes, hidden, moves, limit.z)
  {
    LiftedSpans(sqrt, nodes, hidden, moves, limit);
    forall u, v | Visible(u, nodes, hidden) && Visible(v, nodes, hidden)
      ensures RaisedFits(sqrt, u, v, nodes, moves, limit) <==> RisesWithin(sqrt, u, v, nodes, moves, limit.z)
    {
      PresentPair(sqrt, u, v, nodes, limit);
    }
  }

  lemma {:induction false} PresentPair(sqrt: real -> real, u: string, v: string, nodes: Nodes, limit: Vec3)
    requires Grounded(nodes) && KindsOk(nodes) && u in nodes && v in nodes && PairFits(sqrt, u, v, nodes, map[], limit)
    ensures NodeBox(sqrt, u, nodes).Ok? && NodeBox(sqrt, v, nodes).Ok?
    ensures SpanFits(NodeBox(sqrt, u, nodes).value, NodeBox(sqrt, v, nodes).value, limit)
  {
    PresentBox(sqrt, u, nodes);
    PresentBox(sqrt, v, nodes);
  }

  lemma {:induction false} MovedIsValid(sqrt: real -> real, p: GeometryProgram, moves: Moves)
    requires ProgramFieldsOk(p) && StructureOk(p) && |p.adjustments| < 16
    requires OnlyRaises(moves) && moves.Keys !! Members(p.construction)
    ensures Valid(sqrt, Unbounded(MoveProgram(moves, p, LIFT_NOTE))) <==>
              AllInReach(p, moves)
  {
    var q := MoveProgram(moves, p, LIFT_NOTE);
    StructureKept(moves, p, LIFT_NOTE);
    if AllInReach(p, moves) {
      ReachIsEnough(p, moves);
      MaximumIsSeparate(sqrt, q);
    }
    if Valid(sqrt, Unbounded(q)) {
      ReachIsNeeded(p, moves);
    }
  }

  predicate InReach(p: GeometryProgram, moves: Moves, id: string)
    requires id in ById(p.nodes)
  {
    Abs(ById(p.nodes)[id].transform.translation.z + HeightOf(moves, id)) <= 1000.0
  }

  lemma {:induction false} ReachIsEnough(p: GeometryProgram, moves: Moves)
    requires ProgramFieldsOk(p) && UniqueIds(p.nodes) && |p.adjustments| < 16 && OnlyRaises(moves)
    requires AllInReach(p, moves)
    ensures ProgramFieldsOk(MoveProgram(moves, p, LIFT_NOTE))
  {
    ByIdHolds(p.nodes);
    forall n | n in p.nodes && n.id in moves ensures NodeOk(MoveNode(moves, n)) {
      assert InReach(p, moves, n.id);
      RaiseMoves(n.transform, moves[n.id]);
    }
    FieldsKept(moves, p, LIFT_NOTE);
  }

  lemma {:induction false} ReachIsNeeded(p: GeometryProgram, moves: Moves)
    requires UniqueIds(p.nodes) && OnlyRaises(moves) && ProgramFieldsOk(MoveProgram(moves, p, LIFT_NOTE))
    ensures AllInReach(p, moves)
  {
    ByIdHolds(p.nodes);
    forall id | id in moves && id in ById(p.nodes) ensures InReach(p, moves, id) {
      var n := ById(p.nodes)[id];
      MemberMoves(moves, p.nodes, n);
      RaiseMoves(n.transform, moves[id]);
    }
  }
}
