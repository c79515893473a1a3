/** The uniform fit of a program into its maximum dimensions. */
module Fitting {
  import opened Affine
  import opened Hull
  import opened Graphs
  import opened Program
  import opened Envelope
  import opened Motions
  import opened MovedGeometry
  import opened VisibleBoxes
  import opened Validator
  import opened Repair

  datatype Outcome = Unchanged | Fitted(program: GeometryProgram) | Raised(error: Failure)

  const FIT_NOTE := "Uniform scale applied by the deterministic envelope adapter."

  function Roots(nodes: seq<Node>, hidden: set<string>): seq<Node> {
    if nodes == [] then []
    else
      var before, last := Roots(nodes[..|nodes| - 1], hidden), nodes[|nodes| - 1];
      if VisibleRoot(last, hidden) then before + [last] else before
  }

  function Total(nodes: seq<Node>): Vec3 {
    if nodes == [] then ZERO else Add(Total(nodes[..|nodes| - 1]), nodes[|nodes| - 1].transform.translation)
  }

  /** The mean of the roots' translations. */
  function Pivot(roots: seq<Node>): Vec3
    requires roots != []
  {
    var sum, n := Total(roots), |roots| as real;
    Vec3(sum.x / n, sum.y / n, sum.z / n)
  }

  function AxisRatio(maximum: real, actual: real): seq<real> { if actual > 0.000000001 then [maximum / actual] else [] }

  function Ratios(maximum: Vec3, actual: Vec3): seq<real> {
    AxisRatio(maximum.x, actual.x) + AxisRatio(maximum.y, actual.y) + AxisRatio(maximum.z, actual.z)
  }

  function AxisAbout(pivot: real, v: real, r: real): real { pivot + (v - pivot) * r }

  /** The point that is r times as far from the pivot. */
  function AboutPivot(pivot: Vec3, p: Vec3, r: real): Vec3 {
    Vec3(AxisAbout(pivot.x, p.x, r), AxisAbout(pivot.y, p.y, r), AxisAbout(pivot.z, p.z, r))
  }

  /** The motion that takes every point there. */
  function FitMotion(pivot: Vec3, r: real): Motion { Motion(r, Subtract(pivot, Times(r, pivot))) }

  function RootMoves(nodes: seq<Node>, hidden: set<string>, m: Motion): Moves {
    map n | n in nodes && VisibleRoot(n, hidden) :: n.id := m
  }

  function FitTo(p: GeometryProgram, maximum: Vec3, actual: Vec3): Outcome {
    var hidden, ratios := Members(p.construction), Ratios(maximum, actual);
    if ratios == [] then Unchanged
    else
      var r, roots := Least(ratios), Roots(p.nodes, hidden);
      if r >= 1.0 || roots == [] then Unchanged
      else Fitted(MoveProgram(RootMoves(p.nodes, hidden, FitMotion(Pivot(roots), r)), p, FIT_NOTE))
  }

  lemma {:induction false} StructureGrounds(p: GeometryProgram)
    requires ProgramFieldsOk(p) && StructureOk(p)
    ensures Grounded(ById(p.nodes)) && KindsOk(ById(p.nodes))
  {
    FieldsCarryOver(p);
    ReferencesStayInside(p);
  }

  /** What the pass returns. */
  ghost function Fit(sqrt: real -> real, p: GeometryProgram): Outcome {
    if p.maximum.None? || !Valid(sqrt, Unbounded(p)) then Unchanged
    else
      StructureGrounds(Unbounded(p));
      var bounds := BoundsOf(sqrt, Unbounded(p));
      if bounds.Err? then Raised(bounds.error) else FitTo(p, p.maximum.value, Dimensions(bounds.value))
  }

  // ----- the pass itself

  lemma {:induction false} InRootMoves(nodes: seq<Node>, hidden: set<string>, m: Motion, n: Node)
    requires UniqueIds(nodes) && n in nodes
    ensures n.id in RootMoves(nodes, hidden, m) <==> VisibleRoot(n, hidden)
    ensures VisibleRoot(n, hidden) ==> RootMoves(nodes, hidden, m)[n.id] == m
  {
    if n.id in RootMoves(nodes, hidden, m) {
      var other :| other in nodes && VisibleRoot(other, hidden) && other.id == n.id;
      ByIdHolds(nodes);
    }
  }

  method ScaleRoots(nodes: seq<Node>, hidden: set<string>, pivot: Vec3, r: real) returns (scaled: seq<Node>)
    requires UniqueIds(nodes)
    ensures scaled == MoveList(RootMoves(nodes, hidden, FitMotion(pivot, r)), nodes)
  {
    scaled := nodes;
    for i := 0 to |nodes|
      invariant |scaled| == |nodes|
      invariant forall j :: 0 <= j < i ==> scaled[j] == ScaleIfRoot(nodes[j], hidden, pivot, r)
      invariant forall j :: i <= j < |nodes| ==> scaled[j] == nodes[j]
    {
      if VisibleRoot(scaled[i], hidden) {
        scaled := scaled[i := ScaleNode(scaled[i], pivot, r)];
      }
    }
    RootsAreScaled(nodes, hidden, pivot, r, scaled);
  }

  function ScaleIfRoot(n: Node, hidden: set<string>, pivot: Vec3, r: real): Node {
    if VisibleRoot(n, hidden) then ScaleNode(n, pivot, r) else n
  }

  lemma {:induction false} RootsAreScaled(nodes: seq<Node>, hidden: set<string>, pivot: Vec3, r: real, scaled: seq<Node>)
    requires UniqueIds(nodes) && |scaled| == |nodes|
    requires forall j :: 0 <= j < |nodes| ==> scaled[j] == ScaleIfRoot(nodes[j], hidden, pivot, r)
    ensures scaled == MoveList(RootMoves(nodes, hidden, FitMotion(pivot, r)), nodes)
  {
    var moved := MoveList(RootMoves(nodes, hidden, FitMotion(pivot, r)), nodes);
    forall i | 0 <= i < |nodes| ensures scaled[i] == moved[i] {
      InRootMoves(nodes, hidden, FitMotion(pivot, r), nodes[i]);
      ScaleNodeMoves(nodes[i], pivot, r);
    }
  }

  function ScaleNode(n: Node, pivot: Vec3, r: real): Node {
    var t := n.transform;
    n.(transform := t.(
      translation := AboutPivot(pivot, t.translation, r),
      scale := Vec3(t.scale.x * r, t.scale.y * r, t.scale.z * r)))
  }

  lemma {:induction false} ScaleNodeMoves(n: Node, pivot: Vec3, r: real)
    ensures ScaleNode(n, pivot, r) == n.(transform := MoveTransform(FitMotion(pivot, r), n.transform))
  {
    var t := n.transform;
    MotionIsAboutPivot(pivot, r, t.translation);
    TimesCommutes(t.scale, r);
  }

  lemma TimesCommutes(k: Vec3, r: real)
    ensures Times(r, k) == Vec3(k.x * r, k.y * r, k.z * r)
  {
    Commute(k.x, r);
    Commute(k.y, r);
    Commute(k.z, r);
  }

  lemma MotionIsAboutPivot(pivot: Vec3, r: real, p: Vec3)
    ensures Moved(FitMotion(pivot, r), p) == AboutPivot(pivot, p, r)
  {
    var m := FitMotion(pivot, r);
    MovedAxes(m, p);
    AxisIsAboutPivot(pivot.x, p.x, r, m.shift.x);
    AxisIsAboutPivot(pivot.y, p.y, r, m.shift.y);
    AxisIsAboutPivot(pivot.z, p.z, r, m.shift.z);
  }

  lemma AxisIsAboutPivot(pivot: real, v: real, r: real, shift: real)
    requires shift == pivot - r * pivot
    ensures AxisAbout(pivot, v, r) == Mul(r, v) + shift
  {
  }

  lemma Commute(a: real, b: real)
    ensures a * b == b * a
  {
  }

  method FitToMaximumDimensions(sqrt: real -> real, p: GeometryProgram) returns (o: Outcome)
    ensures o == Fit(sqrt, p)
  {
    if p.maximum.None? || !ProgramFieldsOk(p) {
      return Unchanged;
    }
    var open := Unbounded(p);
    var verdict := ValidateProgramGraph(sqrt, open);
    if verdict.Rejected? {
      return Unchanged;
    }
    StructureGrounds(open);
    var bounds := MeasureProgram(sqrt, open);
    if bounds.Err? {
      return Raised(bounds.error);
    }
    o := ScaleDown(p, p.maximum.value, Dimensions(bounds.value));
  }

  method MeasureProgram(sqrt: real -> real, p: GeometryProgram) returns (bounds: Result<Hull.Box>)
    requires Grounded(ById(p.nodes)) && KindsOk(ById(p.nodes))
    ensures bounds == BoundsOf(sqrt, p)
  {
    ByIdHolds(p.nodes);
    bounds := ComputeProgramBounds(sqrt, NodeOrder(p.nodes), ById(p.nodes), Members(p.construction));
  }

  method ScaleDown(p: GeometryProgram, maximum: Vec3, actual: Vec3) returns (o: Outcome)
    requires UniqueIds(p.nodes)
    ensures o == FitTo(p, maximum, actual)
  {
    var hidden, ratios := Members(p.construction), Ratios(maximum, actual);
    if ratios == [] {
      return Unchanged;
    }
    var r, roots := Least(ratios), Roots(p.nodes, hidden);
    if r >= 1.0 || roots == [] {
      return Unchanged;
    }
    var scaled := ScaleRoots(p.nodes, hidden, Pivot(roots), r);
    o := Fitted(p.(nodes := scaled, adjustments := p.adjustments + [FIT_NOTE]));
  }

  // ----- what it achieves

  /** Every visible node hangs from a visible root. */
  ghost predicate TreesVisible(p: GeometryProgram)
    requires Grounded(ById(p.nodes))
  {
    forall id :: id in ById(p.nodes) && id !in Members(p.construction) ==> Top(id, ById(p.nodes)) !in Members(p.construction)
  }

  function VisibleRootIds(nodes: seq<Node>, hidden: set<string>): set<string> {
    set n | n in nodes && VisibleRoot(n, hidden) :: n.id
  }

  /** No boolean that a visible node is made from bakes in the position of a visible tree. */
  ghost predicate VisibleSettled(p: GeometryProgram)
    requires Grounded(ById(p.nodes))
  {
    forall id :: id in ById(p.nodes) && id !in Members(p.construction) ==>
      Settled(id, ById(p.nodes), VisibleRootIds(p.nodes, Members(p.construction)))
  }

  lemma {:induction false} RootMovesAre(nodes: seq<Node>, hidden: set<string>, m: Motion)
    requires UniqueIds(nodes) && m.ratio > 0.0
    ensures RootMoves(nodes, hidden, m).Keys == VisibleRootIds(nodes, hidden)
    ensures RootsOnly(RootMoves(nodes, hidden, m), ById(nodes))
    ensures RootMoves(nodes, hidden, m).Keys !! hidden
  {
    var moves := RootMoves(nodes, hidden, m);
    ByIdHolds(nodes);
    forall id | id in moves ensures id in ById(nodes) && ById(nodes)[id].parent.None? && moves[id].ratio > 0.0 {
      InRootMoves(nodes, hidden, m, ById(nodes)[id]);
    }
  }

  lemma {:induction false} TopsMove(nodes: seq<Node>, hidden: set<string>, m: Motion)
    requires UniqueIds(nodes) && Grounded(ById(nodes))
    ensures forall id :: id in ById(nodes) && Top(id, ById(nodes)) !in hidden ==>
              MotionOf(RootMoves(nodes, hidden, m), Top(id, ById(nodes))) == m
  {
    ByIdHolds(nodes);
    forall id | id in ById(nodes) && Top(id, ById(nodes)) !in hidden
      ensures MotionOf(RootMoves(nodes, hidden, m), Top(id, ById(nodes))) == m
    {
      TopIsRoot(id, ById(nodes));
      InRootMoves(nodes, hidden, m, ById(nodes)[Top(id, ById(nodes))]);
    }
  }

  /** What the motion of all visible roots does to the world. */
  lemma {:induction false} RootsMove(p: GeometryProgram, m: Motion, note: string)
    requires ProgramFieldsOk(p) && StructureOk(p) && m.ratio > 0.0
    ensures Grounded(ById(p.nodes)) && KindsOk(ById(p.nodes))
    ensures var moves := RootMoves(p.nodes, Members(p.construction), m);
            && RootsOnly(moves, ById(p.nodes)) && moves.Keys !! Members(p.construction)
            && ById(MoveProgram(moves, p, note).nodes) == MoveNodes(moves, ById(p.nodes))
            && moves.Keys == VisibleRootIds(p.nodes, Members(p.construction))
            && forall id :: id in ById(p.nodes) && Top(id, ById(p.nodes)) !in Members(p.construction) ==>
                 MotionOf(moves, Top(id, ById(p.nodes))) == m
  {
    StructureGrounds(p);
    ByIdMoves(RootMoves(p.nodes, Members(p.construction), m), p.nodes);
    RootMovesAre(p.nodes, Members(p.construction), m);
    TopsMove(p.nodes, Members(p.construction), m);
  }

  /** The bounds of the program after its visible trees have moved by m, worked out from the
      program itself. */
  function BoundsMovedBy(sqrt: real -> real, p: GeometryProgram, m: Motion): Result<Hull.Box>
    requires Grounded(ById(p.nodes)) && KindsOk(ById(p.nodes))
  {
    ByIdHolds(p.nodes);
    MovedBounds(sqrt, NodeOrder(p.nodes), ById(p.nodes), Members(p.construction), RootMoves(p.nodes, Members(p.construction), m))
  }

  lemma {:induction false} OrderKnown(nodes: seq<Node>)
    ensures forall id :: id in NodeOrder(nodes) ==> id in ById(nodes)
  {
    ByIdHolds(nodes);
  }

  lemma {:induction false} BoundsByParts(sqrt: real -> real, q: GeometryProgram, order: seq<string>, nodes: Nodes)
    requires order == NodeOrder(q.nodes) && nodes == ById(q.nodes) && Grounded(nodes) && KindsOk(nodes)
    requires forall id :: id in order ==> id in nodes
    ensures BoundsOf(sqrt, q) == ProgramBounds(sqrt, order, nodes, Members(q.construction))
  {
  }

  lemma {:induction false} BoundsAfter(sqrt: real -> real, p: GeometryProgram, m: Motion, note: string)
    requires ProgramFieldsOk(p) && StructureOk(p) && m.ratio > 0.0
    requires Grounded(ById(p.nodes)) && KindsOk(ById(p.nodes))
    ensures var q := MoveProgram(RootMoves(p.nodes, Members(p.construction), m), p, note);
            && Grounded(ById(q.nodes)) && KindsOk(ById(q.nodes))
            && BoundsOf(sqrt, q) == BoundsMovedBy(sqrt, p, m)
  {
    var moves := RootMoves(p.nodes, Members(p.construction), m);
    RootsMove(p, m, note);
    IdsKept(moves, p.nodes);
    OrderKnown(p.nodes);
    BoundsAreMoved(sqrt, NodeOrder(p.nodes), ById(p.nodes), Members(p.construction), moves);
    BoundsByParts(sqrt, MoveProgram(moves, p, note), NodeOrder(p.nodes), MoveNodes(moves, ById(p.nodes)));
  }

  /** If every visible node is settled and hangs from a visible root, they are the moved
      bounds. */
  lemma {:induction false} AllBoundsMove(sqrt: real -> real, p: GeometryProgram, m: Motion)
    requires ProgramFieldsOk(p) && StructureOk(p) && m.ratio > 0.0
    requires Grounded(ById(p.nodes)) && KindsOk(ById(p.nodes)) && BoundsOf(sqrt, p).Ok?
    requires TreesVisible(p) && VisibleSettled(p)
    ensures BoundsMovedBy(sqrt, p, m) == Ok(MoveBox(m, BoundsOf(sqrt, p).value))
  {
    ByIdHolds(p.nodes);
    VisibleAlike(p, m);
    EnvelopeMoves(sqrt, NodeOrder(p.nodes), ById(p.nodes), Members(p.construction),
                  RootMoves(p.nodes, Members(p.construction), m), m);
  }

  lemma {:induction false} VisibleAlike(p: GeometryProgram, m: Motion)
    requires UniqueIds(p.nodes) && Grounded(ById(p.nodes)) && TreesVisible(p) && VisibleSettled(p) && m.ratio > 0.0
    ensures forall id :: id in NodeOrder(p.nodes) ==> id in ById(p.nodes)
    ensures AllAlike(NodeOrder(p.nodes), ById(p.nodes), Members(p.construction), RootMoves(p.nodes, Members(p.construction), m), m)
  {
    ByIdHolds(p.nodes);
    RootMovesAre(p.nodes, Members(p.construction), m);
    TopsMove(p.nodes, Members(p.construction), m);
  }

  // ----- the ratio fits

  lemma RatioIsLeast(maximum: Vec3, actual: Vec3, r: real)
    requires Ratios(maximum, actual) != [] && r == Least(Ratios(maximum, actual))
    ensures actual.x > 0.000000001 ==> r <= maximum.x / actual.x
    ensures actual.y > 0.000000001 ==> r <= maximum.y / actual.y
    ensures actual.z > 0.000000001 ==> r <= maximum.z / actual.z
    ensures || (actual.x > 0.000000001 && r == maximum.x / actual.x)
            || (actual.y > 0.000000001 && r == maximum.y / actual.y)
            || (actual.z > 0.000000001 && r == maximum.z / actual.z)
  {
    var xs, ys, zs := AxisRatio(maximum.x, actual.x), AxisRatio(maximum.y, actual.y), AxisRatio(maximum.z, actual.z);
    var all := Ratios(maximum, actual);
    assert all == xs + ys + zs;
    assert forall v :: v in xs ==> v in all;
    assert forall v :: v in ys ==> v in all;
    assert forall v :: v in zs ==> v in all;
    assert actual.x > 0.000000001 ==> xs[0] in all;
    assert actual.y > 0.000000001 ==> ys[0] in all;
    assert actual.z > 0.000000001 ==> zs[0] in all;
  }

  lemma Quotients(m: real, a: real, r: real)
    requires a > 0.0
    ensures r <= m / a ==> Mul(r, a) <= m
    ensures r == m / a ==> Mul(r, a) == m
    ensures m > 0.0 ==> m / a > 0.0
  {
    MulDivide(m, a);
    if r <= m / a {
      ScaleLeq(a, r, m / a);
    }
    if m > 0.0 && m / a <= 0.0 {
      ScaleLeq(a, m / a, 0.0);
    }
  }

  lemma MulDivide(m: real, a: real)
    requires a > 0.0
    ensures a * (m / a) == m
  {
  }

  lemma AxisFits(m: real, a: real, r: real)
    requires 0.0 < r < 1.0 && m > 0.0
    requires a > 0.000000001 ==> r <= m / a
    ensures Mul(r, a) <= m + SLACK
  {
    if a > 0.000000001 {
      Quotients(m, a, r);
    } else {
      SmallStays(r, a);
    }
  }

  lemma SmallStays(r: real, a: real)
    requires 0.0 < r < 1.0 && a <= 0.000000001
    ensures Mul(r, a) <= 0.000000001
  {
    ScaleLeq(r, a, 0.000000001);
  }

  function MulAll(r: real, v: Vec3): Vec3 { Vec3(Mul(r, v.x), Mul(r, v.y), Mul(r, v.z)) }

  /** The least ratio brings every axis within the limit, and one of them exactly to it. */
  lemma RatioFits(maximum: Vec3, actual: Vec3, r: real)
    requires MaximumOk(maximum)
    requires Ratios(maximum, actual) != [] && r == Least(Ratios(maximum, actual)) && r < 1.0
    ensures r > 0.0 && Fits(MulAll(r, actual), maximum)
    ensures Mul(r, actual.x) == maximum.x || Mul(r, actual.y) == maximum.y || Mul(r, actual.z) == maximum.z
  {
    RatioIsLeast(maximum, actual, r);
    if actual.x > 0.000000001 {
      Quotients(maximum.x, actual.x, r);
    }
    if actual.y > 0.000000001 {
      Quotients(maximum.y, actual.y, r);
    }
    if actual.z > 0.000000001 {
      Quotients(maximum.z, actual.z, r);
    }
    AxisFits(maximum.x, actual.x, r);
    AxisFits(maximum.y, actual.y, r);
    AxisFits(maximum.z, actual.z, r);
  }

  // ----- the scaled transforms stay in range

  lemma {:induction false} RootsAre(nodes: seq<Node>, hidden: set<string>)
    ensures forall n :: n in Roots(nodes, hidden) <==> n in nodes && VisibleRoot(n, hidden)
  {
    if nodes != [] {
      RootsAre(nodes[..|nodes| - 1], hidden);
      assert nodes == nodes[..|nodes| - 1] + [nodes[|nodes| - 1]];
    }
  }

  lemma {:induction false} TotalBounded(nodes: seq<Node>)
    requires forall n :: n in nodes ==> Within(n.transform.translation, 1000.0)
    ensures Within(Total(nodes), 1000.0 * |nodes| as real)
  {
    if nodes != [] {
      TotalBounded(nodes[..|nodes| - 1]);
      assert nodes[|nodes| - 1] in nodes;
    }
  }

  lemma MeanBounded(total: real, count: real, bound: real)
    requires count > 0.0 && -(bound * count) <= total <= bound * count
    ensures Abs(total / count) <= bound
  {
    MulDivide(total, count);
    if total / count > bound {
      ScaleLess(count, bound, total / count);
    }
    if total / count < -bound {
      ScaleLess(count, total / count, -bound);
    }
  }

  lemma {:induction false} PivotBounded(roots: seq<Node>)
    requires roots != [] && forall n :: n in roots ==> Within(n.transform.translation, 1000.0)
    ensures Within(Pivot(roots), 1000.0)
  {
    TotalBounded(roots);
    MeanBounded(Total(roots).x, |roots| as real, 1000.0);
    MeanBounded(Total(roots).y, |roots| as real, 1000.0);
    MeanBounded(Total(roots).z, |roots| as real, 1000.0);
  }

  lemma BetweenBounded(pivot: real, v: real, r: real, bound: real)
    requires 0.0 < r < 1.0 && Abs(pivot) <= bound && Abs(v) <= bound
    ensures Abs(AxisAbout(pivot, v, r)) <= bound
  {
    if v >= pivot {
      Span(v - pivot, r);
      FromBelow(pivot, v, r, v - pivot);
    } else {
      Span(pivot - v, r);
      FromAbove(pivot, v, r, pivot - v);
    }
  }

  lemma Span(k: real, r: real)
    requires 0.0 < r < 1.0 && k >= 0.0
    ensures 0.0 <= Mul(k, r) <= k
  {
    ScaleLeq(k, 0.0, r);
    ScaleLeq(k, r, 1.0);
  }

  lemma FromBelow(pivot: real, v: real, r: real, k: real)
    requires k == v - pivot
    ensures AxisAbout(pivot, v, r) == pivot + Mul(k, r)
  {
    EqualProducts(k, r, v - pivot, r);
  }

  lemma FromAbove(pivot: real, v: real, r: real, k: real)
    requires k == pivot - v
    ensures AxisAbout(pivot, v, r) == pivot - Mul(k, r)
  {
    EqualProducts(-k, r, v - pivot, r);
  }

  lemma ScaledScaleOk(k: real, r: real)
    requires 0.0 < r < 1.0 && ScaleOk(k)
    ensures ScaleOk(k * r)
  {
    ScaleLess(k, 0.0, r);
    ScaleLess(k, r, 1.0);
  }

  lemma {:induction false} ScaledNodeOk(n: Node, pivot: Vec3, r: real)
    requires NodeOk(n) && !n.kind.ExactAsset? && 0.0 < r < 1.0 && Within(pivot, 1000.0)
    ensures NodeOk(ScaleNode(n, pivot, r))
  {
    var t := n.transform;
    BetweenBounded(pivot.x, t.translation.x, r, 1000.0);
    BetweenBounded(pivot.y, t.translation.y, r, 1000.0);
    BetweenBounded(pivot.z, t.translation.z, r, 1000.0);
    ScaledScaleOk(t.scale.x, r);
    ScaledScaleOk(t.scale.y, r);
    ScaledScaleOk(t.scale.z, r);
  }

  // ----- the theorems

  /** The uniform ratio of a fit and its pivot. */
  ghost function FitRatio(sqrt: real -> real, p: GeometryProgram): real
    requires Fit(sqrt, p).Fitted?
  {
    StructureGrounds(Unbounded(p));
    Least(Ratios(p.maximum.value, Dimensions(BoundsOf(sqrt, Unbounded(p)).value)))
  }

  function FitPivot(p: GeometryProgram): Vec3
    requires Roots(p.nodes, Members(p.construction)) != []
  {
    Pivot(Roots(p.nodes, Members(p.construction)))
  }

  lemma {:induction false} FitUnfolds(sqrt: real -> real, p: GeometryProgram)
    requires Fit(sqrt, p).Fitted?
    ensures ProgramFieldsOk(p) && StructureOk(p)
    ensures Grounded(ById(p.nodes)) && KindsOk(ById(p.nodes)) && BoundsOf(sqrt, p).Ok?
    ensures FitRatio(sqrt, p) == Least(Ratios(p.maximum.value, Dimensions(BoundsOf(sqrt, p).value))) < 1.0
    ensures Roots(p.nodes, Members(p.construction)) != []
    ensures Fit(sqrt, p) == Fitted(MoveProgram(
              RootMoves(p.nodes, Members(p.construction), FitMotion(FitPivot(p), FitRatio(sqrt, p))), p, FIT_NOTE))
  {
    MaximumIsSeparate(sqrt, p);
    StructureGrounds(p);
  }

  lemma {:induction false} MovedSizes(m: Motion, b: Hull.Box)
    ensures Dimensions(MoveBox(m, b)) == MulAll(m.ratio, Dimensions(b))
  {
    MovedAxes(m, b.min);
    MovedAxes(m, b.max);
    MulDifference(m.ratio, b.max.x, b.min.x, Dimensions(b).x);
    MulDifference(m.ratio, b.max.y, b.min.y, Dimensions(b).y);
    MulDifference(m.ratio, b.max.z, b.min.z, Dimensions(b).z);
  }

  lemma MulDifference(r: real, a: real, b: real, d: real)
    requires d == a - b
    ensures Mul(r, d) == Mul(r, a) - Mul(r, b)
  {
    EqualProducts(r, d, r, a - b);
  }

  /** The motion of a fit. */
  ghost function MotionFor(sqrt: real -> real, p: GeometryProgram): Motion
    requires Fit(sqrt, p).Fitted?
  {
    FitUnfolds(sqrt, p);
    FitMotion(FitPivot(p), FitRatio(sqrt, p))
  }

  lemma {:induction false} MotionForIs(sqrt: real -> real, p: GeometryProgram, pivot: Vec3, r: real)
    requires Fit(sqrt, p).Fitted? && Roots(p.nodes, Members(p.construction)) != []
    requires pivot == FitPivot(p) && r == FitRatio(sqrt, p)
    ensures MotionFor(sqrt, p) == FitMotion(pivot, r)
  {
  }

  lemma {:induction false} RatioInRange(sqrt: real -> real, p: GeometryProgram)
    requires Fit(sqrt, p).Fitted? && MaximumOk(p.maximum.value)
    ensures 0.0 < FitRatio(sqrt, p) < 1.0
  {
    FitUnfolds(sqrt, p);
    RatioFits(p.maximum.value, Dimensions(BoundsOf(sqrt, p).value), FitRatio(sqrt, p));
  }

  /** The fitted program is the same scene at r times the size: each dimension is exactly r
      times the old one, all of them fit, and one of them exactly. */
  lemma {:induction false} FitScalesEverything(sqrt: real -> real, p: GeometryProgram)
    requires Fit(sqrt, p).Fitted? && MaximumOk(p.maximum.value)
    requires Grounded(ById(p.nodes)) && KindsOk(ById(p.nodes)) && TreesVisible(p) && VisibleSettled(p)
    ensures var r, q := FitRatio(sqrt, p), Fit(sqrt, p).program;
            && 0.0 < r < 1.0
            && Grounded(ById(q.nodes)) && KindsOk(ById(q.nodes))
            && BoundsOf(sqrt, p).Ok? && BoundsOf(sqrt, q).Ok?
            && Dimensions(BoundsOf(sqrt, q).value) == MulAll(r, Dimensions(BoundsOf(sqrt, p).value))
            && Fits(Dimensions(BoundsOf(sqrt, q).value), p.maximum.value)
            && MeetsOneAxis(Dimensions(BoundsOf(sqrt, q).value), p.maximum.value)
  {
    FitUnfolds(sqrt, p);
    var r := FitRatio(sqrt, p);
    var m := FitMotion(FitPivot(p), r);
    RatioFits(p.maximum.value, Dimensions(BoundsOf(sqrt, p).value), r);
    BoundsAfter(sqrt, p, m, FIT_NOTE);
    AllBoundsMove(sqrt, p, m);
    MovedSizes(m, BoundsOf(sqrt, p).value);
  }

  predicate MeetsOneAxis(size: Vec3, m: Vec3) { size.x == m.x || size.y == m.y || size.z == m.z }

  /** Every point of every visible node goes r times as far from the pivot. */
  ghost predicate PointsScale(p: GeometryProgram, after: Nodes, pivot: Vec3, r: real)
    requires Grounded(ById(p.nodes)) && Grounded(after) && after.Keys == ById(p.nodes).Keys
  {
    forall id, v :: id in ById(p.nodes) && id !in Members(p.construction) ==>
      Place(id, after, v) == AboutPivot(pivot, Place(id, ById(p.nodes), v), r)
  }

  /** The fit scales every visible point about its pivot exactly when every visible node hangs
      from a visible root. */
  lemma {:induction false} PointsScaleIff(sqrt: real -> real, p: GeometryProgram)
    requires Fit(sqrt, p).Fitted? && MaximumOk(p.maximum.value) && Grounded(ById(p.nodes))
    ensures Roots(p.nodes, Members(p.construction)) != []
    ensures var q := Fit(sqrt, p).program;
            && Grounded(ById(q.nodes)) && ById(q.nodes).Keys == ById(p.nodes).Keys
            && (PointsScale(p, ById(q.nodes), FitPivot(p), FitRatio(sqrt, p)) <==> TreesVisible(p))
  {
    FitUnfolds(sqrt, p);
    RatioInRange(sqrt, p);
    var r, pivot := FitRatio(sqrt, p), FitPivot(p);
    RootsMove(p, FitMotion(pivot, r), FIT_NOTE);
    MotionKeepsGraph(RootMoves(p.nodes, Members(p.construction), FitMotion(pivot, r)), ById(p.nodes));
    if TreesVisible(p) {
      VisiblePlacesMove(p, pivot, r);
    } else {
      var id :| id in ById(p.nodes) && id !in Members(p.construction) && Top(id, ById(p.nodes)) in Members(p.construction);
      var v := StayingPoint(p, pivot, r, id);
    }
  }

  lemma {:induction false} VisiblePlacesMove(p: GeometryProgram, pivot: Vec3, r: real)
    requires ProgramFieldsOk(p) && StructureOk(p) && r > 0.0
    requires Grounded(ById(p.nodes)) && TreesVisible(p)
    ensures var moved := MoveNodes(RootMoves(p.nodes, Members(p.construction), FitMotion(pivot, r)), ById(p.nodes));
            Grounded(moved) && PointsScale(p, moved, pivot, r)
  {
    var m := FitMotion(pivot, r);
    var moves, nodes := RootMoves(p.nodes, Members(p.construction), m), ById(p.nodes);
    RootsMove(p, m, FIT_NOTE);
    MotionKeepsGraph(moves, nodes);
    forall id, v | id in nodes && id !in Members(p.construction)
      ensures Place(id, MoveNodes(moves, nodes), v) == AboutPivot(pivot, Place(id, nodes, v), r)
    {
      PlacesMove(id, nodes, moves, v);
      MotionIsAboutPivot(pivot, r, Place(id, nodes, v));
    }
  }

  /** Of two points of a tree that stays, at most one is at the pivot. */
  lemma {:induction false} StayingPoint(p: GeometryProgram, pivot: Vec3, r: real, id: string) returns (v: Vec3)
    requires ProgramFieldsOk(p) && StructureOk(p) && 0.0 < r < 1.0
    requires Grounded(ById(p.nodes)) && id in ById(p.nodes) && Top(id, ById(p.nodes)) in Members(p.construction)
    ensures var moved := MoveNodes(RootMoves(p.nodes, Members(p.construction), FitMotion(pivot, r)), ById(p.nodes));
            Grounded(moved) && Place(id, moved, v) != AboutPivot(pivot, Place(id, ById(p.nodes), v), r)
  {
    v := OffPivot(p, pivot, id);
    HiddenTreesStay(p, FitMotion(pivot, r), id, v);
    OnlyPivotStays(pivot, Place(id, ById(p.nodes), v), r);
  }

  lemma {:induction false} OffPivot(p: GeometryProgram, pivot: Vec3, id: string) returns (v: Vec3)
    requires ProgramFieldsOk(p) && Grounded(ById(p.nodes)) && id in ById(p.nodes)
    ensures Place(id, ById(p.nodes), v) != pivot
  {
    TransformsFit(p);
    v := ZERO;
    if Place(id, ById(p.nodes), v) == pivot {
      v := Vec3(1.0, 0.0, 0.0);
      if Place(id, ById(p.nodes), v) == pivot {
        PlaceIsInjective(id, ById(p.nodes), v, ZERO);
      }
    }
  }

  lemma {:induction false} TransformsFit(p: GeometryProgram)
    requires ProgramFieldsOk(p)
    ensures TransformsOk(ById(p.nodes))
  {
    ByIdHolds(p.nodes);
    forall id | id in ById(p.nodes) ensures TransformOk(ById(p.nodes)[id].transform) {
      assert NodeOk(ById(p.nodes)[id]);
    }
  }

  lemma OnlyPivotStays(pivot: Vec3, v: Vec3, r: real)
    requires r < 1.0 && v != pivot
    ensures AboutPivot(pivot, v, r) != v
  {
    AxisStays(pivot.x, v.x, r);
    AxisStays(pivot.y, v.y, r);
    AxisStays(pivot.z, v.z, r);
  }

  lemma AxisStays(pivot: real, v: real, r: real)
    requires r < 1.0
    ensures AxisAbout(pivot, v, r) == v ==> v == pivot
  {
    FromBelow(pivot, v, r, v - pivot);
    if AxisAbout(pivot, v, r) == v {
      OnlyZeroStays(v - pivot, r);
    }
  }

  lemma OnlyZeroStays(k: real, r: real)
    requires r < 1.0 && Mul(k, r) == k
    ensures k == 0.0
  {
    MulNegates(k, r);
    if k > 0.0 {
      ScaleLess(k, r, 1.0);
    } else if k < 0.0 {
      ScaleLess(-k, r, 1.0);
    }
  }

  lemma MulNegates(k: real, r: real)
    ensures Mul(-k, r) == -Mul(k, r)
  {
  }

  /** No two visible boxes reach further than the limit, where each is first scaled if its tree
      is visible and left as it is if not. */
  ghost predicate FittedFits(sqrt: real -> real, p: GeometryProgram)
    requires Fit(sqrt, p).Fitted?
  {
    FitUnfolds(sqrt, p);
    SpansFit(sqrt, ById(p.nodes), Members(p.construction), RootMoves(p.nodes, Members(p.construction), MotionFor(sqrt, p)),
             p.maximum.value)
  }

  /** The box that the fit makes of a settled node's own. */
  function FittedBox(sqrt: real -> real, id: string, nodes: Nodes, hidden: set<string>, m: Motion): Result<Hull.Box>
    requires Grounded(nodes) && KindsOk(nodes) && id in nodes
  {
    if Top(id, nodes) in hidden then NodeBox(sqrt, id, nodes) else MoveBoxResult(m, NodeBox(sqrt, id, nodes))
  }

  predicate FittedPairFits(sqrt: real -> real, u: string, v: string, nodes: Nodes, hidden: set<string>, m: Motion, limit: Vec3)
    requires Grounded(nodes) && KindsOk(nodes) && u in nodes && v in nodes
  {
    && FittedBox(sqrt, u, nodes, hidden, m).Ok? && FittedBox(sqrt, v, nodes, hidden, m).Ok?
    && SpanFits(FittedBox(sqrt, u, nodes, hidden, m).value, FittedBox(sqrt, v, nodes, hidden, m).value, limit)
  }

  ghost predicate AllFittedFit(sqrt: real -> real, nodes: Nodes, hidden: set<string>, m: Motion, limit: Vec3)
    requires Grounded(nodes) && KindsOk(nodes)
  {
    forall u, v :: Visible(u, nodes, hidden) && Visible(v, nodes, hidden) ==> FittedPairFits(sqrt, u, v, nodes, hidden, m, limit)
  }

  /** For a settled program that is a condition on the boxes that its nodes have before the
      fit. */
  lemma {:induction false} FittedFitsIff(sqrt: real -> real, p: GeometryProgram)
    requires Fit(sqrt, p).Fitted? && MaximumOk(p.maximum.value)
    requires Grounded(ById(p.nodes)) && KindsOk(ById(p.nodes)) && VisibleSettled(p)
    ensures FittedFits(sqrt, p) <==>
              AllFittedFit(sqrt, ById(p.nodes), Members(p.construction), MotionFor(sqrt, p), p.maximum.value)
  {
    var nodes, hidden, m := ById(p.nodes), Members(p.construction), MotionFor(sqrt, p);
    FitUnfolds(sqrt, p);
    RatioInRange(sqrt, p);
    SomethingMeasured(sqrt, p);
    forall id | Visible(id, nodes, hidden)
      ensures BoxThen(sqrt, id, nodes, RootMoves(p.nodes, hidden, m)) == FittedBox(sqrt, id, nodes, hidden, m)
    {
      FittedBoxIs(sqrt, id, p, m);
    }
    SameSpans(sqrt, nodes, hidden, RootMoves(p.nodes, hidden, m), m, p.maximum.value);
  }

  lemma {:induction false} SameSpans(sqrt: real -> real, nodes: Nodes, hidden: set<string>, moves: Moves, m: Motion, limit: Vec3)
    requires Grounded(nodes) && KindsOk(nodes) && exists id :: Visible(id, nodes, hidden)
    requires forall id :: Visible(id, nodes, hidden) ==> BoxThen(sqrt, id, nodes, moves) == FittedBox(sqrt, id, nodes, hidden, m)
    ensures SpansFit(sqrt, nodes, hidden, moves, limit) <==> AllFittedFit(sqrt, nodes, hidden, m, limit)
  {
    forall u, v | Visible(u, nodes, hidden) && Visible(v, nodes, hidden)
      ensures PairFits(sqrt, u, v, nodes, moves, limit) <==> FittedPairFits(sqrt, u, v, nodes, hidden, m, limit)
    {
    }
  }

  lemma {:induction false} FittedBoxIs(sqrt: real -> real, id: string, p: GeometryProgram, m: Motion)
    requires ProgramFieldsOk(p) && StructureOk(p) && m.ratio > 0.0
    requires Grounded(ById(p.nodes)) && KindsOk(ById(p.nodes)) && id in ById(p.nodes)
    requires Settled(id, ById(p.nodes), VisibleRootIds(p.nodes, Members(p.construction)))
    ensures BoxThen(sqrt, id, ById(p.nodes), RootMoves(p.nodes, Members(p.construction), m))
         == FittedBox(sqrt, id, ById(p.nodes), Members(p.construction), m)
  {
    var moves := RootMoves(p.nodes, Members(p.construction), m);
    RootsMove(p, m, FIT_NOTE);
    if Top(id, ById(p.nodes)) in Members(p.construction) {
      StillBox(NodeBox(sqrt, id, ById(p.nodes)));
    }
  }

  lemma {:induction false} StillBox(b: Result<Hull.Box>)
    ensures MoveBoxResult(STILL, b) == b
  {
    if b.Ok? {
      StillMoves(b.value.min);
      StillMoves(b.value.max);
    }
  }

  lemma {:induction false} SomethingMeasured(sqrt: real -> real, p: GeometryProgram)
    requires Grounded(ById(p.nodes)) && KindsOk(ById(p.nodes)) && BoundsOf(sqrt, p).Ok?
    ensures exists id :: Visible(id, ById(p.nodes), Members(p.construction))
  {
    var order, nodes, hidden := NodeOrder(p.nodes), ById(p.nodes), Members(p.construction);
    OrderKnown(p.nodes);
    EveryIdListed(p.nodes);
    NoMoves(nodes);
    BoundsAreMoved(sqrt, order, nodes, hidden, map[]);
    MeasuredIff(sqrt, order, nodes, hidden, map[]);
  }

  lemma {:induction false} EveryIdListed(nodes: seq<Node>)
    ensures forall id :: id in ById(nodes) ==> id in NodeOrder(nodes)
  {
    ByIdHolds(nodes);
    forall id | id in ById(nodes) ensures id in NodeOrder(nodes) {
      var n :| n in nodes && n.id == id;
      var i :| 0 <= i < |nodes| && nodes[i] == n;
      assert NodeOrder(nodes)[i] == id;
    }
  }

  /** The fitted program passes the whole validator exactly when the limit itself is a legal
      one, the adjustment list had room, there is no exact asset, whose scale is pinned, and
      the visible boxes, each scaled or left, are within the limit. */
  lemma {:induction false} FittedIsValid(sqrt: real -> real, p: GeometryProgram)
    requires Fit(sqrt, p).Fitted? && Grounded(ById(p.nodes))
    ensures Valid(sqrt, Fit(sqrt, p).program) <==>
              MaximumOk(p.maximum.value) && |p.adjustments| < 16 && !HasExactAsset(p) && FittedFits(sqrt, p)
    ensures TreesVisible(p) && VisibleSettled(p) && MaximumOk(p.maximum.value) ==> FittedFits(sqrt, p)
  {
    FitUnfolds(sqrt, p);
    if MaximumOk(p.maximum.value) {
      FittedDimensions(sqrt, p);
      if |p.adjustments| < 16 && !HasExactAsset(p) {
        RoomyFitIsSound(sqrt, p);
      }
    }
    if Valid(sqrt, Fit(sqrt, p).program) {
      MaximumIsSeparate(sqrt, Fit(sqrt, p).program);
      if HasExactAsset(p) {
        ExactAssetRefused(p, FitPivot(p), FitRatio(sqrt, p));
      }
    }
  }

  /** The size check of the fitted program, worked out from the program itself. */
  lemma {:induction false} FittedDimensions(sqrt: real -> real, p: GeometryProgram)
    requires Fit(sqrt, p).Fitted? && MaximumOk(p.maximum.value) && Grounded(ById(p.nodes))
    ensures var q := Fit(sqrt, p).program;
            && Grounded(ById(q.nodes)) && KindsOk(ById(q.nodes))
            && (DimensionsOk(sqrt, q) <==> FittedFits(sqrt, p))
    ensures TreesVisible(p) && VisibleSettled(p) ==> FittedFits(sqrt, p)
  {
    FitUnfolds(sqrt, p);
    RatioInRange(sqrt, p);
    BoundsAfter(sqrt, p, MotionFor(sqrt, p), FIT_NOTE);
    MovedSpans(sqrt, p, MotionFor(sqrt, p), p.maximum.value);
    if TreesVisible(p) && VisibleSettled(p) {
      FitScalesEverything(sqrt, p);
    }
  }

  lemma {:induction false} MovedSpans(sqrt: real -> real, p: GeometryProgram, m: Motion, limit: Vec3)
    requires ProgramFieldsOk(p) && StructureOk(p) && m.ratio > 0.0 && Grounded(ById(p.nodes)) && KindsOk(ById(p.nodes))
    ensures BoundsMovedBy(sqrt, p, m).Ok? && Fits(Dimensions(BoundsMovedBy(sqrt, p, m).value), limit) <==>
              SpansFit(sqrt, ById(p.nodes), Members(p.construction), RootMoves(p.nodes, Members(p.construction), m), limit)
  {
    OrderKnown(p.nodes);
    EveryIdListed(p.nodes);
    RootsMove(p, m, FIT_NOTE);
    SpansDecide(sqrt, NodeOrder(p.nodes), ById(p.nodes), Members(p.construction),
                RootMoves(p.nodes, Members(p.construction), m), limit);
  }

  lemma {:induction false} RoomyFitIsSound(sqrt: real -> real, p: GeometryProgram)
    requires Fit(sqrt, p).Fitted?
    requires MaximumOk(p.maximum.value) && |p.adjustments| < 16 && !HasExactAsset(p)
    ensures ProgramFieldsOk(Fit(sqrt, p).program) && StructureOk(Fit(sqrt, p).program)
    ensures Grounded(ById(Fit(sqrt, p).program.nodes)) && KindsOk(ById(Fit(sqrt, p).program.nodes))
    ensures Valid(sqrt, Fit(sqrt, p).program) <==> DimensionsOk(sqrt, Fit(sqrt, p).program)
  {
    FitUnfolds(sqrt, p);
    RatioInRange(sqrt, p);
    var m := FitMotion(FitPivot(p), FitRatio(sqrt, p));
    var moves := RootMoves(p.nodes, Members(p.construction), m);
    RootsMove(p, m, FIT_NOTE);
    StructureKept(moves, p, FIT_NOTE);
    FittedNodesOk(p, FitRatio(sqrt, p));
    FieldsKept(moves, p, FIT_NOTE);
    StructureGrounds(Fit(sqrt, p).program);
    MaximumIsSeparate(sqrt, Fit(sqrt, p).program);
  }

  lemma {:induction false} FittedNodesOk(p: GeometryProgram, r: real)
    requires ProgramFieldsOk(p) && UniqueIds(p.nodes) && !HasExactAsset(p) && 0.0 < r < 1.0
    requires Roots(p.nodes, Members(p.construction)) != []
    ensures var moves := RootMoves(p.nodes, Members(p.construction), FitMotion(FitPivot(p), r));
            forall n :: n in p.nodes && n.id in moves ==> NodeOk(MoveNode(moves, n))
  {
    var hidden, pivot := Members(p.construction), FitPivot(p);
    var moves := RootMoves(p.nodes, hidden, FitMotion(pivot, r));
    RootsAre(p.nodes, hidden);
    PivotBounded(Roots(p.nodes, hidden));
    forall n | n in p.nodes && n.id in moves ensures NodeOk(MoveNode(moves, n)) {
      InRootMoves(p.nodes, hidden, FitMotion(pivot, r), n);
      ScaleNodeMoves(n, pivot, r);
      ScaledNodeOk(n, pivot, r);
    }
  }

  lemma {:induction false} ExactAssetRefused(p: GeometryProgram, pivot: Vec3, r: real)
    requires ProgramFieldsOk(p) && StructureOk(p) && HasExactAsset(p) && r != 1.0
    ensures !ProgramFieldsOk(MoveProgram(RootMoves(p.nodes, Members(p.construction), FitMotion(pivot, r)), p, FIT_NOTE))
  {
    var n :| n in p.nodes && n.kind.ExactAsset?;
    var moves := RootMoves(p.nodes, Members(p.construction), FitMotion(pivot, r));
    InRootMoves(p.nodes, Members(p.construction), FitMotion(pivot, r), n);
    ScaleNodeMoves(n, pivot, r);
    MemberMoves(moves, p.nodes, n);
    ScaledAssetRefused(n, pivot, r);
  }

  lemma {:induction false} ScaledAssetRefused(n: Node, pivot: Vec3, r: real)
    requires NodeOk(n) && n.kind.ExactAsset? && r != 1.0
    ensures !NodeOk(ScaleNode(n, pivot, r))
  {
    assert ScaleNode(n, pivot, r).transform.scale.x == 1.0 * r;
  }

  // ----- why the two conditions are there

  /** A visible node that hangs from a construction root stays where and as large as it was. */
  lemma {:induction false} HiddenTreesStay(p: GeometryProgram, m: Motion, id: string, v: Vec3)
    requires ProgramFieldsOk(p) && StructureOk(p) && m.ratio > 0.0
    requires Grounded(ById(p.nodes)) && id in ById(p.nodes) && Top(id, ById(p.nodes)) in Members(p.construction)
    ensures var moved := MoveNodes(RootMoves(p.nodes, Members(p.construction), m), ById(p.nodes));
            Grounded(moved) && Place(id, moved, v) == Place(id, ById(p.nodes), v)
  {
    RootsMove(p, m, FIT_NOTE);
    PlacesMove(id, ById(p.nodes), RootMoves(p.nodes, Members(p.construction), m), v);
    StillMoves(Place(id, ById(p.nodes), v));
  }

  /** A visible boolean whose operands hang from visible roots is scaled twice, whatever its
      operation: once in its local geometry and once by its own root. */
  lemma {:induction false} MovedOperandsMoveTwice(sqrt: real -> real, p: GeometryProgram, id: string)
    requires Fit(sqrt, p).Fitted? && MaximumOk(p.maximum.value)
    requires Grounded(ById(p.nodes)) && KindsOk(ById(p.nodes)) && id in ById(p.nodes) && ById(p.nodes)[id].kind.Boolean?
    requires SourcesSettled(id, ById(p.nodes), VisibleRootIds(p.nodes, Members(p.construction)))
    requires Top(id, ById(p.nodes)) !in Members(p.construction)
    requires forall v :: v in CornerSources(ById(p.nodes)[id].kind) && v in ById(p.nodes) ==>
               Top(v, ById(p.nodes)) !in Members(p.construction)
    ensures var q, m := Fit(sqrt, p).program, MotionFor(sqrt, p);
            && Grounded(ById(q.nodes)) && KindsOk(ById(q.nodes)) && id in ById(q.nodes)
            && PlacedCorners(sqrt, id, ById(q.nodes)) ==
                 MoveResult(m, PlacedOperand(id, ById(p.nodes), MoveResult(m, GeometryCorners(sqrt, id, ById(p.nodes), {}))))
  {
    FitUnfolds(sqrt, p);
    RatioInRange(sqrt, p);
    var m := MotionFor(sqrt, p);
    RootsMove(p, m, FIT_NOTE);
    PlacedMove(sqrt, id, ById(p.nodes), RootMoves(p.nodes, Members(p.construction), m));
    BooleanMovesTwice(sqrt, id, ById(p.nodes), RootMoves(p.nodes, Members(p.construction), m), m);
  }
}
