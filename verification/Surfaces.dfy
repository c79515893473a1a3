/** Index-level topology of the meshes the worker emits: which directed edges the faces have,
    and when the surface is closed. */
module Surfaces {
  import opened Polygon

  type Face = seq<nat>

  // ----- surfaces as face lists

  predicate Slot(faces: seq<Face>, i: int, k: int) { 0 <= i < |faces| && 0 <= k < |faces[i]| }

  /** The directed edge at side k of face i. */
  function From(faces: seq<Face>, i: int, k: int): nat
    requires Slot(faces, i, k)
  {
    faces[i][k]
  }

  function To(faces: seq<Face>, i: int, k: int): nat
    requires Slot(faces, i, k)
  {
    faces[i][Next(k, |faces[i]|)]
  }

  predicate SameDirected(faces: seq<Face>, i: int, k: int, j: int, l: int)
    requires Slot(faces, i, k) && Slot(faces, j, l)
  {
    From(faces, i, k) == From(faces, j, l) && To(faces, i, k) == To(faces, j, l)
  }

  predicate Reversed(faces: seq<Face>, i: int, k: int, j: int, l: int)
    requires Slot(faces, i, k) && Slot(faces, j, l)
  {
    From(faces, i, k) == To(faces, j, l) && To(faces, i, k) == From(faces, j, l)
  }

  predicate SameEdge(faces: seq<Face>, i: int, k: int, j: int, l: int)
    requires Slot(faces, i, k) && Slot(faces, j, l)
  {
    SameDirected(faces, i, k, j, l) || Reversed(faces, i, k, j, l)
  }

  ghost predicate IndexesBelow(faces: seq<Face>, count: nat) {
    forall i, k :: Slot(faces, i, k) ==> faces[i][k] < count
  }

  /** No directed edge occurs twice. */
  ghost predicate Oriented(faces: seq<Face>) {
    forall i, k, j, l :: Slot(faces, i, k) && Slot(faces, j, l) && SameDirected(faces, i, k, j, l) ==> i == j && k == l
  }

  /** Some face runs along this edge the other way. */
  ghost predicate Paired(faces: seq<Face>, i: int, k: int)
    requires Slot(faces, i, k)
  {
    exists j, l :: Slot(faces, j, l) && Reversed(faces, i, k, j, l)
  }

  /** One other face, and no more, shares this edge. */
  ghost predicate SharedOnce(faces: seq<Face>, i: int, k: int)
    requires Slot(faces, i, k)
  {
    && From(faces, i, k) != To(faces, i, k)
    && exists j, l ::
         && Slot(faces, j, l) && j != i && SameEdge(faces, i, k, j, l)
         && forall m, n :: Slot(faces, m, n) && SameEdge(faces, i, k, m, n) ==> (m == i && n == k) || (m == j && n == l)
  }

  /** Every undirected edge lies in exactly two faces. */
  ghost predicate Watertight(faces: seq<Face>) {
    forall i, k :: Slot(faces, i, k) ==> SharedOnce(faces, i, k)
  }

  // ----- grids of points and the edges between neighbours

  /** `rings` rows of `width` points each, either way possibly closed into a circle, and
      possibly an apex in front of the first ring. */
  datatype Grid = Grid(apex: bool, rings: nat, width: nat, ringWrap: bool, colWrap: bool)

  datatype Point = Apex | At(r: nat, p: nat)

  datatype Key = Radial(r: nat, p: nat) | Ring(r: nat, p: nat) | Spoke(p: nat)

  /** An edge of the grid with a direction. */
  datatype Label = Label(key: Key, forward: bool)

  predicate GridOk(g: Grid) {
    && g.rings >= 2 && g.width >= 2
    && (g.ringWrap ==> g.rings >= 3)
    && (g.colWrap ==> g.width >= 3)
  }

  function RowCount(g: Grid): nat
    requires GridOk(g)
  {
    if g.ringWrap then g.rings else g.rings - 1
  }

  function ColCount(g: Grid): (n: nat)
    requires GridOk(g)
    ensures n > 0
  {
    if g.colWrap then g.width else g.width - 1
  }

  function Offset(g: Grid): nat { if g.apex then 1 else 0 }

  function VertexCount(g: Grid): nat { Offset(g) + g.rings * g.width }

  predicate OnGrid(g: Grid, q: Point) { if q.Apex? then g.apex else q.r < g.rings && q.p < g.width }

  function Number(g: Grid, q: Point): nat {
    if q.Apex? then 0 else Offset(g) + (q.r * g.width + q.p)
  }

  lemma {:induction false} RowsApart(r: nat, p: nat, r': nat, p': nat, width: nat)
    requires p < width && p' < width && r < r'
    ensures r * width + p < r' * width + p'
  {
    assert (r + 1) * width <= r' * width;
    assert (r + 1) * width == r * width + width;
  }

  lemma {:induction false} NumberInjective(g: Grid, a: Point, b: Point)
    requires OnGrid(g, a) && OnGrid(g, b) && Number(g, a) == Number(g, b)
    ensures a == b
  {
    if a.At? && b.At? {
      if a.r < b.r {
        RowsApart(a.r, a.p, b.r, b.p, g.width);
      } else if b.r < a.r {
        RowsApart(b.r, b.p, a.r, a.p, g.width);
      }
    }
  }

  lemma {:induction false} NumberBelow(g: Grid, q: Point)
    requires OnGrid(g, q) && g.rings > 0
    ensures Number(g, q) < VertexCount(g)
  {
    if q.At? {
      assert (q.r + 1) * g.width <= g.rings * g.width;
      assert (q.r + 1) * g.width == q.r * g.width + g.width;
    }
  }

  predicate KeyOk(g: Grid, key: Key)
    requires GridOk(g)
  {
    match key
    case Radial(r, p) => r < RowCount(g) && p < g.width
    case Ring(r, p) => r < g.rings && p < ColCount(g)
    case Spoke(p) => g.apex && p < g.width
  }

  function Start(key: Key): Point {
    match key
    case Radial(r, p) => At(r, p)
    case Ring(r, p) => At(r, p)
    case Spoke(_) => Apex
  }

  function End(g: Grid, key: Key): Point
    requires GridOk(g) && KeyOk(g, key)
  {
    match key
    case Radial(r, p) => At(Next(r, g.rings), p)
    case Ring(r, p) => At(r, Next(p, g.width))
    case Spoke(p) => At(0, p)
  }

  /** Two edges with the same two ends are the same edge. */
  lemma {:induction false} KeysDiffer(g: Grid, a: Key, b: Key)
    requires GridOk(g) && KeyOk(g, a) && KeyOk(g, b)
    ensures Start(a) != End(g, a)
    ensures Start(a) == Start(b) && End(g, a) == End(g, b) ==> a == b
    ensures !(Start(a) == End(g, b) && End(g, a) == Start(b))
  {
  }

  function FromPoint(g: Grid, l: Label): Point
    requires GridOk(g) && KeyOk(g, l.key)
  {
    if l.forward then Start(l.key) else End(g, l.key)
  }

  function ToPoint(g: Grid, l: Label): Point
    requires GridOk(g) && KeyOk(g, l.key)
  {
    if l.forward then End(g, l.key) else Start(l.key)
  }

  function Flip(l: Label): Label { Label(l.key, !l.forward) }

  lemma {:induction false} EndsOnGrid(g: Grid, l: Label)
    requires GridOk(g) && KeyOk(g, l.key)
    ensures OnGrid(g, FromPoint(g, l)) && OnGrid(g, ToPoint(g, l))
  {
  }

  /** The vertex numbers of a directed edge determine its label. */
  lemma {:induction false} LabelsDiffer(g: Grid, a: Label, b: Label)
    requires GridOk(g) && KeyOk(g, a.key) && KeyOk(g, b.key)
    ensures Number(g, FromPoint(g, a)) != Number(g, ToPoint(g, a))
    ensures Number(g, FromPoint(g, a)) == Number(g, FromPoint(g, b)) && Number(g, ToPoint(g, a)) == Number(g, ToPoint(g, b)) ==> a == b
    ensures Number(g, FromPoint(g, a)) == Number(g, ToPoint(g, b)) && Number(g, ToPoint(g, a)) == Number(g, FromPoint(g, b)) ==> a == Flip(b)
  {
    EndsOnGrid(g, a);
    EndsOnGrid(g, b);
    KeysDiffer(g, a.key, b.key);
    if Number(g, FromPoint(g, a)) == Number(g, ToPoint(g, a)) {
      NumberInjective(g, FromPoint(g, a), ToPoint(g, a));
    }
    if Number(g, FromPoint(g, a)) == Number(g, FromPoint(g, b)) && Number(g, ToPoint(g, a)) == Number(g, ToPoint(g, b)) {
      NumberInjective(g, FromPoint(g, a), FromPoint(g, b));
      NumberInjective(g, ToPoint(g, a), ToPoint(g, b));
    }
    if Number(g, FromPoint(g, a)) == Number(g, ToPoint(g, b)) && Number(g, ToPoint(g, a)) == Number(g, FromPoint(g, b)) {
      NumberInjective(g, FromPoint(g, a), ToPoint(g, b));
      NumberInjective(g, ToPoint(g, a), FromPoint(g, b));
    }
  }

  // ----- labelled face lists

  /** `name` gives the grid edge at every side of every face. */
  ghost predicate Labels(g: Grid, faces: seq<Face>, name: (int, int) -> Label)
    requires GridOk(g)
  {
    forall i, k :: Slot(faces, i, k) ==>
      && KeyOk(g, name(i, k).key)
      && From(faces, i, k) == Number(g, FromPoint(g, name(i, k)))
      && To(faces, i, k) == Number(g, ToPoint(g, name(i, k)))
  }

  lemma {:induction false} LabelsDecide(g: Grid, faces: seq<Face>, name: (int, int) -> Label, i: int, k: int, j: int, l: int)
    requires GridOk(g) && Labels(g, faces, name) && Slot(faces, i, k) && Slot(faces, j, l)
    ensures From(faces, i, k) != To(faces, i, k)
    ensures SameDirected(faces, i, k, j, l) <==> name(i, k) == name(j, l)
    ensures Reversed(faces, i, k, j, l) <==> name(i, k) == Flip(name(j, l))
    ensures SameEdge(faces, i, k, j, l) <==> name(i, k).key == name(j, l).key
  {
    LabelsDiffer(g, name(i, k), name(j, l));
  }

  lemma {:induction false} LabelledIndexes(g: Grid, faces: seq<Face>, name: (int, int) -> Label)
    requires GridOk(g) && Labels(g, faces, name)
    ensures IndexesBelow(faces, VertexCount(g))
  {
    forall i, k | Slot(faces, i, k) ensures faces[i][k] < VertexCount(g) {
      EndsOnGrid(g, name(i, k));
      NumberBelow(g, FromPoint(g, name(i, k)));
    }
  }

  /** Side (j, l) is the only other one with the key of (i, k). */
  ghost predicate Partner(faces: seq<Face>, name: (int, int) -> Label, i: int, k: int, j: int, l: int) {
    && Slot(faces, j, l) && j != i && name(j, l).key == name(i, k).key
    && forall m, n :: Slot(faces, m, n) && name(m, n).key == name(i, k).key ==> (m == i && n == k) || (m == j && n == l)
  }

  lemma {:induction false} LabelledShared(g: Grid, faces: seq<Face>, name: (int, int) -> Label, i: int, k: int, j: int, l: int)
    requires GridOk(g) && Labels(g, faces, name) && Slot(faces, i, k)
    requires Partner(faces, name, i, k, j, l)
    ensures SharedOnce(faces, i, k)
  {
    LabelsDecide(g, faces, name, i, k, j, l);
    forall m, n | Slot(faces, m, n) && SameEdge(faces, i, k, m, n) ensures (m == i && n == k) || (m == j && n == l) {
      LabelsDecide(g, faces, name, i, k, m, n);
    }
  }
}
