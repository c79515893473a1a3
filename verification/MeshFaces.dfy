/** The face lists of extrude, revolve, sweep, terrain and the dish bowl, as five shapes of
    one construction: a grid of quads, optionally closed off by two caps or a fan. */
module MeshFaces {
  import opened Polygon
  import opened Surfaces

  /** How a quad lists its corners, from the corner (r, p): `Flat` goes along the ring first,
      `Side` goes to the next ring first, and `Bowl` is `Flat` begun one corner later. */
  datatype Form = Flat | Bowl | Side

  datatype Caps = NoCaps | CapsFirst | CapsLast | Fan

  datatype Surface = Surface(grid: Grid, form: Form, caps: Caps)

  predicate HasCaps(s: Surface) { s.caps.CapsFirst? || s.caps.CapsLast? }

  predicate SurfaceOk(s: Surface) {
    && GridOk(s.grid)
    && (s.grid.apex <==> s.caps.Fan?)
    && (!s.caps.NoCaps? ==> !s.grid.ringWrap && s.grid.colWrap)
    && (s.caps.Fan? ==> !s.form.Side?)
  }

  // ----- the faces

  function Corner(g: Grid, r: nat, p: nat): nat { Number(g, At(r, p)) }

  function Quad(s: Surface, r: nat, p: nat): Face
    requires SurfaceOk(s) && r < RowCount(s.grid) && p < ColCount(s.grid)
  {
    var g := s.grid;
    var r', p' := Next(r, g.rings), Next(p, g.width);
    match s.form
    case Flat => [Corner(g, r, p), Corner(g, r, p'), Corner(g, r', p'), Corner(g, r', p)]
    case Bowl => [Corner(g, r, p'), Corner(g, r', p'), Corner(g, r', p), Corner(g, r, p)]
    case Side => [Corner(g, r, p), Corner(g, r', p), Corner(g, r', p'), Corner(g, r, p')]
  }

  function BottomCap(g: Grid): (f: Face)
    ensures |f| == g.width
  {
    seq(g.width, j requires 0 <= j < g.width => Corner(g, 0, g.width - 1 - j))
  }

  function TopCap(g: Grid): (f: Face)
    requires g.rings > 0
    ensures |f| == g.width
  {
    seq(g.width, j requires 0 <= j < g.width => Corner(g, g.rings - 1, j))
  }

  function FanFace(g: Grid, p: nat): Face
    requires p < g.width
  {
    [0, Corner(g, 0, Next(p, g.width)), Corner(g, 0, p)]
  }

  function FanFaces(g: Grid): seq<Face> { seq(g.width, p requires 0 <= p < g.width => FanFace(g, p)) }

  lemma {:induction false} Divide(r: nat, p: nat, width: nat, i: nat)
    requires p < width && i == r * width + p
    ensures i / width == r && i % width == p
  {
    var q, m := i / width, i % width;
    assert i == q * width + m;
    if q < r {
      RowsApart(q, m, r, p, width);
    } else if r < q {
      RowsApart(r, p, q, m, width);
    }
  }

  lemma {:induction false} Divided(i: nat, rows: nat, width: nat)
    requires width > 0 && i < rows * width
    ensures i / width < rows && i % width < width && i == (i / width) * width + i % width
  {
    assert i == (i / width) * width + i % width;
    MoreRows(rows, i / width, width);
  }

  lemma {:induction false} MoreRows(few: nat, many: nat, width: nat)
    ensures few <= many ==> few * width <= many * width
  {
  }

  function QuadCount(g: Grid): nat
    requires GridOk(g)
  {
    RowCount(g) * ColCount(g)
  }

  /** The first n quads, ring by ring. */
  function QuadList(s: Surface, n: nat): (faces: seq<Face>)
    requires SurfaceOk(s) && n <= QuadCount(s.grid)
    ensures |faces| == n
  {
    seq(n, i requires 0 <= i < n =>
      Divided(i, RowCount(s.grid), ColCount(s.grid));
      Quad(s, i / ColCount(s.grid), i % ColCount(s.grid)))
  }

  function QuadsFrom(s: Surface): nat {
    match s.caps case CapsFirst => 2 case Fan => s.grid.width case _ => 0
  }

  function FaceCount(s: Surface): nat
    requires SurfaceOk(s)
  {
    QuadsFrom(s) + QuadCount(s.grid) + if s.caps.CapsLast? then 2 else 0
  }

  function Faces(s: Surface): (faces: seq<Face>)
    requires SurfaceOk(s)
    ensures |faces| == FaceCount(s)
  {
    var quads := QuadList(s, QuadCount(s.grid));
    match s.caps
    case NoCaps => quads
    case CapsFirst => [BottomCap(s.grid), TopCap(s.grid)] + quads
    case CapsLast => quads + [BottomCap(s.grid), TopCap(s.grid)]
    case Fan => FanFaces(s.grid) + quads
  }

  // ----- faces by what they are instead of where they are listed

  datatype Piece = QuadPiece(r: nat, p: nat) | BottomPiece | TopPiece | FanPiece(p: nat)

  predicate PieceOk(s: Surface, x: Piece)
    requires SurfaceOk(s)
  {
    match x
    case QuadPiece(r, p) => r < RowCount(s.grid) && p < ColCount(s.grid)
    case FanPiece(p) => s.caps.Fan? && p < s.grid.width
    case _ => HasCaps(s)
  }

  function FaceOf(s: Surface, x: Piece): Face
    requires SurfaceOk(s) && PieceOk(s, x)
  {
    match x
    case QuadPiece(r, p) => Quad(s, r, p)
    case BottomPiece => BottomCap(s.grid)
    case TopPiece => TopCap(s.grid)
    case FanPiece(p) => FanFace(s.grid, p)
  }

  function IndexOf(s: Surface, x: Piece): nat
    requires SurfaceOk(s) && PieceOk(s, x)
  {
    match x
    case QuadPiece(r, p) => QuadsFrom(s) + (r * ColCount(s.grid) + p)
    case BottomPiece => if s.caps.CapsFirst? then 0 else QuadCount(s.grid)
    case TopPiece => if s.caps.CapsFirst? then 1 else QuadCount(s.grid) + 1
    case FanPiece(p) => p
  }

  function PieceOf(s: Surface, i: nat): (x: Piece)
    requires SurfaceOk(s) && i < FaceCount(s)
    ensures PieceOk(s, x)
  {
    if QuadsFrom(s) <= i < QuadsFrom(s) + QuadCount(s.grid) then QuadAt(s.grid, i - QuadsFrom(s))
    else if s.caps.Fan? then FanPiece(i)
    else if i == 0 || i == QuadCount(s.grid) then BottomPiece
    else TopPiece
  }

  function QuadAt(g: Grid, i: nat): (x: Piece)
    requires GridOk(g) && i < QuadCount(g)
    ensures x.QuadPiece? && x.r < RowCount(g) && x.p < ColCount(g)
    ensures x.r * ColCount(g) + x.p == i
  {
    Divided(i, RowCount(g), ColCount(g));
    QuadPiece(i / ColCount(g), i % ColCount(g))
  }

  lemma {:induction false} PieceAt(s: Surface, i: nat)
    requires SurfaceOk(s) && i < FaceCount(s)
    ensures Faces(s)[i] == FaceOf(s, PieceOf(s, i))
    ensures IndexOf(s, PieceOf(s, i)) == i
  {
    var from := QuadsFrom(s);
    if from <= i < from + QuadCount(s.grid) {
      assert Faces(s)[i] == QuadList(s, QuadCount(s.grid))[i - from];
    }
  }

  lemma {:induction false} QuadIndex(g: Grid, r: nat, p: nat)
    requires GridOk(g) && r < RowCount(g) && p < ColCount(g)
    ensures 0 <= r * ColCount(g) + p < QuadCount(g)
    ensures (r * ColCount(g) + p) / ColCount(g) == r && (r * ColCount(g) + p) % ColCount(g) == p
  {
    var width := ColCount(g);
    Divide(r, p, width, r * width + p);
    RowsFit(r, p, RowCount(g), width);
  }

  lemma {:induction false} RowsFit(r: nat, p: nat, rows: nat, width: nat)
    requires r < rows && p < width
    ensures r * width + p < rows * width
  {
    assert (r + 1) * width <= rows * width;
    assert (r + 1) * width == r * width + width;
  }

  lemma {:induction false} PieceListed(s: Surface, x: Piece)
    requires SurfaceOk(s) && PieceOk(s, x)
    ensures IndexOf(s, x) < FaceCount(s) && PieceOf(s, IndexOf(s, x)) == x
  {
    if x.QuadPiece? {
      QuadIndex(s.grid, x.r, x.p);
    }
  }

  // ----- which edge is at which side

  function Before(p: nat, n: nat): (q: nat)
    requires p < n
    ensures q < n && Next(q, n) == p
  {
    if p == 0 then n - 1 else p - 1
  }

  function SideCount(s: Surface, x: Piece): nat {
    match x case QuadPiece(_, _) => 4 case FanPiece(_) => 3 case _ => s.grid.width
  }

  function QuadName(g: Grid, r: nat, p: nat, k: int): Label
    requires GridOk(g) && r < RowCount(g) && p < ColCount(g)
  {
    if k == 0 then Label(Ring(r, p), true)
    else if k == 1 then Label(Radial(r, Next(p, g.width)), true)
    else if k == 2 then Label(Ring(Next(r, g.rings), p), false)
    else Label(Radial(r, p), false)
  }

  /** The grid edge along side k of a piece. */
  function SideName(s: Surface, x: Piece, k: int): Label
    requires SurfaceOk(s) && PieceOk(s, x) && 0 <= k < SideCount(s, x)
  {
    var g := s.grid;
    match x
    case QuadPiece(r, p) =>
      (match s.form
       case Flat => QuadName(g, r, p, k)
       case Bowl => QuadName(g, r, p, if k == 3 then 0 else k + 1)
       case Side => Surfaces.Flip(QuadName(g, r, p, 3 - k)))
    case BottomPiece => Label(Ring(0, Before(g.width - 1 - k, g.width)), false)
    case TopPiece => Label(Ring(g.rings - 1, k), true)
    case FanPiece(p) =>
      if k == 0 then Label(Spoke(Next(p, g.width)), true)
      else if k == 1 then Label(Ring(0, p), false)
      else Label(Spoke(p), false)
  }

  lemma {:induction false} SideNameFits(s: Surface, x: Piece, k: int)
    requires SurfaceOk(s) && PieceOk(s, x) && 0 <= k < SideCount(s, x)
    ensures |FaceOf(s, x)| == SideCount(s, x)
    ensures KeyOk(s.grid, SideName(s, x, k).key)
    ensures FaceOf(s, x)[k] == Number(s.grid, FromPoint(s.grid, SideName(s, x, k)))
    ensures FaceOf(s, x)[Next(k, SideCount(s, x))] == Number(s.grid, ToPoint(s.grid, SideName(s, x, k)))
  {
    if x.QuadPiece? {
      QuadNameFits(s, x.r, x.p, k);
    } else if x.BottomPiece? {
      var g := s.grid;
      var q := g.width - 1 - k;
      assert g.width - 1 - Next(k, g.width) == Before(q, g.width);
      assert BottomCap(g)[k] == Corner(g, 0, q);
      assert BottomCap(g)[Next(k, g.width)] == Corner(g, 0, Before(q, g.width));
      assert SideName(s, x, k) == Label(Ring(0, Before(q, g.width)), false);
    }
  }

  lemma {:induction false} QuadNameFits(s: Surface, r: nat, p: nat, k: int)
    requires SurfaceOk(s) && PieceOk(s, QuadPiece(r, p)) && 0 <= k < 4
    ensures var l := SideName(s, QuadPiece(r, p), k);
            && KeyOk(s.grid, l.key)
            && Quad(s, r, p)[k] == Number(s.grid, FromPoint(s.grid, l))
            && Quad(s, r, p)[Next(k, 4)] == Number(s.grid, ToPoint(s.grid, l))
  {
    if k == 0 {
    } else if k == 1 {
    } else if k == 2 {
    } else {
    }
  }

  // ----- the two sides along each edge

  datatype Where = Nowhere | There(piece: Piece, side: int)

  function LowSide(form: Form, key: Key): int {
    match form
    case Flat => if key.Ring? then 0 else 3
    case Bowl => if key.Ring? then 3 else 2
    case Side => if key.Ring? then 3 else 0
  }

  function HighSide(form: Form, key: Key): int {
    match form
    case Flat => if key.Ring? then 2 else 1
    case Bowl => if key.Ring? then 1 else 0
    case Side => if key.Ring? then 1 else 2
  }

  /** The quad that starts at the edge, or what stands in for it at the far end. */
  function Low(s: Surface, key: Key): (w: Where)
    requires SurfaceOk(s) && KeyOk(s.grid, key)
    ensures w.There? ==> PieceOk(s, w.piece) && 0 <= w.side < SideCount(s, w.piece)
  {
    match key
    case Spoke(p) => There(FanPiece(p), 2)
    case Ring(r, p) =>
      if r < RowCount(s.grid) then There(QuadPiece(r, p), LowSide(s.form, key))
      else if HasCaps(s) then There(TopPiece, p) else Nowhere
    case Radial(r, p) =>
      if p < ColCount(s.grid) then There(QuadPiece(r, p), LowSide(s.form, key)) else Nowhere
  }

  /** The quad that ends at the edge, or what stands in for it at the near end. */
  function High(s: Surface, key: Key): (w: Where)
    requires SurfaceOk(s) && KeyOk(s.grid, key)
    ensures w.There? ==> PieceOk(s, w.piece) && 0 <= w.side < SideCount(s, w.piece)
  {
    var g := s.grid;
    match key
    case Spoke(p) => There(FanPiece(Before(p, g.width)), 0)
    case Ring(r, p) =>
      if r > 0 || g.ringWrap then There(QuadPiece(Before(r, g.rings), p), HighSide(s.form, key))
      else if HasCaps(s) then There(BottomPiece, g.width - 1 - Next(p, g.width))
      else if s.caps.Fan? then There(FanPiece(p), 1) else Nowhere
    case Radial(r, p) =>
      if p > 0 || g.colWrap then There(QuadPiece(r, Before(p, g.width)), HighSide(s.form, key)) else Nowhere
  }

  /** Both sides carry their edge's key, and they belong to different faces. */
  lemma {:induction false} SidesCarryKey(s: Surface, key: Key)
    requires SurfaceOk(s) && KeyOk(s.grid, key)
    ensures var w := Low(s, key); w.There? ==> SideName(s, w.piece, w.side).key == key
    ensures var w := High(s, key); w.There? ==> SideName(s, w.piece, w.side).key == key
    ensures Low(s, key).There? && High(s, key).There? ==> Low(s, key).piece != High(s, key).piece
  {
  }

  /** And no other side does. */
  lemma {:induction false} SideIsLowOrHigh(s: Surface, x: Piece, k: int)
    requires SurfaceOk(s) && PieceOk(s, x) && 0 <= k < SideCount(s, x)
    ensures KeyOk(s.grid, SideName(s, x, k).key)
    ensures There(x, k) == Low(s, SideName(s, x, k).key) || There(x, k) == High(s, SideName(s, x, k).key)
  {
  }

  // ----- from pieces to the face list

  function NameOf(s: Surface, i: int, k: int): Label
    requires SurfaceOk(s)
  {
    if 0 <= i < FaceCount(s) && 0 <= k < SideCount(s, PieceOf(s, i)) then SideName(s, PieceOf(s, i), k)
    else Label(Spoke(0), true)
  }

  /** The grid edge at every side of the face list. */
  ghost function Names(s: Surface): (int, int) -> Label
    requires SurfaceOk(s)
  {
    (i: int, k: int) => NameOf(s, i, k)
  }

  /** Side k of face i goes along the grid edge. */
  predicate RunsAlong(s: Surface, i: int, k: int, l: Label)
    requires SurfaceOk(s) && Slot(Faces(s), i, k)
  {
    && KeyOk(s.grid, l.key)
    && From(Faces(s), i, k) == Number(s.grid, FromPoint(s.grid, l))
    && To(Faces(s), i, k) == Number(s.grid, ToPoint(s.grid, l))
  }

  lemma {:induction false} SlotPiece(s: Surface, i: int, k: int) returns (x: Piece)
    requires SurfaceOk(s) && Slot(Faces(s), i, k)
    ensures PieceOk(s, x) && 0 <= k < SideCount(s, x) && IndexOf(s, x) == i
    ensures Names(s)(i, k) == SideName(s, x, k) && RunsAlong(s, i, k, SideName(s, x, k))
  {
    x := PieceOf(s, i);
    PieceAt(s, i);
    SideNameFits(s, x, 0);
    SideNameFits(s, x, k);
  }

  lemma {:induction false} PieceSlot(s: Surface, x: Piece, k: int)
    requires SurfaceOk(s) && PieceOk(s, x) && 0 <= k < SideCount(s, x)
    ensures Slot(Faces(s), IndexOf(s, x), k)
    ensures Names(s)(IndexOf(s, x), k) == SideName(s, x, k)
  {
    PieceListed(s, x);
    PieceAt(s, IndexOf(s, x));
    SideNameFits(s, x, k);
  }

  lemma {:induction false} NamesFit(s: Surface)
    requires SurfaceOk(s)
    ensures Labels(s.grid, Faces(s), Names(s))
    ensures IndexesBelow(Faces(s), VertexCount(s.grid))
  {
    forall i, k | Slot(Faces(s), i, k)
      ensures KeyOk(s.grid, Names(s)(i, k).key)
      ensures From(Faces(s), i, k) == Number(s.grid, FromPoint(s.grid, Names(s)(i, k)))
      ensures To(Faces(s), i, k) == Number(s.grid, ToPoint(s.grid, Names(s)(i, k)))
    {
      var x := SlotPiece(s, i, k);
      SideNameFits(s, x, k);
    }
    LabelledIndexes(s.grid, Faces(s), Names(s));
  }

  /** Both sides of the edge are there. */
  predicate TwoSided(s: Surface, key: Key)
    requires SurfaceOk(s) && KeyOk(s.grid, key)
  {
    Low(s, key).There? && High(s, key).There?
  }

  /** The two sides run opposite ways. */
  predicate Opposed(s: Surface, key: Key)
    requires SurfaceOk(s) && KeyOk(s.grid, key) && TwoSided(s, key)
  {
    var low, high := Low(s, key), High(s, key);
    SideName(s, low.piece, low.side).forward != SideName(s, high.piece, high.side).forward
  }

  /** The slot of one side of an edge. */
  lemma {:induction false} WhereSlot(s: Surface, key: Key, w: Where) returns (i: int)
    requires SurfaceOk(s) && KeyOk(s.grid, key) && w.There? && (w == Low(s, key) || w == High(s, key))
    ensures i == IndexOf(s, w.piece) && Slot(Faces(s), i, w.side)
    ensures Names(s)(i, w.side) == SideName(s, w.piece, w.side) && Names(s)(i, w.side).key == key
  {
    i := IndexOf(s, w.piece);
    PieceSlot(s, w.piece, w.side);
    SidesCarryKey(s, key);
  }

  lemma {:induction false} SlotIsLowOrHigh(s: Surface, i: int, k: int) returns (w: Where)
    requires SurfaceOk(s) && Slot(Faces(s), i, k)
    ensures w.There? && PieceOk(s, w.piece) && IndexOf(s, w.piece) == i && w.side == k
    ensures KeyOk(s.grid, Names(s)(i, k).key)
    ensures w == Low(s, Names(s)(i, k).key) || w == High(s, Names(s)(i, k).key)
  {
    var x := SlotPiece(s, i, k);
    SideIsLowOrHigh(s, x, k);
    w := There(x, k);
  }

  lemma {:induction false} OtherSide(s: Surface, i: int, k: int) returns (j: int, l: int)
    requires SurfaceOk(s) && Slot(Faces(s), i, k)
    requires KeyOk(s.grid, Names(s)(i, k).key) && TwoSided(s, Names(s)(i, k).key)
    ensures Partner(Faces(s), Names(s), i, k, j, l)
    ensures Opposed(s, Names(s)(i, k).key) <==> Names(s)(j, l) == Surfaces.Flip(Names(s)(i, k))
  {
    var key := Names(s)(i, k).key;
    var here := SlotIsLowOrHigh(s, i, k);
    var low, high := Low(s, key), High(s, key);
    SidesCarryKey(s, key);
    var il := WhereSlot(s, key, low);
    var ih := WhereSlot(s, key, high);
    PieceListed(s, low.piece);
    PieceListed(s, high.piece);
    if here == low {
      j, l := ih, high.side;
    } else {
      j, l := il, low.side;
    }
    forall m, n | Slot(Faces(s), m, n) && Names(s)(m, n).key == key ensures (m == i && n == k) || (m == j && n == l) {
      var there := SlotIsLowOrHigh(s, m, n);
    }
  }

  /** An edge of the face list is shared by exactly one other face when its grid edge has two
      sides, and only then. */
  lemma {:induction false} SharedIffTwoSided(s: Surface, i: int, k: int)
    requires SurfaceOk(s) && Slot(Faces(s), i, k)
    ensures KeyOk(s.grid, Names(s)(i, k).key)
    ensures SharedOnce(Faces(s), i, k) <==> TwoSided(s, Names(s)(i, k).key)
  {
    NamesFit(s);
    var key := Names(s)(i, k).key;
    var here := SlotIsLowOrHigh(s, i, k);
    if TwoSided(s, key) {
      var j, l := OtherSide(s, i, k);
      LabelledShared(s.grid, Faces(s), Names(s), i, k, j, l);
    }
    if SharedOnce(Faces(s), i, k) {
      var j, l :| Slot(Faces(s), j, l) && j != i && SameEdge(Faces(s), i, k, j, l);
      LabelsDecide(s.grid, Faces(s), Names(s), i, k, j, l);
      var there := SlotIsLowOrHigh(s, j, l);
    }
  }

  /** Some face runs along an edge the other way exactly when the edge has two sides and they
      are opposed. */
  lemma {:induction false} PairedIffOpposed(s: Surface, i: int, k: int)
    requires SurfaceOk(s) && Slot(Faces(s), i, k)
    ensures KeyOk(s.grid, Names(s)(i, k).key)
    ensures Paired(Faces(s), i, k) <==> TwoSided(s, Names(s)(i, k).key) && Opposed(s, Names(s)(i, k).key)
  {
    NamesFit(s);
    var here := SlotIsLowOrHigh(s, i, k);
    if TwoSided(s, Names(s)(i, k).key) && Opposed(s, Names(s)(i, k).key) {
      var j, l := OtherSide(s, i, k);
      LabelsDecide(s.grid, Faces(s), Names(s), i, k, j, l);
    }
    if Paired(Faces(s), i, k) {
      var j, l :| Slot(Faces(s), j, l) && Reversed(Faces(s), i, k, j, l);
      LabelsDecide(s.grid, Faces(s), Names(s), i, k, j, l);
      var there := SlotIsLowOrHigh(s, j, l);
      var m, n := OtherSide(s, i, k);
    }
  }

  /** No directed edge occurs twice exactly when all two-sided edges are opposed. */
  lemma {:induction false} OrientedIffOpposed(s: Surface)
    requires SurfaceOk(s)
    ensures Oriented(Faces(s)) <==> forall key :: KeyOk(s.grid, key) && TwoSided(s, key) ==> Opposed(s, key)
  {
    NamesFit(s);
    if Oriented(Faces(s)) {
      forall key | KeyOk(s.grid, key) && TwoSided(s, key) ensures Opposed(s, key) {
        var i := WhereSlot(s, key, Low(s, key));
        var k := Low(s, key).side;
        var j, l := OtherSide(s, i, k);
        LabelsDecide(s.grid, Faces(s), Names(s), i, k, j, l);
      }
    }
    if forall key :: KeyOk(s.grid, key) && TwoSided(s, key) ==> Opposed(s, key) {
      forall i, k, j, l | Slot(Faces(s), i, k) && Slot(Faces(s), j, l) && SameDirected(Faces(s), i, k, j, l)
        ensures i == j && k == l
      {
        OpposedIsOnce(s, i, k, j, l);
      }
    }
  }

  lemma {:induction false} OpposedIsOnce(s: Surface, i: int, k: int, j: int, l: int)
    requires SurfaceOk(s) && Slot(Faces(s), i, k) && Slot(Faces(s), j, l) && SameDirected(Faces(s), i, k, j, l)
    requires forall key :: KeyOk(s.grid, key) && TwoSided(s, key) ==> Opposed(s, key)
    ensures i == j && k == l
  {
    NamesFit(s);
    LabelsDecide(s.grid, Faces(s), Names(s), i, k, j, l);
    var here := SlotIsLowOrHigh(s, i, k);
    var there := SlotIsLowOrHigh(s, j, l);
    if here != there {
      var m, n := OtherSide(s, i, k);
    }
  }

  // ----- when edges are two-sided and opposed

  /** The rim of an open grid. */
  predicate OnBorder(s: Surface, key: Key) {
    var g := s.grid;
    match key
    case Spoke(_) => false
    case Ring(r, _) => !g.ringWrap && !HasCaps(s) && (r == g.rings - 1 || (r == 0 && !g.apex))
    case Radial(_, p) => !g.colWrap && (p == 0 || p == g.width - 1)
  }

  lemma {:induction false} TwoSidedIffInner(s: Surface, key: Key)
    requires SurfaceOk(s) && KeyOk(s.grid, key)
    ensures TwoSided(s, key) <==> !OnBorder(s, key)
  {
  }

  /** A cap is wound against its neighbours, except where the sides go to the next ring first. */
  predicate CapClash(s: Surface, key: Key) {
    HasCaps(s) && s.form.Side? && key.Ring? && (key.r == 0 || key.r == s.grid.rings - 1)
  }

  lemma {:induction false} OpposedUnlessCapped(s: Surface, key: Key)
    requires SurfaceOk(s) && KeyOk(s.grid, key) && TwoSided(s, key)
    ensures Opposed(s, key) <==> !CapClash(s, key)
  {
  }

  // ----- the theorems

  /** What every surface of this kind satisfies. */
  lemma {:induction false} SurfaceTheorem(s: Surface)
    requires SurfaceOk(s)
    ensures IndexesBelow(Faces(s), VertexCount(s.grid))
    ensures Watertight(Faces(s)) <==> s.grid.colWrap && (s.grid.ringWrap || HasCaps(s))
    ensures Oriented(Faces(s)) <==> !(HasCaps(s) && s.form.Side?)
    ensures forall i, k :: Slot(Faces(s), i, k) ==>
              (Paired(Faces(s), i, k) <==> !OnBorder(s, Names(s)(i, k).key) && !CapClash(s, Names(s)(i, k).key))
  {
    NamesFit(s);
    ClosedIffWatertight(s);
    OrientedUnlessClash(s);
    forall i, k | Slot(Faces(s), i, k)
      ensures Paired(Faces(s), i, k) <==> !OnBorder(s, Names(s)(i, k).key) && !CapClash(s, Names(s)(i, k).key)
    {
      PairedIffOpposed(s, i, k);
      TwoSidedIffInner(s, Names(s)(i, k).key);
      if TwoSided(s, Names(s)(i, k).key) {
        OpposedUnlessCapped(s, Names(s)(i, k).key);
      }
    }
  }

  lemma {:induction false} ClosedIffWatertight(s: Surface)
    requires SurfaceOk(s)
    ensures Watertight(Faces(s)) <==> s.grid.colWrap && (s.grid.ringWrap || HasCaps(s))
  {
    var g := s.grid;
    if g.colWrap && (g.ringWrap || HasCaps(s)) {
      forall i, k | Slot(Faces(s), i, k) ensures SharedOnce(Faces(s), i, k) {
        SharedIffTwoSided(s, i, k);
        TwoSidedIffInner(s, Names(s)(i, k).key);
      }
    } else {
      var key := if g.colWrap then Ring(g.rings - 1, 0) else Radial(0, 0);
      TwoSidedIffInner(s, key);
      var w := if g.colWrap then High(s, key) else Low(s, key);
      var i := WhereSlot(s, key, w);
      SharedIffTwoSided(s, i, w.side);
    }
  }

  lemma {:induction false} OrientedUnlessClash(s: Surface)
    requires SurfaceOk(s)
    ensures Oriented(Faces(s)) <==> !(HasCaps(s) && s.form.Side?)
  {
    OrientedIffOpposed(s);
    if HasCaps(s) && s.form.Side? {
      TwoSidedIffInner(s, Ring(0, 0));
      OpposedUnlessCapped(s, Ring(0, 0));
    } else {
      forall key | KeyOk(s.grid, key) && TwoSided(s, key) ensures Opposed(s, key) {
        OpposedUnlessCapped(s, key);
      }
    }
  }
}
