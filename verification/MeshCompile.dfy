/** The vertex and face construction of the worker, and what its surfaces satisfy. */
module MeshCompiler {
  import opened Affine
  import opened Polygon
  import opened Program
  import opened MeshVertices
  import opened Surfaces
  import opened MeshFaces

  datatype Mesh = Mesh(vertices: seq<Vec3>, faces: seq<Face>)

  // ----- the surface behind each construction

  function ExtrudeSurface(count: nat): Surface { Surface(Grid(false, 2, count, false, true), Flat, CapsFirst) }

  function RevolveSurface(ringCount: nat, count: nat, full: bool, closed: bool): Surface {
    Surface(Grid(false, ringCount, count, full, closed), Side, if !full && closed then CapsLast else NoCaps)
  }

  function SweepSurface(pathCount: nat, count: nat, cyclic: bool): Surface {
    Surface(Grid(false, pathCount, count, cyclic, true), Side, if cyclic then NoCaps else CapsLast)
  }

  function TerrainSurface(columns: nat, rows: nat): Surface {
    Surface(Grid(false, rows, columns, false, false), Flat, NoCaps)
  }

  const DISH_RINGS := 8
  const DISH_SEGMENTS := 32
  const DISH_SURFACE := Surface(Grid(true, DISH_RINGS, DISH_SEGMENTS, false, true), Bowl, Fan)

  // ----- loops over rings and profile edges

  lemma {:induction false} QuadListGrows(s: Surface, r: nat, p: nat)
    requires SurfaceOk(s) && r < RowCount(s.grid) && p < ColCount(s.grid)
    ensures 0 <= r * ColCount(s.grid) + p < QuadCount(s.grid)
    ensures QuadList(s, r * ColCount(s.grid) + p + 1) == QuadList(s, r * ColCount(s.grid) + p) + [Quad(s, r, p)]
  {
    QuadIndex(s.grid, r, p);
  }

  lemma {:induction false} RowListed(s: Surface, r: nat)
    requires SurfaceOk(s) && r <= RowCount(s.grid)
    ensures 0 <= r * ColCount(s.grid) <= QuadCount(s.grid)
    ensures (r + 1) * ColCount(s.grid) == r * ColCount(s.grid) + ColCount(s.grid)
  {
    MoreRows(r, RowCount(s.grid), ColCount(s.grid));
    NextRow(r, ColCount(s.grid));
  }

  /** The quads between consecutive rings, as revolve and sweep list them. */
  method SideQuads(s: Surface) returns (faces: seq<Face>)
    requires SurfaceOk(s) && s.form.Side? && !s.grid.apex
    ensures faces == QuadList(s, QuadCount(s.grid))
  {
    var ringCount, count := s.grid.rings, s.grid.width;
    var ringEdges := if s.grid.ringWrap then ringCount else ringCount - 1;
    var profileEdges := if s.grid.colWrap then count else count - 1;
    faces := [];
    for ring := 0 to ringEdges
      invariant ring * profileEdges <= QuadCount(s.grid)
      invariant faces == QuadList(s, ring * profileEdges)
    {
      RowListed(s, ring);
      RowListed(s, ring + 1);
      var nextRing := (ring + 1) % ringCount;
      for p := 0 to profileEdges
        invariant ring * profileEdges + p <= QuadCount(s.grid)
        invariant faces == QuadList(s, ring * profileEdges + p)
      {
        QuadListGrows(s, ring, p);
        var nextProfile := (p + 1) % count;
        faces := faces + [[ring * count + p, nextRing * count + p,
                           nextRing * count + nextProfile, ring * count + nextProfile]];
      }
    }
  }

  /** The two end caps: the first ring backwards and the last ring forwards. */
  function EndCaps(g: Grid): seq<Face>
    requires GridOk(g)
  {
    [seq(g.width, j requires 0 <= j < g.width => g.width - 1 - j),
     seq(g.width, j requires 0 <= j < g.width => (g.rings - 1) * g.width + j)]
  }

  lemma {:induction false} FirstRowNumber(g: Grid, p: nat)
    requires !g.apex
    ensures Corner(g, 0, p) == p
  {
  }

  lemma {:induction false} EndCapsAreCaps(g: Grid)
    requires GridOk(g) && !g.apex
    ensures EndCaps(g) == [BottomCap(g), TopCap(g)]
  {
    var caps := EndCaps(g);
    forall j | 0 <= j < g.width ensures caps[0][j] == BottomCap(g)[j] {
      FirstRowNumber(g, g.width - 1 - j);
    }
    assert caps[0] == BottomCap(g);
    assert caps[1] == TopCap(g);
  }

  // ----- extrude

  function ExtrudeFaces(count: nat): seq<Face>
    requires count > 0
  {
    [seq(count, j requires 0 <= j < count => count - 1 - j), seq(count, j requires 0 <= j < count => count + j)]
    + seq(count, i requires 0 <= i < count => [i, (i + 1) % count, count + (i + 1) % count, count + i])
  }

  lemma {:induction false} ExtrudeFacesAre(count: nat)
    requires count >= 3
    ensures ExtrudeFaces(count) == Faces(ExtrudeSurface(count))
  {
    var s := ExtrudeSurface(count);
    var quads := seq(count, i requires 0 <= i < count => [i, (i + 1) % count, count + (i + 1) % count, count + i]);
    EndCapsAreCaps(s.grid);
    assert seq(count, j requires 0 <= j < count => count + j) == TopCap(s.grid);
    assert seq(count, j requires 0 <= j < count => count - 1 - j) == BottomCap(s.grid);
    forall i | 0 <= i < count ensures quads[i] == QuadList(s, count)[i] {
      Divide(0, i, count, i);
    }
    assert quads == QuadList(s, count);
  }

  function CompileExtrude(outline: seq<Vec2>, depth: real): Mesh
    requires outline != []
  {
    Mesh(ExtrudeVertices(outline, depth), ExtrudeFaces(|outline|))
  }

  // ----- revolve

  lemma {:induction false} RevolveRingsGrow(outline: seq<Vec2>, rings: seq<Angle>, i: nat)
    requires i < |rings|
    ensures Stack(RevolveRings(outline, rings[..i + 1]))
         == Stack(RevolveRings(outline, rings[..i])) + RevolveRing(outline, rings[i])
  {
    assert RevolveRings(outline, rings[..i + 1])[..i] == RevolveRings(outline, rings[..i]);
  }

  method CompileRevolve(k: Kind, outline: seq<Vec2>, closed: bool) returns (mesh: Mesh)
    requires k.Revolve? && KindOk(k) && ProfileOk(outline, closed)
    ensures mesh.vertices == Stack(RevolveRings(outline, k.rings))
    ensures mesh.faces == Faces(RevolveSurface(|k.rings|, |outline|, FullTurn(k.angleDeg), closed))
  {
    var vertices := [];
    for i := 0 to |k.rings|
      invariant vertices == Stack(RevolveRings(outline, k.rings[..i]))
    {
      RevolveRingsGrow(outline, k.rings, i);
      vertices := vertices + RevolveRing(outline, k.rings[i]);
    }
    assert k.rings[..|k.rings|] == k.rings;
    var s := RevolveSurface(|k.rings|, |outline|, FullTurn(k.angleDeg), closed);
    var faces := SideQuads(s);
    if !FullTurn(k.angleDeg) && closed {
      EndCapsAreCaps(s.grid);
      faces := faces + EndCaps(s.grid);
    }
    mesh := Mesh(vertices, faces);
  }

  // ----- sweep

  method SweepVertices(sqrt: real -> real, outline: seq<Vec2>, path: seq<Vec3>, cyclic: bool) returns (vertices: seq<Vec3>)
    ensures vertices == Stack(SweepRings(sqrt, outline, path, cyclic))
  {
    ghost var rings := SweepRings(sqrt, outline, path, cyclic);
    vertices := [];
    for i := 0 to |path|
      invariant vertices == Stack(rings[..i])
    {
      StackGrows(rings, i);
      SweepRingAt(sqrt, outline, path, cyclic, i);
      vertices := vertices + SweepRing(sqrt, outline, path, cyclic, i);
    }
    assert rings[..|path|] == rings;
  }

  method CompileSweep(sqrt: real -> real, k: Kind, outline: seq<Vec2>) returns (mesh: Mesh)
    requires k.Sweep? && KindOk(k) && ProfileOk(outline, true)
    ensures mesh.vertices == Stack(SweepRings(sqrt, outline, k.path, k.cyclic))
    ensures mesh.faces == Faces(SweepSurface(|k.path|, |outline|, k.cyclic))
  {
    var vertices := SweepVertices(sqrt, outline, k.path, k.cyclic);
    var faces := SweepFaces(|k.path|, |outline|, k.cyclic);
    mesh := Mesh(vertices, faces);
  }

  method SweepFaces(pathCount: nat, count: nat, cyclic: bool) returns (faces: seq<Face>)
    requires pathCount >= 2 && count >= 3 && (cyclic ==> pathCount >= 3)
    ensures faces == Faces(SweepSurface(pathCount, count, cyclic))
  {
    var s := SweepSurface(pathCount, count, cyclic);
    faces := SideQuads(s);
    if !cyclic {
      EndCapsAreCaps(s.grid);
      faces := faces + EndCaps(s.grid);
    }
  }

  // ----- terrain

  function TerrainFaceRow(columns: nat, row: nat): seq<Face>
    requires columns >= 2
  {
    seq(columns - 1, column requires 0 <= column < columns - 1 =>
      [row * columns + column, row * columns + column + 1,
       (row + 1) * columns + column + 1, (row + 1) * columns + column])
  }

  /** The faces of the first k rows of cells. */
  function TerrainFaces(columns: nat, k: nat): seq<Face>
    requires columns >= 2
  {
    if k == 0 then [] else TerrainFaces(columns, k - 1) + TerrainFaceRow(columns, k - 1)
  }

  lemma {:induction false} TerrainFaceRowIs(columns: nat, rows: nat, row: nat)
    requires columns >= 2 && rows >= 2 && row < rows - 1
    ensures 0 <= row * (columns - 1) <= (row + 1) * (columns - 1) <= QuadCount(TerrainSurface(columns, rows).grid)
    ensures QuadList(TerrainSurface(columns, rows), (row + 1) * (columns - 1))
         == QuadList(TerrainSurface(columns, rows), row * (columns - 1)) + TerrainFaceRow(columns, row)
  {
    var s := TerrainSurface(columns, rows);
    RowListed(s, row);
    RowListed(s, row + 1);
    var before, after := QuadList(s, row * (columns - 1)), QuadList(s, (row + 1) * (columns - 1));
    forall column | 0 <= column < columns - 1
      ensures after[row * (columns - 1) + column] == TerrainFaceRow(columns, row)[column]
    {
      QuadIndex(s.grid, row, column);
      assert after[row * (columns - 1) + column] == Quad(s, row, column);
    }
  }

  lemma {:induction false} TerrainFacesAre(columns: nat, rows: nat, k: nat)
    requires columns >= 2 && rows >= 2 && k <= rows - 1
    ensures 0 <= k * (columns - 1) <= QuadCount(TerrainSurface(columns, rows).grid)
    ensures TerrainFaces(columns, k) == QuadList(TerrainSurface(columns, rows), k * (columns - 1))
  {
    RowListed(TerrainSurface(columns, rows), k);
    if k > 0 {
      TerrainFacesAre(columns, rows, k - 1);
      TerrainFaceRowIs(columns, rows, k - 1);
    }
  }

  function CompileTerrain(k: Kind): Mesh
    requires k.Terrain? && KindOk(k)
  {
    Mesh(Stack(TerrainRows(k.width, k.breadth, k.columns, k.rows, k.heights)), TerrainFaces(k.columns, k.rows - 1))
  }

  // ----- what the meshes satisfy

  lemma {:induction false} RingsFill(rings: seq<seq<Vec3>>, width: nat, g: Grid)
    requires !g.apex && g.rings == |rings| && g.width == width
    requires forall i :: 0 <= i < |rings| ==> |rings[i]| == width
    ensures |Stack(rings)| == VertexCount(g)
  {
    StackLength(rings, width);
  }

  /** No surface of any of these kinds is empty. */
  lemma {:induction false} SurfaceNotEmpty(s: Surface)
    requires SurfaceOk(s)
    ensures Faces(s) != [] && VertexCount(s.grid) > 0
  {
    QuadIndex(s.grid, 0, 0);
    MoreRows(2, s.grid.rings, s.grid.width);
  }

  /** So the worker's check for empty meshes never stops an extrusion, a revolution, a sweep or
      a terrain. */
  lemma {:induction false} BuiltMeshesHaveFaces(sqrt: real -> real, k: Kind, outline: seq<Vec2>, closed: bool)
    requires KindOk(k) && ProfileOk(outline, closed)
    ensures k.Extrude? && closed ==> CompileExtrude(outline, k.depth).faces != [] && CompileExtrude(outline, k.depth).vertices != []
    ensures k.Revolve? ==>
              && Faces(RevolveSurface(|k.rings|, |outline|, FullTurn(k.angleDeg), closed)) != []
              && Stack(RevolveRings(outline, k.rings)) != []
    ensures k.Sweep? && closed ==>
              && Faces(SweepSurface(|k.path|, |outline|, k.cyclic)) != []
              && Stack(SweepRings(sqrt, outline, k.path, k.cyclic)) != []
    ensures k.Terrain? ==> CompileTerrain(k).faces != [] && CompileTerrain(k).vertices != []
  {
    if k.Revolve? {
      var s := RevolveSurface(|k.rings|, |outline|, FullTurn(k.angleDeg), closed);
      SurfaceNotEmpty(s);
      RingsFill(RevolveRings(outline, k.rings), |outline|, s.grid);
    } else if k.Sweep? && closed {
      SurfaceNotEmpty(SweepSurface(|k.path|, |outline|, k.cyclic));
      SweepLength(sqrt, outline, k.path, k.cyclic);
    } else if k.Terrain? {
      TerrainNotEmpty(k);
    }
  }

  lemma {:induction false} TerrainNotEmpty(k: Kind)
    requires k.Terrain? && KindOk(k)
    ensures CompileTerrain(k).faces != [] && CompileTerrain(k).vertices != []
  {
    SurfaceNotEmpty(TerrainSurface(k.columns, k.rows));
    TerrainFacesAre(k.columns, k.rows, k.rows - 1);
    RingsFill(TerrainRows(k.width, k.breadth, k.columns, k.rows, k.heights), k.columns, TerrainSurface(k.columns, k.rows).grid);
  }

  /** An extrusion is a closed surface with one orientation: every edge lies in exactly two
      faces, and they run along it in opposite directions. */
  lemma {:induction false} ExtrudeIsClosed(outline: seq<Vec2>, depth: real)
    requires ProfileOk(outline, true)
    ensures var mesh := CompileExtrude(outline, depth);
            && IndexesBelow(mesh.faces, |mesh.vertices|)
            && Watertight(mesh.faces) && Oriented(mesh.faces)
            && forall i, k :: Slot(mesh.faces, i, k) ==> Paired(mesh.faces, i, k)
  {
    ExtrudeFacesAre(|outline|);
    SurfaceTheorem(ExtrudeSurface(|outline|));
  }

  /** A revolved closed profile is watertight, whether the turn is full or capped; its faces
      share one orientation exactly when the turn is full. */
  lemma {:induction false} RevolveIsClosed(k: Kind, outline: seq<Vec2>, mesh: Mesh)
    requires k.Revolve? && KindOk(k) && ProfileOk(outline, true)
    requires mesh.vertices == Stack(RevolveRings(outline, k.rings))
    requires mesh.faces == Faces(RevolveSurface(|k.rings|, |outline|, FullTurn(k.angleDeg), true))
    ensures IndexesBelow(mesh.faces, |mesh.vertices|)
    ensures Watertight(mesh.faces)
    ensures Oriented(mesh.faces) <==> FullTurn(k.angleDeg)
    ensures (forall i, j :: Slot(mesh.faces, i, j) ==> Paired(mesh.faces, i, j)) <==> FullTurn(k.angleDeg)
  {
    var s := RevolveSurface(|k.rings|, |outline|, FullTurn(k.angleDeg), true);
    RingsFill(RevolveRings(outline, k.rings), |outline|, s.grid);
    SurfaceTheorem(s);
    AllPairedUnlessClash(s);
  }

  /** A sweep is watertight; its faces share one orientation exactly when the path is cyclic. */
  lemma {:induction false} SweepIsClosed(sqrt: real -> real, k: Kind, outline: seq<Vec2>, mesh: Mesh)
    requires k.Sweep? && KindOk(k) && ProfileOk(outline, true)
    requires mesh.vertices == Stack(SweepRings(sqrt, outline, k.path, k.cyclic))
    requires mesh.faces == Faces(SweepSurface(|k.path|, |outline|, k.cyclic))
    ensures IndexesBelow(mesh.faces, |mesh.vertices|)
    ensures Watertight(mesh.faces)
    ensures Oriented(mesh.faces) <==> k.cyclic
    ensures (forall i, j :: Slot(mesh.faces, i, j) ==> Paired(mesh.faces, i, j)) <==> k.cyclic
  {
    var s := SweepSurface(|k.path|, |outline|, k.cyclic);
    SweepLength(sqrt, outline, k.path, k.cyclic);
    SurfaceTheorem(s);
    AllPairedUnlessClash(s);
  }

  lemma {:induction false} AllPairedUnlessClash(s: Surface)
    requires SurfaceOk(s) && s.grid.colWrap && (s.grid.ringWrap || HasCaps(s))
    ensures (forall i, k :: Slot(Faces(s), i, k) ==> Paired(Faces(s), i, k)) <==> !(HasCaps(s) && s.form.Side?)
  {
    SurfaceTheorem(s);
    if HasCaps(s) && s.form.Side? {
      ClashIsUnpaired(s);
    }
  }

  lemma {:induction false} ClashIsUnpaired(s: Surface)
    requires SurfaceOk(s) && HasCaps(s) && s.form.Side?
    ensures exists i, k :: Slot(Faces(s), i, k) && !Paired(Faces(s), i, k)
  {
    var key := Ring(0, 0);
    var i := WhereSlot(s, key, Low(s, key));
    PairedIffOpposed(s, i, Low(s, key).side);
    TwoSidedIffInner(s, key);
    OpposedUnlessCapped(s, key);
    assert !Paired(Faces(s), i, Low(s, key).side);
  }

  /** An open profile leaves its two rims open, and a partial turn its two end rings. */
  lemma {:induction false} OpenRevolveHasRim(k: Kind, outline: seq<Vec2>)
    requires k.Revolve? && KindOk(k) && ProfileOk(outline, false)
    ensures var s := RevolveSurface(|k.rings|, |outline|, FullTurn(k.angleDeg), false);
            && IndexesBelow(Faces(s), |Stack(RevolveRings(outline, k.rings))|)
            && Oriented(Faces(s)) && !Watertight(Faces(s))
            && forall i, j :: Slot(Faces(s), i, j) ==> (Paired(Faces(s), i, j) <==> !OnBorder(s, Names(s)(i, j).key))
  {
    var s := RevolveSurface(|k.rings|, |outline|, FullTurn(k.angleDeg), false);
    RingsFill(RevolveRings(outline, k.rings), |outline|, s.grid);
    SurfaceTheorem(s);
  }

  /** The edge (i, j) runs between two neighbouring points of the outer rim of the terrain. */
  predicate OnTerrainRim(columns: nat, rows: nat, faces: seq<Face>, i: int, j: int)
    requires columns > 0 && Slot(faces, i, j)
  {
    var a, b := From(faces, i, j), To(faces, i, j);
    || (a / columns == b / columns && (a / columns == 0 || a / columns == rows - 1))
    || (a % columns == b % columns && (a % columns == 0 || a % columns == columns - 1))
  }

  /** A terrain is oriented, and its unpaired edges are exactly those along the rim of the
      height field. */
  lemma {:induction false} TerrainRimIsBorder(k: Kind)
    requires k.Terrain? && KindOk(k)
    ensures var mesh := CompileTerrain(k);
            && IndexesBelow(mesh.faces, |mesh.vertices|)
            && Oriented(mesh.faces)
            && forall i, j :: Slot(mesh.faces, i, j) ==>
                 (Paired(mesh.faces, i, j) <==> !OnTerrainRim(k.columns, k.rows, mesh.faces, i, j))
  {
    TerrainFacesAre(k.columns, k.rows, k.rows - 1);
    RingsFill(TerrainRows(k.width, k.breadth, k.columns, k.rows, k.heights), k.columns,
              TerrainSurface(k.columns, k.rows).grid);
    SurfaceTheorem(TerrainSurface(k.columns, k.rows));
    TerrainEdges(k.columns, k.rows, CompileTerrain(k).faces);
  }

  lemma {:induction false} TerrainEdges(columns: nat, rows: nat, faces: seq<Face>)
    requires columns >= 2 && rows >= 2 && faces == Faces(TerrainSurface(columns, rows))
    ensures forall i, j :: Slot(faces, i, j) ==> (Paired(faces, i, j) <==> !OnTerrainRim(columns, rows, faces, i, j))
  {
    forall i, j | Slot(faces, i, j) ensures Paired(faces, i, j) <==> !OnTerrainRim(columns, rows, faces, i, j) {
      TerrainEdge(columns, rows, i, j);
    }
  }

  lemma {:induction false} TerrainEdge(columns: nat, rows: nat, i: int, j: int)
    requires columns >= 2 && rows >= 2 && Slot(Faces(TerrainSurface(columns, rows)), i, j)
    ensures var s := TerrainSurface(columns, rows);
            Paired(Faces(s), i, j) <==> !OnTerrainRim(columns, rows, Faces(s), i, j)
  {
    var s := TerrainSurface(columns, rows);
    SurfaceTheorem(s);
    NamesFit(s);
    RimByName(columns, rows, Names(s)(i, j), From(Faces(s), i, j), To(Faces(s), i, j));
  }

  lemma {:induction false} RimByName(columns: nat, rows: nat, l: Label, a: nat, b: nat)
    requires columns >= 2 && rows >= 2
    requires var g := TerrainSurface(columns, rows).grid;
             KeyOk(g, l.key) && a == Number(g, FromPoint(g, l)) && b == Number(g, ToPoint(g, l))
    ensures OnBorder(TerrainSurface(columns, rows), l.key) <==>
              || (a / columns == b / columns && (a / columns == 0 || a / columns == rows - 1))
              || (a % columns == b % columns && (a % columns == 0 || a % columns == columns - 1))
  {
    var g := TerrainSurface(columns, rows).grid;
    var p, q := FromPoint(g, l), ToPoint(g, l);
    EndsOnGrid(g, l);
    Divide(p.r, p.p, columns, a);
    Divide(q.r, q.p, columns, b);
  }

  // ----- the microwave dish

  /** The dish builder's clamped half-axes and bowl depth. */
  datatype Dish = Dish(rx: real, rz: real, bowl: real)

  function DishFor(width: real, depth: real, height: real): (d: Dish)
    ensures d.rx >= 0.05 && d.rz >= 0.05 && 0.0 < d.bowl
    ensures d.bowl <= 0.8 * d.rx || d.bowl <= 0.8 * d.rz
  {
    var rx := if width / 2.0 >= 0.05 then width / 2.0 else 0.05;
    var rz := if height / 2.0 >= 0.05 then height / 2.0 else 0.05;
    var deep := if depth >= 0.04 then depth else 0.04;
    var limit := 0.8 * if rx >= rz then rx else rz;
    Dish(rx, rz, if deep <= limit then deep else limit)
  }

  function DishRatio(ring: nat): real { ring as real / DISH_RINGS as real }

  function DishVertex(d: Dish, ring: nat, angle: Angle): Vec3 {
    var ratio := DishRatio(ring);
    Vec3(d.rx * ratio * angle.c, -d.bowl * (1.0 - ratio * ratio), d.rz * ratio * angle.s)
  }

  function DishRing(d: Dish, ring: nat, angles: seq<Angle>): seq<Vec3> {
    seq(|angles|, i requires 0 <= i < |angles| => DishVertex(d, ring, angles[i]))
  }

  /** Rings 1 to k. */
  function DishRingList(d: Dish, angles: seq<Angle>, k: nat): seq<seq<Vec3>> {
    seq(k, i requires 0 <= i < k => DishRing(d, i + 1, angles))
  }

  function DishVertices(d: Dish, angles: seq<Angle>, k: nat): seq<Vec3> {
    [Vec3(0.0, -d.bowl, 0.0)] + Stack(DishRingList(d, angles, k))
  }

  /** `angles` are the thirty-two directions round the axis. */
  method BuildDish(width: real, depth: real, height: real, angles: seq<Angle>) returns (mesh: Mesh)
    requires |angles| == DISH_SEGMENTS
    ensures mesh.vertices == DishVertices(DishFor(width, depth, height), angles, DISH_RINGS)
    ensures mesh.faces == Faces(DISH_SURFACE)
  {
    var d := DishFor(width, depth, height);
    var vertices := [Vec3(0.0, -d.bowl, 0.0)];
    for ring := 1 to DISH_RINGS + 1
      invariant vertices == DishVertices(d, angles, ring - 1)
    {
      assert DishRingList(d, angles, ring)[..ring - 1] == DishRingList(d, angles, ring - 1);
      vertices := vertices + DishRing(d, ring, angles);
    }
    var fan := DishFan();
    var bowl := DishBowl();
    mesh := Mesh(vertices, fan + bowl);
  }

  method DishFan() returns (faces: seq<Face>)
    ensures faces == FanFaces(DISH_SURFACE.grid)
  {
    faces := [];
    for segment := 0 to DISH_SEGMENTS
      invariant faces == FanFaces(DISH_SURFACE.grid)[..segment]
    {
      faces := faces + [[0, 1 + (segment + 1) % DISH_SEGMENTS, 1 + segment]];
    }
  }

  method DishBowl() returns (faces: seq<Face>)
    ensures faces == QuadList(DISH_SURFACE, QuadCount(DISH_SURFACE.grid))
  {
    faces := [];
    for ring := 1 to DISH_RINGS
      invariant faces == QuadList(DISH_SURFACE, (ring - 1) * DISH_SEGMENTS)
    {
      var previous := 1 + (ring - 1) * DISH_SEGMENTS;
      var current := 1 + ring * DISH_SEGMENTS;
      for segment := 0 to DISH_SEGMENTS
        invariant faces == QuadList(DISH_SURFACE, (ring - 1) * DISH_SEGMENTS + segment)
      {
        QuadListGrows(DISH_SURFACE, ring - 1, segment);
        var following := (segment + 1) % DISH_SEGMENTS;
        faces := faces + [[previous + following, current + following, current + segment, previous + segment]];
      }
    }
  }

  /** The bowl is one oriented sheet, and its only boundary is the outer ring. */
  lemma {:induction false} DishRimIsBorder(d: Dish, angles: seq<Angle>, mesh: Mesh)
    requires |angles| == DISH_SEGMENTS
    requires mesh.vertices == DishVertices(d, angles, DISH_RINGS) && mesh.faces == Faces(DISH_SURFACE)
    ensures IndexesBelow(mesh.faces, |mesh.vertices|)
    ensures Oriented(mesh.faces)
    ensures forall i, k :: Slot(mesh.faces, i, k) ==>
              (Paired(mesh.faces, i, k) <==>
                 !(From(mesh.faces, i, k) > 224 && To(mesh.faces, i, k) > 224))
  {
    var s := DISH_SURFACE;
    StackLength(DishRingList(d, angles, DISH_RINGS), DISH_SEGMENTS);
    SurfaceTheorem(s);
    forall i, k | Slot(mesh.faces, i, k)
      ensures Paired(mesh.faces, i, k) <==> !(From(mesh.faces, i, k) > 224 && To(mesh.faces, i, k) > 224)
    {
      var x := SlotPiece(s, i, k);
      SideNameFits(s, x, k);
    }
  }

  /** On the paraboloid with its apex behind and its rim in the plane y == 0. */
  predicate OnBowl(d: Dish, v: Vec3)
    requires d.rx > 0.0 && d.rz > 0.0
  {
    v.y == -d.bowl * (1.0 - ((v.x / d.rx) * (v.x / d.rx) + (v.z / d.rz) * (v.z / d.rz)))
  }

  lemma {:induction false} DishIsParaboloid(d: Dish, angles: seq<Angle>, k: nat)
    requires |angles| == DISH_SEGMENTS && forall a :: a in angles ==> a.Unit()
    requires d.rx > 0.0 && d.rz > 0.0 && k < |DishVertices(d, angles, DISH_RINGS)|
    ensures OnBowl(d, DishVertices(d, angles, DISH_RINGS)[k])
    ensures k > 224 ==> DishVertices(d, angles, DISH_RINGS)[k].y == 0.0
  {
    var rings := DishRingList(d, angles, DISH_RINGS);
    if k > 0 {
      var i, j := (k - 1) / DISH_SEGMENTS, (k - 1) % DISH_SEGMENTS;
      StackLength(rings, DISH_SEGMENTS);
      StackAt(rings, DISH_SEGMENTS, i, j);
      assert DishVertices(d, angles, DISH_RINGS)[k] == DishVertex(d, i + 1, angles[j]);
      VertexOnBowl(d, i + 1, angles[j]);
    }
  }

  lemma {:induction false} VertexOnBowl(d: Dish, ring: nat, angle: Angle)
    requires d.rx > 0.0 && d.rz > 0.0 && angle.Unit()
    ensures OnBowl(d, DishVertex(d, ring, angle))
    ensures ring == DISH_RINGS ==> DishVertex(d, ring, angle).y == 0.0
  {
    var v, ratio := DishVertex(d, ring, angle), DishRatio(ring);
    OnParaboloid(d, ratio, angle, v.x / d.rx, v.z / d.rz);
    EqualProducts(-d.bowl, 1.0 - ratio * ratio,
                  -d.bowl, 1.0 - ((v.x / d.rx) * (v.x / d.rx) + (v.z / d.rz) * (v.z / d.rz)));
  }

  lemma {:induction false} OnParaboloid(d: Dish, ratio: real, angle: Angle, u: real, v: real)
    requires d.rx > 0.0 && d.rz > 0.0 && angle.Unit()
    requires u == d.rx * ratio * angle.c / d.rx && v == d.rz * ratio * angle.s / d.rz
    ensures u * u + v * v == ratio * ratio
  {
    CancelAxis(d.rx, ratio, angle.c, u);
    CancelAxis(d.rz, ratio, angle.s, v);
    EqualProducts(u, u, ratio * angle.c, ratio * angle.c);
    EqualProducts(v, v, ratio * angle.s, ratio * angle.s);
    assert (ratio * angle.c) * (ratio * angle.c) + (ratio * angle.s) * (ratio * angle.s)
        == (ratio * ratio) * (angle.c * angle.c + angle.s * angle.s);
    EqualProducts(ratio * ratio, angle.c * angle.c + angle.s * angle.s, ratio * ratio, 1.0);
  }

  lemma CancelAxis(axis: real, ratio: real, c: real, u: real)
    requires axis > 0.0 && u == axis * ratio * c / axis
    ensures u == ratio * c
  {
    assert axis * u == axis * ratio * c;
    assert axis * (u - ratio * c) == 0.0;
  }
}
