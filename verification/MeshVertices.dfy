/** The vertex lists that the worker emits for extrude, revolve, sweep and terrain nodes. */
module MeshVertices {
  import opened Affine
  import opened Polygon

  // ----- lists of rings laid end to end

  function Stack(rings: seq<seq<Vec3>>): seq<Vec3> {
    if rings == [] then [] else Stack(rings[..|rings| - 1]) + rings[|rings| - 1]
  }

  lemma {:induction false} StackMember(rings: seq<seq<Vec3>>, k: nat) returns (i: nat, j: nat)
    requires k < |Stack(rings)|
    ensures i < |rings| && j < |rings[i]| && Stack(rings)[k] == rings[i][j]
  {
    var init := rings[..|rings| - 1];
    if k < |Stack(init)| {
      i, j := StackMember(init, k);
    } else {
      i, j := |rings| - 1, k - |Stack(init)|;
    }
  }

  lemma {:induction false} StackLength(rings: seq<seq<Vec3>>, width: nat)
    requires forall i :: 0 <= i < |rings| ==> |rings[i]| == width
    ensures |Stack(rings)| == |rings| * width
  {
    if rings != [] {
      StackLength(rings[..|rings| - 1], width);
      NextRow(|rings| - 1, width);
    }
  }

  lemma {:induction false} StackAt(rings: seq<seq<Vec3>>, width: nat, i: nat, j: nat)
    requires forall k :: 0 <= k < |rings| ==> |rings[k]| == width
    requires i < |rings| && j < width
    ensures 0 <= i * width + j < |Stack(rings)| && Stack(rings)[i * width + j] == rings[i][j]
  {
    var init := rings[..|rings| - 1];
    StackLength(init, width);
    if i < |init| {
      StackAt(init, width, i, j);
    }
  }

  lemma {:induction false} NextRow(n: nat, width: nat)
    ensures (n + 1) * width == n * width + width
  {
  }

  // ----- extrude

  function ExtrudeVertices(outline: seq<Vec2>, depth: real): seq<Vec3> {
    var half := depth / 2.0;
    seq(|outline|, i requires 0 <= i < |outline| => Vec3(outline[i].x, outline[i].y, -half))
    + seq(|outline|, i requires 0 <= i < |outline| => Vec3(outline[i].x, outline[i].y, half))
  }

  // ----- revolve

  function RevolveVertex(p: Vec2, angle: Angle): Vec3 { Vec3(p.x * angle.c, p.x * angle.s, p.y) }

  function RevolveRing(outline: seq<Vec2>, angle: Angle): seq<Vec3> {
    seq(|outline|, j requires 0 <= j < |outline| => RevolveVertex(outline[j], angle))
  }

  function RevolveRings(outline: seq<Vec2>, rings: seq<Angle>): seq<seq<Vec3>> {
    seq(|rings|, i requires 0 <= i < |rings| => RevolveRing(outline, rings[i]))
  }

  // ----- sweep

  /** `sqrt` stands for the square root of the source's mathematics library. */
  ghost predicate IsSquareRoot(sqrt: real -> real) {
    forall x :: x >= 0.0 ==> sqrt(x) >= 0.0 && sqrt(x) * sqrt(x) == x
  }

  function Shrunk(v: Vec3, length: real): Vec3
    requires length != 0.0
  {
    Vec3(v.x / length, v.y / length, v.z / length)
  }

  /** The worker's normalisation, which leaves only the zero vector without a direction. */
  function Normalized(sqrt: real -> real, v: Vec3): Vec3 {
    var length := sqrt(Dot(v, v));
    if length == 0.0 then ZERO else Shrunk(v, length)
  }

  /** The chord from the path point before to the path point after. */
  function Chord(path: seq<Vec3>, cyclic: bool, i: nat): Vec3
    requires i < |path|
  {
    var previous := if i > 0 then path[i - 1] else if cyclic then path[|path| - 1] else path[i];
    var following := if i + 1 < |path| || cyclic then path[Next(i, |path|)] else path[i];
    Subtract(following, previous)
  }

  const UP := Vec3(0.0, 0.0, 1.0)
  const ASIDE := Vec3(1.0, 0.0, 0.0)

  function Reference(tangent: Vec3): Vec3 { if Abs(Dot(tangent, UP)) > 0.95 then ASIDE else UP }

  function SweepVertex(center: Vec3, normal: Vec3, binormal: Vec3, p: Vec2): Vec3 {
    Add(Add(center, Times(p.x, normal)), Times(p.y, binormal))
  }

  /** The directions in which a profile's x and y axes point. */
  datatype Frame = Frame(normal: Vec3, binormal: Vec3)

  function WorkerFrame(sqrt: real -> real, chord: Vec3): Frame { WorkerAxes(sqrt, Normalized(sqrt, chord)) }

  function WorkerAxes(sqrt: real -> real, tangent: Vec3): Frame {
    var normal := Normalized(sqrt, Cross(tangent, Reference(tangent)));
    Frame(normal, Normalized(sqrt, Cross(tangent, normal)))
  }

  function FrameVertex(center: Vec3, f: Frame, p: Vec2): Vec3 { SweepVertex(center, f.normal, f.binormal, p) }

  function FrameRing(outline: seq<Vec2>, center: Vec3, f: Frame): seq<Vec3> {
    seq(|outline|, j requires 0 <= j < |outline| => FrameVertex(center, f, outline[j]))
  }

  /** The worker's ring of vertices at one path point. */
  function SweepRing(sqrt: real -> real, outline: seq<Vec2>, path: seq<Vec3>, cyclic: bool, i: nat): seq<Vec3>
    requires i < |path|
  {
    FrameRing(outline, path[i], WorkerFrame(sqrt, Chord(path, cyclic, i)))
  }

  function SweepRings(sqrt: real -> real, outline: seq<Vec2>, path: seq<Vec3>, cyclic: bool): seq<seq<Vec3>> {
    seq(|path|, i requires 0 <= i < |path| => SweepRing(sqrt, outline, path, cyclic, i))
  }

  lemma {:induction false} SweepRingAt(sqrt: real -> real, outline: seq<Vec2>, path: seq<Vec3>, cyclic: bool, i: nat)
    requires i < |path|
    ensures |SweepRings(sqrt, outline, path, cyclic)| == |path|
    ensures SweepRings(sqrt, outline, path, cyclic)[i] == SweepRing(sqrt, outline, path, cyclic, i)
    ensures |SweepRing(sqrt, outline, path, cyclic, i)| == |outline|
  {
  }

  lemma {:induction false} SweepLength(sqrt: real -> real, outline: seq<Vec2>, path: seq<Vec3>, cyclic: bool)
    ensures |Stack(SweepRings(sqrt, outline, path, cyclic))| == |path| * |outline|
  {
    var rings := SweepRings(sqrt, outline, path, cyclic);
    forall i | 0 <= i < |path| ensures |rings[i]| == |outline| {
      SweepRingAt(sqrt, outline, path, cyclic, i);
    }
    StackLength(rings, |outline|);
  }

  lemma {:induction false} StackGrows(rings: seq<seq<Vec3>>, i: nat)
    requires i < |rings|
    ensures Stack(rings[..i + 1]) == Stack(rings[..i]) + rings[i]
  {
    assert rings[..i + 1][..i] == rings[..i];
  }

  // ----- terrain

  /** The k-th of n equal steps across a centred width. */
  function GridCoordinate(width: real, k: nat, n: nat): real
    requires n > 0
  {
    -width / 2.0 + width * k as real / n as real
  }

  function TerrainRow(width: real, breadth: real, columns: nat, rows: nat, heights: seq<real>, row: nat): seq<Vec3>
    requires columns >= 2 && rows >= 2 && row < rows && columns * rows == |heights|
  {
    seq(columns, column requires 0 <= column < columns =>
      assert 0 <= row * columns + column < |heights| by { GridIndex(row, column, rows, columns); }
      Vec3(GridCoordinate(width, column, columns - 1), GridCoordinate(breadth, row, rows - 1),
           heights[row * columns + column]))
  }

  function TerrainRows(width: real, breadth: real, columns: nat, rows: nat, heights: seq<real>): seq<seq<Vec3>>
    requires columns >= 2 && rows >= 2 && columns * rows == |heights|
  {
    seq(rows, row requires 0 <= row < rows => TerrainRow(width, breadth, columns, rows, heights, row))
  }

  lemma {:induction false} GridIndex(i: nat, j: nat, rows: nat, width: nat)
    requires i < rows && j < width
    ensures 0 <= i * width + j < rows * width == width * rows
  {
    assert (i + 1) * width <= rows * width;
  }
}
