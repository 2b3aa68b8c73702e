/** The curved lithophane panel (lithophanecurved/lithophaneconcave.py).

    A rows x cols grid of thickness samples becomes a closed shell: an
    inner (back) surface at constant radius, an outer (front) surface whose
    radius is raised by the local thickness, and four edge strips joining
    them. A vertex is the label Inner(r, c) or Outer(r, c) of grid cell
    (r, c); the six passes emit triangles over these labels. */
module Panel {
  import opened Mesh
  import opened Stl
  import opened Geometry

  datatype PanelVertex = Inner(r: nat, c: nat) | Outer(r: nat, c: nat)

  // ---------------------------------------------------------------------------
  // Thickness map

  /** `pixels.astype(float) / 255.0` for one grey value. */
  function Normalise(p: byte): (x: real)
    ensures 0.0 <= x <= 1.0
    ensures p == 0 <==> x == 0.0
    ensures p == 255 <==> x == 1.0
  {
    p as real / 255.0
  }

  /** `max_thick - pixels * (max_thick - min_thick)`: black is thickest. */
  function Thickness(x: real, minThick: real, maxThick: real): real {
    maxThick - x * (maxThick - minThick)
  }

  /** A normalised grey value gives a thickness within the configured range,
      black the maximum and white the minimum. */
  lemma ThicknessRange(x: real, minThick: real, maxThick: real)
    ensures 0.0 <= x <= 1.0 && minThick <= maxThick ==> minThick <= Thickness(x, minThick, maxThick) <= maxThick
    ensures x == 0.0 ==> Thickness(x, minThick, maxThick) == maxThick
    ensures x == 1.0 ==> Thickness(x, minThick, maxThick) == minThick
  {
    if 0.0 <= x <= 1.0 && minThick <= maxThick {
      var d := maxThick - minThick;
      ProductSign(x, d);
      ProductSign(1.0 - x, d);
      assert d - x * d == (1.0 - x) * d;
    }
  }

  /** A brighter pixel never gives a thicker wall, and strictly thinner when
      the thickness range is not empty. */
  lemma ThicknessAntitone(x: real, y: real, minThick: real, maxThick: real)
    requires x <= y && minThick <= maxThick
    ensures Thickness(y, minThick, maxThick) <= Thickness(x, minThick, maxThick)
    ensures x < y && minThick < maxThick ==> Thickness(y, minThick, maxThick) < Thickness(x, minThick, maxThick)
  {
    var d := maxThick - minThick;
    ProductSign(y - x, d);
    assert y * d - x * d == (y - x) * d;
  }

  /** Every grey value gives a thickness within the configured range. */
  lemma GreyThicknessRange(minThick: real, maxThick: real)
    ensures minThick <= maxThick ==> forall p: byte :: minThick <= Thickness(Normalise(p), minThick, maxThick) <= maxThick
  {
    forall p: byte | minThick <= maxThick
      ensures minThick <= Thickness(Normalise(p), minThick, maxThick) <= maxThick
    {
      ThicknessRange(Normalise(p), minThick, maxThick);
    }
  }

  predicate IsGrid<T>(g: seq<seq<T>>) {
    forall i :: 0 <= i < |g| ==> |g[i]| == |g[0]|
  }

  /** The numpy shape of a rectangular grid. */
  function Rows<T>(g: seq<seq<T>>): nat { |g| }
  function Cols<T>(g: seq<seq<T>>): nat { if g == [] then 0 else |g[0]| }

  /** The thickness map of a framed grey image. */
  function ThicknessMap(pixels: seq<seq<byte>>, minThick: real, maxThick: real): (t: seq<seq<real>>)
    requires IsGrid(pixels)
    ensures IsGrid(t) && Rows(t) == Rows(pixels) && Cols(t) == Cols(pixels)
    ensures forall i, j :: 0 <= i < |t| && 0 <= j < |t[i]| ==> t[i][j] == Thickness(Normalise(pixels[i][j]), minThick, maxThick)
    ensures minThick <= maxThick ==> forall i, j :: 0 <= i < |t| && 0 <= j < |t[i]| ==> minThick <= t[i][j] <= maxThick
  {
    GreyThicknessRange(minThick, maxThick);
    seq(|pixels|, i requires 0 <= i < |pixels| =>
      seq(|pixels[i]|, j requires 0 <= j < |pixels[i]| => Thickness(Normalise(pixels[i][j]), minThick, maxThick)))
  }

  // ---------------------------------------------------------------------------
  // Cylindrical coordinates of the labels

  /** radius = arc width / sweep angle; the height includes the 3 mm border
      above and below the picture. */
  datatype PanelShape = PanelShape(radius: real, sweep: real, height: real)

  function ShapeOf(widthMm: real, heightMm: real, curveAngleDeg: real): (s: PanelShape)
    requires curveAngleDeg != 0.0
    ensures s.radius * s.sweep == widthMm
    ensures s.sweep == Radians(curveAngleDeg)
  {
    PanelShape(widthMm / Radians(curveAngleDeg), Radians(curveAngleDeg), heightMm + 2.0 * 3.0)
  }

  /** Everything that decides where a label lands in the file: the thickness
      grid, the shape, and the projection (sine, cosine, float32 rounding)
      from a cylindrical point to the stored coordinates (x, y, z). */
  datatype PanelGeometry = PanelGeometry(thick: seq<seq<real>>, shape: PanelShape, project: Cylindrical -> Vec3)

  predicate InGrid(g: PanelGeometry, v: PanelVertex) {
    v.r < Rows(g.thick) && v.c < Cols(g.thick) && IsGrid(g.thick)
  }

  predicate TriInGrid(g: PanelGeometry, t: Triangle<PanelVertex>) {
    InGrid(g, t.a) && InGrid(g, t.b) && InGrid(g, t.c)
  }

  predicate MeshInGrid(g: PanelGeometry, m: seq<Triangle<PanelVertex>>) {
    forall i :: 0 <= i < |m| ==> TriInGrid(g, m[i])
  }

  /** Angle from `linspace(-sweep/2, sweep/2, cols)`, height from
      `linspace(0, height, rows)`; the outer radius is the inner radius plus
      the thickness of the cell. */
  function Position(g: PanelGeometry, v: PanelVertex): (p: Cylindrical)
    requires InGrid(g, v)
    ensures v.Outer? ==> p.radius == g.shape.radius + g.thick[v.r][v.c]
    ensures v.Inner? ==> p.radius == g.shape.radius
  {
    var angle := Linspace(-g.shape.sweep / 2.0, g.shape.sweep / 2.0, Cols(g.thick), v.c);
    var height := Linspace(0.0, g.shape.height, Rows(g.thick), v.r);
    match v
    case Inner(_, _) => Cylindrical(g.shape.radius, angle, height)
    case Outer(r, c) => Cylindrical(g.shape.radius + g.thick[r][c], angle, height)
  }

  /** Inner(r, c) and Outer(r, c) share angle and height; the wall between
      them is exactly the thickness of the cell, so a positive thickness puts
      the front outside the back. */
  lemma WallIsThickness(g: PanelGeometry, r: nat, c: nat)
    requires InGrid(g, Inner(r, c))
    ensures Position(g, Outer(r, c)).radius - Position(g, Inner(r, c)).radius == g.thick[r][c]
    ensures Position(g, Outer(r, c)).angle == Position(g, Inner(r, c)).angle
    ensures Position(g, Outer(r, c)).height == Position(g, Inner(r, c)).height
    ensures g.thick[r][c] > 0.0 ==> Position(g, Outer(r, c)).radius > Position(g, Inner(r, c)).radius
  {
  }

  /** `g` with the thickness of cell (r, c) replaced by t. */
  function Thicken(g: PanelGeometry, r: nat, c: nat, t: real): PanelGeometry
    requires InGrid(g, Inner(r, c))
  {
    g.(thick := g.thick[r := g.thick[r][c := t]])
  }

  /** Changing the thickness of one cell moves that cell's front point
      radially by the change and leaves every other label where it was. */
  lemma ThickenOneCell(g: PanelGeometry, r: nat, c: nat, t: real, v: PanelVertex)
    requires InGrid(g, Inner(r, c)) && InGrid(g, v)
    ensures InGrid(Thicken(g, r, c, t), v)
    ensures v != Outer(r, c) ==> Position(Thicken(g, r, c, t), v) == Position(g, v)
    ensures v == Outer(r, c) ==>
      Position(Thicken(g, r, c, t), v).radius - Position(g, v).radius == t - g.thick[r][c] &&
      Position(Thicken(g, r, c, t), v).angle == Position(g, v).angle &&
      Position(Thicken(g, r, c, t), v).height == Position(g, v).height
  {
    var g' := Thicken(g, r, c, t);
    assert Rows(g'.thick) == Rows(g.thick) && Cols(g'.thick) == Cols(g.thick);
    assert IsGrid(g'.thick);
  }

  function Place(g: PanelGeometry, t: Triangle<PanelVertex>): Triangle<Vec3>
    requires TriInGrid(g, t)
  {
    Tri(g.project(Position(g, t.a)), g.project(Position(g, t.b)), g.project(Position(g, t.c)))
  }

  function PlaceMesh(g: PanelGeometry, m: seq<Triangle<PanelVertex>>): (r: seq<Triangle<Vec3>>)
    requires MeshInGrid(g, m)
    ensures |r| == |m|
  {
    if m == [] then [] else PlaceMesh(g, m[..|m| - 1]) + [Place(g, m[|m| - 1])]
  }

  // ---------------------------------------------------------------------------
  // The six passes

  /** Front quad (r, c): write_tri(tl, bl, tr), write_tri(tr, bl, br) over Outer labels. */
  function FrontQuad(r: nat, c: nat): seq<Triangle<PanelVertex>> {
    var tl, tr, bl, br := Outer(r, c), Outer(r, c + 1), Outer(r + 1, c), Outer(r + 1, c + 1);
    [Tri(tl, bl, tr), Tri(tr, bl, br)]
  }

  /** The winding shared by the back surface and the four edge strips:
      write_tri(tl, tr, bl), write_tri(tr, br, bl). */
  function EdgeQuad(tl: PanelVertex, tr: PanelVertex, bl: PanelVertex, br: PanelVertex): seq<Triangle<PanelVertex>> {
    [Tri(tl, tr, bl), Tri(tr, br, bl)]
  }

  function BackQuad(r: nat, c: nat): seq<Triangle<PanelVertex>> {
    EdgeQuad(Inner(r, c), Inner(r, c + 1), Inner(r + 1, c), Inner(r + 1, c + 1))
  }

  function TopQuad(c: nat): seq<Triangle<PanelVertex>> {
    EdgeQuad(Inner(0, c), Inner(0, c + 1), Outer(0, c), Outer(0, c + 1))
  }

  function BottomQuad(rEnd: nat, c: nat): seq<Triangle<PanelVertex>> {
    EdgeQuad(Outer(rEnd, c), Outer(rEnd, c + 1), Inner(rEnd, c), Inner(rEnd, c + 1))
  }

  function LeftQuad(r: nat): seq<Triangle<PanelVertex>> {
    EdgeQuad(Outer(r, 0), Inner(r, 0), Outer(r + 1, 0), Inner(r + 1, 0))
  }

  function RightQuad(cEnd: nat, r: nat): seq<Triangle<PanelVertex>> {
    EdgeQuad(Inner(r, cEnd), Outer(r, cEnd), Inner(r + 1, cEnd), Outer(r + 1, cEnd))
  }

  // One strip piece per iteration of an inner loop, one row per outer iteration.
  function FrontRowQuads(r: nat): nat -> seq<Triangle<PanelVertex>> { (c: nat) => FrontQuad(r, c) }
  function FrontRows(quadCols: nat): nat -> seq<Triangle<PanelVertex>> { (r: nat) => Strip(FrontRowQuads(r), quadCols) }
  function BackRowQuads(r: nat): nat -> seq<Triangle<PanelVertex>> { (c: nat) => BackQuad(r, c) }
  function BackRows(quadCols: nat): nat -> seq<Triangle<PanelVertex>> { (r: nat) => Strip(BackRowQuads(r), quadCols) }
  function TopQuads(): nat -> seq<Triangle<PanelVertex>> { (c: nat) => TopQuad(c) }
  function BottomQuads(rEnd: nat): nat -> seq<Triangle<PanelVertex>> { (c: nat) => BottomQuad(rEnd, c) }
  function LeftQuads(): nat -> seq<Triangle<PanelVertex>> { (r: nat) => LeftQuad(r) }
  function RightQuads(cEnd: nat): nat -> seq<Triangle<PanelVertex>> { (r: nat) => RightQuad(cEnd, r) }

  function Front(rows: nat, cols: nat): seq<Triangle<PanelVertex>>
    requires rows >= 1 && cols >= 1
  {
    Strip(FrontRows(cols - 1), rows - 1)
  }

  function Back(rows: nat, cols: nat): seq<Triangle<PanelVertex>>
    requires rows >= 1 && cols >= 1
  {
    Strip(BackRows(cols - 1), rows - 1)
  }

  function Top(cols: nat): seq<Triangle<PanelVertex>>
    requires cols >= 1
  {
    Strip(TopQuads(), cols - 1)
  }

  function Bottom(rows: nat, cols: nat): seq<Triangle<PanelVertex>>
    requires rows >= 1 && cols >= 1
  {
    Strip(BottomQuads(rows - 1), cols - 1)
  }

  function Left(rows: nat): seq<Triangle<PanelVertex>>
    requires rows >= 1
  {
    Strip(LeftQuads(), rows - 1)
  }

  function Right(rows: nat, cols: nat): seq<Triangle<PanelVertex>>
    requires rows >= 1 && cols >= 1
  {
    Strip(RightQuads(cols - 1), rows - 1)
  }

  /** Every triangle the six passes emit, in emission order: exactly the
      number the header announces. */
  function PanelMesh(rows: nat, cols: nat): (m: seq<Triangle<PanelVertex>>)
    requires rows >= 1 && cols >= 1
    ensures |m| == NumTriangles(rows, cols)
  {
    PassLengths(rows, cols);
    Front(rows, cols) + Back(rows, cols) + Top(cols) + Bottom(rows, cols) + Left(rows) + Right(rows, cols)
  }

  /** The header count, computed before any triangle is written. */
  function NumTriangles(rows: int, cols: int): (n: int)
    ensures n == 4 * (rows * cols - 1)
  {
    var nQuadsGrid := (rows - 1) * (cols - 1);
    var nQuadsTb := cols - 1;
    var nQuadsLr := rows - 1;
    nQuadsGrid * 2 * 2 + nQuadsTb * 2 * 2 + nQuadsLr * 2 * 2
  }

  lemma {:induction false} FrontLength(quadRows: nat, quadCols: nat)
    ensures |Strip(FrontRows(quadCols), quadRows)| == 2 * quadRows * quadCols
    ensures |Strip(BackRows(quadCols), quadRows)| == 2 * quadRows * quadCols
    decreases quadRows
  {
    if quadRows > 0 {
      FrontLength(quadRows - 1, quadCols);
      StripLength(FrontRowQuads(quadRows - 1), quadCols, 2);
      StripLength(BackRowQuads(quadRows - 1), quadCols, 2);
      assert 2 * quadRows * quadCols == 2 * (quadRows - 1) * quadCols + 2 * quadCols;
    }
  }

  /** Each pass emits two triangles per quad it visits. */
  lemma PassLengths(rows: nat, cols: nat)
    requires rows >= 1 && cols >= 1
    ensures |Front(rows, cols)| == |Back(rows, cols)| == 2 * (rows - 1) * (cols - 1)
    ensures |Top(cols)| == |Bottom(rows, cols)| == 2 * (cols - 1)
    ensures |Left(rows)| == |Right(rows, cols)| == 2 * (rows - 1)
    ensures |Front(rows, cols)| + |Back(rows, cols)| + |Top(cols)| + |Bottom(rows, cols)| + |Left(rows)| + |Right(rows, cols)|
      == NumTriangles(rows, cols)
  {
    FrontLength(rows - 1, cols - 1);
    StripLength(TopQuads(), cols - 1, 2);
    StripLength(BottomQuads(rows - 1), cols - 1, 2);
    StripLength(LeftQuads(), rows - 1, 2);
    StripLength(RightQuads(cols - 1), rows - 1, 2);
    assert (rows - 1) * (cols - 1) * 2 * 2 == 2 * (2 * (rows - 1) * (cols - 1));
  }

  /** An empty grid makes the header count -4, which `struct.pack('<I', ...)` refuses. */
  lemma EmptyGridCount(rows: nat, cols: nat)
    requires rows == 0 || cols == 0
    ensures NumTriangles(rows, cols) == -4
  {
  }

  // ---------------------------------------------------------------------------
  // Writing the file

  /** The file after a header, a count and the records of `written`. */
  ghost predicate Wrote(g: PanelGeometry, prefix: seq<byte>, file: seq<byte>, written: seq<Triangle<PanelVertex>>) {
    MeshInGrid(g, written) && file == prefix + Records(PlaceMesh(g, written))
  }

  lemma PlaceSnoc(g: PanelGeometry, m: seq<Triangle<PanelVertex>>, t: Triangle<PanelVertex>)
    requires MeshInGrid(g, m) && TriInGrid(g, t)
    ensures MeshInGrid(g, m + [t])
    ensures PlaceMesh(g, m + [t]) == PlaceMesh(g, m) + [Place(g, t)]
  {
    assert (m + [t])[..|m|] == m;
  }

  /** `write_tri(v1, v2, v3)`: one more record on the open file. */
  method WriteTri(g: PanelGeometry, ghost prefix: seq<byte>, file: seq<byte>, ghost written: seq<Triangle<PanelVertex>>,
                  v1: PanelVertex, v2: PanelVertex, v3: PanelVertex)
    returns (file': seq<byte>, ghost written': seq<Triangle<PanelVertex>>)
    requires Wrote(g, prefix, file, written)
    requires InGrid(g, v1) && InGrid(g, v2) && InGrid(g, v3)
    ensures written' == written + [Tri(v1, v2, v3)]
    ensures Wrote(g, prefix, file', written')
  {
    var t := Tri(v1, v2, v3);
    file' := WriteRecord(file, Place(g, t));
    written' := written + [t];
    PlaceSnoc(g, written, t);
    RecordsSnoc(PlaceMesh(g, written), Place(g, t));
    Assoc(prefix, Records(PlaceMesh(g, written)), Record(Place(g, t)));
  }

  /** The two `write_tri` calls of one edge-strip or back-surface quad. */
  method WriteEdgeQuad(g: PanelGeometry, ghost prefix: seq<byte>, file: seq<byte>, ghost written: seq<Triangle<PanelVertex>>,
                       tl: PanelVertex, tr: PanelVertex, bl: PanelVertex, br: PanelVertex)
    returns (file': seq<byte>, ghost written': seq<Triangle<PanelVertex>>)
    requires Wrote(g, prefix, file, written)
    requires InGrid(g, tl) && InGrid(g, tr) && InGrid(g, bl) && InGrid(g, br)
    ensures written' == written + EdgeQuad(tl, tr, bl, br)
    ensures Wrote(g, prefix, file', written')
  {
    file', written' := WriteTri(g, prefix, file, written, tl, tr, bl);
    file', written' := WriteTri(g, prefix, file', written', tr, br, bl);
  }

  /** The two `write_tri` calls of one front-surface quad. */
  method WriteFrontQuad(g: PanelGeometry, ghost prefix: seq<byte>, file: seq<byte>, ghost written: seq<Triangle<PanelVertex>>,
                        r: nat, c: nat)
    returns (file': seq<byte>, ghost written': seq<Triangle<PanelVertex>>)
    requires Wrote(g, prefix, file, written)
    requires IsGrid(g.thick) && r + 1 < Rows(g.thick) && c + 1 < Cols(g.thick)
    ensures written' == written + FrontQuad(r, c)
    ensures Wrote(g, prefix, file', written')
  {
    var tl, tr, bl, br := Outer(r, c), Outer(r, c + 1), Outer(r + 1, c), Outer(r + 1, c + 1);
    file', written' := WriteTri(g, prefix, file, written, tl, bl, tr);
    file', written' := WriteTri(g, prefix, file', written', tr, bl, br);
  }

  /** The precondition every pass needs: a rectangular, non-empty thickness
      grid and a file that so far holds the records of `written`. */
  ghost predicate Ready(g: PanelGeometry, prefix: seq<byte>, file: seq<byte>, written: seq<Triangle<PanelVertex>>) {
    IsGrid(g.thick) && Rows(g.thick) >= 1 && Cols(g.thick) >= 1 && Wrote(g, prefix, file, written)
  }

  /** One row of pass 1: the quads of grid row r, left to right. */
  method FrontRow(g: PanelGeometry, ghost prefix: seq<byte>, file: seq<byte>, ghost written: seq<Triangle<PanelVertex>>, r: nat)
    returns (file': seq<byte>, ghost written': seq<Triangle<PanelVertex>>)
    requires Ready(g, prefix, file, written) && r + 1 < Rows(g.thick)
    ensures written' == written + Strip(FrontRowQuads(r), Cols(g.thick) - 1)
    ensures Ready(g, prefix, file', written')
  {
    file', written' := file, written;
    for c := 0 to Cols(g.thick) - 1
      invariant Ready(g, prefix, file', written')
      invariant written' == written + Strip(FrontRowQuads(r), c)
    {
      ghost var before := written';
      file', written' := WriteFrontQuad(g, prefix, file', written', r, c);
      assert written' == before + FrontQuad(r, c);
      Assoc(written, Strip(FrontRowQuads(r), c), FrontQuad(r, c));
    }
  }

  /** Pass 1: the outer surface, row by row. */
  method FrontPass(g: PanelGeometry, ghost prefix: seq<byte>, file: seq<byte>, ghost written: seq<Triangle<PanelVertex>>)
    returns (file': seq<byte>, ghost written': seq<Triangle<PanelVertex>>)
    requires Ready(g, prefix, file, written)
    ensures written' == written + Front(Rows(g.thick), Cols(g.thick))
    ensures Ready(g, prefix, file', written')
  {
    var rows, cols := Rows(g.thick), Cols(g.thick);
    file', written' := file, written;
    for r := 0 to rows - 1
      invariant Ready(g, prefix, file', written')
      invariant written' == written + Strip(FrontRows(cols - 1), r)
    {
      ghost var rowStart := written';
      file', written' := FrontRow(g, prefix, file', written', r);
      Assoc(written, Strip(FrontRows(cols - 1), r), Strip(FrontRowQuads(r), cols - 1));
    }
  }

  /** One row of pass 2: the quads of grid row r, left to right. */
  method BackRow(g: PanelGeometry, ghost prefix: seq<byte>, file: seq<byte>, ghost written: seq<Triangle<PanelVertex>>, r: nat)
    returns (file': seq<byte>, ghost written': seq<Triangle<PanelVertex>>)
    requires Ready(g, prefix, file, written) && r + 1 < Rows(g.thick)
    ensures written' == written + Strip(BackRowQuads(r), Cols(g.thick) - 1)
    ensures Ready(g, prefix, file', written')
  {
    file', written' := file, written;
    for c := 0 to Cols(g.thick) - 1
      invariant Ready(g, prefix, file', written')
      invariant written' == written + Strip(BackRowQuads(r), c)
    {
      ghost var before := written';
      var tl, tr, bl, br := Inner(r, c), Inner(r, c + 1), Inner(r + 1, c), Inner(r + 1, c + 1);
      file', written' := WriteEdgeQuad(g, prefix, file', written', tl, tr, bl, br);
      assert written' == before + BackQuad(r, c);
      Assoc(written, Strip(BackRowQuads(r), c), BackQuad(r, c));
    }
  }

  /** Pass 2: the inner surface, row by row, wound the other way round. */
  method BackPass(g: PanelGeometry, ghost prefix: seq<byte>, file: seq<byte>, ghost written: seq<Triangle<PanelVertex>>)
    returns (file': seq<byte>, ghost written': seq<Triangle<PanelVertex>>)
    requires Ready(g, prefix, file, written)
    ensures written' == written + Back(Rows(g.thick), Cols(g.thick))
    ensures Ready(g, prefix, file', written')
  {
    var rows, cols := Rows(g.thick), Cols(g.thick);
    file', written' := file, written;
    for r := 0 to rows - 1
      invariant Ready(g, prefix, file', written')
      invariant written' == written + Strip(BackRows(cols - 1), r)
    {
      ghost var rowStart := written';
      file', written' := BackRow(g, prefix, file', written', r);
      Assoc(written, Strip(BackRows(cols - 1), r), Strip(BackRowQuads(r), cols - 1));
    }
  }

  /** Pass 3: the strip joining back and front along row 0. */
  method TopPass(g: PanelGeometry, ghost prefix: seq<byte>, file: seq<byte>, ghost written: seq<Triangle<PanelVertex>>)
    returns (file': seq<byte>, ghost written': seq<Triangle<PanelVertex>>)
    requires Ready(g, prefix, file, written)
    ensures written' == written + Top(Cols(g.thick))
    ensures Ready(g, prefix, file', written')
  {
    var cols := Cols(g.thick);
    file', written' := file, written;
    for c := 0 to cols - 1
      invariant Ready(g, prefix, file', written')
      invariant written' == written + Strip(TopQuads(), c)
    {
      ghost var before := written';
      var tl, tr, bl, br := Inner(0, c), Inner(0, c + 1), Outer(0, c), Outer(0, c + 1);
      file', written' := WriteEdgeQuad(g, prefix, file', written', tl, tr, bl, br);
      assert written' == before + TopQuad(c);
      Assoc(written, Strip(TopQuads(), c), TopQuad(c));
    }
  }

  /** Pass 4: the strip joining front and back along the last row. */
  method BottomPass(g: PanelGeometry, ghost prefix: seq<byte>, file: seq<byte>, ghost written: seq<Triangle<PanelVertex>>)
    returns (file': seq<byte>, ghost written': seq<Triangle<PanelVertex>>)
    requires Ready(g, prefix, file, written)
    ensures written' == written + Bottom(Rows(g.thick), Cols(g.thick))
    ensures Ready(g, prefix, file', written')
  {
    var rEnd, cols := Rows(g.thick) - 1, Cols(g.thick);
    file', written' := file, written;
    for c := 0 to cols - 1
      invariant Ready(g, prefix, file', written')
      invariant written' == written + Strip(BottomQuads(rEnd), c)
    {
      ghost var before := written';
      var tl, tr, bl, br := Outer(rEnd, c), Outer(rEnd, c + 1), Inner(rEnd, c), Inner(rEnd, c + 1);
      file', written' := WriteEdgeQuad(g, prefix, file', written', tl, tr, bl, br);
      assert written' == before + BottomQuad(rEnd, c);
      Assoc(written, Strip(BottomQuads(rEnd), c), BottomQuad(rEnd, c));
    }
  }

  /** Pass 5: the strip joining front and back along column 0. */
  method LeftPass(g: PanelGeometry, ghost prefix: seq<byte>, file: seq<byte>, ghost written: seq<Triangle<PanelVertex>>)
    returns (file': seq<byte>, ghost written': seq<Triangle<PanelVertex>>)
    requires Ready(g, prefix, file, written)
    ensures written' == written + Left(Rows(g.thick))
    ensures Ready(g, prefix, file', written')
  {
    var rows := Rows(g.thick);
    file', written' := file, written;
    for r := 0 to rows - 1
      invariant Ready(g, prefix, file', written')
      invariant written' == written + Strip(LeftQuads(), r)
    {
      ghost var before := written';
      var tl, tr, bl, br := Outer(r, 0), Inner(r, 0), Outer(r + 1, 0), Inner(r + 1, 0);
      file', written' := WriteEdgeQuad(g, prefix, file', written', tl, tr, bl, br);
      assert written' == before + LeftQuad(r);
      Assoc(written, Strip(LeftQuads(), r), LeftQuad(r));
    }
  }

  /** Pass 6: the strip joining back and front along the last column. */
  method RightPass(g: PanelGeometry, ghost prefix: seq<byte>, file: seq<byte>, ghost written: seq<Triangle<PanelVertex>>)
    returns (file': seq<byte>, ghost written': seq<Triangle<PanelVertex>>)
    requires Ready(g, prefix, file, written)
    ensures written' == written + Right(Rows(g.thick), Cols(g.thick))
    ensures Ready(g, prefix, file', written')
  {
    var rows, cEnd := Rows(g.thick), Cols(g.thick) - 1;
    file', written' := file, written;
    for r := 0 to rows - 1
      invariant Ready(g, prefix, file', written')
      invariant written' == written + Strip(RightQuads(cEnd), r)
    {
      ghost var before := written';
      var tl, tr, bl, br := Inner(r, cEnd), Outer(r, cEnd), Inner(r + 1, cEnd), Outer(r + 1, cEnd);
      file', written' := WriteEdgeQuad(g, prefix, file', written', tl, tr, bl, br);
      assert written' == before + RightQuad(cEnd, r);
      Assoc(written, Strip(RightQuads(cEnd), r), RightQuad(cEnd, r));
    }
  }

  /** The whole script after the image has been read: the header, the count
      from the closed form and the six passes. When the count does not fit an
      unsigned 32-bit field only the header has been written. */
  method CreateCurvedLithophane(pixels: seq<seq<byte>>, minThick: real, maxThick: real,
                                widthMm: real, heightMm: real, curveAngleDeg: real, project: Cylindrical -> Vec3)
    returns (file: seq<byte>, ok: bool)
    requires IsGrid(pixels) && curveAngleDeg != 0.0
    ensures ok <==> 0 <= NumTriangles(Rows(pixels), Cols(pixels)) < U32Limit
    ensures ok ==> Rows(pixels) >= 1 && Cols(pixels) >= 1
    ensures ok ==> var g := PanelGeometry(ThicknessMap(pixels, minThick, maxThick), ShapeOf(widthMm, heightMm, curveAngleDeg), project);
      MeshInGrid(g, PanelMesh(Rows(pixels), Cols(pixels))) &&
      file == StlFile(PlaceMesh(g, PanelMesh(Rows(pixels), Cols(pixels))))
    ensures !ok ==> file == Header()
  {
    var thick := ThicknessMap(pixels, minThick, maxThick);
    var g := PanelGeometry(thick, ShapeOf(widthMm, heightMm, curveAngleDeg), project);
    var rows, cols := Rows(thick), Cols(thick);
    file := Header();
    var numTriangles := NumTriangles(rows, cols);
    if !(0 <= numTriangles < U32Limit) {
      return file, false;
    }
    ok := true;
    if rows == 0 || cols == 0 {
      EmptyGridCount(rows, cols);
      assert false;
    }
    file := file + U32LE(numTriangles);
    ghost var prefix := file;
    ghost var written: seq<Triangle<PanelVertex>> := [];
    assert file == prefix + Records(PlaceMesh(g, written));

    file, written := FrontPass(g, prefix, file, written);
    assert written == Front(rows, cols);
    file, written := BackPass(g, prefix, file, written);
    file, written := TopPass(g, prefix, file, written);
    file, written := BottomPass(g, prefix, file, written);
    file, written := LeftPass(g, prefix, file, written);
    file, written := RightPass(g, prefix, file, written);
    assert written == PanelMesh(rows, cols);
  }
}
