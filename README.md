# Curved lithophane and knot-friendly tower, modelled in Dafny

This project models two small generators of binary STL files from the
`lithophanecurved` directory. Their meshes are treated as combinatorics over
vertex labels, and the project proves properties of those meshes.

- `lithophaneconcave.py` turns a grey image into a curved panel. A
  rows x cols grid of thickness samples becomes a shell with six passes: an
  outer (front) surface, an inner (back) surface, and top, bottom, left and
  right edge strips. Each triangle goes straight to the open file through
  `write_tri`.
- `stand.py` builds the tower stand. `add_solid_arc_tube` is called five
  times to make five stacked arc tubes. A slotted base follows: a ten-point
  profile swept over 200 angle samples, closed at both ends by a fan. All
  triangles accumulate in a list through `add_quad`, and the list is then
  serialised.
- Both write the same layout: 80 zero header bytes, the triangle count as a
  little-endian unsigned 32-bit integer, and one 50-byte record per
  triangle.

A vertex is a label. In the panel it is `Inner(r, c)` or `Outer(r, c)`. In
the tower it is `Tube(section, side, step, level)` or `Base(step, corner)`.
A triangle is an ordered triple of labels, so it keeps the winding in which
the source emits it.

The real-valued part of the geometry is modelled where it is linear:
- the thickness map;
- the arc radius;
- the `linspace` samples;
- the section heights and angles;
- the base profile.

How a cylindrical point becomes three stored float32 values (sine, cosine,
rounding) is a function the caller supplies. That function is `project`.

Modules:
- `Mesh` (mesh.dfy): triangles, edge counts, closure, orientation, and strips (the output of one loop).
- `Stl` (stl.dfy): the file layout, the count encoding, and a parser used as the reference for round trips.
- `Geometry` (geometry.dfy): radians, `linspace`, cylindrical points.
- `Panel` (panel.dfy): the thickness map, the six passes as loop methods, and the whole generator.
- `PanelClosure` (panel_closure.dfy): every edge of the panel lies in exactly two triangles.
- `PanelWinding` (panel_winding.dfy): the back mirrors the front; which shared edges are traversed opposite ways and which the same way.
- `Tower` (tower.dfy): sections, profile, the list builder class and the whole generator.
- `TowerClosure` (tower_closure.dfy): each arc tube, the base and the whole tower are closed; where the winding repeats.

On winding, the model follows the code as written:
- Edges that the left and right panel strips share with the surfaces are traversed once each way.
- The top and bottom strips of the panel traverse their shared edges in the same direction as the adjacent surface.
- The same holds for the tube end caps and for the base fans.
- The meshes are therefore closed but not consistently oriented. The model proves both facts for the panel, for each arc tube, for the base and for the whole tower (`TowerClosure.TowerNotOriented`).
- A single row of pixels still emits the top and bottom strips, 4 * (cols - 1) triangles, which agrees with the header formula. Those two strips then run along the same grid line. With at least three columns that shell is open. With two columns its four triangles close up. A 1 x 1 grid emits nothing.
- A single column is the mirror case: the left and right strips share the column, and with at least three rows the shell is open.

## Model

| member | source | states |
|---|---|---|
| Geometry.Radians | lithophanecurved/lithophaneconcave.py:64 | 180 degrees is pi, and a positive angle stays positive |
| Geometry.Linspace | lithophanecurved/lithophaneconcave.py:68-70 | the first sample is start; with more than one sample the last is stop |
| Geometry.LinspaceMonotone | lithophanecurved/lithophaneconcave.py:68-70 | samples lie between the end points and are non-decreasing in their index |
| Panel.Normalise | lithophanecurved/lithophaneconcave.py:51 | a grey value maps into [0, 1]; it is 0 exactly for black and 1 exactly for white |
| Panel.ThicknessRange | lithophanecurved/lithophaneconcave.py:53-56 | a value in [0, 1] gives a thickness in [min_thick, max_thick]; black gives max_thick and white gives min_thick |
| Panel.ThicknessAntitone | lithophanecurved/lithophaneconcave.py:56 | a brighter value never gives a thicker wall; it gives a strictly thinner one when min_thick < max_thick |
| Panel.GreyThicknessRange | lithophanecurved/lithophaneconcave.py:51-56 | every byte value gives a thickness inside the configured range |
| Panel.ThicknessMap | lithophanecurved/lithophaneconcave.py:50-58 | same shape as the pixel grid; each cell is the thickness of its normalised pixel and lies within the range |
| Panel.Position | lithophanecurved/lithophaneconcave.py:64-86 | an outer label sits at radius plus the thickness of its cell; an inner label sits at the radius |
| Panel.ShapeOf | lithophanecurved/lithophaneconcave.py:64-70 | the sweep is the curve angle in radians, and radius times sweep is the panel width, so the inner arc is as long as the picture is wide |
| Panel.WallIsThickness | lithophanecurved/lithophaneconcave.py:77-86 | Inner(r, c) and Outer(r, c) share angle and height; their radii differ by the thickness, so a positive thickness puts the front outside the back |
| Panel.ThickenOneCell | lithophanecurved/lithophaneconcave.py:56-86 | changing the thickness of one cell moves that cell's outer point radially by the change, and leaves every other label where it was |
| Panel.PanelMesh | lithophanecurved/lithophaneconcave.py:114-170 | the six passes together emit exactly the header's num_triangles triangles |
| Panel.FrontLength | lithophanecurved/lithophaneconcave.py:115-132 | the front and back passes each emit two triangles per grid quad |
| Panel.NumTriangles | lithophanecurved/lithophaneconcave.py:93-97 | the header count equals 4 (rows cols - 1) |
| Panel.PassLengths | lithophanecurved/lithophaneconcave.py:93-97 | front and back emit 2(rows-1)(cols-1) each, top and bottom 2(cols-1) each, left and right 2(rows-1) each; the sum is the header formula |
| Panel.EmptyGridCount | lithophanecurved/lithophaneconcave.py:93-97 | with no rows or no columns the formula is -4, a count that cannot be packed |
| Panel.WriteTri | lithophanecurved/lithophaneconcave.py:103-108 | one 50-byte record for the placed triangle is appended, and nothing else changes |
| Panel.WriteEdgeQuad | lithophanecurved/lithophaneconcave.py:140-141 | records for (tl, tr, bl) and (tr, br, bl) are appended in that order |
| Panel.WriteFrontQuad | lithophanecurved/lithophaneconcave.py:117-122 | records for (tl, bl, tr) and (tr, bl, br) of grid quad (r, c) are appended |
| Panel.FrontRow | lithophanecurved/lithophaneconcave.py:116-122 | one front row emits the quads of columns 0 .. cols-2 in order |
| Panel.FrontPass | lithophanecurved/lithophaneconcave.py:115-122 | the file grows by exactly the records of the front surface, row by row |
| Panel.BackRow | lithophanecurved/lithophaneconcave.py:126-132 | one back row emits the quads of columns 0 .. cols-2 in order |
| Panel.BackPass | lithophanecurved/lithophaneconcave.py:125-132 | the file grows by exactly the records of the back surface |
| Panel.TopPass | lithophanecurved/lithophaneconcave.py:135-141 | the file grows by exactly the records of the top strip on row 0 |
| Panel.BottomPass | lithophanecurved/lithophaneconcave.py:144-151 | the file grows by exactly the records of the bottom strip on the last row |
| Panel.LeftPass | lithophanecurved/lithophaneconcave.py:154-160 | the file grows by exactly the records of the left strip on column 0 |
| Panel.RightPass | lithophanecurved/lithophaneconcave.py:163-170 | the file grows by exactly the records of the right strip on the last column |
| Panel.CreateCurvedLithophane | lithophanecurved/lithophaneconcave.py:50-170 | with the shape built from the width, picture height and curve angle, it succeeds exactly when the count can be packed; then every grid access is in range and the file is the STL of the six passes; otherwise only the 80 header bytes are written |
| PanelClosure.FrontVertex | lithophanecurved/lithophaneconcave.py:115-122 | the front surface uses only Outer labels inside the grid |
| PanelClosure.BackVertex | lithophanecurved/lithophaneconcave.py:125-132 | the back surface uses only Inner labels inside the grid |
| PanelClosure.TopVertex | lithophanecurved/lithophaneconcave.py:134-141 | the top strip lies on row 0 |
| PanelClosure.BottomVertex | lithophanecurved/lithophaneconcave.py:143-151 | the bottom strip lies on the last row |
| PanelClosure.LeftVertex | lithophanecurved/lithophaneconcave.py:153-160 | the left strip lies on column 0 |
| PanelClosure.RightVertex | lithophanecurved/lithophaneconcave.py:162-170 | the right strip lies on the last column |
| PanelClosure.PassSum | lithophanecurved/lithophaneconcave.py:114-170 | every count over the panel is the sum of the counts of the six passes |
| PanelClosure.PanelLocal | lithophanecurved/lithophaneconcave.py:114-170 | the counts at a label come only from the quads of each pass next to it |
| PanelClosure.OuterRowEdge | lithophanecurved/lithophaneconcave.py:115-151 | an edge along a front grid row lies in exactly two triangles |
| PanelClosure.OuterColEdge | lithophanecurved/lithophaneconcave.py:115-160 | an edge along a front grid column lies in exactly two triangles |
| PanelClosure.OuterDiagonal | lithophanecurved/lithophaneconcave.py:121-122 | the diagonal of a front quad lies in exactly its two triangles |
| PanelClosure.InnerRowEdge | lithophanecurved/lithophaneconcave.py:125-151 | an edge along a back grid row lies in exactly two triangles |
| PanelClosure.InnerColEdge | lithophanecurved/lithophaneconcave.py:125-170 | an edge along a back grid column lies in exactly two triangles |
| PanelClosure.InnerDiagonal | lithophanecurved/lithophaneconcave.py:131-132 | the diagonal of a back quad lies in exactly its two triangles |
| PanelClosure.Rung | lithophanecurved/lithophaneconcave.py:134-170 | an edge from Inner(r, c) to Outer(r, c) on the rim lies in exactly two triangles |
| PanelClosure.TopDiagonal | lithophanecurved/lithophaneconcave.py:140-141 | the diagonal of a top-strip quad lies in exactly two triangles |
| PanelClosure.BottomDiagonal | lithophanecurved/lithophaneconcave.py:150-151 | the diagonal of a bottom-strip quad lies in exactly two triangles |
| PanelClosure.LeftDiagonal | lithophanecurved/lithophaneconcave.py:159-160 | the diagonal of a left-strip quad lies in exactly two triangles |
| PanelClosure.RightDiagonal | lithophanecurved/lithophaneconcave.py:169-170 | the diagonal of a right-strip quad lies in exactly two triangles |
| PanelClosure.FrontQuadClosed | lithophanecurved/lithophaneconcave.py:117-122 | every edge of a front quad lies in exactly two triangles of the panel |
| PanelClosure.BackQuadClosed | lithophanecurved/lithophaneconcave.py:127-132 | every edge of a back quad lies in exactly two triangles of the panel |
| PanelClosure.TopQuadClosed | lithophanecurved/lithophaneconcave.py:136-141 | every edge of a top-strip quad lies in exactly two triangles |
| PanelClosure.BottomQuadClosed | lithophanecurved/lithophaneconcave.py:144-151 | every edge of a bottom-strip quad lies in exactly two triangles |
| PanelClosure.LeftQuadClosed | lithophanecurved/lithophaneconcave.py:155-160 | every edge of a left-strip quad lies in exactly two triangles |
| PanelClosure.RightQuadClosed | lithophanecurved/lithophaneconcave.py:163-170 | every edge of a right-strip quad lies in exactly two triangles |
| PanelClosure.FrontEdgesTwice | lithophanecurved/lithophaneconcave.py:115-122 | every edge of every front triangle lies in exactly two triangles |
| PanelClosure.BackEdgesTwice | lithophanecurved/lithophaneconcave.py:125-132 | every edge of every back triangle lies in exactly two triangles |
| PanelClosure.RimEdgesTwice | lithophanecurved/lithophaneconcave.py:134-170 | every edge of every edge-strip triangle lies in exactly two triangles |
| PanelClosure.PanelClosed | lithophanecurved/lithophaneconcave.py:114-170 | for at least two rows and two columns, every edge of the emitted panel lies in exactly two triangles |
| PanelWinding.BackQuadMirrorsFront | lithophanecurved/lithophaneconcave.py:115-132 | each back quad is the front quad with the same indices, moved to Inner labels, each triangle reversed |
| PanelWinding.BackMirrorsFront | lithophanecurved/lithophaneconcave.py:115-132 | the back pass is the front pass moved to Inner labels with every triangle reversed, in the same order |
| PanelWinding.FrontDiagonalPaired | lithophanecurved/lithophaneconcave.py:121-122 | the two front triangles of a quad traverse their diagonal once each way |
| PanelWinding.FrontRowPaired | lithophanecurved/lithophaneconcave.py:115-122 | an interior front row edge is traversed once each way |
| PanelWinding.FrontColPaired | lithophanecurved/lithophaneconcave.py:115-122 | an interior front column edge is traversed once each way |
| PanelWinding.BackDiagonalPaired | lithophanecurved/lithophaneconcave.py:131-132 | the back diagonal is traversed once each way |
| PanelWinding.BackRowPaired | lithophanecurved/lithophaneconcave.py:125-132 | an interior back row edge is traversed once each way |
| PanelWinding.BackColPaired | lithophanecurved/lithophaneconcave.py:125-132 | an interior back column edge is traversed once each way |
| PanelWinding.LeftOpposesFront | lithophanecurved/lithophaneconcave.py:153-160 | the left strip and the front traverse their shared column-0 edge in opposite directions |
| PanelWinding.LeftOpposesBack | lithophanecurved/lithophaneconcave.py:153-160 | the left strip and the back traverse their shared column-0 edge in opposite directions |
| PanelWinding.RightOpposesFront | lithophanecurved/lithophaneconcave.py:162-170 | the right strip and the front traverse their shared edge in opposite directions |
| PanelWinding.RightOpposesBack | lithophanecurved/lithophaneconcave.py:162-170 | the right strip and the back traverse their shared edge in opposite directions |
| PanelWinding.TopRepeatsBack | lithophanecurved/lithophaneconcave.py:134-141 | back row 0 and the top strip both traverse Inner(0, c) -> Inner(0, c+1), and nothing traverses it backwards |
| PanelWinding.TopRepeatsFront | lithophanecurved/lithophaneconcave.py:134-141 | the top strip repeats the front's traversal of its row-0 edge |
| PanelWinding.BottomRepeatsFront | lithophanecurved/lithophaneconcave.py:143-151 | the bottom strip repeats the front's traversal of its last-row edge |
| PanelWinding.BottomRepeatsBack | lithophanecurved/lithophaneconcave.py:143-151 | the bottom strip repeats the back's traversal of its last-row edge |
| PanelWinding.PanelNotOriented | lithophanecurved/lithophaneconcave.py:134-141 | so the shell is not consistently oriented |
| PanelWinding.SingleRowOpen | lithophanecurved/lithophaneconcave.py:134-151 | with one row and at least three columns, the top and bottom strips share their rungs, which then lie in four triangles, so the shell is open |
| PanelWinding.SingleColumnOpen | lithophanecurved/lithophaneconcave.py:153-170 | with one column and at least three rows, the left and right strips share their rungs, which then lie in four triangles, so the shell is open |
| Stl.Zeros | lithophanecurved/lithophaneconcave.py:91 | n zero bytes |
| Stl.Header | lithophanecurved/lithophaneconcave.py:91 | the header is 80 bytes |
| Stl.U32LE | lithophanecurved/lithophaneconcave.py:101 | `struct.pack('<I', n)` gives four bytes |
| Stl.DecodeU32LE | lithophanecurved/lithophaneconcave.py:101 | four bytes decode to a value below 2^32 |
| Stl.U32RoundTrip | lithophanecurved/lithophaneconcave.py:101 | the encoded count decodes back to itself |
| Stl.U32RoundTripBytes | lithophanecurved/lithophaneconcave.py:101 | any four bytes are the encoding of their decoded value |
| Stl.Vec3Bytes | lithophanecurved/lithophaneconcave.py:105 | a point packs to 12 bytes |
| Stl.Record | lithophanecurved/lithophaneconcave.py:103-108 | one triangle packs to a 50-byte record |
| Stl.RecordAsCorners | lithophanecurved/lithophaneconcave.py:103-108 | the record is the zero normal, the three corners in argument order, and two zero bytes |
| Stl.Records | lithophanecurved/stand.py:142-146 | the records of m take 50 bytes per triangle |
| Stl.RecordAt | lithophanecurved/stand.py:142-146 | record i of the body is the record of triangle i |
| Stl.StlFile | lithophanecurved/lithophaneconcave.py:99-108 | the file is 84 + 50 * n bytes and starts with 80 zero bytes |
| Stl.ReadRecords | lithophanecurved/stand.py:142-146 | a body read back holds one triangle per 50 bytes |
| Stl.ParseStl | lithophanecurved/stand.py:139-146 | a parsed file has exactly the length its header count calls for |
| Stl.ReadWriteRecord | lithophanecurved/lithophaneconcave.py:103-108 | a record reads back as the triangle it was written from |
| Stl.ReadWriteRecords | lithophanecurved/stand.py:142-146 | the body reads back as the triangle list |
| Stl.ParseWriteRoundTrip | lithophanecurved/stand.py:139-146 | parsing the written file gives back exactly the triangle list, so the count decodes to the number of records |
| Stl.WriteRecord | lithophanecurved/stand.py:143-146 | the record loop body appends exactly one record |
| Stl.WriteStl | lithophanecurved/stand.py:139-146 | it succeeds exactly when the count fits in 32 bits; then the file is the STL of the list, otherwise only the header |
| Tower.LithoRadius | lithophanecurved/stand.py:10-11 | the panel radius times the curve angle in radians is the panel width |
| Tower.HalfHole | lithophanecurved/stand.py:68 | half the hole width is strictly between 0 and pi/2 |
| Tower.Sections | lithophanecurved/stand.py:76-100 | there are five `add_solid_arc_tube` calls |
| Tower.SectionsStack | lithophanecurved/stand.py:79-100 | the sections run from z = 0 to tower_height; each starts where the previous ends; all share the tower radii |
| Tower.SectionsOrdered | lithophanecurved/stand.py:84-100 | every section has z_start <= z_end exactly when tower_height covers the lip, hole, slot and rim heights |
| Tower.StartSolid | lithophanecurved/stand.py:68-69 | the gapped sections start between pi and 3 pi / 2 |
| Tower.EndSolid | lithophanecurved/stand.py:68-70 | the gapped sections end less than a full turn after they start, and the arc left open is exactly the 35 degree hole width |
| Tower.SectionAngles | lithophanecurved/stand.py:68-100 | sections 0, 2 and 4 span [0, 2 pi]; the gapped sections 1 and 3 start at pi + half_hole and span 2 pi - 2 half_hole, which is less than a full turn |
| Tower.Profile | lithophanecurved/stand.py:111-116 | the profile has ten points |
| Tower.ProfileOutline | lithophanecurved/stand.py:111-125 | consecutive points, the wrap to point 0 included, share a radius or a height; the slot is 3.8 wide, centred on the panel radius, and 12 deep |
| Tower.Position | lithophanecurved/stand.py:41-65 | a tube label sits on its wall radius at its section's z_start or z_end, and at the section's end angles at steps 0 and 59; a base label sits at its profile point |
| Tower.PlaceMesh | lithophanecurved/stand.py:142-145 | triangle i of the file is the placement of triangle i of the list |
| Tower.Quad | lithophanecurved/stand.py:37-39 | `add_quad` makes two triangles |
| Tower.QuadDiagonal | lithophanecurved/stand.py:37-39 | the two triangles of a quad share the diagonal bl-tr and traverse it in opposite directions |
| Tower.TubeStep | lithophanecurved/stand.py:48-58 | one loop step of a tube adds eight triangles |
| Tower.ArcTubeLength | lithophanecurved/stand.py:45-65 | one tube call adds 2 * (4 * 59 + 2) = 476 triangles, end caps included for every angular range |
| Tower.BaseSweepLength | lithophanecurved/stand.py:117-127 | the sweep adds 199 * 10 quads, 3980 triangles |
| Tower.FansShape | lithophanecurved/stand.py:129-136 | the fans hold 2 * (10 - 2) triangles, each anchored at profile point 0 of one end |
| Tower.FanAnchors | lithophanecurved/stand.py:132-136 | every fan triangle starts at pt0 or pt0_end |
| Tower.TowerMesh | lithophanecurved/stand.py:76-136 | the list is five tubes, the sweep, then the fans |
| Tower.TowerLength | lithophanecurved/stand.py:76-141 | the list holds 5 * 476 + 3980 + 16 = 6376 triangles |
| Tower.TowerBuilder.constructor | lithophanecurved/stand.py:34 | the list starts empty |
| Tower.TowerBuilder.AddTriangle | lithophanecurved/stand.py:133-136 | `triangles.append` adds one triangle after all earlier ones |
| Tower.TowerBuilder.AddQuad | lithophanecurved/stand.py:37-39 | the list grows by (bl, br, tr) then (bl, tr, tl); earlier entries are unchanged |
| Tower.TowerBuilder.AddTubeStep | lithophanecurved/stand.py:49-58 | the outer wall, inner wall, top and bottom quads of one step are added in order |
| Tower.TowerBuilder.AddSolidArcTube | lithophanecurved/stand.py:45-65 | the list grows by exactly the tube of that section |
| Tower.TowerBuilder.AddBaseRow | lithophanecurved/stand.py:123-127 | one sweep step adds a quad per profile side, the side from point 9 back to point 0 included |
| Tower.TowerBuilder.AddBaseSweep | lithophanecurved/stand.py:120-127 | the list grows by exactly the sweep |
| Tower.TowerBuilder.AddFans | lithophanecurved/stand.py:129-136 | the list grows by exactly the fan triangles, start and end alternating |
| Tower.ArcTubeInRange | lithophanecurved/stand.py:45-65 | every label a tube uses has a position |
| Tower.BaseInRange | lithophanecurved/stand.py:111-136 | every label of the base has a position |
| Tower.TowerInRange | lithophanecurved/stand.py:76-136 | every label of the tower has a position |
| Tower.BuildTower | lithophanecurved/stand.py:76-136 | the list the script builds is the tower mesh, in order |
| Tower.CreateKnotFriendlyTower | lithophanecurved/stand.py:138-146 | the file is the STL of the 6376 placed triangles, 84 + 50 * 6376 bytes |
| TowerClosure.ArcTubeVertex | lithophanecurved/stand.py:45-65 | a tube uses only its own labels: steps 0 .. 59, both sides, both levels |
| TowerClosure.TubeLocal | lithophanecurved/stand.py:45-65 | the counts of a tube at a label come only from the steps next to it and from the caps |
| TowerClosure.Rail | lithophanecurved/stand.py:51-58 | an edge between consecutive angle samples lies in exactly two triangles of its tube |
| TowerClosure.Upright | lithophanecurved/stand.py:51-65 | a vertical wall edge lies in exactly two triangles |
| TowerClosure.Spoke | lithophanecurved/stand.py:55-65 | a radial edge on the top or bottom face lies in exactly two triangles |
| TowerClosure.OuterWallDiagonal | lithophanecurved/stand.py:51-52 | the diagonal of an outer-wall quad lies in exactly two triangles |
| TowerClosure.InnerWallDiagonal | lithophanecurved/stand.py:53-54 | the diagonal of an inner-wall quad lies in exactly two triangles |
| TowerClosure.TopFaceDiagonal | lithophanecurved/stand.py:55-56 | the diagonal of a top-face quad lies in exactly two triangles |
| TowerClosure.BottomFaceDiagonal | lithophanecurved/stand.py:57-58 | the diagonal of a bottom-face quad lies in exactly two triangles |
| TowerClosure.CapDiagonal | lithophanecurved/stand.py:62-65 | the diagonal of an end cap lies in exactly two triangles |
| TowerClosure.TubeStepClosed | lithophanecurved/stand.py:48-58 | every edge of one loop step lies in exactly two triangles of its tube |
| TowerClosure.CapsClosed | lithophanecurved/stand.py:61-65 | every edge of both caps lies in exactly two triangles of its tube |
| TowerClosure.ArcTubeClosed | lithophanecurved/stand.py:45-65 | each tube is closed on its own |
| TowerClosure.RailOpposed | lithophanecurved/stand.py:51-58 | walls and faces traverse each shared angular edge once each way |
| TowerClosure.UprightOpposed | lithophanecurved/stand.py:51-54 | consecutive wall quads traverse a shared vertical edge once each way |
| TowerClosure.SpokeOpposed | lithophanecurved/stand.py:55-58 | consecutive face quads traverse a shared radial edge once each way |
| TowerClosure.StartCapRepeats | lithophanecurved/stand.py:62-63 | the start cap traverses its four edges in the same direction as the walls and faces |
| TowerClosure.EndCapRepeats | lithophanecurved/stand.py:64-65 | the end cap traverses its four edges in the same direction as the walls and faces |
| TowerClosure.ArcTubeNotOriented | lithophanecurved/stand.py:61-65 | so no tube is consistently oriented |
| TowerClosure.PrevCorner | lithophanecurved/stand.py:125 | the profile point before c; its successor under the wrap is c |
| TowerClosure.SweepQuadIsBaseQuad | lithophanecurved/stand.py:125-127 | the wrap `(p_idx + 1) % 10` joins point 9 to point 0 |
| TowerClosure.BaseVertex | lithophanecurved/stand.py:111-136 | the base uses only base labels at steps 0 .. 199 and profile points 0 .. 9 |
| TowerClosure.BaseLocal | lithophanecurved/stand.py:120-136 | the counts of the base at a label come only from the sweep quads next to it and, at either end, the fan triangles next to it |
| TowerClosure.SweepRail | lithophanecurved/stand.py:120-127 | an edge along the sweep lies in exactly two base triangles |
| TowerClosure.SweepDiagonal | lithophanecurved/stand.py:126-127 | the diagonal of a sweep quad lies in exactly two base triangles |
| TowerClosure.ProfileSide | lithophanecurved/stand.py:123-136 | a profile side at any sweep step lies in exactly two base triangles |
| TowerClosure.EndSideSweep | lithophanecurved/stand.py:120-127 | at either end a profile side lies in exactly one sweep quad |
| TowerClosure.EndSideFan | lithophanecurved/stand.py:132-136 | at either end a profile side from point 1 onwards lies in exactly one fan triangle |
| TowerClosure.FirstSideFan | lithophanecurved/stand.py:132-136 | the side from point 0 to point 1 lies in exactly one fan triangle |
| TowerClosure.FanDiagonal | lithophanecurved/stand.py:132-136 | an inner diagonal of a fan lies in exactly two fan triangles |
| TowerClosure.BaseQuadClosed | lithophanecurved/stand.py:126-127 | every edge of a sweep quad lies in exactly two base triangles |
| TowerClosure.FanTriangleClosed | lithophanecurved/stand.py:132-136 | every edge of a fan triangle lies in exactly two base triangles |
| TowerClosure.FanPairClosed | lithophanecurved/stand.py:132-136 | both fan triangles of one loop step have all edges twice |
| TowerClosure.BaseClosed | lithophanecurved/stand.py:111-136 | the base is closed |
| TowerClosure.SweepRailOpposed | lithophanecurved/stand.py:126-127 | every sweep edge Base(i, c)-Base(i+1, c), at corner 0 and at step 0 included, is traversed once each way |
| TowerClosure.ProfileSideOpposed | lithophanecurved/stand.py:120-127 | consecutive steps traverse a shared profile side once each way |
| TowerClosure.FanRepeatsSweep | lithophanecurved/stand.py:129-136 | both fans traverse the profile sides in the same direction as the sweep quads they close |
| TowerClosure.StartFanRepeatsSweep | lithophanecurved/stand.py:133-134 | the start fan and the first sweep quad both traverse Base(0, p+1) -> Base(0, p) |
| TowerClosure.EndFanRepeatsSweep | lithophanecurved/stand.py:135-136 | the end fan and the last sweep quad both traverse Base(199, p) -> Base(199, p+1) |
| TowerClosure.BaseNotOriented | lithophanecurved/stand.py:129-136 | so the base is not consistently oriented |
| TowerClosure.TubesAppend | lithophanecurved/stand.py:79-100 | adding a tube with fresh labels to a closed list of tubes keeps it closed |
| TowerClosure.TubesClosed | lithophanecurved/stand.py:76-100 | the five tubes together are closed |
| TowerClosure.TowerNotOriented | lithophanecurved/stand.py:76-136 | the whole list is not consistently oriented: the tubes hold no base label, so the start fan's repeated side survives |
| TowerClosure.TowerClosed | lithophanecurved/stand.py:76-136 | the whole list is closed: every edge of every triangle lies in exactly two triangles |

## Left out

- Image loading, grey conversion, LANCZOS resize and the 3 mm black frame are PIL library calls. The model starts from the framed grey pixel grid.
- The early return on a missing image file is not modelled. That return comes before the output file is opened, so the script then creates no file at all. The `ok = false` result stands only for `struct.pack` refusing the count, after the 80 header bytes have been written.
- The float64 arithmetic of the script is modelled as exact real arithmetic. This covers the normalisation, the thickness map, the radius, the `linspace` samples and the outer radius. Float64 rounding is not modelled. For example, white with thicknesses 0.6 and 3.0 gives exactly 0.6 in the model, but 0.6000000000000001 in float64.
- Sine, cosine, `np.meshgrid` and the rounding to float32 are not modelled. The caller-supplied `project` stands for them. Positions are proved only for radius, angle sample and height.
- The float32 encoding is opaque: a stored coordinate is its four bytes.
- File opening, writing and closing, and the `print` progress messages, are not modelled. The output is the byte sequence written.
- The script invocations at the bottom of both files are not modelled. The tower's default parameters are `Tower.DefaultConfig`.
- Tower.LithoRadius: a zero curve angle divides by zero and numpy yields an infinite radius. Reals have no infinity, so every member that places a tower vertex requires a non-zero angle. `Panel.ShapeOf` and `Panel.CreateCurvedLithophane` require the same.
- TowerClosure.TowerClosed: closure is stated over labels. Geometric coincidences are not identified. These include the seam of a full ring, where step 0 and step 59 land on the same point, and stacked sections that share a height. The labels keep all of these apart.
- Panel.CreateCurvedLithophane: requires a non-zero curve angle, as `Tower.LithoRadius` does. It takes the picture height `height_mm` as a parameter, because the script derives it from the image's aspect ratio (line 36).
- Panel.PanelMesh: with no rows or no columns the script has nothing to index and the header formula goes negative. The model requires at least one row and one column for the mesh itself. `CreateCurvedLithophane` reports the negative count as the pack error.
- PanelClosure.PanelClosed: proved for at least two rows and two columns. With one row and at least three columns the shell is open, and `PanelWinding.SingleRowOpen` proves that instead. `PanelWinding.SingleColumnOpen` proves the same for one column and at least three rows. The small cases in between are not stated: one row with two columns, or two rows with one column, closes up, and a 1 x 1 grid emits nothing.
