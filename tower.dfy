/** The knot-friendly tower stand (lithophanecurved/stand.py).

    Five stacked arc tubes form the tower: solid rings at the bottom, in the
    middle and at the top, and two sections open at the back (the knot hole
    and the top entry slot). Below them a closed ten-point profile is swept
    along the panel's arc to form the slotted base, and a fan of triangles
    closes each end of the sweep. A vertex is a label: corner `step` of the
    angle samples of tube `section` on its inner or outer wall at its lower
    or upper height, or corner `corner` of the profile at sweep step `step`. */
module Tower {
  import opened Mesh
  import opened Stl
  import opened Geometry

  datatype Side = In | Out
  datatype Level = Lower | Upper

  datatype TowerVertex =
    | Tube(section: nat, side: Side, step: nat, level: Level)
    | Base(step: nat, corner: nat)

  /** Angle samples of one arc tube (`steps = 60`). */
  const TubeSteps: nat := 60
  /** Angle samples of the base sweep (`b_steps = 200`). */
  const BaseSteps: nat := 200
  const ProfileSize: nat := 10
  const SectionCount: nat := 5

  // ---------------------------------------------------------------------------
  // Configuration

  /** The keyword parameters of the generator. */
  datatype TowerConfig = TowerConfig(lithoWidthMm: real, curveAngleDeg: real, towerHeight: real, towerRadius: real)

  const DefaultConfig := TowerConfig(203.2, 120.0, 150.0, 25.0)

  const SlotWidth: real := 3.8
  const WallHeight: real := 12.0
  const BaseThickness: real := 3.0
  const HoleBottomLip: real := 3.0
  const HoleHeight: real := 9.0
  const TopSlotHeight: real := 10.0
  const TopRimHeight: real := 4.0
  const HoleWidthDeg: real := 35.0

  /** Radius of the panel's arc: its width over its angle. */
  function LithoRadius(cfg: TowerConfig): (r: real)
    requires cfg.curveAngleDeg != 0.0
    ensures r * Radians(cfg.curveAngleDeg) == cfg.lithoWidthMm
  {
    cfg.lithoWidthMm / Radians(cfg.curveAngleDeg)
  }

  function HalfHole(): (h: real)
    ensures 0.0 < h < Pi / 2.0
  {
    Radians(HoleWidthDeg / 2.0)
  }

  /** The gapped sections run from just past the back (angle pi) all the way
      round to just before it. */
  function StartSolid(): (s: real)
    ensures Pi < s < 3.0 * Pi / 2.0
  {
    Pi + HalfHole()
  }

  /** The arc left open, from the end back round to the start, is exactly the
      hole width. */
  function EndSolid(): (e: real)
    ensures StartSolid() < e < StartSolid() + 2.0 * Pi
    ensures StartSolid() + 2.0 * Pi - e == Radians(HoleWidthDeg)
  {
    StartSolid() + (2.0 * Pi - 2.0 * HalfHole())
  }

  /** The arguments of one `add_solid_arc_tube` call. */
  datatype ArcSection = ArcSection(rInner: real, rOuter: real, zStart: real, zEnd: real, startAngle: real, endAngle: real)

  /** The five calls, bottom to top. */
  function Sections(cfg: TowerConfig): (r: seq<ArcSection>)
    ensures |r| == SectionCount
  {
    var rIn, rOut := cfg.towerRadius - 2.5, cfg.towerRadius;
    var zHoleTop := HoleBottomLip + HoleHeight;
    var zSlotBottom := cfg.towerHeight - TopRimHeight - TopSlotHeight;
    var zSlotTop := cfg.towerHeight - TopRimHeight;
    [ ArcSection(rIn, rOut, 0.0, HoleBottomLip, 0.0, 2.0 * Pi),
      ArcSection(rIn, rOut, HoleBottomLip, zHoleTop, StartSolid(), EndSolid()),
      ArcSection(rIn, rOut, zHoleTop, zSlotBottom, 0.0, 2.0 * Pi),
      ArcSection(rIn, rOut, zSlotBottom, zSlotTop, StartSolid(), EndSolid()),
      ArcSection(rIn, rOut, zSlotTop, cfg.towerHeight, 0.0, 2.0 * Pi) ]
  }

  /** The sections stack without gaps from the floor to the tower height,
      all with the same walls. */
  lemma SectionsStack(cfg: TowerConfig)
    ensures Sections(cfg)[0].zStart == 0.0
    ensures forall k :: 0 <= k < SectionCount - 1 ==> Sections(cfg)[k + 1].zStart == Sections(cfg)[k].zEnd
    ensures Sections(cfg)[SectionCount - 1].zEnd == cfg.towerHeight
    ensures forall k :: 0 <= k < SectionCount ==>
      Sections(cfg)[k].rInner == cfg.towerRadius - 2.5 && Sections(cfg)[k].rOuter == cfg.towerRadius
  {
  }

  /** Every section has a non-negative height exactly when the tower is tall
      enough for the lip, the hole, the slot and the rim. */
  lemma SectionsOrdered(cfg: TowerConfig)
    ensures (forall k :: 0 <= k < SectionCount ==> Sections(cfg)[k].zStart <= Sections(cfg)[k].zEnd)
      <==> cfg.towerHeight >= HoleBottomLip + HoleHeight + TopSlotHeight + TopRimHeight
  {
    var s := Sections(cfg);
    if cfg.towerHeight < HoleBottomLip + HoleHeight + TopSlotHeight + TopRimHeight {
      assert s[2].zStart > s[2].zEnd;
    }
  }

  /** Sections 0, 2 and 4 are full rings; sections 1 and 3 leave open an arc
      of the hole width centred on the back of the tower. */
  lemma SectionAngles(cfg: TowerConfig)
    ensures forall k :: k in {0, 2, 4} ==> Sections(cfg)[k].startAngle == 0.0 && Sections(cfg)[k].endAngle == 2.0 * Pi
    ensures forall k :: k in {1, 3} ==>
      Sections(cfg)[k].startAngle == Pi + HalfHole() &&
      Sections(cfg)[k].endAngle - Sections(cfg)[k].startAngle == 2.0 * Pi - 2.0 * HalfHole() &&
      Sections(cfg)[k].endAngle == (Pi - HalfHole()) + 2.0 * Pi
    ensures 2.0 * HalfHole() == Radians(HoleWidthDeg)
    ensures 0.0 < 2.0 * Pi - 2.0 * HalfHole() < 2.0 * Pi
  {
  }

  /** A corner of the base profile: distance from the axis and height. */
  datatype ProfilePoint = ProfilePoint(radius: real, height: real)

  /** The closed outline of the base, walked around its slot. */
  function Profile(cfg: TowerConfig): (p: seq<ProfilePoint>)
    requires cfg.curveAngleDeg != 0.0
    ensures |p| == ProfileSize
  {
    var rFloorStart := cfg.towerRadius - 2.0;
    var rSlotIn := LithoRadius(cfg) - SlotWidth / 2.0;
    var rSlotOut := LithoRadius(cfg) + SlotWidth / 2.0;
    var rOuterWall := rSlotOut + 2.0;
    var rWallInStart := rSlotIn - 2.0;
    var hFloor := BaseThickness;
    var hWall := BaseThickness + WallHeight;
    [ ProfilePoint(rFloorStart, 0.0), ProfilePoint(rOuterWall, 0.0), ProfilePoint(rOuterWall, hWall),
      ProfilePoint(rSlotOut, hWall), ProfilePoint(rSlotOut, hFloor), ProfilePoint(rSlotIn, hFloor),
      ProfilePoint(rSlotIn, hWall), ProfilePoint(rWallInStart, hWall), ProfilePoint(rWallInStart, hFloor),
      ProfilePoint(rFloorStart, hFloor) ]
  }

  /** Every side of the outline, the closing side from the last corner back
      to the first included, is horizontal or vertical; the slot between
      corners 4 and 5 is the slot width wide, centred on the panel's arc, and
      as deep as the wall. */
  lemma ProfileOutline(cfg: TowerConfig)
    requires cfg.curveAngleDeg != 0.0
    ensures forall p, q :: 0 <= p < ProfileSize && q == (p + 1) % ProfileSize ==>
      Profile(cfg)[p].radius == Profile(cfg)[q].radius || Profile(cfg)[p].height == Profile(cfg)[q].height
    ensures Profile(cfg)[3].radius - Profile(cfg)[5].radius == SlotWidth
    ensures (Profile(cfg)[3].radius + Profile(cfg)[5].radius) / 2.0 == LithoRadius(cfg)
    ensures Profile(cfg)[3].height - Profile(cfg)[4].height == WallHeight
  {
  }

  // ---------------------------------------------------------------------------
  // Where a label lies

  predicate InRange(v: TowerVertex) {
    match v
    case Tube(s, _, i, _) => s < SectionCount && i < TubeSteps
    case Base(i, p) => i < BaseSteps && p < ProfileSize
  }

  predicate TriInRange(t: Triangle<TowerVertex>) {
    InRange(t.a) && InRange(t.b) && InRange(t.c)
  }

  predicate MeshInRange(m: seq<Triangle<TowerVertex>>) {
    forall i :: 0 <= i < |m| ==> TriInRange(m[i])
  }

  /** Tube labels take `linspace(start_angle, end_angle, 60)`, base labels
      `linspace(-curve/2, curve/2, 200)`; `polar_to_cart` then turns the
      cylindrical triple into coordinates. */
  function Position(cfg: TowerConfig, v: TowerVertex): (p: Cylindrical)
    requires cfg.curveAngleDeg != 0.0 && InRange(v)
    ensures v.Tube? && v.step == 0 ==> p.angle == Sections(cfg)[v.section].startAngle
    ensures v.Tube? && v.step == TubeSteps - 1 ==> p.angle == Sections(cfg)[v.section].endAngle
    ensures v.Tube? ==> p.radius == (if v.side == Out then cfg.towerRadius else cfg.towerRadius - 2.5)
    ensures v.Tube? ==> p.height == (if v.level == Lower then Sections(cfg)[v.section].zStart else Sections(cfg)[v.section].zEnd)
    ensures v.Base? ==> p.radius == Profile(cfg)[v.corner].radius && p.height == Profile(cfg)[v.corner].height
  {
    match v
    case Tube(s, side, i, level) =>
      var sec := Sections(cfg)[s];
      Cylindrical(if side == Out then sec.rOuter else sec.rInner,
                  Linspace(sec.startAngle, sec.endAngle, TubeSteps, i),
                  if level == Lower then sec.zStart else sec.zEnd)
    case Base(i, p) =>
      var curve := Radians(cfg.curveAngleDeg);
      Cylindrical(Profile(cfg)[p].radius, Linspace(-curve / 2.0, curve / 2.0, BaseSteps, i), Profile(cfg)[p].height)
  }

  function Place(cfg: TowerConfig, project: Cylindrical -> Vec3, t: Triangle<TowerVertex>): Triangle<Vec3>
    requires cfg.curveAngleDeg != 0.0 && TriInRange(t)
  {
    Tri(project(Position(cfg, t.a)), project(Position(cfg, t.b)), project(Position(cfg, t.c)))
  }

  function PlaceMesh(cfg: TowerConfig, project: Cylindrical -> Vec3, m: seq<Triangle<TowerVertex>>): (r: seq<Triangle<Vec3>>)
    requires cfg.curveAngleDeg != 0.0 && MeshInRange(m)
    ensures |r| == |m|
    ensures forall i :: 0 <= i < |m| ==> r[i] == Place(cfg, project, m[i])
  {
    if m == [] then [] else PlaceMesh(cfg, project, m[..|m| - 1]) + [Place(cfg, project, m[|m| - 1])]
  }

  // ---------------------------------------------------------------------------
  // The triangles, over labels

  /** `add_quad(bl, br, tr, tl)`. */
  function Quad(bl: TowerVertex, br: TowerVertex, tr: TowerVertex, tl: TowerVertex): (q: seq<Triangle<TowerVertex>>)
    ensures |q| == 2
  {
    [Tri(bl, br, tr), Tri(bl, tr, tl)]
  }

  /** The two triangles of a quad over four distinct labels share the
      diagonal bl-tr and traverse it in opposite directions. */
  lemma QuadDiagonal(bl: TowerVertex, br: TowerVertex, tr: TowerVertex, tl: TowerVertex)
    requires bl != br && bl != tr && bl != tl && br != tr && br != tl && tr != tl
    ensures OppositelyPaired(Quad(bl, br, tr, tl), bl, tr)
    ensures EdgeCount(Quad(bl, br, tr, tl), bl, tr) == 2
  {
    PairCounts(Tri(bl, br, tr), Tri(bl, tr, tl), bl, tr);
  }

  // The four quads of iteration i of the loop of `add_solid_arc_tube`,
  // between angle samples i and i + 1, in the order they are added.
  function OuterWall(s: nat, i: nat): seq<Triangle<TowerVertex>> {
    Quad(Tube(s, Out, i, Lower), Tube(s, Out, i + 1, Lower), Tube(s, Out, i + 1, Upper), Tube(s, Out, i, Upper))
  }

  function InnerWall(s: nat, i: nat): seq<Triangle<TowerVertex>> {
    Quad(Tube(s, In, i + 1, Lower), Tube(s, In, i, Lower), Tube(s, In, i, Upper), Tube(s, In, i + 1, Upper))
  }

  function TopFace(s: nat, i: nat): seq<Triangle<TowerVertex>> {
    Quad(Tube(s, In, i, Upper), Tube(s, Out, i, Upper), Tube(s, Out, i + 1, Upper), Tube(s, In, i + 1, Upper))
  }

  function BottomFace(s: nat, i: nat): seq<Triangle<TowerVertex>> {
    Quad(Tube(s, In, i + 1, Lower), Tube(s, Out, i + 1, Lower), Tube(s, Out, i, Lower), Tube(s, In, i, Lower))
  }

  function TubeStep(s: nat, i: nat): (q: seq<Triangle<TowerVertex>>)
    ensures |q| == 8
  {
    OuterWall(s, i) + InnerWall(s, i) + TopFace(s, i) + BottomFace(s, i)
  }

  function StartCap(s: nat): seq<Triangle<TowerVertex>> {
    Quad(Tube(s, In, 0, Lower), Tube(s, In, 0, Upper), Tube(s, Out, 0, Upper), Tube(s, Out, 0, Lower))
  }

  function EndCap(s: nat): seq<Triangle<TowerVertex>> {
    var e := TubeSteps - 1;
    Quad(Tube(s, In, e, Lower), Tube(s, Out, e, Lower), Tube(s, Out, e, Upper), Tube(s, In, e, Upper))
  }

  function StepPieces(s: nat): nat -> seq<Triangle<TowerVertex>> { (i: nat) => TubeStep(s, i) }

  /** Everything one `add_solid_arc_tube` call appends: the 59 loop
      iterations, then both end caps, whatever the angular range. */
  function ArcTube(s: nat): seq<Triangle<TowerVertex>> {
    Strip(StepPieces(s), TubeSteps - 1) + StartCap(s) + EndCap(s)
  }

  /** Two triangles per quad, four quads per step and two caps. */
  lemma ArcTubeLength(s: nat)
    ensures |ArcTube(s)| == 2 * (4 * (TubeSteps - 1) + 2) == 476
  {
    StripLength(StepPieces(s), TubeSteps - 1, 8);
  }

  /** The quad between profile corners p and p + 1 (wrapping to corner 0)
      from sweep step i to i + 1. */
  function BaseQuad(i: nat, p: nat): seq<Triangle<TowerVertex>> {
    var q := (p + 1) % ProfileSize;
    Quad(Base(i, p), Base(i + 1, p), Base(i + 1, q), Base(i, q))
  }

  function BaseQuads(i: nat): nat -> seq<Triangle<TowerVertex>> { (p: nat) => BaseQuad(i, p) }
  function BaseRows(): nat -> seq<Triangle<TowerVertex>> { (i: nat) => Strip(BaseQuads(i), ProfileSize) }

  function BaseSweep(): seq<Triangle<TowerVertex>> {
    Strip(BaseRows(), BaseSteps - 1)
  }

  /** The sweep appends one quad per profile side per sweep step. */
  lemma BaseSweepLength()
    ensures |BaseSweep()| == 2 * ((BaseSteps - 1) * ProfileSize) == 3980
  {
    forall i: nat | i < BaseSteps - 1
      ensures |BaseRows()(i)| == 2 * ProfileSize
    {
      StripLength(BaseQuads(i), ProfileSize, 2);
    }
    StripLength(BaseRows(), BaseSteps - 1, 2 * ProfileSize);
  }

  /** Iteration p = k + 1 of the fan loop: a triangle of the fan at the
      start of the sweep, then one of the fan at its end, both anchored at
      profile corner 0. */
  function FanPair(k: nat): seq<Triangle<TowerVertex>> {
    var p, e := k + 1, BaseSteps - 1;
    [Tri(Base(0, 0), Base(0, p + 1), Base(0, p)), Tri(Base(e, 0), Base(e, p), Base(e, p + 1))]
  }

  function FanPairs(): nat -> seq<Triangle<TowerVertex>> { (k: nat) => FanPair(k) }

  function Fans(): seq<Triangle<TowerVertex>> {
    Strip(FanPairs(), ProfileSize - 2)
  }

  /** Each fan has n - 2 triangles, every one with profile corner 0 of its
      end of the sweep as first corner. */
  lemma FansShape()
    ensures |Fans()| == 2 * (ProfileSize - 2) == 16
    ensures forall i :: 0 <= i < |Fans()| ==> Fans()[i].a == Base(0, 0) || Fans()[i].a == Base(BaseSteps - 1, 0)
  {
    StripLength(FanPairs(), ProfileSize - 2, 2);
    FanAnchors(ProfileSize - 2);
  }

  lemma {:induction false} FanAnchors(n: nat)
    ensures forall i :: 0 <= i < |Strip(FanPairs(), n)| ==>
      Strip(FanPairs(), n)[i].a == Base(0, 0) || Strip(FanPairs(), n)[i].a == Base(BaseSteps - 1, 0)
  {
    if n > 0 {
      FanAnchors(n - 1);
      var x: seq<Triangle<TowerVertex>> := Strip(FanPairs(), n - 1);
      var y: seq<Triangle<TowerVertex>> := FanPair(n - 1);
      assert Strip(FanPairs(), n) == x + y;
      forall i | 0 <= i < |x + y|
        ensures (x + y)[i].a == Base(0, 0) || (x + y)[i].a == Base(BaseSteps - 1, 0)
      {
        if i < |x| {
          assert (x + y)[i] == x[i];
        } else {
          assert (x + y)[i] == y[i - |x|];
        }
      }
    }
  }

  function BaseMesh(): seq<Triangle<TowerVertex>> {
    BaseSweep() + Fans()
  }

  /** Every triangle of the tower in the order the list receives them. */
  function TowerMesh(): seq<Triangle<TowerVertex>> {
    ArcTube(0) + ArcTube(1) + ArcTube(2) + ArcTube(3) + ArcTube(4) + BaseMesh()
  }

  /** The count written to the header: 6376 triangles. */
  lemma TowerLength()
    ensures |TowerMesh()| == SectionCount * 476 + 3980 + 16 == 6376
  {
    ArcTubeLength(0);
    ArcTubeLength(1);
    ArcTubeLength(2);
    ArcTubeLength(3);
    ArcTubeLength(4);
    BaseSweepLength();
    FansShape();
  }

  // ---------------------------------------------------------------------------
  // Building the list

  /** The `triangles` list and the helpers that grow it. */
  class TowerBuilder {
    var triangles: seq<Triangle<TowerVertex>>

    constructor ()
      ensures triangles == []
    {
      triangles := [];
    }

    /** `triangles.append(t)` */
    method AddTriangle(t: Triangle<TowerVertex>)
      modifies this
      ensures triangles == old(triangles) + [t]
    {
      triangles := triangles + [t];
    }

    /** `add_quad(bl, br, tr, tl)`: two triangles after every earlier one. */
    method AddQuad(bl: TowerVertex, br: TowerVertex, tr: TowerVertex, tl: TowerVertex)
      modifies this
      ensures triangles == old(triangles) + Quad(bl, br, tr, tl)
    {
      AddTriangle(Tri(bl, br, tr));
      AddTriangle(Tri(bl, tr, tl));
    }

    method AddTubeStep(s: nat, i: nat)
      modifies this
      ensures triangles == old(triangles) + TubeStep(s, i)
    {
      ghost var t0 := triangles;
      AddQuad(Tube(s, Out, i, Lower), Tube(s, Out, i + 1, Lower), Tube(s, Out, i + 1, Upper), Tube(s, Out, i, Upper));
      AddQuad(Tube(s, In, i + 1, Lower), Tube(s, In, i, Lower), Tube(s, In, i, Upper), Tube(s, In, i + 1, Upper));
      AddQuad(Tube(s, In, i, Upper), Tube(s, Out, i, Upper), Tube(s, Out, i + 1, Upper), Tube(s, In, i + 1, Upper));
      AddQuad(Tube(s, In, i + 1, Lower), Tube(s, Out, i + 1, Lower), Tube(s, Out, i, Lower), Tube(s, In, i, Lower));
      Assoc(t0, OuterWall(s, i), InnerWall(s, i));
      Assoc(t0, OuterWall(s, i) + InnerWall(s, i), TopFace(s, i));
      Assoc(t0, OuterWall(s, i) + InnerWall(s, i) + TopFace(s, i), BottomFace(s, i));
    }

    /** `add_solid_arc_tube` for section s: the wall and cap quads of every
        step, then the two end caps. */
    method AddSolidArcTube(s: nat)
      modifies this
      ensures triangles == old(triangles) + ArcTube(s)
    {
      ghost var t0 := triangles;
      for i := 0 to TubeSteps - 1
        invariant triangles == t0 + Strip(StepPieces(s), i)
      {
        AddTubeStep(s, i);
        Assoc(t0, Strip(StepPieces(s), i), TubeStep(s, i));
      }
      var e := TubeSteps - 1;
      AddQuad(Tube(s, In, 0, Lower), Tube(s, In, 0, Upper), Tube(s, Out, 0, Upper), Tube(s, Out, 0, Lower));
      AddQuad(Tube(s, In, e, Lower), Tube(s, Out, e, Lower), Tube(s, Out, e, Upper), Tube(s, In, e, Upper));
      ghost var body := Strip(StepPieces(s), TubeSteps - 1);
      Assoc(t0, body, StartCap(s));
      Assoc(t0, body + StartCap(s), EndCap(s));
    }

    /** One step of the sweep: a quad for every side of the profile. */
    method AddBaseRow(i: nat)
      modifies this
      ensures triangles == old(triangles) + Strip(BaseQuads(i), ProfileSize)
    {
      ghost var t0 := triangles;
      for p := 0 to ProfileSize
        invariant triangles == t0 + Strip(BaseQuads(i), p)
      {
        var q := (p + 1) % ProfileSize;
        AddQuad(Base(i, p), Base(i + 1, p), Base(i + 1, q), Base(i, q));
        Assoc(t0, Strip(BaseQuads(i), p), BaseQuad(i, p));
      }
    }

    method AddBaseSweep()
      modifies this
      ensures triangles == old(triangles) + BaseSweep()
    {
      ghost var t0 := triangles;
      for i := 0 to BaseSteps - 1
        invariant triangles == t0 + Strip(BaseRows(), i)
      {
        AddBaseRow(i);
        Assoc(t0, Strip(BaseRows(), i), Strip(BaseQuads(i), ProfileSize));
      }
    }

    /** The fan loop, `for p_idx in range(1, len(profile) - 1)`. */
    method AddFans()
      modifies this
      ensures triangles == old(triangles) + Fans()
    {
      ghost var t0 := triangles;
      var e := BaseSteps - 1;
      for p := 1 to ProfileSize - 1
        invariant triangles == t0 + Strip(FanPairs(), p - 1)
      {
        AddTriangle(Tri(Base(0, 0), Base(0, p + 1), Base(0, p)));
        AddTriangle(Tri(Base(e, 0), Base(e, p), Base(e, p + 1)));
        assert FanPair(p - 1) == [Tri(Base(0, 0), Base(0, p + 1), Base(0, p))] + [Tri(Base(e, 0), Base(e, p), Base(e, p + 1))];
        Assoc(t0 + Strip(FanPairs(), p - 1), [Tri(Base(0, 0), Base(0, p + 1), Base(0, p))], [Tri(Base(e, 0), Base(e, p), Base(e, p + 1))]);
        Assoc(t0, Strip(FanPairs(), p - 1), FanPair(p - 1));
      }
    }
  }

  // ---------------------------------------------------------------------------
  // The whole script

  lemma InRangeAppend(x: seq<Triangle<TowerVertex>>, y: seq<Triangle<TowerVertex>>)
    requires MeshInRange(x) && MeshInRange(y)
    ensures MeshInRange(x + y)
  {
    forall i | 0 <= i < |x + y|
      ensures TriInRange((x + y)[i])
    {
      if i < |x| {
        assert (x + y)[i] == x[i];
      } else {
        assert (x + y)[i] == y[i - |x|];
      }
    }
  }

  lemma {:induction false} StripInRange(piece: nat -> seq<Triangle<TowerVertex>>, n: nat)
    requires forall k: nat :: k < n ==> MeshInRange(piece(k))
    ensures MeshInRange(Strip(piece, n))
    decreases n
  {
    if n > 0 {
      StripInRange(piece, n - 1);
      InRangeAppend(Strip(piece, n - 1), piece(n - 1));
    }
  }

  lemma ArcTubeInRange(s: nat)
    requires s < SectionCount
    ensures MeshInRange(ArcTube(s))
  {
    forall i: nat | i < TubeSteps - 1
      ensures MeshInRange(StepPieces(s)(i))
    {
      var q := TubeStep(s, i);
      assert forall j :: 0 <= j < 8 ==> TriInRange(q[j]);
    }
    StripInRange(StepPieces(s), TubeSteps - 1);
    InRangeAppend(Strip(StepPieces(s), TubeSteps - 1), StartCap(s));
    InRangeAppend(Strip(StepPieces(s), TubeSteps - 1) + StartCap(s), EndCap(s));
  }

  lemma BaseInRange()
    ensures MeshInRange(BaseMesh())
  {
    forall i: nat | i < BaseSteps - 1
      ensures MeshInRange(BaseRows()(i))
    {
      forall p: nat | p < ProfileSize
        ensures MeshInRange(BaseQuads(i)(p))
      {
      }
      StripInRange(BaseQuads(i), ProfileSize);
    }
    StripInRange(BaseRows(), BaseSteps - 1);
    forall k: nat | k < ProfileSize - 2
      ensures MeshInRange(FanPairs()(k))
    {
    }
    StripInRange(FanPairs(), ProfileSize - 2);
    InRangeAppend(BaseSweep(), Fans());
  }

  /** Every label the tower uses lies in range. */
  lemma TowerInRange()
    ensures MeshInRange(TowerMesh())
  {
    ArcTubeInRange(0);
    ArcTubeInRange(1);
    ArcTubeInRange(2);
    ArcTubeInRange(3);
    ArcTubeInRange(4);
    BaseInRange();
    InRangeAppend(ArcTube(0), ArcTube(1));
    InRangeAppend(ArcTube(0) + ArcTube(1), ArcTube(2));
    InRangeAppend(ArcTube(0) + ArcTube(1) + ArcTube(2), ArcTube(3));
    InRangeAppend(ArcTube(0) + ArcTube(1) + ArcTube(2) + ArcTube(3), ArcTube(4));
    InRangeAppend(ArcTube(0) + ArcTube(1) + ArcTube(2) + ArcTube(3) + ArcTube(4), BaseMesh());
  }

  /** The list `create_knot_friendly_tower` builds: the five sections, the
      base sweep and the fans, in that order. */
  method BuildTower() returns (triangles: seq<Triangle<TowerVertex>>)
    ensures triangles == TowerMesh()
  {
    var builder := new TowerBuilder();
    builder.AddSolidArcTube(0);
    ghost var t1 := builder.triangles;
    assert t1 == ArcTube(0);
    builder.AddSolidArcTube(1);
    ghost var t2 := builder.triangles;
    assert t2 == ArcTube(0) + ArcTube(1);
    builder.AddSolidArcTube(2);
    ghost var t3 := builder.triangles;
    assert t3 == ArcTube(0) + ArcTube(1) + ArcTube(2);
    builder.AddSolidArcTube(3);
    ghost var t4 := builder.triangles;
    assert t4 == ArcTube(0) + ArcTube(1) + ArcTube(2) + ArcTube(3);
    builder.AddSolidArcTube(4);
    ghost var tubes := builder.triangles;
    assert tubes == ArcTube(0) + ArcTube(1) + ArcTube(2) + ArcTube(3) + ArcTube(4);
    builder.AddBaseSweep();
    builder.AddFans();
    Assoc(tubes, BaseSweep(), Fans());
    assert builder.triangles == tubes + BaseMesh();
    triangles := builder.triangles;
  }

  /** `create_knot_friendly_tower`: the list in order, then the file with the
      count of the list as its header count. */
  method CreateKnotFriendlyTower(cfg: TowerConfig, project: Cylindrical -> Vec3) returns (file: seq<byte>)
    requires cfg.curveAngleDeg != 0.0
    ensures MeshInRange(TowerMesh()) && |TowerMesh()| == 6376
    ensures file == StlFile(PlaceMesh(cfg, project, TowerMesh()))
    ensures |file| == HeaderSize + CountSize + RecordSize * 6376
  {
    var triangles := BuildTower();
    TowerLength();
    TowerInRange();
    var ok;
    file, ok := WriteStl(PlaceMesh(cfg, project, triangles));
  }
}
