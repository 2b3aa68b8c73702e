/** Closure and winding of the tower over its labels.

    Each arc tube is a closed shell on its own labels, and so is the base
    with its two fans; since no two of these share a label, the whole list is
    closed. As for the panel, every count at a label u is localised to the
    few quads next to u: the loop iterations of a tube or rows of the sweep
    at u's step and the one before it, and for the sweep and the fans the
    pieces at u's profile corner and the one before it. */
module TowerClosure {
  import opened Mesh
  import opened Tower

  function StepOf(w: TowerVertex): int { w.step }

  lemma QuadVertices(bl: TowerVertex, br: TowerVertex, tr: TowerVertex, tl: TowerVertex)
    ensures Vertices(Quad(bl, br, tr, tl)) == {bl, br, tr, tl}
  {
    PairCounts(Tri(bl, br, tr), Tri(bl, tr, tl), bl, bl);
  }

  /** A quad is covered once its five distinct edges are. */
  lemma QuadEdges(m: seq<Triangle<TowerVertex>>, bl: TowerVertex, br: TowerVertex, tr: TowerVertex, tl: TowerVertex)
    requires EdgeCount(m, bl, br) == 2 && EdgeCount(m, br, tr) == 2 && EdgeCount(m, tr, bl) == 2
    requires EdgeCount(m, bl, tr) == 2 && EdgeCount(m, tr, tl) == 2 && EdgeCount(m, tl, bl) == 2
    ensures AllEdgesTwice(m, Quad(bl, br, tr, tl))
  {
    assert EdgesTwice(m, Quad(bl, br, tr, tl)[0]);
    assert EdgesTwice(m, Quad(bl, br, tr, tl)[1]);
  }

  // ===========================================================================
  // Arc tubes

  lemma TubeStepVertices(s: nat, i: nat)
    ensures Vertices(TubeStep(s, i)) ==
      {Tube(s, Out, i, Lower), Tube(s, Out, i + 1, Lower), Tube(s, Out, i, Upper), Tube(s, Out, i + 1, Upper),
       Tube(s, In, i, Lower), Tube(s, In, i + 1, Lower), Tube(s, In, i, Upper), Tube(s, In, i + 1, Upper)}
  {
    var w := Tube(s, Out, i, Lower);
    QuadVertices(Tube(s, Out, i, Lower), Tube(s, Out, i + 1, Lower), Tube(s, Out, i + 1, Upper), Tube(s, Out, i, Upper));
    QuadVertices(Tube(s, In, i + 1, Lower), Tube(s, In, i, Lower), Tube(s, In, i, Upper), Tube(s, In, i + 1, Upper));
    QuadVertices(Tube(s, In, i, Upper), Tube(s, Out, i, Upper), Tube(s, Out, i + 1, Upper), Tube(s, In, i + 1, Upper));
    QuadVertices(Tube(s, In, i + 1, Lower), Tube(s, Out, i + 1, Lower), Tube(s, Out, i, Lower), Tube(s, In, i, Lower));
    CountsAppend(OuterWall(s, i), InnerWall(s, i), w, w);
    CountsAppend(OuterWall(s, i) + InnerWall(s, i), TopFace(s, i), w, w);
    CountsAppend(OuterWall(s, i) + InnerWall(s, i) + TopFace(s, i), BottomFace(s, i), w, w);
  }

  lemma TubeKeys(s: nat)
    ensures forall k: nat, x :: k < TubeSteps - 1 && x in Vertices(StepPieces(s)(k)) ==> StepOf(x) == k || StepOf(x) == k + 1
  {
    forall k: nat, x | k < TubeSteps - 1 && x in Vertices(StepPieces(s)(k))
      ensures StepOf(x) == k || StepOf(x) == k + 1
    {
      TubeStepVertices(s, k);
    }
  }

  lemma TubeBodyVertex(s: nat, n: nat, w: TowerVertex)
    requires w in Vertices(Strip(StepPieces(s), n))
    ensures w.Tube? && w.section == s && w.step <= n
  {
    var k := StripVertex(StepPieces(s), n, w);
    TubeStepVertices(s, k);
  }

  lemma CapVertex(s: nat, w: TowerVertex)
    requires w in Vertices(StartCap(s) + EndCap(s))
    ensures w.Tube? && w.section == s && w.step < TubeSteps
  {
    var e := TubeSteps - 1;
    CountsAppend(StartCap(s), EndCap(s), w, w);
    QuadVertices(Tube(s, In, 0, Lower), Tube(s, In, 0, Upper), Tube(s, Out, 0, Upper), Tube(s, Out, 0, Lower));
    QuadVertices(Tube(s, In, e, Lower), Tube(s, Out, e, Lower), Tube(s, Out, e, Upper), Tube(s, In, e, Upper));
  }

  /** Every label of tube s belongs to section s. */
  lemma ArcTubeVertex(s: nat, w: TowerVertex)
    requires w in Vertices(ArcTube(s))
    ensures w.Tube? && w.section == s && w.step < TubeSteps
  {
    var body := Strip(StepPieces(s), TubeSteps - 1);
    assert ArcTube(s) == body + (StartCap(s) + EndCap(s));
    CountsAppend(body, StartCap(s) + EndCap(s), w, w);
    if w in Vertices(body) {
      TubeBodyVertex(s, TubeSteps - 1, w);
    } else {
      CapVertex(s, w);
    }
  }

  // A tube label lies on one wall and one face of each iteration next to it.
  function WallQuad(s: nat, k: nat, w: TowerVertex): seq<Triangle<TowerVertex>>
    requires w.Tube?
  {
    if w.side == Out then OuterWall(s, k) else InnerWall(s, k)
  }

  function FaceQuad(s: nat, k: nat, w: TowerVertex): seq<Triangle<TowerVertex>>
    requires w.Tube?
  {
    if w.level == Upper then TopFace(s, k) else BottomFace(s, k)
  }

  /** The count at key label w of loop iteration k of tube s, or 0 outside
      the loop. */
  function StepTerm(s: nat, k: int, w: TowerVertex, u: TowerVertex, v: TowerVertex, d: bool): nat
    requires w.Tube?
  {
    if 0 <= k < TubeSteps - 1 then QuadCount(WallQuad(s, k, w), u, v, d) + QuadCount(FaceQuad(s, k, w), u, v, d) else 0
  }

  function CapTerm(s: nat, w: TowerVertex, u: TowerVertex, v: TowerVertex, d: bool): nat {
    (if w.step == 0 then QuadCount(StartCap(s), u, v, d) else 0)
    + (if w.step == TubeSteps - 1 then QuadCount(EndCap(s), u, v, d) else 0)
  }

  /** The count of tube s at key label w: the iterations on either side of
      w's step and the end cap at w's step, if any. */
  function TubeSum(s: nat, w: TowerVertex, u: TowerVertex, v: TowerVertex, d: bool): nat
    requires w.Tube?
  {
    StepTerm(s, StepOf(w) - 1, w, u, v, d) + StepTerm(s, StepOf(w), w, u, v, d) + CapTerm(s, w, u, v, d)
  }

  /** Of the two walls of an iteration, only the one on u's side holds u. */
  lemma WallPiece(s: nat, k: nat, u: TowerVertex, v: TowerVertex)
    requires u.Tube?
    ensures EdgeCount(OuterWall(s, k) + InnerWall(s, k), u, v) == QuadCount(WallQuad(s, k, u), u, v, false)
    ensures DirCount(OuterWall(s, k) + InnerWall(s, k), u, v) == QuadCount(WallQuad(s, k, u), u, v, true)
    ensures DirCount(OuterWall(s, k) + InnerWall(s, k), v, u) == QuadCount(WallQuad(s, k, u), v, u, true)
  {
    var a, b := OuterWall(s, k), InnerWall(s, k);
    CountsAppend(a, b, u, v);
    QuadCounts(WallQuad(s, k, u), u, v);
    if u.side == Out {
      QuadVertices(Tube(s, In, k + 1, Lower), Tube(s, In, k, Lower), Tube(s, In, k, Upper), Tube(s, In, k + 1, Upper));
      AbsentVertex(b, u, v);
    } else {
      QuadVertices(Tube(s, Out, k, Lower), Tube(s, Out, k + 1, Lower), Tube(s, Out, k + 1, Upper), Tube(s, Out, k, Upper));
      AbsentVertex(a, u, v);
    }
  }

  /** Of the two faces of an iteration, only the one at u's level holds u. */
  lemma FacePiece(s: nat, k: nat, u: TowerVertex, v: TowerVertex)
    requires u.Tube?
    ensures EdgeCount(TopFace(s, k) + BottomFace(s, k), u, v) == QuadCount(FaceQuad(s, k, u), u, v, false)
    ensures DirCount(TopFace(s, k) + BottomFace(s, k), u, v) == QuadCount(FaceQuad(s, k, u), u, v, true)
    ensures DirCount(TopFace(s, k) + BottomFace(s, k), v, u) == QuadCount(FaceQuad(s, k, u), v, u, true)
  {
    var c, e := TopFace(s, k), BottomFace(s, k);
    CountsAppend(c, e, u, v);
    QuadCounts(FaceQuad(s, k, u), u, v);
    if u.level == Upper {
      QuadVertices(Tube(s, In, k + 1, Lower), Tube(s, Out, k + 1, Lower), Tube(s, Out, k, Lower), Tube(s, In, k, Lower));
      AbsentVertex(e, u, v);
    } else {
      QuadVertices(Tube(s, In, k, Upper), Tube(s, Out, k, Upper), Tube(s, Out, k + 1, Upper), Tube(s, In, k + 1, Upper));
      AbsentVertex(c, u, v);
    }
  }

  lemma StepPiece(s: nat, k: int, u: TowerVertex, v: TowerVertex)
    requires u.Tube?
    ensures PieceEdges(StepPieces(s), TubeSteps - 1, k, u, v) == StepTerm(s, k, u, u, v, false)
    ensures PieceDirs(StepPieces(s), TubeSteps - 1, k, u, v) == StepTerm(s, k, u, u, v, true)
    ensures PieceDirs(StepPieces(s), TubeSteps - 1, k, v, u) == StepTerm(s, k, u, v, u, true)
  {
    if 0 <= k < TubeSteps - 1 {
      var walls, faces := OuterWall(s, k) + InnerWall(s, k), TopFace(s, k) + BottomFace(s, k);
      assert StepPieces(s)(k) == walls + faces;
      CountsAppend(walls, faces, u, v);
      WallPiece(s, k, u, v);
      FacePiece(s, k, u, v);
    }
  }

  lemma CapPiece(s: nat, u: TowerVertex, v: TowerVertex)
    ensures EdgeCount(StartCap(s) + EndCap(s), u, v) == CapTerm(s, u, u, v, false)
    ensures DirCount(StartCap(s) + EndCap(s), u, v) == CapTerm(s, u, u, v, true)
    ensures DirCount(StartCap(s) + EndCap(s), v, u) == CapTerm(s, u, v, u, true)
  {
    var e := TubeSteps - 1;
    CountsAppend(StartCap(s), EndCap(s), u, v);
    if u.step == 0 {
      QuadCounts(StartCap(s), u, v);
    } else {
      QuadVertices(Tube(s, In, 0, Lower), Tube(s, In, 0, Upper), Tube(s, Out, 0, Upper), Tube(s, Out, 0, Lower));
      AbsentVertex(StartCap(s), u, v);
    }
    if u.step == e {
      QuadCounts(EndCap(s), u, v);
    } else {
      QuadVertices(Tube(s, In, e, Lower), Tube(s, Out, e, Lower), Tube(s, Out, e, Upper), Tube(s, In, e, Upper));
      AbsentVertex(EndCap(s), u, v);
    }
  }

  lemma TubeLocal(s: nat, u: TowerVertex, v: TowerVertex)
    requires u.Tube?
    ensures EdgeCount(ArcTube(s), u, v) == TubeSum(s, u, u, v, false)
    ensures DirCount(ArcTube(s), u, v) == TubeSum(s, u, u, v, true)
    ensures DirCount(ArcTube(s), v, u) == TubeSum(s, u, v, u, true)
  {
    var body := Strip(StepPieces(s), TubeSteps - 1);
    assert body + StartCap(s) + EndCap(s) == body + (StartCap(s) + EndCap(s));
    CountsAppend(body, StartCap(s) + EndCap(s), u, v);
    CapPiece(s, u, v);
    TubeKeys(s);
    StripLocalByKey(StepPieces(s), TubeSteps - 1, StepOf, u, v);
    StepPiece(s, StepOf(u) - 1, u, v);
    StepPiece(s, StepOf(u), u, v);
  }

  // ---------------------------------------------------------------------------
  // Every kind of tube edge lies in exactly two of the tube's triangles

  /** An edge along the arc, on either wall at either height: one wall quad
      and one face quad. */
  lemma Rail(s: nat, side: Side, level: Level, i: nat)
    requires i < TubeSteps - 1
    ensures EdgeCount(ArcTube(s), Tube(s, side, i, level), Tube(s, side, i + 1, level)) == 2
    ensures EdgeCount(ArcTube(s), Tube(s, side, i + 1, level), Tube(s, side, i, level)) == 2
  {
    TubeLocal(s, Tube(s, side, i, level), Tube(s, side, i + 1, level));
    EdgeCountSymmetric(ArcTube(s), Tube(s, side, i, level), Tube(s, side, i + 1, level));
  }

  /** A vertical edge of a wall: the wall quads on either side, or a wall
      quad and an end cap at the two ends. */
  lemma Upright(s: nat, side: Side, i: nat)
    requires i < TubeSteps
    ensures EdgeCount(ArcTube(s), Tube(s, side, i, Lower), Tube(s, side, i, Upper)) == 2
    ensures EdgeCount(ArcTube(s), Tube(s, side, i, Upper), Tube(s, side, i, Lower)) == 2
  {
    TubeLocal(s, Tube(s, side, i, Lower), Tube(s, side, i, Upper));
    EdgeCountSymmetric(ArcTube(s), Tube(s, side, i, Lower), Tube(s, side, i, Upper));
  }

  /** A radial edge of a face: the face quads on either side, or a face quad
      and an end cap at the two ends. */
  lemma Spoke(s: nat, level: Level, i: nat)
    requires i < TubeSteps
    ensures EdgeCount(ArcTube(s), Tube(s, In, i, level), Tube(s, Out, i, level)) == 2
    ensures EdgeCount(ArcTube(s), Tube(s, Out, i, level), Tube(s, In, i, level)) == 2
  {
    TubeLocal(s, Tube(s, In, i, level), Tube(s, Out, i, level));
    EdgeCountSymmetric(ArcTube(s), Tube(s, In, i, level), Tube(s, Out, i, level));
  }

  lemma OuterWallDiagonal(s: nat, i: nat)
    requires i < TubeSteps - 1
    ensures EdgeCount(ArcTube(s), Tube(s, Out, i, Lower), Tube(s, Out, i + 1, Upper)) == 2
    ensures EdgeCount(ArcTube(s), Tube(s, Out, i + 1, Upper), Tube(s, Out, i, Lower)) == 2
  {
    TubeLocal(s, Tube(s, Out, i, Lower), Tube(s, Out, i + 1, Upper));
    EdgeCountSymmetric(ArcTube(s), Tube(s, Out, i, Lower), Tube(s, Out, i + 1, Upper));
  }

  lemma InnerWallDiagonal(s: nat, i: nat)
    requires i < TubeSteps - 1
    ensures EdgeCount(ArcTube(s), Tube(s, In, i + 1, Lower), Tube(s, In, i, Upper)) == 2
    ensures EdgeCount(ArcTube(s), Tube(s, In, i, Upper), Tube(s, In, i + 1, Lower)) == 2
  {
    TubeLocal(s, Tube(s, In, i + 1, Lower), Tube(s, In, i, Upper));
    EdgeCountSymmetric(ArcTube(s), Tube(s, In, i + 1, Lower), Tube(s, In, i, Upper));
  }

  lemma TopFaceDiagonal(s: nat, i: nat)
    requires i < TubeSteps - 1
    ensures EdgeCount(ArcTube(s), Tube(s, In, i, Upper), Tube(s, Out, i + 1, Upper)) == 2
    ensures EdgeCount(ArcTube(s), Tube(s, Out, i + 1, Upper), Tube(s, In, i, Upper)) == 2
  {
    TubeLocal(s, Tube(s, In, i, Upper), Tube(s, Out, i + 1, Upper));
    EdgeCountSymmetric(ArcTube(s), Tube(s, In, i, Upper), Tube(s, Out, i + 1, Upper));
  }

  lemma BottomFaceDiagonal(s: nat, i: nat)
    requires i < TubeSteps - 1
    ensures EdgeCount(ArcTube(s), Tube(s, In, i + 1, Lower), Tube(s, Out, i, Lower)) == 2
    ensures EdgeCount(ArcTube(s), Tube(s, Out, i, Lower), Tube(s, In, i + 1, Lower)) == 2
  {
    TubeLocal(s, Tube(s, In, i + 1, Lower), Tube(s, Out, i, Lower));
    EdgeCountSymmetric(ArcTube(s), Tube(s, In, i + 1, Lower), Tube(s, Out, i, Lower));
  }

  /** The diagonal of end cap j (j = 0 at the start, the last step at the end). */
  lemma CapDiagonal(s: nat, j: nat)
    requires j == 0 || j == TubeSteps - 1
    ensures EdgeCount(ArcTube(s), Tube(s, In, j, Lower), Tube(s, Out, j, Upper)) == 2
    ensures EdgeCount(ArcTube(s), Tube(s, Out, j, Upper), Tube(s, In, j, Lower)) == 2
  {
    TubeLocal(s, Tube(s, In, j, Lower), Tube(s, Out, j, Upper));
    EdgeCountSymmetric(ArcTube(s), Tube(s, In, j, Lower), Tube(s, Out, j, Upper));
  }

  // ---------------------------------------------------------------------------
  // Every quad of a tube, and so the tube, has all its edges twice

  lemma TubeStepClosed(s: nat, i: nat)
    requires i < TubeSteps - 1
    ensures AllEdgesTwice(ArcTube(s), TubeStep(s, i))
  {
    var m := ArcTube(s);
    Rail(s, Out, Lower, i);
    Rail(s, Out, Upper, i);
    Rail(s, In, Lower, i);
    Rail(s, In, Upper, i);
    Upright(s, Out, i);
    Upright(s, Out, i + 1);
    Upright(s, In, i);
    Upright(s, In, i + 1);
    Spoke(s, Lower, i);
    Spoke(s, Lower, i + 1);
    Spoke(s, Upper, i);
    Spoke(s, Upper, i + 1);
    OuterWallDiagonal(s, i);
    InnerWallDiagonal(s, i);
    TopFaceDiagonal(s, i);
    BottomFaceDiagonal(s, i);
    QuadEdges(m, Tube(s, Out, i, Lower), Tube(s, Out, i + 1, Lower), Tube(s, Out, i + 1, Upper), Tube(s, Out, i, Upper));
    QuadEdges(m, Tube(s, In, i + 1, Lower), Tube(s, In, i, Lower), Tube(s, In, i, Upper), Tube(s, In, i + 1, Upper));
    QuadEdges(m, Tube(s, In, i, Upper), Tube(s, Out, i, Upper), Tube(s, Out, i + 1, Upper), Tube(s, In, i + 1, Upper));
    QuadEdges(m, Tube(s, In, i + 1, Lower), Tube(s, Out, i + 1, Lower), Tube(s, Out, i, Lower), Tube(s, In, i, Lower));
    AllEdgesTwiceAppend(m, OuterWall(s, i), InnerWall(s, i));
    AllEdgesTwiceAppend(m, OuterWall(s, i) + InnerWall(s, i), TopFace(s, i));
    AllEdgesTwiceAppend(m, OuterWall(s, i) + InnerWall(s, i) + TopFace(s, i), BottomFace(s, i));
  }

  lemma CapsClosed(s: nat)
    ensures AllEdgesTwice(ArcTube(s), StartCap(s))
    ensures AllEdgesTwice(ArcTube(s), EndCap(s))
  {
    var m, e := ArcTube(s), TubeSteps - 1;
    Upright(s, In, 0);
    Upright(s, Out, 0);
    Spoke(s, Lower, 0);
    Spoke(s, Upper, 0);
    CapDiagonal(s, 0);
    QuadEdges(m, Tube(s, In, 0, Lower), Tube(s, In, 0, Upper), Tube(s, Out, 0, Upper), Tube(s, Out, 0, Lower));
    Upright(s, In, e);
    Upright(s, Out, e);
    Spoke(s, Lower, e);
    Spoke(s, Upper, e);
    CapDiagonal(s, e);
    QuadEdges(m, Tube(s, In, e, Lower), Tube(s, Out, e, Lower), Tube(s, Out, e, Upper), Tube(s, In, e, Upper));
  }

  /** Each `add_solid_arc_tube` call emits a closed shell over its own labels,
      whether its angular range is a full turn or not. */
  lemma ArcTubeClosed(s: nat)
    ensures Closed(ArcTube(s))
  {
    var m := ArcTube(s);
    forall i: nat | i < TubeSteps - 1
      ensures AllEdgesTwice(m, StepPieces(s)(i))
    {
      TubeStepClosed(s, i);
    }
    StripAllEdgesTwice(m, StepPieces(s), TubeSteps - 1);
    CapsClosed(s);
    AllEdgesTwiceAppend(m, Strip(StepPieces(s), TubeSteps - 1), StartCap(s));
    AllEdgesTwiceAppend(m, Strip(StepPieces(s), TubeSteps - 1) + StartCap(s), EndCap(s));
  }

  // ---------------------------------------------------------------------------
  // Winding of a tube

  /** The walls and the faces traverse every edge they share, along the arc,
      in opposite directions. */
  lemma RailOpposed(s: nat, side: Side, level: Level, i: nat)
    requires i < TubeSteps - 1
    ensures OppositelyPaired(ArcTube(s), Tube(s, side, i, level), Tube(s, side, i + 1, level))
  {
    TubeLocal(s, Tube(s, side, i, level), Tube(s, side, i + 1, level));
  }

  /** Between two loop iterations, the walls and faces meet oppositely. */
  lemma UprightOpposed(s: nat, side: Side, i: nat)
    requires 0 < i < TubeSteps - 1
    ensures OppositelyPaired(ArcTube(s), Tube(s, side, i, Lower), Tube(s, side, i, Upper))
  {
    TubeLocal(s, Tube(s, side, i, Lower), Tube(s, side, i, Upper));
  }

  lemma SpokeOpposed(s: nat, level: Level, i: nat)
    requires 0 < i < TubeSteps - 1
    ensures OppositelyPaired(ArcTube(s), Tube(s, In, i, level), Tube(s, Out, i, level))
  {
    TubeLocal(s, Tube(s, In, i, level), Tube(s, Out, i, level));
  }

  /** The start cap traverses each of its four sides in the same direction as
      the wall or face quad of the first iteration it meets. */
  lemma StartCapRepeats(s: nat)
    ensures DirCount(ArcTube(s), Tube(s, In, 0, Lower), Tube(s, In, 0, Upper)) == 2
    ensures DirCount(ArcTube(s), Tube(s, Out, 0, Upper), Tube(s, Out, 0, Lower)) == 2
    ensures DirCount(ArcTube(s), Tube(s, In, 0, Upper), Tube(s, Out, 0, Upper)) == 2
    ensures DirCount(ArcTube(s), Tube(s, Out, 0, Lower), Tube(s, In, 0, Lower)) == 2
  {
    TubeLocal(s, Tube(s, In, 0, Lower), Tube(s, In, 0, Upper));
    TubeLocal(s, Tube(s, Out, 0, Upper), Tube(s, Out, 0, Lower));
    TubeLocal(s, Tube(s, In, 0, Upper), Tube(s, Out, 0, Upper));
    TubeLocal(s, Tube(s, Out, 0, Lower), Tube(s, In, 0, Lower));
  }

  /** Likewise the end cap and the last iteration. */
  lemma EndCapRepeats(s: nat)
    ensures var e := TubeSteps - 1;
      DirCount(ArcTube(s), Tube(s, In, e, Lower), Tube(s, Out, e, Lower)) == 2 &&
      DirCount(ArcTube(s), Tube(s, Out, e, Lower), Tube(s, Out, e, Upper)) == 2 &&
      DirCount(ArcTube(s), Tube(s, Out, e, Upper), Tube(s, In, e, Upper)) == 2 &&
      DirCount(ArcTube(s), Tube(s, In, e, Upper), Tube(s, In, e, Lower)) == 2
  {
    var e := TubeSteps - 1;
    TubeLocal(s, Tube(s, In, e, Lower), Tube(s, Out, e, Lower));
    TubeLocal(s, Tube(s, Out, e, Lower), Tube(s, Out, e, Upper));
    TubeLocal(s, Tube(s, Out, e, Upper), Tube(s, In, e, Upper));
    TubeLocal(s, Tube(s, In, e, Upper), Tube(s, In, e, Lower));
  }

  /** So no tube, though closed, is consistently oriented. */
  lemma ArcTubeNotOriented(s: nat)
    ensures !ConsistentlyOriented(ArcTube(s))
  {
    var t := Tri(Tube(s, In, 0, Lower), Tube(s, In, 0, Upper), Tube(s, Out, 0, Upper));
    var body := Strip(StepPieces(s), TubeSteps - 1);
    assert t in StartCap(s);
    assert t in body + StartCap(s);
    StartCapRepeats(s);
    NotOrientedWitness(ArcTube(s), t);
  }

  // ===========================================================================
  // Base

  /** The profile corner after p, wrapping round, as `(p + 1) % 10` does. */
  function NextCorner(p: nat): nat
    requires p < ProfileSize
  {
    if p == ProfileSize - 1 then 0 else p + 1
  }

  function PrevCorner(c: nat): (p: nat)
    requires c < ProfileSize
    ensures p < ProfileSize && NextCorner(p) == c
  {
    if c == 0 then ProfileSize - 1 else c - 1
  }

  /** A corner's two neighbours on the profile are distinct from it and from
      each other. */
  lemma Corners(c: nat)
    requires c < ProfileSize
    ensures NextCorner(c) < ProfileSize && NextCorner(c) != c
    ensures PrevCorner(c) != c && PrevCorner(c) != NextCorner(c)
  {
  }

  /** BaseQuad with the wrap written out. */
  function SweepQuad(i: nat, p: nat): seq<Triangle<TowerVertex>>
    requires p < ProfileSize
  {
    Quad(Base(i, p), Base(i + 1, p), Base(i + 1, NextCorner(p)), Base(i, NextCorner(p)))
  }

  lemma SweepQuadIsBaseQuad(i: nat, p: nat)
    requires p < ProfileSize
    ensures SweepQuad(i, p) == BaseQuad(i, p)
  {
    assert NextCorner(p) == (p + 1) % ProfileSize;
  }

  lemma BaseQuadVertices(i: nat, p: nat)
    requires p < ProfileSize
    ensures Vertices(BaseQuad(i, p)) == {Base(i, p), Base(i + 1, p), Base(i + 1, NextCorner(p)), Base(i, NextCorner(p))}
  {
    var q := NextCorner(p);
    SweepQuadIsBaseQuad(i, p);
    QuadVertices(Base(i, p), Base(i + 1, p), Base(i + 1, q), Base(i, q));
  }

  lemma FanPairVertices(k: nat)
    ensures var p, e := k + 1, BaseSteps - 1;
      Vertices(FanPair(k)) == {Base(0, 0), Base(0, p + 1), Base(0, p), Base(e, 0), Base(e, p), Base(e, p + 1)}
  {
    var p, e := k + 1, BaseSteps - 1;
    PairCounts(Tri(Base(0, 0), Base(0, p + 1), Base(0, p)), Tri(Base(e, 0), Base(e, p), Base(e, p + 1)), Base(0, 0), Base(0, 0));
  }

  lemma RowVertex(k: nat, w: TowerVertex)
    requires w in Vertices(BaseRows()(k))
    ensures w.Base? && (w.step == k || w.step == k + 1) && w.corner < ProfileSize
  {
    var p := StripVertex(BaseQuads(k), ProfileSize, w);
    BaseQuadVertices(k, p);
  }

  lemma RowsVertex(n: nat, w: TowerVertex)
    requires w in Vertices(Strip(BaseRows(), n))
    ensures w.Base? && w.step <= n && w.corner < ProfileSize
  {
    var i := StripVertex(BaseRows(), n, w);
    RowVertex(i, w);
  }

  lemma SweepVertex(w: TowerVertex)
    requires w in Vertices(BaseSweep())
    ensures w.Base? && w.step < BaseSteps && w.corner < ProfileSize
  {
    RowsVertex(BaseSteps - 1, w);
  }

  /** Every label of the base is a base label. */
  lemma BaseVertex(w: TowerVertex)
    requires w in Vertices(BaseMesh())
    ensures w.Base? && w.step < BaseSteps && w.corner < ProfileSize
  {
    CountsAppend(BaseSweep(), Fans(), w, w);
    if w in Vertices(BaseSweep()) {
      SweepVertex(w);
    } else {
      FanVertex(w);
    }
  }

  lemma FansVertex(n: nat, w: TowerVertex)
    requires w in Vertices(Strip(FanPairs(), n))
    ensures w.Base? && (w.step == 0 || w.step == BaseSteps - 1) && w.corner <= n + 1
  {
    var k := StripVertex(FanPairs(), n, w);
    FanPairVertices(k);
  }

  lemma FanVertex(w: TowerVertex)
    requires w in Vertices(Fans())
    ensures w.Base? && (w.step == 0 || w.step == BaseSteps - 1) && w.corner < ProfileSize
  {
    FansVertex(ProfileSize - 2, w);
  }

  /** The two sweep quads of row k that touch profile corner c, or 0 outside
      the sweep. */
  function RowTerm(k: int, c: nat, u: TowerVertex, v: TowerVertex, d: bool): nat {
    if 0 <= k < BaseSteps - 1 && c < ProfileSize then QuadCount(SweepQuad(k, PrevCorner(c)), u, v, d) + QuadCount(SweepQuad(k, c), u, v, d) else 0
  }

  /** The triangle of fan k at end j of the sweep (j = 0 or the last step). */
  function FanTriangle(k: nat, j: nat): Triangle<TowerVertex> {
    var p := k + 1;
    if j == 0 then Tri(Base(0, 0), Base(0, p + 1), Base(0, p)) else Tri(Base(j, 0), Base(j, p), Base(j, p + 1))
  }

  function FanTerm(k: int, j: nat, u: TowerVertex, v: TowerVertex, d: bool): nat {
    if 0 <= k < ProfileSize - 2 then Hit(FanTriangle(k, j), u, v, d) else 0
  }

  predicate AtFan(w: TowerVertex)
    requires w.Base?
  {
    w.corner >= 1 && (w.step == 0 || w.step == BaseSteps - 1)
  }

  /** The count of the base at key label w: the sweep quads around w, and at
      either end the fan triangles around w. */
  function BaseSum(w: TowerVertex, u: TowerVertex, v: TowerVertex, d: bool): nat
    requires w.Base?
  {
    RowTerm(StepOf(w) - 1, w.corner, u, v, d) + RowTerm(StepOf(w), w.corner, u, v, d)
    + (if AtFan(w) then FanTerm(w.corner - 2, w.step, u, v, d) + FanTerm(w.corner - 1, w.step, u, v, d) else 0)
  }

  lemma RowLocal(k: nat, u: TowerVertex, v: TowerVertex)
    requires u.Base? && u.corner < ProfileSize
    ensures EdgeCount(Strip(BaseQuads(k), ProfileSize), u, v) ==
      QuadCount(SweepQuad(k, PrevCorner(u.corner)), u, v, false) + QuadCount(SweepQuad(k, u.corner), u, v, false)
    ensures DirCount(Strip(BaseQuads(k), ProfileSize), u, v) ==
      QuadCount(SweepQuad(k, PrevCorner(u.corner)), u, v, true) + QuadCount(SweepQuad(k, u.corner), u, v, true)
    ensures DirCount(Strip(BaseQuads(k), ProfileSize), v, u) ==
      QuadCount(SweepQuad(k, PrevCorner(u.corner)), v, u, true) + QuadCount(SweepQuad(k, u.corner), v, u, true)
  {
    var c := u.corner;
    forall p: nat | p < ProfileSize && p != PrevCorner(c) && p != c
      ensures u !in Vertices(BaseQuads(k)(p))
    {
      BaseQuadVertices(k, p);
    }
    StripLocal(BaseQuads(k), ProfileSize, u, v, PrevCorner(c), c);
    SweepQuadIsBaseQuad(k, PrevCorner(c));
    SweepQuadIsBaseQuad(k, c);
    QuadCounts(SweepQuad(k, PrevCorner(c)), u, v);
    QuadCounts(SweepQuad(k, c), u, v);
  }

  lemma RowPiece(k: int, u: TowerVertex, v: TowerVertex)
    requires u.Base? && u.corner < ProfileSize
    ensures PieceEdges(BaseRows(), BaseSteps - 1, k, u, v) == RowTerm(k, u.corner, u, v, false)
    ensures PieceDirs(BaseRows(), BaseSteps - 1, k, u, v) == RowTerm(k, u.corner, u, v, true)
    ensures PieceDirs(BaseRows(), BaseSteps - 1, k, v, u) == RowTerm(k, u.corner, v, u, true)
  {
    if 0 <= k < BaseSteps - 1 {
      RowLocal(k, u, v);
    }
  }

  lemma RowsLocal(n: nat, u: TowerVertex, v: TowerVertex)
    ensures EdgeCount(Strip(BaseRows(), n), u, v) ==
      PieceEdges(BaseRows(), n, StepOf(u) - 1, u, v) + PieceEdges(BaseRows(), n, StepOf(u), u, v)
    ensures DirCount(Strip(BaseRows(), n), u, v) ==
      PieceDirs(BaseRows(), n, StepOf(u) - 1, u, v) + PieceDirs(BaseRows(), n, StepOf(u), u, v)
    ensures DirCount(Strip(BaseRows(), n), v, u) ==
      PieceDirs(BaseRows(), n, StepOf(u) - 1, v, u) + PieceDirs(BaseRows(), n, StepOf(u), v, u)
  {
    var i := StepOf(u);
    forall k: nat | k < n && k != i - 1 && k != i
      ensures u !in Vertices(BaseRows()(k))
    {
      if u in Vertices(BaseRows()(k)) {
        RowVertex(k, u);
      }
    }
    StripLocal(BaseRows(), n, u, v, i - 1, i);
  }

  lemma SweepLocal(u: TowerVertex, v: TowerVertex)
    requires u.Base? && u.corner < ProfileSize
    ensures EdgeCount(BaseSweep(), u, v) == RowTerm(StepOf(u) - 1, u.corner, u, v, false) + RowTerm(StepOf(u), u.corner, u, v, false)
    ensures DirCount(BaseSweep(), u, v) == RowTerm(StepOf(u) - 1, u.corner, u, v, true) + RowTerm(StepOf(u), u.corner, u, v, true)
    ensures DirCount(BaseSweep(), v, u) == RowTerm(StepOf(u) - 1, u.corner, v, u, true) + RowTerm(StepOf(u), u.corner, v, u, true)
  {
    RowsLocal(BaseSteps - 1, u, v);
    RowPiece(StepOf(u) - 1, u, v);
    RowPiece(StepOf(u), u, v);
  }

  lemma FansLocal(n: nat, u: TowerVertex, v: TowerVertex)
    requires u.Base? && u.corner >= 1
    ensures EdgeCount(Strip(FanPairs(), n), u, v) == PieceEdges(FanPairs(), n, u.corner - 2, u, v) + PieceEdges(FanPairs(), n, u.corner - 1, u, v)
    ensures DirCount(Strip(FanPairs(), n), u, v) == PieceDirs(FanPairs(), n, u.corner - 2, u, v) + PieceDirs(FanPairs(), n, u.corner - 1, u, v)
    ensures DirCount(Strip(FanPairs(), n), v, u) == PieceDirs(FanPairs(), n, u.corner - 2, v, u) + PieceDirs(FanPairs(), n, u.corner - 1, v, u)
  {
    var c: int := u.corner;
    forall k: nat | k < n && k != c - 2 && k != c - 1
      ensures u !in Vertices(FanPairs()(k))
    {
      FanPairVertices(k);
    }
    StripLocal(FanPairs(), n, u, v, c - 2, c - 1);
  }

  /** One fan pair seen from a label at one end of the sweep: only that
      end's triangle can hold it. */
  lemma FanPiece(k: int, u: TowerVertex, v: TowerVertex)
    requires u.Base? && AtFan(u)
    ensures PieceEdges(FanPairs(), ProfileSize - 2, k, u, v) == FanTerm(k, u.step, u, v, false)
    ensures PieceDirs(FanPairs(), ProfileSize - 2, k, u, v) == FanTerm(k, u.step, u, v, true)
    ensures PieceDirs(FanPairs(), ProfileSize - 2, k, v, u) == FanTerm(k, u.step, v, u, true)
  {
    if 0 <= k < ProfileSize - 2 {
      QuadCounts(FanPair(k), u, v);
    }
  }

  /** At an end of the sweep, away from profile corner 0, only the fan
      triangles at corners c - 1 and c touch a label at corner c. */
  lemma FanLocal(u: TowerVertex, v: TowerVertex)
    requires u.Base? && AtFan(u)
    ensures EdgeCount(Fans(), u, v) == FanTerm(u.corner - 2, u.step, u, v, false) + FanTerm(u.corner - 1, u.step, u, v, false)
    ensures DirCount(Fans(), u, v) == FanTerm(u.corner - 2, u.step, u, v, true) + FanTerm(u.corner - 1, u.step, u, v, true)
    ensures DirCount(Fans(), v, u) == FanTerm(u.corner - 2, u.step, v, u, true) + FanTerm(u.corner - 1, u.step, v, u, true)
  {
    FansLocal(ProfileSize - 2, u, v);
    FanPiece(u.corner - 2, u, v);
    FanPiece(u.corner - 1, u, v);
  }

  lemma BaseLocal(u: TowerVertex, v: TowerVertex)
    requires u.Base? && u.corner < ProfileSize
    requires u.corner >= 1 || (u.step != 0 && u.step != BaseSteps - 1)
    ensures EdgeCount(BaseMesh(), u, v) == BaseSum(u, u, v, false)
    ensures DirCount(BaseMesh(), u, v) == BaseSum(u, u, v, true)
    ensures DirCount(BaseMesh(), v, u) == BaseSum(u, v, u, true)
  {
    CountsAppend(BaseSweep(), Fans(), u, v);
    SweepLocal(u, v);
    if AtFan(u) {
      FanLocal(u, v);
    } else {
      if u in Vertices(Fans()) {
        FanVertex(u);
      }
      AbsentVertex(Fans(), u, v);
    }
  }

  // ---------------------------------------------------------------------------
  // Every kind of base edge lies in exactly two triangles of the base

  // Edges along the sweep are localised at whichever end lies strictly
  // inside the sweep, where no fan triangle reaches.

  /** An edge along the sweep at one profile corner. */
  lemma SweepRail(i: nat, c: nat)
    requires i < BaseSteps - 1 && c < ProfileSize
    ensures EdgeCount(BaseMesh(), Base(i, c), Base(i + 1, c)) == 2
    ensures EdgeCount(BaseMesh(), Base(i + 1, c), Base(i, c)) == 2
  {
    Corners(c);
    if i + 1 < BaseSteps - 1 {
      BaseLocal(Base(i + 1, c), Base(i, c));
    } else {
      BaseLocal(Base(i, c), Base(i + 1, c));
    }
    EdgeCountSymmetric(BaseMesh(), Base(i, c), Base(i + 1, c));
  }

  /** A sweep diagonal ending before the last sweep step, localised at its
      upper end. */
  lemma InnerSweepDiagonal(i: nat, c: nat)
    requires i + 1 < BaseSteps - 1 && c < ProfileSize
    ensures EdgeCount(BaseMesh(), Base(i + 1, NextCorner(c)), Base(i, c)) == 2
  {
    var n := NextCorner(c);
    Corners(n);
    assert PrevCorner(n) == c;
    BaseLocal(Base(i + 1, n), Base(i, c));
  }

  /** A sweep diagonal of the last row, localised at its lower end. */
  lemma LastSweepDiagonal(c: nat)
    requires c < ProfileSize
    ensures EdgeCount(BaseMesh(), Base(BaseSteps - 2, c), Base(BaseSteps - 1, NextCorner(c))) == 2
  {
    Corners(c);
    BaseLocal(Base(BaseSteps - 2, c), Base(BaseSteps - 1, NextCorner(c)));
  }

  lemma SweepDiagonal(i: nat, c: nat)
    requires i < BaseSteps - 1 && c < ProfileSize
    ensures EdgeCount(BaseMesh(), Base(i, c), Base(i + 1, NextCorner(c))) == 2
    ensures EdgeCount(BaseMesh(), Base(i + 1, NextCorner(c)), Base(i, c)) == 2
  {
    if i + 1 < BaseSteps - 1 {
      InnerSweepDiagonal(i, c);
    } else {
      LastSweepDiagonal(c);
    }
    EdgeCountSymmetric(BaseMesh(), Base(i, c), Base(i + 1, NextCorner(c)));
  }

  /** A side of the profile strictly inside the sweep: two sweep quads. */
  lemma ProfileSideInside(i: nat, c: nat)
    requires 0 < i < BaseSteps - 1 && c < ProfileSize
    ensures EdgeCount(BaseMesh(), Base(i, c), Base(i, NextCorner(c))) == 2
  {
    Corners(c);
    BaseLocal(Base(i, c), Base(i, NextCorner(c)));
  }

  /** At an end of the sweep, one sweep quad holds a profile side. */
  lemma EndSideSweep(j: nat, c: nat)
    requires (j == 0 || j == BaseSteps - 1) && c < ProfileSize
    ensures EdgeCount(BaseSweep(), Base(j, c), Base(j, NextCorner(c))) == 1
  {
    Corners(c);
    SweepLocal(Base(j, c), Base(j, NextCorner(c)));
  }

  /** ... and one fan triangle holds it too. */
  lemma EndSideFan(j: nat, c: nat)
    requires (j == 0 || j == BaseSteps - 1) && 1 <= c < ProfileSize
    ensures EdgeCount(Fans(), Base(j, c), Base(j, NextCorner(c))) == 1
  {
    FanLocal(Base(j, c), Base(j, NextCorner(c)));
  }

  lemma FirstSideFan(j: nat)
    requires j == 0 || j == BaseSteps - 1
    ensures EdgeCount(Fans(), Base(j, 1), Base(j, 0)) == 1
  {
    FanLocal(Base(j, 1), Base(j, 0));
  }

  /** A side of the profile at an end of the sweep: a sweep quad and a fan
      triangle. */
  lemma ProfileSideAtEnd(j: nat, c: nat)
    requires (j == 0 || j == BaseSteps - 1) && c < ProfileSize
    ensures EdgeCount(BaseMesh(), Base(j, c), Base(j, NextCorner(c))) == 2
  {
    var u, v := Base(j, c), Base(j, NextCorner(c));
    CountsAppend(BaseSweep(), Fans(), u, v);
    EndSideSweep(j, c);
    if c == 0 {
      FirstSideFan(j);
      EdgeCountSymmetric(Fans(), v, u);
    } else {
      EndSideFan(j, c);
    }
  }

  /** A side of the profile at one sweep step, the closing side from corner 9
      to corner 0 included. */
  lemma ProfileSide(i: nat, c: nat)
    requires i < BaseSteps && c < ProfileSize
    ensures EdgeCount(BaseMesh(), Base(i, c), Base(i, NextCorner(c))) == 2
    ensures EdgeCount(BaseMesh(), Base(i, NextCorner(c)), Base(i, c)) == 2
  {
    if 0 < i < BaseSteps - 1 {
      ProfileSideInside(i, c);
    } else {
      ProfileSideAtEnd(i, c);
    }
    EdgeCountSymmetric(BaseMesh(), Base(i, c), Base(i, NextCorner(c)));
  }

  /** An inner diagonal of the fan at sweep step j: two consecutive fan
      triangles. */
  lemma FanDiagonal(j: nat, p: nat)
    requires (j == 0 || j == BaseSteps - 1) && 2 <= p <= ProfileSize - 2
    ensures EdgeCount(BaseMesh(), Base(j, 0), Base(j, p)) == 2
    ensures EdgeCount(BaseMesh(), Base(j, p), Base(j, 0)) == 2
  {
    if j == 0 {
      BaseLocal(Base(0, p), Base(0, 0));
    } else {
      BaseLocal(Base(BaseSteps - 1, p), Base(BaseSteps - 1, 0));
    }
    EdgeCountSymmetric(BaseMesh(), Base(j, 0), Base(j, p));
  }

  // ---------------------------------------------------------------------------
  // Every quad and fan triangle of the base has all its edges twice

  lemma BaseQuadClosed(i: nat, p: nat)
    requires i < BaseSteps - 1 && p < ProfileSize
    ensures AllEdgesTwice(BaseMesh(), BaseQuad(i, p))
  {
    var q := NextCorner(p);
    SweepQuadIsBaseQuad(i, p);
    SweepRail(i, p);
    SweepRail(i, q);
    ProfileSide(i, p);
    ProfileSide(i + 1, p);
    SweepDiagonal(i, p);
    QuadEdges(BaseMesh(), Base(i, p), Base(i + 1, p), Base(i + 1, q), Base(i, q));
  }

  /** The fan triangle at sweep step j over profile corners 0, p and p + 1. */
  lemma FanTriangleEdges(j: nat, p: nat)
    requires (j == 0 || j == BaseSteps - 1) && 1 <= p <= ProfileSize - 2
    ensures EdgeCount(BaseMesh(), Base(j, 0), Base(j, p + 1)) == 2
    ensures EdgeCount(BaseMesh(), Base(j, p + 1), Base(j, 0)) == 2
    ensures EdgeCount(BaseMesh(), Base(j, p), Base(j, p + 1)) == 2
    ensures EdgeCount(BaseMesh(), Base(j, p + 1), Base(j, p)) == 2
    ensures EdgeCount(BaseMesh(), Base(j, 0), Base(j, p)) == 2
    ensures EdgeCount(BaseMesh(), Base(j, p), Base(j, 0)) == 2
  {
    ProfileSide(j, p);
    if p + 1 <= ProfileSize - 2 {
      FanDiagonal(j, p + 1);
    } else {
      ProfileSide(j, p + 1);
    }
    if p >= 2 {
      FanDiagonal(j, p);
    } else {
      ProfileSide(j, 0);
    }
  }

  lemma FanTriangleClosed(k: nat, j: nat)
    requires k < ProfileSize - 2 && (j == 0 || j == BaseSteps - 1)
    ensures EdgesTwice(BaseMesh(), FanTriangle(k, j))
  {
    FanTriangleEdges(j, k + 1);
  }

  lemma FanPairClosed(k: nat)
    requires k < ProfileSize - 2
    ensures AllEdgesTwice(BaseMesh(), FanPair(k))
  {
    FanTriangleClosed(k, 0);
    FanTriangleClosed(k, BaseSteps - 1);
    assert FanPair(k)[0] == FanTriangle(k, 0);
    assert FanPair(k)[1] == FanTriangle(k, BaseSteps - 1);
  }

  /** The base sweep closed by its two fans is a closed shell. */
  lemma BaseClosed()
    ensures Closed(BaseMesh())
  {
    var m := BaseMesh();
    forall i: nat | i < BaseSteps - 1
      ensures AllEdgesTwice(m, BaseRows()(i))
    {
      forall p: nat | p < ProfileSize
        ensures AllEdgesTwice(m, BaseQuads(i)(p))
      {
        BaseQuadClosed(i, p);
      }
      StripAllEdgesTwice(m, BaseQuads(i), ProfileSize);
    }
    StripAllEdgesTwice(m, BaseRows(), BaseSteps - 1);
    forall k: nat | k < ProfileSize - 2
      ensures AllEdgesTwice(m, FanPairs()(k))
    {
      FanPairClosed(k);
    }
    StripAllEdgesTwice(m, FanPairs(), ProfileSize - 2);
    AllEdgesTwiceAppend(m, BaseSweep(), Fans());
  }

  // ---------------------------------------------------------------------------
  // Winding of the base

  /** Neighbouring quads of one sweep step meet with opposite traversals.
      The edge Base(0, 0)-Base(1, 0) touches the start fan's apex, so it is
      localised at its other end. */
  lemma SweepRailOpposed(i: nat, c: nat)
    requires i < BaseSteps - 1 && c < ProfileSize
    ensures OppositelyPaired(BaseMesh(), Base(i, c), Base(i + 1, c))
  {
    Corners(c);
    if c == 0 && i == 0 {
      BaseLocal(Base(1, 0), Base(0, 0));
    } else {
      BaseLocal(Base(i, c), Base(i + 1, c));
    }
  }

  lemma ProfileSideOpposed(i: nat, c: nat)
    requires 0 < i < BaseSteps - 1 && c < ProfileSize
    ensures OppositelyPaired(BaseMesh(), Base(i, c), Base(i, NextCorner(c)))
  {
    Corners(c);
    BaseLocal(Base(i, c), Base(i, NextCorner(c)));
  }

  /** Each fan traverses its profile sides in the same direction as the
      sweep quads it closes. */
  lemma FanRepeatsSweep(p: nat)
    requires 1 <= p <= ProfileSize - 2
    ensures DirCount(BaseMesh(), Base(0, p + 1), Base(0, p)) == 2
    ensures DirCount(BaseMesh(), Base(BaseSteps - 1, p), Base(BaseSteps - 1, p + 1)) == 2
  {
    StartFanRepeatsSweep(p);
    EndFanRepeatsSweep(p);
  }

  lemma StartFanRepeatsSweep(p: nat)
    requires 1 <= p <= ProfileSize - 2
    ensures DirCount(BaseMesh(), Base(0, p + 1), Base(0, p)) == 2
  {
    CountsAppend(BaseSweep(), Fans(), Base(0, p), Base(0, p + 1));
    StartSweepSide(p);
    StartFanSide(p);
  }

  lemma StartSweepSide(p: nat)
    requires 1 <= p <= ProfileSize - 2
    ensures DirCount(BaseSweep(), Base(0, p + 1), Base(0, p)) == 1
  {
    SweepLocal(Base(0, p), Base(0, p + 1));
  }

  lemma StartFanSide(p: nat)
    requires 1 <= p <= ProfileSize - 2
    ensures DirCount(Fans(), Base(0, p + 1), Base(0, p)) == 1
  {
    FanLocal(Base(0, p), Base(0, p + 1));
  }

  lemma EndFanRepeatsSweep(p: nat)
    requires 1 <= p <= ProfileSize - 2
    ensures DirCount(BaseMesh(), Base(BaseSteps - 1, p), Base(BaseSteps - 1, p + 1)) == 2
  {
    CountsAppend(BaseSweep(), Fans(), Base(BaseSteps - 1, p), Base(BaseSteps - 1, p + 1));
    EndSweepSide(p);
    EndFanSide(p);
  }

  lemma EndSweepSide(p: nat)
    requires 1 <= p <= ProfileSize - 2
    ensures DirCount(BaseSweep(), Base(BaseSteps - 1, p), Base(BaseSteps - 1, p + 1)) == 1
  {
    SweepLocal(Base(BaseSteps - 1, p), Base(BaseSteps - 1, p + 1));
  }

  lemma EndFanSide(p: nat)
    requires 1 <= p <= ProfileSize - 2
    ensures DirCount(Fans(), Base(BaseSteps - 1, p), Base(BaseSteps - 1, p + 1)) == 1
  {
    FanLocal(Base(BaseSteps - 1, p), Base(BaseSteps - 1, p + 1));
  }

  lemma BaseNotOriented()
    ensures !ConsistentlyOriented(BaseMesh())
  {
    var t := Tri(Base(0, 0), Base(0, 2), Base(0, 1));
    assert t in FanPairs()(0);
    StripMember(FanPairs(), ProfileSize - 2, 0, t);
    FanRepeatsSweep(1);
    NotOrientedWitness(BaseMesh(), t);
  }

  // ===========================================================================
  // The whole tower

  lemma DisjointFromTube(x: seq<Triangle<TowerVertex>>, s: nat)
    requires forall w :: w in Vertices(x) ==> w.Tube? && w.section < s
    ensures Vertices(x) !! Vertices(ArcTube(s))
  {
    forall w | w in Vertices(x) && w in Vertices(ArcTube(s))
      ensures false
    {
      ArcTubeVertex(s, w);
    }
  }

  lemma TubesAppend(x: seq<Triangle<TowerVertex>>, s: nat)
    requires Closed(x) && forall w :: w in Vertices(x) ==> w.Tube? && w.section < s
    ensures Closed(x + ArcTube(s))
    ensures forall w :: w in Vertices(x + ArcTube(s)) ==> w.Tube? && w.section < s + 1
  {
    ArcTubeClosed(s);
    DisjointFromTube(x, s);
    ClosedAppend(x, ArcTube(s));
    forall w | w in Vertices(x + ArcTube(s))
      ensures w.Tube? && w.section < s + 1
    {
      CountsAppend(x, ArcTube(s), w, w);
      if w in Vertices(ArcTube(s)) {
        ArcTubeVertex(s, w);
      }
    }
  }

  lemma TubesClosed()
    ensures var tubes := ArcTube(0) + ArcTube(1) + ArcTube(2) + ArcTube(3) + ArcTube(4);
      Closed(tubes) && forall w :: w in Vertices(tubes) ==> w.Tube?
  {
    ArcTubeClosed(0);
    forall w | w in Vertices(ArcTube(0))
      ensures w.Tube? && w.section < 1
    {
      ArcTubeVertex(0, w);
    }
    TubesAppend(ArcTube(0), 1);
    TubesAppend(ArcTube(0) + ArcTube(1), 2);
    TubesAppend(ArcTube(0) + ArcTube(1) + ArcTube(2), 3);
    TubesAppend(ArcTube(0) + ArcTube(1) + ArcTube(2) + ArcTube(3), 4);
  }

  lemma DisjointFromBase(x: seq<Triangle<TowerVertex>>)
    requires forall w :: w in Vertices(x) ==> w.Tube?
    ensures Vertices(x) !! Vertices(BaseMesh())
  {
    forall w | w in Vertices(x) && w in Vertices(BaseMesh())
      ensures false
    {
      BaseVertex(w);
    }
  }

  /** The winding the base repeats survives in the whole tower: the tubes
      hold no base label, so the start fan's first triangle still traverses
      Base(0, 2) -> Base(0, 1) a second time. */
  lemma TowerNotOriented()
    ensures !ConsistentlyOriented(TowerMesh())
  {
    var tubes := ArcTube(0) + ArcTube(1) + ArcTube(2) + ArcTube(3) + ArcTube(4);
    var t := Tri(Base(0, 0), Base(0, 2), Base(0, 1));
    assert t in FanPairs()(0);
    StripMember(FanPairs(), ProfileSize - 2, 0, t);
    assert t in BaseMesh();
    assert TowerMesh() == tubes + BaseMesh();
    TubesClosed();
    AbsentVertex(tubes, t.b, t.c);
    CountsAppend(tubes, BaseMesh(), t.b, t.c);
    FanRepeatsSweep(1);
    NotOrientedWitness(TowerMesh(), t);
  }

  /** The five sections and the base share no label, so the whole list is a
      union of closed shells: every edge of every triangle the tower writes
      lies in exactly two of its triangles. */
  lemma TowerClosed()
    ensures Closed(TowerMesh())
  {
    var tubes := ArcTube(0) + ArcTube(1) + ArcTube(2) + ArcTube(3) + ArcTube(4);
    TubesClosed();
    BaseClosed();
    DisjointFromBase(tubes);
    ClosedAppend(tubes, BaseMesh());
  }
}
