/** Winding of the panel shell.

    The back surface is the front surface relabelled onto the inner wall and
    wound the other way. Within each surface, and between the left and right
    strips and the surfaces, every shared edge is traversed once each way.
    The top and bottom strips, however, traverse the edges they share with
    the front and back in the same direction as those surfaces, so the shell
    as emitted is closed but not consistently oriented. */
module PanelWinding {
  import opened Mesh
  import opened Panel
  import opened PanelClosure

  function ToInner(w: PanelVertex): (r: PanelVertex)
    ensures r.Inner? && r.r == w.r && r.c == w.c
  {
    Inner(w.r, w.c)
  }

  // ---------------------------------------------------------------------------
  // The back is the reversed front

  lemma BackQuadMirrorsFront(r: nat, c: nat)
    ensures BackQuad(r, c) == ReverseAll(MapTriangles(ToInner, FrontQuad(r, c)))
  {
    var f := FrontQuad(r, c);
    var image := ReverseAll(MapTriangles(ToInner, f));
    assert image[0] == Reversed(Tri(ToInner(f[0].a), ToInner(f[0].b), ToInner(f[0].c)));
    assert image[1] == Reversed(Tri(ToInner(f[1].a), ToInner(f[1].b), ToInner(f[1].c)));
  }

  /** The back pass emits, triangle for triangle and in the same order, the
      front pass moved onto the inner wall with each triangle reversed. */
  lemma BackMirrorsFront(rows: nat, cols: nat)
    requires rows >= 1 && cols >= 1
    ensures Back(rows, cols) == ReverseAll(MapTriangles(ToInner, Front(rows, cols)))
  {
    var n := cols - 1;
    forall r: nat | r < rows - 1
      ensures BackRows(n)(r) == ReverseAll(MapTriangles(ToInner, FrontRows(n)(r)))
    {
      forall c: nat | c < n
        ensures BackRowQuads(r)(c) == ReverseAll(MapTriangles(ToInner, FrontRowQuads(r)(c)))
      {
        BackQuadMirrorsFront(r, c);
      }
      StripMapReverse(ToInner, FrontRowQuads(r), BackRowQuads(r), n);
    }
    StripMapReverse(ToInner, FrontRows(n), BackRows(n), rows - 1);
  }

  // ---------------------------------------------------------------------------
  // Each surface is consistently wound on its own

  lemma FrontDiagonalPaired(rows: nat, cols: nat, r: nat, c: nat)
    requires rows >= 2 && cols >= 2 && r < rows - 1 && c < cols - 1
    ensures OppositelyPaired(PanelMesh(rows, cols), Outer(r + 1, c), Outer(r, c + 1))
  {
    PanelLocal(rows, cols, Outer(r + 1, c), Outer(r, c + 1));
  }

  /** A grid-row edge strictly inside the front lies in the quad above and the
      quad below, which traverse it opposite ways. */
  lemma FrontRowPaired(rows: nat, cols: nat, r: nat, c: nat)
    requires 0 < r < rows - 1 && cols >= 2 && c < cols - 1
    ensures OppositelyPaired(PanelMesh(rows, cols), Outer(r, c), Outer(r, c + 1))
  {
    PanelLocal(rows, cols, Outer(r, c), Outer(r, c + 1));
  }

  lemma FrontColPaired(rows: nat, cols: nat, r: nat, c: nat)
    requires rows >= 2 && 0 < c < cols - 1 && r < rows - 1
    ensures OppositelyPaired(PanelMesh(rows, cols), Outer(r, c), Outer(r + 1, c))
  {
    PanelLocal(rows, cols, Outer(r, c), Outer(r + 1, c));
  }

  lemma BackDiagonalPaired(rows: nat, cols: nat, r: nat, c: nat)
    requires rows >= 2 && cols >= 2 && r < rows - 1 && c < cols - 1
    ensures OppositelyPaired(PanelMesh(rows, cols), Inner(r + 1, c), Inner(r, c + 1))
  {
    PanelLocal(rows, cols, Inner(r + 1, c), Inner(r, c + 1));
  }

  lemma BackRowPaired(rows: nat, cols: nat, r: nat, c: nat)
    requires 0 < r < rows - 1 && cols >= 2 && c < cols - 1
    ensures OppositelyPaired(PanelMesh(rows, cols), Inner(r, c), Inner(r, c + 1))
  {
    PanelLocal(rows, cols, Inner(r, c), Inner(r, c + 1));
  }

  lemma BackColPaired(rows: nat, cols: nat, r: nat, c: nat)
    requires rows >= 2 && 0 < c < cols - 1 && r < rows - 1
    ensures OppositelyPaired(PanelMesh(rows, cols), Inner(r, c), Inner(r + 1, c))
  {
    PanelLocal(rows, cols, Inner(r, c), Inner(r + 1, c));
  }

  // ---------------------------------------------------------------------------
  // The left and right strips meet the surfaces with opposite traversals

  lemma LeftOpposesFront(rows: nat, cols: nat, r: nat)
    requires rows >= 2 && cols >= 2 && r < rows - 1
    ensures OppositelyPaired(PanelMesh(rows, cols), Outer(r, 0), Outer(r + 1, 0))
  {
    PanelLocal(rows, cols, Outer(r, 0), Outer(r + 1, 0));
  }

  lemma LeftOpposesBack(rows: nat, cols: nat, r: nat)
    requires rows >= 2 && cols >= 2 && r < rows - 1
    ensures OppositelyPaired(PanelMesh(rows, cols), Inner(r, 0), Inner(r + 1, 0))
  {
    PanelLocal(rows, cols, Inner(r, 0), Inner(r + 1, 0));
  }

  lemma RightOpposesFront(rows: nat, cols: nat, r: nat)
    requires rows >= 2 && cols >= 2 && r < rows - 1
    ensures OppositelyPaired(PanelMesh(rows, cols), Outer(r, cols - 1), Outer(r + 1, cols - 1))
  {
    PanelLocal(rows, cols, Outer(r, cols - 1), Outer(r + 1, cols - 1));
  }

  lemma RightOpposesBack(rows: nat, cols: nat, r: nat)
    requires rows >= 2 && cols >= 2 && r < rows - 1
    ensures OppositelyPaired(PanelMesh(rows, cols), Inner(r, cols - 1), Inner(r + 1, cols - 1))
  {
    PanelLocal(rows, cols, Inner(r, cols - 1), Inner(r + 1, cols - 1));
  }

  // ---------------------------------------------------------------------------
  // The top and bottom strips repeat the surfaces' traversals

  /** Back row 0 and the top strip both traverse Inner(0, c) -> Inner(0, c + 1). */
  lemma TopRepeatsBack(rows: nat, cols: nat, c: nat)
    requires rows >= 2 && cols >= 2 && c < cols - 1
    ensures DirCount(PanelMesh(rows, cols), Inner(0, c), Inner(0, c + 1)) == 2
    ensures DirCount(PanelMesh(rows, cols), Inner(0, c + 1), Inner(0, c)) == 0
  {
    PanelLocal(rows, cols, Inner(0, c), Inner(0, c + 1));
  }

  lemma TopRepeatsFront(rows: nat, cols: nat, c: nat)
    requires rows >= 2 && cols >= 2 && c < cols - 1
    ensures DirCount(PanelMesh(rows, cols), Outer(0, c + 1), Outer(0, c)) == 2
    ensures DirCount(PanelMesh(rows, cols), Outer(0, c), Outer(0, c + 1)) == 0
  {
    PanelLocal(rows, cols, Outer(0, c + 1), Outer(0, c));
  }

  lemma BottomRepeatsFront(rows: nat, cols: nat, c: nat)
    requires rows >= 2 && cols >= 2 && c < cols - 1
    ensures DirCount(PanelMesh(rows, cols), Outer(rows - 1, c), Outer(rows - 1, c + 1)) == 2
    ensures DirCount(PanelMesh(rows, cols), Outer(rows - 1, c + 1), Outer(rows - 1, c)) == 0
  {
    PanelLocal(rows, cols, Outer(rows - 1, c), Outer(rows - 1, c + 1));
  }

  lemma BottomRepeatsBack(rows: nat, cols: nat, c: nat)
    requires rows >= 2 && cols >= 2 && c < cols - 1
    ensures DirCount(PanelMesh(rows, cols), Inner(rows - 1, c + 1), Inner(rows - 1, c)) == 2
    ensures DirCount(PanelMesh(rows, cols), Inner(rows - 1, c), Inner(rows - 1, c + 1)) == 0
  {
    PanelLocal(rows, cols, Inner(rows - 1, c + 1), Inner(rows - 1, c));
  }

  /** So the emitted shell, although closed, is not consistently oriented. */
  lemma PanelNotOriented(rows: nat, cols: nat)
    requires rows >= 2 && cols >= 2
    ensures !ConsistentlyOriented(PanelMesh(rows, cols))
  {
    var t := Tri(Inner(0, 0), Inner(0, 1), Outer(0, 0));
    assert t in TopQuads()(0);
    StripMember(TopQuads(), cols - 1, 0, t);
    TopRepeatsBack(rows, cols, 0);
    NotOrientedWitness(PanelMesh(rows, cols), t);
  }

  // ---------------------------------------------------------------------------
  // A single row of pixels

  /** With one row the top and bottom strips run along the same grid line, so
      each interior rung lies in four triangles and the shell is open. */
  lemma SingleRowOpen(cols: nat)
    requires cols >= 3
    ensures EdgeCount(PanelMesh(1, cols), Inner(0, 1), Outer(0, 1)) == 4
    ensures !Closed(PanelMesh(1, cols))
  {
    PanelLocal(1, cols, Inner(0, 1), Outer(0, 1));
    var t := Tri(Inner(0, 1), Outer(0, 1), Outer(0, 0));
    assert t in TopQuads()(0);
    StripMember(TopQuads(), cols - 1, 0, t);
    NotClosedWitness(PanelMesh(1, cols), t);
  }

  /** The mirror case: with one column the left and right strips run along
      the same grid line, and each interior rung lies in four triangles. */
  lemma SingleColumnOpen(rows: nat)
    requires rows >= 3
    ensures EdgeCount(PanelMesh(rows, 1), Inner(1, 0), Outer(1, 0)) == 4
    ensures !Closed(PanelMesh(rows, 1))
  {
    PanelLocal(rows, 1, Inner(1, 0), Outer(1, 0));
    var t := Tri(Inner(1, 0), Outer(1, 0), Inner(2, 0));
    assert t in RightQuads(0)(1);
    StripMember(RightQuads(0), rows - 1, 1, t);
    NotClosedWitness(PanelMesh(rows, 1), t);
  }
}
