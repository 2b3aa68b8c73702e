/** Closure and winding of the panel shell over its labels.

    Every count of the whole panel at a label u is localised: a front or
    back quad (k, j) touches grid rows k, k + 1 and columns j, j + 1, and an
    edge-strip quad touches two consecutive grid lines, so only the quads
    next to u can hold an edge at u. The closure and winding facts then
    follow quad by quad. */
module PanelClosure {
  import opened Mesh
  import opened Panel

  function RowOf(w: PanelVertex): int { w.r }
  function ColOf(w: PanelVertex): int { w.c }

  lemma EdgeQuadVertices(tl: PanelVertex, tr: PanelVertex, bl: PanelVertex, br: PanelVertex)
    ensures Vertices(EdgeQuad(tl, tr, bl, br)) == {tl, tr, bl, br}
  {
    PairCounts(Tri(tl, tr, bl), Tri(tr, br, bl), tl, tl);
  }

  lemma FrontQuadVertices(k: nat, j: nat)
    ensures Vertices(FrontQuad(k, j)) == {Outer(k, j), Outer(k, j + 1), Outer(k + 1, j), Outer(k + 1, j + 1)}
  {
    var q := FrontQuad(k, j);
    PairCounts(q[0], q[1], Outer(k, j), Outer(k, j));
  }

  // ---------------------------------------------------------------------------
  // The counts at u, quad by quad

  // Each term is the count of one quad next to u, or 0 when that quad is
  // outside the pass.
  function FrontTerm(rows: nat, cols: nat, k: int, j: int, u: PanelVertex, v: PanelVertex, d: bool): nat {
    if 0 <= k < rows - 1 && 0 <= j < cols - 1 then QuadCount(FrontQuad(k, j), u, v, d) else 0
  }

  function BackTerm(rows: nat, cols: nat, k: int, j: int, u: PanelVertex, v: PanelVertex, d: bool): nat {
    if 0 <= k < rows - 1 && 0 <= j < cols - 1 then QuadCount(BackQuad(k, j), u, v, d) else 0
  }

  function TopTerm(cols: nat, j: int, u: PanelVertex, v: PanelVertex, d: bool): nat {
    if 0 <= j < cols - 1 then QuadCount(TopQuad(j), u, v, d) else 0
  }

  function BottomTerm(rows: nat, cols: nat, j: int, u: PanelVertex, v: PanelVertex, d: bool): nat
    requires rows >= 1
  {
    if 0 <= j < cols - 1 then QuadCount(BottomQuad(rows - 1, j), u, v, d) else 0
  }

  function LeftTerm(rows: nat, k: int, u: PanelVertex, v: PanelVertex, d: bool): nat {
    if 0 <= k < rows - 1 then QuadCount(LeftQuad(k), u, v, d) else 0
  }

  function RightTerm(rows: nat, cols: nat, k: int, u: PanelVertex, v: PanelVertex, d: bool): nat
    requires cols >= 1
  {
    if 0 <= k < rows - 1 then QuadCount(RightQuad(cols - 1, k), u, v, d) else 0
  }

  function FrontRowSum(rows: nat, cols: nat, k: int, c: int, u: PanelVertex, v: PanelVertex, d: bool): nat {
    FrontTerm(rows, cols, k, c - 1, u, v, d) + FrontTerm(rows, cols, k, c, u, v, d)
  }

  function BackRowSum(rows: nat, cols: nat, k: int, c: int, u: PanelVertex, v: PanelVertex, d: bool): nat {
    BackTerm(rows, cols, k, c - 1, u, v, d) + BackTerm(rows, cols, k, c, u, v, d)
  }

  // The count of each pass at key vertex w: only a pass that can hold w
  // contributes, and only through the quads next to w.
  function FrontPart(rows: nat, cols: nat, w: PanelVertex, u: PanelVertex, v: PanelVertex, d: bool): nat {
    if w.Outer? then FrontRowSum(rows, cols, w.r - 1, w.c, u, v, d) + FrontRowSum(rows, cols, w.r, w.c, u, v, d) else 0
  }

  function BackPart(rows: nat, cols: nat, w: PanelVertex, u: PanelVertex, v: PanelVertex, d: bool): nat {
    if w.Inner? then BackRowSum(rows, cols, w.r - 1, w.c, u, v, d) + BackRowSum(rows, cols, w.r, w.c, u, v, d) else 0
  }

  function TopPart(cols: nat, w: PanelVertex, u: PanelVertex, v: PanelVertex, d: bool): nat {
    if w.r == 0 then TopTerm(cols, w.c - 1, u, v, d) + TopTerm(cols, w.c, u, v, d) else 0
  }

  function BottomPart(rows: nat, cols: nat, w: PanelVertex, u: PanelVertex, v: PanelVertex, d: bool): nat
    requires rows >= 1
  {
    if w.r == rows - 1 then BottomTerm(rows, cols, w.c - 1, u, v, d) + BottomTerm(rows, cols, w.c, u, v, d) else 0
  }

  function LeftPart(rows: nat, w: PanelVertex, u: PanelVertex, v: PanelVertex, d: bool): nat {
    if w.c == 0 then LeftTerm(rows, w.r - 1, u, v, d) + LeftTerm(rows, w.r, u, v, d) else 0
  }

  function RightPart(rows: nat, cols: nat, w: PanelVertex, u: PanelVertex, v: PanelVertex, d: bool): nat
    requires cols >= 1
  {
    if w.c == cols - 1 then RightTerm(rows, cols, w.r - 1, u, v, d) + RightTerm(rows, cols, w.r, u, v, d) else 0
  }

  /** The sum of the counts of the (at most sixteen) quads of the six passes
      next to w. */
  function LocalSum(rows: nat, cols: nat, w: PanelVertex, u: PanelVertex, v: PanelVertex, d: bool): nat
    requires rows >= 1 && cols >= 1
  {
    FrontPart(rows, cols, w, u, v, d) + BackPart(rows, cols, w, u, v, d) + TopPart(cols, w, u, v, d)
    + BottomPart(rows, cols, w, u, v, d) + LeftPart(rows, w, u, v, d) + RightPart(rows, cols, w, u, v, d)
  }

  // ---------------------------------------------------------------------------
  // Where the vertices of each pass lie

  /** The front surface uses only Outer labels, inside the grid. */
  lemma FrontVertex(rows: nat, cols: nat, w: PanelVertex)
    requires rows >= 1 && cols >= 1 && w in Vertices(Front(rows, cols))
    ensures w.Outer? && w.r < rows && w.c < cols
  {
    var k := StripVertex(FrontRows(cols - 1), rows - 1, w);
    var j := StripVertex(FrontRowQuads(k), cols - 1, w);
    FrontQuadVertices(k, j);
  }

  /** The back surface uses only Inner labels, inside the grid. */
  lemma BackVertex(rows: nat, cols: nat, w: PanelVertex)
    requires rows >= 1 && cols >= 1 && w in Vertices(Back(rows, cols))
    ensures w.Inner? && w.r < rows && w.c < cols
  {
    var k := StripVertex(BackRows(cols - 1), rows - 1, w);
    var j := StripVertex(BackRowQuads(k), cols - 1, w);
    EdgeQuadVertices(Inner(k, j), Inner(k, j + 1), Inner(k + 1, j), Inner(k + 1, j + 1));
  }

  /** The top strip lies on row 0, the bottom strip on row rows - 1. */
  lemma TopVertex(cols: nat, w: PanelVertex)
    requires cols >= 1 && w in Vertices(Top(cols))
    ensures w.r == 0 && w.c < cols
  {
    var j := StripVertex(TopQuads(), cols - 1, w);
    EdgeQuadVertices(Inner(0, j), Inner(0, j + 1), Outer(0, j), Outer(0, j + 1));
  }

  lemma BottomVertex(rows: nat, cols: nat, w: PanelVertex)
    requires rows >= 1 && cols >= 1 && w in Vertices(Bottom(rows, cols))
    ensures w.r == rows - 1 && w.c < cols
  {
    var e := rows - 1;
    var j := StripVertex(BottomQuads(e), cols - 1, w);
    EdgeQuadVertices(Outer(e, j), Outer(e, j + 1), Inner(e, j), Inner(e, j + 1));
  }

  /** The left strip lies on column 0, the right strip on column cols - 1. */
  lemma LeftVertex(rows: nat, w: PanelVertex)
    requires rows >= 1 && w in Vertices(Left(rows))
    ensures w.c == 0 && w.r < rows
  {
    var k := StripVertex(LeftQuads(), rows - 1, w);
    EdgeQuadVertices(Outer(k, 0), Inner(k, 0), Outer(k + 1, 0), Inner(k + 1, 0));
  }

  lemma RightVertex(rows: nat, cols: nat, w: PanelVertex)
    requires rows >= 1 && cols >= 1 && w in Vertices(Right(rows, cols))
    ensures w.c == cols - 1 && w.r < rows
  {
    var e := cols - 1;
    var k := StripVertex(RightQuads(e), rows - 1, w);
    EdgeQuadVertices(Inner(k, e), Outer(k, e), Inner(k + 1, e), Outer(k + 1, e));
  }

  // A pass that cannot hold u contributes nothing at u.

  lemma FrontAbsent(rows: nat, cols: nat, u: PanelVertex, v: PanelVertex)
    requires rows >= 1 && cols >= 1 && !u.Outer?
    ensures EdgeCount(Front(rows, cols), u, v) == 0 && DirCount(Front(rows, cols), u, v) == 0 && DirCount(Front(rows, cols), v, u) == 0
  {
    if u in Vertices(Front(rows, cols)) {
      FrontVertex(rows, cols, u);
    }
    AbsentVertex(Front(rows, cols), u, v);
  }

  lemma BackAbsent(rows: nat, cols: nat, u: PanelVertex, v: PanelVertex)
    requires rows >= 1 && cols >= 1 && !u.Inner?
    ensures EdgeCount(Back(rows, cols), u, v) == 0 && DirCount(Back(rows, cols), u, v) == 0 && DirCount(Back(rows, cols), v, u) == 0
  {
    if u in Vertices(Back(rows, cols)) {
      BackVertex(rows, cols, u);
    }
    AbsentVertex(Back(rows, cols), u, v);
  }

  lemma TopAbsent(cols: nat, u: PanelVertex, v: PanelVertex)
    requires cols >= 1 && u.r != 0
    ensures EdgeCount(Top(cols), u, v) == 0 && DirCount(Top(cols), u, v) == 0 && DirCount(Top(cols), v, u) == 0
  {
    if u in Vertices(Top(cols)) {
      TopVertex(cols, u);
    }
    AbsentVertex(Top(cols), u, v);
  }

  lemma BottomAbsent(rows: nat, cols: nat, u: PanelVertex, v: PanelVertex)
    requires rows >= 1 && cols >= 1 && u.r != rows - 1
    ensures EdgeCount(Bottom(rows, cols), u, v) == 0 && DirCount(Bottom(rows, cols), u, v) == 0 && DirCount(Bottom(rows, cols), v, u) == 0
  {
    if u in Vertices(Bottom(rows, cols)) {
      BottomVertex(rows, cols, u);
    }
    AbsentVertex(Bottom(rows, cols), u, v);
  }

  lemma LeftAbsent(rows: nat, u: PanelVertex, v: PanelVertex)
    requires rows >= 1 && u.c != 0
    ensures EdgeCount(Left(rows), u, v) == 0 && DirCount(Left(rows), u, v) == 0 && DirCount(Left(rows), v, u) == 0
  {
    if u in Vertices(Left(rows)) {
      LeftVertex(rows, u);
    }
    AbsentVertex(Left(rows), u, v);
  }

  lemma RightAbsent(rows: nat, cols: nat, u: PanelVertex, v: PanelVertex)
    requires rows >= 1 && cols >= 1 && u.c != cols - 1
    ensures EdgeCount(Right(rows, cols), u, v) == 0 && DirCount(Right(rows, cols), u, v) == 0 && DirCount(Right(rows, cols), v, u) == 0
  {
    if u in Vertices(Right(rows, cols)) {
      RightVertex(rows, cols, u);
    }
    AbsentVertex(Right(rows, cols), u, v);
  }

  // Which grid lines the vertices of each piece lie on.

  lemma FrontColKeys(k: nat, n: nat)
    ensures forall j: nat, x :: j < n && x in Vertices(FrontRowQuads(k)(j)) ==> ColOf(x) == j || ColOf(x) == j + 1
  {
    forall j: nat, x | j < n && x in Vertices(FrontRowQuads(k)(j))
      ensures ColOf(x) == j || ColOf(x) == j + 1
    {
      FrontQuadVertices(k, j);
    }
  }

  lemma BackColKeys(k: nat, n: nat)
    ensures forall j: nat, x :: j < n && x in Vertices(BackRowQuads(k)(j)) ==> ColOf(x) == j || ColOf(x) == j + 1
  {
    forall j: nat, x | j < n && x in Vertices(BackRowQuads(k)(j))
      ensures ColOf(x) == j || ColOf(x) == j + 1
    {
      EdgeQuadVertices(Inner(k, j), Inner(k, j + 1), Inner(k + 1, j), Inner(k + 1, j + 1));
    }
  }

  lemma FrontRowKeys(m: nat, n: nat)
    ensures forall k: nat, x :: k < m && x in Vertices(FrontRows(n)(k)) ==> RowOf(x) == k || RowOf(x) == k + 1
  {
    forall k: nat, x | k < m && x in Vertices(FrontRows(n)(k))
      ensures RowOf(x) == k || RowOf(x) == k + 1
    {
      var j := StripVertex(FrontRowQuads(k), n, x);
      FrontQuadVertices(k, j);
    }
  }

  lemma BackRowKeys(m: nat, n: nat)
    ensures forall k: nat, x :: k < m && x in Vertices(BackRows(n)(k)) ==> RowOf(x) == k || RowOf(x) == k + 1
  {
    forall k: nat, x | k < m && x in Vertices(BackRows(n)(k))
      ensures RowOf(x) == k || RowOf(x) == k + 1
    {
      var j := StripVertex(BackRowQuads(k), n, x);
      EdgeQuadVertices(Inner(k, j), Inner(k, j + 1), Inner(k + 1, j), Inner(k + 1, j + 1));
    }
  }

  lemma TopKeys(n: nat)
    ensures forall j: nat, x :: j < n && x in Vertices(TopQuads()(j)) ==> ColOf(x) == j || ColOf(x) == j + 1
  {
    forall j: nat, x | j < n && x in Vertices(TopQuads()(j))
      ensures ColOf(x) == j || ColOf(x) == j + 1
    {
      EdgeQuadVertices(Inner(0, j), Inner(0, j + 1), Outer(0, j), Outer(0, j + 1));
    }
  }

  lemma BottomKeys(e: nat, n: nat)
    ensures forall j: nat, x :: j < n && x in Vertices(BottomQuads(e)(j)) ==> ColOf(x) == j || ColOf(x) == j + 1
  {
    forall j: nat, x | j < n && x in Vertices(BottomQuads(e)(j))
      ensures ColOf(x) == j || ColOf(x) == j + 1
    {
      EdgeQuadVertices(Outer(e, j), Outer(e, j + 1), Inner(e, j), Inner(e, j + 1));
    }
  }

  lemma LeftKeys(n: nat)
    ensures forall k: nat, x :: k < n && x in Vertices(LeftQuads()(k)) ==> RowOf(x) == k || RowOf(x) == k + 1
  {
    forall k: nat, x | k < n && x in Vertices(LeftQuads()(k))
      ensures RowOf(x) == k || RowOf(x) == k + 1
    {
      EdgeQuadVertices(Outer(k, 0), Inner(k, 0), Outer(k + 1, 0), Inner(k + 1, 0));
    }
  }

  lemma RightKeys(e: nat, n: nat)
    ensures forall k: nat, x :: k < n && x in Vertices(RightQuads(e)(k)) ==> RowOf(x) == k || RowOf(x) == k + 1
  {
    forall k: nat, x | k < n && x in Vertices(RightQuads(e)(k))
      ensures RowOf(x) == k || RowOf(x) == k + 1
    {
      EdgeQuadVertices(Inner(k, e), Outer(k, e), Inner(k + 1, e), Outer(k + 1, e));
    }
  }

  // The counts of one piece of each strip, as a local term.

  lemma FrontQuadPiece(rows: nat, cols: nat, k: nat, j: int, u: PanelVertex, v: PanelVertex)
    requires cols >= 1 && k < rows - 1
    ensures PieceEdges(FrontRowQuads(k), cols - 1, j, u, v) == FrontTerm(rows, cols, k, j, u, v, false)
    ensures PieceDirs(FrontRowQuads(k), cols - 1, j, u, v) == FrontTerm(rows, cols, k, j, u, v, true)
    ensures PieceDirs(FrontRowQuads(k), cols - 1, j, v, u) == FrontTerm(rows, cols, k, j, v, u, true)
  {
    if 0 <= j < cols - 1 {
      QuadCounts(FrontQuad(k, j), u, v);
    }
  }

  lemma BackQuadPiece(rows: nat, cols: nat, k: nat, j: int, u: PanelVertex, v: PanelVertex)
    requires cols >= 1 && k < rows - 1
    ensures PieceEdges(BackRowQuads(k), cols - 1, j, u, v) == BackTerm(rows, cols, k, j, u, v, false)
    ensures PieceDirs(BackRowQuads(k), cols - 1, j, u, v) == BackTerm(rows, cols, k, j, u, v, true)
    ensures PieceDirs(BackRowQuads(k), cols - 1, j, v, u) == BackTerm(rows, cols, k, j, v, u, true)
  {
    if 0 <= j < cols - 1 {
      QuadCounts(BackQuad(k, j), u, v);
    }
  }

  lemma FrontRowPiece(rows: nat, cols: nat, k: int, u: PanelVertex, v: PanelVertex)
    requires rows >= 1 && cols >= 1
    ensures PieceEdges(FrontRows(cols - 1), rows - 1, k, u, v) == FrontRowSum(rows, cols, k, u.c, u, v, false)
    ensures PieceDirs(FrontRows(cols - 1), rows - 1, k, u, v) == FrontRowSum(rows, cols, k, u.c, u, v, true)
    ensures PieceDirs(FrontRows(cols - 1), rows - 1, k, v, u) == FrontRowSum(rows, cols, k, u.c, v, u, true)
  {
    if 0 <= k < rows - 1 {
      FrontColKeys(k, cols - 1);
      StripLocalByKey(FrontRowQuads(k), cols - 1, ColOf, u, v);
      FrontQuadPiece(rows, cols, k, u.c - 1, u, v);
      FrontQuadPiece(rows, cols, k, u.c, u, v);
    }
  }

  lemma BackRowPiece(rows: nat, cols: nat, k: int, u: PanelVertex, v: PanelVertex)
    requires rows >= 1 && cols >= 1
    ensures PieceEdges(BackRows(cols - 1), rows - 1, k, u, v) == BackRowSum(rows, cols, k, u.c, u, v, false)
    ensures PieceDirs(BackRows(cols - 1), rows - 1, k, u, v) == BackRowSum(rows, cols, k, u.c, u, v, true)
    ensures PieceDirs(BackRows(cols - 1), rows - 1, k, v, u) == BackRowSum(rows, cols, k, u.c, v, u, true)
  {
    if 0 <= k < rows - 1 {
      BackColKeys(k, cols - 1);
      StripLocalByKey(BackRowQuads(k), cols - 1, ColOf, u, v);
      BackQuadPiece(rows, cols, k, u.c - 1, u, v);
      BackQuadPiece(rows, cols, k, u.c, u, v);
    }
  }

  lemma TopPiece(cols: nat, j: int, u: PanelVertex, v: PanelVertex)
    requires cols >= 1
    ensures PieceEdges(TopQuads(), cols - 1, j, u, v) == TopTerm(cols, j, u, v, false)
    ensures PieceDirs(TopQuads(), cols - 1, j, u, v) == TopTerm(cols, j, u, v, true)
    ensures PieceDirs(TopQuads(), cols - 1, j, v, u) == TopTerm(cols, j, v, u, true)
  {
    if 0 <= j < cols - 1 {
      QuadCounts(TopQuad(j), u, v);
    }
  }

  lemma BottomPiece(rows: nat, cols: nat, j: int, u: PanelVertex, v: PanelVertex)
    requires rows >= 1 && cols >= 1
    ensures PieceEdges(BottomQuads(rows - 1), cols - 1, j, u, v) == BottomTerm(rows, cols, j, u, v, false)
    ensures PieceDirs(BottomQuads(rows - 1), cols - 1, j, u, v) == BottomTerm(rows, cols, j, u, v, true)
    ensures PieceDirs(BottomQuads(rows - 1), cols - 1, j, v, u) == BottomTerm(rows, cols, j, v, u, true)
  {
    if 0 <= j < cols - 1 {
      QuadCounts(BottomQuad(rows - 1, j), u, v);
    }
  }

  lemma LeftPiece(rows: nat, k: int, u: PanelVertex, v: PanelVertex)
    requires rows >= 1
    ensures PieceEdges(LeftQuads(), rows - 1, k, u, v) == LeftTerm(rows, k, u, v, false)
    ensures PieceDirs(LeftQuads(), rows - 1, k, u, v) == LeftTerm(rows, k, u, v, true)
    ensures PieceDirs(LeftQuads(), rows - 1, k, v, u) == LeftTerm(rows, k, v, u, true)
  {
    if 0 <= k < rows - 1 {
      QuadCounts(LeftQuad(k), u, v);
    }
  }

  lemma RightPiece(rows: nat, cols: nat, k: int, u: PanelVertex, v: PanelVertex)
    requires rows >= 1 && cols >= 1
    ensures PieceEdges(RightQuads(cols - 1), rows - 1, k, u, v) == RightTerm(rows, cols, k, u, v, false)
    ensures PieceDirs(RightQuads(cols - 1), rows - 1, k, u, v) == RightTerm(rows, cols, k, u, v, true)
    ensures PieceDirs(RightQuads(cols - 1), rows - 1, k, v, u) == RightTerm(rows, cols, k, v, u, true)
  {
    if 0 <= k < rows - 1 {
      QuadCounts(RightQuad(cols - 1, k), u, v);
    }
  }

  // The counts of each pass at u.

  lemma FrontLocal(rows: nat, cols: nat, u: PanelVertex, v: PanelVertex)
    requires rows >= 1 && cols >= 1
    ensures EdgeCount(Front(rows, cols), u, v) == FrontRowSum(rows, cols, u.r - 1, u.c, u, v, false) + FrontRowSum(rows, cols, u.r, u.c, u, v, false)
    ensures DirCount(Front(rows, cols), u, v) == FrontRowSum(rows, cols, u.r - 1, u.c, u, v, true) + FrontRowSum(rows, cols, u.r, u.c, u, v, true)
    ensures DirCount(Front(rows, cols), v, u) == FrontRowSum(rows, cols, u.r - 1, u.c, v, u, true) + FrontRowSum(rows, cols, u.r, u.c, v, u, true)
  {
    FrontRowKeys(rows - 1, cols - 1);
    StripLocalByKey(FrontRows(cols - 1), rows - 1, RowOf, u, v);
    FrontRowPiece(rows, cols, u.r - 1, u, v);
    FrontRowPiece(rows, cols, u.r, u, v);
  }

  lemma FrontPartLocal(rows: nat, cols: nat, u: PanelVertex, v: PanelVertex)
    requires rows >= 1 && cols >= 1
    ensures EdgeCount(Front(rows, cols), u, v) == FrontPart(rows, cols, u, u, v, false)
    ensures DirCount(Front(rows, cols), u, v) == FrontPart(rows, cols, u, u, v, true)
    ensures DirCount(Front(rows, cols), v, u) == FrontPart(rows, cols, u, v, u, true)
  {
    if u.Outer? {
      FrontLocal(rows, cols, u, v);
    } else {
      FrontAbsent(rows, cols, u, v);
    }
  }

  lemma BackLocal(rows: nat, cols: nat, u: PanelVertex, v: PanelVertex)
    requires rows >= 1 && cols >= 1
    ensures EdgeCount(Back(rows, cols), u, v) == BackRowSum(rows, cols, u.r - 1, u.c, u, v, false) + BackRowSum(rows, cols, u.r, u.c, u, v, false)
    ensures DirCount(Back(rows, cols), u, v) == BackRowSum(rows, cols, u.r - 1, u.c, u, v, true) + BackRowSum(rows, cols, u.r, u.c, u, v, true)
    ensures DirCount(Back(rows, cols), v, u) == BackRowSum(rows, cols, u.r - 1, u.c, v, u, true) + BackRowSum(rows, cols, u.r, u.c, v, u, true)
  {
    BackRowKeys(rows - 1, cols - 1);
    StripLocalByKey(BackRows(cols - 1), rows - 1, RowOf, u, v);
    BackRowPiece(rows, cols, u.r - 1, u, v);
    BackRowPiece(rows, cols, u.r, u, v);
  }

  lemma BackPartLocal(rows: nat, cols: nat, u: PanelVertex, v: PanelVertex)
    requires rows >= 1 && cols >= 1
    ensures EdgeCount(Back(rows, cols), u, v) == BackPart(rows, cols, u, u, v, false)
    ensures DirCount(Back(rows, cols), u, v) == BackPart(rows, cols, u, u, v, true)
    ensures DirCount(Back(rows, cols), v, u) == BackPart(rows, cols, u, v, u, true)
  {
    if u.Inner? {
      BackLocal(rows, cols, u, v);
    } else {
      BackAbsent(rows, cols, u, v);
    }
  }

  lemma TopLocal(cols: nat, u: PanelVertex, v: PanelVertex)
    requires cols >= 1
    ensures EdgeCount(Top(cols), u, v) == TopTerm(cols, u.c - 1, u, v, false) + TopTerm(cols, u.c, u, v, false)
    ensures DirCount(Top(cols), u, v) == TopTerm(cols, u.c - 1, u, v, true) + TopTerm(cols, u.c, u, v, true)
    ensures DirCount(Top(cols), v, u) == TopTerm(cols, u.c - 1, v, u, true) + TopTerm(cols, u.c, v, u, true)
  {
    TopKeys(cols - 1);
    StripLocalByKey(TopQuads(), cols - 1, ColOf, u, v);
    TopPiece(cols, u.c - 1, u, v);
    TopPiece(cols, u.c, u, v);
  }

  lemma TopPartLocal(cols: nat, u: PanelVertex, v: PanelVertex)
    requires cols >= 1
    ensures EdgeCount(Top(cols), u, v) == TopPart(cols, u, u, v, false)
    ensures DirCount(Top(cols), u, v) == TopPart(cols, u, u, v, true)
    ensures DirCount(Top(cols), v, u) == TopPart(cols, u, v, u, true)
  {
    if u.r == 0 {
      TopLocal(cols, u, v);
    } else {
      TopAbsent(cols, u, v);
    }
  }

  lemma BottomLocal(rows: nat, cols: nat, u: PanelVertex, v: PanelVertex)
    requires rows >= 1 && cols >= 1
    ensures EdgeCount(Bottom(rows, cols), u, v) == BottomTerm(rows, cols, u.c - 1, u, v, false) + BottomTerm(rows, cols, u.c, u, v, false)
    ensures DirCount(Bottom(rows, cols), u, v) == BottomTerm(rows, cols, u.c - 1, u, v, true) + BottomTerm(rows, cols, u.c, u, v, true)
    ensures DirCount(Bottom(rows, cols), v, u) == BottomTerm(rows, cols, u.c - 1, v, u, true) + BottomTerm(rows, cols, u.c, v, u, true)
  {
    BottomKeys(rows - 1, cols - 1);
    StripLocalByKey(BottomQuads(rows - 1), cols - 1, ColOf, u, v);
    BottomPiece(rows, cols, u.c - 1, u, v);
    BottomPiece(rows, cols, u.c, u, v);
  }

  lemma BottomPartLocal(rows: nat, cols: nat, u: PanelVertex, v: PanelVertex)
    requires rows >= 1 && cols >= 1
    ensures EdgeCount(Bottom(rows, cols), u, v) == BottomPart(rows, cols, u, u, v, false)
    ensures DirCount(Bottom(rows, cols), u, v) == BottomPart(rows, cols, u, u, v, true)
    ensures DirCount(Bottom(rows, cols), v, u) == BottomPart(rows, cols, u, v, u, true)
  {
    if u.r == rows - 1 {
      BottomLocal(rows, cols, u, v);
    } else {
      BottomAbsent(rows, cols, u, v);
    }
  }

  lemma LeftLocal(rows: nat, u: PanelVertex, v: PanelVertex)
    requires rows >= 1
    ensures EdgeCount(Left(rows), u, v) == LeftTerm(rows, u.r - 1, u, v, false) + LeftTerm(rows, u.r, u, v, false)
    ensures DirCount(Left(rows), u, v) == LeftTerm(rows, u.r - 1, u, v, true) + LeftTerm(rows, u.r, u, v, true)
    ensures DirCount(Left(rows), v, u) == LeftTerm(rows, u.r - 1, v, u, true) + LeftTerm(rows, u.r, v, u, true)
  {
    LeftKeys(rows - 1);
    StripLocalByKey(LeftQuads(), rows - 1, RowOf, u, v);
    LeftPiece(rows, u.r - 1, u, v);
    LeftPiece(rows, u.r, u, v);
  }

  lemma LeftPartLocal(rows: nat, u: PanelVertex, v: PanelVertex)
    requires rows >= 1
    ensures EdgeCount(Left(rows), u, v) == LeftPart(rows, u, u, v, false)
    ensures DirCount(Left(rows), u, v) == LeftPart(rows, u, u, v, true)
    ensures DirCount(Left(rows), v, u) == LeftPart(rows, u, v, u, true)
  {
    if u.c == 0 {
      LeftLocal(rows, u, v);
    } else {
      LeftAbsent(rows, u, v);
    }
  }

  lemma RightLocal(rows: nat, cols: nat, u: PanelVertex, v: PanelVertex)
    requires rows >= 1 && cols >= 1
    ensures EdgeCount(Right(rows, cols), u, v) == RightTerm(rows, cols, u.r - 1, u, v, false) + RightTerm(rows, cols, u.r, u, v, false)
    ensures DirCount(Right(rows, cols), u, v) == RightTerm(rows, cols, u.r - 1, u, v, true) + RightTerm(rows, cols, u.r, u, v, true)
    ensures DirCount(Right(rows, cols), v, u) == RightTerm(rows, cols, u.r - 1, v, u, true) + RightTerm(rows, cols, u.r, v, u, true)
  {
    RightKeys(cols - 1, rows - 1);
    StripLocalByKey(RightQuads(cols - 1), rows - 1, RowOf, u, v);
    RightPiece(rows, cols, u.r - 1, u, v);
    RightPiece(rows, cols, u.r, u, v);
  }

  lemma RightPartLocal(rows: nat, cols: nat, u: PanelVertex, v: PanelVertex)
    requires rows >= 1 && cols >= 1
    ensures EdgeCount(Right(rows, cols), u, v) == RightPart(rows, cols, u, u, v, false)
    ensures DirCount(Right(rows, cols), u, v) == RightPart(rows, cols, u, u, v, true)
    ensures DirCount(Right(rows, cols), v, u) == RightPart(rows, cols, u, v, u, true)
  {
    if u.c == cols - 1 {
      RightLocal(rows, cols, u, v);
    } else {
      RightAbsent(rows, cols, u, v);
    }
  }


  /** The counts of the whole panel are the sums of the counts of its passes. */
  lemma PassSum(rows: nat, cols: nat, u: PanelVertex, v: PanelVertex)
    requires rows >= 1 && cols >= 1
    ensures EdgeCount(PanelMesh(rows, cols), u, v)
      == EdgeCount(Front(rows, cols), u, v) + EdgeCount(Back(rows, cols), u, v) + EdgeCount(Top(cols), u, v)
       + EdgeCount(Bottom(rows, cols), u, v) + EdgeCount(Left(rows), u, v) + EdgeCount(Right(rows, cols), u, v)
    ensures DirCount(PanelMesh(rows, cols), u, v)
      == DirCount(Front(rows, cols), u, v) + DirCount(Back(rows, cols), u, v) + DirCount(Top(cols), u, v)
       + DirCount(Bottom(rows, cols), u, v) + DirCount(Left(rows), u, v) + DirCount(Right(rows, cols), u, v)
    ensures DirCount(PanelMesh(rows, cols), v, u)
      == DirCount(Front(rows, cols), v, u) + DirCount(Back(rows, cols), v, u) + DirCount(Top(cols), v, u)
       + DirCount(Bottom(rows, cols), v, u) + DirCount(Left(rows), v, u) + DirCount(Right(rows, cols), v, u)
  {
    var f, b, t := Front(rows, cols), Back(rows, cols), Top(cols);
    var bo, l, ri := Bottom(rows, cols), Left(rows), Right(rows, cols);
    assert PanelMesh(rows, cols) == f + b + t + bo + l + ri;
    CountsAppend(f, b, u, v);
    CountsAppend(f + b, t, u, v);
    CountsAppend(f + b + t, bo, u, v);
    CountsAppend(f + b + t + bo, l, u, v);
    CountsAppend(f + b + t + bo + l, ri, u, v);
  }

  /** Localisation for the whole panel: the count of edge {u, v} over all six
      passes is the count over the quads next to u. */
  lemma PanelLocal(rows: nat, cols: nat, u: PanelVertex, v: PanelVertex)
    requires rows >= 1 && cols >= 1
    ensures EdgeCount(PanelMesh(rows, cols), u, v) == LocalSum(rows, cols, u, u, v, false)
    ensures DirCount(PanelMesh(rows, cols), u, v) == LocalSum(rows, cols, u, u, v, true)
    ensures DirCount(PanelMesh(rows, cols), v, u) == LocalSum(rows, cols, u, v, u, true)
  {
    PassSum(rows, cols, u, v);
    FrontPartLocal(rows, cols, u, v);
    BackPartLocal(rows, cols, u, v);
    TopPartLocal(cols, u, v);
    BottomPartLocal(rows, cols, u, v);
    LeftPartLocal(rows, u, v);
    RightPartLocal(rows, cols, u, v);
  }

  // ---------------------------------------------------------------------------
  // Every kind of edge lies in exactly two triangles (rows, cols >= 2)

  /** Grid-row edge of the front: the quads above and below, or the top or
      bottom strip on the first and last row. */
  lemma OuterRowEdge(rows: nat, cols: nat, r: nat, c: nat)
    requires rows >= 2 && cols >= 2 && r < rows && c < cols - 1
    ensures EdgeCount(PanelMesh(rows, cols), Outer(r, c), Outer(r, c + 1)) == 2
    ensures EdgeCount(PanelMesh(rows, cols), Outer(r, c + 1), Outer(r, c)) == 2
  {
    PanelLocal(rows, cols, Outer(r, c), Outer(r, c + 1));
    EdgeCountSymmetric(PanelMesh(rows, cols), Outer(r, c), Outer(r, c + 1));
  }

  /** Grid-column edge of the front: the quads left and right, or the left or
      right strip on the first and last column. */
  lemma OuterColEdge(rows: nat, cols: nat, r: nat, c: nat)
    requires rows >= 2 && cols >= 2 && r < rows - 1 && c < cols
    ensures EdgeCount(PanelMesh(rows, cols), Outer(r, c), Outer(r + 1, c)) == 2
    ensures EdgeCount(PanelMesh(rows, cols), Outer(r + 1, c), Outer(r, c)) == 2
  {
    PanelLocal(rows, cols, Outer(r, c), Outer(r + 1, c));
    EdgeCountSymmetric(PanelMesh(rows, cols), Outer(r, c), Outer(r + 1, c));
  }

  /** The diagonal bl-tr of a front quad lies in its two triangles only. */
  lemma OuterDiagonal(rows: nat, cols: nat, r: nat, c: nat)
    requires rows >= 2 && cols >= 2 && r < rows - 1 && c < cols - 1
    ensures EdgeCount(PanelMesh(rows, cols), Outer(r + 1, c), Outer(r, c + 1)) == 2
    ensures EdgeCount(PanelMesh(rows, cols), Outer(r, c + 1), Outer(r + 1, c)) == 2
  {
    PanelLocal(rows, cols, Outer(r + 1, c), Outer(r, c + 1));
    EdgeCountSymmetric(PanelMesh(rows, cols), Outer(r + 1, c), Outer(r, c + 1));
  }

  lemma InnerRowEdge(rows: nat, cols: nat, r: nat, c: nat)
    requires rows >= 2 && cols >= 2 && r < rows && c < cols - 1
    ensures EdgeCount(PanelMesh(rows, cols), Inner(r, c), Inner(r, c + 1)) == 2
    ensures EdgeCount(PanelMesh(rows, cols), Inner(r, c + 1), Inner(r, c)) == 2
  {
    PanelLocal(rows, cols, Inner(r, c), Inner(r, c + 1));
    EdgeCountSymmetric(PanelMesh(rows, cols), Inner(r, c), Inner(r, c + 1));
  }

  lemma InnerColEdge(rows: nat, cols: nat, r: nat, c: nat)
    requires rows >= 2 && cols >= 2 && r < rows - 1 && c < cols
    ensures EdgeCount(PanelMesh(rows, cols), Inner(r, c), Inner(r + 1, c)) == 2
    ensures EdgeCount(PanelMesh(rows, cols), Inner(r + 1, c), Inner(r, c)) == 2
  {
    PanelLocal(rows, cols, Inner(r, c), Inner(r + 1, c));
    EdgeCountSymmetric(PanelMesh(rows, cols), Inner(r, c), Inner(r + 1, c));
  }

  lemma InnerDiagonal(rows: nat, cols: nat, r: nat, c: nat)
    requires rows >= 2 && cols >= 2 && r < rows - 1 && c < cols - 1
    ensures EdgeCount(PanelMesh(rows, cols), Inner(r + 1, c), Inner(r, c + 1)) == 2
    ensures EdgeCount(PanelMesh(rows, cols), Inner(r, c + 1), Inner(r + 1, c)) == 2
  {
    PanelLocal(rows, cols, Inner(r + 1, c), Inner(r, c + 1));
    EdgeCountSymmetric(PanelMesh(rows, cols), Inner(r + 1, c), Inner(r, c + 1));
  }

  /** A rung joins the back and front at a boundary grid point; it lies in the
      two edge-strip triangles there (one from each strip at a corner). */
  lemma Rung(rows: nat, cols: nat, r: nat, c: nat)
    requires rows >= 2 && cols >= 2 && r < rows && c < cols
    requires r == 0 || r == rows - 1 || c == 0 || c == cols - 1
    ensures EdgeCount(PanelMesh(rows, cols), Inner(r, c), Outer(r, c)) == 2
    ensures EdgeCount(PanelMesh(rows, cols), Outer(r, c), Inner(r, c)) == 2
  {
    PanelLocal(rows, cols, Inner(r, c), Outer(r, c));
    EdgeCountSymmetric(PanelMesh(rows, cols), Inner(r, c), Outer(r, c));
  }

  lemma TopDiagonal(rows: nat, cols: nat, c: nat)
    requires rows >= 2 && cols >= 2 && c < cols - 1
    ensures EdgeCount(PanelMesh(rows, cols), Inner(0, c + 1), Outer(0, c)) == 2
    ensures EdgeCount(PanelMesh(rows, cols), Outer(0, c), Inner(0, c + 1)) == 2
  {
    PanelLocal(rows, cols, Inner(0, c + 1), Outer(0, c));
    EdgeCountSymmetric(PanelMesh(rows, cols), Inner(0, c + 1), Outer(0, c));
  }

  lemma BottomDiagonal(rows: nat, cols: nat, c: nat)
    requires rows >= 2 && cols >= 2 && c < cols - 1
    ensures EdgeCount(PanelMesh(rows, cols), Outer(rows - 1, c + 1), Inner(rows - 1, c)) == 2
    ensures EdgeCount(PanelMesh(rows, cols), Inner(rows - 1, c), Outer(rows - 1, c + 1)) == 2
  {
    PanelLocal(rows, cols, Outer(rows - 1, c + 1), Inner(rows - 1, c));
    EdgeCountSymmetric(PanelMesh(rows, cols), Outer(rows - 1, c + 1), Inner(rows - 1, c));
  }

  lemma LeftDiagonal(rows: nat, cols: nat, r: nat)
    requires rows >= 2 && cols >= 2 && r < rows - 1
    ensures EdgeCount(PanelMesh(rows, cols), Outer(r + 1, 0), Inner(r, 0)) == 2
    ensures EdgeCount(PanelMesh(rows, cols), Inner(r, 0), Outer(r + 1, 0)) == 2
  {
    PanelLocal(rows, cols, Outer(r + 1, 0), Inner(r, 0));
    EdgeCountSymmetric(PanelMesh(rows, cols), Outer(r + 1, 0), Inner(r, 0));
  }

  lemma RightDiagonal(rows: nat, cols: nat, r: nat)
    requires rows >= 2 && cols >= 2 && r < rows - 1
    ensures EdgeCount(PanelMesh(rows, cols), Outer(r, cols - 1), Inner(r + 1, cols - 1)) == 2
    ensures EdgeCount(PanelMesh(rows, cols), Inner(r + 1, cols - 1), Outer(r, cols - 1)) == 2
  {
    PanelLocal(rows, cols, Outer(r, cols - 1), Inner(r + 1, cols - 1));
    EdgeCountSymmetric(PanelMesh(rows, cols), Outer(r, cols - 1), Inner(r + 1, cols - 1));
  }

  // ---------------------------------------------------------------------------
  // Every quad, and so every pass, has all its edges twice

  /** A quad wound like the back surface and edge strips is covered once its
      five distinct edges are. */
  lemma EdgeQuadEdges(m: seq<Triangle<PanelVertex>>, tl: PanelVertex, tr: PanelVertex, bl: PanelVertex, br: PanelVertex)
    requires EdgeCount(m, tl, tr) == 2 && EdgeCount(m, tr, bl) == 2 && EdgeCount(m, bl, tl) == 2
    requires EdgeCount(m, tr, br) == 2 && EdgeCount(m, br, bl) == 2 && EdgeCount(m, bl, tr) == 2
    ensures AllEdgesTwice(m, EdgeQuad(tl, tr, bl, br))
  {
    assert EdgesTwice(m, EdgeQuad(tl, tr, bl, br)[0]);
    assert EdgesTwice(m, EdgeQuad(tl, tr, bl, br)[1]);
  }

  lemma FrontQuadClosed(rows: nat, cols: nat, r: nat, c: nat)
    requires rows >= 2 && cols >= 2 && r < rows - 1 && c < cols - 1
    ensures AllEdgesTwice(PanelMesh(rows, cols), FrontQuad(r, c))
  {
    OuterRowEdge(rows, cols, r, c);
    OuterRowEdge(rows, cols, r + 1, c);
    OuterColEdge(rows, cols, r, c);
    OuterColEdge(rows, cols, r, c + 1);
    OuterDiagonal(rows, cols, r, c);
    assert EdgesTwice(PanelMesh(rows, cols), FrontQuad(r, c)[0]);
    assert EdgesTwice(PanelMesh(rows, cols), FrontQuad(r, c)[1]);
  }

  lemma BackQuadClosed(rows: nat, cols: nat, r: nat, c: nat)
    requires rows >= 2 && cols >= 2 && r < rows - 1 && c < cols - 1
    ensures AllEdgesTwice(PanelMesh(rows, cols), BackQuad(r, c))
  {
    InnerRowEdge(rows, cols, r, c);
    InnerRowEdge(rows, cols, r + 1, c);
    InnerColEdge(rows, cols, r, c);
    InnerColEdge(rows, cols, r, c + 1);
    InnerDiagonal(rows, cols, r, c);
    EdgeQuadEdges(PanelMesh(rows, cols), Inner(r, c), Inner(r, c + 1), Inner(r + 1, c), Inner(r + 1, c + 1));
  }

  lemma TopQuadClosed(rows: nat, cols: nat, c: nat)
    requires rows >= 2 && cols >= 2 && c < cols - 1
    ensures AllEdgesTwice(PanelMesh(rows, cols), TopQuad(c))
  {
    InnerRowEdge(rows, cols, 0, c);
    OuterRowEdge(rows, cols, 0, c);
    Rung(rows, cols, 0, c);
    Rung(rows, cols, 0, c + 1);
    TopDiagonal(rows, cols, c);
    EdgeQuadEdges(PanelMesh(rows, cols), Inner(0, c), Inner(0, c + 1), Outer(0, c), Outer(0, c + 1));
  }

  lemma BottomQuadClosed(rows: nat, cols: nat, c: nat)
    requires rows >= 2 && cols >= 2 && c < cols - 1
    ensures AllEdgesTwice(PanelMesh(rows, cols), BottomQuad(rows - 1, c))
  {
    var e := rows - 1;
    InnerRowEdge(rows, cols, e, c);
    OuterRowEdge(rows, cols, e, c);
    Rung(rows, cols, e, c);
    Rung(rows, cols, e, c + 1);
    BottomDiagonal(rows, cols, c);
    EdgeQuadEdges(PanelMesh(rows, cols), Outer(e, c), Outer(e, c + 1), Inner(e, c), Inner(e, c + 1));
  }

  lemma LeftQuadClosed(rows: nat, cols: nat, r: nat)
    requires rows >= 2 && cols >= 2 && r < rows - 1
    ensures AllEdgesTwice(PanelMesh(rows, cols), LeftQuad(r))
  {
    InnerColEdge(rows, cols, r, 0);
    OuterColEdge(rows, cols, r, 0);
    Rung(rows, cols, r, 0);
    Rung(rows, cols, r + 1, 0);
    LeftDiagonal(rows, cols, r);
    EdgeQuadEdges(PanelMesh(rows, cols), Outer(r, 0), Inner(r, 0), Outer(r + 1, 0), Inner(r + 1, 0));
  }

  lemma RightQuadClosed(rows: nat, cols: nat, r: nat)
    requires rows >= 2 && cols >= 2 && r < rows - 1
    ensures AllEdgesTwice(PanelMesh(rows, cols), RightQuad(cols - 1, r))
  {
    var e := cols - 1;
    InnerColEdge(rows, cols, r, e);
    OuterColEdge(rows, cols, r, e);
    Rung(rows, cols, r, e);
    Rung(rows, cols, r + 1, e);
    RightDiagonal(rows, cols, r);
    EdgeQuadEdges(PanelMesh(rows, cols), Inner(r, e), Outer(r, e), Inner(r + 1, e), Outer(r + 1, e));
  }

  lemma FrontEdgesTwice(rows: nat, cols: nat)
    requires rows >= 2 && cols >= 2
    ensures AllEdgesTwice(PanelMesh(rows, cols), Front(rows, cols))
  {
    var m, n := PanelMesh(rows, cols), cols - 1;
    forall r: nat | r < rows - 1
      ensures AllEdgesTwice(m, FrontRows(n)(r))
    {
      forall c: nat | c < n
        ensures AllEdgesTwice(m, FrontRowQuads(r)(c))
      {
        FrontQuadClosed(rows, cols, r, c);
      }
      StripAllEdgesTwice(m, FrontRowQuads(r), n);
    }
    StripAllEdgesTwice(m, FrontRows(n), rows - 1);
  }

  lemma BackEdgesTwice(rows: nat, cols: nat)
    requires rows >= 2 && cols >= 2
    ensures AllEdgesTwice(PanelMesh(rows, cols), Back(rows, cols))
  {
    var m, n := PanelMesh(rows, cols), cols - 1;
    forall r: nat | r < rows - 1
      ensures AllEdgesTwice(m, BackRows(n)(r))
    {
      forall c: nat | c < n
        ensures AllEdgesTwice(m, BackRowQuads(r)(c))
      {
        BackQuadClosed(rows, cols, r, c);
      }
      StripAllEdgesTwice(m, BackRowQuads(r), n);
    }
    StripAllEdgesTwice(m, BackRows(n), rows - 1);
  }

  lemma RimEdgesTwice(rows: nat, cols: nat)
    requires rows >= 2 && cols >= 2
    ensures AllEdgesTwice(PanelMesh(rows, cols), Top(cols))
    ensures AllEdgesTwice(PanelMesh(rows, cols), Bottom(rows, cols))
    ensures AllEdgesTwice(PanelMesh(rows, cols), Left(rows))
    ensures AllEdgesTwice(PanelMesh(rows, cols), Right(rows, cols))
  {
    var m, e, f := PanelMesh(rows, cols), rows - 1, cols - 1;
    forall c: nat | c < f ensures AllEdgesTwice(m, TopQuads()(c)) {
      TopQuadClosed(rows, cols, c);
    }
    StripAllEdgesTwice(m, TopQuads(), f);
    forall c: nat | c < f ensures AllEdgesTwice(m, BottomQuads(e)(c)) {
      BottomQuadClosed(rows, cols, c);
    }
    StripAllEdgesTwice(m, BottomQuads(e), f);
    forall r: nat | r < e ensures AllEdgesTwice(m, LeftQuads()(r)) {
      LeftQuadClosed(rows, cols, r);
    }
    StripAllEdgesTwice(m, LeftQuads(), e);
    forall r: nat | r < e ensures AllEdgesTwice(m, RightQuads(f)(r)) {
      RightQuadClosed(rows, cols, r);
    }
    StripAllEdgesTwice(m, RightQuads(f), e);
  }

  /** With at least two rows and two columns the six passes form a closed
      surface: every edge of every emitted triangle lies in exactly two
      emitted triangles. */
  lemma PanelClosed(rows: nat, cols: nat)
    requires rows >= 2 && cols >= 2
    ensures Closed(PanelMesh(rows, cols))
  {
    var m := PanelMesh(rows, cols);
    FrontEdgesTwice(rows, cols);
    BackEdgesTwice(rows, cols);
    RimEdgesTwice(rows, cols);
    var f, b, t, bo, l, ri := Front(rows, cols), Back(rows, cols), Top(cols), Bottom(rows, cols), Left(rows), Right(rows, cols);
    AllEdgesTwiceAppend(m, f, b);
    AllEdgesTwiceAppend(m, f + b, t);
    AllEdgesTwiceAppend(m, f + b + t, bo);
    AllEdgesTwiceAppend(m, f + b + t + bo, l);
    AllEdgesTwiceAppend(m, f + b + t + bo + l, ri);
  }
}
