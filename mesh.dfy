/** Triangle meshes over abstract vertex labels.

    A triangle is an ordered triple of labels; its winding is the cyclic
    order a -> b -> c -> a. An undirected edge {u, v} lies in a triangle
    when the triangle traverses it in either direction. */
module Mesh {

  datatype Triangle<V> = Tri(a: V, b: V, c: V)

  /** The same corners wound the other way round. */
  function Reversed<V>(t: Triangle<V>): (r: Triangle<V>)
    ensures r.a == t.a && {r.b, r.c} == {t.b, t.c}
  {
    Tri(t.a, t.c, t.b)
  }

  predicate IsCorner<V(==)>(t: Triangle<V>, w: V) {
    w == t.a || w == t.b || w == t.c
  }

  /** t traverses u -> v along its boundary. */
  predicate HasDirectedEdge<V(==)>(t: Triangle<V>, u: V, v: V) {
    (t.a == u && t.b == v) || (t.b == u && t.c == v) || (t.c == u && t.a == v)
  }

  predicate HasEdge<V(==)>(t: Triangle<V>, u: V, v: V) {
    HasDirectedEdge(t, u, v) || HasDirectedEdge(t, v, u)
  }

  /** Every label used as a corner by some triangle of m. */
  function Vertices<V>(m: seq<Triangle<V>>): set<V> {
    if m == [] then {} else Vertices(m[..|m| - 1]) + {m[|m| - 1].a, m[|m| - 1].b, m[|m| - 1].c}
  }

  /** Number of triangles of m that have {u, v} as an edge. */
  function EdgeCount<V(==)>(m: seq<Triangle<V>>, u: V, v: V): nat {
    if m == [] then 0
    else EdgeCount(m[..|m| - 1], u, v) + (if HasEdge(m[|m| - 1], u, v) then 1 else 0)
  }

  /** Number of triangles of m that traverse u -> v. */
  function DirCount<V(==)>(m: seq<Triangle<V>>, u: V, v: V): nat {
    if m == [] then 0
    else DirCount(m[..|m| - 1], u, v) + (if HasDirectedEdge(m[|m| - 1], u, v) then 1 else 0)
  }

  /** Each of the three edges of t lies in exactly two triangles of m. */
  ghost predicate EdgesTwice<V>(m: seq<Triangle<V>>, t: Triangle<V>) {
    EdgeCount(m, t.a, t.b) == 2 && EdgeCount(m, t.b, t.c) == 2 && EdgeCount(m, t.c, t.a) == 2
  }

  ghost predicate AllEdgesTwice<V>(m: seq<Triangle<V>>, part: seq<Triangle<V>>) {
    forall i | 0 <= i < |part| :: EdgesTwice(m, part[i])
  }

  /** Every edge of every triangle lies in exactly two triangles. */
  ghost predicate Closed<V>(m: seq<Triangle<V>>) {
    AllEdgesTwice(m, m)
  }

  /** u -> v is traversed once and v -> u once. */
  predicate OppositelyPaired<V(==)>(m: seq<Triangle<V>>, u: V, v: V) {
    DirCount(m, u, v) == 1 && DirCount(m, v, u) == 1
  }

  /** Every directed edge of every triangle is matched by exactly one
      traversal in the opposite direction and is itself traversed once. */
  ghost predicate ConsistentlyOriented<V>(m: seq<Triangle<V>>) {
    forall i | 0 <= i < |m| ::
      OppositelyPaired(m, m[i].a, m[i].b) && OppositelyPaired(m, m[i].b, m[i].c) && OppositelyPaired(m, m[i].c, m[i].a)
  }

  /** Relabels every corner. */
  function MapTriangles<V, W>(f: V -> W, m: seq<Triangle<V>>): (r: seq<Triangle<W>>)
    ensures |r| == |m|
    ensures forall i :: 0 <= i < |m| ==> r[i] == Tri(f(m[i].a), f(m[i].b), f(m[i].c))
  {
    if m == [] then [] else MapTriangles(f, m[..|m| - 1]) + [Tri(f(m[|m| - 1].a), f(m[|m| - 1].b), f(m[|m| - 1].c))]
  }

  function ReverseAll<V>(m: seq<Triangle<V>>): (r: seq<Triangle<V>>)
    ensures |r| == |m|
    ensures forall i :: 0 <= i < |m| ==> r[i] == Reversed(m[i])
  {
    if m == [] then [] else ReverseAll(m[..|m| - 1]) + [Reversed(m[|m| - 1])]
  }

  lemma {:induction false} CountsAppend<V>(x: seq<Triangle<V>>, y: seq<Triangle<V>>, u: V, v: V)
    ensures EdgeCount(x + y, u, v) == EdgeCount(x, u, v) + EdgeCount(y, u, v)
    ensures DirCount(x + y, u, v) == DirCount(x, u, v) + DirCount(y, u, v)
    ensures DirCount(x + y, v, u) == DirCount(x, v, u) + DirCount(y, v, u)
    ensures Vertices(x + y) == Vertices(x) + Vertices(y)
    decreases |y|
  {
    if y == [] {
      assert x + y == x;
    } else {
      var y' := y[..|y| - 1];
      assert (x + y)[..|x + y| - 1] == x + y';
      assert (x + y)[|x + y| - 1] == y[|y| - 1];
      CountsAppend(x, y', u, v);
    }
  }

  lemma {:induction false} CornerIsVertex<V>(m: seq<Triangle<V>>, i: nat, w: V)
    requires i < |m| && IsCorner(m[i], w)
    ensures w in Vertices(m)
    decreases |m|
  {
    if i < |m| - 1 {
      assert m[..|m| - 1][i] == m[i];
      CornerIsVertex(m[..|m| - 1], i, w);
    }
  }

  /** A vertex is a corner of some triangle. */
  lemma {:induction false} VertexIsCorner<V>(m: seq<Triangle<V>>, w: V) returns (i: nat)
    requires w in Vertices(m)
    ensures i < |m| && IsCorner(m[i], w)
    decreases |m|
  {
    if w in {m[|m| - 1].a, m[|m| - 1].b, m[|m| - 1].c} {
      i := |m| - 1;
    } else {
      i := VertexIsCorner(m[..|m| - 1], w);
    }
  }

  /** A label that is not a corner of m lies on no edge of m. */
  lemma {:induction false} AbsentVertex<V>(m: seq<Triangle<V>>, u: V, v: V)
    requires u !in Vertices(m) || v !in Vertices(m)
    ensures EdgeCount(m, u, v) == 0 && EdgeCount(m, v, u) == 0
    ensures DirCount(m, u, v) == 0 && DirCount(m, v, u) == 0
    decreases |m|
  {
    if m != [] {
      AbsentVertex(m[..|m| - 1], u, v);
    }
  }

  lemma {:induction false} EdgeCountSymmetric<V>(m: seq<Triangle<V>>, u: V, v: V)
    ensures EdgeCount(m, u, v) == EdgeCount(m, v, u)
    decreases |m|
  {
    if m != [] {
      EdgeCountSymmetric(m[..|m| - 1], u, v);
    }
  }

  /** Two closed meshes that share no vertex form a closed mesh. */
  lemma ClosedAppend<V>(x: seq<Triangle<V>>, y: seq<Triangle<V>>)
    requires Closed(x) && Closed(y)
    requires Vertices(x) !! Vertices(y)
    ensures Closed(x + y)
  {
    forall i | 0 <= i < |x + y|
      ensures EdgesTwice(x + y, (x + y)[i])
    {
      var t := (x + y)[i];
      CountsAppend(x, y, t.a, t.b);
      CountsAppend(x, y, t.b, t.c);
      CountsAppend(x, y, t.c, t.a);
      if i < |x| {
        assert x[i] == t;
        CornerIsVertex(x, i, t.a);
        CornerIsVertex(x, i, t.b);
        CornerIsVertex(x, i, t.c);
        AbsentVertex(y, t.a, t.b);
        AbsentVertex(y, t.b, t.c);
        AbsentVertex(y, t.c, t.a);
      } else {
        assert y[i - |x|] == t;
        CornerIsVertex(y, i - |x|, t.a);
        CornerIsVertex(y, i - |x|, t.b);
        CornerIsVertex(y, i - |x|, t.c);
        AbsentVertex(x, t.a, t.b);
        AbsentVertex(x, t.b, t.c);
        AbsentVertex(x, t.c, t.a);
      }
    }
  }

  lemma AllEdgesTwiceAppend<V>(m: seq<Triangle<V>>, x: seq<Triangle<V>>, y: seq<Triangle<V>>)
    requires AllEdgesTwice(m, x) && AllEdgesTwice(m, y)
    ensures AllEdgesTwice(m, x + y)
  {
    forall i | 0 <= i < |x + y|
      ensures EdgesTwice(m, (x + y)[i])
    {
      if i < |x| {
        assert (x + y)[i] == x[i];
      } else {
        assert (x + y)[i] == y[i - |x|];
      }
    }
  }

  /** The counts of a two-triangle piece, as every quad of the mesh builders is. */
  lemma PairCounts<V>(t1: Triangle<V>, t2: Triangle<V>, u: V, v: V)
    ensures EdgeCount([t1, t2], u, v) == (if HasEdge(t1, u, v) then 1 else 0) + (if HasEdge(t2, u, v) then 1 else 0)
    ensures DirCount([t1, t2], u, v) == (if HasDirectedEdge(t1, u, v) then 1 else 0) + (if HasDirectedEdge(t2, u, v) then 1 else 0)
    ensures DirCount([t1, t2], v, u) == (if HasDirectedEdge(t1, v, u) then 1 else 0) + (if HasDirectedEdge(t2, v, u) then 1 else 0)
    ensures Vertices([t1, t2]) == {t1.a, t1.b, t1.c, t2.a, t2.b, t2.c}
  {
    var m := [t1, t2];
    assert m[..1] == [t1];
    assert [t1][..0] == [];
    assert EdgeCount([t1], u, v) == (if HasEdge(t1, u, v) then 1 else 0);
    assert DirCount([t1], u, v) == (if HasDirectedEdge(t1, u, v) then 1 else 0);
    assert DirCount([t1], v, u) == (if HasDirectedEdge(t1, v, u) then 1 else 0);
    assert Vertices([t1]) == {t1.a, t1.b, t1.c};
  }

  /** 1 when t has the edge (directed: traverses u -> v), else 0. */
  function Hit<V(==)>(t: Triangle<V>, u: V, v: V, directed: bool): nat {
    if (if directed then HasDirectedEdge(t, u, v) else HasEdge(t, u, v)) then 1 else 0
  }

  /** The count of a two-triangle piece, triangle by triangle. */
  function QuadCount<V(==)>(q: seq<Triangle<V>>, u: V, v: V, directed: bool): nat
    requires |q| == 2
  {
    Hit(q[0], u, v, directed) + Hit(q[1], u, v, directed)
  }

  lemma QuadCounts<V>(q: seq<Triangle<V>>, u: V, v: V)
    requires |q| == 2
    ensures EdgeCount(q, u, v) == QuadCount(q, u, v, false)
    ensures DirCount(q, u, v) == QuadCount(q, u, v, true)
    ensures DirCount(q, v, u) == QuadCount(q, v, u, true)
  {
    assert q == [q[0], q[1]];
    PairCounts(q[0], q[1], u, v);
  }

  // ---------------------------------------------------------------------------
  // Strips: meshes built by emitting piece(0), piece(1), ..., piece(n - 1).
  // Every nested `for` loop of the mesh builders produces such a strip.

  function Strip<V>(piece: nat -> seq<Triangle<V>>, n: nat): seq<Triangle<V>>
    decreases n
  {
    if n == 0 then [] else Strip(piece, n - 1) + piece(n - 1)
  }

  lemma {:induction false} StripLength<V>(piece: nat -> seq<Triangle<V>>, n: nat, w: nat)
    requires forall k: nat :: k < n ==> |piece(k)| == w
    ensures |Strip(piece, n)| == n * w
    decreases n
  {
    if n > 0 {
      StripLength(piece, n - 1, w);
    }
  }

  /** Every vertex of a strip comes from one of its pieces. */
  lemma {:induction false} StripVertex<V>(piece: nat -> seq<Triangle<V>>, n: nat, u: V) returns (k: nat)
    requires u in Vertices(Strip(piece, n))
    ensures k < n && u in Vertices(piece(k))
    decreases n
  {
    CountsAppend(Strip(piece, n - 1), piece(n - 1), u, u);
    if u in Vertices(piece(n - 1)) {
      k := n - 1;
    } else {
      k := StripVertex(piece, n - 1, u);
    }
  }

  /** The count contributed by piece k of an n-piece strip (zero when k is out of range). */
  function PieceEdges<V(==)>(piece: nat -> seq<Triangle<V>>, n: nat, k: int, u: V, v: V): nat {
    if 0 <= k < n then EdgeCount(piece(k), u, v) else 0
  }

  function PieceDirs<V(==)>(piece: nat -> seq<Triangle<V>>, n: nat, k: int, u: V, v: V): nat {
    if 0 <= k < n then DirCount(piece(k), u, v) else 0
  }

  /** Localisation: when u can only be a corner of pieces k1 and k2, the counts
      of the whole strip at u are those of these two pieces. */
  lemma {:induction false} StripLocal<V>(piece: nat -> seq<Triangle<V>>, n: nat, u: V, v: V, k1: int, k2: int)
    requires k1 != k2
    requires forall k: nat :: k < n && k != k1 && k != k2 ==> u !in Vertices(piece(k))
    ensures EdgeCount(Strip(piece, n), u, v) == PieceEdges(piece, n, k1, u, v) + PieceEdges(piece, n, k2, u, v)
    ensures DirCount(Strip(piece, n), u, v) == PieceDirs(piece, n, k1, u, v) + PieceDirs(piece, n, k2, u, v)
    ensures DirCount(Strip(piece, n), v, u) == PieceDirs(piece, n, k1, v, u) + PieceDirs(piece, n, k2, v, u)
    decreases n
  {
    if n > 0 {
      StripLocal(piece, n - 1, u, v, k1, k2);
      CountsAppend(Strip(piece, n - 1), piece(n - 1), u, v);
      if n - 1 != k1 && n - 1 != k2 {
        AbsentVertex(piece(n - 1), u, v);
      }
    }
  }

  lemma {:induction false} StripAllEdgesTwice<V>(m: seq<Triangle<V>>, piece: nat -> seq<Triangle<V>>, n: nat)
    requires forall k: nat :: k < n ==> AllEdgesTwice(m, piece(k))
    ensures AllEdgesTwice(m, Strip(piece, n))
    decreases n
  {
    if n > 0 {
      StripAllEdgesTwice(m, piece, n - 1);
      AllEdgesTwiceAppend(m, Strip(piece, n - 1), piece(n - 1));
    }
  }

  /** Localisation by key: when every vertex of piece k has key k or k + 1,
      the counts of the strip at u come from pieces key(u) - 1 and key(u). */
  lemma StripLocalByKey<V>(piece: nat -> seq<Triangle<V>>, n: nat, key: V -> int, u: V, v: V)
    requires forall k: nat, x :: k < n && x in Vertices(piece(k)) ==> key(x) == k || key(x) == k + 1
    ensures EdgeCount(Strip(piece, n), u, v) == PieceEdges(piece, n, key(u) - 1, u, v) + PieceEdges(piece, n, key(u), u, v)
    ensures DirCount(Strip(piece, n), u, v) == PieceDirs(piece, n, key(u) - 1, u, v) + PieceDirs(piece, n, key(u), u, v)
    ensures DirCount(Strip(piece, n), v, u) == PieceDirs(piece, n, key(u) - 1, v, u) + PieceDirs(piece, n, key(u), v, u)
  {
    StripLocal(piece, n, u, v, key(u) - 1, key(u));
  }

  lemma {:induction false} StripMember<V>(piece: nat -> seq<Triangle<V>>, n: nat, k: nat, t: Triangle<V>)
    requires k < n && t in piece(k)
    ensures t in Strip(piece, n)
    decreases n
  {
    if k < n - 1 {
      StripMember(piece, n - 1, k, t);
    }
  }

  /** One triangle with an edge not shared by exactly two triangles is enough
      to make a mesh open. */
  lemma NotClosedWitness<V>(m: seq<Triangle<V>>, t: Triangle<V>)
    requires t in m && EdgeCount(m, t.a, t.b) != 2
    ensures !Closed(m)
  {
    var i :| 0 <= i < |m| && m[i] == t;
    assert !EdgesTwice(m, m[i]);
  }

  /** One directed edge traversed other than once is enough to break
      consistent orientation. */
  lemma NotOrientedWitness<V>(m: seq<Triangle<V>>, t: Triangle<V>)
    requires t in m && (DirCount(m, t.a, t.b) != 1 || DirCount(m, t.b, t.c) != 1 || DirCount(m, t.c, t.a) != 1)
    ensures !ConsistentlyOriented(m)
  {
    var i :| 0 <= i < |m| && m[i] == t;
    assert !(OppositelyPaired(m, m[i].a, m[i].b) && OppositelyPaired(m, m[i].b, m[i].c) && OppositelyPaired(m, m[i].c, m[i].a));
  }

  lemma MapReverseAppend<V, W>(f: V -> W, x: seq<Triangle<V>>, y: seq<Triangle<V>>)
    ensures ReverseAll(MapTriangles(f, x + y)) == ReverseAll(MapTriangles(f, x)) + ReverseAll(MapTriangles(f, y))
  {
    var l := ReverseAll(MapTriangles(f, x + y));
    var r := ReverseAll(MapTriangles(f, x)) + ReverseAll(MapTriangles(f, y));
    assert |l| == |r|;
    forall i | 0 <= i < |l|
      ensures l[i] == r[i]
    {
      var t := (x + y)[i];
      assert l[i] == Reversed(Tri(f(t.a), f(t.b), f(t.c)));
      if i < |x| {
        assert t == x[i];
        assert r[i] == ReverseAll(MapTriangles(f, x))[i];
      } else {
        assert t == y[i - |x|];
        assert r[i] == ReverseAll(MapTriangles(f, y))[i - |x|];
      }
    }
  }

  /** A strip whose every piece is the relabelled reversal of another strip's
      piece is the relabelled reversal of that strip. */
  lemma {:induction false} StripMapReverse<V, W>(f: V -> W, piece: nat -> seq<Triangle<V>>, image: nat -> seq<Triangle<W>>, n: nat)
    requires forall k: nat :: k < n ==> image(k) == ReverseAll(MapTriangles(f, piece(k)))
    ensures Strip(image, n) == ReverseAll(MapTriangles(f, Strip(piece, n)))
    decreases n
  {
    if n > 0 {
      StripMapReverse(f, piece, image, n - 1);
      MapReverseAppend(f, Strip(piece, n - 1), piece(n - 1));
    }
  }
}
