/** The binary STL layout both scripts write: 80 zero header bytes, the
    triangle count as a little-endian unsigned 32-bit integer, then one
    50-byte record per triangle (a zero normal, the three corners in the
    triangle's own order, a zero attribute word).

    Coordinates arrive already rounded to float32: a value of type F32 is
    the four bytes that `struct.pack('<f', x)` writes for x. How a real
    coordinate becomes those bytes is not modelled. */
module Stl {
  import opened Mesh

  newtype byte = x: int | 0 <= x < 256

  datatype Option<T> = None | Some(value: T)

  /** A float32 as its little-endian byte image. */
  datatype F32 = F32(b0: byte, b1: byte, b2: byte, b3: byte)

  /** IEEE 754 single-precision +0.0 has every bit clear. */
  const PositiveZero: F32 := F32(0, 0, 0, 0)

  datatype Vec3 = Vec3(x: F32, y: F32, z: F32)

  /** The dummy normal `(0.0, 0.0, 0.0)` written before every triangle. */
  const ZeroNormal: Vec3 := Vec3(PositiveZero, PositiveZero, PositiveZero)

  const HeaderSize: nat := 80
  const CountSize: nat := 4
  const RecordSize: nat := 50
  /** `struct.pack('<I', n)` accepts exactly 0 <= n < 2^32. */
  const U32Limit: nat := 0x1_0000_0000

  function Zeros(n: nat): (r: seq<byte>)
    ensures |r| == n && forall i :: 0 <= i < n ==> r[i] == 0
  {
    seq(n, _ => 0)
  }

  function Header(): (r: seq<byte>)
    ensures |r| == HeaderSize
  {
    Zeros(HeaderSize)
  }

  // ---------------------------------------------------------------------------
  // The count field

  function U32LE(n: nat): (r: seq<byte>)
    requires n < U32Limit
    ensures |r| == CountSize
  {
    [(n % 0x100) as byte, (n / 0x100 % 0x100) as byte, (n / 0x1_0000 % 0x100) as byte, (n / 0x100_0000) as byte]
  }

  function DecodeU32LE(b: seq<byte>): (n: nat)
    requires |b| == CountSize
    ensures n < U32Limit
  {
    b[0] as int + 0x100 * b[1] as int + 0x1_0000 * b[2] as int + 0x100_0000 * b[3] as int
  }

  lemma U32RoundTrip(n: nat)
    requires n < U32Limit
    ensures DecodeU32LE(U32LE(n)) == n
  {
    var q1 := n / 0x100;
    var q2 := q1 / 0x100;
    var q3 := q2 / 0x100;
    assert n == n % 0x100 + 0x100 * q1;
    assert q1 == q1 % 0x100 + 0x100 * q2;
    assert q2 == q2 % 0x100 + 0x100 * q3;
    assert n / 0x1_0000 == q2;
    assert n / 0x100_0000 == q3;
  }

  /** Every four-byte count field is the encoding of the count it decodes to. */
  lemma U32RoundTripBytes(b: seq<byte>)
    requires |b| == CountSize
    ensures U32LE(DecodeU32LE(b)) == b
  {
    var n := DecodeU32LE(b);
    var hi := b[1] as int + 0x100 * b[2] as int + 0x1_0000 * b[3] as int;
    assert n == b[0] as int + 0x100 * hi;
    assert n % 0x100 == b[0] as int && n / 0x100 == hi;
    var hi2 := b[2] as int + 0x100 * b[3] as int;
    assert hi == b[1] as int + 0x100 * hi2;
    assert hi % 0x100 == b[1] as int && hi / 0x100 == hi2;
    assert n / 0x1_0000 == hi2;
    assert hi2 % 0x100 == b[2] as int && hi2 / 0x100 == b[3] as int;
    assert n / 0x100_0000 == b[3] as int;
  }

  // ---------------------------------------------------------------------------
  // Records

  function F32Bytes(f: F32): (r: seq<byte>)
    ensures |r| == 4
  {
    [f.b0, f.b1, f.b2, f.b3]
  }

  /** `struct.pack('<3f', x, y, z)` */
  function Vec3Bytes(p: Vec3): (r: seq<byte>)
    ensures |r| == 12
  {
    F32Bytes(p.x) + F32Bytes(p.y) + F32Bytes(p.z)
  }

  /** The bytes written for a sequence of points, one after the other. */
  function PointsBytes(ps: seq<Vec3>): (r: seq<byte>)
    ensures |r| == 12 * |ps|
  {
    if ps == [] then [] else PointsBytes(ps[..|ps| - 1]) + Vec3Bytes(ps[|ps| - 1])
  }

  function Record(t: Triangle<Vec3>): (r: seq<byte>)
    ensures |r| == RecordSize
  {
    Vec3Bytes(ZeroNormal) + Vec3Bytes(t.a) + Vec3Bytes(t.b) + Vec3Bytes(t.c) + [0, 0]
  }

  function Records(m: seq<Triangle<Vec3>>): (r: seq<byte>)
    ensures |r| == RecordSize * |m|
  {
    if m == [] then [] else Records(m[..|m| - 1]) + Record(m[|m| - 1])
  }

  /** The whole file for a mesh whose size fits the count field. */
  function StlFile(m: seq<Triangle<Vec3>>): (r: seq<byte>)
    requires |m| < U32Limit
    ensures |r| == HeaderSize + CountSize + RecordSize * |m|
    ensures r[..HeaderSize] == Zeros(HeaderSize)
  {
    Header() + U32LE(|m|) + Records(m)
  }

  // ---------------------------------------------------------------------------
  // Reading a file back

  function ReadF32(b: seq<byte>): F32
    requires |b| == 4
  {
    F32(b[0], b[1], b[2], b[3])
  }

  function ReadVec3(b: seq<byte>): Vec3
    requires |b| == 12
  {
    Vec3(ReadF32(b[0..4]), ReadF32(b[4..8]), ReadF32(b[8..12]))
  }

  /** The three corners of one record; the normal and attribute are ignored. */
  function ReadRecord(b: seq<byte>): Triangle<Vec3>
    requires |b| == RecordSize
  {
    Tri(ReadVec3(b[12..24]), ReadVec3(b[24..36]), ReadVec3(b[36..48]))
  }

  function ReadRecords(b: seq<byte>): (m: seq<Triangle<Vec3>>)
    requires |b| % RecordSize == 0
    ensures RecordSize * |m| == |b|
  {
    if b == [] then [] else ReadRecords(b[..|b| - RecordSize]) + [ReadRecord(b[|b| - RecordSize..])]
  }

  /** Reads a file: None unless the length agrees with the stored count. */
  function ParseStl(b: seq<byte>): (r: Option<seq<Triangle<Vec3>>>)
    ensures r.Some? ==> |b| == HeaderSize + CountSize + RecordSize * |r.value|
    ensures r.Some? ==> DecodeU32LE(b[HeaderSize..HeaderSize + CountSize]) == |r.value|
  {
    if |b| < HeaderSize + CountSize then None
    else
      var n := DecodeU32LE(b[HeaderSize..HeaderSize + CountSize]);
      if |b| != HeaderSize + CountSize + RecordSize * n then None
      else Some(ReadRecords(b[HeaderSize + CountSize..]))
  }

  lemma ReadWriteRecord(t: Triangle<Vec3>)
    ensures ReadRecord(Record(t)) == t
  {
    var r := Record(t);
    assert r[12..24] == Vec3Bytes(t.a);
    assert r[24..36] == Vec3Bytes(t.b);
    assert r[36..48] == Vec3Bytes(t.c);
  }

  lemma {:induction false} ReadWriteRecords(m: seq<Triangle<Vec3>>)
    ensures ReadRecords(Records(m)) == m
    decreases |m|
  {
    if m != [] {
      var b := Records(m);
      var m' := m[..|m| - 1];
      assert b[..|b| - RecordSize] == Records(m');
      assert b[|b| - RecordSize..] == Record(m[|m| - 1]);
      ReadWriteRecords(m');
      ReadWriteRecord(m[|m| - 1]);
    }
  }

  /** Reading back a written file yields the count and every triangle that was written. */
  lemma ParseWriteRoundTrip(m: seq<Triangle<Vec3>>)
    requires |m| < U32Limit
    ensures ParseStl(StlFile(m)) == Some(m)
  {
    var f := StlFile(m);
    assert f[HeaderSize..HeaderSize + CountSize] == U32LE(|m|);
    U32RoundTrip(|m|);
    assert f[HeaderSize + CountSize..] == Records(m);
    ReadWriteRecords(m);
  }

  /** Record i of a file occupies bytes 84 + 50 * i up to 84 + 50 * (i + 1). */
  lemma {:induction false} RecordAt(m: seq<Triangle<Vec3>>, i: nat)
    requires i < |m|
    ensures Records(m)[RecordSize * i..RecordSize * (i + 1)] == Record(m[i])
    decreases |m|
  {
    var m' := m[..|m| - 1];
    var r, last := Records(m'), Record(m[|m| - 1]);
    assert Records(m) == r + last;
    if i < |m| - 1 {
      RecordAt(m', i);
      assert m'[i] == m[i];
      assert RecordSize * (i + 1) <= |r|;
      assert (r + last)[RecordSize * i..RecordSize * (i + 1)] == r[RecordSize * i..RecordSize * (i + 1)];
    } else {
      assert RecordSize * i == |r|;
      assert (r + last)[|r|..|r| + RecordSize] == last;
    }
  }

  // ---------------------------------------------------------------------------
  // The writing loop of the tower script

  /** A record is the normal, the corners in order, the attribute word. */
  lemma RecordAsCorners(t: Triangle<Vec3>)
    ensures Record(t) == Vec3Bytes(ZeroNormal) + PointsBytes([t.a, t.b, t.c]) + [0, 0]
  {
    var cs := [t.a, t.b, t.c];
    assert cs[..2] == [t.a, t.b];
    assert [t.a, t.b][..1] == [t.a];
    assert [t.a][..0] == [];
    assert PointsBytes([t.a]) == Vec3Bytes(t.a);
    assert PointsBytes([t.a, t.b]) == Vec3Bytes(t.a) + Vec3Bytes(t.b);
    assert PointsBytes(cs) == Vec3Bytes(t.a) + Vec3Bytes(t.b) + Vec3Bytes(t.c);
  }

  /** Sequence concatenation is associative (Dafny proves it by extensionality,
      which is costly in the middle of a loop over long byte sequences). */
  lemma Assoc<T>(p: seq<T>, q: seq<T>, r: seq<T>)
    ensures (p + q) + r == p + (q + r)
  {
  }

  lemma RecordsPrefix(m: seq<Triangle<Vec3>>, i: nat)
    requires i < |m|
    ensures Records(m[..i + 1]) == Records(m[..i]) + Record(m[i])
  {
    assert m[..i + 1][..i] == m[..i];
  }

  lemma RecordsSnoc(m: seq<Triangle<Vec3>>, t: Triangle<Vec3>)
    ensures Records(m + [t]) == Records(m) + Record(t)
  {
    assert (m + [t])[..|m|] == m;
  }

  /** Appends one record: the zero normal, each corner in turn, the attribute word. */
  method WriteRecord(file: seq<byte>, tri: Triangle<Vec3>) returns (file': seq<byte>)
    ensures file' == file + Record(tri)
  {
    file' := file + Vec3Bytes(ZeroNormal);
    var corners := [tri.a, tri.b, tri.c];
    for k := 0 to 3
      invariant file' == file + Vec3Bytes(ZeroNormal) + PointsBytes(corners[..k])
    {
      assert corners[..k + 1][..k] == corners[..k];
      Assoc(file + Vec3Bytes(ZeroNormal), PointsBytes(corners[..k]), Vec3Bytes(corners[k]));
      file' := file' + Vec3Bytes(corners[k]);
    }
    file' := file' + [0, 0];
    assert corners[..3] == corners;
    RecordAsCorners(tri);
  }

  /** Writes header, count and every record. `struct.pack('<I', ...)` raises
      when the count does not fit, after the 80 header bytes were written. */
  method WriteStl(m: seq<Triangle<Vec3>>) returns (file: seq<byte>, ok: bool)
    ensures ok <==> |m| < U32Limit
    ensures ok ==> file == StlFile(m)
    ensures !ok ==> file == Header()
  {
    file := Header();
    if |m| >= U32Limit {
      return file, false;
    }
    file := file + U32LE(|m|);
    ok := true;
    ghost var prefix := file;
    for i := 0 to |m|
      invariant file == prefix + Records(m[..i])
    {
      Assoc(prefix, Records(m[..i]), Record(m[i]));
      RecordsPrefix(m, i);
      file := WriteRecord(file, m[i]);
    }
    assert m[..|m|] == m;
  }
}
