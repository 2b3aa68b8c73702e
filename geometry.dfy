/** The real-valued part of the vertex coordinates that both scripts share:
    angles in radians, evenly spaced samples, and cylindrical positions.
    Sine, cosine and the rounding to float32 are not modelled; they are the
    caller-supplied projection from a Cylindrical to stored bytes. */
module Geometry {

  /** The double-precision value of `np.pi`, read as a real. */
  const Pi: real := 3.141592653589793

  /** `np.radians(deg)` */
  function Radians(deg: real): (r: real)
    ensures deg == 180.0 ==> r == Pi
    ensures deg > 0.0 ==> r > 0.0
  {
    deg * Pi / 180.0
  }

  /** A point given by its distance from the vertical axis, its angle about
      that axis and its height along it. */
  datatype Cylindrical = Cylindrical(radius: real, angle: real, height: real)

  /** Element k of `np.linspace(start, stop, n)`: n evenly spaced values from
      start to stop inclusive; a single sample is start itself. */
  function Linspace(start: real, stop: real, n: nat, k: nat): (x: real)
    requires k < n
    ensures k == 0 ==> x == start
    ensures n > 1 && k == n - 1 ==> x == stop
  {
    if n == 1 then start else start + (k as real) * ((stop - start) / ((n - 1) as real))
  }

  lemma ProductSign(a: real, c: real)
    requires 0.0 <= a && 0.0 <= c
    ensures 0.0 <= a * c
    ensures 0.0 < a && 0.0 < c ==> 0.0 < a * c
  {
  }

  lemma ScaleMonotone(a: real, b: real, c: real)
    requires a <= b && 0.0 <= c
    ensures a * c <= b * c
    ensures a < b && 0.0 < c ==> a * c < b * c
  {
    ProductSign(b - a, c);
    assert b * c - a * c == (b - a) * c;
  }

  /** The samples lie between the end points, in order. */
  lemma LinspaceMonotone(start: real, stop: real, n: nat, j: nat, k: nat)
    requires start <= stop && j <= k < n
    ensures start <= Linspace(start, stop, n, j) <= Linspace(start, stop, n, k) <= stop
  {
    if n > 1 {
      var d := (n - 1) as real;
      var step := (stop - start) / d;
      assert step * d == stop - start;
      assert 0.0 <= step;
      assert Linspace(start, stop, n, j) == start + (j as real) * step;
      assert Linspace(start, stop, n, k) == start + (k as real) * step;
      ScaleMonotone(0.0, j as real, step);
      ScaleMonotone(j as real, k as real, step);
      ScaleMonotone(k as real, d, step);
      assert (k as real) * step <= stop - start;
    } else {
      assert j == 0 && k == 0;
    }
  }
}
