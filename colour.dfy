/**
 * Colour helpers of `InstanceCaptioner`: `hilo` (the sum of the smallest
 * and the largest channel) and `complement` (each channel reflected about
 * that sum, the colour the caption text would be drawn in).
 */
module Colour {
  import opened Util

  /** A colour with channels in OpenCV's blue, green, red order. */
  datatype Bgr = Bgr(b: int, g: int, r: int)

  function Min3(a: int, b: int, c: int): int { Min(a, Min(b, c)) }

  function Max3(a: int, b: int, c: int): int { Max(a, Max(b, c)) }

  /**
   * `hilo(a, b, c)`: three conditional swaps leave the smallest value in `a`
   * and the largest in `c`, and their sum is returned.
   */
  function Hilo(a: int, b: int, c: int): (s: int)
    ensures s == Min3(a, b, c) + Max3(a, b, c)
  {
    var (b1, c1) := if c < b then (c, b) else (b, c);
    var (a2, b2) := if b1 < a then (b1, a) else (a, b1);
    var (b3, c3) := if c1 < b2 then (c1, b2) else (b2, c1);
    a2 + c3
  }

  /** `hilo` does not depend on the order of its arguments. */
  lemma HiloSymmetric(a: int, b: int, c: int)
    ensures Hilo(a, b, c) == Hilo(b, a, c) == Hilo(a, c, b)
    ensures Hilo(a, b, c) == Hilo(c, b, a) == Hilo(b, c, a) == Hilo(c, a, b)
  {
  }

  /** `complement(b, g, r)`: with k = hilo(b, g, r), the colour (k - b, k - g, k - r). */
  function Complement(c: Bgr): (d: Bgr)
    // each channel is reflected about the midpoint of the smallest and largest channel
    ensures d.b + c.b == d.g + c.g == d.r + c.r == Hilo(c.b, c.g, c.r)
    // the complement spans exactly the same range of channel values
    ensures Min3(d.b, d.g, d.r) == Min3(c.b, c.g, c.r) && Max3(d.b, d.g, d.r) == Max3(c.b, c.g, c.r)
  {
    var k := Hilo(c.b, c.g, c.r);
    Bgr(k - c.b, k - c.g, k - c.r)
  }

  /** The complement has the same smallest-plus-largest sum as the colour. */
  lemma ComplementKeepsHilo(c: Bgr)
    ensures Hilo(Complement(c).b, Complement(c).g, Complement(c).r) == Hilo(c.b, c.g, c.r)
  {
  }

  /** On integer channels the complement of the complement is the colour itself. */
  lemma ComplementInvolution(c: Bgr)
    ensures Complement(Complement(c)) == c
  {
  }
}
