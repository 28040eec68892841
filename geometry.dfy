/**
 * The caption region: a tracked box (x, y, width, height) grown into a
 * square-ish window around it and clamped to the frame
 * (`InstanceCaptioner.cal_capbox`).
 *
 * The side length mixes an integer (`max(200, 3 * max(bw, bh))`) with a
 * float (`0.75 * min(frame_h, frame_w)`); it is modelled as an exact real,
 * with 0.75 written as 3/4. The script runs under Python 2, so `/ 2` on an
 * integer is floor division and `int()` of a non-negative float is its floor:
 * either way each expansion is the floor of half the non-negative slack.
 */
module Geometry {
  import opened Util

  /** Smallest side the caption window is given, in pixels. */
  const MinSide := 200

  /** The window's side grows with three times the larger box dimension. */
  const GrowFactor := 3

  /** The region `[left, right, top, bottom]` returned by `cal_capbox`. */
  datatype Region = Region(left: int, right: int, top: int, bottom: int)

  function RMax(a: real, b: real): real { if b > a then b else a }

  /** The upper bound on the side: three quarters of the smaller frame dimension. */
  function SideCeiling(frameH: int, frameW: int): real
  {
    (3 * Min(frameH, frameW)) as real / 4.0
  }

  /**
   * `box_length`: max(200, 3 * max(w, h)), but never more than 3/4 of the
   * smaller frame dimension.
   */
  function SideLength(w: int, h: int, frameH: int, frameW: int): (side: real)
    ensures side <= SideCeiling(frameH, frameW)
    ensures side <= Max(MinSide, GrowFactor * Max(w, h)) as real
    ensures side == SideCeiling(frameH, frameW) || side == Max(MinSide, GrowFactor * Max(w, h)) as real
  {
    var grow := Max(MinSide, GrowFactor * Max(w, h)) as real;
    var ceiling := SideCeiling(frameH, frameW);
    if ceiling < grow then ceiling else grow
  }

  /** `ew` / `eh`: the expansion on each side of one axis of extent `d`. */
  function Expansion(side: real, d: int): (e: int)
    ensures e >= 0
    ensures (2 * e) as real <= RMax(side - d as real, 0.0) < (2 * e + 2) as real
  {
    (RMax(side - d as real, 0.0) / 2.0).Floor
  }

  /** `cal_capbox(bx, by, bw, bh)` for a frame of `frameH` rows and `frameW` columns. */
  function CalCapbox(x: int, y: int, w: int, h: int, frameH: int, frameW: int): (r: Region)
    // the region never leaves the frame
    ensures 0 <= r.left && r.right <= frameW - 1
    ensures 0 <= r.top && r.bottom <= frameH - 1
    // it covers the box, as far as the frame allows
    ensures r.left <= Max(0, x) && Min(x + w, frameW - 1) <= r.right
    ensures r.top <= Max(0, y) && Min(y + h, frameH - 1) <= r.bottom
    // it is never wider or taller than the side length or the box itself
    ensures (r.right - r.left) as real <= RMax(SideLength(w, h, frameH, frameW), w as real)
    ensures (r.bottom - r.top) as real <= RMax(SideLength(w, h, frameH, frameW), h as real)
  {
    var side := SideLength(w, h, frameH, frameW);
    var ew := Expansion(side, w);
    var eh := Expansion(side, h);
    Region(Max(0, x - ew), Min(x + w + ew, frameW - 1),
           Max(0, y - eh), Min(y + h + eh, frameH - 1))
  }

  /** The box lies inside the frame and has non-negative size. */
  predicate BoxInFrame(x: int, y: int, w: int, h: int, frameH: int, frameW: int)
  {
    0 <= x && 0 <= w && x + w <= frameW - 1 &&
    0 <= y && 0 <= h && y + h <= frameH - 1
  }

  /** For a box inside the frame the region is a proper, non-empty rectangle holding the box. */
  lemma InFrameRegionWellFormed(x: int, y: int, w: int, h: int, frameH: int, frameW: int)
    requires BoxInFrame(x, y, w, h, frameH, frameW)
    ensures var r := CalCapbox(x, y, w, h, frameH, frameW);
      r.left <= x <= x + w <= r.right && r.top <= y <= y + h <= r.bottom
  {
  }

  /** The side length is non-decreasing in the larger box dimension. */
  lemma SideLengthMonotone(w: int, h: int, w': int, h': int, frameH: int, frameW: int)
    requires Max(w, h) <= Max(w', h')
    ensures SideLength(w, h, frameH, frameW) <= SideLength(w', h', frameH, frameW)
  {
  }

  /** The side only depends on the larger box dimension, and is at least 200 unless the ceiling bites. */
  lemma SideLengthFloor(w: int, h: int, frameH: int, frameW: int)
    ensures SideLength(w, h, frameH, frameW) == SideLength(Max(w, h), Max(w, h), frameH, frameW)
    ensures SideLength(w, h, frameH, frameW) >= 200.0 || SideLength(w, h, frameH, frameW) == SideCeiling(frameH, frameW)
  {
  }

  /**
   * Away from the frame's edges the window is the box grown by 2 * ew, which
   * is within two pixels of the side length (the floor loses less than one
   * pixel on each side).
   */
  lemma UnclippedWidth(x: int, y: int, w: int, h: int, frameH: int, frameW: int)
    requires var side := SideLength(w, h, frameH, frameW);
      w as real <= side &&
      0 <= x - Expansion(side, w) && x + w + Expansion(side, w) <= frameW - 1
    ensures var side := SideLength(w, h, frameH, frameW);
      var r := CalCapbox(x, y, w, h, frameH, frameW);
      side - 2.0 < (r.right - r.left) as real <= side
  {
  }

  /** The box (100, 100, 20, 20) in a 640 x 480 frame: side 200, expansion 90 on each side. */
  lemma CapboxExample()
    ensures SideLength(20, 20, 480, 640) == 200.0
    ensures CalCapbox(100, 100, 20, 20, 480, 640) == Region(10, 210, 10, 210)
  {
  }
}
