/**
 * The interaction state of `InstanceCaptioner`: the mouse callback that
 * selects boxes to track (`draw_boundingbox`), the reset (`clean`), the
 * switch from "boxes chosen" to "tracking" at the start of a frame in `run`,
 * the caption update that ends `cap_image`, and the caption region that `run`
 * derives from the first tracked box.
 *
 * The external pieces are parameters: the vocabulary and the frame size come
 * from the loaded model and the first image, the token sample from the
 * captioning network. A tracker is represented by the box it was started on.
 */
module Captioner {
  import opened Wrappers
  import opened Util
  import Geometry
  import Caption

  /** A drag must exceed this many pixels on both axes to select a box. */
  const DragThreshold := 10

  /** `cap_image` reads this many tokens from the network's sample. */
  const SampleLength := 16

  /** The OpenCV mouse events the callback tells apart; every other event is `OtherEvent`. */
  datatype MouseEvent = LButtonDown | MouseMove | LButtonUp | OtherEvent

  /** A tracked box `[x, y, w, h]`: top-left corner and size, in pixels. */
  datatype Box = Box(x: int, y: int, w: int, h: int)

  /** The mutable fields of an `InstanceCaptioner`, as one value. */
  datatype View = View(
    selectingObject: bool, initTracking: bool, onTracking: bool,
    ix: int, iy: int, cx: int, cy: int, w: int, h: int,
    trackboxes: seq<Box>, trackers: seq<Box>,
    cap: Option<seq<string>>, capbox: Option<Geometry.Region>, words: seq<string>)

  /**
   * What the flags promise about the boxes: a pending or running tracking
   * has at least one box (so `trackboxes[0]` exists), and running trackers
   * are one per box.
   */
  predicate Consistent(v: View)
  {
    (v.initTracking || v.onTracking ==> |v.trackboxes| > 0) &&
    (v.onTracking && !v.initTracking ==> |v.trackers| == |v.trackboxes|)
  }

  /**
   * The box a left-button release at (x, y) selects, given the anchor
   * (ix, iy) of the drag: none unless the drag exceeds the threshold on both
   * axes, otherwise the rectangle spanned by the two points.
   */
  function ReleaseBox(ix: int, iy: int, x: int, y: int): (b: Option<Box>)
    ensures b.Some? <==> Abs(x - ix) > DragThreshold && Abs(y - iy) > DragThreshold
    ensures b.Some? ==> b.value.w > DragThreshold && b.value.h > DragThreshold
    ensures b.Some? ==> b.value.x == Min(x, ix) && b.value.x + b.value.w == Max(x, ix)
    ensures b.Some? ==> b.value.y == Min(y, iy) && b.value.y + b.value.h == Max(y, iy)
  {
    if Abs(x - ix) > DragThreshold && Abs(y - iy) > DragThreshold then
      Some(Box(Min(x, ix), Min(y, iy), Abs(x - ix), Abs(y - iy)))
    else
      None
  }

  /** The selected box does not depend on the direction of the drag. */
  lemma ReleaseBoxSymmetric(ix: int, iy: int, x: int, y: int)
    ensures ReleaseBox(ix, iy, x, y) == ReleaseBox(x, y, ix, iy)
  {
  }

  /** The state after `clean`: no boxes, no caption, no region, both tracking flags down. */
  function Cleaned(v: View): View
  {
    v.(cap := None, capbox := None, trackboxes := [], initTracking := false, onTracking := false)
  }

  /** Cleaning twice is cleaning once, and a cleaned state is consistent. */
  lemma CleanedIdempotent(v: View)
    ensures Cleaned(Cleaned(v)) == Cleaned(v)
    ensures Consistent(Cleaned(v))
  {
  }

  class InstanceCaptioner {
    /** `vocab`: token index to word, from the loaded model. */
    const vocab: map<int, string>
    /** `frame_h`, `frame_w`: the size of the first image. */
    const frameH: int
    const frameW: int

    var selectingObject: bool
    var initTracking: bool
    var onTracking: bool
    var ix: int
    var iy: int
    var cx: int
    var cy: int
    var w: int
    var h: int
    var trackboxes: seq<Box>
    var trackers: seq<Box>
    var cap: Option<seq<string>>
    var capbox: Option<Geometry.Region>
    var words: seq<string>

    ghost function Fields(): View
      reads this
    {
      View(selectingObject, initTracking, onTracking, ix, iy, cx, cy, w, h,
           trackboxes, trackers, cap, capbox, words)
    }

    ghost predicate Valid()
      reads this
    {
      Consistent(Fields())
    }

    /** The tracking and captioning state `__init__` sets up. */
    constructor (vocab: map<int, string>, frameH: int, frameW: int)
      ensures Valid()
      ensures this.vocab == vocab && this.frameH == frameH && this.frameW == frameW
      ensures Fields() == View(false, false, false, -1, -1, -1, -1, 0, 0, [], [], None, None, [])
    {
      this.vocab, this.frameH, this.frameW := vocab, frameH, frameW;
      selectingObject, initTracking, onTracking := false, false, false;
      ix, iy, cx, cy := -1, -1, -1, -1;
      w, h := 0, 0;
      trackboxes, trackers := [], [];
      cap, capbox, words := None, None, [];
    }

    /** The mouse callback `draw_boundingbox(event, x, y, flags, param)`. */
    method DrawBoundingBox(event: MouseEvent, x: int, y: int)
      requires Valid()
      modifies this
      ensures Valid()
      // press: start a drag anchored at the click point, pausing tracking
      ensures event == LButtonDown ==>
        Fields() == old(Fields()).(selectingObject := true, onTracking := false, ix := x, iy := y, cx := x, cy := y)
      // move: only the current corner follows the pointer
      ensures event == MouseMove ==> Fields() == old(Fields()).(cx := x, cy := y)
      // release: append the selected box and ask for new trackers, or drop the drag
      ensures event == LButtonUp ==>
        var b := ReleaseBox(old(ix), old(iy), x, y);
        Fields() == if b.Some? then
                      old(Fields()).(selectingObject := false, ix := b.value.x, iy := b.value.y,
                                     w := b.value.w, h := b.value.h, initTracking := true,
                                     trackboxes := old(trackboxes) + [b.value], cap := None)
                    else
                      old(Fields()).(selectingObject := false, onTracking := false)
      ensures event == OtherEvent ==> Fields() == old(Fields())
    {
      match event
      case LButtonDown =>
        selectingObject := true;
        onTracking := false;
        ix, iy := x, y;
        cx, cy := x, y;
      case MouseMove =>
        cx, cy := x, y;
      case LButtonUp =>
        selectingObject := false;
        if Abs(x - ix) > DragThreshold && Abs(y - iy) > DragThreshold {
          w, h := Abs(x - ix), Abs(y - iy);
          ix, iy := Min(x, ix), Min(y, iy);
          initTracking := true;
          trackboxes := trackboxes + [Box(ix, iy, w, h)];
          cap := None;
        } else {
          onTracking := false;
        }
      case OtherEvent =>
    }

    /** `clean`: forget every box and the caption and go back to selecting. */
    method Clean()
      requires Valid()
      modifies this
      ensures Valid()
      ensures Fields() == Cleaned(old(Fields()))
    {
      cap := None;
      capbox := None;
      trackboxes := [];
      initTracking := false;
      onTracking := false;
    }

    /**
     * The step at the start of a frame in `run` that starts one tracker per
     * selected box once a selection is pending, and switches to tracking.
     */
    method StartTracking()
      requires Valid()
      modifies this
      ensures Valid()
      ensures old(initTracking) ==>
        Fields() == old(Fields()).(trackers := old(trackboxes), initTracking := false, onTracking := true)
      ensures !old(initTracking) ==> Fields() == old(Fields())
    {
      if initTracking {
        trackers := trackboxes;
        initTracking := false;
        onTracking := true;
      }
    }

    /**
     * The end of `cap_image`: decode the first tokens of the network's
     * sample into `words` and wrap them into the caption lines `cap`.
     */
    method CaptionSample(sample: seq<int>)
      requires Valid()
      requires |sample| >= SampleLength
      modifies this
      ensures Valid()
      ensures |words| == Caption.StopAt(vocab, sample[..SampleLength])
      ensures forall i :: 0 <= i < |words| ==> sample[i] in vocab && words[i] == vocab[sample[i]]
      ensures Fields() == old(Fields()).(words := words, cap := Some(Caption.Wrapped(words)))
    {
      var decoded := Caption.DecodeSequence(vocab, sample[..SampleLength]);
      words := decoded;
      var lines := Caption.WrapWords(decoded);
      cap := Some(lines);
    }

    /**
     * The caption region `run` computes from the first tracked box while
     * tracking; a consistent state always has that box.
     */
    function CaptureRegion(): (r: Geometry.Region)
      reads this
      requires Valid() && onTracking
      ensures 0 <= r.left && r.right <= frameW - 1 && 0 <= r.top && r.bottom <= frameH - 1
      ensures r.left <= Max(0, trackboxes[0].x) && Min(trackboxes[0].x + trackboxes[0].w, frameW - 1) <= r.right
      ensures r.top <= Max(0, trackboxes[0].y) && Min(trackboxes[0].y + trackboxes[0].h, frameH - 1) <= r.bottom
    {
      var b := trackboxes[0];
      Geometry.CalCapbox(b.x, b.y, b.w, b.h, frameH, frameW)
    }
  }
}
