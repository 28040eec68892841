# InstanceCap demo logic, modelled in Dafny

InstanceCap's demo script (`demo_smooth_multi.py`) lets a user drag boxes
around objects in a sequence of frames. It tracks those boxes with KCF
trackers and overlays a caption produced by a NeuralTalk2 network for a
region grown around the first box. This project models the script's own
logic inside `InstanceCaptioner`, with the trackers, the network and OpenCV
cut away:

- `captioner.dfy`, module `Captioner`: the class `InstanceCaptioner`. Its
  fields are the selection flags (`selectingObject`, `initTracking`,
  `onTracking`), the drag points (`ix, iy, cx, cy`), the last selected size
  (`w, h`), the boxes (`trackboxes`), the trackers, the caption (`cap`,
  `words`) and `capbox`. The class has one method per mouse event
  (`DrawBoundingBox`), `Clean`, and the step at the top of a frame that
  starts tracking. It also has the tail of `cap_image` that stores the
  decoded and wrapped caption, and the caption region `run` takes from the
  first box. Every method states the whole new state: its ensures compare a
  `View` of all fields with the old one. The class invariant (`Consistent`)
  says a pending or running tracking always has a first box, which is why
  `trackboxes[0]` at line 347 cannot fail. It also says running trackers are
  one per box.
- `geometry.dfy`, module `Geometry`: `cal_capbox`. The side length is an
  exact real, with 0.75 written as 3/4. The expansions are floors of half the
  slack, as Python 2's integer `/` and `int()` of a non-negative float both
  give.
- `caption.dfy`, module `Caption`: `decode_sequence` as a loop with an early
  return. The five-word line wrapping is a loop too, specified through
  `Chunks`, `Join` and `Wrapped`.
- `colour.dfy`, module `Colour`: `hilo` and `complement`.
- `wrappers.dfy`, module `Wrappers`: `Option` (Python's `None`).
- `util.dfy`, module `Util`: `Min`, `Max`, `Abs`.

External inputs become parameters. The vocabulary and the frame size are
constructor arguments. The network's token sample is the argument of
`CaptionSample`. A tracker is represented by the box it was started on.

Behaviour worth noting:

- `decode_sequence` returns the words decoded before the first token missing
  from the vocabulary: the `KeyError` is swallowed after the earlier words
  were appended (lines 203-212).
- The box (100, 100, 20, 20) in a 640 x 480 frame gives the region
  `[10, 210, 10, 210]` (`CapboxExample`).
- A drag of exactly 10 pixels on either axis selects nothing (line 139).
- The three flags are independent booleans. A press does not clear
  `initTracking`, and a release without a press still tests the drag against
  the last anchor.

## Model

| member | source | states |
|---|---|---|
| Geometry.SideLength | demo_smooth_multi.py:180-181 | the side is at most 3/4 of the smaller frame dimension and at most max(200, 3·max(bw, bh)), and it equals one of the two |
| Geometry.Expansion | demo_smooth_multi.py:182-183 | an expansion is non-negative and is the floor of half of max(side − extent, 0) |
| Geometry.CalCapbox | demo_smooth_multi.py:175-187 | the region stays inside [0, W−1] × [0, H−1]; it covers the box as far as the frame allows; each side is at most max(side length, box extent) |
| Geometry.InFrameRegionWellFormed | demo_smooth_multi.py:185-186 | for a box inside the frame with non-negative size, left ≤ x ≤ x+w ≤ right and top ≤ y ≤ y+h ≤ bottom |
| Geometry.SideLengthMonotone | demo_smooth_multi.py:180-181 | the side length is non-decreasing in max(bw, bh) |
| Geometry.SideLengthFloor | demo_smooth_multi.py:180-181 | the side length depends only on max(bw, bh), and is at least 200 unless the 3/4 ceiling applies |
| Geometry.UnclippedWidth | demo_smooth_multi.py:182-186 | away from the frame edges, a box no wider than the side gets a window within two pixels below the side length |
| Geometry.CapboxExample | demo_smooth_multi.py:175-187 | box (100, 100, 20, 20) in a 640 x 480 frame: side 200, region [10, 210, 10, 210] |
| Caption.StopAt | demo_smooth_multi.py:205-211 | the stop position is the first token that is 0 or not in the vocabulary, or the length when there is none |
| Caption.DecodeSequence | demo_smooth_multi.py:198-212 | the output is vocab[s[0]], …, vocab[s[k−1]] for k the stop position, so never longer than the input |
| Caption.WrapWords | demo_smooth_multi.py:253-258 | the loop yields the five-word groups each joined by spaces, ceil(N/5) lines, none for N = 0 |
| Caption.ChunksCount | demo_smooth_multi.py:253-258 | N words make ceil(N/5) groups |
| Caption.ChunksShape | demo_smooth_multi.py:256-258 | every group but the last has exactly 5 words; the last has 1 to 5 |
| Caption.ChunksFlatten | demo_smooth_multi.py:256-258 | concatenating the groups gives back the words |
| Caption.JoinConcat | demo_smooth_multi.py:257 | joining two non-empty word lists and linking them with a space is joining their concatenation |
| Caption.WrappedRejoins | demo_smooth_multi.py:253-258 | joining the caption lines with single spaces gives the whole sentence |
| Colour.Hilo | demo_smooth_multi.py:214-225 | the three swaps return min(a, b, c) + max(a, b, c) |
| Colour.HiloSymmetric | demo_smooth_multi.py:214-225 | hilo is the same under all six orders of its arguments |
| Colour.Complement | demo_smooth_multi.py:227-233 | each channel plus its complement equals hilo; the complement has the same smallest and largest channel |
| Colour.ComplementKeepsHilo | demo_smooth_multi.py:227-233 | hilo of the complement equals hilo of the colour |
| Colour.ComplementInvolution | demo_smooth_multi.py:227-233 | on integer channels, complementing twice gives the colour back |
| Captioner.ReleaseBox | demo_smooth_multi.py:139-143 | a box is selected iff the drag exceeds 10 pixels on both axes; the box spans the anchor and the release point, and its width and height exceed 10 |
| Captioner.ReleaseBoxSymmetric | demo_smooth_multi.py:139-143 | the selected box does not depend on the drag direction |
| Captioner.CleanedIdempotent | demo_smooth_multi.py:287-292 | cleaning twice equals cleaning once, and a cleaned state satisfies the class invariant |
| Captioner.InstanceCaptioner.constructor | demo_smooth_multi.py:41-47 | starts with all flags down, points at −1, size 0, no boxes and no caption |
| Captioner.InstanceCaptioner.DrawBoundingBox | demo_smooth_multi.py:124-146 | press sets selecting, pauses tracking and anchors both points; move changes only (cx, cy); release appends exactly the selected box, sets initTracking and clears cap, or else leaves the boxes and stops tracking; selecting ends on release; other events change nothing; the invariant is kept |
| Captioner.InstanceCaptioner.Clean | demo_smooth_multi.py:287-292 | empties the boxes, clears cap and capbox, lowers both tracking flags, leaves selectingObject and the points as they were |
| Captioner.InstanceCaptioner.StartTracking | demo_smooth_multi.py:327-336 | with a pending selection, starts one tracker per box, lowers initTracking and raises onTracking; otherwise nothing changes |
| Captioner.InstanceCaptioner.CaptionSample | demo_smooth_multi.py:250-258 | words are the decoded leading tokens of the 16-token sample and cap is their five-word wrapping; nothing else changes |
| Captioner.InstanceCaptioner.CaptureRegion | demo_smooth_multi.py:347 | while tracking the first box exists, and its caption region lies in the frame and covers it as far as the frame allows |

## Left out

- Model loading and captioning inference (`load_model`, the crop, resize, normalise, forward and sample steps of `cap_image`, lines 98-122 and 239-249): they are Lua/Torch calls on float tensors. The sample is a parameter of `CaptionSample`.
- Captioner.InstanceCaptioner.CaptionSample: the network is taken to return 16 tokens. A shorter sample, where line 250 would raise `IndexError` and end the worker, is not modelled.
- KCF trackers: the tracker built in `init_trackers` is represented by the box it starts on. `update_trackers`, which replaces each box by the external tracker's answer, is not modelled because the tracker is opaque. The last-tracker alias `self.tracker` is dropped.
- OpenCV output and input: drawing (`draw_trackboxes`, `draw_cap`, the drag rectangle), `imshow`, `waitKey` and the `c`/`e`/`q` keys, the video writer, image files, and `run`'s frame loop with its 400-frame limit. These are UI and I/O.
- The directory setup in `__init__` (lines 74-90): filesystem I/O. The frame size it reads from the first image is a constructor parameter.
- The `narrate` thread and the polling wait in `run` (lines 281-285, 353-354): their point is concurrency. As written, `run` keeps the region in a local `capbox` and never sets the field, so the worker never captions and the wait does not end.
- `draw_capboxes` (lines 189-196): dead code that refers to an undefined `frame`.
- Captioner.InstanceCaptioner.DrawBoundingBox: the callback's `flags` and `param` arguments are unused and not modelled. OpenCV runs callbacks inside `waitKey`; here each event is one atomic method call.
- Captioner.InstanceCaptioner.constructor: in the source `capbox` is first assigned by `clean`, `words` by `cap_image` and `trackers` by `init_trackers` (line 161). Here they start as `None`, the empty list and the empty list.
- Colour.Complement: channels are integers. The only caller, which is commented out, would pass float channel means, and `int()` then truncates toward zero; that is not modelled.
- Geometry.SideLength: `0.75 * min(H, W)` is a float in the source and an exact rational here. The two agree for any frame size below 2^51.
