/**
 * The playback engine of Masa/models/buffer.py: an index machine over
 * `idx`, `prevIdx`, `play` and `backward` with the frame count fixed, and
 * one iteration of the `run` loop as `Step`, reading from a `VideoCapture`.
 */
module Playback {
  import opened Wrappers
  import opened Video
  import opened Geometry

  /** The two index fields `update_index` rewrites; `None` is Python's `None`. */
  datatype Index = Index(idx: Option<int>, prev: Option<int>)

  /** An index that is absent or names a frame. */
  predicate InRange(i: Option<int>, n: int) {
    i.None? || 0 <= i.value < n
  }

  function Min(a: int, b: int): int { if a <= b then a else b }
  function Max(a: int, b: int): int { if a >= b then a else b }

  /**
   * `update_index`: a missing index anchors at the first frame (forward) or
   * the last (backward) and leaves `prev` alone; otherwise `prev` takes the
   * index and the index moves one frame, then is pulled back inside the
   * video.
   */
  function NextIndex(i: Index, backward: bool, n: int): (r: Index)
    ensures r.idx.Some?
    ensures i.idx.None? ==> r.prev == i.prev
    ensures i.idx.Some? ==> r.prev == i.idx
    ensures n >= 1 && InRange(i.idx, n) ==> InRange(r.idx, n)
    ensures n >= 1 && i.idx.None? ==> r.idx.value == (if backward then n - 1 else 0)
    ensures n >= 1 && i.idx.Some? && InRange(i.idx, n) ==>
              r.idx.value == (if backward then Max(i.idx.value - 1, 0) else Min(i.idx.value + 1, n - 1))
  {
    if !backward then
      var k := if i.idx.None? then 0 else i.idx.value + 1;
      var p := if i.idx.None? then i.prev else i.idx;
      Index(Some(if k >= n then k - 1 else k), p)
    else
      var k := if i.idx.None? then n - 1 else i.idx.value - 1;
      var p := if i.idx.None? then i.prev else i.idx;
      Index(Some(if k < 0 then 0 else k), p)
  }

  /** The three ways an iteration of `run` continues after `update_index`. */
  datatype Flow = AtEnd | Sequential | Seek

  /**
   * The branch of `run`: the index did not move (the end of the video), it
   * moved one frame forward from `prev` (read on), or anything else (seek).
   * A missing `prev` equals no index.
   */
  function FlowOf(prev: Option<int>, idx: int): (f: Flow)
    ensures f == AtEnd <==> prev == Some(idx)
    ensures f == Sequential <==> prev == Some(idx - 1)
  {
    if prev == Some(idx) then AtEnd
    else if prev == Some(idx - 1) then Sequential
    else Seek
  }

  /**
   * Forward playback inside the video reads on frame after frame and
   * reports the end exactly at the last frame.
   */
  lemma ForwardFlow(k: int, prev: Option<int>, n: int)
    requires 0 <= k < n
    ensures var r := NextIndex(Index(Some(k), prev), false, n);
      FlowOf(r.prev, r.idx.value) == (if k == n - 1 then AtEnd else Sequential)
  {
  }

  /**
   * Backward playback never reads on: every backward step seeks (or stops
   * at the first frame).
   */
  lemma BackwardAlwaysSeeks(k: int, prev: Option<int>, n: int)
    requires 0 <= k < n
    ensures var r := NextIndex(Index(Some(k), prev), true, n);
      FlowOf(r.prev, r.idx.value) == (if k == 0 then AtEnd else Seek)
  {
  }

  /**
   * `set_backward` clears `idx` but not `prev_idx`. After forward playback
   * stopped at the last frame (`prev_idx == idx == n - 1`), switching to
   * backward re-anchors at that same frame, so the first backward step
   * already reports the end of the video. The same happens switching to
   * forward after backward playback stopped at frame 0.
   */
  lemma StalePrevEndsAtOnce(n: int)
    requires n >= 1
    ensures var r := NextIndex(Index(None, Some(n - 1)), true, n);
      FlowOf(r.prev, r.idx.value) == AtEnd
    ensures var r := NextIndex(Index(None, Some(0)), false, n);
      FlowOf(r.prev, r.idx.value) == AtEnd
  {
  }

  /**
   * The stale `prev_idx` can also make the first step after a switch read on
   * sequentially: from frame n - 2 forward, switching to backward anchors at
   * n - 1, one past `prev`.
   */
  lemma StalePrevReadsOn(n: int)
    requires n >= 2
    ensures var r := NextIndex(Index(None, Some(n - 2)), true, n);
      FlowOf(r.prev, r.idx.value) == Sequential
  {
  }

  /** What one iteration of the `run` loop did. */
  datatype Outcome =
    | Ended(idx: int)                  // `stop(video_ended=True)`
    | Emitted(idx: int, frame: Frame)  // `run_result.emit(...)` with the new frame
    | Failed                           // no frame was read: `raise Exception`
    | Raised(error: PyError)           // the capture's `read()` raised, and the exception escapes `run`

  class Buffer {
    const video: VideoCapture
    const nFrames: int
    /** The display size `resize_calculator` chose. */
    const width: int
    const height: int
    var idx: Option<int>
    var prevIdx: Option<int>
    var play: bool
    var backward: bool
    var frame: Option<Frame>
    /** The `video_ended` signals sent so far, each with the index it carried. */
    var endedSignals: seq<Option<int>>

    /**
     * The state `__init__` leaves once the capture is open and its first
     * frame was read: paused, no index, the frame count from the capture,
     * and the capture rewound.
     */
    constructor (video: VideoCapture, backward: bool, width: int, height: int)
      modifies video`buffIdx
      ensures this.video == video && nFrames == video.length && this.backward == backward
      ensures this.width == width && this.height == height
      ensures idx == None && prevIdx == None && !play && frame == None && endedSignals == []
      ensures video.buffIdx == 0
    {
      this.video := video;
      nFrames := video.Get(CAP_PROP_FRAME_COUNT).value;
      this.width := width;
      this.height := height;
      idx := None;
      prevIdx := None;
      play := false;
      this.backward := backward;
      frame := None;
      endedSignals := [];
      new;
      video.Set(CAP_PROP_POS_FRAMES, 0);
    }

    /** `to_play`. */
    method ToPlay()
      modifies this`play
      ensures play
    {
      play := true;
    }

    /** `to_pause`. */
    method ToPause()
      modifies this`play
      ensures !play
    {
      play := false;
    }

    /** `play_pause_toggle`: flips `play`. */
    method PlayPauseToggle()
      modifies this`play
      ensures play == !old(play)
    {
      if play {
        ToPause();
      } else {
        ToPlay();
      }
    }

    /** `stop(video_ended)`: pauses, and sends `video_ended` with the index when asked to. */
    method Stop(videoEnded: bool)
      modifies this`play, this`endedSignals
      ensures !play
      ensures endedSignals == old(endedSignals) + (if videoEnded then [idx] else [])
    {
      play := false;
      if videoEnded {
        endedSignals := endedSignals + [idx];
      }
    }

    /** `next_frame`: one read from the capture; nothing when it fails, and its exception escapes. */
    method NextFrame() returns (f: Result<Option<Frame>>)
      modifies video`buffIdx
      ensures f == ReadAt(video.height, video.width, video.length, old(video.buffIdx))
      ensures video.buffIdx == CursorAfter(video.height, video.width, video.length, old(video.buffIdx))
    {
      var read := video.Read();
      if read.Err? {
        return Err(read.error);
      }
      var (ret, fr) := read.value;
      if !ret {
        return Ok(None);
      }
      f := Ok(fr);
    }

    /** `get_frame(i)`: the index and the capture position become `i`, then one read. */
    method GetFrame(i: int) returns (f: Result<Option<Frame>>)
      modifies this`idx, video`buffIdx
      ensures idx == Some(i)
      ensures f == ReadAt(video.height, video.width, video.length, i)
      ensures video.buffIdx == CursorAfter(video.height, video.width, video.length, i)
    {
      idx := Some(i);
      video.Set(CAP_PROP_POS_FRAMES, i);
      f := NextFrame();
    }

    /**
     * `set_backward(b)`: nothing when the direction is already `b`;
     * otherwise the direction changes, the index is cleared (so the next
     * step re-anchors) and `play` ends as it was.
     */
    method SetBackward(b: bool)
      modifies this`backward, this`idx, this`play
      ensures old(backward) == b ==> backward == b && idx == old(idx) && play == old(play)
      ensures old(backward) != b ==> backward == b && idx == None && play == old(play)
    {
      if backward != b {
        var prevPlay := play;
        play := false;
        backward := b;
        idx := None;
        play := prevPlay;
      }
    }

    /** `update_index`. */
    method UpdateIndex()
      modifies this`idx, this`prevIdx
      ensures Index(idx, prevIdx) == NextIndex(Index(old(idx), old(prevIdx)), backward, nFrames)
    {
      if !backward {
        if idx.None? {
          idx := Some(0);
        } else {
          prevIdx := idx;
          idx := Some(idx.value + 1);
        }
        if idx.value >= nFrames {
          idx := Some(idx.value - 1);
        }
      } else {
        if idx.None? {
          idx := Some(nFrames - 1);
        } else {
          prevIdx := idx;
          idx := Some(idx.value - 1);
        }
        if idx.value < 0 {
          idx := Some(0);
        }
      }
    }

    /**
     * One iteration of the `run` loop while playing: move the index; at the
     * end of the video stop and signal it; when the index moved one frame
     * on, read the next frame; otherwise seek to the index and read there.
     * A failed read raises (`Failed`); a frame is kept and emitted.
     */
    method Step() returns (o: Outcome)
      requires play
      modifies this`idx, this`prevIdx, this`play, this`frame, this`endedSignals, video`buffIdx
      ensures Index(idx, prevIdx) == NextIndex(Index(old(idx), old(prevIdx)), backward, nFrames)
      ensures FlowOf(prevIdx, idx.value) == AtEnd ==>
                o == Ended(idx.value) && !play && endedSignals == old(endedSignals) + [idx]
                && video.buffIdx == old(video.buffIdx) && frame == old(frame)
      ensures FlowOf(prevIdx, idx.value) != AtEnd ==> play && endedSignals == old(endedSignals)
      ensures FlowOf(prevIdx, idx.value) != AtEnd ==>
                var pos := if FlowOf(prevIdx, idx.value) == Sequential then old(video.buffIdx) else idx.value;
                && video.buffIdx == CursorAfter(video.height, video.width, video.length, pos)
                && match ReadAt(video.height, video.width, video.length, pos)
                   case Err(e) => o == Raised(e)
                   case Ok(None) => o == Failed
                   case Ok(Some(fr)) => o == Emitted(idx.value, fr)
      ensures o.Emitted? ==> frame == Some(o.frame)
      ensures !o.Emitted? ==> frame == old(frame)
    {
      UpdateIndex();
      var f: Result<Option<Frame>>;
      if prevIdx == idx {
        Stop(true);
        return Ended(idx.value);
      } else if prevIdx == Some(idx.value - 1) {
        f := NextFrame();
      } else {
        f := GetFrame(idx.value);
      }
      if f.Err? {
        return Raised(f.error);
      }
      if f.value.None? {
        return Failed;
      }
      frame := f.value;
      o := Emitted(idx.value, f.value.value);
    }
  }

  /**
   * Opening the player: ValueError when the capture is not open. The first
   * frame is read to learn the frame size; when that read fails, building
   * the error message names an undefined variable, so NameError escapes.
   * The display size comes from `resize_calculator` on the frame size (its
   * error escapes with the first frame consumed); then the capture is
   * rewound.
   */
  method Open(video: VideoCapture, targetWidth: Option<int>, targetHeight: Option<int>, ratio: bool, backward: bool)
    returns (r: Result<Buffer>)
    modifies video`buffIdx
    ensures !video.IsOpened() ==> r == Err(ValueError) && video.buffIdx == old(video.buffIdx)
    ensures video.IsOpened() && old(video.buffIdx) >= video.length ==> r == Err(NameError)
    ensures video.IsOpened() && old(video.buffIdx) < video.length && FrameAt(video.height, video.width, old(video.buffIdx)).Err? ==>
              r == Err(FrameAt(video.height, video.width, old(video.buffIdx)).error) && video.buffIdx == old(video.buffIdx)
    ensures video.IsOpened() && old(video.buffIdx) < video.length && FrameAt(video.height, video.width, old(video.buffIdx)).Ok? ==>
              var size := ResizeCalculator(video.width, video.height, targetWidth, targetHeight, ratio);
              && (size.Err? ==> r == Err(size.error) && video.buffIdx == old(video.buffIdx) + 1)
              && (size.Ok? ==>
                    r.Ok? && fresh(r.value) && r.value.video == video && r.value.nFrames == video.length
                    && r.value.width == size.value.0 && r.value.height == size.value.1
                    && r.value.idx == None && r.value.prevIdx == None && !r.value.play
                    && r.value.backward == backward && video.buffIdx == 0)
  {
    if !video.IsOpened() {
      return Err(ValueError);
    }
    var read := video.Read();
    if read.Err? {
      return Err(read.error);
    }
    var (ret, first) := read.value;
    if !ret {
      return Err(NameError);
    }
    match ResizeCalculator(first.value.width, first.value.height, targetWidth, targetHeight, ratio) {
      case Err(e) =>
        return Err(e);
      case Ok(size) =>
        var b := new Buffer(video, backward, size.0, size.1);
        r := Ok(b);
    }
  }
}
