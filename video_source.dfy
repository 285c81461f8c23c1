/**
 * backend/pipeline/video_source.py: a capture opened on the webcam or on a video file. The
 * capture device is not modelled; the frames it will yield are given when it is opened.
 */
module Video {
  import opened FaceDetection

  /** A `VideoSource` after `open()`: the frames still to be read start at `cursor`. */
  class VideoSource {
    const mode: string
    const path: string
    /** Every frame the capture yields, in order. */
    const frames: seq<Image>
    var cursor: nat
    var released: bool
    /** How many times `release` has run. */
    ghost var releaseCalls: nat

    ghost predicate Valid()
      reads this
    {
      cursor <= |frames|
    }

    /** `__init__` followed by `open()`: nothing read yet, not released. */
    constructor (mode: string, path: string, frames: seq<Image>)
      ensures Valid()
      ensures this.mode == mode && this.path == path && this.frames == frames
      ensures cursor == 0 && !released && releaseCalls == 0
    {
      this.mode := mode;
      this.path := path;
      this.frames := frames;
      cursor := 0;
      released := false;
      releaseCalls := 0;
    }

    /**
     * `read_frame`: the next frame, advancing by one; `ret` is false, and nothing changes, once
     * the capture is released or exhausted.
     */
    method ReadFrame() returns (ret: bool, frame: Image)
      requires Valid()
      modifies this
      ensures Valid()
      ensures ret <==> !old(released) && old(cursor) < |frames|
      ensures ret ==> frame == frames[old(cursor)] && cursor == old(cursor) + 1
      ensures !ret ==> cursor == old(cursor)
      ensures released == old(released) && releaseCalls == old(releaseCalls)
    {
      if released || cursor >= |frames| {
        return false, Image(0, 0);
      }
      frame := frames[cursor];
      cursor := cursor + 1;
      ret := true;
    }

    /** `release`: the capture yields no more frames. */
    method Release()
      modifies this
      ensures released && cursor == old(cursor) && releaseCalls == old(releaseCalls) + 1
    {
      released := true;
      releaseCalls := releaseCalls + 1;
    }
  }
}
