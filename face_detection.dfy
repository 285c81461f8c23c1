/**
 * The post-processing of backend/models/face_detector.py: the raw detector (MTCNN) is abstract;
 * `detect` turns its output into the list of usable face boxes.
 */
module FaceDetection {
  import opened Wrappers

  /** A decoded image or a crop of one: its element count (`.size`) and an opaque pixel handle. */
  datatype Image = Image(size: nat, pixels: nat)

  /** A face bounding box `(x, y, w, h)`. */
  datatype Box = Box(x: int, y: int, w: int, h: int)

  /** One raw detection: its `"box"` entry, which may be missing. */
  datatype Detection = Detection(box: Option<Box>)

  /** What the raw detector does on one frame: raise, or return its detections. */
  datatype DetectorOutcome = Raised | Detections(faces: seq<Detection>)

  /** `f.get("box", (0, 0, 0, 0))`. */
  function BoxOf(d: Detection): Box {
    d.box.GetOr(Box(0, 0, 0, 0))
  }

  /** A box with positive width and height. */
  predicate Usable(b: Box) {
    b.w > 0 && b.h > 0
  }

  /** The boxes of the raw detections, in order. */
  function BoxesOf(ds: seq<Detection>): (bs: seq<Box>)
    ensures |bs| == |ds|
    ensures forall i :: 0 <= i < |ds| ==> bs[i] == BoxOf(ds[i])
  {
    seq(|ds|, i requires 0 <= i < |ds| => BoxOf(ds[i]))
  }

  /** The usable boxes among the raw detections, in their original order. */
  function Kept(ds: seq<Detection>): (bs: seq<Box>)
    ensures |bs| <= |ds|
    ensures forall i :: 0 <= i < |bs| ==> Usable(bs[i])
    ensures forall b :: b in bs <==> Usable(b) && b in BoxesOf(ds)
    decreases |ds|
  {
    if ds == [] then []
    else
      var last := BoxOf(ds[|ds| - 1]);
      assert BoxesOf(ds) == BoxesOf(ds[..|ds| - 1]) + [last];
      Kept(ds[..|ds| - 1]) + (if Usable(last) then [last] else [])
  }

  /** What `detect` returns for one raw outcome: nothing when the detector raised. */
  function DetectedBoxes(o: DetectorOutcome): seq<Box> {
    match o
    case Raised => []
    case Detections(ds) => Kept(ds)
  }

  /** `a` is `b` with some elements removed, order kept. */
  ghost predicate IsSubsequence<T>(a: seq<T>, b: seq<T>)
    decreases |b|
  {
    if a == [] then true
    else if b == [] then false
    else (a[|a| - 1] == b[|b| - 1] && IsSubsequence(a[..|a| - 1], b[..|b| - 1]))
         || IsSubsequence(a, b[..|b| - 1])
  }

  /** The kept boxes are a subsequence of the raw boxes: a filter keeps the original order. */
  lemma {:induction false} KeptIsSubsequence(ds: seq<Detection>)
    ensures IsSubsequence(Kept(ds), BoxesOf(ds))
    decreases |ds|
  {
    if ds != [] {
      var init := ds[..|ds| - 1];
      var last := BoxOf(ds[|ds| - 1]);
      KeptIsSubsequence(init);
      assert BoxesOf(ds) == BoxesOf(init) + [last];
      assert BoxesOf(ds)[..|ds| - 1] == BoxesOf(init);
      if Usable(last) {
        var k := Kept(ds);
        assert k == Kept(init) + [last];
        assert k[..|k| - 1] == Kept(init);
      } else {
        assert Kept(ds) == Kept(init);
        SubsequenceOfLonger(Kept(init), BoxesOf(init), last);
      }
    }
  }

  /** A subsequence of `b` is a subsequence of `b` extended by one element. */
  lemma SubsequenceOfLonger<T>(a: seq<T>, b: seq<T>, x: T)
    requires IsSubsequence(a, b)
    ensures IsSubsequence(a, b + [x])
  {
    assert (b + [x])[..|b|] == b;
  }

  /** A detection without a `"box"` entry is always dropped. */
  lemma MissingBoxDropped(ds: seq<Detection>)
    requires forall i :: 0 <= i < |ds| ==> ds[i].box.None?
    ensures Kept(ds) == []
  {
  }

  /** One more detection extends the kept boxes by its box when that box is usable. */
  lemma KeptSnoc(ds: seq<Detection>, d: Detection)
    ensures Kept(ds + [d]) == Kept(ds) + (if Usable(BoxOf(d)) then [BoxOf(d)] else [])
  {
    assert (ds + [d])[..|ds|] == ds;
  }

  /**
   * Each usable box is kept exactly as often as it occurs among the detections' boxes, and an
   * unusable one never.
   */
  lemma {:induction false} KeptCounts(ds: seq<Detection>)
    ensures forall b :: multiset(Kept(ds))[b] == if Usable(b) then multiset(BoxesOf(ds))[b] else 0
    decreases |ds|
  {
    if ds != [] {
      var init, d := ds[..|ds| - 1], ds[|ds| - 1];
      KeptCounts(init);
      assert ds == init + [d];
      KeptSnoc(init, d);
      assert BoxesOf(ds) == BoxesOf(init) + [BoxOf(d)];
    }
  }

  /**
   * `FaceDetector.detect`: run the raw detector's outcome through the filter loop; a detector
   * that raised yields no boxes.
   */
  method Detect(o: DetectorOutcome) returns (boxes: seq<Box>)
    ensures boxes == DetectedBoxes(o)
    ensures forall i :: 0 <= i < |boxes| ==> Usable(boxes[i])
    ensures o.Detections? ==> |boxes| <= |o.faces|
  {
    if o.Raised? {
      return [];
    }
    var faces := o.faces;
    boxes := [];
    for i := 0 to |faces|
      invariant boxes == Kept(faces[..i])
    {
      var b := BoxOf(faces[i]);
      assert faces[..i + 1] == faces[..i] + [faces[i]];
      KeptSnoc(faces[..i], faces[i]);
      if b.w > 0 && b.h > 0 {
        boxes := boxes + [b];
      }
    }
    assert faces[..|faces|] == faces;
  }
}
