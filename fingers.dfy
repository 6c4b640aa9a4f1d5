/** Finger-state extraction: 21 hand landmarks become five up/down flags,
    ordered thumb, index, middle, ring, pinky. */
module Fingers {
  import opened Moves

  /** One landmark. Only the first two coordinates are ever read, and only
      compared, so they are exact reals here. */
  datatype Point = Point(x: real, y: real)

  /** Number of landmarks the detector reports per hand; every index the
      extractor reads is below it. */
  const LandmarkCount: nat := 21

  /** Tip landmarks of thumb, index, middle, ring and pinky. */
  const TipIds: seq<nat> := [4, 8, 12, 16, 20]

  /** The joints the tips are compared against. For fingers 1..4 the second
      reference joint is `PipIds[i] - 3`. */
  const PipIds: seq<nat> := [3, 6, 10, 14, 18]

  /** Squared planar distance. The extractor compares two Euclidean
      distances; the square root is monotone on non-negative values, so
      comparing the squares gives the same answer. */
  function SqDist(p: Point, q: Point): real
  {
    (p.x - q.x) * (p.x - q.x) + (p.y - q.y) * (p.y - q.y)
  }

  /** The thumb is up when its tip is farther from the wrist (landmark 0)
      than its reference joint is. */
  predicate ThumbUp(lm: seq<Point>)
    requires |lm| >= LandmarkCount
  {
    SqDist(lm[TipIds[0]], lm[0]) > SqDist(lm[PipIds[0]], lm[0])
  }

  /** Finger `i` in 1..4 is up when its tip lies strictly above (smaller y)
      both of its reference joints. */
  predicate LongFingerUp(lm: seq<Point>, i: nat)
    requires |lm| >= LandmarkCount && 1 <= i < 5
  {
    var tip, pip, mcp := lm[TipIds[i]], lm[PipIds[i]], lm[PipIds[i] - 3];
    tip.y < pip.y && tip.y < mcp.y
  }

  predicate FingerUp(lm: seq<Point>, i: nat)
    requires |lm| >= LandmarkCount && i < 5
  {
    if i == 0 then ThumbUp(lm) else LongFingerUp(lm, i)
  }

  /** The finger-state vector of a full landmark set, spelled out landmark
      by landmark. The second reference joint of fingers 1..4 is landmark
      3, 7, 11 or 15: the joint just below the previous finger's tip
      (landmark 3 belongs to the thumb), not the anatomical knuckle of the
      finger itself. */
  function FingerStates(lm: seq<Point>): (v: seq<bool>)
    requires |lm| >= LandmarkCount
    ensures |v| == 5
    ensures v[0] <==> SqDist(lm[4], lm[0]) > SqDist(lm[3], lm[0])
    ensures v[1] <==> lm[8].y < lm[6].y && lm[8].y < lm[3].y
    ensures v[2] <==> lm[12].y < lm[10].y && lm[12].y < lm[7].y
    ensures v[3] <==> lm[16].y < lm[14].y && lm[16].y < lm[11].y
    ensures v[4] <==> lm[20].y < lm[18].y && lm[20].y < lm[15].y
  {
    seq(5, i requires 0 <= i < 5 => FingerUp(lm, i))
  }

  /** The extractor proper. A landmark list shorter than 21 makes the
      extractor read a missing landmark and throw before anything changes;
      that outcome is `None`. */
  method GetFingersUp(lm: seq<Point>) returns (r: Option<seq<bool>>)
    ensures r.None? <==> |lm| < LandmarkCount
    ensures r.Some? ==> |r.value| == 5 && r.value == FingerStates(lm)
  {
    if |lm| < LandmarkCount {
      return None;
    }
    var thumbUp := SqDist(lm[TipIds[0]], lm[0]) > SqDist(lm[PipIds[0]], lm[0]);
    var fingers := [thumbUp];
    for i := 1 to 5
      invariant |fingers| == i
      invariant forall j :: 0 <= j < i ==> fingers[j] == FingerUp(lm, j)
    {
      var tip, pip, mcp := lm[TipIds[i]], lm[PipIds[i]], lm[PipIds[i] - 3];
      fingers := fingers + [tip.y < pip.y && tip.y < mcp.y];
    }
    return Some(fingers);
  }

  /** Comparing squared distances agrees with comparing the distances: for
      non-negative lengths, d1 > d2 exactly when d1 * d1 > d2 * d2. */
  lemma SquaresOrderLikeLengths(d1: real, d2: real)
    requires d1 >= 0.0 && d2 >= 0.0
    ensures d1 > d2 <==> d1 * d1 > d2 * d2
  {
    if d1 > d2 {
      var a, b := d1 - d2, d1 + d2;
      assert a > 0.0 && b > 0.0;
      assert a * b > 0.0;
      assert d1 * d1 - d2 * d2 == a * b;
    } else {
      assert d2 * d2 >= d2 * d1 >= d1 * d1;
    }
  }

  /** The thumb test decided on the two Euclidean distances themselves: if
      `d1` and `d2` are the lengths from the wrist to landmarks 4 and 3,
      the thumb is up exactly when `d1 > d2`. */
  lemma ThumbUpBySquareRoots(lm: seq<Point>, d1: real, d2: real)
    requires |lm| >= LandmarkCount && d1 >= 0.0 && d2 >= 0.0
    requires d1 * d1 == SqDist(lm[4], lm[0]) && d2 * d2 == SqDist(lm[3], lm[0])
    ensures ThumbUp(lm) <==> d1 > d2
  {
    SquaresOrderLikeLengths(d1, d2);
  }
}
