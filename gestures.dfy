/** Gesture classification of a finger-state vector
    [thumb, index, middle, ring, pinky]. */
module Gestures {
  import opened Moves

  /** The foul pattern: middle finger up, index, ring and pinky down; the
      thumb is not looked at. */
  predicate IsMiddleFinger(v: seq<bool>): (r: bool)
    requires |v| == 5
    ensures r <==> v[1..] == [false, true, false, false]
  {
    assert v[1..][0] == v[1] && v[1..][1] == v[2] && v[1..][2] == v[3] && v[1..][3] == v[4];
    v[2] && !v[1] && !v[3] && !v[4]
  }

  /** How many entries of `v` equal `b` (the length of a filter). */
  function Count(v: seq<bool>, b: bool): (n: nat)
    ensures n <= |v|
    ensures n == |v| <==> forall i :: 0 <= i < |v| ==> v[i] == b
  {
    if v == [] then 0 else (if v[0] == b then 1 else 0) + Count(v[1..], b)
  }

  /** Fingers up and fingers down always add up to five. */
  lemma {:induction false} CountSplit(v: seq<bool>)
    ensures Count(v, true) + Count(v, false) == |v|
  {
    if v != [] {
      CountSplit(v[1..]);
    }
  }

  /** The fixed-priority branch chain: at least four fingers down is Rock,
      else at least four up is Paper, else index and middle up with ring
      and pinky down is Scissors, else no move. By the number of raised
      fingers alone: Rock for at most one, Paper for four or five, Scissors
      for the index-and-middle pattern with either thumb, nothing otherwise;
      each vector falls in exactly one of these cases. */
  function ClassifyMove(v: seq<bool>): (r: Option<MoveCode>)
    requires |v| == 5
    ensures r == Some(Rock) <==> Count(v, true) <= 1
    ensures r == Some(Paper) <==> Count(v, true) >= 4
    ensures r == Some(Scissors) <==> v[1] && v[2] && !v[3] && !v[4]
    ensures r == None <==> 2 <= Count(v, true) <= 3 && !(v[1] && v[2] && !v[3] && !v[4])
  {
    CountSplit(v);
    ScissorsPatternBelowThresholds(v);
    if Count(v, false) >= 4 then Some(Rock)
    else if Count(v, true) >= 4 then Some(Paper)
    else if v[1] && v[2] && !v[3] && !v[4] then Some(Scissors)
    else None
  }

  /** The Scissors pattern has two or three fingers up, so neither
      majority threshold can claim it before the Scissors branch. */
  lemma ScissorsPatternBelowThresholds(v: seq<bool>)
    requires |v| == 5
    ensures v[1] && v[2] && !v[3] && !v[4] ==>
      2 <= Count(v, true) <= 3 && Count(v, false) < 4 && Count(v, true) < 4
  {
    if v[1] && v[2] && !v[3] && !v[4] {
      assert v == [v[0], true, true, false, false];
      assert Count(v[4..], true) == 0 && Count(v[4..], false) == 1;
      assert Count(v[3..], true) == 0 && Count(v[3..], false) == 2;
      assert Count(v[2..], true) == 1 && Count(v[2..], false) == 2;
      assert Count(v[1..], true) == 2 && Count(v[1..], false) == 2;
    }
  }

  /** Only the thumb raised counts as four fingers down, hence Rock. */
  lemma ThumbOnlyIsRock()
    ensures ClassifyMove([true, false, false, false, false]) == Some(Rock)
  {
  }

  /** When the foul check is skipped (outside a live countdown), the foul
      pattern is classified like any other vector: Rock with the thumb down,
      no move with the thumb up. */
  lemma MiddleFingerClassified(v: seq<bool>)
    requires |v| == 5 && IsMiddleFinger(v)
    ensures ClassifyMove(v) == if v[0] then None else Some(Rock)
  {
    assert v == [v[0], false, true, false, false];
    assert Count(v[4..], true) == 0;
    assert Count(v[3..], true) == 0;
    assert Count(v[2..], true) == 1;
    assert Count(v[1..], true) == 1;
  }
}
