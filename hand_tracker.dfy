/**
 * Reading the hand tracker's last detection result: the landmark list of one
 * hand, its fingertip pixels and the pixel centroid. The detector itself
 * (MediaPipe's `Hands.process`) is external; its result is a parameter.
 */
module HandTracking {
  import opened Wrappers
  import opened Landmarks

  /** A landmark as the detector reports it: normalised x and y, and a depth z. */
  datatype RawLandmark = RawLandmark(x: real, y: real, z: real)

  /**
   * The detector's result: `None` when there is no result or no
   * `multi_hand_landmarks`, otherwise one landmark list per detected hand.
   */
  type Results = Option<seq<seq<RawLandmark>>>

  /** `get_hand_landmarks(hand_index)`: the chosen hand as `(id, x, y, z)` tuples. */
  function GetHandLandmarks(results: Results, handIndex: nat): (r: Option<seq<Landmark>>)
    ensures r.None? <==> results.None? || handIndex >= |results.value|
    ensures r.Some? ==> |r.value| == |results.value[handIndex]|
    ensures r.Some? ==> forall i :: 0 <= i < |r.value| ==>
      var raw := results.value[handIndex][i];
      r.value[i] == Landmark(i, raw.x, raw.y, raw.z)
  {
    if results.Some? && |results.value| > 0 && handIndex < |results.value| then
      var raw := results.value[handIndex];
      Some(seq(|raw|, i requires 0 <= i < |raw| => Landmark(i, raw[i].x, raw[i].y, raw[i].z)))
    else
      None
  }

  /** The chosen hand, if any, has every fingertip (an empty list is treated as no hand). */
  predicate CompleteHand(results: Results, handIndex: nat)
  {
    var lm := GetHandLandmarks(results, handIndex);
    lm.Some? ==> |lm.value| == 0 || |lm.value| >= HandSize
  }

  /** The fingertip names of `get_finger_positions` with their landmark indices, in its order. */
  const FingerTips: seq<(string, nat)> :=
    [("thumb", 4), ("index", 8), ("middle", 12), ("ring", 16), ("pinky", 20)]

  /** `(int(lm.x * w), int(lm.y * h))`. */
  function PixelOf(l: Landmark, frameWidth: int, frameHeight: int): (int, int)
  {
    (PixelX(l, frameWidth), PixelY(l, frameHeight))
  }

  /** The map built by the first `n` iterations of the fingertip loop. */
  function TipMap(lm: seq<Landmark>, frameWidth: int, frameHeight: int, n: nat): map<string, (int, int)>
    requires n <= |FingerTips| && |lm| >= HandSize
  {
    if n == 0 then map[]
    else TipMap(lm, frameWidth, frameHeight, n - 1)[FingerTips[n - 1].0 := PixelOf(lm[FingerTips[n - 1].1], frameWidth, frameHeight)]
  }

  lemma TipMapComplete(lm: seq<Landmark>, frameWidth: int, frameHeight: int)
    requires |lm| >= HandSize
    ensures TipMap(lm, frameWidth, frameHeight, |FingerTips|) == map[
      "thumb" := PixelOf(lm[4], frameWidth, frameHeight),
      "index" := PixelOf(lm[8], frameWidth, frameHeight),
      "middle" := PixelOf(lm[12], frameWidth, frameHeight),
      "ring" := PixelOf(lm[16], frameWidth, frameHeight),
      "pinky" := PixelOf(lm[20], frameWidth, frameHeight)]
  {
    assert FingerTips[0] == ("thumb", 4) && FingerTips[1] == ("index", 8) && FingerTips[2] == ("middle", 12);
    assert FingerTips[3] == ("ring", 16) && FingerTips[4] == ("pinky", 20);
    var t := PixelOf(lm[4], frameWidth, frameHeight);
    var i := PixelOf(lm[8], frameWidth, frameHeight);
    var m := PixelOf(lm[12], frameWidth, frameHeight);
    var r := PixelOf(lm[16], frameWidth, frameHeight);
    var p := PixelOf(lm[20], frameWidth, frameHeight);
    assert TipMap(lm, frameWidth, frameHeight, 1) == map["thumb" := t];
    assert TipMap(lm, frameWidth, frameHeight, 2) == map["thumb" := t, "index" := i];
    assert TipMap(lm, frameWidth, frameHeight, 3) == map["thumb" := t, "index" := i, "middle" := m];
    assert TipMap(lm, frameWidth, frameHeight, 4) == map["thumb" := t, "index" := i, "middle" := m, "ring" := r];
  }

  /**
   * `get_finger_positions`: no result without a non-empty hand; otherwise
   * exactly the five fingertip names, each mapped to the pixel of its tip.
   */
  method GetFingerPositions(results: Results, frameWidth: int, frameHeight: int, handIndex: nat)
    returns (positions: Option<map<string, (int, int)>>)
    requires CompleteHand(results, handIndex)
    ensures var lm := GetHandLandmarks(results, handIndex);
      positions.None? <==> lm.None? || |lm.value| == 0
    ensures positions.Some? ==>
      var lm := GetHandLandmarks(results, handIndex).value;
      positions.value == map[
        "thumb" := PixelOf(lm[4], frameWidth, frameHeight),
        "index" := PixelOf(lm[8], frameWidth, frameHeight),
        "middle" := PixelOf(lm[12], frameWidth, frameHeight),
        "ring" := PixelOf(lm[16], frameWidth, frameHeight),
        "pinky" := PixelOf(lm[20], frameWidth, frameHeight)]
  {
    var landmarks := GetHandLandmarks(results, handIndex);
    if landmarks.None? || |landmarks.value| == 0 {
      return None;
    }
    var lm := landmarks.value;
    var acc: map<string, (int, int)> := map[];
    for i := 0 to |FingerTips|
      invariant acc == TipMap(lm, frameWidth, frameHeight, i)
    {
      var name, tipId := FingerTips[i].0, FingerTips[i].1;
      acc := acc[name := PixelOf(lm[tipId], frameWidth, frameHeight)];
    }
    TipMapComplete(lm, frameWidth, frameHeight);
    return Some(acc);
  }

  function Sum(vals: seq<real>): real
  {
    if vals == [] then 0.0 else vals[0] + Sum(vals[1..])
  }

  /** `np.mean`. */
  function Mean(vals: seq<real>): real
    requires |vals| > 0
  {
    Sum(vals) / |vals| as real
  }

  /** `[lm[1] for lm in landmarks]`. */
  function Xs(lm: seq<Landmark>): (xs: seq<real>)
    ensures |xs| == |lm| && forall i :: 0 <= i < |lm| ==> xs[i] == lm[i].x
  {
    seq(|lm|, i requires 0 <= i < |lm| => lm[i].x)
  }

  /** `[lm[2] for lm in landmarks]`. */
  function Ys(lm: seq<Landmark>): (ys: seq<real>)
    ensures |ys| == |lm| && forall i :: 0 <= i < |lm| ==> ys[i] == lm[i].y
  {
    seq(|lm|, i requires 0 <= i < |lm| => lm[i].y)
  }

  /** `get_hand_center`: the mean landmark position scaled to pixels and truncated. */
  function GetHandCenter(results: Results, frameWidth: int, frameHeight: int, handIndex: nat): (r: Option<(int, int)>)
    ensures var lm := GetHandLandmarks(results, handIndex);
      r.None? <==> lm.None? || |lm.value| == 0
  {
    var landmarks := GetHandLandmarks(results, handIndex);
    if landmarks.None? || |landmarks.value| == 0 then None
    else
      Some(CenterOf(landmarks.value, frameWidth, frameHeight))
  }

  /** The mean landmark of a non-empty list, scaled to pixels and truncated. */
  function CenterOf(lm: seq<Landmark>, frameWidth: int, frameHeight: int): (int, int)
    requires |lm| > 0
  {
    (Trunc(Mean(Xs(lm)) * frameWidth as real), Trunc(Mean(Ys(lm)) * frameHeight as real))
  }

  lemma {:induction false} SumBounds(vals: seq<real>)
    requires forall i :: 0 <= i < |vals| ==> 0.0 <= vals[i] <= 1.0
    ensures 0.0 <= Sum(vals) <= |vals| as real
  {
    if vals != [] {
      SumBounds(vals[1..]);
    }
  }

  /** A quotient of a value in `[0, n]` by a positive `n` lies in `[0, 1]`. */
  lemma QuotientInUnit(s: real, n: real)
    requires n > 0.0 && 0.0 <= s <= n
    ensures 0.0 <= s / n <= 1.0
  {
  }

  /** The mean of values in `[0, 1]`, scaled by a non-negative size and truncated, lies in `[0, size]`. */
  lemma ScaledMeanInRange(vals: seq<real>, size: int)
    requires |vals| > 0 && size >= 0
    requires forall i :: 0 <= i < |vals| ==> 0.0 <= vals[i] <= 1.0
    ensures 0 <= Trunc(Mean(vals) * size as real) <= size
  {
    SumBounds(vals);
    var m := Mean(vals);
    QuotientInUnit(Sum(vals), |vals| as real);
    assert 0.0 <= m <= 1.0;
    assert m * size as real <= size as real by {
      assert m * size as real <= 1.0 * size as real;
    }
    TruncMonotone(m * size as real, size as real);
    TruncOfInt(size);
  }

  /** With every landmark inside the frame, the centre lies in `[0, w] x [0, h]`. */
  lemma HandCenterInFrame(results: Results, frameWidth: int, frameHeight: int, handIndex: nat)
    requires frameWidth >= 0 && frameHeight >= 0
    requires results.Some? && handIndex < |results.value|
    requires forall i :: 0 <= i < |results.value[handIndex]| ==>
      var p := results.value[handIndex][i];
      0.0 <= p.x <= 1.0 && 0.0 <= p.y <= 1.0
    ensures var c := GetHandCenter(results, frameWidth, frameHeight, handIndex);
      c.Some? ==> 0 <= c.value.0 <= frameWidth && 0 <= c.value.1 <= frameHeight
  {
    var lm := GetHandLandmarks(results, handIndex).value;
    if |lm| > 0 {
      ScaledMeanInRange(Xs(lm), frameWidth);
      ScaledMeanInRange(Ys(lm), frameHeight);
    }
  }

  lemma {:induction false} SumConstant(vals: seq<real>, v: real)
    requires forall i :: 0 <= i < |vals| ==> vals[i] == v
    ensures Sum(vals) == |vals| as real * v
  {
    if vals != [] {
      SumConstant(vals[1..], v);
    }
  }

  lemma MeanOfConstant(vals: seq<real>, v: real)
    requires |vals| > 0
    requires forall i :: 0 <= i < |vals| ==> vals[i] == v
    ensures Mean(vals) == v
  {
    SumConstant(vals, v);
    var n := |vals| as real;
    assert n * v / n == v;
  }

  lemma CenterOfSinglePoint(lm: seq<Landmark>, frameWidth: int, frameHeight: int, x: real, y: real)
    requires |lm| > 0
    requires forall i :: 0 <= i < |lm| ==> lm[i].x == x && lm[i].y == y
    ensures CenterOf(lm, frameWidth, frameHeight).0 == Trunc(x * frameWidth as real)
    ensures CenterOf(lm, frameWidth, frameHeight).1 == Trunc(y * frameHeight as real)
  {
    MeanOfConstant(Xs(lm), x);
    MeanOfConstant(Ys(lm), y);
  }

  /** When every landmark sits at the same point, the centre is that point's pixel. */
  lemma HandCenterOfSinglePoint(results: Results, frameWidth: int, frameHeight: int, handIndex: nat, x: real, y: real)
    requires results.Some? && handIndex < |results.value| && |results.value[handIndex]| > 0
    requires forall i :: 0 <= i < |results.value[handIndex]| ==>
      results.value[handIndex][i].x == x && results.value[handIndex][i].y == y
    ensures var c := GetHandCenter(results, frameWidth, frameHeight, handIndex);
      c.Some? && c.value.0 == Trunc(x * frameWidth as real) && c.value.1 == Trunc(y * frameHeight as real)
  {
    var lm := GetHandLandmarks(results, handIndex).value;
    CenterOfSinglePoint(lm, frameWidth, frameHeight, x, y);
  }
}
