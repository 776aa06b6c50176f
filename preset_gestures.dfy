/**
 * The preset gesture tests: pure predicates over one hand's landmarks, the
 * frame size that turns them into pixels, and a touch threshold in pixels.
 */
module Gestures {
  import opened Landmarks

  datatype Finger = Thumb | Index | Middle | Ring | Pinky

  /** The landmark index of each fingertip. */
  function Tip(f: Finger): (i: nat)
    ensures i < HandSize && i % 4 == 0 && i >= 4
  {
    match f
    case Thumb => 4
    case Index => 8
    case Middle => 12
    case Ring => 16
    case Pinky => 20
  }

  lemma TipInjective(f: Finger, g: Finger)
    ensures Tip(f) == Tip(g) <==> f == g
  {
  }

  /** The stored state of one gesture evaluation: landmarks, frame size, threshold. */
  datatype PresetGestures = PresetGestures(lm: seq<Landmark>, w: int, h: int, th: int)

  /** The threshold used when none is given. */
  const DefaultThreshold: int := 40

  function WithDefaultThreshold(lm: seq<Landmark>, w: int, h: int): PresetGestures
  {
    PresetGestures(lm, w, h, DefaultThreshold)
  }

  /** Every fingertip index can be looked up (the touch tests index up to 20). */
  predicate FullHand(g: PresetGestures)
  {
    |g.lm| >= HandSize
  }

  /**
   * The squared pixel distance between landmarks `p1` and `p2`; the program
   * takes its square root, the model compares squares instead.
   */
  function Distance2(g: PresetGestures, p1: nat, p2: nat): (d: int)
    requires p1 < |g.lm| && p2 < |g.lm|
    ensures d >= 0
    ensures p1 == p2 ==> d == 0
  {
    var x1 := PixelX(g.lm[p1], g.w);
    var y1 := PixelY(g.lm[p1], g.h);
    var x2 := PixelX(g.lm[p2], g.w);
    var y2 := PixelY(g.lm[p2], g.h);
    Square(x1 - x2) + Square(y1 - y2)
  }

  lemma DistanceSymmetric(g: PresetGestures, p1: nat, p2: nat)
    requires p1 < |g.lm| && p2 < |g.lm|
    ensures Distance2(g, p1, p2) == Distance2(g, p2, p1)
  {
  }

  /** The distance sees only the truncated pixel coordinates of the two points. */
  lemma DistanceOnlyPixels(g: PresetGestures, g': PresetGestures, p1: nat, p2: nat)
    requires p1 < |g.lm| && p2 < |g.lm| && p1 < |g'.lm| && p2 < |g'.lm|
    requires PixelX(g.lm[p1], g.w) == PixelX(g'.lm[p1], g'.w)
    requires PixelY(g.lm[p1], g.h) == PixelY(g'.lm[p1], g'.h)
    requires PixelX(g.lm[p2], g.w) == PixelX(g'.lm[p2], g'.w)
    requires PixelY(g.lm[p2], g.h) == PixelY(g'.lm[p2], g'.h)
    ensures Distance2(g, p1, p2) == Distance2(g', p1, p2)
  {
  }

  /** `sqrt(d2) < th`, stated without a square root. */
  predicate Below(d2: int, th: int)
  {
    th > 0 && d2 < th * th
  }

  /**
   * `Below` is exactly the program's test: for the Euclidean distance `s`
   * (any non-negative `s` with `s * s == d2`), `s < th` holds iff `Below`.
   */
  lemma BelowIsEuclidean(d2: int, th: int, s: real)
    requires s >= 0.0 && s * s == d2 as real
    ensures Below(d2, th) <==> s < th as real
  {
    var t := th as real;
    if s < t {
      assert 0.0 < t;
      assert s * s < t * t by {
        assert s * s <= s * t;
        assert s * t < t * t;
      }
      assert d2 < th * th;
    }
    if s >= t && t > 0.0 {
      assert s * s >= t * s >= t * t;
      assert !Below(d2, th);
    }
  }

  /** `_distance(tips[f], tips['thumb']) < th`: fingertip `f` touches the thumb tip. */
  predicate Touches(g: PresetGestures, f: Finger)
    requires FullHand(g)
  {
    Below(Distance2(g, Tip(f), Tip(Thumb)), g.th)
  }

  /** A touch at exactly the threshold distance does not fire. */
  lemma TouchIsStrict(g: PresetGestures, f: Finger)
    requires FullHand(g)
    ensures Touches(g, f) <==> g.th > 0 && Distance2(g, Tip(f), Tip(Thumb)) < g.th * g.th
    ensures Distance2(g, Tip(f), Tip(Thumb)) == g.th * g.th ==> !Touches(g, f)
  {
  }

  /** `_group_touch`: every non-thumb finger of the group touches the thumb. */
  predicate GroupTouch(g: PresetGestures, group: seq<Finger>)
    requires FullHand(g)
    decreases |group|
  {
    if group == [] then true
    else (group[0] == Thumb || Touches(g, group[0])) && GroupTouch(g, group[1..])
  }

  /** The generator in `_group_touch` as a universal statement over the group. */
  lemma {:induction false} GroupTouchMeaning(g: PresetGestures, group: seq<Finger>)
    requires FullHand(g)
    ensures GroupTouch(g, group) <==> forall f :: f in group && f != Thumb ==> Touches(g, f)
    decreases |group|
  {
    if group != [] {
      GroupTouchMeaning(g, group[1..]);
      assert forall f :: f in group <==> f == group[0] || f in group[1..];
    }
  }

  /** A group with no finger other than the thumb always touches. */
  lemma GroupTouchVacuous(g: PresetGestures, group: seq<Finger>)
    requires FullHand(g)
    requires forall f :: f in group ==> f == Thumb
    ensures GroupTouch(g, group)
  {
    GroupTouchMeaning(g, group);
  }

  /** Adding the thumb anywhere in a group never changes the result. */
  lemma GroupTouchIgnoresThumb(g: PresetGestures, a: seq<Finger>, b: seq<Finger>)
    requires FullHand(g)
    ensures GroupTouch(g, a + [Thumb] + b) == GroupTouch(g, a + b)
  {
    GroupTouchMeaning(g, a + [Thumb] + b);
    GroupTouchMeaning(g, a + b);
    assert forall f :: f in a + [Thumb] + b && f != Thumb <==> f in a + b && f != Thumb;
  }

  /** A larger group is harder to satisfy: group touch is antitone in the group. */
  lemma GroupTouchAntitone(g: PresetGestures, small: seq<Finger>, large: seq<Finger>)
    requires FullHand(g)
    requires forall f :: f in small ==> f in large
    ensures GroupTouch(g, large) ==> GroupTouch(g, small)
  {
    GroupTouchMeaning(g, small);
    GroupTouchMeaning(g, large);
  }

  /** The tips whose fingers must be folded, each compared with the joint two below it. */
  const FoldedTips: seq<nat> := [12, 16, 20]

  /** 1. A fist with the index finger pointing up. */
  predicate IsFistAndIndexUp(g: PresetGestures)
  {
    if |g.lm| < HandSize then false
    else
      var indexExtended := g.lm[8].y < g.lm[6].y - 0.03;
      var othersFolded := forall i :: 0 <= i < |FoldedTips| ==>
        g.lm[FoldedTips[i]].y > g.lm[FoldedTips[i] - 2].y + 0.015;
      indexExtended && othersFolded
  }

  /** The fist test, fixed offsets written out; short landmark lists never match. */
  lemma FistAndIndexUpMeaning(g: PresetGestures)
    ensures |g.lm| < HandSize ==> !IsFistAndIndexUp(g)
    ensures IsFistAndIndexUp(g) <==>
      |g.lm| >= HandSize
      && g.lm[8].y < g.lm[6].y - 0.03
      && g.lm[12].y > g.lm[10].y + 0.015
      && g.lm[16].y > g.lm[14].y + 0.015
      && g.lm[20].y > g.lm[18].y + 0.015
  {
    if |g.lm| >= HandSize {
      assert FoldedTips[0] == 12 && FoldedTips[1] == 16 && FoldedTips[2] == 20;
    }
  }

  /** The fist test reads only y coordinates: not x, z, the frame size or the threshold. */
  lemma FistAndIndexUpOnlyY(g: PresetGestures, g': PresetGestures)
    requires |g.lm| == |g'.lm|
    requires forall i :: 0 <= i < |g.lm| ==> g.lm[i].y == g'.lm[i].y
    ensures IsFistAndIndexUp(g) == IsFistAndIndexUp(g')
  {
    FistAndIndexUpMeaning(g);
    FistAndIndexUpMeaning(g');
  }

  /** 2. Thumb touches middle and ring. */
  predicate IsThumbMiddleRing(g: PresetGestures)
    requires FullHand(g)
  {
    GroupTouch(g, [Middle, Ring])
  }

  /** 3. Thumb touches index. */
  predicate IsThumbAndIndex(g: PresetGestures)
    requires FullHand(g)
  {
    GroupTouch(g, [Index])
  }

  /** 4. Thumb touches middle. */
  predicate IsThumbAndMiddle(g: PresetGestures)
    requires FullHand(g)
  {
    GroupTouch(g, [Middle])
  }

  /** 5. Thumb touches ring. */
  predicate IsThumbAndRing(g: PresetGestures)
    requires FullHand(g)
  {
    GroupTouch(g, [Ring])
  }

  /** 6. Thumb touches pinky. */
  predicate IsThumbAndPinky(g: PresetGestures)
    requires FullHand(g)
  {
    GroupTouch(g, [Pinky])
  }

  /** 7. Thumb touches index and middle. */
  predicate IsThumbIndexMiddle(g: PresetGestures)
    requires FullHand(g)
  {
    GroupTouch(g, [Index, Middle])
  }

  /** 8. Thumb touches ring and pinky. */
  predicate IsThumbRingPinky(g: PresetGestures)
    requires FullHand(g)
  {
    GroupTouch(g, [Ring, Pinky])
  }

  /** Each single-finger gesture is exactly one fingertip touching the thumb tip. */
  lemma SingleTouchMeaning(g: PresetGestures)
    requires FullHand(g)
    ensures IsThumbAndIndex(g) == Touches(g, Index)
    ensures IsThumbAndMiddle(g) == Touches(g, Middle)
    ensures IsThumbAndRing(g) == Touches(g, Ring)
    ensures IsThumbAndPinky(g) == Touches(g, Pinky)
  {
    GroupTouchMeaning(g, [Index]);
    GroupTouchMeaning(g, [Middle]);
    GroupTouchMeaning(g, [Ring]);
    GroupTouchMeaning(g, [Pinky]);
  }

  /** The three-finger gestures are the conjunctions of the two-finger ones. */
  lemma CompositeGestures(g: PresetGestures)
    requires FullHand(g)
    ensures IsThumbMiddleRing(g) == (IsThumbAndMiddle(g) && IsThumbAndRing(g))
    ensures IsThumbIndexMiddle(g) == (IsThumbAndIndex(g) && IsThumbAndMiddle(g))
    ensures IsThumbRingPinky(g) == (IsThumbAndRing(g) && IsThumbAndPinky(g))
  {
    SingleTouchMeaning(g);
    GroupTouchMeaning(g, [Middle, Ring]);
    GroupTouchMeaning(g, [Index, Middle]);
    GroupTouchMeaning(g, [Ring, Pinky]);
  }
}
