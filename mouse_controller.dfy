/**
 * The pointer controller: mapping hand positions in the camera frame to
 * screen positions, the low-pass filter on the cursor, and the drag state
 * machine. The OS mouse (autopy, pynput) is an opaque sink; the model keeps
 * the calls that took effect as a ghost event log, and every call takes a
 * flag saying whether the OS call succeeded (a failed call raises inside a
 * `try` and is only printed).
 */
module MouseControl {
  import opened Wrappers
  import opened Landmarks

  datatype Button = Left | Right

  /** One OS mouse call that took effect. `Scroll(dy)` is `scroll(0, dy)`. */
  datatype Event = Move(x: int, y: int) | Click(button: Button) | Press | Release | Scroll(dy: real)

  predicate IsDragEvent(e: Event) { e.Press? || e.Release? }
  predicate IsLeftClick(e: Event) { e == Click(Left) }
  predicate IsClickOrDrag(e: Event) { e.Click? || e.Press? || e.Release? }
  predicate IsScroll(e: Event) { e.Scroll? }
  predicate IsMove(e: Event) { e.Move? }

  /** The events of `es` that satisfy `p`, in order. */
  function Filter(es: seq<Event>, p: Event -> bool): (r: seq<Event>)
    ensures |r| <= |es|
    ensures forall i :: 0 <= i < |r| ==> p(r[i])
  {
    if es == [] then [] else (if p(es[0]) then [es[0]] else []) + Filter(es[1..], p)
  }

  lemma {:induction false} FilterAppend(a: seq<Event>, b: seq<Event>, p: Event -> bool)
    ensures Filter(a + b, p) == Filter(a, p) + Filter(b, p)
  {
    if a == [] {
      assert a + b == b;
    } else {
      assert (a + b)[1..] == a[1..] + b;
      FilterAppend(a[1..], b, p);
    }
  }

  /** A log with no event satisfying `p` filters to nothing. */
  lemma {:induction false} FilterNone(es: seq<Event>, p: Event -> bool)
    requires forall i :: 0 <= i < |es| ==> !p(es[i])
    ensures Filter(es, p) == []
  {
    if es != [] {
      FilterNone(es[1..], p);
    }
  }

  /** A log whose every event satisfies `p` filters to itself. */
  lemma {:induction false} FilterAll(es: seq<Event>, p: Event -> bool)
    requires forall i :: 0 <= i < |es| ==> p(es[i])
    ensures Filter(es, p) == es
  {
    if es != [] {
      FilterAll(es[1..], p);
      assert [es[0]] + es[1..] == es;
    }
  }

  /** The fixed border of the camera frame that maps onto the screen edges. */
  const DefaultMargin: int := 100
  /** The default smoothing factor of the cursor filter. */
  const DefaultSmoothing: real := 7.0

  /** The controller's fixed settings: frame and screen sizes, smoothing and margin. */
  datatype MouseConfig = MouseConfig(
    frameWidth: int, frameHeight: int,
    screenWidth: real, screenHeight: real,
    smoothing: real, margin: int)

  /** The coordinate conversion divides by `frame - 2 * margin` on both axes. */
  predicate CanConvert(c: MouseConfig)
  {
    c.frameWidth != 2 * c.margin && c.frameHeight != 2 * c.margin
  }

  /** The frame is wider and higher than its two margins. */
  predicate RegularFrame(c: MouseConfig)
  {
    c.frameWidth > 2 * c.margin && c.frameHeight > 2 * c.margin
  }

  /** A smoothed move also divides by the smoothing factor. */
  predicate CanMove(c: MouseConfig)
  {
    CanConvert(c) && c.smoothing != 0.0
  }

  function Min(a: int, b: int): int { if a <= b then a else b }
  function Max(a: int, b: int): int { if a >= b then a else b }

  /** `np.clip(v, lo, hi)`, which is `min(max(v, lo), hi)`. */
  function Clip(v: int, lo: int, hi: int): int
  {
    Min(Max(v, lo), hi)
  }

  function RealAbs(r: real): real { if r >= 0.0 then r else -r }

  lemma QuotientInUnit(a: real, b: real)
    requires b > 0.0 && 0.0 <= a <= b
    ensures 0.0 <= a / b <= 1.0
  {
    var q := a / b;
    assert q * b == a;
  }

  lemma DivideBySelf(b: real)
    requires b != 0.0
    ensures b / b == 1.0
  {
  }

  /** The clamped coordinate as a share of the span between the margins. */
  function Normalize(v: int, size: int, margin: int): (n: real)
    requires size != 2 * margin
    ensures size > 2 * margin ==> 0.0 <= n <= 1.0
    ensures size > 2 * margin && v <= margin ==> n == 0.0
    ensures v >= size - margin || size < 2 * margin ==> n == 1.0
  {
    var clamped := Clip(v, margin, size - margin);
    var span := (size - 2 * margin) as real;
    var offset := (clamped - margin) as real;
    if size > 2 * margin then
      QuotientInUnit(offset, span);
      if v >= size - margin then
        assert offset == span;
        DivideBySelf(span);
        offset / span
      else
        offset / span
    else
      assert offset == span;
      DivideBySelf(span);
      offset / span
  }

  /** A share in `[0, 1]` of a non-negative size truncates into `[0, Trunc(size)]`. */
  lemma ScaledShareInRange(n: real, screen: real)
    requires 0.0 <= n <= 1.0 && screen >= 0.0
    ensures 0 <= Trunc(n * screen) <= Trunc(screen)
  {
    MulLeq(n, 1.0, screen);
    MulLeq(0.0, n, screen);
    TruncMonotone(n * screen, screen);
  }

  /**
   * One axis of `convert_coordinates`: clamp into `[margin, size - margin]`,
   * normalise to `[0, 1]`, scale by the screen size and truncate.
   */
  function ConvertAxis(v: int, size: int, margin: int, screen: real): (r: int)
    requires size != 2 * margin
    ensures size > 2 * margin && screen >= 0.0 ==> 0 <= r <= Trunc(screen)
    ensures size > 2 * margin && v <= margin ==> r == 0
    ensures v >= size - margin ==> r == Trunc(screen)
    ensures size < 2 * margin ==> r == Trunc(screen)
  {
    var n := Normalize(v, size, margin);
    if size > 2 * margin && screen >= 0.0 then
      ScaledShareInRange(n, screen);
      Trunc(n * screen)
    else
      Trunc(n * screen)
  }

  lemma MulLeq(a: real, b: real, c: real)
    requires a <= b && c >= 0.0
    ensures a * c <= b * c
  {
  }

  /** The conversion is monotone: a point further right never lands further left. */
  lemma ConvertAxisMonotone(v1: int, v2: int, size: int, margin: int, screen: real)
    requires size > 2 * margin && screen >= 0.0
    requires v1 <= v2
    ensures ConvertAxis(v1, size, margin, screen) <= ConvertAxis(v2, size, margin, screen)
  {
    var span := (size - 2 * margin) as real;
    var n1 := (Clip(v1, margin, size - margin) - margin) as real / span;
    var n2 := (Clip(v2, margin, size - margin) - margin) as real / span;
    assert n1 <= n2;
    MulLeq(n1, n2, screen);
    TruncMonotone(n1 * screen, n2 * screen);
  }

  /** `convert_coordinates`: a frame position to a screen position. */
  function ConvertCoordinates(c: MouseConfig, x: int, y: int): (r: (int, int))
    requires CanConvert(c)
    ensures RegularFrame(c) && c.screenWidth >= 0.0 ==> 0 <= r.0 <= Trunc(c.screenWidth)
    ensures RegularFrame(c) && c.screenHeight >= 0.0 ==> 0 <= r.1 <= Trunc(c.screenHeight)
    ensures RegularFrame(c) && x <= c.margin ==> r.0 == 0
    ensures RegularFrame(c) && y <= c.margin ==> r.1 == 0
    ensures x >= c.frameWidth - c.margin || c.frameWidth < 2 * c.margin ==> r.0 == Trunc(c.screenWidth)
    ensures y >= c.frameHeight - c.margin || c.frameHeight < 2 * c.margin ==> r.1 == Trunc(c.screenHeight)
  {
    (ConvertAxis(x, c.frameWidth, c.margin, c.screenWidth),
     ConvertAxis(y, c.frameHeight, c.margin, c.screenHeight))
  }

  /** The share of the distance to the target that one filter step leaves. */
  function Factor(smoothing: real): real
    requires smoothing != 0.0
  {
    1.0 - 1.0 / smoothing
  }

  lemma FactorBounds(smoothing: real)
    requires smoothing >= 1.0
    ensures 0.0 <= Factor(smoothing) < 1.0
  {
    assert 0.0 < 1.0 / smoothing <= 1.0;
  }

  /** One step of the cursor's low-pass filter on one axis. */
  function SmoothAxis(prev: real, target: real, smoothing: real): real
    requires smoothing != 0.0
  {
    prev + (target - prev) / smoothing
  }

  /**
   * With a smoothing factor of at least 1 the filtered position lies between
   * the previous position and the target, and the remaining distance to the
   * target shrinks by the factor `1 - 1/smoothing`.
   */
  lemma SmoothAxisContracts(prev: real, target: real, smoothing: real)
    requires smoothing >= 1.0
    ensures var r := SmoothAxis(prev, target, smoothing);
      (prev <= target ==> prev <= r <= target) && (target <= prev ==> target <= r <= prev)
    ensures RealAbs(SmoothAxis(prev, target, smoothing) - target)
      == RealAbs(prev - target) * Factor(smoothing)
  {
    var b := Factor(smoothing);
    FactorBounds(smoothing);
    SmoothAxisOffset(prev, target, smoothing);
    ShrinkByFactor(prev - target, b);
  }

  /** Multiplying by a factor in `[0, 1]` keeps the sign and does not grow the magnitude. */
  lemma ShrinkByFactor(d: real, b: real)
    requires 0.0 <= b <= 1.0
    ensures d >= 0.0 ==> 0.0 <= d * b <= d
    ensures d <= 0.0 ==> d <= d * b <= 0.0
    ensures RealAbs(d * b) == RealAbs(d) * b
  {
    if d >= 0.0 {
      MulLeq(0.0, b, d);
      MulLeq(b, 1.0, d);
      assert b * d <= 1.0 * d;
      assert 1.0 * d == d;
    } else {
      MulLeq(0.0, b, -d);
      MulLeq(b, 1.0, -d);
      assert b * -d <= 1.0 * -d;
      assert 1.0 * -d == -d;
    }
  }

  /** `k` filter steps towards a fixed target. */
  function SmoothTowards(prev: real, target: real, smoothing: real, k: nat): real
    requires smoothing != 0.0
    decreases k
  {
    if k == 0 then prev else SmoothTowards(SmoothAxis(prev, target, smoothing), target, smoothing, k - 1)
  }

  function Pow(b: real, k: nat): real
  {
    if k == 0 then 1.0 else b * Pow(b, k - 1)
  }

  lemma MulAssoc(x: real, b: real, p: real)
    ensures (x * b) * p == x * (b * p)
  {
  }

  /** One filter step scales the signed offset from the target by `1 - 1/smoothing`. */
  lemma SmoothAxisOffset(prev: real, target: real, smoothing: real)
    requires smoothing != 0.0
    ensures SmoothAxis(prev, target, smoothing) - target == (prev - target) * (Factor(smoothing))
  {
    assert (target - prev) / smoothing == -((prev - target) * (1.0 / smoothing));
  }

  /**
   * Holding the target fixed, the signed offset from it after `k` steps is
   * the initial offset times `(1 - 1/smoothing)^k` (`(6/7)^k` for the
   * default 7).
   */
  lemma {:induction false} SmoothTowardsOffset(prev: real, target: real, smoothing: real, k: nat)
    requires smoothing != 0.0
    ensures SmoothTowards(prev, target, smoothing, k) - target
      == (prev - target) * Pow(Factor(smoothing), k)
    decreases k
  {
    if k > 0 {
      var next := SmoothAxis(prev, target, smoothing);
      SmoothAxisOffset(prev, target, smoothing);
      SmoothTowardsOffset(next, target, smoothing, k - 1);
      var b := Factor(smoothing);
      var p := Pow(b, k - 1);
      MulAssoc(prev - target, b, p);
    }
  }

  lemma {:induction false} PowBounds(b: real, k: nat)
    requires 0.0 <= b <= 1.0
    ensures 0.0 <= Pow(b, k) <= 1.0
  {
    if k > 0 {
      PowBounds(b, k - 1);
      var p := Pow(b, k - 1);
      MulLeq(0.0, b, p);
      MulLeq(b, 1.0, p);
      assert Pow(b, k) == b * p;
      assert b * p <= 1.0 * p;
      assert 1.0 * p == p;
    }
  }

  /** Holding the target fixed, the cursor never moves away from it. */
  lemma SmoothNeverRecedes(prev: real, target: real, smoothing: real, k: nat)
    requires smoothing >= 1.0
    ensures RealAbs(SmoothTowards(prev, target, smoothing, k) - target) <= RealAbs(prev - target)
  {
    var x := SmoothTowards(prev, target, smoothing, k) - target;
    var p := Pow(Factor(smoothing), k);
    FactorBounds(smoothing);
    SmoothTowardsOffset(prev, target, smoothing, k);
    PowBounds(Factor(smoothing), k);
    AbsShrink(x, prev - target, p);
  }

  lemma AbsShrink(x: real, d: real, p: real)
    requires 0.0 <= p <= 1.0 && d * p == x
    ensures RealAbs(x) == RealAbs(d) * p && RealAbs(x) <= RealAbs(d)
  {
    AbsScaled(d, p);
  }

  lemma AbsScaled(d: real, p: real)
    requires 0.0 <= p <= 1.0
    ensures RealAbs(d * p) == RealAbs(d) * p && RealAbs(d * p) <= RealAbs(d)
  {
    ShrinkByFactor(d, p);
    AbsScaledBound(d, p);
  }

  lemma AbsScaledBound(d: real, p: real)
    requires 0.0 <= p <= 1.0
    ensures RealAbs(d * p) <= RealAbs(d)
  {
    if d >= 0.0 {
      assert d * p <= d * 1.0;
    } else {
      assert d * p >= d * 1.0;
    }
  }

  /** The controller's mutable state: the filtered cursor and the drag flag. */
  datatype MouseState = MouseState(prevX: real, prevY: real, dragging: bool)

  /** A new state and the OS calls that took effect on the way. */
  datatype Step = Step(state: MouseState, events: seq<Event>)

  /**
   * `smooth_move(x, y)`: the filtered position is stored whether or not the OS
   * move succeeds; a successful move goes to the truncated filtered position.
   */
  function SmoothMoveStep(c: MouseConfig, st: MouseState, x: int, y: int, ok: bool): (s: Step)
    requires CanMove(c)
  {
    var target := ConvertCoordinates(c, x, y);
    var smoothX := SmoothAxis(st.prevX, target.0 as real, c.smoothing);
    var smoothY := SmoothAxis(st.prevY, target.1 as real, c.smoothing);
    Step(MouseState(smoothX, smoothY, st.dragging), if ok then [Move(Trunc(smoothX), Trunc(smoothY))] else [])
  }

  /**
   * A smoothed move keeps the drag flag, updates the position independently
   * of the OS call's success, and emits at most one move event, to the
   * truncated new position.
   */
  lemma SmoothMoveStepShape(c: MouseConfig, st: MouseState, x: int, y: int, ok: bool)
    requires CanMove(c)
    ensures var s := SmoothMoveStep(c, st, x, y, ok);
      && s.state.dragging == st.dragging
      && s.state == SmoothMoveStep(c, st, x, y, !ok).state
      && s.events == (if ok then [Move(Trunc(s.state.prevX), Trunc(s.state.prevY))] else [])
  {
  }

  /**
   * A smoothed move approaches the converted target on both axes: the new
   * position lies between the old one and the target, and the distance left
   * shrinks by the filter factor.
   */
  lemma SmoothMoveStepApproaches(c: MouseConfig, st: MouseState, x: int, y: int, ok: bool)
    requires CanMove(c) && c.smoothing >= 1.0
    ensures var s := SmoothMoveStep(c, st, x, y, ok).state;
      var tx := ConvertCoordinates(c, x, y).0 as real;
      var ty := ConvertCoordinates(c, x, y).1 as real;
      && RealAbs(s.prevX - tx) == RealAbs(st.prevX - tx) * Factor(c.smoothing)
      && RealAbs(s.prevY - ty) == RealAbs(st.prevY - ty) * Factor(c.smoothing)
      && (st.prevX <= tx ==> st.prevX <= s.prevX <= tx)
      && (tx <= st.prevX ==> tx <= s.prevX <= st.prevX)
      && (st.prevY <= ty ==> st.prevY <= s.prevY <= ty)
      && (ty <= st.prevY ==> ty <= s.prevY <= st.prevY)
  {
    var target := ConvertCoordinates(c, x, y);
    var s := SmoothMoveStep(c, st, x, y, ok).state;
    assert s.prevX == SmoothAxis(st.prevX, target.0 as real, c.smoothing);
    assert s.prevY == SmoothAxis(st.prevY, target.1 as real, c.smoothing);
    SmoothAxisContracts(st.prevX, target.0 as real, c.smoothing);
    SmoothAxisContracts(st.prevY, target.1 as real, c.smoothing);
  }

  /** `click(button)`: a left or right click; any other button name does nothing. */
  function ClickEvents(button: string, ok: bool): (es: seq<Event>)
    ensures |es| <= 1
    ensures button != "left" && button != "right" ==> es == []
    ensures !ok ==> es == []
    ensures ok && button == "left" ==> es == [Click(Left)]
    ensures ok && button == "right" ==> es == [Click(Right)]
  {
    if !ok then []
    else if button == "left" then [Click(Left)]
    else if button == "right" then [Click(Right)]
    else []
  }

  /**
   * `double_click()`: two left clicks; when the first raises, the second is
   * never attempted.
   */
  function DoubleClickEvents(firstOk: bool, secondOk: bool): (es: seq<Event>)
    ensures forall i :: 0 <= i < |es| ==> es[i] == Click(Left)
    ensures |es| == (if !firstOk then 0 else if !secondOk then 1 else 2)
  {
    if !firstOk then []
    else if !secondOk then [Click(Left)]
    else [Click(Left), Click(Left)]
  }

  datatype DragOutcome = DragOutcome(dragging: bool, events: seq<Event>)

  /** `toggle_drag(start)`: press only when not dragging, release only while dragging. */
  function DragStep(dragging: bool, start: bool, ok: bool): (r: DragOutcome)
    ensures r.dragging == (if ok then start else dragging)
    ensures r.events == (if r.dragging == dragging then [] else if start then [Press] else [Release])
  {
    if start && !dragging then
      (if ok then DragOutcome(true, [Press]) else DragOutcome(false, []))
    else if !start && dragging then
      (if ok then DragOutcome(false, [Release]) else DragOutcome(true, []))
    else
      DragOutcome(dragging, [])
  }

  /** Once a toggle has taken effect, repeating it with the same argument does nothing. */
  lemma DragStepIdempotent(dragging: bool, start: bool, ok: bool, ok': bool)
    requires ok
    ensures var once := DragStep(dragging, start, ok);
      DragStep(once.dragging, start, ok') == DragOutcome(once.dragging, [])
  {
  }

  /** `scroll(direction, amount)`: up scrolls by `+amount`, down by `-amount`, anything else not at all. */
  function ScrollEvents(direction: string, amount: real, ok: bool): (es: seq<Event>)
    ensures |es| <= 1
    ensures ok && direction == "up" ==> es == [Scroll(amount)]
    ensures ok && direction == "down" ==> es == [Scroll(-amount)]
    ensures !ok || (direction != "up" && direction != "down") ==> es == []
  {
    if !ok then []
    else if direction == "up" then [Scroll(amount)]
    else if direction == "down" then [Scroll(-amount)]
    else []
  }

  /**
   * Replays the presses and releases of a log on a drag flag: `None` once a
   * press comes while dragging or a release while not dragging.
   */
  function ReplayDrag(es: seq<Event>, dragging: bool): Option<bool>
    decreases |es|
  {
    if es == [] then Some(dragging)
    else if es[0] == Press then (if dragging then None else ReplayDrag(es[1..], true))
    else if es[0] == Release then (if dragging then ReplayDrag(es[1..], false) else None)
    else ReplayDrag(es[1..], dragging)
  }

  /** Replaying two logs in a row is replaying their concatenation. */
  lemma {:induction false} ReplayAppend(a: seq<Event>, b: seq<Event>, dragging: bool)
    ensures ReplayDrag(a + b, dragging)
      == (var r := ReplayDrag(a, dragging); if r.None? then None else ReplayDrag(b, r.value))
  {
    if a == [] {
      assert a + b == b;
    } else {
      assert (a + b)[0] == a[0];
      assert (a + b)[1..] == a[1..] + b;
      if a[0] == Press {
        if !dragging {
          ReplayAppend(a[1..], b, true);
        }
      } else if a[0] == Release {
        if dragging {
          ReplayAppend(a[1..], b, false);
        }
      } else {
        ReplayAppend(a[1..], b, dragging);
      }
    }
  }

  /** Events other than presses and releases do not touch the replayed flag. */
  lemma {:induction false} ReplayOthers(es: seq<Event>, dragging: bool)
    requires forall i :: 0 <= i < |es| ==> !IsDragEvent(es[i])
    ensures ReplayDrag(es, dragging) == Some(dragging)
  {
    if es != [] {
      ReplayOthers(es[1..], dragging);
    }
  }

  /** The log replays, from not dragging, to the drag flag. */
  ghost predicate DragConsistent(es: seq<Event>, dragging: bool)
  {
    ReplayDrag(es, false) == Some(dragging)
  }

  /** Only the presses and releases of a log matter to its replay. */
  lemma {:induction false} ReplayFilter(es: seq<Event>, dragging: bool)
    ensures ReplayDrag(es, dragging) == ReplayDrag(Filter(es, IsDragEvent), dragging)
  {
    if es != [] {
      var head := if IsDragEvent(es[0]) then [es[0]] else [];
      assert Filter(es, IsDragEvent) == head + Filter(es[1..], IsDragEvent);
      ReplayAppend(head, Filter(es[1..], IsDragEvent), dragging);
      if es[0] == Press {
        if !dragging {
          ReplayFilter(es[1..], true);
        }
      } else if es[0] == Release {
        if dragging {
          ReplayFilter(es[1..], false);
        }
      } else {
        assert head == [];
        assert [] + Filter(es[1..], IsDragEvent) == Filter(es[1..], IsDragEvent);
        ReplayFilter(es[1..], dragging);
      }
    }
  }

  /** A run of presses and releases replays from `dragging` exactly when it alternates from there. */
  lemma {:induction false} ReplayAlternates(d: seq<Event>, dragging: bool, after: bool)
    requires forall i :: 0 <= i < |d| ==> IsDragEvent(d[i])
    ensures ReplayDrag(d, dragging) == Some(after) <==>
      && (forall i :: 0 <= i < |d| ==> d[i] == (if (i % 2 == 0) != dragging then Press else Release))
      && (after <==> (dragging != (|d| % 2 == 1)))
  {
    if d != [] {
      var rest := d[1..];
      ReplayAlternates(rest, !dragging, after);
      var shifted := forall i :: 0 <= i < |rest| ==> rest[i] == (if (i % 2 == 0) != !dragging then Press else Release);
      var whole := forall i :: 0 <= i < |d| ==> d[i] == (if (i % 2 == 0) != dragging then Press else Release);
      assert whole <==> d[0] == (if dragging then Release else Press) && shifted by {
        if whole {
          forall i | 0 <= i < |rest|
            ensures rest[i] == (if (i % 2 == 0) != !dragging then Press else Release)
          {
            assert rest[i] == d[i + 1];
          }
        }
        if d[0] == (if dragging then Release else Press) && shifted {
          forall i | 0 <= i < |d|
            ensures d[i] == (if (i % 2 == 0) != dragging then Press else Release)
          {
            if i > 0 {
              assert d[i] == rest[i - 1];
            }
          }
        }
      }
    }
  }

  /**
   * The meaning of the drag bookkeeping: presses and releases in the log
   * strictly alternate, starting with a press, and the drag flag is set
   * exactly when the last of them was a press.
   */
  lemma DragConsistentMeaning(es: seq<Event>, dragging: bool)
    ensures var d := Filter(es, IsDragEvent);
      DragConsistent(es, dragging) <==>
      && (forall i :: 0 <= i < |d| ==> d[i] == (if i % 2 == 0 then Press else Release))
      && (dragging <==> |d| % 2 == 1)
  {
    ReplayFilter(es, false);
    ReplayAlternates(Filter(es, IsDragEvent), false, dragging);
  }

  lemma DragStepKeepsConsistent(es: seq<Event>, dragging: bool, start: bool, ok: bool)
    requires DragConsistent(es, dragging)
    ensures var r := DragStep(dragging, start, ok);
      DragConsistent(es + r.events, r.dragging)
  {
    var r := DragStep(dragging, start, ok);
    ReplayAppend(es, r.events, false);
  }

  /** Events other than presses and releases leave the drag bookkeeping alone. */
  lemma OtherEventsKeepConsistent(es: seq<Event>, extra: seq<Event>, dragging: bool)
    requires DragConsistent(es, dragging)
    requires forall i :: 0 <= i < |extra| ==> !IsDragEvent(extra[i])
    ensures DragConsistent(es + extra, dragging)
  {
    ReplayAppend(es, extra, false);
    ReplayOthers(extra, dragging);
  }

  /** `get_distance`, squared: zero exactly for equal points, and symmetric. */
  function DistanceSquared(p1: (int, int), p2: (int, int)): (d: int)
    ensures d >= 0
    ensures d == 0 <==> p1 == p2
    ensures d == Square(p1.0 - p2.0) + Square(p1.1 - p2.1)
  {
    Square(p2.0 - p1.0) + Square(p2.1 - p1.1)
  }

  class MouseController {
    const frameWidth: int
    const frameHeight: int
    const smoothing: real
    const screenWidth: real
    const screenHeight: real
    const margin: int
    var prevX: real
    var prevY: real
    var isDragging: bool
    /** The OS mouse calls that took effect, oldest first. */
    ghost var events: seq<Event>

    ghost predicate Valid()
      reads this
    {
      DragConsistent(events, isDragging)
    }

    function Config(): MouseConfig
    {
      MouseConfig(frameWidth, frameHeight, screenWidth, screenHeight, smoothing, margin)
    }

    function State(): MouseState
      reads this
    {
      MouseState(prevX, prevY, isDragging)
    }

    /** The screen size is what the OS reports; the margin is fixed at 100 and the smoothing defaults to 7. */
    constructor (frameWidth: int, frameHeight: int, screenWidth: real, screenHeight: real,
                 smoothing: real := DefaultSmoothing)
      ensures Valid()
      ensures Config() == MouseConfig(frameWidth, frameHeight, screenWidth, screenHeight, smoothing, DefaultMargin)
      ensures State() == MouseState(0.0, 0.0, false) && events == []
    {
      this.frameWidth := frameWidth;
      this.frameHeight := frameHeight;
      this.smoothing := smoothing;
      this.screenWidth := screenWidth;
      this.screenHeight := screenHeight;
      prevX, prevY := 0.0, 0.0;
      margin := DefaultMargin;
      isDragging := false;
      events := [];
    }

    method SmoothMove(x: int, y: int, ok: bool)
      requires Valid() && CanMove(Config())
      modifies this
      ensures Valid()
      ensures State() == SmoothMoveStep(Config(), old(State()), x, y, ok).state
      ensures events == old(events) + SmoothMoveStep(Config(), old(State()), x, y, ok).events
    {
      var screen := ConvertCoordinates(Config(), x, y);
      var smoothX := prevX + (screen.0 as real - prevX) / smoothing;
      var smoothY := prevY + (screen.1 as real - prevY) / smoothing;
      prevX := smoothX;
      prevY := smoothY;
      if ok {
        OtherEventsKeepConsistent(events, [Move(Trunc(smoothX), Trunc(smoothY))], isDragging);
        events := events + [Move(Trunc(smoothX), Trunc(smoothY))];
      }
    }

    method Click(button: string, ok: bool)
      requires Valid()
      modifies this
      ensures Valid() && State() == old(State())
      ensures events == old(events) + ClickEvents(button, ok)
    {
      if ok {
        if button == "left" {
          OtherEventsKeepConsistent(events, [Event.Click(Left)], isDragging);
          events := events + [Event.Click(Left)];
        } else if button == "right" {
          OtherEventsKeepConsistent(events, [Event.Click(Right)], isDragging);
          events := events + [Event.Click(Right)];
        }
      }
    }

    method DoubleClick(firstOk: bool, secondOk: bool)
      requires Valid()
      modifies this
      ensures Valid() && State() == old(State())
      ensures events == old(events) + DoubleClickEvents(firstOk, secondOk)
    {
      if firstOk {
        OtherEventsKeepConsistent(events, [Event.Click(Left)], isDragging);
        events := events + [Event.Click(Left)];
        if secondOk {
          OtherEventsKeepConsistent(events, [Event.Click(Left)], isDragging);
          events := events + [Event.Click(Left)];
        }
      }
    }

    method ToggleDrag(start: bool, ok: bool)
      requires Valid()
      modifies this
      ensures Valid()
      ensures prevX == old(prevX) && prevY == old(prevY)
      ensures isDragging == DragStep(old(isDragging), start, ok).dragging
      ensures events == old(events) + DragStep(old(isDragging), start, ok).events
    {
      DragStepKeepsConsistent(events, isDragging, start, ok);
      if start && !isDragging {
        if ok {
          events := events + [Press];
          isDragging := true;
        }
      } else if !start && isDragging {
        if ok {
          events := events + [Release];
          isDragging := false;
        }
      }
    }

    method Scroll(direction: string, amount: real, ok: bool)
      requires Valid()
      modifies this
      ensures Valid() && State() == old(State())
      ensures events == old(events) + ScrollEvents(direction, amount, ok)
    {
      OtherEventsKeepConsistent(events, ScrollEvents(direction, amount, ok), isDragging);
      if ok {
        if direction == "up" {
          events := events + [Event.Scroll(amount)];
        } else if direction == "down" {
          events := events + [Event.Scroll(-amount)];
        }
      }
    }
  }
}
