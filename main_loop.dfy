/**
 * The per-frame control loop: what one camera frame does to the cursor, the
 * scroll integrator and the zoom scale, the loop over frames until the input
 * ends or `q` is pressed, the zoom crop and the help text lookup. The camera,
 * the detector and the window are external: each frame arrives as the hand
 * seen in it (if any), the key read after it and the success of every OS
 * mouse call made during it.
 */
module ControlLoop {
  import opened Wrappers
  import opened Landmarks
  import opened Gestures
  import opened HandTracking
  import opened MouseControl
  import JsonConfig
  import Cli

  datatype Mode = DefaultMode | TouchMode | ScrollMode | HelpMode | ConfigurationMode

  /** The positional mode argument; the argument parser rejects anything else. */
  function ParseMode(s: string): (m: Option<Mode>)
    ensures m.Some? <==> s in Cli.ModeChoices
  {
    if s == "default" then Some(DefaultMode)
    else if s == "touch" then Some(TouchMode)
    else if s == "scroll" then Some(ScrollMode)
    else if s == "help" then Some(HelpMode)
    else if s == "configuration" then Some(ConfigurationMode)
    else None
  }

  /** Modes that move the pointer. */
  predicate Moves(mode: Mode) { mode == DefaultMode || mode == TouchMode }

  /** Modes that steer the scroll velocity. */
  predicate Scrolls(mode: Mode) { mode == DefaultMode || mode == ScrollMode }

  /** The gesture tests the loop asks about. */
  datatype Readings = Readings(
    thumbMiddleRing: bool, fistIndexUp: bool,
    thumbIndex: bool, thumbMiddle: bool, thumbRing: bool)

  /** A detected hand: its pixel centre and its gesture readings. */
  datatype Hand = Hand(centerX: int, centerY: int, gestures: Readings)

  /** Whether each OS mouse call of a frame takes effect (a failing call is caught and printed). */
  datatype Sink = Sink(
    moveOk: bool, clickOk: bool, firstClickOk: bool, secondClickOk: bool,
    dragOk: bool, scrollOk: bool)

  /** One camera frame: the hand in it, the key read after it (-1 for none), the OS outcomes. */
  datatype FrameInput = FrameInput(hand: Option<Hand>, key: int, sink: Sink)

  /** The loop's state: the mouse controller's fields, the scroll velocity and the zoom scale. */
  datatype LoopState = LoopState(mouse: MouseState, velocity: real, scale: real)

  datatype FrameResult = FrameResult(state: LoopState, events: seq<Event>, quit: bool)

  const ScaleMin: real := 1.0
  const ScaleMax: real := 4.0
  const InitialScale: real := 1.5
  const ZoomStep: real := 0.1
  const ScrollDecay: real := 0.3
  const ScrollStep: real := 0.7
  const VelocityStep: real := 2.0

  /** Key codes as `cv2.waitKey` returns them: `ord('+')`, `ord('=')`, `ord('-')`, `ord('_')`, `ord('q')`. */
  const KeyPlus: int := 43
  const KeyEquals: int := 61
  const KeyMinus: int := 45
  const KeyUnderscore: int := 95
  const KeyQuit: int := 113

  predicate IsZoomIn(key: int) { key == KeyPlus || key == KeyEquals }
  predicate IsZoomOut(key: int) { key == KeyMinus || key == KeyUnderscore }

  /**
   * The detector's result turned into the loop's view of a hand: nothing
   * without landmarks; otherwise the hand centre and the gesture tests,
   * evaluated on the zoomed frame's size with the default threshold.
   */
  function Perceive(results: Results, frameWidth: int, frameHeight: int): (hand: Option<Hand>)
    requires CompleteHand(results, 0)
    ensures var lm := GetHandLandmarks(results, 0);
      hand.None? <==> lm.None? || |lm.value| == 0
    ensures hand.Some? ==>
      GetHandCenter(results, frameWidth, frameHeight, 0) == Some((hand.value.centerX, hand.value.centerY))
    ensures hand.Some? ==>
      var g := WithDefaultThreshold(GetHandLandmarks(results, 0).value, frameWidth, frameHeight);
      && hand.value.gestures.thumbIndex == Touches(g, Index)
      && hand.value.gestures.thumbMiddle == Touches(g, Middle)
      && hand.value.gestures.thumbRing == Touches(g, Ring)
      && hand.value.gestures.thumbMiddleRing == (Touches(g, Middle) && Touches(g, Ring))
      && hand.value.gestures.fistIndexUp == IsFistAndIndexUp(g)
  {
    var landmarks := GetHandLandmarks(results, 0);
    if landmarks.None? || |landmarks.value| == 0 then None
    else
      var g := WithDefaultThreshold(landmarks.value, frameWidth, frameHeight);
      var center := GetHandCenter(results, frameWidth, frameHeight, 0).value;
      SingleTouchMeaning(g);
      CompositeGestures(g);
      Some(Hand(center.0, center.1, Readings(
        IsThumbMiddleRing(g), IsFistAndIndexUp(g),
        IsThumbAndIndex(g), IsThumbAndMiddle(g), IsThumbAndRing(g))))
  }

  function RealMin(a: real, b: real): real { if a <= b then a else b }
  function RealMax(a: real, b: real): real { if a >= b then a else b }

  /** The zoom keys: `+`/`=` add 0.1 up to 4.0, `-`/`_` subtract 0.1 down to 1.0. */
  function ApplyKey(scale: real, key: int): (r: real)
    ensures ScaleMin <= scale <= ScaleMax ==> ScaleMin <= r <= ScaleMax
    ensures !IsZoomIn(key) && !IsZoomOut(key) ==> r == scale
    ensures IsZoomIn(key) ==> r <= ScaleMax && (r == scale + ZoomStep || (r == ScaleMax && scale + ZoomStep > ScaleMax))
    ensures IsZoomOut(key) ==> r >= ScaleMin && (r == scale - ZoomStep || (r == ScaleMin && scale - ZoomStep < ScaleMin))
  {
    var zoomed := if IsZoomIn(key) then RealMin(scale + ZoomStep, ScaleMax) else scale;
    if IsZoomOut(key) then RealMax(zoomed - ZoomStep, ScaleMin) else zoomed
  }

  /** The pointer part of a frame: a smoothed move to the hand centre in the moving modes. */
  function MoveStep(c: MouseConfig, mode: Mode, st: MouseState, inp: FrameInput): (s: Step)
    requires CanMove(c)
    ensures s.state.dragging == st.dragging
    ensures |s.events| <= 1 && forall i :: 0 <= i < |s.events| ==> s.events[i].Move?
    ensures !(inp.hand.Some? && Moves(mode)) ==> s == Step(st, [])
    ensures inp.hand.Some? && Moves(mode) && inp.sink.moveOk ==> |s.events| == 1
  {
    if inp.hand.Some? && Moves(mode) then
      SmoothMoveStep(c, st, inp.hand.value.centerX, inp.hand.value.centerY, inp.sink.moveOk)
    else
      Step(st, [])
  }

  /** The scroll gestures: +2 for thumb-middle-ring, -2 for fist-and-index-up, both may apply. */
  function Steer(v: real, mode: Mode, hand: Option<Hand>): (r: real)
    ensures !(hand.Some? && Scrolls(mode)) ==> r == v
    ensures hand.Some? && Scrolls(mode) ==>
      var g := hand.value.gestures;
      r == v + (if g.thumbMiddleRing then VelocityStep else 0.0) - (if g.fistIndexUp then VelocityStep else 0.0)
  {
    if hand.Some? && Scrolls(mode) then
      var down := if hand.value.gestures.thumbMiddleRing then v + VelocityStep else v;
      if hand.value.gestures.fistIndexUp then down - VelocityStep else down
    else
      v
  }

  /** The thumb-index pinch: one left click. */
  function ClickGesture(g: Readings, sink: Sink): seq<Event>
  {
    if g.thumbIndex then ClickEvents("left", sink.clickOk) else []
  }

  /** The thumb-middle pinch: a double click. */
  function DoubleClickGesture(g: Readings, sink: Sink): seq<Event>
  {
    if g.thumbMiddle then DoubleClickEvents(sink.firstClickOk, sink.secondClickOk) else []
  }

  /** The touch-mode gestures of a frame with a hand: click, double click, then drag or release. */
  function TouchGestureStep(dragging: bool, g: Readings, sink: Sink): DragOutcome
  {
    var drag := DragStep(dragging, g.thumbRing, sink.dragOk);
    DragOutcome(drag.dragging, ClickGesture(g, sink) + DoubleClickGesture(g, sink) + drag.events)
  }

  /** The touch part of a frame: click, double click and the drag request, in that order. */
  function TouchStep(dragging: bool, mode: Mode, inp: FrameInput): (r: DragOutcome)
    ensures !(inp.hand.Some? && mode == TouchMode) ==> r == DragOutcome(dragging, [])
    ensures inp.hand.Some? && mode == TouchMode ==>
      r.dragging == DragStep(dragging, inp.hand.value.gestures.thumbRing, inp.sink.dragOk).dragging
    ensures forall i :: 0 <= i < |r.events| ==> IsClickOrDrag(r.events[i])
  {
    if inp.hand.Some? && mode == TouchMode then TouchGestureStep(dragging, inp.hand.value.gestures, inp.sink)
    else DragOutcome(dragging, [])
  }

  datatype Tick = Tick(velocity: real, events: seq<Event>)

  /**
   * The smooth-scroll tick: at most one scroll call, only when |v| >= 1,
   * downwards for positive velocity; the velocity then decays by 0.3.
   */
  function ScrollTick(v: real, ok: bool): (t: Tick)
    ensures RealAbs(v) < 1.0 ==> t == Tick(v, [])
    ensures RealAbs(v) >= 1.0 ==> t.velocity == v * ScrollDecay
    ensures |t.events| <= 1 && forall i :: 0 <= i < |t.events| ==> t.events[i].Scroll?
    ensures v >= 1.0 && ok ==> t.events == [Scroll(-ScrollStep)]
    ensures v <= -1.0 && ok ==> t.events == [Scroll(ScrollStep)]
    ensures !ok ==> t.events == []
  {
    if RealAbs(v) >= 1.0 then
      Tick(v * ScrollDecay, ScrollEvents(if v > 0.0 then "down" else "up", ScrollStep, ok))
    else
      Tick(v, [])
  }

  /** One iteration of the main loop. */
  function Frame(c: MouseConfig, mode: Mode, st: LoopState, inp: FrameInput): (f: FrameResult)
    requires CanMove(c)
  {
    var moved := MoveStep(c, mode, st.mouse, inp);
    var touched := TouchStep(moved.state.dragging, mode, inp);
    var tick := ScrollTick(Steer(st.velocity, mode, inp.hand), inp.sink.scrollOk);
    FrameResult(
      LoopState(moved.state.(dragging := touched.dragging), tick.velocity, ApplyKey(st.scale, inp.key)),
      moved.events + touched.events + tick.events,
      inp.key == KeyQuit)
  }

  /** The loop's invariant: the velocity below one in magnitude and the scale within its range. */
  predicate InBounds(st: LoopState)
  {
    RealAbs(st.velocity) < 1.0 && ScaleMin <= st.scale <= ScaleMax
  }

  /** A frame that starts in bounds ends in bounds. */
  lemma FrameKeepsBounds(c: MouseConfig, mode: Mode, st: LoopState, inp: FrameInput)
    requires CanMove(c) && InBounds(st)
    ensures InBounds(Frame(c, mode, st, inp).state)
  {
    var v := Steer(st.velocity, mode, inp.hand);
    assert RealAbs(v) < 3.0;
    var t := ScrollTick(v, inp.sink.scrollOk);
    if RealAbs(v) >= 1.0 {
      assert RealAbs(t.velocity) < 0.9 + 0.0001;
    }
  }

  /** Exactly one scroll gesture holds in a frame that steers the velocity. */
  predicate OneScrollGesture(mode: Mode, inp: FrameInput)
  {
    inp.hand.Some? && Scrolls(mode)
    && inp.hand.value.gestures.thumbMiddleRing != inp.hand.value.gestures.fistIndexUp
  }

  /**
   * From the loop invariant, a frame scrolls exactly when exactly one
   * scroll gesture holds (and the call succeeds): down by 0.7 for
   * thumb-middle-ring, up by 0.7 for the raised index.
   */
  lemma FrameScrolls(c: MouseConfig, mode: Mode, st: LoopState, inp: FrameInput)
    requires CanMove(c) && InBounds(st)
    ensures var f := Frame(c, mode, st, inp);
      Filter(f.events, IsScroll) == (
        if OneScrollGesture(mode, inp) && inp.sink.scrollOk then
          [Scroll(if inp.hand.value.gestures.thumbMiddleRing then -ScrollStep else ScrollStep)]
        else [])
  {
    var moved := MoveStep(c, mode, st.mouse, inp);
    var touched := TouchStep(moved.state.dragging, mode, inp);
    var tick := ScrollTick(Steer(st.velocity, mode, inp.hand), inp.sink.scrollOk);
    FrameEvents(c, mode, st, inp);
    ScrollsOfParts(moved.events, touched.events, tick.events);
    SteeredTick(st.velocity, mode, inp);
  }

  /** Of a move, the touch actions and a scroll tick, only the tick scrolls. */
  lemma ScrollsOfParts(moves: seq<Event>, touches: seq<Event>, ticks: seq<Event>)
    requires forall i :: 0 <= i < |moves| ==> moves[i].Move?
    requires forall i :: 0 <= i < |touches| ==> IsClickOrDrag(touches[i])
    requires forall i :: 0 <= i < |ticks| ==> ticks[i].Scroll?
    ensures Filter(moves + touches + ticks, IsScroll) == ticks
  {
    FilterAppend(moves + touches, ticks, IsScroll);
    FilterAppend(moves, touches, IsScroll);
    FilterNone(moves, IsScroll);
    FilterNone(touches, IsScroll);
    FilterAll(ticks, IsScroll);
    assert [] + [] + ticks == ticks;
  }

  /** From a velocity below one, the tick scrolls exactly when one scroll gesture steered it. */
  lemma SteeredTick(v: real, mode: Mode, inp: FrameInput)
    requires RealAbs(v) < 1.0
    ensures ScrollTick(Steer(v, mode, inp.hand), inp.sink.scrollOk).events == (
      if OneScrollGesture(mode, inp) && inp.sink.scrollOk then
        [Scroll(if inp.hand.value.gestures.thumbMiddleRing then -ScrollStep else ScrollStep)]
      else [])
  {
  }

  /** Pointer moves happen only in the moving modes and only with a hand in the frame. */
  lemma FrameMovesOnlyWhenAllowed(c: MouseConfig, mode: Mode, st: LoopState, inp: FrameInput)
    requires CanMove(c)
    requires !(inp.hand.Some? && Moves(mode))
    ensures Filter(Frame(c, mode, st, inp).events, IsMove) == []
  {
    var moved := MoveStep(c, mode, st.mouse, inp);
    var touched := TouchStep(moved.state.dragging, mode, inp);
    var tick := ScrollTick(Steer(st.velocity, mode, inp.hand), inp.sink.scrollOk);
    FilterNone(moved.events + touched.events + tick.events, IsMove);
  }

  /** Clicks, double clicks and drags happen only in touch mode and only with a hand in the frame. */
  lemma FrameTouchesOnlyWhenAllowed(c: MouseConfig, mode: Mode, st: LoopState, inp: FrameInput)
    requires CanMove(c)
    requires !(inp.hand.Some? && mode == TouchMode)
    ensures Filter(Frame(c, mode, st, inp).events, IsClickOrDrag) == []
    ensures Frame(c, mode, st, inp).state.mouse.dragging == st.mouse.dragging
  {
    var moved := MoveStep(c, mode, st.mouse, inp);
    var touched := TouchStep(moved.state.dragging, mode, inp);
    var tick := ScrollTick(Steer(st.velocity, mode, inp.hand), inp.sink.scrollOk);
    FilterNone(moved.events + touched.events + tick.events, IsClickOrDrag);
  }

  /** From the loop invariant, a frame without a hand issues no OS call and keeps cursor and velocity. */
  lemma FrameWithoutHandIsQuiet(c: MouseConfig, mode: Mode, st: LoopState, inp: FrameInput)
    requires CanMove(c) && InBounds(st) && inp.hand.None?
    ensures var f := Frame(c, mode, st, inp);
      f.events == [] && f.state.mouse == st.mouse && f.state.velocity == st.velocity
  {
  }

  /** In touch mode with a hand, the drag is requested iff thumb and ring touch, else released. */
  lemma FrameDrag(c: MouseConfig, st: LoopState, inp: FrameInput)
    requires CanMove(c) && inp.hand.Some?
    ensures var f := Frame(c, TouchMode, st, inp);
      var g := inp.hand.value.gestures;
      && (inp.sink.dragOk ==> f.state.mouse.dragging == g.thumbRing)
      && (!inp.sink.dragOk ==> f.state.mouse.dragging == st.mouse.dragging)
  {
  }

  /** The left clicks a frame's input asks for: a click, and the clicks of a double click. */
  function RequestedClicks(mode: Mode, inp: FrameInput): nat
  {
    if inp.hand.Some? && mode == TouchMode then
      var g := inp.hand.value.gestures;
      (if g.thumbIndex && inp.sink.clickOk then 1 else 0)
      + (if g.thumbMiddle then |DoubleClickEvents(inp.sink.firstClickOk, inp.sink.secondClickOk)| else 0)
    else 0
  }

  /** The touch part issues exactly the requested left clicks. */
  lemma TouchClicks(dragging: bool, mode: Mode, inp: FrameInput)
    ensures |Filter(TouchStep(dragging, mode, inp).events, IsLeftClick)| == RequestedClicks(mode, inp)
  {
    var touched := TouchStep(dragging, mode, inp);
    if inp.hand.Some? && mode == TouchMode {
      var g := inp.hand.value.gestures;
      var clicks := if g.thumbIndex then ClickEvents("left", inp.sink.clickOk) else [];
      var doubles := if g.thumbMiddle then DoubleClickEvents(inp.sink.firstClickOk, inp.sink.secondClickOk) else [];
      var drag := DragStep(dragging, g.thumbRing, inp.sink.dragOk);
      assert touched.events == clicks + doubles + drag.events;
      assert |clicks| == (if g.thumbIndex && inp.sink.clickOk then 1 else 0);
      CountLeftClicks(clicks, doubles, drag.events);
    } else {
      FilterNone(touched.events, IsLeftClick);
    }
  }

  lemma CountLeftClicks(clicks: seq<Event>, doubles: seq<Event>, other: seq<Event>)
    requires forall i :: 0 <= i < |clicks| ==> clicks[i] == Click(Left)
    requires forall i :: 0 <= i < |doubles| ==> doubles[i] == Click(Left)
    requires forall i :: 0 <= i < |other| ==> !IsLeftClick(other[i])
    ensures |Filter(clicks + doubles + other, IsLeftClick)| == |clicks| + |doubles|
  {
    FilterAppend(clicks + doubles, other, IsLeftClick);
    FilterAppend(clicks, doubles, IsLeftClick);
    FilterAll(clicks, IsLeftClick);
    FilterAll(doubles, IsLeftClick);
    FilterNone(other, IsLeftClick);
  }

  /** A frame's events are its move, then its touch actions, then its scroll tick. */
  lemma FrameEvents(c: MouseConfig, mode: Mode, st: LoopState, inp: FrameInput)
    requires CanMove(c)
    ensures var moved := MoveStep(c, mode, st.mouse, inp);
      var touched := TouchStep(moved.state.dragging, mode, inp);
      var tick := ScrollTick(Steer(st.velocity, mode, inp.hand), inp.sink.scrollOk);
      && Frame(c, mode, st, inp).events == moved.events + touched.events + tick.events
      && Frame(c, mode, st, inp).state.mouse.dragging == touched.dragging
      && moved.state.dragging == st.mouse.dragging
  {
  }

  /**
   * The left clicks of a frame depend on that frame's input alone, never on
   * the state before it: there is no cooldown and no edge detection.
   */
  lemma FrameClicks(c: MouseConfig, mode: Mode, st: LoopState, inp: FrameInput)
    requires CanMove(c)
    ensures |Filter(Frame(c, mode, st, inp).events, IsLeftClick)| == RequestedClicks(mode, inp)
  {
    var moved := MoveStep(c, mode, st.mouse, inp);
    var touched := TouchStep(moved.state.dragging, mode, inp);
    var tick := ScrollTick(Steer(st.velocity, mode, inp.hand), inp.sink.scrollOk);
    FrameEvents(c, mode, st, inp);
    FilterAppend(moved.events + touched.events, tick.events, IsLeftClick);
    FilterAppend(moved.events, touched.events, IsLeftClick);
    FilterNone(moved.events, IsLeftClick);
    FilterNone(tick.events, IsLeftClick);
    TouchClicks(moved.state.dragging, mode, inp);
  }

  /** The click gestures issue left clicks only. */
  lemma GestureClicksAreLeftClicks(g: Readings, sink: Sink)
    ensures var clicks := ClickGesture(g, sink) + DoubleClickGesture(g, sink);
      forall i :: 0 <= i < |clicks| ==> clicks[i] == Click(Left)
  {
  }

  /** The touch gestures keep presses and releases alternating, in step with the drag flag. */
  lemma GesturesKeepDragConsistent(dragging: bool, g: Readings, sink: Sink, pre: seq<Event>)
    requires DragConsistent(pre, dragging)
    ensures var t := TouchGestureStep(dragging, g, sink);
      DragConsistent(pre + t.events, t.dragging)
  {
    var clicks := ClickGesture(g, sink) + DoubleClickGesture(g, sink);
    var drag := DragStep(dragging, g.thumbRing, sink.dragOk);
    GestureClicksAreLeftClicks(g, sink);
    OtherEventsKeepConsistent(pre, clicks, dragging);
    DragStepKeepsConsistent(pre + clicks, dragging, g.thumbRing, sink.dragOk);
    AppendAssoc(pre, clicks, drag.events);
  }

  /** The touch part keeps presses and releases alternating, in step with the drag flag. */
  lemma TouchKeepsDragConsistent(dragging: bool, mode: Mode, inp: FrameInput, pre: seq<Event>)
    requires DragConsistent(pre, dragging)
    ensures var touched := TouchStep(dragging, mode, inp);
      DragConsistent(pre + touched.events, touched.dragging)
  {
    if inp.hand.Some? && mode == TouchMode {
      GesturesKeepDragConsistent(dragging, inp.hand.value.gestures, inp.sink, pre);
    } else {
      assert pre + [] == pre;
    }
  }

  /** Each frame keeps presses and releases alternating, in step with the drag flag. */
  lemma FrameKeepsDragConsistent(c: MouseConfig, mode: Mode, st: LoopState, inp: FrameInput, pre: seq<Event>)
    requires CanMove(c) && DragConsistent(pre, st.mouse.dragging)
    ensures var f := Frame(c, mode, st, inp);
      DragConsistent(pre + f.events, f.state.mouse.dragging)
  {
    var moved := MoveStep(c, mode, st.mouse, inp);
    var tick := ScrollTick(Steer(st.velocity, mode, inp.hand), inp.sink.scrollOk);
    FrameEvents(c, mode, st, inp);
    PartsKeepDragConsistent(pre, moved.events, tick.events, st.mouse.dragging, mode, inp);
  }

  /** A move, the touch actions and a scroll tick, in that order, keep the drag bookkeeping. */
  lemma PartsKeepDragConsistent(pre: seq<Event>, moves: seq<Event>, ticks: seq<Event>, dragging: bool, mode: Mode, inp: FrameInput)
    requires DragConsistent(pre, dragging)
    requires forall i :: 0 <= i < |moves| ==> moves[i].Move?
    requires forall i :: 0 <= i < |ticks| ==> ticks[i].Scroll?
    ensures var touched := TouchStep(dragging, mode, inp);
      DragConsistent(pre + (moves + touched.events + ticks), touched.dragging)
  {
    var touched := TouchStep(dragging, mode, inp);
    OtherEventsKeepConsistent(pre, moves, dragging);
    TouchKeepsDragConsistent(dragging, mode, inp, pre + moves);
    OtherEventsKeepConsistent(pre + moves + touched.events, ticks, touched.dragging);
    AppendAssoc(pre, moves, touched.events);
    AppendAssoc(pre, moves + touched.events, ticks);
  }

  datatype RunResult = RunResult(state: LoopState, events: seq<Event>, frames: nat)

  /** The loop over frames: stop after the frame whose key is `q`, or when the camera yields no frame. */
  function Run(c: MouseConfig, mode: Mode, st: LoopState, inputs: seq<FrameInput>): RunResult
    requires CanMove(c)
    decreases |inputs|
  {
    if inputs == [] then RunResult(st, [], 0)
    else
      var f := Frame(c, mode, st, inputs[0]);
      if f.quit then RunResult(f.state, f.events, 1)
      else
        var rest := Run(c, mode, f.state, inputs[1..]);
        RunResult(rest.state, f.events + rest.events, rest.frames + 1)
  }

  const InitialState: LoopState := LoopState(MouseState(0.0, 0.0, false), 0.0, InitialScale)

  /** A whole session: help mode prints its text and runs no frame. */
  function Session(c: MouseConfig, mode: Mode, inputs: seq<FrameInput>): RunResult
    requires CanMove(c)
  {
    if mode == HelpMode then RunResult(InitialState, [], 0)
    else Run(c, mode, InitialState, inputs)
  }

  /** The entry script: the positional mode defaults to "default"; a name outside the choices never starts a session. */
  function Launch(c: MouseConfig, modeArg: Option<string>, inputs: seq<FrameInput>): (r: Option<RunResult>)
    requires CanMove(c)
    ensures r.Some? <==> (modeArg.None? || modeArg.value in Cli.ModeChoices)
    ensures modeArg.None? ==> r == Some(Run(c, DefaultMode, InitialState, inputs))
    ensures modeArg == Some("help") ==> r == Some(RunResult(InitialState, [], 0))
  {
    var m := ParseMode(if modeArg.Some? then modeArg.value else "default");
    if m.None? then None else Some(Session(c, m.value, inputs))
  }

  /** The frames the loop processes: up to and including the first `q`, or all of them. */
  function Processed(inputs: seq<FrameInput>): (n: nat)
    ensures n <= |inputs|
    decreases |inputs|
  {
    if inputs == [] then 0
    else if inputs[0].key == KeyQuit then 1
    else 1 + Processed(inputs[1..])
  }

  lemma {:induction false} RunFrames(c: MouseConfig, mode: Mode, st: LoopState, inputs: seq<FrameInput>)
    requires CanMove(c)
    ensures Run(c, mode, st, inputs).frames == Processed(inputs)
    decreases |inputs|
  {
    if inputs != [] && inputs[0].key != KeyQuit {
      RunFrames(c, mode, Frame(c, mode, st, inputs[0]).state, inputs[1..]);
    }
  }

  lemma {:induction false} RunKeepsBounds(c: MouseConfig, mode: Mode, st: LoopState, inputs: seq<FrameInput>)
    requires CanMove(c) && InBounds(st)
    ensures InBounds(Run(c, mode, st, inputs).state)
    decreases |inputs|
  {
    if inputs != [] {
      FrameKeepsBounds(c, mode, st, inputs[0]);
      RunKeepsBounds(c, mode, Frame(c, mode, st, inputs[0]).state, inputs[1..]);
    }
  }

  lemma {:induction false} RunKeepsDragConsistent(c: MouseConfig, mode: Mode, st: LoopState, inputs: seq<FrameInput>, pre: seq<Event>)
    requires CanMove(c) && DragConsistent(pre, st.mouse.dragging)
    ensures var r := Run(c, mode, st, inputs);
      DragConsistent(pre + r.events, r.state.mouse.dragging)
    decreases |inputs|
  {
    if inputs == [] {
      assert pre + [] == pre;
    } else {
      var f := Frame(c, mode, st, inputs[0]);
      FrameKeepsDragConsistent(c, mode, st, inputs[0], pre);
      if !f.quit {
        var rest := Run(c, mode, f.state, inputs[1..]);
        RunKeepsDragConsistent(c, mode, f.state, inputs[1..], pre + f.events);
        AppendAssoc(pre, f.events, rest.events);
      }
    }
  }

  /** The clicks the processed frames ask for. */
  function RequestedRunClicks(mode: Mode, inputs: seq<FrameInput>): nat
    decreases |inputs|
  {
    if inputs == [] then 0
    else if inputs[0].key == KeyQuit then RequestedClicks(mode, inputs[0])
    else RequestedClicks(mode, inputs[0]) + RequestedRunClicks(mode, inputs[1..])
  }

  lemma {:induction false} RunClicks(c: MouseConfig, mode: Mode, st: LoopState, inputs: seq<FrameInput>)
    requires CanMove(c)
    ensures |Filter(Run(c, mode, st, inputs).events, IsLeftClick)| == RequestedRunClicks(mode, inputs)
    decreases |inputs|
  {
    if inputs != [] {
      var f := Frame(c, mode, st, inputs[0]);
      FrameClicks(c, mode, st, inputs[0]);
      if !f.quit {
        RunClicks(c, mode, f.state, inputs[1..]);
        FilterAppend(f.events, Run(c, mode, f.state, inputs[1..]).events, IsLeftClick);
      }
    }
  }

  /** A touch-mode frame holding only the index pinch, with a successful click and no `q`. */
  predicate HeldPinch(inp: FrameInput)
  {
    && inp.hand.Some? && inp.hand.value.gestures.thumbIndex && !inp.hand.value.gestures.thumbMiddle
    && inp.sink.clickOk && inp.key != KeyQuit
  }

  /** Holding the pinch for n frames clicks n times: a click fires on every frame the gesture holds. */
  lemma {:induction false} HeldPinchClicksEveryFrame(c: MouseConfig, st: LoopState, inputs: seq<FrameInput>)
    requires CanMove(c)
    requires forall i :: 0 <= i < |inputs| ==> HeldPinch(inputs[i])
    ensures |Filter(Run(c, TouchMode, st, inputs).events, IsLeftClick)| == |inputs|
    decreases |inputs|
  {
    RunClicks(c, TouchMode, st, inputs);
    RequestedOfHeld(inputs);
  }

  lemma {:induction false} RequestedOfHeld(inputs: seq<FrameInput>)
    requires forall i :: 0 <= i < |inputs| ==> HeldPinch(inputs[i])
    ensures RequestedRunClicks(TouchMode, inputs) == |inputs|
    decreases |inputs|
  {
    if inputs != [] {
      RequestedOfHeld(inputs[1..]);
    }
  }

  /** Scroll mode never moves the pointer, clicks or drags. */
  lemma {:induction false} ScrollModeOnlyScrolls(c: MouseConfig, st: LoopState, inputs: seq<FrameInput>)
    requires CanMove(c)
    ensures var r := Run(c, ScrollMode, st, inputs);
      Filter(r.events, IsMove) == [] && Filter(r.events, IsClickOrDrag) == []
    decreases |inputs|
  {
    if inputs != [] {
      var f := Frame(c, ScrollMode, st, inputs[0]);
      FrameMovesOnlyWhenAllowed(c, ScrollMode, st, inputs[0]);
      FrameTouchesOnlyWhenAllowed(c, ScrollMode, st, inputs[0]);
      if !f.quit {
        var rest := Run(c, ScrollMode, f.state, inputs[1..]);
        ScrollModeOnlyScrolls(c, f.state, inputs[1..]);
        FilterAppend(f.events, rest.events, IsMove);
        FilterAppend(f.events, rest.events, IsClickOrDrag);
      }
    }
  }

  /** Over a whole session the loop invariant holds and presses and releases alternate. */
  lemma SessionInvariants(c: MouseConfig, mode: Mode, inputs: seq<FrameInput>)
    requires CanMove(c)
    ensures var r := Session(c, mode, inputs);
      && InBounds(r.state)
      && DragConsistent(r.events, r.state.mouse.dragging)
      && r.frames == (if mode == HelpMode then 0 else Processed(inputs))
  {
    if mode != HelpMode {
      RunKeepsBounds(c, mode, InitialState, inputs);
      assert DragConsistent([], false);
      RunKeepsDragConsistent(c, mode, InitialState, inputs, []);
      assert [] + Run(c, mode, InitialState, inputs).events == Run(c, mode, InitialState, inputs).events;
      RunFrames(c, mode, InitialState, inputs);
    }
  }

  lemma AppendAssoc(a: seq<Event>, b: seq<Event>, c: seq<Event>)
    ensures a + b + c == a + (b + c)
  {
  }

  /** The pointer block of the loop body: a smoothed move in the moving modes when a hand is seen. */
  method MovePointer(mouse: MouseController, mode: Mode, inp: FrameInput)
    requires mouse.Valid() && CanMove(mouse.Config())
    modifies mouse
    ensures mouse.Valid()
    ensures var s := MoveStep(mouse.Config(), mode, old(mouse.State()), inp);
      mouse.State() == s.state && mouse.events == old(mouse.events) + s.events
  {
    if inp.hand.Some? && Moves(mode) {
      mouse.SmoothMove(inp.hand.value.centerX, inp.hand.value.centerY, inp.sink.moveOk);
    } else {
      assert mouse.events + [] == mouse.events;
    }
  }

  method PerformClick(mouse: MouseController, g: Readings, sink: Sink)
    requires mouse.Valid()
    modifies mouse
    ensures mouse.Valid() && mouse.State() == old(mouse.State())
    ensures mouse.events == old(mouse.events) + ClickGesture(g, sink)
  {
    if g.thumbIndex {
      mouse.Click("left", sink.clickOk);
    } else {
      assert mouse.events + [] == mouse.events;
    }
  }

  method PerformDoubleClick(mouse: MouseController, g: Readings, sink: Sink)
    requires mouse.Valid()
    modifies mouse
    ensures mouse.Valid() && mouse.State() == old(mouse.State())
    ensures mouse.events == old(mouse.events) + DoubleClickGesture(g, sink)
  {
    if g.thumbMiddle {
      mouse.DoubleClick(sink.firstClickOk, sink.secondClickOk);
    } else {
      assert mouse.events + [] == mouse.events;
    }
  }

  /** The touch-mode block of the loop body: click, double click, then drag or release. */
  method TouchGestures(mouse: MouseController, g: Readings, sink: Sink)
    requires mouse.Valid()
    modifies mouse
    ensures mouse.Valid()
    ensures var t := TouchGestureStep(old(mouse.isDragging), g, sink);
      && mouse.State() == old(mouse.State()).(dragging := t.dragging)
      && mouse.events == old(mouse.events) + t.events
  {
    ghost var e0 := mouse.events;
    ghost var dragging := mouse.isDragging;
    PerformClick(mouse, g, sink);
    PerformDoubleClick(mouse, g, sink);
    if g.thumbRing {
      mouse.ToggleDrag(true, sink.dragOk);
    } else {
      mouse.ToggleDrag(false, sink.dragOk);
    }
    AppendAssoc(e0, ClickGesture(g, sink), DoubleClickGesture(g, sink));
    AppendAssoc(e0, ClickGesture(g, sink) + DoubleClickGesture(g, sink), DragStep(dragging, g.thumbRing, sink.dragOk).events);
  }

  /** The touch part of the loop body: the gestures, in touch mode with a hand. */
  method TouchActions(mouse: MouseController, mode: Mode, inp: FrameInput)
    requires mouse.Valid()
    modifies mouse
    ensures mouse.Valid()
    ensures var t := TouchStep(old(mouse.isDragging), mode, inp);
      && mouse.State() == old(mouse.State()).(dragging := t.dragging)
      && mouse.events == old(mouse.events) + t.events
  {
    if inp.hand.Some? && mode == TouchMode {
      TouchGestures(mouse, inp.hand.value.gestures, inp.sink);
    } else {
      assert mouse.events + [] == mouse.events;
    }
  }

  /** The smooth-scroll block of the loop body. */
  method SmoothScroll(mouse: MouseController, velocity: real, ok: bool) returns (newVelocity: real)
    requires mouse.Valid()
    modifies mouse
    ensures mouse.Valid()
    ensures var t := ScrollTick(velocity, ok);
      && newVelocity == t.velocity
      && mouse.State() == old(mouse.State())
      && mouse.events == old(mouse.events) + t.events
  {
    newVelocity := velocity;
    if RealAbs(velocity) >= 1.0 {
      mouse.Scroll(if velocity > 0.0 then "down" else "up", ScrollStep, ok);
      newVelocity := velocity * ScrollDecay;
    } else {
      assert mouse.events == mouse.events + [];
    }
  }

  /** The scroll-gesture block of the loop body. */
  method SteerVelocity(velocity: real, mode: Mode, hand: Option<Hand>) returns (newVelocity: real)
    ensures newVelocity == Steer(velocity, mode, hand)
  {
    newVelocity := velocity;
    if hand.Some? && Scrolls(mode) {
      if hand.value.gestures.thumbMiddleRing {
        newVelocity := newVelocity + VelocityStep;
      }
      if hand.value.gestures.fistIndexUp {
        newVelocity := newVelocity - VelocityStep;
      }
    }
  }

  /** The zoom-key block of the loop body. */
  method ZoomKeys(scale: real, key: int) returns (newScale: real)
    ensures newScale == ApplyKey(scale, key)
  {
    newScale := scale;
    if IsZoomIn(key) {
      newScale := RealMin(newScale + ZoomStep, ScaleMax);
    } else if IsZoomOut(key) {
      newScale := RealMax(newScale - ZoomStep, ScaleMin);
    }
  }

  /** One iteration of the loop body of `main`, on the mouse controller itself. */
  method ProcessFrame(mouse: MouseController, mode: Mode, velocity: real, scale: real, inp: FrameInput)
    returns (newVelocity: real, newScale: real, quit: bool)
    requires mouse.Valid() && CanMove(mouse.Config())
    modifies mouse
    ensures mouse.Valid()
    ensures var f := Frame(mouse.Config(), mode, LoopState(old(mouse.State()), velocity, scale), inp);
      && LoopState(mouse.State(), newVelocity, newScale) == f.state
      && quit == f.quit
      && mouse.events == old(mouse.events) + f.events
  {
    ghost var c := mouse.Config();
    ghost var st := mouse.State();
    ghost var e0 := mouse.events;
    ghost var moved := MoveStep(c, mode, st, inp);
    MovePointer(mouse, mode, inp);
    newVelocity := SteerVelocity(velocity, mode, inp.hand);
    ghost var touched := TouchStep(moved.state.dragging, mode, inp);
    TouchActions(mouse, mode, inp);
    ghost var tick := ScrollTick(newVelocity, inp.sink.scrollOk);
    newVelocity := SmoothScroll(mouse, newVelocity, inp.sink.scrollOk);
    newScale := ZoomKeys(scale, inp.key);
    quit := inp.key == KeyQuit;
    AppendAssoc(e0, moved.events, touched.events);
    AppendAssoc(e0, moved.events + touched.events, tick.events);
  }

  /** The loop over frames with the frames so far in an accumulator, as the loop keeps them. */
  function RunFrom(c: MouseConfig, mode: Mode, acc: RunResult, pending: seq<FrameInput>): RunResult
    requires CanMove(c)
    decreases |pending|
  {
    if pending == [] then acc
    else
      var f := Frame(c, mode, acc.state, pending[0]);
      var next := RunResult(f.state, acc.events + f.events, acc.frames + 1);
      if f.quit then next else RunFrom(c, mode, next, pending[1..])
  }

  /** The accumulating loop continues the account of the frames so far with the rest of the run. */
  lemma {:induction false} RunFromIsRun(c: MouseConfig, mode: Mode, acc: RunResult, pending: seq<FrameInput>)
    requires CanMove(c)
    ensures var r := Run(c, mode, acc.state, pending);
      RunFrom(c, mode, acc, pending) == RunResult(r.state, acc.events + r.events, acc.frames + r.frames)
    decreases |pending|
  {
    if pending == [] {
      assert acc.events + [] == acc.events;
    } else {
      var f := Frame(c, mode, acc.state, pending[0]);
      var next := RunResult(f.state, acc.events + f.events, acc.frames + 1);
      if !f.quit {
        RunFromIsRun(c, mode, next, pending[1..]);
        AppendAssoc(acc.events, f.events, Run(c, mode, f.state, pending[1..]).events);
      }
    }
  }

  /** Started from nothing, the accumulating loop computes the run. */
  lemma LoopRunsSession(c: MouseConfig, mode: Mode, inputs: seq<FrameInput>)
    requires CanMove(c)
    ensures RunFrom(c, mode, RunResult(InitialState, [], 0), inputs) == Run(c, mode, InitialState, inputs)
  {
    RunFromIsRun(c, mode, RunResult(InitialState, [], 0), inputs);
    assert [] + Run(c, mode, InitialState, inputs).events == Run(c, mode, InitialState, inputs).events;
  }

  /**
   * The `while True` loop of `main`: one iteration per camera frame until the
   * frames run out or `q` is pressed; help mode returns before the loop.
   */
  method RunMain(mouse: MouseController, mode: Mode, inputs: seq<FrameInput>) returns (frames: nat)
    requires mouse.Valid() && CanMove(mouse.Config()) && mouse.State() == InitialState.mouse
    modifies mouse
    ensures mouse.Valid()
    ensures var r := Session(mouse.Config(), mode, inputs);
      && mouse.State() == r.state.mouse
      && mouse.events == old(mouse.events) + r.events
      && frames == r.frames
  {
    if mode == HelpMode {
      return 0;
    }
    ghost var c := mouse.Config();
    ghost var total := RunFrom(c, mode, RunResult(InitialState, [], 0), inputs);
    LoopRunsSession(c, mode, inputs);
    ghost var logged: seq<Event> := [];
    var velocity, scale := 0.0, InitialScale;
    var pending := inputs;
    var quit := false;
    frames := 0;
    while pending != [] && !quit
      invariant mouse.Valid() && mouse.Config() == c
      invariant mouse.events == old(mouse.events) + logged
      invariant !quit ==> RunFrom(c, mode, RunResult(LoopState(mouse.State(), velocity, scale), logged, frames), pending) == total
      invariant quit ==> RunResult(LoopState(mouse.State(), velocity, scale), logged, frames) == total
      decreases |pending|
    {
      ghost var f := Frame(c, mode, LoopState(mouse.State(), velocity, scale), pending[0]);
      velocity, scale, quit := ProcessFrame(mouse, mode, velocity, scale, pending[0]);
      AppendAssoc(old(mouse.events), logged, f.events);
      logged := logged + f.events;
      frames := frames + 1;
      pending := pending[1..];
    }
  }

  /** `get_text` of the entry script: the same fallbacks as the session's text lookup. */
  function GetText(data: JsonConfig.Table, key: string, lang: string): (r: string)
    ensures key in data && lang in data[key] ==> r == data[key][lang]
    ensures key in data && lang !in data[key] && "uk" in data[key] ==> r == data[key]["uk"]
    ensures key !in data || (lang !in data[key] && "uk" !in data[key]) ==> r == key
  {
    var entry := if key in data then data[key] else map[];
    if lang in entry then entry[lang]
    else if "uk" in entry then entry["uk"]
    else key
  }

  lemma GetTextAgrees(data: JsonConfig.Table, key: string, lang: string)
    ensures GetText(data, key, lang) == Cli.LookupText(data, key, JsonConfig.JStr(lang))
  {
  }

  /** Python's bound for a slice `a[i:j]` of a sequence of length n (step 1). */
  function SliceBound(n: nat, i: int): (b: nat)
    ensures b <= n
  {
    if i < 0 then (if i + n < 0 then 0 else i + n) else (if i > n then n else i)
  }

  /** The length of `a[start:stop]` for a sequence of length n. */
  function SliceLength(n: nat, start: int, stop: int): nat
  {
    var s := SliceBound(n, start);
    var e := SliceBound(n, stop);
    if e >= s then e - s else 0
  }

  /** The rectangle `zoom_frame` cuts out of the resized frame. */
  datatype Crop = Crop(startX: int, startY: int, width: nat, height: nat)

  /** `zoom_frame` after the resize: a `w x h` window centred in the `newW x newH` frame. */
  function ZoomCrop(w: nat, h: nat, newW: nat, newH: nat): Crop
  {
    var startX := newW / 2 - w / 2;
    var startY := newH / 2 - h / 2;
    Crop(startX, startY, SliceLength(newW, startX, startX + w), SliceLength(newH, startY, startY + h))
  }

  lemma HalfMonotone(a: nat, b: nat)
    requires a <= b
    ensures a / 2 <= b / 2 && a - a / 2 <= b - b / 2
  {
  }

  /**
   * For a frame enlarged on both axes the window lies inside it, so the
   * zoomed frame keeps the camera's size; without enlargement it starts at 0;
   * and the window is centred to within one pixel.
   */
  lemma ZoomKeepsSize(w: nat, h: nat, newW: nat, newH: nat)
    requires w <= newW && h <= newH
    ensures var c := ZoomCrop(w, h, newW, newH);
      && 0 <= c.startX && c.startX + w <= newW
      && 0 <= c.startY && c.startY + h <= newH
      && c.width == w && c.height == h
      && (newW == w ==> c.startX == 0) && (newH == h ==> c.startY == 0)
      && -1 <= (newW - (c.startX + w)) - c.startX <= 1
      && -1 <= (newH - (c.startY + h)) - c.startY <= 1
  {
    HalfMonotone(w, newW);
    HalfMonotone(h, newH);
  }
}
