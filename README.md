# camera_mouse, modelled in Dafny

camera_mouse turns a webcam into a mouse. Each camera frame goes to a hand
detector. The centre of the detected hand moves the pointer through a
low-pass filter. Pinches of the thumb against the other fingertips click,
double-click and drag. Two further gestures steer a decaying scroll
velocity, and the `+`, `-` and `q` keys zoom the camera image or quit.

This project models that core:

- `landmarks.dfy` (`Landmarks`): a tracked joint and the conversion of
  normalised coordinates to pixels. Python's `int()` is truncation toward
  zero.
- `preset_gestures.dfy` (`Gestures`): the gesture predicates of
  `PresetGestures`. Touch is modelled as a strict squared-distance test
  against the threshold.
- `hand_tracker.dfy` (`HandTracking`): the reading of one detection
  result. This covers the landmark list, the fingertip dictionary (built
  by a loop) and the hand centre.
- `mouse_controller.dfy` (`MouseControl`): the class `MouseController`.
  It holds the filtered cursor, the drag flag and a ghost log of the OS
  mouse calls that took effect. It also holds the conversion from frame
  to screen coordinates, the filter, and the drag state machine with its
  alternation invariant.
- `main_loop.dfy` (`ControlLoop`): one iteration of `main`'s loop.
  - It is both a specification function `Frame` and a method
    `ProcessFrame` on the controller.
  - The whole loop is both `Run` and the method `RunMain`.
  - The scroll integrator, the zoom clamping, the crop arithmetic of
    `zoom_frame`, and `get_text`.
- `cli_manager.py` and `json_manager.py` are modelled in `cli_manager.dfy`
  (`Cli`) and `json_manager.dfy` (`JsonConfig`): the session settings, the
  text lookup and the default-merging of the configuration.

The code has no edge detection, no cooldown, no worker threads and no
release of a held drag on exit. The model follows the code:
- a pinch clicks on every frame in which it holds (`HeldPinchClicksEveryFrame`);
- the loop is a single sequential loop;
- a drag still held when the loop ends stays held.

The OS mouse is an external sink. Every call takes a flag saying whether
it succeeded. A failing call raises inside a `try` and is only printed.
Only successful calls enter the log `MouseController.events`.

## Model

| member | source | states |
|---|---|---|
| Landmarks.Trunc | preset_gestures.py:24-27 | `int()` of a float: the integer toward zero, within one of the argument, for both signs |
| Gestures.Tip | preset_gestures.py:15-21 | each fingertip index is one of 4, 8, 12, 16, 20, below the 21 landmarks |
| Gestures.TipInjective | preset_gestures.py:15-21 | different fingers have different tip indices |
| Gestures.Distance2 | preset_gestures.py:23-28 | the squared pixel distance is non-negative and zero from a point to itself |
| Gestures.DistanceSymmetric | preset_gestures.py:23-28 | the distance is symmetric in its two points |
| Gestures.DistanceOnlyPixels | preset_gestures.py:24-28 | the distance depends only on the truncated pixel coordinates of the two points |
| Gestures.BelowIsEuclidean | preset_gestures.py:28-32 | the squared test `d2 < th*th` (with `th > 0`) holds exactly when the Euclidean distance is below the threshold |
| Gestures.TouchIsStrict | preset_gestures.py:32 | `Touches` (`_touch`): a touch fires iff the squared distance is below the squared threshold; a touch at exactly the threshold does not fire |
| Gestures.GroupTouchMeaning | preset_gestures.py:30-32 | `GroupTouch` (`_group_touch`): a group touches iff every finger in it other than the thumb touches the thumb |
| Gestures.GroupTouchVacuous | preset_gestures.py:32 | a group holding only thumbs always touches |
| Gestures.GroupTouchIgnoresThumb | preset_gestures.py:32 | inserting the thumb anywhere into a group never changes the result |
| Gestures.GroupTouchAntitone | preset_gestures.py:32 | if every finger of group A is in group B, a touch of B implies a touch of A |
| Gestures.FistAndIndexUpMeaning | preset_gestures.py:35-41 | `IsFistAndIndexUp` (`is_fist_and_index_up`): false for fewer than 21 landmarks; otherwise true iff the index tip is 0.03 above joint 6 and tips 12, 16, 20 are each 0.015 below the joint two before them |
| Gestures.FistAndIndexUpOnlyY | preset_gestures.py:38-41 | the fist test ignores x, z, the frame size and the threshold |
| Gestures.SingleTouchMeaning | preset_gestures.py:48-61 | `IsThumbAndIndex`, `IsThumbAndMiddle`, `IsThumbAndRing`, `IsThumbAndPinky`: each single-finger gesture holds iff that fingertip touches the thumb tip |
| Gestures.CompositeGestures | preset_gestures.py:44-71 | `IsThumbMiddleRing`, `IsThumbIndexMiddle`, `IsThumbRingPinky`: thumb-middle-ring, thumb-index-middle and thumb-ring-pinky are the conjunctions of their two single-finger gestures |
| HandTracking.GetHandLandmarks | hand_tracker.py:27-39 | no list without a result or with the hand index out of range; otherwise one entry per landmark, entry i carrying id i and that landmark's x, y, z |
| HandTracking.GetFingerPositions | hand_tracker.py:41-61 | no result exactly when there is no non-empty landmark list; otherwise exactly the keys thumb, index, middle, ring, pinky, each mapped to the truncated pixel of tip 4, 8, 12, 16, 20 |
| HandTracking.GetHandCenter | hand_tracker.py:63-71 | no centre exactly when there is no non-empty landmark list |
| HandTracking.HandCenterInFrame | hand_tracker.py:67-71 | with every landmark coordinate in [0, 1], the centre lies in [0, w] x [0, h] |
| HandTracking.HandCenterOfSinglePoint | hand_tracker.py:63-71 | when every landmark is at one point, the centre is that point's truncated pixel |
| JsonConfig.LoadJson | json_manager.py:13-18 | a missing file gives the default; a present file gives its content |
| JsonConfig.MissingFilesGiveDefaults | json_manager.py:26-33 | without their files the profiles and texts are `{}` and the gestures `[]`; with them, their contents |
| JsonConfig.WithDefaults | json_manager.py:44-45 | the merge has the stored keys plus the three defaults; stored values are kept and missing defaults take their default values |
| JsonConfig.WithDefaultsIdempotent | json_manager.py:44-45 | merging the defaults into a merged configuration changes nothing |
| JsonConfig.LoadMainConfig | json_manager.py:35-46 | no file or `null` gives exactly the three defaults; an object gives the merge; the result always holds every default key |
| Cli.ResolveLang | cli_manager.py:29 | the argument language when given, else the stored `lang`, else `"uk"` |
| Cli.ArgumentLangWins | cli_manager.py:29 | a valid `--lang` always wins and is one of `uk`, `en` |
| Cli.ResolveMode | cli_manager.py:31-37 | the argument mode when given; otherwise the stored `last_profile` or `"default"`, with a stored `"help"` replaced by `"default"` |
| Cli.ResolveProfile | cli_manager.py:39 | the mode's profile if present, else the default profile if present, else an empty map |
| Cli.UpdatedConfigMeaning | cli_manager.py:41-43 | `lang` is always written; `last_profile` is written except in help mode, where it is untouched; no other key changes; the key set grows by exactly the written keys |
| Cli.SessionRoundTrip | cli_manager.py:29-43 | a session started outside help mode restores the same mode and language from the configuration it saved, when run without arguments |
| Cli.HelpOnlyFromArguments | cli_manager.py:31-37 | `IsHelpRequested` tests the mode this resolves: the mode is help iff the argument asks for it |
| Cli.LookupText | cli_manager.py:46-47 | `CliManager.GetText` (`get_text`) returns this lookup: the text in the language, else in Ukrainian, else the key itself |
| Cli.CliManager.constructor | cli_manager.py:6-44 | the session's language, mode, profile and configuration are the resolved ones, and the updated configuration is the one saved |
| Cli.CliManager.PersistState | cli_manager.py:55-56 | the kept configuration is saved unchanged |
| MouseControl.Normalize | mouse_controller.py:22-26 | for a frame wider than its margins, the normalised coordinate is in [0, 1], 0 at or below the margin, and 1 at or beyond the far margin |
| MouseControl.ConvertAxis | mouse_controller.py:22-29 | one axis lies in [0, screen]; at or below the margin it is 0; at or beyond the far margin, or for frames narrower than two margins, it is the full screen size |
| MouseControl.ConvertAxisMonotone | mouse_controller.py:21-31 | the conversion is monotone non-decreasing in the frame coordinate |
| MouseControl.ConvertCoordinates | mouse_controller.py:21-31 | both axes of the conversion together, with the same range and edge values |
| MouseControl.SmoothAxisContracts | mouse_controller.py:36-37 | for smoothing at least 1, the new position lies between the old one and the target, and the distance left is the old distance times `1 - 1/smoothing` |
| MouseControl.SmoothAxisOffset | mouse_controller.py:36-37 | one filter step scales the signed offset from the target by `1 - 1/smoothing` |
| MouseControl.SmoothTowardsOffset | mouse_controller.py:36-40 | after k steps toward a fixed target the signed offset is the initial one times `(1 - 1/smoothing)^k` |
| MouseControl.SmoothNeverRecedes | mouse_controller.py:36-40 | toward a fixed target the filtered cursor never gets further away |
| MouseControl.SmoothMoveStepShape | mouse_controller.py:33-45 | `SmoothMoveStep` (`smooth_move`): a move keeps the drag flag, stores the filtered position whether or not the OS move succeeds, and logs one move, to the truncated position, only on success |
| MouseControl.SmoothMoveStepApproaches | mouse_controller.py:33-40 | a move brings both axes toward the converted target, between old position and target, by the filter factor |
| MouseControl.ClickEvents | mouse_controller.py:47-54 | `left` and `right` give one click of that button; any other name, or a failing call, gives nothing |
| MouseControl.DoubleClickEvents | mouse_controller.py:56-61 | two left clicks; one if the second call fails; none if the first fails |
| MouseControl.DragStep | mouse_controller.py:63-72 | the flag becomes the request when the call succeeds and stays otherwise; a press or a release is logged exactly when the flag changes |
| MouseControl.DragStepIdempotent | mouse_controller.py:63-72 | repeating a toggle that took effect does nothing |
| MouseControl.ScrollEvents | mouse_controller.py:74-81 | `up` scrolls by +amount, `down` by -amount, anything else or a failing call not at all |
| MouseControl.DragConsistentMeaning | mouse_controller.py:63-72 | the drag invariant means presses and releases in the log strictly alternate starting with a press, and the flag is set iff the last was a press |
| MouseControl.DragStepKeepsConsistent | mouse_controller.py:63-72 | a toggle keeps the log's presses and releases in step with the flag |
| MouseControl.DistanceSquared | mouse_controller.py:83-86 | the squared distance is non-negative, zero iff the points are equal, and symmetric |
| MouseControl.MouseController.constructor | mouse_controller.py:6-19 | starts at (0, 0), not dragging, margin 100, smoothing 7 unless given, with an empty log |
| MouseControl.MouseController.SmoothMove | mouse_controller.py:33-45 | the new cursor and log are those of the smoothed move, and the drag invariant is kept |
| MouseControl.MouseController.Click | mouse_controller.py:47-54 | the cursor and flag are unchanged and the log grows by the click's events |
| MouseControl.MouseController.DoubleClick | mouse_controller.py:56-61 | the cursor and flag are unchanged and the log grows by the double click's events |
| MouseControl.MouseController.ToggleDrag | mouse_controller.py:63-72 | the flag and log follow the drag state machine; the cursor is unchanged; the alternation invariant is kept |
| MouseControl.MouseController.Scroll | mouse_controller.py:74-81 | the cursor and flag are unchanged and the log grows by the scroll's events |
| ControlLoop.ParseMode | main.py:30-31 | exactly the five mode names parse |
| ControlLoop.Launch | main.py:29-39 | a session starts iff the mode argument is absent or one of the five choices; an absent argument runs the loop in default mode; `help` processes no frame |
| ControlLoop.Perceive | main.py:68-73 | a hand is seen iff there is a non-empty landmark list; its centre is the hand centre and its readings are the gesture tests at threshold 40 |
| ControlLoop.ApplyKey | main.py:114-118 | `+`/`=` add 0.1 capped at 4.0, `-`/`_` subtract 0.1 floored at 1.0, other keys keep the scale; a scale in [1, 4] stays in it |
| ControlLoop.MoveStep | main.py:71-77 | a move happens only in default and touch mode with a hand, keeps the drag flag, and logs at most one move |
| ControlLoop.Steer | main.py:79-87 | in default and scroll mode with a hand, +2 for thumb-middle-ring and -2 for the raised index, both possibly in one frame; otherwise unchanged |
| ControlLoop.TouchStep | main.py:89-103 | in touch mode with a hand, the flag follows the drag request on the ring pinch; otherwise nothing happens; only clicks, presses and releases are logged |
| ControlLoop.ScrollTick | main.py:105-108 | below 1 in magnitude nothing happens; otherwise at most one scroll of 0.7, downwards for positive velocity, and the velocity is multiplied by 0.3 |
| ControlLoop.FrameKeepsBounds | main.py:54-118 | `Frame` (one iteration of the loop): a frame starting with velocity below 1 in magnitude and scale in [1, 4] ends that way |
| ControlLoop.FrameScrolls | main.py:79-108 | from the loop invariant, a frame scrolls iff exactly one scroll gesture holds and the call succeeds: down for thumb-middle-ring, up for the raised index |
| ControlLoop.FrameMovesOnlyWhenAllowed | main.py:71-77 | no pointer move outside default and touch mode or without a hand |
| ControlLoop.FrameTouchesOnlyWhenAllowed | main.py:89-103 | no click or drag event and no change of the drag flag outside touch mode or without a hand |
| ControlLoop.FrameWithoutHandIsQuiet | main.py:71-108 | from the loop invariant, a frame without a hand makes no OS call and keeps the cursor and the velocity |
| ControlLoop.FrameDrag | main.py:98-103 | in touch mode with a hand, a successful call leaves the drag flag equal to the ring pinch; a failing one leaves it unchanged |
| ControlLoop.TouchClicks | main.py:89-97 | the touch part issues exactly the left clicks the frame's gestures ask for |
| ControlLoop.FrameClicks | main.py:89-97 | a frame's left clicks depend only on that frame's input, never on earlier frames |
| ControlLoop.TouchKeepsDragConsistent | main.py:98-103 | the touch part keeps presses and releases alternating in step with the flag |
| ControlLoop.FrameKeepsDragConsistent | main.py:60-108 | a whole frame keeps presses and releases alternating in step with the flag |
| ControlLoop.RunFrames | main.py:60-120 | `Run` (the `while True` loop): the loop processes the frames up to and including the first `q`, or all of them |
| ControlLoop.RunKeepsBounds | main.py:54-120 | the velocity and scale bounds hold after any number of frames |
| ControlLoop.RunKeepsDragConsistent | main.py:60-120 | presses and releases alternate in step with the flag after any number of frames |
| ControlLoop.RunClicks | main.py:60-120 | the loop's left clicks are exactly the sum of the clicks its processed frames ask for |
| ControlLoop.HeldPinchClicksEveryFrame | main.py:90-91 | holding the index pinch for n frames gives n left clicks (no cooldown) |
| ControlLoop.ScrollModeOnlyScrolls | main.py:75-103 | scroll mode never moves the pointer, clicks or drags |
| ControlLoop.SessionInvariants | main.py:37-120 | `Session` (`main` after argument parsing): over a session, the bounds hold, presses and releases alternate, and help mode processes no frame |
| ControlLoop.MovePointer | main.py:74-77 | the controller's new state and log are those of the frame's move step |
| ControlLoop.PerformClick | main.py:90-91 | a left click on the index pinch, nothing otherwise; cursor and flag unchanged |
| ControlLoop.PerformDoubleClick | main.py:94-95 | a double click on the middle pinch, nothing otherwise; cursor and flag unchanged |
| ControlLoop.TouchGestures | main.py:90-103 | the click, the double click and the drag request in order, as the touch-gesture step says |
| ControlLoop.TouchActions | main.py:89-103 | the controller's new flag and log are those of the touch step |
| ControlLoop.SteerVelocity | main.py:79-87 | the new velocity is the steered one |
| ControlLoop.SmoothScroll | main.py:105-108 | the new velocity and log are those of the scroll tick; the cursor is unchanged |
| ControlLoop.ZoomKeys | main.py:114-118 | the new scale is the one the key gives |
| ControlLoop.ProcessFrame | main.py:60-120 | one loop iteration on the controller yields exactly the new state, the events and the quit decision of `Frame` |
| ControlLoop.RunMain | main.py:37-120 | the loop over the frames leaves the controller in the state of the session, with its events logged and the number of frames processed |
| ControlLoop.GetText | main.py:12-16 | the text in the language, else in Ukrainian, else the key |
| ControlLoop.GetTextAgrees | main.py:16 | the entry script's lookup agrees with the session's text lookup |
| ControlLoop.ZoomKeepsSize | main.py:18-26 | `ZoomCrop` (`zoom_frame`): for an enlarged frame the crop lies inside it and keeps the camera's size, starts at 0 without enlargement, and is centred to within one pixel |

## Left out

- The camera, OpenCV and MediaPipe are not modelled: capture, flip, resize, drawing, the window, `waitKey`, `find_hands`, `close`. Each frame's detected hand and key, and the resized size for `zoom_frame`, are inputs.
- The OS mouse calls (autopy, pynput) are not modelled. Each call's success is an input flag, and a successful call is a ghost log entry. The screen size the OS reports is a constructor parameter.
- The printing of errors, help text and the mode banner is left out, since it is output only.
- argparse, file reads and writes, and JSON encoding are left out. Parsed arguments and loaded files are parameters, and `save_main_config` is modelled as the field `savedConfig`.
- The `ui` package, which is tkinter widgets driven from a thread and queues, is not part of this model.
- Floating point is modelled as exact `real` arithmetic. Repeated `+0.1` on the scale, for instance, is exact; IEEE rounding is not modelled.
- Gestures.Touches: the touch tests require the 21 landmarks that the class documents (preset_gestures.py:6) and that MediaPipe always returns. With fewer, a test raises only when one of its own tips is missing: the thumb-index test needs 9 landmarks, the thumb-middle test 13, the thumb-ring test 17. The model does not cover those shorter lists.
- HandTracking.GetFingerPositions: requires that a non-empty landmark list has at least 21 entries. With fewer, the source raises an index error.
- MouseControl.ConvertCoordinates: requires frames whose size differs from twice the margin. For those sizes the source divides by zero and raises.
- MouseControl.SmoothMoveStep: also requires a non-zero smoothing, since the source divides by it.
- HandTracking.GetHandLandmarks: the hand index is a natural number. Python's negative indexing is not modelled.
- JsonConfig.LoadMainConfig: the configuration file is `null` or an object. A file holding another JSON value, which the source cannot merge, is not modelled.
- ControlLoop.ZoomKeepsSize: assumes the resize did not shrink the frame. The resized size comes from OpenCV's rounding and is an input.
- ControlLoop.Frame: gesture readings arrive as booleans on the hand. `Perceive` connects them to the gesture predicates for a detection result.
