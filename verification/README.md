# Time-of-day tinted wallpaper engine

A model of `WPEngine`, the live-wallpaper engine of the TBHWP Android app. The engine draws one
background image through a colour filter whose hue follows the time of day. It redraws once a
minute while visible, and it redraws at once when the host shows it.

- `tint.dfy`, module `Tint`: the hue part of `currentFilter`. The hour and minute are parameters
  where the source reads `Calendar`. The hue is an exact `real`: a quarter of a degree per minute
  since midnight. The filter has saturation 1, value 1 and blend mode multiply.
- `engine.dfy`, module `Engine`: the engine state, datatype `WPEngine`. It holds `visible` (initially true), `width`
  and `height` (initially 0) and the handler's pending posts of the draw runner. The pending posts
  are a multiset, and each post is tagged with its delay: 0 for `post`, 60000 ms for `postDelayed`.
  The module also has the construction step, the three host callbacks and `draw`. The outcome of
  `lockCanvas` is a parameter: a canvas of some size, or null.
- `lifecycle.dfy`, module `Lifecycle`: runs of events, meaning host callbacks and looper dispatches
  of a pending post. It proves the engine invariant. The main consequence is that no draw runs
  while the engine is hidden.

Three facts about the code shape the model:
- `currentFilter` builds its colour with saturation and value 1 (WPService.kt line 66).
- `onVisibilityChanged(true)` posts a draw without cancelling the pending ones (line 39). So
  several immediate posts can be pending at once. `Engine.Inv` therefore bounds only the delayed
  posts: at most one is pending. `Engine.ImmediateDrawsPileUp` shows three immediate posts pending.
- `draw` scales the image to the canvas's own size (line 77), not to the `width` and `height`
  recorded by `onSurfaceChanged`. `Engine.CompositeIgnoresRecordedGeometry` states this.

## Model

| member | source | states |
|---|---|---|
| Tint.TimeInMinutes | app/src/main/java/de/mdraw/mwp/WPService.kt:59-61 | for an hour in [0,23] and a minute in [0,59], the minute of the day lies in [0,1439]; divided by 60 it gives back the hour, and its remainder gives back the minute |
| Tint.ClockAt | app/src/main/java/de/mdraw/mwp/WPService.kt:59-61 | every minute of the day in [0,1439] comes from exactly one valid clock reading (the inverse of the minutes computation) |
| Tint.ClockRoundTrip | app/src/main/java/de/mdraw/mwp/WPService.kt:59-61 | turning a clock reading into minutes and back gives the same reading |
| Tint.TimeInMinutesInjective | app/src/main/java/de/mdraw/mwp/WPService.kt:61 | two valid readings have the same minute of the day if and only if they are equal |
| Tint.Hue | app/src/main/java/de/mdraw/mwp/WPService.kt:62-64 | the hue is exactly a quarter of the minute count; for a minute of the day it lies in [0,360) |
| Tint.CurrentFilter | app/src/main/java/de/mdraw/mwp/WPService.kt:57-68 | the filter's hue is the time in minutes divided by 4, in [0,360); saturation and value are 1; the blend mode is multiply |
| Tint.HueStrictlyIncreasing | app/src/main/java/de/mdraw/mwp/WPService.kt:61-64 | one minute count is smaller than another if and only if its hue is smaller |
| Tint.HueLandmarks | app/src/main/java/de/mdraw/mwp/WPService.kt:59-64 | hue(00:00) = 0, hue(12:00) = 180, hue(23:59) = 359.75 |
| Tint.HueMaximumAtLastMinute | app/src/main/java/de/mdraw/mwp/WPService.kt:59-64 | every hue of the day is at most 359.75, which is below 360, and only 23:59 reaches 359.75 |
| Tint.HueFollowsTimeOfDay | app/src/main/java/de/mdraw/mwp/WPService.kt:59-64 | a reading is earlier in the day (by hour, then by minute) if and only if its hue is smaller |
| Engine.Init | app/src/main/java/de/mdraw/mwp/WPService.kt:18-33 | a new engine is visible, has size 0×0, has exactly one pending post, which is immediate, and satisfies the invariant |
| Engine.OnVisibilityChanged | app/src/main/java/de/mdraw/mwp/WPService.kt:35-43 | `visible` takes the reported value. Becoming visible keeps every pending post and adds exactly one immediate post. Becoming hidden leaves nothing pending. The size is unchanged and the invariant is kept |
| Engine.OnSurfaceDestroyed | app/src/main/java/de/mdraw/mwp/WPService.kt:45-49 | the engine becomes hidden with nothing pending; its size is unchanged |
| Engine.OnSurfaceChanged | app/src/main/java/de/mdraw/mwp/WPService.kt:51-55 | the size becomes (width, height); visibility and the pending posts are unchanged; the invariant is kept |
| Engine.SurfaceEffects | app/src/main/java/de/mdraw/mwp/WPService.kt:72-85 | with no canvas, nothing is composited and nothing is unlocked. With a canvas, there is exactly one composite and exactly one unlock, and the unlock comes last. The composite is scaled to the canvas's own width and height and uses the current filter |
| Engine.Draw | app/src/main/java/de/mdraw/mwp/WPService.kt:71-88 | whatever was pending before and whatever `lockCanvas` returned, a visible engine ends with exactly one delayed (60000 ms) post pending and a hidden one with none; visibility and size are unchanged; the surface effects are exactly those of `SurfaceEffects`: no effect without a canvas; with one, a single composite at the canvas size with the current filter, then a single unlock of that canvas |
| Engine.RunPending | app/src/main/java/de/mdraw/mwp/WPService.kt:71-88 | a dispatched post can run only on a visible engine (under the invariant); afterwards exactly one delayed post is pending |
| Engine.RescheduleIgnoresLock | app/src/main/java/de/mdraw/mwp/WPService.kt:75-87 | the engine state after a draw is the same whether or not a canvas was obtained |
| Engine.CompositeIgnoresRecordedGeometry | app/src/main/java/de/mdraw/mwp/WPService.kt:51-77 | what a draw composites does not depend on the width and height recorded by `onSurfaceChanged` |
| Engine.ImmediateDrawsPileUp | app/src/main/java/de/mdraw/mwp/WPService.kt:31-39 | after construction and two reports of visibility, three immediate posts are pending |
| Lifecycle.Step | app/src/main/java/de/mdraw/mwp/WPService.kt:32-88 | every event keeps the invariant; a dispatch happens only on a visible engine and leaves exactly one delayed post; a resize changes neither visibility nor the pending posts |
| Lifecycle.Run | app/src/main/java/de/mdraw/mwp/WPService.kt:32-88 | every run of events keeps the invariant |
| Lifecycle.InvariantFromInit | app/src/main/java/de/mdraw/mwp/WPService.kt:18-88 | the invariant holds in every state reachable from construction: a hidden engine has nothing pending, a visible one has a draw pending (so visible if and only if a draw is pending), and at most one delayed post is pending |
| Lifecycle.NoDispatchWhileHidden | app/src/main/java/de/mdraw/mwp/WPService.kt:35-49 | under the invariant, no dispatch is possible while the engine is hidden |
| Lifecycle.HiddenStaysQuiet | app/src/main/java/de/mdraw/mwp/WPService.kt:35-88 | from a hidden engine, no draw is dispatched during any run without `onVisibilityChanged(true)`; the engine stays hidden with nothing pending |

## Left out

- `Color.HSVToColor`, `PorterDuffColorFilter`, `BitmapFactory.decodeResource`, `Bitmap.createScaledBitmap` and `canvas.drawBitmap` are Android library calls whose code is not available. A composite is an opaque event that records the scale target and the filter. The RGB colour is not computed.
- Float rounding of the hue: the hue is an exact real. The landmark values 0, 180 and 359.75 can be represented exactly in binary floating point.
- `Calendar.getInstance()` reads the clock. The hour and minute are parameters instead.
- `Log.i` only logs, so it is left out.
- The timing and thread behaviour of `Handler` and the looper are left out. The model keeps only which posts are pending and their delays. Which pending post the looper dispatches next is a parameter of the dispatch event.
- The model does not cover exceptions thrown by the library calls inside `draw`'s `try` block. Under Kotlin's `finally`, the canvas would still be unlocked, but the exception would skip the cancel-and-reschedule lines 86-87.
- The `super` calls to the framework's `Engine` callbacks and the `holder`/`format` arguments are left out. They carry no engine state.
- `MainActivity.kt` is left out. It only launches the system's wallpaper chooser.
