# InputAndCamera, modelled in Dafny

This project models the core of a small runtime for interactive 2D canvas
applications. The core has two stateful parts and one record type.

- **The mouse tracker** (`src/Mouse.ts`). Raw events arrive at any time: move, button
  down, button up, wheel. Each one changes the live state at once. Once per frame,
  `update()` latches each button's press and release edges from its `InputState`
  record. It also snapshots the two wheel accumulators and clears them.
- **The camera** (`src/Camera.ts`). It stores a position, a logical size, an anchor and
  an angle. Its scale is never stored: it is read off the logical size and the live
  canvas size. `begin()` and `end()` bracket drawing with a save, four transform calls
  and a restore on the canvas's 2D context.
- **The per-button record** (`src/InputState.ts`). Five booleans, all false when created.

Files:

- `input_state.dfy`: module `InputStates`, the record and `CreateInputState`.
- `mouse.dfy`: module `Mouse`.
  - The functions over `MouseState` state what each operation means: `AfterEvent`,
    `AfterUpdate`, and `Latch` for one button.
  - `class Mouse` keeps the source's fields. Its event handlers and `Update` are proved
    to follow those functions. `Update` calls `LatchEach`, which walks the three
    buttons with a loop, as the source's `forEach` does, and is proved to latch them all.
- `camera.dfy`: module `Camera`, with `class Camera`, the scale arithmetic, and
  `BeginShift`, the transform that `begin()`'s translation and scaling build.
- `canvas.dfy`: module `Canvas2D`, the browser side the camera talks to.
  - The canvas has a live size that the environment may change between calls.
  - The 2D context may be missing.
  - The context's transform stack is symbolic. A transform is the identity followed by
    the calls applied to it. The context also keeps a log of every call.
  - `DeviceCoord` gives a transform made of translations and scalings its meaning: where
    a point is drawn along one axis.
- `wrappers.dfy`: `Option`, `Result` and `Outcome`.

The getters `wheelDeltaX`, `wheelDeltaY`, `x` and `y` are the class functions
`WheelDeltaX`, `WheelDeltaY`, `X` and `Y`. Each reads one field. What those fields hold
is stated by the lemmas on `MouseState`: `WheelDeltaPerFrame` and `MoveOverwritesPosition`.

Behaviour kept exactly as the code has it:

- **Left is never tracked.** The guard `if (!button)` (`src/Mouse.ts:34`, `:51`) tests
  the enum value. `MouseButton.Left` is 0, which is falsy, so a down or up event with
  index 0 is dropped. `GuardedButton`, `ButtonEvent` and `LeftNeverDown` state this.
- **The release flag alternates.** It is `!isDown && !isReleasedPrev` (`src/Mouse.ts:65`).
  While a button stays up it is true, false, true, and so on; it does not fire once per
  release. `ReleaseAlternatesWhileUp` and `ReleasedOnOddUpRun` state this for one
  record, and `TrackerEdges` for the buttons of the tracker.
- **The scale setter and getter are not inverse.**
  - The getter computes `width / canvasWidth` (`src/Camera.ts:49`): logical size over
    canvas size.
  - The setter stores `canvasWidth / value` (`src/Camera.ts:45`).
  - So reading back a scale just set gives `1 / value`: setting `scaleX = 2` at canvas
    width 800 stores width 400, and reading it back gives 0.5
    (`SetThenGetIsReciprocal`, `RoundTripOnlyForUnitScale`).
- **World coordinates do not undo `begin()`.**
  - `getWorldX` returns `x + localX / scaleX` (`src/Mouse.ts:98`).
  - `begin()` translates by minus the position and then scales (`src/Camera.ts:20-21`).
    A canvas applies the later call to a point first, so a world x `w` is drawn at
    `w * scaleX - x`. The point drawn at `localX` is `(localX + x) / scaleX`
    (`BeginInverse`).
  - The two agree only when the scale is 1 or the camera sits at 0 on that axis
    (`ToWorldInvertsBeginOnlyWhen`, and the contracts of `GetWorldX` and `GetWorldY`).
  - Example: a camera at (10, 20) with logical size 400 x 300 on an 800 x 600 canvas has
    scale 0.5. The pointer at (100, 100) maps to world (210, 220) (`WorldExample`).
    `begin()` draws that point at (95, 90). The point it draws at (100, 100) is
    (220, 240) (`WorldExampleNotRedrawn`).

## Model

| member | source | states |
|---|---|---|
| `InputStates.CreateInputState` | src/InputState.ts:9-17 | a new record has all five flags false |
| `Mouse.Ordinal` | src/Mouse.ts:4-8 | the enum's numeric values 0, 1 and 2; the lookup array holds each button at its own value |
| `Mouse.LookupButton` | src/Mouse.ts:4-10 | the lookup array maps index 0, 1 and 2 to the enum member with that value, and every other index to undefined |
| `Mouse.GuardedButton` | src/Mouse.ts:33-36 | after the `!button` guard, index 1 reaches Middle and index 2 reaches Right; Left is never reached; every other index, 0 included, is dropped |
| `Mouse.Latch` | src/Mouse.ts:63-68 | one button's update: pressed iff down now and not at the previous update; released iff up and not released at the previous update; afterwards the "previous" flags equal the current ones and `isDown` is unchanged; pressed implies down; never both pressed and released; the flags are left consistent |
| `Mouse.Updates` | src/Mouse.ts:62-68 | repeated updates without events never change `isDown`, and after at least one update the previous-down flag equals `isDown` and the flags are consistent |
| `Mouse.PressNotRepeated` | src/Mouse.ts:64-66 | with no events, no press is reported from the second update on |
| `Mouse.ReleaseAlternatesWhileUp` | src/Mouse.ts:65-67 | while a button stays up, the release flag after n updates is true exactly when n is odd, for a start with `isReleasedPrev` false; the other way round otherwise |
| `Mouse.ReleaseNeverTwiceInARow` | src/Mouse.ts:65-67 | whatever events come between two updates, a release is not reported on both |
| `Mouse.Run` | src/Mouse.ts:62-68 | from a fresh record with one update per frame, `isDown` is the last frame's level, and the previous-down and previous-release flags match the current ones |
| `Mouse.PressedIsRisingEdge` | src/Mouse.ts:64-66 | from a fresh record, a press is reported exactly on the update where the button is down and was up at the previous update, or at the first update |
| `Mouse.ReleasedOnOddUpRun` | src/Mouse.ts:65-67 | from a fresh record, a release is reported exactly when the button has been up for an odd number of consecutive updates |
| `Mouse.FirstUpdateOfFreshRecord` | src/InputState.ts:10-16 | a fresh record whose button is down at the first update reports a press; with no events, the first update reports a release |
| `Mouse.Initial` | src/Mouse.ts:13-24 | the constructed state is well formed and holds a fresh record for each of the three buttons |
| `Mouse.SetButton` | src/Mouse.ts:32-59 | the down/up listener changes only the button records, never adds or removes one, never touches a pressed, released or previous flag, and keeps the tracker well formed |
| `Mouse.AfterEvent` | src/Mouse.ts:26-59 | a raw event keeps the tracker well formed, never touches the wheel snapshots and never adds or removes a button |
| `Mouse.LatchAll` | src/Mouse.ts:63-68 | update latches every button in the map and no other |
| `Mouse.LatchEach` | src/Mouse.ts:63-68 | the loop over the buttons, in the order the map holds them, latches exactly the records present, the same as `LatchAll` |
| `Mouse.AfterUpdate` | src/Mouse.ts:62-73 | update keeps the tracker well formed |
| `Mouse.Deliver` | src/Mouse.ts:26-59 | any sequence of raw events keeps the tracker well formed |
| `Mouse.MoveOverwritesPosition` | src/Mouse.ts:26-30 | a move sets the position to the given local coordinates, unclamped, and changes nothing else |
| `Mouse.WheelAccumulates` | src/Mouse.ts:44-47 | after any events, each accumulator is its old value plus the sum of the wheel deltas |
| `Mouse.WheelDeltaPerFrame` | src/Mouse.ts:69-72 | after an update, each snapshot is the sum of the wheel deltas since the previous update and each accumulator is zero; a frame without wheel events reads zero |
| `Mouse.WheelExample` | src/Mouse.ts:44-72 | three wheel events of 1, 2 and 3 read 6 after the update and 0 after the next |
| `Mouse.ButtonEvent` | src/Mouse.ts:32-59 | a down or up event with index 1 or 2 sets that button's `isDown` to true or false and changes nothing else; any other index changes nothing |
| `Mouse.EventsKeepEdges` | src/Mouse.ts:32-59 | raw events never change a button's pressed, released or previous flags |
| `Mouse.LeftNeverDown` | src/Mouse.ts:32-42 | over any number of frames of any events, the Left button is never down or pressed |
| `Mouse.FramesSnoc` | src/Mouse.ts:26-73 | running a list of frames is running the last frame, its events and then an update, after the others |
| `Mouse.FramesFollowRun` | src/Mouse.ts:32-68 | after any frames of any events from the constructed tracker, each button's record is the one-button run over that button's level at each update, where the level is whether it is down once that frame's events have arrived |
| `Mouse.TrackerEdges` | src/Mouse.ts:62-68 | in the tracker itself, a button reports a press exactly when it is down at this update and was up at the previous one, or this is the first update; it reports a release exactly when it has been up for an odd number of updates in a row |
| `Mouse.ToWorld` | src/Mouse.ts:97-103 | the conversion's own formula solved for the canvas-local coordinate: the world coordinate minus the origin, times the scale, is the local one |
| `Camera.BeginShiftDraws` | src/Camera.ts:20-21 | under `begin`'s translation by minus the position followed by its scaling, a point is drawn at its coordinate times the scale, minus the position, on each axis |
| `Mouse.ToWorldInvertsBeginOnlyWhen` | src/Mouse.ts:97-103 | the world point `getWorldX`/`getWorldY` compute is drawn by `begin`'s translation and scaling back at the pointer exactly when the scale on that axis is 1 or the camera's coordinate on it is 0 |
| `Camera.BeginInverse` | src/Camera.ts:20-21 | the point that `begin`'s translation and scaling do draw at a given canvas-local coordinate, on either axis |
| `Mouse.WorldExample` | src/Mouse.ts:97-103 | camera at (10, 20), logical size 400 x 300 on an 800 x 600 canvas: the point (100, 100) maps to (210, 220) |
| `Mouse.WorldExampleNotRedrawn` | src/Mouse.ts:97-103 | in the same setting, `begin` draws world (210, 220) at (95, 90), and the point it draws at (100, 100) is (220, 240) |
| `Mouse.Mouse.constructor` | src/Mouse.ts:21-24 | the tracker starts at zero with a fresh record per button |
| `Mouse.Mouse.OnMouseMove` | src/Mouse.ts:26-30 | the move handler changes the fields as `AfterEvent` says |
| `Mouse.Mouse.OnMouseDown` | src/Mouse.ts:32-42 | the down handler changes the fields as `AfterEvent` says |
| `Mouse.Mouse.OnWheel` | src/Mouse.ts:44-47 | the wheel handler changes the fields as `AfterEvent` says |
| `Mouse.Mouse.OnMouseUp` | src/Mouse.ts:49-59 | the up handler changes the fields as `AfterEvent` says |
| `Mouse.Mouse.Update` | src/Mouse.ts:62-73 | the loop over the buttons latches each record, then the wheel is snapshotted and cleared, as `AfterUpdate` says |
| `Mouse.Mouse.IsPressed` | src/Mouse.ts:75-78 | Left is never reported pressed |
| `Mouse.Mouse.IsDown` | src/Mouse.ts:80-83 | Left is never reported down |
| `Mouse.Mouse.IsReleased` | src/Mouse.ts:84-87 | a button reported released is not reported pressed |
| `Mouse.Mouse.WheelDeltaX` | src/Mouse.ts:89-91 | the horizontal wheel snapshot of the tracker state; after an update it is that frame's wheel sum (`WheelDeltaPerFrame`) |
| `Mouse.Mouse.WheelDeltaY` | src/Mouse.ts:93-95 | the vertical wheel snapshot of the tracker state; after an update it is that frame's wheel sum (`WheelDeltaPerFrame`) |
| `Mouse.Mouse.X` | src/Mouse.ts:105-107 | the pointer's x in the tracker state, as the last move set it (`MoveOverwritesPosition`) |
| `Mouse.Mouse.Y` | src/Mouse.ts:109-111 | the pointer's y in the tracker state, as the last move set it (`MoveOverwritesPosition`) |
| `Mouse.Mouse.GetWorldX` | src/Mouse.ts:97-99 | the result minus the camera's x, times the scale read, is the pointer's x; `begin` draws the result back at the pointer's x exactly when that scale is 1 or the camera's x is 0 |
| `Mouse.Mouse.GetWorldY` | src/Mouse.ts:101-103 | the result minus the camera's y, times the scale read, is the pointer's y; `begin` draws the result back at the pointer's y exactly when that scale is 1 or the camera's y is 0 |
| `Camera.ScaleOf` | src/Camera.ts:48-50 | the scale read, times the canvas size, is the logical size |
| `Camera.SetThenGetIsReciprocal` | src/Camera.ts:44-50 | at a fixed canvas size, the getter applied to what the setter stores gives the reciprocal of the value set |
| `Camera.RoundTripOnlyForUnitScale` | src/Camera.ts:44-50 | setting a scale and reading it back gives the same value exactly when the value is 1 or -1 |
| `Camera.Camera.constructor` | src/Camera.ts:2-16 | a logical size that is omitted defaults to the canvas size; position, anchor and angle start at 0 |
| `Camera.Camera.GetCanvasSize` | src/Camera.ts:60-66 | the canvas's size at the time of the call |
| `Camera.Camera.Ctx` | src/Camera.ts:33-37 | the canvas's 2D context, or the "2D context not available" error when it has none |
| `Camera.Camera.ScaleX` | src/Camera.ts:48-50 | the scale read, times the live canvas width, is the logical width |
| `Camera.Camera.ScaleY` | src/Camera.ts:56-58 | the scale read, times the live canvas height, is the logical height |
| `Camera.Camera.SetScaleX` | src/Camera.ts:44-46 | only the logical width changes, to the width that times the value gives the canvas width; a read right after gives the reciprocal |
| `Camera.Camera.SetScaleY` | src/Camera.ts:52-54 | only the logical height changes, to the height that times the value gives the canvas height; a read right after gives the reciprocal |
| `Camera.Camera.SetScale` | src/Camera.ts:39-42 | sets both logical sizes, exactly as the x setter then the y setter do |
| `Camera.Camera.BeginCalls` | src/Camera.ts:18-27 | the calls `begin` makes are five: a save first, then only transforms (a translation by minus the position, a scaling by the scale read, a translation by minus the anchor times the logical size, a rotation by the angle in radians) |
| `Camera.Camera.BeginCallsShift` | src/Camera.ts:19-21 | after the save, `begin`'s translation and scaling turn the identity into `BeginShift` of the camera's position and scales, the transform the world-coordinate lemmas reason about |
| `Camera.Camera.Begin` | src/Camera.ts:18-27 | without a context, fails and changes nothing; otherwise appends exactly the calls of `BeginCalls` to the context's log, applies them to its transform stack, and changes no camera field |
| `Camera.Camera.End` | src/Camera.ts:29-31 | without a context, fails and changes nothing; otherwise logs one restore and applies it to the transform stack |
| `Camera.Camera.BeginThenEndRestores` | src/Camera.ts:18-31 | the calls of `begin` make the saved stack one deeper, and the restore of `end` after them gives back the saved stack and current transform from before `begin` |
| `Canvas2D.BracketRestores` | src/Camera.ts:18-31 | after a save followed only by transform calls, as `begin` makes, the stack is one deeper; after the restore of `end`, the stack and the current transform are what they were before the save |
| `Canvas2D.BracketsRestore` | src/Camera.ts:18-31 | any sequence of begin/end pairs, each a save, transform calls only, and a restore, leaves the transform stack as it was |

## Left out

- Event subscription is not modelled. The `addEventListener` calls, the canvas the
  `Mouse` constructor takes, and the `clientX - rect.left` subtraction are left out. The
  handlers are methods that receive canvas-local coordinates, a button index or wheel
  deltas.
- `src/Loop.ts` is not part of this model. It is host frame scheduling over
  floating-point time and has no logic of its own.
- Transform geometry is not modelled. The context keeps transforms as symbolic call
  sequences, so the model states the order and bracketing of the calls but not their
  matrices. A rotation angle is a multiple of pi: `angleDegrees / 180`, which stands for
  `angleDegrees * Math.PI / 180`.
- Camera.Camera.Ctx: the source calls `getContext('2d')` on every access. The model
  assumes that call always returns the same context object, or always none.
- Camera.Camera.Begin: the source looks the context up once per call, five times. With
  a single context object, one lookup is equivalent.
- Floating point is not modelled. Numbers are `real`, so there is no rounding.
- Camera.Camera.ScaleX: requires a nonzero canvas width. The source divides anyway and
  yields Infinity or NaN. The same holds for `Camera.Camera.ScaleY` and the height.
- Camera.Camera.SetScaleX: requires a nonzero value. The source stores Infinity or NaN
  for 0. The same holds for `Camera.Camera.SetScaleY` and `Camera.Camera.SetScale`.
- Camera.Camera.Begin: requires a nonzero canvas size when the context exists, because
  it reads both scales.
- Mouse.Mouse.GetWorldX: requires a nonzero canvas width and logical width, so that the
  scale it divides by is nonzero. The same holds for `Mouse.Mouse.GetWorldY` and the
  heights.
- `getWorldX`/`getWorldY` are related to `begin()` only through its translation and
  scaling. Even there they are not its inverse, except at scale 1 or position 0.
  The anchor shift and the rotation are not modelled geometrically, since
  `DeviceCoord` has no meaning for a rotation.
- The `if (!state)` guard in the down/up handlers is modelled but never taken: the map
  always holds all three buttons.
- Each button record is a value rather than a shared object. The fresh records therefore
  cannot alias. That updating one leaves the others unchanged is stated by `ButtonEvent`
  and `LatchAll`.
