/**
 * The pointer-input tracker of src/Mouse.ts. Raw events (move, down, up, wheel) change
 * the live state at any time; once per frame `update` latches the press and release
 * edges of every button and snapshots the wheel accumulators.
 *
 * `MouseState` and the functions over it give the meaning of each operation; the class
 * `Mouse` holds the same data in fields and is proved to follow those functions.
 */
module Mouse {
  import opened Wrappers
  import opened InputStates
  import Camera
  import opened Canvas2D

  datatype MouseButton = Left | Middle | Right

  /** The numeric value of each member of the button enum. */
  function Ordinal(button: MouseButton): (n: nat)
    ensures n < |MOUSE_BUTTON_MAP| && MOUSE_BUTTON_MAP[n] == button
  {
    match button
    case Left => 0
    case Middle => 1
    case Right => 2
  }

  /** The array that raw button numbers index; also the order the buttons were added to the map. */
  const MOUSE_BUTTON_MAP: seq<MouseButton> := [Left, Middle, Right]

  /** `MouseButtonMap[index]`: a button for 0, 1 and 2, undefined for every other index. */
  function LookupButton(index: int): (r: Option<MouseButton>)
    ensures r.Some? <==> 0 <= index < 3
    ensures r.Some? ==> Ordinal(r.value) == index
  {
    if 0 <= index < |MOUSE_BUTTON_MAP| then Some(MOUSE_BUTTON_MAP[index]) else None
  }

  /** JavaScript truthiness of a lookup result: undefined and the enum value 0 are falsy. */
  predicate Truthy(button: Option<MouseButton>) {
    button.Some? && Ordinal(button.value) != 0
  }

  /**
   * The button a raw down/up event reaches past the `!button` guard. Left's value is 0,
   * which is falsy, so index 0 is dropped along with every unmapped index.
   */
  function GuardedButton(index: int): (r: Option<MouseButton>)
    ensures r == Some(Middle) <==> index == 1
    ensures r == Some(Right) <==> index == 2
    ensures r != Some(Left)
    ensures r.None? <==> index != 1 && index != 2
  {
    var button := LookupButton(index);
    if Truthy(button) then button else None
  }

  // ---------------------------------------------------------------------------
  // One button

  /**
   * The flags an update maintains between updates and that raw events, which write
   * only `isDown`, cannot disturb.
   */
  predicate Consistent(s: InputState) {
    && s.isReleasedPrev == s.isReleased
    && (s.isPressed ==> s.isDownPrev)
    && (s.isReleased ==> !s.isDownPrev)
  }

  /**
   * One button's share of `update`. Both edges are computed from the flags the
   * previous update left, and only then are the "previous" flags overwritten.
   */
  function Latch(s: InputState): (t: InputState)
    ensures t.isPressed <==> s.isDown && !s.isDownPrev
    ensures t.isReleased <==> !s.isDown && !s.isReleasedPrev
    ensures t.isDown == s.isDown && t.isDownPrev == s.isDown
    ensures t.isReleasedPrev == t.isReleased
    ensures t.isPressed ==> t.isDown
    ensures !(t.isPressed && t.isReleased)
    ensures Consistent(t)
  {
    var pressed := !s.isDownPrev && s.isDown;
    var released := !s.isDown && !s.isReleasedPrev;
    s.(isPressed := pressed, isReleased := released,
       isDownPrev := s.isDown, isReleasedPrev := released)
  }

  /** `n` updates with no raw event in between. */
  function Updates(s: InputState, n: nat): (t: InputState)
    ensures t.isDown == s.isDown
    ensures n >= 1 ==> t.isDownPrev == t.isDown && Consistent(t)
  {
    if n == 0 then s else Latch(Updates(s, n - 1))
  }

  /** Without raw events a press is reported on one update at most: never from the second on. */
  lemma PressNotRepeated(s: InputState, n: nat)
    requires n >= 2
    ensures !Updates(s, n).isPressed
  {
  }

  /** While a button stays up, the release flag alternates from one update to the next. */
  lemma {:induction false} ReleaseAlternatesWhileUp(s: InputState, n: nat)
    requires !s.isDown && n >= 1
    ensures Updates(s, n).isReleased <==> (s.isReleasedPrev <==> n % 2 == 0)
  {
    if n > 1 {
      ReleaseAlternatesWhileUp(s, n - 1);
    }
  }

  /** A release is never reported on two updates in a row, whatever happens in between. */
  lemma ReleaseNeverTwiceInARow(s: InputState, down: bool)
    ensures !(Latch(s).isReleased && Latch(Latch(s).(isDown := down)).isReleased)
  {
  }

  /**
   * The record of one button after one update per frame, starting from a fresh record;
   * `levels[k]` is whether the button is down when the k-th update runs. Raw events only
   * write `isDown`, so several in one frame collapse into that one level; `FramesFollowRun`
   * proves that the tracker's records are these runs.
   */
  function Run(levels: seq<bool>): (s: InputState)
    ensures s.isDown == (levels != [] && levels[|levels| - 1])
    ensures s.isDownPrev == s.isDown
    ensures s.isReleasedPrev == s.isReleased
  {
    if levels == [] then CreateInputState()
    else Latch(Run(levels[..|levels| - 1]).(isDown := levels[|levels| - 1]))
  }

  /** The number of frames, counted back from the last, during which the button was up. */
  function TrailingUps(levels: seq<bool>): nat {
    if levels == [] || levels[|levels| - 1] then 0 else 1 + TrailingUps(levels[..|levels| - 1])
  }

  /** A press is reported exactly on the first update at which the button is down. */
  lemma PressedIsRisingEdge(levels: seq<bool>)
    requires levels != []
    ensures Run(levels).isPressed
        <==> levels[|levels| - 1] && (|levels| == 1 || !levels[|levels| - 2])
  {
    var prefix := levels[..|levels| - 1];
    assert prefix != [] ==> prefix[|prefix| - 1] == levels[|levels| - 2];
  }

  /**
   * A release is reported exactly when the button has been up for an odd number of
   * updates in a row: on the first, third, fifth... update after it went up, and also
   * from the very first update for a button never pressed.
   */
  lemma {:induction false} ReleasedOnOddUpRun(levels: seq<bool>)
    ensures Run(levels).isReleased <==> TrailingUps(levels) % 2 == 1
  {
    if levels != [] {
      ReleasedOnOddUpRun(levels[..|levels| - 1]);
    }
  }

  /**
   * A fresh record has `isDownPrev` false, so a button already down at the first update
   * reports a press; it has `isDown` and `isReleasedPrev` false, so the first update
   * without events reports a release.
   */
  lemma FirstUpdateOfFreshRecord()
    ensures Latch(CreateInputState().(isDown := true)).isPressed
    ensures Latch(CreateInputState()).isReleased
  {
  }

  // ---------------------------------------------------------------------------
  // The whole tracker

  /** The tracker's data: pointer position, wheel accumulators and snapshots, button records. */
  datatype MouseState = MouseState(
    x: real, y: real,
    wheelDeltaAccX: real, wheelDeltaAccY: real,
    lastWheelDeltaX: real, lastWheelDeltaY: real,
    inputStates: map<MouseButton, InputState>)

  /** A raw event, with the pointer position already made local to the canvas. */
  datatype MouseEvent =
    | MouseMove(localX: real, localY: real)
    | MouseDown(button: int)
    | MouseUp(button: int)
    | Wheel(deltaX: real, deltaY: real)

  /**
   * The tracker's invariant: one record per button, each consistent, and Left's record
   * never down, never pressed, because no raw event reaches it.
   */
  predicate WellFormed(m: MouseState) {
    && m.inputStates.Keys == {Left, Middle, Right}
    && (forall b :: b in m.inputStates ==> Consistent(m.inputStates[b]))
    && !m.inputStates[Left].isDown
    && !m.inputStates[Left].isDownPrev
    && !m.inputStates[Left].isPressed
  }

  /** The state the constructor builds: zeros, and a fresh record for each button. */
  function Initial(): (m: MouseState)
    ensures WellFormed(m)
    ensures forall b :: b in m.inputStates ==> m.inputStates[b] == CreateInputState()
  {
    MouseState(0.0, 0.0, 0.0, 0.0, 0.0, 0.0,
      map[Left := CreateInputState(), Middle := CreateInputState(), Right := CreateInputState()])
  }

  /** The four flags that only an update writes are equal in the two records. */
  predicate SameEdges(s: InputState, t: InputState) {
    && s.isPressed == t.isPressed && s.isDownPrev == t.isDownPrev
    && s.isReleased == t.isReleased && s.isReleasedPrev == t.isReleasedPrev
  }

  /** The mousedown/mouseup listener: two guards, then `state.isDown := down`. */
  function SetButton(m: MouseState, index: int, down: bool): (r: MouseState)
    ensures r.(inputStates := m.inputStates) == m
    ensures r.inputStates.Keys == m.inputStates.Keys
    ensures forall b :: b in m.inputStates ==> SameEdges(r.inputStates[b], m.inputStates[b])
    ensures WellFormed(m) ==> WellFormed(r)
  {
    var button := GuardedButton(index);
    if button.None? then m
    else if button.value !in m.inputStates then m
    else m.(inputStates := m.inputStates[button.value := m.inputStates[button.value].(isDown := down)])
  }

  /** The effect of one raw event. */
  function AfterEvent(m: MouseState, e: MouseEvent): (r: MouseState)
    ensures WellFormed(m) ==> WellFormed(r)
    ensures r.lastWheelDeltaX == m.lastWheelDeltaX && r.lastWheelDeltaY == m.lastWheelDeltaY
    ensures r.inputStates.Keys == m.inputStates.Keys
    ensures forall b :: b in m.inputStates ==> SameEdges(r.inputStates[b], m.inputStates[b])
  {
    match e
    case MouseMove(localX, localY) => m.(x := localX, y := localY)
    case MouseDown(index) => SetButton(m, index, true)
    case MouseUp(index) => SetButton(m, index, false)
    case Wheel(dx, dy) =>
      m.(wheelDeltaAccX := m.wheelDeltaAccX + dx, wheelDeltaAccY := m.wheelDeltaAccY + dy)
  }

  /** `update` applied to every button record. */
  function LatchAll(states: map<MouseButton, InputState>): (r: map<MouseButton, InputState>)
    ensures r.Keys == states.Keys
    ensures forall b :: b in r ==> r[b] == Latch(states[b])
  {
    map b | b in states :: Latch(states[b])
  }

  /** The effect of `update`. */
  function AfterUpdate(m: MouseState): (r: MouseState)
    ensures WellFormed(m) ==> WellFormed(r)
  {
    m.(inputStates := LatchAll(m.inputStates),
       lastWheelDeltaX := m.wheelDeltaAccX, lastWheelDeltaY := m.wheelDeltaAccY,
       wheelDeltaAccX := 0.0, wheelDeltaAccY := 0.0)
  }

  /** Raw events delivered in order, first to last. */
  function Deliver(m: MouseState, events: seq<MouseEvent>): (r: MouseState)
    ensures WellFormed(m) ==> WellFormed(r)
    decreases |events|
  {
    if events == [] then m else Deliver(AfterEvent(m, events[0]), events[1..])
  }

  function WheelX(e: MouseEvent): real {
    if e.Wheel? then e.deltaX else 0.0
  }

  function WheelY(e: MouseEvent): real {
    if e.Wheel? then e.deltaY else 0.0
  }

  /** The horizontal and vertical wheel deltas of a sequence of events, summed. */
  function SumX(events: seq<MouseEvent>): real
    decreases |events|
  {
    if events == [] then 0.0 else WheelX(events[0]) + SumX(events[1..])
  }

  function SumY(events: seq<MouseEvent>): real
    decreases |events|
  {
    if events == [] then 0.0 else WheelY(events[0]) + SumY(events[1..])
  }

  /** A move event overwrites the position, unclamped, and touches nothing else. */
  lemma MoveOverwritesPosition(m: MouseState, localX: real, localY: real)
    ensures AfterEvent(m, MouseMove(localX, localY)) == m.(x := localX, y := localY)
  {
  }

  /** Wheel events add to the accumulators: several in one frame are summed. */
  lemma {:induction false} WheelAccumulates(m: MouseState, events: seq<MouseEvent>)
    ensures Deliver(m, events).wheelDeltaAccX == m.wheelDeltaAccX + SumX(events)
    ensures Deliver(m, events).wheelDeltaAccY == m.wheelDeltaAccY + SumY(events)
    decreases |events|
  {
    if events != [] {
      WheelAccumulates(AfterEvent(m, events[0]), events[1..]);
    }
  }

  /**
   * After an update, the snapshots are the total wheel motion of the events since the
   * previous update and the accumulators are zero; a frame without wheel events reads 0.
   */
  lemma WheelDeltaPerFrame(m: MouseState, events: seq<MouseEvent>)
    ensures AfterUpdate(Deliver(AfterUpdate(m), events)).lastWheelDeltaX == SumX(events)
    ensures AfterUpdate(Deliver(AfterUpdate(m), events)).lastWheelDeltaY == SumY(events)
    ensures AfterUpdate(Deliver(AfterUpdate(m), events)).wheelDeltaAccX == 0.0
    ensures AfterUpdate(Deliver(AfterUpdate(m), events)).wheelDeltaAccY == 0.0
    ensures AfterUpdate(AfterUpdate(m)).lastWheelDeltaX == 0.0
    ensures AfterUpdate(AfterUpdate(m)).lastWheelDeltaY == 0.0
  {
    WheelAccumulates(AfterUpdate(m), events);
  }

  /** Three wheel events of 1, 2 and 3 read 6 after the update, and 0 after the next one. */
  lemma WheelExample(m: MouseState)
    ensures var frame := Deliver(AfterUpdate(m), [Wheel(1.0, 0.0), Wheel(2.0, 0.0), Wheel(3.0, 0.0)]);
      && AfterUpdate(frame).lastWheelDeltaX == 6.0
      && AfterUpdate(AfterUpdate(frame)).lastWheelDeltaX == 0.0
  {
    var events := [Wheel(1.0, 0.0), Wheel(2.0, 0.0), Wheel(3.0, 0.0)];
    WheelDeltaPerFrame(m, events);
    assert events[1..][1..][1..] == [];
  }

  /**
   * A down or up event with index 1 or 2 sets that button's `isDown` and changes nothing
   * else; any other index, 0 (Left) included, changes nothing at all.
   */
  lemma ButtonEvent(m: MouseState, index: int, down: bool)
    requires WellFormed(m)
    ensures index == 1 ==>
      SetButton(m, index, down)
        == m.(inputStates := m.inputStates[Middle := m.inputStates[Middle].(isDown := down)])
    ensures index == 2 ==>
      SetButton(m, index, down)
        == m.(inputStates := m.inputStates[Right := m.inputStates[Right].(isDown := down)])
    ensures index != 1 && index != 2 ==> SetButton(m, index, down) == m
  {
  }

  /** Raw events never change a latched flag: the edges change only at an update. */
  lemma {:induction false} EventsKeepEdges(m: MouseState, events: seq<MouseEvent>, b: MouseButton)
    requires b in m.inputStates
    ensures b in Deliver(m, events).inputStates
    ensures SameEdges(Deliver(m, events).inputStates[b], m.inputStates[b])
    decreases |events|
  {
    if events != [] {
      var next := AfterEvent(m, events[0]);
      EventsKeepEdges(next, events[1..], b);
      assert SameEdges(next.inputStates[b], m.inputStates[b]);
    }
  }

  /** One frame: the raw events that arrive, then one update. */
  function Frames(m: MouseState, frames: seq<seq<MouseEvent>>): (r: MouseState)
    ensures WellFormed(m) ==> WellFormed(r)
    decreases |frames|
  {
    if frames == [] then m else Frames(AfterUpdate(Deliver(m, frames[0])), frames[1..])
  }

  /** Whatever the events and however many frames, the Left button is never down or pressed. */
  lemma {:induction false} LeftNeverDown(m: MouseState, frames: seq<seq<MouseEvent>>)
    requires WellFormed(m)
    ensures WellFormed(Frames(m, frames))
    ensures !Frames(m, frames).inputStates[Left].isDown
    ensures !Frames(m, frames).inputStates[Left].isPressed
    decreases |frames|
  {
    if frames != [] {
      LeftNeverDown(AfterUpdate(Deliver(m, frames[0])), frames[1..]);
    }
  }

  /** The frames in two parts: running them all is running the last one after the others. */
  lemma {:induction false} FramesSnoc(m: MouseState, init: seq<seq<MouseEvent>>, last: seq<MouseEvent>)
    ensures Frames(m, init + [last]) == AfterUpdate(Deliver(Frames(m, init), last))
    decreases |init|
  {
    if init == [] {
      assert (init + [last])[1..] == [];
    } else {
      assert (init + [last])[1..] == init[1..] + [last];
      FramesSnoc(AfterUpdate(Deliver(m, init[0])), init[1..], last);
    }
  }

  /**
   * The level of button `b` at each update of a run of frames from the constructed
   * state: whether it is down once that frame's events have arrived.
   */
  function Levels(frames: seq<seq<MouseEvent>>, b: MouseButton): (levels: seq<bool>)
    ensures |levels| == |frames|
    decreases |frames|
  {
    if frames == [] then []
    else
      var before := Frames(Initial(), frames[..|frames| - 1]);
      assert WellFormed(Deliver(before, frames[|frames| - 1]));
      assert b.Left? || b.Middle? || b.Right?;
      Levels(frames[..|frames| - 1], b)
        + [Deliver(before, frames[|frames| - 1]).inputStates[b].isDown]
  }

  /**
   * Each button's record in the tracker, after any frames from the constructed state, is
   * the record `Run` gives for that button's levels: the per-button laws above are laws
   * of the tracker.
   */
  lemma {:induction false} FramesFollowRun(frames: seq<seq<MouseEvent>>, b: MouseButton)
    ensures Frames(Initial(), frames).inputStates[b] == Run(Levels(frames, b))
    decreases |frames|
  {
    if frames != [] {
      var init, last := frames[..|frames| - 1], frames[|frames| - 1];
      assert frames == init + [last];
      FramesFollowRun(init, b);
      var before := Frames(Initial(), init);
      var delivered := Deliver(before, last);
      FramesSnoc(Initial(), init, last);
      EventsKeepEdges(before, last, b);
      var levels := Levels(frames, b);
      assert levels[..|levels| - 1] == Levels(init, b);
      assert delivered.inputStates[b] == Run(Levels(init, b)).(isDown := levels[|levels| - 1]);
    }
  }

  /**
   * In the tracker, a button reports a press exactly when it is down at this update and
   * was up at the previous one, or this is the first update; it reports a release exactly
   * when it has been up for an odd number of updates in a row.
   */
  lemma TrackerEdges(frames: seq<seq<MouseEvent>>, b: MouseButton)
    requires frames != []
    ensures var levels := Levels(frames, b);
      (Frames(Initial(), frames).inputStates[b].isPressed
       <==> levels[|levels| - 1] && (|levels| == 1 || !levels[|levels| - 2]))
    ensures Frames(Initial(), frames).inputStates[b].isReleased
        <==> TrailingUps(Levels(frames, b)) % 2 == 1
  {
    FramesFollowRun(frames, b);
    PressedIsRisingEdge(Levels(frames, b));
    ReleasedOnOddUpRun(Levels(frames, b));
  }

  /**
   * The conversion of `getWorldX`/`getWorldY` on one axis: the camera's origin plus the
   * canvas-local coordinate divided by the scale.
   */
  function ToWorld(origin: real, scale: real, local: real): (world: real)
    requires scale != 0.0
    ensures (world - origin) * scale == local
  {
    origin + local / scale
  }

  /**
   * `ToWorld` undoes `begin`'s translation and scaling along an axis only when the scale
   * along it is 1 or the origin is 0: otherwise the world point it returns is drawn
   * elsewhere than at `local`.
   */
  lemma ToWorldInvertsBeginOnlyWhen(originX: real, originY: real, scaleX: real, scaleY: real, axis: Axis, local: real)
    requires Along(axis, scaleX, scaleY) != 0.0
    ensures var origin, scale := Along(axis, originX, originY), Along(axis, scaleX, scaleY);
      (DeviceCoord(Camera.BeginShift(originX, originY, scaleX, scaleY), axis, ToWorld(origin, scale, local)) == local
       <==> scale == 1.0 || origin == 0.0)
  {
    var origin, scale := Along(axis, originX, originY), Along(axis, scaleX, scaleY);
    var world := ToWorld(origin, scale, local);
    Camera.BeginShiftDraws(originX, originY, scaleX, scaleY, axis, world);
    assert world * scale == origin * scale + local;
    assert DeviceCoord(Camera.BeginShift(originX, originY, scaleX, scaleY), axis, world) - local
        == origin * (scale - 1.0);
    if origin != 0.0 && scale != 1.0 {
      assert origin * (scale - 1.0) != 0.0;
    }
  }

  /**
   * Camera at (10, 20), logical size 400 x 300 on an 800 x 600 canvas, so the scale read
   * is 0.5 on both axes: the point (100, 100) maps to (210, 220).
   */
  lemma WorldExample()
    ensures ToWorld(10.0, Camera.ScaleOf(400.0, 800.0), 100.0) == 210.0
    ensures ToWorld(20.0, Camera.ScaleOf(300.0, 600.0), 100.0) == 220.0
  {
  }

  /**
   * In the same setting, `begin` draws the world x 210 at 95, not at the pointer's 100;
   * the point it draws at 100 is 220.
   */
  lemma WorldExampleNotRedrawn()
    ensures DeviceCoord(Camera.BeginShift(10.0, 20.0, 0.5, 0.5), Horizontal, ToWorld(10.0, 0.5, 100.0)) == 95.0
    ensures DeviceCoord(Camera.BeginShift(10.0, 20.0, 0.5, 0.5), Vertical, ToWorld(20.0, 0.5, 100.0)) == 90.0
    ensures Camera.BeginInverse(10.0, 20.0, 0.5, 0.5, Horizontal, 100.0) == 220.0
    ensures Camera.BeginInverse(10.0, 20.0, 0.5, 0.5, Vertical, 100.0) == 240.0
  {
    Camera.BeginShiftDraws(10.0, 20.0, 0.5, 0.5, Horizontal, 210.0);
    Camera.BeginShiftDraws(10.0, 20.0, 0.5, 0.5, Vertical, 220.0);
  }

  /** The records after the `forEach` of `update` has visited the buttons below `i`. */
  function LatchedBelow(states: map<MouseButton, InputState>, i: nat): map<MouseButton, InputState> {
    map b | b in states :: if Ordinal(b) < i then Latch(states[b]) else states[b]
  }

  /** Visiting one more button latches that button's record, if present, and no other. */
  lemma LatchedBelowStep(states: map<MouseButton, InputState>, button: MouseButton)
    ensures LatchedBelow(states, Ordinal(button) + 1)
      == if button in states
         then LatchedBelow(states, Ordinal(button))[button := Latch(states[button])]
         else LatchedBelow(states, Ordinal(button))
  {
    var i := Ordinal(button);
    var next, prev := LatchedBelow(states, i + 1), LatchedBelow(states, i);
    forall b | b in states
      ensures next[b] == (if b == button then Latch(states[b]) else prev[b])
    {
      if b != button {
        assert Ordinal(b) < i + 1 <==> Ordinal(b) < i;
      }
    }
  }

  /**
   * The `forEach` of `update`: visits the buttons in the order they were added to the
   * map and latches each record present.
   */
  method LatchEach(states: map<MouseButton, InputState>) returns (r: map<MouseButton, InputState>)
    ensures r == LatchAll(states)
  {
    r := states;
    var i := 0;
    while i < |MOUSE_BUTTON_MAP|
      invariant 0 <= i <= |MOUSE_BUTTON_MAP|
      invariant r == LatchedBelow(states, i)
    {
      var button := MOUSE_BUTTON_MAP[i];
      assert Ordinal(button) == i;
      if button in r {
        r := r[button := Latch(r[button])];
      }
      LatchedBelowStep(states, button);
      i := i + 1;
    }
    assert LatchedBelow(states, i) == LatchAll(states);
  }

  // ---------------------------------------------------------------------------
  // The class

  class Mouse {
    var x: real
    var y: real
    var wheelDeltaAccX: real
    var wheelDeltaAccY: real
    var lastWheelDeltaX: real
    var lastWheelDeltaY: real
    var inputStates: map<MouseButton, InputState>

    /** The fields, as a value. */
    function State(): MouseState
      reads this
    {
      MouseState(x, y, wheelDeltaAccX, wheelDeltaAccY, lastWheelDeltaX, lastWheelDeltaY, inputStates)
    }

    predicate Valid()
      reads this
    {
      WellFormed(State())
    }

    /** One fresh record per button, added Left, Middle, Right. */
    constructor ()
      ensures Valid()
      ensures State() == Initial()
    {
      x, y := 0.0, 0.0;
      wheelDeltaAccX, wheelDeltaAccY := 0.0, 0.0;
      lastWheelDeltaX, lastWheelDeltaY := 0.0, 0.0;
      var states := map[];
      states := states[Left := CreateInputState()];
      states := states[Middle := CreateInputState()];
      states := states[Right := CreateInputState()];
      inputStates := states;
    }

    method OnMouseMove(localX: real, localY: real)
      requires Valid()
      modifies this
      ensures Valid()
      ensures State() == AfterEvent(old(State()), MouseMove(localX, localY))
    {
      x := localX;
      y := localY;
    }

    method OnMouseDown(index: int)
      requires Valid()
      modifies this
      ensures Valid()
      ensures State() == AfterEvent(old(State()), MouseDown(index))
    {
      var button := GuardedButton(index);
      if button.None? {
        return;
      }
      if button.value !in inputStates {
        return;
      }
      inputStates := inputStates[button.value := inputStates[button.value].(isDown := true)];
    }

    method OnWheel(deltaX: real, deltaY: real)
      requires Valid()
      modifies this
      ensures Valid()
      ensures State() == AfterEvent(old(State()), Wheel(deltaX, deltaY))
    {
      wheelDeltaAccX := wheelDeltaAccX + deltaX;
      wheelDeltaAccY := wheelDeltaAccY + deltaY;
    }

    method OnMouseUp(index: int)
      requires Valid()
      modifies this
      ensures Valid()
      ensures State() == AfterEvent(old(State()), MouseUp(index))
    {
      var button := GuardedButton(index);
      if button.None? {
        return;
      }
      if button.value !in inputStates {
        return;
      }
      inputStates := inputStates[button.value := inputStates[button.value].(isDown := false)];
    }

    /** Latches every button's edges, then snapshots and clears the wheel accumulators. */
    method Update()
      requires Valid()
      modifies this
      ensures Valid()
      ensures State() == AfterUpdate(old(State()))
    {
      inputStates := LatchEach(inputStates);
      lastWheelDeltaX := wheelDeltaAccX;
      lastWheelDeltaY := wheelDeltaAccY;
      wheelDeltaAccX := 0.0;
      wheelDeltaAccY := 0.0;
    }

    /** Left is never reported pressed. */
    function IsPressed(button: MouseButton): (r: bool)
      reads this
      requires Valid()
      ensures button == Left ==> !r
    {
      if button in inputStates then inputStates[button].isPressed else false
    }

    /** Left is never reported down. */
    function IsDown(button: MouseButton): (r: bool)
      reads this
      requires Valid()
      ensures button == Left ==> !r
    {
      if button in inputStates then inputStates[button].isDown else false
    }

    /** A button is never reported both pressed and released. */
    function IsReleased(button: MouseButton): (r: bool)
      reads this
      requires Valid()
      ensures r ==> !IsPressed(button)
    {
      if button in inputStates then inputStates[button].isReleased else false
    }

    /** The horizontal wheel total of the last frame, as `update` snapshotted it. */
    function WheelDeltaX(): (r: real)
      reads this
      ensures r == State().lastWheelDeltaX
    {
      lastWheelDeltaX
    }

    /** The vertical wheel total of the last frame, as `update` snapshotted it. */
    function WheelDeltaY(): (r: real)
      reads this
      ensures r == State().lastWheelDeltaY
    {
      lastWheelDeltaY
    }

    /** The pointer's canvas-local x, as the last move set it. */
    function X(): (r: real)
      reads this
      ensures r == State().x
    {
      x
    }

    /** The pointer's canvas-local y, as the last move set it. */
    function Y(): (r: real)
      reads this
      ensures r == State().y
    {
      y
    }

    /**
     * The pointer's x in world units: the camera's x plus the pointer's x over the scale.
     * `begin` draws that point back at the pointer only when the scale is 1 or the camera
     * is at x = 0; the y scale, which need not be defined, does not matter.
     */
    function GetWorldX(camera: Camera.Camera): (r: real)
      reads this, camera, camera.canvas
      requires camera.canvas.width != 0.0 && camera.width != 0.0
      ensures (r - camera.x) * camera.ScaleX() == x
      ensures forall scaleY ::
        (DeviceCoord(Camera.BeginShift(camera.x, camera.y, camera.ScaleX(), scaleY), Horizontal, r) == x
         <==> camera.ScaleX() == 1.0 || camera.x == 0.0)
    {
      var r := ToWorld(camera.x, camera.ScaleX(), x);
      assert forall scaleY ::
        (DeviceCoord(Camera.BeginShift(camera.x, camera.y, camera.ScaleX(), scaleY), Horizontal, r) == x
         <==> camera.ScaleX() == 1.0 || camera.x == 0.0) by {
        forall scaleY {
          ToWorldInvertsBeginOnlyWhen(camera.x, camera.y, camera.ScaleX(), scaleY, Horizontal, x);
        }
      }
      r
    }

    /**
     * The pointer's y in world units: the camera's y plus the pointer's y over the scale.
     * `begin` draws that point back at the pointer only when the scale is 1 or the camera
     * is at y = 0; the x scale, which need not be defined, does not matter.
     */
    function GetWorldY(camera: Camera.Camera): (r: real)
      reads this, camera, camera.canvas
      requires camera.canvas.height != 0.0 && camera.height != 0.0
      ensures (r - camera.y) * camera.ScaleY() == y
      ensures forall scaleX ::
        (DeviceCoord(Camera.BeginShift(camera.x, camera.y, scaleX, camera.ScaleY()), Vertical, r) == y
         <==> camera.ScaleY() == 1.0 || camera.y == 0.0)
    {
      var r := ToWorld(camera.y, camera.ScaleY(), y);
      assert forall scaleX ::
        (DeviceCoord(Camera.BeginShift(camera.x, camera.y, scaleX, camera.ScaleY()), Vertical, r) == y
         <==> camera.ScaleY() == 1.0 || camera.y == 0.0) by {
        forall scaleX {
          ToWorldInvertsBeginOnlyWhen(camera.x, camera.y, scaleX, camera.ScaleY(), Vertical, y);
        }
      }
      r
    }
  }
}
