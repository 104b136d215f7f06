/** The per-button record of src/InputState.ts. */
module InputStates {

  /** Five flags per button. Raw events change only `isDown`; the mouse's update latches the rest. */
  datatype InputState = InputState(
    isPressed: bool,
    isDown: bool,
    isDownPrev: bool,
    isReleased: bool,
    isReleasedPrev: bool)

  /** A fresh record: every flag false. Being a value, no two records ever alias. */
  function CreateInputState(): (s: InputState)
    ensures !s.isPressed && !s.isDown && !s.isDownPrev
    ensures !s.isReleased && !s.isReleasedPrev
  {
    InputState(false, false, false, false, false)
  }
}
