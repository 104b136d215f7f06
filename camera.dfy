/**
 * The camera of src/Camera.ts. It stores a position, a logical size, an anchor and an
 * angle; its scale is not stored but read off the logical size and the live canvas size.
 */
module Camera {
  import opened Wrappers
  import opened Canvas2D

  datatype CanvasSize = CanvasSize(width: real, height: real)

  /** The message of the error raised when the canvas yields no 2D context. */
  const NO_CONTEXT: string := "2D context not available"

  /** What the scale getters compute: logical size over canvas size. */
  function ScaleOf(logical: real, canvasSize: real): (scale: real)
    requires canvasSize != 0.0
    ensures scale * canvasSize == logical
  {
    logical / canvasSize
  }

  /**
   * Setter and getter are not inverse: the setter stores canvas size over the value,
   * and reading the scale back divides that by the canvas size, giving the reciprocal.
   */
  lemma SetThenGetIsReciprocal(canvasSize: real, value: real)
    requires canvasSize != 0.0 && value != 0.0
    ensures ScaleOf(canvasSize / value, canvasSize) == 1.0 / value
  {
  }

  /** Hence a scale survives the round trip exactly when it is 1 or -1. */
  lemma RoundTripOnlyForUnitScale(canvasSize: real, value: real)
    requires canvasSize != 0.0 && value != 0.0
    ensures ScaleOf(canvasSize / value, canvasSize) == value
        <==> value == 1.0 || value == -1.0
  {
    SetThenGetIsReciprocal(canvasSize, value);
    var back := 1.0 / value;
    assert back * value == 1.0;
    if back == value {
      assert value * value == 1.0;
      assert (value - 1.0) * (value + 1.0) == 0.0;
      assert value - 1.0 == 0.0 || value + 1.0 == 0.0;
    }
  }

  class Camera {
    var x: real
    var y: real
    var width: real
    var height: real
    var anchorRelX: real
    var anchorRelY: real
    var angleDegrees: real
    const canvas: Canvas

    /** Omitted logical sizes default to the canvas size at construction time. */
    constructor (canvas: Canvas, width: Option<real>, height: Option<real>)
      ensures this.canvas == canvas
      ensures this.width == width.GetOr(canvas.width)
      ensures this.height == height.GetOr(canvas.height)
      ensures x == 0.0 && y == 0.0
      ensures anchorRelX == 0.0 && anchorRelY == 0.0 && angleDegrees == 0.0
    {
      this.canvas := canvas;
      x, y := 0.0, 0.0;
      anchorRelX, anchorRelY, angleDegrees := 0.0, 0.0, 0.0;
      new;
      var canvasSize := GetCanvasSize();
      this.width := width.GetOr(canvasSize.width);
      this.height := height.GetOr(canvasSize.height);
    }

    /** The canvas's bounding size at the time of the call. */
    function GetCanvasSize(): (size: CanvasSize)
      reads this, canvas
      ensures size.width == canvas.width && size.height == canvas.height
    {
      CanvasSize(canvas.width, canvas.height)
    }

    /** The canvas's 2D context, or the error the getter throws when there is none. */
    function Ctx(): (r: Result<Context, string>)
      reads this
      ensures r.Success? <==> canvas.context != null
      ensures r.Success? ==> r.value == canvas.context
      ensures r.Failure? ==> r.error == NO_CONTEXT
    {
      if canvas.context == null then Failure(NO_CONTEXT) else Success(canvas.context)
    }

    function ScaleX(): (scale: real)
      reads this, canvas
      requires canvas.width != 0.0
      ensures scale * canvas.width == width
    {
      ScaleOf(width, GetCanvasSize().width)
    }

    function ScaleY(): (scale: real)
      reads this, canvas
      requires canvas.height != 0.0
      ensures scale * canvas.height == height
    {
      ScaleOf(height, GetCanvasSize().height)
    }

    /** Writes the logical width; a later read gives the reciprocal of `value`. */
    method SetScaleX(value: real)
      requires value != 0.0
      modifies this`width
      ensures width * value == canvas.width
      ensures canvas.width != 0.0 ==> ScaleX() == 1.0 / value
    {
      width := GetCanvasSize().width / value;
      if canvas.width != 0.0 {
        SetThenGetIsReciprocal(canvas.width, value);
      }
    }

    /** Writes the logical height; a later read gives the reciprocal of `value`. */
    method SetScaleY(value: real)
      requires value != 0.0
      modifies this`height
      ensures height * value == canvas.height
      ensures canvas.height != 0.0 ==> ScaleY() == 1.0 / value
    {
      height := GetCanvasSize().height / value;
      if canvas.height != 0.0 {
        SetThenGetIsReciprocal(canvas.height, value);
      }
    }

    /** The `scale` setter: the width setter, then the height setter. */
    method SetScale(value: real)
      requires value != 0.0
      modifies this`width, this`height
      ensures width * value == canvas.width
      ensures height * value == canvas.height
    {
      SetScaleX(value);
      SetScaleY(value);
    }

    /** The calls `begin` makes on the context: a save, then four transforms, in order. */
    function BeginCalls(): (ops: seq<CtxOp>)
      reads this, canvas
      requires canvas.width != 0.0 && canvas.height != 0.0
      ensures |ops| == 5 && ops[0] == Saved && OnlyTransforms(ops[1..])
    {
      [ Saved,
        Transformed(Translation(-x, -y)),
        Transformed(Scaling(ScaleX(), ScaleY())),
        Transformed(Translation(-anchorRelX * width, -anchorRelY * height)),
        Transformed(Rotation(angleDegrees / 180.0)) ]
    }

    /**
     * Saves the context's transform and applies the camera transform. Fails, changing
     * nothing, when the canvas has no 2D context. No camera field changes.
     */
    method Begin() returns (r: Outcome<string>)
      requires canvas.context != null ==> canvas.width != 0.0 && canvas.height != 0.0
      modifies canvas.context
      ensures canvas.context == null ==> r == Fail(NO_CONTEXT)
      ensures canvas.context != null ==> r == Pass
      ensures canvas.context != null ==>
        canvas.context.log == old(canvas.context.log) + BeginCalls()
      ensures canvas.context != null ==>
        canvas.context.state == ApplyAll(old(canvas.context.state), BeginCalls())
    {
      var c := Ctx();
      if c.Failure? {
        return Fail(c.error);
      }
      var ctx := c.value;
      ghost var before, log0 := ctx.state, ctx.log;
      ghost var calls := BeginCalls();
      var dx, dy := -x, -y;
      var sx, sy := ScaleX(), ScaleY();
      var ax, ay := -anchorRelX * width, -anchorRelY * height;
      var turn := angleDegrees / 180.0;
      assert calls == [Saved, Transformed(Translation(dx, dy)), Transformed(Scaling(sx, sy)),
                       Transformed(Translation(ax, ay)), Transformed(Rotation(turn))];
      ctx.Save();
      ctx.Translate(dx, dy);
      ctx.Scale(sx, sy);
      ctx.Translate(ax, ay);
      ctx.Rotate(turn);
      assert ctx.log == log0 + calls;
      ApplyAllSteps(before, calls);
      r := Pass;
    }

    /**
     * `Begin` followed by `End` leaves the context's saved stack and current transform
     * as they were before `Begin`, whatever the camera's fields.
     */
    lemma BeginThenEndRestores(ts: TransformStack)
      requires canvas.width != 0.0 && canvas.height != 0.0
      ensures |ApplyAll(ts, BeginCalls()).saved| == |ts.saved| + 1
      ensures Apply(ApplyAll(ts, BeginCalls()), Restored) == ts
    {
      var calls := BeginCalls();
      assert calls == [Saved] + calls[1..];
      BracketRestores(ts, calls[1..]);
    }

    /**
     * `begin`'s translation and scaling, applied after its save to a context at the
     * identity, give `BeginShift` of the camera's position and scales.
     */
    lemma BeginCallsShift(saved: seq<Matrix>)
      requires canvas.width != 0.0 && canvas.height != 0.0
      ensures ApplyAll(TransformStack(saved, Identity), BeginCalls()[..3]).current
           == BeginShift(x, y, ScaleX(), ScaleY())
    {
      var ops := BeginCalls()[..3];
      var s1 := Apply(TransformStack(saved, Identity), ops[0]);
      var s2 := Apply(s1, ops[1]);
      var s3 := Apply(s2, ops[2]);
      assert ApplyAll(s3, ops[3..]) == s3;
      assert ApplyAll(s2, ops[2..]) == ApplyAll(s3, ops[3..]);
      assert ApplyAll(s1, ops[1..]) == ApplyAll(s2, ops[2..]);
    }

    /** Restores the transform saved by `Begin`; fails when there is no 2D context. */
    method End() returns (r: Outcome<string>)
      modifies canvas.context
      ensures canvas.context == null ==> r == Fail(NO_CONTEXT)
      ensures canvas.context != null ==> r == Pass
      ensures canvas.context != null ==>
        canvas.context.state == Apply(old(canvas.context.state), Restored)
        && canvas.context.log == old(canvas.context.log) + [Restored]
    {
      var c := Ctx();
      if c.Failure? {
        return Fail(c.error);
      }
      c.value.Restore();
      r := Pass;
    }
  }

  /**
   * The transform of `begin`'s second and third calls, a translation by minus the origin
   * and then a scaling, applied to the identity.
   */
  function BeginShift(originX: real, originY: real, scaleX: real, scaleY: real): (m: Matrix)
    ensures Axial(m)
  {
    var shifted := Then(Identity, Translation(-originX, -originY));
    assert Axial(shifted);
    Then(shifted, Scaling(scaleX, scaleY))
  }

  /** Under `BeginShift`, a point is drawn at its coordinate times the scale, minus the origin. */
  lemma BeginShiftDraws(originX: real, originY: real, scaleX: real, scaleY: real, axis: Axis, p: real)
    ensures DeviceCoord(BeginShift(originX, originY, scaleX, scaleY), axis, p)
         == p * Along(axis, scaleX, scaleY) - Along(axis, originX, originY)
  {
    DeviceCoordThen(Identity, Translation(-originX, -originY), axis, p * Along(axis, scaleX, scaleY));
    DeviceCoordThen(Then(Identity, Translation(-originX, -originY)), Scaling(scaleX, scaleY), axis, p);
  }

  /** The point that does invert `begin`'s translation and scaling along an axis. */
  function BeginInverse(originX: real, originY: real, scaleX: real, scaleY: real, axis: Axis, local: real): (world: real)
    requires Along(axis, scaleX, scaleY) != 0.0
    ensures DeviceCoord(BeginShift(originX, originY, scaleX, scaleY), axis, world) == local
  {
    var world := (local + Along(axis, originX, originY)) / Along(axis, scaleX, scaleY);
    BeginShiftDraws(originX, originY, scaleX, scaleY, axis, world);
    world
  }

  /** ApplyAll on five calls, spelled out. */
  lemma ApplyAllSteps(ts: TransformStack, ops: seq<CtxOp>)
    requires |ops| == 5
    ensures ApplyAll(ts, ops)
      == Apply(Apply(Apply(Apply(Apply(ts, ops[0]), ops[1]), ops[2]), ops[3]), ops[4])
  {
    var s1 := Apply(ts, ops[0]);
    var s2 := Apply(s1, ops[1]);
    var s3 := Apply(s2, ops[2]);
    var s4 := Apply(s3, ops[3]);
    var s5 := Apply(s4, ops[4]);
    assert ApplyAll(s5, ops[5..]) == s5;
    assert ApplyAll(s4, ops[4..]) == ApplyAll(s5, ops[5..]);
    assert ApplyAll(s3, ops[3..]) == ApplyAll(s4, ops[4..]);
    assert ApplyAll(s2, ops[2..]) == ApplyAll(s3, ops[3..]);
    assert ApplyAll(s1, ops[1..]) == ApplyAll(s2, ops[2..]);
  }
}
