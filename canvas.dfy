/**
 * The drawing surface and its 2D context, as far as the camera uses them: a live
 * bounding size, a context that may be missing, and the context's transform stack.
 * Transforms are kept symbolic; only the effect of translations and scalings on a point
 * is given a meaning, by `DeviceCoord`.
 */
module Canvas2D {

  /** One transform call; a rotation angle is written as a multiple of pi. */
  datatype TransformOp =
    | Translation(dx: real, dy: real)
    | Scaling(sx: real, sy: real)
    | Rotation(piRadians: real)

  /** One call on the context: save, restore, or a transform. */
  datatype CtxOp = Saved | Restored | Transformed(op: TransformOp)

  /** The current transform, as the identity followed by the transform calls applied to it. */
  datatype Matrix = Identity | Then(before: Matrix, op: TransformOp)

  /** A transform built from translations and scalings only, so each axis maps on its own. */
  predicate Axial(m: Matrix) {
    match m
    case Identity => true
    case Then(before, op) => !op.Rotation? && Axial(before)
  }

  datatype Axis = Horizontal | Vertical

  /** The x or the y of a pair, as `axis` says. */
  function Along(axis: Axis, x: real, y: real): real {
    if axis == Horizontal then x else y
  }

  /** Where one translation or scaling moves a coordinate along `axis`. */
  function Step(op: TransformOp, axis: Axis, p: real): real
    requires !op.Rotation?
  {
    match op
    case Translation(dx, dy) => p + Along(axis, dx, dy)
    case Scaling(sx, sy) => p * Along(axis, sx, sy)
  }

  /**
   * The device coordinate, along `axis`, at which a point whose user-space coordinate
   * along that axis is `p` is drawn. As on a canvas, the transform of the latest call
   * acts on the point first, then the transform built before it.
   */
  function DeviceCoord(m: Matrix, axis: Axis, p: real): real
    requires Axial(m)
  {
    match m
    case Identity => p
    case Then(before, op) => DeviceCoord(before, axis, Step(op, axis, p))
  }

  /** One more translation or scaling acts on the point before the transform it follows. */
  lemma DeviceCoordThen(m: Matrix, op: TransformOp, axis: Axis, p: real)
    requires Axial(m) && !op.Rotation?
    ensures Axial(Then(m, op))
    ensures DeviceCoord(Then(m, op), axis, p) == DeviceCoord(m, axis, Step(op, axis, p))
  {
  }

  /** The context's saved transforms (top of the stack last) and its current transform. */
  datatype TransformStack = TransformStack(saved: seq<Matrix>, current: Matrix)

  /** The effect of one call; a restore with nothing saved does nothing, as on a canvas. */
  function Apply(ts: TransformStack, op: CtxOp): TransformStack {
    match op
    case Saved => TransformStack(ts.saved + [ts.current], ts.current)
    case Restored =>
      if ts.saved == [] then ts
      else TransformStack(ts.saved[..|ts.saved| - 1], ts.saved[|ts.saved| - 1])
    case Transformed(t) => ts.(current := Then(ts.current, t))
  }

  /** The effect of a sequence of calls, first to last. */
  function ApplyAll(ts: TransformStack, ops: seq<CtxOp>): TransformStack
    decreases |ops|
  {
    if ops == [] then ts else ApplyAll(Apply(ts, ops[0]), ops[1..])
  }

  /** Calls that are all transforms: no save, no restore. */
  predicate OnlyTransforms(ops: seq<CtxOp>) {
    forall i :: 0 <= i < |ops| ==> ops[i].Transformed?
  }

  lemma {:induction false} ApplyAllAppend(ts: TransformStack, a: seq<CtxOp>, b: seq<CtxOp>)
    ensures ApplyAll(ts, a + b) == ApplyAll(ApplyAll(ts, a), b)
    decreases |a|
  {
    if a == [] {
      assert a + b == b;
    } else {
      assert (a + b)[1..] == a[1..] + b;
      ApplyAllAppend(Apply(ts, a[0]), a[1..], b);
    }
  }

  /** Transform calls change the current transform only, never the saved stack. */
  lemma {:induction false} TransformsKeepSaved(ts: TransformStack, ops: seq<CtxOp>)
    requires OnlyTransforms(ops)
    ensures ApplyAll(ts, ops).saved == ts.saved
    decreases |ops|
  {
    if ops != [] {
      TransformsKeepSaved(Apply(ts, ops[0]), ops[1..]);
    }
  }

  /**
   * A save, any transform calls, then a restore: the depth is one more inside the
   * bracket, and afterwards the stack and the current transform are as before.
   */
  lemma BracketRestores(ts: TransformStack, ops: seq<CtxOp>)
    requires OnlyTransforms(ops)
    ensures |ApplyAll(ts, [Saved] + ops).saved| == |ts.saved| + 1
    ensures Apply(ApplyAll(ts, [Saved] + ops), Restored) == ts
    ensures ApplyAll(ts, [Saved] + ops + [Restored]) == ts
  {
    var inside := Apply(ts, Saved);
    ApplyAllAppend(ts, [Saved], ops);
    TransformsKeepSaved(inside, ops);
    ApplyAllAppend(ts, [Saved] + ops, [Restored]);
  }

  /** Each frame's begin/end pair: a save, that frame's transforms, a restore. */
  function Brackets(frames: seq<seq<CtxOp>>): seq<CtxOp>
    decreases |frames|
  {
    if frames == [] then [] else [Saved] + frames[0] + [Restored] + Brackets(frames[1..])
  }

  /** Any number of consecutive brackets leave the transform stack as it was. */
  lemma {:induction false} BracketsRestore(ts: TransformStack, frames: seq<seq<CtxOp>>)
    requires forall k :: 0 <= k < |frames| ==> OnlyTransforms(frames[k])
    ensures ApplyAll(ts, Brackets(frames)) == ts
    decreases |frames|
  {
    if frames != [] {
      var first := [Saved] + frames[0] + [Restored];
      ApplyAllAppend(ts, first, Brackets(frames[1..]));
      BracketRestores(ts, frames[0]);
      BracketsRestore(ts, frames[1..]);
    }
  }

  /** The 2D context: its transform stack and the log of every call made on it. */
  class Context {
    var state: TransformStack
    var log: seq<CtxOp>

    constructor ()
      ensures state == TransformStack([], Identity) && log == []
    {
      state := TransformStack([], Identity);
      log := [];
    }

    method Perform(op: CtxOp)
      modifies this
      ensures state == Apply(old(state), op)
      ensures log == old(log) + [op]
    {
      state := Apply(state, op);
      log := log + [op];
    }

    method Save()
      modifies this
      ensures state == Apply(old(state), Saved) && log == old(log) + [Saved]
    {
      Perform(Saved);
    }

    method Restore()
      modifies this
      ensures state == Apply(old(state), Restored) && log == old(log) + [Restored]
    {
      Perform(Restored);
    }

    method Translate(dx: real, dy: real)
      modifies this
      ensures state == Apply(old(state), Transformed(Translation(dx, dy)))
      ensures log == old(log) + [Transformed(Translation(dx, dy))]
    {
      Perform(Transformed(Translation(dx, dy)));
    }

    method Scale(sx: real, sy: real)
      modifies this
      ensures state == Apply(old(state), Transformed(Scaling(sx, sy)))
      ensures log == old(log) + [Transformed(Scaling(sx, sy))]
    {
      Perform(Transformed(Scaling(sx, sy)));
    }

    method Rotate(piRadians: real)
      modifies this
      ensures state == Apply(old(state), Transformed(Rotation(piRadians)))
      ensures log == old(log) + [Transformed(Rotation(piRadians))]
    {
      Perform(Transformed(Rotation(piRadians)));
    }
  }

  /**
   * The canvas element: its live bounding size, which the environment may change
   * between any two calls, and its 2D context, or null when it has none.
   */
  class Canvas {
    var width: real
    var height: real
    const context: Context?

    constructor (width: real, height: real, context: Context?)
      ensures this.width == width && this.height == height && this.context == context
    {
      this.width := width;
      this.height := height;
      this.context := context;
    }
  }
}
