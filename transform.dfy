/**
 * Transform: position, rotation and scale, with the world matrix and its
 * inverse-transpose cached behind a dirty flag.
 *
 * `TransformState` is the value of all six fields; `Step` says what each
 * public operation does to it, and the class `Transform` performs the same
 * operations in place. Two operations of the source are defective, and each
 * is modelled twice: as written (`MoveRelativeAsWritten`,
 * `ScaleXYZAsWritten`) and as evidently intended (`MoveRelative`, the
 * three-float `Scale`); the rest of the model uses the intended ones.
 */
module Transforms {
  import opened Maths

  datatype TransformState = TransformState(
    position: Vec3,
    rotation: Vec3,
    scale: Vec3,
    world: Matrix,
    worldInverseTranspose: Matrix,
    dirty: bool)

  /** A new transform: identity vectors, identity caches, clean. */
  const Initial := TransformState(Zero3, Zero3, One3, Identity, Identity, false)

  /** CalculateMatrices: both caches derived from the current vectors, dirty cleared. */
  function Recalculated(s: TransformState): TransformState {
    var world := Compose(s.scale, s.rotation, s.position);
    s.(world := world, worldInverseTranspose := InverseTranspose(world), dirty := false)
  }

  /** The cache invariant: a clean transform caches the matrices of its current vectors. */
  ghost predicate Coherent(s: TransformState) {
    !s.dirty ==>
      s.world == Compose(s.scale, s.rotation, s.position)
      && s.worldInverseTranspose == InverseTranspose(s.world)
  }

  /** The two caches always belong together: one is the inverse-transpose of the other. */
  ghost predicate Paired(s: TransformState) {
    s.worldInverseTranspose == InverseTranspose(s.world)
  }

  datatype TransformOp =
    | SetPosition(v: Vec3)
    | SetRotation(v: Vec3)
    | SetScale(v: Vec3)
    | MoveAbsolute(v: Vec3)
    | MoveRelative(v: Vec3)
    | MoveRelativeAsWritten(v: Vec3)
    | Rotate(v: Vec3)
    | Scale(v: Vec3)
    | ScaleXYZAsWritten(x: real, y: real, z: real)
    | GetPosition
    | GetRotation
    | GetScale
    | GetUp
    | GetRight
    | GetForward
    | GetWorldMatrix
    | GetWorldInverseTransposeMatrix

  /** The state after one operation. */
  function Step(s: TransformState, op: TransformOp): TransformState {
    match op
    case SetPosition(v) => s.(position := v, dirty := true)
    case SetRotation(v) => s.(rotation := v, dirty := true)
    case SetScale(v) => s.(scale := v, dirty := true)
    case MoveAbsolute(v) => s.(position := Add(s.position, v), dirty := true)
    case MoveRelative(v) => s.(position := Add(s.position, RotateBy(s.rotation, v)), dirty := true)
    case MoveRelativeAsWritten(v) => s.(position := Add(s.position, RotateBy(s.rotation, v)))
    case Rotate(v) => s.(rotation := Add(s.rotation, v), dirty := true)
    case Scale(v) => s.(scale := Mul(s.scale, v), dirty := true)
    case ScaleXYZAsWritten(x, y, z) => s.(scale := Mul(s.scale, Vec3(x, y, y)), dirty := true)
    case GetPosition => s.(dirty := true)
    case GetRotation => s.(dirty := true)
    case GetScale => s.(dirty := true)
    case GetUp => s
    case GetRight => s
    case GetForward => s
    case GetWorldMatrix => if s.dirty then Recalculated(s) else s
    case GetWorldInverseTransposeMatrix => if s.dirty then Recalculated(s) else s
  }

  /** The state after a sequence of operations, in order. */
  function Run(s: TransformState, ops: seq<TransformOp>): TransformState
    decreases |ops|
  {
    if ops == [] then s else Run(Step(s, ops[0]), ops[1..])
  }

  /** What GetWorldMatrix returns in state s. */
  function WorldMatrixOf(s: TransformState): Matrix {
    if s.dirty then Recalculated(s).world else s.world
  }

  /** What GetWorldInverseTransposeMatrix returns in state s. */
  function InverseTransposeOf(s: TransformState): Matrix {
    if s.dirty then Recalculated(s).worldInverseTranspose else s.worldInverseTranspose
  }

  /** GetUp, GetRight and GetForward: a world axis turned by the current orientation. */
  function Up(s: TransformState): Vec3 { RotateBy(s.rotation, WorldUp) }
  function Right(s: TransformState): Vec3 { RotateBy(s.rotation, WorldRight) }
  function Forward(s: TransformState): Vec3 { RotateBy(s.rotation, WorldForward) }

  /** Operations that keep the cache invariant: all but the defective MoveRelative. */
  predicate KeepsCache(op: TransformOp) {
    !op.MoveRelativeAsWritten?
  }

  // ---------------------------------------------------------------- lemmas

  /** A new transform is clean and coherent, with identity caches. */
  lemma InitialIsCoherent()
    ensures !Initial.dirty && Initial.world == Identity && Initial.worldInverseTranspose == Identity
    ensures Coherent(Initial) && Paired(Initial)
  {
  }

  /** Each setter overwrites exactly one vector with its argument and marks the transform dirty. */
  lemma SettersOverwriteOneVector(s: TransformState, v: Vec3)
    ensures var t := Step(s, SetPosition(v));
      t.position == v && t.rotation == s.rotation && t.scale == s.scale && t.dirty
    ensures var t := Step(s, SetRotation(v));
      t.rotation == v && t.position == s.position && t.scale == s.scale && t.dirty
    ensures var t := Step(s, SetScale(v));
      t.scale == v && t.position == s.position && t.rotation == s.rotation && t.dirty
  {
  }

  /** MoveAbsolute adds to the position and Rotate to the rotation, component by component; both mark dirty. */
  lemma MovesAddComponentWise(s: TransformState, v: Vec3)
    ensures var t := Step(s, MoveAbsolute(v));
      t.position == Vec3(s.position.x + v.x, s.position.y + v.y, s.position.z + v.z)
      && t.rotation == s.rotation && t.scale == s.scale && t.dirty
    ensures var t := Step(s, Rotate(v));
      t.rotation == Vec3(s.rotation.x + v.x, s.rotation.y + v.y, s.rotation.z + v.z)
      && t.position == s.position && t.scale == s.scale && t.dirty
  {
  }

  /** Scale(XMFLOAT3) multiplies the scale component by component. */
  lemma ScaleMultipliesComponentWise(s: TransformState, v: Vec3)
    ensures var t := Step(s, Scale(v));
      t.scale == Vec3(s.scale.x * v.x, s.scale.y * v.y, s.scale.z * v.z)
      && t.position == s.position && t.rotation == s.rotation && t.dirty
  {
  }

  /** The reference getters mark the transform dirty; the direction getters change nothing. */
  lemma GettersAndDirtiness(s: TransformState)
    ensures Step(s, GetPosition) == s.(dirty := true)
    ensures Step(s, GetRotation) == s.(dirty := true)
    ensures Step(s, GetScale) == s.(dirty := true)
    ensures Step(s, GetUp) == s && Step(s, GetRight) == s && Step(s, GetForward) == s
  {
  }

  /** On a clean transform both matrix getters return the caches and change nothing. */
  lemma CleanGetIsCacheHit(s: TransformState)
    requires !s.dirty
    ensures WorldMatrixOf(s) == s.world && InverseTransposeOf(s) == s.worldInverseTranspose
    ensures Step(s, GetWorldMatrix) == s && Step(s, GetWorldInverseTransposeMatrix) == s
  {
  }

  /**
   * On a dirty transform either getter recomputes both matrices from the
   * current vectors and clears dirty; a second call returns the same value.
   */
  lemma DirtyGetRecomputes(s: TransformState)
    requires s.dirty
    ensures var t := Step(s, GetWorldMatrix);
      t == Step(s, GetWorldInverseTransposeMatrix)
      && !t.dirty
      && t.world == Compose(s.scale, s.rotation, s.position)
      && t.worldInverseTranspose == InverseTranspose(t.world)
      && t.position == s.position && t.rotation == s.rotation && t.scale == s.scale
    ensures WorldMatrixOf(Step(s, GetWorldMatrix)) == WorldMatrixOf(s)
    ensures InverseTransposeOf(Step(s, GetWorldMatrix)) == InverseTransposeOf(s)
  {
  }

  /** Two calls in a row, with no mutation between, return identical matrices. */
  lemma GetIsIdempotent(s: TransformState)
    ensures var t := Step(s, GetWorldMatrix);
      WorldMatrixOf(t) == WorldMatrixOf(s) && InverseTransposeOf(t) == InverseTransposeOf(s)
      && Step(t, GetWorldMatrix) == t
  {
  }

  /** In a coherent state, the getters return the matrices of the current vectors. */
  lemma CoherentGetIsCurrent(s: TransformState)
    requires Coherent(s)
    ensures WorldMatrixOf(s) == Compose(s.scale, s.rotation, s.position)
    ensures InverseTransposeOf(s) == InverseTranspose(WorldMatrixOf(s))
  {
  }

  /** Every operation but the defective MoveRelative keeps the cache invariant. */
  lemma StepKeepsCoherent(s: TransformState, op: TransformOp)
    requires Coherent(s) && KeepsCache(op)
    ensures Coherent(Step(s, op))
  {
  }

  /** A sequence of such operations keeps the cache invariant. */
  lemma {:induction false} RunKeepsCoherent(s: TransformState, ops: seq<TransformOp>)
    requires Coherent(s)
    requires forall i :: 0 <= i < |ops| ==> KeepsCache(ops[i])
    ensures Coherent(Run(s, ops))
    decreases |ops|
  {
    if ops != [] {
      StepKeepsCoherent(s, ops[0]);
      RunKeepsCoherent(Step(s, ops[0]), ops[1..]);
    }
  }

  /** Every operation, the defective one included, keeps the two caches paired. */
  lemma {:induction false} RunKeepsPaired(s: TransformState, ops: seq<TransformOp>)
    requires Paired(s)
    ensures Paired(Run(s, ops))
    decreases |ops|
  {
    if ops != [] {
      RunKeepsPaired(Step(s, ops[0]), ops[1..]);
    }
  }

  /**
   * From a new transform, after any sequence of operations without the
   * defective MoveRelative, however many clean/dirty cycles it went through,
   * the world matrix getter returns Compose of the final vectors, and the
   * inverse-transpose getter its inverse-transpose.
   */
  lemma WorldMatchesFinalVectors(ops: seq<TransformOp>)
    requires forall i :: 0 <= i < |ops| ==> KeepsCache(ops[i])
    ensures var s := Run(Initial, ops);
      WorldMatrixOf(s) == Compose(s.scale, s.rotation, s.position)
      && InverseTransposeOf(s) == InverseTranspose(WorldMatrixOf(s))
  {
    InitialIsCoherent();
    RunKeepsCoherent(Initial, ops);
    CoherentGetIsCurrent(Run(Initial, ops));
  }

  /** Running two sequences one after the other is running their concatenation. */
  lemma {:induction false} RunAppend(s: TransformState, xs: seq<TransformOp>, ys: seq<TransformOp>)
    ensures Run(s, xs + ys) == Run(Run(s, xs), ys)
    decreases |xs|
  {
    if xs == [] {
      assert xs + ys == ys;
    } else {
      assert (xs + ys)[0] == xs[0];
      assert (xs + ys)[1..] == xs[1..] + ys;
      RunAppend(Step(s, xs[0]), xs[1..], ys);
    }
  }

  /**
   * MoveRelative as written moves the position but leaves a clean transform
   * clean, so the next GetWorldMatrix returns the matrix of the old position.
   */
  lemma MoveRelativeAsWrittenIsStale(s: TransformState, v: Vec3)
    requires Coherent(s) && !s.dirty
    ensures var t := Step(s, MoveRelativeAsWritten(v));
      t.position == Add(s.position, RotateBy(s.rotation, v))
      && !t.dirty
      && WorldMatrixOf(t) == Compose(t.scale, t.rotation, s.position)
  {
  }

  /**
   * A concrete case: a new transform moved by (0, 0, 1) is at (0, 0, 1), yet
   * its world matrix is still the one for position (0, 0, 0).
   */
  lemma MoveRelativeAsWrittenCounterexample()
    ensures var t := Step(Initial, MoveRelativeAsWritten(WorldForward));
      t.position == WorldForward
      && t.position != Zero3
      && WorldMatrixOf(t) == Compose(t.scale, t.rotation, Zero3)
  {
  }

  /** MoveRelative as intended: it marks dirty, so the next get reflects the new position. */
  lemma MoveRelativeIsCurrent(s: TransformState, v: Vec3)
    requires Coherent(s)
    ensures var t := Step(s, MoveRelative(v));
      t.position == Add(s.position, RotateBy(s.rotation, v))
      && t.rotation == s.rotation && t.scale == s.scale
      && Coherent(t)
      && WorldMatrixOf(t) == Compose(t.scale, t.rotation, t.position)
  {
  }

  /** Scale(x, y, z) as written multiplies the z component by y: scaling by (1, 1, 2) changes nothing. */
  lemma ScaleXYZAsWrittenCounterexample()
    ensures Step(Initial, ScaleXYZAsWritten(1.0, 1.0, 2.0)).scale == One3
    ensures Step(Initial, Scale(Vec3(1.0, 1.0, 2.0))).scale == Vec3(1.0, 1.0, 2.0)
  {
  }

  /** Scale(x, y, z) as written: x and y are multiplied in, z is multiplied by y. */
  lemma ScaleXYZAsWrittenEffect(s: TransformState, x: real, y: real, z: real)
    ensures var t := Step(s, ScaleXYZAsWritten(x, y, z));
      t.scale == Vec3(s.scale.x * x, s.scale.y * y, s.scale.z * y) && t.dirty
  {
  }

  /**
   * The transform, updated in place. Each method's effect on the fields is
   * the matching `Step`.
   */
  class Transform {
    var position: Vec3
    var rotation: Vec3
    var scale: Vec3
    var world: Matrix
    var worldInverseTranspose: Matrix
    var dirty: bool

    function State(): TransformState
      reads this
    {
      TransformState(position, rotation, scale, world, worldInverseTranspose, dirty)
    }

    constructor ()
      ensures State() == Initial
    {
      position := Zero3;
      rotation := Zero3;
      scale := One3;
      dirty := false;
      world := Identity;
      worldInverseTranspose := Identity;
    }

    /** The implicit copy constructor: a separate transform with the same fields. */
    constructor Copy(other: Transform)
      ensures State() == other.State()
    {
      position := other.position;
      rotation := other.rotation;
      scale := other.scale;
      world := other.world;
      worldInverseTranspose := other.worldInverseTranspose;
      dirty := other.dirty;
    }

    /** Both SetPosition overloads (three floats or an XMFLOAT3). */
    method SetPosition(p: Vec3)
      modifies this
      ensures State() == Step(old(State()), TransformOp.SetPosition(p))
    {
      position := p;
      dirty := true;
    }

    method SetRotation(r: Vec3)
      modifies this
      ensures State() == Step(old(State()), TransformOp.SetRotation(r))
    {
      rotation := r;
      dirty := true;
    }

    method SetScale(s: Vec3)
      modifies this
      ensures State() == Step(old(State()), TransformOp.SetScale(s))
    {
      scale := s;
      dirty := true;
    }

    method MoveAbsolute(offset: Vec3)
      modifies this
      ensures State() == Step(old(State()), TransformOp.MoveAbsolute(offset))
    {
      position := Add(position, offset);
      dirty := true;
    }

    /** MoveRelative as written (both overloads): the dirty flag is not touched. */
    method MoveRelativeAsWritten(offset: Vec3)
      modifies this
      ensures State() == Step(old(State()), TransformOp.MoveRelativeAsWritten(offset))
    {
      var moved := RotateBy(rotation, offset);
      position := Add(position, moved);
    }

    /** MoveRelative as intended: like MoveAbsolute, it marks the transform dirty. */
    method MoveRelative(offset: Vec3)
      modifies this
      ensures State() == Step(old(State()), TransformOp.MoveRelative(offset))
    {
      var moved := RotateBy(rotation, offset);
      position := Add(position, moved);
      dirty := true;
    }

    method Rotate(delta: Vec3)
      modifies this
      ensures State() == Step(old(State()), TransformOp.Rotate(delta))
    {
      rotation := Add(rotation, delta);
      dirty := true;
    }

    /** Scale(XMFLOAT3). */
    method Scale(factor: Vec3)
      modifies this
      ensures State() == Step(old(State()), TransformOp.Scale(factor))
    {
      scale := Mul(scale, factor);
      dirty := true;
    }

    /** Scale(float, float, float) as written: the z component is multiplied by y. */
    method ScaleXYZAsWritten(x: real, y: real, z: real)
      modifies this
      ensures State() == Step(old(State()), TransformOp.ScaleXYZAsWritten(x, y, z))
    {
      scale := Mul(scale, Vec3(x, y, y));
      dirty := true;
    }

    /** Scale(float, float, float) as intended: the same as Scale of the vector (x, y, z). */
    method ScaleXYZ(x: real, y: real, z: real)
      modifies this
      ensures State() == Step(old(State()), TransformOp.Scale(Vec3(x, y, z)))
    {
      scale := Mul(scale, Vec3(x, y, z));
      dirty := true;
    }

    /** GetPosition hands out a reference, so it marks the transform dirty. */
    method GetPosition() returns (p: Vec3)
      modifies this
      ensures p == old(position)
      ensures State() == Step(old(State()), TransformOp.GetPosition)
    {
      dirty := true;
      p := position;
    }

    method GetRotation() returns (r: Vec3)
      modifies this
      ensures r == old(rotation)
      ensures State() == Step(old(State()), TransformOp.GetRotation)
    {
      dirty := true;
      r := rotation;
    }

    method GetScale() returns (s: Vec3)
      modifies this
      ensures s == old(scale)
      ensures State() == Step(old(State()), TransformOp.GetScale)
    {
      dirty := true;
      s := scale;
    }

    method GetUp() returns (u: Vec3)
      ensures u == Up(State())
    {
      u := RotateBy(rotation, WorldUp);
    }

    method GetRight() returns (r: Vec3)
      ensures r == Right(State())
    {
      r := RotateBy(rotation, WorldRight);
    }

    method GetForward() returns (f: Vec3)
      ensures f == Forward(State())
    {
      f := RotateBy(rotation, WorldForward);
    }

    method GetWorldMatrix() returns (m: Matrix)
      modifies this
      ensures m == WorldMatrixOf(old(State()))
      ensures State() == Step(old(State()), TransformOp.GetWorldMatrix)
    {
      if !dirty {
        return world;
      }
      CalculateMatrices();
      m := world;
    }

    method GetWorldInverseTransposeMatrix() returns (m: Matrix)
      modifies this
      ensures m == InverseTransposeOf(old(State()))
      ensures State() == Step(old(State()), TransformOp.GetWorldInverseTransposeMatrix)
    {
      if !dirty {
        return worldInverseTranspose;
      }
      CalculateMatrices();
      m := worldInverseTranspose;
    }

    method CalculateMatrices()
      modifies this
      ensures State() == Recalculated(old(State()))
    {
      dirty := false;
      var w := Compose(scale, rotation, position);
      world := w;
      worldInverseTranspose := InverseTranspose(w);
    }
  }
}
