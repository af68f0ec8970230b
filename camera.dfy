/**
 * Camera: a transform moved by keyboard and mouse input, with the view and
 * projection matrices recomputed from it. Input::KeyDown and the mouse
 * deltas are passed in as an `Input` value.
 */
module Cameras {
  import opened Maths
  import opened Transforms

  datatype Key = KeyW | KeyS | KeyA | KeyD | KeySpace | KeyX

  /** What the input collaborator reports for one frame. */
  datatype Input = Input(keysDown: set<Key>, mouseLeftDown: bool, mouseDeltaX: int, mouseDeltaY: int)

  /** Radians of turn per pixel of mouse movement. */
  const MouseSensitivity: real := 0.0025

  /** The pitch limit, 90 degrees in radians. */
  const PitchLimit: real := 90.0 * (Pi / 180.0)

  const NearPlane: real := 0.01
  const FarPlane: real := 900.0

  function Min(a: real, b: real): real { if a < b then a else b }
  function Max(a: real, b: real): real { if a < b then b else a }

  /**
   * The pitch change actually applied: the proposed one when it keeps the
   * pitch strictly inside the limits, otherwise none.
   */
  function PitchDelta(pitch: real, delta: real): (d: real)
    ensures d == (if -PitchLimit < pitch + delta < PitchLimit then delta else 0.0)
    ensures -PitchLimit < pitch < PitchLimit ==> -PitchLimit < pitch + d < PitchLimit
  {
    var future := pitch + delta;
    var postClamp := Max(-PitchLimit, Min(future, PitchLimit));
    if postClamp == -PitchLimit || postClamp == PitchLimit then 0.0 else delta
  }

  /** The movement one pressed key asks for, relative (R) or absolute (A). */
  function KeyOffset(k: Key, speed: real): Vec3 {
    match k
    case KeyW => Vec3(0.0, 0.0, speed)
    case KeyS => Vec3(0.0, 0.0, -speed)
    case KeyA => Vec3(-speed, 0.0, 0.0)
    case KeyD => Vec3(speed, 0.0, 0.0)
    case KeySpace => Vec3(0.0, speed, 0.0)
    case KeyX => Vec3(0.0, -speed, 0.0)
  }

  /** W, S, A and D move along the camera's own axes; Space and X along the world's. */
  predicate IsRelative(k: Key) {
    k == KeyW || k == KeyS || k == KeyA || k == KeyD
  }

  /** The world-space displacement of one key while it is down. */
  function KeyMove(k: Key, keys: set<Key>, rotation: Vec3, speed: real): Vec3 {
    if k !in keys then Zero3
    else if IsRelative(k) then RotateBy(rotation, KeyOffset(k, speed))
    else KeyOffset(k, speed)
  }

  /** The position after the W, S, A and D checks, in that order. */
  function RelativeMoved(p: Vec3, rotation: Vec3, keys: set<Key>, speed: real): Vec3 {
    var p1 := Add(p, KeyMove(KeyW, keys, rotation, speed));
    var p2 := Add(p1, KeyMove(KeyS, keys, rotation, speed));
    var p3 := Add(p2, KeyMove(KeyA, keys, rotation, speed));
    Add(p3, KeyMove(KeyD, keys, rotation, speed))
  }

  /** The position after the Space and X checks. */
  function AbsoluteMoved(p: Vec3, rotation: Vec3, keys: set<Key>, speed: real): Vec3 {
    Add(Add(p, KeyMove(KeySpace, keys, rotation, speed)), KeyMove(KeyX, keys, rotation, speed))
  }

  /** The position after all the key checks, in the order the source makes them. */
  function MovedPosition(p: Vec3, rotation: Vec3, keys: set<Key>, speed: real): Vec3 {
    AbsoluteMoved(RelativeMoved(p, rotation, keys, speed), rotation, keys, speed)
  }

  /** The rotation after the mouse check. */
  function TurnedRotation(rotation: Vec3, input: Input): Vec3 {
    if !input.mouseLeftDown then rotation
    else
      var dx := input.mouseDeltaX as real * MouseSensitivity;
      var dy := input.mouseDeltaY as real * MouseSensitivity;
      Add(rotation, Vec3(PitchDelta(rotation.x, dy), dx, 0.0))
  }

  /**
   * The camera transform after Update: moved, turned, and marked dirty (the
   * view update reads the position through the reference getter); the
   * caches are not recomputed.
   */
  function UpdatedState(s: TransformState, input: Input, deltaTime: real): TransformState {
    s.(position := MovedPosition(s.position, s.rotation, input.keysDown, 1.0 * deltaTime),
       rotation := TurnedRotation(s.rotation, input),
       dirty := true)
  }

  /** `t` differs from `s` at most in its position, now `p`, and its dirty flag. */
  ghost predicate OnlyMoved(t: TransformState, s: TransformState, p: Vec3) {
    t.(dirty := true) == s.(position := p, dirty := true)
  }

  /** What the camera keeps true of its own transform. */
  ghost predicate PitchInRange(s: TransformState) {
    -PitchLimit < s.rotation.x < PitchLimit && s.rotation.z == 0.0
  }

  /** Update keeps the pitch strictly inside the limits and the roll at zero. */
  lemma UpdateKeepsPitchInRange(s: TransformState, input: Input, deltaTime: real)
    requires PitchInRange(s)
    ensures PitchInRange(UpdatedState(s, input, deltaTime))
  {
  }

  /**
   * With the button down, yaw always turns by the horizontal delta, pitch by
   * the vertical one only inside the limits, roll never; with it up, nothing turns.
   */
  lemma MouseTurns(s: TransformState, input: Input, deltaTime: real)
    ensures var r := UpdatedState(s, input, deltaTime).rotation;
      if input.mouseLeftDown then
        r.y == s.rotation.y + input.mouseDeltaX as real * MouseSensitivity
        && r.z == s.rotation.z
        && (var dy := input.mouseDeltaY as real * MouseSensitivity;
            r.x == if -PitchLimit < s.rotation.x + dy < PitchLimit then s.rotation.x + dy else s.rotation.x)
      else r == s.rotation
  {
  }

  /** Keys apply independently: the displacement is the sum of each pressed key's own move. */
  lemma KeysApplyIndependently(p: Vec3, rotation: Vec3, keys: set<Key>, speed: real)
    ensures MovedPosition(p, rotation, keys, speed)
      == Add(p, Add(Add(Add(KeyMove(KeyW, keys, rotation, speed), KeyMove(KeyS, keys, rotation, speed)),
                        Add(KeyMove(KeyA, keys, rotation, speed), KeyMove(KeyD, keys, rotation, speed))),
                    Add(KeyMove(KeySpace, keys, rotation, speed), KeyMove(KeyX, keys, rotation, speed))))
    ensures keys == {} ==> MovedPosition(p, rotation, keys, speed) == p
  {
  }

  /** One key alone moves the camera by that key's offset, turned by the orientation for W/S/A/D. */
  lemma SingleKeyMove(p: Vec3, rotation: Vec3, k: Key, speed: real)
    ensures MovedPosition(p, rotation, {k}, speed)
      == Add(p, if IsRelative(k) then RotateBy(rotation, KeyOffset(k, speed)) else KeyOffset(k, speed))
  {
  }

  class Camera {
    var fov: real
    const transform: Transform
    var view: Matrix
    var projection: Matrix

    ghost predicate Valid()
      reads this, transform
    {
      PitchInRange(transform.State())
    }

    /**
     * Stores the FOV, places the transform at the starting position, then
     * computes the view and projection.
     */
    constructor (aspectRatio: real, startingPosition: Vec3, fieldOfView: real)
      ensures Valid() && fresh(transform)
      ensures fov == fieldOfView
      ensures transform.State() == Initial.(position := startingPosition, dirty := true)
      ensures GetView() == LookTo(startingPosition, Forward(Initial), Up(Initial))
      ensures GetProjection() == PerspectiveFov(ToRadians(fieldOfView), aspectRatio, NearPlane, FarPlane)
    {
      fov := fieldOfView;
      var t := new Transform();
      transform := t;
      new;
      transform.SetPosition(startingPosition);
      UpdateView();
      UpdateProjection(aspectRatio);
    }

    function GetView(): (m: Matrix) reads this ensures m == view { view }
    function GetProjection(): (m: Matrix) reads this ensures m == projection { projection }

    /** A copy: changes to it do not reach the camera. */
    method GetTransform() returns (t: Transform)
      ensures fresh(t) && t.State() == transform.State()
    {
      t := new Transform.Copy(transform);
    }

    method UpdateProjection(aspectRatio: real)
      modifies this`projection
      ensures projection == PerspectiveFov(ToRadians(fov), aspectRatio, NearPlane, FarPlane)
    {
      projection := PerspectiveFov(ToRadians(fov), aspectRatio, NearPlane, FarPlane);
    }

    /** Looks from the position along the forward vector; reading the position marks the transform dirty. */
    method UpdateView()
      modifies this`view, transform
      ensures transform.State() == old(transform.State()).(dirty := true)
      ensures view == LookTo(transform.position, Forward(transform.State()), Up(transform.State()))
    {
      var up := transform.GetUp();
      var forward := transform.GetForward();
      var position := transform.GetPosition();
      view := LookTo(position, forward, up);
    }

    /** Update: key movement, mouse look, then the view. */
    method Update(deltaTime: real, input: Input)
      requires Valid()
      modifies this`view, transform
      ensures Valid()
      ensures transform.State() == UpdatedState(old(transform.State()), input, deltaTime)
      ensures view == LookTo(transform.position, Forward(transform.State()), Up(transform.State()))
    {
      var speed := 1.0 * deltaTime;
      MoveByKeys(input.keysDown, speed);
      Look(input);
      UpdateView();
    }

    /** The key checks of Update. */
    method MoveByKeys(keysDown: set<Key>, speed: real)
      modifies transform
      ensures OnlyMoved(transform.State(), old(transform.State()),
                        MovedPosition(old(transform.position), old(transform.rotation), keysDown, speed))
    {
      MoveRelativeByKeys(keysDown, speed);
      MoveAbsoluteByKeys(keysDown, speed);
    }

    /** W, S, A and D: moves along the camera's own axes. */
    method MoveRelativeByKeys(keysDown: set<Key>, speed: real)
      modifies transform
      ensures OnlyMoved(transform.State(), old(transform.State()),
                        RelativeMoved(old(transform.position), old(transform.rotation), keysDown, speed))
    {
      ghost var s0 := transform.State();
      ghost var p := s0.position;
      if KeyW in keysDown {
        transform.MoveRelative(Vec3(0.0, 0.0, speed));
      }
      p := Add(p, KeyMove(KeyW, keysDown, s0.rotation, speed));
      assert OnlyMoved(transform.State(), s0, p);
      if KeyS in keysDown {
        transform.MoveRelative(Vec3(0.0, 0.0, -speed));
      }
      p := Add(p, KeyMove(KeyS, keysDown, s0.rotation, speed));
      assert OnlyMoved(transform.State(), s0, p);
      if KeyA in keysDown {
        transform.MoveRelative(Vec3(-speed, 0.0, 0.0));
      }
      p := Add(p, KeyMove(KeyA, keysDown, s0.rotation, speed));
      assert OnlyMoved(transform.State(), s0, p);
      if KeyD in keysDown {
        transform.MoveRelative(Vec3(speed, 0.0, 0.0));
      }
      p := Add(p, KeyMove(KeyD, keysDown, s0.rotation, speed));
      assert OnlyMoved(transform.State(), s0, p);
    }

    /** Space and X: moves along the world's vertical axis. */
    method MoveAbsoluteByKeys(keysDown: set<Key>, speed: real)
      modifies transform
      ensures OnlyMoved(transform.State(), old(transform.State()),
                        AbsoluteMoved(old(transform.position), old(transform.rotation), keysDown, speed))
    {
      ghost var s0 := transform.State();
      ghost var p := s0.position;
      if KeySpace in keysDown {
        transform.MoveAbsolute(Vec3(0.0, speed, 0.0));
      }
      p := Add(p, KeyMove(KeySpace, keysDown, s0.rotation, speed));
      assert OnlyMoved(transform.State(), s0, p);
      if KeyX in keysDown {
        transform.MoveAbsolute(Vec3(0.0, -speed, 0.0));
      }
      p := Add(p, KeyMove(KeyX, keysDown, s0.rotation, speed));
      assert OnlyMoved(transform.State(), s0, p);
    }

    /** The mouse check of Update. */
    method Look(input: Input)
      modifies transform
      ensures transform.State().(dirty := true)
        == old(transform.State()).(rotation := TurnedRotation(old(transform.rotation), input), dirty := true)
    {
      if input.mouseLeftDown {
        var deltaX := input.mouseDeltaX as real * MouseSensitivity;
        var deltaY := input.mouseDeltaY as real * MouseSensitivity;
        var rotation := transform.GetRotation();
        var future := rotation.x + deltaY;
        var postClamp := Max(-PitchLimit, Min(future, PitchLimit));
        if postClamp == -PitchLimit || postClamp == PitchLimit {
          deltaY := 0.0;
        }
        transform.Rotate(Vec3(deltaY, deltaX, 0.0));
      }
    }
  }
}
