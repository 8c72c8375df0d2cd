/**
 * The update rules and shape controls the games share: moving the camera with the held keys
 * (`Game` and `ShowcaseGame`), spinning the shape and keeping its angles within a full turn,
 * the `shapeController` setters and getters (`Showcase` and `ShowcaseGame`), calling the update
 * listeners, and putting the shape back as the first one drawn.
 */
module Controls {
  import opened Wrappers
  import opened JsNumber
  import opened JsString
  import opened Vec3
  import opened ShapeCommon
  import EngineShape
  import EngineRenderer
  import EngineInput

  /** Distance the camera moves per second of update. */
  const MoveSpeed: real := 8.0
  /** Degrees a spinning shape turns about each axis per second of update. */
  const SpinSpeed: real := 60.0
  /** What `setSize` logs when it refuses a size. */
  const SizeError := "Size should be a positive number"

  // ---------------------------------------------------------------------------
  // Camera movement

  /** Whether `isKeyHeld(key)` answers yes for a set of (lower-cased) held keys. */
  predicate Held(keys: set<string>, key: string)
  {
    ToLower(key) in keys
  }

  /** One key pushes one way (+1), the other the opposite way (-1); both or neither cancel (0). */
  function Push(keys: set<string>, plus: string, minus: string): (a: real)
    ensures a == 1.0 <==> Held(keys, plus) && !Held(keys, minus)
    ensures a == -1.0 <==> !Held(keys, plus) && Held(keys, minus)
    ensures a == 0.0 <==> Held(keys, plus) == Held(keys, minus)
  {
    (if Held(keys, plus) then 1.0 else 0.0) - (if Held(keys, minus) then 1.0 else 0.0)
  }

  /**
   * Where one update leaves the camera: `move = 8 * dt` along the look direction for `w`
   * (backwards for `s`), along x for `d` (backwards for `a`) and along y for `Shift` (down for
   * `Control`).
   */
  function Walked(position: Vector3, look: Vector3, dt: real, keys: set<string>): Vector3
  {
    var move := MoveSpeed * dt;
    var forward := Push(keys, "w", "s");
    [position[0] + forward * (look[0] * move) + Push(keys, "d", "a") * move,
     position[1] + forward * (look[1] * move) + Push(keys, "Shift", "Control") * move,
     position[2] + forward * (look[2] * move)]
  }

  /**
   * The camera part of `update`: each held key applied in the source's order, `w`, `s`, `q`,
   * `e`, `a`, `d`, `Shift`, `Control`, with the move vector taken from the look direction
   * before any of them. Only the camera's position and yaw change.
   */
  method MoveCamera(camera: EngineRenderer.Camera, input: EngineInput.Input, deltaTime: real)
    modifies camera`position, camera`yaw
    ensures camera.position == Walked(old(camera.position), camera.lookDirection, deltaTime, input.heldKeys)
    ensures camera.yaw == old(camera.yaw) + Push(input.heldKeys, "e", "q")
  {
    var move := MoveSpeed * deltaTime;
    var moveVector := Multiply(camera.lookDirection, MoveSpeed * deltaTime);
    ghost var p := camera.position;
    WalkAndTurn(camera, input, moveVector);
    ghost var q := camera.position;
    Strafe(camera, input, move);
    Strafed(p, q, camera.position, camera.lookDirection, deltaTime, input.heldKeys);
  }

  /** The `w`, `s`, `q` and `e` steps: forward or back by the move vector, and the yaw turned by a degree. */
  method WalkAndTurn(camera: EngineRenderer.Camera, input: EngineInput.Input, moveVector: Vector3)
    modifies camera`position, camera`yaw
    ensures forall i | 0 <= i < 3 :: camera.position[i] == old(camera.position[i]) + Push(input.heldKeys, "w", "s") * moveVector[i]
    ensures camera.yaw == old(camera.yaw) + Push(input.heldKeys, "e", "q")
  {
    if input.IsKeyHeld("w") {
      camera.position := Add(camera.position, moveVector);
    }
    if input.IsKeyHeld("s") {
      camera.position := Subtract(camera.position, moveVector);
    }
    if input.IsKeyHeld("q") {
      camera.yaw := camera.yaw - 1.0;
    }
    if input.IsKeyHeld("e") {
      camera.yaw := camera.yaw + 1.0;
    }
  }

  /** The `a`, `d`, `Shift` and `Control` steps: one component of the position changed in place by `move`. */
  method Strafe(camera: EngineRenderer.Camera, input: EngineInput.Input, move: real)
    modifies camera`position
    ensures camera.position[0] == old(camera.position[0]) + Push(input.heldKeys, "d", "a") * move
    ensures camera.position[1] == old(camera.position[1]) + Push(input.heldKeys, "Shift", "Control") * move
    ensures camera.position[2] == old(camera.position[2])
  {
    if input.IsKeyHeld("a") {
      camera.position := camera.position[0 := camera.position[0] - move];
    }
    if input.IsKeyHeld("d") {
      camera.position := camera.position[0 := camera.position[0] + move];
    }
    if input.IsKeyHeld("Shift") {
      camera.position := camera.position[1 := camera.position[1] + move];
    }
    if input.IsKeyHeld("Control") {
      camera.position := camera.position[1 := camera.position[1] - move];
    }
  }

  /** The sideways and vertical steps on top of the forward ones give `Walked`. */
  lemma Strafed(p: Vector3, q: Vector3, r: Vector3, look: Vector3, dt: real, keys: set<string>)
    requires forall i | 0 <= i < 3 :: q[i] == p[i] + Push(keys, "w", "s") * Multiply(look, MoveSpeed * dt)[i]
    requires r[0] == q[0] + Push(keys, "d", "a") * (MoveSpeed * dt)
    requires r[1] == q[1] + Push(keys, "Shift", "Control") * (MoveSpeed * dt)
    requires r[2] == q[2]
    ensures r == Walked(p, look, dt, keys)
  {
    var w := Walked(p, look, dt, keys);
    forall i | 0 <= i < 3
      ensures r[i] == w[i]
    {
    }
  }

  /** Holding `w` and `s` together, and no sideways or vertical key, leaves the camera where it was. */
  lemma ForwardBackCancel(position: Vector3, look: Vector3, dt: real, keys: set<string>)
    requires Held(keys, "w") && Held(keys, "s")
    requires Push(keys, "d", "a") == 0.0 && Push(keys, "Shift", "Control") == 0.0
    ensures Walked(position, look, dt, keys) == position
  {
    assert Push(keys, "w", "s") == 0.0;
    var w := Walked(position, look, dt, keys);
    forall i | 0 <= i < 3
      ensures w[i] == position[i]
    {
    }
  }

  /** `a` and `d` move only along x, `Shift` and `Control` only along y: without `w` or `s`, z never changes. */
  lemma SidewaysAxes(position: Vector3, look: Vector3, dt: real, keys: set<string>)
    requires Push(keys, "w", "s") == 0.0
    ensures Walked(position, look, dt, keys)[0] == position[0] + Push(keys, "d", "a") * (MoveSpeed * dt)
    ensures Walked(position, look, dt, keys)[1] == position[1] + Push(keys, "Shift", "Control") * (MoveSpeed * dt)
    ensures Walked(position, look, dt, keys)[2] == position[2]
  {
  }

  /** Holding only `w` moves the camera by the look direction scaled by `8 * dt`. */
  lemma ForwardOnly(position: Vector3, look: Vector3, dt: real, keys: set<string>)
    requires Held(keys, "w") && !Held(keys, "s")
    requires Push(keys, "d", "a") == 0.0 && Push(keys, "Shift", "Control") == 0.0
    ensures Walked(position, look, dt, keys) == Add(position, Multiply(look, MoveSpeed * dt))
  {
    var w := Walked(position, look, dt, keys);
    var expected := Add(position, Multiply(look, MoveSpeed * dt));
    forall i | 0 <= i < 3
      ensures w[i] == expected[i]
    {
    }
  }

  // ---------------------------------------------------------------------------
  // Rotation

  /**
   * The angle guard of `update` and `setRotation`: an angle of a full turn or more either way
   * becomes its remainder of 360 (`%=`), any other stays. The guard changes nothing: the
   * remainder of an angle already inside a full turn is the angle itself.
   */
  function Wrap(angle: real): (r: real)
    ensures -360.0 < r < 360.0
    ensures -360.0 < angle < 360.0 ==> r == angle
    ensures r == Rem360(angle)
  {
    if angle >= 360.0 || angle <= -360.0 then Rem360(angle) else angle
  }

  /** Wrapping twice is wrapping once. */
  lemma WrapIdempotent(angle: real)
    ensures Wrap(Wrap(angle)) == Wrap(angle)
  {
  }

  /**
   * The rotation part of `update`: each angle of the shape's rotation object turned by
   * `60 * dt` degrees and then wrapped into a full turn, in place.
   */
  method Spin(rotation: Coords, deltaTime: real)
    modifies rotation
    ensures rotation.x == Wrap(old(rotation.x) + SpinSpeed * deltaTime)
    ensures rotation.y == Wrap(old(rotation.y) + SpinSpeed * deltaTime)
    ensures rotation.z == Wrap(old(rotation.z) + SpinSpeed * deltaTime)
  {
    var turn := SpinSpeed * deltaTime;
    rotation.x := rotation.x + turn;
    rotation.y := rotation.y + turn;
    rotation.z := rotation.z + turn;
    if rotation.x >= 360.0 || rotation.x <= -360.0 {
      rotation.x := Rem360(rotation.x);
    }
    if rotation.y >= 360.0 || rotation.y <= -360.0 {
      rotation.y := Rem360(rotation.y);
    }
    if rotation.z >= 360.0 || rotation.z <= -360.0 {
      rotation.z := Rem360(rotation.z);
    }
  }

  // ---------------------------------------------------------------------------
  // The shape controller

  /** `setSize`: a negative size is refused with a logged message, any other becomes the shape's size. */
  method SetSize(shp: EngineShape.Shape, size: real) returns (logged: Option<string>)
    modifies shp`size
    ensures size < 0.0 ==> shp.size == old(shp.size) && logged == Some(SizeError)
    ensures size >= 0.0 ==> shp.size == size && logged == None
  {
    if size < 0.0 {
      return Some(SizeError);
    }
    shp.size := size;
    return None;
  }

  /** `setOrigin`: the shape adopts the caller's origin object itself. */
  method SetOrigin(shp: EngineShape.Shape, origin: Coords)
    modifies shp`origin
    ensures shp.origin == origin
  {
    shp.origin := origin;
  }

  /** `getOrigin`: the shape's origin object itself, so the one last given to `setOrigin`. */
  method GetOrigin(shp: EngineShape.Shape) returns (origin: Coords)
    ensures origin == shp.origin
  {
    return shp.origin;
  }

  /** `getRotation`: the shape's rotation object itself. */
  method GetRotation(shp: EngineShape.Shape) returns (rotation: Coords)
    ensures rotation == shp.rotation
  {
    return shp.rotation;
  }

  /**
   * `setRotation`: the shape adopts the caller's rotation object, whose angles are then wrapped
   * into a full turn in place, so the caller sees them changed too.
   */
  method SetRotation(shp: EngineShape.Shape, rotation: Coords)
    modifies shp`rotation, rotation
    ensures shp.rotation == rotation
    ensures rotation.x == Wrap(old(rotation.x)) && rotation.y == Wrap(old(rotation.y)) && rotation.z == Wrap(old(rotation.z))
  {
    shp.rotation := rotation;
    if shp.rotation.x >= 360.0 || shp.rotation.x <= -360.0 {
      shp.rotation.x := Rem360(shp.rotation.x);
    }
    if shp.rotation.y >= 360.0 || shp.rotation.y <= -360.0 {
      shp.rotation.y := Rem360(shp.rotation.y);
    }
    if shp.rotation.z >= 360.0 || shp.rotation.z <= -360.0 {
      shp.rotation.z := Rem360(shp.rotation.z);
    }
  }

  // ---------------------------------------------------------------------------
  // Listeners and the shape list

  /** An update listener, known by its registration identity; what it does is not part of this model. */
  type Listener = nat

  /** The listener loop of `update`: every registered listener called once, in registration order. */
  method CallListeners(updateListeners: seq<Listener>, calls: seq<Listener>) returns (after: seq<Listener>)
    ensures after == calls + updateListeners
  {
    after := calls;
    for i := 0 to |updateListeners|
      invariant after == calls + updateListeners[..i]
    {
      after := after + [updateListeners[i]];
    }
    assert updateListeners[..|updateListeners|] == updateListeners;
  }

  /** `shapes[0] = shp`: the shape becomes the first one drawn; on an empty list it becomes the only one. */
  function Reloaded(shapes: seq<EngineShape.Shape>, shp: EngineShape.Shape): (r: seq<EngineShape.Shape>)
    ensures |r| == if |shapes| == 0 then 1 else |shapes|
    ensures r[0] == shp
    ensures forall i | 1 <= i < |shapes| :: r[i] == shapes[i]
  {
    if |shapes| == 0 then [shp] else shapes[0 := shp]
  }
}
