/**
 * `ShowcaseGame`: the showcase with the game's camera controls. As written it defines no
 * `start`, so the engine's constructor fails at `this.start()` and no showcase game is ever
 * built (`Create`). The class below is the construction evidently intended: the cube made in the
 * constructor body is the only shape drawn; every update moves the camera with the held keys,
 * spins the shape while `rotate` is set, calls the update listeners and puts the shape back as
 * the first one drawn. Its `loadType` passes `0` where a shape to copy from is expected, so the
 * new shape keeps nothing of the old one.
 */
module ShowcaseGame {
  import opened Wrappers
  import opened ShapeCommon
  import Engine
  import EngineShape
  import EngineRenderer
  import Controls

  /** The error a call of a method the object does not have throws. */
  const StartMissing := "TypeError: this.start is not a function"

  /**
   * `new ShowcaseGame(canvas)` as written: the engine's constructor calls `this.start()`, which
   * the class never defines (the engine declares it abstract), so the call throws a `TypeError`
   * before the constructor body is reached.
   */
  method Create(canvas: EngineRenderer.Canvas, meshes: EngineShape.ShapeName -> EngineShape.ShapeObject)
    returns (r: Result<ShowcaseGame, string>)
    ensures r.Failure? && r.error == StartMissing
  {
    return Failure(StartMissing);
  }

  class ShowcaseGame {
    const engine: Engine.Engine
    /** The shape on show. */
    var shp: EngineShape.Shape
    /** Whether `update` spins the shape. */
    var rotate: bool
    var updateListeners: seq<Controls.Listener>
    /** The update-listener calls made so far, in order. */
    var listenerCalls: seq<Controls.Listener>

    /**
     * A showcase game on a canvas, as intended: a new engine whose only shape is a new cube with
     * the default parameters (size 100 among them), spinning on, no listeners.
     */
    constructor(canvas: EngineRenderer.Canvas, meshes: EngineShape.ShapeName -> EngineShape.ShapeObject)
      ensures fresh(engine) && fresh(engine.renderer) && fresh(engine.input)
      ensures engine.state == Engine.Starting && engine.shapes == [shp] && engine.input.Valid()
      ensures fresh(shp) && fresh(shp.origin) && fresh(shp.rotation) && shp.HasDefaults()
      ensures shp.points == meshes(EngineShape.Cube).points && shp.triangles == meshes(EngineShape.Cube).triangles
      ensures rotate && updateListeners == [] && listenerCalls == []
    {
      engine := new Engine.Engine(canvas);
      var cube := EngineShape.CreateShape(meshes, EngineShape.Cube, null);
      shp := cube;
      rotate := true;
      updateListeners := [];
      listenerCalls := [];
      new;
      engine.shapes := engine.shapes + [shp];
    }

    /**
     * `update`: the camera moved and turned by the held keys; while spinning, every angle of the
     * shape turned by `60 * dt` degrees and kept within a full turn; every listener called once,
     * in registration order; the shape put back as the first one drawn.
     */
    method Update(deltaTime: real)
      modifies engine.renderer.camera`position, engine.renderer.camera`yaw
      modifies shp.rotation, this`listenerCalls, engine`shapes
      ensures engine.renderer.camera.position ==
        Controls.Walked(old(engine.renderer.camera.position), engine.renderer.camera.lookDirection, deltaTime, engine.input.heldKeys)
      ensures engine.renderer.camera.yaw == old(engine.renderer.camera.yaw) + Controls.Push(engine.input.heldKeys, "e", "q")
      ensures rotate ==>
        && shp.rotation.x == Controls.Wrap(old(shp.rotation.x) + Controls.SpinSpeed * deltaTime)
        && shp.rotation.y == Controls.Wrap(old(shp.rotation.y) + Controls.SpinSpeed * deltaTime)
        && shp.rotation.z == Controls.Wrap(old(shp.rotation.z) + Controls.SpinSpeed * deltaTime)
      ensures !rotate ==> unchanged(shp.rotation)
      ensures listenerCalls == old(listenerCalls) + updateListeners
      ensures engine.shapes == Controls.Reloaded(old(engine.shapes), shp)
    {
      Controls.MoveCamera(engine.renderer.camera, engine.input, deltaTime);
      if rotate {
        Controls.Spin(shp.rotation, deltaTime);
      }
      listenerCalls := Controls.CallListeners(updateListeners, listenerCalls);
      engine.shapes := Controls.Reloaded(engine.shapes, shp);
    }

    /**
     * `shapeController.loadType`: a new shape of the named mesh. The old shape is passed after a
     * `0` that stands where the shape to copy from belongs, so the new shape has the default
     * size, origin, rotation and colour.
     */
    method LoadType(meshes: EngineShape.ShapeName -> EngineShape.ShapeObject, name: EngineShape.ShapeName)
      modifies this`shp
      ensures fresh(shp) && fresh(shp.origin) && fresh(shp.rotation) && shp.HasDefaults()
      ensures shp.points == meshes(name).points && shp.triangles == meshes(name).triangles
    {
      shp := EngineShape.CreateShape(meshes, name, null);
    }

    /** `shapeController.setSize`: a negative size is refused with a logged message. */
    method SetSize(size: real) returns (logged: Option<string>)
      modifies shp`size
      ensures size < 0.0 ==> shp.size == old(shp.size) && logged == Some(Controls.SizeError)
      ensures size >= 0.0 ==> shp.size == size && logged == None
    {
      logged := Controls.SetSize(shp, size);
    }

    /** `shapeController.setOrigin`: the shape adopts the given origin object. */
    method SetOrigin(origin: Coords)
      modifies shp`origin
      ensures shp.origin == origin
    {
      Controls.SetOrigin(shp, origin);
    }

    /** `shapeController.setColor`: the shape's `setColor`, with its log. */
    method SetColor(hex: string) returns (logged: Option<string>)
      modifies shp`colorObj
      ensures shp.colorObj == ColorFromHex(old(shp.colorObj), hex)
      ensures |hex| != 7 ==> logged == Some(HexErrorLog(hex))
      ensures |hex| == 7 ==> logged == None
    {
      logged := shp.SetColor(hex);
    }

    /** `shapeController.setRotation`: the shape adopts the given rotation object, its angles wrapped in place. */
    method SetRotation(rotation: Coords)
      modifies shp`rotation, rotation
      ensures shp.rotation == rotation
      ensures rotation.x == Controls.Wrap(old(rotation.x))
      ensures rotation.y == Controls.Wrap(old(rotation.y))
      ensures rotation.z == Controls.Wrap(old(rotation.z))
    {
      Controls.SetRotation(shp, rotation);
    }

    /** `shapeController.getOrigin`: the shape's origin object itself. */
    method GetOrigin() returns (origin: Coords)
      ensures origin == shp.origin
    {
      origin := Controls.GetOrigin(shp);
    }

    /** `shapeController.getRotation`: the shape's rotation object itself. */
    method GetRotation() returns (rotation: Coords)
      ensures rotation == shp.rotation
    {
      rotation := Controls.GetRotation(shp);
    }

    /** `addUpdateListener`: the listener is called last from the next update on. */
    method AddUpdateListener(fn: Controls.Listener)
      modifies this`updateListeners
      ensures updateListeners == old(updateListeners) + [fn]
    {
      updateListeners := updateListeners + [fn];
    }
  }
}
