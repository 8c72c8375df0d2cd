/**
 * `Showcase`: an engine that draws one shape, spinning it while `rotate` is
 * set, calling the registered update listeners every frame, and exposing a controller that
 * swaps the mesh and sets the size, origin, colour and rotation. The subclass is modelled as a
 * class holding its engine; the stored meshes are a parameter, and an update listener is known
 * by its identity, its calls recorded in order.
 */
module Showcase {
  import opened Wrappers
  import opened ShapeCommon
  import Engine
  import EngineShape
  import EngineRenderer
  import Controls

  class Showcase {
    const engine: Engine.Engine
    /** The shape on show. */
    var shp: EngineShape.Shape
    /** Whether `update` spins the shape. */
    var rotate: bool
    var updateListeners: seq<Controls.Listener>
    /** The update-listener calls made so far, in order. */
    var listenerCalls: seq<Controls.Listener>

    /**
     * `new Showcase(canvas)`. The engine's constructor calls `start` before the showcase's own
     * fields exist, and the part of `start` before its first `await` (all of it) runs at once:
     * a new default cube is added as the only shape drawn. Then the field initialisers run and
     * put a new empty shape on show, so the cube is no longer the shape `update` puts back.
     */
    constructor(canvas: EngineRenderer.Canvas, meshes: EngineShape.ShapeName -> EngineShape.ShapeObject)
      ensures fresh(engine) && fresh(engine.renderer) && fresh(engine.input)
      ensures engine.state == Engine.Starting && engine.input.Valid()
      ensures |engine.shapes| == 1 && fresh(engine.shapes[0]) && engine.shapes[0].HasDefaults()
      ensures engine.shapes[0].points == meshes(EngineShape.Cube).points
      ensures engine.shapes[0].triangles == meshes(EngineShape.Cube).triangles
      ensures fresh(shp) && fresh(shp.origin) && fresh(shp.rotation) && shp.HasDefaults()
      ensures shp.points == [] && shp.triangles == [] && shp != engine.shapes[0]
      ensures rotate && updateListeners == [] && listenerCalls == []
    {
      var e := new Engine.Engine(canvas);
      // start(), as far as its first await
      var cube := EngineShape.CreateShape(meshes, EngineShape.Cube, null);
      e.shapes := e.shapes + [cube];
      engine := e;
      // the field initialisers
      updateListeners := [];
      shp := new EngineShape.Shape([], []);
      rotate := true;
      listenerCalls := [];
    }

    /**
     * `update`: while spinning, every angle of the shape turned by `60 * dt` degrees and kept
     * within a full turn; every listener called once, in registration order; the shape on show
     * put back as the first one drawn.
     */
    method Update(deltaTime: real)
      modifies shp.rotation, this`listenerCalls, engine`shapes
      ensures rotate ==>
        && shp.rotation.x == Controls.Wrap(old(shp.rotation.x) + Controls.SpinSpeed * deltaTime)
        && shp.rotation.y == Controls.Wrap(old(shp.rotation.y) + Controls.SpinSpeed * deltaTime)
        && shp.rotation.z == Controls.Wrap(old(shp.rotation.z) + Controls.SpinSpeed * deltaTime)
      ensures !rotate ==> unchanged(shp.rotation)
      ensures listenerCalls == old(listenerCalls) + updateListeners
      ensures engine.shapes == Controls.Reloaded(old(engine.shapes), shp)
    {
      if rotate {
        Controls.Spin(shp.rotation, deltaTime);
      }
      listenerCalls := Controls.CallListeners(updateListeners, listenerCalls);
      engine.shapes := Controls.Reloaded(engine.shapes, shp);
    }

    /** `shapeController.loadType`: a new shape of the named mesh, keeping the size, origin, rotation and colour. */
    method LoadType(meshes: EngineShape.ShapeName -> EngineShape.ShapeObject, name: EngineShape.ShapeName)
      modifies this`shp
      ensures fresh(shp)
      ensures shp.points == meshes(name).points && shp.triangles == meshes(name).triangles
      ensures shp.size == old(shp.size) && shp.colorObj == old(shp.colorObj)
      ensures shp.origin == old(shp.origin) && shp.rotation == old(shp.rotation)
    {
      shp := EngineShape.CreateShape(meshes, name, shp);
    }

    /** `shapeController.setSize`: a negative size is refused with a logged message. */
    method SetSize(size: real) returns (logged: Option<string>)
      modifies shp`size
      ensures size < 0.0 ==> shp.size == old(shp.size) && logged == Some(Controls.SizeError)
      ensures size >= 0.0 ==> shp.size == size && logged == None
    {
      logged := Controls.SetSize(shp, size);
    }

    /** `shapeController.setOrigin`: the shape adopts the given origin object. */
    method SetOrigin(origin: Coords)
      modifies shp`origin
      ensures shp.origin == origin
    {
      Controls.SetOrigin(shp, origin);
    }

    /** `shapeController.setColor`: the shape's `setColor`, with its log. */
    method SetColor(hex: string) returns (logged: Option<string>)
      modifies shp`colorObj
      ensures shp.colorObj == ColorFromHex(old(shp.colorObj), hex)
      ensures |hex| != 7 ==> logged == Some(HexErrorLog(hex))
      ensures |hex| == 7 ==> logged == None
    {
      logged := shp.SetColor(hex);
    }

    /** `shapeController.setRotation`: the shape adopts the given rotation object, its angles wrapped in place. */
    method SetRotation(rotation: Coords)
      modifies shp`rotation, rotation
      ensures shp.rotation == rotation
      ensures rotation.x == Controls.Wrap(old(rotation.x))
      ensures rotation.y == Controls.Wrap(old(rotation.y))
      ensures rotation.z == Controls.Wrap(old(rotation.z))
    {
      Controls.SetRotation(shp, rotation);
    }

    /** `shapeController.getOrigin`: the shape's origin object itself. */
    method GetOrigin() returns (origin: Coords)
      ensures origin == shp.origin
    {
      origin := Controls.GetOrigin(shp);
    }

    /** `shapeController.getRotation`: the shape's rotation object itself. */
    method GetRotation() returns (rotation: Coords)
      ensures rotation == shp.rotation
    {
      rotation := Controls.GetRotation(shp);
    }

    /** `addUpdateListener`: the listener is called last from the next update on. */
    method AddUpdateListener(fn: Controls.Listener)
      modifies this`updateListeners
      ensures updateListeners == old(updateListeners) + [fn]
    {
      updateListeners := updateListeners + [fn];
    }
  }

  /**
   * A new showcase and the first `update` of its game loop, which comes before the first
   * drawing: the empty shape on show replaces the cube, so the cube is never drawn.
   */
  method FirstUpdate(canvas: EngineRenderer.Canvas, meshes: EngineShape.ShapeName -> EngineShape.ShapeObject, deltaTime: real)
    returns (s: Showcase)
    ensures s.engine.shapes == [s.shp] && s.shp.points == [] && s.shp.triangles == []
  {
    s := new Showcase(canvas, meshes);
    s.Update(deltaTime);
  }
}
