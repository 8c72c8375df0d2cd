/**
 * `Game`: an engine whose start puts one yellow shape 2000 units down the z axis, and whose
 * update moves the camera with the held keys. The subclass is modelled as a class holding its
 * engine; the shape the start loads from a `.obj` file arrives as a parameter.
 */
module Game {
  import opened Wrappers
  import opened ShapeCommon
  import Engine
  import EngineShape
  import Controls
  import EngineRenderer

  /** The colour the loaded shape is painted. */
  const Yellow := "#FFFF00"

  /** `#FFFF00` sets the red and green channels full and the blue one off. */
  lemma YellowChannels(current: Color)
    ensures ColorFromHex(current, Yellow) == Color(Yellow, Some(255), Some(255), Some(0))
  {
    var c := ColorFromHex(current, Yellow);
    ChannelAt(current, Yellow, 1);
    ChannelAt(current, Yellow, 3);
    ChannelAt(current, Yellow, 5);
    assert c.r == Channel(c, 1) && c.g == Channel(c, 3) && c.b == Channel(c, 5);
  }

  /** `shp.setColor('#FFFF00')`: the shape's colour becomes full red and green, no blue. */
  method PaintYellow(shp: EngineShape.Shape)
    modifies shp`colorObj
    ensures shp.colorObj == Color(Yellow, Some(255), Some(255), Some(0))
  {
    var before := shp.colorObj;
    var logged := shp.SetColor(Yellow);
    YellowChannels(before);
  }

  class Game {
    const engine: Engine.Engine

    /** A game on a canvas: a new engine, with nothing else of its own. */
    constructor(canvas: EngineRenderer.Canvas)
      ensures fresh(engine) && fresh(engine.renderer) && fresh(engine.renderer.camera) && fresh(engine.input)
      ensures engine.state == Engine.Starting && engine.shapes == [] && engine.input.Valid()
    {
      engine := new Engine.Engine(canvas);
    }

    /**
     * `start`: the loaded shape painted yellow, moved to z = 2000 (x and y stay) and added as the
     * last shape drawn.
     */
    method Start(shp: EngineShape.Shape)
      modifies shp`colorObj, shp.origin, engine`shapes
      ensures shp.colorObj == Color(Yellow, Some(255), Some(255), Some(0))
      ensures shp.origin.z == 2000.0 && shp.origin.x == old(shp.origin.x) && shp.origin.y == old(shp.origin.y)
      ensures engine.shapes == old(engine.shapes) + [shp]
    {
      PaintYellow(shp);
      shp.origin.z := 2000.0;
      engine.shapes := engine.shapes + [shp];
    }

    /** `update`: the camera moved and turned by the held keys; nothing else changes. */
    method Update(deltaTime: real)
      modifies engine.renderer.camera`position, engine.renderer.camera`yaw
      ensures engine.renderer.camera.position ==
        Controls.Walked(old(engine.renderer.camera.position), engine.renderer.camera.lookDirection, deltaTime, engine.input.heldKeys)
      ensures engine.renderer.camera.yaw == old(engine.renderer.camera.yaw) + Controls.Push(engine.input.heldKeys, "e", "q")
    {
      Controls.MoveCamera(engine.renderer.camera, engine.input, deltaTime);
    }
  }
}
