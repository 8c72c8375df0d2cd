/**
 * The `Engine` base class: its life-cycle state, the frame throttle of its game loop and the
 * drawing of every shape once per frame. The life cycle is driven by three calls: the settling
 * of the `start` promise the constructor waits on, `run` and `stop`. The animation frames the
 * browser schedules are given as plain identifiers, and the `update` hook of a concrete engine
 * runs between `Tick` and `DrawFrame`.
 */
module Engine {
  import opened Wrappers
  import opened JsNumber
  import opened EngineRenderer
  import EngineShape
  import EngineInput

  /** The states an engine is in; `getState` reports them by their position, 0 to 5. */
  datatype EngineState = Starting | Preparing | Ready | Running | Stopped | Failed

  /** A call of one of the engine's hooks, with the state the engine was in at that moment. */
  datatype Hook = OnFail(error: string, seen: EngineState) | OnReady(seen: EngineState)

  /** The time below which a new animation frame is skipped: sixty thousandths of a millisecond. */
  const TimeThreshold: real := 60.0 / 1000.0

  const RunError := "Cannot run engine when it is not in \"ready\" or \"stopped\" state"
  const StopError := "Cannot stop engine when it is not in \"running\" state"

  /** `run` from a state: `running` from `ready` or `stopped`, a throw from any other. */
  function RunStep(s: EngineState): (r: Result<EngineState, string>)
    ensures r.Success? <==> s == Ready || s == Stopped
    ensures r.Success? ==> r.value == Running
    ensures r.Failure? ==> r.error == RunError
  {
    if s != Ready && s != Stopped then Failure(RunError) else Success(Running)
  }

  /** `stop` from a state: a throw unless running, and otherwise no change of state at all. */
  function StopStep(s: EngineState): (r: Result<EngineState, string>)
    ensures r.Success? <==> s == Running
    ensures r.Success? ==> r.value == s
    ensures r.Failure? ==> r.error == StopError
  {
    if s != Running then Failure(StopError) else Success(s)
  }

  /** A successful `stop` leaves the engine running, so a `run` right after it throws. */
  lemma StopThenRunThrows(s: EngineState)
    requires StopStep(s).Success?
    ensures StopStep(s).value == Running && RunStep(StopStep(s).value).Failure?
  {
  }

  /** The life-cycle calls: the settling of `start`, `run` and `stop`. */
  datatype Call = Settle | Run | Stop

  /** The state after a sequence of calls; a call that throws leaves the state as it was. */
  function After(s: EngineState, calls: seq<Call>): EngineState
  {
    if |calls| == 0 then s
    else
      var before := After(s, calls[..|calls| - 1]);
      match calls[|calls| - 1]
      case Settle => Ready
      case Run => if RunStep(before).Success? then RunStep(before).value else before
      case Stop => if StopStep(before).Success? then StopStep(before).value else before
  }

  /**
   * From `starting`, whatever calls follow, the engine rests only in `starting`, `ready` or
   * `running`: nothing ever sets `preparing` or `stopped`, and `failed` is always overwritten.
   */
  lemma {:induction false} ReachableStates(calls: seq<Call>)
    ensures After(Starting, calls) in {Starting, Ready, Running}
  {
    if |calls| > 0 {
      ReachableStates(calls[..|calls| - 1]);
    }
  }

  /** Whether a game-loop call at `currentTime` is throttled, or else how many seconds `update` is given. */
  function Throttle(previousTime: real, currentTime: real): Option<real>
  {
    var deltaTimeInMs := currentTime - previousTime;
    if deltaTimeInMs < TimeThreshold then None else Some(deltaTimeInMs / 1000.0)
  }

  /**
   * A call that is not throttled comes strictly later than the previous update, and gives
   * `update` a positive time step; a second call at the same time is always throttled.
   */
  lemma ThrottleAdvances(previousTime: real, currentTime: real)
    ensures Throttle(previousTime, currentTime).Some? ==>
      currentTime > previousTime && Throttle(previousTime, currentTime).value >= TimeThreshold / 1000.0
    ensures Throttle(currentTime, currentTime).None?
  {
  }

  /** A drawing outcome per shape: the commands of its scene, or the error its drawing throws. */
  type Outcomes = seq<Result<seq<Command>, string>>

  /** The outcome of drawing each of the frames, in order. */
  function Scenes(m: MathLib, frames: seq<Frame>): (outcomes: Outcomes)
    ensures |outcomes| == |frames|
  {
    seq(|frames|, i requires 0 <= i < |frames| => Scene(m, frames[i]))
  }

  /**
   * What drawing a frame's shapes puts on the canvas, one scene after another, and the error of
   * the first shape whose drawing throws, which ends the frame.
   */
  function Drawn(outcomes: Outcomes): (r: (seq<Command>, Option<string>))
  {
    if |outcomes| == 0 then ([], None)
    else
      var before := Drawn(outcomes[..|outcomes| - 1]);
      if before.1.Some? then before
      else
        match outcomes[|outcomes| - 1]
        case Failure(e) => (before.0, Some(e))
        case Success(commands) => (before.0 + commands, None)
  }

  /**
   * A frame is drawn completely exactly when every shape can be drawn, and then the canvas holds
   * every scene in order; otherwise the error is that of the first shape that throws.
   */
  lemma {:induction false} DrawnErrors(outcomes: Outcomes)
    ensures Drawn(outcomes).1.None? <==> forall k | 0 <= k < |outcomes| :: outcomes[k].Success?
    ensures Drawn(outcomes).1.Some? ==>
      exists k | 0 <= k < |outcomes| ::
        && outcomes[k].Failure? && Drawn(outcomes).1.value == outcomes[k].error
        && forall j | 0 <= j < k :: outcomes[j].Success?
  {
    if |outcomes| > 0 {
      var n := |outcomes| - 1;
      var front := outcomes[..n];
      DrawnErrors(front);
      assert forall k | 0 <= k < n :: front[k] == outcomes[k];
      if Drawn(front).1.Some? {
        var k :| 0 <= k < |front| && front[k].Failure? && Drawn(front).1.value == front[k].error
                 && forall j | 0 <= j < k :: front[j].Success?;
        assert outcomes[k].Failure? && Drawn(outcomes).1.value == outcomes[k].error
               && forall j | 0 <= j < k :: outcomes[j].Success?;
      }
    }
  }

  /** Drawing one more shape after a frame prefix drawn without a throw. */
  lemma DrawnStep(outcomes: Outcomes, k: nat)
    requires k < |outcomes| && Drawn(outcomes[..k]).1.None?
    ensures Drawn(outcomes[..k + 1]) ==
      match outcomes[k]
      case Failure(e) => (Drawn(outcomes[..k]).0, Some(e))
      case Success(commands) => (Drawn(outcomes[..k]).0 + commands, None)
  {
    assert outcomes[..k + 1][..k] == outcomes[..k];
  }

  /** Once a frame prefix has thrown, drawing the rest adds nothing and keeps that error. */
  lemma {:induction false} DrawnStick(outcomes: Outcomes, k: nat)
    requires k <= |outcomes| && Drawn(outcomes[..k]).1.Some?
    ensures Drawn(outcomes) == Drawn(outcomes[..k])
    decreases |outcomes|
  {
    if k < |outcomes| {
      var front := outcomes[..|outcomes| - 1];
      assert front[..k] == outcomes[..k];
      DrawnStick(front, k);
    } else {
      assert outcomes[..k] == outcomes;
    }
  }

  /** The engine every game extends. */
  class Engine {
    const renderer: Renderer
    const input: EngineInput.Input
    /** The shapes drawn every frame, in order. */
    var shapes: seq<EngineShape.Shape>
    var previousTime: real
    var state: EngineState
    /** The animation frame last requested, if any. */
    var animationframeId: Option<int>
    /** The `onfail` and `onready` calls made so far. */
    var hooks: seq<Hook>

    /**
     * A new engine: starting, with no shapes, a camera at the origin looking along z with no yaw,
     * a renderer on the canvas sharing that camera, and an input registry holding no key.
     */
    constructor(canvas: Canvas)
      ensures state == Starting && previousTime == 0.0 && animationframeId == None
      ensures shapes == [] && hooks == []
      ensures fresh(renderer) && fresh(renderer.camera) && renderer.canvas == canvas
      ensures renderer.camera.position == [0.0, 0.0, 0.0] && renderer.camera.lookDirection == [0.0, 0.0, 1.0]
      ensures renderer.camera.yaw == 0.0
      ensures fresh(input) && input.Valid() && input.heldKeys == {}
    {
      var camera := new Camera([0.0, 0.0, 0.0], [0.0, 0.0, 1.0], 0.0);
      renderer := new Renderer(canvas, camera);
      input := new EngineInput.Input();
      shapes := [];
      previousTime := 0.0;
      state := Starting;
      animationframeId := None;
      hooks := [];
    }

    /**
     * The continuation of the constructor's `start()` promise: on a rejection the engine fails
     * and calls `onfail`; then, in either case, it becomes ready and calls `onready`.
     */
    method Settle(outcome: Result<(), string>)
      modifies this`state, this`hooks
      ensures state == Ready
      ensures outcome.Failure? ==> hooks == old(hooks) + [OnFail(outcome.error, Failed), OnReady(Ready)]
      ensures outcome.Success? ==> hooks == old(hooks) + [OnReady(Ready)]
    {
      if outcome.Failure? {
        state := Failed;
        hooks := hooks + [OnFail(outcome.error, state)];
      }
      state := Ready;
      hooks := hooks + [OnReady(state)];
    }

    /** `run`: from `ready` or `stopped`, starts running and requests the first frame; otherwise throws. */
    method Run(frameId: int) returns (r: Result<(), string>)
      modifies this`state, this`animationframeId
      ensures r.Success? <==> RunStep(old(state)).Success?
      ensures r.Success? ==> state == RunStep(old(state)).value && animationframeId == Some(frameId)
      ensures r.Failure? ==>
        r.error == RunStep(old(state)).error && state == old(state) && animationframeId == old(animationframeId)
    {
      if state != Ready && state != Stopped {
        return Failure(RunError);
      }
      state := Running;
      animationframeId := Some(frameId);
      return Success(());
    }

    /**
     * `stop`: throws unless running; otherwise cancels the frame last requested, if any, and
     * returns its identifier. The state is never changed.
     */
    method Stop() returns (r: Result<Option<int>, string>)
      ensures r.Success? <==> StopStep(state).Success?
      ensures r.Success? ==> r.value == animationframeId
      ensures r.Failure? ==> r.error == StopError
    {
      if state != Running {
        return Failure(StopError);
      }
      if animationframeId == None {
        return Success(None);
      }
      return Success(animationframeId);
    }

    /** `getState`. */
    function GetState(): EngineState
      reads this
    {
      state
    }

    /**
     * The first half of `gameLoop(currentTime)`: a call too soon after the last update only
     * requests the next frame; otherwise the time is taken as the last update and the elapsed
     * seconds are returned for `update`.
     */
    method Tick(currentTime: real, frameId: int) returns (deltaTime: Option<real>)
      modifies this`previousTime, this`animationframeId
      ensures deltaTime == Throttle(old(previousTime), currentTime)
      ensures deltaTime.None? ==> previousTime == old(previousTime) && animationframeId == Some(frameId)
      ensures deltaTime.Some? ==> previousTime == currentTime && animationframeId == old(animationframeId)
      ensures previousTime >= old(previousTime)
    {
      var deltaTimeInMs := currentTime - previousTime;
      if deltaTimeInMs < TimeThreshold {
        animationframeId := Some(frameId);
        return None;
      }
      previousTime := currentTime;
      var deltaTimeInS := deltaTimeInMs / 1000.0;
      return Some(deltaTimeInS);
    }

    /** What the renderer reads from each shape to draw it, in the order of the shapes. */
    function Frames(): (frames: seq<Frame>)
      reads this, renderer.camera, set s | s in shapes, set s | s in shapes :: s.origin,
            set s | s in shapes :: s.rotation
      ensures |frames| == |shapes|
    {
      seq(|shapes|, i requires 0 <= i < |shapes|
                      reads this, renderer.camera, set s | s in shapes, set s | s in shapes :: s.origin,
                            set s | s in shapes :: s.rotation =>
        renderer.FrameOf(shapes[i]))
    }

    /** One pass of the drawing loop: the next shape drawn, or its throw, as its scene says. */
    method DrawNext(m: MathLib, frames: seq<Frame>, outcomes: Outcomes, i: nat) returns (drawn: Result<(), string>)
      requires |frames| == |shapes| && i < |shapes| && outcomes == Scenes(m, frames)
      requires forall j | i <= j < |shapes| :: renderer.FrameOf(shapes[j]) == frames[j]
      requires renderer.canvas.commands == Drawn(outcomes[..i]).0 && Drawn(outcomes[..i]).1.None?
      modifies renderer.camera`lookDirection, renderer.canvas`commands
      ensures forall j | i < j < |shapes| :: renderer.FrameOf(shapes[j]) == frames[j]
      ensures renderer.camera.lookDirection == LookDirection(m, renderer.camera.yaw)
      ensures renderer.canvas.commands == Drawn(outcomes[..i + 1]).0
      ensures drawn.Success? <==> Drawn(outcomes[..i + 1]).1.None?
      ensures drawn.Failure? ==> drawn.error == Drawn(outcomes[..i + 1]).1.value
    {
      DrawnStep(outcomes, i);
      var result := renderer.DrawShape(m, shapes[i]);
      if result.Failure? {
        return Failure(result.error);
      }
      return Success(());
    }

    /**
     * The second half of `gameLoop`: clears the canvas and draws every shape in order; the first
     * shape that throws ends the frame, otherwise the next frame is requested.
     */
    method DrawFrame(m: MathLib, frameId: int) returns (r: Result<(), string>)
      modifies renderer.camera`lookDirection, renderer.canvas`commands, this`animationframeId
      ensures renderer.canvas.commands == Drawn(Scenes(m, old(Frames()))).0
      ensures r.Success? <==> Drawn(Scenes(m, old(Frames()))).1.None?
      ensures r.Failure? ==> r.error == Drawn(Scenes(m, old(Frames()))).1.value && animationframeId == old(animationframeId)
      ensures r.Success? ==> animationframeId == Some(frameId)
      ensures |shapes| > 0 ==> renderer.camera.lookDirection == LookDirection(m, renderer.camera.yaw)
      ensures |shapes| == 0 ==> renderer.camera.lookDirection == old(renderer.camera.lookDirection)
    {
      var frames := Frames();
      var outcomes := Scenes(m, frames);
      renderer.Clear();
      assert outcomes[..0] == [];
      for i := 0 to |shapes|
        invariant renderer.canvas.commands == Drawn(outcomes[..i]).0 && Drawn(outcomes[..i]).1.None?
        invariant forall j | i <= j < |shapes| :: renderer.FrameOf(shapes[j]) == frames[j]
        invariant animationframeId == old(animationframeId)
        invariant i > 0 ==> renderer.camera.lookDirection == LookDirection(m, renderer.camera.yaw)
        invariant i == 0 ==> renderer.camera.lookDirection == old(renderer.camera.lookDirection)
      {
        var drawn := DrawNext(m, frames, outcomes, i);
        if drawn.Failure? {
          DrawnStick(outcomes, i + 1);
          return Failure(drawn.error);
        }
      }
      assert outcomes[..|shapes|] == outcomes;
      animationframeId := Some(frameId);
      return Success(());
    }
  }
}
