/** The `running` flag of App.tsx and what drives it: the `game-over` event raised on a
    collision, and the reset button that rebuilds the world. */
module Game {
  import opened Constants
  import opened World
  import opened Physics

  /** The two values of `running`. */
  datatype RunState = Running | Stopped

  /** An event dispatched to `onEvent`; `kind` is its `type`. */
  datatype Event = Event(kind: string)

  /** What the `collisionStart` handler dispatches, whatever the colliding pair. */
  const GameOver: Event := Event("game-over")

  datatype Game = Game(state: RunState, world: World)

  /** What happens to the game between two observations: one engine tick with the touches
      of that tick, the engine reporting a collision start, some other dispatched event,
      or the reset button (with the engine and draws its `setupWorld` uses). */
  datatype Input =
    | Frame(touches: seq<Touch>)
    | CollisionStart
    | Dispatch(event: Event)
    | ResetPressed(engine: EngineId, first: PipeDraw, second: PipeDraw)

  /** The game as the app starts it: `running` is true and the entities are built once by
      `setupWorld`. */
  function Start(cfg: Config, engine: EngineId, first: PipeDraw, second: PipeDraw): (g: Game)
    requires cfg.Valid() && first.Valid() && second.Valid()
    ensures g.state == Running
    ensures BirdAtStart(cfg, g.world.bird)
    ensures WorldInv(cfg, g.world)
  {
    Game(Running, SetupWorld(cfg, engine, first, second))
  }

  /** `onEvent`: a `game-over` event stops the game; any other event changes nothing.
      The entities are never touched. */
  function OnEvent(g: Game, e: Event): (r: Game)
    ensures r.world == g.world
    ensures e.kind == "game-over" ==> r.state == Stopped
    ensures e.kind != "game-over" ==> r == g
  {
    if e.kind == "game-over" then g.(state := Stopped) else g
  }

  /** `reset`: swaps in a freshly built world and sets `running`; nothing of the old game
      survives. */
  function Reset(cfg: Config, previous: Game, engine: EngineId, first: PipeDraw, second: PipeDraw): (r: Game)
    requires cfg.Valid() && first.Valid() && second.Valid()
    ensures r.state == Running
    ensures BirdAtStart(cfg, r.world.bird)
    ensures WorldInv(cfg, r.world)
    ensures r == Start(cfg, engine, first, second)
  {
    Game(Running, SetupWorld(cfg, engine, first, second))
  }

  /** One engine tick: the game engine runs its systems only while `running` is true, so
      a stopped game is frozen and applies no force. */
  function Advance(cfg: Config, g: Game, touches: seq<Touch>): (r: (Game, seq<ForceApplication>))
    ensures r.0.state == g.state
    ensures g.state == Stopped ==> r.0 == g && r.1 == []
    ensures g.state == Running ==> r.0.world.bird == g.world.bird && |r.1| == multiset(Types(touches))["press"]
  {
    match g.state
    case Stopped => (g, [])
    case Running =>
      var out := PhysicsSystem(cfg, g.world, touches);
      (g.(world := out.world), out.forces)
  }

  predicate InputValid(i: Input) {
    i.ResetPressed? ==> i.first.Valid() && i.second.Valid()
  }

  /** The game after one input. The world invariant is kept by every input. */
  function Step(cfg: Config, g: Game, i: Input): (r: Game)
    requires cfg.Valid() && InputValid(i)
    ensures WorldInv(cfg, g.world) ==> WorldInv(cfg, r.world)
    ensures i.CollisionStart? ==> r.state == Stopped
    ensures i.ResetPressed? ==> r.state == Running
  {
    match i
    case Frame(touches) =>
      var r := Advance(cfg, g, touches).0;
      assert WorldInv(cfg, g.world) ==> WorldInv(cfg, r.world) by {
        if WorldInv(cfg, g.world) && g.state == Running {
          PhysicsKeepsWorldInv(cfg, g.world, touches);
        }
      }
      r
    case CollisionStart => OnEvent(g, GameOver)
    case Dispatch(e) => OnEvent(g, e)
    case ResetPressed(engine, first, second) => Reset(cfg, g, engine, first, second)
  }

  predicate InputsValid(inputs: seq<Input>) {
    forall k :: 0 <= k < |inputs| ==> InputValid(inputs[k])
  }

  /** The game after a sequence of inputs, in order. */
  function Run(cfg: Config, g: Game, inputs: seq<Input>): Game
    requires cfg.Valid() && InputsValid(inputs)
    decreases |inputs|
  {
    if |inputs| == 0 then g else Run(cfg, Step(cfg, g, inputs[0]), inputs[1..])
  }

  /** The world invariant holds after any sequence of inputs from a started game. */
  lemma {:induction false} RunKeepsWorldInv(cfg: Config, g: Game, inputs: seq<Input>)
    requires cfg.Valid() && InputsValid(inputs)
    requires WorldInv(cfg, g.world)
    ensures WorldInv(cfg, Run(cfg, g, inputs).world)
    decreases |inputs|
  {
    if |inputs| > 0 {
      RunKeepsWorldInv(cfg, Step(cfg, g, inputs[0]), inputs[1..]);
    }
  }

  /** A stopped game stays exactly as it is, whatever ticks and events arrive, until the
      reset button is pressed. */
  lemma {:induction false} StoppedIsFrozen(cfg: Config, g: Game, inputs: seq<Input>)
    requires cfg.Valid() && InputsValid(inputs)
    requires g.state == Stopped
    requires forall k :: 0 <= k < |inputs| ==> !inputs[k].ResetPressed?
    ensures Run(cfg, g, inputs) == g
    decreases |inputs|
  {
    if |inputs| > 0 {
      assert Step(cfg, g, inputs[0]) == g;
      StoppedIsFrozen(cfg, g, inputs[1..]);
    }
  }

  /** Reset discards the past: the game after a reset does not depend on the game it
      replaced. */
  lemma ResetForgetsPast(cfg: Config, g1: Game, g2: Game, i: Input)
    requires cfg.Valid() && InputValid(i) && i.ResetPressed?
    ensures Step(cfg, g1, i) == Step(cfg, g2, i) == Start(cfg, i.engine, i.first, i.second)
  {
  }

  /** The world after one tick per batch of touches, while running. */
  function Ticks(cfg: Config, w: World, batches: seq<seq<Touch>>): World
    decreases |batches|
  {
    if |batches| == 0 then w else Ticks(cfg, PhysicsSystem(cfg, w, batches[0]).world, batches[1..])
  }

  lemma {:induction false} TicksMovePipes(cfg: Config, w: World, batches: seq<seq<Touch>>)
    ensures |Ticks(cfg, w, batches).pipes| == |w.pipes|
    ensures forall i :: 0 <= i < |w.pipes| ==>
              Ticks(cfg, w, batches).pipes[i] == RecycleN(cfg, w.pipes[i], |batches|)
    decreases |batches|
  {
    if |batches| > 0 {
      var next := PhysicsSystem(cfg, w, batches[0]).world;
      TicksMovePipes(cfg, next, batches[1..]);
    }
  }

  /** Respawned pipes keep their heights, so the course a new game shows repeats itself
      exactly every `Period` ticks, whatever the player does. */
  lemma CourseRepeats(cfg: Config, engine: EngineId, first: PipeDraw, second: PipeDraw,
                      batches: seq<seq<Touch>>)
    requires cfg.Valid() && cfg.WholeWidth() && first.Valid() && second.Valid()
    requires |batches| == Period(cfg)
    ensures Ticks(cfg, SetupWorld(cfg, engine, first, second), batches).pipes
         == SetupWorld(cfg, engine, first, second).pipes
  {
    var w := SetupWorld(cfg, engine, first, second);
    TicksMovePipes(cfg, w, batches);
    var after := Ticks(cfg, w, batches);
    forall i | 0 <= i < 4
      ensures after.pipes[i] == w.pipes[i]
    {
      SetupPipesOnCourse(cfg, w, i);
      PipeRepeats(cfg, w.pipes[i]);
    }
  }

  /** A new game's pipes start on their cycle: the first pair one screen width and the
      second pair zero widths left of the respawn x. */
  lemma SetupPipesOnCourse(cfg: Config, w: World, i: int)
    requires cfg.Valid() && cfg.WholeWidth()
    requires |w.pipes| == 4 && 0 <= i < 4
    requires w.pipes[0].X() == w.pipes[1].X() == cfg.maxWidth - cfg.pipeWidth / 2.0
    requires w.pipes[2].X() == w.pipes[3].X() == cfg.RespawnX()
    ensures OnCourse(cfg, w.pipes[i].X())
  {
  }
}
