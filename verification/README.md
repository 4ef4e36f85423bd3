# Flappy: world construction, pipe recycling and the running flag

A Dafny model of the game logic of a small React Native "flappy bird" game built on
matter-js and react-native-game-engine. It covers:

- **World construction** (App.tsx): `randomBetween`, `generatePipes` (a top-pipe height
  drawn in [100, MAX_HEIGHT/2 - 100], the bottom height `MAX_HEIGHT - top - GAP_SIZE`, the
  pair reversed on a coin flip) and the entities `setupWorld` builds — bird, floor, ceiling
  and two staggered pipe pairs — as axis-aligned rectangles given by centre and size.
- **The `Physics` system** (Physics.tsx): the touch filter that applies one upward force
  to the bird per `press` touch, and the loop that scrolls each of the four pipes one unit
  left or, once its centre is at or past `-PIPE_WIDH/2`, moves it to
  `MAX_WIDTH*2 - PIPE_WIDH/2`.
- **The running flag** (App.tsx): starts true, `game-over` sets it false, `reset` rebuilds
  the world and sets it true; while it is false the game engine runs no system.

Modules: `Constants` (the four screen constants as a `Config` record), `Geometry` (matter-js
rectangle bodies and entities), `World` (App.tsx construction), `Physics` (Physics.tsx),
`Game` (the running flag and input traces).

Random draws are parameters: each `generatePipes` call takes a `PipeDraw` holding the value
`Math.random()` returns for the height and the one compared with 0.5 for the swap. The
constants of Constants.tsx are parameters too, restricted to positive widths and
`MAX_HEIGHT/2 - 100 >= 100`. Geometry is exact `real` arithmetic.

Behaviour the model follows as the code has it:

- A recycled pipe keeps its y and its height: no new gap is drawn on respawn. As a
  consequence, when MAX_WIDTH is whole, a new game's course repeats exactly every
  `2*MAX_WIDTH + 1` ticks (`Game.CourseRepeats`).
- Every `press` touch applies a force; several presses in one tick apply several forces.
- There is no scoring.
- `randomBetween(min, max)` returns an integer in [min, max + 1). That is [min, max] only
  when `max` is whole. When MAX_HEIGHT/2 is not whole, the top height can be the integer just
  above `MAX_HEIGHT/2 - 100` (`World.FractionalMaxIsExceeded`).

## Model

| member | source | states |
|---|---|---|
| World.RandomBetween | App.tsx:18-20 | for a draw in [0,1) and min <= max the result is an integer >= min and < max + 1, so <= max when max is whole |
| World.RandomBetweenReaches | App.tsx:18-20 | every integer in [min, max + 1) is the result of some draw in [0,1) |
| World.TopHeightBound | App.tsx:34 | when MAX_HEIGHT/2 is whole, the drawn top height lies in [100, MAX_HEIGHT/2 - 100] |
| World.FractionalMaxIsExceeded | App.tsx:18-20 | with max = 100.5 (a 401-unit screen) and draw 0.9, randomBetween(100, max) returns 101 > max |
| World.GeneratePipes | App.tsx:33-43 | exactly two heights summing to MAX_HEIGHT - GAP_SIZE; the drawn whole height is first, or second when the coin reversed the pair |
| World.GeneratePipesReaches | App.tsx:33-43 | every admissible top height, in either order, with the bottom height completing it, is produced by some pair of draws |
| World.SwapOnlyReorders | App.tsx:37-41 | the same height draw under the other coin outcome yields the same two heights reversed |
| World.SetupWorld | App.tsx:46-116 | bird 50x50 at (MAX_WIDTH/4, MAX_HEIGHT/2); ceiling over y in [0,50] and floor over [MAX_HEIGHT-50, MAX_HEIGHT], full width; each pair shares one x, its top pipe spans [0, h1] and bottom pipe [MAX_HEIGHT-h2, MAX_HEIGHT] with exactly GAP_SIZE between; the first pair's right edge is at MAX_WIDTH and the second pair is MAX_WIDTH further right; every recorded size equals its body's size; the heights are those generatePipes returned |
| Physics.PressForces | Physics.tsx:8-10 | one force (0, -0.1) at the bird's centre per press touch, as many as the touch list holds presses |
| Physics.NoPressNoForce | Physics.tsx:8-10 | no force is applied exactly when no touch is a press |
| Physics.PressForcesAppend | Physics.tsx:8-10 | the forces of two touch batches are the forces of each batch in order |
| Physics.RecyclePipe | Physics.tsx:13-17 | a pipe right of -PIPE_WIDH/2 moves to x - 1; one at or left of it goes to exactly MAX_WIDTH*2 - PIPE_WIDH/2 and is not also moved; y, size and static flag never change |
| Physics.RecyclePipes | Physics.tsx:12-19 | the loop recycles each of the pipes independently and keeps their number |
| Physics.RecycleKeepsAlignment | Physics.tsx:12-19 | two pipes with equal x before a tick have equal x after it |
| Physics.RecycleKeepsRange | Physics.tsx:13-16 | if every pipe x is in (-PIPE_WIDH/2 - 1, MAX_WIDTH*2 - PIPE_WIDH/2] before a tick, it is after |
| Physics.PhysicsSystem | Physics.tsx:4-19 | only the pipes move; bird, floor, ceiling and engine entries are unchanged; one flap force per press touch |
| Physics.PhysicsKeepsWorldInv | Physics.tsx:12-19 | a tick keeps the pairs aligned and in range, their gap exactly GAP_SIZE, boundaries in place and recorded sizes matching bodies |
| Physics.Slide | Physics.tsx:15-16 | while it stays right of the threshold a pipe moves exactly n units in n ticks |
| Physics.PipeRepeats | Physics.tsx:12-19 | a pipe on its cycle is back in the same place with the same shape after 2*MAX_WIDTH + 1 ticks |
| Game.SetupPipesOnCourse | App.tsx:71-99 | the pipes of a new world start on their recycling cycle |
| Game.TicksMovePipes | Physics.tsx:12-19 | after n ticks each pipe is where n single-pipe recycling steps put it, whatever the touches |
| Game.CourseRepeats | Physics.tsx:12-19 | since heights are never redrawn, a new game's pipes are exactly the initial ones again after 2*MAX_WIDTH + 1 ticks |
| Game.Start | App.tsx:117-121 | the game starts running, with the bird at its start and the world invariant holding |
| Game.OnEvent | App.tsx:124-128 | a game-over event stops the game; any other event leaves the game unchanged; the world is never touched |
| Game.Reset | App.tsx:129-132 | reset yields a running game over a freshly built world, the same game the app starts with |
| Game.ResetForgetsPast | App.tsx:129-132 | the game after a reset does not depend on the game it replaced |
| Game.Advance | App.tsx:136-143 | a stopped game is frozen and applies no force; a running one keeps running and applies one force per press |
| Game.Step | App.tsx:102-132 | every input keeps the world invariant; a collision start stops the game; a reset makes it run |
| Game.RunKeepsWorldInv | App.tsx:117-132 | the world invariant holds after any sequence of ticks, events and resets |
| Game.StoppedIsFrozen | App.tsx:141 | once stopped, the game stays exactly as it is under any inputs until reset |

## Left out

- `Engine.update` (Physics.tsx:21): matter-js integration, gravity and the effect of a force on velocity belong to a foreign library. The model's tick ends before it, so the bird never moves in the model.
- Collision detection: matter-js raises `collisionStart` (App.tsx:102-105). It is an abstract `CollisionStart` input that dispatches `game-over`.
- `Math.random`: every draw is a parameter, restricted to [0, 1).
- Constants.tsx is not part of this model: its four values are parameters.
- JavaScript floating point: positions and heights are exact reals, so rounding in `x - 1`, `/ 2` and `Math.floor` of a product is not modelled.
- React and React Native plumbing: `useOnce`, `useState`, the `GameEngine` component's own loop, the global `gameEngine` reference, the game-over overlay and the styles (App.tsx:22-31, 133-188). Of the component only the `running` prop's effect (no system runs while it is false) is modelled, in `Game.Advance`.
- The `color` and `renderer` fields of the entities (App.tsx:108-114), and Bird.tsx and Pipe.tsx: presentation only.
- The engine and world objects `setupWorld` creates are an opaque `EngineId`.
- Scoring and redrawing pipe heights on respawn: the code has neither.
