/** The `Physics` system of Physics.tsx, run once per tick: the touch filter that turns
    presses into forces on the bird, and the loop that scrolls or recycles the four pipes.
    `Engine.update` is not part of this model; the result is the world as the system
    leaves it just before that call. */
module Physics {
  import opened Constants
  import opened Geometry
  import opened World

  /** A touch event as the game engine reports it; `kind` is its `type`: one of "start", "move",
      "end", "press" or "long-press". */
  datatype Touch = Touch(kind: string)

  /** One `Body.applyForce(bird, point, force)` call. */
  datatype ForceApplication = ForceApplication(point: Vec, force: Vec)

  /** The force one press applies to the bird: straight up. */
  const Flap: Vec := Vec(0.0, -0.1)

  function Types(touches: seq<Touch>): seq<string> {
    seq(|touches|, i requires 0 <= i < |touches| => touches[i].kind)
  }

  /** `touches.filter(t => t.type === 'press').forEach(...)`: one application of `Flap`
      at the bird's centre for every press touch, and nothing for any other touch. */
  function PressForces(bird: Body, touches: seq<Touch>): (r: seq<ForceApplication>)
    ensures |r| == multiset(Types(touches))["press"]
    ensures forall i :: 0 <= i < |r| ==> r[i] == ForceApplication(bird.position, Flap)
    decreases |touches|
  {
    if |touches| == 0 then []
    else
      assert Types(touches) == [touches[0].kind] + Types(touches[1..]);
      var here := if touches[0].kind == "press" then [ForceApplication(bird.position, Flap)] else [];
      here + PressForces(bird, touches[1..])
  }

  /** No force is applied exactly when no touch is a press. */
  lemma NoPressNoForce(bird: Body, touches: seq<Touch>)
    ensures PressForces(bird, touches) == [] <==> forall i :: 0 <= i < |touches| ==> touches[i].kind != "press"
  {
  }

  /** Presses in two batches yield the forces of each batch, in order. */
  lemma {:induction false} PressForcesAppend(bird: Body, a: seq<Touch>, b: seq<Touch>)
    ensures PressForces(bird, a + b) == PressForces(bird, a) + PressForces(bird, b)
    decreases |a|
  {
    if |a| == 0 {
      assert a + b == b;
    } else {
      assert (a + b)[1..] == a[1..] + b;
      PressForcesAppend(bird, a[1..], b);
    }
  }

  /** One pass of the loop body for one pipe: a pipe whose centre is at or left of
      `-PIPE_WIDH/2` is moved to the respawn x, any other pipe one unit left. */
  function RecyclePipe(cfg: Config, pipe: Entity): (r: Entity)
    ensures r.size == pipe.size
    ensures r.body.position.y == pipe.body.position.y
    ensures r.body.width == pipe.body.width && r.body.height == pipe.body.height
    ensures r.body.isStatic == pipe.body.isStatic
    ensures pipe.X() > cfg.Threshold() ==> r.X() == pipe.X() - 1.0
    ensures pipe.X() <= cfg.Threshold() ==> r.X() == cfg.RespawnX()
  {
    var body := pipe.body;
    if body.position.x <= cfg.Threshold() then
      pipe.(body := SetPosition(body, Vec(cfg.RespawnX(), body.position.y)))
    else
      pipe.(body := Translate(body, Vec(-1.0, 0.0)))
  }

  /** The `for (i = 1; i <= 4; i++)` loop: every pipe recycled, independently. */
  function RecyclePipes(cfg: Config, pipes: seq<Entity>): (r: seq<Entity>)
    ensures |r| == |pipes|
    ensures forall i :: 0 <= i < |pipes| ==> r[i] == RecyclePipe(cfg, pipes[i])
  {
    seq(|pipes|, i requires 0 <= i < |pipes| => RecyclePipe(cfg, pipes[i]))
  }

  /** Pipes at one x before a tick are at one x after it. */
  lemma RecycleKeepsAlignment(cfg: Config, pipes: seq<Entity>, i: int, j: int)
    requires 0 <= i < |pipes| && 0 <= j < |pipes|
    requires pipes[i].X() == pipes[j].X()
    ensures RecyclePipes(cfg, pipes)[i].X() == RecyclePipes(cfg, pipes)[j].X()
  {
  }

  /** The x-range (Threshold - 1, RespawnX] is closed under a tick. */
  lemma RecycleKeepsRange(cfg: Config, pipes: seq<Entity>)
    requires cfg.Valid()
    requires PipesInRange(cfg, pipes)
    ensures PipesInRange(cfg, RecyclePipes(cfg, pipes))
  {
  }

  /** What the system hands back: the entities, and the forces it applied to the bird. */
  datatype Outcome = Outcome(world: World, forces: seq<ForceApplication>)

  /** The `Physics` system up to `Engine.update`. Only the four pipes move; the bird,
      floor, ceiling and engine entries are left as they are. */
  function PhysicsSystem(cfg: Config, w: World, touches: seq<Touch>): (r: Outcome)
    ensures r.world.physics == w.physics
    ensures r.world.bird == w.bird && r.world.floor == w.floor && r.world.ceiling == w.ceiling
    ensures |r.world.pipes| == |w.pipes|
    ensures forall i :: 0 <= i < |w.pipes| ==> r.world.pipes[i] == RecyclePipe(cfg, w.pipes[i])
    ensures |r.forces| == multiset(Types(touches))["press"]
    ensures forall i :: 0 <= i < |r.forces| ==> r.forces[i] == ForceApplication(w.bird.body.position, Flap)
  {
    var forces := PressForces(w.bird.body, touches);
    Outcome(w.(pipes := RecyclePipes(cfg, w.pipes)), forces)
  }

  /** A tick keeps the world invariant: pairs stay aligned, in range, with the same
      heights and gap, and every recorded size still matches its body. */
  lemma PhysicsKeepsWorldInv(cfg: Config, w: World, touches: seq<Touch>)
    requires cfg.Valid()
    requires WorldInv(cfg, w)
    ensures WorldInv(cfg, PhysicsSystem(cfg, w, touches).world)
  {
  }

  // ---- Several ticks: the course repeats. ----

  /** The pipe moved to x, nothing else changed. */
  function AtX(pipe: Entity, x: real): Entity {
    pipe.(body := pipe.body.(position := Vec(x, pipe.body.position.y)))
  }

  /** The pipe after `n` ticks. */
  function RecycleN(cfg: Config, pipe: Entity, n: nat): Entity
    decreases n
  {
    if n == 0 then pipe else RecycleN(cfg, RecyclePipe(cfg, pipe), n - 1)
  }

  lemma {:induction false} RecycleNAdd(cfg: Config, pipe: Entity, a: nat, b: nat)
    ensures RecycleN(cfg, pipe, a + b) == RecycleN(cfg, RecycleN(cfg, pipe, a), b)
    decreases a
  {
    if a > 0 {
      RecycleNAdd(cfg, RecyclePipe(cfg, pipe), a - 1, b);
    }
  }

  /** While a pipe stays right of the threshold it slides one unit per tick. */
  lemma {:induction false} Slide(cfg: Config, pipe: Entity, n: nat)
    requires n == 0 || pipe.X() - (n - 1) as real > cfg.Threshold()
    ensures RecycleN(cfg, pipe, n) == AtX(pipe, pipe.X() - n as real)
    decreases n
  {
    if n > 0 {
      var next := RecyclePipe(cfg, pipe);
      assert next == AtX(pipe, pipe.X() - 1.0);
      Slide(cfg, next, n - 1);
    }
  }

  /** Ticks after which a pipe is back where it was: 2 * MAX_WIDTH units of sliding and
      one respawn. */
  function Period(cfg: Config): nat
    requires cfg.Valid()
  {
    2 * cfg.maxWidth.Floor + 1
  }

  /** The positions a pipe takes while cycling: whole units left of the respawn x, down
      to the threshold. */
  predicate OnCourse(cfg: Config, x: real) {
    && cfg.Threshold() <= x <= cfg.RespawnX()
    && cfg.RespawnX() - x == (cfg.RespawnX() - x).Floor as real
  }

  /** Since recycling never redraws a pipe's heights, a pipe on its cycle is exactly
      where it started, with the same shape, after `Period` ticks. */
  lemma PipeRepeats(cfg: Config, pipe: Entity)
    requires cfg.Valid() && cfg.WholeWidth()
    requires OnCourse(cfg, pipe.X())
    ensures RecycleN(cfg, pipe, Period(cfg)) == pipe
  {
    var w := cfg.maxWidth.Floor;
    var k := (cfg.RespawnX() - pipe.X()).Floor;
    assert cfg.RespawnX() - cfg.Threshold() == 2.0 * cfg.maxWidth;
    assert 0 <= k <= 2 * w;
    var m: nat := 2 * w - k;
    Slide(cfg, pipe, m);
    var atThreshold := AtX(pipe, cfg.Threshold());
    assert RecycleN(cfg, pipe, m) == atThreshold;
    var respawned := AtX(pipe, cfg.RespawnX());
    assert RecycleN(cfg, atThreshold, 1) == respawned;
    Slide(cfg, respawned, k);
    assert RecycleN(cfg, respawned, k) == pipe;
    RecycleNAdd(cfg, pipe, m, 1);
    RecycleNAdd(cfg, pipe, m + 1, k);
  }
}
