/** World construction from App.tsx: `randomBetween`, `generatePipes` and the entities
    `setupWorld` builds. Every call of `Math.random()` becomes a parameter. */
module World {
  import opened Constants
  import opened Geometry

  /** A value `Math.random()` can return. */
  predicate IsRandom(u: real) {
    0.0 <= u < 1.0
  }

  /** The two random draws one `generatePipes` call makes: one for the height and one
      for the coin that decides whether the pair is reversed. */
  datatype PipeDraw = PipeDraw(height: real, swap: real)
  {
    predicate Valid() {
      IsRandom(height) && IsRandom(swap)
    }

    /** `Math.random() < 0.5`: the pair is reversed. */
    predicate Reversed() {
      swap < 0.5
    }
  }

  /** `randomBetween(min, max)`: `Math.floor(u * (max - min + 1) + min)` for the draw `u`.
      The result is an integer at least `min` and below `max + 1`, that is, in [min, max]
      when `max` is whole. */
  function RandomBetween(min: int, max: real, u: real): (r: int)
    requires min as real <= max
    requires IsRandom(u)
    ensures min <= r
    ensures (r as real) < max + 1.0
    ensures max == max.Floor as real ==> (r as real) <= max
  {
    var span := max - min as real + 1.0;
    ScaledDrawBounds(u, span);
    var v := u * span + min as real;
    assert v < span + min as real;
    FloorBounds(v, min, max);
    v.Floor
  }

  /** A draw in [0, 1) scaled by a positive span stays in [0, span). */
  lemma ScaledDrawBounds(u: real, span: real)
    requires IsRandom(u) && span > 0.0
    ensures 0.0 <= u * span < span
  {
  }

  lemma FloorBounds(v: real, min: int, max: real)
    requires min as real <= v < max + 1.0
    ensures min <= v.Floor && (v.Floor as real) < max + 1.0
    ensures max == max.Floor as real ==> (v.Floor as real) <= max
  {
    assert v.Floor as real <= v;
    if max == max.Floor as real {
      assert v.Floor < max.Floor + 1;
    }
  }

  /** Every integer `randomBetween` may return is returned for some draw. */
  lemma RandomBetweenReaches(min: int, max: real, k: int) returns (u: real)
    requires min as real <= max
    requires min <= k && (k as real) < max + 1.0
    ensures IsRandom(u)
    ensures RandomBetween(min, max, u) == k
  {
    var span := max - min as real + 1.0;
    var a := (k - min) as real;
    u := a / span;
    assert u * span == a;
    assert u * span + min as real == k as real;
  }

  const MinPipeHeight: int := 100

  /** The upper bound `generatePipes` passes to `randomBetween`. */
  function TopPipeMax(cfg: Config): real {
    cfg.maxHeight / 2.0 - 100.0
  }

  /** A height `generatePipes` can choose for the top segment: a whole number in
      [100, MAX_HEIGHT/2 - 100 + 1). */
  predicate IsTopHeight(cfg: Config, h: real) {
    && h == h.Floor as real
    && MinPipeHeight as real <= h
    && h < TopPipeMax(cfg) + 1.0
  }

  /** When MAX_HEIGHT/2 is a whole number, a top height stays within
      [100, MAX_HEIGHT/2 - 100]. */
  lemma TopHeightBound(cfg: Config, h: real)
    requires TopPipeMax(cfg) == TopPipeMax(cfg).Floor as real
    requires IsTopHeight(cfg, h)
    ensures MinPipeHeight as real <= h <= TopPipeMax(cfg)
  {
    assert h.Floor < TopPipeMax(cfg).Floor + 1;
  }

  /** When MAX_HEIGHT/2 is not whole, `randomBetween` can return the integer just above
      its `max`: a 401-unit screen gives a top height of 101 above the bound 100.5. */
  lemma FractionalMaxIsExceeded()
    ensures RandomBetween(100, 100.5, 0.9) == 101
    ensures TopPipeMax(Config(1.0, 401.0, 0.0, 1.0)) == 100.5
  {
  }

  /** `generatePipes`: draws the top height, derives the bottom one so that the two
      leave exactly `GAP_SIZE` of the screen height, and reverses the pair on a coin
      flip. The result has two entries summing to `MAX_HEIGHT - GAP_SIZE`; the drawn
      height is first unless the pair was reversed. */
  function GeneratePipes(cfg: Config, d: PipeDraw): (sizes: seq<real>)
    requires cfg.Valid() && d.Valid()
    ensures |sizes| == 2
    ensures sizes[0] + sizes[1] == cfg.maxHeight - cfg.gapSize
    ensures !d.Reversed() ==> IsTopHeight(cfg, sizes[0])
    ensures d.Reversed() ==> IsTopHeight(cfg, sizes[1])
  {
    var topPipeHeight := RandomBetween(MinPipeHeight, TopPipeMax(cfg), d.height) as real;
    var bottomPipeHeight := cfg.maxHeight - topPipeHeight - cfg.gapSize;
    var sizes := [topPipeHeight, bottomPipeHeight];
    if d.Reversed() then [sizes[1], sizes[0]] else sizes
  }

  /** The converse of `GeneratePipes`' contract: every possible top height, in either
      order, is produced by some pair of draws. */
  lemma GeneratePipesReaches(cfg: Config, top: real, reversed: bool) returns (d: PipeDraw)
    requires cfg.Valid()
    requires IsTopHeight(cfg, top)
    ensures d.Valid() && d.Reversed() == reversed
    ensures var bottom := cfg.maxHeight - top - cfg.gapSize;
            GeneratePipes(cfg, d) == if reversed then [bottom, top] else [top, bottom]
  {
    var u := RandomBetweenReaches(MinPipeHeight, TopPipeMax(cfg), top.Floor);
    d := PipeDraw(u, if reversed then 0.0 else 0.5);
  }

  /** The coin only reorders: the same height draw with the other coin outcome gives the
      same two heights in the opposite order. */
  lemma SwapOnlyReorders(cfg: Config, d: PipeDraw, e: PipeDraw)
    requires cfg.Valid() && d.Valid() && e.Valid()
    requires d.height == e.height && d.Reversed() != e.Reversed()
    ensures GeneratePipes(cfg, e) == [GeneratePipes(cfg, d)[1], GeneratePipes(cfg, d)[0]]
  {
  }

  /** The matter-js engine and world `setupWorld` creates; the model only carries its
      identity. */
  datatype EngineId = EngineId(id: nat)

  /** The entity record `setupWorld` returns; `pipes` holds `pipe1` .. `pipe4` in order,
      so pipes 0 and 1 form the first pair and pipes 2 and 3 the second. */
  datatype World = World(physics: EngineId, bird: Entity, floor: Entity, ceiling: Entity,
                         pipes: seq<Entity>)

  const BirdSize: real := 50.0
  const WallThickness: real := 50.0

  /** The bird's starting body: 50 by 50, centred at (MAX_WIDTH/4, MAX_HEIGHT/2). */
  predicate BirdAtStart(cfg: Config, bird: Entity) {
    && bird.body.position == Vec(cfg.maxWidth / 4.0, cfg.maxHeight / 2.0)
    && bird.body.width == BirdSize && bird.body.height == BirdSize
    && !bird.body.isStatic
  }

  /** Ceiling and floor: static, full width, 50 thick, at the top and bottom edges. */
  predicate Boundaries(cfg: Config, w: World) {
    && w.ceiling.body.isStatic && w.floor.body.isStatic
    && w.ceiling.body.Left() == 0.0 && w.ceiling.body.Right() == cfg.maxWidth
    && w.ceiling.body.Top() == 0.0 && w.ceiling.body.Bottom() == WallThickness
    && w.floor.body.Left() == 0.0 && w.floor.body.Right() == cfg.maxWidth
    && w.floor.body.Top() == cfg.maxHeight - WallThickness && w.floor.body.Bottom() == cfg.maxHeight
  }

  /** A pipe pair: both static, `PIPE_WIDH` wide and at one x; the top pipe hangs from
      y = 0, the bottom one stands on y = MAX_HEIGHT, and exactly `GAP_SIZE` separates them. */
  predicate PairShape(cfg: Config, top: Entity, bottom: Entity) {
    && top.body.isStatic && bottom.body.isStatic
    && top.body.width == cfg.pipeWidth && bottom.body.width == cfg.pipeWidth
    && top.X() == bottom.X()
    && top.body.Top() == 0.0
    && bottom.body.Bottom() == cfg.maxHeight
    && bottom.body.Top() - top.body.Bottom() == cfg.gapSize
  }

  /** Every pipe's centre lies in (Threshold - 1, RespawnX]: the one-unit step never
      takes a pipe further left than one unit past the threshold. */
  predicate PipesInRange(cfg: Config, pipes: seq<Entity>) {
    forall i :: 0 <= i < |pipes| ==> cfg.Threshold() - 1.0 < pipes[i].X() <= cfg.RespawnX()
  }

  predicate SizesMatch(w: World) {
    && w.bird.SizeMatchesBody()
    && w.floor.SizeMatchesBody()
    && w.ceiling.SizeMatchesBody()
    && forall i :: 0 <= i < |w.pipes| ==> w.pipes[i].SizeMatchesBody()
  }

  /** What holds of the world from construction on, whatever the ticks and events. */
  predicate WorldInv(cfg: Config, w: World) {
    && |w.pipes| == 4
    && SizesMatch(w)
    && Boundaries(cfg, w)
    && PairShape(cfg, w.pipes[0], w.pipes[1])
    && PairShape(cfg, w.pipes[2], w.pipes[3])
    && PipesInRange(cfg, w.pipes)
  }

  function PipeSize(cfg: Config, height: real): Size {
    Size(cfg.pipeWidth, height)
  }

  /** `setupWorld`, given the engine it creates and the draws of its two `generatePipes`
      calls. */
  function SetupWorld(cfg: Config, engine: EngineId, first: PipeDraw, second: PipeDraw): (w: World)
    requires cfg.Valid() && first.Valid() && second.Valid()
    ensures w.physics == engine
    ensures BirdAtStart(cfg, w.bird)
    ensures WorldInv(cfg, w)
    ensures w.pipes[0].body.Right() == cfg.maxWidth
    ensures w.pipes[2].X() - w.pipes[0].X() == cfg.maxWidth
    ensures [w.pipes[0].body.height, w.pipes[1].body.height] == GeneratePipes(cfg, first)
    ensures [w.pipes[2].body.height, w.pipes[3].body.height] == GeneratePipes(cfg, second)
  {
    var W := cfg.maxWidth;
    var H := cfg.maxHeight;
    var PW := cfg.pipeWidth;
    var bird := Rectangle(W / 4.0, H / 2.0, 50.0, 50.0, false);
    var floor := Rectangle(W / 2.0, H - 25.0, W, 50.0, true);
    var celling := Rectangle(W / 2.0, 25.0, W, 50.0, true);

    var heights := GeneratePipes(cfg, first);
    var pipeHeight, pipeHeight2 := heights[0], heights[1];
    var pipe1 := Rectangle(W - PW / 2.0, pipeHeight / 2.0, PW, pipeHeight, true);
    var pipe2 := Rectangle(W - PW / 2.0, H - pipeHeight2 / 2.0, PW, pipeHeight2, true);
    var heights2 := GeneratePipes(cfg, second);
    var pipeHeight3, pipeHeight4 := heights2[0], heights2[1];
    var pipe3 := Rectangle(W * 2.0 - PW / 2.0, pipeHeight3 / 2.0, PW, pipeHeight3, true);
    var pipe4 := Rectangle(W * 2.0 - PW / 2.0, H - pipeHeight4 / 2.0, PW, pipeHeight4, true);

    World(engine,
          Entity(bird, Size(50.0, 50.0)),
          Entity(floor, Size(W, 50.0)),
          Entity(celling, Size(W, 50.0)),
          [Entity(pipe1, PipeSize(cfg, pipeHeight)),
           Entity(pipe2, PipeSize(cfg, pipeHeight2)),
           Entity(pipe3, PipeSize(cfg, pipeHeight3)),
           Entity(pipe4, PipeSize(cfg, pipeHeight4))])
  }
}
