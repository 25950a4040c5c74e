/** Spiders (obstacles) and pickups of game.js: their shapes, how one frame moves them, and how they are spawned
    from the random draws of a frame. */
module Entities {
  import opened Geometry
  import opened Economy

  const W: real := 800.0
  const GROUND_Y: real := 350.0
  const SPIDER_SIZE: real := 48.0
  const ITEM_RADIUS: real := 16.0
  const SWING_CHANCE: real := 0.6
  const SWING_PHASE_STEP: real := 0.08
  const SWING_WOBBLE: real := 0.6

  /** How a spider moves besides scrolling left. */
  datatype Mode = Swing | Drop

  /** An obstacle. Every obstacle of the game is a spider, so the `type` tag is left implicit.
      `phase` is the swing angle `t`; `amp` is drawn at spawn time but no motion reads it. */
  datatype Spider = Spider(mode: Mode, x: real, y: real, w: real, h: real, phase: real, amp: real, vy: real)

  /** A pickup: a coin or a heart, drawn as a square of side `2 * r`. */
  datatype Item = Item(kind: Kind, x: real, y: real, r: real)

  function SpiderBox(o: Spider): Box
  {
    Box(o.x, o.y, o.w, o.h)
  }

  function ItemBox(it: Item): Box
  {
    Box(it.x, it.y, it.r * 2.0, it.r * 2.0)
  }

  /** One frame of spider motion: scroll left by `speed`; a swinging spider advances its phase by 0.08 and wobbles
      by `0.6 * sin` vertically and horizontally; a dropping spider falls by `vy` but not below the ground line.
      `sin` stands for `Math.sin`. */
  function MoveSpider(o: Spider, speed: real, sin: real -> real): (r: Spider)
    ensures r.mode == o.mode && r.w == o.w && r.h == o.h && r.amp == o.amp && r.vy == o.vy
    ensures o.mode == Drop ==> r.x == o.x - speed && r.phase == o.phase
    ensures o.mode == Drop ==> r.y == Min(o.y + o.vy, GROUND_Y - o.h)
    ensures o.mode == Swing ==> r.phase == o.phase + SWING_PHASE_STEP
  {
    var o1 := o.(x := o.x - speed);
    match o1.mode
    case Swing =>
      var phase := o1.phase + SWING_PHASE_STEP;
      o1.(phase := phase, y := o1.y + sin(phase) * SWING_WOBBLE, x := o1.x + sin(phase * 0.8) * SWING_WOBBLE)
    case Drop =>
      var y := o1.y + o1.vy;
      o1.(y := if y > GROUND_Y - o1.h then GROUND_Y - o1.h else y)
  }

  /** With sine values in [-1, 1], a swinging spider ends within 0.6 of where plain scrolling would put it. */
  lemma SwingWobbleBounded(o: Spider, speed: real, sin: real -> real)
    requires o.mode == Swing
    requires -1.0 <= sin(o.phase + SWING_PHASE_STEP) <= 1.0
    requires -1.0 <= sin((o.phase + SWING_PHASE_STEP) * 0.8) <= 1.0
    ensures var r := MoveSpider(o, speed, sin);
      o.x - speed - SWING_WOBBLE <= r.x <= o.x - speed + SWING_WOBBLE &&
      o.y - SWING_WOBBLE <= r.y <= o.y + SWING_WOBBLE
  {
  }

  /** One frame of item motion: scroll left by `speed`. */
  function MoveItem(it: Item, speed: real): (r: Item)
    ensures r.kind == it.kind && r.y == it.y && r.r == it.r
    ensures r.x + speed == it.x
  {
    it.(x := it.x - speed)
  }

  /** The condition the off-screen cleanup keeps a spider on: its right edge is right of the left border. */
  predicate SpiderOnScreen(o: Spider)
  {
    o.x + o.w > 0.0
  }

  /** The condition the off-screen cleanup keeps an item on. */
  predicate ItemOnScreen(it: Item)
  {
    it.x + it.r * 2.0 > 0.0
  }

  /** The values `Math.random()` supplies for one frame's spawns, each in [0, 1), except `phase`, which is the
      spider's starting angle itself (a draw times 2 pi). Draws a frame does not spawn with are unused. */
  datatype Draws = Draws(mode: real, length: real, phase: real, amp: real, fall: real, coinY: real, heartY: real)

  predicate Unit(v: real) { 0.0 <= v < 1.0 }

  /** A new spider at the right border: swinging with probability 0.6, hanging at `100 + floor(160 * draw)`.
      For draws in [0, 1) it hangs at a whole number in [100, 259], with `amp` in [22, 46) and `vy` in [4, 6). */
  function SpawnSpider(d: Draws): (o: Spider)
    ensures o.x == W && o.w == SPIDER_SIZE && o.h == SPIDER_SIZE && o.phase == d.phase
    ensures o.mode == Swing <==> d.mode < SWING_CHANCE
    ensures o.y == o.y.Floor as real
    ensures Unit(d.length) ==> 100.0 <= o.y <= 259.0
    ensures Unit(d.amp) ==> 22.0 <= o.amp < 46.0
    ensures Unit(d.fall) ==> 4.0 <= o.vy < 6.0
  {
    Spider(
      if d.mode < SWING_CHANCE then Swing else Drop,
      W, (100 + (d.length * 160.0).Floor) as real, SPIDER_SIZE, SPIDER_SIZE,
      d.phase, 22.0 + d.amp * 24.0, 4.0 + d.fall * 2.0)
  }

  /** A new coin at the right border; for a draw in [0, 1) its `y` is in (140, 260]. */
  function SpawnCoin(d: Draws): (it: Item)
    ensures it.kind == Coin && it.x == W && it.r == ITEM_RADIUS
    ensures Unit(d.coinY) ==> 140.0 < it.y <= 260.0
  {
    Item(Coin, W, 260.0 - d.coinY * 120.0, ITEM_RADIUS)
  }

  /** A new heart at the right border; for a draw in [0, 1) its `y` is in (140, 240]. */
  function SpawnHeart(d: Draws): (it: Item)
    ensures it.kind == Heart && it.x == W && it.r == ITEM_RADIUS
    ensures Unit(d.heartY) ==> 140.0 < it.y <= 240.0
  {
    Item(Heart, W, 240.0 - d.heartY * 100.0, ITEM_RADIUS)
  }
}
