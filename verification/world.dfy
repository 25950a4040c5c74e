/** The run state of game.js as one value, and what `jump`, `resetGame` and one call of `update` do to it. */
module Simulation {
  import opened Geometry
  import opened Economy
  import opened Entities
  import opened Sweep

  const BASE_SIZE: real := 64.0
  const PLAYER_X: real := 60.0
  const PLAYER_W: real := BASE_SIZE
  const PLAYER_H: real := BASE_SIZE
  const HITBOX_SCALE: real := 0.82
  /** The player's ground line `300 + (BASE_SIZE - player.h)`; the player's height never changes. */
  const PLAYER_GROUND: real := 300.0 + (BASE_SIZE - PLAYER_H)
  const GRAVITY: real := 0.65
  const JUMP_VELOCITY: real := -12.5
  const MAX_JUMPS := 2
  const START_SPEED: real := 5.0
  const SPEED_STEP: real := 0.2
  const SPIDER_EVERY := 70
  const COIN_EVERY := 180
  const HEART_EVERY := 1200
  const RAMP_EVERY := 300

  /** The player's changing fields: vertical position, vertical velocity and jump charges. */
  datatype Body = Body(y: real, dy: real, jumpsLeft: int)

  /** The module-level run state (the background scroll offset is not part of the model). */
  datatype World = World(
    player: Body, obstacles: seq<Spider>, items: seq<Item>,
    frame: int, score: int, coins: int, maxLives: int, lives: int,
    gameOver: bool, speed: real, t: int)

  function WalletOf(w: World): Wallet
  {
    Wallet(w.score, w.coins, w.lives, w.maxLives)
  }

  /** What holds of every state the game reaches: the economy bounds, two jump charges at most, the player
      never below the ground line, at least one life while the game runs, non-negative frame, score and tick,
      and a speed never below the starting speed. */
  predicate Inv(w: World)
  {
    && Bounded(WalletOf(w))
    && 0 <= w.player.jumpsLeft <= MAX_JUMPS
    && w.player.y <= PLAYER_GROUND
    && (!w.gameOver ==> 1 <= w.lives)
    && 0 <= w.frame && 0 <= w.score && 0 <= w.t
    && START_SPEED <= w.speed
  }

  /** The state `resetGame` (and the page load) sets: the invariant holds, score 0, no entities, full lives at
      3 of 3, speed 5, and the player at rest on the ground line with both charges and no game over. */
  function Initial(): (r: World)
    ensures Inv(r)
    ensures r.score == 0 && r.frame == 0 && r.t == 0 && r.coins == 0 && r.lives == r.maxLives == START_MAX_LIVES
    ensures r.speed == START_SPEED && r.obstacles == [] && r.items == [] && !r.gameOver
    ensures r.player == Body(PLAYER_GROUND, 0.0, MAX_JUMPS)
  {
    World(Body(300.0, 0.0, MAX_JUMPS), [], [], 0, 0, 0, START_MAX_LIVES, START_MAX_LIVES, false, START_SPEED, 0)
  }

  /** `jump`: with the game running and a charge left, spend the charge and set the upward velocity; otherwise
      nothing happens. */
  function Jumped(w: World): (r: World)
    ensures r == w <==> w.gameOver || w.player.jumpsLeft <= 0
    ensures r != w ==> r == w.(player := Body(w.player.y, JUMP_VELOCITY, w.player.jumpsLeft - 1))
  {
    if w.gameOver then w
    else if w.player.jumpsLeft > 0 then w.(player := w.player.(dy := JUMP_VELOCITY, jumpsLeft := w.player.jumpsLeft - 1))
    else w
  }

  lemma JumpKeepsInv(w: World)
    requires Inv(w)
    ensures Inv(Jumped(w))
    ensures Jumped(w).gameOver == w.gameOver
  {
  }

  /** The physics of one frame: gravity, then motion; reaching the ground line lands the player there at rest
      with both charges back. */
  function Fall(p: Body): (q: Body)
    ensures q.y <= PLAYER_GROUND
    ensures q.y == PLAYER_GROUND <==> p.y + p.dy + GRAVITY >= PLAYER_GROUND
    ensures q.y == PLAYER_GROUND ==> q.dy == 0.0 && q.jumpsLeft == MAX_JUMPS
    ensures q.y < PLAYER_GROUND ==> q == Body(p.y + p.dy + GRAVITY, p.dy + GRAVITY, p.jumpsLeft)
  {
    var dy := p.dy + GRAVITY;
    var y := p.y + dy;
    if y >= PLAYER_GROUND then Body(PLAYER_GROUND, 0.0, MAX_JUMPS) else Body(y, dy, p.jumpsLeft)
  }

  /** The player's hitbox: the sprite box shrunk by 0.82 about its centre. */
  function PlayerHitbox(y: real): (b: Box)
    ensures Proper(b)
    ensures b.w == HITBOX_SCALE * PLAYER_W && b.h == HITBOX_SCALE * PLAYER_H
    ensures b.x + b.w / 2.0 == PLAYER_X + PLAYER_W / 2.0 && b.y + b.h / 2.0 == y + PLAYER_H / 2.0
    ensures PLAYER_X < b.x && b.x + b.w < PLAYER_X + PLAYER_W && y < b.y && b.y + b.h < y + PLAYER_H
  {
    var pw := PLAYER_W * HITBOX_SCALE;
    var ph := PLAYER_H * HITBOX_SCALE;
    Box(PLAYER_X + (PLAYER_W - pw) / 2.0, y + (PLAYER_H - ph) / 2.0, pw, ph)
  }

  /** Two spiders that both hit the player standing on the ground at 1 life leave lives at -1: the obstacle loop
      has no lower bound on lives. */
  lemma DoubleHitOverdraws(speed: real, sin: real -> real)
    ensures var o := Spider(Drop, 70.0 + speed, 300.0, SPIDER_SIZE, SPIDER_SIZE, 0.0, 22.0, 4.0);
      ObstaclePass([o, o], speed, sin, PlayerHitbox(PLAYER_GROUND), Hurt(1, false)) == Swept([], Hurt(-1, true))
  {
    var o := Spider(Drop, 70.0 + speed, 300.0, SPIDER_SIZE, SPIDER_SIZE, 0.0, 22.0, 4.0);
    var box := PlayerHitbox(PLAYER_GROUND);
    var move, hit := SpiderMover(speed, sin), SpiderHits(box);
    assert move(o) == o.(x := 70.0, y := 302.0);
    assert hit(move(o));
    assert [o, o][1..] == [o] && [o][1..] == [];
    assert Pass([o], move, hit, Hit, Hurt(0, true)) == Pass([], move, hit, Hit, Hurt(-1, true));
    assert Pass([o, o], move, hit, Hit, Hurt(1, false)) == Pass([o], move, hit, Hit, Hurt(0, true));
  }

  /** The spawn timer for spiders: a spider is appended exactly on frames divisible by 70, behind what was there. */
  function SpawnObstacles(obs: seq<Spider>, frame: int, d: Draws): (o: seq<Spider>)
    ensures |o| == |obs| + (if frame % SPIDER_EVERY == 0 then 1 else 0) && o[..|obs|] == obs
    ensures frame % SPIDER_EVERY == 0 ==> o[|obs|] == SpawnSpider(d)
  {
    if frame % SPIDER_EVERY == 0 then obs + [SpawnSpider(d)] else obs
  }

  /** The spawn timers for coins and hearts: a coin is appended exactly on frames divisible by 180 and a heart on
      frames divisible by 1200, behind what was there; on a frame that has both, the coin comes first. */
  function SpawnItems(items: seq<Item>, frame: int, d: Draws): (s: seq<Item>)
    ensures var coin := if frame % COIN_EVERY == 0 then 1 else 0;
      var heart := if frame % HEART_EVERY == 0 then 1 else 0;
      |s| == |items| + coin + heart && s[..|items|] == items &&
      (coin == 1 ==> s[|items|] == SpawnCoin(d)) &&
      (heart == 1 ==> s[|s| - 1] == SpawnHeart(d))
  {
    var withCoin := if frame % COIN_EVERY == 0 then items + [SpawnCoin(d)] else items;
    if frame % HEART_EVERY == 0 then withCoin + [SpawnHeart(d)] else withCoin
  }

  // The stages of one running frame, in the order `update` performs them.

  /** Physics: gravity, motion and landing; only the player changes, and it stays above the ground line. */
  function Physics(w: World): (r: World)
    ensures r == w.(player := r.player)
    ensures r.player.y <= PLAYER_GROUND
  {
    w.(player := Fall(w.player))
  }

  /** The frame counter and the spawn timers, which read the new frame number: the frame grows by one, at most
      one spider and two items are appended, and the existing entities stay in front, unchanged. */
  function Spawn(w: World, d: Draws): (r: World)
    ensures r == w.(frame := r.frame, obstacles := r.obstacles, items := r.items)
    ensures r.frame == w.frame + 1
    ensures |w.obstacles| <= |r.obstacles| <= |w.obstacles| + 1 && r.obstacles[..|w.obstacles|] == w.obstacles
    ensures |w.items| <= |r.items| <= |w.items| + 2 && r.items[..|w.items|] == w.items
  {
    var frame := w.frame + 1;
    w.(frame := frame, obstacles := SpawnObstacles(w.obstacles, frame, d), items := SpawnItems(w.items, frame, d))
  }

  /** The obstacle loop, against the hitbox at the player's new position: it only removes spiders, every removed
      spider costs one life, and game over once raised stays raised. */
  function MoveObstacles(w: World, sin: real -> real): (r: World)
    ensures r == w.(obstacles := r.obstacles, lives := r.lives, gameOver := r.gameOver)
    ensures |r.obstacles| <= |w.obstacles|
    ensures r.lives == w.lives - (|w.obstacles| - |r.obstacles|)
    ensures w.gameOver ==> r.gameOver
  {
    ObstaclePassLives(w.obstacles, w.speed, sin, PlayerHitbox(w.player.y), Hurt(w.lives, w.gameOver));
    var os := ObstaclePass(w.obstacles, w.speed, sin, PlayerHitbox(w.player.y), Hurt(w.lives, w.gameOver));
    w.(obstacles := os.kept, lives := os.state.lives, gameOver := os.state.gameOver)
  }

  /** The item loop, against the same hitbox: it only removes items, and the score grows by 100 per coin touched. */
  function MoveItems(w: World): (r: World)
    ensures r == w.(items := r.items, score := r.score, coins := r.coins, lives := r.lives, maxLives := r.maxLives)
    ensures |r.items| <= |w.items|
    ensures r.score == w.score + COIN_SCORE * CoinsIn(Picked(w.items, w.speed, PlayerHitbox(w.player.y)))
  {
    var box := PlayerHitbox(w.player.y);
    ItemPassWallet(w.items, w.speed, box, WalletOf(w));
    CollectAllScore(WalletOf(w), Picked(w.items, w.speed, box));
    var its := ItemPass(w.items, w.speed, box, WalletOf(w));
    w.(items := its.kept, score := its.state.score, coins := its.state.coins, lives := its.state.lives, maxLives := its.state.maxLives)
  }

  /** The off-screen filters: exactly the entities still on screen remain. */
  function Cleanup(w: World): (r: World)
    ensures r == w.(obstacles := r.obstacles, items := r.items)
    ensures forall o :: o in r.obstacles <==> o in w.obstacles && SpiderOnScreen(o)
    ensures forall it :: it in r.items <==> it in w.items && ItemOnScreen(it)
  {
    FilterMembers(w.obstacles, SpiderOnScreen);
    FilterMembers(w.items, ItemOnScreen);
    w.(obstacles := Filter(w.obstacles, SpiderOnScreen), items := Filter(w.items, ItemOnScreen))
  }

  /** The world counters: the score and the day/night tick grow by one, and the speed grows by 0.2 on exactly the
      frames divisible by 300. */
  function Advance(w: World): (r: World)
    ensures r == w.(score := r.score, t := r.t, speed := r.speed)
    ensures r.score == w.score + 1 && r.t == w.t + 1
    ensures r.speed == w.speed + (if w.frame % RAMP_EVERY == 0 then SPEED_STEP else 0.0)
  {
    w.(score := w.score + 1, t := w.t + 1, speed := if w.frame % RAMP_EVERY == 0 then w.speed + SPEED_STEP else w.speed)
  }

  /** One call of `update`: nothing at all once the game is over; otherwise the stages above in order. `d` holds
      the frame's random draws and `sin` is `Math.sin`. A call leaves the state unchanged exactly when the game
      is over. */
  function Step(w: World, d: Draws, sin: real -> real): (r: World)
    ensures r == w <==> w.gameOver
  {
    if w.gameOver then w else Advance(Cleanup(MoveItems(MoveObstacles(Spawn(Physics(w), d), sin))))
  }

  /** The coins the player picks up in the frame `Step(w, d, _)` computes. */
  function CoinsCollected(w: World, d: Draws): nat
  {
    var s := Spawn(Physics(w), d);
    CoinsIn(Picked(s.items, s.speed, PlayerHitbox(s.player.y)))
  }

  /** Once the game is over, `update` changes nothing, and only a restart clears game over. */
  lemma GameOverIsFinal(w: World, d: Draws, sin: real -> real)
    requires w.gameOver
    ensures Step(w, d, sin) == w && Jumped(w) == w
  {
  }

  /** The obstacle loop keeps the bounds, and leaves at least one life unless it raised game over. */
  lemma MoveObstaclesKeepsInv(w: World, sin: real -> real)
    requires Inv(w)
    ensures Inv(MoveObstacles(w, sin))
  {
    ObstaclePassLives(w.obstacles, w.speed, sin, PlayerHitbox(w.player.y), Hurt(w.lives, w.gameOver));
  }

  /** The item loop keeps the bounds and never lowers lives. */
  lemma MoveItemsKeepsInv(w: World)
    requires Inv(w)
    ensures Inv(MoveItems(w))
  {
    var box := PlayerHitbox(w.player.y);
    ItemPassWallet(w.items, w.speed, box, WalletOf(w));
    CollectAllKeepsBounded(WalletOf(w), Picked(w.items, w.speed, box));
    CollectAllScore(WalletOf(w), Picked(w.items, w.speed, box));
  }

  /** Every frame keeps the invariant. */
  lemma StepKeepsInv(w: World, d: Draws, sin: real -> real)
    requires Inv(w)
    ensures Inv(Step(w, d, sin))
  {
    if !w.gameOver {
      var s := Spawn(Physics(w), d);
      assert Inv(s);
      MoveObstaclesKeepsInv(s, sin);
      MoveItemsKeepsInv(MoveObstacles(s, sin));
    }
  }

  /** A running frame: the player lands exactly when gravity and motion bring it to the ground line, and only
      then are the two charges restored; in the air the charges are untouched. */
  lemma StepPhysics(w: World, d: Draws, sin: real -> real)
    requires !w.gameOver
    ensures var r := Step(w, d, sin).player; var landed := w.player.y + w.player.dy + GRAVITY >= PLAYER_GROUND;
      && (r.y == PLAYER_GROUND <==> landed)
      && (landed ==> r.dy == 0.0 && r.jumpsLeft == MAX_JUMPS)
      && (!landed ==> r.dy == w.player.dy + GRAVITY && r.jumpsLeft == w.player.jumpsLeft)
      && (r.jumpsLeft != w.player.jumpsLeft ==> landed && r.jumpsLeft == MAX_JUMPS)
  {
  }

  /** A running frame advances the frame counter and the day/night tick by one, and raises the speed by 0.2 on
      exactly the frames divisible by 300. */
  lemma StepCounters(w: World, d: Draws, sin: real -> real)
    requires !w.gameOver
    ensures var r := Step(w, d, sin);
      && r.frame == w.frame + 1 && r.t == w.t + 1
      && r.speed == w.speed + (if r.frame % RAMP_EVERY == 0 then SPEED_STEP else 0.0)
  {
  }

  /** A running frame adds 1 to the score plus 100 for each coin picked up in it. */
  lemma StepScore(w: World, d: Draws, sin: real -> real)
    requires !w.gameOver
    ensures Step(w, d, sin).score == w.score + 1 + COIN_SCORE * CoinsCollected(w, d)
  {
    var s := MoveObstacles(Spawn(Physics(w), d), sin);
    var box := PlayerHitbox(s.player.y);
    ItemPassWallet(s.items, s.speed, box, WalletOf(s));
    CollectAllScore(WalletOf(s), Picked(s.items, s.speed, box));
  }

  /** After the frame's cleanup every spider and item still has its right edge right of the left border. */
  lemma StepCleansUp(w: World, d: Draws, sin: real -> real)
    requires !w.gameOver
    ensures var r := Step(w, d, sin);
      (forall o :: o in r.obstacles ==> o.x + o.w > 0.0) && (forall it :: it in r.items ==> it.x + it.r * 2.0 > 0.0)
  {
  }
}
