/** The module-level state of game.js and the three operations that change it: `jump`, `resetGame` and
    `update`. Each method is proved to take the state to what `Simulation` says it should be. */
module JumpGame {
  import opened Economy
  import opened Entities
  import opened Sweep
  import opened Simulation

  class Game {
    var player: Body
    var obstacles: seq<Spider>
    var items: seq<Item>
    var frame: int
    var score: int
    var coins: int
    var maxLives: int
    var lives: int
    var gameOver: bool
    var speed: real
    var t: int

    /** The current state as a value. */
    ghost function Snapshot(): World
      reads this
    {
      World(player, obstacles, items, frame, score, coins, maxLives, lives, gameOver, speed, t)
    }

    ghost predicate Valid()
      reads this
    {
      Inv(Snapshot())
    }

    /** The state at page load, the same one `resetGame` restores. */
    constructor ()
      ensures Snapshot() == Initial() && Valid()
    {
      player := Body(300.0, 0.0, MAX_JUMPS);
      obstacles, items := [], [];
      frame, score, coins := 0, 0, 0;
      maxLives := START_MAX_LIVES;
      lives := maxLives;
      gameOver, speed, t := false, START_SPEED, 0;
    }

    /** `jump`: spend one charge on an upward impulse, unless the game is over or no charge is left. */
    method Jump()
      requires Valid()
      modifies this
      ensures Snapshot() == Jumped(old(Snapshot()))
      ensures Valid()
    {
      if gameOver {
        return;
      }
      if player.jumpsLeft > 0 {
        player := player.(dy := JUMP_VELOCITY, jumpsLeft := player.jumpsLeft - 1);
      }
      JumpKeepsInv(old(Snapshot()));
    }

    /** `resetGame`: every field back to its starting value, whatever the state was. */
    method Reset()
      modifies this
      ensures Snapshot() == Initial() && Valid()
    {
      player := player.(y := 300.0, dy := 0.0, jumpsLeft := MAX_JUMPS);
      obstacles, items := [], [];
      frame, score, coins := 0, 0, 0;
      maxLives := START_MAX_LIVES;
      lives := maxLives;
      gameOver, speed, t := false, START_SPEED, 0;
    }

    /** `update`: one frame of the game, given the frame's random draws `d` and `Math.sin` as `sin`. */
    method Update(d: Draws, sin: real -> real)
      requires Valid()
      modifies this
      ensures Snapshot() == Step(old(Snapshot()), d, sin)
      ensures Valid()
    {
      if gameOver {
        return;
      }
      ApplyPhysics();
      SpawnEntities(d);
      MoveObstacleList(sin);
      MoveItemList();
      RemoveOffscreen();
      AdvanceWorld();
      StepKeepsInv(old(Snapshot()), d, sin);
    }

    /** The "physics" section of `update`. */
    method ApplyPhysics()
      modifies this
      ensures Snapshot() == Physics(old(Snapshot()))
    {
      player := player.(dy := player.dy + GRAVITY);
      player := player.(y := player.y + player.dy);
      var groundY := 300.0 + (BASE_SIZE - PLAYER_H);
      if player.y >= groundY {
        player := player.(y := groundY, dy := 0.0, jumpsLeft := MAX_JUMPS);
      }
    }

    /** `frame++` and the "spawn" section of `update`. */
    method SpawnEntities(d: Draws)
      modifies this
      ensures Snapshot() == Spawn(old(Snapshot()), d)
    {
      frame := frame + 1;
      if frame % SPIDER_EVERY == 0 {
        obstacles := obstacles + [SpawnSpider(d)];
      }
      if frame % COIN_EVERY == 0 {
        items := items + [SpawnCoin(d)];
      }
      if frame % HEART_EVERY == 0 {
        items := items + [SpawnHeart(d)];
      }
    }

    /** The "move obstacles" loop of `update`: a hit costs a life, removes the spider and may end the game. */
    method MoveObstacleList(sin: real -> real)
      modifies this
      ensures Snapshot() == MoveObstacles(old(Snapshot()), sin)
    {
      var box := PlayerHitbox(player.y);
      var hurt;
      obstacles, hurt := SweepInPlace(obstacles, SpiderMover(speed, sin), SpiderHits(box), Hit, Hurt(lives, gameOver));
      lives, gameOver := hurt.lives, hurt.gameOver;
    }

    /** The "move items" loop of `update`: a touched item takes effect and is removed. */
    method MoveItemList()
      modifies this
      ensures Snapshot() == MoveItems(old(Snapshot()))
    {
      var box := PlayerHitbox(player.y);
      var wallet;
      items, wallet := SweepInPlace(items, ItemMover(speed), ItemHits(box), Pickup, Wallet(score, coins, lives, maxLives));
      score, coins, lives, maxLives := wallet.score, wallet.coins, wallet.lives, wallet.maxLives;
    }

    /** The two `filter`s that drop what has left the screen. */
    method RemoveOffscreen()
      modifies this
      ensures Snapshot() == Cleanup(old(Snapshot()))
    {
      obstacles := Filter(obstacles, SpiderOnScreen);
      items := Filter(items, ItemOnScreen);
    }

    /** The "world" section of `update` (the background scroll is not modelled). */
    method AdvanceWorld()
      modifies this
      ensures Snapshot() == Advance(old(Snapshot()))
    {
      score := score + 1;
      t := t + 1;
      if frame % RAMP_EVERY == 0 {
        speed := speed + SPEED_STEP;
      }
    }
  }
}
