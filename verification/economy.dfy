/** The life/coin economy of game.js: what picking up a coin or a heart does to score, coins and lives. */
module Economy {
  import opened Geometry

  const COIN_SCORE := 100
  const COINS_PER_LIFE := 10
  const START_MAX_LIVES := 3
  const MAX_LIVES_CAP := 10

  /** The `type` tag of an item. */
  datatype Kind = Coin | Heart

  /** The module-level counters a pickup touches. */
  datatype Wallet = Wallet(score: int, coins: int, lives: int, maxLives: int)

  /** The bounds the economy keeps: `lives <= maxLives`, `1 <= maxLives <= 10`, `0 <= coins < 10`.
      There is deliberately no lower bound on lives: two hits in one frame can take them below zero. */
  predicate Bounded(e: Wallet)
  {
    1 <= e.maxLives <= MAX_LIVES_CAP && e.lives <= e.maxLives && 0 <= e.coins < COINS_PER_LIFE
  }

  /** The effect of one pickup, in the order the item loop applies it: only coins score and fill the counter,
      only hearts move the maximum, and a heart always leaves lives at the maximum. */
  function Collect(e: Wallet, k: Kind): (r: Wallet)
    ensures r.score == e.score + (if k == Coin then COIN_SCORE else 0)
    ensures k == Heart ==> r.coins == e.coins && r.lives == r.maxLives
    ensures k == Coin ==> r.maxLives == e.maxLives
  {
    match k
    case Coin =>
      var e1 := e.(score := e.score + COIN_SCORE, coins := e.coins + 1);
      if e1.coins >= COINS_PER_LIFE then e1.(coins := 0, lives := Clamp(e1.lives + 1, 0, e1.maxLives)) else e1
    case Heart =>
      var m := Clamp(e.maxLives + 1, 1, MAX_LIVES_CAP);
      e.(maxLives := m, lives := m)
  }

  /** A coin adds 100 to the score and one to the counter; the tenth coin empties the counter and heals one
      life, never above the maximum. */
  lemma CoinPickup(e: Wallet)
    requires Bounded(e)
    ensures var r := Collect(e, Coin);
      && r.score == e.score + COIN_SCORE
      && r.coins == (e.coins + 1) % COINS_PER_LIFE
      && r.maxLives == e.maxLives
      && (r.coins != 0 ==> r.lives == e.lives)
      && (r.coins == 0 ==> r.lives == if e.lives + 1 < 0 then 0 else if e.lives + 1 < e.maxLives then e.lives + 1 else e.maxLives)
  {
  }

  /** A heart raises the maximum by one up to the cap of 10 and sets lives to the new maximum, whatever they were. */
  lemma HeartPickup(e: Wallet)
    requires Bounded(e)
    ensures var r := Collect(e, Heart);
      && r.maxLives == (if e.maxLives + 1 < MAX_LIVES_CAP then e.maxLives + 1 else MAX_LIVES_CAP)
      && r.lives == r.maxLives
      && r.score == e.score && r.coins == e.coins
  {
  }

  /** Every pickup keeps the bounds, and never lowers lives or the maximum. */
  lemma CollectKeepsBounded(e: Wallet, k: Kind)
    requires Bounded(e)
    ensures Bounded(Collect(e, k))
    ensures Collect(e, k).lives >= e.lives && Collect(e, k).maxLives >= e.maxLives
    ensures Collect(e, k).score >= e.score
  {
  }

  /** The pickups of one frame, applied in order. A run without coins leaves score and counter alone, and a run
      that ends with a heart leaves lives at the maximum. */
  function CollectAll(e: Wallet, ks: seq<Kind>): (r: Wallet)
    ensures (forall i :: 0 <= i < |ks| ==> ks[i] == Heart) ==> r.score == e.score && r.coins == e.coins
    ensures |ks| > 0 && ks[|ks| - 1] == Heart ==> r.lives == r.maxLives
    decreases |ks|
  {
    if ks == [] then e else CollectAll(Collect(e, ks[0]), ks[1..])
  }

  /** How many coins a run of pickups holds. */
  function CoinsIn(ks: seq<Kind>): (n: nat)
    ensures n <= |ks|
  {
    if ks == [] then 0 else (if ks[0] == Coin then 1 else 0) + CoinsIn(ks[1..])
  }

  lemma {:induction false} CollectAllKeepsBounded(e: Wallet, ks: seq<Kind>)
    requires Bounded(e)
    ensures Bounded(CollectAll(e, ks))
    ensures CollectAll(e, ks).lives >= e.lives && CollectAll(e, ks).maxLives >= e.maxLives
    decreases |ks|
  {
    if ks != [] {
      CollectKeepsBounded(e, ks[0]);
      CollectAllKeepsBounded(Collect(e, ks[0]), ks[1..]);
    }
  }

  /** Each coin is worth exactly 100 points; hearts are worth nothing. */
  lemma {:induction false} CollectAllScore(e: Wallet, ks: seq<Kind>)
    ensures CollectAll(e, ks).score == e.score + COIN_SCORE * CoinsIn(ks)
    decreases |ks|
  {
    if ks != [] {
      CollectAllScore(Collect(e, ks[0]), ks[1..]);
    }
  }

  /** The coin counter is the number of coins picked up, modulo 10, whatever hearts come between them. */
  lemma {:induction false} CoinCounter(e: Wallet, ks: seq<Kind>)
    requires 0 <= e.coins < COINS_PER_LIFE
    ensures CollectAll(e, ks).coins == (e.coins + CoinsIn(ks)) % COINS_PER_LIFE
    decreases |ks|
  {
    if ks != [] {
      var e1 := Collect(e, ks[0]);
      CoinCounter(e1, ks[1..]);
      if ks[0] == Coin && e.coins + 1 == COINS_PER_LIFE {
        assert e1.coins == 0;
        assert (0 + CoinsIn(ks[1..])) % 10 == (10 + CoinsIn(ks[1..])) % 10;
      }
    }
  }

  /** With coins only, lives grow by one for every tenth coin counted from the current counter, capped at the
      maximum. The first heal is `clamp(lives + 1, 0, maxLives)`, so lives below -1 are first raised to 0:
      with `gain == (coins + n) / 10` wraps, `lives == min(max(lives + 1, 0) + gain - 1, maxLives)`. */
  lemma {:induction false} CoinHealing(e: Wallet, ks: seq<Kind>)
    requires Bounded(e)
    requires forall i :: 0 <= i < |ks| ==> ks[i] == Coin
    ensures var r := CollectAll(e, ks); var gain := (e.coins + |ks|) / COINS_PER_LIFE;
      var first := if e.lives + 1 < 0 then 0 else e.lives + 1;
      r.lives == (if gain == 0 then e.lives else if first + gain - 1 < e.maxLives then first + gain - 1 else e.maxLives)
    decreases |ks|
  {
    if ks != [] {
      var e1 := Collect(e, Coin);
      assert ks[0] == Coin;
      CoinHealing(e1, ks[1..]);
      if e.coins + 1 == COINS_PER_LIFE {
        assert (e.coins + |ks|) / 10 == 1 + (0 + |ks[1..]|) / 10;
        assert e1.coins == 0 && 0 <= e1.lives <= e1.maxLives == e.maxLives;
      } else {
        assert e1.coins == e.coins + 1 && e1.lives == e.lives;
      }
    }
  }

  /** Ten coins at full health (3 of 3): the counter wraps to 0 and lives stay 3, because the heal is capped. */
  lemma TenCoinsAtFullHealth(s: int)
    ensures CollectAll(Wallet(s, 0, 3, 3), seq(10, _ => Coin)) == Wallet(s + 1000, 0, 3, 3)
  {
    var ks := seq(10, _ => Coin);
    var e := Wallet(s, 0, 3, 3);
    assert CoinsIn(ks) == 10 by { CoinsInAll(ks); }
    CollectAllScore(e, ks);
    CoinCounter(e, ks);
    CoinHealing(e, ks);
    CollectAllKeepsBounded(e, ks);
    MaxLivesWithoutHearts(e, ks);
  }

  /** A run with no heart leaves the maximum where it was. */
  lemma {:induction false} MaxLivesWithoutHearts(e: Wallet, ks: seq<Kind>)
    requires forall i :: 0 <= i < |ks| ==> ks[i] == Coin
    ensures CollectAll(e, ks).maxLives == e.maxLives
    decreases |ks|
  {
    if ks != [] {
      assert ks[0] == Coin;
      MaxLivesWithoutHearts(Collect(e, Coin), ks[1..]);
    }
  }

  lemma {:induction false} CoinsInAll(ks: seq<Kind>)
    requires forall i :: 0 <= i < |ks| ==> ks[i] == Coin
    ensures CoinsIn(ks) == |ks|
    decreases |ks|
  {
    if ks != [] {
      assert ks[0] == Coin;
      CoinsInAll(ks[1..]);
    }
  }

  /** One heart at 1 life of 3: the maximum becomes 4 and lives 4. */
  lemma HeartAtOneLife(s: int, c: int)
    ensures Collect(Wallet(s, c, 1, 3), Heart) == Wallet(s, c, 4, 4)
  {
  }
}
