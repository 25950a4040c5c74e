/** The two collision loops of `update` and the off-screen `filter`s that follow them.

    Both loops have one shape: walk the list with an index, move the element at that index in place, and when
    it collides with the player apply its effect and remove it with `splice(i, 1); i--`, so that the element
    that slides into place i is visited next. `Pass` says by recursion what one such walk computes, for any
    motion `move`, collision test `hit` and effect `effect`; `SweepInPlace` is the loop itself, proved to
    compute it. The obstacle and item loops are its two instances, `ObstaclePass` and `ItemPass`. */
module Sweep {
  import opened Geometry
  import opened Economy
  import opened Entities

  // ---------------------------------------------------------------- filter

  /** `Array.prototype.filter`: the elements `keep` accepts, in their order. */
  function Filter<T>(s: seq<T>, keep: T -> bool): (r: seq<T>)
    ensures |r| <= |s|
    ensures forall x :: x in r ==> x in s && keep(x)
    decreases |s|
  {
    if s == [] then []
    else
      var rest := Filter(s[1..], keep);
      if keep(s[0]) then [s[0]] + rest else rest
  }

  /** The complement of a test. */
  function Not<T>(p: T -> bool): T -> bool
  {
    x => !p(x)
  }

  /** Filter keeps every accepted element: membership in the result is exactly membership and acceptance. */
  lemma {:induction false} FilterKeepsAccepted<T>(s: seq<T>, keep: T -> bool, x: T)
    ensures x in Filter(s, keep) <==> x in s && keep(x)
    decreases |s|
  {
    if s != [] {
      FilterKeepsAccepted(s[1..], keep, x);
      assert x in s <==> x == s[0] || x in s[1..];
    }
  }

  /** The same, for every element at once. */
  lemma FilterMembers<T>(s: seq<T>, keep: T -> bool)
    ensures forall x :: x in Filter(s, keep) <==> x in s && keep(x)
  {
    forall x ensures x in Filter(s, keep) <==> x in s && keep(x) {
      FilterKeepsAccepted(s, keep, x);
    }
  }

  /** Filter works piecewise, so it keeps the relative order of what it keeps. */
  lemma {:induction false} FilterAppend<T>(a: seq<T>, b: seq<T>, keep: T -> bool)
    ensures Filter(a + b, keep) == Filter(a, keep) + Filter(b, keep)
    decreases |a|
  {
    if a != [] {
      assert (a + b)[0] == a[0];
      assert (a + b)[1..] == a[1..] + b;
      FilterAppend(a[1..], b, keep);
    } else {
      assert a + b == b;
    }
  }

  /** What a test keeps and what its complement keeps add up to the whole list. */
  lemma {:induction false} FilterSplit<T>(s: seq<T>, p: T -> bool)
    ensures |Filter(s, p)| + |Filter(s, Not(p))| == |s|
    decreases |s|
  {
    if s != [] {
      FilterSplit(s[1..], p);
    }
  }

  /** A list whose elements are all accepted is kept whole. */
  lemma {:induction false} FilterAllAccepted<T>(s: seq<T>, keep: T -> bool)
    requires forall i :: 0 <= i < |s| ==> keep(s[i])
    ensures Filter(s, keep) == s
    decreases |s|
  {
    if s != [] {
      assert keep(s[0]);
      FilterAllAccepted(s[1..], keep);
    }
  }

  /** Filtering twice is filtering once. */
  lemma FilterIdempotent<T>(s: seq<T>, keep: T -> bool)
    ensures Filter(Filter(s, keep), keep) == Filter(s, keep)
  {
    var r := Filter(s, keep);
    forall i | 0 <= i < |r| ensures keep(r[i]) {
      assert r[i] in r;
    }
    FilterAllAccepted(r, keep);
  }

  // ---------------------------------------------------------------- one walk with splice

  /** What a collision loop leaves: the surviving (moved) elements and the state its effects built. */
  datatype Swept<T, S> = Swept(kept: seq<T>, state: S)

  /** Every element moved once, in order. */
  function Moved<T>(xs: seq<T>, move: T -> T): (r: seq<T>)
    ensures |r| == |xs|
    ensures forall i :: 0 <= i < |xs| ==> r[i] == move(xs[i])
    decreases |xs|
  {
    if xs == [] then [] else [move(xs[0])] + Moved(xs[1..], move)
  }

  /** The effects of a run of colliding elements, applied in order. */
  function Apply<T, S>(effect: (S, T) -> S, s: S, ys: seq<T>): S
    decreases |ys|
  {
    if ys == [] then s else Apply(effect, effect(s, ys[0]), ys[1..])
  }

  /** One walk of a collision loop over `xs`: each element is moved; a moved element that `hit`s takes effect
      and is removed, the others stay in place. */
  function Pass<T, S>(xs: seq<T>, move: T -> T, hit: T -> bool, effect: (S, T) -> S, s: S): (r: Swept<T, S>)
    ensures |r.kept| <= |xs|
    decreases |xs|
  {
    if xs == [] then Swept([], s)
    else
      var x := move(xs[0]);
      if hit(x) then Pass(xs[1..], move, hit, effect, effect(s, x))
      else
        var r := Pass(xs[1..], move, hit, effect, s);
        r.(kept := [x] + r.kept)
  }

  /** The walk visits every element once, in order: the survivors are exactly the moved elements that miss, in
      their original order. */
  lemma {:induction false} PassKept<T, S>(xs: seq<T>, move: T -> T, hit: T -> bool, effect: (S, T) -> S, s: S)
    ensures Pass(xs, move, hit, effect, s).kept == Filter(Moved(xs, move), Not(hit))
    decreases |xs|
  {
    if xs != [] {
      var x := move(xs[0]);
      var m := Moved(xs, move);
      assert m[0] == x && m[1..] == Moved(xs[1..], move);
      if hit(x) {
        PassKept(xs[1..], move, hit, effect, effect(s, x));
      } else {
        PassKept(xs[1..], move, hit, effect, s);
      }
    }
  }

  /** The state after the walk is that of the colliding elements' effects, applied in the order met. */
  lemma {:induction false} PassState<T, S>(xs: seq<T>, move: T -> T, hit: T -> bool, effect: (S, T) -> S, s: S)
    ensures Pass(xs, move, hit, effect, s).state == Apply(effect, s, Filter(Moved(xs, move), hit))
    decreases |xs|
  {
    if xs != [] {
      var x := move(xs[0]);
      var m := Moved(xs, move);
      assert m[0] == x && m[1..] == Moved(xs[1..], move);
      if hit(x) {
        PassState(xs[1..], move, hit, effect, effect(s, x));
        var f := Filter(m, hit);
        assert f[0] == x && f[1..] == Filter(m[1..], hit);
      } else {
        PassState(xs[1..], move, hit, effect, s);
      }
    }
  }

  /** The collision loop of `update`: `for (i = 0; i < xs.length; i++)`, moving `xs[i]` in place and, on a
      collision, applying the effect and doing `splice(i, 1); i--`. */
  method SweepInPlace<T, S>(xs: seq<T>, move: T -> T, hit: T -> bool, effect: (S, T) -> S, s: S)
    returns (kept: seq<T>, state: S)
    ensures Swept(kept, state) == Pass(xs, move, hit, effect, s)
  {
    kept, state := xs, s;
    var i := 0;
    while i < |kept|
      invariant 0 <= i <= |kept|
      invariant var rest := Pass(kept[i..], move, hit, effect, state);
        Pass(xs, move, hit, effect, s) == rest.(kept := kept[..i] + rest.kept)
      decreases |kept| - i
    {
      ghost var before := kept;
      assert before[i..][1..] == before[i + 1..];
      var x := move(kept[i]);
      kept := kept[i := x];
      if hit(x) {
        state := effect(state, x);
        // splice(i, 1); i-- and then the loop's i++: the next element now sits at index i
        kept := kept[..i] + kept[i + 1..];
        assert kept[..i] == before[..i] && kept[i..] == before[i + 1..];
      } else {
        assert kept[..i + 1] == before[..i] + [x] && kept[i + 1..] == before[i + 1..];
        i := i + 1;
      }
    }
    assert kept[..i] == kept;
  }

  // ---------------------------------------------------------------- obstacles

  /** What the obstacle loop changes besides the list: `lives` and `gameOver`. */
  datatype Hurt = Hurt(lives: int, gameOver: bool)

  /** A spider hit: one life less, and game over once lives are at most 0. Nothing stops the loop there. */
  function Hit(h: Hurt, o: Spider): (r: Hurt)
    ensures r.lives == h.lives - 1
    ensures r.gameOver <==> h.gameOver || r.lives <= 0
  {
    Hurt(h.lives - 1, h.gameOver || h.lives - 1 <= 0)
  }

  function SpiderMover(speed: real, sin: real -> real): Spider -> Spider
  {
    o => MoveSpider(o, speed, sin)
  }

  /** The spiders overlapping the player's hitbox `box`. */
  function SpiderHits(box: Box): Spider -> bool
  {
    o => Overlaps(box, SpiderBox(o))
  }

  /** The obstacle loop of `update`; it never adds a spider, and it never clears game over. */
  function ObstaclePass(obs: seq<Spider>, speed: real, sin: real -> real, box: Box, h: Hurt): (r: Swept<Spider, Hurt>)
    ensures |r.kept| <= |obs|
    ensures r.state.lives <= h.lives
    ensures h.gameOver ==> r.state.gameOver
  {
    var m := Moved(obs, SpiderMover(speed, sin));
    PassState(obs, SpiderMover(speed, sin), SpiderHits(box), Hit, h);
    HitsCost(h, Filter(m, SpiderHits(box)));
    Pass(obs, SpiderMover(speed, sin), SpiderHits(box), Hit, h)
  }

  /** n hits cost exactly n lives, and raise game over iff there was a hit and lives end at most 0. */
  lemma {:induction false} HitsCost(h: Hurt, os: seq<Spider>)
    ensures Apply(Hit, h, os) == Hurt(h.lives - |os|, h.gameOver || (|os| > 0 && h.lives - |os| <= 0))
    decreases |os|
  {
    if os != [] {
      HitsCost(Hit(h, os[0]), os[1..]);
    }
  }

  /** The obstacle loop visits every spider once, in order: the survivors are exactly the moved spiders that
      miss the player, in their original order. */
  lemma ObstaclePassKept(obs: seq<Spider>, speed: real, sin: real -> real, box: Box, h: Hurt)
    ensures ObstaclePass(obs, speed, sin, box, h).kept == Filter(Moved(obs, SpiderMover(speed, sin)), Not(SpiderHits(box)))
  {
    PassKept(obs, SpiderMover(speed, sin), SpiderHits(box), Hit, h);
  }

  /** After the obstacle loop, lives fell by the number of spiders removed, and game over is raised exactly
      when a hit took lives to 0 or below. */
  lemma ObstaclePassLives(obs: seq<Spider>, speed: real, sin: real -> real, box: Box, h: Hurt)
    ensures var r := ObstaclePass(obs, speed, sin, box, h);
      && r.state.lives == h.lives - (|obs| - |r.kept|)
      && r.state.gameOver == (h.gameOver || (r.state.lives < h.lives && r.state.lives <= 0))
  {
    var m := Moved(obs, SpiderMover(speed, sin));
    PassKept(obs, SpiderMover(speed, sin), SpiderHits(box), Hit, h);
    PassState(obs, SpiderMover(speed, sin), SpiderHits(box), Hit, h);
    HitsCost(h, Filter(m, SpiderHits(box)));
    FilterSplit(m, SpiderHits(box));
  }

  // ---------------------------------------------------------------- items

  /** An item picked up: its kind's effect on the economy. */
  function Pickup(e: Wallet, it: Item): Wallet
  {
    Collect(e, it.kind)
  }

  function ItemMover(speed: real): Item -> Item
  {
    it => MoveItem(it, speed)
  }

  /** The items overlapping the player's hitbox `box`. */
  function ItemHits(box: Box): Item -> bool
  {
    it => Overlaps(box, ItemBox(it))
  }

  /** The kinds of a run of items. */
  function Kinds(its: seq<Item>): (ks: seq<Kind>)
    ensures |ks| == |its|
    decreases |its|
  {
    if its == [] then [] else [its[0].kind] + Kinds(its[1..])
  }

  /** The item loop of `update`; it never adds an item. */
  function ItemPass(items: seq<Item>, speed: real, box: Box, e: Wallet): (r: Swept<Item, Wallet>)
    ensures |r.kept| <= |items|
  {
    Pass(items, ItemMover(speed), ItemHits(box), Pickup, e)
  }

  lemma {:induction false} PickupsCollect(e: Wallet, its: seq<Item>)
    ensures Apply(Pickup, e, its) == CollectAll(e, Kinds(its))
    decreases |its|
  {
    if its != [] {
      PickupsCollect(Pickup(e, its[0]), its[1..]);
      assert Kinds(its)[1..] == Kinds(its[1..]);
    }
  }

  /** The kinds of the items the player touches this frame, in the order the loop meets them. */
  function Picked(items: seq<Item>, speed: real, box: Box): seq<Kind>
  {
    Kinds(Filter(Moved(items, ItemMover(speed)), ItemHits(box)))
  }

  /** The item loop visits every item once, in order: the survivors are exactly the moved items the player
      does not touch, in their original order. */
  lemma ItemPassKept(items: seq<Item>, speed: real, box: Box, e: Wallet)
    ensures ItemPass(items, speed, box, e).kept == Filter(Moved(items, ItemMover(speed)), Not(ItemHits(box)))
  {
    PassKept(items, ItemMover(speed), ItemHits(box), Pickup, e);
  }

  /** After the item loop the counters are those of the touched items' pickups, applied in loop order. */
  lemma ItemPassWallet(items: seq<Item>, speed: real, box: Box, e: Wallet)
    ensures ItemPass(items, speed, box, e).state == CollectAll(e, Picked(items, speed, box))
  {
    PassState(items, ItemMover(speed), ItemHits(box), Pickup, e);
    PickupsCollect(e, Filter(Moved(items, ItemMover(speed)), ItemHits(box)));
  }
}
