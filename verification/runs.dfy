/** Runs of several frames of `update`, as the animation loop calls it once per display refresh. */
module Runs {
  import opened Entities
  import opened Simulation

  /** The state after one `update` per entry of `ds`, in order; `sin` is `Math.sin` throughout. */
  function Run(w: World, ds: seq<Draws>, sin: real -> real): World
    decreases |ds|
  {
    if ds == [] then w else Run(Step(w, ds[0], sin), ds[1..], sin)
  }

  /** The invariant holds after any number of frames. */
  lemma {:induction false} RunKeepsInv(w: World, ds: seq<Draws>, sin: real -> real)
    requires Inv(w)
    ensures Inv(Run(w, ds, sin))
    decreases |ds|
  {
    if ds != [] {
      StepKeepsInv(w, ds[0], sin);
      RunKeepsInv(Step(w, ds[0], sin), ds[1..], sin);
    }
  }

  /** After game over, no number of frames changes anything. */
  lemma {:induction false} RunWhenOver(w: World, ds: seq<Draws>, sin: real -> real)
    requires w.gameOver
    ensures Run(w, ds, sin) == w
    decreases |ds|
  {
    if ds != [] {
      RunWhenOver(w, ds[1..], sin);
    }
  }

  /** The number of speed increments between frame f (excluded) and frame f + n (included). */
  function Ramps(f: int, n: nat): int
  {
    (f + n) / RAMP_EVERY - f / RAMP_EVERY
  }

  lemma RampStep(f: int)
    ensures Ramps(f, 1) == if (f + 1) % RAMP_EVERY == 0 then 1 else 0
  {
    var q, r := f / RAMP_EVERY, f % RAMP_EVERY;
    assert f == RAMP_EVERY * q + r && 0 <= r < RAMP_EVERY;
    if r + 1 == RAMP_EVERY {
      assert f + 1 == RAMP_EVERY * (q + 1);
    } else {
      assert f + 1 == RAMP_EVERY * q + (r + 1);
    }
  }

  /** Over n frames that end with the game still running, the frame counter and the day/night tick grow by n
      and the speed by 0.2 for every multiple of 300 the frame counter passes. */
  lemma {:induction false} RunCounters(w: World, ds: seq<Draws>, sin: real -> real)
    requires !Run(w, ds, sin).gameOver
    ensures var r := Run(w, ds, sin);
      && r.frame == w.frame + |ds| && r.t == w.t + |ds|
      && r.speed == w.speed + SPEED_STEP * Ramps(w.frame, |ds|) as real
    decreases |ds|
  {
    if ds != [] {
      if w.gameOver {
        RunWhenOver(w, ds, sin);
      }
      var w1 := Step(w, ds[0], sin);
      StepCounters(w, ds[0], sin);
      RunCounters(w1, ds[1..], sin);
      RampStep(w.frame);
      assert Ramps(w.frame, |ds|) == Ramps(w.frame, 1) + Ramps(w.frame + 1, |ds| - 1);
    }
  }

  /** 300 frames from a fresh start without a game over raise the speed by exactly one step, from 5 to 5.2. */
  lemma SpeedAfter300Frames(ds: seq<Draws>, sin: real -> real)
    requires |ds| == 300
    ensures !Run(Initial(), ds, sin).gameOver ==> Run(Initial(), ds, sin).speed == START_SPEED + SPEED_STEP
  {
    if !Run(Initial(), ds, sin).gameOver {
      RunCounters(Initial(), ds, sin);
    }
  }

  /** Over frames that end with the game still running, the score grows by at least one per frame. */
  lemma {:induction false} RunScore(w: World, ds: seq<Draws>, sin: real -> real)
    requires !Run(w, ds, sin).gameOver
    ensures Run(w, ds, sin).score >= w.score + |ds|
    decreases |ds|
  {
    if ds != [] {
      if w.gameOver {
        RunWhenOver(w, ds, sin);
      }
      StepScore(w, ds[0], sin);
      RunScore(Step(w, ds[0], sin), ds[1..], sin);
    }
  }
}
