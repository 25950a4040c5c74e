/** Axis-aligned boxes, the strict overlap test `aabb` and the integer `clamp` of game.js. */
module Geometry {

  /** A rectangle given by its top-left corner and its size, in canvas units (y grows downwards). */
  datatype Box = Box(x: real, y: real, w: real, h: real)

  /** A box with a positive width and height, as every box the game builds. */
  predicate Proper(b: Box)
  {
    b.w > 0.0 && b.h > 0.0
  }

  /** The point (px, py) lies strictly inside b. */
  predicate Inside(b: Box, px: real, py: real)
  {
    b.x < px < b.x + b.w && b.y < py < b.y + b.h
  }

  function Max(a: real, b: real): real { if a < b then b else a }
  function Min(a: real, b: real): real { if a < b then a else b }

  /** `aabb`: the boxes overlap strictly; boxes that only touch along an edge do not. For boxes of positive
      size this says that on each axis the two intervals share a stretch of positive length. */
  predicate Overlaps(a: Box, b: Box): (r: bool)
    ensures Proper(a) && Proper(b) ==>
      (r <==> Max(a.x, b.x) < Min(a.x + a.w, b.x + b.w) && Max(a.y, b.y) < Min(a.y + a.h, b.y + b.h))
  {
    a.x < b.x + b.w && a.x + a.w > b.x &&
    a.y < b.y + b.h && a.y + a.h > b.y
  }

  /** For proper boxes the four comparisons of `aabb` say exactly that the two open rectangles share a point. */
  lemma OverlapsIffSharedPoint(a: Box, b: Box)
    requires Proper(a) && Proper(b)
    ensures Overlaps(a, b) <==> exists px, py :: Inside(a, px, py) && Inside(b, px, py)
  {
    if Overlaps(a, b) {
      var px := (Max(a.x, b.x) + Min(a.x + a.w, b.x + b.w)) / 2.0;
      var py := (Max(a.y, b.y) + Min(a.y + a.h, b.y + b.h)) / 2.0;
      assert Inside(a, px, py) && Inside(b, px, py);
    }
  }

  /** Boxes that only share an edge do not overlap: the test is strict. */
  lemma TouchingIsNotOverlap(a: Box, b: Box)
    requires a.x + a.w == b.x || a.y + a.h == b.y
    ensures !Overlaps(a, b) && !Overlaps(b, a)
  {
  }

  /** `clamp(v, min, max)`, that is `Math.max(min, Math.min(max, v))`, on the integers it is applied to. */
  function Clamp(v: int, lo: int, hi: int): (r: int)
    ensures lo <= hi ==> lo <= r <= hi
    ensures lo <= v <= hi ==> r == v
    ensures lo <= hi && hi < v ==> r == hi
    ensures v < lo ==> r == lo
  {
    var m := if hi < v then hi else v;
    if lo > m then lo else m
  }
}
