/** The rectangle helpers every mover uses (utils.js), plus the stage size that
    the player and the enemies are both clamped to. */
module Utils {

  datatype Option<T> = None | Some(value: T)

  /** An axis-aligned bounding box: top-left corner and size. */
  datatype Rect = Rect(x: real, y: real, width: real, height: real)

  /** The stage rectangle is [0, STAGE_WIDTH] x [0, STAGE_HEIGHT]. */
  const STAGE_WIDTH: real := 800.0
  const STAGE_HEIGHT: real := 600.0

  /** JavaScript's `s || fallback` on an optional string: a missing or empty
      string is falsy and gives the fallback. */
  function StringOr(s: Option<string>, fallback: string): (r: string)
    ensures s.Some? && s.value != "" ==> r == s.value
    ensures s.None? || s.value == "" ==> r == fallback
  {
    if s.Some? && s.value != "" then s.value else fallback
  }

  /** `Math.abs`. */
  function Abs(v: real): (r: real)
    ensures r >= 0.0 && (r == v || r == -v)
  {
    if v < 0.0 then -v else v
  }

  /** Strict overlap of two rectangles: all four half-plane tests use `<`/`>`,
      so rectangles that only share an edge do not collide. */
  predicate CheckCollision(a: Rect, b: Rect)
  {
    && a.x < b.x + b.width
    && a.x + a.width > b.x
    && a.y < b.y + b.height
    && a.y + a.height > b.y
  }

  /** `Math.max(lo, Math.min(hi, v))`. */
  function Clamp(v: real, lo: real, hi: real): (r: real)
    ensures lo <= hi ==> lo <= r <= hi
    ensures lo <= v <= hi ==> r == v
    ensures v < lo ==> r == lo
    ensures lo <= hi < v ==> r == hi
    ensures hi < lo ==> r == lo
  {
    var m := if hi < v then hi else v;
    if lo > m then lo else m
  }

  /** Linear interpolation `start * (1 - t) + end * t`. */
  function Lerp(start: real, end: real, t: real): (r: real)
    ensures t == 0.0 ==> r == start
    ensures t == 1.0 ==> r == end
    ensures start == end ==> r == start
  {
    start * (1.0 - t) + end * t
  }

  /** A facing: -1 for left, 1 for right. */
  predicate Unit(d: real)
  {
    d == 1.0 || d == -1.0
  }

  /** No object occurs twice in the list. */
  ghost predicate Distinct<T>(s: seq<T>)
  {
    forall i, j :: 0 <= i < j < |s| ==> s[i] != s[j]
  }

  lemma CollisionIsSymmetric(a: Rect, b: Rect)
    ensures CheckCollision(a, b) == CheckCollision(b, a)
  {
  }

  lemma CollisionIsReflexive(a: Rect)
    requires a.width > 0.0 && a.height > 0.0
    ensures CheckCollision(a, a)
  {
  }

  /** Rectangles that touch along a vertical or a horizontal edge do not collide. */
  lemma EdgeContactIsNoCollision(a: Rect, b: Rect)
    requires a.x + a.width == b.x || b.x + b.width == a.x
          || a.y + a.height == b.y || b.y + b.height == a.y
    ensures !CheckCollision(a, b)
  {
  }

  /** Clamping twice is clamping once. */
  lemma ClampIsIdempotent(v: real, lo: real, hi: real)
    ensures Clamp(Clamp(v, lo, hi), lo, hi) == Clamp(v, lo, hi)
  {
  }
}
