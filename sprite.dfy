/** The base entity (sprite.js): a box with a speed and an active flag, and the
    frame counter of an animated sprite. Dafny has no class inheritance, so the
    entities of coin.js, player.js and enemy.js carry these fields themselves. */
module Sprites {
  import opened Utils

  const DEFAULT_COLOR: string := "#FF0000"
  const FPS: real := 20.0
  const FRAME_INTERVAL: real := 1000.0 / FPS

  class Sprite {
    var x: real
    var y: real
    var width: real
    var height: real
    var color: string
    var speedX: real
    var speedY: real
    var isActive: bool

    /** A new sprite is where it was put, at rest and active. */
    constructor (x: real, y: real, width: real, height: real, color: Option<string>)
      ensures this.x == x && this.y == y && this.width == width && this.height == height
      ensures this.color == StringOr(color, DEFAULT_COLOR)
      ensures speedX == 0.0 && speedY == 0.0 && isActive
    {
      this.x := x;
      this.y := y;
      this.width := width;
      this.height := height;
      this.color := StringOr(color, DEFAULT_COLOR);
      speedX := 0.0;
      speedY := 0.0;
      isActive := true;
    }

    /** The current bounding box; a function, so it changes nothing. */
    function GetBounds(): (r: Rect)
      reads this
      ensures r.x == x && r.y == y && r.width == width && r.height == height
    {
      Rect(x, y, width, height)
    }
  }

  /** A registered animation: how many frames it has and which row of the sheet.
      Both are JavaScript numbers, so neither need be whole. */
  datatype Animation = Animation(frames: real, row: real)

  /** `v` is a whole number. */
  predicate Whole(v: real)
  {
    v.Floor as real == v
  }

  /** The frame shown after `frameX` when the last frame index is `maxFrame`. */
  function NextFrame(frameX: real, maxFrame: real): (r: real)
    ensures r == 0.0 || (frameX < maxFrame && r == frameX + 1.0)
    ensures maxFrame <= frameX ==> r == 0.0
    ensures 0.0 <= frameX ==> 0.0 <= r < maxFrame + 1.0 || r == 0.0
  {
    if frameX < maxFrame then frameX + 1.0 else 0.0
  }

  /** Between whole numbers, a step of one from below stays whole and does not pass the upper one. */
  lemma WholeStep(a: real, b: real)
    requires Whole(a) && Whole(b) && a < b
    ensures a + 1.0 <= b && Whole(a + 1.0)
  {
    var m, n := a.Floor, b.Floor;
    assert m < n;
    assert (a + 1.0) == (m + 1) as real;
  }

  /** With whole frame numbers the next frame is a whole number in [0, maxFrame]. */
  lemma NextFrameInRange(frameX: real, maxFrame: real)
    requires 0.0 <= frameX && 0.0 <= maxFrame && Whole(frameX) && Whole(maxFrame)
    ensures var r := NextFrame(frameX, maxFrame); 0.0 <= r <= maxFrame && Whole(r)
  {
    if frameX < maxFrame {
      WholeStep(frameX, maxFrame);
    }
  }

  /** The frame reached from `frameX` after `n` advances. */
  function Advance(frameX: real, maxFrame: real, n: nat): real
  {
    if n == 0 then frameX else NextFrame(Advance(frameX, maxFrame, n - 1), maxFrame)
  }

  /** Starting from the first frame, the k-th advance shows frame k while k <= maxFrame. */
  lemma {:induction false} AdvanceCountsUp(maxFrame: real, k: nat)
    requires k as real <= maxFrame
    ensures Advance(0.0, maxFrame, k) == k as real
  {
    if k > 0 {
      AdvanceCountsUp(maxFrame, k - 1);
    }
  }

  /** With a whole last frame index the animation wraps round: maxFrame + 1
      advances from the first frame return to it. */
  lemma AdvanceWraps(maxFrame: nat)
    ensures Advance(0.0, maxFrame as real, maxFrame + 1) == 0.0
  {
    AdvanceCountsUp(maxFrame as real, maxFrame);
  }

  /** With a fractional last frame index the counter overshoots it: from the
      first frame it climbs to the first whole number above `maxFrame`. */
  lemma FractionalLastFrameOvershoots(maxFrame: real)
    requires 0.0 <= maxFrame && !Whole(maxFrame)
    ensures Advance(0.0, maxFrame, maxFrame.Floor as nat + 1) == maxFrame.Floor as real + 1.0 > maxFrame
  {
    AdvanceCountsUp(maxFrame, maxFrame.Floor as nat);
  }

  class AnimatedSprite {
    var x: real
    var y: real
    var width: real
    var height: real
    var color: string
    var speedX: real
    var speedY: real
    var isActive: bool
    var frameX: real
    var frameY: real
    var maxFrame: real
    var fps: real
    var frameTimer: real
    var frameInterval: real
    var animations: map<string, Animation>
    var currentAnimation: string

    constructor (x: real, y: real, width: real, height: real, color: Option<string>)
      ensures this.x == x && this.y == y && this.width == width && this.height == height
      ensures this.color == StringOr(color, DEFAULT_COLOR)
      ensures speedX == 0.0 && speedY == 0.0 && isActive
      ensures frameX == 0.0 && frameY == 0.0 && maxFrame == 0.0
      ensures fps == FPS && frameTimer == 0.0 && frameInterval == FRAME_INTERVAL
      ensures animations == map[] && currentAnimation == "idle"
    {
      this.x := x;
      this.y := y;
      this.width := width;
      this.height := height;
      this.color := StringOr(color, DEFAULT_COLOR);
      speedX := 0.0;
      speedY := 0.0;
      isActive := true;
      frameX := 0.0;
      frameY := 0.0;
      maxFrame := 0.0;
      fps := FPS;
      frameTimer := 0.0;
      frameInterval := 1000.0 / FPS;
      animations := map[];
      currentAnimation := "idle";
    }

    method AddAnimation(name: string, frames: real, row: real)
      modifies this`animations
      ensures animations == old(animations)[name := Animation(frames, row)]
    {
      animations := animations[name := Animation(frames, row)];
    }

    /** Switch to a registered animation other than the current one, from its first frame. */
    method PlayAnimation(name: string)
      modifies this`currentAnimation, this`frameX, this`frameY, this`maxFrame
      ensures old(currentAnimation) == name || name !in animations ==>
        currentAnimation == old(currentAnimation) && frameX == old(frameX)
        && frameY == old(frameY) && maxFrame == old(maxFrame)
      ensures old(currentAnimation) != name && name in animations ==>
        currentAnimation == name && frameX == 0.0
        && frameY == animations[name].row && maxFrame == animations[name].frames
    {
      if currentAnimation != name && name in animations {
        currentAnimation := name;
        frameX := 0.0;
        frameY := animations[name].row;
        maxFrame := animations[name].frames;
      }
    }

    /** Accumulate time until more than one frame interval has passed, then show the next frame. */
    method UpdateAnimation(deltaTime: real)
      modifies this`frameTimer, this`frameX
      ensures old(frameTimer) <= frameInterval ==>
        frameTimer == old(frameTimer) + deltaTime && frameX == old(frameX)
      ensures old(frameTimer) > frameInterval ==>
        frameTimer == 0.0 && frameX == NextFrame(old(frameX), maxFrame)
      ensures old(frameTimer) > frameInterval && old(frameX) >= 0.0 ==>
        0.0 <= frameX < maxFrame + 1.0 || frameX == 0.0
      ensures old(frameTimer) > frameInterval && old(frameX) >= 0.0 && maxFrame >= 0.0
              && Whole(old(frameX)) && Whole(maxFrame) ==>
        0.0 <= frameX <= maxFrame && Whole(frameX)
    {
      if frameTimer > frameInterval {
        frameTimer := 0.0;
        if frameX < maxFrame {
          if 0.0 <= frameX && 0.0 <= maxFrame && Whole(frameX) && Whole(maxFrame) {
            NextFrameInRange(frameX, maxFrame);
          }
          frameX := frameX + 1.0;
        } else {
          frameX := 0.0;
        }
      } else {
        frameTimer := frameTimer + deltaTime;
      }
    }
  }
}
