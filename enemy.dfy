/** The enemy object of enemy.js, whose `update` changes its fields in place;
    each method is proved to perform the matching step of `EnemySpec`. */
module Enemies {
  import opened Utils
  import opened Platforms
  import opened EnemySpec

  class Enemy {
    const typeName: string
    const kind: Kind
    const width: real := KindWidth(kind)
    const height: real := KindHeight(kind)
    const color: string := KindColor(kind)
    const gravity: real := KindGravity(kind)
    const moveInterval: real := MOVE_INTERVAL
    const jumpInterval: real := JUMP_INTERVAL
    const defeatDuration: real := DEFEAT_DURATION
    var x: real
    var y: real
    var speedX: real
    var speedY: real
    var isActive: bool
    var direction: real
    var moveTimer: real
    var jumpTimer: real
    var isDefeated: bool
    var defeatTimer: real
    var onGround: bool
    var originalX: Option<real>
    var originalY: Option<real>

    function State(): EnemyState
      reads this
    {
      EnemyState(kind, x, y, speedX, speedY, isActive, direction, moveTimer, jumpTimer,
                 isDefeated, defeatTimer, onGround, originalX, originalY)
    }

    function GetBounds(): (r: Rect)
      reads this
      ensures r == EnemySpec.Bounds(State())
    {
      Rect(x, y, width, height)
    }

    constructor (x: real, y: real, typeName: string)
      ensures this.typeName == typeName && kind == ParseKind(typeName)
      ensures State() == Spawn(x, y, ParseKind(typeName))
    {
      this.typeName := typeName;
      kind := ParseKind(typeName);
      this.x := x;
      this.y := y;
      speedX := if typeName == "walker" then CRUISE_SPEED else 0.0;
      speedY := 0.0;
      isActive := true;
      direction := -1.0;
      moveTimer := 0.0;
      jumpTimer := 0.0;
      isDefeated := false;
      defeatTimer := 0.0;
      onGround := false;
      originalX := None;
      originalY := None;
    }

    /** `defeat`; the particle effect is not modelled. */
    method Defeat()
      modifies this
      ensures State() == EnemySpec.Defeat(old(State()))
    {
      if isDefeated {
        return;
      }
      isDefeated := true;
      defeatTimer := 0.0;
      speedX := 0.0;
      speedY := 0.0;
    }

    /** `update(deltaTime, platforms, player)`, with the player's x in `playerX`. */
    method Update(deltaTime: real, platforms: seq<Platform>, playerX: Option<real>, sin: real -> real)
      modifies this
      ensures State() == Step(old(State()), deltaTime, platforms, playerX, sin)
    {
      if !isActive {
        return;
      }
      if isDefeated {
        defeatTimer := defeatTimer + deltaTime;
        if defeatTimer >= defeatDuration {
          isActive := false;
        }
        return;
      }
      var prevX := x;
      var prevY := y;
      FallAndMove();
      Behave(prevX, prevY, deltaTime, platforms, playerX, sin);
      KeepInStage();
    }

    /** Gravity (except for flyers), then one step of motion. */
    method FallAndMove()
      modifies this
      ensures State() == Move(Fall(old(State())))
    {
      if kind != Flyer {
        speedY := speedY + gravity;
      }
      x := x + speedX;
      y := y + speedY;
    }

    /** The per-type branch of a live update. */
    method Behave(prevX: real, prevY: real, deltaTime: real, platforms: seq<Platform>,
                  playerX: Option<real>, sin: real -> real)
      modifies this
      ensures State() == Act(old(State()), prevX, prevY, deltaTime, platforms, playerX, sin)
    {
      match kind {
        case Walker => WalkOver(prevX, prevY, platforms);
        case Flyer => FlyFrom(prevY, deltaTime, sin);
        case Jumper => HopOver(prevX, prevY, deltaTime, platforms, playerX);
        case Basic =>
      }
    }

    /** The walker branch: one pass over the platforms with the two locals. */
    method WalkOver(prevX: real, prevY: real, platforms: seq<Platform>)
      modifies this
      ensures State() == Walk(old(State()), prevX, prevY, platforms)
    {
      var onGround := false;
      var aboutToFall := true;
      ghost var goal := WalkPlatforms(Scan(State(), onGround, aboutToFall), prevX, prevY, platforms);
      for i := 0 to |platforms|
        invariant WalkPlatforms(Scan(State(), onGround, aboutToFall), prevX, prevY, platforms[i..]) == goal
      {
        assert platforms[i..][0] == platforms[i] && platforms[i..][1..] == platforms[i + 1..];
        onGround, aboutToFall := WalkStep(prevX, prevY, platforms[i], onGround, aboutToFall);
      }
      if onGround && aboutToFall {
        speedX := speedX * -1.0;
        direction := direction * -1.0;
      }
    }

    /** One iteration of the walker's loop: the support and look-ahead tests on the
        two locals, then the collision corrections. */
    method WalkStep(prevX: real, prevY: real, platform: Platform, onGround: bool, aboutToFall: bool)
      returns (onGround': bool, aboutToFall': bool)
      modifies this
      ensures Scan(State(), onGround', aboutToFall')
           == WalkPlatform(Scan(old(State()), onGround, aboutToFall), prevX, prevY, platform)
    {
      onGround', aboutToFall' := SenseStep(platform, onGround, aboutToFall);
      if CheckCollision(GetBounds(), platform.Bounds()) {
        BumpSideStep(prevX, platform);
        onGround' := BumpVerticalStep(prevY, platform, onGround', aboutToFall');
      }
    }

    /** The side correction of the walker's loop. */
    method BumpSideStep(prevX: real, platform: Platform)
      modifies this
      ensures State() == BumpSide(old(State()), prevX, platform)
    {
      if prevX + width <= platform.x + SLOP || prevX >= platform.x + platform.width - SLOP {
        speedX := speedX * -1.0;
        direction := direction * -1.0;
        x := prevX;
      }
    }

    /** The support and look-ahead tests; they change no field. */
    method SenseStep(platform: Platform, onGround: bool, aboutToFall: bool)
      returns (onGround': bool, aboutToFall': bool)
      ensures Scan(State(), onGround', aboutToFall') == Sense(Scan(State(), onGround, aboutToFall), platform)
    {
      onGround', aboutToFall' := onGround, aboutToFall;
      if x + width > platform.x && x < platform.x + platform.width
         && Abs((y + height) - platform.y) < SLOP {
        onGround' := true;
        var lookAheadX := if speedX < 0.0 then x - LOOK_AHEAD else x + width + LOOK_AHEAD;
        if lookAheadX >= platform.x && lookAheadX <= platform.x + platform.width {
          aboutToFall' := false;
        }
      }
    }

    /** The landing and ceiling corrections of the walker's loop. */
    method BumpVerticalStep(prevY: real, platform: Platform, onGround: bool, aboutToFall: bool)
      returns (onGround': bool)
      modifies this
      ensures Scan(State(), onGround', aboutToFall)
           == BumpVertical(Scan(old(State()), onGround, aboutToFall), prevY, platform)
    {
      onGround' := onGround;
      if prevY + height <= platform.y + SLOP && speedY > 0.0 {
        y := platform.y - height;
        speedY := 0.0;
        onGround' := true;
      } else if prevY >= platform.y + platform.height - SLOP && speedY < 0.0 {
        y := platform.y + platform.height;
        speedY := 0.0;
      }
    }

    /** The flyer branch. */
    method FlyFrom(prevY: real, deltaTime: real, sin: real -> real)
      modifies this
      ensures State() == Fly(old(State()), prevY, deltaTime, sin)
    {
      FlyTimer(deltaTime);
      y := prevY + sin(moveTimer / SWAY_PERIOD) * SWAY_AMPLITUDE;
      if speedX == 0.0 {
        speedX := CRUISE_SPEED;
      }
    }

    /** The flyer's reversal timer. */
    method FlyTimer(deltaTime: real)
      modifies this
      ensures State() == FlyTurn(old(State()), deltaTime)
    {
      moveTimer := moveTimer + deltaTime;
      if moveTimer >= moveInterval {
        moveTimer := 0.0;
        speedX := -speedX;
        direction := direction * -1.0;
      }
    }

    /** The jumper branch: the jump timer, then one pass over the platforms. */
    method HopOver(prevX: real, prevY: real, deltaTime: real, platforms: seq<Platform>,
                   playerX: Option<real>)
      modifies this
      ensures State() == Hop(old(State()), prevX, prevY, deltaTime, platforms, playerX)
    {
      LaunchStep(deltaTime, playerX);
      onGround := false;
      ghost var goal := HopPlatforms(State(), prevX, prevY, platforms);
      for i := 0 to |platforms|
        invariant HopPlatforms(State(), prevX, prevY, platforms[i..]) == goal
      {
        assert platforms[i..][0] == platforms[i] && platforms[i..][1..] == platforms[i + 1..];
        HopStep(prevX, prevY, platforms[i]);
      }
    }

    /** The jump timer of the jumper branch. */
    method LaunchStep(deltaTime: real, playerX: Option<real>)
      modifies this
      ensures State() == Launch(old(State()), deltaTime, playerX)
    {
      if onGround {
        jumpTimer := jumpTimer + deltaTime;
        if jumpTimer >= jumpInterval {
          jumpTimer := 0.0;
          speedY := JUMP_SPEED;
          onGround := false;
          if playerX.Some? && Abs(x - playerX.value) < CHASE_RANGE {
            direction := if playerX.value < x then -1.0 else 1.0;
            speedX := direction * CHASE_SPEED;
          }
        }
      }
    }

    /** One iteration of the jumper's loop: landing, ceiling, side, as an else-if chain. */
    method HopStep(prevX: real, prevY: real, platform: Platform)
      modifies this
      ensures State() == HopPlatform(old(State()), prevX, prevY, platform)
    {
      if CheckCollision(GetBounds(), platform.Bounds()) {
        if prevY + height <= platform.y + SLOP && speedY > 0.0 {
          y := platform.y - height;
          speedY := 0.0;
          onGround := true;
          speedX := 0.0;
        } else if prevY >= platform.y + platform.height - SLOP && speedY < 0.0 {
          y := platform.y + platform.height;
          speedY := 0.0;
        } else if prevX + width <= platform.x + SLOP || prevX >= platform.x + platform.width - SLOP {
          speedX := speedX * -1.0;
          direction := direction * -1.0;
          x := prevX;
        }
      }
    }

    /** The stage clamp at the end of every live update. */
    method KeepInStage()
      modifies this
      ensures State() == KeepOnStage(old(State()))
    {
      KeepInStageWidth();
      KeepInStageHeight();
    }

    method KeepInStageWidth()
      modifies this
      ensures State() == KeepInWidth(old(State()))
    {
      if x < 0.0 {
        x := 0.0;
        speedX := speedX * -1.0;
        direction := direction * -1.0;
      }
      if x + width > STAGE_WIDTH {
        x := STAGE_WIDTH - width;
        speedX := speedX * -1.0;
        direction := direction * -1.0;
      }
    }

    method KeepInStageHeight()
      modifies this
      ensures State() == KeepInHeight(old(State()))
    {
      if y < 0.0 {
        y := 0.0;
        speedY := 0.0;
      }
      if y + height > STAGE_HEIGHT {
        y := STAGE_HEIGHT - height;
        speedY := 0.0;
        onGround := true;
      }
    }
  }

  /** The states of a list of enemies, in order. */
  function States(es: seq<Enemy>): (r: seq<EnemyState>)
    reads es
    ensures |r| == |es|
  {
    if es == [] then [] else [es[0].State()] + States(es[1..])
  }

  /** The i-th state is the state of the i-th enemy. */
  lemma {:induction false} StatesAt(es: seq<Enemy>)
    ensures forall i :: 0 <= i < |es| ==> States(es)[i] == es[i].State()
  {
    if es != [] {
      StatesAt(es[1..]);
      forall i | 1 <= i < |es|
        ensures States(es)[i] == es[i].State()
      {
        assert es[1..][i - 1] == es[i];
      }
    }
  }
}
