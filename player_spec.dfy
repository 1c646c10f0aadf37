/** The player controller of player.js on values: the small input transitions
    and the per-frame `update`, built from the same passes as the source. */
module PlayerSpec {
  import opened Utils
  import opened Platforms
  import C = CoinSpec
  import E = EnemySpec

  const WIDTH: real := 40.0
  const HEIGHT: real := 60.0
  const GRAVITY: real := 0.5
  const JUMP_FORCE: real := -12.0
  const MAX_SPEED_X: real := 5.0
  const MAX_SPEED_Y: real := 12.0
  const FRICTION: real := 0.8
  const ACCELERATION: real := 1.0
  const INVULNERABLE_DURATION: real := 1500.0
  const KNOCKBACK: real := 5.0
  /** The tolerance of the side tests of every collision. */
  const SLOP: real := 10.0
  const COIN_SCORE: int := 10
  const STOMP_SCORE: int := 50
  const START_X: real := 50.0
  const START_Y: real := 300.0
  const START_LIVES: int := 3

  datatype PlayerState = PlayerState(
    x: real, y: real, speedX: real, speedY: real,
    isJumping: bool, isGrounded: bool, direction: real,
    lives: int, score: int, isInvulnerable: bool, invulnerableTimer: real)

  function Box(s: PlayerState): Rect
  {
    Rect(s.x, s.y, WIDTH, HEIGHT)
  }

  /** Both speeds within the clamp limits. */
  predicate Bounded(s: PlayerState)
  {
    -MAX_SPEED_X <= s.speedX <= MAX_SPEED_X && -MAX_SPEED_Y <= s.speedY <= MAX_SPEED_Y
  }

  /** The constructor: at rest, facing right, three lives, no score. */
  function Spawn(x: real, y: real): (s: PlayerState)
    ensures s.x == x && s.y == y && s.speedX == 0.0 && s.speedY == 0.0
    ensures !s.isJumping && !s.isGrounded && s.direction == 1.0
    ensures s.lives == START_LIVES && s.score == 0 && !s.isInvulnerable && s.invulnerableTimer == 0.0
  {
    PlayerState(x, y, 0.0, 0.0, false, false, 1.0, START_LIVES, 0, false, 0.0)
  }

  function MoveLeft(s: PlayerState): (r: PlayerState)
    ensures r.speedX == s.speedX - ACCELERATION && r.direction == -1.0
    ensures r.(speedX := s.speedX, direction := s.direction) == s
  {
    s.(speedX := s.speedX - ACCELERATION, direction := -1.0)
  }

  function MoveRight(s: PlayerState): (r: PlayerState)
    ensures r.speedX == s.speedX + ACCELERATION && r.direction == 1.0
    ensures r.(speedX := s.speedX, direction := s.direction) == s
  {
    s.(speedX := s.speedX + ACCELERATION, direction := 1.0)
  }

  /** A jump starts only from the ground. */
  function Jump(s: PlayerState): (r: PlayerState)
    ensures !s.isGrounded ==> r == s
    ensures s.isGrounded ==> r.speedY == JUMP_FORCE && r.isJumping && !r.isGrounded
    ensures r.(speedY := s.speedY, isJumping := s.isJumping, isGrounded := s.isGrounded) == s
  {
    if s.isGrounded then s.(speedY := JUMP_FORCE, isJumping := true, isGrounded := false) else s
  }

  /** `hurt`: outside the invulnerability window, one life, the start of a new
      window and a knockback up and away from the facing direction. */
  function Hurt(s: PlayerState): (r: PlayerState)
    ensures s.isInvulnerable ==> r == s
    ensures !s.isInvulnerable ==>
      && r.lives == s.lives - 1 && r.isInvulnerable && r.invulnerableTimer == 0.0
      && r.speedY == -6.0 && r.speedX == -s.direction * KNOCKBACK
    ensures r.x == s.x && r.y == s.y && r.direction == s.direction && r.score == s.score
    ensures r.isJumping == s.isJumping && r.isGrounded == s.isGrounded
  {
    if s.isInvulnerable then s
    else s.(lives := s.lives - 1, isInvulnerable := true, invulnerableTimer := 0.0,
            speedY := JUMP_FORCE / 2.0, speedX := (s.direction * -1.0) * KNOCKBACK)
  }

  /** `reset`: back to the start, at rest, facing right, with a fresh life count
      and score; the jumping and grounded flags are left as they were. */
  function Reset(s: PlayerState): (r: PlayerState)
    ensures r.x == START_X && r.y == START_Y && r.speedX == 0.0 && r.speedY == 0.0
    ensures r.lives == START_LIVES && r.score == 0 && !r.isInvulnerable && r.invulnerableTimer == 0.0
    ensures r.direction == 1.0
    ensures r.isJumping == s.isJumping && r.isGrounded == s.isGrounded
  {
    s.(x := START_X, y := START_Y, speedX := 0.0, speedY := 0.0, lives := START_LIVES, score := 0,
       isInvulnerable := false, invulnerableTimer := 0.0, direction := 1.0)
  }

  // ---- update, pass by pass ----

  /** Gravity, friction, then both speeds clamped. */
  function Accelerate(s: PlayerState): (r: PlayerState)
    ensures Bounded(r)
  {
    var vy := s.speedY + GRAVITY;
    var vx := s.speedX * FRICTION;
    s.(speedX := Clamp(vx, -MAX_SPEED_X, MAX_SPEED_X), speedY := Clamp(vy, -MAX_SPEED_Y, MAX_SPEED_Y))
  }

  function Move(s: PlayerState): PlayerState
  {
    s.(x := s.x + s.speedX, y := s.y + s.speedY)
  }

  /** One platform of the collision pass: landing, ceiling, left side, right
      side, as an else-if chain. */
  function HitPlatform(s: PlayerState, prevX: real, prevY: real, p: Platform): PlayerState
  {
    if !CheckCollision(Box(s), p.Bounds()) then s
    else if prevY + HEIGHT <= p.y + SLOP && s.speedY > 0.0 then
      s.(y := p.y - HEIGHT, speedY := 0.0, isGrounded := true, isJumping := false)
    else if prevY >= p.y + p.height - SLOP && s.speedY < 0.0 then
      s.(y := p.y + p.height, speedY := 0.0)
    else if prevX + WIDTH <= p.x + SLOP && s.speedX > 0.0 then
      s.(x := p.x - WIDTH, speedX := 0.0)
    else if prevX >= p.x + p.width - SLOP && s.speedX < 0.0 then
      s.(x := p.x + p.width, speedX := 0.0)
    else s
  }

  function HitPlatforms(s: PlayerState, prevX: real, prevY: real, ps: seq<Platform>): PlayerState
    decreases |ps|
  {
    if ps == [] then s else HitPlatforms(HitPlatform(s, prevX, prevY, ps[0]), prevX, prevY, ps[1..])
  }

  /** One coin of the pickup pass. */
  function TouchCoin(s: PlayerState, c: C.CoinState): (PlayerState, C.CoinState)
  {
    if c.isActive && CheckCollision(Box(s), C.Bounds(c)) then (s.(score := s.score + COIN_SCORE), C.Collect(c))
    else (s, c)
  }

  /** The pickup pass: the player after it and the coins, in order. */
  function CollectCoins(s: PlayerState, cs: seq<C.CoinState>): (r: (PlayerState, seq<C.CoinState>))
    decreases |cs|
    ensures |r.1| == |cs|
  {
    if cs == [] then (s, [])
    else
      var t := TouchCoin(s, cs[0]);
      var rest := CollectCoins(t.0, cs[1..]);
      (rest.0, [t.1] + rest.1)
  }

  /** One enemy of the enemy pass: falling onto it from above stomps it, any
      other contact hurts. */
  function MeetEnemy(s: PlayerState, prevY: real, e: E.EnemyState): (PlayerState, E.EnemyState)
  {
    if e.isActive && CheckCollision(Box(s), E.Bounds(e)) then
      if prevY + HEIGHT <= e.y + SLOP && s.speedY > 0.0 then
        (s.(speedY := JUMP_FORCE / 1.5, score := s.score + STOMP_SCORE), E.Defeat(e))
      else (Hurt(s), e)
    else (s, e)
  }

  function MeetEnemies(s: PlayerState, prevY: real, es: seq<E.EnemyState>): (r: (PlayerState, seq<E.EnemyState>))
    decreases |es|
    ensures |r.1| == |es|
  {
    if es == [] then (s, [])
    else
      var t := MeetEnemy(s, prevY, es[0]);
      var rest := MeetEnemies(t.0, prevY, es[1..]);
      (rest.0, [t.1] + rest.1)
  }

  /** The invulnerability window closes once its timer reaches the duration. */
  function CountInvulnerability(s: PlayerState, dt: real): (r: PlayerState)
    ensures !s.isInvulnerable ==> r == s
    ensures s.isInvulnerable && s.invulnerableTimer + dt >= INVULNERABLE_DURATION ==>
      !r.isInvulnerable && r.invulnerableTimer == 0.0
    ensures s.isInvulnerable && s.invulnerableTimer + dt < INVULNERABLE_DURATION ==>
      r.isInvulnerable && r.invulnerableTimer == s.invulnerableTimer + dt
    ensures r.(isInvulnerable := s.isInvulnerable, invulnerableTimer := s.invulnerableTimer) == s
  {
    if !s.isInvulnerable then s
    else
      var t := s.invulnerableTimer + dt;
      if t >= INVULNERABLE_DURATION then s.(isInvulnerable := false, invulnerableTimer := 0.0)
      else s.(invulnerableTimer := t)
  }

  /** The stage clamp: the box ends on the stage; the floor stops the fall and
      grounds the player. */
  function KeepOnStage(s: PlayerState): (r: PlayerState)
    ensures 0.0 <= r.x && r.x + WIDTH <= STAGE_WIDTH
    ensures 0.0 <= r.y && r.y + HEIGHT <= STAGE_HEIGHT
    ensures 0.0 <= s.x && s.x + WIDTH <= STAGE_WIDTH ==> r.x == s.x
    ensures 0.0 <= s.y && s.y + HEIGHT <= STAGE_HEIGHT ==>
      r.y == s.y && r.speedY == s.speedY && r.isGrounded == s.isGrounded
    ensures s.y + HEIGHT > STAGE_HEIGHT ==> r.isGrounded && !r.isJumping && r.speedY == 0.0
    ensures r.speedX == s.speedX && r.direction == s.direction
    ensures r.lives == s.lives && r.score == s.score
    ensures r.isInvulnerable == s.isInvulnerable && r.invulnerableTimer == s.invulnerableTimer
    ensures Bounded(s) ==> Bounded(r)
  {
    var s1 := if s.x < 0.0 then s.(x := 0.0) else s;
    var s2 := if s1.x + WIDTH > STAGE_WIDTH then s1.(x := STAGE_WIDTH - WIDTH) else s1;
    var s3 := if s2.y < 0.0 then s2.(y := 0.0, speedY := 0.0) else s2;
    if s3.y + HEIGHT > STAGE_HEIGHT then
      s3.(y := STAGE_HEIGHT - HEIGHT, speedY := 0.0, isGrounded := true, isJumping := false)
    else s3
  }

  /** What one `update` leaves behind: the player and the coins and enemies it was given. */
  datatype Tick = Tick(player: PlayerState, coins: seq<C.CoinState>, enemies: seq<E.EnemyState>)

  /** The player after the moves and the platform pass, before the pickups. */
  function Landed(s: PlayerState, ps: seq<Platform>): PlayerState
  {
    HitPlatforms(Move(Accelerate(s)).(isGrounded := false), s.x, s.y, ps)
  }

  /** The pickup pass, then the enemy pass unless a window is open. */
  function Contact(s: PlayerState, prevY: real, cs: seq<C.CoinState>, es: seq<E.EnemyState>): Tick
  {
    var picked := CollectCoins(s, cs);
    var met := if !picked.0.isInvulnerable then MeetEnemies(picked.0, prevY, es) else (picked.0, es);
    Tick(met.0, picked.1, met.1)
  }

  /** One `update(deltaTime, platforms, coins, enemies)`. */
  function Update(s: PlayerState, dt: real, ps: seq<Platform>, cs: seq<C.CoinState>,
                  es: seq<E.EnemyState>): Tick
  {
    var t := Contact(Landed(s, ps), s.y, cs, es);
    Tick(KeepOnStage(CountInvulnerability(t.player, dt)), t.coins, t.enemies)
  }

  // ---- properties ----

  /** `Update` unfolded one level, for callers that state the passes separately. */
  lemma UpdateUnfolds(s: PlayerState, dt: real, ps: seq<Platform>, cs: seq<C.CoinState>, es: seq<E.EnemyState>)
    ensures var t := Contact(Landed(s, ps), s.y, cs, es);
      Update(s, dt, ps, cs, es) == Tick(KeepOnStage(CountInvulnerability(t.player, dt)), t.coins, t.enemies)
  {
  }

  /** `b` has the facing, lives, score and invulnerability of `a`. */
  predicate SameStatus(a: PlayerState, b: PlayerState)
  {
    && a.direction == b.direction && a.lives == b.lives && a.score == b.score
    && a.isInvulnerable == b.isInvulnerable && a.invulnerableTimer == b.invulnerableTimer
  }

  lemma HitPlatformKeeps(s: PlayerState, prevX: real, prevY: real, p: Platform)
    requires Bounded(s)
    ensures Bounded(HitPlatform(s, prevX, prevY, p)) && SameStatus(s, HitPlatform(s, prevX, prevY, p))
  {
  }

  /** The platform pass only writes positions, zero speeds and the two flags. */
  lemma {:induction false} HitPlatformsKeep(s: PlayerState, prevX: real, prevY: real, ps: seq<Platform>)
    requires Bounded(s)
    decreases |ps|
    ensures Bounded(HitPlatforms(s, prevX, prevY, ps)) && SameStatus(s, HitPlatforms(s, prevX, prevY, ps))
  {
    if ps != [] {
      HitPlatformKeeps(s, prevX, prevY, ps[0]);
      HitPlatformsKeep(HitPlatform(s, prevX, prevY, ps[0]), prevX, prevY, ps[1..]);
    }
  }

  /** Landing on one platform: the feet snap to its top, the fall stops and the
      player is grounded. */
  lemma LandsOnPlatform(s: PlayerState, prevX: real, prevY: real, p: Platform)
    requires CheckCollision(Box(s), p.Bounds())
    requires prevY + HEIGHT <= p.y + SLOP && s.speedY > 0.0
    ensures var r := HitPlatform(s, prevX, prevY, p);
      r.y + HEIGHT == p.y && r.speedY == 0.0 && r.isGrounded && !r.isJumping && r.x == s.x
  {
  }

  /** The number of active coins the box overlaps. */
  function Touched(b: Rect, cs: seq<C.CoinState>): (n: nat)
    ensures n <= |cs|
  {
    if cs == [] then 0
    else (if cs[0].isActive && CheckCollision(b, C.Bounds(cs[0])) then 1 else 0) + Touched(b, cs[1..])
  }

  /** One step of the pickup pass: when the coins from `i` on give `(p, out[i..])`,
      coin `i` becomes `out[i]` and the rest give `(p, out[i + 1..])`. */
  lemma CollectCoinsPeel(s: PlayerState, cs: seq<C.CoinState>, i: nat, p: PlayerState, out: seq<C.CoinState>)
    requires i < |cs| && |out| == |cs|
    requires CollectCoins(s, cs[i..]) == (p, out[i..])
    ensures var t := TouchCoin(s, cs[i]);
      out[i] == t.1 && CollectCoins(t.0, cs[i + 1..]) == (p, out[i + 1..])
  {
    assert cs[i..][0] == cs[i] && cs[i..][1..] == cs[i + 1..];
    assert out[i..][0] == out[i] && out[i..][1..] == out[i + 1..];
  }

  /** One step of the enemy pass, in the same form. */
  lemma MeetEnemiesPeel(s: PlayerState, prevY: real, es: seq<E.EnemyState>, i: nat, p: PlayerState, out: seq<E.EnemyState>)
    requires i < |es| && |out| == |es|
    requires MeetEnemies(s, prevY, es[i..]) == (p, out[i..])
    ensures var t := MeetEnemy(s, prevY, es[i]);
      out[i] == t.1 && MeetEnemies(t.0, prevY, es[i + 1..]) == (p, out[i + 1..])
  {
    assert es[i..][0] == es[i] && es[i..][1..] == es[i + 1..];
    assert out[i..][0] == out[i] && out[i..][1..] == out[i + 1..];
  }

  /** The pickup pass collects exactly the active coins the player overlaps and
      scores 10 for each; nothing else about the player changes. */
  lemma {:induction false} CollectCoinsEffect(s: PlayerState, cs: seq<C.CoinState>)
    decreases |cs|
    ensures var r := CollectCoins(s, cs);
      && r.0 == s.(score := s.score + COIN_SCORE * Touched(Box(s), cs))
      && |r.1| == |cs|
      && forall i :: 0 <= i < |cs| ==>
           r.1[i] == if cs[i].isActive && CheckCollision(Box(s), C.Bounds(cs[i])) then C.Collect(cs[i]) else cs[i]
  {
    if cs != [] {
      var t := TouchCoin(s, cs[0]);
      assert Box(t.0) == Box(s);
      CollectCoinsEffect(t.0, cs[1..]);
      var rest := CollectCoins(t.0, cs[1..]);
      assert CollectCoins(s, cs) == (rest.0, [t.1] + rest.1);
      forall i | 1 <= i < |cs|
        ensures (([t.1] + rest.1)[i]) == rest.1[i - 1] && cs[1..][i - 1] == cs[i]
      {
      }
    }
  }

  /** With every coin consistent, no active coin the player overlaps survives
      the pickup pass, and every coin stays consistent. */
  lemma PickupLeavesNoTouchedCoin(s: PlayerState, cs: seq<C.CoinState>)
    requires forall i :: 0 <= i < |cs| ==> C.Consistent(cs[i])
    ensures var r := CollectCoins(s, cs).1;
      |r| == |cs| &&
      forall i :: 0 <= i < |r| ==>
        C.Consistent(r[i]) && !(r[i].isActive && CheckCollision(Box(s), C.Bounds(r[i])))
  {
    CollectCoinsEffect(s, cs);
    var r := CollectCoins(s, cs).1;
    forall i | 0 <= i < |r|
      ensures C.Consistent(r[i]) && !(r[i].isActive && CheckCollision(Box(s), C.Bounds(r[i])))
    {
      C.TransitionsKeepConsistent(cs[i], 0.0);
    }
  }

  /** The life rule of the enemy pass between two points of it: either nothing
      happened to the lives and the window, or one life went, from outside a
      window, and a new window started. */
  predicate AtMostOneLife(a: PlayerState, b: PlayerState)
  {
    || (b.lives == a.lives && b.isInvulnerable == a.isInvulnerable && b.invulnerableTimer == a.invulnerableTimer)
    || (!a.isInvulnerable && b.lives == a.lives - 1 && b.isInvulnerable && b.invulnerableTimer == 0.0)
  }

  /** The score rule of the enemy pass over `n` enemies: a gain of a multiple of 50, at most 50 per enemy. */
  predicate StompGain(a: PlayerState, b: PlayerState, n: nat)
  {
    a.score <= b.score <= a.score + STOMP_SCORE * n && (b.score - a.score) % STOMP_SCORE == 0
  }

  /** What the enemy pass keeps: the box, the facing and (facing left or right) the speed bounds. */
  predicate KeepsBox(a: PlayerState, b: PlayerState)
  {
    b.x == a.x && b.y == a.y && b.direction == a.direction && (Bounded(a) && Unit(a.direction) ==> Bounded(b))
  }

  /** Once the player is not falling, the enemy pass scores nothing and the
      player stays not falling: a hurt sets the vertical speed to -6 and there is
      no stomp without a fall. */
  lemma {:induction false} NoStompWhileRising(s: PlayerState, prevY: real, es: seq<E.EnemyState>)
    requires s.speedY <= 0.0
    decreases |es|
    ensures var r := MeetEnemies(s, prevY, es).0; r.score == s.score && r.speedY <= 0.0
  {
    if es != [] {
      var t := MeetEnemy(s, prevY, es[0]);
      assert t.0.score == s.score && t.0.speedY <= 0.0;
      NoStompWhileRising(t.0, prevY, es[1..]);
    }
  }

  /** The enemy pass stomps at most once: a stomp bounces the player up (speed -8),
      and only a falling player stomps. A gain of 50 names the stomped enemy: it
      was in play, overlapped the player's box, was met from above, and is defeated. */
  lemma {:induction false} AtMostOneStomp(s: PlayerState, prevY: real, es: seq<E.EnemyState>)
    decreases |es|
    ensures var r := MeetEnemies(s, prevY, es);
      && (r.0.score == s.score || r.0.score == s.score + STOMP_SCORE)
      && (r.0.score == s.score + STOMP_SCORE ==>
            exists i :: 0 <= i < |es| && es[i].isActive && CheckCollision(Box(s), E.Bounds(es[i]))
                        && prevY + HEIGHT <= es[i].y + SLOP && r.1[i] == E.Defeat(es[i]))
  {
    if es != [] {
      var t := MeetEnemy(s, prevY, es[0]);
      var rest := MeetEnemies(t.0, prevY, es[1..]);
      assert MeetEnemies(s, prevY, es) == (rest.0, [t.1] + rest.1);
      if t.0.score != s.score {
        NoStompWhileRising(t.0, prevY, es[1..]);
        assert ([t.1] + rest.1)[0] == t.1 == E.Defeat(es[0]);
      } else {
        assert Box(t.0) == Box(s);
        AtMostOneStomp(t.0, prevY, es[1..]);
        if rest.0.score == s.score + STOMP_SCORE {
          var i :| 0 <= i < |es[1..]| && es[1..][i].isActive && CheckCollision(Box(t.0), E.Bounds(es[1..][i]))
                   && prevY + HEIGHT <= es[1..][i].y + SLOP && rest.1[i] == E.Defeat(es[1..][i]);
          assert es[1..][i] == es[i + 1] && ([t.1] + rest.1)[i + 1] == rest.1[i];
        }
      }
    }
  }

  lemma MeetEnemyRules(s: PlayerState, prevY: real, e: E.EnemyState)
    ensures var t := MeetEnemy(s, prevY, e);
      && AtMostOneLife(s, t.0) && StompGain(s, t.0, 1) && KeepsBox(s, t.0)
      && (t.1 == e || t.1 == E.Defeat(e)) && (!e.isActive ==> t.1 == e)
  {
  }

  /** The enemy pass: at most one life lost (none inside a window), a score gain
      of at most 50 per enemy, the box and facing kept, and each enemy either
      untouched or defeated — an enemy out of play is never touched. */
  lemma {:induction false} MeetEnemiesRules(s: PlayerState, prevY: real, es: seq<E.EnemyState>)
    decreases |es|
    ensures var r := MeetEnemies(s, prevY, es);
      && AtMostOneLife(s, r.0) && StompGain(s, r.0, |es|) && KeepsBox(s, r.0)
      && (r.0.score == s.score || r.0.score == s.score + STOMP_SCORE)
      && |r.1| == |es|
      && forall i :: 0 <= i < |es| ==> (r.1[i] == es[i] || r.1[i] == E.Defeat(es[i])) && (!es[i].isActive ==> r.1[i] == es[i])
  {
    AtMostOneStomp(s, prevY, es);
    if es != [] {
      var t := MeetEnemy(s, prevY, es[0]);
      MeetEnemyRules(s, prevY, es[0]);
      MeetEnemiesRules(t.0, prevY, es[1..]);
      var rest := MeetEnemies(t.0, prevY, es[1..]);
      assert MeetEnemies(s, prevY, es) == (rest.0, [t.1] + rest.1);
      forall i | 1 <= i < |es|
        ensures (([t.1] + rest.1)[i]) == rest.1[i - 1] && es[1..][i - 1] == es[i]
      {
      }
      assert (rest.0.score - s.score) == (rest.0.score - t.0.score) + (t.0.score - s.score);
    }
  }

  /** Facing left or right, one update leaves both speeds within the clamp
      limits: later writes only assign 0, -8, -6 or +-5. */
  lemma UpdateKeepsSpeedsBounded(s: PlayerState, dt: real, ps: seq<Platform>,
                                 cs: seq<C.CoinState>, es: seq<E.EnemyState>)
    requires Unit(s.direction)
    ensures var r := Update(s, dt, ps, cs, es).player;
      Bounded(r) && r.direction == s.direction
  {
    var moved := Move(Accelerate(s)).(isGrounded := false);
    HitPlatformsKeep(moved, s.x, s.y, ps);
    var landed := Landed(s, ps);
    CollectCoinsEffect(landed, cs);
    MeetEnemiesRules(CollectCoins(landed, cs).0, s.y, es);
  }

  /** One update loses at most one life, none inside an invulnerability window;
      a lost life opens a window that has already run for the frame time. */
  lemma UpdateLosesAtMostOneLife(s: PlayerState, dt: real, ps: seq<Platform>,
                                 cs: seq<C.CoinState>, es: seq<E.EnemyState>)
    ensures var r := Update(s, dt, ps, cs, es).player;
      && (r.lives == s.lives || r.lives == s.lives - 1)
      && (s.isInvulnerable ==> r.lives == s.lives)
      && (r.lives == s.lives - 1 ==>
            r.isInvulnerable == (dt < INVULNERABLE_DURATION)
            && r.invulnerableTimer == (if dt < INVULNERABLE_DURATION then dt else 0.0))
  {
    var moved := Move(Accelerate(s)).(isGrounded := false);
    assert Bounded(moved);
    HitPlatformsKeep(moved, s.x, s.y, ps);
    var landed := Landed(s, ps);
    CollectCoinsEffect(landed, cs);
    MeetEnemiesRules(CollectCoins(landed, cs).0, s.y, es);
  }

  /** The enemy pass of an update adds 0 or 50 to the score after the pickups;
      50 only outside an invulnerability window, with a stomped enemy to show for it. */
  lemma ScoreAfterPickup(s: PlayerState, dt: real, ps: seq<Platform>,
                         cs: seq<C.CoinState>, es: seq<E.EnemyState>)
    ensures var picked := CollectCoins(Landed(s, ps), cs).0;
      var r := Update(s, dt, ps, cs, es);
      && (r.player.score == picked.score || r.player.score == picked.score + STOMP_SCORE)
      && (r.player.score == picked.score + STOMP_SCORE ==>
            !s.isInvulnerable && exists i :: 0 <= i < |es| && es[i].isActive && r.enemies[i] == E.Defeat(es[i]))
  {
    var moved := Move(Accelerate(s)).(isGrounded := false);
    assert Bounded(moved);
    HitPlatformsKeep(moved, s.x, s.y, ps);
    CollectCoinsEffect(Landed(s, ps), cs);
    var picked := CollectCoins(Landed(s, ps), cs).0;
    AtMostOneStomp(picked, s.y, es);
  }

  /** The pickup pass, after the platform pass of an update, scores 10 per
      active coin the player overlaps. */
  lemma PickupScore(s: PlayerState, ps: seq<Platform>, cs: seq<C.CoinState>)
    ensures var landed := Landed(s, ps);
      CollectCoins(landed, cs).0.score == s.score + COIN_SCORE * Touched(Box(landed), cs)
  {
    var moved := Move(Accelerate(s)).(isGrounded := false);
    HitPlatformsKeep(moved, s.x, s.y, ps);
    CollectCoinsEffect(Landed(s, ps), cs);
  }

  /** The score never falls: an update adds 10 for each active coin the player
      overlaps after the platform pass, plus 50 for at most one stomp, which
      happens only outside an invulnerability window and defeats an enemy in play. */
  lemma UpdateScore(s: PlayerState, dt: real, ps: seq<Platform>,
                    cs: seq<C.CoinState>, es: seq<E.EnemyState>)
    ensures var r := Update(s, dt, ps, cs, es);
      var coinGain := COIN_SCORE * Touched(Box(Landed(s, ps)), cs);
      && (r.player.score == s.score + coinGain || r.player.score == s.score + coinGain + STOMP_SCORE)
      && (r.player.score == s.score + coinGain + STOMP_SCORE ==>
            !s.isInvulnerable && exists i :: 0 <= i < |es| && es[i].isActive && r.enemies[i] == E.Defeat(es[i]))
      && s.score <= r.player.score <= s.score + COIN_SCORE * |cs| + (if es == [] then 0 else STOMP_SCORE)
  {
    PickupScore(s, ps, cs);
    ScoreAfterPickup(s, dt, ps, cs, es);
  }

  /** Inside an invulnerability window the enemy pass is skipped altogether:
      the enemies are untouched, and so are the lives and the score from stomps. */
  lemma InvulnerablePlayerSkipsEnemies(s: PlayerState, dt: real, ps: seq<Platform>,
                                       cs: seq<C.CoinState>, es: seq<E.EnemyState>)
    requires s.isInvulnerable
    ensures var r := Update(s, dt, ps, cs, es);
      r.enemies == es && r.player.lives == s.lives
      && r.player.score == s.score + COIN_SCORE * Touched(Box(Landed(s, ps)), cs)
  {
    var moved := Move(Accelerate(s)).(isGrounded := false);
    assert Bounded(moved);
    HitPlatformsKeep(moved, s.x, s.y, ps);
    CollectCoinsEffect(Landed(s, ps), cs);
  }

  /** The coins an update hands back: the active ones the player overlaps
      after the platform pass are collected, the others are as they were. */
  lemma UpdateCollectsTouchedCoins(s: PlayerState, dt: real, ps: seq<Platform>,
                                   cs: seq<C.CoinState>, es: seq<E.EnemyState>)
    ensures var r := Update(s, dt, ps, cs, es).coins;
      var b := Box(Landed(s, ps));
      |r| == |cs| &&
      forall i :: 0 <= i < |cs| ==>
        r[i] == if cs[i].isActive && CheckCollision(b, C.Bounds(cs[i])) then C.Collect(cs[i]) else cs[i]
  {
    CollectCoinsEffect(Landed(s, ps), cs);
  }

  /** After an update the player's box lies on the stage, and if the floor bound
      applied the player stands on it. */
  lemma UpdateStaysOnStage(s: PlayerState, dt: real, ps: seq<Platform>,
                           cs: seq<C.CoinState>, es: seq<E.EnemyState>)
    ensures var r := Update(s, dt, ps, cs, es).player;
      0.0 <= r.x && r.x + WIDTH <= STAGE_WIDTH && 0.0 <= r.y && r.y + HEIGHT <= STAGE_HEIGHT
    ensures var before := Contact(Landed(s, ps), s.y, cs, es).player;
      var r := Update(s, dt, ps, cs, es).player;
      before.y + HEIGHT > STAGE_HEIGHT ==>
        r.y + HEIGHT == STAGE_HEIGHT && r.isGrounded && !r.isJumping && r.speedY == 0.0
  {
  }

  /** Dropping from the start height onto a floor platform: one update lands the
      player on it. */
  lemma LandingScenario(dt: real)
    ensures var r := Update(Spawn(START_X, START_Y).(speedY := 5.0), dt,
                            [Platform(0.0, 350.0, 800.0, 50.0, DEFAULT_KIND)], [], []).player;
      r.y == 290.0 && r.speedY == 0.0 && r.isGrounded && r.x == START_X
  {
    var p := Platform(0.0, 350.0, 800.0, 50.0, DEFAULT_KIND);
    var s := Spawn(START_X, START_Y).(speedY := 5.0);
    var moved := s.(speedY := 5.5, y := 305.5, isGrounded := false);
    assert Move(Accelerate(s)).(isGrounded := false) == moved;
    assert HitPlatform(moved, START_X, START_Y, p) == moved.(y := 290.0, speedY := 0.0, isGrounded := true);
    assert [p][1..] == [];
    assert HitPlatforms(moved, START_X, START_Y, [p]) == moved.(y := 290.0, speedY := 0.0, isGrounded := true);
  }

  /** An enemy in its defeat countdown is still in play: falling onto it again
      bounces the player and scores another 50, and touching it otherwise hurts. */
  lemma DefeatedEnemyStillCounts(s: PlayerState, prevY: real, e: E.EnemyState)
    requires e.isActive && e.isDefeated && CheckCollision(Box(s), E.Bounds(e))
    ensures var t := MeetEnemy(s, prevY, e);
      t.1 == e &&
      if prevY + HEIGHT <= e.y + SLOP && s.speedY > 0.0
      then t.0.score == s.score + STOMP_SCORE && t.0.speedY == -8.0
      else t.0 == Hurt(s)
  {
  }
}
