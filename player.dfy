/** The player object of player.js: its methods update its fields in place and
    `Update` also collects the coins and defeats the enemies it is handed. Each
    method is proved to perform the matching function of `PlayerSpec`. */
module Players {
  import opened Utils
  import opened Platforms
  import opened PlayerSpec
  import C = CoinSpec
  import E = EnemySpec
  import Coins
  import Enemies

  class Player {
    const width: real := WIDTH
    const height: real := HEIGHT
    const gravity: real := GRAVITY
    const jumpForce: real := JUMP_FORCE
    const maxSpeedX: real := MAX_SPEED_X
    const maxSpeedY: real := MAX_SPEED_Y
    const friction: real := FRICTION
    const acceleration: real := ACCELERATION
    const invulnerableDuration: real := INVULNERABLE_DURATION
    var x: real
    var y: real
    var speedX: real
    var speedY: real
    var isJumping: bool
    var isGrounded: bool
    var direction: real
    var lives: int
    var score: int
    var isInvulnerable: bool
    var invulnerableTimer: real

    function State(): PlayerState
      reads this
    {
      PlayerState(x, y, speedX, speedY, isJumping, isGrounded, direction, lives, score,
                  isInvulnerable, invulnerableTimer)
    }

    function GetBounds(): (r: Rect)
      reads this
      ensures r == Box(State())
    {
      Rect(x, y, width, height)
    }

    constructor (x: real, y: real)
      ensures State() == Spawn(x, y)
    {
      this.x := x;
      this.y := y;
      speedX := 0.0;
      speedY := 0.0;
      isJumping := false;
      isGrounded := false;
      direction := 1.0;
      lives := START_LIVES;
      score := 0;
      isInvulnerable := false;
      invulnerableTimer := 0.0;
    }

    method MoveLeft()
      modifies this
      ensures State() == PlayerSpec.MoveLeft(old(State()))
    {
      speedX := speedX - acceleration;
      direction := -1.0;
    }

    method MoveRight()
      modifies this
      ensures State() == PlayerSpec.MoveRight(old(State()))
    {
      speedX := speedX + acceleration;
      direction := 1.0;
    }

    method Jump()
      modifies this
      ensures State() == PlayerSpec.Jump(old(State()))
    {
      if isGrounded {
        speedY := jumpForce;
        isJumping := true;
        isGrounded := false;
      }
    }

    /** `hurt`; the lives display and the game-over screen are not modelled. */
    method Hurt()
      modifies this
      ensures State() == PlayerSpec.Hurt(old(State()))
    {
      if isInvulnerable {
        return;
      }
      lives := lives - 1;
      isInvulnerable := true;
      invulnerableTimer := 0.0;
      speedY := jumpForce / 2.0;
      speedX := (direction * -1.0) * KNOCKBACK;
    }

    /** `reset`; the score and lives displays are not modelled. */
    method Reset()
      modifies this
      ensures State() == PlayerSpec.Reset(old(State()))
    {
      x := START_X;
      y := START_Y;
      speedX := 0.0;
      speedY := 0.0;
      lives := START_LIVES;
      score := 0;
      isInvulnerable := false;
      invulnerableTimer := 0.0;
      direction := 1.0;
    }

    /** `update(deltaTime, platforms, coins, enemies)`. The coin and enemy lists
        must each hold distinct objects. */
    method Update(deltaTime: real, platforms: seq<Platform>, coins: seq<Coins.Coin>,
                  enemies: seq<Enemies.Enemy>)
      requires Distinct(coins) && Distinct(enemies)
      modifies this, coins, enemies
      ensures var r := PlayerSpec.Update(old(State()), deltaTime, platforms,
                                         old(Coins.States(coins)), old(Enemies.States(enemies)));
        State() == r.player && Coins.States(coins) == r.coins && Enemies.States(enemies) == r.enemies
    {
      ghost var s0, cs0, es0 := State(), Coins.States(coins), Enemies.States(enemies);
      UpdateUnfolds(s0, deltaTime, platforms, cs0, es0);
      var prevY := y;
      Land(platforms);
      assert Coins.States(coins) == cs0 && Enemies.States(enemies) == es0;
      Interact(prevY, deltaTime, coins, enemies);
    }

    /** Everything after the platform pass: the coin and enemy passes, the
        invulnerability timer and the stage clamp. */
    method Interact(prevY: real, deltaTime: real, coins: seq<Coins.Coin>, enemies: seq<Enemies.Enemy>)
      requires Distinct(coins) && Distinct(enemies)
      modifies this, coins, enemies
      ensures var t := PlayerSpec.Contact(old(State()), prevY, old(Coins.States(coins)), old(Enemies.States(enemies)));
        && State() == KeepOnStage(CountInvulnerability(t.player, deltaTime))
        && Coins.States(coins) == t.coins && Enemies.States(enemies) == t.enemies
    {
      ghost var t := PlayerSpec.Contact(State(), prevY, Coins.States(coins), Enemies.States(enemies));
      Contact(prevY, coins, enemies);
      assert State() == t.player && Coins.States(coins) == t.coins && Enemies.States(enemies) == t.enemies;
      Settle(deltaTime);
      assert Coins.States(coins) == t.coins && Enemies.States(enemies) == t.enemies;
    }

    /** The moves and the platform pass. */
    method Land(platforms: seq<Platform>)
      modifies this
      ensures State() == Landed(old(State()), platforms)
    {
      var prevX := x;
      var prevY := y;
      Accelerate();
      x := x + speedX;
      y := y + speedY;
      isGrounded := false;
      ResolvePlatforms(prevX, prevY, platforms);
    }

    /** The pickup pass, then the enemy pass unless a window is open. */
    method Contact(prevY: real, coins: seq<Coins.Coin>, enemies: seq<Enemies.Enemy>)
      requires Distinct(coins) && Distinct(enemies)
      modifies this, coins, enemies
      ensures var t := PlayerSpec.Contact(old(State()), prevY, old(Coins.States(coins)), old(Enemies.States(enemies)));
        State() == t.player && Coins.States(coins) == t.coins && Enemies.States(enemies) == t.enemies
    {
      ghost var es0 := Enemies.States(enemies);
      CollectCoins(coins);
      assert Enemies.States(enemies) == es0;
      ghost var cs1 := Coins.States(coins);
      if !isInvulnerable {
        MeetEnemies(prevY, enemies);
      }
      assert Coins.States(coins) == cs1;
    }

    /** The invulnerability timer, then the stage clamp. */
    method Settle(deltaTime: real)
      modifies this
      ensures State() == KeepOnStage(CountInvulnerability(old(State()), deltaTime))
    {
      UpdateInvulnerability(deltaTime);
      KeepInStage();
    }

    /** Gravity, friction and the speed clamp. */
    method Accelerate()
      modifies this
      ensures State() == PlayerSpec.Accelerate(old(State()))
    {
      speedY := speedY + gravity;
      speedX := speedX * friction;
      speedX := Clamp(speedX, -maxSpeedX, maxSpeedX);
      speedY := Clamp(speedY, -maxSpeedY, maxSpeedY);
    }

    /** The invulnerability timer. */
    method UpdateInvulnerability(deltaTime: real)
      modifies this
      ensures State() == PlayerSpec.CountInvulnerability(old(State()), deltaTime)
    {
      if isInvulnerable {
        invulnerableTimer := invulnerableTimer + deltaTime;
        if invulnerableTimer >= invulnerableDuration {
          isInvulnerable := false;
          invulnerableTimer := 0.0;
        }
      }
    }

    /** The platform pass. */
    method ResolvePlatforms(prevX: real, prevY: real, platforms: seq<Platform>)
      modifies this
      ensures State() == HitPlatforms(old(State()), prevX, prevY, platforms)
    {
      ghost var goal := HitPlatforms(State(), prevX, prevY, platforms);
      for i := 0 to |platforms|
        invariant HitPlatforms(State(), prevX, prevY, platforms[i..]) == goal
      {
        assert platforms[i..][0] == platforms[i] && platforms[i..][1..] == platforms[i + 1..];
        ResolvePlatform(prevX, prevY, platforms[i]);
      }
    }

    /** One iteration of the platform pass. */
    method ResolvePlatform(prevX: real, prevY: real, platform: Platform)
      modifies this
      ensures State() == HitPlatform(old(State()), prevX, prevY, platform)
    {
      if CheckCollision(GetBounds(), platform.Bounds()) {
        if prevY + height <= platform.y + SLOP && speedY > 0.0 {
          y := platform.y - height;
          speedY := 0.0;
          isGrounded := true;
          isJumping := false;
        } else if prevY >= platform.y + platform.height - SLOP && speedY < 0.0 {
          y := platform.y + platform.height;
          speedY := 0.0;
        } else if prevX + width <= platform.x + SLOP && speedX > 0.0 {
          x := platform.x - width;
          speedX := 0.0;
        } else if prevX >= platform.x + platform.width - SLOP && speedX < 0.0 {
          x := platform.x + platform.width;
          speedX := 0.0;
        }
      }
    }

    /** The pickup pass; the score display is not modelled. */
    method CollectCoins(coins: seq<Coins.Coin>)
      requires Distinct(coins)
      modifies this`score, coins
      ensures (State(), Coins.States(coins)) == PlayerSpec.CollectCoins(old(State()), old(Coins.States(coins)))
    {
      ghost var cs := Coins.States(coins);
      Coins.StatesAt(coins);
      ghost var goal := PlayerSpec.CollectCoins(State(), cs);
      for i := 0 to |coins|
        invariant forall j :: 0 <= j < |coins| ==> coins[j].State() == if j < i then goal.1[j] else cs[j]
        invariant PlayerSpec.CollectCoins(State(), cs[i..]) == (goal.0, goal.1[i..])
      {
        CollectCoinsPeel(State(), cs, i, goal.0, goal.1);
        TouchCoinStep(coins[i]);
      }
      assert cs[|coins|..] == [];
      Coins.StatesAt(coins);
      assert Coins.States(coins) == goal.1;
    }

    /** One iteration of the pickup pass. */
    method TouchCoinStep(coin: Coins.Coin)
      modifies this`score, coin
      ensures (State(), coin.State()) == TouchCoin(old(State()), old(coin.State()))
    {
      if coin.isActive && CheckCollision(GetBounds(), coin.GetBounds()) {
        coin.Collect();
        score := score + COIN_SCORE;
      }
    }

    /** The enemy pass; the score display is not modelled. */
    method MeetEnemies(prevY: real, enemies: seq<Enemies.Enemy>)
      requires Distinct(enemies)
      modifies this, enemies
      ensures (State(), Enemies.States(enemies)) == PlayerSpec.MeetEnemies(old(State()), prevY, old(Enemies.States(enemies)))
    {
      ghost var es := Enemies.States(enemies);
      Enemies.StatesAt(enemies);
      ghost var goal := PlayerSpec.MeetEnemies(State(), prevY, es);
      for i := 0 to |enemies|
        invariant forall j :: 0 <= j < |enemies| ==> enemies[j].State() == if j < i then goal.1[j] else es[j]
        invariant PlayerSpec.MeetEnemies(State(), prevY, es[i..]) == (goal.0, goal.1[i..])
      {
        MeetEnemyAt(prevY, enemies, i, es, goal);
      }
      assert es[|enemies|..] == [];
      Enemies.StatesAt(enemies);
      assert Enemies.States(enemies) == goal.1;
    }

    /** The i-th iteration of the enemy pass, against the pass's goal. */
    method MeetEnemyAt(prevY: real, enemies: seq<Enemies.Enemy>, i: nat, ghost es: seq<E.EnemyState>,
                       ghost goal: (PlayerState, seq<E.EnemyState>))
      requires i < |enemies| == |es| == |goal.1|
      requires enemies[i].State() == es[i]
      requires PlayerSpec.MeetEnemies(State(), prevY, es[i..]) == (goal.0, goal.1[i..])
      modifies this, enemies[i]
      ensures enemies[i].State() == goal.1[i]
      ensures PlayerSpec.MeetEnemies(State(), prevY, es[i + 1..]) == (goal.0, goal.1[i + 1..])
    {
      MeetEnemiesPeel(State(), prevY, es, i, goal.0, goal.1);
      MeetEnemyStep(prevY, enemies[i]);
    }

    /** One iteration of the enemy pass: falling onto the enemy from above
        defeats it and bounces the player, any other contact hurts. */
    method MeetEnemyStep(prevY: real, enemy: Enemies.Enemy)
      modifies this, enemy
      ensures (State(), enemy.State()) == MeetEnemy(old(State()), prevY, old(enemy.State()))
    {
      if enemy.isActive && CheckCollision(GetBounds(), enemy.GetBounds()) {
        if prevY + height <= enemy.y + SLOP && speedY > 0.0 {
          enemy.Defeat();
          speedY := jumpForce / 1.5;
          score := score + STOMP_SCORE;
        } else {
          Hurt();
        }
      }
    }

    /** The stage clamp. */
    method KeepInStage()
      modifies this
      ensures State() == KeepOnStage(old(State()))
    {
      if x < 0.0 {
        x := 0.0;
      }
      if x + width > STAGE_WIDTH {
        x := STAGE_WIDTH - width;
      }
      if y < 0.0 {
        y := 0.0;
        speedY := 0.0;
      }
      if y + height > STAGE_HEIGHT {
        y := STAGE_HEIGHT - height;
        speedY := 0.0;
        isGrounded := true;
        isJumping := false;
      }
    }
  }
}
