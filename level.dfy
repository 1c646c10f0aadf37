/** The level object of level.js: three entity lists that its methods fill,
    step and reset in place. */
module Levels {
  import opened Utils
  import opened Platforms
  import opened LevelSpec
  import C = CoinSpec
  import E = EnemySpec
  import Coins
  import Enemies
  import Players

  class Level {
    var platforms: seq<Platform>
    var coins: seq<Coins.Coin>
    var enemies: seq<Enemies.Enemy>
    var playerStartX: real
    var playerStartY: real
    /** The source of the background image, if one was given; the browser image
        object itself is not modelled. */
    var backgroundImage: Option<string>
    var backgroundColor: string

    /** No coin or enemy occurs twice, and every enemy faces left or right with
        no recorded spawn point. */
    ghost predicate Valid()
      reads this, enemies
    {
      Distinct(coins) && Distinct(enemies) && AllSpawned(Enemies.States(enemies))
    }

    /** A level record is loaded; without one the built-in level is created. */
    constructor (levelData: Option<LevelData>)
      ensures Valid()
      ensures levelData.Some? ==> Loaded(levelData.value)
      ensures levelData.None? ==> DefaultLoaded()
    {
      platforms := [];
      coins := [];
      enemies := [];
      playerStartX := DEFAULT_START_X;
      playerStartY := DEFAULT_START_Y;
      backgroundImage := None;
      backgroundColor := DEFAULT_BACKGROUND;
      new;
      if levelData.Some? {
        LoadLevel(levelData.value);
      } else {
        CreateDefaultLevel();
      }
    }

    /** What creating the built-in level in an empty level gives. */
    ghost predicate DefaultLoaded()
      reads this, coins, enemies
    {
      && platforms == DEFAULT_PLATFORMS
      && Coins.States(coins) == SpawnCoins(DEFAULT_COINS)
      && Enemies.States(enemies) == SpawnEnemies(DEFAULT_ENEMIES)
      && playerStartX == DEFAULT_START_X && playerStartY == DEFAULT_START_Y
      && backgroundColor == DEFAULT_BACKGROUND && backgroundImage.None?
    }

    /** What loading `d` into an empty level gives. */
    ghost predicate Loaded(d: LevelData)
      reads this, coins, enemies
    {
      && platforms == MakePlatforms(Entries(d.platforms))
      && Coins.States(coins) == SpawnCoins(Entries(d.coins))
      && Enemies.States(enemies) == SpawnEnemies(Entries(d.enemies))
      && playerStartX == (if d.playerStart.Some? then d.playerStart.value.x else DEFAULT_START_X)
      && playerStartY == (if d.playerStart.Some? then d.playerStart.value.y else DEFAULT_START_Y)
      && backgroundColor == (if d.background.Some? then StringOr(d.background.value.color, DEFAULT_BACKGROUND)
                             else DEFAULT_BACKGROUND)
      && backgroundImage ==
        (if d.background.Some? && d.background.value.image.Some? && d.background.value.image.value != ""
         then d.background.value.image else None)
    }

    /** `loadLevel`: the start point and background when given, then one
        platform, coin and enemy per entry, appended in order. */
    method LoadLevel(d: LevelData)
      requires Valid()
      modifies this
      ensures Valid()
      ensures platforms == old(platforms) + MakePlatforms(Entries(d.platforms))
      ensures Coins.States(coins) == old(Coins.States(coins)) + SpawnCoins(Entries(d.coins))
      ensures Enemies.States(enemies) == old(Enemies.States(enemies)) + SpawnEnemies(Entries(d.enemies))
      ensures d.playerStart.Some? ==> playerStartX == d.playerStart.value.x && playerStartY == d.playerStart.value.y
      ensures d.playerStart.None? ==> playerStartX == old(playerStartX) && playerStartY == old(playerStartY)
      ensures d.background.Some? ==> backgroundColor == StringOr(d.background.value.color, old(backgroundColor))
      ensures d.background.None? ==> backgroundColor == old(backgroundColor)
      ensures backgroundImage ==
        (if d.background.Some? && d.background.value.image.Some? && d.background.value.image.value != ""
         then d.background.value.image else old(backgroundImage))
    {
      SetStart(d);
      AddPlatforms(Entries(d.platforms));
      AddCoinsAndEnemies(Entries(d.coins), Entries(d.enemies));
    }

    /** The start point and the background of a level record, when given. */
    method SetStart(d: LevelData)
      modifies this`playerStartX, this`playerStartY, this`backgroundColor, this`backgroundImage
      ensures Coins.States(coins) == old(Coins.States(coins)) && Enemies.States(enemies) == old(Enemies.States(enemies))
      ensures d.playerStart.Some? ==> playerStartX == d.playerStart.value.x && playerStartY == d.playerStart.value.y
      ensures d.playerStart.None? ==> playerStartX == old(playerStartX) && playerStartY == old(playerStartY)
      ensures d.background.Some? ==> backgroundColor == StringOr(d.background.value.color, old(backgroundColor))
      ensures d.background.None? ==> backgroundColor == old(backgroundColor)
      ensures backgroundImage ==
        (if d.background.Some? && d.background.value.image.Some? && d.background.value.image.value != ""
         then d.background.value.image else old(backgroundImage))
    {
      SetPlayerStart(d.playerStart);
      SetBackground(d.background);
    }

    method SetPlayerStart(start: Option<Point>)
      modifies this`playerStartX, this`playerStartY
      ensures Coins.States(coins) == old(Coins.States(coins)) && Enemies.States(enemies) == old(Enemies.States(enemies))
      ensures start.Some? ==> playerStartX == start.value.x && playerStartY == start.value.y
      ensures start.None? ==> playerStartX == old(playerStartX) && playerStartY == old(playerStartY)
    {
      if start.Some? {
        playerStartX := start.value.x;
        playerStartY := start.value.y;
      }
    }

    method SetBackground(background: Option<Background>)
      modifies this`backgroundColor, this`backgroundImage
      ensures Coins.States(coins) == old(Coins.States(coins)) && Enemies.States(enemies) == old(Enemies.States(enemies))
      ensures background.Some? ==> backgroundColor == StringOr(background.value.color, old(backgroundColor))
      ensures background.None? ==> backgroundColor == old(backgroundColor)
      ensures backgroundImage ==
        (if background.Some? && background.value.image.Some? && background.value.image.value != ""
         then background.value.image else old(backgroundImage))
    {
      if background.Some? {
        backgroundColor := StringOr(background.value.color, backgroundColor);
        if background.value.image.Some? && background.value.image.value != "" {
          backgroundImage := background.value.image;
        }
      }
    }

    /** `createDefaultLevel`. */
    method CreateDefaultLevel()
      requires platforms == [] && coins == [] && enemies == []
      requires playerStartX == DEFAULT_START_X && playerStartY == DEFAULT_START_Y
      requires backgroundColor == DEFAULT_BACKGROUND && backgroundImage.None?
      modifies this`platforms, this`coins, this`enemies
      ensures Valid() && DefaultLoaded()
    {
      Populate(DEFAULT_PLATFORMS, DEFAULT_COINS, DEFAULT_ENEMIES);
    }

    /** Append ready-made platforms, then one coin and one enemy per entry. */
    method Populate(ps: seq<Platform>, cs: seq<CoinData>, es: seq<EnemyData>)
      requires Valid()
      modifies this`platforms, this`coins, this`enemies
      ensures Valid()
      ensures platforms == old(platforms) + ps
      ensures Coins.States(coins) == old(Coins.States(coins)) + SpawnCoins(cs)
      ensures Enemies.States(enemies) == old(Enemies.States(enemies)) + SpawnEnemies(es)
    {
      platforms := platforms + ps;
      AddCoinsAndEnemies(cs, es);
    }

    method AddPlatforms(ds: seq<PlatformData>)
      modifies this`platforms
      ensures platforms == old(platforms) + MakePlatforms(ds)
      ensures Coins.States(coins) == old(Coins.States(coins)) && Enemies.States(enemies) == old(Enemies.States(enemies))
    {
      ghost var start := platforms;
      for i := 0 to |ds|
        invariant platforms == start + MakePlatforms(ds[..i])
      {
        assert MakePlatforms(ds[..i + 1]) == MakePlatforms(ds[..i]) + [MakePlatform(ds[i])];
        platforms := platforms + [MakePlatform(ds[i])];
      }
      assert ds[..|ds|] == ds;
    }

    method AddCoinsAndEnemies(cs: seq<CoinData>, es: seq<EnemyData>)
      requires Valid()
      modifies this`coins, this`enemies
      ensures Valid()
      ensures Coins.States(coins) == old(Coins.States(coins)) + SpawnCoins(cs)
      ensures Enemies.States(enemies) == old(Enemies.States(enemies)) + SpawnEnemies(es)
    {
      ghost var before := Enemies.States(enemies);
      AddCoins(cs);
      assert Enemies.States(enemies) == before;
      AddEnemies(es);
      SpawnedAfterLoad(before, es);
    }

    /** One new coin per entry, appended in order. */
    method AddCoins(ds: seq<CoinData>)
      requires Distinct(coins)
      modifies this`coins
      ensures Distinct(coins)
      ensures Coins.States(coins) == old(Coins.States(coins)) + SpawnCoins(ds)
    {
      ghost var start := Coins.States(coins);
      Coins.StatesAt(coins);
      ghost var n := |coins|;
      for i := 0 to |ds|
        invariant Distinct(coins) && |coins| == n + i
        invariant forall j :: 0 <= j < |coins| ==>
          coins[j].State() == if j < n then start[j] else C.Spawn(ds[j - n].x, ds[j - n].y)
      {
        var coin := new Coins.Coin(ds[i].x, ds[i].y);
        coins := coins + [coin];
      }
      ghost var goal := start + SpawnCoins(ds);
      assert forall j :: 0 <= j < |coins| ==> coins[j].State() == goal[j];
      Coins.StatesAt(coins);
      assert Coins.States(coins) == goal;
    }

    /** One new enemy per entry, appended in order. */
    method AddEnemies(ds: seq<EnemyData>)
      requires Distinct(enemies)
      modifies this`enemies
      ensures Distinct(enemies)
      ensures Enemies.States(enemies) == old(Enemies.States(enemies)) + SpawnEnemies(ds)
    {
      ghost var start := Enemies.States(enemies);
      Enemies.StatesAt(enemies);
      ghost var n := |enemies|;
      for i := 0 to |ds|
        invariant Distinct(enemies) && |enemies| == n + i
        invariant forall j :: 0 <= j < |enemies| ==>
          enemies[j].State() == if j < n then start[j] else SpawnEnemy(ds[j - n])
      {
        var enemy := new Enemies.Enemy(ds[i].x, ds[i].y, EnemyTypeName(ds[i]));
        enemies := enemies + [enemy];
      }
      ghost var goal := start + SpawnEnemies(ds);
      assert forall j :: 0 <= j < |enemies| ==> enemies[j].State() == goal[j];
      Enemies.StatesAt(enemies);
      assert Enemies.States(enemies) == goal;
    }

    /** `update(deltaTime, player)`: every coin in play floats, every enemy in
        play takes its step against the platforms and the player, and the result
        says whether no coin is in play. `sin` stands for `Math.sin` and `now`
        for the clock. */
    method Update(deltaTime: real, player: Players.Player?, sin: real -> real, now: real)
      returns (complete: bool)
      requires Valid()
      modifies coins, enemies
      ensures Coins.States(coins) == FloatAll(old(Coins.States(coins)), sin(now * C.FLOAT_SPEED))
      ensures Enemies.States(enemies) ==
        StepAll(old(Enemies.States(enemies)), deltaTime, platforms,
                if player == null then None else Some(old(player.x)), sin)
      ensures complete <==> Complete(old(Coins.States(coins)))
      ensures Valid()
    {
      ghost var cs := Coins.States(coins);
      ghost var es := Enemies.States(enemies);
      var playerX := if player == null then None else Some(player.x);
      UpdateAll(deltaTime, playerX, sin, now);
      SpawnedAfterStep(es, deltaTime, platforms, playerX, sin);
      CompletionIgnoresFloat(cs, sin(now * C.FLOAT_SPEED));
      complete := AllInactive();
    }

    /** The coin loop, then the enemy loop. */
    method UpdateAll(deltaTime: real, playerX: Option<real>, sin: real -> real, now: real)
      requires Valid()
      modifies coins, enemies
      ensures Coins.States(coins) == FloatAll(old(Coins.States(coins)), sin(now * C.FLOAT_SPEED))
      ensures Enemies.States(enemies) == StepAll(old(Enemies.States(enemies)), deltaTime, platforms, playerX, sin)
    {
      ghost var es := Enemies.States(enemies);
      UpdateCoins(deltaTime, sin, now);
      assert Enemies.States(enemies) == es;
      ghost var cs' := Coins.States(coins);
      UpdateEnemies(deltaTime, playerX, sin);
      assert Coins.States(coins) == cs';
    }

    method UpdateCoins(deltaTime: real, sin: real -> real, now: real)
      requires Distinct(coins)
      modifies coins
      ensures Coins.States(coins) == FloatAll(old(Coins.States(coins)), sin(now * C.FLOAT_SPEED))
    {
      ghost var cs := Coins.States(coins);
      Coins.StatesAt(coins);
      ghost var wave := sin(now * C.FLOAT_SPEED);
      for i := 0 to |coins|
        invariant forall j :: 0 <= j < |coins| ==> coins[j].State() == if j < i then C.Float(cs[j], wave) else cs[j]
      {
        FloatCoin(coins[i], deltaTime, sin, now);
      }
      ghost var goal := FloatAll(cs, wave);
      FloatAllAt(cs, wave);
      assert forall j :: 0 <= j < |coins| ==> coins[j].State() == goal[j];
      Coins.StatesAt(coins);
      assert Coins.States(coins) == goal;
    }

    method UpdateEnemies(deltaTime: real, playerX: Option<real>, sin: real -> real)
      requires Distinct(enemies)
      modifies enemies
      ensures Enemies.States(enemies) == StepAll(old(Enemies.States(enemies)), deltaTime, platforms, playerX, sin)
    {
      ghost var es := Enemies.States(enemies);
      Enemies.StatesAt(enemies);
      for i := 0 to |enemies|
        invariant forall j :: 0 <= j < |enemies| ==>
          enemies[j].State() == if j < i then E.Step(es[j], deltaTime, platforms, playerX, sin) else es[j]
      {
        StepEnemy(enemies[i], deltaTime, platforms, playerX, sin);
      }
      ghost var goal := StepAll(es, deltaTime, platforms, playerX, sin);
      StepAllAt(es, deltaTime, platforms, playerX, sin);
      assert forall j :: 0 <= j < |enemies| ==> enemies[j].State() == goal[j];
      Enemies.StatesAt(enemies);
      assert Enemies.States(enemies) == goal;
    }

    /** One coin of the coin loop: only a coin in play is updated. */
    static method FloatCoin(coin: Coins.Coin, deltaTime: real, sin: real -> real, now: real)
      modifies coin
      ensures coin.State() == C.Float(old(coin.State()), sin(now * C.FLOAT_SPEED))
    {
      if coin.isActive {
        coin.Update(deltaTime, sin, now);
      }
    }

    /** One enemy of the enemy loop: only an enemy in play is updated. */
    static method StepEnemy(enemy: Enemies.Enemy, deltaTime: real, platforms: seq<Platform>,
                            playerX: Option<real>, sin: real -> real)
      modifies enemy
      ensures enemy.State() == E.Step(old(enemy.State()), deltaTime, platforms, playerX, sin)
    {
      if enemy.isActive {
        enemy.Update(deltaTime, platforms, playerX, sin);
      }
    }

    /** The final `every` check: it changes nothing. */
    method AllInactive() returns (r: bool)
      ensures r <==> Complete(Coins.States(coins))
    {
      Coins.StatesAt(coins);
      r := true;
      for i := 0 to |coins|
        invariant r <==> forall j :: 0 <= j < i ==> !coins[j].isActive
      {
        if coins[i].isActive {
          r := false;
        }
      }
    }

    /** `reset`: every coin back in play and uncollected, every enemy back in
        play and not defeated, at its recorded spawn point when it has one. */
    method Reset()
      requires Valid()
      modifies coins, enemies
      ensures Coins.States(coins) == ResetCoins(old(Coins.States(coins)))
      ensures Enemies.States(enemies) == ResetEnemies(old(Enemies.States(enemies)))
      ensures Valid()
      ensures forall i :: 0 <= i < |enemies| ==>
        Enemies.States(enemies)[i] == old(Enemies.States(enemies))[i].(isActive := true, isDefeated := false)
    {
      ghost var es := Enemies.States(enemies);
      ReactivateCoins();
      assert Enemies.States(enemies) == es;
      ghost var cs := Coins.States(coins);
      ReactivateEnemies();
      assert Coins.States(coins) == cs;
      ResetKeepsPositions(es);
      SpawnedAfterReset(es);
    }

    method ReactivateCoins()
      requires Distinct(coins)
      modifies coins
      ensures Coins.States(coins) == ResetCoins(old(Coins.States(coins)))
    {
      ghost var cs := Coins.States(coins);
      Coins.StatesAt(coins);
      for i := 0 to |coins|
        invariant forall j :: 0 <= j < |coins| ==> coins[j].State() == if j < i then ResetCoin(cs[j]) else cs[j]
      {
        coins[i].isActive := true;
        coins[i].collected := false;
      }
      ghost var goal := ResetCoins(cs);
      assert forall j :: 0 <= j < |coins| ==> coins[j].State() == goal[j];
      Coins.StatesAt(coins);
      assert Coins.States(coins) == goal;
    }

    method ReactivateEnemies()
      requires Distinct(enemies)
      modifies enemies
      ensures Enemies.States(enemies) == ResetEnemies(old(Enemies.States(enemies)))
    {
      ghost var es := Enemies.States(enemies);
      Enemies.StatesAt(enemies);
      for i := 0 to |enemies|
        invariant forall j :: 0 <= j < |enemies| ==> enemies[j].State() == if j < i then ResetEnemy(es[j]) else es[j]
      {
        ReactivateEnemy(enemies[i]);
      }
      ghost var goal := ResetEnemies(es);
      assert forall j :: 0 <= j < |enemies| ==> enemies[j].State() == goal[j];
      Enemies.StatesAt(enemies);
      assert Enemies.States(enemies) == goal;
    }

    static method ReactivateEnemy(enemy: Enemies.Enemy)
      modifies enemy
      ensures enemy.State() == ResetEnemy(old(enemy.State()))
    {
      enemy.isActive := true;
      enemy.isDefeated := false;
      enemy.x := NumberOr(enemy.originalX, enemy.x);
      enemy.y := NumberOr(enemy.originalY, enemy.y);
    }
  }
}
