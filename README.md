# Platformer simulation core in Dafny

This project models the per-frame simulation of a small canvas platformer. The
player runs and jumps over static platforms. It collects floating coins, and it
stomps enemies or is hurt by them. The level is complete once no coin is left in
play.

The model has two layers.

- **Value modules** (`CoinSpec`, `EnemySpec`, `PlayerSpec`, `LevelSpec`, plus
  `Utils` and `Platforms`) describe each entity as a datatype. Each operation is
  a function, including one full `update` of the player and of an enemy. The
  properties the game relies on are lemmas about these functions.
- **Object modules** (`Coins`, `Enemies`, `Players`, `Levels`, `Sprites`) are
  classes whose methods update their fields in place, as the source's objects
  do. Their loops walk the platform, coin and enemy lists. Every method is
  proved to leave the object in the state that the matching value function gives
  for the old state (`State() == Spec(old(State()))`). The value-module lemmas
  therefore describe the objects too.

The model keeps these behaviours exactly as the code has them:

- **Stomps skipped while invulnerable.** While the player is invulnerable, the
  whole enemy pass is skipped, stomps included (`InvulnerablePlayerSkipsEnemies`).
- **A defeated enemy still counts.** An enemy in its defeat countdown is still in
  play, so it can be stomped again (scoring again) or can hurt the player
  (`DefeatedEnemyStillCounts`).
- **`Level.reset` restores no spawn point.** It reads `originalX`/`originalY`,
  but no enemy ever sets them, so reset leaves every enemy where it is
  (`ResetKeepsPositions`, `ResetOfSpawnIsSpawn`).
- **A stomped walker restarts without speed.** `defeat` zeroes its speed and
  reset does not restore it (`RestartedWalkerHasNoSpeed`).
- **`||` defaults treat falsy values as missing.** On numbers and strings, `0`
  and `""` give the fallback just as a missing value does (`NumberOr`,
  `StringOr`).
- **The two walker turns can cancel.** A walker at the left edge of the stage
  that turns at the end of its platform is turned back by the stage clamp in the
  same frame (`WalkerAtStageEdgeKeepsHeading`).
- **`onGround` starts false.** An enemy's `onGround` field is read before the
  first write, so it starts false (JavaScript's `undefined`). A new jumper
  therefore waits until the floor bound or a landing grounds it.
- **Player reset keeps two flags.** `Player.reset` leaves `isJumping` and
  `isGrounded` as they were.

## Model

| member | source | states |
|---|---|---|
| Utils.CheckCollision | utils.js:6-13 | strict overlap on both axes, defined as the source's four comparisons |
| Utils.CollisionIsSymmetric | utils.js:6-13 | the collision test does not depend on argument order |
| Utils.CollisionIsReflexive | utils.js:6-13 | every box with positive size collides with itself |
| Utils.EdgeContactIsNoCollision | utils.js:6-13 | boxes that only share an edge do not collide |
| Utils.Clamp | utils.js:28-30 | with lo <= hi the result lies in [lo, hi], equals v inside the range and the nearer bound outside; with hi < lo it is lo, as `Math.max(min, Math.min(max, v))` gives |
| Utils.ClampIsIdempotent | utils.js:28-30 | clamping twice is clamping once |
| Utils.Lerp | utils.js:33-35 | t = 0 gives start, t = 1 gives end, and equal ends give that value |
| Utils.StringOr | sprite.js:10 | a missing or empty string gives the fallback; any other string is kept |
| Platforms.Platform.Bounds | sprite.js:27-34 | a platform's box is its position and size |
| Sprites.Sprite.constructor | sprite.js:5-14 | a new sprite sits where it was placed, at rest and active, with the default colour for a missing or empty colour |
| Sprites.Sprite.GetBounds | sprite.js:27-34 | the box is the sprite's current position and size |
| Sprites.NextFrame | sprite.js:79-83 | below maxFrame the frame steps up by one, at or past it the frame wraps to 0; from a non-negative frame the result is 0 or below maxFrame + 1 |
| Sprites.NextFrameInRange | sprite.js:79-83 | for whole, non-negative frame counters the next frame is whole and stays within [0, maxFrame] |
| Sprites.AdvanceCountsUp | sprite.js:75-87 | from frame 0, k frame advances show frame k while k <= maxFrame |
| Sprites.AdvanceWraps | sprite.js:75-87 | maxFrame + 1 advances from frame 0 return to frame 0 |
| Sprites.FractionalLastFrameOvershoots | sprite.js:75-87 | with a fractional frame count (JavaScript numbers allow one) the counter climbs past maxFrame before it wraps |
| Sprites.AnimatedSprite.constructor | sprite.js:41-53 | sprite fields as for a sprite, frame counters at 0, 20 fps with a 50 ms frame interval, no animations, current animation "idle" |
| Sprites.AnimatedSprite.AddAnimation | sprite.js:59-64 | the named entry is (re)defined and every other entry is kept |
| Sprites.AnimatedSprite.PlayAnimation | sprite.js:66-73 | switching to a different, registered animation starts it at frame 0 on its row; otherwise nothing changes |
| Sprites.AnimatedSprite.UpdateAnimation | sprite.js:75-87 | the timer accumulates until it exceeds the interval; then it resets and the frame advances as `NextFrame`, staying below maxFrame + 1 from any non-negative frame, and within [0, maxFrame] and whole when both counters are whole |
| CoinSpec.Spawn | coin.js:5-13 | a new coin is in play, not collected, and floats round the height it was placed at |
| CoinSpec.Collect | coin.js:79-83 | after collect the coin is collected; the first call takes it out of play, later calls change nothing; only the two flags change |
| CoinSpec.CollectIsIdempotent | coin.js:79-83 | collecting twice is collecting once |
| CoinSpec.Float | coin.js:26-38 | an inactive coin is untouched; an active one keeps its x, anchor and flags and, for a wave in [-1, 1], stays within 5 of its anchor |
| CoinSpec.TransitionsKeepConsistent | coin.js:79-83 | collect and float both keep the invariant that a collected coin is out of play |
| Coins.Coin.constructor | coin.js:5-13 | the new object's state is `CoinSpec.Spawn` |
| Coins.Coin.GetBounds | sprite.js:27-34 | the box is the 20 x 20 square at the coin's position |
| Coins.Coin.Collect | coin.js:79-83 | the new state is `CoinSpec.Collect` of the old one |
| Coins.Coin.Update | coin.js:26-31 | the new state is `CoinSpec.Float` of the old one, with the sine of the clock times the float speed as the wave |
| EnemySpec.KindWidth | enemy.js:8-28 | every enemy type is between 0 and 40 wide |
| EnemySpec.KindHeight | enemy.js:8-28 | every enemy type is between 0 and 45 tall |
| EnemySpec.Spawn | enemy.js:5-44 | a new enemy is in play and not defeated, faces left, moves at -1.5 only as a walker, and is not grounded |
| EnemySpec.Defeat | enemy.js:211-217 | the first defeat stops the enemy and starts its timer at 0; a later defeat changes nothing; the box, the facing and the active flag stay |
| EnemySpec.DefeatIsIdempotent | enemy.js:211-217 | defeating twice is defeating once |
| EnemySpec.InactiveStepChangesNothing | enemy.js:47 | an update of an enemy that is out of play changes nothing |
| EnemySpec.DefeatedStepOnlyCountsDown | enemy.js:49-55 | a defeated enemy's update only advances the timer, and it leaves play exactly when the timer reaches 500 |
| EnemySpec.LaunchRules | enemy.js:145-159 | the jump timer is frozen in the air and counts on the ground; on expiry it resets, launches at -8, ungrounds, and turns toward a player within 200 at speed 2 |
| EnemySpec.KeepInWidthRules | enemy.js:190-199 | after the side clamp the box lies within the stage width; travel reverses when a side bound was crossed; an enemy already inside is untouched |
| EnemySpec.KeepInHeightRules | enemy.js:200-208 | after the vertical clamp the box lies within the stage height; the floor stops the fall and grounds the enemy; an enemy already inside is untouched |
| EnemySpec.KeepOnStageRules | enemy.js:189-208 | the whole clamp leaves the box on the stage and keeps timers, flags and facing shape |
| EnemySpec.BumpSideKeeps | enemy.js:97-102 | the walker's side correction keeps timers, flags and a +-1 facing |
| EnemySpec.BumpVerticalKeeps | enemy.js:105-112 | the walker's vertical correction keeps timers, flags and a +-1 facing |
| EnemySpec.WalkPlatformKeeps | enemy.js:77-114 | one platform of the walker's loop keeps timers, flags, facing shape and the `onGround` field |
| EnemySpec.WalkPlatformsKeep | enemy.js:77-114 | the walker's whole loop keeps timers, flags, facing shape and the `onGround` field, which it never writes |
| EnemySpec.HopPlatformKeeps | enemy.js:163-185 | one platform of the jumper's loop keeps its timers and a +-1 facing |
| EnemySpec.HopPlatformsKeep | enemy.js:162-185 | the jumper's platform loop never touches its timers and keeps a +-1 facing |
| EnemySpec.WalkKeepsSpawned | enemy.js:72-121 | the walker branch keeps the kind and a +-1 facing |
| EnemySpec.FlyKeepsSpawned | enemy.js:123-141 | the flyer branch keeps the kind and a +-1 facing |
| EnemySpec.HopKeepsSpawned | enemy.js:143-186 | the jumper branch keeps the kind and a +-1 facing |
| EnemySpec.StepKeepsSpawned | enemy.js:46-209 | every update keeps the kind, a facing of -1 or 1, and no recorded spawn point |
| EnemySpec.LiveStepStaysOnStage | enemy.js:57-208 | after a live update the enemy's box lies on the 800 x 600 stage |
| EnemySpec.WalkWithoutContact | enemy.js:74-92 | with no platform in contact, the walker's loop moves nothing; grounded iff some platform supports it, about to fall iff no supporting platform covers the look-ahead point |
| EnemySpec.WalkerTurnsAtEdge | enemy.js:72-121 | with no platform in contact, the walker turns round exactly when it is supported and about to walk off every supporting platform |
| EnemySpec.WalkPlatformsSplit | enemy.js:77-114 | the walker's platform loop over a + b is the loop over a followed by the loop over b |
| EnemySpec.QuietPlatforms | enemy.js:77-114 | platforms the walker neither overlaps nor stands on leave it unchanged |
| EnemySpec.WalkerOnPlatformTurnsAtEdge | enemy.js:74-120 | a walker that overlaps its platform from above is snapped onto it and stopped, then turns round exactly when the look-ahead point leaves that platform |
| EnemySpec.RestingWalkerStep | enemy.js:57-209 | a walker standing on a platform, clear of the platform's side windows and of every other platform, walks one step and turns round exactly when its look-ahead point leaves that platform; then the stage clamp applies |
| EnemySpec.WalkerTurnsAroundNearPlatformEnd | enemy.js:46-209 | a walker 3 units from the left end of its platform lands back on it and turns round |
| EnemySpec.WalkerAtStageEdgeKeepsHeading | enemy.js:116-120 | at the stage's left edge, the edge turn and the stage clamp's turn cancel, so the walker keeps heading left |
| EnemySpec.FlyerBehaviour | enemy.js:123-141 | a flyer ignores gravity and reverses and resets its timer once 2000 ms have passed; it is never at rest afterward and sways at most 2 from its previous height |
| EnemySpec.JumperTimer | enemy.js:143-186 | the jump timer runs only on the ground, restarts on a jump, and is never touched by the platform loop |
| EnemySpec.JumperLands | enemy.js:166-171 | landing from above snaps the jumper's feet to the platform top, stops it and grounds it |
| EnemySpec.BasicIgnoresPlatforms | enemy.js:71-187 | an enemy of any other type only falls and moves, held by the stage clamp alone |
| Enemies.Enemy.constructor | enemy.js:5-44 | the new object's state is `EnemySpec.Spawn` of the parsed type |
| Enemies.Enemy.GetBounds | sprite.js:27-34 | the box is the enemy's position and its type's size |
| Enemies.Enemy.Defeat | enemy.js:211-217 | the new state is `EnemySpec.Defeat` of the old one |
| Enemies.Enemy.Update | enemy.js:46-209 | the new state is `EnemySpec.Step` of the old one |
| Enemies.Enemy.FallAndMove | enemy.js:61-68 | gravity for all but flyers, then one step of motion |
| Enemies.Enemy.Behave | enemy.js:70-187 | the per-type branch, as `EnemySpec.Act` |
| Enemies.Enemy.WalkOver | enemy.js:72-121 | the walker's loop and turn, as `EnemySpec.Walk` |
| Enemies.Enemy.FlyFrom | enemy.js:123-141 | the flyer branch, as `EnemySpec.Fly` |
| Enemies.Enemy.HopOver | enemy.js:143-186 | the jumper branch, as `EnemySpec.Hop` |
| Enemies.Enemy.KeepInStage | enemy.js:189-208 | the stage clamp, as `EnemySpec.KeepOnStage` |
| PlayerSpec.Spawn | player.js:5-24 | a new player is at rest, facing right, with 3 lives, no score and no invulnerability |
| PlayerSpec.MoveLeft | player.js:158-161 | speed decreases by 1 and the player faces left; nothing else changes |
| PlayerSpec.MoveRight | player.js:163-166 | speed increases by 1 and the player faces right; nothing else changes |
| PlayerSpec.Jump | player.js:168-174 | only a grounded player jumps: speed -12, jumping, no longer grounded; otherwise nothing changes |
| PlayerSpec.Hurt | player.js:176-192 | outside a window: one life lost, a new window from 0, and a knockback of (-5 x facing, -6); inside a window nothing changes |
| PlayerSpec.Reset | player.js:198-207 | back at (50, 300), at rest, facing right, 3 lives, score 0, no window; the jumping and grounded flags are kept |
| PlayerSpec.Accelerate | player.js:47-55 | after gravity, friction and the clamp both speeds lie within the limits |
| PlayerSpec.CountInvulnerability | player.js:117-124 | a window ends and its timer resets once the timer reaches 1500; otherwise it keeps counting; outside a window nothing changes |
| PlayerSpec.KeepOnStage | player.js:126-138 | the box ends on the stage; coordinates already inside are kept; the floor grounds the player and stops the fall; speed bounds are kept |
| PlayerSpec.HitPlatformKeeps | player.js:63-88 | one platform's correction keeps the speed bounds, facing, lives, score and window |
| PlayerSpec.HitPlatformsKeep | player.js:62-88 | the platform pass keeps the speed bounds, facing, lives, score and window |
| PlayerSpec.LandsOnPlatform | player.js:66-71 | landing from above snaps the feet to the platform top, stops the fall and grounds the player |
| PlayerSpec.CollectCoinsEffect | player.js:90-97 | the pickup pass collects exactly the active coins the player overlaps, scores 10 for each and changes nothing else about the player |
| PlayerSpec.PickupLeavesNoTouchedCoin | player.js:90-97 | afterward no overlapped coin is still in play, and every coin still has "collected implies out of play" |
| PlayerSpec.MeetEnemyRules | player.js:101-114 | one enemy contact loses at most one life, scores 0 or 50, keeps the box and facing, and leaves the enemy untouched or defeated |
| PlayerSpec.NoStompWhileRising | player.js:99-115 | a player who is not falling scores nothing from enemies and is still not falling afterward |
| PlayerSpec.AtMostOneStomp | player.js:99-115 | the enemy pass scores 0 or 50, since a stomp makes the player rise; 50 only with an in-play enemy overlapped from above, which ends defeated |
| PlayerSpec.MeetEnemiesRules | player.js:99-115 | the enemy pass loses at most one life, gains 0 or 50, keeps the box, and never touches an enemy out of play |
| PlayerSpec.UpdateKeepsSpeedsBounded | player.js:42-142 | for a player facing left or right, an update leaves both speeds within the limits and keeps the facing |
| PlayerSpec.UpdateLosesAtMostOneLife | player.js:42-142 | an update loses at most one life, none inside a window; a lost life opens a window that has already run for the frame time |
| PlayerSpec.ScoreAfterPickup | player.js:99-115 | after the coin pass the enemy pass adds 0 or 50, the 50 only outside a window and with an in-play enemy that ends defeated |
| PlayerSpec.UpdateScore | player.js:42-142 | the score never falls: +10 per overlapped active coin, plus 0 or 50 from enemies, the 50 only outside a window and with an in-play enemy that ends defeated; so the gain is at most 10 per coin plus 50 |
| PlayerSpec.InvulnerablePlayerSkipsEnemies | player.js:99-115 | inside a window the enemies are untouched and no life is lost; the score rises only by coins |
| PlayerSpec.UpdateCollectsTouchedCoins | player.js:90-97 | an update collects the coins it overlaps after the platform pass and leaves every other coin as it was |
| PlayerSpec.UpdateStaysOnStage | player.js:126-138 | after an update the player's box lies on the stage; a player pushed below the floor ends on it, grounded, not jumping and with no vertical speed |
| PlayerSpec.LandingScenario | player.js:42-142 | falling from the start point onto a floor at 350 lands the player at y = 290, grounded and at rest vertically |
| PlayerSpec.DefeatedEnemyStillCounts | player.js:101-114 | an enemy in its defeat countdown can be stomped again for 50 points, or hurt the player |
| Players.Player.constructor | player.js:5-24 | the new object's state is `PlayerSpec.Spawn` |
| Players.Player.GetBounds | sprite.js:27-34 | the box is the 40 x 60 rectangle at the player's position |
| Players.Player.MoveLeft | player.js:158-161 | the new state is `PlayerSpec.MoveLeft` of the old one |
| Players.Player.MoveRight | player.js:163-166 | the new state is `PlayerSpec.MoveRight` of the old one |
| Players.Player.Jump | player.js:168-174 | the new state is `PlayerSpec.Jump` of the old one |
| Players.Player.Hurt | player.js:176-192 | the new state is `PlayerSpec.Hurt` of the old one |
| Players.Player.Reset | player.js:198-207 | the new state is `PlayerSpec.Reset` of the old one |
| Players.Player.Update | player.js:42-142 | the player, the coins and the enemies end as `PlayerSpec.Update` says, for distinct coins and enemies |
| Players.Player.Land | player.js:44-88 | the moves and the platform pass, as `PlayerSpec.Landed` |
| Players.Player.ResolvePlatforms | player.js:62-88 | the platform loop, as `PlayerSpec.HitPlatforms` |
| Players.Player.CollectCoins | player.js:90-97 | the coin loop leaves the player and the coins as `PlayerSpec.CollectCoins` |
| Players.Player.MeetEnemies | player.js:101-114 | the enemy loop leaves the player and the enemies as `PlayerSpec.MeetEnemies` |
| Players.Player.Settle | player.js:117-138 | the window countdown and the stage clamp |
| LevelSpec.Entries | level.js:38-66 | a missing list has no entries |
| LevelSpec.MakePlatform | level.js:40-46 | a platform entry keeps its box; a missing or empty type becomes "normal" |
| LevelSpec.MakePlatforms | level.js:38-48 | one platform per entry, in order |
| LevelSpec.SpawnCoins | level.js:51-55 | one new coin per entry, in order, at the entry's position |
| LevelSpec.SpawnEnemies | level.js:58-66 | one new enemy per entry, in order |
| LevelSpec.LoadedPlatformTypes | level.js:38-48 | loaded platforms keep their entries' order and positions; a missing or empty type gives "normal" |
| LevelSpec.LoadedEnemyKinds | level.js:58-66 | loaded enemies keep their entries' positions, are in play and not defeated; a missing or empty type gives the typeless kind |
| LevelSpec.DefaultLevelContents | level.js:69-105 | the built-in level has 9 platforms, 15 coins all in play (so it is not complete) and 5 enemies |
| LevelSpec.DefaultEnemyKinds | level.js:99-104 | the built-in enemies are three walkers, a flyer and a jumper |
| LevelSpec.FloatAllAt | level.js:109-113 | the coin loop floats each coin on its own |
| LevelSpec.StepAllAt | level.js:116-120 | the enemy loop steps each enemy on its own, against the same platforms and player |
| LevelSpec.CompletionIgnoresFloat | level.js:107-128 | the coin loop never changes which coins are in play, so completion can be judged before or after it |
| LevelSpec.NumberOr | level.js:166-167 | a missing or zero number gives the fallback; any other number is kept |
| LevelSpec.ResetCoins | level.js:157-160 | every coin is reset on its own, in order |
| LevelSpec.ResetEnemies | level.js:163-168 | every enemy is reset on its own, in order |
| LevelSpec.ResetReactivates | level.js:155-169 | after a reset every coin is in play and uncollected, so a level with coins is not complete, and every enemy is in play and not defeated |
| LevelSpec.ResetKeepsPositions | level.js:163-168 | enemies have no recorded spawn point, so a reset only changes their two flags |
| LevelSpec.SpawnedAfterLoad | level.js:58-66 | appended enemies are spawned like the existing ones: a kind, a facing of -1 or 1 and no recorded spawn point |
| LevelSpec.SpawnedAfterStep | level.js:116-120 | the enemy loop keeps every enemy spawned-shaped |
| LevelSpec.SpawnedAfterReset | level.js:163-168 | a reset keeps every enemy spawned-shaped |
| LevelSpec.ResetOfSpawnIsSpawn | level.js:163-168 | resetting a new enemy gives back the same enemy |
| LevelSpec.RestartedWalkerHasNoSpeed | level.js:163-168 | a walker stomped before a reset comes back in play with speed 0 |
| Levels.Level.constructor | level.js:5-19 | a level record is loaded into the empty level; without one the built-in level is created; no coin or enemy object is shared |
| Levels.Level.LoadLevel | level.js:21-67 | platforms, coins and enemies are appended, one per entry, in order; start point and background change only when given |
| Levels.Level.SetBackground | level.js:28-35 | a given background sets the colour when it is non-empty and the image source when it is non-empty |
| Levels.Level.CreateDefaultLevel | level.js:69-105 | an empty level receives the built-in platforms, coins and enemies |
| Levels.Level.AddPlatforms | level.js:38-48 | the platform loop appends `MakePlatforms` of the entries |
| Levels.Level.AddCoins | level.js:51-55 | the coin loop appends one fresh coin per entry and keeps the coins distinct |
| Levels.Level.AddEnemies | level.js:58-66 | the enemy loop appends one fresh enemy per entry and keeps the enemies distinct |
| Levels.Level.Update | level.js:107-128 | every coin floats, every enemy takes its step against this level's platforms and the player's x, and the result is true exactly when no coin was in play; the level stays valid (distinct objects, every enemy spawned-shaped) |
| Levels.Level.AllInactive | level.js:123-127 | true exactly when no coin is in play; changes nothing |
| Levels.Level.Reset | level.js:155-169 | the coins and enemies end as `ResetCoins` and `ResetEnemies` of their old states; each enemy keeps its position and only its two flags change; the level stays valid |

## Left out

- Drawing (`draw` in every file), colours used only for drawing, the coin's rotation angle, particle effects and sounds: they do not affect the simulation.
- Writes to the page (score and lives text, the game-over screen): `Player.gameOver` only shows a screen and is not modelled.
- `Player.updateAnimationState`, `setupAnimations` and the player's animation fields: they only choose what is drawn.
- `AnimatedSprite.setImage` and the `image` field, and the drawing-sheet use of the frame counters: there is no image in the model.
- `Sprite.update` has an empty body and is not modelled.
- `distance` and `randomInt` in utils.js are not called by the modelled core.
- `Math.sin` and `Date.now` are parameters of the update methods (`sin`, `now`). Nothing is assumed of `sin` except where a lemma requires it to stay in [-1, 1].
- Coins.Coin.Update: the model takes one clock reading per frame, where the source calls `Date.now()` anew for each coin.
- Enemies.Enemy.Update: it takes the player's x, wrapped in an `Option` (`None` for a missing player), instead of the player object, which is the only part of the player it reads.
- Numbers are exact reals, not IEEE doubles. Rounding, infinities and NaN are not modelled.
- Sprites.AnimatedSprite.PlayAnimation: only names registered with `addAnimation` are found; the source's plain-object lookup would also find names every JavaScript object inherits, such as "toString".
- Aliasing: the coin and enemy lists must not contain the same object twice.
- The `Image` object of the level background: only its source string is kept.
- The game loop, keyboard input, the HUD and the game class (game.js, input.js, main.js) are not part of this model.
- Levels.Level.CreateDefaultLevel: its contract covers a freshly constructed (empty) level only, which is how the constructor calls it.
- The fields a coin, enemy or player inherits from the base sprite but never reads in the simulation (colour, `speedX`/`speedY` of a coin) are not kept on those objects.
