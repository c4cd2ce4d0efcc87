# Collision, modelled in Dafny

Collision is a small arcade game. The player steers a ball with the mouse
or the arrow keys and must dodge enemy balls, which bounce off the window
borders and, optionally, off each other. A game is one of two types:
- a *time* game, where a new enemy joins every few seconds;
- a *coins* game, where the player collects coins and every few coins a
  new enemy joins.

The difficulty (easy, medium, hard) sets how often enemies join, how fast
they move and how many coins bring a new one. A game can also show bonuses,
which slow the enemies down for six seconds or speed them up for three.
When an enabled enemy touches the player the game is over, and a good
score enters a per-type, per-difficulty high-score table of five entries.

This project models the game's rules and bookkeeping, and proves what they
promise:
- the option tables;
- the countdown timer;
- the high-score table;
- the balls (player, enemies, coin, bonus, homing missile);
- the game layer that runs one frame after another;
- the two earlier revisions at the top of the repository (`balls.py`,
  `game.py`), which play by slightly different rules.

Files:
- `vectors.dfy` (module `Vectors`): the two-dimensional vectors the balls
  move by.
- `options.dfy` (module `GameOptions`): the options and the
  difficulty-dependent parameters.
- `timer.dfy` (module `Timers`): a countdown timer advanced once per frame.
  It counts only while armed and while its condition holds, and reports
  with a `fired` flag that its callback is due.
- `scores.dfy` (module `HighScores`): the high-score table, its
  sorted-insert loop, and what adding a score does and does not change.
- `balls.dfy` (module `Balls`): each ball is a class with its fields and
  methods. The arithmetic of a step or a bounce is a function on values
  that the methods are proved to compute.
- `game_rules.dfy` (module `GameRules`): one frame of the game as a function
  `Step` on a `World` value, its stages, and lemmas about runs of frames.
- `game.dfy` (module `Game`): the class `GameLayer`. Each stage of its
  `Update` is proved to compute the stage of the same name in `GameRules`,
  on the state `Model()` reads off the objects.
- `legacy_balls.dfy` (module `LegacyBalls`): the balls of the first
  revision, related to the later ones by lemmas.
- `legacy_game.dfy` (module `LegacyGame`): the first revision's game:
  - its own player and enemy classes;
  - the ten-second spawn accumulator;
  - the game over that disables every ball;
  - the pair scan that picks which enemies bounce.

Things the game does not compute itself are inputs of the model:
- the window size (`Size`);
- the results of `random.randint` (a sequence of `Draw`s for each retry
  loop, and `Rolls` for one frame);
- the random direction of a new enemy (a unit vector);
- the square root (`sqrt: real -> real`), used for distances and
  normalisation.

Cocos's collision test `they_collide` between two circle shapes is the
predicate `Balls.Collide`: the squared distance between the centres is less
than the squared sum of the radii. A scheduled animation that ends in a
call is a boolean "pending" field, and the call is a method of its own.
This covers the fade-in that ends in `_enable` and the blinking that ends
in `_makeVulnerable`.

## Model

| member | source | states |
|---|---|---|
| GameOptions.Options.IntervalAddEnemy | collision/options.py:65-66 | The seconds between two new enemies are 20, 15 and 10 for easy, medium and hard, and always positive. |
| GameOptions.Options.EnemySpeed | collision/options.py:68-69 | The initial enemy speed is 200, 300 and 400 for easy, medium and hard. |
| GameOptions.Options.CoinsAddEnemy | collision/options.py:71-72 | The coins per new enemy are 8, 6 and 4 for easy, medium and hard. |
| GameOptions.Default | collision/options.py:44-48 | A fresh Options is a time game of medium difficulty, with ball collisions and bonuses on. |
| GameOptions.TypeIsExclusive | collision/options.py:50-54 | For a game type of TIME or COINS, exactly one of isTime and isCoins holds. |
| GameOptions.DifficultyIsExclusive | collision/options.py:56-63 | For a difficulty of 0, 1 or 2, exactly one of isEasy, isMedium and isHard holds. |
| GameOptions.HarderIsHarder | collision/options.py:33-36 | A harder difficulty has a strictly shorter spawn interval, faster enemies and fewer coins per enemy. |
| Timers.Tick | collision/timer.py:62-63 | An idle timer (time <= 0) and a timer whose condition is false keep their time. Otherwise the time drops by exactly dt. |
| Timers.Timer.constructor | collision/timer.py:27-52 | The timer holds the given start time, callback, condition and arguments. |
| Timers.Timer.Update | collision/timer.py:54-66 | The new time is Tick of the old one. The callback fires exactly when the timer counted, reached zero or less, and has a callback, so at most once per update. |
| Timers.IdleTimerStaysIdle | collision/timer.py:37-37 | A timer started at zero or less never changes and never calls back, over any run of updates. |
| Timers.FiresOnceWhenTimeRunsOut | collision/timer.py:62-66 | Over positive frames, an armed timer that is never re-armed calls back exactly once if the frames add up to at least its time, and never otherwise. Until then it has counted down by exactly the time played. Once it has fired it stays idle. |
| Timers.NoCallbackNeverFires | collision/timer.py:65-66 | A timer without a callback counts down exactly as one with a callback, and never calls back. |
| HighScores.Scores.constructor | collision/scores.py:26-28 | The table starts as the lists read from disk. |
| HighScores.Scores.GetHighScores | collision/scores.py:30-35 | The stored list for the game type and difficulty, or the empty list when either key was never stored. |
| HighScores.Scores.IsHighScore | collision/scores.py:37-46 | Never for a score <= 0. A positive score qualifies for a list shorter than five. For a full list it qualifies iff it beats the fifth entry. |
| HighScores.Scores.AddHighScore | collision/scores.py:48-73 | The table becomes WithHighScore of the old one. A qualifying score added to a sorted list is in the list afterwards. |
| HighScores.InsertEntry | collision/scores.py:57-71 | The for/else loop computes Inserted: the entry goes before the first strictly worse score, the list is cut back to five, and with no worse score the entry is appended only if there is room. |
| HighScores.FirstSmaller | collision/scores.py:60-61 | The index of the first entry strictly below the score: every entry before it is at least as good. |
| HighScores.InsertedKeepsOrder | collision/scores.py:60-71 | Adding keeps the list sorted from the best score down. |
| HighScores.InsertedLength | collision/scores.py:63-71 | A list of at most five entries grows by one, up to five. |
| HighScores.FullListWithoutWorseUnchanged | collision/scores.py:68-71 | A full list with no entry worse than the score is left unchanged. |
| HighScores.InsertedPlacement | collision/scores.py:60-67 | The new entry lands after every entry at least as good, so ties keep older entries first, and before every worse one. The entries around it keep their order. |
| HighScores.QualifiesIffChanged | collision/scores.py:37-71 | On a sorted list of at most five, adding a positive score changes the list iff isHighScore holds. A qualifying entry is then in the list. |
| HighScores.QualifyingEntryIsKept | collision/scores.py:37-71 | A qualifying score added to a sorted list is in the list afterwards, even when the list was full. |
| HighScores.QualifyingEntryIsStored | collision/scores.py:37-73 | A score that qualifies for a sorted stored list is found in that list after it is added. |
| HighScores.InsertedContents | collision/scores.py:60-71 | Adding invents and duplicates nothing: the result is the old entries plus the new one, less at most the dropped last entry. Below five, nothing is dropped. |
| HighScores.OtherListsUnchanged | collision/scores.py:49-58 | Only the target list changes, to the old list with the entry added. Missing keys are created, and every other game type and difficulty keeps its list. |
| HighScores.WithHighScoreWellFormed | collision/scores.py:48-71 | Adding keeps every list of the table sorted and at most five long. |
| Balls.Clamp | collision/balls.py:53-54 | min(max(v, lo), hi) lies in [lo, hi] when lo <= hi, is one of v, lo and hi, and is v when v is already in range. |
| Balls.WithinBorders | collision/balls.py:46-55 | In a window that fits the ball, the ball ends inside. A ball already inside is not moved. Each coordinate is kept or set to a border. |
| Balls.WithinBordersIdempotent | collision/balls.py:46-55 | Checking the borders twice is checking them once. |
| Balls.CollideIsSymmetric | collision/scenes/game.py:221-221 | Whether two circles collide does not depend on the order they are given in. |
| Balls.FarFromIsDistance | collision/balls.py:69-69 | The square-free test FarFrom holds exactly when the distance to the player is at least the minimum. |
| Balls.FirstFar | collision/balls.py:65-70 | The index of the first draw far enough from the player: every earlier draw is too close. |
| Balls.RelocatedIsSafe | collision/balls.py:57-72 | If some draw is far enough, setRandomPosition leaves the ball inside the window and far enough from the player. Otherwise it stays where it was. |
| Balls.DrawPosition | collision/balls.py:65-70 | The retry loop finds a position exactly when some draw is far enough. What it finds is such a draw, and the first one. |
| Balls.FirstFarIsFirst | collision/balls.py:65-70 | A far draw preceded only by close ones is the one the loop stops at. |
| Balls.KeyboardDelta | collision/balls.py:139-159 | Each coordinate is -1, 0 or 1. It is negative iff only LEFT (or DOWN) is held and positive iff only RIGHT (or UP) is held, so opposite keys cancel. |
| Balls.PlayerStep | collision/balls.py:127-132 | A frozen player stays put. Otherwise the player ends inside a window that fits it, exactly where the mouse and keys took it when that is inside. |
| Balls.IdlePlayerStays | collision/balls.py:127-132 | A player inside the window, with no mouse movement and no arrow key held, does not move. |
| Balls.Player.constructor | collision/balls.py:79-93 | The player starts at the given position, neither frozen nor invulnerable. |
| Balls.Player.Freeze | collision/balls.py:95-98 | The player is frozen. |
| Balls.Player.Unfreeze | collision/balls.py:100-103 | The player is no longer frozen. |
| Balls.Player.MakeInvulnerable | collision/balls.py:109-113 | The player is invulnerable at once, and a pending return to vulnerability is cancelled. |
| Balls.Player.MakeVulnerable | collision/balls.py:115-121 | Only an invulnerable player schedules the return to vulnerability. The flag itself does not change yet. |
| Balls.Player.FinishVulnerable | collision/balls.py:134-136 | At the end of the blinking the player is vulnerable again. |
| Balls.Player.Update | collision/balls.py:127-132 | The position becomes PlayerStep of the old one. |
| Balls.SpawnedEnemy | collision/balls.py:167-182 | A new enemy is disabled, at rest, fading in, of Enemy.MASS, with the given radius and initial speed. When some draw allows it, the enemy is at least Enemy.PLAYER_DISTANCE (100) from the player. |
| Balls.EnemyMove | collision/balls.py:184-195 | A disabled enemy does not change. An enabled one keeps its radius, mass and flags, and ends inside a window that fits it. |
| Balls.EnemyMoveInside | collision/balls.py:184-195 | A move that stays inside is the plain move, with the speed unchanged. |
| Balls.EnemyMoveKeepsSpeed | collision/balls.py:191-194 | A border reflection changes the direction of an enemy, never its speed. |
| Balls.EnemyBouncesInward | collision/balls.py:191-194 | After crossing a border, the reversed speed component points back into the window. |
| Balls.Bounce | collision/balls.py:198-243 | bounceBalls changes only the positions and speeds of the two balls, and leaves each inside a window that fits it. Balls already moving apart along the normalised mtd (vn > 0) keep their speeds. The total momentum m1 * v1 + m2 * v2 is kept. |
| Balls.EnemiesCanBounce | collision/balls.py:210-218 | For two enemies of one radius and Enemy.MASS, every division of bounceBalls is defined. |
| Balls.ImpulseConservesMomentum | collision/balls.py:236-243 | The impulse keeps m1 * v1 + m2 * v2, whether the balls move apart (no change) or approach. |
| Balls.ImpulseSeparates | collision/balls.py:228-243 | Along the unit normal, balls moving apart keep their relative speed and approaching balls have it reversed. |
| Balls.ImpulseReflects | collision/balls.py:236-243 | For approaching balls, the impulse adds -2 vn times the normal to the relative speed. |
| Balls.PushApartKeepsCentreOfMass | collision/balls.py:218-222 | Pushing the balls apart by shares inverse to their masses keeps their centre of mass. |
| Balls.PushApartGap | collision/balls.py:214-222 | Pushing apart widens the vector between the centres by exactly the mtd. |
| Balls.SameCentreSeparation | collision/balls.py:210-212 | At distance zero, the balls are separated along x, as if the sum of the radii apart at a distance one less. |
| Balls.SamePlaceHasNoDistance | collision/balls.py:207-210 | Two balls at one place are at distance zero. |
| Balls.Enemy.constructor | collision/balls.py:167-182 | The new enemy's state is SpawnedEnemy. |
| Balls.Enemy.Update | collision/balls.py:184-195 | The state becomes EnemyMove of the old one at the given speed factor. |
| Balls.Enemy.Enable | collision/balls.py:245-250 | The enemy moves off at its initial speed in the given direction, and the fade-in is over. |
| Balls.Enemy.Stop | collision/scenes/game.py:163-164 | stop() cancels the pending _enable. |
| Balls.Enemy.BounceBalls | collision/balls.py:198-243 | The two enemies' states become Bounce of their old states. |
| Balls.Coin.constructor | collision/balls.py:257-268 | The coin is placed by setRandomPosition at least 200 from the player, and is disabled while fading in. |
| Balls.Coin.SetRandomPosition | collision/balls.py:57-72 | The coin moves to the first draw far enough from the player. |
| Balls.Coin.Enable | collision/balls.py:270-271 | The coin can be caught. |
| Balls.Bonus.constructor | collision/balls.py:285-289 | The bonus starts hidden and disabled. |
| Balls.Bonus.Show | collision/balls.py:291-302 | A shown bonus is left alone. A hidden one is placed away from the player and enabled. |
| Balls.Bonus.Hide | collision/balls.py:304-308 | The bonus is disabled. |
| Balls.Missile.constructor | collision/balls.py:316-321 | The missile starts hidden, disabled, with nothing pending. |
| Balls.Missile.Show | collision/balls.py:323-333 | An enabled missile is left alone. A disabled one is placed away from the player and starts its fade-in, but is not enabled yet. |
| Balls.Missile.Hide | collision/balls.py:335-339 | The missile is disabled and its fade-in cancelled. |
| Balls.Missile.Update | collision/balls.py:341-349 | Only an enabled missile moves, by the homing step towards the player. |
| Balls.Missile.Enable | collision/balls.py:351-352 | At the end of the fade-in the missile is enabled. |
| GameRules.Spawned | collision/scenes/game.py:144-154 | Successive addEnemy calls create one new enemy each, at the difficulty's enemy speed and each placed by its own draws. All of them have the enemy radius and Enemy.MASS. |
| GameRules.Start | collision/scenes/game.py:92-131 | Before its enemies, a new game has the player at the window centre, no coins, and no game over. The add-enemy timer is at the difficulty's interval in a time game. The slow-down and speed-up timers are idle, and the bonus is hidden. |
| GameRules.Initial | collision/scenes/game.py:84-134 | A new game additionally has exactly three disabled enemies at rest. |
| GameRules.SpawnedGrows | collision/scenes/game.py:120-121 | One more addEnemy appends exactly the next spawned enemy. |
| GameRules.MovePlayer | collision/scenes/game.py:206-208 | Only the player's position and the mouse movement change, and the mouse movement is used up. A frozen player stays put. |
| GameRules.SpeedFactor | collision/scenes/game.py:188-192 | The factor is 0.5 iff the slow-down is on, 1.5 iff only the speed-up is on, and 1.0 otherwise. It is always 1.0 without bonuses. |
| GameRules.MoveEnemies | collision/scenes/game.py:211-216 | Only the enemies change, none is added, disabled ones stay as they were, and enabled ones end inside the window. |
| GameRules.AddEnemy | collision/scenes/game.py:144-154 | Exactly one enemy, disabled, is appended, and nothing else changes. |
| GameRules.CatchCoin | collision/scenes/game.py:218-227 | With no catch nothing changes. A catch counts exactly one coin. An enemy is added iff the coin was caught and the new count is a multiple of getCoinsAddEnemy. |
| GameRules.GiveBonus | collision/scenes/game.py:175-186 | The bonus is hidden. Either the slow-down is armed for 6 seconds with the speed-up cancelled, or the speed-up for 3 with the slow-down cancelled. |
| GameRules.GiveBonusArmsOne | collision/scenes/game.py:175-192 | After giveBonus exactly one effect is on, and the speed factor is 0.5 or 1.5 accordingly. |
| GameRules.CatchBonus | collision/scenes/game.py:229-233 | With no catch nothing changes. A catch hides the bonus and leaves exactly one effect on. |
| GameRules.EndGame | collision/scenes/game.py:156-164 | gameOver sets the latch and only stops each enemy's pending fade-in. |
| GameRules.CheckHits | collision/scenes/game.py:235-238 | The game is over afterwards iff it was already over or some enabled enemy touches the player. Disabled enemies never end it, and with no hit nothing changes. |
| GameRules.PairStep | collision/scenes/game.py:242-246 | The body of the nested loops changes nothing unless pair (i, j) has j > i, both enemies enabled, and touching. |
| GameRules.BounceEnemies | collision/scenes/game.py:240-246 | Enemies bounce only when ballsCollide is on. Only the enemies change, and none is added. |
| GameRules.AddEnemyTimer | collision/scenes/game.py:194-196 | When the add-enemy timer fires, the difficulty's interval is added to it and exactly one enemy is added. Otherwise it just ticks. |
| GameRules.ShownBonus | collision/balls.py:291-302 | Bonus.show on the bonus state: a shown bonus is left alone, and a hidden one ends enabled. |
| GameRules.ShowBonusTimer | collision/scenes/game.py:198-200 | The show-bonus timer counts only while the bonus is hidden. When it fires, it is re-armed with the drawn delay and the bonus is shown. |
| GameRules.TickTimers | collision/scenes/game.py:248-250 | Each timer the options create ticks once. The add-enemy timer may add one enemy, and without bonuses the bonus timers are absent. |
| GameRules.Step | collision/scenes/game.py:202-250 | A frame changes nothing once the game is over. Otherwise the mouse movement is used up, enemies are never removed and at most one is added, and coins go up by at most one. |
| GameRules.OverIsOver | collision/scenes/game.py:202-203 | Once the game is over, no run of frames changes anything. |
| GameRules.EnemiesOnlyGrow | collision/scenes/game.py:202-250 | Over a run of n frames the enemy list never shrinks and grows by at most n. |
| GameRules.OverStaysOver | collision/scenes/game.py:156-157 | The game-over latch is never cleared: over at some point of a run means over at its end. |
| GameRules.PairScanConservesMomentum | collision/scenes/game.py:240-246 | The pair scan keeps the sum of the enemies' speeds, their total momentum. |
| GameRules.PairScanSkipsDisabled | collision/scenes/game.py:244-244 | The pair scan leaves every disabled enemy exactly as it was. |
| GameRules.PairScanWithoutContact | collision/scenes/game.py:240-246 | With no two enabled enemies touching, the pair scan changes nothing. |
| GameRules.BounceKeepsSpeedSum | collision/balls.py:236-243 | Bouncing two unit-mass enemies keeps the sum of their speeds. |
| GameRules.DisabledEnemyUnchanged | collision/scenes/game.py:202-250 | A disabled enemy goes through a whole frame unmoved with its speed unchanged. Only its pending fade-in may be stopped by the game's end. |
| Game.EndGameTwiceIsOnce | collision/scenes/game.py:156-164 | A second gameOver leaves the same game state as one does: the latch is set and every pending fade-in stopped. |
| Game.GameLayer.constructor | collision/scenes/game.py:84-134 | The layer's state is Initial for the given options, window and draws. |
| Game.GameLayer.SpawnEnemies | collision/scenes/game.py:119-121 | The loop of addEnemy calls appends Spawned to the enemies and changes nothing else. |
| Game.GameLayer.AddEnemy | collision/scenes/game.py:144-154 | A fresh enemy is appended, and the state is GameRules.AddEnemy of the old one. |
| Game.GameLayer.GameOver | collision/scenes/game.py:156-164 | The state becomes EndGame of the old one, with the same enemy objects. |
| Game.GameLayer.IsSpeedDown | collision/scenes/game.py:188-189 | It holds exactly when the slow-down of the current state is on. |
| Game.GameLayer.IsSpeedUp | collision/scenes/game.py:191-192 | It holds exactly when the speed-up of the current state is on. |
| Game.GameLayer.GiveBonus | collision/scenes/game.py:175-186 | The state becomes GameRules.GiveBonus of the old one. |
| Game.GameLayer.OnAddEnemyTimer | collision/scenes/game.py:194-196 | The timer is re-armed by one interval and one fresh enemy is appended. |
| Game.GameLayer.OnShowBonusTimer | collision/scenes/game.py:198-200 | The timer is re-armed with a delay in [min, max] and the bonus is shown. |
| Game.GameLayer.UpdatePlayer | collision/scenes/game.py:206-208 | The state becomes MovePlayer of the old one. |
| Game.GameLayer.UpdateEnemies | collision/scenes/game.py:211-216 | The state becomes MoveEnemies of the old one, at the frame's speed factor. |
| Game.GameLayer.CheckCoin | collision/scenes/game.py:218-227 | The state becomes CatchCoin of the old one, and any new enemy is fresh. |
| Game.GameLayer.CheckBonus | collision/scenes/game.py:229-233 | The state becomes CatchBonus of the old one. |
| Game.GameLayer.CheckHits | collision/scenes/game.py:235-238 | The state becomes GameRules.CheckHits of the old one. |
| Game.GameLayer.BounceIfTouching | collision/scenes/game.py:242-246 | One iteration of the nested loops computes PairStep. |
| Game.GameLayer.ScanPairs | collision/scenes/game.py:242-246 | The nested loops compute PairScan from pair (0, 0). |
| Game.GameLayer.CheckEnemyPairs | collision/scenes/game.py:240-246 | The state becomes BounceEnemies of the old one. |
| Game.GameLayer.UpdateAddEnemyTimer | collision/scenes/game.py:248-250 | In a time game the state becomes AddEnemyTimer of the old one. Otherwise nothing changes. |
| Game.GameLayer.UpdateShowBonusTimer | collision/scenes/game.py:248-250 | With bonuses the state becomes ShowBonusTimer of the old one. Otherwise nothing changes. |
| Game.GameLayer.UpdateSpeedTimers | collision/scenes/game.py:248-250 | With bonuses the slow-down and speed-up timers each tick once. |
| Game.GameLayer.UpdateTimers | collision/scenes/game.py:248-250 | The state becomes TickTimers of the old one. |
| Game.GameLayer.MoveBalls | collision/scenes/game.py:206-216 | The state becomes MoveEnemies after MovePlayer of the old one. |
| Game.GameLayer.CatchItems | collision/scenes/game.py:218-233 | The state becomes CatchBonus after CatchCoin of the old one. |
| Game.GameLayer.CheckCollisions | collision/scenes/game.py:235-246 | The state becomes BounceEnemies after GameRules.CheckHits of the old one. |
| Game.GameLayer.Update | collision/scenes/game.py:202-250 | One frame takes the state to Step of the old one, so every property proved of Step and of runs holds of the game. The player's invulnerability and its pending blink are untouched. |
| LegacyBalls.Player.constructor | balls.py:57-67 | The player starts at the given position. |
| LegacyBalls.Player.Update | balls.py:69-73 | With no frozen state, the player always moves as an unfrozen player of the later revision, and ends inside a window that fits it. |
| LegacyBalls.Enemy.constructor | balls.py:103-118 | A new enemy is the later revision's SpawnedEnemy: placed away from the player, at rest, disabled, fading in. |
| LegacyBalls.Enemy.Update | balls.py:120-130 | The enemy moves as the later revision's enemy at speed factor 1. |
| LegacyBalls.Enemy.Enable | balls.py:180-185 | The enemy moves off at its initial speed in the given direction, and its fade-in is over. |
| LegacyBalls.Enemy.BounceBalls | balls.py:132-178 | The two enemies' states become UnitBounce of their old states. |
| LegacyBalls.UnitSeparation | balls.py:140-147 | The distance bounceBalls divides by is never zero. |
| LegacyBalls.UnitBounce | balls.py:132-178 | Only positions and speeds change, and both balls end inside a window that fits them. Balls already moving apart keep their speeds. The sum of the speeds is kept. |
| LegacyBalls.SpeedSumKept | balls.py:171-178 | The impulse between balls of unit inverse mass takes from one speed what it adds to the other. |
| LegacyBalls.UnitBounceIsBounce | balls.py:150-160 | For two enemies of one radius and unit mass, this revision's bounce is the later revision's. |
| LegacyBalls.Coin.constructor | balls.py:192-204 | The coin is placed away from the player, disabled while fading in. |
| LegacyBalls.Coin.Enable | balls.py:206-207 | The coin can be caught. |
| LegacyGame.BorderCheck | game.py:167-175 | The if/elif border check keeps the coordinate in [lo, hi] when lo <= hi, is one of v, lo and hi, and keeps an in-range coordinate. |
| LegacyGame.BorderCheckIsClamp | game.py:167-175 | The check equals the later revision's clamp when the window fits the ball. In a too-small window it picks the lower bound where the clamp picks the upper. |
| LegacyGame.KeysMovedIsPlayerMoved | game.py:157-165 | Moving key by key is moving by the later revision's keyboard direction, so opposite keys cancel. |
| LegacyGame.PlayerUpdate | game.py:151-177 | A disabled player does not move. An enabled one ends inside a window that fits it. |
| LegacyGame.PlayerStepAgrees | game.py:151-177 | In a window that fits the ball, an enabled player moves as an unfrozen player of the later revision. |
| LegacyGame.Player.constructor | game.py:139-149 | The player starts at the given position, enabled. |
| LegacyGame.Player.Update | game.py:151-177 | The position becomes PlayerUpdate of the old one. |
| LegacyGame.AxisStep | game.py:219-228 | Each speed component is kept or negated. |
| LegacyGame.AxisStepBack | game.py:219-228 | A coordinate that leaves its range steps back to where it started, with the speed reversed. One that stays in range is where the speed took it. A coordinate in range stays in range. |
| LegacyGame.EnemyStep | game.py:216-230 | A disabled enemy does not change, the flags are kept, and the speed is kept or has a component negated. |
| LegacyGame.EnemySpeedKept | game.py:222-228 | A reflection never changes an enemy's speed. |
| LegacyGame.EnemyStaysInside | game.py:216-228 | Even with no clamp, an enemy inside the window stays inside. |
| LegacyGame.Enemy.constructor | game.py:185-197 | The enemy is placed by _set_random_position, at rest, disabled and fading in. When some draw is far enough, it is at least SAFE_DISTANCE from the player and inside the window. |
| LegacyGame.Enemy.SetRandomPosition | game.py:204-209 | The loop succeeds iff some draw is at least 100 from the player. It then leaves the enemy there, inside the window. |
| LegacyGame.Enemy.Enable | game.py:199-202 | The enemy moves off at 300 in the given direction, and is enabled. |
| LegacyGame.Enemy.Update | game.py:216-230 | The state becomes EnemyStep of the old one. |
| LegacyGame.MoveAll | game.py:47-48 | Every enemy takes its own step, and none is added or removed. |
| LegacyGame.DisableAll | game.py:87-89 | Every enemy is disabled and its fade-in stopped, and none is added or removed. |
| LegacyGame.PairsFromComplete | game.py:58-62 | From pair (i, j) on, the scan reports exactly the picked pairs at or after (i, j) in loop order. |
| LegacyGame.PairsComplete | game.py:58-62 | A pair is reported iff it is two enabled enemies, the second after the first, that touch. |
| LegacyGame.AccumulateRunCounts | game.py:64-70 | Over a run, the timer gains the time played less ten seconds per enemy added. With frames shorter than ten seconds it stays in [0, 10), so at most one enemy joins per frame and one per ten seconds. |
| LegacyGame.GameLayer.constructor | game.py:21-36 | The player starts enabled at the window centre, with exactly three enemies at rest, disabled and fading in, the timer at 0, and no keys or mouse movement. |
| LegacyGame.GameLayer.GameOver | game.py:83-89 | The player and every enemy are disabled, fade-ins stopped, and the timer set to -500. |
| LegacyGame.GameLayer.MovePlayer | game.py:41-43 | The player moves by PlayerUpdate and the mouse movement is used up. |
| LegacyGame.GameLayer.MoveEnemies | game.py:46-50 | Every enemy takes its step. |
| LegacyGame.GameLayer.CheckHits | game.py:52-55 | If an enabled enemy touches the player, the game-over state is reached. Otherwise nothing changes. |
| LegacyGame.GameLayer.Touches | game.py:59-61 | The test of pair (i, j) holds exactly when the pair is picked. |
| LegacyGame.GameLayer.CheckEnemyPairs | game.py:57-62 | The nested loops report Pairs of the enemies, in loop order. |
| LegacyGame.GameLayer.SpawnEnemy | game.py:64-70 | The accumulator takes dt. At ten or more, ten are taken off and exactly one fresh enemy is appended. |
| LegacyGame.GameLayer.MoveAndCheck | game.py:38-55 | The player and enemies move, then any enabled enemy touching the moved player ends the game. |
| LegacyGame.GameLayer.Update | game.py:38-70 | One frame moves, checks hits and reports the touching pairs. It adds at most one enemy, appended after the old ones, which are as the frame left them. The added enemy is new, placed by its draws, at rest, disabled and fading in. The held keys are unchanged. |

## Left out

- I/O: `Scores._loadScores` and `_saveScores` read and write a JSON file. The table starts from a given value and is not written out.
- Score keys: they are the Python `str()` of the game type and difficulty. They are modelled as the ints themselves, since `str` is injective on ints.
- Presentation and the user interface: images, opacity, the cocos actions, the missile's rotation, `HUDLayer`, `GameScene`, `pauseGame`, `getNumberOfEnemies`, `on_enter`/`on_exit`, and the pause, menu and high-score scenes. A scheduled call is a pending flag plus a method the animation system runs.
- Input handlers: `on_key_press`, `on_key_release` and `on_mouse_motion` only fill `keysPressed` and `mouseDelta`. The model takes those fields as given.
- The window size is a parameter (`Size`), not read from `director`.
- Randomness: each `random.randint` retry loop runs over a finite sequence of draws. The source loops until a draw is far enough, and may never stop. When no draw in the sequence is far enough, the later revision's model keeps the old position; `LegacyGame.Placement` keeps the last draw instead, as the first revision's loop assigns `x`, `y` on every try.
- The random direction of `_setRandomDirection` is a given unit vector, and `random.random()` for the bonus choice and the delay are given `Rolls`.
- Floating point: reals are exact. `math.cos`, `math.sin` and `math.atan2` are not modelled.
- The square root is a parameter. Distances compare squared lengths where only a comparison is needed (`FarFrom`, `Collide`).
- Balls.HomingStep: the missile's step follows the normalised vector to the player. The proof that its length is `MISSILE_SPEED * dt` is not made.
- Balls.Bounce: kinetic energy conservation, the exact touching distance after the push, and the unit length of the normalised mtd are not proved. Momentum, the centre of mass and the reversal of the normal speed are.
- The collision manager: `CollisionManagerGrid` is replaced by the circle-overlap predicate `Collide`, computed on the current positions.
- The four timers of the game layer are four `Timer?` fields, not a dict; their creation order is the dict's iteration order.
- `GameOver` of the later revision ends the scene through `director.pop()` after a fade-out; in the first revision `exit` is called. Neither is modelled: the latch, or the disabled balls, stop the game.
- Game.EndGameTwiceIsOnce: the source's hit loop (collision/scenes/game.py:236-238) calls gameOver once per enabled enemy touching the player. Each call schedules another FadeOut followed by director.pop (collision/scenes/game.py:160), so two hits in one frame would pop the scene stack twice. The model leaves scheduled actions of the player out, so it states only that the game state after a second call is the same.
- The first revision's `bounce_balls` (game.py:91-132) is not modelled. It raises `TypeError` when two centres coincide (`Enemy * 2`). Its impact speed subtracts the wrong component (`b1.vx - b2.vy`). `LegacyGame.GameLayer.Update` reports the pairs it would be called on instead of bouncing them.
- LegacyGame.PairsFromComplete: it states which pairs are reported, not their relative order. The order is the order of `PairsFrom` by definition, and `CheckEnemyPairs` is proved to produce exactly that sequence.
- LegacyGame.Player: the mouse movement is one `Vec` instead of the two fields `mouse_dx` and `mouse_dy`.
- The options' getters accept Python's negative tuple indexes (-3 to 2) and no other difficulty. That is their precondition, since the source raises `IndexError` outside that range.
