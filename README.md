# Arcade game: gameplay rules and game loop

This project models the core of a small browser arcade game. A player crosses a board of grid rows. Bug enemies ride three lanes, and a bonus token (a heart or a gem) can be picked up. The game keeps lives and a score.

What is modelled:

- the random policy: how one `Math.random()` draw picks an enemy's speed and lane, and a token's kind, column and row;
- the per-entity rules of `js/app.js`:
  - `Enemy.update`: movement, wrap at the right edge, and the collision with the player;
  - `Player.update`: the 20-tick pause at the water row;
  - `Player.handleInput`: grid steps that stop at the board edges;
  - `SpecialToken.giveProperties` and `SpecialToken.update`;
  - the `keyup` and `keydown` listeners;
- the per-frame composition of `js/engine.js`: `updateEntities(dt)` updates every enemy in roster order, then the player, then the token; `main` derives dt from consecutive timestamps; the game is over when lives are 0.

The model has two layers:

- `random_policy.dfy`, `rules.dfy` and `tick.dfy` state the rules as functions on values. `EnemyState`, `PlayerState`, `TokenState` and `GameState` are datatypes. Each rule is a function whose contract describes its effect.
- `app.dfy` and `engine.dfy` have the script's own shape. `Enemy`, `Player`, `SpecialToken` and `Engine` are classes whose methods update fields in place, including the fields of the shared player and token objects. Every method is proved to leave exactly the state the matching rule function computes. `Engine.UpdateEntities` is a loop over the roster; its invariant says the first `i` enemies have been updated.

`properties.dfy` proves what the rules guarantee, with the lemmas listed below. Within one tick:

- every enemy moves exactly once;
- at most one life is lost, because a hit player stands at row 400, out of reach of every lane;
- a token resampled by `player.update` cannot be collected in the same tick.

Over longer runs:

- a token pays its reward at most once between resamples;
- the pause at the goal takes exactly 20 ticks;
- the dts of a run of frames add up to the time elapsed;
- once lives reach 0, nothing but the restart key changes the player;
- from the start-up state, after any sequence of ticks and key events, lives are never negative and the player stays on the grid.

Randomness and time are parameters:

- Every tick gets one `EnemyDraw` (a speed draw and a lane draw) per enemy. The draw is used only if that enemy wraps.
- Every tick gets one `TokenDraw` (kind, column, row). It is used only if the player completes a crossing.
- The draws are not restricted to [0, 1): the selectors are total, and no property needs the range.
- Timestamps are integers in milliseconds, as `Date.now()` returns them. dt is a `real`.

Behaviour of the code worth knowing (the model keeps it):

- The pause counter is not cleared if the player steps off the water row before the 20 ticks are up. It stays below 20 between ticks.
- A restart resets only lives and points.
- A heart can push lives above 5.
- Enemies keep moving while lives are 0, but they cannot hit the player. The last hit left the player at row 400, and input is frozen.

## Model

| member | source | states |
|---|---|---|
| RandomPolicy.NewSpeed | js/app.js:17-29 | speed is one of 100/200/300; it is 100 exactly when the draw is below 0.21 and 300 exactly when it is at least 0.51 |
| RandomPolicy.NewLane | js/app.js:31-43 | lane is one of 60/145/230; 60 exactly below 0.34, 230 exactly from 0.67 |
| RandomPolicy.NewTokenKind | js/app.js:149-168 | the kind is one of heart (1 life), blue (40), green (30), orange (20) gem, each on its draw interval 0.16/0.26/0.51 |
| RandomPolicy.NewTokenColumn | js/app.js:171-181 | the column is one of 0..400 in steps of 100, each exactly on its own draw interval: 0 below 0.21, 100 on [0.21, 0.41), 200 on [0.41, 0.61), 300 on [0.61, 0.81), 400 from 0.81 |
| RandomPolicy.NewTokenRow | js/app.js:183-189 | the row is one of 80/160/240; 80 exactly below 0.34, 240 exactly from 0.67 |
| RandomPolicy.SelectorsMonotone | js/app.js:17-43 | a larger draw never selects a smaller speed, lane, column or row |
| Rules.NewEnemy | js/app.js:2-12 | a new enemy is at x = -100 with no lane and no speed yet |
| Rules.EnemyGiveProperties | js/app.js:16-44 | after giveProperties the speed is a speed tier and y is a lane, picked by the two draws; x is kept |
| Rules.EnemyMove | js/app.js:50-56 | left of 600 the enemy advances by dt*speed, keeping lane and speed; otherwise it goes to -100 with a fresh lane and speed; lanes and speed tiers are kept; with dt >= 0, x never falls below -100 |
| Rules.Abs | js/app.js:58-59 | the distance is not negative and is the value or its negation, as `Math.abs` |
| Rules.Touching | js/app.js:58-60 | touching holds exactly when the x distance is below 50 and the y distance below 21 |
| Rules.Costume | js/app.js:67-76 | the costume is the horn girl exactly at counter 1, the pink girl exactly at 2, the princess girl exactly at 3, and the cat girl for every other counter |
| Rules.HitPlayer | js/app.js:60-77 | a hit sends the player to (200,400), takes exactly one life, leaves points and the pause counter alone, and cycles the costume counter 1,2,3,0 with the matching costume |
| Rules.Retract | js/app.js:63-64 | a retracted token is parked at (-100,-100), keeping its kind and values |
| Rules.EnemyUpdate | js/app.js:46-78 | the collision is tested after the move; a hit applies HitPlayer and retracts the token, otherwise player and token are untouched; lives drop by at most one and points never change |
| Rules.NewPlayer | js/app.js:89-97 | a new player stands at the start cell (200,400) on the grid, with 5 lives, 0 points, both counters at 0 and the costume for counter 0 |
| Rules.PlayerUpdate | js/app.js:104-118 | off the water row nothing changes; at the water row the pause counter rises, and on the tick it reaches 20 the player returns to row 400, the counter clears, 10 points are added and the token is resampled; x, lives and costume never change |
| Rules.HandleInput | js/app.js:124-138 | each arrow takes one grid step unless it would leave the board, other keys do nothing, only x and y change, and a player on the grid stays on the grid |
| Rules.NewToken | js/app.js:140-146 | a new token is parked and worth nothing |
| Rules.TokenGiveProperties | js/app.js:148-191 | a resampled token has one of the four kinds and stands on a board column and a stone row, each chosen by its own draw |
| Rules.TokenUpdate | js/app.js:193-202 | on contact the token is parked and its life and point values are added to the player; otherwise nothing changes; the player never moves |
| Rules.KeyUp | js/app.js:236-246 | an arrow key reaches handleInput only while lives are positive; otherwise the player is unchanged |
| Rules.KeyDown | js/app.js:248-253 | key 78 with lives exactly 0 sets lives to 5 and points to 0 and changes nothing else; any other case changes nothing |
| Tick.InitialState | js/app.js:211-230 | start-up: five enemies at -100, enemy j with the speed and lane its own draw j selects, a new player and a parked token |
| Tick.RosterPrefix | js/engine.js:73-75 | updating the first i enemies keeps the roster size and leaves enemies i and later untouched |
| Tick.UpdateEntities | js/engine.js:72-78 | one tick keeps the roster size |
| Tick.FrameDt | js/engine.js:31-32 | dt is the timestamp difference in seconds, and is not negative when time does not run backwards |
| Tick.LastTime | js/engine.js:43 | the last timestamp is one the frames were given, once there has been a frame |
| Tick.FrameDts | js/engine.js:28-43 | every frame of a run receives one dt |
| Tick.Step | js/engine.js:63-78 | a tick keeps the roster size; a key release or press (js/app.js:234-253) leaves the roster and the token alone and never moves the player diagonally |
| Tick.Run | js/engine.js:28-49 | any run of events keeps the roster size |
| Properties.InitialStateOk | js/app.js:211-230 | the start-up state satisfies the game invariant and is not game over |
| Properties.StartRowOutOfReach | js/app.js:58-60 | no lane is within reach of the start row 400 |
| Properties.RosterMovesEachEnemyOnce | js/engine.js:73-75 | after the roster loop, each enemy is exactly where its own single move with the tick's dt puts it |
| Properties.EnemiesStayRightOfSentinel | js/app.js:50-56 | with dt >= 0, no enemy ends a tick left of -100 |
| Properties.RosterHitsAtMostOnce | js/engine.js:73-75 | over a tick's roster the player and token are either untouched or exactly as one hit leaves them |
| Properties.AtMostOneLifePerTick | js/engine.js:72-78 | a whole tick costs at most one life |
| Properties.GoalPauseLastsTwentyTicks | js/app.js:104-118 | from a cleared counter at the water row, fewer than 20 ticks leave the player there with the counter at the tick count and no resample; the 20th returns it to row 400 with 10 more points and exactly one resample |
| Properties.CrossingCharacterized | js/app.js:111-117 | the crossing condition holds exactly on the ticks that take a player from the water row back to row 400, and exactly on those that add 10 points; on every other tick the token and the points are untouched |
| Properties.ResampledTokenNotCollectedSameTick | js/engine.js:76-77 | a token resampled by player.update is not collected by the token.update of the same tick |
| Properties.CrossingTickPaysTen | js/engine.js:76-77 | the tick that completes a crossing awards exactly 10 points after the enemy phase |
| Properties.ParkedTokenPaysNothing | js/app.js:193-202 | a parked token never touches a player on the board and pays nothing |
| Properties.TokenPaysAtMostOnce | js/app.js:193-202 | over any run of players on the board (x >= 0), between resamples, a run of token.update calls pays either nothing or exactly the token's own values once |
| Properties.RestartRoundTrip | js/app.js:236-253 | out of lives, arrows are ignored; restart restores 5 lives and 0 points, keeps everything else, and arrows work again |
| Properties.RosterMissesStartRow | js/app.js:58-60 | with the player at row 400, no enemy of the roster touches it, so player and token survive the enemy phase unchanged |
| Properties.GameOverPersists | js/engine.js:159-160 | once lives are 0, every tick and every key other than the restart key leaves the player exactly as it is, so the game stays over |
| Properties.RunAppend | js/engine.js:28-49 | a run of events can be split anywhere: running the whole is running the first part and then the rest |
| Properties.EnemyUpdateKeepsInv | js/app.js:46-78 | one enemy update keeps lanes, grid, costume counter, lives >= 0 and the rule that a player with 0 lives stands at row 400 |
| Properties.RosterKeepsInv | js/engine.js:73-75 | the roster loop keeps the game invariant |
| Properties.PlayerUpdateKeepsInv | js/app.js:104-118 | player.update keeps the invariant, including a pause counter below 20 between ticks |
| Properties.TokenUpdateKeepsInv | js/app.js:193-202 | token.update keeps the invariant |
| Properties.UpdateEntitiesKeepsInv | js/engine.js:72-78 | a whole tick keeps the invariant for any dt and any draws |
| Properties.StepKeepsInv | js/app.js:236-253 | ticks, key releases and key presses each keep the invariant |
| Properties.RunKeepsInv | js/engine.js:28-49 | any sequence of events keeps the invariant |
| Properties.LivesNeverNegative | js/engine.js:159-160 | from start-up, after any events, lives are >= 0, the player is on the grid, the costume counter is in 0..3, and at game over the player stands at row 400 |
| Properties.FrameDtsSumToElapsed | js/engine.js:28-58 | the dts of a run of frames add up to the time from `init` to the last frame |
| App.Enemy.constructor | js/app.js:2-12 | creates the enemy in the NewEnemy state |
| App.Enemy.GiveProperties | js/app.js:16-44 | updates speed and lane in place as EnemyGiveProperties says |
| App.Enemy.Update | js/app.js:46-78 | updates the enemy, and the shared player and token, in place, exactly as EnemyUpdate says |
| App.Player.constructor | js/app.js:89-97 | creates the player in the NewPlayer state |
| App.Player.Update | js/app.js:104-118 | updates the player and the shared token in place, exactly as PlayerUpdate says |
| App.Player.HandleInput | js/app.js:124-138 | moves the player in place, exactly as Rules.HandleInput says |
| App.SpecialToken.constructor | js/app.js:140-146 | creates the token in the NewToken state |
| App.SpecialToken.GiveProperties | js/app.js:148-191 | resamples the token in place, exactly as TokenGiveProperties says |
| App.SpecialToken.Update | js/app.js:193-202 | updates the token and the shared player in place, exactly as TokenUpdate says |
| App.CreateRoster | js/app.js:211-226 | five fresh, distinct enemies in order, each in the state giveProperties leaves |
| App.OnKeyUp | js/app.js:236-246 | applies KeyUp to the player in place |
| App.OnKeyDown | js/app.js:248-253 | applies KeyDown to the player in place |
| GameEngine.Engine.constructor | js/app.js:211-230 | the engine holds the start-up state InitialState, with distinct enemies |
| GameEngine.Engine.UpdateEntities | js/engine.js:72-78 | the loop over the roster followed by player.update and token.update leaves exactly Tick.UpdateEntities of the old state |
| GameEngine.Engine.UpdateEnemy | js/engine.js:73-75 | one turn of the roster loop updates enemy i, and the shared player and token, exactly as EnemyUpdate says, and leaves every other enemy alone |
| GameEngine.Engine.Record | js/engine.js:43 | lastTime becomes now; the timestamp and its dt join the logs, which stay Tick.FrameDts of the timestamps, so the dts still add up to the time since init |
| GameEngine.Engine.StartClock | js/engine.js:56 | init's clock reading becomes both lastTime and the start time, with no frame logged yet |
| GameEngine.Engine.Frame | js/engine.js:28-49 | a frame passes dt = (now - lastTime)/1000 to the update, then sets lastTime to now and logs the timestamp; the dt log is always Tick.FrameDts of the logged timestamps, so the dts add up to the time since init |
| GameEngine.Engine.Init | js/engine.js:55-58 | init stores its own clock reading as lastTime and the start time; the first frame then uses a second, later reading, so its dt is (now - initNow)/1000; that reading is the one timestamp logged and its dt the one dt logged |
| GameEngine.Engine.IsGameOver | js/engine.js:159-160 | the engine reports game over exactly when its state satisfies Tick.GameOver, lives 0 |

## Left out

- Drawing: canvas creation (js/engine.js:15-23), the terrain loop, `renderEntities`, `renderPoints`, `renderLives`, the overlay of `renderGameOver`, and every `render` method of app.js. They only draw and change no game state. Only the `lives === 0` test of `renderGameOver` is kept, as `Tick.GameOver` and `Engine.IsGameOver`.
- `Resources.load`/`onReady` and `requestAnimationFrame`. These are asynchronous asset loading and scheduling, done by a helper library not part of this model. The caller runs `Engine.Init` once and then `Engine.Frame` once per animation frame, passing the timestamp.
- `Date.now()` and `Math.random()`. They become parameters (timestamps and draws).
- `console.log` calls (js/app.js:169, 190).
- DOM event objects and the `allowedKeys` key-code table of the `keyup` listener. A key is the `Key` datatype; a code the table does not map becomes `Other`, which `handleInput` ignores. The `keydown` listener takes the raw key code.
- IEEE floating point. Enemy `x` and dt are exact `real`s; rounding is not modelled.
- Sprite image paths. They become the `Sprite` enumeration. The enemy's sprite never changes, so the `Enemy` class has no sprite field.
- The value of `lastTime` before `init` (undefined in the script). The engine's constructor sets it to 0, and `Init` overwrites it before the first frame.
- GameEngine.Engine.Valid: the engine's object invariant covers only distinct roster entries and the timestamp and dt logs. The game invariant (grid, lanes, lives >= 0) is proved on the value model, in `Properties.RunKeepsInv` and `Properties.LivesNeverNegative`, not carried by the class. The key listeners change the shared player outside the engine.
