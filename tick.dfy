/**
 * The engine's per-frame composition as functions on a whole game state:
 * `updateEntities(dt)` updates every enemy of the roster in order, then the
 * player, then the token; `main` derives dt from consecutive timestamps;
 * the game is over exactly when the player has no lives.
 */
module Tick {
  import opened RandomPolicy
  import opened Rules

  /** Everything the engine drives: the enemy roster, the player and the token. */
  datatype GameState = GameState(enemies: seq<EnemyState>, player: PlayerState, token: TokenState)

  /** The roster built at start-up: five enemies. */
  const RosterSize: nat := 5

  /**
   * The state the script sets up before the first frame: five enemies,
   * each created off-screen and given a speed and a lane, a new player and
   * a parked token.
   */
  function InitialState(draws: seq<EnemyDraw>): (g: GameState)
    requires |draws| == RosterSize
    ensures |g.enemies| == RosterSize
    ensures forall j :: 0 <= j < |g.enemies| ==>
      g.enemies[j].x == Offscreen && IsLane(g.enemies[j].y) && IsSpeed(g.enemies[j].speed)
    ensures forall j :: 0 <= j < RosterSize ==>
      g.enemies[j].speed == NewSpeed(draws[j].speed) && g.enemies[j].y == NewLane(draws[j].lane)
    ensures g.player == NewPlayer() && g.token == NewToken()
  {
    GameState(seq(RosterSize, j requires 0 <= j < RosterSize => EnemyGiveProperties(NewEnemy(), draws[j])),
              NewPlayer(), NewToken())
  }

  /**
   * The state once the first `i` enemies of the roster have run `update(dt)`,
   * each against the player and token left by the ones before it.
   */
  function RosterPrefix(g: GameState, i: nat, dt: real, ds: seq<EnemyDraw>): (h: GameState)
    requires |ds| == |g.enemies| && i <= |g.enemies|
    ensures |h.enemies| == |g.enemies|
    ensures forall j :: i <= j < |g.enemies| ==> h.enemies[j] == g.enemies[j]
    decreases i
  {
    if i == 0 then g
    else
      var h := RosterPrefix(g, i - 1, dt, ds);
      var o := EnemyUpdate(h.enemies[i - 1], h.player, h.token, dt, ds[i - 1]);
      GameState(h.enemies[i - 1 := o.enemy], o.player, o.token)
  }

  /** `updateEntities(dt)`: the whole roster with one dt, then `player.update()`, then `token.update()`. */
  function UpdateEntities(g: GameState, dt: real, ds: seq<EnemyDraw>, td: TokenDraw): (h: GameState)
    requires |ds| == |g.enemies|
    ensures |h.enemies| == |g.enemies|
  {
    var a := RosterPrefix(g, |g.enemies|, dt, ds);
    var b := PlayerUpdate(a.player, a.token, td);
    var c := TokenUpdate(b.token, b.player);
    GameState(a.enemies, c.player, c.token)
  }

  /** The condition `renderGameOver` draws its overlay on. */
  predicate GameOver(g: GameState) {
    g.player.lives == 0
  }

  /** The dt of one frame, in seconds, from two `Date.now()` readings in milliseconds. */
  function FrameDt(lastTime: int, now: int): (dt: real)
    ensures dt * 1000.0 == (now - lastTime) as real
    ensures lastTime <= now ==> 0.0 <= dt
  {
    (now - lastTime) as real / 1000.0
  }

  /** The latest timestamp: the last frame's, or the start time before any frame. */
  function LastTime(start: int, nows: seq<int>): (last: int)
    ensures nows != [] ==> last in nows
  {
    if nows == [] then start else nows[|nows| - 1]
  }

  /** The dt each of a run of frames receives, `lastTime` starting at `start`. */
  function FrameDts(start: int, nows: seq<int>): (dts: seq<real>)
    ensures |dts| == |nows|
  {
    if nows == [] then []
    else
      var before := nows[..|nows| - 1];
      FrameDts(start, before) + [FrameDt(LastTime(start, before), nows[|nows| - 1])]
  }

  function Sum(xs: seq<real>): (total: real) {
    if xs == [] then 0.0 else Sum(xs[..|xs| - 1]) + xs[|xs| - 1]
  }

  /** What can reach the game between and at frames. */
  datatype Event =
    | Advance(dt: real, enemyDraws: seq<EnemyDraw>, tokenDraw: TokenDraw)  // one `update(dt)`
    | Release(key: Key)                                                  // a `keyup`
    | Press(keyCode: int)                                                // a `keydown`

  /** Every tick brings one draw per enemy of an `n`-enemy roster. */
  predicate FitsRoster(evs: seq<Event>, n: nat) {
    forall k :: 0 <= k < |evs| && evs[k].Advance? ==> |evs[k].enemyDraws| == n
  }

  /** One event: a tick runs `update(dt)`; a key event reaches only the player. */
  function Step(g: GameState, ev: Event): (h: GameState)
    requires ev.Advance? ==> |ev.enemyDraws| == |g.enemies|
    ensures |h.enemies| == |g.enemies|
    ensures !ev.Advance? ==> h.enemies == g.enemies && h.token == g.token
    ensures !ev.Advance? ==> h.player.x == g.player.x || h.player.y == g.player.y
  {
    match ev
    case Advance(dt, ds, td) => UpdateEntities(g, dt, ds, td)
    case Release(key) => g.(player := KeyUp(g.player, key))
    case Press(code) => g.(player := KeyDown(g.player, code))
  }

  /** The game after a sequence of events, in order. */
  function Run(g: GameState, evs: seq<Event>): (h: GameState)
    requires FitsRoster(evs, |g.enemies|)
    ensures |h.enemies| == |g.enemies|
    decreases |evs|
  {
    if evs == [] then g
    else
      var next := Step(g, evs[0]);
      Run(next, evs[1..])
  }
}
