/**
 * The game loop: the engine holds the enemy roster, the player and the
 * token, and each frame computes dt from the previous timestamp, updates
 * every entity in a fixed order and remembers the timestamp. Drawing is
 * not modelled; the frame scheduler and the clock become the `now`
 * parameter, and `Math.random()` becomes the draws passed in.
 */
module GameEngine {
  import opened RandomPolicy
  import opened Rules
  import opened Tick
  import opened App
  import Properties

  class Engine {
    const allEnemies: seq<Enemy>
    const player: Player
    const token: SpecialToken
    var lastTime: int

    /** The timestamp `init` read, the timestamp of every frame since, and the dt each frame received. */
    ghost var startTime: int
    ghost var nows: seq<int>
    ghost var dts: seq<real>

    /** No enemy appears twice in the roster, so updating one leaves the others alone. */
    ghost predicate Distinct() {
      forall i, j :: 0 <= i < |allEnemies| && 0 <= j < |allEnemies| && i != j ==> allEnemies[i] != allEnemies[j]
    }

    /** `lastTime` and the dt log are those `Tick.FrameDts` gives for the frames so far. */
    ghost predicate Logged()
      reads this
    {
      lastTime == LastTime(startTime, nows) && dts == FrameDts(startTime, nows)
    }

    ghost predicate Valid()
      reads this
    {
      Distinct() && Logged()
    }

    /** The game state the engine's objects hold. */
    ghost function State(): GameState
      reads allEnemies, player, token
    {
      GameState(EnemyStates(), player.State(), token.State())
    }

    /** The states of the roster's enemies, in order. */
    ghost function EnemyStates(): (es: seq<EnemyState>)
      reads allEnemies
      ensures |es| == |allEnemies|
    {
      seq(|allEnemies|, i requires 0 <= i < |allEnemies| reads allEnemies => allEnemies[i].State())
    }

    /**
     * The script's set-up: five enemies, each given a speed and a lane,
     * pushed onto the roster in order, then the player and the token.
     */
    constructor (draws: seq<EnemyDraw>)
      requires |draws| == RosterSize
      ensures Valid() && State() == InitialState(draws)
      ensures fresh(player) && fresh(token)
      ensures forall i :: 0 <= i < |allEnemies| ==> fresh(allEnemies[i])
    {
      var roster := CreateRoster(draws);
      allEnemies := roster;
      player := new Player();
      token := new SpecialToken();
      lastTime := 0;
      startTime := 0;
      nows := [];
      dts := [];
      new;
      assert State().enemies == InitialState(draws).enemies;
    }

    /** `updateEntities(dt)`: every enemy in roster order with the same dt, then the player, then the token. */
    method UpdateEntities(dt: real, ds: seq<EnemyDraw>, td: TokenDraw)
      requires Distinct() && |ds| == |allEnemies|
      modifies allEnemies, player, token
      ensures State() == Tick.UpdateEntities(old(State()), dt, ds, td)
    {
      ghost var g0 := State();
      for i := 0 to |allEnemies|
        invariant State() == RosterPrefix(g0, i, dt, ds)
      {
        UpdateEnemy(i, dt, ds[i]);
      }
      ghost var a := State();
      assert a == RosterPrefix(g0, |g0.enemies|, dt, ds);
      player.Update(token, td);
      ghost var b := PlayerUpdate(a.player, a.token, td);
      assert State() == GameState(a.enemies, b.player, b.token);
      token.Update(player);
    }

    /** One turn of the roster loop: `enemy.update(dt)` for enemy `i`, which leaves every other enemy alone. */
    method UpdateEnemy(i: nat, dt: real, d: EnemyDraw)
      requires Distinct() && i < |allEnemies|
      modifies allEnemies[i], player, token
      ensures var g := old(State());
        var o := EnemyUpdate(g.enemies[i], g.player, g.token, dt, d);
        State() == GameState(g.enemies[i := o.enemy], o.player, o.token)
    {
      ghost var before := State();
      allEnemies[i].Update(dt, d, player, token);
      assert State().enemies == before.enemies[i := allEnemies[i].State()] by {
        forall j | 0 <= j < |allEnemies| && j != i
          ensures allEnemies[j].State() == before.enemies[j]
        {
          assert allEnemies[j] != allEnemies[i];
        }
      }
    }

    /** `main`: dt from the previous timestamp, update (render only draws), then remember `now`. */
    method Frame(now: int, ds: seq<EnemyDraw>, td: TokenDraw)
      requires Valid() && |ds| == |allEnemies|
      modifies this, allEnemies, player, token
      ensures Valid()
      ensures lastTime == now && startTime == old(startTime) && nows == old(nows) + [now]
      ensures dts == old(dts) + [FrameDt(old(lastTime), now)]
      ensures Sum(dts) * 1000.0 == (lastTime - startTime) as real
      ensures State() == Tick.UpdateEntities(old(State()), FrameDt(old(lastTime), now), ds, td)
    {
      var dt := FrameDt(lastTime, now);
      UpdateEntities(dt, ds, td);
      Record(now);
    }

    /** The bookkeeping at the end of `main`: `lastTime = now`, with the timestamp and its dt logged. */
    method Record(now: int)
      requires Logged()
      modifies this
      ensures Logged()
      ensures lastTime == now && startTime == old(startTime) && nows == old(nows) + [now]
      ensures dts == old(dts) + [FrameDt(old(lastTime), now)]
      ensures Sum(dts) * 1000.0 == (lastTime - startTime) as real
    {
      Properties.FrameDtsAppend(startTime, nows, now);
      Properties.FrameDtsSumToElapsed(startTime, nows + [now]);
      lastTime := now;
      nows := nows + [now];
      dts := dts + [FrameDt(old(lastTime), now)];
    }

    /**
     * `init`: one clock reading becomes `lastTime`, then `main` runs the
     * first frame with its own, later reading, so the first dt is the time
     * between the two.
     */
    method Init(initNow: int, now: int, ds: seq<EnemyDraw>, td: TokenDraw)
      requires Valid() && |ds| == |allEnemies|
      modifies this, allEnemies, player, token
      ensures Valid()
      ensures lastTime == now && startTime == initNow && nows == [now] && dts == [FrameDt(initNow, now)]
      ensures State() == Tick.UpdateEntities(old(State()), FrameDt(initNow, now), ds, td)
    {
      StartClock(initNow);
      Frame(now, ds, td);
    }

    /** `lastTime = Date.now()`: the clock restarts, with no frame logged yet. */
    method StartClock(initNow: int)
      modifies this
      ensures Logged()
      ensures lastTime == initNow && startTime == initNow && nows == [] && dts == []
    {
      lastTime := initNow;
      startTime := initNow;
      nows := [];
      dts := [];
    }

    /** The game-over test of `renderGameOver`. */
    function IsGameOver(): (over: bool)
      reads allEnemies, player, token
      ensures over == GameOver(State())
    {
      player.lives == 0
    }
  }
}
