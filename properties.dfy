/**
 * What the rules guarantee over one tick and over whole games: each enemy
 * moves exactly once per tick, at most one life is lost per tick, a token
 * pays its reward at most once, the pause at the goal lasts exactly 20
 * ticks, the frame dts add up to the elapsed time, and from the start of a
 * game the state invariant (grid, lanes, costume counter, lives never
 * negative) holds after any sequence of ticks and key presses.
 */
module Properties {
  import opened RandomPolicy
  import opened Rules
  import opened Tick

  // ---------------------------------------------------------------- invariants

  predicate EnemyOk(e: EnemyState) {
    IsLane(e.y) && IsSpeed(e.speed)
  }

  predicate AllEnemiesOk(es: seq<EnemyState>) {
    forall j :: 0 <= j < |es| ==> EnemyOk(es[j])
  }

  predicate PlayerOk(p: PlayerState) {
    && OnGrid(p.x, p.y)
    && 0 <= p.collisionCounter <= 3 && p.sprite == Costume(p.collisionCounter)
    && 0 <= p.visualDelayCounter < GoalDelay
    && 0 <= p.points
    && 0 <= p.lives
    && (p.lives == 0 ==> p.y == StartY)   // a player out of lives stands where the last hit put it
  }

  predicate TokenOk(t: TokenState) {
    var k := TokenKind(t.sprite, t.lifeValue, t.pointValue);
    && (IsTokenKind(k) || k == TokenKind(Heart, 0, 0))
    && ((t.x == Parked && t.y == Parked) || (IsTokenColumn(t.x) && IsTokenRow(t.y)))
  }

  predicate Inv(g: GameState) {
    AllEnemiesOk(g.enemies) && PlayerOk(g.player) && TokenOk(g.token)
  }

  lemma InitialStateOk(draws: seq<EnemyDraw>)
    requires |draws| == RosterSize
    ensures Inv(InitialState(draws))
    ensures !GameOver(InitialState(draws))
  {
  }

  // ---------------------------------------------------------------- enemies

  /** No lane is within 21 pixels of the start row, so a player just hit cannot be hit again. */
  lemma StartRowOutOfReach(e: EnemyState, p: PlayerState)
    requires IsLane(e.y) && p.y == StartY
    ensures !Touching(e.x, e.y, p.x, p.y)
  {
  }

  /**
   * Within one tick, enemy `j` ends where its own motion takes it: it is
   * updated exactly once, with the tick's dt, whatever happened to the
   * player before it.
   */
  lemma {:induction false} RosterMovesEachEnemyOnce(g: GameState, i: nat, dt: real, ds: seq<EnemyDraw>, j: nat)
    requires |ds| == |g.enemies| && j < i <= |g.enemies|
    ensures RosterPrefix(g, i, dt, ds).enemies[j] == EnemyMove(g.enemies[j], dt, ds[j])
    decreases i
  {
    if j < i - 1 {
      RosterMovesEachEnemyOnce(g, i - 1, dt, ds, j);
    }
  }

  /** With dt >= 0 no enemy is ever left of the sentinel -100 after a tick. */
  lemma EnemiesStayRightOfSentinel(g: GameState, dt: real, ds: seq<EnemyDraw>, td: TokenDraw)
    requires |ds| == |g.enemies| && 0.0 <= dt
    requires forall j :: 0 <= j < |g.enemies| ==> Offscreen <= g.enemies[j].x && 0 <= g.enemies[j].speed
    ensures var h := UpdateEntities(g, dt, ds, td);
      forall j :: 0 <= j < |h.enemies| ==> Offscreen <= h.enemies[j].x
  {
    var h := UpdateEntities(g, dt, ds, td);
    forall j | 0 <= j < |h.enemies| ensures Offscreen <= h.enemies[j].x {
      RosterMovesEachEnemyOnce(g, |g.enemies|, dt, ds, j);
    }
  }

  /**
   * Over the roster of one tick the player and token are either untouched
   * or exactly as one hit leaves them: a second hit in the same tick is
   * impossible because every lane is out of reach of the start row.
   */
  lemma {:induction false} RosterHitsAtMostOnce(g: GameState, i: nat, dt: real, ds: seq<EnemyDraw>)
    requires |ds| == |g.enemies| && i <= |g.enemies|
    requires AllEnemiesOk(g.enemies)
    ensures var h := RosterPrefix(g, i, dt, ds);
      || (h.player == g.player && h.token == g.token)
      || (h.player == HitPlayer(g.player) && h.token == Retract(g.token))
    decreases i
  {
    if i > 0 {
      RosterHitsAtMostOnce(g, i - 1, dt, ds);
      var h := RosterPrefix(g, i - 1, dt, ds);
      var e' := EnemyMove(h.enemies[i - 1], dt, ds[i - 1]);
      assert EnemyOk(g.enemies[i - 1]);
      if h.player != g.player {
        StartRowOutOfReach(e', h.player);
      }
    }
  }

  /** One tick costs at most one life; none of its other steps takes a life. */
  lemma AtMostOneLifePerTick(g: GameState, dt: real, ds: seq<EnemyDraw>, td: TokenDraw)
    requires |ds| == |g.enemies| && Inv(g)
    ensures g.player.lives - 1 <= UpdateEntities(g, dt, ds, td).player.lives
  {
    RosterHitsAtMostOnce(g, |g.enemies|, dt, ds);
  }

  // ---------------------------------------------------------------- goal pause

  /** The player and token after a run of `Player.update` calls, one token draw per tick. */
  function PlayerRun(p: PlayerState, t: TokenState, tds: seq<TokenDraw>): (o: PlayerOutcome) {
    if tds == [] then PlayerOutcome(p, t)
    else
      var o := PlayerRun(p, t, tds[..|tds| - 1]);
      PlayerUpdate(o.player, o.token, tds[|tds| - 1])
  }

  /** How many ticks of such a run return the player to the grass (and resample the token). */
  function Crossings(p: PlayerState, t: TokenState, tds: seq<TokenDraw>): (n: nat) {
    if tds == [] then 0
    else
      var o := PlayerRun(p, t, tds[..|tds| - 1]);
      Crossings(p, t, tds[..|tds| - 1]) + (if CompletesCrossing(o.player) then 1 else 0)
  }

  /**
   * Waiting at the water row from a cleared counter: fewer than 20 ticks
   * leave the player there, counting; the 20th returns it to row 400 with
   * 10 more points and resamples the token, once.
   */
  lemma {:induction false} GoalPauseLastsTwentyTicks(p: PlayerState, t: TokenState, tds: seq<TokenDraw>)
    requires p.y == 0 && p.visualDelayCounter == 0 && |tds| <= GoalDelay
    ensures |tds| < GoalDelay ==>
      PlayerRun(p, t, tds) == PlayerOutcome(p.(visualDelayCounter := |tds|), t)
      && Crossings(p, t, tds) == 0
    ensures |tds| == GoalDelay ==>
      PlayerRun(p, t, tds) == PlayerOutcome(p.(y := StartY, points := p.points + 10),
                                            TokenGiveProperties(t, tds[GoalDelay - 1]))
      && Crossings(p, t, tds) == 1
    decreases |tds|
  {
    if tds != [] {
      GoalPauseLastsTwentyTicks(p, t, tds[..|tds| - 1]);
    }
  }

  /**
   * `CompletesCrossing` picks out exactly the ticks of `Player.update` that
   * return the player to the grass, award 10 points and resample the token.
   */
  lemma CrossingCharacterized(p: PlayerState, t: TokenState, d: TokenDraw)
    ensures var o := PlayerUpdate(p, t, d);
      CompletesCrossing(p) <==> (p.y == 0 && o.player.y == StartY)
    ensures var o := PlayerUpdate(p, t, d);
      CompletesCrossing(p) <==> o.player.points == p.points + 10
    ensures var o := PlayerUpdate(p, t, d);
      !CompletesCrossing(p) ==> o.token == t && o.player.points == p.points
  {
  }

  /** A token resampled by `player.update` is not collected by the `token.update` of the same tick. */
  lemma ResampledTokenNotCollectedSameTick(p: PlayerState, t: TokenState, td: TokenDraw)
    requires CompletesCrossing(p)
    ensures var o := PlayerUpdate(p, t, td);
      TokenUpdate(o.token, o.player) == TokenOutcome(o.token, o.player)
  {
  }

  /** So a tick that completes a crossing awards exactly the 10 crossing points. */
  lemma CrossingTickPaysTen(g: GameState, dt: real, ds: seq<EnemyDraw>, td: TokenDraw)
    requires |ds| == |g.enemies|
    requires CompletesCrossing(RosterPrefix(g, |g.enemies|, dt, ds).player)
    ensures UpdateEntities(g, dt, ds, td).player.points
         == RosterPrefix(g, |g.enemies|, dt, ds).player.points + 10
  {
  }

  // ---------------------------------------------------------------- token payout

  /**
   * A token checked by `token.update` against a sequence of player states,
   * one per tick: the token left, and the points and lives it paid in all.
   */
  datatype Payout = Payout(token: TokenState, points: int, lives: int)

  function TokenRun(t: TokenState, ps: seq<PlayerState>): (paid: Payout)
    decreases |ps|
  {
    if ps == [] then Payout(t, 0, 0)
    else
      var o := TokenUpdate(t, ps[0]);
      var rest := TokenRun(o.token, ps[1..]);
      Payout(rest.token, o.player.points - ps[0].points + rest.points,
             o.player.lives - ps[0].lives + rest.lives)
  }

  predicate AllRightOfSentinel(ps: seq<PlayerState>) {
    forall k :: 0 <= k < |ps| ==> 0 <= ps[k].x
  }

  /** A parked token never touches a player on the board, so it pays nothing. */
  lemma {:induction false} ParkedTokenPaysNothing(t: TokenState, ps: seq<PlayerState>)
    requires t.x == Parked && AllRightOfSentinel(ps)
    ensures TokenRun(t, ps) == Payout(t, 0, 0)
    decreases |ps|
  {
    if ps != [] {
      ParkedTokenPaysNothing(t, ps[1..]);
    }
  }

  /**
   * Between two resamples the token pays its reward at most once: either
   * nothing, or exactly its point value and life value.
   */
  lemma {:induction false} TokenPaysAtMostOnce(t: TokenState, ps: seq<PlayerState>)
    requires AllRightOfSentinel(ps)
    ensures var r := TokenRun(t, ps);
      (r.points == 0 && r.lives == 0) || (r.points == t.pointValue && r.lives == t.lifeValue)
    decreases |ps|
  {
    if ps != [] {
      var o := TokenUpdate(t, ps[0]);
      if Touching(t.x as real, t.y, ps[0].x, ps[0].y) {
        ParkedTokenPaysNothing(o.token, ps[1..]);
      } else {
        TokenPaysAtMostOnce(t, ps[1..]);
      }
    }
  }

  // ---------------------------------------------------------------- keys

  /** Out of lives, arrows are ignored; key 78 restores 5 lives and 0 points and re-enables arrows. */
  lemma RestartRoundTrip(p: PlayerState, key: Key)
    requires p.lives == 0
    ensures KeyUp(p, key) == p
    ensures var q := KeyDown(p, RestartKeyCode);
      q == p.(lives := StartLives, points := 0) && KeyUp(q, key) == HandleInput(q, key)
  {
  }

  // ---------------------------------------------------------------- whole games

  lemma EnemyUpdateKeepsInv(e: EnemyState, p: PlayerState, t: TokenState, dt: real, d: EnemyDraw)
    requires EnemyOk(e) && PlayerOk(p) && TokenOk(t)
    ensures var o := EnemyUpdate(e, p, t, dt, d);
      EnemyOk(o.enemy) && PlayerOk(o.player) && TokenOk(o.token)
  {
    var e' := EnemyMove(e, dt, d);
    if p.lives == 0 {
      StartRowOutOfReach(e', p);
    }
  }

  lemma {:induction false} RosterKeepsInv(g: GameState, i: nat, dt: real, ds: seq<EnemyDraw>)
    requires |ds| == |g.enemies| && i <= |g.enemies| && Inv(g)
    ensures Inv(RosterPrefix(g, i, dt, ds))
    decreases i
  {
    if i > 0 {
      RosterKeepsInv(g, i - 1, dt, ds);
      var h := RosterPrefix(g, i - 1, dt, ds);
      EnemyUpdateKeepsInv(h.enemies[i - 1], h.player, h.token, dt, ds[i - 1]);
      var o := EnemyUpdate(h.enemies[i - 1], h.player, h.token, dt, ds[i - 1]);
      var es := h.enemies[i - 1 := o.enemy];
      assert forall j :: 0 <= j < |es| ==> EnemyOk(es[j]) by {
        forall j | 0 <= j < |es| ensures EnemyOk(es[j]) {
          if j != i - 1 { assert es[j] == h.enemies[j]; }
        }
      }
    }
  }

  lemma PlayerUpdateKeepsInv(p: PlayerState, t: TokenState, d: TokenDraw)
    requires PlayerOk(p) && TokenOk(t)
    ensures var o := PlayerUpdate(p, t, d); PlayerOk(o.player) && TokenOk(o.token)
  {
  }

  lemma TokenUpdateKeepsInv(t: TokenState, p: PlayerState)
    requires PlayerOk(p) && TokenOk(t)
    ensures var o := TokenUpdate(t, p); PlayerOk(o.player) && TokenOk(o.token)
  {
  }

  /** One `updateEntities(dt)` keeps the invariant, whatever dt and draws it gets. */
  lemma UpdateEntitiesKeepsInv(g: GameState, dt: real, ds: seq<EnemyDraw>, td: TokenDraw)
    requires |ds| == |g.enemies| && Inv(g)
    ensures Inv(UpdateEntities(g, dt, ds, td))
  {
    RosterKeepsInv(g, |g.enemies|, dt, ds);
    var a := RosterPrefix(g, |g.enemies|, dt, ds);
    PlayerUpdateKeepsInv(a.player, a.token, td);
    var b := PlayerUpdate(a.player, a.token, td);
    TokenUpdateKeepsInv(b.token, b.player);
  }

  lemma StepKeepsInv(g: GameState, ev: Event)
    requires ev.Advance? ==> |ev.enemyDraws| == |g.enemies|
    requires Inv(g)
    ensures Inv(Step(g, ev))
  {
    if ev.Advance? {
      UpdateEntitiesKeepsInv(g, ev.dt, ev.enemyDraws, ev.tokenDraw);
    }
  }

  lemma {:induction false} RunKeepsInv(g: GameState, evs: seq<Event>)
    requires FitsRoster(evs, |g.enemies|) && Inv(g)
    ensures Inv(Run(g, evs))
    decreases |evs|
  {
    if evs != [] {
      StepKeepsInv(g, evs[0]);
      RunKeepsInv(Step(g, evs[0]), evs[1..]);
    }
  }

  /**
   * From the start-up state, after any sequence of ticks, key releases and
   * key presses: lives are never negative, the player stands on the grid,
   * the costume counter is in 0..3, and at game over the player is at the
   * start row, out of every lane's reach.
   */
  lemma LivesNeverNegative(draws: seq<EnemyDraw>, evs: seq<Event>)
    requires |draws| == RosterSize && FitsRoster(evs, RosterSize)
    ensures var g := Run(InitialState(draws), evs);
      && 0 <= g.player.lives
      && OnGrid(g.player.x, g.player.y)
      && 0 <= g.player.collisionCounter <= 3
      && (GameOver(g) ==> g.player.y == StartY)
  {
    InitialStateOk(draws);
    RunKeepsInv(InitialState(draws), evs);
  }

  /** With the player at the start row, no enemy of the roster can touch it. */
  lemma {:induction false} RosterMissesStartRow(g: GameState, i: nat, dt: real, ds: seq<EnemyDraw>)
    requires |ds| == |g.enemies| && i <= |g.enemies|
    requires AllEnemiesOk(g.enemies) && g.player.y == StartY
    ensures var h := RosterPrefix(g, i, dt, ds); h.player == g.player && h.token == g.token
    decreases i
  {
    if i > 0 {
      RosterMissesStartRow(g, i - 1, dt, ds);
      var h := RosterPrefix(g, i - 1, dt, ds);
      assert EnemyOk(g.enemies[i - 1]);
      StartRowOutOfReach(EnemyMove(h.enemies[i - 1], dt, ds[i - 1]), h.player);
    }
  }

  /**
   * Game over is a resting state: until the restart key is pressed, no
   * tick and no key changes the player at all, so lives stay 0.
   */
  lemma GameOverPersists(g: GameState, ev: Event)
    requires Inv(g) && GameOver(g)
    requires ev.Advance? ==> |ev.enemyDraws| == |g.enemies|
    requires !(ev.Press? && ev.keyCode == RestartKeyCode)
    ensures Step(g, ev).player == g.player
    ensures GameOver(Step(g, ev))
  {
    if ev.Advance? {
      RosterMissesStartRow(g, |g.enemies|, ev.dt, ev.enemyDraws);
    }
  }

  /** A run of events splits at any point: running `a + b` is running `a`, then `b`. */
  lemma {:induction false} RunAppend(g: GameState, a: seq<Event>, b: seq<Event>)
    requires FitsRoster(a + b, |g.enemies|)
    ensures FitsRoster(a, |g.enemies|)
    ensures FitsRoster(b, |Run(g, a).enemies|)
    ensures Run(g, a + b) == Run(Run(g, a), b)
    decreases |a|
  {
    assert forall k :: 0 <= k < |a| ==> (a + b)[k] == a[k];
    assert forall k :: 0 <= k < |b| ==> (a + b)[|a| + k] == b[k];
    if a != [] {
      assert (a + b)[1..] == a[1..] + b;
      var next := Step(g, a[0]);
      RunAppend(next, a[1..], b);
    } else {
      assert a + b == b;
    }
  }

  // ---------------------------------------------------------------- frames

  /** The dts handed to `update` over a run of frames add up to the time elapsed since `init`. */
  /** One more frame appends its own dt to the log and becomes the latest timestamp. */
  lemma FrameDtsAppend(start: int, nows: seq<int>, now: int)
    ensures LastTime(start, nows + [now]) == now
    ensures FrameDts(start, nows + [now]) == FrameDts(start, nows) + [FrameDt(LastTime(start, nows), now)]
  {
    assert (nows + [now])[..|nows|] == nows;
  }

  lemma {:induction false} FrameDtsSumToElapsed(start: int, nows: seq<int>)
    ensures Sum(FrameDts(start, nows)) * 1000.0 == (LastTime(start, nows) - start) as real
    decreases |nows|
  {
    if nows != [] {
      var before := nows[..|nows| - 1];
      FrameDtsSumToElapsed(start, before);
      var dts := FrameDts(start, nows);
      assert dts[..|dts| - 1] == FrameDts(start, before);
    }
  }
}
