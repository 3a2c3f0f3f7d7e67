/**
 * The gameplay rules of the arcade game as transitions on values: the
 * state of an enemy, of the player and of the special token, and what
 * `Enemy.update`, `Player.update`, `Player.handleInput`,
 * `SpecialToken.giveProperties`, `SpecialToken.update` and the two key
 * listeners do to them. The classes in module App are proved to follow
 * these functions.
 */
module Rules {
  import opened RandomPolicy

  /** Enemy `x`: the right edge past which an enemy wraps, and the sentinel it wraps to. */
  const RightEdge: real := 600.0
  const Offscreen: real := -100.0

  /** The player's start cell, reached again after every enemy hit. */
  const StartX: int := 200
  const StartY: int := 400

  /** The coordinate a retracted token is parked at, on both axes. */
  const Parked: int := -100

  /** Ticks the player pauses at the water row before returning to the grass. */
  const GoalDelay: int := 20

  /** Lives given by a new game, and the key code that starts one ("n"). */
  const StartLives: int := 5
  const RestartKeyCode: int := 78

  datatype Key = Up | Down | Left | Right | Other

  /** One `Math.random()` pair for `Enemy.giveProperties`. */
  datatype EnemyDraw = EnemyDraw(speed: real, lane: real)

  /** One `Math.random()` triple for `SpecialToken.giveProperties`. */
  datatype TokenDraw = TokenDraw(kind: real, column: real, row: real)

  datatype EnemyState = EnemyState(x: real, y: int, speed: int)

  datatype PlayerState = PlayerState(
    sprite: Sprite,
    x: int,
    y: int,
    collisionCounter: int,
    visualDelayCounter: int,
    points: int,
    lives: int)

  datatype TokenState = TokenState(
    sprite: Sprite,
    x: int,
    y: int,
    pointValue: int,
    lifeValue: int)

  /** What one `Enemy.update` leaves behind: the enemy, the player and the token. */
  datatype EnemyOutcome = EnemyOutcome(enemy: EnemyState, player: PlayerState, token: TokenState)

  /** What one `Player.update` leaves behind: the player and the token. */
  datatype PlayerOutcome = PlayerOutcome(player: PlayerState, token: TokenState)

  /** What one `SpecialToken.update` leaves behind: the token and the player. */
  datatype TokenOutcome = TokenOutcome(token: TokenState, player: PlayerState)

  function Abs(r: real): (a: real)
    ensures 0.0 <= a && (a == r || a == -r)
  {
    if r < 0.0 then -r else r
  }

  /** The proximity test shared by enemies and the token: |dx| < 50 and |dy| < 21. */
  predicate Touching(ax: real, ay: int, px: int, py: int)
    ensures Touching(ax, ay, px, py) <==>
      px as real - 50.0 < ax < px as real + 50.0 && py - 21 < ay < py + 21
  {
    Abs(ax - px as real) < 50.0 && Abs((ay - py) as real) < 21.0
  }

  /** The costume the player wears for each value of the collision counter. */
  function Costume(collisionCounter: int): (costume: Sprite)
    ensures costume == CatGirl || costume == HornGirl || costume == PinkGirl || costume == PrincessGirl
    ensures costume == CatGirl <==> !(1 <= collisionCounter <= 3)
    ensures costume == HornGirl <==> collisionCounter == 1
    ensures costume == PinkGirl <==> collisionCounter == 2
    ensures costume == PrincessGirl <==> collisionCounter == 3
  {
    match collisionCounter
    case 1 => HornGirl
    case 2 => PinkGirl
    case 3 => PrincessGirl
    case _ => CatGirl
  }

  /** Cells of the board the player can stand on. */
  predicate OnGrid(x: int, y: int) {
    0 <= x <= 400 && x % 100 == 0 && 0 <= y <= 400 && y % 80 == 0
  }

  // ---------------------------------------------------------------- Enemy

  /** Initial enemy from `new Enemy()`: off-screen, no lane, no speed yet. */
  function NewEnemy(): (e: EnemyState)
    ensures e.x == Offscreen && e.y == 0 && e.speed == 0
  {
    EnemyState(Offscreen, 0, 0)
  }

  /** `Enemy.giveProperties`: a fresh speed and lane; `x` is kept. */
  function EnemyGiveProperties(e: EnemyState, d: EnemyDraw): (e': EnemyState)
    ensures IsSpeed(e'.speed) && IsLane(e'.y) && e'.x == e.x
    ensures e'.speed == NewSpeed(d.speed) && e'.y == NewLane(d.lane)
  {
    e.(speed := NewSpeed(d.speed), y := NewLane(d.lane))
  }

  /** The motion part of `Enemy.update`: advance by dt * speed, or wrap and redraw. */
  function EnemyMove(e: EnemyState, dt: real, d: EnemyDraw): (e': EnemyState)
    ensures e.x < RightEdge ==> e'.y == e.y && e'.speed == e.speed && e'.x - e.x == dt * e.speed as real
    ensures RightEdge <= e.x ==> e'.x == Offscreen && e'.speed == NewSpeed(d.speed) && e'.y == NewLane(d.lane)
    ensures IsLane(e.y) ==> IsLane(e'.y)
    ensures IsSpeed(e.speed) ==> IsSpeed(e'.speed)
    ensures 0.0 <= dt && 0 <= e.speed && Offscreen <= e.x ==> Offscreen <= e'.x
  {
    if e.x < RightEdge then
      assert 0.0 <= dt && 0 <= e.speed ==> 0.0 <= dt * e.speed as real;
      e.(x := e.x + dt * e.speed as real)
    else EnemyGiveProperties(e.(x := Offscreen), d)
  }

  /**
   * The player side of an enemy hit: back to the start cell, one life
   * lost, and the next costume (the counter cycles 1, 2, 3, then wraps to 0).
   */
  function HitPlayer(p: PlayerState): (q: PlayerState)
    ensures q.x == StartX && q.y == StartY
    ensures q.lives == p.lives - 1 && q.points == p.points
    ensures q.visualDelayCounter == p.visualDelayCounter
    ensures 0 <= q.collisionCounter <= 3 && q.sprite == Costume(q.collisionCounter)
    ensures 0 <= p.collisionCounter < 3 ==> q.collisionCounter == p.collisionCounter + 1
    ensures p.collisionCounter == 3 ==> q.collisionCounter == 0
  {
    var c := p.collisionCounter + 1;
    var moved := p.(x := StartX, y := StartY, collisionCounter := c, lives := p.lives - 1);
    if c == 1 then moved.(sprite := HornGirl)
    else if c == 2 then moved.(sprite := PinkGirl)
    else if c == 3 then moved.(sprite := PrincessGirl)
    else moved.(sprite := CatGirl, collisionCounter := 0)
  }

  /** The token side of an enemy hit, and of a pickup: park it off-screen. */
  function Retract(t: TokenState): (t': TokenState)
    ensures t'.x == Parked && t'.y == Parked
    ensures t'.sprite == t.sprite && t'.pointValue == t.pointValue && t'.lifeValue == t.lifeValue
  {
    t.(x := Parked, y := Parked)
  }

  /** `Enemy.update(dt)`: move, then test the moved enemy against the player. */
  function EnemyUpdate(e: EnemyState, p: PlayerState, t: TokenState, dt: real, d: EnemyDraw): (r: EnemyOutcome)
    ensures r.enemy == EnemyMove(e, dt, d)
    ensures Touching(r.enemy.x, r.enemy.y, p.x, p.y) ==> r.player == HitPlayer(p) && r.token == Retract(t)
    ensures !Touching(r.enemy.x, r.enemy.y, p.x, p.y) ==> r.player == p && r.token == t
    ensures r.player.lives == p.lives || r.player.lives == p.lives - 1
    ensures r.player.points == p.points
  {
    var e' := EnemyMove(e, dt, d);
    if Touching(e'.x, e'.y, p.x, p.y) then EnemyOutcome(e', HitPlayer(p), Retract(t))
    else EnemyOutcome(e', p, t)
  }

  // ---------------------------------------------------------------- Player

  /** Initial player from `new Player()`. */
  function NewPlayer(): (p: PlayerState)
    ensures OnGrid(p.x, p.y) && p.x == StartX && p.y == StartY
    ensures p.lives == StartLives && p.points == 0
    ensures p.collisionCounter == 0 && p.visualDelayCounter == 0
    ensures p.sprite == Costume(p.collisionCounter)
  {
    PlayerState(CatGirl, StartX, StartY, 0, 0, 0, StartLives)
  }

  /** True when `Player.update` returns the player to the grass on this tick. */
  predicate CompletesCrossing(p: PlayerState) {
    p.y == 0 && (p.visualDelayCounter == GoalDelay - 1 || p.visualDelayCounter == GoalDelay)
  }

  /**
   * `Player.update`: at the water row the delay counter rises towards 20;
   * on the tick it is 20 the player returns to row 400, the counter is
   * cleared, 10 points are awarded and the token is resampled.
   */
  function PlayerUpdate(p: PlayerState, t: TokenState, d: TokenDraw): (r: PlayerOutcome)
    ensures p.y != 0 ==> r == PlayerOutcome(p, t)
    ensures p.y == 0 && p.visualDelayCounter < GoalDelay - 1 ==>
      r == PlayerOutcome(p.(visualDelayCounter := p.visualDelayCounter + 1), t)
    ensures CompletesCrossing(p) ==>
      r == PlayerOutcome(p.(y := StartY, visualDelayCounter := 0, points := p.points + 10), TokenGiveProperties(t, d))
    ensures p.y == 0 && GoalDelay < p.visualDelayCounter ==> r == PlayerOutcome(p, t)
    ensures r.player.x == p.x && r.player.lives == p.lives && r.player.sprite == p.sprite
    ensures r.player.collisionCounter == p.collisionCounter
  {
    var counter := if p.y == 0 && p.visualDelayCounter < GoalDelay then p.visualDelayCounter + 1
                   else p.visualDelayCounter;
    if p.y == 0 && counter == GoalDelay then
      PlayerOutcome(p.(y := p.y + StartY, visualDelayCounter := 0, points := p.points + 10),
                    TokenGiveProperties(t, d))
    else
      PlayerOutcome(p.(visualDelayCounter := counter), t)
  }

  /**
   * `Player.handleInput(key)`: at most one grid step; a step that would
   * leave the board, and any other key, is dropped.
   */
  function HandleInput(p: PlayerState, key: Key): (q: PlayerState)
    ensures q == p.(x := q.x, y := q.y)
    ensures key == Up ==> q == if 0 < p.y then p.(y := p.y - 80) else p
    ensures key == Down ==> q == if p.y < 400 then p.(y := p.y + 80) else p
    ensures key == Right ==> q == if p.x < 400 then p.(x := p.x + 100) else p
    ensures key == Left ==> q == if 0 < p.x then p.(x := p.x - 100) else p
    ensures key == Other ==> q == p
    ensures OnGrid(p.x, p.y) ==> OnGrid(q.x, q.y)
  {
    if key == Up && 0 < p.y then p.(y := p.y - 80)
    else if key == Down && p.y < 400 then p.(y := p.y + 80)
    else if key == Right && p.x < 400 then p.(x := p.x + 100)
    else if key == Left && 0 < p.x then p.(x := p.x - 100)
    else p
  }

  // ---------------------------------------------------------------- Token

  /** Initial token from `new SpecialToken()`: a worthless heart, parked. */
  function NewToken(): (t: TokenState)
    ensures t.x == Parked && t.y == Parked && t.lifeValue == 0 && t.pointValue == 0
  {
    TokenState(Heart, Parked, Parked, 0, 0)
  }

  /** `SpecialToken.giveProperties`: a fresh kind and a fresh cell, one draw each. */
  function TokenGiveProperties(t: TokenState, d: TokenDraw): (t': TokenState)
    ensures IsTokenKind(TokenKind(t'.sprite, t'.lifeValue, t'.pointValue))
    ensures TokenKind(t'.sprite, t'.lifeValue, t'.pointValue) == NewTokenKind(d.kind)
    ensures IsTokenColumn(t'.x) && IsTokenRow(t'.y)
    ensures t'.x == NewTokenColumn(d.column) && t'.y == NewTokenRow(d.row)
  {
    var k := NewTokenKind(d.kind);
    TokenState(k.sprite, NewTokenColumn(d.column), NewTokenRow(d.row), k.pointValue, k.lifeValue)
  }

  /** `SpecialToken.update`: on contact, park the token and pay its reward. */
  function TokenUpdate(t: TokenState, p: PlayerState): (r: TokenOutcome)
    ensures Touching(t.x as real, t.y, p.x, p.y) ==>
      r.token == Retract(t)
      && r.player == p.(lives := p.lives + t.lifeValue, points := p.points + t.pointValue)
    ensures !Touching(t.x as real, t.y, p.x, p.y) ==> r == TokenOutcome(t, p)
    ensures r.player.x == p.x && r.player.y == p.y
  {
    if Touching(t.x as real, t.y, p.x, p.y) then
      TokenOutcome(t.(x := Parked, y := Parked),
                   p.(lives := p.lives + t.lifeValue, points := p.points + t.pointValue))
    else
      TokenOutcome(t, p)
  }

  // ---------------------------------------------------------------- Keys

  /** The `keyup` listener: arrow keys reach `handleInput` only while lives remain. */
  function KeyUp(p: PlayerState, key: Key): (q: PlayerState)
    ensures 0 < p.lives ==> q == HandleInput(p, key)
    ensures p.lives <= 0 ==> q == p
  {
    if 0 < p.lives then HandleInput(p, key) else p
  }

  /** The `keydown` listener: key 78 starts a new game, only once lives are exactly 0. */
  function KeyDown(p: PlayerState, keyCode: int): (q: PlayerState)
    ensures p.lives == 0 && keyCode == RestartKeyCode ==> q == p.(lives := StartLives, points := 0)
    ensures !(p.lives == 0 && keyCode == RestartKeyCode) ==> q == p
  {
    if p.lives == 0 && keyCode == RestartKeyCode then p.(lives := StartLives, points := 0) else p
  }
}
