/**
 * The random policy of the arcade game: threshold functions that map one
 * uniform draw `r` (a value of `Math.random()`, so 0.0 <= r < 1.0) to a
 * discrete outcome. Every selector is total over the reals; the draw range
 * is never needed by the properties below.
 */
module RandomPolicy {

  /** The sprites of the game, in place of image paths. */
  datatype Sprite =
    | EnemyBug
    | CatGirl | HornGirl | PinkGirl | PrincessGirl
    | Heart | GemBlue | GemGreen | GemOrange

  /** The three speed tiers of an enemy, in pixels per second. */
  predicate IsSpeed(s: int) {
    s == 100 || s == 200 || s == 300
  }

  /** The three lanes (y coordinates) an enemy travels along. */
  predicate IsLane(y: int) {
    y == 60 || y == 145 || y == 230
  }

  /** The five board columns a token can be placed on. */
  predicate IsTokenColumn(x: int) {
    x == 0 || x == 100 || x == 200 || x == 300 || x == 400
  }

  /** The three stone rows a token can be placed on. */
  predicate IsTokenRow(y: int) {
    y == 80 || y == 160 || y == 240
  }

  /** What a token is worth: its sprite and the lives and points it pays. */
  datatype TokenKind = TokenKind(sprite: Sprite, lifeValue: int, pointValue: int)

  /** The four kinds `giveProperties` can choose from. */
  predicate IsTokenKind(k: TokenKind) {
    k == TokenKind(Heart, 1, 0) || k == TokenKind(GemBlue, 0, 40)
    || k == TokenKind(GemGreen, 0, 30) || k == TokenKind(GemOrange, 0, 20)
  }

  /** `giveNewSpeed`: 100 below 0.21, 200 below 0.51, else 300. */
  function NewSpeed(r: real): (speed: int)
    ensures IsSpeed(speed)
    ensures speed == 100 <==> r < 0.21
    ensures speed == 300 <==> 0.51 <= r
  {
    if r < 0.21 then 100
    else if r < 0.51 then 200
    else 300
  }

  /** `giveNewPosition`: lane 60 below 0.34, 145 below 0.67, else 230. */
  function NewLane(r: real): (y: int)
    ensures IsLane(y)
    ensures y == 60 <==> r < 0.34
    ensures y == 230 <==> 0.67 <= r
  {
    if r < 0.34 then 60
    else if r < 0.67 then 145
    else 230
  }

  /** The kind branch of `SpecialToken.giveProperties`. */
  function NewTokenKind(r: real): (k: TokenKind)
    ensures IsTokenKind(k)
    ensures k.lifeValue == 1 <==> r < 0.16
    ensures k.pointValue == 40 <==> 0.16 <= r < 0.26
    ensures k.pointValue == 30 <==> 0.26 <= r < 0.51
    ensures k.pointValue == 20 <==> 0.51 <= r
  {
    if r < 0.16 then TokenKind(Heart, 1, 0)
    else if r < 0.26 then TokenKind(GemBlue, 0, 40)
    else if r < 0.51 then TokenKind(GemGreen, 0, 30)
    else TokenKind(GemOrange, 0, 20)
  }

  /** The column branch of `SpecialToken.giveProperties`. */
  function NewTokenColumn(r: real): (x: int)
    ensures IsTokenColumn(x)
    ensures x == 0 <==> r < 0.21
    ensures x == 100 <==> 0.21 <= r < 0.41
    ensures x == 200 <==> 0.41 <= r < 0.61
    ensures x == 300 <==> 0.61 <= r < 0.81
    ensures x == 400 <==> 0.81 <= r
  {
    if r < 0.21 then 0
    else if r < 0.41 then 100
    else if r < 0.61 then 200
    else if r < 0.81 then 300
    else 400
  }

  /** The row branch of `SpecialToken.giveProperties`. */
  function NewTokenRow(r: real): (y: int)
    ensures IsTokenRow(y)
    ensures y == 80 <==> r < 0.34
    ensures y == 240 <==> 0.67 <= r
  {
    if r < 0.34 then 80
    else if r < 0.67 then 160
    else 240
  }

  /**
   * Every selector is monotone in its draw: a larger draw never picks an
   * earlier outcome (the thresholds are cumulative).
   */
  lemma SelectorsMonotone(r1: real, r2: real)
    requires r1 <= r2
    ensures NewSpeed(r1) <= NewSpeed(r2)
    ensures NewLane(r1) <= NewLane(r2)
    ensures NewTokenColumn(r1) <= NewTokenColumn(r2)
    ensures NewTokenRow(r1) <= NewTokenRow(r2)
  {
  }
}
