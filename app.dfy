/**
 * The game objects as the script has them: an `Enemy`, the `Player` and
 * the `SpecialToken`, each a class whose methods update its fields (and,
 * for collisions, the fields of the other objects) in place, plus the two
 * key listeners. Each method is proved to leave exactly the state the
 * matching function of module Rules computes from the old state.
 */
module App {
  import opened RandomPolicy
  import opened Rules

  class Enemy {
    var x: real
    var y: int
    var speed: int

    function State(): EnemyState
      reads this
    {
      EnemyState(x, y, speed)
    }

    constructor ()
      ensures State() == NewEnemy()
    {
      x := Offscreen;
      y := 0;
      speed := 0;
    }

    method GiveProperties(d: EnemyDraw)
      modifies this
      ensures State() == EnemyGiveProperties(old(State()), d)
    {
      speed := NewSpeed(d.speed);
      y := NewLane(d.lane);
    }

    /** Move (or wrap), then resolve a collision with the player. */
    method Update(dt: real, d: EnemyDraw, player: Player, token: SpecialToken)
      modifies this, player, token
      ensures var o := EnemyUpdate(old(State()), old(player.State()), old(token.State()), dt, d);
        State() == o.enemy && player.State() == o.player && token.State() == o.token
    {
      if x < RightEdge {
        x := x + dt * speed as real;
      } else {
        x := Offscreen;
        GiveProperties(d);
      }

      var xCollisionDetection := Abs(x - player.x as real);
      var yCollisionDetection := Abs((y - player.y) as real);
      if xCollisionDetection < 50.0 && yCollisionDetection < 21.0 {
        player.x := StartX;
        player.y := StartY;
        token.x := Parked;
        token.y := Parked;
        player.collisionCounter := player.collisionCounter + 1;
        player.lives := player.lives - 1;
        if player.collisionCounter == 1 {
          player.sprite := HornGirl;
        } else if player.collisionCounter == 2 {
          player.sprite := PinkGirl;
        } else if player.collisionCounter == 3 {
          player.sprite := PrincessGirl;
        } else {
          player.sprite := CatGirl;
          player.collisionCounter := 0;
        }
      }
    }
  }

  class Player {
    var sprite: Sprite
    var x: int
    var y: int
    var collisionCounter: int
    var visualDelayCounter: int
    var points: int
    var lives: int

    function State(): PlayerState
      reads this
    {
      PlayerState(sprite, x, y, collisionCounter, visualDelayCounter, points, lives)
    }

    constructor ()
      ensures State() == NewPlayer()
    {
      sprite := CatGirl;
      x := StartX;
      y := StartY;
      collisionCounter := 0;
      visualDelayCounter := 0;
      points := 0;
      lives := StartLives;
    }

    /** The pause at the water row, then the return to the grass. */
    method Update(token: SpecialToken, d: TokenDraw)
      modifies this, token
      ensures var o := PlayerUpdate(old(State()), old(token.State()), d);
        State() == o.player && token.State() == o.token
    {
      var backToGrass := 0;
      if y == 0 {
        if visualDelayCounter < GoalDelay {
          visualDelayCounter := visualDelayCounter + 1;
        }
      }
      if y == 0 && visualDelayCounter == GoalDelay {
        backToGrass := StartY;
        visualDelayCounter := 0;
        points := points + 10;
        token.GiveProperties(d);
      }
      y := y + backToGrass;
    }

    method HandleInput(key: Key)
      modifies this
      ensures State() == Rules.HandleInput(old(State()), key)
    {
      var xMovement := 0;
      var yMovement := 0;
      if key == Up && 0 < y {
        yMovement := -80;
      } else if key == Down && y < 400 {
        yMovement := 80;
      } else if key == Right && x < 400 {
        xMovement := 100;
      } else if key == Left && 0 < x {
        xMovement := -100;
      }
      x := x + xMovement;
      y := y + yMovement;
    }
  }

  class SpecialToken {
    var sprite: Sprite
    var x: int
    var y: int
    var pointValue: int
    var lifeValue: int

    function State(): TokenState
      reads this
    {
      TokenState(sprite, x, y, pointValue, lifeValue)
    }

    constructor ()
      ensures State() == NewToken()
    {
      sprite := Heart;
      x := Parked;
      y := Parked;
      pointValue := 0;
      lifeValue := 0;
    }

    method GiveProperties(d: TokenDraw)
      modifies this
      ensures State() == TokenGiveProperties(old(State()), d)
    {
      var kind := NewTokenKind(d.kind);
      sprite := kind.sprite;
      lifeValue := kind.lifeValue;
      pointValue := kind.pointValue;
      x := NewTokenColumn(d.column);
      y := NewTokenRow(d.row);
    }

    /** Pickup: park the token and pay its reward to the player. */
    method Update(player: Player)
      modifies this, player
      ensures var o := TokenUpdate(old(State()), old(player.State()));
        State() == o.token && player.State() == o.player
    {
      var xCollisionDetection := Abs(x as real - player.x as real);
      var yCollisionDetection := Abs((y - player.y) as real);
      if xCollisionDetection < 50.0 && yCollisionDetection < 21.0 {
        x := Parked;
        y := Parked;
        player.lives := player.lives + lifeValue;
        player.points := player.points + pointValue;
      }
    }
  }

  /** The script's five enemies, each created and given a speed and a lane, in roster order. */
  method CreateRoster(draws: seq<EnemyDraw>) returns (allEnemies: seq<Enemy>)
    requires |draws| == 5
    ensures |allEnemies| == |draws|
    ensures forall i :: 0 <= i < |allEnemies| ==> fresh(allEnemies[i])
    ensures forall i, j :: 0 <= i < j < |allEnemies| ==> allEnemies[i] != allEnemies[j]
    ensures forall i :: 0 <= i < |allEnemies| ==>
      allEnemies[i].State() == EnemyGiveProperties(NewEnemy(), draws[i])
  {
    var enemy1 := new Enemy();
    enemy1.GiveProperties(draws[0]);
    var enemy2 := new Enemy();
    enemy2.GiveProperties(draws[1]);
    var enemy3 := new Enemy();
    enemy3.GiveProperties(draws[2]);
    var enemy4 := new Enemy();
    enemy4.GiveProperties(draws[3]);
    var enemy5 := new Enemy();
    enemy5.GiveProperties(draws[4]);
    allEnemies := [enemy1, enemy2, enemy3, enemy4, enemy5];
  }

  /** The `keyup` listener: an arrow key moves the player only while lives remain. */
  method OnKeyUp(player: Player, key: Key)
    modifies player
    ensures player.State() == KeyUp(old(player.State()), key)
  {
    if 0 < player.lives {
      player.HandleInput(key);
    }
  }

  /** The `keydown` listener: "n" (key code 78) starts a new game once lives are 0. */
  method OnKeyDown(player: Player, keyCode: int)
    modifies player
    ensures player.State() == KeyDown(old(player.State()), keyCode)
  {
    if player.lives == 0 && keyCode == RestartKeyCode {
      player.lives := StartLives;
      player.points := 0;
    }
  }
}
