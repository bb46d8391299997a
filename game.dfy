/** The game state of the shooter and every operation of its tick loop, its enemy-fire
    timer and its keyboard handlers. Rendering, sound and timers are left to the caller:
    each timer callback is a method to call. */
module Marcianitos {
  import opened Geometry
  import opened Sweep
  import opened Waves
  import opened Formation
  import opened Combat

  const PLAYER_SPEED: int := 10
  const ENEMY_BULLET_SPEED: int := 10
  const POINTS_PER_ENEMY: int := 100
  const START_LIVES: int := 3
  /** A shot spawns this far left of its shooter's horizontal midpoint. */
  const MUZZLE_OFFSET: int := 2

  datatype Difficulty = Easy | Medium | Hard
  datatype Key = ArrowLeft | ArrowRight | Space | OtherKey
  datatype Size = Size(width: int, height: int)

  /** Horizontal position of a shot fired by `b`: 2 px left of its midpoint, which is
      rounded down to a whole pixel. */
  function Muzzle(b: Box): (x: int)
    ensures b.width - 1 <= 2 * (x + MUZZLE_OFFSET - b.left) <= b.width
  {
    b.left + b.width / 2 - MUZZLE_OFFSET
  }

  /** The player after one `movePlayer`: a step left if that key is held and the player
      is right of the left edge, then a step right if that key is held and (after the
      first step) its right edge is left of the field's. */
  function PlayerStep(p: Box, moveLeft: bool, moveRight: bool, fieldWidth: int): (q: Box)
    ensures q.top == p.top && q.width == p.width && q.height == p.height
    ensures q.left - p.left in {-PLAYER_SPEED, 0, PLAYER_SPEED}
    ensures q.left < p.left <==> moveLeft && p.left > 0 && !(moveRight && p.left - PLAYER_SPEED + p.width < fieldWidth)
    ensures q.left > p.left <==> !(moveLeft && p.left > 0) && moveRight && p.left + p.width < fieldWidth
  {
    var left := if moveLeft && p.left > 0 then p.left - PLAYER_SPEED else p.left;
    p.(left := if moveRight && left + p.width < fieldWidth then left + PLAYER_SPEED else left)
  }

  /** A player less than one step past either side stays so after a step. */
  lemma PlayerStepBounded(p: Box, moveLeft: bool, moveRight: bool, fieldWidth: int)
    requires -PLAYER_SPEED < p.left && p.left + p.width < fieldWidth + PLAYER_SPEED
    ensures var q := PlayerStep(p, moveLeft, moveRight, fieldWidth);
      -PLAYER_SPEED < q.left && q.left + q.width < fieldWidth + PLAYER_SPEED
  {
  }

  class Game {
    const fieldWidth: int
    const fieldHeight: int
    const enemySize: Size
    const shotSize: Size
    const enemyShotSize: Size

    var player: Box
    var enemies: seq<Box>
    var bullets: seq<Box>
    var enemyBullets: seq<Box>

    var score: int
    var level: int
    var lives: int

    var enemySpeed: real
    var enemyDirection: int
    var bulletSpeed: int

    var moveLeft: bool
    var moveRight: bool
    var shooting: bool
    /** The tick loop and the enemy-fire timer are active. */
    var running: bool

    /** What every operation keeps. */
    ghost predicate Valid()
      reads this
    {
      && score >= 0 && score % POINTS_PER_ENEMY == 0
      && level >= 1
      && (enemyDirection == 1 || enemyDirection == -1)
      && bulletSpeed > 0
    }

    /** The player is less than one step (at most 9 px) past either side of the field. */
    ghost predicate PlayerInBounds()
      reads this
    {
      -PLAYER_SPEED < player.left && player.left + player.width < fieldWidth + PLAYER_SPEED
    }

    /** The state at page load, before a difficulty is chosen. */
    constructor (fieldWidth: int, fieldHeight: int, player: Box, enemySize: Size, shotSize: Size, enemyShotSize: Size)
      ensures Valid() && !running
      ensures this.fieldWidth == fieldWidth && this.fieldHeight == fieldHeight && this.player == player
      ensures this.enemySize == enemySize && this.shotSize == shotSize && this.enemyShotSize == enemyShotSize
      ensures enemies == [] && bullets == [] && enemyBullets == []
      ensures score == 0 && level == 1 && lives == START_LIVES
      ensures enemySpeed == 2.0 && enemyDirection == 1 && bulletSpeed == 12
      ensures !moveLeft && !moveRight && !shooting
    {
      this.fieldWidth, this.fieldHeight, this.player := fieldWidth, fieldHeight, player;
      this.enemySize, this.shotSize, this.enemyShotSize := enemySize, shotSize, enemyShotSize;
      enemies, bullets, enemyBullets := [], [], [];
      score, level, lives := 0, 1, START_LIVES;
      enemySpeed, enemyDirection, bulletSpeed := 2.0, 1, 12;
      moveLeft, moveRight, shooting, running := false, false, false, false;
    }

    /** `startGame`: the difficulty table, the reset of the counters and a fresh wave. */
    method StartGame(difficulty: Difficulty, isMobile: bool)
      requires Valid()
      modifies this`enemySpeed, this`bulletSpeed, this`score, this`level, this`lives, this`enemies, this`running
      ensures Valid() && running
      ensures difficulty == Easy ==> enemySpeed == 1.5 && bulletSpeed == 12
      ensures difficulty == Medium ==> enemySpeed == 2.5 && bulletSpeed == 14
      ensures difficulty == Hard ==> enemySpeed == 3.5 && bulletSpeed == 16
      ensures score == 0 && level == 1 && lives == START_LIVES
      ensures enemies == Wave(1, isMobile, enemySize.width, enemySize.height)
    {
      match difficulty {
        case Easy => enemySpeed, bulletSpeed := 1.5, 12;
        case Medium => enemySpeed, bulletSpeed := 2.5, 14;
        case Hard => enemySpeed, bulletSpeed := 3.5, 16;
      }
      score := 0;
      level := 1;
      lives := START_LIVES;
      CreateEnemies(isMobile);
      running := true;
    }

    /** `createEnemies`: the previous wave is replaced by the lattice for the current level. */
    method CreateEnemies(isMobile: bool)
      requires level >= 1
      modifies this`enemies
      ensures enemies == Wave(level, isMobile, enemySize.width, enemySize.height)
    {
      enemies := [];
      var cols := Cols(level, isMobile);
      for row := 0 to ROWS
        invariant enemies == Lattice(row, cols, enemySize.width, enemySize.height)
      {
        for col := 0 to cols
          invariant enemies == Lattice(row, cols, enemySize.width, enemySize.height)
                             + RowOf(row, col, enemySize.width, enemySize.height)
        {
          enemies := enemies + [Box(col * SPACING, row * SPACING, enemySize.width, enemySize.height)];
        }
      }
    }

    /** `gameLoop`: one tick. `enemyStep` is the whole-pixel horizontal step of the
        formation on this tick; `isMobile` is the viewport class, read if a new wave is built.
        The ghost results name the lists the movement steps hand to `checkCollisions`:
        the player shots, the formation and the enemy shots after moving. */
    method GameLoop(enemyStep: int, isMobile: bool) returns (ghost shots: seq<Box>, ghost formation: seq<Box>, ghost falling: seq<Box>)
      requires Valid()
      modifies this`player, this`bullets, this`enemies, this`enemyDirection, this`enemyBullets,
               this`score, this`lives, this`level, this`running
      ensures Valid()
      ensures old(PlayerInBounds()) ==> PlayerInBounds()
      ensures player == old(PlayerStep(player, moveLeft, moveRight, fieldWidth))
      ensures shots == old(Scan(bullets, -bulletSpeed, Above, false))
      ensures var dx := enemyStep * old(enemyDirection);
        && enemyDirection == (if AnyAtSide(Shifted(old(enemies), dx), fieldWidth) then -old(enemyDirection) else old(enemyDirection))
        && formation == Step(old(enemies), dx, fieldWidth, fieldHeight)
      ensures falling == Scan(old(enemyBullets), ENEMY_BULLET_SPEED, Below(fieldHeight), false)
      ensures var outcome := BulletScan(shots, formation, 0);
        var survivors := outcome.1;
        && bullets == outcome.0
        && score == old(score) + POINTS_PER_ENEMY * (|formation| - |survivors|)
        && (survivors == [] ==> level == old(level) + 1 && enemies == Wave(level, isMobile, enemySize.width, enemySize.height))
        && (survivors != [] ==> level == old(level) && enemies == survivors)
      ensures enemyBullets == Scan(falling, 0, Strikes(player), false)
      ensures lives == old(lives) - (|falling| - |enemyBullets|)
      ensures running == (old(running) && !(|enemyBullets| < |falling| && lives <= 0))
    {
      MoveAll(enemyStep);
      shots, formation, falling := bullets, enemies, enemyBullets;
      CheckCollisions(isMobile);
    }

    /** The four movement steps of `gameLoop`, in its order: the player, the player
        shots, the formation, the enemy shots. */
    method MoveAll(enemyStep: int)
      requires Valid()
      modifies this`player, this`bullets, this`enemies, this`enemyDirection, this`enemyBullets
      ensures Valid()
      ensures old(PlayerInBounds()) ==> PlayerInBounds()
      ensures player == old(PlayerStep(player, moveLeft, moveRight, fieldWidth))
      ensures bullets == old(Scan(bullets, -bulletSpeed, Above, false))
      ensures var dx := enemyStep * old(enemyDirection);
        && enemyDirection == (if AnyAtSide(Shifted(old(enemies), dx), fieldWidth) then -old(enemyDirection) else old(enemyDirection))
        && enemies == Step(old(enemies), dx, fieldWidth, fieldHeight)
      ensures enemyBullets == Scan(old(enemyBullets), ENEMY_BULLET_SPEED, Below(fieldHeight), false)
    {
      MovePlayer();
      MoveBullets();
      MoveEnemies(enemyStep);
      MoveEnemyBullets();
    }

    /** `movePlayer`: left while the player is not past the left edge, then right while
        its right edge is left of the field's. */
    method MovePlayer()
      modifies this`player
      ensures player == PlayerStep(old(player), moveLeft, moveRight, fieldWidth)
      ensures old(PlayerInBounds()) ==> PlayerInBounds()
    {
      ghost var p0 := player;
      if PlayerInBounds() {
        PlayerStepBounded(p0, moveLeft, moveRight, fieldWidth);
      }
      if moveLeft && player.left > 0 {
        player := player.(left := player.left - PLAYER_SPEED);
      }
      if moveRight && player.left + player.width < fieldWidth {
        player := player.(left := player.left + PLAYER_SPEED);
      }
    }

    /** `keyDownHandler`. */
    method KeyDown(key: Key)
      modifies this`moveLeft, this`moveRight, this`shooting, this`bullets
      ensures moveLeft == (old(moveLeft) || key == ArrowLeft)
      ensures moveRight == (old(moveRight) || key == ArrowRight)
      ensures key != Space ==> shooting == old(shooting) && bullets == old(bullets)
      ensures key == Space ==> shooting
      ensures key == Space && !old(shooting) ==> bullets == old(bullets) + [Box(Muzzle(player), player.top, shotSize.width, shotSize.height)]
      ensures key == Space && old(shooting) ==> bullets == old(bullets)
    {
      if key == ArrowLeft { moveLeft := true; }
      if key == ArrowRight { moveRight := true; }
      if key == Space { Shoot(); }
    }

    /** `keyUpHandler`. */
    method KeyUp(key: Key)
      modifies this`moveLeft, this`moveRight
      ensures moveLeft == (old(moveLeft) && key != ArrowLeft)
      ensures moveRight == (old(moveRight) && key != ArrowRight)
    {
      if key == ArrowLeft { moveLeft := false; }
      if key == ArrowRight { moveRight := false; }
    }

    /** `shoot`: ignored during the cooldown; otherwise one shot at the player's
        midpoint and top edge, and the cooldown starts. */
    method Shoot()
      modifies this`shooting, this`bullets
      ensures shooting
      ensures old(shooting) ==> bullets == old(bullets)
      ensures !old(shooting) ==> bullets == old(bullets) + [Box(Muzzle(player), player.top, shotSize.width, shotSize.height)]
    {
      if shooting {
        return;
      }
      shooting := true;
      bullets := bullets + [Box(Muzzle(player), player.top, shotSize.width, shotSize.height)];
    }

    /** The callback the cooldown timer of `shoot` runs 300 ms later. */
    method ReleaseCooldown()
      modifies this`shooting
      ensures !shooting
    {
      shooting := false;
    }

    /** `moveBullets`: every visited shot moves up by `bulletSpeed` and is spliced out
        once its top is above the field. */
    method MoveBullets()
      modifies this`bullets
      ensures bullets == Scan(old(bullets), -bulletSpeed, Above, false)
    {
      bullets := AdvanceShots(bullets, -bulletSpeed, Above);
    }

    /** `moveEnemyBullets`: every visited enemy shot moves down by 10 and is spliced out
        once its top is below the field. */
    method MoveEnemyBullets()
      modifies this`enemyBullets
      ensures enemyBullets == Scan(old(enemyBullets), ENEMY_BULLET_SPEED, Below(fieldHeight), false)
    {
      enemyBullets := AdvanceShots(enemyBullets, ENEMY_BULLET_SPEED, Below(fieldHeight));
    }

    /** `moveEnemies`: shift every enemy by `enemyStep * enemyDirection`; if any shifted
        enemy is at a side, flip the direction once and lower every enemy once. */
    method MoveEnemies(enemyStep: int)
      requires Valid()
      modifies this`enemies, this`enemyDirection
      ensures Valid()
      ensures var shifted := Shifted(old(enemies), enemyStep * old(enemyDirection));
        && enemyDirection == (if AnyAtSide(shifted, fieldWidth) then -old(enemyDirection) else old(enemyDirection))
        && enemies == Step(old(enemies), enemyStep * old(enemyDirection), fieldWidth, fieldHeight)
    {
      var hitEdge := false;
      var dx := enemyStep * enemyDirection;
      ghost var shifted := Shifted(enemies, dx);
      var n := |enemies|;
      for i := 0 to n
        invariant |enemies| == n
        invariant forall k :: 0 <= k < i ==> enemies[k] == shifted[k]
        invariant forall k :: i <= k < n ==> enemies[k] == old(enemies)[k]
        invariant hitEdge == exists k :: 0 <= k < i && AtSide(shifted[k], fieldWidth)
        modifies this`enemies
      {
        enemies := enemies[i := enemies[i].(left := enemies[i].left + dx)];
        if enemies[i].left <= 0 || enemies[i].left + enemies[i].width >= fieldWidth {
          hitEdge := true;
        }
      }
      assert enemies == shifted;
      if hitEdge {
        enemyDirection := enemyDirection * -1;
        for i := 0 to n
          invariant |enemies| == n
          invariant forall k :: 0 <= k < i ==> enemies[k] == Lower(shifted[k], fieldHeight)
          invariant forall k :: i <= k < n ==> enemies[k] == shifted[k]
          modifies this`enemies
        {
          var e := enemies[i].(top := enemies[i].top + DROP_STEP);
          if e.top + e.height >= fieldHeight - FLOOR_MARGIN {
            e := e.(top := e.top - BOUNCE_STEP);
          }
          enemies := enemies[i := e];
        }
        assert enemies == Lowered(shifted, fieldHeight);
      }
    }

    /** `enemyShoot`: nothing without enemies; otherwise the enemy at `pick` (the random
        index) fires one shot from its midpoint and bottom edge. */
    method EnemyShoot(pick: nat)
      requires enemies != [] ==> pick < |enemies|
      modifies this`enemyBullets
      ensures enemies == [] ==> enemyBullets == old(enemyBullets)
      ensures enemies != [] ==>
        enemyBullets == old(enemyBullets) + [Box(Muzzle(enemies[pick]), enemies[pick].top + enemies[pick].height, enemyShotSize.width, enemyShotSize.height)]
    {
      if |enemies| == 0 {
        return;
      }
      var shooter := enemies[pick];
      enemyBullets := enemyBullets + [Box(Muzzle(shooter), shooter.top + shooter.height, enemyShotSize.width, enemyShotSize.height)];
    }

    /** `endGame`: both timers stop. */
    method EndGame()
      modifies this`running
      ensures !running
    {
      running := false;
    }

    /** `checkCollisions`: shots against enemies (100 points per destroyed enemy), enemy
        shots against the player (one life each, the game ends at no lives left), then a
        new level and wave once no enemy is left. */
    method CheckCollisions(isMobile: bool)
      requires Valid()
      modifies this`bullets, this`enemies, this`score, this`enemyBullets, this`lives, this`running, this`level
      ensures Valid()
      ensures var outcome := BulletScan(old(bullets), old(enemies), 0);
        var survivors := outcome.1;
        && bullets == outcome.0
        && score == old(score) + POINTS_PER_ENEMY * (|old(enemies)| - |survivors|)
        && |old(bullets)| - |bullets| <= |old(enemies)| - |survivors|
        && (survivors == [] ==> level == old(level) + 1 && enemies == Wave(level, isMobile, enemySize.width, enemySize.height))
        && (survivors != [] ==> level == old(level) && enemies == survivors)
      ensures score >= old(score)
      ensures enemyBullets == Scan(old(enemyBullets), 0, Strikes(player), false)
      ensures lives == old(lives) - (|old(enemyBullets)| - |enemyBullets|)
      ensures running == (old(running) && !(|enemyBullets| < |old(enemyBullets)| && lives <= 0))
    {
      BulletScanAccounting(bullets, enemies, 0);
      ShotsAgainstEnemies();
      ShotsAgainstPlayer();
      if |enemies| == 0 {
        level := level + 1;
        CreateEnemies(isMobile);
      }
    }

    /** The first loop of `checkCollisions`: for each visited shot, every enemy it
        collides with is destroyed, scores 100 points and splices the shot's index. */
    method ShotsAgainstEnemies()
      requires Valid()
      modifies this`bullets, this`enemies, this`score
      ensures Valid()
      ensures (bullets, enemies) == BulletScan(old(bullets), old(enemies), 0)
      ensures |enemies| <= |old(enemies)|
      ensures score == old(score) + POINTS_PER_ENEMY * (|old(enemies)| - |enemies|)
    {
      ghost var outcome := BulletScan(bullets, enemies, 0);
      ghost var enemies0, score0 := enemies, score;
      var bLen := |bullets|;
      var bIndex := 0;
      while bIndex < bLen
        invariant |bullets| <= bLen && |enemies| <= |enemies0|
        invariant BulletScan(bullets, enemies, bIndex) == outcome
        invariant score == score0 + POINTS_PER_ENEMY * (|enemies0| - |enemies|)
      {
        if bIndex < |bullets| {
          ghost var bullets1, enemies1 := bullets, enemies;
          ShotAgainstEnemies(bIndex);
          BulletScanStep(bullets1, enemies1, bIndex, enemies, bullets);
        }
        bIndex := bIndex + 1;
      }
    }

    /** The inner loop of `checkCollisions` for the shot visited at `bIndex`: each enemy
        the shot collides with is destroyed and scores, and `bullets.splice(bIndex, 1)`
        runs again on every hit, whatever shot then sits at that index. The first hit
        detaches the shot (`b.remove()`), so from then on `b` reads as `DETACHED`. */
    method ShotAgainstEnemies(bIndex: nat)
      requires bIndex < |bullets|
      modifies this`bullets, this`enemies, this`score
      ensures enemies == ShotPass(old(enemies), old(bullets)[bIndex])
      ensures bullets == RemoveRepeat(old(bullets), bIndex, |old(enemies)| - |enemies|)
      ensures score == old(score) + POINTS_PER_ENEMY * (|old(enemies)| - |enemies|)
    {
      var b := bullets[bIndex];
      ghost var shot, bullets1, enemies1, score1 := b, bullets, enemies, score;
      ghost var goal := ShotPass(enemies1, shot);
      ghost var hits: nat := 0;
      var eLen := |enemies|;
      var eIndex := 0;
      InnerStart(shot, enemies1);
      while eIndex < eLen
        invariant InnerInvariant(goal, shot, enemies1, b, enemies, eIndex, hits)
        invariant bullets == RemoveRepeat(bullets1, bIndex, hits)
        invariant score == score1 + POINTS_PER_ENEMY * hits
      {
        if eIndex < |enemies| {
          var e := enemies[eIndex];
          if IsColliding(b, e) {
            score := score + POINTS_PER_ENEMY;
            InnerHit(goal, shot, enemies1, b, enemies, eIndex, hits);
            enemies := RemoveAt(enemies, eIndex);
            b := DETACHED;
            bullets := RemoveAt(bullets, bIndex);
            assert bullets == RemoveRepeat(bullets1, bIndex, hits + 1);
            hits := hits + 1;
          } else {
            InnerMiss(goal, shot, enemies1, b, enemies, eIndex, hits);
          }
        } else {
          InnerPast(goal, shot, enemies1, b, enemies, eIndex, hits);
        }
        eIndex := eIndex + 1;
      }
      InnerDone(goal, shot, enemies1, b, enemies, eIndex, hits);
    }

    /** The second loop of `checkCollisions`: every visited enemy shot that collides with
        the player costs a life and is spliced out; the game ends whenever that leaves
        no lives. */
    method ShotsAgainstPlayer()
      modifies this`enemyBullets, this`lives, this`running
      ensures enemyBullets == Scan(old(enemyBullets), 0, Strikes(player), false)
      ensures lives == old(lives) - (|old(enemyBullets)| - |enemyBullets|)
      ensures running == (old(running) && !(|enemyBullets| < |old(enemyBullets)| && lives <= 0))
    {
      ghost var enemyBullets0, lives0, running0 := enemyBullets, lives, running;
      ghost var hits: nat := 0;
      var ebLen := |enemyBullets|;
      var i := 0;
      SweepStart(enemyBullets0, 0, Strikes(player));
      while i < ebLen
        invariant |enemyBullets| + hits == ebLen
        invariant SweepInvariant(Scan(enemyBullets0, 0, Strikes(player), false), 0, Strikes(player), enemyBullets, i)
        invariant lives == lives0 - hits
        invariant running == (running0 && (hits == 0 || lives > 0))
      {
        if i < |enemyBullets| {
          var b := enemyBullets[i];
          if IsColliding(b, player) {
            lives := lives - 1;
            SweepRemove(Scan(enemyBullets0, 0, Strikes(player), false), Strikes(player), enemyBullets, i);
            enemyBullets := RemoveAt(enemyBullets, i);
            hits := hits + 1;
            if lives <= 0 {
              EndGame();
            }
          } else {
            SweepStay(Scan(enemyBullets0, 0, Strikes(player), false), Strikes(player), enemyBullets, i);
          }
        } else {
          SweepPast(Scan(enemyBullets0, 0, Strikes(player), false), 0, Strikes(player), enemyBullets, i);
        }
        i := i + 1;
      }
      SweepDone(Scan(enemyBullets0, 0, Strikes(player), false), 0, Strikes(player), enemyBullets, i);
    }
  }
}
