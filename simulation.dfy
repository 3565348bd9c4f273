/**
 * The game's module-level variables as the fields of one object, and the
 * actions that update them in place. Every method is proved against the
 * matching function of Rules, so what Rules proves holds of the object.
 */
module Simulation {
  import opened Geometry
  import opened Entities
  import opened EnemyGrid
  import opened Projectiles
  import opened Formation
  import opened Collisions
  import Rules

  class Game {
    var playerX: real
    var projectiles: seq<Projectile>
    var enemies: seq<Enemy>
    var score: int
    var gameOver: bool
    var gameStarted: bool

    /** The object's state as a value. */
    function Snapshot(): Rules.State
      reads this
    {
      Rules.State(playerX, projectiles, enemies, score, gameOver, gameStarted)
    }

    /** The state on page load. */
    constructor ()
      ensures Snapshot() == Rules.Initial()
    {
      playerX := PLAYER_START_X;
      projectiles := [];
      enemies := [];
      score := 0;
      gameOver := false;
      gameStarted := false;
    }

    /** Rebuilds the formation by pushing one enemy per row and column. */
    method CreateEnemies()
      modifies this`enemies
      ensures enemies == Grid()
    {
      enemies := [];
      var startX := START_X;
      var startY := ENEMY_START_Y;
      for row := 0 to ENEMY_ROWS
        invariant enemies == Rows(row)
      {
        for col := 0 to ENEMIES_PER_ROW
          invariant enemies == Rows(row) + RowPrefix(row, col)
        {
          enemies := enemies + [Enemy(startX + (col as real) * ENEMY_SPACING,
                                      startY + (row as real) * ENEMY_SPACING,
                                      ENEMY_WIDTH, ENEMY_HEIGHT, 1)];
        }
      }
    }

    method StartGame()
      modifies this
      ensures Snapshot() == Rules.Start(old(Snapshot()))
    {
      gameStarted := true;
      CreateEnemies();
    }

    method ResetGame()
      modifies this
      ensures Snapshot() == Rules.Reset(old(Snapshot()))
    {
      score := 0;
      gameOver := false;
      projectiles := [];
      CreateEnemies();
    }

    method EndGame()
      modifies this`gameOver
      ensures Snapshot() == Rules.End(old(Snapshot()))
    {
      gameOver := true;
    }

    method Shoot()
      modifies this
      ensures Snapshot() == Rules.Shoot(old(Snapshot()))
    {
      if !gameStarted || gameOver {
        return;
      }
      projectiles := projectiles + [Projectile(playerX + PLAYER_WIDTH / 2.0 - PROJECTILE_WIDTH / 2.0, PLAYER_Y,
                                               PROJECTILE_WIDTH, PROJECTILE_HEIGHT, PROJECTILE_SPEED)];
    }

    /** One frame; `left` and `right` are the held-key states. */
    method Update(left: bool, right: bool)
      modifies this
      ensures Snapshot() == Rules.Step(old(Snapshot()), left, right)
    {
      if !gameStarted || gameOver {
        return;
      }
      MovePlayer(left, right);
      AdvanceProjectiles();
      MarchEnemies();
      ResolveCollisions();
      CheckEnemiesReachedBottom();
      if |enemies| == 0 {
        CreateEnemies();
      }
    }

    method MovePlayer(left: bool, right: bool)
      modifies this`playerX
      ensures playerX == Rules.MovePlayer(old(playerX), left, right)
    {
      if left {
        playerX := Rules.Max(0.0, playerX - PLAYER_SPEED);
      }
      if right {
        playerX := Rules.Min(CANVAS_WIDTH - PLAYER_WIDTH, playerX + PLAYER_SPEED);
      }
    }

    /** The filter: advance each projectile and keep those still below the top edge. */
    method AdvanceProjectiles()
      modifies this`projectiles
      ensures projectiles == AdvanceAll(old(projectiles))
    {
      var kept: seq<Projectile> := [];
      for i := 0 to |projectiles|
        invariant kept == AdvanceAll(projectiles[..i])
      {
        assert projectiles[..i + 1][..i] == projectiles[..i];
        var projectile := projectiles[i].(y := projectiles[i].y - projectiles[i].speed);
        if projectile.y > 0.0 {
          kept := kept + [projectile];
        }
      }
      assert projectiles[..|projectiles|] == projectiles;
      projectiles := kept;
    }

    /** The three enemy loops: wall scan, flip and descend if needed, lateral step. */
    method MarchEnemies()
      modifies this`enemies
      ensures enemies == March(old(enemies))
    {
      var shouldMoveDown := false;
      for i := 0 to |enemies|
        invariant shouldMoveDown <==> exists j :: 0 <= j < i && TouchesWall(enemies[j])
      {
        if enemies[i].x <= 0.0 || enemies[i].x + enemies[i].width >= CANVAS_WIDTH {
          shouldMoveDown := true;
        }
      }
      if shouldMoveDown {
        for i := 0 to |enemies|
          invariant |enemies| == |old(enemies)|
          invariant forall j :: 0 <= j < i ==> enemies[j] == FlipAndDescend(old(enemies)[j])
          invariant forall j :: i <= j < |enemies| ==> enemies[j] == old(enemies)[j]
        {
          enemies := enemies[i := enemies[i].(direction := enemies[i].direction * -1,
                                              y := enemies[i].y + ENEMY_MOVE_DOWN)];
        }
      }
      ghost var turned := enemies;
      for i := 0 to |enemies|
        invariant |enemies| == |turned|
        invariant forall j :: 0 <= j < i ==> enemies[j] == StepSideways(turned[j])
        invariant forall j :: i <= j < |enemies| ==> enemies[j] == turned[j]
      {
        enemies := enemies[i := enemies[i].(x := enemies[i].x + (enemies[i].direction as real) * ENEMY_STEP)];
      }
    }

    /** The nested forEach loops with their in-place splices. */
    method ResolveCollisions()
      modifies this`projectiles, this`enemies, this`score
      ensures Arena(projectiles, enemies, score) == CollisionPass(old(Arena(projectiles, enemies, score)))
    {
      ghost var start := Arena(projectiles, enemies, score);
      var pLen := |projectiles|;
      for pIndex := 0 to pLen
        invariant OuterLoop(Arena(projectiles, enemies, score), pIndex, pLen) == CollisionPass(start)
      {
        if pIndex < |projectiles| {
          var projectile := projectiles[pIndex];
          ghost var before := Arena(projectiles, enemies, score);
          var eLen := |enemies|;
          for eIndex := 0 to eLen
            invariant InnerLoop(projectile, pIndex, Arena(projectiles, enemies, score), eIndex, eLen)
                      == OuterVisit(before, pIndex)
          {
            if eIndex < |enemies| && CheckCollision(projectile.Box(), enemies[eIndex].Box()) {
              projectiles := Splice(projectiles, pIndex);
              enemies := Splice(enemies, eIndex);
              score := score + SCORE_PER_HIT;
            }
          }
        }
      }
    }

    /** Ends the game for every enemy at or below the line 20 under the player's top edge. */
    method CheckEnemiesReachedBottom()
      modifies this`gameOver
      ensures gameOver == (old(gameOver) || Rules.AnyReachedBottom(enemies))
    {
      for i := 0 to |enemies|
        invariant gameOver == (old(gameOver) || exists j :: 0 <= j < i && Rules.ReachedBottom(enemies[j]))
      {
        if enemies[i].y + enemies[i].height >= PLAYER_Y + BOTTOM_MARGIN {
          EndGame();
          assert Rules.ReachedBottom(enemies[i]);
        }
      }
    }
  }
}
