/**
 * The game as a function of its state: what each action and each frame does to
 * the module-level variables. The Game class is proved against these functions.
 */
module Rules {
  import opened Entities
  import opened EnemyGrid
  import opened Projectiles
  import opened Formation
  import opened Collisions

  /** The module-level variables the game updates (the player's y, size and speed are fixed). */
  datatype State = State(
    playerX: real,
    projectiles: seq<Projectile>,
    enemies: seq<Enemy>,
    score: int,
    gameOver: bool,
    gameStarted: bool)

  /** The only state in which shooting and the frame step do anything. */
  predicate Running(s: State) { s.gameStarted && !s.gameOver }

  /** The state when the page loads: player centred, nothing on screen, not started. */
  function Initial(): (s: State)
    ensures 0.0 <= s.playerX <= PLAYER_MAX_X && !Running(s)
  {
    State(PLAYER_START_X, [], [], 0, false, false)
  }

  /** The start button: the game runs and the formation is laid out. */
  function Start(s: State): (r: State)
    ensures r.(gameStarted := s.gameStarted, enemies := s.enemies) == s
    ensures Running(r) <==> !s.gameOver
  {
    s.(gameStarted := true, enemies := Grid())
  }

  /** The play-again button: score, projectiles, game-over flag and formation start afresh; the player stays put. */
  function Reset(s: State): (r: State)
    ensures r.playerX == s.playerX && r.gameStarted == s.gameStarted
    ensures Running(r) <==> s.gameStarted
  {
    s.(score := 0, gameOver := false, projectiles := [], enemies := Grid())
  }

  function End(s: State): (r: State)
    ensures !Running(r) && r.(gameOver := s.gameOver) == s
  {
    s.(gameOver := true)
  }

  /** The projectile fired from the player's horizontal centre, at the player's row. */
  function Fired(playerX: real): Projectile {
    Projectile(playerX + PLAYER_WIDTH / 2.0 - PROJECTILE_WIDTH / 2.0, PLAYER_Y,
               PROJECTILE_WIDTH, PROJECTILE_HEIGHT, PROJECTILE_SPEED)
  }

  function Shoot(s: State): (r: State)
    ensures |r.projectiles| == |s.projectiles| + (if Running(s) then 1 else 0)
    ensures r.(projectiles := s.projectiles) == s
  {
    if !Running(s) then s else s.(projectiles := s.projectiles + [Fired(s.playerX)])
  }

  function Max(a: real, b: real): real { if a >= b then a else b }
  function Min(a: real, b: real): real { if a <= b then a else b }

  /** Left is applied first, then right; each is clamped to the canvas. */
  function MovePlayer(x: real, left: bool, right: bool): (x': real)
    ensures 0.0 <= x <= PLAYER_MAX_X ==>
              0.0 <= x' <= PLAYER_MAX_X && x - PLAYER_SPEED <= x' <= x + PLAYER_SPEED
    ensures !left && !right ==> x' == x
  {
    var afterLeft := if left then Max(0.0, x - PLAYER_SPEED) else x;
    if right then Min(PLAYER_MAX_X, afterLeft + PLAYER_SPEED) else afterLeft
  }

  /** The end-of-frame test: an enemy's bottom edge at or below 20 units under the player's top edge. */
  predicate ReachedBottom(e: Enemy) {
    e.y + e.height >= PLAYER_Y + BOTTOM_MARGIN
  }

  predicate AnyReachedBottom(es: seq<Enemy>) {
    exists i :: 0 <= i < |es| && ReachedBottom(es[i])
  }

  /** Steps 2 to 4 of a frame: projectile advance, march, collision pass. */
  function AfterCollisions(s: State): Arena {
    CollisionPass(Arena(AdvanceAll(s.projectiles), March(s.enemies), s.score))
  }

  /** One frame of update, with the held keys `left` and `right`. */
  function Step(s: State, left: bool, right: bool): (r: State)
    ensures r.gameStarted == s.gameStarted
    ensures Running(s) ==> r.score >= s.score && |r.projectiles| <= |s.projectiles|
  {
    if !Running(s) then s
    else
      var a := AfterCollisions(s);
      var over := s.gameOver || AnyReachedBottom(a.enemies);
      State(MovePlayer(s.playerX, left, right),
            a.projectiles,
            if |a.enemies| == 0 then Grid() else a.enemies,
            a.score,
            over,
            s.gameStarted)
  }

  // ---------------------------------------------------------------------------
  // Properties of the actions
  // ---------------------------------------------------------------------------

  /**
   * Shooting while running appends exactly one projectile, at x = player x + 42.5,
   * y = 480, 15 x 45, speed 7, and changes nothing else; otherwise it changes nothing.
   */
  lemma ShootEffect(s: State)
    ensures !Running(s) ==> Shoot(s) == s
    ensures Running(s) ==>
              Shoot(s) == s.(projectiles := s.projectiles + [Projectile(s.playerX + 42.5, 480.0, 15.0, 45.0, 7.0)])
  {
  }

  function ShootTimes(s: State, n: nat): State {
    if n == 0 then s else Shoot(ShootTimes(s, n - 1))
  }

  /** Firing n times while running adds n projectiles, all from the player's current position, and nothing else changes. */
  lemma {:induction false} ShootTimesAddsN(s: State, n: nat)
    requires Running(s)
    ensures ShootTimes(s, n) == s.(projectiles := s.projectiles + seq(n, _ => Fired(s.playerX)))
  {
    if n > 0 {
      ShootTimesAddsN(s, n - 1);
      assert s.projectiles + seq(n, _ => Fired(s.playerX))
          == s.projectiles + seq(n - 1, _ => Fired(s.playerX)) + [Fired(s.playerX)];
    }
  }

  /** Reset twice is reset once; it keeps the player and the started flag. */
  lemma ResetIdempotent(s: State)
    ensures Reset(Reset(s)) == Reset(s)
    ensures Reset(s).playerX == s.playerX && Reset(s).gameStarted == s.gameStarted
    ensures Reset(s).score == 0 && !Reset(s).gameOver && Reset(s).projectiles == []
    ensures Reset(s).enemies == Grid()
  {
  }

  /** Reset leaves a started game running with the full formation. */
  lemma ResetResumes(s: State)
    requires s.gameStarted
    ensures Running(Reset(s)) && |Reset(s).enemies| == 18
  {
    GridLayout();
  }

  // ---------------------------------------------------------------------------
  // Properties of one frame
  // ---------------------------------------------------------------------------

  /** Outside the running state a frame changes nothing; in particular Over is final until reset. */
  lemma StepIdleUnlessRunning(s: State, left: bool, right: bool)
    requires !Running(s)
    ensures Step(s, left, right) == s
  {
  }

  /** The player never leaves [0, 700], whatever keys are held. */
  lemma MovePlayerStaysInside(x: real, left: bool, right: bool)
    requires 0.0 <= x <= PLAYER_MAX_X
    ensures 0.0 <= MovePlayer(x, left, right) <= 700.0
  {
  }

  /** Once a frame ends the game, every later frame is a no-op. */
  lemma GameOverIsFinal(s: State, left: bool, right: bool, left': bool, right': bool)
    requires Step(s, left, right).gameOver
    ensures Step(Step(s, left, right), left', right') == Step(s, left, right)
  {
  }

  /**
   * A frame's score gain is 10 times the number of enemies the collision pass
   * removed; the score never falls, and the projectile count never grows.
   */
  lemma StepScoreAccounting(s: State, left: bool, right: bool)
    requires Running(s)
    ensures var s', a := Step(s, left, right), AfterCollisions(s);
            && 0 <= |s.enemies| - |a.enemies|
            && s'.score == s.score + SCORE_PER_HIT * (|s.enemies| - |a.enemies|)
            && s'.score >= s.score
            && |s'.projectiles| <= |s.projectiles|
  {
    CollisionPassAccounting(Arena(AdvanceAll(s.projectiles), March(s.enemies), s.score));
  }

  /**
   * After a running frame the formation is never empty: a formation cleared by
   * the collision pass comes back as the fresh grid, and that frame does not end the game.
   */
  lemma StepRespawns(s: State, left: bool, right: bool)
    requires Running(s)
    ensures |Step(s, left, right).enemies| > 0
    ensures AfterCollisions(s).enemies == [] ==>
              Step(s, left, right).enemies == Grid() && Running(Step(s, left, right))
  {
    GridLayout();
  }

  /** No enemy of the fresh formation is at the game-over line. */
  lemma GridClearOfBottom()
    ensures !AnyReachedBottom(Grid())
  {
    GridLayout();
    var g := Grid();
    forall i | 0 <= i < |g| ensures !ReachedBottom(g[i]) {
      assert g[i] in g;
    }
  }

  /** After a running frame, the game is over exactly when a remaining enemy reached the line 20 below the player's top edge. */
  lemma StepGameOverIff(s: State, left: bool, right: bool)
    requires Running(s)
    ensures Step(s, left, right).gameOver <==> AnyReachedBottom(Step(s, left, right).enemies)
  {
    var a, s' := AfterCollisions(s), Step(s, left, right);
    assert s'.gameOver == AnyReachedBottom(a.enemies);
    if a.enemies == [] {
      assert s'.enemies == Grid();
      GridClearOfBottom();
    } else {
      assert s'.enemies == a.enemies;
    }
  }

  // ---------------------------------------------------------------------------
  // The invariant every action keeps
  // ---------------------------------------------------------------------------

  predicate WellFormedProjectile(p: Projectile) {
    p.width == PROJECTILE_WIDTH && p.height == PROJECTILE_HEIGHT && p.speed == PROJECTILE_SPEED
  }

  predicate WellFormedEnemy(e: Enemy) {
    e.width == ENEMY_WIDTH && e.height == ENEMY_HEIGHT
  }

  /**
   * The player stays within the canvas; the score is a non-negative multiple of 10;
   * every projectile and enemy has its fixed size (and every projectile its speed);
   * the formation marches in lockstep; a running game always has enemies.
   */
  predicate Inv(s: State) {
    && 0.0 <= s.playerX <= PLAYER_MAX_X
    && s.score >= 0 && s.score % SCORE_PER_HIT == 0
    && (forall p :: p in s.projectiles ==> WellFormedProjectile(p))
    && (forall e :: e in s.enemies ==> WellFormedEnemy(e))
    && Lockstep(s.enemies)
    && (Running(s) ==> |s.enemies| > 0)
  }

  lemma GridInv()
    ensures (forall e :: e in Grid() ==> WellFormedEnemy(e)) && Lockstep(Grid()) && |Grid()| > 0
  {
    GridLayout();
  }

  lemma InitialInv()
    ensures Inv(Initial())
  {
  }

  lemma ActionsKeepInv(s: State)
    requires Inv(s)
    ensures Inv(Start(s)) && Inv(Reset(s)) && Inv(End(s)) && Inv(Shoot(s))
  {
    GridInv();
  }

  lemma AdvanceAllWellFormed(ps: seq<Projectile>)
    requires forall p :: p in ps ==> WellFormedProjectile(p)
    ensures forall p :: p in AdvanceAll(ps) ==> WellFormedProjectile(p)
  {
    var kept := AdvanceAll(ps);
    var idx := SurvivorsInOrder(ps);
    forall p | p in kept ensures WellFormedProjectile(p) {
      var i :| 0 <= i < |kept| && kept[i] == p;
      assert ps[idx[i]] in ps;
    }
  }

  lemma MarchWellFormed(es: seq<Enemy>)
    requires forall e :: e in es ==> WellFormedEnemy(e)
    ensures forall e :: e in March(es) ==> WellFormedEnemy(e)
  {
    var m := March(es);
    forall e | e in m ensures WellFormedEnemy(e) {
      var i :| 0 <= i < |m| && m[i] == e;
      assert es[i] in es;
    }
  }

  lemma ScoreStep(score: int, score': int, k: int)
    requires score >= 0 && score % SCORE_PER_HIT == 0 && k >= 0
    requires score' == score + SCORE_PER_HIT * k
    ensures score' >= 0 && score' % SCORE_PER_HIT == 0
  {
  }

  lemma StepKeepsInv(s: State, left: bool, right: bool)
    requires Inv(s)
    ensures Inv(Step(s, left, right))
  {
    if Running(s) {
      var ps, es := AdvanceAll(s.projectiles), March(s.enemies);
      var a, s' := CollisionPass(Arena(ps, es, s.score)), Step(s, left, right);
      assert a == AfterCollisions(s);
      AdvanceAllWellFormed(s.projectiles);
      MarchWellFormed(s.enemies);
      MarchKeepsLockstep(s.enemies);
      CollisionPassAccounting(Arena(ps, es, s.score));
      var k := |es| - |a.enemies|;
      assert s'.score == s.score + SCORE_PER_HIT * k;
      ScoreStep(s.score, s'.score, k);
      GridInv();
      assert s'.projectiles == a.projectiles;
      if |a.enemies| == 0 {
        assert s'.enemies == Grid();
      } else {
        assert s'.enemies == a.enemies;
        assert Lockstep(a.enemies);
      }
    }
  }
}
