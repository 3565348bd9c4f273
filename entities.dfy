/** The game's constants and the records it keeps for projectiles and enemies. */
module Entities {
  import opened Geometry

  const CANVAS_WIDTH: real := 800.0
  const CANVAS_HEIGHT: real := 600.0
  const PLAYER_WIDTH: real := 100.0
  const PLAYER_HEIGHT: real := 100.0
  const ENEMY_WIDTH: real := 80.0
  const ENEMY_HEIGHT: real := 80.0
  const PROJECTILE_WIDTH: real := 15.0
  const PROJECTILE_HEIGHT: real := 45.0
  const ENEMY_ROWS: nat := 3
  const ENEMIES_PER_ROW: nat := 6
  const ENEMY_SPACING: real := 120.0
  const ENEMY_MOVE_DOWN: real := 20.0
  const ENEMY_START_Y: real := 20.0

  /** The player's fixed row and speed, and where it stands when the page loads. */
  const PLAYER_Y: real := CANVAS_HEIGHT - PLAYER_HEIGHT - 20.0
  const PLAYER_SPEED: real := 5.0
  const PLAYER_START_X: real := CANVAS_WIDTH / 2.0 - PLAYER_WIDTH / 2.0
  /** Right-most position the movement clamp allows. */
  const PLAYER_MAX_X: real := CANVAS_WIDTH - PLAYER_WIDTH

  const PROJECTILE_SPEED: real := 7.0
  /** Lateral distance an enemy covers per frame, times its direction. */
  const ENEMY_STEP: real := 2.0
  const SCORE_PER_HIT: int := 10
  /** An enemy whose bottom edge reaches PLAYER_Y + BOTTOM_MARGIN ends the game. */
  const BOTTOM_MARGIN: real := 20.0

  datatype Projectile = Projectile(x: real, y: real, width: real, height: real, speed: real)
  {
    function Box(): Rect { Rect(x, y, width, height) }
  }

  /** direction is +1 (moving right) or -1 (moving left). */
  datatype Enemy = Enemy(x: real, y: real, width: real, height: real, direction: int)
  {
    function Box(): Rect { Rect(x, y, width, height) }
  }
}
