/** The enemy formation that createEnemies lays out, row by row and column by column. */
module EnemyGrid {
  import opened Entities

  /** x of the first column: the formation is centred, (800 - 6 * 120) / 2 = 40. */
  const START_X: real := (CANVAS_WIDTH - (ENEMIES_PER_ROW as real) * ENEMY_SPACING) / 2.0

  /** The enemy pushed for the given row and column. */
  function EnemyAt(row: nat, col: nat): Enemy {
    Enemy(START_X + (col as real) * ENEMY_SPACING, ENEMY_START_Y + (row as real) * ENEMY_SPACING,
          ENEMY_WIDTH, ENEMY_HEIGHT, 1)
  }

  /** What the inner loop has pushed for `row` after its first `cols` turns. */
  function RowPrefix(row: nat, cols: nat): (pushed: seq<Enemy>)
    ensures |pushed| == cols
  {
    if cols == 0 then [] else RowPrefix(row, cols - 1) + [EnemyAt(row, cols - 1)]
  }

  /** What the outer loop has pushed after its first `rows` turns. */
  function Rows(rows: nat): (pushed: seq<Enemy>)
    ensures |pushed| == rows * ENEMIES_PER_ROW
  {
    if rows == 0 then [] else Rows(rows - 1) + RowPrefix(rows - 1, ENEMIES_PER_ROW)
  }

  /** The complete fresh formation. */
  function Grid(): (g: seq<Enemy>)
    ensures |g| == ENEMY_ROWS * ENEMIES_PER_ROW
  {
    Rows(ENEMY_ROWS)
  }

  lemma {:induction false} RowPrefixLayout(row: nat, cols: nat)
    ensures |RowPrefix(row, cols)| == cols
    ensures forall c :: 0 <= c < cols ==> RowPrefix(row, cols)[c] == EnemyAt(row, c)
  {
    if cols > 0 {
      RowPrefixLayout(row, cols - 1);
    }
  }

  /** Row-major order: the enemy at index row * 6 + col is EnemyAt(row, col). */
  lemma {:induction false} RowsLayout(rows: nat)
    ensures |Rows(rows)| == rows * ENEMIES_PER_ROW
    ensures forall r, c :: 0 <= r < rows && 0 <= c < ENEMIES_PER_ROW ==>
              Rows(rows)[r * ENEMIES_PER_ROW + c] == EnemyAt(r, c)
  {
    if rows > 0 {
      var front, last := Rows(rows - 1), RowPrefix(rows - 1, ENEMIES_PER_ROW);
      RowsLayout(rows - 1);
      RowPrefixLayout(rows - 1, ENEMIES_PER_ROW);
      forall r, c | 0 <= r < rows && 0 <= c < ENEMIES_PER_ROW
        ensures Rows(rows)[r * ENEMIES_PER_ROW + c] == EnemyAt(r, c)
      {
        if r < rows - 1 {
          assert Rows(rows)[r * ENEMIES_PER_ROW + c] == front[r * ENEMIES_PER_ROW + c];
        } else {
          assert Rows(rows)[r * ENEMIES_PER_ROW + c] == last[c];
        }
      }
    }
  }

  /** The position formula createEnemies uses, with the constants worked out. */
  lemma EnemyAtPlacement(row: nat, col: nat)
    ensures EnemyAt(row, col) ==
              Enemy(40.0 + 120.0 * (col as real), 20.0 + 120.0 * (row as real), 80.0, 80.0, 1)
  {
  }

  /** Every enemy pushed for rows below `rows` satisfies the placement bounds of the grid. */
  lemma {:induction false} RowsInCanvas(rows: nat)
    requires rows <= ENEMY_ROWS
    ensures forall e :: e in Rows(rows) ==> Placed(e)
  {
    if rows > 0 {
      RowsInCanvas(rows - 1);
      RowPrefixLayout(rows - 1, ENEMIES_PER_ROW);
      var row := rows - 1;
      forall c | 0 <= c < ENEMIES_PER_ROW ensures Placed(EnemyAt(row, c)) {
        EnemyAtPlaced(row, c);
      }
    }
  }

  lemma EnemyAtPlaced(row: nat, col: nat)
    requires row < ENEMY_ROWS && col < ENEMIES_PER_ROW
    ensures Placed(EnemyAt(row, col))
  {
    assert (col as real) <= 5.0 && (row as real) <= 2.0;
  }

  /**
   * The shape of a freshly pushed enemy: inside the 800 x 600 canvas, clear of
   * both side walls, above the game-over line, 80 x 80 and moving right.
   */
  predicate Placed(e: Enemy) {
    && 0.0 < e.x && e.x + e.width < CANVAS_WIDTH
    && 0.0 <= e.y && e.y + e.height <= CANVAS_HEIGHT
    && e.y + e.height < PLAYER_Y + BOTTOM_MARGIN
    && e.width == ENEMY_WIDTH && e.height == ENEMY_HEIGHT
    && e.direction == 1
  }

  /**
   * The fresh formation holds ENEMY_ROWS * ENEMIES_PER_ROW = 18 enemies in row-major
   * order, and each of them satisfies Placed.
   */
  lemma GridLayout()
    ensures |Grid()| == ENEMY_ROWS * ENEMIES_PER_ROW == 18
    ensures forall row, col :: 0 <= row < ENEMY_ROWS && 0 <= col < ENEMIES_PER_ROW ==>
              Grid()[row * ENEMIES_PER_ROW + col] == EnemyAt(row, col)
    ensures forall e :: e in Grid() ==> Placed(e)
  {
    RowsLayout(ENEMY_ROWS);
    RowsInCanvas(ENEMY_ROWS);
  }
}
