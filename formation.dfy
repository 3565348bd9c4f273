/** The enemy formation march: wall scan, then flip-and-descend, then one lateral step. */
module Formation {
  import opened Entities

  /** The wall test of the scan: left edge at or past 0, or right edge at or past the canvas width. */
  predicate TouchesWall(e: Enemy) {
    e.x <= 0.0 || e.x + e.width >= CANVAS_WIDTH
  }

  /** The scan's verdict: does any enemy touch a wall before anything moves? */
  predicate AnyTouchesWall(es: seq<Enemy>) {
    exists i :: 0 <= i < |es| && TouchesWall(es[i])
  }

  /** Reverse the direction and move down one step. */
  function FlipAndDescend(e: Enemy): Enemy {
    e.(direction := e.direction * -1, y := e.y + ENEMY_MOVE_DOWN)
  }

  /** Move sideways by the (possibly just flipped) direction. */
  function StepSideways(e: Enemy): Enemy {
    e.(x := e.x + (e.direction as real) * ENEMY_STEP)
  }

  /** One frame of the march applied to one enemy, given the scan's verdict. */
  function MarchOne(e: Enemy, descend: bool): Enemy {
    StepSideways(if descend then FlipAndDescend(e) else e)
  }

  /** The formation after one frame; every enemy sees the same scan verdict. */
  function March(es: seq<Enemy>): (moved: seq<Enemy>)
    ensures |moved| == |es|
  {
    var descend := AnyTouchesWall(es);
    seq(|es|, i requires 0 <= i < |es| => MarchOne(es[i], descend))
  }

  /**
   * What one frame does to each enemy: when any enemy touched a wall every direction
   * flips and every y grows by 20, otherwise no y changes; then every x moves by
   * its new direction times 2. Sizes stay as they were.
   */
  lemma MarchEffect(es: seq<Enemy>)
    ensures |March(es)| == |es|
    ensures forall i :: 0 <= i < |es| ==>
              var e, m := es[i], March(es)[i];
              && m.direction == (if AnyTouchesWall(es) then -e.direction else e.direction)
              && m.y == (if AnyTouchesWall(es) then e.y + 20.0 else e.y)
              && m.x == e.x + (m.direction as real) * 2.0
              && m.width == e.width && m.height == e.height
  {
  }

  /**
   * The formation moves rigidly: vertical offsets between any two enemies never
   * change, and two enemies that shared a direction still share one and keep
   * their horizontal offset.
   */
  lemma MarchKeepsFormation(es: seq<Enemy>, i: nat, j: nat)
    requires i < |es| && j < |es|
    ensures March(es)[i].y - March(es)[j].y == es[i].y - es[j].y
    ensures es[i].direction == es[j].direction ==>
              && March(es)[i].direction == March(es)[j].direction
              && March(es)[i].x - March(es)[j].x == es[i].x - es[j].x
  {
  }

  /** Every enemy moves in the same direction, +1 or -1. */
  predicate Lockstep(es: seq<Enemy>) {
    forall e, f :: e in es && f in es ==> e.direction == f.direction && (e.direction == 1 || e.direction == -1)
  }

  /** A formation marching in lockstep still does after the frame. */
  lemma MarchKeepsLockstep(es: seq<Enemy>)
    requires Lockstep(es)
    ensures Lockstep(March(es))
  {
    var m := March(es);
    forall e, f | e in m && f in m
      ensures e.direction == f.direction && (e.direction == 1 || e.direction == -1)
    {
      var i :| 0 <= i < |m| && m[i] == e;
      var j :| 0 <= j < |m| && m[j] == f;
      assert es[i] in es && es[j] in es;
    }
  }
}
