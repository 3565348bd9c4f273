/** The per-frame projectile step: every projectile moves up by its speed, and those at or above the top edge are dropped. */
module Projectiles {
  import opened Entities

  /** A projectile after one frame of upward travel. */
  function Advance(p: Projectile): Projectile {
    p.(y := p.y - p.speed)
  }

  /** A projectile stays in play while its top edge is below the top of the canvas. */
  predicate InPlay(p: Projectile) { p.y > 0.0 }

  /**
   * The projectile list after one frame: each projectile of `ps` is advanced and
   * kept only if still in play. Defined on prefixes, as the filter visits them.
   */
  function AdvanceAll(ps: seq<Projectile>): (kept: seq<Projectile>)
    ensures |kept| <= |ps|
    ensures forall i :: 0 <= i < |kept| ==> InPlay(kept[i])
  {
    if ps == [] then []
    else
      var front := AdvanceAll(ps[..|ps| - 1]);
      var moved := Advance(ps[|ps| - 1]);
      if InPlay(moved) then front + [moved] else front
  }

  /**
   * The survivors are exactly the advanced projectiles still in play, in their
   * original relative order: `idx` lists, increasing, the index in `ps` each survivor
   * came from, and every projectile left out of `idx` has left the screen.
   */
  lemma {:induction false} SurvivorsInOrder(ps: seq<Projectile>) returns (idx: seq<nat>)
    ensures |idx| == |AdvanceAll(ps)|
    ensures forall i :: 0 <= i < |idx| ==> idx[i] < |ps| && AdvanceAll(ps)[i] == Advance(ps[idx[i]])
    ensures forall i, j :: 0 <= i < j < |idx| ==> idx[i] < idx[j]
    ensures forall k :: 0 <= k < |ps| && k !in idx ==> !InPlay(Advance(ps[k]))
  {
    if ps == [] {
      idx := [];
    } else {
      var n := |ps| - 1;
      var front := SurvivorsInOrder(ps[..n]);
      assert forall k :: 0 <= k < n ==> ps[..n][k] == ps[k];
      if InPlay(Advance(ps[n])) {
        idx := front + [n];
      } else {
        idx := front;
      }
    }
  }
}
