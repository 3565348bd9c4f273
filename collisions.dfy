/**
 * The projectile x enemy collision pass exactly as the nested forEach loops run it,
 * splicing both arrays while they are being iterated.
 *
 * Array.prototype.forEach fixes the number of turns when it is called and, at
 * turn k, visits element k only if the array still has that index, reading its
 * current value. The outer callback captures one projectile and its index; the
 * inner callback keeps testing that captured projectile even after it has been
 * spliced out, and on every hit splices the projectile array at the captured
 * index again. A splice past the end removes nothing.
 */
module Collisions {
  import opened Geometry
  import opened Entities

  /** The three variables the pass updates. */
  datatype Arena = Arena(projectiles: seq<Projectile>, enemies: seq<Enemy>, score: int)

  /** `s.splice(i, 1)` for a non-negative index. */
  function Splice<T>(s: seq<T>, i: nat): (r: seq<T>)
    ensures |r| == if i < |s| then |s| - 1 else |s|
    ensures forall k :: 0 <= k < |r| ==> r[k] == if k < i then s[k] else s[k + 1]
    ensures multiset(r) <= multiset(s)
  {
    if i < |s| then
      assert s == s[..i] + [s[i]] + s[i + 1..];
      s[..i] + s[i + 1..]
    else s
  }

  /** The inner callback for enemy index `eIndex`, testing the captured projectile `p` taken from index `pIndex`. */
  function InnerVisit(p: Projectile, pIndex: nat, a: Arena, eIndex: nat): Arena {
    if eIndex < |a.enemies| && CheckCollision(p.Box(), a.enemies[eIndex].Box()) then
      Arena(Splice(a.projectiles, pIndex), Splice(a.enemies, eIndex), a.score + SCORE_PER_HIT)
    else a
  }

  /** Turns eIndex, eIndex + 1, ..., len - 1 of the inner forEach. */
  function InnerLoop(p: Projectile, pIndex: nat, a: Arena, eIndex: nat, len: nat): Arena
    decreases len - eIndex
  {
    if eIndex >= len then a
    else InnerLoop(p, pIndex, InnerVisit(p, pIndex, a, eIndex), eIndex + 1, len)
  }

  /** The outer callback for projectile index `pIndex`, if that index still exists. */
  function OuterVisit(a: Arena, pIndex: nat): Arena {
    if pIndex < |a.projectiles| then InnerLoop(a.projectiles[pIndex], pIndex, a, 0, |a.enemies|)
    else a
  }

  /** Turns pIndex, pIndex + 1, ..., len - 1 of the outer forEach. */
  function OuterLoop(a: Arena, pIndex: nat, len: nat): Arena
    decreases len - pIndex
  {
    if pIndex >= len then a
    else OuterLoop(OuterVisit(a, pIndex), pIndex + 1, len)
  }

  /** The whole pass; the outer forEach runs as many turns as there were projectiles when it started. */
  function CollisionPass(a: Arena): (r: Arena)
    ensures r.score >= a.score
    ensures |r.enemies| <= |a.enemies| && |r.projectiles| <= |a.projectiles|
  {
    OuterLoopConserves(a, 0, |a.projectiles|);
    OuterLoop(a, 0, |a.projectiles|)
  }

  /**
   * What every step of the pass keeps: the score grows by 10 for each enemy that
   * leaves, and both arrays only lose members.
   */
  predicate Conserved(a: Arena, b: Arena) {
    && b.score - a.score == SCORE_PER_HIT * (|a.enemies| - |b.enemies|)
    && |b.enemies| <= |a.enemies| && multiset(b.enemies) <= multiset(a.enemies)
    && |b.projectiles| <= |a.projectiles| && multiset(b.projectiles) <= multiset(a.projectiles)
  }

  lemma ConservedTrans(a: Arena, b: Arena, c: Arena)
    requires Conserved(a, b) && Conserved(b, c)
    ensures Conserved(a, c)
  {
  }

  lemma InnerVisitConserves(p: Projectile, pIndex: nat, a: Arena, eIndex: nat)
    ensures Conserved(a, InnerVisit(p, pIndex, a, eIndex))
  {
  }

  lemma {:induction false} InnerLoopConserves(p: Projectile, pIndex: nat, a: Arena, eIndex: nat, len: nat)
    ensures Conserved(a, InnerLoop(p, pIndex, a, eIndex, len))
    decreases len - eIndex
  {
    if eIndex < len {
      var b := InnerVisit(p, pIndex, a, eIndex);
      InnerVisitConserves(p, pIndex, a, eIndex);
      InnerLoopConserves(p, pIndex, b, eIndex + 1, len);
      ConservedTrans(a, b, InnerLoop(p, pIndex, b, eIndex + 1, len));
    }
  }

  lemma {:induction false} OuterLoopConserves(a: Arena, pIndex: nat, len: nat)
    ensures Conserved(a, OuterLoop(a, pIndex, len))
    decreases len - pIndex
  {
    if pIndex < len {
      var b := OuterVisit(a, pIndex);
      if pIndex < |a.projectiles| {
        InnerLoopConserves(a.projectiles[pIndex], pIndex, a, 0, |a.enemies|);
      }
      OuterLoopConserves(b, pIndex + 1, len);
      ConservedTrans(a, b, OuterLoop(b, pIndex + 1, len));
    }
  }

  /**
   * Score accounting of the pass: the score rises by exactly 10 times the number
   * of enemies removed; neither array grows, and whatever remains was there before.
   */
  lemma CollisionPassAccounting(a: Arena)
    ensures var r := CollisionPass(a);
            && r.score == a.score + SCORE_PER_HIT * (|a.enemies| - |r.enemies|)
            && |r.enemies| <= |a.enemies| && |r.projectiles| <= |a.projectiles|
            && (forall e :: e in r.enemies ==> e in a.enemies)
            && (forall p :: p in r.projectiles ==> p in a.projectiles)
  {
    OuterLoopConserves(a, 0, |a.projectiles|);
    var r := CollisionPass(a);
    forall e | e in r.enemies ensures e in a.enemies {
      assert e in multiset(r.enemies);
    }
    forall p | p in r.projectiles ensures p in a.projectiles {
      assert p in multiset(r.projectiles);
    }
  }

  /** No projectile overlaps any enemy. */
  predicate NoHits(ps: seq<Projectile>, es: seq<Enemy>) {
    forall p, e :: p in ps && e in es ==> !CheckCollision(p.Box(), e.Box())
  }

  lemma {:induction false} InnerLoopNoHit(p: Projectile, pIndex: nat, a: Arena, eIndex: nat, len: nat)
    requires forall e :: e in a.enemies ==> !CheckCollision(p.Box(), e.Box())
    ensures InnerLoop(p, pIndex, a, eIndex, len) == a
    decreases len - eIndex
  {
    if eIndex < len {
      if eIndex < |a.enemies| {
        assert a.enemies[eIndex] in a.enemies;
      }
      InnerLoopNoHit(p, pIndex, a, eIndex + 1, len);
    }
  }

  lemma {:induction false} OuterLoopNoHit(a: Arena, pIndex: nat, len: nat)
    requires NoHits(a.projectiles, a.enemies)
    ensures OuterLoop(a, pIndex, len) == a
    decreases len - pIndex
  {
    if pIndex < len {
      if pIndex < |a.projectiles| {
        var p := a.projectiles[pIndex];
        assert p in a.projectiles;
        InnerLoopNoHit(p, pIndex, a, 0, |a.enemies|);
      }
      OuterLoopNoHit(a, pIndex + 1, len);
    }
  }

  /** When nothing overlaps, the pass changes nothing: no removal, no score. */
  lemma NoHitsNoChange(a: Arena)
    requires NoHits(a.projectiles, a.enemies)
    ensures CollisionPass(a) == a
  {
    OuterLoopNoHit(a, 0, |a.projectiles|);
  }

  /**
   * One projectile centred on one enemy: both are removed and the score rises by
   * exactly 10.
   */
  lemma SingleHit(score: int)
    ensures var p := Projectile(132.5, 100.0, 15.0, 45.0, 7.0);
            var e := Enemy(100.0, 100.0, 80.0, 80.0, 1);
            CollisionPass(Arena([p], [e], score)) == Arena([], [], score + 10)
  {
    var p := Projectile(132.5, 100.0, 15.0, 45.0, 7.0);
    var e := Enemy(100.0, 100.0, 80.0, 80.0, 1);
    assert CheckCollision(p.Box(), e.Box());
    assert InnerVisit(p, 0, Arena([p], [e], score), 0) == Arena([], [], score + 10);
  }

  /**
   * A projectile whose top-left corner is the enemy's top-left corner overlaps the
   * enemy's drawn rectangle but misses it: its hitbox spans x in [103, 112] and the
   * enemy's starts at x = 116. The pass leaves everything as it was.
   */
  lemma CornerAlignedMiss(score: int)
    ensures var p := Projectile(100.0, 100.0, 15.0, 45.0, 7.0);
            var e := Enemy(100.0, 100.0, 80.0, 80.0, 1);
            && Geometry.Overlap(p.Box(), e.Box())
            && !CheckCollision(p.Box(), e.Box())
            && CollisionPass(Arena([p], [e], score)) == Arena([p], [e], score)
  {
    var p := Projectile(100.0, 100.0, 15.0, 45.0, 7.0);
    var e := Enemy(100.0, 100.0, 80.0, 80.0, 1);
    NoHitsNoChange(Arena([p], [e], score));
  }

  /**
   * The in-place splicing as written: projectile p sits on three stacked enemies and
   * q is far away. p hits the enemy at index 0; the enemy shifting into index 0 is
   * skipped; the spliced-out p is still tested and hits the third enemy, now at
   * index 1; that second hit splices the projectile array at p's old index again
   * and removes q, which hit nothing. Result: two enemies and both projectiles gone.
   */
  lemma CapturedProjectileKeepsHitting(score: int)
    ensures var p := Projectile(132.5, 100.0, 15.0, 45.0, 7.0);
            var q := Projectile(600.0, 400.0, 15.0, 45.0, 7.0);
            var e := Enemy(100.0, 100.0, 80.0, 80.0, 1);
            CollisionPass(Arena([p, q], [e, e, e], score)) == Arena([], [e], score + 20)
  {
    var p := Projectile(132.5, 100.0, 15.0, 45.0, 7.0);
    var q := Projectile(600.0, 400.0, 15.0, 45.0, 7.0);
    var e := Enemy(100.0, 100.0, 80.0, 80.0, 1);
    var a0 := Arena([p, q], [e, e, e], score);
    assert CheckCollision(p.Box(), e.Box());
    assert Splice([p, q], 0) == [q];
    assert Splice([e, e, e], 0) == [e, e];
    var a1 := Arena([q], [e, e], score + 10);
    assert InnerVisit(p, 0, a0, 0) == a1;
    assert Splice([q], 0) == [];
    assert Splice([e, e], 1) == [e];
    var a2 := Arena([], [e], score + 20);
    assert InnerVisit(p, 0, a1, 1) == a2;
    assert InnerVisit(p, 0, a2, 2) == a2;
    assert InnerLoop(p, 0, a2, 2, 3) == a2;
    assert InnerLoop(p, 0, a1, 1, 3) == a2;
    assert InnerLoop(p, 0, a0, 0, 3) == a2;
    assert OuterVisit(a0, 0) == a2;
    assert OuterLoop(a2, 1, 2) == a2;
  }
}
