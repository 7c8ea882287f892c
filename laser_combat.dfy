/** What one frame of the hit-scan shooter (laser.js) does to the enemy list,
    stated as functions of the list before the frame: the shot along the
    segment from the player to the screen edge, the enemies that reach the
    base, and the expiry of the drawn beams. The reverse loops of the source
    are these functions computed from the last element back, so each function
    is defined on a suffix and handles the first element last. */
module LaserCombat {
  import opened JsNum
  import opened Geometry
  import opened Arena
  import opened LaserEnemies

  const HITSCAN_DAMAGE: int := 24
  const BEAM_DURATION: real := 90.0

  /** Enemy ids strictly increase along the list (each id is above the one
      before it). */
  predicate IdsAscending(es: seq<Enemy>)
  {
    forall i | 0 < i < |es| :: es[i - 1].id < es[i].id
  }

  lemma {:induction false} AscendingStep(es: seq<Enemy>, i: int, j: int)
    requires IdsAscending(es) && 0 <= i < j < |es|
    ensures es[i].id < es[j].id
    decreases j - i
  {
    if i + 1 < j {
      AscendingStep(es, i, j - 1);
    }
  }

  /** Ascending ids are pairwise distinct, in list order. */
  lemma AscendingPairs(es: seq<Enemy>)
    requires IdsAscending(es)
    ensures forall i, j | 0 <= i < j < |es| :: es[i].id < es[j].id
  {
    forall i, j | 0 <= i < j < |es| ensures es[i].id < es[j].id {
      AscendingStep(es, i, j);
    }
  }

  predicate HasId(es: seq<Enemy>, id: int)
  {
    exists i | 0 <= i < |es| :: es[i].id == id
  }

  // ---------------------------------------------------------------------------
  // The shot

  /** Where the shot segment from a to edge meets the enemy's circle. */
  function Contact(e: Enemy, a: Point, edge: Point): Contact
  {
    SegmentCircleIntersect(a, edge, e.pos, e.radius)
  }

  predicate IsHit(e: Enemy, a: Point, edge: Point)
  {
    Contact(e, a, edge).Hit?
  }

  /** The enemy after taking a shot at time t. */
  function Damaged(e: Enemy, t: real): (d: Enemy)
    ensures d.hp == e.hp - HITSCAN_DAMAGE && d.blinkUntil == t + BEAM_DURATION
    ensures d.(hp := e.hp, blinkUntil := e.blinkUntil) == e
  {
    e.(hp := e.hp - HITSCAN_DAMAGE, blinkUntil := t + BEAM_DURATION)
  }

  /** The enemy is hit and the shot brings it to zero or below. */
  predicate Killed(e: Enemy, a: Point, edge: Point)
  {
    IsHit(e, a, edge) && e.hp - HITSCAN_DAMAGE <= 0
  }

  /** d is what the shot makes of e: e itself when missed, e damaged when hit. */
  predicate Becomes(e: Enemy, d: Enemy, a: Point, edge: Point, t: real)
  {
    if IsHit(e, a, edge) then d == Damaged(e, t) else d == e
  }

  /** The enemies left after the shot, in their order: hit ones are damaged and
      removed when their hit points fall to zero, the others are kept as they are. */
  function ShotSurvivors(es: seq<Enemy>, a: Point, edge: Point, t: real): (r: seq<Enemy>)
    ensures |r| <= |es|
  {
    if es == [] then []
    else
      var rest := ShotSurvivors(es[1..], a, edge, t);
      if !IsHit(es[0], a, edge) then [es[0]] + rest
      else if Killed(es[0], a, edge) then rest
      else [Damaged(es[0], t)] + rest
  }

  /** The points the shot earns: the kill points of every enemy it removes. */
  function ShotScore(es: seq<Enemy>, a: Point, edge: Point): int
  {
    if es == [] then 0
    else (if Killed(es[0], a, edge) then KillPoints(es[0].kind) else 0) + ShotScore(es[1..], a, edge)
  }

  /** Some enemy is hit (the anyHit flag). */
  predicate AnyHit(es: seq<Enemy>, a: Point, edge: Point)
  {
    es != [] && (IsHit(es[0], a, edge) || AnyHit(es[1..], a, edge))
  }

  /** The running nearest impact, { t: 1, x: ex, y: ey } at the start, replaced
      by a hit of strictly smaller parameter. */
  datatype Impact = Impact(t: real, at: Point)

  function NearestImpact(es: seq<Enemy>, a: Point, edge: Point): Impact
  {
    if es == [] then Impact(1.0, edge)
    else
      var r := NearestImpact(es[1..], a, edge);
      var c := Contact(es[0], a, edge);
      if c.Hit? && c.t < r.t then Impact(c.t, c.at) else r
  }

  /** The far end of the drawn beam. */
  function BeamEnd(es: seq<Enemy>, a: Point, edge: Point): Point
  {
    if AnyHit(es, a, edge) then NearestImpact(es, a, edge).at else edge
  }

  /** A drawn beam and the time it disappears. */
  datatype Beam = Beam(from: Point, to: Point, until: real)

  /** Every survivor of the shot is what the shot made of an enemy with the same
      id that the shot did not kill. */
  lemma {:induction false} SurvivorsComeFromEnemies(es: seq<Enemy>, a: Point, edge: Point, t: real)
    ensures forall d | d in ShotSurvivors(es, a, edge, t) ::
      exists e | e in es && e.id == d.id :: Becomes(e, d, a, edge, t) && !Killed(e, a, edge)
  {
    if es != [] {
      var tl := es[1..];
      SurvivorsComeFromEnemies(tl, a, edge, t);
      var rest := ShotSurvivors(tl, a, edge, t);
      var r := ShotSurvivors(es, a, edge, t);
      forall d | d in r
        ensures exists e | e in es && e.id == d.id :: Becomes(e, d, a, edge, t) && !Killed(e, a, edge)
      {
        if d in rest {
          var e :| e in tl && e.id == d.id && Becomes(e, d, a, edge, t) && !Killed(e, a, edge);
          assert e in es;
        } else {
          assert d == r[0] && es[0] in es;
        }
      }
    }
  }

  /** A missed enemy stays as it is and a hit one that survives stays damaged. */
  lemma {:induction false} ShotKeepsSurvivors(es: seq<Enemy>, a: Point, edge: Point, t: real)
    ensures forall e | e in es && !IsHit(e, a, edge) :: e in ShotSurvivors(es, a, edge, t)
    ensures forall e | e in es && IsHit(e, a, edge) && !Killed(e, a, edge) ::
      Damaged(e, t) in ShotSurvivors(es, a, edge, t)
  {
    if es != [] {
      var tl := es[1..];
      ShotKeepsSurvivors(tl, a, edge, t);
      assert forall e | e in es :: e == es[0] || e in tl;
    }
  }

  lemma IdsAscendingTail(es: seq<Enemy>)
    requires es != [] && IdsAscending(es)
    ensures IdsAscending(es[1..])
    ensures forall e | e in es[1..] :: e.id > es[0].id
  {
    var tl := es[1..];
    assert forall i | 0 < i < |tl| :: tl[i - 1] == es[i] && tl[i] == es[i + 1];
    AscendingPairs(es);
    forall e | e in tl ensures e.id > es[0].id {
      var j :| 0 <= j < |tl| && tl[j] == e;
      assert es[j + 1] == e;
    }
  }

  /** The shot keeps the ids ascending. */
  lemma {:induction false} ShotKeepsAscending(es: seq<Enemy>, a: Point, edge: Point, t: real)
    requires IdsAscending(es)
    ensures IdsAscending(ShotSurvivors(es, a, edge, t))
  {
    if es != [] {
      var tl := es[1..];
      IdsAscendingTail(es);
      ShotKeepsAscending(tl, a, edge, t);
      ShotIdsAbove(tl, es[0].id, a, edge, t);
      var rest := ShotSurvivors(tl, a, edge, t);
      if IsHit(es[0], a, edge) && !Killed(es[0], a, edge) {
        ConsAscending(Damaged(es[0], t), rest);
      } else if !IsHit(es[0], a, edge) {
        ConsAscending(es[0], rest);
      }
    }
  }

  /** The survivors of a shot keep ids above any bound the enemies' ids are
      above. */
  lemma {:induction false} ShotIdsAbove(es: seq<Enemy>, lo: int, a: Point, edge: Point, t: real)
    requires forall e | e in es :: e.id > lo
    ensures forall d | d in ShotSurvivors(es, a, edge, t) :: d.id > lo
  {
    if es != [] {
      assert es[0] in es;
      assert forall e | e in es[1..] :: e in es;
      ShotIdsAbove(es[1..], lo, a, edge, t);
    }
  }

  /** An enemy put in front of an ascending list whose ids are all above its
      own keeps the list ascending. */
  lemma ConsAscending(x: Enemy, rest: seq<Enemy>)
    requires IdsAscending(rest) && forall e | e in rest :: e.id > x.id
    ensures IdsAscending([x] + rest)
  {
    var r := [x] + rest;
    forall i | 0 < i < |r| ensures r[i - 1].id < r[i].id {
      assert r[i] == rest[i - 1];
      if i == 1 {
        assert rest[0] in rest;
      } else {
        assert r[i - 1] == rest[i - 2];
      }
    }
  }

  /** No survivor of the shot has the id of an enemy the shot killed. */
  lemma ShotDropsKilled(es: seq<Enemy>, a: Point, edge: Point, t: real)
    requires IdsAscending(es)
    ensures forall e | e in es && Killed(e, a, edge) :: !HasId(ShotSurvivors(es, a, edge, t), e.id)
  {
    var r := ShotSurvivors(es, a, edge, t);
    SurvivorsComeFromEnemies(es, a, edge, t);
    AscendingPairs(es);
    forall e | e in es && Killed(e, a, edge) ensures !HasId(r, e.id) {
      forall i | 0 <= i < |r| ensures r[i].id != e.id {
        assert r[i] in r;
        var e' :| e' in es && e'.id == r[i].id && !Killed(e', a, edge);
        var j :| 0 <= j < |es| && es[j] == e;
        var k :| 0 <= k < |es| && es[k] == e';
        assert j != k;
      }
    }
  }

  /** Every enemy the shot removes was hit and earns between 6 and 20 points,
      so the score rises by at least 6 and at most 20 per removed enemy. */
  lemma {:induction false} ShotScoreBounds(es: seq<Enemy>, a: Point, edge: Point, t: real)
    ensures var removed := |es| - |ShotSurvivors(es, a, edge, t)|;
      6 * removed <= ShotScore(es, a, edge) <= 20 * removed
  {
    if es != [] {
      ShotScoreBounds(es[1..], a, edge, t);
    }
  }

  /** The nearest impact lies on the segment at its parameter; no hit enemy is
      met earlier along the segment; and unless it is still the initial value it
      is the contact point of some hit enemy. */
  lemma {:induction false} NearestImpactSpec(es: seq<Enemy>, a: Point, edge: Point)
    ensures var r := NearestImpact(es, a, edge);
      0.0 <= r.t <= 1.0 && r.at == Along(a, edge, r.t)
      && (forall i | 0 <= i < |es| && IsHit(es[i], a, edge) :: r.t <= Contact(es[i], a, edge).t)
      && (r.t < 1.0 ==> exists i | 0 <= i < |es| :: IsHit(es[i], a, edge) && Contact(es[i], a, edge).t == r.t)
  {
    if es == [] {
      assert Along(a, edge, 1.0) == edge;
    } else {
      var tl := es[1..];
      NearestImpactSpec(tl, a, edge);
      var r := NearestImpact(es, a, edge);
      var rt := NearestImpact(tl, a, edge);
      forall i | 0 <= i < |es| && IsHit(es[i], a, edge) ensures r.t <= Contact(es[i], a, edge).t {
        if i > 0 {
          assert es[i] == tl[i - 1];
        }
      }
      if r.t < 1.0 && r == rt {
        var i :| 0 <= i < |tl| && IsHit(tl[i], a, edge) && Contact(tl[i], a, edge).t == r.t;
        assert es[i + 1] == tl[i];
      }
    }
  }

  /** The beam stops at the first enemy the segment meets, and reaches the edge
      when the shot hits nothing. */
  lemma BeamEndSpec(es: seq<Enemy>, a: Point, edge: Point)
    ensures !AnyHit(es, a, edge) ==> BeamEnd(es, a, edge) == edge
    ensures AnyHit(es, a, edge) ==>
      exists s :: 0.0 <= s <= 1.0 && BeamEnd(es, a, edge) == Along(a, edge, s)
        && forall i | 0 <= i < |es| && IsHit(es[i], a, edge) :: s <= Contact(es[i], a, edge).t
  {
    NearestImpactSpec(es, a, edge);
  }

  // ---------------------------------------------------------------------------
  // Enemies reaching the base

  /** The enemies that do not touch the base, in their order. */
  function BaseSurvivors(es: seq<Enemy>, base: Point): (r: seq<Enemy>)
    ensures |r| <= |es|
  {
    if es == [] then []
    else if TouchesBase(es[0].pos, es[0].radius, base) then BaseSurvivors(es[1..], base)
    else [es[0]] + BaseSurvivors(es[1..], base)
  }

  /** The damages of the enemies that touch the base, in their order. */
  function BaseDamages(es: seq<Enemy>, base: Point): (ds: seq<int>)
    ensures |ds| + |BaseSurvivors(es, base)| == |es|
  {
    if es == [] then []
    else if TouchesBase(es[0].pos, es[0].radius, base) then [es[0].dmg] + BaseDamages(es[1..], base)
    else BaseDamages(es[1..], base)
  }

  /** Exactly the enemies touching the base are removed, the rest kept in order;
      the base loses the sum of their damages, clamped at zero. */
  lemma {:induction false} BaseContactSpec(es: seq<Enemy>, base: Point, hp: int)
    requires hp >= 0 && forall e | e in es :: e.dmg >= 0
    ensures forall e :: e in BaseSurvivors(es, base) <==> e in es && !TouchesBase(e.pos, e.radius, base)
    ensures Drain(hp, BaseDamages(es, base)) == MaxI(0, hp - Sum(BaseDamages(es, base)))
  {
    if es != [] {
      BaseContactSpec(es[1..], base, hp);
      assert forall e :: e in es <==> e == es[0] || e in es[1..];
      var ds := BaseDamages(es, base);
      assert forall i | 0 <= i < |ds| :: ds[i] >= 0 by {
        BaseDamagesNonneg(es, base);
      }
      DrainIsClampedTotal(hp, ds);
    }
  }

  lemma {:induction false} BaseDamagesNonneg(es: seq<Enemy>, base: Point)
    requires forall e | e in es :: e.dmg >= 0
    ensures forall i | 0 <= i < |BaseDamages(es, base)| :: BaseDamages(es, base)[i] >= 0
  {
    if es != [] {
      assert forall e | e in es[1..] :: e in es;
      BaseDamagesNonneg(es[1..], base);
    }
  }

  // ---------------------------------------------------------------------------
  // Beams

  /** The beams kept at time t: those whose time is not past. */
  function LiveBeams(bs: seq<Beam>, t: real): (r: seq<Beam>)
    ensures |r| <= |bs|
  {
    if bs == [] then []
    else if t > bs[0].until then LiveBeams(bs[1..], t)
    else [bs[0]] + LiveBeams(bs[1..], t)
  }

  /** Exactly the beams with until >= t survive, and an expiry at an earlier
      time followed by one at t is one expiry at t. */
  lemma {:induction false} LiveBeamsSpec(bs: seq<Beam>, t0: real, t: real)
    requires t0 <= t
    ensures forall b :: b in LiveBeams(bs, t) <==> b in bs && b.until >= t
    ensures LiveBeams(LiveBeams(bs, t0), t) == LiveBeams(bs, t)
  {
    if bs != [] {
      LiveBeamsSpec(bs[1..], t0, t);
      assert forall b :: b in bs <==> b == bs[0] || b in bs[1..];
      if !(t0 > bs[0].until) {
        assert LiveBeams(bs, t0) == [bs[0]] + LiveBeams(bs[1..], t0);
        assert LiveBeams(bs, t0)[1..] == LiveBeams(bs[1..], t0);
      }
    }
  }

  // ---------------------------------------------------------------------------
  // The enemy list of the state record

  /** The enemy list of a running game: ids ascend and are below the id
      counter n, and every enemy is alive and as the table built it. */
  predicate EnemiesOk(es: seq<Enemy>, n: int)
  {
    IdsAscending(es) && forall i | 0 <= i < |es| :: Alive(es[i]) && es[i].id < n
  }

  /** The shot keeps the enemy list well formed and never lowers the score. */
  lemma ShotKeepsEnemiesOk(es: seq<Enemy>, a: Point, edge: Point, t: real, n: int)
    requires EnemiesOk(es, n)
    ensures EnemiesOk(ShotSurvivors(es, a, edge, t), n) && ShotScore(es, a, edge) >= 0
  {
    var r := ShotSurvivors(es, a, edge, t);
    ShotKeepsAscending(es, a, edge, t);
    SurvivorsComeFromEnemies(es, a, edge, t);
    ShotScoreBounds(es, a, edge, t);
    assert forall e | e in es :: Alive(e) && e.id < n;
    forall i | 0 <= i < |r| ensures Alive(r[i]) && r[i].id < n {
      assert r[i] in r;
    }
  }

  /** The enemies left by resolveCollisions keep their order. */
  lemma {:induction false} BaseSurvivorsAscending(es: seq<Enemy>, base: Point)
    requires IdsAscending(es)
    ensures IdsAscending(BaseSurvivors(es, base))
    ensures forall e | e in BaseSurvivors(es, base) :: e in es
  {
    if es != [] {
      var tl := es[1..];
      IdsAscendingTail(es);
      BaseSurvivorsAscending(tl, base);
      var rest := BaseSurvivors(tl, base);
      var r := BaseSurvivors(es, base);
      if r != rest {
        assert r == [es[0]] + rest;
        forall i | 0 < i < |r| ensures r[i - 1].id < r[i].id {
          assert r[i] == rest[i - 1] && r[i] in tl;
          if i > 1 {
            assert r[i - 1] == rest[i - 2];
          }
        }
      }
    }
  }

  /** Base contact keeps the enemy list well formed, and the base's hit points
      stay between zero and what they were. */
  lemma BaseKeepsEnemiesOk(es: seq<Enemy>, base: Point, hp: int, n: int)
    requires EnemiesOk(es, n) && hp >= 0
    ensures EnemiesOk(BaseSurvivors(es, base), n)
    ensures 0 <= Drain(hp, BaseDamages(es, base)) <= hp
    ensures Drain(hp, BaseDamages(es, base)) == MaxI(0, hp - Sum(BaseDamages(es, base)))
  {
    var r := BaseSurvivors(es, base);
    assert forall e | e in es :: e.dmg >= 0;
    BaseContactSpec(es, base, hp);
    BaseDamagesNonneg(es, base);
    DrainBounds(hp, BaseDamages(es, base));
    BaseSurvivorsAscending(es, base);
    forall i | 0 <= i < |r| ensures Alive(r[i]) && r[i].id < n {
      assert r[i] in es;
    }
  }
}
