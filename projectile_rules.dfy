/** The rules of the projectile shooter (scrpit.js): enemies drawn on one of
    the four sides with stats scaled by the wave, bullets that live 900 ms and
    vanish 20 px past the screen, the first-hit rule between a bullet and the
    enemy list, and the base contact. */
module ProjectileRules {
  import opened JsNum
  import opened Geometry
  import opened Arena

  const BASE_MAX_HP: int := 100
  const BULLET_SPEED: real := 900.0
  /** BULLET_LIFETIME * 1000: 0.9 s in milliseconds. */
  const BULLET_LIFE: real := 900.0
  const BULLET_RADIUS: real := 4.0
  const ENEMY_RADIUS: real := 16.0
  const ENEMY_BASE_SPEED: real := 70.0
  const ENEMY_BASE_HP: real := 30.0
  /** DIFFICULTY_RAMP, 1.12. */
  const RAMP: real := 28.0 / 25.0
  /** 2.2 enemies more per wave, in fifths. */
  const WAVE_FIFTHS: int := 11
  const BULLET_DAMAGE: real := 20.0
  const BLINK: real := 90.0
  const KILL_POINTS: int := 10
  /** How far past the screen a bullet may go. */
  const SLACK: real := 20.0

  datatype Bullet = Bullet(pos: Point, vel: Point, born: real, life: real, radius: real)

  datatype Enemy = Enemy(pos: Point, hp: real, maxHp: real, speed: real, dmg: int, radius: real, blinkUntil: real)

  /** rng(lo, hi) for a uniform draw u in [0, 1). */
  function Rng(lo: real, hi: real, u: real): real
  {
    lo + u * (hi - lo)
  }

  lemma RngBounds(lo: real, hi: real, u: real)
    requires lo <= hi && 0.0 <= u < 1.0
    ensures lo <= Rng(lo, hi, u) <= hi
  {
    MulLe(0.0, u, hi - lo);
    MulLe(u, 1.0, hi - lo);
  }

  // ---------------------------------------------------------------------------
  // spawnEnemy

  /** The Math.random() values of one spawnEnemy call: the side, the position
      along it, and the speed and hit point factors. */
  datatype SpawnDraw = SpawnDraw(side: real, along: real, speedRoll: real, hpRoll: real)

  predicate DrawOk(d: SpawnDraw)
  {
    0.0 <= d.side < 1.0 && 0.0 <= d.along < 1.0 && 0.0 <= d.speedRoll < 1.0 && 0.0 <= d.hpRoll < 1.0
  }

  /** Math.floor(Math.random() * 4): 0 top, 1 right, 2 bottom, 3 left. */
  function Side(d: SpawnDraw): (s: int)
    requires DrawOk(d)
    ensures 0 <= s <= 3
  {
    (d.side * 4.0).Floor
  }

  /** The spawn point on the chosen side, 20 px outside the screen. */
  function SpawnPoint(d: SpawnDraw, w: real, h: real): (p: Point)
    requires DrawOk(d)
    ensures Side(d) == 0 ==> p.y == -SLACK && p.x == Rng(40.0, w - 40.0, d.along)
    ensures Side(d) == 1 ==> p.x == w + SLACK
    ensures Side(d) == 2 ==> p.y == h + SLACK
    ensures Side(d) == 3 ==> p.x == -SLACK
  {
    var side := Side(d);
    if side == 0 then Point(Rng(40.0, w - 40.0, d.along), -SLACK)
    else if side == 1 then Point(w + SLACK, Rng(40.0, h - 40.0, d.along))
    else if side == 2 then Point(Rng(40.0, w - 40.0, d.along), h + SLACK)
    else Point(-SLACK, Rng(40.0, h - 40.0, d.along))
  }

  /** Math.pow(DIFFICULTY_RAMP, wave - 1). */
  function Scale(wave: int): real
    requires wave >= 1
  {
    Pow(RAMP, wave - 1)
  }

  /** The damage an enemy of the wave does to the base: Math.round(4 * scale). */
  function WaveDamage(wave: int): int
    requires wave >= 1
  {
    Round(4.0 * Scale(wave))
  }

  /** The enemy spawnEnemy pushes for the draw d in the given wave. */
  function Spawned(d: SpawnDraw, wave: int, w: real, h: real): Enemy
    requires DrawOk(d) && wave >= 1
  {
    var scale := Scale(wave);
    var hp := ENEMY_BASE_HP * Rng(0.9, 1.2, d.hpRoll) * scale;
    Enemy(SpawnPoint(d, w, h), hp, hp, ENEMY_BASE_SPEED * Rng(0.85, 1.25, d.speedRoll) * scale,
      WaveDamage(wave), ENEMY_RADIUS, 0.0)
  }

  /** An enemy of the list: alive, with at most its starting hit points, the
      fixed radius and a damage of at least 4. */
  predicate EnemyOk(e: Enemy)
  {
    0.0 < e.hp <= e.maxHp && e.radius == ENEMY_RADIUS && e.dmg >= 4
  }

  lemma ProductPositive(x: real, y: real, z: real)
    requires x > 0.0 && y > 0.0 && z > 0.0
    ensures x * y * z > 0.0
  {
    assert x * y > 0.0;
  }

  /** A fresh enemy is at full health, never weaker than a wave-1 enemy, and
      deals at least 4 damage. */
  lemma SpawnedOk(d: SpawnDraw, wave: int, w: real, h: real)
    requires DrawOk(d) && wave >= 1
    ensures var e := Spawned(d, wave, w, h);
      EnemyOk(e) && e.hp == e.maxHp && e.blinkUntil == 0.0 && e.pos == SpawnPoint(d, w, h)
  {
    PowAtLeastOne(RAMP, wave - 1);
    RngBounds(0.9, 1.2, d.hpRoll);
    ProductPositive(ENEMY_BASE_HP, Rng(0.9, 1.2, d.hpRoll), Scale(wave));
    assert 4.0 * Scale(wave) >= 4.0;
  }

  /** Later waves hit the base at least as hard. */
  lemma WaveDamageGrows(wave: int)
    requires wave >= 1
    ensures 4 <= WaveDamage(wave) <= WaveDamage(wave + 1)
  {
    PowAtLeastOne(RAMP, wave - 1);
    PowGrows(RAMP, wave - 1);
    assert Scale(wave + 1) == Pow(RAMP, wave);
  }

  /** The enemies of a batch of n, from draws(0) .. draws(n - 1), in push order. */
  function Batch(draws: nat -> SpawnDraw, n: nat, wave: int, w: real, h: real): (r: seq<Enemy>)
    requires wave >= 1 && forall i: nat :: DrawOk(draws(i))
    ensures |r| == n
  {
    if n == 0 then [] else Batch(draws, n - 1, wave, w, h) + [Spawned(draws(n - 1), wave, w, h)]
  }

  /** The i-th enemy of a batch comes from the i-th draw. */
  lemma {:induction false} BatchSpec(draws: nat -> SpawnDraw, n: nat, wave: int, w: real, h: real)
    requires wave >= 1 && forall i: nat :: DrawOk(draws(i))
    ensures forall i | 0 <= i < n :: Batch(draws, n, wave, w, h)[i] == Spawned(draws(i), wave, w, h)
  {
    if n > 0 {
      BatchSpec(draws, n - 1, wave, w, h);
    }
  }

  // ---------------------------------------------------------------------------
  // Bullets

  /** The bullet tryShoot fires at time t from the base; dir is the unit vector
      (cos, sin) of the aiming angle. */
  function Fired(base: Point, dir: Point, t: real): (b: Bullet)
    ensures BulletOk(b) && b.born == t && b.pos == base
  {
    Bullet(base, Point(dir.x * BULLET_SPEED, dir.y * BULLET_SPEED), t, BULLET_LIFE, BULLET_RADIUS)
  }

  predicate BulletOk(b: Bullet)
  {
    b.life == BULLET_LIFE && b.radius == BULLET_RADIUS
  }

  /** The bullet after a frame of dt seconds. */
  function Moved(b: Bullet, dt: real): Bullet
  {
    b.(pos := Point(b.pos.x + b.vel.x * dt, b.pos.y + b.vel.y * dt))
  }

  /** A (moved) bullet is dropped at time t when it is older than its life or
      more than 20 px outside the screen. */
  predicate Expired(b: Bullet, t: real, w: real, h: real)
  {
    t - b.born > b.life
    || b.pos.x < -SLACK || b.pos.x > w + SLACK || b.pos.y < -SLACK || b.pos.y > h + SLACK
  }

  /** updateBullets: every bullet moves, the expired ones are dropped, the rest
      keep their order. */
  function LiveBullets(bs: seq<Bullet>, t: real, dt: real, w: real, h: real): (r: seq<Bullet>)
    ensures |r| <= |bs|
  {
    if bs == [] then []
    else
      var b := Moved(bs[0], dt);
      var rest := LiveBullets(bs[1..], t, dt, w, h);
      if Expired(b, t, w, h) then rest else [b] + rest
  }

  /** Exactly the moved bullets that have not expired are kept. */
  lemma {:induction false} LiveBulletsSpec(bs: seq<Bullet>, t: real, dt: real, w: real, h: real)
    ensures forall c :: c in LiveBullets(bs, t, dt, w, h) <==>
      !Expired(c, t, w, h) && exists b | b in bs :: c == Moved(b, dt)
    ensures (forall b | b in bs :: BulletOk(b)) ==> forall c | c in LiveBullets(bs, t, dt, w, h) :: BulletOk(c)
  {
    if bs != [] {
      LiveBulletsSpec(bs[1..], t, dt, w, h);
      assert forall b :: b in bs <==> b == bs[0] || b in bs[1..];
    }
  }

  // ---------------------------------------------------------------------------
  // Bullets against enemies

  /** The bullet is within the sum of the radii of the enemy. */
  predicate Touches(b: Bullet, e: Enemy)
  {
    Dist2(b.pos, e.pos) <= (e.radius + b.radius) * (e.radius + b.radius)
  }

  /** The index of the first enemy in list order that the bullet touches, -1
      when there is none. */
  function FirstHit(b: Bullet, es: seq<Enemy>): (k: int)
    ensures -1 <= k < |es|
    ensures k >= 0 ==> Touches(b, es[k]) && forall j | 0 <= j < k :: !Touches(b, es[j])
    ensures k == -1 ==> forall j | 0 <= j < |es| :: !Touches(b, es[j])
  {
    if es == [] then -1
    else if Touches(b, es[0]) then 0
    else
      var k := FirstHit(b, es[1..]);
      if k < 0 then -1 else k + 1
  }

  /** What one bullet does: whether it hit, the enemy list after it, and the
      points it earned. */
  datatype Outcome = Outcome(hit: bool, enemies: seq<Enemy>, gain: int)

  /** The enemy after a bullet's hit at time t. */
  function Wounded(e: Enemy, t: real): Enemy
  {
    e.(hp := e.hp - BULLET_DAMAGE, blinkUntil := t + BLINK)
  }

  /** One turn of the bullet loop: the first enemy touched loses 20 hit points
      and is removed, for 10 points, when they reach zero. */
  function Strike(b: Bullet, es: seq<Enemy>, t: real): (o: Outcome)
    ensures o.hit <==> FirstHit(b, es) >= 0
  {
    var k := FirstHit(b, es);
    if k < 0 then Outcome(false, es, 0)
    else
      var e := Wounded(es[k], t);
      if e.hp <= 0.0 then Outcome(true, es[..k] + es[k + 1..], KILL_POINTS)
      else Outcome(true, es[k := e], 0)
  }

  /** A bullet touches at most one enemy, the first in list order: a miss
      changes nothing; a hit that kills removes that enemy alone for exactly
      10 points; any other hit wounds that enemy alone, for no points. */
  lemma StrikeSpec(b: Bullet, es: seq<Enemy>, t: real)
    ensures var o := Strike(b, es, t); var k := FirstHit(b, es);
      && (k < 0 ==> !o.hit && o.enemies == es && o.gain == 0)
      && (k >= 0 && es[k].hp - BULLET_DAMAGE <= 0.0 ==>
            o.gain == KILL_POINTS && |o.enemies| == |es| - 1
            && (forall j | 0 <= j < k :: o.enemies[j] == es[j])
            && (forall j | k < j < |es| :: o.enemies[j - 1] == es[j]))
      && (k >= 0 && es[k].hp - BULLET_DAMAGE > 0.0 ==>
            o.gain == 0 && |o.enemies| == |es| && o.enemies[k] == Wounded(es[k], t)
            && forall j | 0 <= j < |es| && j != k :: o.enemies[j] == es[j])
  {
  }

  /** The state of the bullet loop after a run over a list of bullets, last
      first: the bullets kept (those that hit nothing), the enemies and the
      points. */
  datatype Volley = Volley(kept: seq<Bullet>, enemies: seq<Enemy>, gain: int)

  /** The bullets against enemies loop of resolveCollisions, from the last
      bullet to the first, each bullet seeing the enemies the later ones left. */
  function Fire(bs: seq<Bullet>, es: seq<Enemy>, t: real): (v: Volley)
    ensures |v.kept| <= |bs|
  {
    if bs == [] then Volley([], es, 0)
    else
      var v := Fire(bs[1..], es, t);
      var o := Strike(bs[0], v.enemies, t);
      Volley((if o.hit then [] else [bs[0]]) + v.kept, o.enemies, v.gain + o.gain)
  }

  /** The score rises by exactly 10 for each enemy the bullets remove; every
      bullet kept is one of the fired bullets; sound enemies stay sound. */
  lemma {:induction false} FireSpec(bs: seq<Bullet>, es: seq<Enemy>, t: real)
    requires forall e | e in es :: EnemyOk(e)
    ensures var v := Fire(bs, es, t);
      v.gain == KILL_POINTS * (|es| - |v.enemies|) && |v.enemies| <= |es|
      && (forall c | c in v.kept :: c in bs)
      && (forall e | e in v.enemies :: EnemyOk(e))
  {
    if bs != [] {
      FireSpec(bs[1..], es, t);
      var v := Fire(bs[1..], es, t);
      StrikeKeepsEnemies(bs[0], v.enemies, t);
    }
  }

  /** One bullet keeps the enemies sound and earns 10 per enemy removed. */
  lemma StrikeKeepsEnemies(b: Bullet, es: seq<Enemy>, t: real)
    requires forall e | e in es :: EnemyOk(e)
    ensures var o := Strike(b, es, t);
      o.gain == KILL_POINTS * (|es| - |o.enemies|) && |o.enemies| <= |es|
      && forall e | e in o.enemies :: EnemyOk(e)
  {
    var k := FirstHit(b, es);
    if k >= 0 {
      var e := Wounded(es[k], t);
      if e.hp <= 0.0 {
        assert forall x | x in es[..k] + es[k + 1..] :: x in es;
      } else {
        assert es[k] in es;
        assert forall x | x in es[k := e] :: x == e || x in es;
      }
    }
  }

  // ---------------------------------------------------------------------------
  // Enemies against the base

  /** The enemies left after the base contact, in their order. */
  function BaseSurvivors(es: seq<Enemy>, base: Point): (r: seq<Enemy>)
    ensures |r| <= |es|
  {
    if es == [] then []
    else if TouchesBase(es[0].pos, es[0].radius, base) then BaseSurvivors(es[1..], base)
    else [es[0]] + BaseSurvivors(es[1..], base)
  }

  /** The damages of the enemies that touch the base, in their order. */
  function BaseDamages(es: seq<Enemy>, base: Point): (ds: seq<int>)
    ensures |ds| + |BaseSurvivors(es, base)| == |es|
  {
    if es == [] then []
    else if TouchesBase(es[0].pos, es[0].radius, base) then [es[0].dmg] + BaseDamages(es[1..], base)
    else BaseDamages(es[1..], base)
  }

  /** Exactly the enemies touching the base are removed, the others kept; the
      damages are those of the removed enemies and are never negative. */
  lemma {:induction false} BaseContactSpec(es: seq<Enemy>, base: Point)
    ensures forall e :: e in BaseSurvivors(es, base) <==> e in es && !TouchesBase(e.pos, e.radius, base)
    ensures (forall e | e in es :: EnemyOk(e)) ==> forall d | d in BaseDamages(es, base) :: d >= 4
  {
    if es != [] {
      BaseContactSpec(es[1..], base);
      assert forall e :: e in es <==> e == es[0] || e in es[1..];
      if (forall e | e in es :: EnemyOk(e)) && TouchesBase(es[0].pos, es[0].radius, base) {
        assert forall e | e in es[1..] :: EnemyOk(e);
        assert EnemyOk(es[0]);
        assert BaseDamages(es, base) == [es[0].dmg] + BaseDamages(es[1..], base);
      }
    }
  }

  /** The base after the contact: never below 0, never above what it was, and
      the same as one clamp of the total damage. */
  lemma BaseDrain(es: seq<Enemy>, base: Point, hp: int)
    requires hp >= 0 && forall e | e in es :: EnemyOk(e)
    ensures var ds := BaseDamages(es, base);
      0 <= Drain(hp, ds) <= hp && Drain(hp, ds) == MaxI(0, hp - Sum(ds))
  {
    BaseContactSpec(es, base);
    var ds := BaseDamages(es, base);
    assert forall i | 0 <= i < |ds| :: ds[i] in ds;
    DrainBounds(hp, ds);
    DrainIsClampedTotal(hp, ds);
  }

  // ---------------------------------------------------------------------------
  // Movement

  /** updateEnemies: each enemy goes where move sends it this frame. */
  function MoveAll(es: seq<Enemy>, move: Enemy -> Point): (r: seq<Enemy>)
    ensures |r| == |es|
    ensures forall i | 0 <= i < |es| :: r[i] == es[i].(pos := move(es[i]))
  {
    if es == [] then [] else [es[0].(pos := move(es[0]))] + MoveAll(es[1..], move)
  }

  /** Movement keeps every enemy sound: it only changes positions. */
  lemma MoveKeepsEnemies(es: seq<Enemy>, move: Enemy -> Point)
    requires forall e | e in es :: EnemyOk(e)
    ensures forall e | e in MoveAll(es, move) :: EnemyOk(e)
  {
    var r := MoveAll(es, move);
    forall e | e in r
      ensures EnemyOk(e)
    {
      var j :| 0 <= j < |r| && r[j] == e;
      assert es[j] in es;
    }
  }

  /** Kills keep the score a multiple of the points of one kill. */
  lemma KillsKeepMultiple(s: int, kills: int)
    requires s % KILL_POINTS == 0
    ensures (s + KILL_POINTS * kills) % KILL_POINTS == 0
  {
  }
}
