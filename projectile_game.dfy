/** The state record of the projectile shooter (scrpit.js) and the functions
    that update it each frame: tryShoot, updateBullets, updateEnemies,
    resolveCollisions, updateSpawns, update and resetGame. */
module ProjectileGame {
  import opened JsNum
  import opened Geometry
  import opened Arena
  import opened ProjectileRules
  import opened Seqs

  const NEVER_SHOT: real := -1000000000.0

  predicate EnemiesOk(es: seq<Enemy>)
  {
    forall e | e in es :: EnemyOk(e)
  }

  predicate BulletsOk(bs: seq<Bullet>)
  {
    forall b | b in bs :: BulletOk(b)
  }

  /** The draws of a batch: each a Math.random() value, with a spawn point far
      enough from the base to be kept. */
  ghost predicate DrawsOk(draws: nat -> SpawnDraw, w: real, h: real)
  {
    forall i: nat :: DrawOk(draws(i)) && FarFromBase(SpawnPoint(draws(i), w, h), BasePos(w, h))
  }

  /** resolveCollisions keeps the enemies and bullets sound, keeps only bullets
      it was given, raises the score by a multiple of 10 and leaves the base
      within [0, what it was]. */
  lemma CollisionsKeepInv(bs: seq<Bullet>, es: seq<Enemy>, s: int, hp: int, t: real, base: Point)
    requires EnemiesOk(es) && BulletsOk(bs) && 0 <= hp && s % KILL_POINTS == 0
    ensures var v := Fire(bs, es, t);
      EnemiesOk(BaseSurvivors(v.enemies, base)) && BulletsOk(v.kept)
      && (forall c | c in v.kept :: c in bs)
      && s + v.gain >= s && (s + v.gain) % KILL_POINTS == 0
      && 0 <= Drain(hp, BaseDamages(v.enemies, base)) <= hp
  {
    FireSpec(bs, es, t);
    var v := Fire(bs, es, t);
    KillsKeepMultiple(s, |es| - |v.enemies|);
    BaseDrain(v.enemies, base, hp);
    BaseContactSpec(v.enemies, base);
  }

  class Game {
    const width: real
    const height: real
    var baseHP: int
    var score: int
    var wave: int
    var nextGroupAt: real
    var groupLeft: int
    var lastShotAt: real
    var bullets: seq<Bullet>
    var enemies: seq<Enemy>
    var gameOver: bool

    function Base(): Point
    {
      BasePos(width, height)
    }

    function CursorOf(): Cursor
      reads this`wave, this`groupLeft, this`nextGroupAt
    {
      Cursor(wave, groupLeft, nextGroupAt)
    }

    /** Every enemy is alive with the fixed radius, every bullet has the fixed
        life and radius, the base is within [0, 100], and the score is a
        multiple of the 10 points of a kill. */
    ghost predicate Inv()
      reads this`enemies, this`bullets, this`baseHP, this`score, this`wave, this`groupLeft, this`nextGroupAt
    {
      EnemiesOk(enemies) && BulletsOk(bullets)
      && 0 <= baseHP <= BASE_MAX_HP && score >= 0 && score % KILL_POINTS == 0
      && CursorOk(CursorOf())
    }

    /** The game is over exactly when the base is down. */
    ghost predicate Valid()
      reads this`enemies, this`bullets, this`baseHP, this`score, this`wave, this`groupLeft, this`nextGroupAt
      reads this`gameOver
    {
      Inv() && (gameOver <==> baseHP == 0)
    }

    /** The state literal followed by the first scheduleWave. */
    constructor (w: real, h: real, now: real)
      ensures width == w && height == h && Valid()
      ensures baseHP == BASE_MAX_HP && score == 0 && lastShotAt == NEVER_SHOT
      ensures CursorOf() == Arena.ScheduleWave(1, now, WAVE_FIFTHS)
      ensures enemies == [] && bullets == [] && !gameOver
    {
      width, height := w, h;
      baseHP := BASE_MAX_HP;
      score := 0;
      wave := 1;
      nextGroupAt := now + 1000.0;
      groupLeft := 0;
      lastShotAt := NEVER_SHOT;
      bullets := [];
      enemies := [];
      gameOver := false;
      new;
      ScheduleWave(now);
    }

    method ScheduleWave(now: real)
      modifies this`groupLeft, this`nextGroupAt
      ensures CursorOf() == Arena.ScheduleWave(wave, now, WAVE_FIFTHS)
    {
      groupLeft := WaveTotal(wave, WAVE_FIFTHS);
      nextGroupAt := now + 500.0;
    }

    /** spawnEnemy for a draw whose point is far enough from the base. */
    method SpawnEnemy(d: SpawnDraw)
      requires wave >= 1 && DrawOk(d) && FarFromBase(SpawnPoint(d, width, height), Base())
      modifies this`enemies
      ensures enemies == old(enemies) + [Spawned(d, wave, width, height)]
    {
      var p := SpawnPoint(d, width, height);
      var scale := Pow(RAMP, wave - 1);
      var speed := ENEMY_BASE_SPEED * Rng(0.85, 1.25, d.speedRoll) * scale;
      var hp := ENEMY_BASE_HP * Rng(0.9, 1.2, d.hpRoll) * scale;
      var dmg := Round(4.0 * scale);
      enemies := enemies + [Enemy(p, hp, hp, speed, dmg, ENEMY_RADIUS, 0.0)];
    }

    /** The loop of updateSpawns that releases a batch of count enemies. */
    method SpawnBatch(count: nat, draws: nat -> SpawnDraw)
      requires wave >= 1 && DrawsOk(draws, width, height) && EnemiesOk(enemies)
      modifies this`enemies
      ensures enemies == old(enemies) + Batch(draws, count, wave, width, height)
      ensures EnemiesOk(enemies)
    {
      ghost var es0 := enemies;
      for i := 0 to count
        invariant enemies == es0 + Batch(draws, i, wave, width, height)
        invariant EnemiesOk(enemies)
      {
        SpawnEnemy(draws(i));
        SpawnedOk(draws(i), wave, width, height);
      }
    }

    /** updateSpawns at time t: draws(i) are the draws of the i-th enemy of the
        batch and gapDraw the draw of the next gap. */
    method UpdateSpawns(t: real, draws: nat -> SpawnDraw, gapDraw: real)
      requires Inv() && DrawsOk(draws, width, height)
      modifies this`enemies, this`wave, this`groupLeft, this`nextGroupAt
      ensures gameOver ==> CursorOf() == old(CursorOf()) && enemies == old(enemies)
      ensures !gameOver ==>
        var o := OpenWave(old(CursorOf()), old(enemies) == [], t, WAVE_FIFTHS);
        var k := DueBatch(o, t);
        CursorOf() == AfterBatch(o, k, t, GapFactor(gapDraw))
        && enemies == old(enemies) + Batch(draws, k, o.wave, width, height)
      ensures wave >= old(wave) && Inv()
    {
      if gameOver {
        return;
      }
      NextWave(t);
      ReleaseBatch(t, draws, gapDraw);
    }

    /** The first half of updateSpawns: the next wave is scheduled when this
        one is used up and the field is clear. */
    method NextWave(t: real)
      requires Inv()
      modifies this`wave, this`groupLeft, this`nextGroupAt
      ensures CursorOf() == OpenWave(old(CursorOf()), enemies == [], t, WAVE_FIFTHS)
      ensures wave >= old(wave) && Inv()
    {
      if groupLeft <= 0 && |enemies| == 0 {
        wave := wave + 1;
        ScheduleWave(t);
      }
    }

    /** The second half of updateSpawns: the batch due at t, if any, is
        released and the next gap drawn. */
    method ReleaseBatch(t: real, draws: nat -> SpawnDraw, gapDraw: real)
      requires Inv() && DrawsOk(draws, width, height)
      modifies this`enemies, this`groupLeft, this`nextGroupAt
      ensures var k := DueBatch(old(CursorOf()), t);
        CursorOf() == AfterBatch(old(CursorOf()), k, t, GapFactor(gapDraw))
        && enemies == old(enemies) + Batch(draws, k, wave, width, height)
      ensures Inv()
    {
      if t > nextGroupAt && groupLeft > 0 {
        var count := MinI(4 + wave / 3, groupLeft);
        SpawnBatch(count, draws);
        groupLeft := groupLeft - count;
        nextGroupAt := t + WAVE_INTERVAL * GapFactor(gapDraw);
      }
    }

    /** tryShoot at time t with the button state; dir is the unit vector of the
        angle from the player to the pointer. */
    method TryShoot(t: real, down: bool, dir: Point)
      modifies this`lastShotAt, this`bullets
      ensures !MayFire(gameOver, down, t, old(lastShotAt)) ==>
        lastShotAt == old(lastShotAt) && bullets == old(bullets)
      ensures MayFire(gameOver, down, t, old(lastShotAt)) ==>
        lastShotAt == t && bullets == old(bullets) + [Fired(Base(), dir, t)]
    {
      if gameOver {
        return;
      }
      if !down || t - lastShotAt < COOLDOWN {
        return;
      }
      lastShotAt := t;
      var p := Base();
      bullets := bullets + [Bullet(p, Point(dir.x * BULLET_SPEED, dir.y * BULLET_SPEED), t, BULLET_LIFE, BULLET_RADIUS)];
    }

    /** updateBullets at time t after dt seconds, last bullet first. */
    method UpdateBullets(t: real, dt: real)
      modifies this`bullets
      ensures bullets == LiveBullets(old(bullets), t, dt, width, height)
    {
      ghost var bs0 := bullets;
      var i := |bullets|;
      assert bs0[i..] == [] && bs0[..i] == bs0;
      while i > 0
        invariant 0 <= i <= |bs0|
        invariant bullets == bs0[..i] + LiveBullets(bs0[i..], t, dt, width, height)
      {
        i := i - 1;
        ghost var tail := LiveBullets(bs0[i + 1..], t, dt, width, height);
        assert bs0[i..][0] == bs0[i] && bs0[i..][1..] == bs0[i + 1..];
        assert bullets == bs0[..i] + ([bs0[i]] + tail) by {
          assert bs0[..i + 1] == bs0[..i] + [bs0[i]];
        }
        var b := bullets[i];
        b := b.(pos := Point(b.pos.x + b.vel.x * dt, b.pos.y + b.vel.y * dt));
        SpliceAt(bs0[..i], bs0[i], b, tail);
        bullets := bullets[i := b];
        if t - b.born > b.life || b.pos.x < -SLACK || b.pos.x > width + SLACK
          || b.pos.y < -SLACK || b.pos.y > height + SLACK
        {
          bullets := bullets[..i] + bullets[i + 1..];
        }
      }
      assert bs0[0..] == bs0 && bs0[..0] == [];
    }

    /** updateEnemies: every enemy goes where move sends it this frame. */
    method UpdateEnemies(move: Enemy -> Point)
      modifies this`enemies
      ensures enemies == MoveAll(old(enemies), move)
    {
      ghost var es0 := enemies;
      for i := 0 to |enemies|
        invariant |enemies| == |es0|
        invariant forall j | 0 <= j < i :: enemies[j] == es0[j].(pos := move(es0[j]))
        invariant forall j | i <= j < |es0| :: enemies[j] == es0[j]
      {
        var e := enemies[i];
        enemies := enemies[i := e.(pos := move(e))];
      }
    }

    /** The inner loop of resolveCollisions: the index of the first enemy the
        bullet touches, -1 when there is none. */
    method FindHit(b: Bullet) returns (hitIndex: int)
      ensures hitIndex == FirstHit(b, enemies)
    {
      hitIndex := -1;
      var j := 0;
      while j < |enemies|
        invariant 0 <= j <= |enemies|
        invariant forall k | 0 <= k < j :: !Touches(b, enemies[k])
      {
        if Touches(b, enemies[j]) {
          hitIndex := j;
          break;
        }
        j := j + 1;
      }
    }

    /** The state of the bullet loop once the bullets from index i on are done. */
    ghost predicate Shot(bs0: seq<Bullet>, es0: seq<Enemy>, s0: int, i: int, t: real)
      reads this`bullets, this`enemies, this`score
    {
      0 <= i <= |bs0|
      && bullets == bs0[..i] + Fire(bs0[i..], es0, t).kept
      && enemies == Fire(bs0[i..], es0, t).enemies
      && score == s0 + Fire(bs0[i..], es0, t).gain
    }

    /** One turn of the bullet loop, on the bullet at index i. */
    method StrikeOne(i: int, t: real, ghost bs0: seq<Bullet>, ghost es0: seq<Enemy>, ghost s0: int)
      requires 0 <= i && Shot(bs0, es0, s0, i + 1, t)
      modifies this`bullets, this`enemies, this`score
      ensures Shot(bs0, es0, s0, i, t)
    {
      ghost var v := Fire(bs0[i + 1..], es0, t);
      assert bs0[i..][0] == bs0[i] && bs0[i..][1..] == bs0[i + 1..];
      assert bullets == bs0[..i] + ([bs0[i]] + v.kept) by {
        assert bs0[..i + 1] == bs0[..i] + [bs0[i]];
      }
      var b := bullets[i];
      var hitIndex := FindHit(b);
      if hitIndex >= 0 {
        Wound(b, hitIndex, t);
        RemoveAt(bs0[..i], bs0[i], v.kept);
        bullets := bullets[..i] + bullets[i + 1..];
      }
    }

    /** The hit of that turn: the enemy at hitIndex, the first one the bullet
        touches, is wounded, and removed for KILL_POINTS when it is dead. */
    method Wound(b: Bullet, hitIndex: int, t: real)
      requires 0 <= hitIndex && hitIndex == FirstHit(b, enemies)
      modifies this`enemies, this`score
      ensures enemies == Strike(b, old(enemies), t).enemies
      ensures score == old(score) + Strike(b, old(enemies), t).gain
    {
      var e := enemies[hitIndex];
      e := e.(hp := e.hp - BULLET_DAMAGE, blinkUntil := t + BLINK);
      ghost var es1 := enemies;
      enemies := enemies[hitIndex := e];
      if e.hp <= 0.0 {
        score := score + KILL_POINTS;
        assert enemies[..hitIndex] == es1[..hitIndex];
        assert enemies[hitIndex + 1..] == es1[hitIndex + 1..];
        enemies := enemies[..hitIndex] + enemies[hitIndex + 1..];
      }
    }

    /** The state of the base contact loop once the enemies from index i on
        are done. */
    ghost predicate Resolved(es0: seq<Enemy>, hp0: int, i: int, base: Point)
      reads this`enemies, this`baseHP
    {
      0 <= i <= |es0|
      && enemies == es0[..i] + BaseSurvivors(es0[i..], base)
      && baseHP == Drain(hp0, BaseDamages(es0[i..], base))
    }

    /** One turn of the base contact loop, on the enemy at index i. */
    method ContactOne(i: int, base: Point, ghost es0: seq<Enemy>, ghost hp0: int)
      requires 0 <= i && Resolved(es0, hp0, i + 1, base)
      modifies this`enemies, this`baseHP
      ensures Resolved(es0, hp0, i, base)
    {
      assert es0[i..][0] == es0[i] && es0[i..][1..] == es0[i + 1..];
      assert es0[..i + 1] == es0[..i] + [es0[i]];
      var e := enemies[i];
      assert e == es0[i];
      if TouchesBase(e.pos, e.radius, base) {
        baseHP := baseHP - e.dmg;
        enemies := enemies[..i] + enemies[i + 1..];
        if baseHP <= 0 {
          baseHP := 0;
        }
      }
    }

    /** resolveCollisions at time t: the bullets against the enemies, last
        bullet first, then the enemies against the base, last enemy first. */
    method ResolveCollisions(t: real)
      modifies this`bullets, this`enemies, this`score, this`baseHP
      ensures var v := Fire(old(bullets), old(enemies), t);
        bullets == v.kept && score == old(score) + v.gain
        && enemies == BaseSurvivors(v.enemies, Base())
        && baseHP == Drain(old(baseHP), BaseDamages(v.enemies, Base()))
    {
      ShootAll(t);
      ContactAll();
    }

    /** The bullet loop of resolveCollisions, from the last bullet to the
        first. */
    method ShootAll(t: real)
      modifies this`bullets, this`enemies, this`score
      ensures var v := Fire(old(bullets), old(enemies), t);
        bullets == v.kept && enemies == v.enemies && score == old(score) + v.gain
    {
      ghost var bs0, es0, s0 := bullets, enemies, score;
      var i := |bullets|;
      assert bs0[i..] == [] && bs0[..i] == bs0;
      while i > 0
        invariant Shot(bs0, es0, s0, i, t)
      {
        i := i - 1;
        StrikeOne(i, t, bs0, es0, s0);
      }
      assert bs0[0..] == bs0 && bs0[..0] == [];
    }

    /** The base contact loop of resolveCollisions, from the last enemy to
        the first. */
    method ContactAll()
      modifies this`enemies, this`baseHP
      ensures enemies == BaseSurvivors(old(enemies), Base())
      ensures baseHP == Drain(old(baseHP), BaseDamages(old(enemies), Base()))
    {
      var base := Base();
      ghost var es1, hp0 := enemies, baseHP;
      var i := |enemies|;
      assert es1[i..] == [] && es1[..i] == es1;
      while i > 0
        invariant Resolved(es1, hp0, i, base)
      {
        i := i - 1;
        ContactOne(i, base, es1, hp0);
      }
      assert es1[0..] == es1 && es1[..0] == [];
    }

    /** update at time t, dt seconds after the previous frame: down and dir
        are the pointer state, move the enemy movement, draws and gapDraw the
        random draws of the spawns. */
    method Update(t: real, dt: real, down: bool, dir: Point, move: Enemy -> Point,
                  draws: nat -> SpawnDraw, gapDraw: real)
      requires Valid() && DrawsOk(draws, width, height)
      modifies this
      ensures Valid()
      ensures old(gameOver) ==> unchanged(this)
      ensures !old(gameOver) ==>
        var fire := MayFire(false, down, t, old(lastShotAt));
        var bs := LiveBullets(old(bullets) + (if fire then [Fired(Base(), dir, t)] else []), t, dt, width, height);
        var v := Fire(bs, MoveAll(old(enemies), move), t);
        var es := BaseSurvivors(v.enemies, Base());
        var o := OpenWave(old(CursorOf()), es == [], t, WAVE_FIFTHS);
        var k := DueBatch(o, t);
        lastShotAt == (if fire then t else old(lastShotAt))
        && bullets == v.kept && score == old(score) + v.gain
        && baseHP == Drain(old(baseHP), BaseDamages(v.enemies, Base()))
        && enemies == es + Batch(draws, k, o.wave, width, height)
        && CursorOf() == AfterBatch(o, k, t, GapFactor(gapDraw))
      ensures !old(gameOver) ==> forall b | b in bullets :: !Expired(b, t, width, height)
      ensures score >= old(score) && wave >= old(wave) && baseHP <= old(baseHP)
    {
      if !gameOver {
        Battle(t, dt, down, dir, move, draws, gapDraw);
        if baseHP <= 0 && !gameOver {
          gameOver := true;
        }
      }
    }

    /** The steps of update before the end-of-game check: tryShoot,
        updateBullets, updateEnemies, resolveCollisions and updateSpawns. */
    method Battle(t: real, dt: real, down: bool, dir: Point, move: Enemy -> Point,
                  draws: nat -> SpawnDraw, gapDraw: real)
      requires Inv() && !gameOver && DrawsOk(draws, width, height)
      modifies this`lastShotAt, this`bullets, this`enemies, this`score, this`baseHP
      modifies this`wave, this`groupLeft, this`nextGroupAt
      ensures var fire := MayFire(false, down, t, old(lastShotAt));
        var bs := LiveBullets(old(bullets) + (if fire then [Fired(Base(), dir, t)] else []), t, dt, width, height);
        var v := Fire(bs, MoveAll(old(enemies), move), t);
        var es := BaseSurvivors(v.enemies, Base());
        var o := OpenWave(old(CursorOf()), es == [], t, WAVE_FIFTHS);
        var k := DueBatch(o, t);
        lastShotAt == (if fire then t else old(lastShotAt))
        && bullets == v.kept && score == old(score) + v.gain
        && baseHP == Drain(old(baseHP), BaseDamages(v.enemies, Base()))
        && enemies == es + Batch(draws, k, o.wave, width, height)
        && CursorOf() == AfterBatch(o, k, t, GapFactor(gapDraw))
      ensures forall b | b in bullets :: !Expired(b, t, width, height)
      ensures Inv() && score >= old(score) && wave >= old(wave) && baseHP <= old(baseHP)
    {
      Advance(t, dt, down, dir);
      Engage(t, move, draws, gapDraw);
    }

    /** updateEnemies, resolveCollisions and updateSpawns. */
    method Engage(t: real, move: Enemy -> Point, draws: nat -> SpawnDraw, gapDraw: real)
      requires Inv() && !gameOver && DrawsOk(draws, width, height)
      modifies this`bullets, this`enemies, this`score, this`baseHP
      modifies this`wave, this`groupLeft, this`nextGroupAt
      ensures var v := Fire(old(bullets), MoveAll(old(enemies), move), t);
        var es := BaseSurvivors(v.enemies, Base());
        var o := OpenWave(old(CursorOf()), es == [], t, WAVE_FIFTHS);
        var k := DueBatch(o, t);
        bullets == v.kept && score == old(score) + v.gain
        && baseHP == Drain(old(baseHP), BaseDamages(v.enemies, Base()))
        && enemies == es + Batch(draws, k, o.wave, width, height)
        && CursorOf() == AfterBatch(o, k, t, GapFactor(gapDraw))
      ensures forall b | b in bullets :: b in old(bullets)
      ensures Inv() && score >= old(score) && wave >= old(wave) && baseHP <= old(baseHP)
    {
      Clash(t, move);
      UpdateSpawns(t, draws, gapDraw);
    }

    /** The first two steps of update: the shot and the bullets. */
    method Advance(t: real, dt: real, down: bool, dir: Point)
      requires BulletsOk(bullets)
      modifies this`lastShotAt, this`bullets
      ensures var fire := MayFire(gameOver, down, t, old(lastShotAt));
        lastShotAt == (if fire then t else old(lastShotAt))
        && bullets == LiveBullets(old(bullets) + (if fire then [Fired(Base(), dir, t)] else []), t, dt, width, height)
      ensures BulletsOk(bullets) && forall b | b in bullets :: !Expired(b, t, width, height)
    {
      ghost var bs0 := bullets;
      TryShoot(t, down, dir);
      ghost var bs1 := bullets;
      assert bs0 + [] == bs0;
      assert BulletsOk(bs1);
      UpdateBullets(t, dt);
      LiveBulletsSpec(bs1, t, dt, width, height);
    }

    /** The next two steps of update: the movement and the collisions. */
    method Clash(t: real, move: Enemy -> Point)
      requires Inv()
      modifies this`bullets, this`enemies, this`score, this`baseHP
      ensures var v := Fire(old(bullets), MoveAll(old(enemies), move), t);
        bullets == v.kept && score == old(score) + v.gain
        && enemies == BaseSurvivors(v.enemies, Base())
        && baseHP == Drain(old(baseHP), BaseDamages(v.enemies, Base()))
      ensures Inv() && score >= old(score) && baseHP <= old(baseHP)
      ensures forall b | b in bullets :: b in old(bullets)
    {
      ghost var es0 := enemies;
      UpdateEnemies(move);
      MoveKeepsEnemies(es0, move);
      ghost var bs2, es2, s2, hp2 := bullets, enemies, score, baseHP;
      ResolveCollisions(t);
      CollisionsKeepInv(bs2, es2, s2, hp2, t, Base());
    }

    /** resetGame at time now: the state starts over with the spawn cursor
        empty. */
    method ResetGame(now: real)
      modifies this
      ensures Valid()
      ensures baseHP == BASE_MAX_HP && score == 0 && enemies == [] && bullets == []
      ensures CursorOf() == Cursor(1, 0, now + 1000.0) && lastShotAt == NEVER_SHOT
    {
      baseHP := BASE_MAX_HP;
      score := 0;
      wave := 1;
      enemies := [];
      bullets := [];
      nextGroupAt := now + 1000.0;
      groupLeft := 0;
      lastShotAt := NEVER_SHOT;
      gameOver := false;
    }
  }
}
