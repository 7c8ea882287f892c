/** The state record of the hit-scan shooter (laser.js) and the step functions
    that update it in place each frame: spawning, the shot, enemy movement and
    the battery timer, base contact, beam expiry, the game-over transition and
    the reset. Randomness, the clock and the movement rule are parameters. */
module LaserGame {
  import opened JsNum
  import opened Geometry
  import opened Arena
  import opened LaserEnemies
  import opened LaserCombat
  import opened Seqs

  const BASE_MAX_HP: int := 1
  /** The wave growth 2.4, in fifths. */
  const WAVE_FIFTHS: int := 12
  /** lastShotAt before the first shot: -1e9. */
  const NEVER_SHOT: real := -1000000000.0

  // ---------------------------------------------------------------------------
  // Death message

  const DEATH_THRESHOLDS: seq<int> := [20, 50, 100, 200, 350, 500]

  const DEATH_MESSAGES: seq<string> := [
    "\U{1F480} Tu as cliqu\U{E9} trop tard\U{2026} La base est tomb\U{E9}e.",
    "\U{26A0}\U{FE0F} Pas mal ! Mais les vagues t\U{2019}ont submerg\U{E9}.",
    "\U{1F525} Beau combat ! Encore un peu et tu tenais la ligne.",
    "\U{1F3C6} H\U{E9}ros d\U{E9}chu\U{2026} Ta l\U{E9}gende survivra.",
    "\U{1F32A}\U{FE0F} Tu as tenu contre l\U{2019}orage, mais la temp\U{EA}te a gagn\U{E9}.",
    "\U{1F6E1}\U{FE0F} Rempart d\U{2019}acier ! Une d\U{E9}faite honorable.",
    "\U{2728} Mythique. M\U{EA}me les algos s\U{2019}inclinent devant toi."
  ]

  /** How many of the thresholds the score has reached. */
  function Reached(score: int, ths: seq<int>): (n: nat)
    ensures n <= |ths|
  {
    if ths == [] then 0 else (if score >= ths[0] then 1 else 0) + Reached(score, ths[1..])
  }

  /** getDeathMessage: the message of the score's band, one band per threshold
      reached. */
  function DeathMessage(score: int): (m: string)
    ensures m == DEATH_MESSAGES[Reached(score, DEATH_THRESHOLDS)]
  {
    ReachedBands(score);
    if score < 20 then DEATH_MESSAGES[0]
    else if score < 50 then DEATH_MESSAGES[1]
    else if score < 100 then DEATH_MESSAGES[2]
    else if score < 200 then DEATH_MESSAGES[3]
    else if score < 350 then DEATH_MESSAGES[4]
    else if score < 500 then DEATH_MESSAGES[5]
    else DEATH_MESSAGES[6]
  }

  /** The bands of getDeathMessage: how many of its thresholds a score reaches. */
  lemma ReachedBands(score: int)
    ensures Reached(score, DEATH_THRESHOLDS) ==
      if score < 20 then 0 else if score < 50 then 1 else if score < 100 then 2
      else if score < 200 then 3 else if score < 350 then 4 else if score < 500 then 5 else 6
  {
    var ths := DEATH_THRESHOLDS;
    var t1 := ths[1..];
    var t2 := t1[1..];
    var t3 := t2[1..];
    var t4 := t3[1..];
    var t5 := t4[1..];
    assert t5 == [500] && t5[1..] == [];
    assert Reached(score, t5) == (if score >= 500 then 1 else 0);
    assert t4 == [350, 500];
    assert Reached(score, t4) == (if score >= 350 then 1 else 0) + Reached(score, t5);
    assert t3 == [200, 350, 500];
    assert Reached(score, t3) == (if score >= 200 then 1 else 0) + Reached(score, t4);
    assert t2 == [100, 200, 350, 500];
    assert Reached(score, t2) == (if score >= 100 then 1 else 0) + Reached(score, t3);
    assert t1 == [50, 100, 200, 350, 500];
    assert Reached(score, t1) == (if score >= 50 then 1 else 0) + Reached(score, t2);
    assert Reached(score, ths) == (if score >= 20 then 1 else 0) + Reached(score, t1);
  }

  /** A higher score never gets a lower band. */
  lemma {:induction false} ReachedMonotone(s1: int, s2: int, ths: seq<int>)
    requires s1 <= s2
    ensures Reached(s1, ths) <= Reached(s2, ths)
  {
    if ths != [] {
      ReachedMonotone(s1, s2, ths[1..]);
    }
  }

  // ---------------------------------------------------------------------------
  // Spawns

  /** The enemy spawnEnemy adds for the draw d, with the given id. */
  function Spawned(d: SpawnDraw, id: int, wave: int, t: real, w: real, h: real): Enemy
  {
    NewEnemy(id, TypeForRoll(wave, d.roll), SpawnPoint(d, w, h), t, d.zig)
  }

  /** The n enemies of a batch, drawn from draws(0) .. draws(n - 1), with ids
      from id0 on, in the order they are pushed. */
  function Batch(draws: nat -> SpawnDraw, n: nat, id0: int, wave: int, t: real, w: real, h: real): (r: seq<Enemy>)
    ensures |r| == n
  {
    if n == 0 then []
    else Batch(draws, n - 1, id0, wave, t, w, h) + [Spawned(draws(n - 1), id0 + n - 1, wave, t, w, h)]
  }

  /** The i-th enemy of a batch comes from the i-th draw and gets the i-th id. */
  lemma {:induction false} BatchSpec(draws: nat -> SpawnDraw, n: nat, id0: int, wave: int, t: real, w: real, h: real)
    ensures forall i | 0 <= i < n :: Batch(draws, n, id0, wave, t, w, h)[i] == Spawned(draws(i), id0 + i, wave, t, w, h)
  {
    if n > 0 {
      BatchSpec(draws, n - 1, id0, wave, t, w, h);
    }
  }

  // ---------------------------------------------------------------------------
  // Movement and the carrier timer

  /** One frame of updateEnemies for one enemy: the carrier's timer runs, then
      the enemy moves to move(e), whatever its phase. */
  function FrameEnemy(e: Enemy, t: real, move: Enemy -> Point): (r: Enemy)
    ensures r.(pos := e.pos, battery := e.battery) == e
    ensures r.battery.Some? <==> e.battery.Some?
    ensures e.kind == BATTERY_CARRIER && e.battery.Some? ==> r.battery == Some(UpdateBattery(e.battery.value, t))
    ensures e.kind != BATTERY_CARRIER ==> r.battery == e.battery
  {
    var e1 := if e.kind == BATTERY_CARRIER && e.battery.Some? then e.(battery := Some(UpdateBattery(e.battery.value, t))) else e;
    e1.(pos := move(e1))
  }

  function FrameAll(es: seq<Enemy>, t: real, move: Enemy -> Point): (r: seq<Enemy>)
    ensures |r| == |es|
    ensures forall i | 0 <= i < |es| :: r[i] == FrameEnemy(es[i], t, move)
  {
    if es == [] then [] else [FrameEnemy(es[0], t, move)] + FrameAll(es[1..], t, move)
  }

  /** A carrier whose timer is in range at t0 keeps it in range at a later frame. */
  lemma FrameKeepsBattery(e: Enemy, t0: real, t: real, move: Enemy -> Point)
    requires e.kind == BATTERY_CARRIER && e.battery.Some? && BatteryOk(e.battery.value, t0) && t0 <= t
    ensures BatteryOk(FrameEnemy(e, t, move).battery.value, t)
  {
    BatteryStaysInRange(e.battery.value, t0, t);
  }

  /** Moving the enemies and running their timers keeps the list well formed. */
  lemma FrameKeepsEnemiesOk(es: seq<Enemy>, t: real, move: Enemy -> Point, n: int)
    requires EnemiesOk(es, n)
    ensures EnemiesOk(FrameAll(es, t, move), n)
  {
    var r := FrameAll(es, t, move);
    assert forall i | 0 <= i < |es| :: r[i].id == es[i].id;
  }

  /** A fresh enemy with the counter as its id can be appended. */
  lemma SpawnKeepsEnemiesOk(es: seq<Enemy>, n: int, e: Enemy)
    requires EnemiesOk(es, n) && Alive(e) && e.id == n
    ensures EnemiesOk(es + [e], n + 1)
  {
  }

  // ---------------------------------------------------------------------------
  // The first three steps of update

  /** The fields that tryShoot, updateEnemies and resolveCollisions act on. */
  datatype Fought = Fought(enemies: seq<Enemy>, baseHP: int, score: int, lastShotAt: real, beams: seq<Beam>)

  /** tryShoot, updateEnemies and resolveCollisions in a row. When fire holds
      (tryShoot's guard), the shot goes from a towards edge. Then every enemy
      gets one frame of movement, and then base contact is applied. A frame
      never adds enemies, and only the shot adds a beam. */
  function FightOf(es: seq<Enemy>, hp: int, score: int, lastShotAt: real, beams: seq<Beam>,
                   fire: bool, a: Point, edge: Point, t: real, move: Enemy -> Point): (r: Fought)
    ensures |r.enemies| <= |es|
    ensures |r.beams| == |beams| + (if fire then 1 else 0) && r.beams[..|beams|] == beams
  {
    var es1 := if fire then ShotSurvivors(es, a, edge, t) else es;
    var es2 := FrameAll(es1, t, move);
    Fought(BaseSurvivors(es2, a), Drain(hp, BaseDamages(es2, a)),
           score + (if fire then ShotScore(es, a, edge) else 0),
           if fire then t else lastShotAt,
           beams + (if fire then [Beam(a, BeamEnd(es, a, edge), t + BEAM_DURATION)] else []))
  }

  /** The first three steps of update keep the enemy list well formed. The
      base stays within [0, what it was] and the score does not fall. */
  lemma FightKeepsInv(es: seq<Enemy>, hp: int, score: int, lastShotAt: real, beams: seq<Beam>,
                      fire: bool, a: Point, edge: Point, t: real, move: Enemy -> Point, n: int)
    requires EnemiesOk(es, n) && 0 <= hp
    ensures var r := FightOf(es, hp, score, lastShotAt, beams, fire, a, edge, t, move);
      EnemiesOk(r.enemies, n) && 0 <= r.baseHP <= hp && r.score >= score
  {
    var es1 := if fire then ShotSurvivors(es, a, edge, t) else es;
    ShotKeepsEnemiesOk(es, a, edge, t, n);
    FrameKeepsEnemiesOk(es1, t, move, n);
    BaseKeepsEnemiesOk(FrameAll(es1, t, move), a, hp, n);
  }

  // ---------------------------------------------------------------------------
  // The game

  class Game {
    const width: real
    const height: real
    var baseHP: int
    var score: int
    var wave: int
    var nextGroupAt: real
    var groupLeft: int
    var lastShotAt: real
    var enemies: seq<Enemy>
    var beams: seq<Beam>
    var gameOver: bool
    var deathMessage: string
    /** The global id counter of makeEnemy. */
    var nextId: int

    function Base(): Point
    {
      BasePos(width, height)
    }

    function CursorOf(): Cursor
      reads this`wave, this`groupLeft, this`nextGroupAt
    {
      Cursor(wave, groupLeft, nextGroupAt)
    }

    /** Ids ascend in list order and are below the counter; every enemy is
        alive and from the table; the base, score and spawn cursor are in range. */
    ghost predicate Inv()
      reads this`enemies, this`nextId, this`baseHP, this`score, this`wave, this`groupLeft, this`nextGroupAt
    {
      EnemiesOk(enemies, nextId)
      && 0 <= baseHP <= BASE_MAX_HP && score >= 0
      && CursorOk(CursorOf())
    }

    /** The game is over exactly when the base is down, and then the message
        is the one for the score. */
    ghost predicate Valid()
      reads this`enemies, this`nextId, this`baseHP, this`score, this`wave, this`groupLeft, this`nextGroupAt
      reads this`gameOver, this`deathMessage
    {
      Inv() && (gameOver <==> baseHP == 0)
      && deathMessage == (if gameOver then DeathMessage(score) else "")
    }

    /** The state literal followed by the first scheduleWave. */
    constructor (w: real, h: real, now: real)
      ensures width == w && height == h && Valid()
      ensures baseHP == BASE_MAX_HP && score == 0 && lastShotAt == NEVER_SHOT
      ensures CursorOf() == Arena.ScheduleWave(1, now, WAVE_FIFTHS)
      ensures enemies == [] && beams == [] && !gameOver && nextId == 1
    {
      width, height := w, h;
      baseHP := BASE_MAX_HP;
      score := 0;
      wave := 1;
      nextGroupAt := now + 1000.0;
      groupLeft := 0;
      lastShotAt := NEVER_SHOT;
      enemies := [];
      beams := [];
      gameOver := false;
      deathMessage := "";
      nextId := 1;
      new;
      ScheduleWave(now);
    }

    method ScheduleWave(now: real)
      modifies this`groupLeft, this`nextGroupAt
      ensures CursorOf() == Arena.ScheduleWave(wave, now, WAVE_FIFTHS)
    {
      groupLeft := WaveTotal(wave, WAVE_FIFTHS);
      nextGroupAt := now + 500.0;
    }

    /** makeEnemy: the record for the current counter, which moves on by one. */
    method MakeEnemy(kind: Kind, p: Point, now: real, zigRoll: real) returns (e: Enemy)
      modifies this`nextId
      ensures e == NewEnemy(old(nextId), kind, p, now, zigRoll) && nextId == old(nextId) + 1
    {
      e := NewEnemy(nextId, kind, p, now, zigRoll);
      nextId := nextId + 1;
    }

    /** spawnEnemy for a draw whose point is far enough from the base. */
    method SpawnEnemy(d: SpawnDraw, t: real)
      requires Inv()
      requires FarFromBase(SpawnPoint(d, width, height), Base())
      modifies this`enemies, this`nextId
      ensures enemies == old(enemies) + [Spawned(d, old(nextId), wave, t, width, height)]
      ensures nextId == old(nextId) + 1 && Inv()
    {
      var p := SpawnPoint(d, width, height);
      var kind := TypeForRoll(wave, d.roll);
      TypeForRollSpec(wave, d.roll);
      // The spawner's extra argument is not read by makeEnemy.
      var e := MakeEnemy(kind, p, t, d.zig);
      SpawnKeepsEnemiesOk(enemies, e.id, e);
      enemies := enemies + [e];
    }

    /** The loop of updateSpawns that releases a batch of count enemies. */
    method SpawnBatch(count: nat, t: real, draws: nat -> SpawnDraw)
      requires Inv()
      requires forall i: nat :: FarFromBase(SpawnPoint(draws(i), width, height), Base())
      modifies this`enemies, this`nextId
      ensures enemies == old(enemies) + Batch(draws, count, old(nextId), wave, t, width, height)
      ensures nextId == old(nextId) + count && Inv()
    {
      ghost var es0, id0 := enemies, nextId;
      for i := 0 to count
        invariant enemies == es0 + Batch(draws, i, id0, wave, t, width, height)
        invariant nextId == id0 + i && Inv()
      {
        SpawnEnemy(draws(i), t);
      }
    }

    /** updateSpawns at time t: draws(i) are the draws of the i-th enemy of the
        batch and gapDraw the draw of the next gap. */
    method UpdateSpawns(t: real, draws: nat -> SpawnDraw, gapDraw: real)
      requires Inv()
      requires forall i: nat :: FarFromBase(SpawnPoint(draws(i), width, height), Base())
      modifies this`enemies, this`nextId, this`wave, this`groupLeft, this`nextGroupAt
      ensures gameOver ==> CursorOf() == old(CursorOf()) && enemies == old(enemies) && nextId == old(nextId)
      ensures !gameOver ==>
        var o := OpenWave(old(CursorOf()), old(enemies) == [], t, WAVE_FIFTHS);
        var k := DueBatch(o, t);
        CursorOf() == AfterBatch(o, k, t, GapFactor(gapDraw))
        && enemies == old(enemies) + Batch(draws, k, old(nextId), o.wave, t, width, height)
        && nextId == old(nextId) + k
      ensures wave >= old(wave) && Inv()
    {
      if gameOver {
        return;
      }
      NextWave(t);
      ReleaseBatch(t, draws, gapDraw);
    }

    /** The first half of updateSpawns: the next wave is scheduled when this
        one is used up and the field is clear. */
    method NextWave(t: real)
      requires Inv()
      modifies this`wave, this`groupLeft, this`nextGroupAt
      ensures CursorOf() == OpenWave(old(CursorOf()), enemies == [], t, WAVE_FIFTHS)
      ensures wave >= old(wave) && Inv()
    {
      if groupLeft <= 0 && |enemies| == 0 {
        wave := wave + 1;
        ScheduleWave(t);
      }
    }

    /** The second half of updateSpawns: the batch due at t, if any, is
        released with the next ids, and the next gap drawn. */
    method ReleaseBatch(t: real, draws: nat -> SpawnDraw, gapDraw: real)
      requires Inv()
      requires forall i: nat :: FarFromBase(SpawnPoint(draws(i), width, height), Base())
      modifies this`enemies, this`nextId, this`groupLeft, this`nextGroupAt
      ensures var k := DueBatch(old(CursorOf()), t);
        CursorOf() == AfterBatch(old(CursorOf()), k, t, GapFactor(gapDraw))
        && enemies == old(enemies) + Batch(draws, k, old(nextId), wave, t, width, height)
        && nextId == old(nextId) + k
      ensures Inv()
    {
      if t > nextGroupAt && groupLeft > 0 {
        var count := MinI(4 + wave / 3, groupLeft);
        SpawnBatch(count, t, draws);
        groupLeft := groupLeft - count;
        nextGroupAt := t + WAVE_INTERVAL * GapFactor(gapDraw);
      }
    }

    /** tryShoot at time t with the button state and pointer position. */
    method TryShoot(t: real, down: bool, mouse: Point)
      requires Inv()
      modifies this`lastShotAt, this`enemies, this`score, this`beams
      ensures !MayFire(gameOver, down, t, old(lastShotAt)) ==>
        lastShotAt == old(lastShotAt) && enemies == old(enemies) && score == old(score) && beams == old(beams)
      ensures MayFire(gameOver, down, t, old(lastShotAt)) ==>
        var a := Base();
        var edge := RayToScreenEdge(a, mouse, width, height);
        lastShotAt == t
        && enemies == ShotSurvivors(old(enemies), a, edge, t)
        && score == old(score) + ShotScore(old(enemies), a, edge)
        && beams == old(beams) + [Beam(a, BeamEnd(old(enemies), a, edge), t + BEAM_DURATION)]
      ensures score >= old(score) && Inv()
    {
      if gameOver {
        return;
      }
      if !down || t - lastShotAt < COOLDOWN {
        return;
      }
      Shoot(t, mouse);
    }

    /** The shot of tryShoot once it is allowed: the beam from the base
        towards mouse, cut at the nearest enemy it hits. */
    method Shoot(t: real, mouse: Point)
      requires Inv()
      modifies this`lastShotAt, this`enemies, this`score, this`beams
      ensures var a := Base();
        var edge := RayToScreenEdge(a, mouse, width, height);
        lastShotAt == t
        && enemies == ShotSurvivors(old(enemies), a, edge, t)
        && score == old(score) + ShotScore(old(enemies), a, edge)
        && beams == old(beams) + [Beam(a, BeamEnd(old(enemies), a, edge), t + BEAM_DURATION)]
      ensures score >= old(score) && Inv()
    {
      lastShotAt := t;
      var a := Base();
      var edge := RayToScreenEdge(a, mouse, width, height);
      ghost var es0 := enemies;
      var anyHit, nearest := Sweep(a, edge, t);
      beams := beams + [Beam(a, if anyHit then nearest.at else edge, t + BEAM_DURATION)];
      ShotKeepsEnemiesOk(es0, a, edge, t, nextId);
    }

    /** The loop of tryShoot over the enemies, last first, along the segment
        from a to edge: hit enemies are damaged, killed ones removed and
        scored, and the nearest impact is tracked. */
    method Sweep(a: Point, edge: Point, t: real) returns (anyHit: bool, nearest: Impact)
      modifies this`enemies, this`score
      ensures enemies == ShotSurvivors(old(enemies), a, edge, t)
      ensures score == old(score) + ShotScore(old(enemies), a, edge)
      ensures nearest == NearestImpact(old(enemies), a, edge)
      ensures anyHit == AnyHit(old(enemies), a, edge)
    {
      nearest := Impact(1.0, edge);
      anyHit := false;
      ghost var es0, s0 := enemies, score;
      var i := |enemies|;
      assert es0[i..] == [] && es0[..i] == es0;
      while i > 0
        invariant Swept(es0, s0, i, a, edge, t, anyHit, nearest)
      {
        i := i - 1;
        anyHit, nearest := SweepOne(i, a, edge, t, anyHit, nearest, es0, s0);
      }
      assert es0[0..] == es0 && es0[..0] == [];
    }

    /** The state of the sweep once the enemies from index i on are done. */
    ghost predicate Swept(es0: seq<Enemy>, s0: int, i: int, a: Point, edge: Point, t: real,
                          anyHit: bool, nearest: Impact)
      reads this`enemies, this`score
    {
      0 <= i <= |es0|
      && enemies == es0[..i] + ShotSurvivors(es0[i..], a, edge, t)
      && score == s0 + ShotScore(es0[i..], a, edge)
      && nearest == NearestImpact(es0[i..], a, edge)
      && anyHit == AnyHit(es0[i..], a, edge)
    }

    /** One turn of the sweep, on the enemy at index i. */
    method SweepOne(i: int, a: Point, edge: Point, t: real, anyHit0: bool, nearest0: Impact,
                    ghost es0: seq<Enemy>, ghost s0: int)
      returns (anyHit: bool, nearest: Impact)
      requires 0 <= i && Swept(es0, s0, i + 1, a, edge, t, anyHit0, nearest0)
      modifies this`enemies, this`score
      ensures Swept(es0, s0, i, a, edge, t, anyHit, nearest)
    {
      anyHit, nearest := anyHit0, nearest0;
      ghost var tail := ShotSurvivors(es0[i + 1..], a, edge, t);
      assert es0[i..][0] == es0[i] && es0[i..][1..] == es0[i + 1..];
      assert enemies == es0[..i] + ([es0[i]] + tail) by {
        assert es0[..i + 1] == es0[..i] + [es0[i]];
      }
      var e := enemies[i];
      var res := LaserCombat.Contact(e, a, edge);
      if !res.Hit? {
        return;
      }
      anyHit := true;
      e := e.(hp := e.hp - HITSCAN_DAMAGE, blinkUntil := t + BEAM_DURATION);
      SpliceAt(es0[..i], es0[i], e, tail);
      enemies := enemies[i := e];
      if e.hp <= 0 {
        score := score + KillPoints(e.kind);
        enemies := enemies[..i] + enemies[i + 1..];
      }
      if res.t < nearest.t {
        nearest := Impact(res.t, res.at);
      }
    }

    /** updateEnemies at time t; move gives where an enemy goes this frame. */
    method UpdateEnemies(t: real, move: Enemy -> Point)
      requires Inv()
      modifies this`enemies
      ensures enemies == FrameAll(old(enemies), t, move)
      ensures Inv()
    {
      ghost var es0 := enemies;
      var i := 0;
      while i < |enemies|
        invariant 0 <= i <= |enemies| == |es0|
        invariant forall j | 0 <= j < i :: enemies[j] == FrameEnemy(es0[j], t, move)
        invariant forall j | i <= j < |es0| :: enemies[j] == es0[j]
      {
        var e := enemies[i];
        assert e in es0;
        if e.kind == BATTERY_CARRIER && e.battery.Some? {
          e := e.(battery := Some(UpdateBattery(e.battery.value, t)));
        }
        if SpawnerDue(e, t) {
          // No enemy carries nextSpawnAt, so the minion spawn never runs.
          assert false;
        }
        e := e.(pos := move(e));
        enemies := enemies[i := e];
        i := i + 1;
      }
      FrameKeepsEnemiesOk(es0, t, move, nextId);
    }

    /** resolveCollisions: the enemies touching the base are removed and drain it. */
    method ResolveCollisions()
      requires Inv()
      modifies this`enemies, this`baseHP
      ensures enemies == BaseSurvivors(old(enemies), Base())
      ensures baseHP == Drain(old(baseHP), BaseDamages(old(enemies), Base()))
      ensures baseHP == MaxI(0, old(baseHP) - Sum(BaseDamages(old(enemies), Base())))
      ensures baseHP <= old(baseHP) && Inv()
    {
      var base := Base();
      ghost var es0, hp0 := enemies, baseHP;
      var i := |enemies|;
      assert es0[i..] == [] && es0[..i] == es0;
      while i > 0
        invariant Resolved(es0, hp0, i, base)
      {
        i := i - 1;
        ResolveOne(i, base, es0, hp0);
      }
      assert es0[0..] == es0 && es0[..0] == [];
      BaseKeepsEnemiesOk(es0, base, hp0, nextId);
    }

    /** The state of the collision loop once the enemies from index i on are done. */
    ghost predicate Resolved(es0: seq<Enemy>, hp0: int, i: int, base: Point)
      reads this`enemies, this`baseHP
    {
      0 <= i <= |es0|
      && enemies == es0[..i] + BaseSurvivors(es0[i..], base)
      && baseHP == Drain(hp0, BaseDamages(es0[i..], base))
    }

    /** One turn of the collision loop, on the enemy at index i. */
    method ResolveOne(i: int, base: Point, ghost es0: seq<Enemy>, ghost hp0: int)
      requires 0 <= i && Resolved(es0, hp0, i + 1, base)
      modifies this`enemies, this`baseHP
      ensures Resolved(es0, hp0, i, base)
    {
      assert es0[i..][0] == es0[i] && es0[i..][1..] == es0[i + 1..];
      assert es0[..i + 1] == es0[..i] + [es0[i]];
      var e := enemies[i];
      assert e == es0[i];
      if TouchesBase(e.pos, e.radius, base) {
        baseHP := baseHP - e.dmg;
        enemies := enemies[..i] + enemies[i + 1..];
        if baseHP <= 0 {
          baseHP := 0;
        }
      }
    }

    /** The beam clean-up of update: the beams past their time are removed. */
    method ExpireBeams(t: real)
      modifies this`beams
      ensures beams == LiveBeams(old(beams), t)
      ensures forall b | b in beams :: b.until >= t
    {
      ghost var bs0 := beams;
      var i := |beams|;
      while i > 0
        invariant 0 <= i <= |bs0|
        invariant beams == bs0[..i] + LiveBeams(bs0[i..], t)
      {
        i := i - 1;
        assert bs0[i..] == [bs0[i]] + bs0[i + 1..];
        assert bs0[..i + 1] == bs0[..i] + [bs0[i]];
        assert beams[i] == bs0[i];
        if t > beams[i].until {
          beams := beams[..i] + beams[i + 1..];
        }
      }
      assert bs0[0..] == bs0 && bs0[..0] == [];
      LiveBeamsSpec(bs0, t, t);
    }

    /** update(t, dt) on one frame's inputs. */
    method Update(t: real, down: bool, mouse: Point, move: Enemy -> Point,
                  draws: nat -> SpawnDraw, gapDraw: real)
      requires Valid()
      requires forall i: nat :: FarFromBase(SpawnPoint(draws(i), width, height), Base())
      modifies this
      ensures Valid()
      ensures old(gameOver) ==> unchanged(this)
      ensures !old(gameOver) ==>
        var a := Base();
        var f := FightOf(old(enemies), old(baseHP), old(score), old(lastShotAt), old(beams),
                         MayFire(false, down, t, old(lastShotAt)), a, RayToScreenEdge(a, mouse, width, height), t, move);
        var o := OpenWave(old(CursorOf()), f.enemies == [], t, WAVE_FIFTHS);
        var k := DueBatch(o, t);
        enemies == f.enemies + Batch(draws, k, old(nextId), o.wave, t, width, height)
        && baseHP == f.baseHP && score == f.score && lastShotAt == f.lastShotAt
        && beams == LiveBeams(f.beams, t)
        && CursorOf() == AfterBatch(o, k, t, GapFactor(gapDraw)) && nextId == old(nextId) + k
      ensures !old(gameOver) ==> forall b | b in beams :: b.until >= t
      ensures score >= old(score) && wave >= old(wave) && baseHP <= old(baseHP)
    {
      if !gameOver {
        Battle(t, down, mouse, move, draws, gapDraw);
        Settle(t);
      }
    }

    /** The steps of update before the beam clean-up: tryShoot, updateEnemies,
        resolveCollisions and updateSpawns. */
    method Battle(t: real, down: bool, mouse: Point, move: Enemy -> Point,
                  draws: nat -> SpawnDraw, gapDraw: real)
      requires Inv() && !gameOver
      requires forall i: nat :: FarFromBase(SpawnPoint(draws(i), width, height), Base())
      modifies this`lastShotAt, this`enemies, this`score, this`beams, this`baseHP
      modifies this`nextId, this`wave, this`groupLeft, this`nextGroupAt
      ensures var a := Base();
        var f := FightOf(old(enemies), old(baseHP), old(score), old(lastShotAt), old(beams),
                         MayFire(false, down, t, old(lastShotAt)), a, RayToScreenEdge(a, mouse, width, height), t, move);
        var o := OpenWave(old(CursorOf()), f.enemies == [], t, WAVE_FIFTHS);
        var k := DueBatch(o, t);
        enemies == f.enemies + Batch(draws, k, old(nextId), o.wave, t, width, height)
        && baseHP == f.baseHP && score == f.score && lastShotAt == f.lastShotAt && beams == f.beams
        && CursorOf() == AfterBatch(o, k, t, GapFactor(gapDraw)) && nextId == old(nextId) + k
      ensures Inv() && score >= old(score) && wave >= old(wave) && baseHP <= old(baseHP)
    {
      Fight(t, down, mouse, move);
      UpdateSpawns(t, draws, gapDraw);
    }

    /** The end of update: the beam clean-up, then the end-of-game check. */
    method Settle(t: real)
      requires Inv() && !gameOver && deathMessage == ""
      modifies this`beams, this`gameOver, this`deathMessage
      ensures beams == LiveBeams(old(beams), t)
      ensures forall b | b in beams :: b.until >= t
      ensures Valid()
    {
      ExpireBeams(t);
      CheckDeath();
    }

    /** The end of update: the game is over once the base is down. */
    method CheckDeath()
      requires Inv() && !gameOver && deathMessage == ""
      modifies this`gameOver, this`deathMessage
      ensures Valid()
    {
      if baseHP <= 0 && !gameOver {
        gameOver := true;
        deathMessage := DeathMessage(score);
      }
    }

    /** The first three steps of update: the shot, the movement and the base
        contact. */
    method Fight(t: real, down: bool, mouse: Point, move: Enemy -> Point)
      requires Inv()
      modifies this`lastShotAt, this`enemies, this`score, this`beams, this`baseHP
      ensures var a := Base();
        Fought(enemies, baseHP, score, lastShotAt, beams)
        == FightOf(old(enemies), old(baseHP), old(score), old(lastShotAt), old(beams),
                   MayFire(gameOver, down, t, old(lastShotAt)), a, RayToScreenEdge(a, mouse, width, height), t, move)
      ensures Inv() && score >= old(score) && baseHP <= old(baseHP)
    {
      TryShoot(t, down, mouse);
      UpdateEnemies(t, move);
      ResolveCollisions();
    }

    /** resetGame at time now: everything but the id counter starts over, with
        the spawn cursor empty. */
    method ResetGame(now: real)
      modifies this
      ensures Valid()
      ensures baseHP == BASE_MAX_HP && score == 0 && enemies == [] && beams == []
      ensures CursorOf() == Cursor(1, 0, now + 1000.0) && lastShotAt == NEVER_SHOT
      ensures nextId == old(nextId)
    {
      baseHP := BASE_MAX_HP;
      score := 0;
      wave := 1;
      enemies := [];
      beams := [];
      nextGroupAt := now + 1000.0;
      groupLeft := 0;
      lastShotAt := NEVER_SHOT;
      gameOver := false;
      deathMessage := "";
    }
  }
}
