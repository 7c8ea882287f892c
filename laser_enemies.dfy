/** The enemies of the hit-scan shooter (laser.js): the fixed stat table, the
    enemy record built by makeEnemy, the type drawn by spawnEnemy, the
    battery carrier's ACTIVE / HIDDEN timer and the spawner's child cap. */
module LaserEnemies {
  import opened JsNum
  import opened Geometry

  datatype Kind = GRUNT | RUNNER | SPAWNER | MINION | BATTERY_CARRIER | ZIGZAG

  /** One row of ENEMY_STATS. */
  datatype Stats = Stats(speed: real, hp: int, radius: real, dmg: int)

  function StatsOf(k: Kind): (s: Stats)
    ensures s.hp > 0 && s.dmg > 0 && s.radius > 0.0 && s.speed > 0.0
  {
    match k
    case GRUNT => Stats(70.0, 30, 16.0, 4)
    case RUNNER => Stats(110.0, 18, 14.0, 3)
    case SPAWNER => Stats(50.0, 60, 18.0, 6)
    case MINION => Stats(95.0, 12, 12.0, 2)
    case BATTERY_CARRIER => Stats(80.0, 28, 16.0, 4)
    case ZIGZAG => Stats(85.0, 26, 15.0, 4)
  }

  const ACTIVE_TIME: real := 5000.0
  const HIDDEN_TIME: real := 3000.0
  const ZIG_AMP: real := 140.0
  const ZIG_FREQ_HZ: real := 1.2
  const MAX_CHILDREN: int := 4

  datatype Phase = ACTIVE | HIDDEN

  /** The carrier's extra fields: phase, the time of the next switch, and the
      battery gauge shown while ACTIVE. */
  datatype Battery = Battery(phase: Phase, nextPhaseAt: real, batteryTotal: real, batteryLeft: real)

  /** An enemy record. nextSpawnAt and parentId are the fields makeEnemy would
      copy from its extra argument; it never reads that argument, so they are
      always absent. */
  datatype Enemy = Enemy(
    id: int, kind: Kind, pos: Point,
    hp: int, maxHp: int, speed: real, dmg: int, radius: real,
    blinkUntil: real, bornT: real,
    zigAmp: real, zigFreqHz: real, zigSign: int,
    nextSpawnAt: Option<real>, parentId: Option<int>,
    battery: Option<Battery>)

  /** The fields an enemy keeps from its row of the stat table. */
  predicate FromTable(e: Enemy)
  {
    var s := StatsOf(e.kind);
    e.maxHp == s.hp && e.speed == s.speed && e.dmg == s.dmg && e.radius == s.radius
    && (e.battery.Some? <==> e.kind == BATTERY_CARRIER)
    && e.nextSpawnAt.None? && e.parentId.None?
    && (e.zigSign == -1 || e.zigSign == 1)
  }

  /** An enemy of the list: built from the table, alive, and never a minion. */
  predicate Alive(e: Enemy)
  {
    FromTable(e) && 0 < e.hp <= e.maxHp && e.kind != MINION
  }

  /** makeEnemy(kind, p.x, p.y) with the given id, at time now, with zigRoll the
      draw that fixes the sign of the zigzag. */
  function NewEnemy(id: int, kind: Kind, p: Point, now: real, zigRoll: real): (e: Enemy)
    ensures FromTable(e) && e.id == id && e.kind == kind && e.pos == p
    ensures e.hp == e.maxHp && e.blinkUntil == 0.0 && e.bornT == now
    ensures kind == BATTERY_CARRIER ==>
      e.battery == Some(Battery(ACTIVE, now + ACTIVE_TIME, ACTIVE_TIME, ACTIVE_TIME))
    ensures e.zigSign == (if zigRoll < 0.5 then -1 else 1)
  {
    var s := StatsOf(kind);
    Enemy(id, kind, p, s.hp, s.hp, s.speed, s.dmg, s.radius, 0.0, now,
      if kind == ZIGZAG then ZIG_AMP else 0.0,
      if kind == ZIGZAG then ZIG_FREQ_HZ else 0.0,
      if zigRoll < 0.5 then -1 else 1,
      None, None,
      if kind == BATTERY_CARRIER then Some(Battery(ACTIVE, now + ACTIVE_TIME, ACTIVE_TIME, ACTIVE_TIME)) else None)
  }

  // ---------------------------------------------------------------------------
  // Type draw of spawnEnemy

  function RunnerRatio(wave: int): real { MinR(0.35 + (wave - 1) as real * 0.03, 0.65) }
  function SpawnerRatio(wave: int): real { MinR(0.10 + (wave - 1) as real * 0.02, 0.20) }
  function CarrierRatio(wave: int): real { MinR(0.08 + (wave - 1) as real * 0.01, 0.15) }
  function ZigzagRatio(wave: int): real { MinR(0.12 + (wave - 1) as real * 0.02, 0.30) }

  /** The type chosen for a roll: spawner, runner, carrier and zigzag take
      consecutive slices of [0, 1) in that order, grunt the rest. */
  function TypeForRoll(wave: int, roll: real): Kind
  {
    var sp, ru, ca, zz := SpawnerRatio(wave), RunnerRatio(wave), CarrierRatio(wave), ZigzagRatio(wave);
    if roll < sp then SPAWNER
    else if roll < sp + ru then RUNNER
    else if roll < sp + ru + ca then BATTERY_CARRIER
    else if roll < sp + ru + ca + zz then ZIGZAG
    else GRUNT
  }

  /** The draw never yields a minion, and a grunt exactly when the roll is past
      the four slices; from wave 6 on the slices cover [0, 1), so a roll of
      Math.random() never yields a grunt. */
  lemma TypeForRollSpec(wave: int, roll: real)
    requires wave >= 1
    ensures TypeForRoll(wave, roll) != MINION
    ensures TypeForRoll(wave, roll) == GRUNT <==>
      roll >= SpawnerRatio(wave) + RunnerRatio(wave) + CarrierRatio(wave) + ZigzagRatio(wave)
    ensures wave >= 6 && roll < 1.0 ==> TypeForRoll(wave, roll) != GRUNT
  {
    if wave >= 6 {
      assert (wave - 1) as real >= 5.0;
      assert SpawnerRatio(wave) == 0.20;
      assert RunnerRatio(wave) >= 0.50;
      assert CarrierRatio(wave) >= 0.13;
      assert ZigzagRatio(wave) >= 0.22;
    }
  }

  // ---------------------------------------------------------------------------
  // Battery carrier

  /** One frame of the carrier timer at time t. */
  function UpdateBattery(b: Battery, t: real): Battery
  {
    match b.phase
    case ACTIVE =>
      var left := MaxR(0.0, b.nextPhaseAt - t);
      if t >= b.nextPhaseAt then b.(phase := HIDDEN, nextPhaseAt := t + HIDDEN_TIME, batteryLeft := left)
      else b.(batteryLeft := left)
    case HIDDEN =>
      if t >= b.nextPhaseAt then b.(phase := ACTIVE, nextPhaseAt := t + ACTIVE_TIME, batteryLeft := ACTIVE_TIME)
      else b
  }

  /** The timer of a carrier observed at time t: the gauge is within [0, 5000]
      and the next switch is at most one phase length ahead. */
  predicate BatteryOk(b: Battery, t: real)
  {
    b.batteryTotal == ACTIVE_TIME && 0.0 <= b.batteryLeft <= ACTIVE_TIME
    && b.nextPhaseAt <= t + (if b.phase == ACTIVE then ACTIVE_TIME else HIDDEN_TIME)
  }

  /** The phase switches exactly when the switch time is reached, to the other
      phase, with the next switch one phase length later; the gauge is refilled
      on waking up and runs down while ACTIVE. */
  lemma UpdateBatterySpec(b: Battery, t: real)
    ensures var b' := UpdateBattery(b, t);
      (b'.phase != b.phase <==> t >= b.nextPhaseAt)
      && (t >= b.nextPhaseAt ==>
            b'.nextPhaseAt == t + (if b'.phase == ACTIVE then ACTIVE_TIME else HIDDEN_TIME))
      && (t < b.nextPhaseAt ==> b'.nextPhaseAt == b.nextPhaseAt)
      && (b.phase == HIDDEN && t >= b.nextPhaseAt ==> b'.batteryLeft == ACTIVE_TIME)
      && (b.phase == ACTIVE ==> b'.batteryLeft == MaxR(0.0, b.nextPhaseAt - t))
      && b'.batteryTotal == b.batteryTotal
  {
  }

  /** A fresh carrier's timer is in range, and a frame at a later time keeps it so. */
  lemma BatteryStaysInRange(b: Battery, t0: real, t: real)
    requires BatteryOk(b, t0) && t0 <= t
    ensures BatteryOk(UpdateBattery(b, t), t)
  {
  }

  lemma NewCarrierBatteryOk(id: int, p: Point, now: real, zigRoll: real)
    ensures BatteryOk(NewEnemy(id, BATTERY_CARRIER, p, now, zigRoll).battery.value, now)
  {
  }

  // ---------------------------------------------------------------------------
  // Spawner

  /** The guard of the minion spawn: t >= e.nextSpawnAt, false when the field is
      absent (a comparison with undefined). */
  predicate SpawnerDue(e: Enemy, t: real)
  {
    e.kind == SPAWNER && e.nextSpawnAt.Some? && t >= e.nextSpawnAt.value
  }

  function CountChildren(es: seq<Enemy>, id: int): (n: int)
    ensures 0 <= n <= |es|
  {
    if es == [] then 0
    else (if es[0].kind == MINION && es[0].parentId == Some(id) then 1 else 0) + CountChildren(es[1..], id)
  }

  /** How many minions a due spawner adds: two at a time, up to four children. */
  function MinionsToSpawn(children: int): (k: int)
    ensures 0 <= k <= 2
    ensures children < MAX_CHILDREN ==> k > 0 && children + k <= MAX_CHILDREN
    ensures children >= MAX_CHILDREN ==> k == 0
  {
    if children < MAX_CHILDREN then MinI(2, MAX_CHILDREN - children) else 0
  }

  /** No enemy built by makeEnemy is ever due to spawn minions. */
  lemma SpawnersNeverDue(e: Enemy, t: real)
    requires FromTable(e)
    ensures !SpawnerDue(e, t)
  {
  }

  // ---------------------------------------------------------------------------
  // Score

  /** The points for a kill. */
  function KillPoints(k: Kind): (p: int)
    ensures p > 0
  {
    if k == MINION then 6 else if k == RUNNER then 12 else if k == SPAWNER then 20 else 10
  }

  // ---------------------------------------------------------------------------
  // Spawn position

  /** The random draws of one spawnEnemy call: the side, the position along it,
      the type roll and the zigzag sign roll, each a Math.random() value. */
  datatype SpawnDraw = SpawnDraw(side: real, along: real, roll: real, zig: real)

  /** Spawns come only from the top and left edges, 20 px outside the screen. */
  function SpawnPoint(d: SpawnDraw, w: real, h: real): (p: Point)
    ensures p.y == -20.0 || p.x == -20.0
  {
    if d.side < 0.5 then Point(40.0 + d.along * (w - 40.0 - 40.0), -20.0)
    else Point(-20.0, 40.0 + d.along * (h - 40.0 - 40.0))
  }
}
