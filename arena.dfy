/** What the two shooters (laser.js and scrpit.js) share: the base in the
    bottom-right corner, the fire-rate gate, the wave and batch state machine of
    scheduleWave / updateSpawns, and the clamped drain of the base's hit points
    when enemies reach it. */
module Arena {
  import opened JsNum
  import opened Geometry

  const BASE_RADIUS: real := 46.0
  const MARGIN: real := 60.0
  /** PLAYER_FIRERATE is 7.5 shots per second. */
  const COOLDOWN: real := 1000.0 / 7.5
  const WAVE_INTERVAL: real := 2200.0
  /** A spawn point closer than this to the base is drawn again. */
  const MIN_SPAWN_DIST: real := 240.0

  /** The centre of the base (and of the player), MARGIN away from the
      right and bottom edges. */
  function BasePos(w: real, h: real): (p: Point)
    ensures w - p.x == MARGIN + BASE_RADIUS && h - p.y == MARGIN + BASE_RADIUS
  {
    Point(w - MARGIN - BASE_RADIUS, h - MARGIN - BASE_RADIUS)
  }

  /** tryShoot goes past its guard: the game is on, the button is held and the
      cooldown since the last shot has elapsed. */
  predicate MayFire(gameOver: bool, down: bool, t: real, lastShotAt: real)
  {
    !gameOver && down && !(t - lastShotAt < COOLDOWN)
  }

  /** A spawn point is kept when it is at least MIN_SPAWN_DIST from the base. */
  predicate FarFromBase(p: Point, base: Point)
  {
    !(Dist2(p, base) < MIN_SPAWN_DIST * MIN_SPAWN_DIST)
  }

  /** An enemy of the given radius at p touches the base. */
  predicate TouchesBase(p: Point, radius: real, base: Point)
  {
    Dist2(p, base) <= (BASE_RADIUS + radius) * (BASE_RADIUS + radius)
  }

  // ---------------------------------------------------------------------------
  // Waves and batches

  /** The number of enemies in a wave: Math.round(6 + (wave - 1) * p / 5), where
      p / 5 is 2.4 in laser.js and 2.2 in scrpit.js. A multiple of a fifth is
      never a tie, so the rounding is the integer quotient below. */
  function WaveTotal(wave: int, perWaveFifths: int): (n: int)
    ensures n == Round(6.0 + (wave - 1) as real * (perWaveFifths as real / 5.0))
  {
    var k := (wave - 1) * perWaveFifths;
    RoundFifths(30 + k);
    assert (30 + k) as real / 5.0 == 6.0 + (wave - 1) as real * (perWaveFifths as real / 5.0);
    (32 + k) / 5
  }

  /** The size of the next batch: 4 + floor(wave / 3), but no more than are left. */
  function BatchSize(wave: int, groupLeft: int): (k: int)
    requires wave >= 0 && groupLeft > 0
    ensures 1 <= k <= groupLeft && k <= 4 + wave / 3
    ensures k == groupLeft || k == 4 + wave / 3
  {
    MinI(4 + wave / 3, groupLeft)
  }

  /** The batches in which a wave with groupLeft enemies still to come is spawned. */
  function Batches(wave: int, groupLeft: int): seq<int>
    requires wave >= 0
    decreases groupLeft
  {
    if groupLeft <= 0 then []
    else
      var k := BatchSize(wave, groupLeft);
      [k] + Batches(wave, groupLeft - k)
  }

  function Sum(s: seq<int>): int
  {
    if s == [] then 0 else s[0] + Sum(s[1..])
  }

  /** Batch after batch, exactly the enemies announced for the wave are spawned,
      each batch holding between 1 and 4 + wave / 3 of them. */
  lemma {:induction false} BatchesSpawnTheWave(wave: int, groupLeft: int)
    requires wave >= 0 && groupLeft >= 0
    ensures Sum(Batches(wave, groupLeft)) == groupLeft
    ensures forall i | 0 <= i < |Batches(wave, groupLeft)| ::
      1 <= Batches(wave, groupLeft)[i] <= 4 + wave / 3
    decreases groupLeft
  {
    if groupLeft > 0 {
      var k := BatchSize(wave, groupLeft);
      BatchesSpawnTheWave(wave, groupLeft - k);
      var rest := Batches(wave, groupLeft - k);
      assert Batches(wave, groupLeft) == [k] + rest;
      assert forall i | 1 <= i < |rest| + 1 :: ([k] + rest)[i] == rest[i - 1];
    }
  }

  /** The spawn cursor of the state record: the wave number, how many enemies of
      the wave are still to come, and when the next batch is due. */
  datatype Cursor = Cursor(wave: int, groupLeft: int, nextGroupAt: real)

  predicate CursorOk(c: Cursor)
  {
    c.wave >= 1 && c.groupLeft >= 0
  }

  /** scheduleWave at time now. */
  function ScheduleWave(wave: int, now: real, perWaveFifths: int): (c: Cursor)
    ensures c.wave == wave && c.nextGroupAt == now + 500.0
    ensures c.groupLeft == Round(6.0 + (wave - 1) as real * (perWaveFifths as real / 5.0))
  {
    Cursor(wave, WaveTotal(wave, perWaveFifths), now + 500.0)
  }

  /** The first half of updateSpawns: when the wave is used up and the field is
      clear, the next wave is scheduled. */
  function OpenWave(c: Cursor, noEnemies: bool, t: real, perWaveFifths: int): Cursor
  {
    if c.groupLeft <= 0 && noEnemies then ScheduleWave(c.wave + 1, t, perWaveFifths) else c
  }

  /** The second half of updateSpawns: how many enemies the batch due at t holds
      (zero when none is due). */
  function DueBatch(c: Cursor, t: real): int
    requires c.wave >= 0
  {
    if t > c.nextGroupAt && c.groupLeft > 0 then BatchSize(c.wave, c.groupLeft) else 0
  }

  /** The cursor after a batch of k enemies; factor is the draw of rng(0.6, 1.1). */
  function AfterBatch(c: Cursor, k: int, t: real, factor: real): Cursor
  {
    if k > 0 then Cursor(c.wave, c.groupLeft - k, t + WAVE_INTERVAL * factor) else c
  }

  /** rng(0.6, 1.1) for a uniform draw u in [0, 1). */
  function GapFactor(u: real): real
  {
    0.6 + u * (1.1 - 0.6)
  }

  /** One call of updateSpawns on a game that is not over: the wave is opened if
      due, then at most one batch is released; the cursor stays well formed, a
      batch never exceeds what is left, and the wave number moves only when the
      wave is used up and the field is clear. */
  lemma SpawnStepSpec(c: Cursor, noEnemies: bool, t: real, factor: real, perWaveFifths: int)
    requires CursorOk(c) && perWaveFifths >= 0
    ensures var o := OpenWave(c, noEnemies, t, perWaveFifths);
      var k := DueBatch(o, t);
      var c' := AfterBatch(o, k, t, factor);
      CursorOk(c') && 0 <= k <= o.groupLeft
      && (c'.wave != c.wave <==> c.groupLeft <= 0 && noEnemies)
      && (c'.wave != c.wave ==>
            c'.wave == c.wave + 1 && k == 0 && c'.groupLeft == WaveTotal(c.wave + 1, perWaveFifths))
      && c'.groupLeft == o.groupLeft - k
  {
    var o := OpenWave(c, noEnemies, t, perWaveFifths);
    if c.groupLeft <= 0 && noEnemies {
      assert o.nextGroupAt == t + 500.0;
      assert WaveTotal(c.wave + 1, perWaveFifths) >= 0 by {
        assert c.wave * perWaveFifths >= 0;
      }
    }
  }

  /** resetGame leaves the cursor at wave 1 with nothing left to spawn and does
      not schedule a wave, so the first updateSpawns with the field clear opens
      wave 2 at once: wave 1 is skipped. Both shooters spawn 8 enemies then. */
  lemma ResetSkipsWaveOne(now: real, t: real, perWaveFifths: int)
    requires perWaveFifths == 11 || perWaveFifths == 12
    ensures var o := OpenWave(Cursor(1, 0, now + 1000.0), true, t, perWaveFifths);
      o == ScheduleWave(2, t, perWaveFifths) && o.groupLeft == 8
  {
  }

  // ---------------------------------------------------------------------------
  // The base under attack

  /** The base loses d, and its hit points are clamped at 0. */
  function Drain1(hp: int, d: int): int
  {
    if hp - d <= 0 then 0 else hp - d
  }

  /** The base's hit points after the damages in ds, the last one first, as the
      reverse loop over the enemies meets them. */
  function Drain(hp: int, ds: seq<int>): int
  {
    if ds == [] then hp else Drain1(Drain(hp, ds[1..]), ds[0])
  }

  /** With non-negative damages the clamp after every hit is the same as one
      clamp of the total, so the order of the hits does not matter. */
  lemma {:induction false} DrainIsClampedTotal(hp: int, ds: seq<int>)
    requires hp >= 0 && forall i | 0 <= i < |ds| :: ds[i] >= 0
    ensures Drain(hp, ds) == MaxI(0, hp - Sum(ds))
  {
    if ds != [] {
      DrainIsClampedTotal(hp, ds[1..]);
    }
  }

  /** The base never drops below zero and never gains hit points. */
  lemma {:induction false} DrainBounds(hp: int, ds: seq<int>)
    requires hp >= 0 && forall i | 0 <= i < |ds| :: ds[i] >= 0
    ensures 0 <= Drain(hp, ds) <= hp
  {
    if ds != [] {
      DrainBounds(hp, ds[1..]);
    }
  }
}
