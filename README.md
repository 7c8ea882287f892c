# Enora-and-co game logic, modelled in Dafny

The repository holds three small browser games and two questionnaire pages.
This project models their logic.

## The hit-scan shooter (laser.js)

The base sits in the bottom-right corner, and the player fires a laser from
it towards the pointer. Each shot is a segment from the base to the point
where the ray leaves the screen:

- every enemy the segment touches loses 24 hit points;
- a killed enemy is removed and scores 6, 12, 20 or 10 points, by type;
- the drawn beam stops at the nearest impact.

Enemies come in waves:

- wave `w` brings `round(6 + (w - 1) * 2.4)` enemies;
- they arrive in batches of at most `4 + floor(w / 3)`;
- they spawn on the top or left edge, at least 240 px from the base.

The enemies walk to the base. An enemy that reaches it drains its hit points,
which are clamped at zero. The game ends when the base is down, with a
message chosen by score band.

## The projectile shooter (scrpit.js)

This game has the same base and wave machine, with a few differences:

- bullets fly at 900 px/s, live 900 ms, and vanish 20 px past the screen;
- a bullet hits the first enemy of the list it touches, for 20 damage;
- a kill scores 10 points;
- enemies spawn on any side, with speed, hit points and damage scaled by `1.12^(w-1)`.

## The clicker (script.js)

A score is raised by clicks and by a production per second. Five upgrades
each cost `ceil(baseCost * 1.15^count)`.

## The two questionnaire pages (form/script2.js and script2.js)

Each page has a submit check: every input must hold a non-blank value.
In form/script2.js a number input only has to be non-empty. On success,
form/script2.js also throws confetti particles that fall under gravity and
are pruned once below the canvas.

## How the model is built

Each part is modelled in the source's own form:

- **State records as classes.** The games' state records (and the page and
  particle objects) are classes whose methods update fields in place. Each
  reverse loop becomes a `while` loop, with an invariant stated through a
  function of the list before the loop.
- **Pure code as functions.** Geometry, the stat table, scoring, wave sizes,
  trimming and prices are functions, with lemmas about them.
- **Outside inputs as parameters.** Randomness (`Math.random`), the clock
  (`performance.now`), and the pointer and movement rule are parameters:
  - draws are `nat -> Draw` streams or `seq<Rolls>`;
  - times are reals passed in;
  - movement is a function `Enemy -> Point`, because the trigonometry of the
    source is not modelled.
- **Exact reals.** Numbers are exact reals and unbounded integers.
  JavaScript doubles are not modelled.

### Where the code differs from its written description

The model follows the code in each case:

- **Hidden carriers.** A HIDDEN battery carrier still moves and can still be
  hit. The "frozen" branch of laser.js:474-478 computes nothing.
- **Spawners.** Spawners never spawn minions. makeEnemy (laser.js:208-236)
  never reads its `extra` argument, so `nextSpawnAt` is absent and
  `t >= undefined` is false (`LaserEnemies.SpawnersNeverDue`).
- **Base hit points.** laser.js sets BASE_MAX_HP to 1, not 100
  (laser.js:51). scrpit.js uses 100.
- **Reset skips wave 1.** resetGame leaves wave 1 with nothing left to spawn
  and schedules no wave. The next frame opens wave 2 at once
  (`Arena.ResetSkipsWaveOne`).
- **Id counter.** resetGame does not reset the id counter.

## Model

| member | source | states |
|---|---|---|
| JsNum.Round | laser.js:276 | Math.round: the result is within half a unit of x, a half going up |
| JsNum.Ceil | script.js:91 | Math.ceil: the least integer not below x |
| JsNum.RoundFifths | laser.js:276 | rounding n/5 to the nearest integer is (n + 2) div 5, since a fifth is never a tie |
| JsNum.PowAtLeastOne | scrpit.js:115 | a power with base at least 1 is at least 1 |
| JsNum.PowGrows | scrpit.js:115 | with base at least 1, a larger exponent never gives a smaller power |
| Seqs.SpliceAt | laser.js:322-341 | updating, then splicing out, the element at index i leaves prefix and suffix intact |
| Seqs.RemoveAt | laser.js:541 | splice(i, 1) on prefix + [x] + suffix yields prefix + suffix |
| Arena.BasePos | laser.js:36 | the base centre is MARGIN + BASE_RADIUS from the right and bottom edges |
| Arena.MayFire | laser.js:298-300 | tryShoot's guard, shared by both shooters. TryShoot's contracts state that the state is unchanged exactly when it fails |
| Arena.TouchesBase | laser.js:530-532 | the base contact test of resolveCollisions. BaseContactSpec proves that exactly the enemies passing it are removed |
| Arena.WaveTotal | laser.js:276 | the wave size equals Math.round(6 + (wave - 1) * p / 5) exactly |
| Arena.BatchSize | laser.js:288 | a batch holds 1..groupLeft enemies, at most 4 + wave / 3, and equals one of the two bounds |
| Arena.BatchesSpawnTheWave | laser.js:287-291 | batch after batch, exactly the announced number of enemies is spawned, each batch within its bounds |
| Arena.ScheduleWave | laser.js:275-279 | scheduleWave keeps the wave, sets groupLeft to the rounded wave size and the next batch 500 ms ahead |
| Arena.SpawnStepSpec | laser.js:281-293 | one updateSpawns keeps the cursor well formed, never spawns more than are left, and moves to the next wave exactly when the wave is used up and the field is clear, with no batch in the same frame |
| Arena.OpenWave | laser.js:283-286 | the first half of updateSpawns. SpawnStepSpec proves it moves to the next wave exactly when the wave is used up and the field is clear |
| Arena.DueBatch | laser.js:287-288 | the size of the batch due at t. SpawnStepSpec proves it never exceeds groupLeft, and BatchSize bounds it |
| Arena.AfterBatch | laser.js:290-291 | the cursor after a batch. SpawnStepSpec proves the cursor stays well formed, with groupLeft lowered by the batch |
| Arena.ResetSkipsWaveOne | laser.js:135-147 | after resetGame the first frame with an empty field schedules wave 2 (8 enemies in both shooters) |
| Arena.Drain1 | laser.js:533-542 | one hit on the base, clamped at 0. Drain folds it over the hits |
| Arena.Drain | laser.js:528-544 | the base after the hits in reverse loop order. DrainIsClampedTotal proves it is max(0, hp - total), and DrainBounds that it stays within [0, hp] |
| Arena.DrainIsClampedTotal | laser.js:533-542 | clamping after every hit equals one clamp of the total damage, so hit order does not matter |
| Arena.DrainBounds | laser.js:533-542 | the base's hit points stay between 0 and what they were |
| Geometry.Nearest | laser.js:187-189 | the candidate chosen is in the list and has the least t (the first such, as a stable sort gives) |
| Geometry.CrossVerticalOnRay | laser.js:161-169 | a crossing with x = 0 or x = W lies ahead on the ray, on that edge, within [0, H] |
| Geometry.CrossHorizontalOnRay | laser.js:172-180 | a crossing with y = 0 or y = H lies ahead on the ray, on that edge, within [0, W] |
| Geometry.RayToScreenEdge | laser.js:153-190 | rayToScreenEdge; RayToScreenEdgeSpec proves it returns the origin, the pointer or the earliest candidate crossing, and RayFromInsideMeetsEdge shows that from inside the screen, with both direction components above 1e-6, the pointer fallback is not taken |
| Geometry.EdgeCrossings | laser.js:158-180 | the candidate crossings of rayToScreenEdge. CrossingsOnRayAndBorder proves each lies ahead on the ray, on the border, inside the screen. CrossingsInclude, VerticalFirst and HorizontalFirst show that, from inside, the edge reached first is among them |
| Geometry.CrossingsOnRayAndBorder | laser.js:158-180 | every candidate is ahead of the origin on the ray, on the screen border and inside the screen |
| Geometry.RayToScreenEdgeSpec | laser.js:153-190 | the edge point is the origin for a null direction, the pointer when no candidate exists, and otherwise the earliest candidate crossing (an axis whose direction component is at most 1e-6 offers none) |
| Geometry.RayFromInsideMeetsEdge | laser.js:182-185 | from inside the screen, a ray with both components above 1e-6 always meets an edge, so the fallback is not taken |
| Geometry.VerticalFirst | laser.js:161-169 | when the vertical edge ahead is reached first, the crossing with it is within [0, H] |
| Geometry.HorizontalFirst | laser.js:172-180 | when the horizontal edge ahead is reached first, the crossing with it is within [0, W] |
| Geometry.SafeLength2 | laser.js:196 | `vx*vx + vy*vy \|\| 1`: positive, and the squared length when that is non-zero |
| Geometry.Clamp01 | laser.js:197 | the clamp lies in [0, 1] and leaves values in [0, 1] unchanged |
| Geometry.ClosestParam | laser.js:197 | the projection parameter lies in [0, 1] |
| Geometry.SegmentCircleIntersect | laser.js:193-204 | a hit lies on the segment at its parameter, and a hit is reported iff the clamped projection is within r of the centre |
| Geometry.DistAlongQuadratic | laser.js:198-199 | the squared distance from the centre to the point at u is the quadratic l2*u^2 - 2*u*dot + \|a - c\|^2 |
| Geometry.ClampedVertexIsLeast | laser.js:197 | on [0, 1] the quadratic is least at its vertex clamped to [0, 1] |
| Geometry.ClosestParamIsClosest | laser.js:193-204 | the clamped projection is the point of the segment closest to the centre |
| Geometry.SegmentHitIffTouches | laser.js:193-204 | a hit is reported exactly when some point of the segment is within r of the centre |
| Geometry.PointSegmentContact | laser.js:196 | a segment with coincident ends is tested as the single point a, at t = 0 |
| LaserEnemies.StatsOf | laser.js:66-90 | every row of the stat table has positive speed, hit points, radius and damage |
| LaserEnemies.NewEnemy | laser.js:208-236 | makeEnemy copies the table row, starts at full health with no blink, records the birth time, sets the zigzag sign from the draw, and gives a carrier an ACTIVE 5000 ms timer |
| LaserEnemies.TypeForRoll | laser.js:251-263 | the type thresholds of spawnEnemy. TypeForRollSpec proves it never gives a minion, gives a grunt exactly past the four slices, and never gives one from wave 6 on |
| LaserEnemies.TypeForRollSpec | laser.js:251-263 | the type draw never yields a minion, yields a grunt exactly when the roll is past the four slices, and from wave 6 on never yields a grunt |
| LaserEnemies.UpdateBattery | laser.js:456-472 | the carrier timer of one frame. UpdateBatterySpec gives its phase flips, periods and gauge, and BatteryStaysInRange proves it keeps the timer in range |
| LaserEnemies.UpdateBatterySpec | laser.js:456-472 | the phase flips exactly when its time is reached, the next switch is one phase length later, the gauge refills on waking and runs down while ACTIVE |
| LaserEnemies.BatteryStaysInRange | laser.js:456-472 | a carrier timer in range stays in range at any later frame |
| LaserEnemies.NewCarrierBatteryOk | laser.js:228-233 | a fresh carrier's timer is in range |
| LaserEnemies.CountChildren | laser.js:484-487 | the child count is between 0 and the list length |
| LaserEnemies.MinionsToSpawn | laser.js:488-489 | a due spawner adds 1 or 2 minions without passing 4 children, and none at 4 |
| LaserEnemies.SpawnersNeverDue | laser.js:481-483 | no enemy built by makeEnemy is ever due to spawn minions |
| LaserEnemies.KillPoints | laser.js:328-331 | a kill is worth positive points |
| LaserEnemies.SpawnPoint | laser.js:241-244 | spawns are only on the top or left edge, 20 px outside the screen |
| LaserCombat.AscendingPairs | laser.js:211 | ids taken from the counter ascend pairwise along the list |
| LaserCombat.Damaged | laser.js:322-323 | a hit lowers the hit points by 24, sets the blink to t + 90, and changes nothing else |
| LaserCombat.Contact | laser.js:316 | segmentCircleIntersect of the beam segment with an enemy's circle. SegmentHitIffTouches characterises its hits |
| LaserCombat.ShotSurvivors | laser.js:314-342 | the survivors of the shot are never more than the enemies |
| LaserCombat.SurvivorsComeFromEnemies | laser.js:314-342 | every survivor is what the shot made of an unkilled enemy with the same id |
| LaserCombat.ShotKeepsSurvivors | laser.js:314-342 | a missed enemy is kept unchanged; a hit, unkilled enemy is kept damaged |
| LaserCombat.ShotKeepsAscending | laser.js:341 | the splices of the shot keep ids ascending |
| LaserCombat.ShotDropsKilled | laser.js:327-341 | no killed enemy's id survives the shot |
| LaserCombat.ShotScore | laser.js:327-333 | the kill points the shot earns. ShotScoreBounds proves it is 6 to 20 points per removed enemy |
| LaserCombat.AnyHit | laser.js:317-319 | the anyHit flag. Sweep's loop computes it, and BeamEndSpec uses it to choose between edge and impact |
| LaserCombat.ShotScoreBounds | laser.js:328-333 | the score rises by 6 to 20 points per removed enemy |
| LaserCombat.NearestImpact | laser.js:311-348 | the running nearest impact of the loop. NearestImpactSpec proves it is on the segment, no later than any hit, and some hit's contact below t = 1 |
| LaserCombat.NearestImpactSpec | laser.js:311-348 | the nearest impact lies on the segment, no hit enemy is met earlier, and below t = 1 it is some hit enemy's contact |
| LaserCombat.BeamEnd | laser.js:351-355 | the visual end of the beam. BeamEndSpec proves it is the edge when nothing is hit, and otherwise an on-segment point no later than any hit |
| LaserCombat.BeamEndSpec | laser.js:351-355 | the beam reaches the edge when nothing is hit, and otherwise stops on the segment no later than any hit |
| LaserCombat.BaseSurvivors | laser.js:528-544 | base contact never adds enemies |
| LaserCombat.BaseDamages | laser.js:532-533 | every enemy either survives or contributes one damage |
| LaserCombat.BaseContactSpec | laser.js:527-544 | exactly the enemies touching the base are removed, and the base ends at max(0, hp - total damage) |
| LaserCombat.LiveBeams | laser.js:423-425 | expiry never adds beams |
| LaserCombat.LiveBeamsSpec | laser.js:423-425 | exactly the beams with until >= t survive, and two expiries in a row equal the later one |
| LaserCombat.ShotKeepsEnemiesOk | laser.js:297-366 | the shot keeps the list well formed (ascending ids, alive, from the table) and never lowers the score |
| LaserCombat.BaseSurvivorsAscending | laser.js:528-544 | base contact keeps ids ascending and only keeps enemies of the list |
| LaserCombat.BaseKeepsEnemiesOk | laser.js:527-544 | base contact keeps the list well formed and the base within [0, what it was] |
| LaserGame.DeathMessage | laser.js:1111-1127 | the message is the one of the score's band: one band per threshold reached |
| LaserGame.ReachedBands | laser.js:1111-1127 | the band count matches the if-chain over 20, 50, 100, 200, 350, 500 |
| LaserGame.ReachedMonotone | laser.js:1111-1127 | a higher score never gets a lower band |
| LaserGame.Batch | laser.js:289 | a batch of n draws holds n enemies |
| LaserGame.BatchSpec | laser.js:289 | the i-th enemy of a batch comes from the i-th draw with the i-th id |
| LaserGame.FrameEnemy | laser.js:448-525 | a frame changes only position and the carrier timer, and runs the timer exactly for carriers |
| LaserGame.FrameAll | laser.js:448-525 | the frame acts on each enemy in place, keeping the length |
| LaserGame.FrameKeepsBattery | laser.js:456-472 | a carrier timer in range stays in range after a frame |
| LaserGame.FrameKeepsEnemiesOk | laser.js:448-525 | a frame keeps the list well formed |
| LaserGame.SpawnKeepsEnemiesOk | laser.js:271 | appending a fresh enemy with the counter's id keeps the list well formed |
| LaserGame.FightOf | laser.js:416-418 | tryShoot, updateEnemies and resolveCollisions composed on values: the shot when allowed, then FrameAll, then base contact. It never adds enemies, and only the shot adds a beam, appended |
| LaserGame.FightKeepsInv | laser.js:297-366 | those three steps keep the enemy list well formed. The base stays within [0, what it was] and the score does not fall |
| LaserGame.Spawned | laser.js:240-272 | the enemy spawnEnemy pushes: makeEnemy of TypeForRoll's type at the drawn edge point. BatchSpec places it in its batch, and SpawnKeepsEnemiesOk shows that appending it keeps the list well formed |
| LaserGame.Game.constructor | laser.js:93-106 | the state literal and the first scheduleWave: full base, score 0, wave 1 scheduled, nothing on the field |
| LaserGame.Game.ScheduleWave | laser.js:275-279 | the cursor becomes Arena.ScheduleWave of the current wave |
| LaserGame.Game.MakeEnemy | laser.js:208-236 | the record gets the counter's id and the counter moves on by one |
| LaserGame.Game.SpawnEnemy | laser.js:240-273 | the drawn enemy is appended with the next id, keeping the invariant |
| LaserGame.Game.SpawnBatch | laser.js:289 | the batch is appended in draw order with consecutive ids |
| LaserGame.Game.UpdateSpawns | laser.js:281-293 | nothing happens when over; otherwise the cursor and list become those of OpenWave then one due batch, and the wave never goes down |
| LaserGame.Game.NextWave | laser.js:283-286 | the next wave is scheduled exactly when this one is used up and the field is clear |
| LaserGame.Game.ReleaseBatch | laser.js:287-292 | the due batch is released with the next ids, and the next gap is drawn from rng(0.6, 1.1) |
| LaserGame.Game.TryShoot | laser.js:297-366 | the state is unchanged unless the game is on, the button held and the cooldown elapsed; then the shot happens and the score never falls |
| LaserGame.Game.Shoot | laser.js:302-362 | the enemies become the shot survivors, the score gains the shot score, and one beam to the nearest impact (or the edge) lasting 90 ms is added |
| LaserGame.Game.Sweep | laser.js:311-349 | the reverse loop computes the shot survivors, score, nearest impact and anyHit flag |
| LaserGame.Game.SweepOne | laser.js:315-348 | one turn of the reverse loop extends the swept suffix by one enemy |
| LaserGame.Game.UpdateEnemies | laser.js:448-525 | every enemy gets its frame in place, and the invariant is kept |
| LaserGame.Game.ResolveCollisions | laser.js:527-544 | enemies touching the base are removed; the base loses their damage, clamped at 0, and never rises |
| LaserGame.Game.ResolveOne | laser.js:529-543 | one turn of the reverse loop extends the resolved suffix by one enemy |
| LaserGame.Game.ExpireBeams | laser.js:423-425 | the beams become the live beams, and none has expired |
| LaserGame.Game.Update | laser.js:414-431 | when over, nothing changes. Otherwise the new state is given in full: enemies, base, score and lastShotAt are those of FightOf. Then comes updateSpawns on that list (OpenWave, then one DueBatch appended with the next ids). The beams are LiveBeams of FightOf's beams. The state stays valid, so the game is over exactly when the base is down, with the score's message |
| LaserGame.Game.Settle | laser.js:422-430 | the beams become LiveBeams of the old ones and none has expired. The game is over exactly when the base is down |
| LaserGame.Game.CheckDeath | laser.js:427-430 | the game is over exactly when the base is down, with the message for the score |
| LaserGame.Game.Battle | laser.js:416-419 | the enemies, base, score, lastShotAt and beams become those of FightOf. Then updateSpawns runs on the survivors: OpenWave, then one DueBatch appended with the next ids. The invariant is kept, and score and wave never go down |
| LaserGame.Game.Fight | laser.js:416-418 | the enemies, base, score, lastShotAt and beams become FightOf of the old ones. The shot happens exactly when tryShoot's guard lets it through. The invariant is kept |
| LaserGame.Game.ResetGame | laser.js:135-147 | reset restores base, score, wave 1 with an empty cursor, and empty enemies and beams, and keeps the id counter |
| ProjectileRules.RngBounds | scrpit.js:24 | rng(lo, hi) of a draw in [0, 1) lies in [lo, hi] |
| ProjectileRules.Side | scrpit.js:74 | the side is 0..3 |
| ProjectileRules.SpawnPoint | scrpit.js:74-79 | each side puts the enemy 20 px outside that edge |
| ProjectileRules.Spawned | scrpit.js:86-94 | the enemy spawnEnemy pushes. SpawnedOk proves it sound, and WaveDamageGrows bounds its damage |
| ProjectileRules.SpawnedOk | scrpit.js:86-94 | a spawned enemy is at full, positive health with radius 16 and damage at least 4 |
| ProjectileRules.WaveDamageGrows | scrpit.js:88 | the contact damage is at least 4 and never falls from one wave to the next |
| ProjectileRules.Batch | scrpit.js:117 | a batch of n draws holds n enemies |
| ProjectileRules.BatchSpec | scrpit.js:117 | the i-th enemy of a batch comes from the i-th draw |
| ProjectileRules.Fired | scrpit.js:131-141 | a new bullet starts at the base at time t with life 900 ms and radius 4 |
| ProjectileRules.Moved | scrpit.js:216-217 | a bullet after dt seconds. LiveBulletsSpec proves the kept bullets are exactly the moved ones that have not expired |
| ProjectileRules.Expired | scrpit.js:218 | the drop test of updateBullets: too old or more than 20 px outside. Advance's contract proves no kept bullet passes it |
| ProjectileRules.LiveBullets | scrpit.js:213-222 | the bullet update never adds bullets |
| ProjectileRules.LiveBulletsSpec | scrpit.js:213-222 | exactly the moved bullets that have not expired are kept, and they stay well formed |
| ProjectileRules.Touches | scrpit.js:242-243 | the bullet-enemy contact test. FirstHit's contract picks the first enemy passing it |
| ProjectileRules.FirstHit | scrpit.js:239-246 | the index is the first enemy the bullet touches, or -1 when it touches none |
| ProjectileRules.Wounded | scrpit.js:249-250 | a hit enemy: 20 hit points fewer and blinking until t + 90. StrikeSpec proves only the first enemy touched is wounded |
| ProjectileRules.Strike | scrpit.js:247-259 | a bullet hits iff it touches some enemy |
| ProjectileRules.StrikeSpec | scrpit.js:239-259 | a miss changes nothing; a kill removes only that enemy for 10 points; another hit wounds only that enemy, for no points |
| ProjectileRules.Fire | scrpit.js:237-260 | the bullet loop keeps at most the bullets it was given |
| ProjectileRules.FireSpec | scrpit.js:237-260 | the score rises by exactly 10 per removed enemy, kept bullets are fired ones, and the enemies stay sound |
| ProjectileRules.StrikeKeepsEnemies | scrpit.js:247-259 | one bullet keeps enemies sound and earns 10 per removal |
| ProjectileRules.BaseSurvivors | scrpit.js:263-275 | base contact never adds enemies |
| ProjectileRules.BaseDamages | scrpit.js:266-268 | every enemy either survives or contributes one damage |
| ProjectileRules.BaseContactSpec | scrpit.js:263-275 | exactly the enemies touching the base are removed, each dealing at least 4 |
| ProjectileRules.BaseDrain | scrpit.js:266-273 | the base ends in [0, what it was], at max(0, hp - total damage) |
| ProjectileRules.MoveAll | scrpit.js:224-233 | each enemy moves in place, keeping everything but its position |
| ProjectileRules.MoveKeepsEnemies | scrpit.js:224-233 | movement keeps every enemy sound |
| ProjectileRules.KillsKeepMultiple | scrpit.js:254 | kills keep the score a multiple of 10 |
| ProjectileGame.CollisionsKeepInv | scrpit.js:235-275 | resolveCollisions keeps enemies and bullets sound, keeps only given bullets, raises the score by a multiple of 10, and leaves the base within [0, what it was] |
| ProjectileGame.Game.constructor | scrpit.js:28-40 | the state literal and the first scheduleWave: base 100, score 0, wave 1 scheduled, nothing on the field |
| ProjectileGame.Game.ScheduleWave | scrpit.js:97-105 | the cursor becomes Arena.ScheduleWave of the current wave, with 2.2 per wave |
| ProjectileGame.Game.SpawnEnemy | scrpit.js:72-95 | the enemy for the draw, scaled by the wave, is appended |
| ProjectileGame.Game.SpawnBatch | scrpit.js:115-117 | the batch is appended in draw order and the enemies stay sound |
| ProjectileGame.Game.UpdateSpawns | scrpit.js:107-121 | nothing happens when over; otherwise the cursor and list become those of OpenWave then one due batch |
| ProjectileGame.Game.NextWave | scrpit.js:109-113 | the next wave is scheduled exactly when this one is used up and the field is clear |
| ProjectileGame.Game.ReleaseBatch | scrpit.js:114-120 | the due batch is released and the next gap drawn |
| ProjectileGame.Game.TryShoot | scrpit.js:124-147 | no bullet unless the game is on, the button held and the cooldown elapsed; then exactly one new bullet from the base |
| ProjectileGame.Game.UpdateBullets | scrpit.js:213-222 | the bullets become the live moved bullets, in order |
| ProjectileGame.Game.UpdateEnemies | scrpit.js:224-233 | every enemy moves in place |
| ProjectileGame.Game.FindHit | scrpit.js:239-246 | the inner loop returns the first enemy touched, or -1 |
| ProjectileGame.Game.StrikeOne | scrpit.js:238-259 | one turn of the bullet loop extends the processed suffix by one bullet |
| ProjectileGame.Game.Wound | scrpit.js:248-258 | the first enemy touched is wounded, or removed for 10 points when dead |
| ProjectileGame.Game.ContactOne | scrpit.js:264-274 | one turn of the base loop extends the resolved suffix by one enemy |
| ProjectileGame.Game.ResolveCollisions | scrpit.js:235-275 | bullets against enemies (last bullet first), then enemies against the base (last enemy first) |
| ProjectileGame.Game.ShootAll | scrpit.js:237-260 | the bullet loop computes Fire: kept bullets, enemies and points |
| ProjectileGame.Game.ContactAll | scrpit.js:263-275 | the base loop removes the touching enemies and drains the base |
| ProjectileGame.Game.Update | scrpit.js:194-205 | when over, nothing changes. Otherwise the new state is given in full. lastShotAt and the fired bullet come from tryShoot's guard. The bullets are Fire's kept bullets, taken over LiveBullets of them, against MoveAll of the enemies. The score gains Fire's points. The base is drained by the enemies that reach it. updateSpawns runs on the survivors (OpenWave, then one DueBatch). The game is over exactly when the base is down |
| ProjectileGame.Game.Battle | scrpit.js:196-200 | lastShotAt and the bullets are those of tryShoot and updateBullets. The bullets, enemies, score and base become Fire over MoveAll, then base contact. updateSpawns then runs on the survivors. The invariant is kept, no bullet has expired, and score and wave never go down |
| ProjectileGame.Game.Advance | scrpit.js:196-197 | lastShotAt moves to t exactly when the guard lets the shot through. The bullets become LiveBullets of the old bullets plus the fired one. They are sound and none has expired |
| ProjectileGame.Game.Engage | scrpit.js:198-200 | the bullets, enemies, score and base become Fire over MoveAll, then base contact. updateSpawns then runs on the survivors (OpenWave, then one DueBatch). No new bullet appears, and the invariant is kept |
| ProjectileGame.Game.Clash | scrpit.js:198-199 | the bullets, enemies, score and base become Fire over MoveAll of the enemies, followed by base contact (BaseSurvivors, Drain). The invariant is kept, the score never falls, the base never rises, and no bullet is added |
| ProjectileGame.Game.ResetGame | scrpit.js:58-69 | reset restores base 100, score 0, wave 1 with an empty cursor, and no enemies or bullets |
| Clicker.Price | script.js:91 | Math.ceil(baseCost * 1.15^count). PriceGrows proves that the first price is the base cost and that the price never falls as the count rises |
| Clicker.PriceGrows | script.js:91 | the first price is the base cost, and each purchase never lowers the price |
| Clicker.Purchase | script.js:85-91 | buyUpgrade on the score and upgrades. PurchaseSpec proves it is a no-op exactly when Locked, and otherwise pays, levels up and reprices only that upgrade |
| Clicker.Locked | script.js:128-132 | the lock rule of updateUI. PurchaseSpec proves it is exactly when a purchase changes nothing |
| Clicker.PurchaseSpec | script.js:85-96 | a purchase changes nothing exactly when the upgrade is locked; otherwise the cost is paid, the score stays non-negative, the level rises by one, the price follows it, and other upgrades are untouched |
| Clicker.TotalProduction | script.js:100-103 | the forEach sum of production * count. TotalIsHalves, TotalInHalves and TotalNonNegative prove it a non-negative whole number of halves |
| Clicker.ToFixed1 | script.js:105 | parseFloat(x.toFixed(1)). ToFixedOfHalves proves it leaves the total unchanged |
| Clicker.TotalIsHalves | script.js:99-103 | with productions in halves, twice the forEach sum is a whole number |
| Clicker.TotalInHalves | script.js:99-103 | with productions in halves, the total is in halves |
| Clicker.ToFixedOfHalves | script.js:105 | parseFloat(toFixed(1)) leaves a whole number of halves unchanged |
| Clicker.TotalNonNegative | script.js:99-103 | the production is never negative |
| Clicker.TableRows | script.js:10-56 | the table's productions are in halves and non-negative, and its base costs are positive |
| Clicker.ZeroCounts | script.js:166-167 | with no upgrades bought the production is 0 |
| Clicker.Game.constructor | script.js:165-168 | page start: costs set to base costs, production 0, score 0 |
| Clicker.WithCost | script.js:142 | the `if (!u.cost) u.cost = u.baseCost` of renderUpgrades. InitCosts applies it to each upgrade |
| Clicker.Game.InitCosts | script.js:140-142 | each unset (or zero) cost becomes the base cost, the rest unchanged |
| Clicker.Game.RecalcProduction | script.js:99-106 | perSecond becomes the sum rounded to one decimal |
| Clicker.Game.AddScore | script.js:75-82 | the amount goes to the score, and to the clicks only when positive |
| Clicker.Game.ClickAction | script.js:67-72 | a click adds one to the score and to the clicks |
| Clicker.Game.Tick | script.js:109-115 | the interval adds the production to the score, which never falls |
| Clicker.Game.BuyUpgrade | script.js:85-96 | the purchase is Purchase, and prices and production stay exact |
| FormInputs.IsSpace | script2.js:10 | the characters String.prototype.trim removes (ECMAScript white space and line terminators). Trim's contract is stated with it |
| FormInputs.TrimStart | script2.js:10 | the result is a suffix starting with a non-space, with only white space removed |
| FormInputs.TrimEnd | script2.js:10 | the result is a prefix ending with a non-space, with only white space removed |
| FormInputs.Trim | script2.js:10 | the trimmed value is empty iff the value holds only white space |
| SimpleForm.AllFilled | script2.js:8-11 | the flag stays set iff every input holds a non-space character |
| SimpleForm.Blank | script2.js:10 | an input counts as blank iff it holds only white space |
| SimpleForm.EveryInputFilledMeansFilled | script2.js:8-11 | the trim test agrees with "holds a non-space character" on every form |
| SimpleForm.NoInputsAccepted | script2.js:8 | a form with no inputs is accepted |
| SimpleForm.BlankRejects | script2.js:10 | one all-space input rejects the form |
| SimpleForm.Page.constructor | script2.js:1-2 | the page keeps the given display styles |
| SimpleForm.Page.Submit | script2.js:4-21 | accepted iff every input is filled; then the form is hidden and success shown, otherwise nothing changes |
| ConfettiForm.AllFilled | form/script2.js:122-127 | the flag stays set iff each number input is non-empty and each other input holds a non-space character |
| ConfettiForm.InputOk | form/script2.js:125-126 | the two tests of the forEach. AllFilled proves the flag is their conjunction, and BlankNumberPasses shows that they differ on a blank number input |
| ConfettiForm.BlankNumberPasses | form/script2.js:125-126 | an all-space number input passes, while the same value in a text input fails |
| ConfettiForm.RandomColor | form/script2.js:62-65 | the colour is one of the sixteen |
| ConfettiForm.Born | form/script2.js:22-36 | a new particle starts at (x, y) with angle 0, vx in [-5, 5) and vy in (-20, -5] |
| ConfettiForm.Step | form/script2.js:38-49 | update() on the motion. StepClamps bounds one step, StepsSpeed gives the speed after n steps, and Update's contract applies it |
| ConfettiForm.StepClamps | form/script2.js:38-49 | after an update vy is at most 6 and at most vy + 0.5, and the particle drops by at most 6 |
| ConfettiForm.StepsSpeed | form/script2.js:41-44 | after n updates vy is min(vy + 0.5 n, 6) |
| ConfettiForm.BornReachesTerminal | form/script2.js:41-44 | a new particle falls at 6 from its 52nd frame on |
| ConfettiForm.BornStaysOnCanvas | form/script2.js:22-49 | a new particle is above its start after its first update |
| ConfettiForm.ConfettiParticle.constructor | form/script2.js:22-36 | the particle is made from its draws, with spin +-1 and the fixed constants |
| ConfettiForm.ConfettiParticle.Update | form/script2.js:38-49 | update moves the particle one Step, clamps vy to 6, and changes nothing but its motion |
| ConfettiForm.Kept | form/script2.js:79-87 | pruning never adds particles |
| ConfettiForm.KeptMembers | form/script2.js:84-86 | the survivors are exactly the particles not below the canvas |
| ConfettiForm.KeptValid | form/script2.js:79-87 | survivors of well-formed particles are well formed |
| ConfettiForm.KeptDistinct | form/script2.js:79-87 | pruning a list without repetitions leaves none |
| ConfettiForm.MoveOne | form/script2.js:80 | updating particle i moves it alone and leaves the later survivors as they were |
| ConfettiForm.Page.constructor | form/script2.js:6-16 | no particles, no frame requested, canvas sized to its container |
| ConfettiForm.Page.CreateConfetti | form/script2.js:68-72 | count new particles, made at (x, y) from the draws, are appended |
| ConfettiForm.Page.StartConfettiExplosion | form/script2.js:98-115 | 100 particles at the centre; when no frame was requested they move once, none is pruned, and the older ones are moved and pruned |
| ConfettiForm.Page.FirstFrame | form/script2.js:107-109 | the first frame moves the new burst once without pruning any of it |
| ConfettiForm.Page.DelayedBurst | form/script2.js:112-114 | the timer callback appends 50 more particles at the same point without requesting a frame |
| ConfettiForm.Page.Submit | form/script2.js:119-139 | a rejected form changes nothing; an accepted one hides the form, shows success, starts the confetti, and leaves the late burst pending at the centre |
| ConfettiForm.Page.UpdateAndDraw | form/script2.js:75-95 | every particle moves one frame, exactly the ones below the canvas are removed in order, and a frame is requested iff particles remain |
| ConfettiForm.Page.Sweep | form/script2.js:79-87 | the reverse loop moves every particle and prunes the list |
| ConfettiForm.Page.FrameDone | form/script2.js:79-87 | at the front of the loop the list is the survivors, without repetitions and well formed |
| ConfettiForm.Page.FrameOne | form/script2.js:80-86 | one turn moves particle i and prunes it if below |
| ConfettiForm.Page.Prune | form/script2.js:84-86 | particle i is spliced out exactly when it is below the canvas |

## Left out

- Rendering, the DOM, `requestAnimationFrame` and `setInterval` scheduling are
  not modelled. This covers every draw function, the HUD and `updateUI`, the
  sprite loading, alerts, and the style transforms of the click button. They
  are presentation.
- The resize listeners are not modelled. The canvas size is a constant of
  each game object, or a field set at page start. Resizing is window I/O.
- The pause key is not modelled. It only decides whether `update` is
  called, and the model's `Update` is one call.
- The particle and glyph effects of both shooters are not modelled: muzzle
  flashes, hit particles, glyph bursts and their update loops. They are
  cosmetic and never feed back into the game.
  - laser.js:547-553 runs the particle loop inside the enemy loop of
    resolveCollisions. This is left out with the particles.
  - resetGame does not clear the glyphs, which are not modelled either.
- The minion spawn of laser.js:481-500 is modelled only as its guard and its
  child cap (`SpawnersNeverDue`, `MinionsToSpawn`). It never runs, because no
  enemy carries `nextSpawnAt`.
- Floating point is not modelled. Numbers are exact reals; `Math.pow` with a
  natural exponent is an exact power; the thresholds 1e-6 and -1e9 are exact.
- Trigonometric movement is not modelled: the approach vector, the zigzag
  sine and `Math.hypot`. Movement is a parameter `move: Enemy -> Point`. In
  scrpit.js the bullet direction `(cos, sin)` of the aim angle is the
  parameter `dir`.
- The spawn-point resampling of both shooters (laser.js:249, scrpit.js:84)
  recurses until a point is far enough from the base. It is modelled as a
  precondition that every draw gives such a point, so possible
  non-termination is not modelled.
- `state.time` of scrpit.js is written once and never read. `dt` is a
  parameter of the bullet update only.
- Geometry.ClosestParamIsClosest: holds only for segments of non-zero squared
  length. The a == b case is covered by `PointSegmentContact`. A
  floating-point underflow of L2 to 0 is out of scope.
- Geometry.SegmentHitIffTouches: the same restriction to non-zero squared
  length.
- Several helper methods are not separate functions in the source. They
  split one source function so that each proof obligation stays small:
  - Fight, Battle, Sweep, SweepOne, ResolveOne, SpawnBatch, NextWave, ReleaseBatch,
    Shoot, Settle and CheckDeath in laser.js;
  - Battle, Advance, Engage, Clash, StrikeOne, Wound, ShootAll, ContactAll, ContactOne,
    NextWave and ReleaseBatch in scrpit.js;
  - FirstFrame, Sweep, FrameOne, Prune, FrameDone and MoveOne in
    form/script2.js.
- ToFixed1 models `parseFloat(x.toFixed(1))` as rounding half up for x >= 0.
  Ties and negative values follow JavaScript's decimal formatting, which is
  not modelled. Every total in the model is a whole number of halves, so no
  tie arises.
- script1.js is not part of this model.
- The name, description and icon of the clicker upgrades are display text
  and are not modelled.
- `animationLoopId` is modelled as the boolean `running`: a frame has been
  requested.
- The 500 ms delay of the late burst is not modelled. `DelayedBurst` is the
  callback, and `Submit` returns in `timer` the centre that the callback
  closes over.
- `Math.random` values are parameters: `Rolls`, `SpawnDraw` and the draw
  streams.
- JavaScript strings are UTF-16 code units. Here strings are sequences of
  Unicode characters, and trimming uses the ECMAScript white-space set.
