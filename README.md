# Slicing game core, modelled in Dafny

The game is a browser slicing game built on Phaser, with a small leaderboard server. Subreddit and meme icons are launched from the bottom of the screen, and the player slices them with the pointer. Hazards must not be sliced, and power-ups trigger an effect. This project models the bookkeeping underneath the rendering:

- **The Ranked scene** (`RankedScene.Ranked`, specified by `RankedWorld` and `RankedStep`):
  - the uniform spatial grid of 100-pixel cells, keyed by `floor(x/100), floor(y/100)`, with buckets of entity ids;
  - the five-cell slice probe, which cuts at most one entity per pointer move;
  - `cutEntity` with its `cut` guard;
  - scoring: combo, points `10 + 5 * (combo - 1)`, objects cut, and three strikes, which end the run by submitting its payload and resetting every counter (the reset is taken to happen at once; see "Left out");
  - the kunai storm and slow-motion power-ups. Each good entity the storm slices adds one point and then `floor(points * (multiplier - 1))`: the whole running total is scaled by the combo multiplier, where `cutEntity` scales only the ten base points (see Scoring.StormStepScales and Scoring.StormFiveFrom100);
  - spawning, with the two-hazard cap and the ten checked position draws;
  - the per-frame update: the combo clock, the elapsed time, the spawn-interval ramp, the power-up timer, motion, and expiry over the reversed live list;
  - the fifteen-point pointer trail.
- **The casual Game scene** (`CasualScene.Game`, specified by `CasualWorld`). It uses the same grid and probe. A good cut is one point, and any other cut is a fail. The third fail calls `restartGame`. One spawn happens every 1.5 s, expiry is silent, and the trail holds ten points.
- **The preloader's registry keys** (`AssetKeys`, `Preloader`):
  - `<category>_<i>` and `<category>Icons` for icons;
  - `<category>_<sub>_<i>` and `<category>_<sub>Sounds` for sounds;
  - the `SoundActive` default.
- **The leaderboard server** (`Leaderboard`):
  - `submitScore`, with its NaN filter, one sorted-set write per numeric metric, the username mapping, and the 401 and 500 answers;
  - `getLeaderboardKey`;
  - the day-to-challenge table, checked against the shared daily-challenge configuration;
  - the top-ten handler, with its descending sort, its top ten and the caller's rank.

Each scene is a class whose fields are the scene's fields. The entity list, the grid and the trail are `seq` and `map` fields that the methods reassign. Every method is proved against a function on the scene's state, of the form `State() == F(old(State()))`. The properties the source promises are lemmas about those functions: invariants kept, counters, idempotence, and the at-most-one cut. Entities are identified by id in a store that keeps every entity ever spawned. This matters because the grid buckets use `indexOf` on object identity. A sliced entity keeps its `cut` flag, and a stale bucket entry can still name it.

Inputs the engine or the environment supplies are parameters:

- random draws: radius, positions, kind roll, icon picks and speeds;
- `Math.sin`, as an uninterpreted function `sin: real -> real`;
- the frame time `dt = delta / 1000` and the canvas size;
- the ISO timestamp and the day of the week;
- the signed-in user;
- the position of the store call that throws, if any;
- the result of `zRange`.

Coordinates, times and scores are `real` or `int`.

The re-bucketing in `updateEntityGridPosition` is modelled as written. It computes the "previous" cell from `x - vx, y - vy`, which is the velocity and not the frame's displacement. When the two keys differ, it removes the entity from the bucket of its current cell and pushes it back onto that same bucket. The keys differ on almost every frame, because the velocity is much larger than one frame's movement. So re-bucketing never removes an entry: only a cut or an expiry takes an entity out of the bucket of its current cell. The entity is pushed onto the bucket of every cell it passes through, and an entry is left behind in each of them, starting with the cell it was inserted in. `SpatialGrid.StaleEntryRemains` shows such an entry. `RankedWorld.StaleEntryAbsorbsSlice` shows a stale entry of an already-cut entity taking a slice that a live entity under the pointer should have received. No grid-consistency invariant is claimed. The invariant kept is only that every bucket names a stored entity.

## Model

| member | source | states |
|---|---|---|
| Seqs.IndexOf | src/client/game/scenes/Ranked.ts:168 | `indexOf`: -1 exactly when the element is absent; otherwise a position holding it with no earlier occurrence |
| Seqs.RemoveFirstSpec | src/client/game/scenes/Ranked.ts:164-170 | the `indexOf`/`splice` pair takes exactly one copy out (multiset minus one, length minus one, at the first occurrence) and is a no-op when the element is absent |
| Seqs.RemoveFirstDistinct | src/client/game/scenes/Ranked.ts:221-222 | splicing an entity out of a duplicate-free list keeps it duplicate-free and removes the entity entirely |
| Trail.Push | src/client/game/scenes/Ranked.ts:131-133 | below capacity the sample is appended; otherwise the buffer keeps its length, drops the oldest sample and ends with the new one; it never exceeds its capacity |
| Trail.PushAllWindow | src/client/game/scenes/Ranked.ts:131-133 | after a cleared trail, `n` moves leave exactly the last `min(n, capacity)` samples in arrival order |
| Playfield.ResponsiveScale | src/client/game/scenes/Ranked.ts:577 | the scale factor is one of 0.8, 1.2 and 1.6: 0.8 exactly for canvases narrower than 600 pixels, 1.6 exactly from 1200 pixels, 1.2 in between |
| Playfield.ResponsiveScaleGrows | src/client/game/scenes/Ranked.ts:577 | a wider canvas never gets a smaller scale factor |
| AssetKeys.NatToString | src/client/game/scenes/Preloader.ts:82 | decimal formatting: non-empty, digits only, one digit exactly below 10, last digit `n % 10` |
| AssetKeys.NatToStringInjective | src/client/game/scenes/Preloader.ts:82 | different indices print differently |
| AssetKeys.IconKeyInjective | src/client/game/scenes/Preloader.ts:80-86 | two icon keys of one category are equal only for the same index |
| AssetKeys.SoundKeyInjective | src/client/game/scenes/Preloader.ts:93-98 | two sound keys of one subcategory are equal only for the same index |
| AssetKeys.IconsRegistryKeyInjective | src/client/game/scenes/Preloader.ts:87 | distinct categories store their icon lists under distinct registry keys |
| AssetKeys.SoundsRegistryKeyInjective | src/client/game/scenes/Preloader.ts:99 | distinct subcategories of one category store their sound lists under distinct registry keys |
| AssetKeys.IconsAndSoundsKeysDisjoint | src/client/game/scenes/Preloader.ts:87-99 | an icon-list key never names a sound list |
| AssetKeys.IconKeysSpec | src/client/game/scenes/Preloader.ts:77-86 | `loadIcons` builds exactly `urls.length` keys, key `i` is `<category>_<i>`, and no key repeats |
| AssetKeys.SoundKeysSpec | src/client/game/scenes/Preloader.ts:91-98 | `loadSounds` builds exactly `files.length` keys per subcategory, key `i` is `<category>_<sub>_<i>`, and no key repeats |
| RankedStep.PowerUpFromLoadedIcons | src/client/game/scenes/Ranked.ts:342-348 | the loader and the spawner agree: once `loadIcons` has stored `n > 0` keys under `powerUpsIcons`, which `registry.get(...) \|\| []` reads back, `spawnPowerUp` always builds a power-up, and it carries the key `powerUps_<pick % n>` |
| Preloader.IconManifestLookup | src/client/game/scenes/Preloader.ts:51-59 | after the icon manifest loads, each category's `<category>Icons` entry lists one key per url, in url order |
| Preloader.IconManifestKeepsOthers | src/client/game/scenes/Preloader.ts:51-59 | loading icons changes no registry entry other than the manifest categories' icon lists |
| Preloader.SoundsLookup | src/client/game/scenes/Preloader.ts:90-100 | after `loadSounds`, each subcategory's `<category>_<sub>Sounds` entry lists one key per file, in file order |
| Preloader.SoundsKeepIcons | src/client/game/scenes/Preloader.ts:90-100 | loading sounds never changes an icon list |
| Preloader.Registry.InitSoundFlag | src/client/game/scenes/Preloader.ts:37-39 | `SoundActive` becomes true only when it was unset; an existing value and every other entry are kept |
| Preloader.Registry.LoadIcons | src/client/game/scenes/Preloader.ts:77-88 | the loop leaves the registry equal to `WithIcons`, whose list is described by IconKeysSpec and IconManifestLookup |
| Preloader.Registry.LoadSounds | src/client/game/scenes/Preloader.ts:90-100 | the nested loops leave the registry equal to `WithSounds` (see SoundsLookup) |
| Preloader.Registry.LoadIconManifest | src/client/game/scenes/Preloader.ts:51-59 | the icon-manifest handler leaves the registry equal to `WithIconManifest` |
| Preloader.Registry.LoadSoundManifest | src/client/game/scenes/Preloader.ts:61-69 | the sound-manifest handler leaves the registry equal to `WithSoundManifest` |
| Scoring.PayloadOf | src/client/game/scenes/Ranked.ts:91-96 | the submitted payload carries the run's points, elapsed time, combo time and objects cut; for a run that kept the counter invariants, the points are non-negative and the combo time never exceeds the play time (see ThreeStrikesEndRun for the payload a run ends with) |
| Scoring.PointsGained | src/client/game/scenes/Ranked.ts:230-231 | `floor(10 * (1 + (combo - 1) * 0.5))` is exactly `10 + 5 * (combo - 1)` |
| Scoring.CutGood | src/client/game/scenes/Ranked.ts:225-234 | a good cut adds one to the combo, sets the combo timer to 2, adds `10 + 5 * previous combo` points and one object cut, and leaves the fails alone |
| Scoring.Penalize | src/client/game/scenes/Ranked.ts:239-240 | a strike adds one fail, breaks the combo and costs no points; from a sane score it keeps every counter invariant except the fail bound, which it breaks exactly on the third strike (see StrikeAccount and StrikesCount) |
| Scoring.Settle | src/client/game/scenes/Ranked.ts:116-123 | after the game-over check the fails are below three; a payload goes out exactly when they had reached three, at most one; for at most three fails, fails left plus three per payload equals the fails before |
| Scoring.SettleIdempotent | src/client/game/scenes/Ranked.ts:116-123 | running the game-over check again right after it submits nothing and changes nothing |
| Scoring.Strike | src/client/game/scenes/Ranked.ts:239-243 | a strike followed by the game-over check keeps the counter invariants |
| Scoring.StrikeAccount | src/client/game/scenes/Ranked.ts:239-243 | per strike, fails plus three per submitted payload grows by exactly one, and at most one payload is sent |
| Scoring.StrikesCount | src/client/game/scenes/Ranked.ts:239-243 | after `k` strikes the fails counter is `(fails + k) % 3` and `(fails + k) / 3` runs have been submitted |
| Scoring.ThreeStrikesEndRun | src/client/game/scenes/Ranked.ts:116-123 | three strikes from zero fails submit exactly the run's totals and leave every counter at zero |
| Scoring.GoodStreakPoints | src/client/game/scenes/Ranked.ts:227-233 | `k` good cuts from no combo give combo `k`, `10k + 5k(k-1)/2` more points and `k` more objects cut |
| Scoring.ComboTick | src/client/game/scenes/Ranked.ts:282-290 | the frame clock can only end a combo, never change it otherwise; a combo survives exactly when its timer outlasts the frame, and combo time accrues `dt` exactly on the frames it survives; elapsed grows by `dt`, and points, fails and objects cut do not move (see ComboTickSane, ComboExpires and ComboStaysDead) |
| Scoring.ComboTickSane | src/client/game/scenes/Ranked.ts:282-290 | a frame keeps the counter invariants, and combo time never grows by more than `dt` |
| Scoring.ComboExpires | src/client/game/scenes/Ranked.ts:282-289 | frames adding up to the remaining timer, with no good cut, end the combo |
| Scoring.ComboStaysDead | src/client/game/scenes/Ranked.ts:282-289 | with no slices, a dead combo stays dead |
| Scoring.BaseSpawnInterval | src/client/game/scenes/Ranked.ts:296-299 | the ramped interval always lies in `[1.2, 3]` |
| Scoring.SpawnIntervalNonIncreasing | src/client/game/scenes/Ranked.ts:296-299 | a longer elapsed time never gives a longer interval |
| Scoring.SpawnIntervalEnds | src/client/game/scenes/Ranked.ts:296-299 | the interval is 3 s in the first ten seconds and 1.2 s from 90 s on |
| Scoring.SpawnIntervalSpec | src/client/game/scenes/Ranked.ts:296-300 | without slow motion the interval is the ramp; with it, the interval times the factor is the ramp |
| Scoring.SlowmoSpawnInterval | src/client/game/scenes/Ranked.ts:300 | at the slow-motion factor 0.3 the interval lies in `[4, 10]` |
| Scoring.StormStep | src/client/game/scenes/Ranked.ts:466-471 | one storm victim adds a combo step, resets the combo timer and adds at least one point, with objects cut and fails unchanged |
| Scoring.StormStepScales | src/client/game/scenes/Ranked.ts:466-471 | one storm victim leaves the points at `floor((points + 1) * Multiplier(combo + 1))`: the point plus the bonus scale the whole running total |
| Scoring.StormFiveFrom100 | src/client/game/scenes/Ranked.ts:449-471 | from 100 points and no combo, a storm over five good entities ends at exactly 2319 points, where five normal slices end at 200 |
| Scoring.StormStepsEffect | src/client/game/scenes/Ranked.ts:449-479 | a storm over `k` good entities adds `k` to the combo and at least `k` points, and leaves objects cut, fails, elapsed and combo time alone |
| SpatialGrid.KeyAtSpec | src/client/game/scenes/Ranked.ts:152-156 | a point lies in the 100-wide square of its cell key |
| SpatialGrid.KeyAtUnique | src/client/game/scenes/Ranked.ts:152-156 | the cell key is the unique square containing the point |
| SpatialGrid.GridAddSpec | src/client/game/scenes/Ranked.ts:158-162 | add creates the bucket if absent, appends the id at its end, and leaves every other bucket unchanged |
| SpatialGrid.GridRemoveSpec | src/client/game/scenes/Ranked.ts:164-170 | remove deletes one copy of the id from the current cell's bucket, changes nothing when the bucket lacks it, and leaves every other bucket unchanged |
| SpatialGrid.RegridOtherBuckets | src/client/game/scenes/Ranked.ts:172-176 | re-bucketing only touches the bucket of the entity's current cell |
| SpatialGrid.StaleEntryRemains | src/client/game/scenes/Ranked.ts:172-176 | an entity moved one cell right stays listed in the bucket it was inserted in as well as in its new one |
| SpatialGrid.ProbeKeysAreCross | src/client/game/scenes/Ranked.ts:179-185 | the probe visits exactly the pointer's cell, then the right, left, lower and upper neighbours |
| SpatialGrid.FirstHitIndex | src/client/game/scenes/Ranked.ts:191-198 | the position of the first candidate whose circle holds the pointer, with no earlier candidate holding it, or -1 when none does |
| SpatialGrid.FirstHitSpec | src/client/game/scenes/Ranked.ts:178-201 | the scan settles on a candidate that holds the pointer and is preceded by none, or on nothing when no candidate holds it |
| SpatialGrid.ScanBucket | src/client/game/scenes/Ranked.ts:191-198 | the inner loop over one bucket returns the first hit position (FirstHitIndex) |
| SpatialGrid.FindHit | src/client/game/scenes/Ranked.ts:187-200 | the bucket-by-bucket loop with its early return finds the same entity as FirstHit (see FirstHitSpec) |
| RankedWorld.EffectOfIcon | src/client/game/scenes/Ranked.ts:248-254 | power-up icons 0, 1 and 2 trigger the storm, the shield and slow motion; any other icon triggers nothing |
| RankedWorld.WithoutGoodSpec | src/client/game/scenes/Ranked.ts:449-478 | the storm keeps exactly the live entities that are not good, without duplicates |
| RankedWorld.GoodCount | src/client/game/scenes/Ranked.ts:449-478 | the good entities removed and the entities kept add up to the list's length |
| RankedWorld.StormEffect | src/client/game/scenes/Ranked.ts:446-479 | after the storm no good entity is live and every other one is; the counters are StormSteps applied once per good entity (see StormStepScales), so the combo grows by their number and points by at least that, and objects cut and fails do not move |
| RankedWorld.SlowmoOn | src/client/game/scenes/Ranked.ts:488-494 | slow motion ends up on; a first activation sets the factor to 0.3 and a second keeps the factor it has; entities, grid, counters, payloads and ids are untouched, and the scene invariants are kept |
| RankedWorld.SlowmoOnIdempotent | src/client/game/scenes/Ranked.ts:488-494 | activating slow motion twice is the same as activating it once |
| RankedWorld.Detach | src/client/game/scenes/Ranked.ts:204-222 | flagging and splicing keeps every id stored and leaves the counters and payloads alone |
| RankedWorld.CutAgainIsNoOp | src/client/game/scenes/Ranked.ts:204 | cutting an entity already flagged changes nothing |
| RankedWorld.CutIdempotent | src/client/game/scenes/Ranked.ts:203-205 | cutting twice is cutting once |
| RankedWorld.CutFirstTime | src/client/game/scenes/Ranked.ts:203-254 | a first cut flags the entity, takes it off the live list and takes it out of the bucket of its current cell, whatever its kind. A good entity then scores as CutGood. A hazard zeroes the combo and is a strike: at the third, the payload is submitted and the counters reset. A storm power-up leaves the world as the storm on the detached world (see StormEffect). Any other power-up leaves the counters and payloads alone |
| RankedWorld.CutPreservesWf | src/client/game/scenes/Ranked.ts:203-254 | a cut keeps the scene invariants (indexed grid and list, distinct live ids, no live cut entity, sane counters) |
| RankedWorld.CutStoreChange | src/client/game/scenes/Ranked.ts:203-205 | a cut changes only the cut flag of the cut entity |
| RankedWorld.SliceCutsAtMostOne | src/client/game/scenes/Ranked.ts:178-201 | a pointer move flags at most one entity, a probed candidate the pointer is inside of, and keeps the invariants |
| RankedWorld.StaleEntryAbsorbsSlice | src/client/game/scenes/Ranked.ts:172-201 | a cut entity's stale bucket entry is found first and the `cut` guard makes the move a no-op, so a live entity under the pointer is not cut |
| RankedWorld.StaleEntryScannedFirst | src/client/game/scenes/Ranked.ts:179-197 | in that example the scan settles on the stale entry |
| RankedWorld.Moved | src/client/game/scenes/Ranked.ts:318-322 | gravity 800 (scaled by slow motion) acts on everything except power-ups; `x` moves by `vx * dt`; power-ups fall at constant speed |
| RankedWorld.AdvanceOne | src/client/game/scenes/Ranked.ts:315-338 | one loop step moves exactly its entity and keeps the grid indexed and the counters sane |
| RankedWorld.AdvanceAll | src/client/game/scenes/Ranked.ts:314-339 | the loop keeps every id stored, the slow-motion state, the timers and the counter invariants |
| RankedWorld.AdvanceAtFields | src/client/game/scenes/Ranked.ts:315-338 | the loop body at `i`: the entity moves and is re-bucketed. If it left the screen it leaves its bucket and the list, and it is a strike only if it was good. Otherwise the list and counters are unchanged |
| RankedWorld.AdvanceAtSplit | src/client/game/scenes/Ranked.ts:318-338 | the loop body is the move followed, when off screen, by the expiry |
| RankedWorld.StillOnScreen | src/client/game/scenes/Ranked.ts:327 | an entity is kept exactly when it is inside the margins after moving |
| RankedWorld.AdvanceAllMoves | src/client/game/scenes/Ranked.ts:314-339 | a frame moves each live entity exactly once, keeps exactly the on-screen ones in order, and leaves every other stored entity alone |
| RankedWorld.AdvanceAllStrikes | src/client/game/scenes/Ranked.ts:327-333 | fails plus three per payload grows by exactly the number of good entities that escape; with none, the counters and payloads are unchanged |
| RankedWorld.AdvanceFrameWf | src/client/game/scenes/Ranked.ts:314-339 | a frame keeps the scene invariants |
| RankedWorld.HazardCountIsSize | src/client/game/scenes/Ranked.ts:385 | the filtered length is the number of live hazards |
| RankedWorld.SpawnKind | src/client/game/scenes/Ranked.ts:384-386 | with two hazards live the new entity is good; otherwise it is good exactly when the roll is below 0.8 |
| RankedWorld.HazardNearSpec | src/client/game/scenes/Ranked.ts:378 | the `some` test holds exactly when a live hazard is closer than 80 pixels horizontally |
| RankedWorld.SpawnXIndex | src/client/game/scenes/Ranked.ts:376-381 | the chosen draw is one of the ten checked draws or the eleventh |
| RankedWorld.SpawnXIndexSpec | src/client/game/scenes/Ranked.ts:374-382 | the chosen draw is clear of hazards unless it is the eleventh, and every earlier draw was not clear |
| RankedWorld.SpawnWf | src/client/game/scenes/Ranked.ts:414-415 | adding an entity under a fresh id keeps the invariants |
| RankedWorld.SpawnHazardCap | src/client/game/scenes/Ranked.ts:384-386 | a spawn whose kind follows the cap never takes the live hazards above two |
| RankedWorld.CutKeepsHazardCap | src/client/game/scenes/Ranked.ts:219-222 | a cut never adds a live hazard |
| RankedWorld.FrameKeepsHazardCap | src/client/game/scenes/Ranked.ts:314-338 | a frame never adds a live hazard |
| RankedStep.NewEntitySpec | src/client/game/scenes/Ranked.ts:372-411 | an entity is built exactly when its icon pool and picked key are non-empty. It has the capped kind, is uncut, sits at the chosen draw below the bottom edge with the scaled radius, and launches with the drawn speeds after the slow-motion and hazard factors |
| RankedStep.SpawnAvoidsHazards | src/client/game/scenes/Ranked.ts:374-382 | when a checked draw is clear of hazards, the new entity is placed clear of every live hazard |
| RankedStep.SpawnOne | src/client/game/scenes/Ranked.ts:372-415 | a spawn keeps the invariants and the hazard cap |
| RankedStep.SpawnBurst | src/client/game/scenes/Ranked.ts:305-306 | a burst keeps the invariants and the hazard cap |
| RankedStep.NewPowerUp | src/client/game/scenes/Ranked.ts:342-362 | a power-up is built exactly when the `powerUpsIcons` list is non-empty and the picked key is non-empty; its id is a key of that list; it starts uncut above the screen with a positive radius and no horizontal speed (see PowerUpFromLoadedIcons and SpawnPowerUpAdds) |
| RankedStep.SpawnPowerUp | src/client/game/scenes/Ranked.ts:342-368 | a power-up spawn keeps the invariants and the hazard cap |
| RankedStep.Tick | src/client/game/scenes/Ranked.ts:282-302 | the start of `update`: the counters become ComboTick (elapsed time plus `dt`, the combo clock run down), the power-up and spawn timers both grow by `dt`, and the store, grid, live list, payloads, slow-motion switch and factor stay; the invariants hold |
| RankedStep.TimedBurst | src/client/game/scenes/Ranked.ts:282-307 | the ticked world plus the due burst keeps the invariants and the hazard cap |
| RankedStep.BurstIf | src/client/game/scenes/Ranked.ts:303-307 | the guarded burst keeps the invariants and the hazard cap |
| RankedStep.Spawns | src/client/game/scenes/Ranked.ts:302-312 | both timed spawns keep the invariants and the hazard cap |
| RankedStep.PowerUpIf | src/client/game/scenes/Ranked.ts:309-312 | the guarded power-up spawn keeps the invariants and the hazard cap |
| RankedStep.Step | src/client/game/scenes/Ranked.ts:277-340 | a whole `update` keeps the invariants and never takes live hazards above two |
| RankedStep.SpawnBurstAdds | src/client/game/scenes/Ranked.ts:305-306 | a burst adds at most one entity per draw under fresh ids, never a power-up, and changes no stored entity, counter, switch or timer |
| RankedStep.SpawnPowerUpAdds | src/client/game/scenes/Ranked.ts:342-367 | `spawnPowerUp` adds a power-up exactly when a non-empty key is picked, and keeps every stored entity |
| RankedStep.TimedBurstKeeps | src/client/game/scenes/Ranked.ts:293-307 | the clocks and burst add no power-up and advance the power-up timer by `dt` |
| RankedStep.BurstIfKeeps | src/client/game/scenes/Ranked.ts:303-307 | the guarded burst adds no power-up and keeps the power-up timer |
| RankedStep.SpawnsPowerUp | src/client/game/scenes/Ranked.ts:293-312 | the spawn half of `update` adds a power-up exactly when the power-up timer passes 30 s and a key is picked |
| RankedStep.FrameKeepsKinds | src/client/game/scenes/Ranked.ts:314-339 | a frame keeps every stored entity and its kind |
| RankedStep.StepSpawnsPowerUp | src/client/game/scenes/Ranked.ts:277-340 | an `update` adds a power-up exactly when the power-up timer passes 30 s and a non-empty key is picked |
| RankedScene.Ranked.constructor | src/client/game/scenes/Ranked.ts:14-44 | the initial fields: zero counters, empty list and grid, slow motion off at factor 0.5, not cutting, empty trail |
| RankedScene.Ranked.PointerDown | src/client/game/scenes/Ranked.ts:81 | a slice starts; the game state is unchanged |
| RankedScene.Ranked.PointerUp | src/client/game/scenes/Ranked.ts:82 | the slice ends and the trail is cleared; the game state is unchanged |
| RankedScene.Ranked.UpdateTrail | src/client/game/scenes/Ranked.ts:131-133 | the trail becomes `Push` with capacity 15 (see Trail.Push) |
| RankedScene.Ranked.PointerMove | src/client/game/scenes/Ranked.ts:83-87 | when not cutting nothing changes; otherwise the trail is pushed and the state becomes `Slice` |
| RankedScene.Ranked.AddEntityToGrid | src/client/game/scenes/Ranked.ts:158-162 | the grid becomes GridAdd on the entity's current cell (see GridAddSpec) |
| RankedScene.Ranked.RemoveEntityFromGrid | src/client/game/scenes/Ranked.ts:164-170 | the grid becomes GridRemove on the entity's current cell (see GridRemoveSpec) |
| RankedScene.Ranked.UpdateEntityGridPosition | src/client/game/scenes/Ranked.ts:172-176 | the grid becomes `Regrid`, including the stale-entry behaviour |
| RankedScene.Ranked.SpliceEntity | src/client/game/scenes/Ranked.ts:337 | the live list loses exactly position `i` |
| RankedScene.Ranked.ScoreGood | src/client/game/scenes/Ranked.ts:225-234 | the counters become CutGood |
| RankedScene.Ranked.CountStrike | src/client/game/scenes/Ranked.ts:239-243 | the counters become Strike, and its payload, if any, is submitted |
| RankedScene.Ranked.GameOver | src/client/game/scenes/Ranked.ts:90-128 | the run's payload is submitted and all seven counters are reset |
| RankedScene.Ranked.CheckCutEntities | src/client/game/scenes/Ranked.ts:178-201 | the state becomes `Slice` (at most one cut, see SliceCutsAtMostOne), and the invariants are kept |
| RankedScene.Ranked.CutEntity | src/client/game/scenes/Ranked.ts:203-274 | the state becomes `Cut` (see CutFirstTime and CutIdempotent) |
| RankedScene.Ranked.DetachEntity | src/client/game/scenes/Ranked.ts:204-222 | the state becomes `Detach` |
| RankedScene.Ranked.SpliceOut | src/client/game/scenes/Ranked.ts:221-222 | the live list becomes RemoveFirst of the old one: the first occurrence of the id is gone, and nothing changes when it is absent (see RemoveFirstSpec) |
| RankedScene.Ranked.ResolveCut | src/client/game/scenes/Ranked.ts:224-254 | the state becomes `Resolve`: counters for good and hazard, the effect for a power-up |
| RankedScene.Ranked.StormScore | src/client/game/scenes/Ranked.ts:466-471 | the counters become StormStep |
| RankedScene.Ranked.ActivateKunaiStorm | src/client/game/scenes/Ranked.ts:446-479 | the reverse loop leaves the list `WithoutGood`, the grid without the good entities, and the counters advanced once per good entity (see StormEffect) |
| RankedScene.Ranked.StormVisit | src/client/game/scenes/Ranked.ts:450-478 | one iteration of the storm: a good entity scores and is spliced out of its bucket and the list; any other stays |
| RankedScene.Ranked.ActivateSlowmo | src/client/game/scenes/Ranked.ts:488-494 | the state becomes SlowmoOn |
| RankedScene.Ranked.SlowmoExpired | src/client/game/scenes/Ranked.ts:500-503 | slow motion goes off and the factor goes back to 1 |
| RankedScene.Ranked.PickSpawnX | src/client/game/scenes/Ranked.ts:374-381 | the retry loop returns the draw SpawnXIndex chooses (see SpawnXIndexSpec) |
| RankedScene.Ranked.AddEntity | src/client/game/scenes/Ranked.ts:414-415 | the state becomes Spawn: stored under a fresh id, appended, pushed on its bucket |
| RankedScene.Ranked.BuildEntity | src/client/game/scenes/Ranked.ts:373-411 | returns NewEntity (see NewEntitySpec) |
| RankedScene.Ranked.Launch | src/client/game/scenes/Ranked.ts:399-411 | the speeds are LaunchVelocity: slowed under slow motion, hazard factors for hazards, then the boost |
| RankedScene.Ranked.SpawnEntity | src/client/game/scenes/Ranked.ts:372-423 | the state becomes SpawnOne |
| RankedScene.Ranked.SpawnEntities | src/client/game/scenes/Ranked.ts:305-306 | the state becomes SpawnBurst |
| RankedScene.Ranked.SpawnPowerUp | src/client/game/scenes/Ranked.ts:342-369 | the state becomes SpawnPowerUp |
| RankedScene.Ranked.TickClocks | src/client/game/scenes/Ranked.ts:282-302 | the state becomes Tick |
| RankedScene.Ranked.ComboClock | src/client/game/scenes/Ranked.ts:282-290 | the combo timer block and the elapsed time leave the counters equal to ComboTick (see ComboTick and ComboTickSane) |
| RankedScene.Ranked.SpawnWhenDue | src/client/game/scenes/Ranked.ts:295-307 | the state becomes BurstIf, decided by the spawn interval |
| RankedScene.Ranked.PowerUpWhenDue | src/client/game/scenes/Ranked.ts:309-312 | the state becomes PowerUpIf |
| RankedScene.Ranked.Escape | src/client/game/scenes/Ranked.ts:327-338 | the state becomes EscapedAt: a strike if good, then out of the bucket and the list |
| RankedScene.Ranked.AdvanceEntity | src/client/game/scenes/Ranked.ts:315-338 | the state becomes AdvanceAt (see AdvanceAtFields) |
| RankedScene.Ranked.MoveEntity | src/client/game/scenes/Ranked.ts:318-325 | the entity becomes Moved and the grid Regrid |
| RankedScene.Ranked.AdvanceEntities | src/client/game/scenes/Ranked.ts:314-339 | the reverse loop leaves the state equal to AdvanceFrame (see AdvanceAllMoves and AdvanceAllStrikes) |
| RankedScene.Ranked.Update | src/client/game/scenes/Ranked.ts:277-340 | the state becomes Step, and the invariants are kept (see Step and StepSpawnsPowerUp) |
| CasualWorld.Detach | src/client/game/scenes/Game.ts:143-160 | flagging and splicing keeps every id stored and leaves the counters and timer alone |
| CasualWorld.CutPreservesWf | src/client/game/scenes/Game.ts:142-170 | a cut keeps the scene invariants |
| CasualWorld.CutFirstTime | src/client/game/scenes/Game.ts:142-170 | a first cut flags the entity and takes it off its bucket and the list. Good adds exactly one point. Anything else, power-ups included, adds one fail. The third fail zeroes both counters and restarts |
| CasualWorld.CutCounters | src/client/game/scenes/Game.ts:163-170 | within a run points never fall and fails grow by at most one per cut; a restart happens only at the third fail and leaves both counters at zero |
| CasualWorld.CutStoreChange | src/client/game/scenes/Game.ts:143-144 | a cut changes only the cut flag of the cut entity |
| CasualWorld.CutIdempotent | src/client/game/scenes/Game.ts:143-144 | cutting twice is cutting once |
| CasualWorld.SliceCutsAtMostOne | src/client/game/scenes/Game.ts:117-140 | a pointer move flags at most one entity, a probed candidate the pointer is inside of, and keeps the invariants |
| CasualWorld.Moved | src/client/game/scenes/Game.ts:192 | gravity 800 at full speed on every entity; `x` moves by `vx * dt` |
| CasualWorld.MovedAsRanked | src/client/game/scenes/Game.ts:192 | for every entity that is not a power-up, the casual motion is the Ranked motion with slow motion off |
| CasualWorld.AdvanceOne | src/client/game/scenes/Game.ts:191-198 | one loop step moves exactly its entity and never changes points, fails or timer |
| CasualWorld.AdvanceAll | src/client/game/scenes/Game.ts:190-199 | the loop keeps every id stored and never changes points or fails: expiry is silent |
| CasualWorld.AdvanceAtFields | src/client/game/scenes/Game.ts:191-198 | the loop body at `i`: move and re-bucket; if off screen, out of the bucket and the list; nothing else changes |
| CasualWorld.OnScreen | src/client/game/scenes/Game.ts:196 | an entity is kept exactly when it is inside the margins after moving |
| CasualWorld.AdvanceAllMoves | src/client/game/scenes/Game.ts:190-199 | a frame moves each live entity once, keeps exactly the on-screen ones in order, and leaves every other stored entity alone |
| CasualWorld.AdvanceFrameWf | src/client/game/scenes/Game.ts:190-199 | a frame keeps the invariants and the live list becomes the on-screen entities |
| CasualWorld.SpawnKind | src/client/game/scenes/Game.ts:206 | the new entity is good exactly when the roll is below 0.8, and bad otherwise |
| CasualWorld.NewEntitySpec | src/client/game/scenes/Game.ts:203-228 | an entity is built exactly when its pool and picked key are non-empty; it is uncut, below the bottom edge, with the scaled radius and the drawn speeds |
| CasualWorld.SpawnWf | src/client/game/scenes/Game.ts:231-232 | adding an entity under a fresh id keeps the invariants |
| CasualWorld.TimedSpec | src/client/game/scenes/Game.ts:187-188 | past 1.5 s the timer resets and at most one entity is added under the next id; otherwise only the timer grows; the counters never change |
| CasualWorld.StepWf | src/client/game/scenes/Game.ts:185-200 | a whole `update` keeps the invariants and never touches points or fails |
| CasualScene.Game.constructor | src/client/game/scenes/Game.ts:15-29 | zero counters, empty list and grid, not cutting, empty trail |
| CasualScene.Game.PointerDown | src/client/game/scenes/Game.ts:66 | a slice starts; the game state is unchanged |
| CasualScene.Game.PointerUp | src/client/game/scenes/Game.ts:67 | the slice ends and the trail is cleared |
| CasualScene.Game.UpdateTrail | src/client/game/scenes/Game.ts:78-80 | the trail becomes `Push` with capacity 10: at most ten samples, the newest last |
| CasualScene.Game.PointerMove | src/client/game/scenes/Game.ts:68-72 | when not cutting nothing changes; otherwise the trail is pushed and the state becomes `Slice` |
| CasualScene.Game.RestartGame | src/client/game/scenes/Game.ts:75 | points and fails become zero, and one more restart (the switch to the GameOver scene) is counted |
| CasualScene.Game.AddEntityToGrid | src/client/game/scenes/Game.ts:97-101 | the grid becomes GridAdd on the entity's current cell |
| CasualScene.Game.RemoveEntityFromGrid | src/client/game/scenes/Game.ts:103-109 | the grid becomes GridRemove on the entity's current cell |
| CasualScene.Game.UpdateEntityGridPosition | src/client/game/scenes/Game.ts:111-115 | the grid becomes `Regrid`, stale entry included |
| CasualScene.Game.CheckCutEntities | src/client/game/scenes/Game.ts:117-140 | the state becomes `Slice`, and the invariants are kept |
| CasualScene.Game.CutEntity | src/client/game/scenes/Game.ts:142-182 | the state becomes `Cut` (see CutFirstTime and CutIdempotent) |
| CasualScene.Game.DetachEntity | src/client/game/scenes/Game.ts:143-160 | the state becomes `Detach` |
| CasualScene.Game.TallyCut | src/client/game/scenes/Game.ts:163-170 | the counters become `Tally`: a point, or a fail with the restart at three |
| CasualScene.Game.AddEntity | src/client/game/scenes/Game.ts:231-232 | the state becomes Spawn |
| CasualScene.Game.SpawnEntity | src/client/game/scenes/Game.ts:203-242 | the state becomes SpawnOne |
| CasualScene.Game.SpawnWhenDue | src/client/game/scenes/Game.ts:187-188 | the state becomes Timed (see TimedSpec) |
| CasualScene.Game.Expire | src/client/game/scenes/Game.ts:196-198 | the entity leaves its bucket and the list; the counters do not change |
| CasualScene.Game.MoveEntity | src/client/game/scenes/Game.ts:192-194 | the entity becomes Moved and the grid Regrid |
| CasualScene.Game.AdvanceEntity | src/client/game/scenes/Game.ts:191-198 | the state becomes AdvanceAt |
| CasualScene.Game.AdvanceEntities | src/client/game/scenes/Game.ts:190-199 | the reverse loop leaves the state equal to AdvanceFrame |
| CasualScene.Game.Update | src/client/game/scenes/Game.ts:185-200 | the state becomes Step and the invariants are kept (see StepWf) |
| Leaderboard.DatePart | src/server/index.ts:143 | `slice(0, 10)`: a prefix of the timestamp of at most ten characters, exactly ten when the timestamp is that long |
| Leaderboard.BoardKeyInjective | src/server/index.ts:142-145 | two board keys are equal exactly when the metric and the date are |
| Leaderboard.Apply | src/server/index.ts:71 | `zAdd` sets the member's score and leaves the names alone; `hSet` sets one name and leaves the sorted sets alone |
| Leaderboard.OneMetricEffect | src/server/index.ts:69-73 | one loop body sets the user's score on the metric's board when the field is a number, and otherwise changes nothing |
| Leaderboard.WrittenCount | src/server/index.ts:69-73 | the loop makes one write per numeric field |
| Leaderboard.MetricWritesFrame | src/server/index.ts:69-73 | the metric writes keep the names and every other user's and board's score |
| Leaderboard.MetricWritesScores | src/server/index.ts:69-73 | after the writes each metric's board holds the submitted number, or the old score for a NaN field |
| Leaderboard.MetricOrderDistinct | src/server/index.ts:60-65 | the four metrics are visited once each |
| Leaderboard.SubmitRefused | src/server/index.ts:47-50 | a caller without a name or an id, and only such a caller, gets a 401, and nothing is written |
| Leaderboard.SubmitSaved | src/server/index.ts:67-78 | a signed-in caller's save succeeds exactly when every store call succeeds. The answer echoes the four converted fields, and each numeric field becomes the user's score on its board. A NaN field leaves its board alone, the name is recorded, and no other user changes |
| Leaderboard.SubmitFailed | src/server/index.ts:79-82 | a throwing store call gives a 500 with the name not recorded and no other user changed; each of the user's boards is untouched or holds the submitted number |
| Leaderboard.Redis.ZAdd | src/server/index.ts:71 | the store becomes Apply of the `zAdd` |
| Leaderboard.Redis.HSet | src/server/index.ts:76 | the store becomes Apply of the `hSet` |
| Leaderboard.SubmitScore | src/server/index.ts:43-83 | the loop and the name write leave the store and the answer equal to Submit (see SubmitRefused, SubmitSaved and SubmitFailed) |
| Leaderboard.SubmitStopsAt | src/server/index.ts:69-73 | a `zAdd` that throws inside the metric loop ends the request with a 500 and exactly the writes made before it |
| Leaderboard.SubmitTail | src/server/index.ts:76-79 | after the metric loop, a throwing `hSet` gives a 500 with the metric writes only; otherwise the name is mapped and the metrics are echoed |
| Leaderboard.DayChallengeSpec | src/server/index.ts:90-106 | days 0 to 6, and only those, have a challenge, and it is the `id` the shared daily-challenge configuration lists for that day |
| Leaderboard.ToRows | src/server/index.ts:113-120 | one row per fetched entry, in the fetched order, each the entry's member with its stored name and `score ?? 0` |
| Leaderboard.Insert | src/server/index.ts:122 | insertion adds exactly the one row |
| Leaderboard.InsertSorted | src/server/index.ts:122 | insertion keeps the descending order |
| Leaderboard.SortDesc | src/server/index.ts:122 | the sort is a permutation in non-increasing score order |
| Leaderboard.TopSpec | src/server/index.ts:122-124 | the top list is the first `min(10, n)` sorted rows; it is sorted, and no row left out scores more than one kept |
| Leaderboard.RankSpec | src/server/index.ts:129-132 | `1 <= rank <= n + 1`. The rank is at most `n` exactly when the caller is ranked, and then it is their first position counting from 1, with everyone ahead scoring at least as much |
| Leaderboard.TopBoardSpec | src/server/index.ts:89-140 | an invalid day gives a 500, and so does a failed fetch. Otherwise the answer names the configured challenge. Its list is the first `min(10, n)` rows of the descending sort of the fetched rows, and no fetched row left out scores more than a row in it. The caller's line is present exactly when signed in, and carries the current name. Its rank is the caller's position in that sort, at most `n` exactly when a fetched entry is theirs. Its score is the stored score, or 0 when there is none |
| Leaderboard.TopMaximal | src/server/index.ts:121-123 | no row outside the top ten of a descending ranking scores more than a row inside it |
| Leaderboard.RankedIffFetched | src/server/index.ts:110-131 | the caller appears in the ranking exactly when one of the fetched entries is theirs |

## Left out

- Rendering, the UI and the engine:
  - sprites, the split-half animations, tweens, the camera shake, background colours, entity borders, combo text and the text counters;
  - layout and resizing, rotation (`rotationSpeed`), sounds and their registry lookups;
  - the pause toggle and the other menu scenes.
  None of them affects the game state.
- The shield power-up is a stub that only logs. It is modelled as a no-op.
- Random draws (`Phaser.Math.Between`, `FloatBetween`, `Math.random`) are parameters. The launch speed `-sqrt(2 * 600 * h)` is a drawn parameter, because there is no square root over the reals. Nothing about the probability distributions is stated.
- Numbers are unbounded integers and exact reals. IEEE-754 rounding and `Number()` conversion are not modelled: a request field is given already converted, as `NaN` or a number, and infinities are not distinguished.
- RankedScene.Ranked.GameOver: the `fetch` to the leaderboard is modelled as recording the payload, and the counters reset straight away. The source resets them only after the awaited request settles, and it ignores the request's outcome either way. The scene switch to GameOver is not modelled: the scene's entities stay.
- GameOver's asynchrony has a consequence the model does not capture. In the source, any strike that comes before the awaited request settles calls `GameOver` again. It submits another payload and takes `failsCount` past 3. Two cases:
  - a second good entity escapes later in the same `update` loop (Ranked.ts:327-333);
  - a hazard is sliced while the request is pending.
  Scoring.StrikesCount, Scoring.ThreeStrikesEndRun and the scene invariant `fails < 3` describe the synchronous reset only.
- The engine-timer slow-motion expiry is the separate method `SlowmoExpired`. Nothing ties it to the five-second delay.
- Leaderboard.TopBoard: the `zRange` result is a parameter, not read from the modelled store. The `hGet` name lookups read the modelled `game:usernames`. The caller's `zScore` reads the modelled store.
- Leaderboard.TopBoard: only a failed `zRange` (the parameter `None`) gives the 500 `FetchFailed`. In the source, a throwing `hGet`, `zScore` or `getCurrentUsername` inside the same `try` also gives it (index.ts:110-139). The model treats those calls as never failing.
- Leaderboard.SortDesc: rows of equal score keep their input order, as with `Array.prototype.sort`. This stability is not stated in the contract: only the permutation and the order are.
- Leaderboard.Submit: which store call throws is the parameter `failAt`. Console logging and the Express plumbing are not modelled.
- Leaderboard.Submit: one timestamp `iso` serves all four board keys. In the source, `getLeaderboardKey` reads the clock once per metric (index.ts:71, 143). So a submission that straddles UTC midnight can split its scores across two days' boards. The model does not capture that split.
- `/api/init`, post creation, and server start-up carry none of the leaderboard logic.
- Preloader.WithSounds: only the nested form `{ subcategory: urls }` of a sound manifest is modelled. `loadSounds` also accepts a plain `string[]` (Preloader.ts:89). There `Object.entries` turns each index into a subcategory whose "files" are the characters of that url.
- The Preloader's `load.image`/`load.audio`/`load.json` calls, `load.start`, and the progress bar are foreign loader calls. Only the registry writes are modelled.
- The casual scene never spawns a power-up; it is cut like any other non-good entity. Its `effectsSounds` jump sound is not modelled.
- The asset generation tools are left out: they do filesystem work.
