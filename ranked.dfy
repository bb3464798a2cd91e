/**
 * The Ranked scene as the object the engine drives: pointer handlers, the spatial grid
 * maintenance, slicing, the power-up effects, spawning and the per-frame update. Every method
 * is proved to move the scene's state exactly as the matching definition of RankedWorld or
 * RankedStep says, and so to keep `Wf`.
 */
module RankedScene {
  import opened Seqs
  import opened SpatialGrid
  import opened Scoring
  import opened AssetKeys
  import opened Preloader
  import opened Trail
  import opened RankedWorld
  import opened RankedStep
  import opened Playfield

  class Ranked {
    var pointsCount: int
    var failsCount: int
    var elapsedTime: real
    var comboActiveTime: real
    var objectsCutCount: int
    var comboCount: int
    var comboTimer: real

    /** The live entities, in spawn order, by id. */
    var entities: seq<EntityId>
    /** Every entity object ever spawned, by id; a sliced one stays here with its `cut` flag set. */
    var store: Store
    var entityGrid: Grid
    var nextId: nat

    var spawnTimer: real
    var powerUpTimer: real
    var isCutting: bool
    var trailLine: seq<Point>
    var slowmoActive: bool
    var slowmoFactor: real

    /** The payloads posted to the leaderboard, oldest first. */
    var submitted: seq<Payload>

    /** The game registry the preloader filled. */
    const registry: Registry

    function Counters(): Score
      reads this`pointsCount, this`failsCount, this`elapsedTime, this`comboActiveTime,
            this`objectsCutCount, this`comboCount, this`comboTimer
    {
      Score(pointsCount, failsCount, elapsedTime, comboActiveTime, objectsCutCount, comboCount, comboTimer)
    }

    /** The scene's game state as a value. */
    function State(): World
      reads this
    {
      World(store, entityGrid, entities, Counters(), submitted, slowmoActive, slowmoFactor,
            spawnTimer, powerUpTimer, nextId)
    }

    /** The pointer state: whether a slice is in progress, and the trail drawn so far. */
    function Input(): (bool, seq<Point>)
      reads this
    {
      (isCutting, trailLine)
    }

    ghost predicate Valid()
      reads this
    {
      Wf(State())
    }

    constructor (registry: Registry)
      ensures this.registry == registry
      ensures State() == World(map[], map[], [], Initial, [], false, InitialSlowmoFactor, 0.0, 0.0, 0)
      ensures Input() == (false, [])
      ensures Valid()
    {
      pointsCount, failsCount, elapsedTime, comboActiveTime := 0, 0, 0.0, 0.0;
      objectsCutCount, comboCount, comboTimer := 0, 0, 0.0;
      entities, store, entityGrid, nextId := [], map[], map[], 0;
      spawnTimer, powerUpTimer := 0.0, 0.0;
      isCutting, trailLine := false, [];
      slowmoActive, slowmoFactor := false, InitialSlowmoFactor;
      submitted := [];
      this.registry := registry;
    }

    // ------------------------------------------------------------ input

    /** `pointerdown`: a slice starts. */
    method PointerDown()
      modifies this
      ensures Input() == (true, old(trailLine)) && State() == old(State())
    {
      isCutting := true;
    }

    /** `pointerup`: the slice ends and the trail is cleared. */
    method PointerUp()
      modifies this
      ensures Input() == (false, []) && State() == old(State())
    {
      isCutting := false;
      trailLine := [];
    }

    /** `updateTrail`: push the sample and drop the oldest one beyond fifteen. */
    method UpdateTrail(x: real, y: real)
      modifies this
      ensures trailLine == Push(old(trailLine), Point(x, y), RankedCapacity)
      ensures isCutting == old(isCutting) && State() == old(State())
    {
      trailLine := trailLine + [Point(x, y)];
      if |trailLine| > RankedCapacity {
        trailLine := trailLine[1..];
      }
    }

    /** `pointermove`: while cutting, extend the trail and slice at the pointer. */
    method PointerMove(px: real, py: real)
      requires Valid()
      modifies this
      ensures Valid()
      ensures !old(isCutting) ==> Input() == old(Input()) && State() == old(State())
      ensures old(isCutting) ==>
                Input() == (true, Push(old(trailLine), Point(px, py), RankedCapacity))
                && State() == Slice(old(State()), px, py)
    {
      if !isCutting {
        return;
      }
      UpdateTrail(px, py);
      CheckCutEntities(px, py);
    }

    // ------------------------------------------------------------ spatial grid

    /** `addEntityToGrid`. */
    method AddEntityToGrid(id: EntityId)
      requires id in store
      modifies this`entityGrid
      ensures entityGrid == GridAdd(old(entityGrid), KeyOf(store[id]), id)
    {
      var key := KeyOf(store[id]);
      if key !in entityGrid {
        entityGrid := entityGrid[key := []];
      }
      entityGrid := entityGrid[key := entityGrid[key] + [id]];
    }

    /** `removeEntityFromGrid`: splice the id out of the bucket of the entity's current position. */
    method RemoveEntityFromGrid(id: EntityId)
      requires id in store
      modifies this`entityGrid
      ensures entityGrid == GridRemove(old(entityGrid), KeyOf(store[id]), id)
    {
      var key := KeyOf(store[id]);
      var grid := entityGrid;
      if key in grid {
        var arr := grid[key];
        var idx := IndexOf(arr, id);
        if idx >= 0 {
          assert arr[..idx] + arr[idx + 1..] == RemoveFirst(arr, id);
          grid := grid[key := arr[..idx] + arr[idx + 1..]];
        } else {
          assert id !in arr;
        }
      }
      entityGrid := grid;
    }

    /** `updateEntityGridPosition`, after the entity has moved. */
    method UpdateEntityGridPosition(id: EntityId)
      requires id in store
      modifies this`entityGrid
      ensures entityGrid == Regrid(old(entityGrid), id, store[id])
    {
      var e := store[id];
      var oldKey := KeyAt(e.x - e.vx, e.y - e.vy);
      var newKey := KeyAt(e.x, e.y);
      if oldKey != newKey {
        RemoveEntityFromGrid(id);
        AddEntityToGrid(id);
      }
    }

    /** `entities.splice(i, 1)`. */
    method SpliceEntity(i: nat)
      requires i < |entities|
      modifies this`entities
      ensures entities == old(entities[..i] + entities[i + 1..])
    {
      entities := entities[..i] + entities[i + 1..];
    }
    // ------------------------------------------------------------ counters

    /** The good branch of `cutEntity`: a combo step, `floor(10 * multiplier)` points, one more object cut. */
    method ScoreGood()
      modifies this`pointsCount, this`comboCount, this`comboTimer, this`objectsCutCount
      ensures Counters() == CutGood(old(Counters()))
    {
      comboCount := comboCount + 1;
      comboTimer := ComboDuration;
      var multiplier := 1.0 + (comboCount - 1) as real * 0.5;
      var pointsGained := (BasePoints as real * multiplier).Floor;
      pointsCount := pointsCount + pointsGained;
      objectsCutCount := objectsCutCount + 1;
    }

    /** A strike (a sliced hazard or an escaped good entity): one more fail, no combo, and the game over at three. */
    method CountStrike()
      modifies this`pointsCount, this`failsCount, this`elapsedTime, this`comboActiveTime,
              this`objectsCutCount, this`comboCount, this`comboTimer, this`submitted
      ensures Counters() == Strike(old(Counters())).0
      ensures submitted == old(submitted) + Strike(old(Counters())).1
    {
      failsCount := failsCount + 1;
      comboCount := 0;
      if failsCount >= MaxFails {
        GameOver();
      }
    }

    /** `GameOver`: submit the run's payload, then reset all seven counters. */
    method GameOver()
      modifies this`pointsCount, this`failsCount, this`elapsedTime, this`comboActiveTime,
              this`objectsCutCount, this`comboCount, this`comboTimer, this`submitted
      ensures Counters() == Initial && submitted == old(submitted) + [PayloadOf(old(Counters()))]
    {
      var payload := Payload(pointsCount, elapsedTime, comboActiveTime, objectsCutCount);
      submitted := submitted + [payload];
      pointsCount := 0;
      failsCount := 0;
      elapsedTime := 0.0;
      comboActiveTime := 0.0;
      objectsCutCount := 0;
      comboCount := 0;
      comboTimer := 0.0;
    }

    // ------------------------------------------------------------ slicing

    /**
     * `checkCutEntities`: scan the five probed buckets for the first entity under the pointer,
     * take it out of its bucket and cut it.
     */
    method CheckCutEntities(px: real, py: real)
      requires Valid()
      modifies this`pointsCount, this`failsCount, this`elapsedTime, this`comboActiveTime,
              this`objectsCutCount, this`comboCount, this`comboTimer,
              this`store, this`entityGrid, this`entities, this`nextId, this`submitted,
              this`spawnTimer, this`powerUpTimer, this`slowmoActive, this`slowmoFactor
      ensures Valid() && State() == Slice(old(State()), px, py)
    {
      ghost var w := State();
      SliceCutsAtMostOne(w, px, py);
      var keysToCheck := ProbeKeys(px, py);
      var hit := FindHit(entityGrid, store, keysToCheck, px, py);
      match hit {
        case None =>
        case Some(id) =>
          FirstHitSpec(w.grid, w.store, keysToCheck, px, py);
          RemoveEntityFromGrid(id);
          GridRemoveInStore(w.grid, w.store, KeyOf(w.store[id]), id);
          CutEntity(id);
      }
    }

    /**
     * `cutEntity`, also the handler of a tap on the entity's sprite: nothing for an entity already
     * cut; otherwise flag it, take it off its bucket and the live list, then score a good entity,
     * strike for a hazard, or fire a power-up's effect.
     */
    method CutEntity(id: EntityId)
      requires Indexed(State()) && id in store
      modifies this`pointsCount, this`failsCount, this`elapsedTime, this`comboActiveTime,
              this`objectsCutCount, this`comboCount, this`comboTimer,
              this`store, this`entityGrid, this`entities, this`submitted,
              this`slowmoActive, this`slowmoFactor
      ensures State() == Cut(old(State()), id)
    {
      if store[id].cut {
        return;
      }
      var kind := store[id].kind;
      DetachEntity(id);
      ResolveCut(kind);
    }

    /** The first half of `cutEntity`: set the `cut` flag, then splice the entity out of its bucket and the live list. */
    method DetachEntity(id: EntityId)
      requires Indexed(State()) && id in store
      modifies this`store, this`entityGrid, this`entities
      ensures State() == Detach(old(State()), id)
    {
      ghost var w := State();
      var e := store[id];
      RemoveEntityFromGrid(id);
      SpliceOut(id);
      store := store[id := e.(cut := true)];
      assert State() == Detach(w, id) by {
        assert State() == w.(store := store, grid := entityGrid, entities := entities);
        DetachFields(w, id);
      }
    }

    /** `const index = this.entities.indexOf(e); if (index >= 0) this.entities.splice(index, 1);` */
    method SpliceOut(id: EntityId)
      modifies this`entities
      ensures entities == RemoveFirst(old(entities), id)
    {
      var index := IndexOf(entities, id);
      if index >= 0 {
        SpliceEntity(index);
      }
    }

    /** The second half of `cutEntity`: the counters, or the power-up's effect; a shield does nothing. */
    method ResolveCut(kind: Kind)
      requires Indexed(State())
      modifies this`pointsCount, this`failsCount, this`elapsedTime, this`comboActiveTime,
              this`objectsCutCount, this`comboCount, this`comboTimer,
              this`entityGrid, this`entities, this`submitted,
              this`slowmoActive, this`slowmoFactor
      ensures State() == Resolve(old(State()), kind)
    {
      match kind {
        case Good => ScoreGood();
        case Hazard => CountStrike();
        case PowerUp(powerUpId) =>
          match EffectOf(powerUpId) {
            case Some(KunaiStorm) =>
              ActivateKunaiStorm();
            case Some(Slowmo) => ActivateSlowmo();
            case Some(Shield) =>
            case None =>
          }
      }
    }

    // ------------------------------------------------------------ power-ups

    /** One good entity of the kunai storm: a point, a combo step, and a bonus on the running total. */
    method StormScore()
      modifies this`pointsCount, this`comboCount, this`comboTimer
      ensures Counters() == StormStep(old(Counters()))
    {
      pointsCount := pointsCount + 1;
      comboCount := comboCount + 1;
      comboTimer := ComboDuration;
      var multiplier := 1.0 + (comboCount - 1) as real * 0.5;
      pointsCount := pointsCount + (pointsCount as real * (multiplier - 1.0)).Floor;
    }

    /**
     * `activateKunaiStorm`: walking the live list from the back, every good entity scores, and
     * is taken out of its bucket and the list.
     */
    method ActivateKunaiStorm()
      requires forall id :: id in entities ==> id in store
      modifies this`entityGrid, this`entities, this`pointsCount, this`comboCount, this`comboTimer
      ensures entities == WithoutGood(old(entities), store)
      ensures entityGrid == StormGrid(old(entityGrid), old(entities), store)
      ensures Counters() == StormSteps(old(Counters()), GoodCount(old(entities), store))
    {
      if |entities| == 0 {
        return;
      }
      ghost var ents0, grid0, score0 := entities, entityGrid, Counters();
      var i := |entities|;
      while i > 0
        invariant 0 <= i <= |ents0|
        invariant entities == ents0[..i] + WithoutGood(ents0[i..], store)
        invariant entityGrid == StormGrid(grid0, ents0[i..], store)
        invariant Counters() == StormSteps(score0, GoodCount(ents0[i..], store))
      {
        i := i - 1;
        ghost var ents1, grid1, score1 := entities, entityGrid, Counters();
        assert entities[i] == ents0[i];
        StormVisit(i);
        StormLoopStep(grid0, score0, ents0, i, store, ents1, grid1, score1, entities, entityGrid, Counters());
      }
      assert ents0[0..] == ents0;
    }

    /** One iteration of the storm's loop: a good entity at position `i` scores and is spliced out; any other stays. */
    method StormVisit(i: nat)
      requires i < |entities| && entities[i] in store
      modifies this`entityGrid, this`entities, this`pointsCount, this`comboCount, this`comboTimer
      ensures var id := old(entities[i]);
              IsGood(store, id) ==>
                entities == old(entities[..i] + entities[i + 1..])
                && entityGrid == GridRemove(old(entityGrid), KeyOf(store[id]), id)
                && Counters() == StormStep(old(Counters()))
      ensures !IsGood(store, old(entities[i])) ==>
                entities == old(entities) && entityGrid == old(entityGrid) && Counters() == old(Counters())
    {
      var id := entities[i];
      if store[id].kind.Good? {
        StormScore();
        RemoveEntityFromGrid(id);
        SpliceEntity(i);
      }
    }

    /** `activateSlowmo`: switch slow motion on at 30% speed, unless it is already on. */
    method ActivateSlowmo()
      modifies this`slowmoActive, this`slowmoFactor
      ensures State() == SlowmoOn(old(State()))
    {
      if slowmoActive {
        return;
      }
      slowmoActive := true;
      slowmoFactor := SlowmoSpeed;
    }

    /** The callback `activateSlowmo` schedules five seconds later: slow motion off, full speed. */
    method SlowmoExpired()
      requires Valid()
      modifies this`slowmoActive, this`slowmoFactor
      ensures Valid()
      ensures State() == old(State()).(slowmoActive := false, slowmoFactor := RestoredSlowmoFactor)
    {
      slowmoActive := false;
      slowmoFactor := RestoredSlowmoFactor;
    }

    // ------------------------------------------------------------ spawning

    /**
     * `spawnEntity`'s placement loop: up to ten position draws are checked against the live
     * hazards; the first clear one is taken, or else the draw that follows the tenth.
     */
    method PickSpawnX(xs: seq<real>) returns (x: real)
      requires Indexed(State()) && |xs| == SpawnRetries + 1
      ensures x == xs[SpawnXIndex(xs, entities, store, 0)]
    {
      var validPosition := false;
      var attempts := 0;
      var spawnX := xs[0];
      while !validPosition && attempts < SpawnRetries
        invariant 0 <= attempts <= SpawnRetries
        invariant !validPosition ==>
                    spawnX == xs[attempts]
                    && SpawnXIndex(xs, entities, store, 0) == SpawnXIndex(xs, entities, store, attempts)
        invariant validPosition ==>
                    0 < attempts && spawnX == xs[attempts - 1]
                    && SpawnXIndex(xs, entities, store, 0) == attempts - 1
      {
        validPosition := !HazardNear(entities, store, spawnX);
        if !validPosition {
          spawnX := xs[attempts + 1];
        }
        attempts := attempts + 1;
      }
      x := spawnX;
    }

    /** Store a new entity under the next id, push it on the live list, then onto its bucket. */
    method AddEntity(e: Entity)
      modifies this`store, this`entities, this`entityGrid, this`nextId
      ensures State() == Spawn(old(State()), e)
    {
      var id := nextId;
      store := store[id := e];
      entities := entities + [id];
      AddEntityToGrid(id);
      nextId := id + 1;
    }

    /**
     * The entity `spawnEntity` builds from the draws `d`, or nothing when the icon pool of its
     * kind is empty or the picked key is empty.
     */
    method BuildEntity(d: SpawnDraw, width: real, height: real) returns (r: Option<Entity>)
      requires Indexed(State()) && |d.xs| == SpawnRetries + 1
      ensures r == NewEntity(State(), registry.data, d, width, height)
    {
      var x := PickSpawnX(d.xs);
      var y := height + d.radius as real;
      var kind := SpawnKind(HazardCount(entities, store), d.roll);
      var iconArray := IconPool(registry.data, kind);
      if |iconArray| == 0 {
        return None;
      }
      var key := PickIcon(iconArray, d.iconPick);
      if key == "" {
        return None;
      }
      var scaleFactor := ResponsiveScale(width);
      var displaySize := d.radius as real * 2.0 * scaleFactor;
      var vx, vy := Launch(d, kind);
      return Some(Entity(x, y, vx, vy, displaySize / 2.0, kind, false));
    }

    /** `spawnEntity`'s speeds: the slow-motion launch, the hazard factors, the final boost. */
    method Launch(d: SpawnDraw, kind: Kind) returns (vx: real, vy: real)
      ensures vx == LaunchVelocity(d, kind, slowmoActive, slowmoFactor).0
      ensures vy == LaunchVelocity(d, kind, slowmoActive, slowmoFactor).1
    {
      vy := if slowmoActive then d.launchVy * slowmoFactor else d.launchVy;
      vx := d.vx;
      if kind.Hazard? {
        vy := vy * d.hazardVy;
        vx := vx * d.hazardVx;
      }
      vy := vy * d.boost;
    }

    /** `spawnEntity(width, height)`, its random draws given as `d`. */
    method SpawnEntity(d: SpawnDraw, width: real, height: real)
      requires Valid() && |d.xs| == SpawnRetries + 1
      modifies this`store, this`entities, this`entityGrid, this`nextId
      ensures State() == SpawnOne(old(State()), registry.data, d, width, height)
    {
      var r := BuildEntity(d, width, height);
      match r {
        case None =>
        case Some(e) => AddEntity(e);
      }
    }

    /** The burst of `update`: `spawnEntity` once per draw. */
    method SpawnEntities(ds: seq<SpawnDraw>, width: real, height: real)
      requires Valid() && DrawsOk(ds)
      modifies this`store, this`entities, this`entityGrid, this`nextId
      ensures State() == SpawnBurst(old(State()), registry.data, ds, width, height)
    {
      ghost var w0 := State();
      for i := 0 to |ds|
        invariant DrawsOk(ds[..i])
        invariant State() == SpawnBurst(w0, registry.data, ds[..i], width, height)
      {
        DrawsOkPrefix(ds, i + 1);
        assert ds[..i + 1][..i] == ds[..i] && ds[..i + 1][i] == ds[i];
        SpawnEntity(ds[i], width, height);
      }
      assert ds[..|ds|] == ds;
    }

    /** `spawnPowerUp(width)`, its random draws given as `d`. */
    method SpawnPowerUp(d: PowerUpDraw)
      requires Valid()
      modifies this`store, this`entities, this`entityGrid, this`nextId
      ensures State() == RankedStep.SpawnPowerUp(old(State()), registry.data, d)
    {
      var powerUpIcons := KeyListAt(registry.data, IconsRegistryKey("powerUps"));
      if |powerUpIcons| == 0 {
        return;
      }
      var key := PickIcon(powerUpIcons, d.iconPick);
      if key == "" {
        return;
      }
      AddEntity(Entity(d.x, PowerUpStartY, 0.0, d.vy, PowerUpRadius, PowerUp(key), false));
    }

    // ------------------------------------------------------------ update

    /** The start of `update`: the combo clock, the elapsed time and the two timers. */
    method TickClocks(dt: real)
      requires Valid() && dt >= 0.0
      modifies this`elapsedTime, this`comboActiveTime, this`comboCount, this`comboTimer,
              this`powerUpTimer, this`spawnTimer
      ensures State() == Tick(old(State()), dt)
    {
      ghost var w := State();
      ComboClock(dt);
      powerUpTimer := powerUpTimer + dt;
      spawnTimer := spawnTimer + dt;
      assert State() == w.(score := ComboTick(w.score, dt), powerUpTimer := w.powerUpTimer + dt,
                           spawnTimer := w.spawnTimer + dt);
    }

    /** The combo timer block and the elapsed time: the counters become ComboTick. */
    method ComboClock(dt: real)
      modifies this`elapsedTime, this`comboActiveTime, this`comboCount, this`comboTimer
      ensures Counters() == ComboTick(old(Counters()), dt)
    {
      var timer, active, combo := comboTimer, comboActiveTime, comboCount;
      if combo > 0 {
        timer := timer - dt;
        if timer > 0.0 {
          active := active + dt;
        } else {
          combo := 0;
        }
      }
      comboTimer, comboActiveTime, comboCount := timer, active, combo;
      elapsedTime := elapsedTime + dt;
    }

    /** `if (spawnTimer > spawnInterval) { spawnTimer = 0; <burst> }`. */
    method SpawnWhenDue(ds: seq<SpawnDraw>, width: real, height: real)
      requires Valid() && DrawsOk(ds)
      modifies this`store, this`entities, this`entityGrid, this`nextId, this`spawnTimer
      ensures State() == BurstIf(old(State()), SpawnDue(old(State())), registry.data, ds, width, height)
    {
      var spawnInterval := SpawnInterval(elapsedTime, slowmoActive, slowmoFactor);
      if spawnTimer > spawnInterval {
        spawnTimer := 0.0;
        SpawnEntities(ds, width, height);
      }
    }

    /** `if (powerUpTimer > powerUpInterval) { powerUpTimer = 0; spawnPowerUp(width) }`. */
    method PowerUpWhenDue(d: PowerUpDraw)
      requires Valid()
      modifies this`store, this`entities, this`entityGrid, this`nextId, this`powerUpTimer
      ensures State() == PowerUpIf(old(State()), registry.data, d)
    {
      if powerUpTimer > PowerUpInterval {
        powerUpTimer := 0.0;
        SpawnPowerUp(d);
      }
    }

    /** An entity that left the screen: a strike if it was good, then out of its bucket and the live list. */
    method Escape(i: nat)
      requires i < |entities| && entities[i] in store
      modifies this`pointsCount, this`failsCount, this`elapsedTime, this`comboActiveTime,
              this`objectsCutCount, this`comboCount, this`comboTimer, this`submitted,
              this`entityGrid, this`entities
      ensures State() == EscapedAt(old(State()), i)
    {
      ghost var r := EscapedAt(State(), i);
      var id := entities[i];
      var good := store[id].kind.Good?;
      if good {
        CountStrike();
      }
      assert Counters() == r.score && submitted == r.sent;
      RemoveEntityFromGrid(id);
      SpliceEntity(i);
      assert entityGrid == r.grid && entities == r.entities;
    }

    /** One iteration of `update`'s reverse loop, at position `i` of the live list. */
    method AdvanceEntity(i: nat, env: Env)
      requires Indexed(State()) && i < |entities|
      modifies this`pointsCount, this`failsCount, this`elapsedTime, this`comboActiveTime,
              this`objectsCutCount, this`comboCount, this`comboTimer, this`submitted,
              this`store, this`entityGrid, this`entities
      ensures State() == AdvanceAt(old(State()), i, env)
    {
      ghost var w := State();
      var id := entities[i];
      MoveEntity(id, env);
      assert State() == MovedAt(w, i, env);
      AdvanceAtSplit(w, i, env);
      if OutOfBounds(store[id], env.width, env.height) {
        Escape(i);
      }
    }

    /** The motion of one entity in `update`: gravity, the sine flutter and slow motion, then `updateEntityGridPosition`. */
    method MoveEntity(id: EntityId, env: Env)
      requires id in store
      modifies this`store, this`entityGrid
      ensures store == old(store)[id := Moved(old(store[id]), slowmoActive, slowmoFactor, env)]
      ensures entityGrid == Regrid(old(entityGrid), id, store[id])
    {
      store := store[id := Moved(store[id], slowmoActive, slowmoFactor, env)];
      UpdateEntityGridPosition(id);
    }

    /** `update`'s loop over the live list, last entity first. */
    method AdvanceEntities(env: Env)
      requires Indexed(State())
      modifies this`pointsCount, this`failsCount, this`elapsedTime, this`comboActiveTime,
              this`objectsCutCount, this`comboCount, this`comboTimer, this`submitted,
              this`store, this`entityGrid, this`entities
      ensures State() == AdvanceFrame(old(State()), env)
    {
      ghost var base, ids := State().(entities := []), entities;
      AdvancedFromEnds(State(), env);
      var i := |entities|;
      while i > 0
        invariant 0 <= i <= |ids|
        invariant State() == AdvancedFrom(base, ids, i, env)
      {
        i := i - 1;
        AdvanceLoopStep(base, ids, i, env);
        ghost var v := State();
        assert Indexed(v) && i < |v.entities|;
        AdvanceEntity(i, env);
        assert State() == AdvanceAt(v, i, env);
      }
    }

    /**
     * `update(time, delta)`, with `env.dt = delta / 1000`: the clocks, the timed burst, the
     * power-up, and the frame of motion and expiry.
     */
    method Update(env: Env, ds: seq<SpawnDraw>, pu: PowerUpDraw)
      requires Valid() && DrawsOk(ds) && env.dt >= 0.0
      modifies this`pointsCount, this`failsCount, this`elapsedTime, this`comboActiveTime,
              this`objectsCutCount, this`comboCount, this`comboTimer, this`submitted,
              this`store, this`entityGrid, this`entities, this`nextId,
              this`spawnTimer, this`powerUpTimer
      ensures Valid() && State() == Step(old(State()), registry.data, env, ds, pu)
    {
      ghost var w0 := State();
      TickClocks(env.dt);
      ghost var w1 := State();
      assert w1 == Tick(w0, env.dt) && Wf(w1);
      SpawnWhenDue(ds, env.width, env.height);
      ghost var w2 := State();
      assert w2 == TimedBurst(w0, registry.data, env.dt, env.width, env.height, ds) && Wf(w2);
      PowerUpWhenDue(pu);
      ghost var w3 := State();
      assert w3 == Spawns(w0, registry.data, env.dt, env.width, env.height, ds, pu) && Wf(w3);
      AdvanceEntities(env);
      AdvanceFrameWf(w3, env);
    }
  }
}
