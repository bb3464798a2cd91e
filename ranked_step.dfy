/**
 * One call of the Ranked scene's `update`: the combo clock, the spawn and power-up timers, the
 * burst of new entities when the spawn timer runs out, a falling power-up every thirty seconds,
 * and the frame of motion and expiry. Random draws and the engine's frame data are parameters.
 */
module RankedStep {
  import opened Seqs
  import opened SpatialGrid
  import opened Scoring
  import opened AssetKeys
  import opened Preloader
  import opened RankedWorld
  import opened Playfield

  /** Seconds between two power-ups. */
  const PowerUpInterval: real := 30.0
  /** Half the 60-pixel display size of a power-up. */
  const PowerUpRadius: real := 30.0
  /** Power-ups start above the top edge. */
  const PowerUpStartY: real := -50.0

  /**
   * The draws one `spawnEntity` call takes: the radius, the eleven position draws of the
   * placement loop, the kind roll, the icon pick, the launch speed `-sqrt(2 * 600 * h)`, the
   * horizontal speed, the two hazard speed factors and the final vertical boost.
   */
  datatype SpawnDraw = SpawnDraw(radius: int, xs: seq<real>, roll: real, iconPick: nat, launchVy: real,
                                 vx: real, hazardVy: real, hazardVx: real, boost: real)

  /** The draws `spawnPowerUp` takes: the icon pick, the position and the fall speed. */
  datatype PowerUpDraw = PowerUpDraw(iconPick: nat, x: real, vy: real)

  /** Each draw carries the eleven position draws of the placement loop. */
  predicate DrawsOk(ds: seq<SpawnDraw>)
  {
    forall i :: 0 <= i < |ds| ==> |ds[i].xs| == SpawnRetries + 1
  }

  lemma DrawsOkPrefix(ds: seq<SpawnDraw>, i: nat)
    requires DrawsOk(ds) && i <= |ds|
    ensures DrawsOk(ds[..i])
  {
    forall j | 0 <= j < i ensures |ds[..i][j].xs| == SpawnRetries + 1 {
      assert ds[..i][j] == ds[j];
    }
  }

  /**
   * `spawnEntity`'s new entity, or nothing when the icon pool is empty or the picked key is empty.
   * It rises from just below the bottom edge, at the first position draw clear of live hazards,
   * with the kind `SpawnKind` picks; its speeds follow the slow-motion and hazard factors.
   */
  function NewEntity(w: World, data: RegistryData, d: SpawnDraw, width: real, height: real): Option<Entity>
    requires Indexed(w) && |d.xs| == SpawnRetries + 1
  {
    var x := d.xs[SpawnXIndex(d.xs, w.entities, w.store, 0)];
    var y := height + d.radius as real;
    var kind := SpawnKind(HazardCount(w.entities, w.store), d.roll);
    var pool := IconPool(data, kind);
    if |pool| == 0 then None
    else if PickIcon(pool, d.iconPick) == "" then None
    else
      var size := d.radius as real * 2.0 * ResponsiveScale(width);
      var (vx, vy) := LaunchVelocity(d, kind, w.slowmoActive, w.slowmoFactor);
      Some(Entity(x, y, vx, vy, size / 2.0, kind, false))
  }

  /** The launch speeds: slowed by slow motion, scaled by the hazard factors for a hazard, then boosted. */
  function LaunchVelocity(d: SpawnDraw, kind: Kind, slowmo: bool, factor: real): (real, real)
  {
    var vy0 := if slowmo then d.launchVy * factor else d.launchVy;
    if kind.Hazard? then (d.vx * d.hazardVx, vy0 * d.hazardVy * d.boost) else (d.vx, vy0 * d.boost)
  }

  /**
   * A new entity appears exactly when the pool of its kind is non-empty and the picked key is
   * not empty. It has the kind `SpawnKind` picks, is not cut, stands at the chosen position
   * draw just below the bottom edge, has the drawn radius scaled to the screen, and launches
   * with the drawn speeds, slowed by slow motion and scaled by the hazard factors.
   */
  lemma NewEntitySpec(w: World, data: RegistryData, d: SpawnDraw, width: real, height: real)
    requires Indexed(w) && |d.xs| == SpawnRetries + 1
    ensures var r := NewEntity(w, data, d, width, height);
            var kind := SpawnKind(HazardCount(w.entities, w.store), d.roll);
            var pool := IconPool(data, kind);
            (r.Some? <==> |pool| > 0 && PickIcon(pool, d.iconPick) != "")
            && (r.Some? ==>
                  r.value.kind == kind && !r.value.cut
                  && r.value.x == d.xs[SpawnXIndex(d.xs, w.entities, w.store, 0)]
                  && r.value.y == height + d.radius as real
                  && r.value.radius == d.radius as real * ResponsiveScale(width)
                  && r.value.vx == d.vx * (if kind.Hazard? then d.hazardVx else 1.0)
                  && r.value.vy == d.launchVy * (if w.slowmoActive then w.slowmoFactor else 1.0)
                                   * (if kind.Hazard? then d.hazardVy else 1.0) * d.boost)
  {
    var kind := SpawnKind(HazardCount(w.entities, w.store), d.roll);
    var pool := IconPool(data, kind);
    if |pool| > 0 && PickIcon(pool, d.iconPick) != "" {
      var r := NewEntity(w, data, d, width, height).value;
      var s := ResponsiveScale(width);
      var rad := d.radius as real;
      assert rad * 2.0 * s == 2.0 * (rad * s);
      var f := if w.slowmoActive then w.slowmoFactor else 1.0;
      var vy0 := if w.slowmoActive then d.launchVy * w.slowmoFactor else d.launchVy;
      assert vy0 == d.launchVy * f;
      if kind.Hazard? {
        assert r.vy == vy0 * d.hazardVy * d.boost;
      } else {
        assert r.vy == vy0 * d.boost;
      }
    }
  }

  /**
   * Whenever one of the ten checked position draws is clear of every live hazard, the new entity
   * is placed clear of every live hazard.
   */
  lemma SpawnAvoidsHazards(w: World, data: RegistryData, d: SpawnDraw, width: real, height: real)
    requires Indexed(w) && |d.xs| == SpawnRetries + 1
    requires exists j :: 0 <= j < SpawnRetries && !HazardNear(w.entities, w.store, d.xs[j])
    requires NewEntity(w, data, d, width, height).Some?
    ensures !HazardNear(w.entities, w.store, NewEntity(w, data, d, width, height).value.x)
  {
    var j :| 0 <= j < SpawnRetries && !HazardNear(w.entities, w.store, d.xs[j]);
    NewEntitySpec(w, data, d, width, height);
    SpawnXIndexSpec(d.xs, w.entities, w.store, 0);
  }

  /** One `spawnEntity` call. */
  function SpawnOne(w: World, data: RegistryData, d: SpawnDraw, width: real, height: real): (r: World)
    requires Wf(w) && |d.xs| == SpawnRetries + 1
    ensures Wf(r) && (HazardCap(w) ==> HazardCap(r))
  {
    NewEntitySpec(w, data, d, width, height);
    match NewEntity(w, data, d, width, height)
    case None => w
    case Some(e) =>
      SpawnWf(w, e);
      SpawnHazardCap(w, e, d.roll);
      Spawn(w, e)
  }

  /** The `for (let i = 0; i < count; i++) this.spawnEntity(...)` burst, draw by draw. */
  function SpawnBurst(w: World, data: RegistryData, ds: seq<SpawnDraw>, width: real, height: real): (r: World)
    requires Wf(w) && DrawsOk(ds)
    ensures Wf(r) && (HazardCap(w) ==> HazardCap(r))
  {
    if ds == [] then w
    else
      var init := ds[..|ds| - 1];
      DrawsOkPrefix(ds, |ds| - 1);
      SpawnOne(SpawnBurst(w, data, init, width, height), data, ds[|ds| - 1], width, height)
  }

  /** `spawnPowerUp`'s new entity, or nothing when no power-up icon is loaded or the picked key is empty. */
  function NewPowerUp(data: RegistryData, d: PowerUpDraw): (r: Option<Entity>)
    ensures var pool := KeyListAt(data, IconsRegistryKey("powerUps"));
            (r.Some? <==> |pool| > 0 && PickIcon(pool, d.iconPick) != "")
            && (r.Some? ==>
                  r.value == Entity(d.x, PowerUpStartY, 0.0, d.vy, PowerUpRadius,
                                    PowerUp(PickIcon(pool, d.iconPick)), false))
            && (r.Some? ==> r.value.kind.PowerUp? && r.value.kind.powerUpId in pool && r.value.kind.powerUpId != "")
            && (r.Some? ==> !r.value.cut && r.value.y < 0.0 && r.value.vx == 0.0 && r.value.radius > 0.0)
  {
    var pool := KeyListAt(data, IconsRegistryKey("powerUps"));
    if |pool| == 0 then None
    else
      var key := PickIcon(pool, d.iconPick);
      if key == "" then None
      else Some(Entity(d.x, PowerUpStartY, 0.0, d.vy, PowerUpRadius, PowerUp(key), false))
  }

  /**
   * The loader and the spawner agree: once `loadIcons` has stored `n > 0` power-up icon keys,
   * `spawnPowerUp` always builds a power-up, carrying the key of the icon its pick selects.
   */
  lemma PowerUpFromLoadedIcons(data: RegistryData, n: nat, d: PowerUpDraw)
    requires n > 0
    ensures NewPowerUp(WithIcons(data, "powerUps", n), d).Some?
    ensures NewPowerUp(WithIcons(data, "powerUps", n), d).value.kind == PowerUp(IconKey("powerUps", d.iconPick % n))
  {
    IconKeysSpec("powerUps", n);
    assert IconKey("powerUps", d.iconPick % n) != "" by {
      assert |IconKey("powerUps", d.iconPick % n)| >= |"powerUps_"|;
    }
  }

  /** One `spawnPowerUp` call. */
  function SpawnPowerUp(w: World, data: RegistryData, d: PowerUpDraw): (r: World)
    requires Wf(w)
    ensures Wf(r) && (HazardCap(w) ==> HazardCap(r))
  {
    match NewPowerUp(data, d)
    case None => w
    case Some(e) =>
      SpawnWf(w, e);
      SpawnHazardCap(w, e, 0.0);
      Spawn(w, e)
  }

  /** The start of `update`: the combo clock and the two timers run on by `dt`; nothing else moves. */
  function Tick(w: World, dt: real): (r: World)
    requires Wf(w) && dt >= 0.0
    ensures Wf(r) && r.entities == w.entities && r.store == w.store
    ensures r.powerUpTimer == w.powerUpTimer + dt && r.spawnTimer == w.spawnTimer + dt
    ensures r.score == ComboTick(w.score, dt) && r.score.elapsed == w.score.elapsed + dt
    ensures r.grid == w.grid && r.sent == w.sent && r.nextId == w.nextId
    ensures r.slowmoActive == w.slowmoActive && r.slowmoFactor == w.slowmoFactor
  {
    ComboTickSane(w.score, dt);
    w.(score := ComboTick(w.score, dt), powerUpTimer := w.powerUpTimer + dt,
       spawnTimer := w.spawnTimer + dt)
  }

  /** `spawnTimer > spawnInterval`, the interval following the elapsed time and slow motion. */
  predicate SpawnDue(w: World)
    requires w.slowmoFactor > 0.0
  {
    w.spawnTimer > SpawnInterval(w.score.elapsed, w.slowmoActive, w.slowmoFactor)
  }

  /** The ticked world, then the burst when the spawn timer has run past the spawn interval. */
  function TimedBurst(w: World, data: RegistryData, dt: real, width: real, height: real,
                      ds: seq<SpawnDraw>): (r: World)
    requires Wf(w) && DrawsOk(ds) && dt >= 0.0
    ensures Wf(r) && (HazardCap(w) ==> HazardCap(r))
  {
    var w1 := Tick(w, dt);
    BurstIf(w1, SpawnDue(w1), data, ds, width, height)
  }

  /** `if (spawnTimer > spawnInterval) { spawnTimer = 0; <burst> }`, with the comparison's outcome given. */
  function BurstIf(w: World, due: bool, data: RegistryData, ds: seq<SpawnDraw>, width: real, height: real): (r: World)
    requires Wf(w) && DrawsOk(ds)
    ensures Wf(r) && (HazardCap(w) ==> HazardCap(r))
  {
    if due then SpawnBurst(w.(spawnTimer := 0.0), data, ds, width, height) else w
  }

  /** The first part of `update`: the timed burst, then a power-up once the power-up timer passes thirty seconds. */
  function Spawns(w: World, data: RegistryData, dt: real, width: real, height: real,
                  ds: seq<SpawnDraw>, pu: PowerUpDraw): (r: World)
    requires Wf(w) && DrawsOk(ds) && dt >= 0.0
    ensures Wf(r) && (HazardCap(w) ==> HazardCap(r))
  {
    PowerUpIf(TimedBurst(w, data, dt, width, height, ds), data, pu)
  }

  /** `if (powerUpTimer > powerUpInterval) { powerUpTimer = 0; spawnPowerUp(width) }`. */
  function PowerUpIf(w: World, data: RegistryData, pu: PowerUpDraw): (r: World)
    requires Wf(w)
    ensures Wf(r) && (HazardCap(w) ==> HazardCap(r))
  {
    if w.powerUpTimer > PowerUpInterval then SpawnPowerUp(w.(powerUpTimer := 0.0), data, pu) else w
  }

  /** One `update(time, delta)` call, with `env.dt = delta / 1000`. */
  function Step(w: World, data: RegistryData, env: Env, ds: seq<SpawnDraw>, pu: PowerUpDraw): (r: World)
    requires Wf(w) && DrawsOk(ds) && env.dt >= 0.0
    ensures Wf(r) && (HazardCap(w) ==> HazardCap(r))
  {
    var w1 := Spawns(w, data, env.dt, env.width, env.height, ds, pu);
    AdvanceFrameWf(w1, env);
    FrameKeepsHazardCap(w1, env);
    AdvanceFrame(w1, env)
  }

  /**
   * A burst only adds entities: under fresh ids, never power-ups, at most one per draw, and it
   * touches neither the stored entities nor the counters, the slow-motion switch or the timers.
   */
  lemma {:induction false} SpawnBurstAdds(w: World, data: RegistryData, ds: seq<SpawnDraw>, width: real, height: real)
    requires Wf(w) && DrawsOk(ds)
    ensures var r := SpawnBurst(w, data, ds, width, height);
            w.nextId <= r.nextId <= w.nextId + |ds|
            && (forall id :: id in w.store ==> id in r.store && r.store[id] == w.store[id])
            && (forall id :: id in r.store && id !in w.store ==> w.nextId <= id && !r.store[id].kind.PowerUp?)
            && r.score == w.score && r.sent == w.sent
            && r.slowmoActive == w.slowmoActive && r.slowmoFactor == w.slowmoFactor
            && r.spawnTimer == w.spawnTimer && r.powerUpTimer == w.powerUpTimer
  {
    if ds != [] {
      var init := ds[..|ds| - 1];
      DrawsOkPrefix(ds, |ds| - 1);
      SpawnBurstAdds(w, data, init, width, height);
      var v := SpawnBurst(w, data, init, width, height);
      var r := SpawnOne(v, data, ds[|ds| - 1], width, height);
      match NewEntity(v, data, ds[|ds| - 1], width, height)
      case None =>
        assert r == v;
      case Some(e) =>
        assert r == Spawn(v, e);
    }
  }

  /** Whether `r` holds a power-up that `w` did not. */
  predicate NewPowerUpIn(w: World, r: World)
  {
    exists id :: id in r.store && id !in w.store && r.store[id].kind.PowerUp?
  }

  /** `spawnPowerUp` adds a power-up exactly when a non-empty key is picked, and keeps every stored entity. */
  lemma SpawnPowerUpAdds(w: World, data: RegistryData, d: PowerUpDraw)
    requires Wf(w)
    ensures var r := SpawnPowerUp(w, data, d);
            (forall id :: id in w.store ==> id in r.store && r.store[id] == w.store[id])
            && (NewPowerUpIn(w, r) <==> NewPowerUp(data, d).Some?)
  {
    var r := SpawnPowerUp(w, data, d);
    if NewPowerUp(data, d).Some? {
      assert w.nextId in r.store && w.nextId !in w.store && r.store[w.nextId].kind.PowerUp?;
    } else {
      assert r == w;
    }
  }

  /** The timed burst adds no power-up, keeps every stored entity, and leaves the power-up clock `dt` further on. */
  lemma TimedBurstKeeps(w: World, data: RegistryData, dt: real, width: real, height: real, ds: seq<SpawnDraw>)
    requires Wf(w) && DrawsOk(ds) && dt >= 0.0
    ensures var r := TimedBurst(w, data, dt, width, height, ds);
            (forall id :: id in w.store ==> id in r.store && r.store[id] == w.store[id])
            && !NewPowerUpIn(w, r) && r.powerUpTimer == w.powerUpTimer + dt
  {
    var w1 := Tick(w, dt);
    BurstIfKeeps(w1, SpawnDue(w1), data, ds, width, height);
  }

  lemma BurstIfKeeps(w: World, due: bool, data: RegistryData, ds: seq<SpawnDraw>, width: real, height: real)
    requires Wf(w) && DrawsOk(ds)
    ensures var r := BurstIf(w, due, data, ds, width, height);
            (forall id :: id in w.store ==> id in r.store && r.store[id] == w.store[id])
            && !NewPowerUpIn(w, r) && r.powerUpTimer == w.powerUpTimer
  {
    if due {
      SpawnBurstAdds(w.(spawnTimer := 0.0), data, ds, width, height);
    }
  }

  /** The spawn half of `update` adds a power-up exactly when the clock passes thirty seconds and a key is picked. */
  lemma SpawnsPowerUp(w: World, data: RegistryData, dt: real, width: real, height: real,
                      ds: seq<SpawnDraw>, pu: PowerUpDraw)
    requires Wf(w) && DrawsOk(ds) && dt >= 0.0
    ensures var r := Spawns(w, data, dt, width, height, ds, pu);
            (forall id :: id in w.store ==> id in r.store)
            && (NewPowerUpIn(w, r) <==> (w.powerUpTimer + dt > PowerUpInterval && NewPowerUp(data, pu).Some?))
  {
    var w2 := TimedBurst(w, data, dt, width, height, ds);
    TimedBurstKeeps(w, data, dt, width, height, ds);
    if w2.powerUpTimer > PowerUpInterval {
      var v := w2.(powerUpTimer := 0.0);
      SpawnPowerUpAdds(v, data, pu);
      var r := SpawnPowerUp(v, data, pu);
      if NewPowerUpIn(w, r) {
        var id :| id in r.store && id !in w.store && r.store[id].kind.PowerUp?;
        assert id !in v.store;
      }
    }
  }

  /** A frame keeps every stored entity, and its kind. */
  lemma FrameKeepsKinds(w: World, env: Env)
    requires Wf(w)
    ensures var r := AdvanceFrame(w, env);
            r.store.Keys == w.store.Keys && forall id :: id in w.store ==> r.store[id].kind == w.store[id].kind
  {
    AdvanceAllMoves(w.(entities := []), w.entities, env);
  }

  /**
   * A power-up appears in an update exactly when the power-up clock passes thirty seconds and
   * a non-empty power-up key is picked.
   */
  lemma StepSpawnsPowerUp(w: World, data: RegistryData, env: Env, ds: seq<SpawnDraw>, pu: PowerUpDraw)
    requires Wf(w) && DrawsOk(ds) && env.dt >= 0.0
    ensures NewPowerUpIn(w, Step(w, data, env, ds, pu))
            <==> (w.powerUpTimer + env.dt > PowerUpInterval && NewPowerUp(data, pu).Some?)
  {
    var w3 := Spawns(w, data, env.dt, env.width, env.height, ds, pu);
    SpawnsPowerUp(w, data, env.dt, env.width, env.height, ds, pu);
    FrameKeepsKinds(w3, env);
  }
}
