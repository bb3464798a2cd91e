/**
 * The casual Game scene's state as a value, and what each event does to it: a slice, a cut, a
 * frame of motion and expiry, and the timed spawn. Unlike the Ranked scene there is no combo,
 * no power-up and no submission: a good entity is worth one point, a cut hazard is a fail, the
 * third fail starts the GameOver scene, and an entity that leaves the screen costs nothing.
 * The scene class in CasualScene is proved to follow these definitions.
 */
module CasualWorld {
  import opened Seqs
  import opened SpatialGrid
  import opened Preloader
  import opened Playfield
  import opened Scoring
  import RankedWorld

  /** Seconds between two spawns. */
  const SpawnPeriod: real := 1.5

  /**
   * The scene state: the entity store (every entity ever spawned, by id), the spatial grid, the
   * live entity list, the two counters, how many times `restartGame` has started the GameOver
   * scene, the spawn timer and the next unused entity id.
   */
  datatype Casual = Casual(store: Store, grid: Grid, entities: seq<EntityId>, points: int, fails: int,
                           restarts: nat, spawnTimer: real, nextId: nat)

  /** The live list and the grid only name stored entities. */
  ghost predicate Indexed(c: Casual)
  {
    GridInStore(c.grid, c.store) && forall id :: id in c.entities ==> id in c.store
  }

  /** The invariants the casual scene keeps between events. */
  ghost predicate Wf(c: Casual)
  {
    Indexed(c) && Distinct(c.entities)
    && 0 <= c.points && 0 <= c.fails < MaxFails
    && 0.0 <= c.spawnTimer <= SpawnPeriod
    && (forall id :: id in c.entities ==> !c.store[id].cut)
    && (forall id :: id in c.store ==> id < c.nextId)
  }

  // ---------------------------------------------------------------- cutting

  /** `restartGame`: both counters back to zero, and the GameOver scene is started. */
  function Restart(c: Casual): Casual
  {
    c.(points := 0, fails := 0, restarts := c.restarts + 1)
  }

  /** The first half of `cutEntity`: flag the entity, drop it from its current bucket and from the live list. */
  function Detach(c: Casual, id: EntityId): (r: Casual)
    requires Indexed(c) && id in c.store
    ensures Indexed(r) && r.store.Keys == c.store.Keys
    ensures r.points == c.points && r.fails == c.fails && r.restarts == c.restarts
    ensures r.spawnTimer == c.spawnTimer && r.nextId == c.nextId
  {
    var e := c.store[id];
    RemoveFirstSubset(c.entities, id);
    GridRemoveInStore(c.grid, c.store, KeyOf(e), id);
    GridInLargerStore(GridRemove(c.grid, KeyOf(e), id), c.store, c.store[id := e.(cut := true)]);
    c.(store := c.store[id := e.(cut := true)],
       grid := GridRemove(c.grid, KeyOf(e), id),
       entities := RemoveFirst(c.entities, id))
  }

  /** The second half of `cutEntity`: a point for a good entity, otherwise a fail, and the restart at the third. */
  function Tally(c: Casual, kind: Kind): Casual
  {
    if kind.Good? then c.(points := c.points + 1)
    else if c.fails + 1 >= MaxFails then Restart(c.(fails := c.fails + 1))
    else c.(fails := c.fails + 1)
  }

  /** `cutEntity(e)`: nothing for an entity already cut; otherwise detach it and count it. */
  function Cut(c: Casual, id: EntityId): Casual
    requires Indexed(c) && id in c.store
  {
    var e := c.store[id];
    if e.cut then c else Tally(Detach(c, id), e.kind)
  }

  lemma DetachWf(c: Casual, id: EntityId)
    requires Wf(c) && id in c.store
    ensures Wf(Detach(c, id)) && id !in Detach(c, id).entities
  {
    RemoveFirstDistinct(c.entities, id);
    RemoveFirstSubset(c.entities, id);
  }

  /** Every event the scene handles keeps the invariants; here, a cut. */
  lemma CutPreservesWf(c: Casual, id: EntityId)
    requires Wf(c) && id in c.store
    ensures Wf(Cut(c, id)) && Cut(c, id).store.Keys == c.store.Keys
  {
    if !c.store[id].cut {
      DetachWf(c, id);
    }
  }

  /**
   * A first cut flags the entity and takes it off its current bucket and the live list. A good
   * entity adds one point. Anything else is a fail; the third fail zeroes both counters and
   * starts the GameOver scene, which no other cut does.
   */
  lemma CutFirstTime(c: Casual, id: EntityId)
    requires Wf(c) && id in c.store && !c.store[id].cut
    ensures var e, r := c.store[id], Cut(c, id);
            r.store == c.store[id := e.(cut := true)]
            && r.entities == RemoveFirst(c.entities, id) && id !in r.entities
            && r.grid == GridRemove(c.grid, KeyOf(e), id)
            && (e.kind.Good? ==> r.points == c.points + 1 && r.fails == c.fails && r.restarts == c.restarts)
            && (!e.kind.Good? && c.fails + 1 < MaxFails ==>
                  r.points == c.points && r.fails == c.fails + 1 && r.restarts == c.restarts)
            && (!e.kind.Good? && c.fails + 1 >= MaxFails ==>
                  r.points == 0 && r.fails == 0 && r.restarts == c.restarts + 1)
  {
    DetachWf(c, id);
  }

  /**
   * Within a run points never decrease and fails grow by at most one per cut; a cut that starts
   * the GameOver scene was the third fail, and leaves both counters at zero.
   */
  lemma CutCounters(c: Casual, id: EntityId)
    requires Wf(c) && id in c.store
    ensures var r := Cut(c, id);
            (r.restarts == c.restarts ==>
               r.points >= c.points && c.fails <= r.fails <= c.fails + 1
               && r.points + r.fails <= c.points + c.fails + 1)
            && (r.restarts != c.restarts ==>
                  r.restarts == c.restarts + 1 && c.fails == MaxFails - 1 && r.points == 0 && r.fails == 0)
  {
    if !c.store[id].cut {
      CutFirstTime(c, id);
    }
  }

  /** A cut changes the store at the cut entity's id only, and only its flag. */
  lemma CutStoreChange(c: Casual, id: EntityId)
    requires Indexed(c) && id in c.store
    ensures Cut(c, id).store == c.store[id := c.store[id].(cut := true)]
  {
    var e := c.store[id];
    if e.cut {
      assert e.(cut := true) == e;
      assert c.store[id := e] == c.store;
    }
  }

  /** `cutEntity` is idempotent: the `cut` flag turns a second call, by slice or by tap, into a no-op. */
  lemma CutIdempotent(c: Casual, id: EntityId)
    requires Wf(c) && id in c.store
    ensures Indexed(Cut(c, id)) && id in Cut(c, id).store
    ensures Cut(Cut(c, id), id) == Cut(c, id)
  {
    CutPreservesWf(c, id);
    CutStoreChange(c, id);
  }

  /**
   * A pointer move while cutting: the first probed entity the pointer is inside of is removed
   * from the bucket of its position and cut; with no such entity nothing happens.
   */
  function Slice(c: Casual, px: real, py: real): Casual
    requires Indexed(c)
  {
    match FirstHit(c.grid, c.store, ProbeKeys(px, py), px, py)
    case None => c
    case Some(id) =>
      FirstHitSpec(c.grid, c.store, ProbeKeys(px, py), px, py);
      var g := GridRemove(c.grid, KeyOf(c.store[id]), id);
      GridRemoveInStore(c.grid, c.store, KeyOf(c.store[id]), id);
      Cut(c.(grid := g), id)
  }

  /**
   * A slice keeps the invariants and flags at most one entity as cut, one of the probed
   * candidates the pointer is inside of; it never changes the counters by more than one cut does.
   */
  lemma SliceCutsAtMostOne(c: Casual, px: real, py: real)
    requires Wf(c)
    ensures Wf(Slice(c, px, py)) && Slice(c, px, py).store.Keys == c.store.Keys
    ensures forall a, b :: (a in c.store && b in c.store && a != b
                             && Slice(c, px, py).store[a] != c.store[a]) ==> Slice(c, px, py).store[b] == c.store[b]
    ensures forall a :: a in c.store && Slice(c, px, py).store[a] != c.store[a] ==>
              a in Candidates(c.grid, ProbeKeys(px, py)) && Hits(c.store[a], px, py)
              && Slice(c, px, py).store[a] == c.store[a].(cut := true)
  {
    FirstHitSpec(c.grid, c.store, ProbeKeys(px, py), px, py);
    match FirstHit(c.grid, c.store, ProbeKeys(px, py), px, py)
    case None =>
    case Some(id) =>
      var g := GridRemove(c.grid, KeyOf(c.store[id]), id);
      GridRemoveInStore(c.grid, c.store, KeyOf(c.store[id]), id);
      var c1 := c.(grid := g);
      CutPreservesWf(c1, id);
      CutStoreChange(c1, id);
  }

  // ---------------------------------------------------------------- frame

  /** One frame of motion: gravity and the sine flutter, at full speed, on every entity. */
  function Moved(e: Entity, env: Env): (r: Entity)
    ensures r.vx == e.vx && r.radius == e.radius && r.kind == e.kind && r.cut == e.cut
    ensures r.x == e.x + e.vx * env.dt && r.vy == e.vy + Gravity * env.dt
  {
    var vy := e.vy + Gravity * env.dt;
    e.(x := e.x + e.vx * env.dt, y := e.y + vy * env.dt - env.sin(e.vx * 0.01) * 50.0 * env.dt, vy := vy)
  }

  /**
   * The casual motion is the Ranked motion with slow motion off: the two scenes move good
   * entities and hazards alike.
   */
  lemma MovedAsRanked(e: Entity, env: Env)
    requires !e.kind.PowerUp?
    ensures Moved(e, env) == RankedWorld.Moved(e, false, 1.0, env)
  {
    var vy := e.vy + Gravity * env.dt;
    assert vy * env.dt * 1.0 == vy * env.dt;
    assert env.sin(e.vx * 0.01) * 50.0 * env.dt * 1.0 == env.sin(e.vx * 0.01) * 50.0 * env.dt;
  }

  /**
   * One iteration of `update`'s reverse loop: move the entity and re-bucket it; one that left
   * the screen is dropped from its bucket, the others are kept. `c.entities` collects the kept
   * ids of the iterations already done.
   */
  function AdvanceOne(c: Casual, id: EntityId, env: Env): (r: Casual)
    requires Indexed(c) && id in c.store
    ensures Indexed(r) && r.store == c.store[id := Moved(c.store[id], env)]
    ensures r.points == c.points && r.fails == c.fails && r.restarts == c.restarts
    ensures r.spawnTimer == c.spawnTimer && r.nextId == c.nextId
  {
    var e := Moved(c.store[id], env);
    var store := c.store[id := e];
    GridInLargerStore(c.grid, c.store, store);
    RegridInStore(c.grid, store, id, e);
    var grid := Regrid(c.grid, id, e);
    if OutOfBounds(e, env.width, env.height) then
      GridRemoveInStore(grid, store, KeyOf(e), id);
      c.(store := store, grid := GridRemove(grid, KeyOf(e), id))
    else
      c.(store := store, grid := grid, entities := [id] + c.entities)
  }

  /**
   * The loop over `ids`, last index first (the head of `ids` is processed last). An entity that
   * leaves the screen costs neither a point nor a fail.
   */
  function AdvanceAll(c: Casual, ids: seq<EntityId>, env: Env): (r: Casual)
    requires Indexed(c) && forall id :: id in ids ==> id in c.store
    ensures Indexed(r) && r.store.Keys == c.store.Keys
    ensures r.points == c.points && r.fails == c.fails && r.restarts == c.restarts
    ensures r.spawnTimer == c.spawnTimer && r.nextId == c.nextId
  {
    if ids == [] then c else AdvanceOne(AdvanceAll(c, ids[1..], env), ids[0], env)
  }

  /** `update`'s entity loop over the whole live list. */
  function AdvanceFrame(c: Casual, env: Env): Casual
    requires Indexed(c)
  {
    AdvanceAll(c.(entities := []), c.entities, env)
  }

  /** The reverse loop part-way through the live list `ids`: positions `i..` processed, the ones before `i` not yet. */
  function AdvancedFrom(c: Casual, ids: seq<EntityId>, i: nat, env: Env): (r: Casual)
    requires Indexed(c) && (forall id :: id in ids ==> id in c.store) && i <= |ids|
    ensures Indexed(r)
  {
    var a := AdvanceAll(c, ids[i..], env);
    a.(entities := ids[..i] + a.entities)
  }

  /** The loop body at position `i` of the live list. */
  function AdvanceAt(c: Casual, i: nat, env: Env): Casual
    requires Indexed(c) && i < |c.entities|
  {
    var a := AdvanceOne(c.(entities := c.entities[i + 1..]), c.entities[i], env);
    a.(entities := c.entities[..i] + a.entities)
  }

  /**
   * The loop body field by field: the entity at `i` moves and is re-bucketed; if it left the
   * screen it is dropped from its bucket and the list; nothing else changes.
   */
  lemma AdvanceAtFields(c: Casual, i: nat, env: Env)
    requires Indexed(c) && i < |c.entities|
    ensures var r := AdvanceAt(c, i, env);
            var id := c.entities[i];
            var e := Moved(c.store[id], env);
            var g := Regrid(c.grid, id, e);
            r.store == c.store[id := e]
            && (OutOfBounds(e, env.width, env.height) ==>
                  r.grid == GridRemove(g, KeyOf(e), id) && r.entities == c.entities[..i] + c.entities[i + 1..])
            && (!OutOfBounds(e, env.width, env.height) ==> r.grid == g && r.entities == c.entities)
            && r.points == c.points && r.fails == c.fails && r.restarts == c.restarts
            && r.spawnTimer == c.spawnTimer && r.nextId == c.nextId
  {
    assert c.entities == c.entities[..i] + [c.entities[i]] + c.entities[i + 1..];
  }

  /** One more iteration of the body moves the loop one position towards the front. */
  lemma AdvanceLoopStep(c: Casual, ids: seq<EntityId>, i: nat, env: Env)
    requires Indexed(c) && (forall id :: id in ids ==> id in c.store) && i < |ids|
    ensures var v := AdvancedFrom(c, ids, i + 1, env);
            i < |v.entities| && v.entities[i] == ids[i] && AdvanceAt(v, i, env) == AdvancedFrom(c, ids, i, env)
  {
    assert ids[i..][0] == ids[i] && ids[i..][1..] == ids[i + 1..];
    var p := AdvanceAll(c, ids[i + 1..], env);
    var v := AdvancedFrom(c, ids, i + 1, env);
    assert ids[..i + 1] == ids[..i] + [ids[i]];
    assert v.entities[i + 1..] == p.entities && v.entities[..i] == ids[..i];
    assert v.(entities := v.entities[i + 1..]) == p;
  }

  /** Before the loop nothing is processed; after it, the whole frame is done. */
  lemma AdvancedFromEnds(c: Casual, env: Env)
    requires Indexed(c)
    ensures AdvancedFrom(c.(entities := []), c.entities, |c.entities|, env) == c
    ensures AdvancedFrom(c.(entities := []), c.entities, 0, env) == AdvanceFrame(c, env)
  {
    assert c.entities[|c.entities|..] == [] && c.entities[..|c.entities|] == c.entities;
    assert c.entities[0..] == c.entities && c.entities[..0] == [];
  }

  /** The ids of `ids` whose entity is still on screen after moving, in order. */
  function OnScreen(ids: seq<EntityId>, store: Store, env: Env): (r: seq<EntityId>)
    requires forall id :: id in ids ==> id in store
    ensures forall id :: id in r ==> id in ids
    ensures forall id :: id in ids ==> (id in r <==> !OutOfBounds(Moved(store[id], env), env.width, env.height))
    ensures Distinct(ids) ==> Distinct(r)
  {
    if ids == [] then []
    else
      var rest := OnScreen(ids[1..], store, env);
      if OutOfBounds(Moved(store[ids[0]], env), env.width, env.height) then rest
      else [ids[0]] + rest
  }

  /**
   * The loop moves each listed entity exactly once, keeps exactly the on-screen ones in their
   * original order, and leaves every other stored entity alone.
   */
  lemma {:induction false} AdvanceAllMoves(c: Casual, ids: seq<EntityId>, env: Env)
    requires Indexed(c) && (forall id :: id in ids ==> id in c.store) && Distinct(ids)
    ensures var r := AdvanceAll(c, ids, env);
            (forall id :: id in ids ==> r.store[id] == Moved(c.store[id], env))
            && (forall id :: id in c.store && id !in ids ==> r.store[id] == c.store[id])
            && r.entities == OnScreen(ids, c.store, env) + c.entities
  {
    if ids != [] {
      var rest := ids[1..];
      assert Distinct(rest);
      AdvanceAllMoves(c, rest, env);
      var r1 := AdvanceAll(c, rest, env);
      assert ids[0] !in rest;
      assert r1.store[ids[0]] == c.store[ids[0]];
    }
  }

  /** A frame keeps the scene invariants, and the live list becomes the on-screen entities. */
  lemma AdvanceFrameWf(c: Casual, env: Env)
    requires Wf(c)
    ensures Wf(AdvanceFrame(c, env))
    ensures AdvanceFrame(c, env).entities == OnScreen(c.entities, c.store, env)
  {
    var c0 := c.(entities := []);
    AdvanceAllMoves(c0, c.entities, env);
    assert OnScreen(c.entities, c.store, env) + [] == OnScreen(c.entities, c.store, env);
  }

  // ---------------------------------------------------------------- spawning

  /**
   * The draws one `spawnEntity` call takes: the radius, the position, the kind roll, the icon
   * pick, the horizontal speed and the launch speed `-sqrt(2 * 600 * h)`.
   */
  datatype SpawnDraw = SpawnDraw(radius: int, x: real, roll: real, iconPick: nat, vx: real, launchVy: real)

  /** `Math.random() < 0.8 ? 'good' : 'bad'`. */
  function SpawnKind(roll: real): (k: Kind)
    ensures k.Good? || k.Hazard?
    ensures k.Good? <==> roll < GoodChance
  {
    if roll < GoodChance then Good else Hazard
  }

  /**
   * `spawnEntity`'s new entity, or nothing when the icon pool of its kind is empty or the picked
   * key is empty. It rises from just below the bottom edge at the drawn position and speeds.
   */
  function NewEntity(data: RegistryData, d: SpawnDraw, width: real, height: real): Option<Entity>
  {
    var kind := SpawnKind(d.roll);
    var pool := IconPool(data, kind);
    if |pool| == 0 then None
    else if PickIcon(pool, d.iconPick) == "" then None
    else
      var size := d.radius as real * 2.0 * ResponsiveScale(width);
      Some(Entity(d.x, height + d.radius as real, d.vx, d.launchVy, size / 2.0, kind, false))
  }

  /**
   * A new entity appears exactly when the pool of its kind is non-empty and the picked key is
   * not empty; it is good exactly when the roll is below 0.8, is not cut, stands just below the
   * bottom edge, has the drawn radius scaled to the screen, and launches with the drawn speeds.
   */
  lemma NewEntitySpec(data: RegistryData, d: SpawnDraw, width: real, height: real)
    ensures var r := NewEntity(data, d, width, height);
            var pool := IconPool(data, SpawnKind(d.roll));
            (r.Some? <==> |pool| > 0 && PickIcon(pool, d.iconPick) != "")
            && (r.Some? ==>
                  (r.value.kind.Good? <==> d.roll < GoodChance) && !r.value.kind.PowerUp?
                  && !r.value.cut && r.value.x == d.x && r.value.y == height + d.radius as real
                  && r.value.radius == d.radius as real * ResponsiveScale(width)
                  && r.value.vx == d.vx && r.value.vy == d.launchVy)
  {
    var rad, s := d.radius as real, ResponsiveScale(width);
    assert rad * 2.0 * s / 2.0 == rad * s;
  }

  /** Adds a new entity under the next unused id: stored, appended to the live list, pushed onto its bucket. */
  function Spawn(c: Casual, e: Entity): Casual
  {
    var id := c.nextId;
    c.(store := c.store[id := e], entities := c.entities + [id], grid := GridAdd(c.grid, KeyOf(e), id),
       nextId := id + 1)
  }

  /** Spawning keeps the scene invariants. */
  lemma SpawnWf(c: Casual, e: Entity)
    requires Wf(c) && !e.cut
    ensures Wf(Spawn(c, e))
  {
    var r, id := Spawn(c, e), c.nextId;
    GridInLargerStore(c.grid, c.store, r.store);
    GridAddInStore(c.grid, r.store, KeyOf(e), id);
    assert id !in c.entities;
    assert Distinct(r.entities) by {
      forall i, j | 0 <= i < j < |r.entities| ensures r.entities[i] != r.entities[j] {
        if j == |c.entities| {
          assert r.entities[i] == c.entities[i];
        }
      }
    }
  }

  /** `spawnEntity(width, height)`, its random draws given as `d`. */
  function SpawnOne(c: Casual, data: RegistryData, d: SpawnDraw, width: real, height: real): Casual
  {
    match NewEntity(data, d, width, height)
    case None => c
    case Some(e) => Spawn(c, e)
  }

  /** The start of `update`: the spawn timer runs, and past one and a half seconds it restarts with a spawn. */
  function Timed(c: Casual, data: RegistryData, dt: real, d: SpawnDraw, width: real, height: real): Casual
  {
    var t := c.spawnTimer + dt;
    if t > SpawnPeriod then SpawnOne(c.(spawnTimer := 0.0), data, d, width, height)
    else c.(spawnTimer := t)
  }

  lemma TimedIndexed(c: Casual, data: RegistryData, dt: real, d: SpawnDraw, width: real, height: real)
    requires Indexed(c)
    ensures Indexed(Timed(c, data, dt, d, width, height))
  {
    if c.spawnTimer + dt > SpawnPeriod {
      match NewEntity(data, d, width, height)
      case None =>
      case Some(e) =>
        GridInLargerStore(c.grid, c.store, c.store[c.nextId := e]);
        GridAddInStore(c.grid, c.store[c.nextId := e], KeyOf(e), c.nextId);
    }
  }

  /** `update(time, delta)`, with `env.dt = delta / 1000`: the timed spawn, then the frame of motion and expiry. */
  function Step(c: Casual, data: RegistryData, env: Env, d: SpawnDraw): Casual
    requires Indexed(c)
  {
    TimedIndexed(c, data, env.dt, d, env.width, env.height);
    var t := Timed(c, data, env.dt, d, env.width, env.height);
    AdvanceFrame(t, env)
  }

  /**
   * The timer: a spawn happens only once more than one and a half seconds have run since the
   * last one, and resets the timer; otherwise the timer only grows. At most one entity is
   * added, under the next id, and the counters are untouched.
   */
  lemma TimedSpec(c: Casual, data: RegistryData, dt: real, d: SpawnDraw, width: real, height: real)
    requires Wf(c) && dt >= 0.0
    ensures var r := Timed(c, data, dt, d, width, height);
            Wf(r)
            && (c.spawnTimer + dt > SpawnPeriod ==> r.spawnTimer == 0.0)
            && (c.spawnTimer + dt <= SpawnPeriod ==> r.spawnTimer == c.spawnTimer + dt && r.store == c.store
                                                     && r.entities == c.entities && r.grid == c.grid)
            && (r.entities == c.entities || r.entities == c.entities + [c.nextId])
            && (r.entities != c.entities ==>
                  c.spawnTimer + dt > SpawnPeriod && NewEntity(data, d, width, height).Some?
                  && r.store == c.store[c.nextId := NewEntity(data, d, width, height).value])
            && r.points == c.points && r.fails == c.fails && r.restarts == c.restarts
  {
    if c.spawnTimer + dt > SpawnPeriod {
      var c0 := c.(spawnTimer := 0.0);
      match NewEntity(data, d, width, height)
      case None =>
      case Some(e) =>
        NewEntitySpec(data, d, width, height);
        SpawnWf(c0, e);
    }
  }

  /**
   * A whole `update` keeps the scene invariants and never touches the counters: in the casual
   * scene only a cut scores or fails.
   */
  lemma StepWf(c: Casual, data: RegistryData, env: Env, d: SpawnDraw)
    requires Wf(c) && env.dt >= 0.0
    ensures var r := Step(c, data, env, d);
            Wf(r) && r.points == c.points && r.fails == c.fails && r.restarts == c.restarts
  {
    TimedSpec(c, data, env.dt, d, env.width, env.height);
    AdvanceFrameWf(Timed(c, data, env.dt, d, env.width, env.height), env);
  }
}
