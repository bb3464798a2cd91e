/**
 * The Ranked scene's game state as a value, and what each event does to it: a slice
 * (`checkCutEntities` followed by `cutEntity`), the power-up effects, and a frame of entity
 * motion and expiry. The scene class in RankedScene is proved to follow these definitions.
 */
module RankedWorld {
  import opened Seqs
  import opened SpatialGrid
  import opened Scoring
  import opened AssetKeys
  import opened Playfield

  /** `activateSlowmo`'s speed factor. */
  const SlowmoSpeed: real := 0.3
  /** `slowmoFactor`'s initial value, and the one the expiry callback restores. */
  const InitialSlowmoFactor: real := 0.5
  const RestoredSlowmoFactor: real := 1.0

  datatype Effect = KunaiStorm | Shield | Slowmo

  /** The `powerUpEffects` table, keyed by the icon key the power-up was spawned with. */
  function EffectOf(powerUpId: string): Option<Effect>
  {
    if powerUpId == "powerUps_0" then Some(KunaiStorm)
    else if powerUpId == "powerUps_1" then Some(Shield)
    else if powerUpId == "powerUps_2" then Some(Slowmo)
    else None
  }

  /**
   * The table agrees with the preloader's naming: the first three power-up icons trigger the
   * storm, the shield and slow motion, and any further icon triggers nothing.
   */
  lemma EffectOfIcon(i: nat)
    ensures EffectOf(IconKey("powerUps", i)) ==
            if i == 0 then Some(KunaiStorm) else if i == 1 then Some(Shield)
            else if i == 2 then Some(Slowmo) else None
  {
    assert NatToString(0) == "0" && NatToString(1) == "1" && NatToString(2) == "2";
    assert IconKey("powerUps", 0) == "powerUps_0";
    assert IconKey("powerUps", 1) == "powerUps_1";
    assert IconKey("powerUps", 2) == "powerUps_2";
    if IconKey("powerUps", i) == IconKey("powerUps", 0) { IconKeyInjective("powerUps", i, 0); }
    if IconKey("powerUps", i) == IconKey("powerUps", 1) { IconKeyInjective("powerUps", i, 1); }
    if IconKey("powerUps", i) == IconKey("powerUps", 2) { IconKeyInjective("powerUps", i, 2); }
  }

  /**
   * The scene state the game rules touch: the entity store (every entity ever spawned, by id),
   * the spatial grid, the live entity list, the counters, the payloads submitted by `GameOver`,
   * the slow-motion switch, the spawn and power-up timers, and the next unused entity id.
   */
  datatype World = World(store: Store, grid: Grid, entities: seq<EntityId>, score: Score,
                         sent: seq<Payload>, slowmoActive: bool, slowmoFactor: real,
                         spawnTimer: real, powerUpTimer: real, nextId: nat)

  /** The live list and the grid only name stored entities. */
  ghost predicate Indexed(w: World)
  {
    GridInStore(w.grid, w.store) && forall id :: id in w.entities ==> id in w.store
  }

  /** The invariants the Ranked scene keeps between events. */
  ghost predicate Wf(w: World)
  {
    Indexed(w) && Distinct(w.entities) && Sane(w.score) && w.slowmoFactor > 0.0
    && (forall id :: id in w.entities ==> !w.store[id].cut)
    && (forall id :: id in w.store ==> id < w.nextId)
  }

  // ---------------------------------------------------------------- kunai storm

  predicate IsGood(store: Store, id: EntityId)
    requires id in store
  {
    store[id].kind.Good?
  }

  /** The live list once the storm has spliced out every good entity. */
  function WithoutGood(ids: seq<EntityId>, store: Store): seq<EntityId>
    requires forall id :: id in ids ==> id in store
  {
    if ids == [] then []
    else
      var rest := WithoutGood(ids[1..], store);
      if IsGood(store, ids[0]) then rest else [ids[0]] + rest
  }

  /** The filter keeps exactly the entities that are not good, and a duplicate-free list stays so. */
  lemma {:induction false} WithoutGoodSpec(ids: seq<EntityId>, store: Store)
    requires forall id :: id in ids ==> id in store
    ensures var r := WithoutGood(ids, store);
            (forall id :: id in r ==> id in ids && !IsGood(store, id))
            && (forall id :: id in ids && !IsGood(store, id) ==> id in r)
            && (Distinct(ids) ==> Distinct(r))
  {
    if ids != [] {
      WithoutGoodSpec(ids[1..], store);
      var rest := WithoutGood(ids[1..], store);
      if Distinct(ids) {
        assert Distinct(ids[1..]);
        assert ids[0] !in ids[1..];
      }
    }
  }

  /** The number of good entities in a list. */
  function GoodCount(ids: seq<EntityId>, store: Store): (n: nat)
    requires forall id :: id in ids ==> id in store
    ensures n + |WithoutGood(ids, store)| == |ids|
  {
    if ids == [] then 0
    else GoodCount(ids[1..], store) + (if IsGood(store, ids[0]) then 1 else 0)
  }

  /** The grid once the storm has removed each good entity from the bucket of its position, last one first. */
  function StormGrid(g: Grid, ids: seq<EntityId>, store: Store): Grid
    requires forall id :: id in ids ==> id in store
  {
    if ids == [] then g
    else
      var rest := StormGrid(g, ids[1..], store);
      if IsGood(store, ids[0]) then GridRemove(rest, KeyOf(store[ids[0]]), ids[0]) else rest
  }

  lemma {:induction false} StormGridInStore(g: Grid, ids: seq<EntityId>, store: Store)
    requires forall id :: id in ids ==> id in store
    requires GridInStore(g, store)
    ensures GridInStore(StormGrid(g, ids, store), store)
  {
    if ids != [] {
      StormGridInStore(g, ids[1..], store);
      GridRemoveInStore(StormGrid(g, ids[1..], store), store, KeyOf(store[ids[0]]), ids[0]);
    }
  }

  /**
   * One iteration of the storm's reverse loop, at position `i`: if the state before it is the
   * storm over the suffix after `i`, and the iteration scores and splices out a good entity
   * (or leaves anything else alone), the state after it is the storm over the suffix from `i`.
   */
  lemma StormLoopStep(g: Grid, s: Score, ids: seq<EntityId>, i: nat, store: Store,
                      ents: seq<EntityId>, grid: Grid, score: Score,
                      ents': seq<EntityId>, grid': Grid, score': Score)
    requires i < |ids| && forall id :: id in ids ==> id in store
    requires ents == ids[..i + 1] + WithoutGood(ids[i + 1..], store)
    requires grid == StormGrid(g, ids[i + 1..], store)
    requires score == StormSteps(s, GoodCount(ids[i + 1..], store))
    requires IsGood(store, ids[i]) ==>
               ents' == ents[..i] + ents[i + 1..] && score' == StormStep(score)
               && grid' == GridRemove(grid, KeyOf(store[ids[i]]), ids[i])
    requires !IsGood(store, ids[i]) ==> ents' == ents && grid' == grid && score' == score
    ensures ents' == ids[..i] + WithoutGood(ids[i..], store)
    ensures grid' == StormGrid(g, ids[i..], store)
    ensures score' == StormSteps(s, GoodCount(ids[i..], store))
  {
    StormUnfold(g, ids, i, store);
    var rest := WithoutGood(ids[i + 1..], store);
    var n := GoodCount(ids[i + 1..], store);
    if IsGood(store, ids[i]) {
      assert ents[..i] == ids[..i] && ents[i + 1..] == rest;
      assert StormSteps(s, n + 1) == StormStep(StormSteps(s, n));
    }
  }

  /** The suffix from `i` is its head followed by the suffix after `i`, for each storm measure. */
  lemma StormUnfold(g: Grid, ids: seq<EntityId>, i: nat, store: Store)
    requires i < |ids| && forall id :: id in ids ==> id in store
    ensures ids[..i + 1] == ids[..i] + [ids[i]]
    ensures var rest := ids[i + 1..];
            WithoutGood(ids[i..], store)
              == (if IsGood(store, ids[i]) then WithoutGood(rest, store) else [ids[i]] + WithoutGood(rest, store))
            && StormGrid(g, ids[i..], store)
              == (if IsGood(store, ids[i]) then GridRemove(StormGrid(g, rest, store), KeyOf(store[ids[i]]), ids[i])
                  else StormGrid(g, rest, store))
            && GoodCount(ids[i..], store) == GoodCount(rest, store) + (if IsGood(store, ids[i]) then 1 else 0)
  {
    assert ids[i..][0] == ids[i];
    assert ids[i..][1..] == ids[i + 1..];
  }

  /** `activateKunaiStorm`: every good entity is sliced at once, without its `cut` flag being set. */
  function Storm(w: World): World
    requires Indexed(w)
  {
    if w.entities == [] then w
    else w.(entities := WithoutGood(w.entities, w.store),
            grid := StormGrid(w.grid, w.entities, w.store),
            score := StormSteps(w.score, GoodCount(w.entities, w.store)))
  }

  /**
   * After the storm no good entity is live, every other entity is, and the counters have taken
   * one StormStep per good entity: the combo has grown by their number; the objects-cut counter
   * does not move.
   */
  lemma StormEffect(w: World)
    requires Wf(w)
    ensures var r := Storm(w);
            (forall id :: id in r.entities ==> id in w.entities && !IsGood(w.store, id))
            && (forall id :: id in w.entities && !IsGood(w.store, id) ==> id in r.entities)
            && r.score.combo == w.score.combo + GoodCount(w.entities, w.store)
            && r.score == StormSteps(w.score, GoodCount(w.entities, w.store))
            && r.score.points >= w.score.points + GoodCount(w.entities, w.store)
            && r.score.objectsCut == w.score.objectsCut && r.score.fails == w.score.fails
            && r.store == w.store
  {
    if w.entities != [] {
      WithoutGoodSpec(w.entities, w.store);
      StormStepsEffect(w.score, GoodCount(w.entities, w.store));
    }
  }

  /** `activateSlowmo`: a second activation while slow motion is on changes nothing. */
  function SlowmoOn(w: World): (r: World)
    ensures r.slowmoActive
    ensures w.slowmoActive ==> r == w
    ensures !w.slowmoActive ==> r == w.(slowmoActive := true, slowmoFactor := SlowmoSpeed)
    ensures r.store == w.store && r.grid == w.grid && r.entities == w.entities
    ensures r.score == w.score && r.sent == w.sent && r.nextId == w.nextId
    ensures r.slowmoFactor == (if w.slowmoActive then w.slowmoFactor else SlowmoSpeed)
    ensures Wf(w) ==> Wf(r)
  {
    if w.slowmoActive then w else w.(slowmoActive := true, slowmoFactor := SlowmoSpeed)
  }

  /** Activating slow motion twice is activating it once: the factor of the first activation stays. */
  lemma SlowmoOnIdempotent(w: World)
    ensures SlowmoOn(SlowmoOn(w)) == SlowmoOn(w)
  {
  }

  // ---------------------------------------------------------------- slicing

  /** The first half of `cutEntity`: flag the entity, drop it from its current bucket and from the live list. */
  function Detach(w: World, id: EntityId): (r: World)
    requires Indexed(w) && id in w.store
    ensures Indexed(r) && r.store.Keys == w.store.Keys
    ensures r.score == w.score && r.sent == w.sent
    ensures r.slowmoActive == w.slowmoActive && r.slowmoFactor == w.slowmoFactor
  {
    var e := w.store[id];
    RemoveFirstSubset(w.entities, id);
    GridRemoveInStore(w.grid, w.store, KeyOf(e), id);
    GridInLargerStore(GridRemove(w.grid, KeyOf(e), id), w.store, w.store[id := e.(cut := true)]);
    w.(store := w.store[id := e.(cut := true)],
       grid := GridRemove(w.grid, KeyOf(e), id),
       entities := RemoveFirst(w.entities, id))
  }

  /** Detach changes exactly the store entry, the bucket and the live list. */
  lemma DetachFields(w: World, id: EntityId)
    requires Indexed(w) && id in w.store
    ensures Detach(w, id) == w.(store := w.store[id := w.store[id].(cut := true)],
                                grid := GridRemove(w.grid, KeyOf(w.store[id]), id),
                                entities := RemoveFirst(w.entities, id))
  {
  }

  /** The second half of `cutEntity`: the counters for a good entity or a hazard, the effect of a power-up. */
  function Resolve(w: World, kind: Kind): World
    requires Indexed(w)
  {
    match kind
    case Good => w.(score := CutGood(w.score))
    case Hazard =>
      var (s, p) := Strike(w.score);
      w.(score := s, sent := w.sent + p)
    case PowerUp(pid) =>
      match EffectOf(pid)
      case Some(KunaiStorm) => Storm(w)
      case Some(Slowmo) => SlowmoOn(w)
      case _ => w
  }

  /** `cutEntity(e)`: nothing for an entity already cut; otherwise detach it and resolve its kind. */
  function Cut(w: World, id: EntityId): World
    requires Indexed(w) && id in w.store
  {
    var e := w.store[id];
    if e.cut then w else Resolve(Detach(w, id), e.kind)
  }

  /** An entity already flagged as cut: nothing changes. */
  lemma CutAgainIsNoOp(w: World, id: EntityId)
    requires Indexed(w) && id in w.store && w.store[id].cut
    ensures Cut(w, id) == w
  {
  }

  /** `cutEntity` is idempotent. */
  lemma CutIdempotent(w: World, id: EntityId)
    requires Wf(w) && id in w.store
    ensures Indexed(Cut(w, id)) && id in Cut(w, id).store
    ensures Cut(Cut(w, id), id) == Cut(w, id)
  {
    CutPreservesWf(w, id);
    CutStoreChange(w, id);
  }

  lemma DetachWf(w: World, id: EntityId)
    requires Wf(w) && id in w.store
    ensures Wf(Detach(w, id)) && id !in Detach(w, id).entities
  {
    RemoveFirstDistinct(w.entities, id);
    RemoveFirstSubset(w.entities, id);
  }

  lemma ResolveWf(w: World, kind: Kind)
    requires Wf(w)
    ensures Wf(Resolve(w, kind)) && Resolve(w, kind).store == w.store
    ensures forall id :: id in Resolve(w, kind).entities ==> id in w.entities
  {
    match kind
    case Good =>
    case Hazard =>
    case PowerUp(pid) =>
      if EffectOf(pid) == Some(KunaiStorm) && w.entities != [] {
        WithoutGoodSpec(w.entities, w.store);
        StormGridInStore(w.grid, w.entities, w.store);
        StormStepsEffect(w.score, GoodCount(w.entities, w.store));
      }
  }

  /**
   * A first cut flags the entity, takes it off the live list and out of its current bucket, and
   * then: a good entity scores `10 + 5 * combo` and extends the combo; a hazard is a strike (and
   * the third strike submits the run and resets the counters); a power-up leaves the counters to
   * its effect.
   */
  lemma CutFirstTime(w: World, id: EntityId)
    requires Wf(w) && id in w.store && !w.store[id].cut
    ensures var e, r := w.store[id], Cut(w, id);
            r.store[id].cut
            && id !in r.entities
            && (e.kind.Good? ==>
                  (r.score == CutGood(w.score) && r.sent == w.sent
                   && r.entities == RemoveFirst(w.entities, id)
                   && r.grid == GridRemove(w.grid, KeyOf(e), id)))
            && (e.kind.Hazard? ==>
                  (r.score.combo == 0 && r.entities == RemoveFirst(w.entities, id)
                   && r.grid == GridRemove(w.grid, KeyOf(e), id)
                   && (w.score.fails + 1 < MaxFails ==> r.score == Penalize(w.score) && r.sent == w.sent)
                   && (w.score.fails + 1 >= MaxFails ==>
                         r.score == Initial && r.sent == w.sent + [PayloadOf(Penalize(w.score))])))
            && (e.kind.PowerUp? && EffectOf(e.kind.powerUpId) != Some(KunaiStorm) ==>
                  (r.score == w.score && r.sent == w.sent && r.entities == RemoveFirst(w.entities, id)
                   && r.grid == GridRemove(w.grid, KeyOf(e), id)))
            && (e.kind.PowerUp? && EffectOf(e.kind.powerUpId) == Some(KunaiStorm) ==>
                  r == Storm(Detach(w, id)))
  {
    DetachWf(w, id);
    ResolveWf(Detach(w, id), w.store[id].kind);
  }

  /** Every event the scene handles keeps the invariants; here, a cut. */
  lemma CutPreservesWf(w: World, id: EntityId)
    requires Wf(w) && id in w.store
    ensures Wf(Cut(w, id))
    ensures Cut(w, id).store.Keys == w.store.Keys
  {
    if !w.store[id].cut {
      DetachWf(w, id);
      ResolveWf(Detach(w, id), w.store[id].kind);
    }
  }

  /**
   * A pointer move while cutting: the first probed entity the pointer is inside of is removed
   * from the bucket of its position and cut; with no such entity nothing happens.
   */
  function Slice(w: World, px: real, py: real): World
    requires Indexed(w)
  {
    match FirstHit(w.grid, w.store, ProbeKeys(px, py), px, py)
    case None => w
    case Some(id) =>
      FirstHitSpec(w.grid, w.store, ProbeKeys(px, py), px, py);
      var g := GridRemove(w.grid, KeyOf(w.store[id]), id);
      GridRemoveInStore(w.grid, w.store, KeyOf(w.store[id]), id);
      Cut(w.(grid := g), id)
  }

  /**
   * A slice flags at most one entity as cut, and that entity is one of the probed candidates
   * the pointer is inside of.
   */
  lemma SliceCutsAtMostOne(w: World, px: real, py: real)
    requires Wf(w)
    ensures Wf(Slice(w, px, py)) && Slice(w, px, py).store.Keys == w.store.Keys
    ensures forall a, b :: (a in w.store && b in w.store && a != b
                             && Slice(w, px, py).store[a] != w.store[a]) ==> Slice(w, px, py).store[b] == w.store[b]
    ensures forall a :: a in w.store && Slice(w, px, py).store[a] != w.store[a] ==>
              a in Candidates(w.grid, ProbeKeys(px, py)) && Hits(w.store[a], px, py)
              && Slice(w, px, py).store[a] == w.store[a].(cut := true)
  {
    FirstHitSpec(w.grid, w.store, ProbeKeys(px, py), px, py);
    match FirstHit(w.grid, w.store, ProbeKeys(px, py), px, py)
    case None =>
    case Some(id) =>
      var g := GridRemove(w.grid, KeyOf(w.store[id]), id);
      GridRemoveInStore(w.grid, w.store, KeyOf(w.store[id]), id);
      var w1 := w.(grid := g);
      CutPreservesWf(w1, id);
      CutStoreChange(w1, id);
  }

  /** A cut changes the store at the cut entity's id only, and only its flag. */
  lemma CutStoreChange(w: World, id: EntityId)
    requires Indexed(w) && id in w.store
    ensures Cut(w, id).store == w.store[id := w.store[id].(cut := true)]
  {
    var e := w.store[id];
    if e.cut {
      assert e.(cut := true) == e;
      assert w.store[id := e] == w.store;
    }
  }

  /**
   * A cut entity's stale bucket entry swallows later slices. Entity 0 was sliced at (250, 150)
   * but is still listed in bucket (1, 1), where it was inserted before the re-bucketing quirk
   * (StaleEntryRemains); entity 1 is live in the same bucket. A slice at (220, 150), which is
   * inside both circles, finds the stale entry first, and the `cut` guard turns the whole move
   * into a no-op: the live entity under the pointer is not cut.
   */
  lemma StaleEntryAbsorbsSlice()
    ensures var ghost0 := Entity(250.0, 150.0, 100.0, 0.0, 40.0, Good, true);
            var live1 := Entity(190.0, 150.0, 0.0, 0.0, 40.0, Good, false);
            var w := World(map[0 := ghost0, 1 := live1], map[CellKey(1, 1) := [0, 1]], [1],
                           Initial, [], false, InitialSlowmoFactor, 0.0, 0.0, 2);
            Wf(w) && Hits(live1, 220.0, 150.0) && !live1.cut && Slice(w, 220.0, 150.0) == w
  {
    var ghost0 := Entity(250.0, 150.0, 100.0, 0.0, 40.0, Good, true);
    var live1 := Entity(190.0, 150.0, 0.0, 0.0, 40.0, Good, false);
    var w := World(map[0 := ghost0, 1 := live1], map[CellKey(1, 1) := [0, 1]], [1],
                   Initial, [], false, InitialSlowmoFactor, 0.0, 0.0, 2);
    assert Wf(w) by {
      assert GridInStore(w.grid, w.store);
      assert Distinct(w.entities);
    }
    StaleEntryScannedFirst(w.grid, w.store);
    KeyAtUnique(250.0, 150.0, 2, 1);
    assert GridRemove(w.grid, CellKey(2, 1), 0) == w.grid;
  }

  /** The scan behind StaleEntryAbsorbsSlice: only bucket (1, 1) is listed, and its stale entry 0 comes first. */
  lemma StaleEntryScannedFirst(g: Grid, store: Store)
    requires g == map[CellKey(1, 1) := [0, 1]]
    requires store == map[0 := Entity(250.0, 150.0, 100.0, 0.0, 40.0, Good, true),
                          1 := Entity(190.0, 150.0, 0.0, 0.0, 40.0, Good, false)]
    ensures GridInStore(g, store) && FirstHit(g, store, ProbeKeys(220.0, 150.0), 220.0, 150.0) == Some(0)
  {
    StaleCandidates(g);
    assert GridInStore(g, store);
    assert Hits(store[0], 220.0, 150.0);
    assert FirstHitIndex([0, 1], store, 220.0, 150.0) == 0;
  }

  /** The probe around (220, 150) lists bucket (1, 1) and no other non-empty bucket. */
  lemma StaleCandidates(g: Grid)
    requires g == map[CellKey(1, 1) := [0, 1]]
    ensures Candidates(g, ProbeKeys(220.0, 150.0)) == [0, 1]
  {
    ProbeKeysAreCross(220.0, 150.0);
    KeyAtUnique(220.0, 150.0, 2, 1);
    var keys := ProbeKeys(220.0, 150.0);
    assert keys == [CellKey(2, 1), CellKey(3, 1), CellKey(1, 1), CellKey(2, 2), CellKey(2, 0)];
    assert keys[..0] == [];
    CandidatesStep(g, keys, 0);
    assert Candidates(g, keys[..1]) == [];
    CandidatesStep(g, keys, 1);
    assert Candidates(g, keys[..2]) == [];
    CandidatesStep(g, keys, 2);
    assert Candidates(g, keys[..3]) == [0, 1];
    CandidatesStep(g, keys, 3);
    CandidatesStep(g, keys, 4);
    assert keys[..5] == keys;
  }

  // ---------------------------------------------------------------- frame

  /**
   * One frame of motion: gravity and the sine flutter act on everything but power-ups, and both
   * are scaled by the slow-motion factor while it is on; power-ups fall at their own speed.
   */
  function Moved(e: Entity, slowmo: bool, factor: real, env: Env): (r: Entity)
    ensures r.vx == e.vx && r.radius == e.radius && r.kind == e.kind && r.cut == e.cut
    ensures r.x == e.x + e.vx * env.dt
    ensures e.kind.PowerUp? ==> r.vy == e.vy && r.y == e.y + e.vy * env.dt
    ensures !e.kind.PowerUp? ==> r.vy == e.vy + Gravity * env.dt * (if slowmo then factor else 1.0)
  {
    var slow := if slowmo then factor else 1.0;
    var falls := !e.kind.PowerUp?;
    var vy := if falls then e.vy + Gravity * env.dt * slow else e.vy;
    var x := e.x + e.vx * env.dt;
    var y := e.y + vy * env.dt * (if slowmo && falls then factor else 1.0)
             - (if falls then env.sin(e.vx * 0.01) * 50.0 * env.dt * slow else 0.0);
    e.(x := x, y := y, vy := vy)
  }

  /** The entity `id` after this frame's motion. */
  function MovedIn(w: World, id: EntityId, env: Env): Entity
    requires id in w.store
  {
    Moved(w.store[id], w.slowmoActive, w.slowmoFactor, env)
  }

  /**
   * One iteration of the reverse loop over the live list: move the entity and re-bucket it;
   * an entity that left the screen is dropped from its bucket (a good one is a strike), the
   * others are kept. `w.entities` collects the kept ids of the iterations already done.
   */
  function AdvanceOne(w: World, id: EntityId, env: Env): (r: World)
    requires Indexed(w) && id in w.store
    ensures Indexed(r) && r.store == w.store[id := MovedIn(w, id, env)]
    ensures r.slowmoActive == w.slowmoActive && r.slowmoFactor == w.slowmoFactor
    ensures r.nextId == w.nextId && r.spawnTimer == w.spawnTimer && r.powerUpTimer == w.powerUpTimer
    ensures Sane(w.score) ==> Sane(r.score)
  {
    var e := MovedIn(w, id, env);
    var store := w.store[id := e];
    GridInLargerStore(w.grid, w.store, store);
    RegridInStore(w.grid, store, id, e);
    var grid := Regrid(w.grid, id, e);
    if OutOfBounds(e, env.width, env.height) then
      var strike := if e.kind.Good? then Strike(w.score) else (w.score, []);
      GridRemoveInStore(grid, store, KeyOf(e), id);
      w.(store := store, grid := GridRemove(grid, KeyOf(e), id), score := strike.0, sent := w.sent + strike.1)
    else
      w.(store := store, grid := grid, entities := [id] + w.entities)
  }

  /** The loop over `ids`, last index first (the head of `ids` is processed last). */
  function AdvanceAll(w: World, ids: seq<EntityId>, env: Env): (r: World)
    requires Indexed(w) && forall id :: id in ids ==> id in w.store
    ensures Indexed(r) && r.store.Keys == w.store.Keys
    ensures r.slowmoActive == w.slowmoActive && r.slowmoFactor == w.slowmoFactor
    ensures r.nextId == w.nextId && r.spawnTimer == w.spawnTimer && r.powerUpTimer == w.powerUpTimer
    ensures Sane(w.score) ==> Sane(r.score)
  {
    if ids == [] then w else AdvanceOne(AdvanceAll(w, ids[1..], env), ids[0], env)
  }

  /** `update`'s entity loop over the whole live list. */
  function AdvanceFrame(w: World, env: Env): World
    requires Indexed(w)
  {
    AdvanceAll(w.(entities := []), w.entities, env)
  }

  /**
   * The reverse loop part-way through the live list `ids`: positions `i..` processed, the
   * positions before `i` not yet, and the kept ids after them.
   */
  function AdvancedFrom(w: World, ids: seq<EntityId>, i: nat, env: Env): (r: World)
    requires Indexed(w) && (forall id :: id in ids ==> id in w.store) && i <= |ids|
    ensures Indexed(r)
  {
    var a := AdvanceAll(w, ids[i..], env);
    a.(entities := ids[..i] + a.entities)
  }

  /** The loop body at position `i` of the live list: the entity there is moved, and kept or spliced out. */
  function AdvanceAt(w: World, i: nat, env: Env): (r: World)
    requires Indexed(w) && i < |w.entities|
  {
    var a := AdvanceOne(w.(entities := w.entities[i + 1..]), w.entities[i], env);
    a.(entities := w.entities[..i] + a.entities)
  }

  /**
   * The loop body field by field: the entity at `i` moves and is re-bucketed; if it left the
   * screen it is dropped from its bucket and the list (a strike if it was good), otherwise the
   * list is unchanged.
   */
  lemma AdvanceAtFields(w: World, i: nat, env: Env)
    requires Indexed(w) && i < |w.entities|
    ensures var r := AdvanceAt(w, i, env);
            var id := w.entities[i];
            var e := MovedIn(w, id, env);
            var g := Regrid(w.grid, id, e);
            r.store == w.store[id := e]
            && (OutOfBounds(e, env.width, env.height) ==>
                  r.grid == GridRemove(g, KeyOf(e), id) && r.entities == w.entities[..i] + w.entities[i + 1..]
                  && (e.kind.Good? ==> r.score == Strike(w.score).0 && r.sent == w.sent + Strike(w.score).1)
                  && (!e.kind.Good? ==> r.score == w.score && r.sent == w.sent))
            && (!OutOfBounds(e, env.width, env.height) ==>
                  r.grid == g && r.entities == w.entities && r.score == w.score && r.sent == w.sent)
            && r.slowmoActive == w.slowmoActive && r.slowmoFactor == w.slowmoFactor && r.nextId == w.nextId
            && r.spawnTimer == w.spawnTimer && r.powerUpTimer == w.powerUpTimer
  {
    assert w.entities == w.entities[..i] + [w.entities[i]] + w.entities[i + 1..];
  }

  /** The first half of the loop body: the entity at `i` moves and is re-bucketed. */
  function MovedAt(w: World, i: nat, env: Env): World
    requires Indexed(w) && i < |w.entities|
  {
    var id := w.entities[i];
    var e := MovedIn(w, id, env);
    w.(store := w.store[id := e], grid := Regrid(w.grid, id, e))
  }

  /** The second half when the entity at `i` left the screen: out of its bucket and the list, a strike if good. */
  function EscapedAt(w: World, i: nat): World
    requires i < |w.entities| && w.entities[i] in w.store
  {
    var id := w.entities[i];
    var e := w.store[id];
    var strike := if e.kind.Good? then Strike(w.score) else (w.score, []);
    w.(grid := GridRemove(w.grid, KeyOf(e), id), entities := w.entities[..i] + w.entities[i + 1..],
       score := strike.0, sent := w.sent + strike.1)
  }

  /** The loop body is the move, followed by the removal when the moved entity is off screen. */
  lemma AdvanceAtSplit(w: World, i: nat, env: Env)
    requires Indexed(w) && i < |w.entities|
    ensures var m := MovedAt(w, i, env);
            AdvanceAt(w, i, env)
            == if OutOfBounds(MovedIn(w, w.entities[i], env), env.width, env.height) then EscapedAt(m, i) else m
  {
    AdvanceAtFields(w, i, env);
  }

  /** One more iteration of the body moves the loop one position towards the front. */
  lemma AdvanceLoopStep(w: World, ids: seq<EntityId>, i: nat, env: Env)
    requires Indexed(w) && (forall id :: id in ids ==> id in w.store) && i < |ids|
    ensures var v := AdvancedFrom(w, ids, i + 1, env);
            i < |v.entities| && v.entities[i] == ids[i] && AdvanceAt(v, i, env) == AdvancedFrom(w, ids, i, env)
  {
    assert ids[i..][0] == ids[i] && ids[i..][1..] == ids[i + 1..];
    var p := AdvanceAll(w, ids[i + 1..], env);
    var v := AdvancedFrom(w, ids, i + 1, env);
    assert ids[..i + 1] == ids[..i] + [ids[i]];
    assert v.entities[i + 1..] == p.entities && v.entities[..i] == ids[..i];
    assert v.(entities := v.entities[i + 1..]) == p;
  }

  /** Before the loop nothing is processed; after it, the whole frame is done. */
  lemma AdvancedFromEnds(w: World, env: Env)
    requires Indexed(w)
    ensures AdvancedFrom(w.(entities := []), w.entities, |w.entities|, env) == w
    ensures AdvancedFrom(w.(entities := []), w.entities, 0, env) == AdvanceFrame(w, env)
  {
    assert w.entities[|w.entities|..] == [] && w.entities[..|w.entities|] == w.entities;
    assert w.entities[0..] == w.entities && w.entities[..0] == [];
  }

  /** The ids of `ids` whose entity is still on screen after moving, in order. */
  function StillOnScreen(ids: seq<EntityId>, store: Store, slowmo: bool, factor: real, env: Env): (r: seq<EntityId>)
    requires forall id :: id in ids ==> id in store
    ensures forall id :: id in r ==> id in ids
    ensures forall id :: id in ids ==> (id in r <==> !OutOfBounds(Moved(store[id], slowmo, factor, env), env.width, env.height))
    ensures Distinct(ids) ==> Distinct(r)
  {
    if ids == [] then []
    else
      var rest := StillOnScreen(ids[1..], store, slowmo, factor, env);
      if OutOfBounds(Moved(store[ids[0]], slowmo, factor, env), env.width, env.height) then rest
      else [ids[0]] + rest
  }

  /** The number of good entities of `ids` that leave the screen this frame. */
  function GoodEscapes(ids: seq<EntityId>, store: Store, slowmo: bool, factor: real, env: Env): nat
    requires forall id :: id in ids ==> id in store
  {
    if ids == [] then 0
    else
      GoodEscapes(ids[1..], store, slowmo, factor, env)
      + (if store[ids[0]].kind.Good? && OutOfBounds(Moved(store[ids[0]], slowmo, factor, env), env.width, env.height)
         then 1 else 0)
  }

  /**
   * The loop moves each listed entity exactly once, keeps exactly the on-screen ones in their
   * original order, and leaves every other stored entity alone.
   */
  lemma {:induction false} AdvanceAllMoves(w: World, ids: seq<EntityId>, env: Env)
    requires Indexed(w) && (forall id :: id in ids ==> id in w.store) && Distinct(ids)
    ensures var r := AdvanceAll(w, ids, env);
            (forall id :: id in ids ==> r.store[id] == MovedIn(w, id, env))
            && (forall id :: id in w.store && id !in ids ==> r.store[id] == w.store[id])
            && r.entities == StillOnScreen(ids, w.store, w.slowmoActive, w.slowmoFactor, env) + w.entities
  {
    if ids != [] {
      var rest := ids[1..];
      assert Distinct(rest);
      AdvanceAllMoves(w, rest, env);
      var r1 := AdvanceAll(w, rest, env);
      assert ids[0] !in rest;
      assert r1.store[ids[0]] == w.store[ids[0]];
    }
  }

  /**
   * Strikes from escaped good entities are never lost: fails plus three per submitted run grows
   * by exactly the number of good entities that left the screen. Hazards and power-ups that
   * leave change no counter.
   */
  lemma {:induction false} AdvanceAllStrikes(w: World, ids: seq<EntityId>, env: Env)
    requires Indexed(w) && (forall id :: id in ids ==> id in w.store) && Distinct(ids)
    requires Sane(w.score)
    ensures var r := AdvanceAll(w, ids, env);
            |r.sent| >= |w.sent|
            && r.score.fails + 3 * (|r.sent| - |w.sent|)
               == w.score.fails + GoodEscapes(ids, w.store, w.slowmoActive, w.slowmoFactor, env)
            && (GoodEscapes(ids, w.store, w.slowmoActive, w.slowmoFactor, env) == 0 ==>
                  r.score == w.score && r.sent == w.sent)
  {
    if ids != [] {
      var rest, id := ids[1..], ids[0];
      assert Distinct(rest) && id !in rest;
      AdvanceAllStrikes(w, rest, env);
      var r1 := AdvanceAll(w, rest, env);
      assert r1.store[id] == w.store[id] by {
        AdvanceAllMoves(w, rest, env);
      }
      var e := MovedIn(r1, id, env);
      var r := AdvanceOne(r1, id, env);
      assert e == Moved(w.store[id], w.slowmoActive, w.slowmoFactor, env);
      if e.kind.Good? && OutOfBounds(e, env.width, env.height) {
        StrikeAccount(r1.score);
        assert r.score == Strike(r1.score).0 && r.sent == r1.sent + Strike(r1.score).1;
      } else {
        assert r.score == r1.score && r.sent == r1.sent;
      }
    }
  }

  /** A frame keeps the scene invariants. */
  lemma AdvanceFrameWf(w: World, env: Env)
    requires Wf(w)
    ensures Wf(AdvanceFrame(w, env))
  {
    var w0 := w.(entities := []);
    AdvanceAllMoves(w0, w.entities, env);
  }

  // ---------------------------------------------------------------- spawning

  const MaxHazards: nat := 2
  /** Position draws checked before the last draw is taken unchecked. */
  const SpawnRetries: nat := 10
  /** A new entity keeps this horizontal distance from every live hazard, when it can. */
  const HazardClearance: real := 80.0

  /** `entities.filter(e => e.type === 'hazard').length`. */
  function HazardCount(ids: seq<EntityId>, store: Store): nat
    requires forall id :: id in ids ==> id in store
  {
    if ids == [] then 0
    else HazardCount(ids[1..], store) + (if store[ids[0]].kind.Hazard? then 1 else 0)
  }

  /** The live hazards as a set. */
  function Hazards(ids: seq<EntityId>, store: Store): set<EntityId>
  {
    set id | id in ids && id in store && store[id].kind.Hazard?
  }

  /** On a duplicate-free list the filtered length is the number of hazards. */
  lemma {:induction false} HazardCountIsSize(ids: seq<EntityId>, store: Store)
    requires (forall id :: id in ids ==> id in store) && Distinct(ids)
    ensures HazardCount(ids, store) == |Hazards(ids, store)|
  {
    if ids != [] {
      var rest := ids[1..];
      assert Distinct(rest);
      HazardCountIsSize(rest, store);
      assert ids[0] !in rest;
      if store[ids[0]].kind.Hazard? {
        assert Hazards(ids, store) == Hazards(rest, store) + {ids[0]};
      } else {
        assert Hazards(ids, store) == Hazards(rest, store);
      }
    }
  }

  /** The kind chosen for a new entity: good once two hazards are live, else good with probability 0.8. */
  function SpawnKind(hazardsOnScreen: nat, roll: real): (k: Kind)
    ensures k.Good? || k.Hazard?
    ensures hazardsOnScreen >= MaxHazards ==> k.Good?
    ensures hazardsOnScreen < MaxHazards ==> (k.Good? <==> roll < GoodChance)
  {
    if hazardsOnScreen >= MaxHazards then Good else if roll < GoodChance then Good else Hazard
  }

  /** `entities.some(e => e.type === 'hazard' && Math.abs(e.sprite.x - x) < 80)`. */
  function HazardNear(ids: seq<EntityId>, store: Store, x: real): bool
    requires forall id :: id in ids ==> id in store
  {
    if ids == [] then false
    else
      var e := store[ids[0]];
      (e.kind.Hazard? && -HazardClearance < e.x - x < HazardClearance) || HazardNear(ids[1..], store, x)
  }

  /** The scan finds a hazard exactly when some live hazard is closer than the clearance to `x`. */
  lemma {:induction false} HazardNearSpec(ids: seq<EntityId>, store: Store, x: real)
    requires forall id :: id in ids ==> id in store
    ensures HazardNear(ids, store, x) <==>
              exists id :: id in ids && store[id].kind.Hazard? && -HazardClearance < store[id].x - x < HazardClearance
  {
    if ids != [] {
      HazardNearSpec(ids[1..], store, x);
      if HazardNear(ids[1..], store, x) {
        var id :| id in ids[1..] && store[id].kind.Hazard? && -HazardClearance < store[id].x - x < HazardClearance;
        assert id in ids;
      }
      forall id | id in ids && store[id].kind.Hazard? && -HazardClearance < store[id].x - x < HazardClearance
        ensures HazardNear(ids, store, x)
      {
        if id != ids[0] {
          assert id in ids[1..];
        }
      }
    }
  }

  /**
   * Which of the position draws `spawnEntity` settles on: the first of the ten checked draws
   * clear of every live hazard, or the eleventh, unchecked draw when none is.
   */
  function SpawnXIndex(xs: seq<real>, ids: seq<EntityId>, store: Store, from: nat): (k: nat)
    requires forall id :: id in ids ==> id in store
    requires |xs| == SpawnRetries + 1 && from <= SpawnRetries
    ensures from <= k <= SpawnRetries
    decreases SpawnRetries - from
  {
    if from == SpawnRetries then from
    else if !HazardNear(ids, store, xs[from]) then from
    else SpawnXIndex(xs, ids, store, from + 1)
  }

  /** The chosen draw is clear of hazards unless it is the unchecked eleventh, and every draw before it was not. */
  lemma {:induction false} SpawnXIndexSpec(xs: seq<real>, ids: seq<EntityId>, store: Store, from: nat)
    requires forall id :: id in ids ==> id in store
    requires |xs| == SpawnRetries + 1 && from <= SpawnRetries
    ensures var k := SpawnXIndex(xs, ids, store, from);
            (k < SpawnRetries ==> !HazardNear(ids, store, xs[k]))
            && (forall j :: from <= j < k ==> HazardNear(ids, store, xs[j]))
    decreases SpawnRetries - from
  {
    if from < SpawnRetries && HazardNear(ids, store, xs[from]) {
      SpawnXIndexSpec(xs, ids, store, from + 1);
    }
  }

  /** Adds a new entity under the next unused id: stored, appended to the live list, pushed onto its bucket. */
  function Spawn(w: World, e: Entity): World
  {
    var id := w.nextId;
    w.(store := w.store[id := e], entities := w.entities + [id], grid := GridAdd(w.grid, KeyOf(e), id),
       nextId := id + 1)
  }

  /** Spawning keeps the scene invariants. */
  lemma SpawnWf(w: World, e: Entity)
    requires Wf(w) && !e.cut
    ensures Wf(Spawn(w, e))
  {
    var r, id := Spawn(w, e), w.nextId;
    GridInLargerStore(w.grid, w.store, r.store);
    GridAddInStore(w.grid, r.store, KeyOf(e), id);
    assert id !in w.entities;
    assert Distinct(r.entities) by {
      forall i, j | 0 <= i < j < |r.entities| ensures r.entities[i] != r.entities[j] {
        if j == |w.entities| {
          assert r.entities[i] == w.entities[i];
        }
      }
    }
  }

  /**
   * The hazard cap: with at most two hazards live, an entity whose kind follows `SpawnKind`
   * (or a power-up) leaves at most two hazards live.
   */
  lemma SpawnHazardCap(w: World, e: Entity, roll: real)
    requires Wf(w)
    requires e.kind == SpawnKind(HazardCount(w.entities, w.store), roll) || e.kind.PowerUp?
    ensures |Hazards(w.entities, w.store)| <= MaxHazards ==>
              |Hazards(Spawn(w, e).entities, Spawn(w, e).store)| <= MaxHazards
  {
    var r := Spawn(w, e);
    var h0, h1 := Hazards(w.entities, w.store), Hazards(r.entities, r.store);
    if |h0| <= MaxHazards {
      HazardCountIsSize(w.entities, w.store);
      if e.kind.Hazard? {
        assert h1 == h0 + {w.nextId};
      } else {
        assert h1 == h0;
      }
    }
  }

  /** At most two hazards are live. */
  ghost predicate HazardCap(w: World)
  {
    |Hazards(w.entities, w.store)| <= MaxHazards
  }

  /** Dropping entities, or moving them and flagging them, never adds a hazard. */
  lemma HazardsShrink(ids1: seq<EntityId>, s1: Store, ids2: seq<EntityId>, s2: Store)
    requires forall id :: id in ids2 ==> id in ids1 && id in s1 && id in s2 && s2[id].kind == s1[id].kind
    ensures |Hazards(ids2, s2)| <= |Hazards(ids1, s1)|
  {
    var h1, h2 := Hazards(ids1, s1), Hazards(ids2, s2);
    assert h2 <= h1;
    assert h1 == h2 + (h1 - h2);
  }

  lemma CutKeepsHazardCap(w: World, id: EntityId)
    requires Wf(w) && HazardCap(w) && id in w.store
    ensures HazardCap(Cut(w, id))
  {
    var r := Cut(w, id);
    if !w.store[id].cut {
      DetachWf(w, id);
      ResolveWf(Detach(w, id), w.store[id].kind);
      RemoveFirstSubset(w.entities, id);
    }
    HazardsShrink(w.entities, w.store, r.entities, r.store);
  }

  lemma FrameKeepsHazardCap(w: World, env: Env)
    requires Wf(w)
    ensures HazardCap(w) ==> HazardCap(AdvanceFrame(w, env))
  {
    var w0 := w.(entities := []);
    AdvanceAllMoves(w0, w.entities, env);
    var r := AdvanceFrame(w, env);
    HazardsShrink(w.entities, w.store, r.entities, r.store);
  }
}
