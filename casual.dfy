/**
 * The casual Game scene as the object the engine drives: pointer handlers, the spatial grid
 * maintenance, slicing, `restartGame`, spawning and the per-frame update. Every method is proved
 * to move the scene's state exactly as the matching definition of CasualWorld says, and so to
 * keep `Wf`.
 */
module CasualScene {
  import opened Seqs
  import opened SpatialGrid
  import opened Preloader
  import opened Playfield
  import opened Scoring
  import opened Trail
  import opened CasualWorld

  class Game {
    var pointsCount: int
    var failsCount: int
    /** How many times `restartGame` has started the GameOver scene. */
    var restarts: nat

    /** The live entities, in spawn order, by id. */
    var entities: seq<EntityId>
    /** Every entity object ever spawned, by id; a sliced one stays here with its `cut` flag set. */
    var store: Store
    var entityGrid: Grid
    var nextId: nat

    var spawnTimer: real
    var isCutting: bool
    var trailLine: seq<Point>

    /** The game registry the preloader filled. */
    const registry: Registry

    /** The scene's game state as a value. */
    function State(): Casual
      reads this
    {
      Casual(store, entityGrid, entities, pointsCount, failsCount, restarts, spawnTimer, nextId)
    }

    /** The pointer state: whether a slice is in progress, and the trail drawn so far. */
    function Input(): (bool, seq<Point>)
      reads this
    {
      (isCutting, trailLine)
    }

    ghost predicate Valid()
      reads this
    {
      Wf(State())
    }

    constructor (registry: Registry)
      ensures this.registry == registry
      ensures State() == Casual(map[], map[], [], 0, 0, 0, 0.0, 0)
      ensures Input() == (false, [])
      ensures Valid()
    {
      pointsCount, failsCount, restarts := 0, 0, 0;
      entities, store, entityGrid, nextId := [], map[], map[], 0;
      spawnTimer := 0.0;
      isCutting, trailLine := false, [];
      this.registry := registry;
    }

    // ------------------------------------------------------------ input

    /** `pointerdown`: a slice starts. */
    method PointerDown()
      modifies this
      ensures Input() == (true, old(trailLine)) && State() == old(State())
    {
      isCutting := true;
    }

    /** `pointerup`: the slice ends and the trail is cleared. */
    method PointerUp()
      modifies this
      ensures Input() == (false, []) && State() == old(State())
    {
      isCutting := false;
      trailLine := [];
    }

    /** `updateTrail`: push the sample and drop the oldest one beyond ten. */
    method UpdateTrail(x: real, y: real)
      modifies this
      ensures trailLine == Push(old(trailLine), Point(x, y), CasualCapacity)
      ensures isCutting == old(isCutting) && State() == old(State())
    {
      trailLine := trailLine + [Point(x, y)];
      if |trailLine| > CasualCapacity {
        trailLine := trailLine[1..];
      }
    }

    /** `pointermove`: while cutting, extend the trail and slice at the pointer. */
    method PointerMove(px: real, py: real)
      requires Valid()
      modifies this
      ensures Valid()
      ensures !old(isCutting) ==> Input() == old(Input()) && State() == old(State())
      ensures old(isCutting) ==>
                Input() == (true, Push(old(trailLine), Point(px, py), CasualCapacity))
                && State() == Slice(old(State()), px, py)
    {
      if !isCutting {
        return;
      }
      UpdateTrail(px, py);
      CheckCutEntities(px, py);
    }

    /** `restartGame`, also the Game Over button's handler: both counters to zero, then the GameOver scene. */
    method RestartGame()
      requires Valid()
      modifies this`pointsCount, this`failsCount, this`restarts
      ensures Valid() && State() == Restart(old(State()))
    {
      pointsCount := 0;
      failsCount := 0;
      restarts := restarts + 1;
    }

    // ------------------------------------------------------------ spatial grid

    /** `addEntityToGrid`. */
    method AddEntityToGrid(id: EntityId)
      requires id in store
      modifies this`entityGrid
      ensures entityGrid == GridAdd(old(entityGrid), KeyOf(store[id]), id)
    {
      var key := KeyOf(store[id]);
      if key !in entityGrid {
        entityGrid := entityGrid[key := []];
      }
      entityGrid := entityGrid[key := entityGrid[key] + [id]];
    }

    /** `removeEntityFromGrid`: splice the id out of the bucket of the entity's current position. */
    method RemoveEntityFromGrid(id: EntityId)
      requires id in store
      modifies this`entityGrid
      ensures entityGrid == GridRemove(old(entityGrid), KeyOf(store[id]), id)
    {
      var key := KeyOf(store[id]);
      var grid := entityGrid;
      if key in grid {
        var arr := grid[key];
        var idx := IndexOf(arr, id);
        if idx >= 0 {
          assert arr[..idx] + arr[idx + 1..] == RemoveFirst(arr, id);
          grid := grid[key := arr[..idx] + arr[idx + 1..]];
        } else {
          assert id !in arr;
        }
      }
      entityGrid := grid;
    }

    /** `updateEntityGridPosition`, after the entity has moved. */
    method UpdateEntityGridPosition(id: EntityId)
      requires id in store
      modifies this`entityGrid
      ensures entityGrid == Regrid(old(entityGrid), id, store[id])
    {
      var e := store[id];
      var oldKey := KeyAt(e.x - e.vx, e.y - e.vy);
      var newKey := KeyAt(e.x, e.y);
      if oldKey != newKey {
        RemoveEntityFromGrid(id);
        AddEntityToGrid(id);
      }
    }

    // ------------------------------------------------------------ slicing

    /**
     * `checkCutEntities`: scan the five probed buckets for the first entity under the pointer,
     * take it out of its bucket and cut it.
     */
    method CheckCutEntities(px: real, py: real)
      requires Valid()
      modifies this`pointsCount, this`failsCount, this`restarts, this`store, this`entityGrid, this`entities
      ensures Valid() && State() == Slice(old(State()), px, py)
    {
      ghost var c := State();
      SliceCutsAtMostOne(c, px, py);
      var keysToCheck := ProbeKeys(px, py);
      var hit := FindHit(entityGrid, store, keysToCheck, px, py);
      match hit {
        case None =>
        case Some(id) =>
          FirstHitSpec(c.grid, c.store, keysToCheck, px, py);
          RemoveEntityFromGrid(id);
          GridRemoveInStore(c.grid, c.store, KeyOf(c.store[id]), id);
          CutEntity(id);
      }
    }

    /**
     * `cutEntity`, also the handler of a tap on the entity's sprite: nothing for an entity already
     * cut; otherwise flag it, take it off its bucket and the live list, then count a point for a
     * good entity or a fail for anything else, restarting at the third fail.
     */
    method CutEntity(id: EntityId)
      requires Indexed(State()) && id in store
      modifies this`pointsCount, this`failsCount, this`restarts, this`store, this`entityGrid, this`entities
      ensures State() == Cut(old(State()), id)
    {
      if store[id].cut {
        return;
      }
      var kind := store[id].kind;
      DetachEntity(id);
      TallyCut(kind);
    }

    /** The first half of `cutEntity`: set the `cut` flag, then splice the entity out of its bucket and the live list. */
    method DetachEntity(id: EntityId)
      requires Indexed(State()) && id in store
      modifies this`store, this`entityGrid, this`entities
      ensures State() == Detach(old(State()), id)
    {
      var e := store[id];
      store := store[id := e.(cut := true)];
      RemoveEntityFromGrid(id);
      var ents := entities;
      var index := IndexOf(ents, id);
      if index >= 0 {
        ents := ents[..index] + ents[index + 1..];
      }
      entities := ents;
    }

    /** The second half of `cutEntity`: the points or the fails. */
    method TallyCut(kind: Kind)
      modifies this`pointsCount, this`failsCount, this`restarts
      ensures State() == Tally(old(State()), kind)
    {
      if kind.Good? {
        pointsCount := pointsCount + 1;
      } else {
        failsCount := failsCount + 1;
        if failsCount >= MaxFails {
          pointsCount, failsCount, restarts := 0, 0, restarts + 1;
        }
      }
    }

    // ------------------------------------------------------------ spawning

    /** Store a new entity under the next id, push it on the live list, then onto its bucket. */
    method AddEntity(e: Entity)
      modifies this`store, this`entities, this`entityGrid, this`nextId
      ensures State() == Spawn(old(State()), e)
    {
      var id := nextId;
      store := store[id := e];
      entities := entities + [id];
      AddEntityToGrid(id);
      nextId := id + 1;
    }

    /** `spawnEntity(width, height)`, its random draws given as `d`. */
    method SpawnEntity(d: SpawnDraw, width: real, height: real)
      modifies this`store, this`entities, this`entityGrid, this`nextId
      ensures State() == SpawnOne(old(State()), registry.data, d, width, height)
    {
      var radius := d.radius as real;
      var y := height + radius;
      var kind := if d.roll < GoodChance then Good else Hazard;
      var iconArray := IconPool(registry.data, kind);
      if |iconArray| == 0 {
        return;
      }
      var key := PickIcon(iconArray, d.iconPick);
      if key == "" {
        return;
      }
      var scaleFactor := ResponsiveScale(width);
      var displaySize := radius * 2.0 * scaleFactor;
      AddEntity(Entity(d.x, y, d.vx, d.launchVy, displaySize / 2.0, kind, false));
    }

    // ------------------------------------------------------------ update

    /** `spawnTimer += dt; if (spawnTimer > 1.5) { spawnTimer = 0; spawnEntity(width, height) }`. */
    method SpawnWhenDue(dt: real, d: SpawnDraw, width: real, height: real)
      modifies this`store, this`entities, this`entityGrid, this`nextId, this`spawnTimer
      ensures State() == Timed(old(State()), registry.data, dt, d, width, height)
    {
      spawnTimer := spawnTimer + dt;
      if spawnTimer > SpawnPeriod {
        spawnTimer := 0.0;
        SpawnEntity(d, width, height);
      }
    }

    /** An entity that left the screen: out of its bucket and the live list, with no fail counted. */
    method Expire(i: nat)
      requires i < |entities| && entities[i] in store
      modifies this`entityGrid, this`entities
      ensures var id := old(entities[i]);
              entities == old(entities[..i] + entities[i + 1..])
              && entityGrid == GridRemove(old(entityGrid), KeyOf(store[id]), id)
    {
      var id := entities[i];
      RemoveEntityFromGrid(id);
      entities := entities[..i] + entities[i + 1..];
    }

    /** The motion of one entity in `update`: gravity and the sine flutter, then `updateEntityGridPosition`. */
    method MoveEntity(id: EntityId, env: Env)
      requires id in store
      modifies this`store, this`entityGrid
      ensures store == old(store)[id := Moved(old(store[id]), env)]
      ensures entityGrid == Regrid(old(entityGrid), id, store[id])
    {
      store := store[id := Moved(store[id], env)];
      UpdateEntityGridPosition(id);
    }

    /** One iteration of `update`'s reverse loop, at position `i` of the live list. */
    method AdvanceEntity(i: nat, env: Env)
      requires Indexed(State()) && i < |entities|
      modifies this`store, this`entityGrid, this`entities
      ensures State() == AdvanceAt(old(State()), i, env)
    {
      ghost var c := State();
      AdvanceAtFields(c, i, env);
      var id := entities[i];
      MoveEntity(id, env);
      ghost var r := AdvanceAt(c, i, env);
      assert store == r.store && store[id] == Moved(c.store[id], env);
      if OutOfBounds(store[id], env.width, env.height) {
        Expire(i);
        assert entityGrid == r.grid && entities == r.entities;
      } else {
        assert entityGrid == r.grid && entities == r.entities;
      }
    }

    /** `update`'s loop over the live list, last entity first. */
    method AdvanceEntities(env: Env)
      requires Indexed(State())
      modifies this`store, this`entityGrid, this`entities
      ensures State() == AdvanceFrame(old(State()), env)
    {
      ghost var base, ids := State().(entities := []), entities;
      AdvancedFromEnds(State(), env);
      var i := |entities|;
      while i > 0
        invariant 0 <= i <= |ids|
        invariant State() == AdvancedFrom(base, ids, i, env)
      {
        i := i - 1;
        AdvanceLoopStep(base, ids, i, env);
        ghost var v := State();
        assert Indexed(v) && i < |v.entities|;
        AdvanceEntity(i, env);
        assert State() == AdvanceAt(v, i, env);
      }
    }

    /** `update(time, delta)`, with `env.dt = delta / 1000`: the timed spawn, then the frame of motion and expiry. */
    method Update(env: Env, d: SpawnDraw)
      requires Valid() && env.dt >= 0.0
      modifies this`store, this`entityGrid, this`entities, this`nextId, this`spawnTimer
      ensures Valid() && State() == Step(old(State()), registry.data, env, d)
    {
      ghost var c0 := State();
      SpawnWhenDue(env.dt, d, env.width, env.height);
      TimedSpec(c0, registry.data, env.dt, d, env.width, env.height);
      AdvanceEntities(env);
      StepWf(c0, registry.data, env, d);
    }
  }
}
