/**
 * The uniform-grid spatial index shared by the Ranked and Game scenes: cell keys, the
 * bucket map, its add/remove/re-bucket updates, and the five-cell slice hit-test.
 * Entities are referred to by identity (an id into the scene's entity store), as the
 * buckets locate them with `indexOf`.
 */
module SpatialGrid {
  import opened Seqs

  type EntityId = nat

  /** Entity category; Game.ts calls the hazard category 'bad'. An empty power-up id is a missing one. */
  datatype Kind = Good | Hazard | PowerUp(powerUpId: string)

  /** A live or removed entity: sprite position, velocity, hit radius, category, and the `cut` guard. */
  datatype Entity = Entity(x: real, y: real, vx: real, vy: real, radius: real, kind: Kind, cut: bool)

  /** The string key `${cx},${cy}`; distinct integer pairs give distinct strings. */
  datatype CellKey = CellKey(cx: int, cy: int)

  type Grid = map<CellKey, seq<EntityId>>

  type Store = map<EntityId, Entity>

  const CellSize: real := 100.0

  /** `getCellKey(x, y)`: the cell whose 100-wide square contains the point. */
  function KeyAt(x: real, y: real): CellKey
  {
    CellKey((x / CellSize).Floor, (y / CellSize).Floor)
  }

  /** The point lies in the 100-wide square of its cell. */
  lemma KeyAtSpec(x: real, y: real)
    ensures var k := KeyAt(x, y);
            k.cx as real * CellSize <= x < (k.cx + 1) as real * CellSize
            && k.cy as real * CellSize <= y < (k.cy + 1) as real * CellSize
  {
  }

  /** The cell key is determined by the square the point lies in. */
  lemma KeyAtUnique(x: real, y: real, cx: int, cy: int)
    requires cx as real * CellSize <= x < (cx + 1) as real * CellSize
    requires cy as real * CellSize <= y < (cy + 1) as real * CellSize
    ensures KeyAt(x, y) == CellKey(cx, cy)
  {
    var k := KeyAt(x, y);
    KeyAtSpec(x, y);
    assert k.cx < cx + 1 && cx < k.cx + 1;
    assert k.cy < cy + 1 && cy < k.cy + 1;
  }

  /** Key of the cell holding the entity's current sprite position. */
  function KeyOf(e: Entity): CellKey
  {
    KeyAt(e.x, e.y)
  }

  /** `entityGrid.get(key)`, with a missing bucket read as empty. */
  function Bucket(g: Grid, k: CellKey): seq<EntityId>
  {
    if k in g then g[k] else []
  }

  /** Every id held in any bucket names an entity of the store. */
  ghost predicate GridInStore(g: Grid, store: Store)
  {
    forall k, i :: k in g && 0 <= i < |g[k]| ==> g[k][i] in store
  }

  /** `addEntityToGrid`: create the bucket if absent, then push the id. */
  function GridAdd(g: Grid, k: CellKey, id: EntityId): Grid
  {
    g[k := Bucket(g, k) + [id]]
  }

  /** `removeEntityFromGrid`: splice the first occurrence out of the bucket; nothing when either is missing. */
  function GridRemove(g: Grid, k: CellKey, id: EntityId): Grid
  {
    if k !in g || id !in g[k] then g else g[k := RemoveFirst(g[k], id)]
  }

  /** Adding appends the id at the end of its bucket and leaves every other bucket alone. */
  lemma GridAddSpec(g: Grid, k: CellKey, id: EntityId)
    ensures k in GridAdd(g, k, id)
    ensures Bucket(GridAdd(g, k, id), k) == Bucket(g, k) + [id]
    ensures multiset(Bucket(GridAdd(g, k, id), k)) == multiset(Bucket(g, k)) + multiset{id}
    ensures forall k' :: k' != k ==> Bucket(GridAdd(g, k, id), k') == Bucket(g, k')
    ensures GridAdd(g, k, id).Keys == g.Keys + {k}
  {
  }

  /** Removing takes exactly one copy of the id out of that bucket when there is one, else changes nothing. */
  lemma GridRemoveSpec(g: Grid, k: CellKey, id: EntityId)
    ensures id !in Bucket(g, k) ==> GridRemove(g, k, id) == g
    ensures multiset(Bucket(GridRemove(g, k, id), k)) == multiset(Bucket(g, k)) - multiset{id}
    ensures forall k' :: k' != k ==> Bucket(GridRemove(g, k, id), k') == Bucket(g, k')
    ensures GridRemove(g, k, id).Keys == g.Keys
  {
    if k in g {
      RemoveFirstSpec(g[k], id);
    }
  }

  lemma GridAddInStore(g: Grid, store: Store, k: CellKey, id: EntityId)
    requires GridInStore(g, store) && id in store
    ensures GridInStore(GridAdd(g, k, id), store)
  {
    var r := GridAdd(g, k, id);
    forall k', i | k' in r && 0 <= i < |r[k']|
      ensures r[k'][i] in store
    {
      if k' == k && i == |Bucket(g, k)| {
      } else if k' == k {
        assert r[k'][i] == Bucket(g, k)[i];
      }
    }
  }

  lemma GridRemoveInStore(g: Grid, store: Store, k: CellKey, id: EntityId)
    requires GridInStore(g, store)
    ensures GridInStore(GridRemove(g, k, id), store)
  {
    var r := GridRemove(g, k, id);
    forall k', i | k' in r && 0 <= i < |r[k']|
      ensures r[k'][i] in store
    {
      if k' == k && k in g {
        RemoveFirstSubset(g[k], id);
        assert r[k'][i] in RemoveFirst(g[k], id);
      }
    }
  }

  lemma GridInLargerStore(g: Grid, s1: Store, s2: Store)
    requires GridInStore(g, s1) && s1.Keys <= s2.Keys
    ensures GridInStore(g, s2)
  {
  }

  /**
   * The key `updateEntityGridPosition` treats as the entity's previous cell: it steps back
   * by one whole velocity vector (`x - vx, y - vy`), not by the frame's displacement.
   */
  function PrevKey(e: Entity): CellKey
  {
    KeyAt(e.x - e.vx, e.y - e.vy)
  }

  /**
   * `updateEntityGridPosition(e)` after the entity has moved to `e`'s position: when the two
   * keys differ it removes from the bucket of the CURRENT position and pushes onto that same bucket.
   */
  function Regrid(g: Grid, id: EntityId, e: Entity): Grid
  {
    if PrevKey(e) != KeyOf(e) then GridAdd(GridRemove(g, KeyOf(e), id), KeyOf(e), id) else g
  }

  lemma RegridInStore(g: Grid, store: Store, id: EntityId, e: Entity)
    requires GridInStore(g, store) && id in store
    ensures GridInStore(Regrid(g, id, e), store)
  {
    if PrevKey(e) != KeyOf(e) {
      GridRemoveInStore(g, store, KeyOf(e), id);
      GridAddInStore(GridRemove(g, KeyOf(e), id), store, KeyOf(e), id);
    }
  }

  /** Re-bucketing only ever touches the bucket of the entity's current cell. */
  lemma RegridOtherBuckets(g: Grid, id: EntityId, e: Entity, k: CellKey)
    requires k != KeyOf(e)
    ensures Bucket(Regrid(g, id, e), k) == Bucket(g, k)
  {
    if PrevKey(e) != KeyOf(e) {
      GridRemoveSpec(g, KeyOf(e), id);
      GridAddSpec(GridRemove(g, KeyOf(e), id), KeyOf(e), id);
    }
  }

  /**
   * The re-bucketing never removes the entry the entity was inserted under: an entity added at
   * (150, 150) and moved right by one cell stays listed in its old bucket as well as the new one.
   */
  lemma StaleEntryRemains()
    ensures var g0 := GridAdd(map[], KeyAt(150.0, 150.0), 0);
            var moved := Entity(250.0, 150.0, 100.0, 0.0, 40.0, Good, false);
            var g1 := Regrid(g0, 0, moved);
            0 in Bucket(g1, CellKey(1, 1)) && 0 in Bucket(g1, CellKey(2, 1))
  {
    var g0 := GridAdd(map[], KeyAt(150.0, 150.0), 0);
    KeyAtUnique(150.0, 150.0, 1, 1);
    var moved := Entity(250.0, 150.0, 100.0, 0.0, 40.0, Good, false);
    KeyAtUnique(250.0, 150.0, 2, 1);
    KeyAtUnique(150.0, 150.0, 1, 1);
    assert PrevKey(moved) == CellKey(1, 1);
    assert GridRemove(g0, CellKey(2, 1), 0) == g0;
    assert Bucket(Regrid(g0, 0, moved), CellKey(2, 1)) == [0];
  }

  /** `keysToCheck` in `checkCutEntities`: the pointer's cell, then right, left, below, above. */
  function ProbeKeys(px: real, py: real): seq<CellKey>
  {
    [KeyAt(px, py), KeyAt(px + CellSize, py), KeyAt(px - CellSize, py),
     KeyAt(px, py + CellSize), KeyAt(px, py - CellSize)]
  }

  /** The probe visits exactly the pointer's cell and its four axis neighbours, in that order. */
  lemma ProbeKeysAreCross(px: real, py: real)
    ensures var k := KeyAt(px, py);
            ProbeKeys(px, py) == [k, CellKey(k.cx + 1, k.cy), CellKey(k.cx - 1, k.cy),
                                  CellKey(k.cx, k.cy + 1), CellKey(k.cx, k.cy - 1)]
  {
    var k := KeyAt(px, py);
    KeyAtUnique(px + CellSize, py, k.cx + 1, k.cy);
    KeyAtUnique(px - CellSize, py, k.cx - 1, k.cy);
    KeyAtUnique(px, py + CellSize, k.cx, k.cy + 1);
    KeyAtUnique(px, py - CellSize, k.cx, k.cy - 1);
  }

  /** The ids the hit-test examines, bucket after bucket in probe order. */
  function Candidates(g: Grid, keys: seq<CellKey>): seq<EntityId>
  {
    if keys == [] then [] else Candidates(g, keys[..|keys| - 1]) + Bucket(g, keys[|keys| - 1])
  }

  lemma CandidatesStep(g: Grid, keys: seq<CellKey>, k: nat)
    requires k < |keys|
    ensures Candidates(g, keys[..k + 1]) == Candidates(g, keys[..k]) + Bucket(g, keys[k])
  {
    assert keys[..k + 1][..k] == keys[..k];
  }

  lemma {:induction false} CandidatesSplit(g: Grid, keys: seq<CellKey>, k: nat)
    requires k <= |keys|
    ensures Candidates(g, keys) == Candidates(g, keys[..k]) + Candidates(g, keys[k..])
    decreases |keys|
  {
    if k == |keys| {
      assert keys[..k] == keys;
      assert keys[k..] == [];
    } else {
      var n := |keys|;
      var init := keys[..n - 1];
      var a, b, last := Candidates(g, keys[..k]), Candidates(g, init[k..]), Bucket(g, keys[n - 1]);
      assert Candidates(g, keys) == (a + b) + last by {
        CandidatesSplit(g, init, k);
        assert init[..k] == keys[..k];
      }
      assert Candidates(g, keys[k..]) == b + last by {
        CandidatesTail(g, keys, k);
      }
      assert (a + b) + last == a + (b + last);
    }
  }

  /** The candidates of a suffix end with the bucket of the last key. */
  lemma CandidatesTail(g: Grid, keys: seq<CellKey>, k: nat)
    requires k < |keys|
    ensures Candidates(g, keys[k..]) == Candidates(g, keys[..|keys| - 1][k..]) + Bucket(g, keys[|keys| - 1])
  {
    var tail := keys[k..];
    assert tail[..|tail| - 1] == keys[..|keys| - 1][k..];
    assert tail[|tail| - 1] == keys[|keys| - 1];
  }

  lemma {:induction false} CandidatesPrefix(g: Grid, keys: seq<CellKey>, k: nat)
    requires k <= |keys|
    ensures Candidates(g, keys[..k]) <= Candidates(g, keys)
    decreases |keys| - k
  {
    if k < |keys| {
      CandidatesPrefix(g, keys, k + 1);
      CandidatesStep(g, keys, k);
    } else {
      assert keys[..k] == keys;
    }
  }

  lemma {:induction false} CandidatesInStore(g: Grid, store: Store, keys: seq<CellKey>)
    requires GridInStore(g, store)
    ensures forall id :: id in Candidates(g, keys) ==> id in store
    decreases |keys|
  {
    if keys != [] {
      CandidatesInStore(g, store, keys[..|keys| - 1]);
    }
  }

  /**
   * `Math.sqrt(dx*dx + dy*dy) < e.radius`, stated without the square root: the distance is never
   * negative, so no radius at or below zero is ever hit.
   */
  predicate Hits(e: Entity, px: real, py: real)
  {
    var dx := e.x - px;
    var dy := e.y - py;
    0.0 < e.radius && dx * dx + dy * dy < e.radius * e.radius
  }

  /** Position of the first candidate the pointer is inside of, or -1. */
  function FirstHitIndex(cands: seq<EntityId>, store: Store, px: real, py: real): (i: int)
    requires forall id :: id in cands ==> id in store
    ensures -1 <= i < |cands|
    ensures 0 <= i ==> Hits(store[cands[i]], px, py)
    ensures forall j :: 0 <= j < |cands| && (i < 0 || j < i) ==> !Hits(store[cands[j]], px, py)
  {
    if cands == [] then -1
    else if Hits(store[cands[0]], px, py) then 0
    else
      var i := FirstHitIndex(cands[1..], store, px, py);
      if i < 0 then -1 else i + 1
  }

  /** The entity a scan of the given cells settles on, if any. */
  function FirstHit(g: Grid, store: Store, keys: seq<CellKey>, px: real, py: real): Option<EntityId>
    requires GridInStore(g, store)
  {
    var cands := Candidates(g, keys);
    CandidatesInStore(g, store, keys);
    var i := FirstHitIndex(cands, store, px, py);
    if i < 0 then None else Some(cands[i])
  }

  /**
   * What the scan settles on: an entity listed in one of the scanned buckets whose circle holds
   * the pointer, with no earlier candidate holding it; or nothing, when no candidate holds it.
   */
  lemma FirstHitSpec(g: Grid, store: Store, keys: seq<CellKey>, px: real, py: real)
    requires GridInStore(g, store)
    ensures var cands := Candidates(g, keys);
            match FirstHit(g, store, keys, px, py)
            case None => forall id :: id in cands ==> id in store && !Hits(store[id], px, py)
            case Some(id) =>
              exists i :: 0 <= i < |cands| && cands[i] == id && id in store && Hits(store[id], px, py)
                          && forall j :: 0 <= j < i ==> cands[j] in store && !Hits(store[cands[j]], px, py)
  {
    var cands := Candidates(g, keys);
    CandidatesInStore(g, store, keys);
    var i := FirstHitIndex(cands, store, px, py);
    if i < 0 {
      forall id | id in cands ensures id in store && !Hits(store[id], px, py) {
        var j :| 0 <= j < |cands| && cands[j] == id;
      }
    }
  }

  /** A scan of `a + b` stops in `a` when `a` holds a hit, and otherwise where a scan of `b` stops. */
  lemma FirstHitIndexConcat(a: seq<EntityId>, b: seq<EntityId>, store: Store, px: real, py: real)
    requires forall id :: id in a ==> id in store
    requires forall id :: id in b ==> id in store
    ensures var ia, ib := FirstHitIndex(a, store, px, py), FirstHitIndex(b, store, px, py);
            FirstHitIndex(a + b, store, px, py) == if ia >= 0 then ia else if ib >= 0 then |a| + ib else -1
  {
    var ab := a + b;
    var ia, ib, iab := FirstHitIndex(a, store, px, py), FirstHitIndex(b, store, px, py), FirstHitIndex(ab, store, px, py);
    assert forall j :: 0 <= j < |a| ==> ab[j] == a[j];
    assert forall j :: 0 <= j < |b| ==> ab[|a| + j] == b[j];
    if iab >= 0 && iab >= |a| {
      assert b[iab - |a|] == ab[iab];
    }
  }

  /** The inner `for (const e of [...arr])` loop: the first entry of one bucket whose circle holds the pointer. */
  method ScanBucket(bucket: seq<EntityId>, store: Store, px: real, py: real) returns (i: int)
    requires forall id :: id in bucket ==> id in store
    ensures i == FirstHitIndex(bucket, store, px, py)
  {
    i := 0;
    while i < |bucket|
      invariant 0 <= i <= |bucket|
      invariant forall j :: 0 <= j < i ==> !Hits(store[bucket[j]], px, py)
    {
      if Hits(store[bucket[i]], px, py) {
        return;
      }
      i := i + 1;
    }
    i := -1;
  }

  /** One more scanned bucket: either the scan stops in it, or nothing scanned so far is hit. */
  lemma ScanStep(g: Grid, store: Store, keys: seq<CellKey>, k: nat, px: real, py: real)
    requires GridInStore(g, store) && k < |keys|
    requires forall id :: id in Candidates(g, keys[..k]) ==> id in store
    requires FirstHitIndex(Candidates(g, keys[..k]), store, px, py) == -1
    ensures forall id :: id in Candidates(g, keys[..k + 1]) ==> id in store
    ensures var i := FirstHitIndex(Bucket(g, keys[k]), store, px, py);
            if i >= 0 then FirstHit(g, store, keys, px, py) == Some(Bucket(g, keys[k])[i])
            else FirstHitIndex(Candidates(g, keys[..k + 1]), store, px, py) == -1
  {
    var done := Candidates(g, keys[..k]);
    var arr := Bucket(g, keys[k]);
    var upto := Candidates(g, keys[..k + 1]);
    assert upto == done + arr by {
      CandidatesStep(g, keys, k);
    }
    CandidatesInStore(g, store, keys[..k + 1]);
    var i := FirstHitIndex(arr, store, px, py);
    assert FirstHitIndex(upto, store, px, py) == (if i >= 0 then |done| + i else -1) by {
      FirstHitIndexConcat(done, arr, store, px, py);
    }
    if i >= 0 {
      var rest := Candidates(g, keys[k + 1..]);
      var all := Candidates(g, keys);
      assert all == upto + rest by {
        CandidatesSplit(g, keys, k + 1);
      }
      CandidatesInStore(g, store, keys[k + 1..]);
      CandidatesInStore(g, store, keys);
      assert FirstHitIndex(all, store, px, py) == |done| + i by {
        FirstHitIndexConcat(upto, rest, store, px, py);
      }
      assert all[|done| + i] == arr[i];
    }
  }

  /**
   * The scan of `checkCutEntities` over `keysToCheck` (the five `ProbeKeys` cells): bucket after
   * bucket, each front to back, stopping at the first entity whose circle holds the pointer.
   */
  method FindHit(g: Grid, store: Store, keysToCheck: seq<CellKey>, px: real, py: real) returns (hit: Option<EntityId>)
    requires GridInStore(g, store)
    ensures hit == FirstHit(g, store, keysToCheck, px, py)
  {
    var k := 0;
    assert keysToCheck[..0] == [];
    while k < |keysToCheck|
      invariant 0 <= k <= |keysToCheck|
      invariant forall id :: id in Candidates(g, keysToCheck[..k]) ==> id in store
      invariant FirstHitIndex(Candidates(g, keysToCheck[..k]), store, px, py) == -1
    {
      ScanStep(g, store, keysToCheck, k, px, py);
      var arr := Bucket(g, keysToCheck[k]);
      var i := ScanBucket(arr, store, px, py);
      if i >= 0 {
        hit := Some(arr[i]);
        return;
      }
      k := k + 1;
    }
    assert keysToCheck[..k] == keysToCheck;
    hit := None;
  }
}
