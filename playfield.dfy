/**
 * What both game scenes share: the frame data the engine hands to `update`, the off-screen
 * test that expires an entity, `getResponsiveScale`, and the icon pools new entities are drawn from.
 */
module Playfield {
  import opened SpatialGrid
  import opened AssetKeys
  import opened Preloader

  /** Off-screen margin beyond which an entity expires. */
  const Margin: real := 50.0

  /** What a frame takes from the engine: `dt = delta / 1000`, the canvas size, and `Math.sin`. */
  datatype Env = Env(dt: real, width: real, height: real, sin: real -> real)

  const Gravity: real := 800.0
  /** The chance that a new entity is good rather than a hazard. */
  const GoodChance: real := 0.8

  /** Below the bottom edge or beyond a side edge by more than the margin. */
  predicate OutOfBounds(e: Entity, width: real, height: real)
  {
    e.y > height + Margin || e.x < -Margin || e.x > width + Margin
  }

  /** `getResponsiveScale(width)`: small screens below 600 pixels, large ones from 1200. */
  function ResponsiveScale(width: real): (f: real)
    ensures f == 0.8 || f == 1.2 || f == 1.6
    ensures f > 0.0
    ensures f == 0.8 <==> width < 600.0
    ensures f == 1.6 <==> width >= 1200.0
  {
    if width < 600.0 then 0.8 else if width < 1200.0 then 1.2 else 1.6
  }

  /** A wider canvas never gets a smaller scale factor. */
  lemma ResponsiveScaleGrows(w1: real, w2: real)
    requires w1 <= w2
    ensures ResponsiveScale(w1) <= ResponsiveScale(w2)
  {
  }

  /** The icons a new entity is drawn from: subreddit then meme icons for a good one, hazard icons for a hazard. */
  function IconPool(data: RegistryData, kind: Kind): seq<string>
  {
    if kind.Good? then KeyListAt(data, IconsRegistryKey("subreddits")) + KeyListAt(data, IconsRegistryKey("memes"))
    else KeyListAt(data, IconsRegistryKey("hazards"))
  }

  /** `arr[Between(0, arr.length - 1)]`, the pick given as a draw reduced to the pool size. */
  function PickIcon(pool: seq<string>, pick: nat): string
    requires |pool| > 0
  {
    pool[pick % |pool|]
  }
}
