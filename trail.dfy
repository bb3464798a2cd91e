/**
 * The pointer trail both scenes draw: every pointer move appends the sample, and once the
 * buffer is longer than its capacity the oldest sample is shifted out (15 in Ranked, 10 in Game).
 */
module Trail {

  datatype Point = Point(x: real, y: real)

  const RankedCapacity: nat := 15
  const CasualCapacity: nat := 10

  /** `trailLine.push(p); if (trailLine.length > cap) trailLine.shift();` as a value. */
  function Push(t: seq<Point>, p: Point, cap: nat): (r: seq<Point>)
    ensures |t| < cap ==> r == t + [p]
    ensures 1 <= cap && |t| <= cap ==> 1 <= |r| <= cap && r[|r| - 1] == p
    ensures 1 <= cap <= |t| ==> |r| == |t| && r[..|r| - 1] == t[1..] && r[|r| - 1] == p
  {
    var s := t + [p];
    if |s| > cap then s[1..] else s
  }

  /** The trail after a run of pointer moves starting from `t`, oldest sample first. */
  function PushAll(t: seq<Point>, ps: seq<Point>, cap: nat): seq<Point>
  {
    if ps == [] then t else Push(PushAll(t, ps[..|ps| - 1], cap), ps[|ps| - 1], cap)
  }

  /**
   * After a pointer-up clears the trail, any run of `n` moves leaves exactly the last
   * `min(n, cap)` samples, in the order they arrived.
   */
  lemma {:induction false} PushAllWindow(ps: seq<Point>, cap: nat)
    requires cap >= 1
    ensures var keep := if |ps| < cap then |ps| else cap;
            PushAll([], ps, cap) == ps[|ps| - keep..]
  {
    if ps != [] {
      var n := |ps|;
      var init, last := ps[..n - 1], ps[n - 1];
      assert ps == init + [last];
      PushAllWindow(init, cap);
      if n - 1 < cap {
        assert PushAll([], init, cap) == init;
      } else {
        var prev := init[n - 1 - cap..];
        assert PushAll([], init, cap) == prev;
        assert |prev + [last]| == cap + 1;
        assert (prev + [last])[1..] == ps[n - cap..];
      }
    }
  }
}
