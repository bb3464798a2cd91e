/**
 * The Ranked scene's score counters as a value, and the rules that move them: a slice of a good
 * entity (combo and points), a strike (a sliced hazard or a good entity that fell off screen),
 * the game over at three strikes, the per-frame combo clock, and the spawn-interval ramp.
 */
module Scoring {
  import opened Seqs

  /** Points for one good slice before the combo multiplier. */
  const BasePoints: int := 10
  /** Seconds a combo survives without a further good slice. */
  const ComboDuration: real := 2.0
  /** Strikes that end a run. */
  const MaxFails: int := 3

  /** The seven counters `GameOver` resets: points, fails, elapsed time, combo-active time, objects cut, combo, combo timer. */
  datatype Score = Score(points: int, fails: int, elapsed: real, comboActive: real,
                         objectsCut: int, combo: int, comboTimer: real)

  const Initial: Score := Score(0, 0, 0.0, 0.0, 0, 0, 0.0)

  /** The body `GameOver` submits: `{ points, time, combo_time, objects_cut }`. */
  datatype Payload = Payload(points: int, time: real, comboTime: real, objectsCut: int)

  function PayloadOf(s: Score): (p: Payload)
    ensures p.points == s.points && p.time == s.elapsed
    ensures p.comboTime == s.comboActive && p.objectsCut == s.objectsCut
    ensures Sane(s) ==> p.points >= 0 && 0.0 <= p.comboTime <= p.time
  {
    Payload(s.points, s.elapsed, s.comboActive, s.objectsCut)
  }

  /** The counter invariants every Ranked operation keeps. */
  predicate Sane(s: Score)
  {
    0 <= s.fails < MaxFails && s.points >= 0 && s.combo >= 0 && (s.combo > 0 ==> s.comboTimer > 0.0)
    && 0.0 <= s.comboActive <= s.elapsed
  }

  /** `1 + (comboCount - 1) * 0.5`: +50% per combo step. */
  function Multiplier(combo: int): real
  {
    1.0 + (combo - 1) as real * 0.5
  }

  /** `Math.floor(basePoints * multiplier)`: always a whole 10 + 5 per earlier combo step. */
  function PointsGained(combo: int): (p: int)
    ensures p == 10 + 5 * (combo - 1)
  {
    assert BasePoints as real * Multiplier(combo) == (10 + 5 * (combo - 1)) as real;
    (BasePoints as real * Multiplier(combo)).Floor
  }

  /** Slicing a good entity. */
  function CutGood(s: Score): (r: Score)
    ensures r.combo == s.combo + 1 && r.comboTimer == ComboDuration
    ensures r.points == s.points + 10 + 5 * s.combo
    ensures r.objectsCut == s.objectsCut + 1
    ensures r.fails == s.fails && r.elapsed == s.elapsed && r.comboActive == s.comboActive
    ensures Sane(s) ==> Sane(r)
  {
    var combo := s.combo + 1;
    s.(combo := combo, comboTimer := ComboDuration,
       points := s.points + PointsGained(combo), objectsCut := s.objectsCut + 1)
  }

  /**
   * A strike: a sliced hazard or an escaped good entity. It keeps every counter invariant except
   * the fail bound, which it breaks exactly on the third strike, for Settle to restore.
   */
  function Penalize(s: Score): (r: Score)
    ensures r.fails == s.fails + 1 && r.combo == 0
    ensures r.points == s.points && r.objectsCut == s.objectsCut && r.elapsed == s.elapsed
    ensures r.comboActive == s.comboActive && r.comboTimer == s.comboTimer
    ensures Sane(s) ==> 1 <= r.fails <= MaxFails && (Sane(r) <==> r.fails < MaxFails)
  {
    s.(fails := s.fails + 1, combo := 0)
  }

  /** `if (failsCount >= 3) GameOver()`: submit the run's payload, then reset every counter. */
  function Settle(s: Score): (r: (Score, seq<Payload>))
    ensures s.fails >= MaxFails ==> r.0 == Initial && r.1 == [PayloadOf(s)]
    ensures s.fails < MaxFails ==> r.0 == s && r.1 == []
    ensures r.0.fails < MaxFails && (|r.1| == 1 <==> s.fails >= MaxFails) && |r.1| <= 1
    ensures s.fails <= MaxFails ==> r.0.fails + MaxFails * |r.1| == s.fails
  {
    if s.fails >= MaxFails then (Initial, [PayloadOf(s)]) else (s, [])
  }

  /** The game-over check is idempotent: once it has run, running it again submits nothing and resets nothing. */
  lemma SettleIdempotent(s: Score)
    ensures Settle(Settle(s).0) == (Settle(s).0, [])
  {
  }

  /** A strike followed by the game-over check. */
  function Strike(s: Score): (r: (Score, seq<Payload>))
    ensures Sane(s) ==> Sane(r.0)
  {
    Settle(Penalize(s))
  }

  /** A strike adds one fail, or submits the run and starts over: fails plus three per payload grows by one. */
  lemma StrikeAccount(s: Score)
    requires Sane(s)
    ensures Strike(s).0.fails + 3 * |Strike(s).1| == s.fails + 1 && |Strike(s).1| <= 1
  {
  }

  /** `k` strikes in a row, with every payload submitted along the way. */
  function Strikes(s: Score, k: nat): (Score, seq<Payload>)
  {
    if k == 0 then (s, [])
    else
      var (s1, p1) := Strikes(s, k - 1);
      var (s2, p2) := Strike(s1);
      (s2, p1 + p2)
  }

  /**
   * Strikes are counted modulo three: after `k` strikes the fails counter reads
   * `(fails + k) % 3` and `(fails + k) / 3` runs have been submitted.
   */
  lemma {:induction false} StrikesCount(s: Score, k: nat)
    requires 0 <= s.fails < MaxFails
    ensures Strikes(s, k).0.fails == (s.fails + k) % 3
    ensures |Strikes(s, k).1| == (s.fails + k) / 3
  {
    if k > 0 {
      StrikesCount(s, k - 1);
      var (s1, p1) := Strikes(s, k - 1);
      var f := s.fails + k - 1;
      assert s1.fails == f % 3;
      if f % 3 < 2 {
        assert (f + 1) % 3 == f % 3 + 1 && (f + 1) / 3 == f / 3;
      } else {
        assert (f + 1) % 3 == 0 && (f + 1) / 3 == f / 3 + 1;
      }
    }
  }

  /** Three strikes from a fresh run end it: one payload carrying the run's totals, every counter back to zero. */
  lemma ThreeStrikesEndRun(s: Score)
    requires s.fails == 0
    ensures Strikes(s, 3).0 == Initial
    ensures Strikes(s, 3).1 == [Payload(s.points, s.elapsed, s.comboActive, s.objectsCut)]
  {
    assert Strikes(s, 1).0 == s.(fails := 1, combo := 0);
    assert Strikes(s, 2).0 == s.(fails := 2, combo := 0);
  }

  /** `k` good slices in a row. */
  function GoodStreak(s: Score, k: nat): Score
  {
    if k == 0 then s else CutGood(GoodStreak(s, k - 1))
  }

  /** A streak of `k` good slices from no combo earns 10 + 15 + 20 + ... : 10k + 5k(k-1)/2 points. */
  lemma {:induction false} GoodStreakPoints(s: Score, k: nat)
    requires s.combo == 0
    ensures GoodStreak(s, k).combo == k
    ensures GoodStreak(s, k).points == s.points + 10 * k + 5 * (k * (k - 1) / 2)
    ensures GoodStreak(s, k).objectsCut == s.objectsCut + k
    ensures GoodStreak(s, k).fails == s.fails
  {
    if k > 0 {
      GoodStreakPoints(s, k - 1);
      assert (k * (k - 1) / 2) == ((k - 1) * (k - 2) / 2) + (k - 1) by {
        assert k * (k - 1) == (k - 1) * (k - 2) + 2 * (k - 1);
      }
    }
  }

  /** The per-frame combo clock, then the elapsed-time accumulator. */
  function ComboTick(s: Score, dt: real): (r: Score)
    ensures r.elapsed == s.elapsed + dt
    ensures s.combo <= 0 ==> r == s.(elapsed := s.elapsed + dt)
    ensures s.combo > 0 && s.comboTimer - dt > 0.0 ==>
              r == s.(comboTimer := s.comboTimer - dt, comboActive := s.comboActive + dt, elapsed := s.elapsed + dt)
    ensures s.combo > 0 && s.comboTimer - dt <= 0.0 ==>
              r == s.(comboTimer := s.comboTimer - dt, combo := 0, elapsed := s.elapsed + dt)
    ensures r.points == s.points && r.fails == s.fails && r.objectsCut == s.objectsCut
    ensures r.combo == s.combo || r.combo == 0
    ensures r.combo > 0 <==> s.combo > 0 && s.comboTimer > dt
    ensures r.combo > 0 ==> r.comboActive == s.comboActive + dt && r.comboTimer == s.comboTimer - dt
    ensures r.combo <= 0 ==> r.comboActive == s.comboActive
  {
    var s1 :=
      if s.combo > 0 then
        var t := s.comboTimer - dt;
        if t > 0.0 then s.(comboTimer := t, comboActive := s.comboActive + dt)
        else s.(comboTimer := t, combo := 0)
      else s;
    s1.(elapsed := s1.elapsed + dt)
  }

  /** A frame never breaks the counter invariants, and combo time never outruns play time. */
  lemma ComboTickSane(s: Score, dt: real)
    requires Sane(s) && dt >= 0.0
    ensures Sane(ComboTick(s, dt))
    ensures ComboTick(s, dt).comboActive - s.comboActive <= dt
  {
  }

  /** Frames without any slice or strike. */
  function Ticks(s: Score, dts: seq<real>): Score
    decreases |dts|
  {
    if dts == [] then s else Ticks(ComboTick(s, dts[0]), dts[1..])
  }

  /** A combo dies once frames adding up to its remaining timer have passed without a good slice. */
  lemma {:induction false} ComboExpires(s: Score, dts: seq<real>)
    requires s.combo >= 0 && (s.combo > 0 ==> s.comboTimer > 0.0)
    requires Sum(dts) >= s.comboTimer
    ensures Ticks(s, dts).combo == 0
    decreases |dts|
  {
    if s.combo > 0 {
      var s1 := ComboTick(s, dts[0]);
      if s1.combo > 0 {
        ComboExpires(s1, dts[1..]);
      } else {
        ComboStaysDead(s1, dts[1..]);
      }
    } else {
      ComboStaysDead(s, dts);
    }
  }

  /** Without slices a dead combo stays dead. */
  lemma {:induction false} ComboStaysDead(s: Score, dts: seq<real>)
    requires s.combo == 0
    ensures Ticks(s, dts).combo == 0
    decreases |dts|
  {
    if dts != [] {
      ComboStaysDead(ComboTick(s, dts[0]), dts[1..]);
    }
  }

  /** `Phaser.Math.Clamp(v, lo, hi)`. */
  function Clamp(v: real, lo: real, hi: real): real
  {
    if v < lo then lo else if v > hi then hi else v
  }

  /** The spawn interval ramp: 3 s, 0.2 s shorter every 10 s of play, never below 1.2 s. */
  function BaseSpawnInterval(elapsed: real): (r: real)
    ensures 1.2 <= r <= 3.0
  {
    var steps := (elapsed / 10.0).Floor;
    Clamp(3.0 - steps as real * 0.2, 1.2, 3.0)
  }

  /** Playing longer never makes spawns slower. */
  lemma SpawnIntervalNonIncreasing(e1: real, e2: real)
    requires e1 <= e2
    ensures BaseSpawnInterval(e2) <= BaseSpawnInterval(e1)
  {
    assert (e1 / 10.0).Floor <= (e2 / 10.0).Floor by {
      assert e1 / 10.0 <= e2 / 10.0;
    }
  }

  /** The ramp's two ends: 3 s in the first ten seconds, 1.2 s from 90 s on. */
  lemma SpawnIntervalEnds(e: real)
    ensures 0.0 <= e < 10.0 ==> BaseSpawnInterval(e) == 3.0
    ensures e >= 90.0 ==> BaseSpawnInterval(e) == 1.2
  {
    if e >= 90.0 {
      assert (e / 10.0).Floor >= 9 by {
        assert e / 10.0 >= 9.0;
      }
    }
  }

  /** Under slow motion the interval is stretched by `1 / slowmoFactor`. */
  function SpawnInterval(elapsed: real, slowmo: bool, factor: real): real
    requires slowmo ==> factor > 0.0
  {
    BaseSpawnInterval(elapsed) * (if slowmo then 1.0 / factor else 1.0)
  }

  /** Without slow motion the interval is the ramp; with it, the ramp divided by the factor. */
  lemma SpawnIntervalSpec(elapsed: real, slowmo: bool, factor: real)
    requires slowmo ==> factor > 0.0
    ensures !slowmo ==> SpawnInterval(elapsed, slowmo, factor) == BaseSpawnInterval(elapsed)
    ensures slowmo ==> SpawnInterval(elapsed, slowmo, factor) * factor == BaseSpawnInterval(elapsed)
  {
  }

  /** At the slow-motion factor 0.3 the interval lies between 4 s and 10 s. */
  lemma SlowmoSpawnInterval(elapsed: real)
    ensures 4.0 <= SpawnInterval(elapsed, true, 0.3) <= 10.0
  {
    var b := BaseSpawnInterval(elapsed);
    SpawnIntervalSpec(elapsed, true, 0.3);
    assert SpawnInterval(elapsed, true, 0.3) * 0.3 == b;
  }

  /** One step of the kunai storm for a good entity: a point, a combo step, and a bonus on the running total. */
  function StormStep(s: Score): (r: Score)
    ensures r.combo == s.combo + 1 && r.comboTimer == ComboDuration
    ensures r.objectsCut == s.objectsCut && r.fails == s.fails
    ensures s.points >= 0 && s.combo >= 0 ==> r.points >= s.points + 1
  {
    var p := s.points + 1;
    var combo := s.combo + 1;
    s.(points := p + (p as real * (Multiplier(combo) - 1.0)).Floor, combo := combo, comboTimer := ComboDuration)
  }

  /**
   * The point and the bonus together scale the whole running total (plus one) by the new
   * combo's multiplier, where a normal slice scales only its ten base points.
   */
  lemma StormStepScales(s: Score)
    ensures StormStep(s).points == ((s.points + 1) as real * Multiplier(s.combo + 1)).Floor
  {
    var p := s.points + 1;
    var m := Multiplier(s.combo + 1);
    FloorShift(p, p as real * (m - 1.0));
    assert p as real + p as real * (m - 1.0) == p as real * m;
  }

  /** Adding a whole number commutes with `Math.floor`. */
  lemma FloorShift(n: int, x: real)
    ensures (n as real + x).Floor == n + x.Floor
  {
  }

  /** The storm over `k` good entities. */
  function StormSteps(s: Score, k: nat): Score
  {
    if k == 0 then s else StormStep(StormSteps(s, k - 1))
  }

  /**
   * The compounding at work: from 100 points and no combo, a storm over five good entities ends
   * at 2319 points, where five normal slices would end at 200.
   */
  lemma StormFiveFrom100(s: Score)
    requires s.points == 100 && s.combo == 0
    ensures StormSteps(s, 5).points == 2319
    ensures GoodStreak(s, 5).points == 200
  {
    assert StormSteps(s, 1).points == 101;
    assert StormSteps(s, 2).points == 153;
    assert StormSteps(s, 3).points == 308;
    assert StormSteps(s, 4).points == 772;
    GoodStreakPoints(s, 5);
  }

  /**
   * A storm over `k` good entities adds `k` to the combo and at least `k` points, but leaves
   * the objects-cut counter and the fails untouched.
   */
  lemma {:induction false} StormStepsEffect(s: Score, k: nat)
    requires s.points >= 0 && s.combo >= 0
    ensures StormSteps(s, k).combo == s.combo + k
    ensures StormSteps(s, k).points >= s.points + k
    ensures StormSteps(s, k).objectsCut == s.objectsCut && StormSteps(s, k).fails == s.fails
    ensures StormSteps(s, k).elapsed == s.elapsed && StormSteps(s, k).comboActive == s.comboActive
    ensures k > 0 ==> StormSteps(s, k).comboTimer == ComboDuration
    ensures Sane(s) ==> Sane(StormSteps(s, k))
  {
    if k > 0 {
      StormStepsEffect(s, k - 1);
    }
  }
}
