/**
 * The leaderboard server: `submitScore`, which writes each numeric metric of a finished run into
 * that metric's daily sorted set and records the player's name, and the `/api/leaderboard/top`
 * handler, which picks the day's challenge, ranks the fetched entries and finds the caller's
 * rank. Redis is a value of sorted sets and one hash; the date, the day of the week, the
 * current user and the outcome of each store call are parameters.
 */
module Leaderboard {
  import opened Seqs

  // ---------------------------------------------------------------- metrics and keys

  datatype Metric = Points | Time | ComboTime | ObjectsCut

  /** The leaderboard type a metric is stored under. */
  function TypeName(m: Metric): string
  {
    match m
    case Points => "points"
    case Time => "time"
    case ComboTime => "combo_time"
    case ObjectsCut => "objects_cut"
  }

  /** `Object.entries(metrics)` visits the fields in the order the literal lists them. */
  const MetricOrder: seq<Metric> := [Points, Time, ComboTime, ObjectsCut]

  /** A request field after `Number(...)`: not a number, or a number. */
  datatype Num = NaN | Num(v: real)

  /** The four converted request fields. */
  datatype Submission = Submission(points: Num, time: Num, comboTime: Num, objectsCut: Num)

  function Field(s: Submission, m: Metric): Num
  {
    match m
    case Points => s.points
    case Time => s.time
    case ComboTime => s.comboTime
    case ObjectsCut => s.objectsCut
  }

  /** How many of the four fields are numbers. */
  function Written(s: Submission): nat
  {
    (if s.points.Num? then 1 else 0) + (if s.time.Num? then 1 else 0)
    + (if s.comboTime.Num? then 1 else 0) + (if s.objectsCut.Num? then 1 else 0)
  }

  /** `new Date().toISOString().slice(0, 10)`: the `YYYY-MM-DD` part of the timestamp. */
  function DatePart(iso: string): (d: string)
    ensures |d| <= 10 && |d| <= |iso| && d == iso[..|d|]
    ensures |iso| >= 10 ==> |d| == 10
  {
    if |iso| <= 10 then iso else iso[..10]
  }

  /** `getLeaderboardKey(type)`: `leaderboard:<type>:<YYYY-MM-DD>`. */
  function LeaderboardKey(t: string, iso: string): string
  {
    "leaderboard:" + t + ":" + DatePart(iso)
  }

  /** The key of one metric's board on the day of `iso`. */
  function BoardKey(m: Metric, iso: string): string
  {
    LeaderboardKey(TypeName(m), iso)
  }

  /**
   * Each metric has a board of its own each day: two board keys are equal exactly when they
   * name the same metric and the same date.
   */
  lemma BoardKeyInjective(m1: Metric, iso1: string, m2: Metric, iso2: string)
    ensures BoardKey(m1, iso1) == BoardKey(m2, iso2) <==> m1 == m2 && DatePart(iso1) == DatePart(iso2)
  {
    var k1, k2 := BoardKey(m1, iso1), BoardKey(m2, iso2);
    var n1, n2 := TypeName(m1), TypeName(m2);
    if k1 == k2 {
      assert k1[12] == n1[0] && k2[12] == n2[0];
      assert m1 == m2;
      var p := 12 + |n1| + 1;
      assert k1[p..] == DatePart(iso1) && k2[p..] == DatePart(iso2);
    }
  }

  // ---------------------------------------------------------------- the store

  /** The Redis data the server touches: one sorted set per leaderboard key, and the `game:usernames` hash. */
  datatype Db = Db(zsets: map<string, map<string, real>>, usernames: map<string, string>)

  /** `zScore(key, member)`. */
  function ZScore(db: Db, key: string, member: string): Option<real>
  {
    if key in db.zsets && member in db.zsets[key] then Some(db.zsets[key][member]) else None
  }

  /** A store call `submitScore` makes. */
  datatype Write = ZAdd(key: string, member: string, score: real) | HSet(field: string, value: string)

  /** `zAdd` sets the member's score, creating the set if needed; `hSet` sets one field of `game:usernames`. */
  function Apply(db: Db, w: Write): (r: Db)
    ensures w.ZAdd? ==> r.usernames == db.usernames && ZScore(r, w.key, w.member) == Some(w.score)
                        && forall k, u :: k != w.key || u != w.member ==> ZScore(r, k, u) == ZScore(db, k, u)
    ensures w.HSet? ==> r.usernames == db.usernames[w.field := w.value] && r.zsets == db.zsets
  {
    match w
    case ZAdd(k, m, score) =>
      db.(zsets := db.zsets[k := (if k in db.zsets then db.zsets[k] else map[])[m := score]])
    case HSet(f, v) => db.(usernames := db.usernames[f := v])
  }

  /** The store after the calls `ws`, first one first. */
  function ApplyAll(db: Db, ws: seq<Write>): Db
  {
    if ws == [] then db else Apply(ApplyAll(db, ws[..|ws| - 1]), ws[|ws| - 1])
  }

  lemma ApplyAllSnoc(db: Db, a: seq<Write>, w: Write)
    ensures ApplyAll(db, a + [w]) == Apply(ApplyAll(db, a), w)
  {
    assert (a + [w])[..|a|] == a;
  }

  lemma {:induction false} ApplyAllConcat(db: Db, a: seq<Write>, b: seq<Write>)
    ensures ApplyAll(db, a + b) == ApplyAll(ApplyAll(db, a), b)
  {
    if b == [] {
      assert a + b == a;
    } else {
      var n := |b|;
      assert (a + b)[..|a + b| - 1] == a + b[..n - 1] && (a + b)[|a + b| - 1] == b[n - 1];
      ApplyAllConcat(db, a, b[..n - 1]);
    }
  }

  /** The loop body for metric `m`: `if (!isNaN(score)) zAdd(...)`. */
  function MetricWrite(userId: string, s: Submission, iso: string, m: Metric): seq<Write>
  {
    match Field(s, m)
    case NaN => []
    case Num(v) => [ZAdd(BoardKey(m, iso), userId, v)]
  }

  /** The `zAdd` calls of the loop over `ms`: one per field that is a number. */
  function MetricWrites(userId: string, s: Submission, iso: string, ms: seq<Metric>): seq<Write>
  {
    if ms == [] then []
    else MetricWrites(userId, s, iso, ms[..|ms| - 1]) + MetricWrite(userId, s, iso, ms[|ms| - 1])
  }

  /** The user's score on `m`'s board once the loop body for `m` has run against `db`. */
  function Expected(db: Db, userId: string, s: Submission, iso: string, m: Metric): Option<real>
  {
    match Field(s, m)
    case NaN => ZScore(db, BoardKey(m, iso), userId)
    case Num(v) => Some(v)
  }

  /** One more iteration of the loop adds the writes of one more metric. */
  lemma MetricWritesStep(userId: string, s: Submission, iso: string, ms: seq<Metric>, i: nat)
    requires i < |ms|
    ensures MetricWrites(userId, s, iso, ms[..i + 1]) == MetricWrites(userId, s, iso, ms[..i]) + MetricWrite(userId, s, iso, ms[i])
  {
    assert ms[..i + 1][..i] == ms[..i] && ms[..i + 1][i] == ms[i];
  }

  /**
   * Applying the loop body for metric `m` sets the user's score on `m`'s board when the field
   * is a number, and changes nothing else.
   */
  lemma OneMetricEffect(db: Db, userId: string, s: Submission, iso: string, m: Metric)
    ensures var r := ApplyAll(db, MetricWrite(userId, s, iso, m));
            r.usernames == db.usernames
            && ZScore(r, BoardKey(m, iso), userId) == Expected(db, userId, s, iso, m)
            && forall k, u :: k != BoardKey(m, iso) || u != userId ==> ZScore(r, k, u) == ZScore(db, k, u)
  {
    var w := MetricWrite(userId, s, iso, m);
    if w != [] {
      ApplyAllSnoc(db, [], w[0]);
      assert [] + [w[0]] == w;
    }
  }

  /** Every call of `submitScore` in order: the metric writes, then the name mapping. */
  function SubmitWrites(userId: string, username: string, s: Submission, iso: string): seq<Write>
  {
    MetricWrites(userId, s, iso, MetricOrder) + [HSet(userId, username)]
  }

  /** The writes of a prefix of the metrics come first. */
  lemma {:induction false} MetricWritesSplit(userId: string, s: Submission, iso: string, ms: seq<Metric>, i: nat)
    requires i <= |ms|
    ensures MetricWrites(userId, s, iso, ms) == MetricWrites(userId, s, iso, ms[..i]) + MetricWrites(userId, s, iso, ms[i..])
    decreases |ms|
  {
    if i < |ms| {
      var n := |ms|;
      var init := ms[..n - 1];
      MetricWritesSplit(userId, s, iso, init, i);
      assert init[..i] == ms[..i];
      var rest := ms[i..];
      assert rest[..|rest| - 1] == init[i..] && rest[|rest| - 1] == ms[n - 1];
    } else {
      assert ms[..i] == ms;
    }
  }

  /** Every prefix of the writes is the writes of some prefix of the metrics. */
  lemma {:induction false} MetricWritesPrefix(userId: string, s: Submission, iso: string, ms: seq<Metric>, p: nat)
    requires p <= |MetricWrites(userId, s, iso, ms)|
    ensures exists j :: 0 <= j <= |ms| && MetricWrites(userId, s, iso, ms)[..p] == MetricWrites(userId, s, iso, ms[..j])
  {
    var ws := MetricWrites(userId, s, iso, ms);
    if p == |ws| {
      assert ms[..|ms|] == ms && ws[..p] == ws;
    } else {
      var init := ms[..|ms| - 1];
      var wi := MetricWrites(userId, s, iso, init);
      assert p <= |wi| && ws[..p] == wi[..p] by {
        assert ws == wi + MetricWrite(userId, s, iso, ms[|ms| - 1]);
      }
      MetricWritesPrefix(userId, s, iso, init, p);
      var j :| 0 <= j <= |init| && wi[..p] == MetricWrites(userId, s, iso, init[..j]);
      assert init[..j] == ms[..j];
    }
  }

  /** One write per field that is a number. */
  lemma WrittenCount(userId: string, s: Submission, iso: string)
    ensures |MetricWrites(userId, s, iso, MetricOrder)| == Written(s)
  {
    var ms := MetricOrder;
    assert ms[..0] == [];
    for i := 0 to 4
      invariant |MetricWrites(userId, s, iso, ms[..i])|
                == (if i > 0 && s.points.Num? then 1 else 0) + (if i > 1 && s.time.Num? then 1 else 0)
                   + (if i > 2 && s.comboTime.Num? then 1 else 0) + (if i > 3 && s.objectsCut.Num? then 1 else 0)
    {
      MetricWritesStep(userId, s, iso, ms, i);
    }
    assert ms[..4] == ms;
  }

  /** The boards of the metrics `ms` on the day of `iso`. */
  function Boards(ms: seq<Metric>, iso: string): set<string>
  {
    set m | m in ms :: BoardKey(m, iso)
  }

  lemma BoardsSnoc(ms: seq<Metric>, iso: string)
    requires ms != []
    ensures Boards(ms, iso) == Boards(ms[..|ms| - 1], iso) + {BoardKey(ms[|ms| - 1], iso)}
  {
    assert ms == ms[..|ms| - 1] + [ms[|ms| - 1]];
  }

  /** A metric outside `ms` has a board outside `Boards(ms, iso)`. */
  lemma BoardsOutside(m: Metric, ms: seq<Metric>, iso: string)
    ensures BoardKey(m, iso) in Boards(ms, iso) <==> m in ms
  {
    if BoardKey(m, iso) in Boards(ms, iso) {
      var m' :| m' in ms && BoardKey(m', iso) == BoardKey(m, iso);
      BoardKeyInjective(m', iso, m, iso);
    }
  }

  /**
   * The metric writes touch only the user's scores on the boards of `ms`: the names, other
   * users and other boards keep their values.
   */
  lemma {:induction false} MetricWritesFrame(db: Db, userId: string, s: Submission, iso: string, ms: seq<Metric>)
    ensures ApplyAll(db, MetricWrites(userId, s, iso, ms)).usernames == db.usernames
    ensures forall k, u :: u != userId || k !in Boards(ms, iso) ==>
              ZScore(ApplyAll(db, MetricWrites(userId, s, iso, ms)), k, u) == ZScore(db, k, u)
  {
    if ms != [] {
      var init, last := ms[..|ms| - 1], ms[|ms| - 1];
      MetricWritesFrame(db, userId, s, iso, init);
      ApplyAllConcat(db, MetricWrites(userId, s, iso, init), MetricWrite(userId, s, iso, last));
      OneMetricEffect(ApplyAll(db, MetricWrites(userId, s, iso, init)), userId, s, iso, last);
      BoardsSnoc(ms, iso);
    }
  }

  /**
   * After the metric writes of distinct metrics `ms`, the user's score on the board of each of
   * them is the submitted number, or the old score when the field is NaN.
   */
  lemma {:induction false} MetricWritesScores(db: Db, userId: string, s: Submission, iso: string, ms: seq<Metric>)
    requires Distinct(ms)
    ensures forall m :: m in ms ==>
              ZScore(ApplyAll(db, MetricWrites(userId, s, iso, ms)), BoardKey(m, iso), userId)
              == Expected(db, userId, s, iso, m)
  {
    if ms != [] {
      var init, last := ms[..|ms| - 1], ms[|ms| - 1];
      var r1 := ApplyAll(db, MetricWrites(userId, s, iso, init));
      var r := ApplyAll(db, MetricWrites(userId, s, iso, ms));
      assert r == ApplyAll(r1, MetricWrite(userId, s, iso, last)) by {
        ApplyAllConcat(db, MetricWrites(userId, s, iso, init), MetricWrite(userId, s, iso, last));
      }
      assert Distinct(init) && last !in init;
      MetricWritesScores(db, userId, s, iso, init);
      OneMetricEffect(r1, userId, s, iso, last);
      forall m | m in ms
        ensures ZScore(r, BoardKey(m, iso), userId) == Expected(db, userId, s, iso, m)
      {
        if m == last {
          assert Expected(r1, userId, s, iso, last) == Expected(db, userId, s, iso, last) by {
            MetricWritesFrame(db, userId, s, iso, init);
            BoardsOutside(last, init, iso);
          }
        } else {
          assert m in init;
          BoardKeyInjective(m, iso, last, iso);
        }
      }
    }
  }

  /** The metric order lists each metric once. */
  lemma MetricOrderDistinct()
    ensures Distinct(MetricOrder) && forall m: Metric :: m in MetricOrder
  {
    forall m: Metric ensures m in MetricOrder {
      match m
      case Points => assert MetricOrder[0] == m;
      case Time => assert MetricOrder[1] == m;
      case ComboTime => assert MetricOrder[2] == m;
      case ObjectsCut => assert MetricOrder[3] == m;
    }
  }

  // ---------------------------------------------------------------- submitScore

  /** A JavaScript string used as a condition: present and not empty. */
  predicate Present(x: Option<string>)
  {
    x.Some? && x.value != ""
  }

  datatype SubmitResponse =
    | NotLoggedIn          // 401
    | Saved(saved: Submission)
    | SaveFailed           // 500

  datatype Outcome = Outcome(db: Db, response: SubmitResponse)

  /**
   * `submitScore`: refuse a caller without a name or id; otherwise make the writes in order.
   * The store call at position `failAt` throws (none does when `failAt` is past the last one):
   * the writes before it stay, and the answer is a 500.
   */
  function Submit(db: Db, username: Option<string>, userId: Option<string>, s: Submission, iso: string,
                  failAt: nat): Outcome
  {
    if !Present(username) || !Present(userId) then Outcome(db, NotLoggedIn)
    else
      var ws := SubmitWrites(userId.value, username.value, s, iso);
      if failAt < |ws| then Outcome(ApplyAll(db, ws[..failAt]), SaveFailed)
      else Outcome(ApplyAll(db, ws), Saved(s))
  }

  /** A caller without a name or id, and only such a caller, gets a 401, and nothing is written. */
  lemma SubmitRefused(db: Db, username: Option<string>, userId: Option<string>, s: Submission, iso: string, failAt: nat)
    ensures var r := Submit(db, username, userId, s, iso, failAt);
            (!Present(username) || !Present(userId) <==> r.response == NotLoggedIn)
            && (r.response == NotLoggedIn ==> r.db == db)
  {
  }

  /**
   * A logged-in run is saved exactly when all `Written(s) + 1` store calls succeed. Then the
   * answer echoes the four fields, each numeric field is the user's score on that metric's
   * board of the day, a NaN field leaves its board alone, the user's name is recorded, and no
   * other user's score changes.
   */
  lemma SubmitSaved(db: Db, username: Option<string>, userId: Option<string>, s: Submission, iso: string, failAt: nat)
    requires Present(username) && Present(userId)
    ensures var r := Submit(db, username, userId, s, iso, failAt);
            var uid := userId.value;
            (r.response.Saved? <==> failAt > Written(s))
            && (r.response.Saved? ==>
                  r.response.saved == s && r.db.usernames == db.usernames[uid := username.value]
                  && (forall m: Metric :: ZScore(r.db, BoardKey(m, iso), uid) == Expected(db, uid, s, iso, m))
                  && forall k, u :: u != uid ==> ZScore(r.db, k, u) == ZScore(db, k, u))
  {
    var uid, name := userId.value, username.value;
    var mw := MetricWrites(uid, s, iso, MetricOrder);
    WrittenCount(uid, s, iso);
    if failAt > Written(s) {
      MetricOrderDistinct();
      MetricWritesFrame(db, uid, s, iso, MetricOrder);
      MetricWritesScores(db, uid, s, iso, MetricOrder);
      ApplyAllSnoc(db, mw, HSet(uid, name));
    }
  }

  /**
   * A logged-in run whose store call `failAt` throws answers 500, never records the name,
   * changes no other user's score, and leaves each of the user's boards of the day either
   * untouched or holding the submitted number.
   */
  lemma SubmitFailed(db: Db, username: Option<string>, userId: Option<string>, s: Submission, iso: string, failAt: nat)
    requires Present(username) && Present(userId) && failAt <= Written(s)
    ensures var r := Submit(db, username, userId, s, iso, failAt);
            var uid := userId.value;
            r.response == SaveFailed && r.db.usernames == db.usernames
            && (forall k, u :: u != uid ==> ZScore(r.db, k, u) == ZScore(db, k, u))
            && forall m: Metric ::
                 ZScore(r.db, BoardKey(m, iso), uid) == ZScore(db, BoardKey(m, iso), uid)
                 || ZScore(r.db, BoardKey(m, iso), uid) == Expected(db, uid, s, iso, m)
  {
    var uid, name := userId.value, username.value;
    var mw := MetricWrites(uid, s, iso, MetricOrder);
    var ws := SubmitWrites(uid, name, s, iso);
    assert |mw| == Written(s) by {
      WrittenCount(uid, s, iso);
    }
    var j :| 0 <= j <= |MetricOrder| && mw[..failAt] == MetricWrites(uid, s, iso, MetricOrder[..j]) by {
      MetricWritesPrefix(uid, s, iso, MetricOrder, failAt);
    }
    var done := MetricOrder[..j];
    var r := Submit(db, username, userId, s, iso, failAt);
    assert r.db == ApplyAll(db, MetricWrites(uid, s, iso, done)) by {
      assert ws[..failAt] == mw[..failAt];
    }
    assert Distinct(done) by {
      MetricOrderDistinct();
    }
    MetricWritesFrame(db, uid, s, iso, done);
    MetricWritesScores(db, uid, s, iso, done);
    forall m: Metric
      ensures ZScore(r.db, BoardKey(m, iso), uid) == ZScore(db, BoardKey(m, iso), uid)
              || ZScore(r.db, BoardKey(m, iso), uid) == Expected(db, uid, s, iso, m)
    {
      if m !in done {
        BoardsOutside(m, done, iso);
      }
    }
  }

  /** The Redis client, with the two calls `submitScore` makes. */
  class Redis {
    var zsets: map<string, map<string, real>>
    var usernames: map<string, string>

    function State(): Db
      reads this
    {
      Db(zsets, usernames)
    }

    constructor ()
      ensures State() == Db(map[], map[])
    {
      zsets, usernames := map[], map[];
    }

    /** `zAdd(key, { member, score })`. */
    method ZAdd(key: string, member: string, score: real)
      modifies this
      ensures State() == Apply(old(State()), Write.ZAdd(key, member, score))
    {
      var board := if key in zsets then zsets[key] else map[];
      zsets := zsets[key := board[member := score]];
    }

    /** `hSet('game:usernames', { [field]: value })`. */
    method HSet(field: string, value: string)
      modifies this
      ensures State() == Apply(old(State()), Write.HSet(field, value))
    {
      usernames := usernames[field := value];
    }
  }

  /**
   * `submitScore`: the loop over the four metrics writes each one that is a number into its
   * board, then the name mapping is set; the store call at position `failAt` throws instead.
   */
  method SubmitScore(redis: Redis, username: Option<string>, userId: Option<string>, s: Submission, iso: string,
                     failAt: nat) returns (response: SubmitResponse)
    modifies redis
    ensures redis.State() == Submit(old(redis.State()), username, userId, s, iso, failAt).db
    ensures response == Submit(old(redis.State()), username, userId, s, iso, failAt).response
  {
    if !Present(username) || !Present(userId) {
      return NotLoggedIn;
    }
    var uid, name := userId.value, username.value;
    ghost var db0 := redis.State();
    var calls := 0;
    assert MetricOrder[..0] == [];
    for i := 0 to |MetricOrder|
      invariant calls == |MetricWrites(uid, s, iso, MetricOrder[..i])| && calls <= failAt
      invariant redis.State() == ApplyAll(db0, MetricWrites(uid, s, iso, MetricOrder[..i]))
    {
      var m := MetricOrder[i];
      SubmitLoopStep(db0, uid, s, iso, i);
      var score := Field(s, m);
      if score.Num? {
        if calls == failAt {
          SubmitStopsAt(db0, username, userId, s, iso, i, failAt);
          return SaveFailed;
        }
        redis.ZAdd(BoardKey(m, iso), uid, score.v);
        calls := calls + 1;
      }
    }
    assert MetricOrder[..|MetricOrder|] == MetricOrder;
    SubmitTail(db0, username, userId, s, iso, failAt);
    if calls == failAt {
      return SaveFailed;
    }
    redis.HSet(uid, name);
    return Saved(s);
  }

  /** A store call that throws inside the metric loop ends the run with the writes made so far. */
  lemma SubmitStopsAt(db: Db, username: Option<string>, userId: Option<string>, s: Submission, iso: string,
                      i: nat, failAt: nat)
    requires Present(username) && Present(userId)
    requires i < |MetricOrder| && Field(s, MetricOrder[i]).Num?
    requires failAt == |MetricWrites(userId.value, s, iso, MetricOrder[..i])|
    ensures Submit(db, username, userId, s, iso, failAt)
            == Outcome(ApplyAll(db, MetricWrites(userId.value, s, iso, MetricOrder[..i])), SaveFailed)
  {
    SubmitFailsAt(userId.value, username.value, s, iso, i);
  }

  /** After the metric loop only the name mapping is left: it throws, or the run is saved. */
  lemma SubmitTail(db: Db, username: Option<string>, userId: Option<string>, s: Submission, iso: string,
                   failAt: nat)
    requires Present(username) && Present(userId)
    requires |MetricWrites(userId.value, s, iso, MetricOrder)| <= failAt
    ensures var mw := MetricWrites(userId.value, s, iso, MetricOrder);
            var r := Submit(db, username, userId, s, iso, failAt);
            (failAt == |mw| ==> r == Outcome(ApplyAll(db, mw), SaveFailed))
            && (failAt > |mw| ==> r == Outcome(Apply(ApplyAll(db, mw), HSet(userId.value, username.value)), Saved(s)))
  {
    var mw := MetricWrites(userId.value, s, iso, MetricOrder);
    var ws := SubmitWrites(userId.value, username.value, s, iso);
    assert ws[..|mw|] == mw;
    ApplyAllSnoc(db, mw, HSet(userId.value, username.value));
  }

  /** What one iteration of the `submitScore` loop adds to the writes and to the store. */
  lemma SubmitLoopStep(db: Db, userId: string, s: Submission, iso: string, i: nat)
    requires i < |MetricOrder|
    ensures var m := MetricOrder[i];
            var before := MetricWrites(userId, s, iso, MetricOrder[..i]);
            var after := MetricWrites(userId, s, iso, MetricOrder[..i + 1]);
            (Field(s, m).NaN? ==> after == before)
            && (Field(s, m).Num? ==>
                  |after| == |before| + 1
                  && ApplyAll(db, after) == Apply(ApplyAll(db, before), ZAdd(BoardKey(m, iso), userId, Field(s, m).v)))
  {
    var m := MetricOrder[i];
    var before := MetricWrites(userId, s, iso, MetricOrder[..i]);
    MetricWritesStep(userId, s, iso, MetricOrder, i);
    match Field(s, m)
    case NaN =>
      assert before + [] == before;
    case Num(v) =>
      ApplyAllSnoc(db, before, ZAdd(BoardKey(m, iso), userId, v));
  }

  /** When the loop reaches a numeric field after `failAt` writes, those writes are the first `failAt` of the run. */
  lemma SubmitFailsAt(userId: string, username: string, s: Submission, iso: string, i: nat)
    requires i < |MetricOrder| && Field(s, MetricOrder[i]).Num?
    ensures var done := MetricWrites(userId, s, iso, MetricOrder[..i]);
            var ws := SubmitWrites(userId, username, s, iso);
            |done| < |ws| && ws[..|done|] == done
  {
    MetricWritesSplit(userId, s, iso, MetricOrder, i + 1);
    MetricWritesStep(userId, s, iso, MetricOrder, i);
  }

  // ---------------------------------------------------------------- the daily challenge

  /** `dayKeys`, indexed by `Date.getDay()`. */
  const DayKeys: seq<string> := ["sun", "mon", "tue", "wed", "thu", "fri", "sat"]

  /** The handler's own `challenges` table. */
  const ServerChallenges: map<string, Metric> :=
    map["sun" := Points, "mon" := Points, "tue" := Time, "wed" := ComboTime,
        "thu" := ComboTime, "fri" := ObjectsCut, "sat" := Time]

  /** The `id` of each day in the shared daily-challenge configuration the client shows. */
  const ConfigChallengeIds: map<string, string> :=
    map["mon" := "points", "tue" := "time", "wed" := "combo_time", "thu" := "combo_time",
        "fri" := "objects_cut", "sat" := "time", "sun" := "points"]

  /** The day's challenge: `challenges[dayKeys[today]]`, or nothing for a day index out of range. */
  function DayChallenge(day: int): Option<Metric>
  {
    if 0 <= day < |DayKeys| && DayKeys[day] in ServerChallenges then Some(ServerChallenges[DayKeys[day]])
    else None
  }

  /**
   * Every day of the week has a challenge, and it is the one the shared configuration lists for
   * that day; no other day index has one.
   */
  lemma DayChallengeSpec(day: int)
    ensures DayChallenge(day).Some? <==> 0 <= day < 7
    ensures 0 <= day < 7 ==> DayKeys[day] in ConfigChallengeIds
                             && TypeName(DayChallenge(day).value) == ConfigChallengeIds[DayKeys[day]]
  {
  }

  // ---------------------------------------------------------------- ranking

  /** One `zRange` entry: the member and its score, which may be missing. */
  datatype RawEntry = RawEntry(member: string, score: Option<real>)

  /** One row of the answer: the user, the name the hash holds for them, and `score ?? 0`. */
  datatype Row = Row(userId: string, username: Option<string>, score: real)

  function ToRow(e: RawEntry, usernames: map<string, string>): Row
  {
    Row(e.member, if e.member in usernames then Some(usernames[e.member]) else None,
        if e.score.Some? then e.score.value else 0.0)
  }

  function ToRows(es: seq<RawEntry>, usernames: map<string, string>): (rows: seq<Row>)
    ensures |rows| == |es| && forall i :: 0 <= i < |es| ==> rows[i] == ToRow(es[i], usernames)
  {
    if es == [] then [] else [ToRow(es[0], usernames)] + ToRows(es[1..], usernames)
  }

  ghost predicate SortedDesc(s: seq<Row>)
  {
    forall i, j :: 0 <= i < j < |s| ==> s[i].score >= s[j].score
  }

  /** Place `x` before the first row that does not score more, so that rows of equal score keep their order. */
  function Insert(x: Row, s: seq<Row>): (r: seq<Row>)
    ensures multiset(r) == multiset(s) + multiset{x}
  {
    if s == [] || s[0].score <= x.score then [x] + s
    else
      assert s == [s[0]] + s[1..];
      [s[0]] + Insert(x, s[1..])
  }

  lemma {:induction false} InsertSorted(x: Row, s: seq<Row>)
    requires SortedDesc(s)
    ensures SortedDesc(Insert(x, s))
  {
    if s != [] && s[0].score > x.score {
      var t := Insert(x, s[1..]);
      assert SortedDesc(t) by {
        InsertSorted(x, s[1..]);
      }
      assert forall y | y in t :: y.score <= s[0].score by {
        forall y | y in t ensures y.score <= s[0].score {
          assert y in multiset(t);
          if y != x {
            assert y in multiset(s[1..]);
          }
        }
      }
      SortedCons(s[0], t);
    }
  }

  /** A row that scores at least as much as every row of a ranked list can go in front of it. */
  lemma SortedCons(h: Row, t: seq<Row>)
    requires SortedDesc(t) && forall y | y in t :: y.score <= h.score
    ensures SortedDesc([h] + t)
  {
    var r := [h] + t;
    forall i, j | 0 <= i < j < |r| ensures r[i].score >= r[j].score {
      if i > 0 {
        assert r[i] == t[i - 1] && r[j] == t[j - 1];
      } else {
        assert r[j] in t;
      }
    }
  }

  /** `entries.sort((a, b) => b.score - a.score)`: a stable sort by descending score. */
  function SortDesc(s: seq<Row>): (r: seq<Row>)
    ensures multiset(r) == multiset(s) && SortedDesc(r)
  {
    if s == [] then []
    else
      assert s == [s[0]] + s[1..];
      InsertSorted(s[0], SortDesc(s[1..]));
      Insert(s[0], SortDesc(s[1..]))
  }

  const TopSize: nat := 10

  /** `sorted.slice(0, 10)`. */
  function Top(sorted: seq<Row>): seq<Row>
  {
    if |sorted| <= TopSize then sorted else sorted[..TopSize]
  }

  /**
   * The top list is the first `min(10, n)` ranked rows; it is ranked too, and no row left out
   * scores more than any row in it.
   */
  lemma TopSpec(rows: seq<Row>)
    ensures var sorted := SortDesc(rows);
            var top := Top(sorted);
            |top| == (if |rows| <= TopSize then |rows| else TopSize)
            && SortedDesc(top) && multiset(top) <= multiset(rows)
            && (forall i :: 0 <= i < |top| ==> top[i] == sorted[i])
            && (forall i, j :: 0 <= i < |top| <= j < |sorted| ==> top[i].score >= sorted[j].score)
  {
    TopOfSorted(SortDesc(rows));
  }

  lemma TopOfSorted(sorted: seq<Row>)
    requires SortedDesc(sorted)
    ensures var top := Top(sorted);
            |top| == (if |sorted| <= TopSize then |sorted| else TopSize)
            && SortedDesc(top) && multiset(top) <= multiset(sorted)
            && (forall i :: 0 <= i < |top| ==> top[i] == sorted[i])
            && (forall i, j :: 0 <= i < |top| <= j < |sorted| ==> top[i].score >= sorted[j].score)
  {
    if |sorted| > TopSize {
      var top := sorted[..TopSize];
      assert multiset(top) <= multiset(sorted) by {
        assert sorted == top + sorted[TopSize..];
      }
    }
  }

  function UserIds(s: seq<Row>): (ids: seq<string>)
    ensures |ids| == |s| && forall i :: 0 <= i < |s| ==> ids[i] == s[i].userId
  {
    if s == [] then [] else [s[0].userId] + UserIds(s[1..])
  }

  /** `me.rank`: one past the caller's position in the ranking, or one past the end when absent. */
  function Rank(sorted: seq<Row>, userId: string): nat
  {
    var i := IndexOf(UserIds(sorted), userId);
    if i >= 0 then i + 1 else |sorted| + 1
  }

  /**
   * The rank lies between 1 and n + 1. It is at most n exactly when the caller is in the
   * ranking, and then it is the caller's first position (counting from 1), and everyone ranked
   * ahead scores at least as much.
   */
  lemma RankSpec(sorted: seq<Row>, userId: string)
    ensures var r := Rank(sorted, userId);
            1 <= r <= |sorted| + 1
            && (r <= |sorted| <==> exists i :: 0 <= i < |sorted| && sorted[i].userId == userId)
            && (r <= |sorted| ==>
                  sorted[r - 1].userId == userId && forall j :: 0 <= j < r - 1 ==> sorted[j].userId != userId)
            && (r <= |sorted| && SortedDesc(sorted) ==> forall j :: 0 <= j < r - 1 ==> sorted[j].score >= sorted[r - 1].score)
  {
    var ids := UserIds(sorted);
    var i := IndexOf(ids, userId);
    if i >= 0 {
      forall j | 0 <= j < i ensures sorted[j].userId != userId {
        assert ids[..i][j] == ids[j];
      }
    } else {
      forall j | 0 <= j < |sorted| ensures sorted[j].userId != userId {
        assert ids[j] in ids;
      }
    }
  }

  /** Every row drawn from the fetched entries belongs to one of the fetched members. */
  lemma RowsFromEntries(es: seq<RawEntry>, usernames: map<string, string>, rows: seq<Row>)
    requires multiset(rows) <= multiset(ToRows(es, usernames))
    ensures forall row | row in rows :: exists e :: e in es && e.member == row.userId
  {
    var all := ToRows(es, usernames);
    forall row | row in rows ensures exists e :: e in es && e.member == row.userId {
      assert row in multiset(all);
      var i :| 0 <= i < |all| && all[i] == row;
      assert es[i] in es;
    }
  }

  /** No fetched row left out of the top list scores more than a row in it. */
  lemma TopMaximal(rows: seq<Row>, sorted: seq<Row>)
    requires multiset(sorted) == multiset(rows) && SortedDesc(sorted)
    ensures var top := Top(sorted);
            forall row :: row in multiset(rows) - multiset(top) ==>
              forall i :: 0 <= i < |top| ==> top[i].score >= row.score
  {
    var top := Top(sorted);
    assert |top| <= |sorted| && top == sorted[..|top|];
    var rest := sorted[|top|..];
    assert multiset(rows) - multiset(top) == multiset(rest) by {
      assert sorted == top + rest;
      PrefixRemoved(top, rest);
    }
    forall row | row in multiset(rows) - multiset(top)
      ensures forall i :: 0 <= i < |top| ==> top[i].score >= row.score
    {
      var j :| 0 <= j < |rest| && rest[j] == row;
      forall i | 0 <= i < |top|
        ensures top[i].score >= row.score
      {
        assert top[i] == sorted[i] && row == sorted[|top| + j];
      }
    }
  }

  /** Taking a prefix's rows away from the whole leaves the suffix's rows. */
  lemma PrefixRemoved(top: seq<Row>, rest: seq<Row>)
    ensures multiset(top + rest) - multiset(top) == multiset(rest)
  {
  }

  /** Reordering rows keeps the set of user ids they carry. */
  lemma PermutedIds(rows: seq<Row>, sorted: seq<Row>, userId: string)
    requires multiset(sorted) == multiset(rows)
    ensures (exists i :: 0 <= i < |sorted| && sorted[i].userId == userId)
            <==> (exists k :: 0 <= k < |rows| && rows[k].userId == userId)
  {
    if i :| 0 <= i < |sorted| && sorted[i].userId == userId {
      assert sorted[i] in multiset(rows);
      var k :| 0 <= k < |rows| && rows[k] == sorted[i];
    }
    if k :| 0 <= k < |rows| && rows[k].userId == userId {
      assert rows[k] in multiset(sorted);
      var i :| 0 <= i < |sorted| && sorted[i] == rows[k];
    }
  }

  /** The caller is in the ranking exactly when one of the fetched entries is theirs. */
  lemma RankedIffFetched(es: seq<RawEntry>, usernames: map<string, string>, sorted: seq<Row>, userId: string)
    requires multiset(sorted) == multiset(ToRows(es, usernames))
    ensures (exists i :: 0 <= i < |sorted| && sorted[i].userId == userId)
            <==> (exists e :: e in es && e.member == userId)
  {
    var rows := ToRows(es, usernames);
    PermutedIds(rows, sorted, userId);
    if k :| 0 <= k < |rows| && rows[k].userId == userId {
      assert es[k] in es;
    }
    if e :| e in es && e.member == userId {
      var k :| 0 <= k < |es| && es[k] == e;
      assert rows[k].userId == userId;
    }
  }

  /** The caller's line of the answer. */
  datatype Me = Me(userId: string, score: real, rank: nat, username: Option<string>)

  datatype TopResponse =
    | Board(top: seq<Row>, me: Option<Me>, challengeType: string)
    | InvalidDay           // 500
    | FetchFailed          // 500

  /**
   * The `/api/leaderboard/top` handler: the day's board is read in full (`ranged`, or nothing
   * when the store call throws), ranked by score, cut to ten; a logged-in caller also gets
   * their stored score (`?? 0`), their rank and their current name.
   */
  function TopBoard(db: Db, day: int, iso: string, userId: Option<string>, currentName: Option<string>,
                    ranged: Option<seq<RawEntry>>): TopResponse
  {
    match DayChallenge(day)
    case None => InvalidDay
    case Some(c) =>
      var key := BoardKey(c, iso);
      match ranged
      case None => FetchFailed
      case Some(es) =>
        var sorted := SortDesc(ToRows(es, db.usernames));
        var me := if Present(userId) then
                    var stored := ZScore(db, key, userId.value);
                    Some(Me(userId.value, if stored.Some? then stored.value else 0.0, Rank(sorted, userId.value), currentName))
                  else None;
        Board(Top(sorted), me, TypeName(c))
  }

  /**
   * A board answer names the challenge the shared configuration lists for the day, lists at
   * most ten fetched members ranked by score, and gives a logged-in caller a rank between 1 and
   * one past the number of fetched entries; the caller's line is there exactly when they are
   * logged in.
   */
  lemma TopBoardSpec(db: Db, day: int, iso: string, userId: Option<string>, currentName: Option<string>,
                     ranged: Option<seq<RawEntry>>)
    ensures var r := TopBoard(db, day, iso, userId, currentName, ranged);
            (r == InvalidDay <==> !(0 <= day < 7))
            && (r == FetchFailed <==> 0 <= day < 7 && ranged.None?)
            && (r.Board? ==>
                  var es := ranged.value;
                  var rows := ToRows(es, db.usernames);
                  var sorted := SortDesc(rows);
                  r.challengeType == ConfigChallengeIds[DayKeys[day]]
                  && r.top == Top(sorted)
                  && SortedDesc(r.top) && |r.top| == (if |es| <= TopSize then |es| else TopSize)
                  && multiset(r.top) <= multiset(rows)
                  && (forall row :: row in multiset(rows) - multiset(r.top) ==>
                        forall i :: 0 <= i < |r.top| ==> r.top[i].score >= row.score)
                  && (forall row :: row in r.top ==> exists e :: e in es && e.member == row.userId)
                  && (r.me.Some? <==> Present(userId))
                  && (r.me.Some? ==>
                        r.me.value.userId == userId.value && r.me.value.username == currentName
                        && r.me.value.rank == Rank(sorted, userId.value)
                        && 1 <= r.me.value.rank <= |es| + 1
                        && (r.me.value.rank <= |es| <==> exists e :: e in es && e.member == userId.value)
                        && r.me.value.score == (var stored := ZScore(db, BoardKey(DayChallenge(day).value, iso), userId.value);
                                                if stored.Some? then stored.value else 0.0)))
  {
    DayChallengeSpec(day);
    if 0 <= day < 7 && ranged.Some? {
      var c := DayChallenge(day).value;
      var es := ranged.value;
      var rows := ToRows(es, db.usernames);
      var sorted := SortDesc(rows);
      var top := Top(sorted);
      var r := TopBoard(db, day, iso, userId, currentName, ranged);
      assert r.Board? && r.top == top && r.challengeType == TypeName(c);
      assert SortedDesc(top) && |top| == (if |es| <= TopSize then |es| else TopSize) && multiset(top) <= multiset(rows) by {
        TopOfSorted(sorted);
      }
      RowsFromEntries(es, db.usernames, top);
      TopMaximal(rows, sorted);
      if Present(userId) {
        RankSpec(sorted, userId.value);
        RankedIffFetched(es, db.usernames, sorted, userId.value);
      }
    }
  }
}
