/** The leaderboard backend: per-user metrics over revision sessions (the
    aggregate query, written out over rows), the ranked leaderboard, and
    the comparison of one user against the topper, the mean and the
    bottom quarter of all active users. */
module Leaderboard {
  import opened Wrappers
  import opened Numbers
  import opened Seqs
  import Types

  // ---------------------------------------------------------------------
  // Database rows
  // ---------------------------------------------------------------------

  datatype UserRow = UserRow(id: string, username: string, avatarUrl: Option<string>, isActive: bool)

  /** A row of `revision_sessions`; nullable columns are options. */
  datatype SessionRow = SessionRow(
    userId: string,
    topicId: string,
    startedAt: Types.Millis,
    endedAt: Option<Types.Millis>,
    dueDate: Option<Types.Millis>,
    completedAt: Option<Types.Millis>)

  datatype TopicRow = TopicRow(id: string, userId: string)

  /** The tables, each in the order the database returns its rows. */
  datatype Database = Database(users: seq<UserRow>, sessions: seq<SessionRow>, topics: seq<TopicRow>)

  /** `NOW()`, and what `NOW() - INTERVAL '10 years'` evaluates to in the
      database's calendar. */
  datatype Clock = Clock(now: Types.Millis, tenYearsAgo: Types.Millis)

  /** The look-back of the time window. */
  datatype Interval = Days(n: nat) | TenYears

  /** 'week' looks back 7 days, 'month' 30 days, anything else 10 years. */
  function WindowInterval(window: string): (iv: Interval)
    ensures window == "week" ==> iv == Days(7)
    ensures window == "month" ==> iv == Days(30)
    ensures window != "week" && window != "month" ==> iv == TenYears
  {
    if window == "week" then Days(7) else if window == "month" then Days(30) else TenYears
  }

  /** The earliest start time a session may have to count. */
  function WindowStart(window: string, clock: Clock): Types.Millis
  {
    match WindowInterval(window)
    case Days(n) => clock.now - n * Types.DayMs
    case TenYears => clock.tenYearsAgo
  }

  /** The `= 'week'` default of the query parameter. */
  function WindowOf(window: Option<string>): string
  {
    window.GetOr("week")
  }

  // ---------------------------------------------------------------------
  // The metrics query
  // ---------------------------------------------------------------------

  predicate HasTopic(db: Database, topicId: string)
  {
    exists k :: 0 <= k < |db.topics| && db.topics[k].id == topicId
  }

  /** A session the query aggregates: the user's, started inside the
      window, on a topic that exists (the inner join). */
  predicate Counted(db: Database, userId: string, start: Types.Millis, r: SessionRow)
  {
    r.userId == userId && r.startedAt >= start && HasTopic(db, r.topicId)
  }

  function WindowRows(db: Database, userId: string, window: string, clock: Clock): seq<SessionRow>
  {
    var start := WindowStart(window, clock);
    Filter(db.sessions, (r: SessionRow) => Counted(db, userId, start, r))
  }

  predicate IsCompleted(r: SessionRow) { r.completedAt.Some? }

  /** `completed_at <= due_date`, false when either is NULL. */
  predicate IsOnTime(r: SessionRow) {
    r.completedAt.Some? && r.dueDate.Some? && r.completedAt.value <= r.dueDate.value
  }

  predicate HasEnded(r: SessionRow) { r.endedAt.Some? }

  /** The session's length in minutes; NULL (not ended) counts as nothing. */
  function DurationMinutes(r: SessionRow): real
  {
    match r.endedAt
    case Some(e) => (e - r.startedAt) as real / 60000.0
    case None => 0.0
  }

  /** `DATE(started_at)` as a day number. */
  function StudyDay(r: SessionRow): int
  {
    r.startedAt / Types.DayMs
  }

  function StudyDays(rows: seq<SessionRow>): set<int>
  {
    set i | 0 <= i < |rows| :: StudyDay(rows[i])
  }

  function CoveredTopics(rows: seq<SessionRow>): set<string>
  {
    set i | 0 <= i < |rows| :: rows[i].topicId
  }

  /** `a * 100.0 / NULLIF(b, 0)` for counts with `a <= b`. */
  function Percent(a: nat, b: nat): (r: Option<real>)
    requires a <= b
    ensures r.None? <==> b == 0
    ensures r.Some? ==> 0.0 <= r.value <= 100.0
    ensures r.Some? ==> r.value * b as real == a as real * 100.0
  {
    if b == 0 then None
    else
      var q := a as real * 100.0 / b as real;
      assert q * b as real == a as real * 100.0;
      assert q <= 100.0 by {
        assert a as real * 100.0 <= b as real * 100.0;
      }
      Some(q)
  }

  /** The share of completed sessions completed by their due date, NULL
      when none is completed. */
  function OnTimePercent(rows: seq<SessionRow>): (r: Option<real>)
    ensures r.None? <==> Count(rows, IsCompleted) == 0
    ensures r.Some? ==> 0.0 <= r.value <= 100.0
  {
    CountMono(rows, IsOnTime, IsCompleted);
    Percent(Count(rows, IsOnTime), Count(rows, IsCompleted))
  }

  /** Distinct study days against 7, whatever the window's length. */
  function ConsistencyPercent(rows: seq<SessionRow>): (r: real)
    ensures r >= 0.0
    ensures r == 0.0 <==> rows == []
    ensures r * 7.0 == |StudyDays(rows)| as real * 100.0
  {
    assert rows != [] ==> StudyDay(rows[0]) in StudyDays(rows);
    |StudyDays(rows)| as real * 100.0 / 7.0
  }

  /** The query's one result row; a NULL becomes `None`. */
  datatype RawMetrics = RawMetrics(
    onTimeRate: Option<real>,
    weeklyMinutes: real,
    avgTimePerRevision: real,
    consistency: real,
    coverage: Option<real>)

  /** `calculateUserMetrics`: the on-time rate over completed sessions, the
      total and the mean session length in minutes (0 when none has
      ended), distinct study days against 7, and distinct topics studied
      against the number of topics the user owns (NULL when none; topics
      of other users still count as studied). */
  function UserMetrics(db: Database, userId: string, window: string, clock: Clock): (m: RawMetrics)
  {
    var rows := WindowRows(db, userId, window, clock);
    var ended := Filter(rows, HasEnded);
    var total := SumByReal(ended, DurationMinutes);
    var owned := Count(db.topics, (t: TopicRow) => t.userId == userId);
    RawMetrics(
      OnTimePercent(rows),
      total,
      if |ended| == 0 then 0.0 else total / |ended| as real,
      ConsistencyPercent(rows),
      if owned == 0 then None else Some(|CoveredTopics(rows)| as real * 100.0 / owned as real))
  }

  /** No completed session in the window makes the on-time rate NULL, and
      a defined rate is a percentage; owning no topic makes coverage NULL. */
  lemma UserMetricsNulls(db: Database, userId: string, window: string, clock: Clock)
    ensures var m := UserMetrics(db, userId, window, clock);
            var rows := WindowRows(db, userId, window, clock);
            && (m.onTimeRate.None? <==> Count(rows, IsCompleted) == 0)
            && (m.onTimeRate.Some? ==> 0.0 <= m.onTimeRate.value <= 100.0)
            && (m.coverage.None? <==> Count(db.topics, (t: TopicRow) => t.userId == userId) == 0)
            && m.consistency >= 0.0
  {
  }

  /** A shorter window counts a subset of the sessions of a longer one. */
  lemma WindowRowsNested(db: Database, userId: string, clock: Clock, i: nat)
    requires clock.tenYearsAgo <= clock.now - 30 * Types.DayMs
    ensures var week := WindowRows(db, userId, "week", clock);
            var month := WindowRows(db, userId, "month", clock);
            var all := WindowRows(db, userId, "all", clock);
            (i < |week| ==> week[i] in month) && (i < |month| ==> month[i] in all)
  {
    var pw := (r: SessionRow) => Counted(db, userId, WindowStart("week", clock), r);
    var pm := (r: SessionRow) => Counted(db, userId, WindowStart("month", clock), r);
    var pa := (r: SessionRow) => Counted(db, userId, WindowStart("all", clock), r);
    var week := Filter(db.sessions, pw);
    var month := Filter(db.sessions, pm);
    var all := Filter(db.sessions, pa);
    assert week == WindowRows(db, userId, "week", clock);
    assert month == WindowRows(db, userId, "month", clock);
    assert all == WindowRows(db, userId, "all", clock);
    FilterMembers(db.sessions, pw);
    FilterMembers(db.sessions, pm);
    FilterMembers(db.sessions, pa);
    if i < |week| {
      var j :| 0 <= j < |db.sessions| && db.sessions[j] == week[i];
      assert pm(db.sessions[j]);
    }
    if i < |month| {
      var j :| 0 <= j < |db.sessions| && db.sessions[j] == month[i];
      assert pa(db.sessions[j]);
    }
  }

  // ---------------------------------------------------------------------
  // The leaderboard
  // ---------------------------------------------------------------------

  /** An entry of the leaderboard response. `rank` is 0 until ranks are
      assigned. */
  datatype LeaderboardRow = LeaderboardRow(
    userId: string,
    username: string,
    avatarUrl: Option<string>,
    onTimeRate: real,
    weeklyMinutes: int,
    avgTimePerRevision: int,
    consistency: real,
    coverage: real,
    isCurrentUser: bool,
    rank: int)

  /** `parseFloat(x) || 0` of a nullable numeric column. */
  function OrZero(x: Option<real>): (r: real)
    ensures x.None? ==> r == 0.0
    ensures x.Some? ==> r == x.value
  {
    match x
    case Some(v) => v
    case None => 0.0
  }

  /** `parseInt(x) || 0` of a numeric column: `parseInt` reads the
      integer part of the decimal text, so the value truncates toward
      zero. */
  function IntPart(x: real): (r: int)
    ensures 0.0 <= x ==> 0 <= r && r as real <= x < r as real + 1.0
    ensures x < 0.0 ==> r <= 0 && x <= r as real < x + 1.0
  {
    Trunc(x)
  }

  function ActiveUsers(db: Database): seq<UserRow>
  {
    Filter(db.users, (u: UserRow) => u.isActive)
  }

  /** The entry the push loop builds for one user. */
  function EntryFor(db: Database, u: UserRow, window: string, authUser: Option<string>, clock: Clock): LeaderboardRow
  {
    var m := UserMetrics(db, u.id, window, clock);
    LeaderboardRow(
      u.id, u.username, u.avatarUrl,
      OrZero(m.onTimeRate),
      IntPart(m.weeklyMinutes),
      IntPart(m.avgTimePerRevision),
      m.consistency,
      OrZero(m.coverage),
      authUser == Some(u.id),
      0)
  }

  /** The entries in query order, before sorting. */
  function Entries(db: Database, window: string, authUser: Option<string>, clock: Clock): (es: seq<LeaderboardRow>)
    ensures |es| == |ActiveUsers(db)|
  {
    var us := ActiveUsers(db);
    seq(|us|, i requires 0 <= i < |us| => EntryFor(db, us[i], window, authUser, clock))
  }

  function OnTimeKey(e: LeaderboardRow): real { e.onTimeRate }

  /** `entry.rank = index + 1` for each position. */
  function AssignRanks(es: seq<LeaderboardRow>): (r: seq<LeaderboardRow>)
  {
    seq(|es|, i requires 0 <= i < |es| => es[i].(rank := i + 1))
  }

  /** The leaderboard: the entries sorted by on-time rate, then ranked. */
  function Standings(db: Database, window: string, authUser: Option<string>, clock: Clock): seq<LeaderboardRow>
  {
    AssignRanks(SortDescBy(Entries(db, window, authUser, clock), OnTimeKey))
  }

  /** The push loop of `getLeaderboard`: one entry per active user, in
      query order. */
  method CollectEntries(db: Database, w: string, authUser: Option<string>, clock: Clock)
    returns (data: seq<LeaderboardRow>)
    ensures data == Entries(db, w, authUser, clock)
  {
    var users := ActiveUsers(db);
    data := [];
    var i := 0;
    while i < |users|
      invariant 0 <= i <= |users|
      invariant |data| == i
      invariant forall k :: 0 <= k < i ==> data[k] == EntryFor(db, users[k], w, authUser, clock)
    {
      data := data + [EntryFor(db, users[i], w, authUser, clock)];
      i := i + 1;
    }
  }

  /** The `forEach` that numbers the sorted entries from 1. */
  method NumberEntries(sorted: seq<LeaderboardRow>) returns (res: seq<LeaderboardRow>)
    ensures res == AssignRanks(sorted)
  {
    res := sorted;
    var j := 0;
    while j < |res|
      invariant 0 <= j <= |res| == |sorted|
      invariant forall k :: 0 <= k < j ==> res[k] == sorted[k].(rank := k + 1)
      invariant forall k :: j <= k < |res| ==> res[k] == sorted[k]
    {
      res := res[j := res[j].(rank := j + 1)];
      j := j + 1;
    }
  }

  /** `getLeaderboard`: build one entry per active user, sort by on-time
      rate (highest first), then number the entries from 1. */
  method GetLeaderboard(db: Database, window: Option<string>, authUser: Option<string>, clock: Clock)
    returns (res: seq<LeaderboardRow>)
    ensures res == Standings(db, WindowOf(window), authUser, clock)
    ensures |res| == |ActiveUsers(db)|
    ensures forall i :: 0 <= i < |res| ==> res[i].rank == i + 1
    ensures forall i, j :: 0 <= i < j < |res| ==> res[i].onTimeRate >= res[j].onTimeRate
  {
    var w := WindowOf(window);
    var data := CollectEntries(db, w, authUser, clock);
    var sorted := SortDescBy(data, OnTimeKey);
    res := NumberEntries(sorted);
    StandingsOrdered(db, w, authUser, clock);
  }

  /** Ranks run 1..N and on-time rates never increase down the board. */
  lemma StandingsOrdered(db: Database, window: string, authUser: Option<string>, clock: Clock)
    ensures var st := Standings(db, window, authUser, clock);
            && |st| == |ActiveUsers(db)|
            && (forall i :: 0 <= i < |st| ==> st[i].rank == i + 1)
            && (forall i, j :: 0 <= i < j < |st| ==> st[i].onTimeRate >= st[j].onTimeRate)
  {
    var es := Entries(db, window, authUser, clock);
    SortDescBySorted(es, OnTimeKey);
    SortDescByPerm(es, OnTimeKey, _ => 0, OnTimeKey);
  }

  /** The entries with the same on-time rate keep the order of the user
      query (the sort is stable), and nobody is added or dropped. */
  lemma StandingsTiesKeepQueryOrder(db: Database, window: string, authUser: Option<string>, clock: Clock, k: real)
    ensures var st := Standings(db, window, authUser, clock);
            var unranked := seq(|st|, i requires 0 <= i < |st| => st[i].(rank := 0));
            && WithKey(unranked, OnTimeKey, k) == WithKey(Entries(db, window, authUser, clock), OnTimeKey, k)
            && multiset(unranked) == multiset(Entries(db, window, authUser, clock))
  {
    var es := Entries(db, window, authUser, clock);
    var sorted := SortDescBy(es, OnTimeKey);
    SortDescByStable(es, OnTimeKey, k);
    SortDescByPerm(es, OnTimeKey, _ => 0, OnTimeKey);
    var st := Standings(db, window, authUser, clock);
    var unranked := seq(|st|, i requires 0 <= i < |st| => st[i].(rank := 0));
    forall i | 0 <= i < |sorted| ensures sorted[i].rank == 0 {
      assert sorted[i] in multiset(es);
    }
    assert unranked == sorted;
  }

  /** A user with no session in the window scores 0 on every metric. */
  lemma NoSessionsScoreZero(db: Database, u: UserRow, window: string, authUser: Option<string>, clock: Clock)
    requires WindowRows(db, u.id, window, clock) == []
    ensures var e := EntryFor(db, u, window, authUser, clock);
            e.onTimeRate == 0.0 && e.weeklyMinutes == 0 && e.avgTimePerRevision == 0
            && e.consistency == 0.0 && e.coverage == 0.0
  {
    assert StudyDays([]) == {};
    assert CoveredTopics([]) == {};
  }

  /** A user who owns no topic gets coverage 0 (NULL, then `|| 0`). */
  lemma NoTopicsCoverageZero(db: Database, u: UserRow, window: string, authUser: Option<string>, clock: Clock)
    requires forall k :: 0 <= k < |db.topics| ==> db.topics[k].userId != u.id
    ensures EntryFor(db, u, window, authUser, clock).coverage == 0.0
  {
  }

  // ---------------------------------------------------------------------
  // The comparison
  // ---------------------------------------------------------------------

  datatype ComparisonBody = ComparisonBody(
    youOnTimeRate: real,
    youWeeklyMinutes: int,
    topperOnTimeRate: real,
    topperWeeklyMinutes: int,
    averageOnTimeRate: real,
    averageWeeklyMinutes: int,
    strugglingOnTimeRate: real,
    strugglingWeeklyMinutes: int)

  /** An HTTP reply: a JSON body, or a status code with an error message. */
  datatype Response<T> = Json(body: T) | Failure(status: int, error: string)

  function RateOf(m: RawMetrics): real { OrZero(m.onTimeRate) }

  function WeeklyOf(m: RawMetrics): int { IntPart(m.weeklyMinutes) }

  /** `Math.floor(n * 0.75)`: where the bottom quarter starts. */
  function BottomStart(n: nat): (k: nat)
    ensures k == (3 * n) / 4
    ensures k < n || n == 0
  {
    var k := Floor(n as real * 0.75);
    var q := (3 * n) / 4;
    assert 4 * q <= 3 * n < 4 * q + 4;
    assert q as real <= n as real * 0.75 < q as real + 1.0;
    assert k == q;
    k
  }

  /** The mean of a non-empty list under a real key. */
  function Mean<T>(s: seq<T>, key: T -> real): (r: real)
    requires |s| > 0
  {
    SumByReal(s, key) / |s| as real
  }

  /** `Math.round` of the mean under an integer key. */
  function RoundedMean<T>(s: seq<T>, key: T -> int): (r: int)
    requires |s| > 0
    ensures (r as real - 0.5) * |s| as real <= SumBy(s, key) as real < (r as real + 0.5) * |s| as real
  {
    var m := SumBy(s, key) as real / |s| as real;
    var r := Round(m);
    assert m * |s| as real == SumBy(s, key) as real;
    MulMonotone(r as real - 0.5, m, |s| as real);
    MulStrict(m, r as real + 0.5, |s| as real);
    r
  }

  /** The figures of the comparison from the rates sorted highest first:
      the topper is the head, the bottom quarter the last `N - floor(0.75 N)`. */
  function Summary(you: RawMetrics, sorted: seq<RawMetrics>, all: seq<RawMetrics>): ComparisonBody
    requires |sorted| > 0 && |all| > 0
  {
    var bottom := sorted[BottomStart(|sorted|)..];
    ComparisonBody(
      RateOf(you), WeeklyOf(you),
      RateOf(sorted[0]), WeeklyOf(sorted[0]),
      Mean(all, RateOf), RoundedMean(all, WeeklyOf),
      Mean(bottom, RateOf), RoundedMean(bottom, WeeklyOf))
  }

  /** The comparison figures, or `None` when there is no active user: the
      topper is then undefined and reading it throws. */
  function CompareMetrics(you: RawMetrics, all: seq<RawMetrics>): (r: Option<ComparisonBody>)
    ensures r.None? <==> |all| == 0
  {
    if |all| == 0 then None
    else
      SortDescByPerm(all, RateOf, WeeklyOf, RateOf);
      Some(Summary(you, SortDescBy(all, RateOf), all))
  }

  /** `id || req.user?.id`: the first of the two that is a non-empty id. */
  function UserIdOf(id: Option<string>, authUser: Option<string>): (r: Option<string>)
    ensures r.Some? ==> r.value != ""
    ensures r.None? <==> (id.None? || id == Some("")) && (authUser.None? || authUser == Some(""))
  {
    if id.Some? && id.value != "" then id
    else if authUser.Some? && authUser.value != "" then authUser
    else None
  }

  /** Every active user's raw metrics, in query order. */
  function AllMetrics(db: Database, w: string, clock: Clock): (ms: seq<RawMetrics>)
    ensures |ms| == |ActiveUsers(db)|
  {
    var us := ActiveUsers(db);
    seq(|us|, i requires 0 <= i < |us| => UserMetrics(db, us[i].id, w, clock))
  }

  /** The push loop of `getComparison`. */
  method CollectMetrics(db: Database, w: string, clock: Clock) returns (ms: seq<RawMetrics>)
    ensures ms == AllMetrics(db, w, clock)
  {
    var users := ActiveUsers(db);
    ms := [];
    var i := 0;
    while i < |users|
      invariant 0 <= i <= |users|
      invariant |ms| == i
      invariant forall k :: 0 <= k < i ==> ms[k] == UserMetrics(db, users[k].id, w, clock)
    {
      ms := ms + [UserMetrics(db, users[i].id, w, clock)];
      i := i + 1;
    }
  }

  /** `getComparison`: 400 without a user id; otherwise the user's metrics
      compared with every active user's, and 500 when there is none. */
  method GetComparison(db: Database, id: Option<string>, window: Option<string>, authUser: Option<string>, clock: Clock)
    returns (res: Response<ComparisonBody>)
    ensures UserIdOf(id, authUser).None? ==> res == Failure(400, "User ID is required")
    ensures UserIdOf(id, authUser).Some? && |ActiveUsers(db)| == 0 ==>
              res == Failure(500, "Failed to fetch comparison data")
    ensures UserIdOf(id, authUser).Some? && |ActiveUsers(db)| > 0 ==>
              var w := WindowOf(window);
              res == Json(CompareMetrics(UserMetrics(db, UserIdOf(id, authUser).value, w, clock), AllMetrics(db, w, clock)).value)
  {
    var userId := UserIdOf(id, authUser);
    if userId.None? {
      return Failure(400, "User ID is required");
    }
    var w := WindowOf(window);
    var you := UserMetrics(db, userId.value, w, clock);
    var allMetrics := CollectMetrics(db, w, clock);
    var body := CompareMetrics(you, allMetrics);
    if body.None? {
      return Failure(500, "Failed to fetch comparison data");
    }
    res := Json(body.value);
  }

  /** The bottom quarter is never empty when there is a user, and holds
      N - floor(3N/4) of them. */
  lemma BottomQuarterSize(n: nat)
    requires n >= 1
    ensures n - BottomStart(n) >= 1
    ensures n - BottomStart(n) == n - (3 * n) / 4
  {
  }

  /** `b/m <= (a+b)/(k+m)` once the first `k` values sum to at least
      `k p` and the last `m` to at most `m p`. */
  lemma TailMeanBelow(a: real, b: real, k: real, m: real, p: real)
    requires k >= 0.0 && m > 0.0
    requires a >= k * p && b <= m * p
    ensures b / m <= (a + b) / (k + m)
  {
    var q := b / m;
    MeanAtMost(b, m, p);
    assert m * q == b;
    MulMonotone(q, p, k);
    assert k * q <= a;
    assert (k + m) * q == k * q + m * q;
    MeanAtLeast(a + b, k + m, q);
  }

  /** In a list sorted by decreasing key, the first `k` keys sum to at
      least `k` times the `k`-th key. */
  lemma HeadSumAtLeast<T>(s: seq<T>, key: T -> real, k: nat)
    requires SortedDescBy(s, key) && k < |s|
    ensures SumByReal(s[..k], key) >= k as real * key(s[k])
  {
    var head := s[..k];
    forall i | 0 <= i < |head| ensures key(s[k]) <= key(head[i]) {
      assert head[i] == s[i];
    }
    SumByRealAtLeast(head, key, key(s[k]));
  }

  /** ... and the keys from the `k`-th on sum to at most their number times
      the `k`-th key. */
  lemma TailSumAtMost<T>(s: seq<T>, key: T -> real, k: nat)
    requires SortedDescBy(s, key) && k < |s|
    ensures SumByReal(s[k..], key) <= (|s| - k) as real * key(s[k])
  {
    var tail := s[k..];
    forall i | 0 <= i < |tail| ensures key(tail[i]) <= key(s[k]) {
      assert tail[i] == s[k + i];
    }
    SumByRealAtMost(tail, key, key(s[k]));
  }

  lemma SumSplit<T>(s: seq<T>, key: T -> real, k: nat)
    requires k <= |s|
    ensures SumByReal(s, key) == SumByReal(s[..k], key) + SumByReal(s[k..], key)
  {
    assert s == s[..k] + s[k..];
    SumByRealConcat(s[..k], s[k..], key);
  }

  /** The mean of a tail of a list sorted by decreasing key is at most the
      mean of the whole list. */
  lemma TailMeanAtMost<T>(s: seq<T>, key: T -> real, k: nat)
    requires SortedDescBy(s, key) && k < |s|
    ensures Mean(s[k..], key) <= Mean(s, key)
  {
    HeadSumAtLeast(s, key, k);
    TailSumAtMost(s, key, k);
    MeanOfParts(s, key, k);
    TailMeanBelow(SumByReal(s[..k], key), SumByReal(s[k..], key),
                  k as real, (|s| - k) as real, key(s[k]));
  }

  /** Both means written over the sums of the two parts. */
  lemma MeanOfParts<T>(s: seq<T>, key: T -> real, k: nat)
    requires k < |s|
    ensures Mean(s[k..], key) == SumByReal(s[k..], key) / (|s| - k) as real
    ensures Mean(s, key) == (SumByReal(s[..k], key) + SumByReal(s[k..], key)) / (k as real + (|s| - k) as real)
  {
    SumSplit(s, key, k);
  }

  /** The topper's rate bounds every rate and the overall mean, and the
      bottom-quarter mean never exceeds the overall mean. */
  lemma ComparisonOrdering(you: RawMetrics, all: seq<RawMetrics>)
    requires |all| > 0
    ensures var c := CompareMetrics(you, all).value;
            && (forall i :: 0 <= i < |all| ==> RateOf(all[i]) <= c.topperOnTimeRate)
            && c.strugglingOnTimeRate <= c.averageOnTimeRate <= c.topperOnTimeRate
  {
    var sorted := SortDescBy(all, RateOf);
    SortDescByPerm(all, RateOf, WeeklyOf, RateOf);
    var c := Summary(you, sorted, all);
    assert CompareMetrics(you, all) == Some(c);
    SortDescByHead(all, RateOf);
    TopperAboveMean(all, RateOf(sorted[0]));
    SortDescBySorted(all, RateOf);
    TailMeanAtMost(sorted, RateOf, BottomStart(|all|));
    assert Mean(sorted, RateOf) == Mean(all, RateOf);
  }

  /** The mean times the count is the sum. */
  lemma MeanTimesCount<T>(s: seq<T>, key: T -> real)
    requires |s| > 0
    ensures Mean(s, key) * |s| as real == SumByReal(s, key)
  {
  }

  /** A bound on every key bounds the mean. */
  lemma TopperAboveMean(all: seq<RawMetrics>, hi: real)
    requires |all| > 0
    requires forall i :: 0 <= i < |all| ==> RateOf(all[i]) <= hi
    ensures Mean(all, RateOf) <= hi
  {
    SumByRealAtMost(all, RateOf, hi);
    MeanAtMost(SumByReal(all, RateOf), |all| as real, hi);
  }
}
