/** The revision schedule dialog: the four chained cycle entries generated
    for a topic, the status of an entry, the per-topic statistics and the
    upcoming list. The random choices of the demo generator are inputs. */
module Schedule {
  import opened Wrappers
  import opened Numbers
  import opened Seqs
  import Types
  import Text

  /** One value of `Math.random()`. */
  type Unit = r: real | 0.0 <= r < 1.0 witness 0.0

  /** The five random values the generator draws for one entry, in the
      order it uses them. */
  datatype Draw = Draw(completed: Unit, snoozed: Unit, lateness: Unit, rating: Unit, minutes: Unit)

  datatype ScheduleEntry = ScheduleEntry(
    id: string,
    cycle: int,
    dueDate: Types.Millis,
    isCompleted: bool,
    completedAt: Option<Types.Millis>,
    isSnoozed: bool,
    snoozeDate: Option<Types.Millis>,
    rating: Option<string>,
    actualMinutes: Option<int>)

  /** The spaced-repetition intervals, in days. */
  const Cycles: seq<int> := [7, 14, 21, 28]

  const RatingNames: seq<string> := ["Easy", "Good", "Hard", "Again"]

  /** `new Date(topic.firstStudied)`: a topic never studied anchors at the
      epoch, since `new Date(null)` is time 0. */
  function Anchor(t: Types.Topic): Types.Millis
  {
    t.firstStudied.GetOr(0)
  }

  /** The day offset of entry `k` from the anchor: each due date is the
      previous one plus its own cycle. */
  function DueOffset(k: nat): int
    requires k < |Cycles|
  {
    if k == 0 then Cycles[0] else DueOffset(k - 1) + Cycles[k]
  }

  /** The offset of the entry before `k`, zero before the first. */
  function PriorOffset(k: nat): int
    requires k <= |Cycles|
  {
    if k == 0 then 0 else DueOffset(k - 1)
  }

  /** The chain gives offsets 7, 21, 42 and 70 days. */
  lemma DueOffsetValues()
    ensures DueOffset(0) == 7 && DueOffset(1) == 21 && DueOffset(2) == 42 && DueOffset(3) == 70
  {
  }

  /** `${topic.id}_cycle_${cycle}`. */
  function EntryId(topicId: string, cycle: int): string
  {
    topicId + "_cycle_" + Text.IntToString(cycle)
  }

  /** The entry the generator pushes at position `index`. */
  function MakeEntry(topicId: string, index: nat, cycle: int, dueDate: Types.Millis, d: Draw): ScheduleEntry
  {
    var isCompleted := d.completed > 0.5 && index < 2;
    var isSnoozed := !isCompleted && d.snoozed > 0.7;
    ScheduleEntry(
      EntryId(topicId, cycle),
      cycle,
      dueDate,
      isCompleted,
      if isCompleted then Some(dueDate + Floor(d.lateness * 86400000.0)) else None,
      isSnoozed,
      if isSnoozed then Some(dueDate + 3 * Types.DayMs) else None,
      if isCompleted then Some(RatingNames[Floor(d.rating * 4.0)]) else None,
      if isCompleted then Some(Floor(d.minutes * 30.0) + 20) else None)
  }

  /** What one generated entry holds: only the first two can be completed,
      a completed entry is never snoozed, it is completed within a day of
      its due date after 20 to 49 minutes with one of the four ratings, and
      a snoozed one is snoozed to three days after its due date. */
  lemma MakeEntryShape(topicId: string, index: nat, cycle: int, dueDate: Types.Millis, d: Draw)
    ensures var e := MakeEntry(topicId, index, cycle, dueDate, d);
            && e.cycle == cycle && e.dueDate == dueDate && e.id == EntryId(topicId, cycle)
            && (e.isCompleted ==> index < 2 && !e.isSnoozed)
            && (e.completedAt.Some? <==> e.isCompleted)
            && (e.isCompleted ==> dueDate <= e.completedAt.value < dueDate + Types.DayMs)
            && (e.snoozeDate.Some? <==> e.isSnoozed)
            && (e.isSnoozed ==> e.snoozeDate.value == dueDate + 3 * Types.DayMs)
            && (e.isCompleted ==> e.rating.Some? && e.rating.value in RatingNames)
            && (e.isCompleted ==> e.actualMinutes.Some? && 20 <= e.actualMinutes.value < 50)
            && (!e.isCompleted ==> e.rating.None? && e.actualMinutes.None?)
  {
    assert 0 <= Floor(d.lateness * 86400000.0) < Types.DayMs;
    assert 0 <= Floor(d.rating * 4.0) < 4;
    assert 20 <= Floor(d.minutes * 30.0) + 20 < 50;
  }

  /** `generateScheduleEntries`: with no topic the entries stay as they
      were; otherwise one entry per cycle, each due a cycle after the
      previous one, starting from the anchor. */
  method GenerateScheduleEntries(topic: Option<Types.Topic>, draws: seq<Draw>, current: seq<ScheduleEntry>)
    returns (entries: seq<ScheduleEntry>)
    requires |draws| == |Cycles|
    ensures topic.None? ==> entries == current
    ensures topic.Some? ==> entries == Planned(topic.value, draws, |Cycles|)
  {
    if topic.None? {
      return current;
    }
    var t := topic.value;
    entries := [];
    var baseDate := Anchor(t);
    var i := 0;
    while i < |Cycles|
      invariant 0 <= i <= |Cycles|
      invariant |entries| == i
      invariant baseDate == Anchor(t) + PriorOffset(i) * Types.DayMs
      invariant entries == Planned(t, draws, i)
    {
      var cycle := Cycles[i];
      var dueDate := baseDate + cycle * Types.DayMs;
      assert dueDate == Anchor(t) + DueOffset(i) * Types.DayMs;
      var e := MakeEntry(t.id, i, cycle, dueDate, draws[i]);
      entries := entries + [e];
      baseDate := dueDate;
      i := i + 1;
    }
  }

  /** The first `n` entries the generator pushes for topic `t`: entry `k`
      is due `DueOffset(k)` days after the anchor (see `PlannedAt`). */
  function Planned(t: Types.Topic, draws: seq<Draw>, n: nat): (r: seq<ScheduleEntry>)
    requires n <= |Cycles| && |draws| == |Cycles|
    ensures |r| == n
  {
    if n == 0 then []
    else Planned(t, draws, n - 1) + [MakeEntry(t.id, n - 1, Cycles[n - 1], Anchor(t) + DueOffset(n - 1) * Types.DayMs, draws[n - 1])]
  }

  lemma {:induction false} PlannedAt(t: Types.Topic, draws: seq<Draw>, n: nat, k: nat)
    requires k < n <= |Cycles| && |draws| == |Cycles|
    ensures Planned(t, draws, n)[k] == MakeEntry(t.id, k, Cycles[k], Anchor(t) + DueOffset(k) * Types.DayMs, draws[k])
  {
    if k < n - 1 {
      PlannedAt(t, draws, n - 1, k);
    }
  }

  /** `handleRegenerateSchedule`: the same generation again, still anchored
      on the first-study date rather than on today. */
  method RegenerateSchedule(topic: Option<Types.Topic>, draws: seq<Draw>, current: seq<ScheduleEntry>)
    returns (entries: seq<ScheduleEntry>)
    requires |draws| == |Cycles|
    ensures topic.None? ==> entries == current
    ensures topic.Some? ==> |entries| == |Cycles| && forall k :: 0 <= k < |entries| ==>
              entries[k].dueDate == Anchor(topic.value) + DueOffset(k) * Types.DayMs
  {
    if topic.None? {
      return current;
    }
    entries := GenerateScheduleEntries(topic, draws, current);
    forall k | 0 <= k < |entries|
      ensures entries[k].dueDate == Anchor(topic.value) + DueOffset(k) * Types.DayMs
    {
      PlannedAt(topic.value, draws, |Cycles|, k);
    }
  }

  /** Entry ids tell the cycles apart: `toString` of an integer reads
      back to it. */
  lemma EntryIdInjective(topicId: string, a: int, b: int)
    ensures EntryId(topicId, a) == EntryId(topicId, b) ==> a == b
  {
    var pre := topicId + "_cycle_";
    var ca, cb := Text.IntToString(a), Text.IntToString(b);
    assert (pre + ca)[|pre|..] == ca;
    assert (pre + cb)[|pre|..] == cb;
    Text.ParseIntIntToString(a);
    Text.ParseIntIntToString(b);
  }

  /** The generated due dates rise strictly, each one its cycle after the
      previous, and the entries have distinct ids. */
  lemma GeneratedScheduleShape(topicId: string, anchor: Types.Millis, i: nat, j: nat)
    requires i < j < |Cycles|
    ensures anchor + DueOffset(i) * Types.DayMs < anchor + DueOffset(j) * Types.DayMs
    ensures j == i + 1 ==> DueOffset(j) - DueOffset(i) == Cycles[j]
    ensures EntryId(topicId, Cycles[i]) != EntryId(topicId, Cycles[j])
  {
    DueOffsetValues();
    EntryIdInjective(topicId, Cycles[i], Cycles[j]);
  }

  // ---------------------------------------------------------------------
  // Status
  // ---------------------------------------------------------------------

  datatype EntryStatus = Completed | Snoozed | Overdue | Pending

  /** The fixed precedence: completed, then snoozed, then overdue (due
      strictly before now), else pending. */
  function StatusOf(e: ScheduleEntry, now: Types.Millis): (s: EntryStatus)
    ensures s == Completed <==> e.isCompleted
    ensures s == Snoozed <==> !e.isCompleted && e.isSnoozed
    ensures s == Overdue <==> !e.isCompleted && !e.isSnoozed && e.dueDate < now
    ensures s == Pending <==> !e.isCompleted && !e.isSnoozed && e.dueDate >= now
  {
    if e.isCompleted then Completed
    else if e.isSnoozed then Snoozed
    else if e.dueDate < now then Overdue
    else Pending
  }

  function StatusName(s: EntryStatus): string
  {
    match s
    case Completed => "Completed"
    case Snoozed => "Snoozed"
    case Overdue => "Overdue"
    case Pending => "Pending"
  }

  /** `getStatusText`. */
  function StatusText(e: ScheduleEntry, now: Types.Millis): string
  {
    if e.isCompleted then "Completed"
    else if e.isSnoozed then "Snoozed"
    else if e.dueDate < now then "Overdue"
    else "Pending"
  }

  /** `getStatusIcon`: the icon and its colour class. */
  function StatusIcon(e: ScheduleEntry, now: Types.Millis): string
  {
    if e.isCompleted then "CheckCircle2 text-emerald-500"
    else if e.isSnoozed then "Pause text-orange-500"
    else if e.dueDate < now then "XCircle text-red-500"
    else "Clock text-blue-500"
  }

  /** `getStatusColor`. */
  function StatusColor(e: ScheduleEntry, now: Types.Millis): string
  {
    if e.isCompleted then "bg-emerald-50 border-emerald-200"
    else if e.isSnoozed then "bg-orange-50 border-orange-200"
    else if e.dueDate < now then "bg-red-50 border-red-200"
    else "bg-blue-50 border-blue-200"
  }

  function IconOf(s: EntryStatus): string
  {
    match s
    case Completed => "CheckCircle2 text-emerald-500"
    case Snoozed => "Pause text-orange-500"
    case Overdue => "XCircle text-red-500"
    case Pending => "Clock text-blue-500"
  }

  function ColorOf(s: EntryStatus): string
  {
    match s
    case Completed => "bg-emerald-50 border-emerald-200"
    case Snoozed => "bg-orange-50 border-orange-200"
    case Overdue => "bg-red-50 border-red-200"
    case Pending => "bg-blue-50 border-blue-200"
  }

  /** The text, icon and colour helpers each follow the same precedence,
      and the four statuses have distinct texts. */
  lemma StatusHelpersAgree(e: ScheduleEntry, now: Types.Millis)
    ensures StatusText(e, now) == StatusName(StatusOf(e, now))
    ensures StatusIcon(e, now) == IconOf(StatusOf(e, now))
    ensures StatusColor(e, now) == ColorOf(StatusOf(e, now))
  {
  }

  lemma StatusNameInjective(a: EntryStatus, b: EntryStatus)
    ensures StatusName(a) == StatusName(b) ==> a == b
  {
  }

  /** `getRatingColor`. */
  function RatingColor(rating: string): (r: string)
    ensures rating !in RatingNames ==> r == "bg-gray-100 text-gray-700"
  {
    if rating == "Easy" then "bg-emerald-100 text-emerald-700"
    else if rating == "Good" then "bg-blue-100 text-blue-700"
    else if rating == "Hard" then "bg-orange-100 text-orange-700"
    else if rating == "Again" then "bg-red-100 text-red-700"
    else "bg-gray-100 text-gray-700"
  }

  /** Each of the four ratings gets a badge class of its own, and none of
      them gets the grey default. */
  lemma RatingColorsDistinct(i: nat, j: nat)
    requires i < |RatingNames| && j < |RatingNames|
    ensures RatingColor(RatingNames[i]) != "bg-gray-100 text-gray-700"
    ensures RatingColor(RatingNames[i]) == RatingColor(RatingNames[j]) ==> i == j
  {
  }

  // ---------------------------------------------------------------------
  // Statistics
  // ---------------------------------------------------------------------

  predicate IsCompletedEntry(e: ScheduleEntry) { e.isCompleted }

  /** `e.completedAt && e.completedAt <= e.dueDate`. */
  predicate CompletedOnTime(e: ScheduleEntry) { e.completedAt.Some? && e.completedAt.value <= e.dueDate }

  function MinutesOf(e: ScheduleEntry): int { e.actualMinutes.GetOr(0) }

  /** The total of the completed entries' minutes (`|| 0` for a missing
      one). */
  function TotalMinutes(es: seq<ScheduleEntry>): int
  {
    SumBy(Filter(es, IsCompletedEntry), MinutesOf)
  }

  /** The rounded mean minutes of the completed entries, 0 when none is
      completed. */
  function AvgMinutes(es: seq<ScheduleEntry>): (r: int)
    ensures Count(es, IsCompletedEntry) == 0 ==> r == 0
    ensures var n := Count(es, IsCompletedEntry);
            n > 0 ==> 2 * n * r - n <= 2 * TotalMinutes(es) < 2 * n * r + n
  {
    var done := Filter(es, IsCompletedEntry);
    CountIsFilterLength(es, IsCompletedEntry);
    if |done| > 0 then
      RoundBracket(TotalMinutes(es), |done|);
      Round(TotalMinutes(es) as real / |done| as real)
    else 0
  }

  predicate DueByNow(e: ScheduleEntry, now: Types.Millis) { e.dueDate <= now }

  /** The entries due by `now`, floored at 1 so the division is defined:
      the count itself once anything is due, and never more than the
      schedule's length. */
  function DueDenominator(es: seq<ScheduleEntry>, now: Types.Millis): (d: int)
    ensures d >= 1 && d >= Count(es, (e: ScheduleEntry) => DueByNow(e, now))
    ensures Count(es, (e: ScheduleEntry) => DueByNow(e, now)) > 0 ==> d == Count(es, (e: ScheduleEntry) => DueByNow(e, now))
    ensures es != [] ==> d <= |es|
    ensures Count(es, (e: ScheduleEntry) => DueByNow(e, now)) == 0 ==> d == 1
  {
    Max(1, Count(es, (e: ScheduleEntry) => DueByNow(e, now)))
  }

  /** The schedule's on-time rate: 100 for an empty schedule, otherwise the
      share of completed-on-time entries among those due by now, as a
      percentage rounded half up. */
  function OnTimeRate(es: seq<ScheduleEntry>, now: Types.Millis): (r: int)
    ensures es == [] ==> r == 100
    ensures r >= 0
    ensures var onTime := Count(Filter(es, IsCompletedEntry), CompletedOnTime);
            var den := DueDenominator(es, now);
            es != [] ==> 2 * den * r - den <= 200 * onTime < 2 * den * r + den
  {
    if |es| > 0 then
      var onTime := Count(Filter(es, IsCompletedEntry), CompletedOnTime);
      var den := DueDenominator(es, now);
      PercentBracket(onTime, den);
      Round(onTime as real / den as real * 100.0)
    else 100
  }

  /** A schedule wholly due and wholly completed on time scores exactly
      100. */
  lemma OnTimeRateAllOnTime(es: seq<ScheduleEntry>, now: Types.Millis)
    requires es != []
    requires forall k :: 0 <= k < |es| ==> es[k].isCompleted && CompletedOnTime(es[k]) && DueByNow(es[k], now)
    ensures OnTimeRate(es, now) == 100
  {
    var n := |es|;
    FilterAll(es, IsCompletedEntry);
    FilterAll(es, CompletedOnTime);
    CountIsFilterLength(es, CompletedOnTime);
    var due := (e: ScheduleEntry) => DueByNow(e, now);
    FilterAll(es, due);
    CountIsFilterLength(es, due);
    BracketPins(n, OnTimeRate(es, now), 100);
  }

  /** Completed minutes are at least 20 and below 50 each for generated
      entries, so the mean lies in that range once anything is completed. */
  lemma AvgMinutesOfGenerated(es: seq<ScheduleEntry>)
    requires forall k :: 0 <= k < |es| && es[k].isCompleted ==>
               es[k].actualMinutes.Some? && 20 <= es[k].actualMinutes.value < 50
    requires Count(es, IsCompletedEntry) > 0
    ensures 20 <= AvgMinutes(es) <= 50
  {
    var done := Filter(es, IsCompletedEntry);
    CountIsFilterLength(es, IsCompletedEntry);
    CompletedMinutesWithin(es);
    SumByBounds(done, MinutesOf, 20, 50);
    IntMeanWithin(TotalMinutes(es), |done|, 20, 50);
  }

  lemma CompletedMinutesWithin(es: seq<ScheduleEntry>)
    requires forall k :: 0 <= k < |es| && es[k].isCompleted ==>
               es[k].actualMinutes.Some? && 20 <= es[k].actualMinutes.value < 50
    ensures var done := Filter(es, IsCompletedEntry);
            forall i :: 0 <= i < |done| ==> 20 <= MinutesOf(done[i]) <= 50
  {
    var done := Filter(es, IsCompletedEntry);
    FilterMembers(es, IsCompletedEntry);
    forall i | 0 <= i < |done| ensures 20 <= MinutesOf(done[i]) <= 50 {
      var j :| 0 <= j < |es| && es[j] == done[i];
    }
  }

  /** The rate is not clamped: an entry completed on time but due after
      `now` counts above the line and not below it, so the rate can exceed
      100. */
  lemma OnTimeRateCanExceed100()
    ensures var e := ScheduleEntry("t_cycle_7", 7, 10, true, Some(5), false, None, Some("Good"), Some(30));
            var f := ScheduleEntry("t_cycle_14", 14, 20, true, Some(15), false, None, Some("Good"), Some(30));
            OnTimeRate([e, f], 0) == 200
  {
    var e := ScheduleEntry("t_cycle_7", 7, 10, true, Some(5), false, None, Some("Good"), Some(30));
    var f := ScheduleEntry("t_cycle_14", 14, 20, true, Some(15), false, None, Some("Good"), Some(30));
    var es := [e, f];
    assert Filter(es, IsCompletedEntry) == es by {
      FilterAll(es, IsCompletedEntry);
    }
    assert Count(es, CompletedOnTime) == 2;
    assert Count(es, (x: ScheduleEntry) => DueByNow(x, 0)) == 0;
  }

  // ---------------------------------------------------------------------
  // Upcoming
  // ---------------------------------------------------------------------

  predicate IsUpcoming(e: ScheduleEntry, now: Types.Millis) { e.dueDate > now && !e.isSnoozed }

  function UpcomingTest(now: Types.Millis): ScheduleEntry -> bool
  {
    e => IsUpcoming(e, now)
  }

  /** "Next Scheduled Revisions": the first three entries due after now
      and not snoozed, in schedule order. */
  function Upcoming(es: seq<ScheduleEntry>, now: Types.Millis): (r: seq<ScheduleEntry>)
    ensures |r| <= 3
  {
    var due := Filter(es, UpcomingTest(now));
    if |due| <= 3 then due else due[..3]
  }

  /** Every upcoming entry is a due, unsnoozed entry of the schedule, and
      when fewer than three are listed, every such entry is listed. */
  lemma UpcomingMembers(es: seq<ScheduleEntry>, now: Types.Millis)
    ensures var r := Upcoming(es, now);
            && (forall i :: 0 <= i < |r| ==> r[i] in es && IsUpcoming(r[i], now))
            && (|r| < 3 ==> forall i :: 0 <= i < |es| && IsUpcoming(es[i], now) ==> es[i] in r)
  {
    var p := UpcomingTest(now);
    var due := Filter(es, p);
    FilterMembers(es, p);
    if |due| > 3 {
      forall i | 0 <= i < 3 ensures due[..3][i] in es && IsUpcoming(due[..3][i], now) {
        assert due[..3][i] == due[i];
        assert due[i] in es && p(due[i]);
      }
    }
  }

  /** The list is the first three eligible entries in schedule order: it
      holds three entries, or all of them when fewer are eligible, and it
      is exactly what filtering some leading part of the schedule keeps,
      that part being the whole schedule unless three are listed. */
  lemma UpcomingFirstThree(es: seq<ScheduleEntry>, now: Types.Millis)
    ensures |Upcoming(es, now)| == Min(3, Count(es, UpcomingTest(now)))
    ensures exists k :: 0 <= k <= |es| && Upcoming(es, now) == Filter(es[..k], UpcomingTest(now))
                        && (k == |es| || |Upcoming(es, now)| == 3)
  {
    var p := UpcomingTest(now);
    var due := Filter(es, p);
    CountIsFilterLength(es, p);
    if |due| <= 3 {
      assert es[..|es|] == es;
    } else {
      FilterPrefixCut(es, p, 3);
    }
  }
}
