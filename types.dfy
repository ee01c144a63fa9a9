/** The planner's data types: topics, revision schedules, timer sessions,
    card summaries, leaderboard entries and user settings. Dates are
    milliseconds since the epoch; the range comments of the interfaces
    become subset types. */
module Types {
  import opened Wrappers

  /** A point in time, in milliseconds since the epoch. */
  type Millis = int

  /** One day in milliseconds. */
  const DayMs: int := 86400000

  /** A weightage or difficulty mark, between 1 and 5. */
  type Score = x: int | 1 <= x <= 5 witness 3

  /** The revision cycles, in days. */
  type Cycle = c: int | c == 7 || c == 14 || c == 21 || c == 28 witness 7

  datatype Mastery = Beginner | Intermediate | Advanced | Mastered

  /** The text each mastery level is written as. */
  function MasteryName(m: Mastery): string
  {
    match m
    case Beginner => "Beginner"
    case Intermediate => "Intermediate"
    case Advanced => "Advanced"
    case Mastered => "Mastered"
  }

  /** Reading a mastery level from its text; anything else is no level. */
  function ParseMastery(s: string): (r: Option<Mastery>)
    ensures r.Some? ==> MasteryName(r.value) == s
    ensures r.None? ==> forall m: Mastery :: MasteryName(m) != s
  {
    if s == "Beginner" then Some(Beginner)
    else if s == "Intermediate" then Some(Intermediate)
    else if s == "Advanced" then Some(Advanced)
    else if s == "Mastered" then Some(Mastered)
    else None
  }

  /** Every level reads back from its own text. */
  lemma ParseMasteryName(m: Mastery)
    ensures ParseMastery(MasteryName(m)) == Some(m)
  {
  }

  /** A self-assessment after a revision session. */
  datatype Rating = Again | Hard | Good | Easy

  /** Where a topic card stands. */
  datatype DueStatus = DueToday | Overdue | Snoozed

  function DueStatusName(d: DueStatus): string
  {
    match d
    case DueToday => "Due Today"
    case Overdue => "Overdue"
    case Snoozed => "Snoozed"
  }

  /** The three card labels are distinct, so the label determines the
      status. */
  lemma DueStatusNameInjective(a: DueStatus, b: DueStatus)
    ensures DueStatusName(a) == DueStatusName(b) ==> a == b
  {
  }

  /** A study topic. `subTopic` is read by the topic manager's search
      although the interface does not declare it. */
  datatype Topic = Topic(
    id: string,
    subject: string,
    title: string,
    subTopic: Option<string>,
    firstStudied: Option<Millis>,
    estimatedMinutes: int,
    weightage: Score,
    difficulty: Score,
    masteryLevel: Mastery,
    mustWin: bool,
    isArchived: bool,
    createdAt: Millis,
    updatedAt: Millis)

  /** One scheduled revision of a topic. */
  datatype RevisionSchedule = RevisionSchedule(
    id: string,
    topicId: string,
    cycle: Cycle,
    dueDate: Millis,
    isCompleted: bool,
    completedAt: Option<Millis>,
    isSnoozed: bool,
    snoozeDate: Option<Millis>,
    snoozeDays: int,
    cascadeSnoozed: bool,
    createdAt: Millis)

  /** A timed revision session. */
  datatype RevisionSession = RevisionSession(
    id: string,
    topicId: string,
    scheduleId: string,
    startTime: Millis,
    endTime: Option<Millis>,
    plannedSeconds: int,
    actualSeconds: int,
    rating: Option<Rating>,
    notes: string,
    isPaused: bool,
    pausedAt: Option<Millis>,
    isCompleted: bool)

  datatype SnoozeInfo = SnoozeInfo(days: int, startsIn: string, cascading: bool)

  /** What a topic card on the dashboard shows. */
  datatype TopicCardData = TopicCardData(
    id: string,
    subject: string,
    title: string,
    cycle: Cycle,
    dueStatus: DueStatus,
    estimatedMinutes: int,
    progress: seq<bool>,
    nextDates: seq<Millis>,
    scheduleId: string,
    daysOverdue: Option<int>,
    snoozeInfo: Option<SnoozeInfo>)

  datatype KPIData = KPIData(
    dueToday: int,
    overdue: int,
    completedToday: int,
    weeklyMinutes: int,
    onTimeRate: int,
    avgLateness: real,
    currentStreak: int,
    bestStreak: int,
    mostRevisedTopic: string,
    mostTimeSpentTopic: string,
    snoozeCount: int,
    weeklyMinutesSparkline: seq<int>)

  datatype DatedCount = DatedCount(date: Millis, count: int)
  datatype LabelCount = LabelCount(key: string, count: int)

  datatype AnalyticsData = AnalyticsData(
    kpis: KPIData,
    backlogBurndown: seq<DatedCount>,
    loadForecast: seq<DatedCount>,
    masteryDistribution: seq<LabelCount>,
    snoozeHeatmap: seq<LabelCount>,
    mostRevisedTopics: seq<LabelCount>,
    mostTimeSpentTopics: seq<LabelCount>)

  /** One row of a leaderboard as the pages display it. */
  datatype LeaderboardEntry = LeaderboardEntry(
    id: string,
    name: string,
    rank: int,
    onTimeRate: int,
    weeklyMinutes: int,
    avgTimePerRevision: int,
    consistency: int,
    coverage: int,
    isCurrentUser: Option<bool>)

  /** The comparison panel: four entries with the same metric fields. */
  datatype ComparisonData = ComparisonData(
    you: LeaderboardEntry,
    topper: LeaderboardEntry,
    average: LeaderboardEntry,
    struggling: LeaderboardEntry)

  /** The metric columns of the comparison panel, by field. */
  datatype Metric = WeeklyMinutes | AvgTimePerRevision | Consistency | Coverage

  function MetricOf(e: LeaderboardEntry, m: Metric): int
  {
    match m
    case WeeklyMinutes => e.weeklyMinutes
    case AvgTimePerRevision => e.avgTimePerRevision
    case Consistency => e.consistency
    case Coverage => e.coverage
  }

  datatype UserSettings = UserSettings(
    dailyCapacityMinutes: int,
    pushWindowStart: string,
    pushWindowEnd: string,
    enableCascadeSnoozByDefault: bool,
    timerQuickPresets: seq<int>,
    anonymizeOnLeaderboards: bool,
    timezone: string)

  /** `Partial<UserSettings>`: each field present or absent. */
  datatype SettingsPatch = SettingsPatch(
    dailyCapacityMinutes: Option<int>,
    pushWindowStart: Option<string>,
    pushWindowEnd: Option<string>,
    enableCascadeSnoozByDefault: Option<bool>,
    timerQuickPresets: Option<seq<int>>,
    anonymizeOnLeaderboards: Option<bool>,
    timezone: Option<string>)
}
