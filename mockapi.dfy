/** The in-memory API the pages call: the module-level topic and schedule
    arrays with create/update/delete, the single-schedule snooze, and the
    settings defaults with their override. Time is the `now` parameter. */
module MockApi {
  import opened Wrappers
  import opened Types
  import Seqs
  import Text

  /** `Omit<Topic, 'id' | 'createdAt' | 'updatedAt'>`: what a caller of
      `createTopic` supplies. */
  datatype TopicInput = TopicInput(
    subject: string,
    title: string,
    subTopic: Option<string>,
    firstStudied: Option<Millis>,
    estimatedMinutes: int,
    weightage: Score,
    difficulty: Score,
    masteryLevel: Mastery,
    mustWin: bool,
    isArchived: bool)

  /** `Partial<Topic>`: each declared field present or absent. A present
      `firstStudied` may itself be `null`. */
  datatype TopicPatch = TopicPatch(
    id: Option<string>,
    subject: Option<string>,
    title: Option<string>,
    firstStudied: Option<Option<Millis>>,
    estimatedMinutes: Option<int>,
    weightage: Option<Score>,
    difficulty: Option<Score>,
    masteryLevel: Option<Mastery>,
    mustWin: Option<bool>,
    isArchived: Option<bool>,
    createdAt: Option<Millis>,
    updatedAt: Option<Millis>)

  const NoChanges := TopicPatch(None, None, None, None, None, None, None, None, None, None, None, None)

  /** The topic `createTopic` builds: the input, the id
      `Date.now().toString()` and both timestamps at `now`. */
  function NewTopic(input: TopicInput, now: Millis): (t: Topic)
    ensures t.id == Text.IntToString(now)
    ensures t.createdAt == now && t.updatedAt == now
  {
    Topic(Text.IntToString(now), input.subject, input.title, input.subTopic, input.firstStudied,
          input.estimatedMinutes, input.weightage, input.difficulty, input.masteryLevel,
          input.mustWin, input.isArchived, now, now)
  }

  /** The fields of a topic a caller could have supplied. */
  function InputOf(t: Topic): TopicInput
  {
    TopicInput(t.subject, t.title, t.subTopic, t.firstStudied, t.estimatedMinutes,
               t.weightage, t.difficulty, t.masteryLevel, t.mustWin, t.isArchived)
  }

  /** A created topic carries exactly the caller's fields. */
  lemma NewTopicKeepsInput(input: TopicInput, now: Millis)
    ensures InputOf(NewTopic(input, now)) == input
  {
  }

  /** `{ ...topic, ...updates, updatedAt: new Date() }`. */
  function ApplyPatch(t: Topic, p: TopicPatch, now: Millis): (r: Topic)
    ensures r.updatedAt == now
    ensures r.subTopic == t.subTopic
  {
    Topic(
      p.id.GetOr(t.id), p.subject.GetOr(t.subject), p.title.GetOr(t.title), t.subTopic,
      p.firstStudied.GetOr(t.firstStudied), p.estimatedMinutes.GetOr(t.estimatedMinutes),
      p.weightage.GetOr(t.weightage), p.difficulty.GetOr(t.difficulty),
      p.masteryLevel.GetOr(t.masteryLevel), p.mustWin.GetOr(t.mustWin),
      p.isArchived.GetOr(t.isArchived), p.createdAt.GetOr(t.createdAt), now)
  }

  /** An empty patch changes nothing but the update time. */
  lemma ApplyNoChanges(t: Topic, now: Millis)
    ensures ApplyPatch(t, NoChanges, now) == t.(updatedAt := now)
  {
  }

  /** Applying the same patch twice is applying it once. */
  lemma ApplyPatchIdempotent(t: Topic, p: TopicPatch, now: Millis)
    ensures ApplyPatch(ApplyPatch(t, p, now), p, now) == ApplyPatch(t, p, now)
  {
  }

  /** Every field the patch leaves out keeps its value, and every one it
      supplies takes the supplied value; a supplied `updatedAt` loses to the
      update time. */
  lemma ApplyPatchFields(t: Topic, p: TopicPatch, now: Millis)
    ensures var r := ApplyPatch(t, p, now);
            && (p.id.None? ==> r.id == t.id) && (p.id.Some? ==> r.id == p.id.value)
            && (p.title.None? ==> r.title == t.title) && (p.title.Some? ==> r.title == p.title.value)
            && (p.subject.None? ==> r.subject == t.subject) && (p.subject.Some? ==> r.subject == p.subject.value)
            && (p.firstStudied.None? ==> r.firstStudied == t.firstStudied)
            && (p.firstStudied.Some? ==> r.firstStudied == p.firstStudied.value)
            && (p.estimatedMinutes.None? ==> r.estimatedMinutes == t.estimatedMinutes)
            && (p.estimatedMinutes.Some? ==> r.estimatedMinutes == p.estimatedMinutes.value)
            && (p.weightage.None? ==> r.weightage == t.weightage)
            && (p.weightage.Some? ==> r.weightage == p.weightage.value)
            && (p.difficulty.None? ==> r.difficulty == t.difficulty)
            && (p.difficulty.Some? ==> r.difficulty == p.difficulty.value)
            && (p.masteryLevel.None? ==> r.masteryLevel == t.masteryLevel)
            && (p.masteryLevel.Some? ==> r.masteryLevel == p.masteryLevel.value)
            && (p.mustWin.None? ==> r.mustWin == t.mustWin)
            && (p.mustWin.Some? ==> r.mustWin == p.mustWin.value)
            && (p.isArchived.None? ==> r.isArchived == t.isArchived)
            && (p.isArchived.Some? ==> r.isArchived == p.isArchived.value)
            && (p.createdAt.None? ==> r.createdAt == t.createdAt)
            && (p.createdAt.Some? ==> r.createdAt == p.createdAt.value)
            && r.updatedAt == now
  {
  }

  /** `findIndex(t => t.id === id)`. */
  function TopicIndex(ts: seq<Topic>, id: string): (r: Option<nat>)
    ensures r.None? <==> forall k :: 0 <= k < |ts| ==> ts[k].id != id
    ensures r.Some? ==> r.value < |ts| && ts[r.value].id == id
                        && forall k :: 0 <= k < r.value ==> ts[k].id != id
  {
    Seqs.FindIndex(ts, (t: Topic) => t.id == id)
  }

  /** `find(s => s.id === scheduleId)`, as a position. */
  function ScheduleIndex(ss: seq<RevisionSchedule>, id: string): (r: Option<nat>)
    ensures r.None? <==> forall k :: 0 <= k < |ss| ==> ss[k].id != id
    ensures r.Some? ==> r.value < |ss| && ss[r.value].id == id
                        && forall k :: 0 <= k < r.value ==> ss[k].id != id
  {
    Seqs.FindIndex(ss, (s: RevisionSchedule) => s.id == id)
  }

  /** The topic list after `updateTopic`, or its error. */
  function UpdatedTopics(ts: seq<Topic>, id: string, p: TopicPatch, now: Millis): (r: Result<seq<Topic>, string>)
    ensures r.Err? <==> forall k :: 0 <= k < |ts| ==> ts[k].id != id
    ensures r.Err? ==> r.error == "Topic not found"
  {
    match TopicIndex(ts, id)
    case None => Err("Topic not found")
    case Some(i) => Ok(ts[i := ApplyPatch(ts[i], p, now)])
  }

  /** The topic list after `deleteTopic`, or its error. */
  function DeletedTopics(ts: seq<Topic>, id: string): (r: Result<seq<Topic>, string>)
    ensures r.Err? <==> forall k :: 0 <= k < |ts| ==> ts[k].id != id
    ensures r.Err? ==> r.error == "Topic not found"
    ensures r.Ok? ==> |r.value| == |ts| - 1
  {
    match TopicIndex(ts, id)
    case None => Err("Topic not found")
    case Some(i) => Ok(ts[..i] + ts[i + 1..])
  }

  /** An update keeps the length, changes only the first topic with the
      id, and that one becomes the patched topic. */
  lemma UpdateChangesOneTopic(ts: seq<Topic>, id: string, p: TopicPatch, now: Millis, j: nat)
    requires UpdatedTopics(ts, id, p, now).Ok? && j < |ts|
    ensures var r := UpdatedTopics(ts, id, p, now).value;
            var i := TopicIndex(ts, id).value;
            && |r| == |ts|
            && r[i] == ApplyPatch(ts[i], p, now)
            && (j != i ==> r[j] == ts[j])
  {
  }

  /** A delete drops exactly the first topic with the id: the topics before
      it stay in place and the ones after it move up by one. */
  lemma DeleteRemovesFirstMatch(ts: seq<Topic>, id: string, j: nat)
    requires DeletedTopics(ts, id).Ok? && j < |ts| - 1
    ensures var r := DeletedTopics(ts, id).value;
            var i := TopicIndex(ts, id).value;
            && (j < i ==> r[j] == ts[j])
            && (j >= i ==> r[j] == ts[j + 1])
  {
  }

  /** Deleting a topic just created with a fresh id restores the list. */
  lemma DeleteUndoesCreate(ts: seq<Topic>, input: TopicInput, now: Millis)
    requires forall k :: 0 <= k < |ts| ==> ts[k].id != Text.IntToString(now)
    ensures DeletedTopics(ts + [NewTopic(input, now)], Text.IntToString(now)) == Ok(ts)
  {
    var t := NewTopic(input, now);
    var s := ts + [t];
    assert s[|ts|].id == Text.IntToString(now);
    assert TopicIndex(s, t.id) == Some(|ts|);
    assert s[..|ts|] == ts;
    assert s[|ts| + 1..] == [];
    assert s[..|ts|] + s[|ts| + 1..] == ts;
  }

  /** What the snooze writes into the found schedule. */
  function SnoozeRecord(s: RevisionSchedule, days: int, cascade: bool, now: Millis): (r: RevisionSchedule)
    ensures r.isSnoozed && r.snoozeDays == days && r.cascadeSnoozed == cascade
    ensures r.snoozeDate == Some(now + days * DayMs)
    ensures r.dueDate == s.dueDate && r.id == s.id && r.topicId == s.topicId && r.cycle == s.cycle
    ensures r.isCompleted == s.isCompleted && r.completedAt == s.completedAt && r.createdAt == s.createdAt
  {
    s.(isSnoozed := true, snoozeDays := days, snoozeDate := Some(now + days * DayMs), cascadeSnoozed := cascade)
  }

  /** The three dates `snoozeTopic` reports: 7, 14 and 21 days after the
      snooze date. */
  function FollowOnDates(snoozeDate: Millis): (r: seq<Millis>)
    ensures |r| == 3
    ensures forall k :: 0 <= k < |r| ==> r[k] == snoozeDate + 7 * (k + 1) * DayMs
  {
    [snoozeDate + 7 * DayMs, snoozeDate + 14 * DayMs, snoozeDate + 21 * DayMs]
  }

  /** The follow-on dates are strictly increasing, one week apart, and all
      after the snooze date. */
  lemma FollowOnDatesSpacing(snoozeDate: Millis)
    ensures var r := FollowOnDates(snoozeDate);
            && (forall k :: 0 <= k < |r| - 1 ==> r[k + 1] - r[k] == 7 * DayMs)
            && (forall k :: 0 <= k < |r| ==> r[k] > snoozeDate)
            && (forall i, j :: 0 <= i < j < |r| ==> r[i] < r[j])
  {
  }

  /** The schedule list after `snoozeTopic`, or its error. Cascading is only
      recorded: no other schedule moves. */
  function SnoozedSchedules(ss: seq<RevisionSchedule>, id: string, days: int, cascade: bool, now: Millis)
    : (r: Result<seq<RevisionSchedule>, string>)
    ensures r.Err? <==> forall k :: 0 <= k < |ss| ==> ss[k].id != id
    ensures r.Err? ==> r.error == "Schedule not found"
    ensures r.Ok? ==> |r.value| == |ss|
  {
    match ScheduleIndex(ss, id)
    case None => Err("Schedule not found")
    case Some(i) => Ok(ss[i := SnoozeRecord(ss[i], days, cascade, now)])
  }

  /** Only the first schedule with the id changes, even when `cascade` is
      set, and no due date moves. */
  lemma SnoozeChangesOneSchedule(ss: seq<RevisionSchedule>, id: string, days: int, cascade: bool, now: Millis, j: nat)
    requires SnoozedSchedules(ss, id, days, cascade, now).Ok? && j < |ss|
    ensures var r := SnoozedSchedules(ss, id, days, cascade, now).value;
            && r[j].dueDate == ss[j].dueDate
            && (ScheduleIndex(ss, id) != Some(j) ==> r[j] == ss[j])
            && (ScheduleIndex(ss, id) == Some(j) ==> r[j].isSnoozed && r[j].snoozeDays == days)
  {
  }

  /** The module arrays `mockTopics` and `mockSchedules`. */
  class Store {
    var topics: seq<Topic>
    var schedules: seq<RevisionSchedule>

    constructor(initialTopics: seq<Topic>, initialSchedules: seq<RevisionSchedule>)
      ensures topics == initialTopics && schedules == initialSchedules
    {
      topics := initialTopics;
      schedules := initialSchedules;
    }

    /** `getTopics`: a copy of the topic list. */
    method GetTopics() returns (r: seq<Topic>)
      ensures r == topics
    {
      r := topics;
    }

    /** `createTopic`: append the new topic and return it. */
    method CreateTopic(input: TopicInput, now: Millis) returns (t: Topic)
      modifies this
      ensures t == NewTopic(input, now)
      ensures topics == old(topics) + [t]
      ensures schedules == old(schedules)
    {
      t := NewTopic(input, now);
      topics := topics + [t];
    }

    /** `updateTopic`: patch the first topic with the id in place, or throw
      'Topic not found'. */
    method UpdateTopic(id: string, updates: TopicPatch, now: Millis) returns (r: Result<Topic, string>)
      modifies this
      ensures UpdatedTopics(old(topics), id, updates, now).Err? ==>
                r == Err("Topic not found") && topics == old(topics)
      ensures UpdatedTopics(old(topics), id, updates, now).Ok? ==>
                topics == UpdatedTopics(old(topics), id, updates, now).value
                && r == Ok(topics[TopicIndex(old(topics), id).value])
      ensures schedules == old(schedules)
    {
      var index := TopicIndex(topics, id);
      if index.None? {
        return Err("Topic not found");
      }
      var i := index.value;
      topics := topics[i := ApplyPatch(topics[i], updates, now)];
      r := Ok(topics[i]);
    }

    /** `deleteTopic`: splice out the first topic with the id, or throw
        'Topic not found'. */
    method DeleteTopic(id: string) returns (r: Result<(), string>)
      modifies this
      ensures DeletedTopics(old(topics), id).Err? ==>
                r == Err("Topic not found") && topics == old(topics)
      ensures DeletedTopics(old(topics), id).Ok? ==>
                r == Ok(()) && topics == DeletedTopics(old(topics), id).value
      ensures schedules == old(schedules)
    {
      var index := TopicIndex(topics, id);
      if index.None? {
        return Err("Topic not found");
      }
      var i := index.value;
      topics := topics[..i] + topics[i + 1..];
      r := Ok(());
    }

    /** `snoozeTopic`: mark the found schedule snoozed for `days` from now
        and report the three follow-on dates, or throw 'Schedule not found'. */
    method SnoozeTopic(scheduleId: string, days: int, cascade: bool, now: Millis)
      returns (r: Result<seq<Millis>, string>)
      modifies this
      ensures SnoozedSchedules(old(schedules), scheduleId, days, cascade, now).Err? ==>
                r == Err("Schedule not found") && schedules == old(schedules)
      ensures SnoozedSchedules(old(schedules), scheduleId, days, cascade, now).Ok? ==>
                schedules == SnoozedSchedules(old(schedules), scheduleId, days, cascade, now).value
                && r == Ok(FollowOnDates(now + days * DayMs))
      ensures topics == old(topics)
    {
      var index := ScheduleIndex(schedules, scheduleId);
      if index.None? {
        return Err("Schedule not found");
      }
      var i := index.value;
      var schedule := SnoozeRecord(schedules[i], days, cascade, now);
      schedules := schedules[i := schedule];
      r := Ok(FollowOnDates(schedule.snoozeDate.value));
    }
  }

  /** `getSettings`: the fixed defaults. */
  const DefaultSettings := UserSettings(45, "09:00", "21:00", true, [15, 30, 45, 60], false, "Asia/Kolkata")

  const NoSettingsChanges := SettingsPatch(None, None, None, None, None, None, None)

  /** `{ ...base, ...patch }` over settings. */
  function MergeSettings(base: UserSettings, p: SettingsPatch): (r: UserSettings)
    ensures p.dailyCapacityMinutes.None? ==> r.dailyCapacityMinutes == base.dailyCapacityMinutes
    ensures p.dailyCapacityMinutes.Some? ==> r.dailyCapacityMinutes == p.dailyCapacityMinutes.value
    ensures p.pushWindowStart.None? ==> r.pushWindowStart == base.pushWindowStart
    ensures p.pushWindowStart.Some? ==> r.pushWindowStart == p.pushWindowStart.value
    ensures p.pushWindowEnd.None? ==> r.pushWindowEnd == base.pushWindowEnd
    ensures p.pushWindowEnd.Some? ==> r.pushWindowEnd == p.pushWindowEnd.value
    ensures p.enableCascadeSnoozByDefault.None? ==> r.enableCascadeSnoozByDefault == base.enableCascadeSnoozByDefault
    ensures p.enableCascadeSnoozByDefault.Some? ==> r.enableCascadeSnoozByDefault == p.enableCascadeSnoozByDefault.value
    ensures p.timerQuickPresets.None? ==> r.timerQuickPresets == base.timerQuickPresets
    ensures p.timerQuickPresets.Some? ==> r.timerQuickPresets == p.timerQuickPresets.value
    ensures p.anonymizeOnLeaderboards.None? ==> r.anonymizeOnLeaderboards == base.anonymizeOnLeaderboards
    ensures p.anonymizeOnLeaderboards.Some? ==> r.anonymizeOnLeaderboards == p.anonymizeOnLeaderboards.value
    ensures p.timezone.None? ==> r.timezone == base.timezone
    ensures p.timezone.Some? ==> r.timezone == p.timezone.value
  {
    UserSettings(
      p.dailyCapacityMinutes.GetOr(base.dailyCapacityMinutes),
      p.pushWindowStart.GetOr(base.pushWindowStart),
      p.pushWindowEnd.GetOr(base.pushWindowEnd),
      p.enableCascadeSnoozByDefault.GetOr(base.enableCascadeSnoozByDefault),
      p.timerQuickPresets.GetOr(base.timerQuickPresets),
      p.anonymizeOnLeaderboards.GetOr(base.anonymizeOnLeaderboards),
      p.timezone.GetOr(base.timezone))
  }

  /** `updateSettings`: the defaults overridden by the supplied fields. The
      result is not stored, so each call starts from the defaults again. */
  function UpdateSettings(p: SettingsPatch): (r: UserSettings)
    ensures p == NoSettingsChanges ==> r == DefaultSettings
    ensures p.dailyCapacityMinutes.None? ==> r.dailyCapacityMinutes == 45
    ensures p.timerQuickPresets.None? ==> r.timerQuickPresets == [15, 30, 45, 60]
  {
    MergeSettings(DefaultSettings, p)
  }

  /** Merging is idempotent, and merging nothing changes nothing. */
  lemma MergeSettingsIdempotent(base: UserSettings, p: SettingsPatch)
    ensures MergeSettings(MergeSettings(base, p), p) == MergeSettings(base, p)
    ensures MergeSettings(base, NoSettingsChanges) == base
  {
  }

  /** The later of two options when it is present, else the earlier. */
  function Later<T>(later: Option<T>, earlier: Option<T>): Option<T>
  {
    if later.Some? then later else earlier
  }

  /** Two settings patches in turn, as one patch: the later field wins. */
  function ThenSettings(first: SettingsPatch, second: SettingsPatch): SettingsPatch
  {
    SettingsPatch(
      Later(second.dailyCapacityMinutes, first.dailyCapacityMinutes),
      Later(second.pushWindowStart, first.pushWindowStart),
      Later(second.pushWindowEnd, first.pushWindowEnd),
      Later(second.enableCascadeSnoozByDefault, first.enableCascadeSnoozByDefault),
      Later(second.timerQuickPresets, first.timerQuickPresets),
      Later(second.anonymizeOnLeaderboards, first.anonymizeOnLeaderboards),
      Later(second.timezone, first.timezone))
  }

  /** A later patch wins over an earlier one field by field: two merges in
      turn are one merge of the composed patch, and every field the later
      patch supplies ends up with the later value. */
  lemma MergeSettingsLaterWins(base: UserSettings, p: SettingsPatch, q: SettingsPatch)
    ensures MergeSettings(MergeSettings(base, p), q) == MergeSettings(base, ThenSettings(p, q))
    ensures var r := MergeSettings(MergeSettings(base, p), q);
            && (q.dailyCapacityMinutes.Some? ==> r.dailyCapacityMinutes == q.dailyCapacityMinutes.value)
            && (q.pushWindowStart.Some? ==> r.pushWindowStart == q.pushWindowStart.value)
            && (q.pushWindowEnd.Some? ==> r.pushWindowEnd == q.pushWindowEnd.value)
            && (q.enableCascadeSnoozByDefault.Some? ==> r.enableCascadeSnoozByDefault == q.enableCascadeSnoozByDefault.value)
            && (q.timerQuickPresets.Some? ==> r.timerQuickPresets == q.timerQuickPresets.value)
            && (q.anonymizeOnLeaderboards.Some? ==> r.anonymizeOnLeaderboards == q.anonymizeOnLeaderboards.value)
            && (q.timezone.Some? ==> r.timezone == q.timezone.value)
  {
  }
}
