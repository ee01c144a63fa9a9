# Smart Study Cadence — a verified model of the planner's core

Smart Study Cadence is a personal study planner. A learner keeps a list of
study topics, works through spaced revisions of each one (7, 14, 21 and 28
days apart), times revision sessions, can snooze revisions, and is ranked
against peers by the share of revisions finished on time. This project
models the parts of the repository that hold that logic, in Dafny, and
proves what they promise:

- the leaderboard controller of the backend:
  - per-user metrics over a time window;
  - the ranked leaderboard;
  - the "you / average / topper / struggling" comparison.
- the in-memory mock API the front end talks to: topics, schedules,
  snoozing, settings.
- the revision components:
  - the schedule dialog;
  - the CSV import dialog;
  - the focus timer and the focus-mode page;
  - the settings dialog and the "snooze all" button;
  - the notification bell;
  - the topics manager and planner pages;
  - the leaderboards page;
  - the motivational section and the header navigation.
- the built-in topic catalogue.
- the four Redux store slices (admin, revision, user, analytics).
- the shared types.

Each source file has a module of its own:

| module | models |
|---|---|
| `Leaderboard` | the leaderboard controller |
| `MockApi` | the mock API |
| `Schedule` | the schedule dialog |
| `ImportCsv` | the CSV import dialog |
| `Countdown` | the focus timer |
| `FocusPage` | the focus-mode page |
| `SettingsEditor` | the settings dialog |
| `SnoozeAll` | the floating snooze button |
| `NotificationBell` | the notification centre |
| `TopicsManagerPage` | the topics manager page |
| `PlannerPage` | the planner page |
| `LeaderboardsPage` | the leaderboards page |
| `Motivation` | the motivational section |
| `Header` | the header navigation |
| `TopicCatalogue` | the topic catalogue |
| `AdminStore`, `RevisionStore`, `UserStore`, `AnalyticsStore` | the four store slices |
| `Types` | the shared types |

Four helper modules hold what the source takes from the JavaScript
runtime:

- `Wrappers`: `Option` and `Result`.
- `Numbers`: `Math.floor`, `Math.ceil`, `Math.round` and clamping.
- `Text`:
  - `parseInt` as ECMAScript defines it;
  - `trim`, `split` and `join`;
  - ASCII `toLowerCase`;
  - `includes`;
  - number-to-string conversion.
- `Seqs`:
  - `filter` and counting;
  - `findIndex`;
  - a stable sort, as `Array.prototype.sort` is;
  - the `[...new Set(...)]` de-duplication.

How the model is built:

- **Components and slices are classes.** Their state is held in fields:
  React `useState` values and Redux state.
- **Handlers are methods.** Each event handler or reducer is a method
  with a `modifies` clause. Its `ensures` states the whole new state.
- **The rest is functions.** Derived values, such as filters, badges,
  labels and statistics, are functions with lemmas about them.
- **Dates are integers.** A date is a number of milliseconds.
- **Time and randomness are parameters.** The clock (`Date.now()`, SQL
  `NOW()`) and `Math.random()` are passed in.
- **The backend's database is a value.** It holds the users, the
  sessions and the topics, and each SQL query becomes a function over it.

Where the written design and the code disagree, the model follows the
code:

- **Snoozing does not cascade.** `snoozeTopic` marks one schedule and
  returns three follow-on dates. It shifts no other entry, whatever the
  `cascade` flag says.
- **Equal on-time rates keep query order.** The leaderboard breaks no
  ties: it uses a stable sort only, so equal rates keep the order of the
  users query. `Leaderboard.StandingsTiesKeepQueryOrder` states this.
- **Consistency always divides by 7.** Distinct study days are divided by
  7 for every window, so a 30-day window can report more than 100.
- **Regeneration is not anchored at today.** "Regenerate" rebuilds the
  schedule from the topic's `firstStudied` date, although its message
  says "from today".
- **The on-time rate is not clamped.** In the schedule dialog it can
  exceed 100; `Schedule.OnTimeRateCanExceed100` shows an input.
- **The struggling bucket is never empty.** The controller takes it from
  index `floor(0.75 × N)`. For every N ≥ 1 that leaves at least one
  entry, so no special case for a small cohort is needed.

## Model

| member | source | states |
|---|---|---|
| Leaderboard.WindowInterval | backend-reference/leaderboardController.js:21 | "week" looks back 7 days, "month" 30 days, and any other window 10 years |
| Leaderboard.Percent | backend-reference/leaderboardController.js:11-17 | a count over a larger count is NULL exactly when the denominator is 0; otherwise it is a percentage in [0, 100] whose product with the denominator is 100 times the numerator |
| Leaderboard.OnTimePercent | backend-reference/leaderboardController.js:11-12 | the on-time rate is NULL exactly when no session in the window is completed, and otherwise lies in [0, 100] |
| Leaderboard.ConsistencyPercent | backend-reference/leaderboardController.js:15 | consistency times 7 is 100 times the number of distinct study days; it is 0 exactly when the window has no session |
| Leaderboard.UserMetricsNulls | backend-reference/leaderboardController.js:8-25 | the metrics row has NULL on-time rate exactly when nothing is completed, NULL coverage exactly when the user owns no topic, a bounded on-time rate and a non-negative consistency |
| Leaderboard.WindowRowsNested | backend-reference/leaderboardController.js:19-21 | every session counted for the week is counted for the month, and every one counted for the month is counted for the 10-year window |
| Leaderboard.OrZero | backend-reference/leaderboardController.js:51-55 | `parseFloat(x) \|\| 0`: NULL reads as 0, a value as itself |
| Leaderboard.IntPart | backend-reference/leaderboardController.js:52-53 | `parseInt` of a decimal keeps its integer part, truncating toward zero for both signs |
| Leaderboard.Entries | backend-reference/leaderboardController.js:36-58 | one leaderboard entry per active user |
| Leaderboard.CollectEntries | backend-reference/leaderboardController.js:44-58 | the loop over the users builds exactly the entries of the specification function, in query order |
| Leaderboard.NumberEntries | backend-reference/leaderboardController.js:62-64 | the ranking loop gives the entry at position i the rank i + 1 |
| Leaderboard.GetLeaderboard | backend-reference/leaderboardController.js:31-90 | the response has one entry per active user, ranks 1, 2, 3, … in order, and on-time rates that never increase down the list |
| Leaderboard.StandingsOrdered | backend-reference/leaderboardController.js:60-64 | the standings hold one entry per active user, ranked 1, 2, 3, … with on-time rates that never increase |
| Leaderboard.StandingsTiesKeepQueryOrder | backend-reference/leaderboardController.js:61 | ranks aside, the standings are a permutation of the entries, and the entries sharing any one on-time rate appear in the order the users query returned them |
| Leaderboard.NoSessionsScoreZero | backend-reference/leaderboardController.js:11-17 | a user with no session in the window gets 0 for every metric, not an error |
| Leaderboard.NoTopicsCoverageZero | backend-reference/leaderboardController.js:16-17 | a user who owns no topic gets coverage 0 |
| Leaderboard.BottomStart | backend-reference/leaderboardController.js:130 | the struggling bucket starts at floor(3N/4), which is inside the list whenever the list is not empty |
| Leaderboard.BottomQuarterSize | backend-reference/leaderboardController.js:130 | for N ≥ 1 the struggling bucket holds at least one entry |
| Leaderboard.RoundedMean | backend-reference/leaderboardController.js:148-150 | `Math.round` of a mean is within half a unit of the exact mean |
| Leaderboard.CompareMetrics | backend-reference/leaderboardController.js:125-151 | the comparison body exists exactly when there is at least one user |
| Leaderboard.UserIdOf | backend-reference/leaderboardController.js:104 | `id \|\| req.user?.id` is absent exactly when both are absent or empty; an id it yields is never empty |
| Leaderboard.AllMetrics | backend-reference/leaderboardController.js:118-122 | one metrics row per active user |
| Leaderboard.CollectMetrics | backend-reference/leaderboardController.js:118-122 | the loop collects exactly those metrics rows, in query order |
| Leaderboard.GetComparison | backend-reference/leaderboardController.js:101-183 | the response is 400 "User ID is required" without a user id, 500 when there is no user to compare with, and otherwise the comparison of the user's metrics with everyone's |
| Leaderboard.ComparisonOrdering | backend-reference/leaderboardController.js:125-140 | the topper's on-time rate bounds every user's; the struggling mean is at most the overall mean, which is at most the topper's rate |
| Leaderboard.TopperAboveMean | backend-reference/leaderboardController.js:129-133 | a mean of on-time rates never exceeds a common upper bound of them |
| Leaderboard.TailMeanAtMost | backend-reference/leaderboardController.js:130-138 | in a list sorted by decreasing key, the mean of any tail is at most the mean of the whole list |
| Leaderboard.TailMeanBelow | backend-reference/leaderboardController.js:136-138 | the arithmetic behind it: a part whose average is at most p, joined to a part whose average is at least p, does not raise the average |
| MockApi.NewTopic | src/lib/mockApi.ts:205-215 | a created topic gets the clock reading as its id (`Date.now().toString()`) and as both time stamps |
| MockApi.NewTopicKeepsInput | src/lib/mockApi.ts:205-215 | every field the caller supplied comes back unchanged in the created topic |
| MockApi.ApplyPatchFields | src/lib/mockApi.ts:222 | `{ ...topic, ...updates, updatedAt }`: for each of the eleven patchable fields, a value present in the patch is taken and an absent one keeps the topic's value; `updatedAt` is always the current time |
| MockApi.ApplyPatch | src/lib/mockApi.ts:222 | an update always refreshes `updatedAt` and keeps the sub-topic, which the patch type cannot name |
| MockApi.ApplyNoChanges | src/lib/mockApi.ts:222 | an empty patch changes only `updatedAt` |
| MockApi.ApplyPatchIdempotent | src/lib/mockApi.ts:222 | applying the same patch twice at the same time is the same as applying it once |
| MockApi.TopicIndex | src/lib/mockApi.ts:219 | `findIndex` by id: absent exactly when no topic has the id, otherwise the index of a topic with that id |
| MockApi.ScheduleIndex | src/lib/mockApi.ts:236 | the same search over the schedules |
| MockApi.UpdatedTopics | src/lib/mockApi.ts:217-224 | an update fails with "Topic not found" exactly when no topic has the id |
| MockApi.UpdateChangesOneTopic | src/lib/mockApi.ts:219-222 | a successful update patches the first topic with the id and leaves every other topic as it was |
| MockApi.DeletedTopics | src/lib/mockApi.ts:226-231 | a delete fails with "Topic not found" exactly when no topic has the id; otherwise the list loses exactly one topic |
| MockApi.DeleteRemovesFirstMatch | src/lib/mockApi.ts:228-230 | `splice(index, 1)` removes the first topic with the id and keeps the others in order |
| MockApi.DeleteUndoesCreate | src/lib/mockApi.ts:205-231 | deleting a topic just created under a fresh id restores the list |
| MockApi.SnoozeRecord | src/lib/mockApi.ts:239-242 | a snoozed schedule is marked snoozed with the days, the cascade flag and a snooze date of now plus that many days; every other field stays |
| MockApi.FollowOnDates | src/lib/mockApi.ts:244-250 | the three returned dates lie 7, 14 and 21 days after the snooze date |
| MockApi.FollowOnDatesSpacing | src/lib/mockApi.ts:244-250 | the follow-on dates are strictly increasing, one week apart |
| MockApi.SnoozedSchedules | src/lib/mockApi.ts:234-251 | snoozing fails with "Schedule not found" exactly when no schedule has the id, and otherwise keeps the number of schedules |
| MockApi.SnoozeChangesOneSchedule | src/lib/mockApi.ts:236-242 | a successful snooze changes only the first schedule with the id; no other schedule is shifted |
| MockApi.Store.constructor | src/lib/mockApi.ts:17-123 | the store starts with the given demo topics and schedules |
| MockApi.Store.GetTopics | src/lib/mockApi.ts:200-203 | `getTopics` returns the current topic list |
| MockApi.Store.CreateTopic | src/lib/mockApi.ts:205-215 | the new topic is appended to the list and returned; schedules are untouched |
| MockApi.Store.UpdateTopic | src/lib/mockApi.ts:217-224 | on a known id the list becomes the updated list and the patched topic is returned; on an unknown id the error is returned and nothing changes |
| MockApi.Store.DeleteTopic | src/lib/mockApi.ts:226-231 | on a known id the first match is removed; on an unknown id the error is returned and nothing changes |
| MockApi.Store.SnoozeTopic | src/lib/mockApi.ts:234-251 | on a known schedule id that schedule is snoozed and the follow-on dates are returned; on an unknown id the error is returned and nothing changes |
| MockApi.MergeSettings | src/lib/mockApi.ts:356 | `{ ...base, ...patch }`: for each of the seven settings fields, a present patch value wins and an absent one keeps its base value |
| MockApi.UpdateSettings | src/lib/mockApi.ts:340-357 | an update merges into the defaults (45 minutes, presets 15/30/45/60), so an empty patch gives the defaults |
| MockApi.MergeSettingsIdempotent | src/lib/mockApi.ts:356 | merging the same patch twice is merging it once; an empty patch changes nothing |
| MockApi.MergeSettingsLaterWins | src/lib/mockApi.ts:356 | two successive merges equal one merge of the combined patch in which the later patch wins field by field; each field set by the later patch is the one kept |
| Schedule.DueOffsetValues | src/components/revision/ScheduleDialog.tsx:41-64 | because each cycle counts from the previous due date, the four due dates fall 7, 21, 42 and 70 days after the anchor |
| Schedule.MakeEntryShape | src/components/revision/ScheduleDialog.tsx:48-61 | an entry has the id `<topic>_cycle_<cycle>` and the given due date; only the first two can be completed, and a completed one is never snoozed; it is completed within a day of its due date, after 20 to 49 minutes, with one of the four ratings; a snoozed one is snoozed to 3 days after its due date |
| Schedule.GenerateScheduleEntries | src/components/revision/ScheduleDialog.tsx:37-68 | without a topic the entries are unchanged; with one, the loop builds the planned schedule: four entries, one per cycle |
| Schedule.PlannedAt | src/components/revision/ScheduleDialog.tsx:44-64 | entry k of the plan is due at the anchor plus the k-th cumulative offset |
| Schedule.Planned | src/components/revision/ScheduleDialog.tsx:40-64 | a plan of n cycles holds n entries |
| Schedule.CompletedMinutesWithin | src/components/revision/ScheduleDialog.tsx:61 | for entries from the generator, every completed entry took between 20 and 50 minutes |
| Schedule.RegenerateSchedule | src/components/revision/ScheduleDialog.tsx:70-79 | regenerating gives four entries whose due dates count from the topic's first-studied date, not from today |
| Schedule.EntryIdInjective | src/components/revision/ScheduleDialog.tsx:53 | different cycles give different entry ids |
| Schedule.GeneratedScheduleShape | src/components/revision/ScheduleDialog.tsx:41-64 | due dates strictly increase; consecutive ones are exactly the later cycle apart; ids are distinct |
| Schedule.StatusOf | src/components/revision/ScheduleDialog.tsx:81-100 | an entry is Completed, Snoozed, Overdue or Pending by the same precedence the three helpers use, each case stated as an if-and-only-if |
| Schedule.StatusHelpersAgree | src/components/revision/ScheduleDialog.tsx:81-100 | the icon, text and colour helpers all pick the branch of one common status |
| Schedule.StatusNameInjective | src/components/revision/ScheduleDialog.tsx:88-93 | the four status texts are distinct |
| Schedule.RatingColor | src/components/revision/ScheduleDialog.tsx:102-110 | any string other than the four ratings gets the grey default |
| Schedule.RatingColorsDistinct | src/components/revision/ScheduleDialog.tsx:102-110 | each of the four ratings gets a class of its own, different from the other three and from the grey default |
| Schedule.AvgMinutes | src/components/revision/ScheduleDialog.tsx:114-116 | with no completed entry the average is 0; otherwise it is the total of the completed minutes divided by their number, rounded to the nearest integer (within half a minute) |
| Schedule.AvgMinutesOfGenerated | src/components/revision/ScheduleDialog.tsx:61-116 | for entries whose completed minutes come from the generator, a non-empty average lies between 20 and 50 |
| Schedule.DueDenominator | src/components/revision/ScheduleDialog.tsx:118 | the denominator is at least 1 and at least the number of entries due by now, equals that number when it is positive and is exactly 1 when nothing is due, and never exceeds the schedule's length |
| Schedule.OnTimeRate | src/components/revision/ScheduleDialog.tsx:117-119 | the rate is 100 for an empty schedule and never negative; otherwise it is 100 × (completed on time) / (due-by-now denominator), rounded to the nearest integer |
| Schedule.OnTimeRateAllOnTime | src/components/revision/ScheduleDialog.tsx:117-119 | a schedule whose every entry is due by now and was completed on time rates exactly 100 |
| Schedule.OnTimeRateCanExceed100 | src/components/revision/ScheduleDialog.tsx:117-119 | two entries completed early but due after now give a rate of 200: the rate is not bounded by 100 |
| Schedule.Upcoming | src/components/revision/ScheduleDialog.tsx:250-252 | at most three entries are listed |
| Schedule.UpcomingFirstThree | src/components/revision/ScheduleDialog.tsx:250-252 | the list holds min(3, number of eligible entries) entries, and it is exactly the eligible entries of a prefix of the schedule, in schedule order: the first three, or all of them |
| Schedule.UpcomingMembers | src/components/revision/ScheduleDialog.tsx:250-252 | every listed entry is a schedule entry due after now and not snoozed; with fewer than three listed, every such entry is listed |
| ImportCsv.TrimEach | src/components/revision/ImportCSVDialog.tsx:52 | trimming every field keeps their number |
| ImportCsv.NormalizeEach | src/components/revision/ImportCSVDialog.tsx:39 | trimming and lower-casing every header keeps their number |
| ImportCsv.Columns | src/components/revision/ImportCSVDialog.tsx:59-62 | the row object has a key exactly for each header |
| ImportCsv.ColumnsLast | src/components/revision/ImportCSVDialog.tsx:59-62 | a header that occurs once maps to the value in its column |
| ImportCsv.ScoreOf | src/components/revision/ImportCSVDialog.tsx:72-73 | a missing, unparsable or zero score becomes 3; a score from 1 to 5 is kept; a score above 5 becomes 5 and a negative one becomes 1 |
| ImportCsv.MasteryOf | src/components/revision/ImportCSVDialog.tsx:74-75 | a known level name is kept; a missing or unknown one becomes Beginner |
| ImportCsv.FlagOf | src/components/revision/ImportCSVDialog.tsx:76 | the must-win flag is set exactly for a value reading "true" in any letter case |
| ImportCsv.BuildRow | src/components/revision/ImportCSVDialog.tsx:71-78 | the corrected conversion keeps every raw column, is never archived and is stamped with the import time; subject and title are the columns' text; the estimate is the parsed nonzero `estimatedminutes` column, or 30 when that column is absent, unparsable or zero; weightage and difficulty are the clamped scores of their columns; the level is the `masterylevel` column when it names a level, else Beginner; must-win holds exactly when the `mustwin` column lower-cases to `true` |
| ImportCsv.AsWrittenIgnoresColumns | src/components/revision/ImportCSVDialog.tsx:71-76 | on a row built from lower-cased headers, the code as written gives the corrected row with the estimate, level and must-win flag forced to their defaults |
| ImportCsv.CamelCaseColumnsLost | src/components/revision/ImportCSVDialog.tsx:71 | a row whose estimatedMinutes column says 45 is imported with 30 minutes as written, and with 45 as corrected |
| ImportCsv.AsWrittenOnLowerKeys | src/components/revision/ImportCSVDialog.tsx:71-76 | on any row object whose keys hold no upper-case letter, the code as written gives the corrected row with the three camel-case fields at their defaults |
| ImportCsv.RowsAsWrittenDefaulted | src/components/revision/ImportCSVDialog.tsx:51-81 | over a whole list of line verdicts with lower-case keys, the preview as written has the same rows as the corrected one, each with estimate 30, level Beginner and must-win false |
| ImportCsv.VerdictsHaveLowerKeys | src/components/revision/ImportCSVDialog.tsx:39-62 | every row object of a parsed text has lower-case keys, because the headers are lower-cased |
| ImportCsv.ParsedRowsAsWritten | src/components/revision/ImportCSVDialog.tsx:31-81 | for every text that passes the header check, the dialog as written shows the corrected preview with every estimate 30, every level Beginner and no row must-win |
| ImportCsv.CheckLineVerdict | src/components/revision/ImportCSVDialog.tsx:52-68 | a data line is refused for a column-count mismatch, then for an empty subject or title, and accepted otherwise |
| ImportCsv.MissingHeaders | src/components/revision/ImportCSVDialog.tsx:40-41 | nothing is missing exactly when both "subject" and "title" are headers |
| ImportCsv.ParseRefusals | src/components/revision/ImportCSVDialog.tsx:33-46 | fewer than two lines gives the "at least a header row" error; missing headers are named in the error; the data lines are read exactly when neither happens |
| ImportCsv.Results | src/components/revision/ImportCSVDialog.tsx:51-81 | there is one verdict per data line |
| ImportCsv.ResultsAt | src/components/revision/ImportCSVDialog.tsx:51-55 | verdict k is that of line k + 1, reported under row number k + 2 |
| ImportCsv.RowsPlusErrors | src/components/revision/ImportCSVDialog.tsx:51-81 | every data line yields exactly one preview row or one error |
| ImportCsv.ParseCounts | src/components/revision/ImportCSVDialog.tsx:48-84 | preview rows plus errors add up to the number of data lines |
| ImportCsv.RowsShape | src/components/revision/ImportCSVDialog.tsx:65-78 | every preview row has a non-empty subject and title, is not archived and is stamped with the import time |
| ImportCsv.ParsedRowsShape | src/components/revision/ImportCSVDialog.tsx:65-80 | the same holds for every row the dialog previews |
| ImportCsv.NoErrorsIffAllAccepted | src/components/revision/ImportCSVDialog.tsx:51-83 | the error list is empty exactly when every data line was accepted |
| ImportCsv.ImportableIffAllAccepted | src/components/revision/ImportCSVDialog.tsx:280 | Import is enabled exactly when there is a data line and every data line was accepted |
| ImportCsv.ImportDialog.constructor | src/components/revision/ImportCSVDialog.tsx:26-28 | the dialog opens with no text, no preview and no errors |
| ImportCsv.ImportDialog.ParseCsv | src/components/revision/ImportCSVDialog.tsx:31-89 | a refused text leaves only its one error; a parsed text sets the preview rows (built by the corrected conversion) and the errors from the data lines |
| ImportCsv.ImportDialog.HandleTextChange | src/components/revision/ImportCSVDialog.tsx:111-114 | typing stores the text and re-parses it |
| ImportCsv.ImportDialog.HandleClose | src/components/revision/ImportCSVDialog.tsx:133-140 | closing clears the text, the preview and the errors |
| ImportCsv.ImportDialog.HandleImport | src/components/revision/ImportCSVDialog.tsx:116-130 | with an empty preview nothing happens; otherwise the previewed rows are handed over and the dialog is cleared |
| ImportCsv.ReadLines | src/components/revision/ImportCSVDialog.tsx:51-81 | the loop over the data lines yields exactly the rows (built by the corrected conversion) and the errors of the specification functions |
| ImportCsv.ParseLine | src/components/revision/ImportCSVDialog.tsx:52-68 | one line's body computes its verdict |
| ImportCsv.FillColumns | src/components/revision/ImportCSVDialog.tsx:59-62 | the `forEach` over the headers builds the row object |
| Countdown.FormatTimeRoundTrip | src/components/revision/FocusTimer.tsx:77-81 | "mm:ss" splits at the colon into two parts of at least two digits, which read back as the minutes and the seconds (below 60) |
| Countdown.TickValue | src/components/revision/FocusTimer.tsx:42-51 | one tick takes a second off, but a timer at 1 or below goes to 0 |
| Countdown.TicksFloor | src/components/revision/FocusTimer.tsx:40-52 | k ticks from t seconds leave max(0, t − k) |
| Countdown.ActualMinutesPositive | src/components/revision/FocusTimer.tsx:129 | the minutes spent are positive exactly when the time left is below the original, and then cover the seconds spent |
| Countdown.NeedsConfirmationExactly | src/components/revision/FocusTimer.tsx:121 | stopping asks first exactly when some time is left and more than a fifth of the session has passed |
| Countdown.CustomMinutes | src/components/revision/FocusTimer.tsx:146-147 | an extension is accepted exactly when it parses to a whole number from 1 to 120 |
| Countdown.FinishAfterExtensionIsNegative | src/components/revision/FocusTimer.tsx:121-165 | after a 10-minute extension of a 30-minute session, finishing immediately reports −10 minutes, and Stop does not ask first |
| Countdown.FocusTimer.constructor | src/components/revision/FocusTimer.tsx:26-35 | the time left and the original time both start at the estimate; nothing runs |
| Countdown.FocusTimer.Tick | src/components/revision/FocusTimer.tsx:40-52 | while running with time left, one tick takes a second off and the last second stops the timer; otherwise nothing changes; the time left stays non-negative |
| Countdown.FocusTimer.Start | src/components/revision/FocusTimer.tsx:83-93 | the first start creates the session id `session_<now>` and a later start keeps it; the timer runs unpaused |
| Countdown.FocusTimer.Pause | src/components/revision/FocusTimer.tsx:95-106 | pausing toggles, recording the pause time when it pauses and clearing it when it resumes |
| Countdown.FocusTimer.Reset | src/components/revision/FocusTimer.tsx:108-118 | the timer stops with the original time and no session or pause time |
| Countdown.FocusTimer.Stop | src/components/revision/FocusTimer.tsx:120-126 | it asks for confirmation exactly when required, and otherwise stops as `confirmStop` does |
| Countdown.FocusTimer.ConfirmStop | src/components/revision/FocusTimer.tsx:128-143 | the session is saved as Good with its minutes exactly when at least one minute was spent; the question closes either way |
| Countdown.FocusTimer.PauseInstead | src/components/revision/FocusTimer.tsx:274-279 | "Pause Instead" closes the question and toggles the pause, so a timer already paused resumes |
| Countdown.FocusTimer.EditNotes | src/components/revision/FocusTimer.tsx:319 | typing changes the notes only |
| Countdown.FocusTimer.EditCustomMinutes | src/components/revision/FocusTimer.tsx:300 | typing changes the extension box only |
| Countdown.FocusTimer.ShowCustomInput | src/components/revision/FocusTimer.tsx:237 | the extension box is shown or hidden, keeping what was typed |
| Countdown.FocusTimer.AddCustomTime | src/components/revision/FocusTimer.tsx:145-162 | an accepted extension adds its minutes to the time left and clears and hides the box; anything else changes nothing |
| Countdown.FocusTimer.Finish | src/components/revision/FocusTimer.tsx:164-170 | the rating, the notes and the minutes spent are reported, and the timer stops |
| FocusPage.RatingsShownClock | src/pages/FocusMode.tsx:223 | when the rating buttons show, at least a minute has passed and the clock no longer reads 00:00 |
| FocusPage.FocusMode.constructor | src/pages/FocusMode.tsx:14-19 | the page opens stopped at 0 seconds with no session |
| FocusPage.FocusMode.Tick | src/pages/FocusMode.tsx:30-40 | while running and unpaused a tick adds one second; otherwise nothing changes |
| FocusPage.FocusMode.RunFor | src/pages/FocusMode.tsx:30-40 | k firings of the interval add exactly k seconds to a running, unpaused clock and leave a stopped or paused one where it was |
| FocusPage.FocusMode.Start | src/pages/FocusMode.tsx:48-65 | a started session becomes the page's session and the clock runs; a failed start changes nothing |
| FocusPage.FocusMode.Pause | src/pages/FocusMode.tsx:67-73 | pausing toggles and keeps the time |
| FocusPage.FocusMode.Reset | src/pages/FocusMode.tsx:75-80 | the page stops at 0 seconds with no session; notes stay |
| FocusPage.FocusMode.AddMinute | src/pages/FocusMode.tsx:82-88 | "+1 min" adds 60 seconds |
| FocusPage.FocusMode.EditNotes | src/pages/FocusMode.tsx:216 | typing changes the notes only |
| FocusPage.FocusMode.Finish | src/pages/FocusMode.tsx:90-93 | without a session, or with an empty (falsy) session id, nothing is sent; otherwise the session, the seconds, the rating and the notes are |
| SettingsEditor.PresetToAdd | src/components/revision/SettingsDialog.tsx:73-75 | a preset is accepted exactly when the text parses to 1–240 minutes not already present |
| SettingsEditor.AddPresetKeepsOrder | src/components/revision/SettingsDialog.tsx:76-79 | adding a fresh value to increasing presets gives increasing presets with the old values plus the new one |
| SettingsEditor.RemovePresetFacts | src/components/revision/SettingsDialog.tsx:90-95 | removing deletes exactly that value and keeps every other one; increasing presets stay increasing |
| SettingsEditor.RemoveUndoesAdd | src/components/revision/SettingsDialog.tsx:73-95 | removing a preset just added restores the presets |
| SettingsEditor.AddUndoesRemove | src/components/revision/SettingsDialog.tsx:73-95 | adding back a preset just removed restores the presets |
| SettingsEditor.CapacityOf | src/components/revision/SettingsDialog.tsx:151 | `parseInt(v) \|\| 45`: an unparsable or zero entry gives 45, any other number is kept |
| SettingsEditor.DefaultPresetsValid | src/components/revision/SettingsDialog.tsx:27 | the default presets are increasing |
| SettingsEditor.SettingsDialog.constructor | src/components/revision/SettingsDialog.tsx:22-32 | the dialog opens on the default settings with an empty box |
| SettingsEditor.SettingsDialog.EditNewPreset | src/components/revision/SettingsDialog.tsx:249 | typing changes the box only |
| SettingsEditor.SettingsDialog.AddPresetFromInput | src/components/revision/SettingsDialog.tsx:73-88 | an accepted value joins the sorted presets and clears the box, otherwise nothing changes; increasing presets stay increasing |
| SettingsEditor.SettingsDialog.RemovePresetValue | src/components/revision/SettingsDialog.tsx:90-95 | the presets lose that value and stay increasing |
| SettingsEditor.SettingsDialog.EditCapacity | src/components/revision/SettingsDialog.tsx:151 | the capacity becomes the parsed value or 45 |
| SnoozeAll.ChosenDays | src/components/revision/SnoozeFloatingButton.tsx:30 | a non-zero quick option wins; otherwise the custom box is parsed |
| SnoozeAll.SnoozeDays | src/components/revision/SnoozeFloatingButton.tsx:30-39 | a snooze goes ahead exactly when the chosen days are from 1 to 30 |
| SnoozeAll.QuickOptionsAccepted | src/components/revision/SnoozeFloatingButton.tsx:23-32 | each of the quick options 1, 3 and 7 is accepted whatever the box says |
| SnoozeAll.CustomDecides | src/components/revision/SnoozeFloatingButton.tsx:30-32 | with no quick option the box alone decides |
| SnoozeAll.EnabledIsNotAccepted | src/components/revision/SnoozeFloatingButton.tsx:30-39 | an enabled button can still be refused (a box reading 45); every accepted snooze had the button enabled |
| SnoozeAll.PreviewResume | src/components/revision/SnoozeFloatingButton.tsx:177 | the preview date is now plus the chosen days, or now when none is chosen |
| SnoozeAll.SnoozeButton.constructor | src/components/revision/SnoozeFloatingButton.tsx:18-21 | closed, nothing chosen, cascade on |
| SnoozeAll.SnoozeButton.Open | src/components/revision/SnoozeFloatingButton.tsx:68 | the dialog opens and the choice stays |
| SnoozeAll.SnoozeButton.ChooseQuickOption | src/components/revision/SnoozeFloatingButton.tsx:111-114 | a quick option is selected and the box cleared |
| SnoozeAll.SnoozeButton.TypeCustomDays | src/components/revision/SnoozeFloatingButton.tsx:143-146 | typing fills the box and drops the quick option |
| SnoozeAll.SnoozeButton.SetCascade | src/components/revision/SnoozeFloatingButton.tsx:165 | the switch sets the cascade flag only |
| SnoozeAll.SnoozeButton.Close | src/components/revision/SnoozeFloatingButton.tsx:56-60 | closing forgets the choice and keeps the cascade flag |
| SnoozeAll.SnoozeButton.Snooze | src/components/revision/SnoozeFloatingButton.tsx:29-54 | refused with nothing changed unless the days are from 1 to 30; otherwise the days and the cascade flag are passed on and the dialog closes |
| NotificationBell.MarkAsRead | src/components/revision/NotificationCenter.tsx:81-85 | marking keeps the number of notifications |
| NotificationBell.MarkAsReadFacts | src/components/revision/NotificationCenter.tsx:81-85 | the entries with the id become read and every other entry is unchanged |
| NotificationBell.MarkAsReadIdempotent | src/components/revision/NotificationCenter.tsx:81-85 | marking the same id twice is marking it once |
| NotificationBell.MarkAsReadUnread | src/components/revision/NotificationCenter.tsx:79-85 | the unread count drops by exactly the unread entries with that id |
| NotificationBell.MarkAllAsRead | src/components/revision/NotificationCenter.tsx:87-91 | marking all keeps the number of notifications |
| NotificationBell.MarkAllAsReadFacts | src/components/revision/NotificationCenter.tsx:79-91 | afterwards nothing is unread, and each entry differs from before only in its read flag |
| NotificationBell.MarkAllAbsorbsMark | src/components/revision/NotificationCenter.tsx:81-91 | marking one and then all is the same as marking all |
| NotificationBell.RemoveFacts | src/components/revision/NotificationCenter.tsx:93-95 | removal drops every entry with the id, keeps every other, and lowers the length and the unread count by the matching entries |
| NotificationBell.RemoveCounts | src/components/revision/NotificationCenter.tsx:93-95 | removal lowers the length by the entries with the id and the unread count by the unread ones among them |
| NotificationBell.RemoveAbsent | src/components/revision/NotificationCenter.tsx:93-95 | removing an id nobody has changes nothing |
| NotificationBell.RemoveIdempotent | src/components/revision/NotificationCenter.tsx:93-95 | removing twice is removing once |
| NotificationBell.RemoveAfterMark | src/components/revision/NotificationCenter.tsx:81-95 | marking an entry read before removing it makes no difference |
| NotificationBell.MockUnread | src/components/revision/NotificationCenter.tsx:29-79 | the demo list starts with three unread notifications |
| NotificationBell.Badge | src/components/revision/NotificationCenter.tsx:146-151 | no badge with nothing unread, "9+" above nine, otherwise the count, which reads back |
| NotificationBell.MinutesSince | src/components/revision/NotificationCenter.tsx:133 | the age in whole minutes is the floor of the elapsed time |
| NotificationBell.AgoOfBounds | src/components/revision/NotificationCenter.tsx:135-138 | "Just now" under a minute; whole minutes below an hour, hours below a day, and days, each truthful to its unit |
| NotificationBell.LabelReadsBack | src/components/revision/NotificationCenter.tsx:136-138 | the number in a label reads back with `parseInt`, and the letter after it gives the unit |
| NotificationBell.LabelInjective | src/components/revision/NotificationCenter.tsx:135-138 | different ages give different labels |
| NotificationBell.NotificationCenter.constructor | src/components/revision/NotificationCenter.tsx:25-26 | closed with an empty list |
| NotificationBell.NotificationCenter.LoadMock | src/components/revision/NotificationCenter.tsx:29-77 | the mount effect loads the demo list |
| NotificationBell.NotificationCenter.MarkRead | src/components/revision/NotificationCenter.tsx:81-85 | clicking an entry marks it read and lowers the unread count accordingly |
| NotificationBell.NotificationCenter.MarkAllRead | src/components/revision/NotificationCenter.tsx:87-91 | afterwards the "Mark all read" button is hidden |
| NotificationBell.NotificationCenter.Remove | src/components/revision/NotificationCenter.tsx:93-95 | no entry with the id remains |
| NotificationBell.NotificationCenter.SetOpen | src/components/revision/NotificationCenter.tsx:142 | the popover state changes and the list stays |
| TopicsManagerPage.FilteredTopicsFacts | src/pages/TopicsManager.tsx:126-136 | the list is the topics that pass all four filters, in their original order |
| TopicsManagerPage.SearchIgnoresCase | src/pages/TopicsManager.tsx:127-129 | the search ignores the letter case of both text and term |
| TopicsManagerPage.EmptySearchMatchesAll | src/pages/TopicsManager.tsx:127-129 | an empty search matches every topic |
| TopicsManagerPage.AllFiltersOff | src/pages/TopicsManager.tsx:126-136 | with every filter off and archived topics shown, the whole list is shown |
| TopicsManagerPage.InitiallyUnarchived | src/pages/TopicsManager.tsx:43-46 | on opening, exactly the unarchived topics are listed |
| TopicsManagerPage.SubjectsOf | src/pages/TopicsManager.tsx:139 | one subject per topic |
| TopicsManagerPage.SubjectsFacts | src/pages/TopicsManager.tsx:139 | each subject is offered once, only subjects of topics are offered, in order of first occurrence |
| PlannerPage.FilteredTopicsFacts | src/pages/Planner.tsx:83-88 | the planner lists the unarchived topics matching its search and subject, in their original order |
| PlannerPage.PlannerNarrowerThanManager | src/pages/Planner.tsx:83-88 | every topic the planner lists is listed by the manager under the same search and subject, but not conversely: a match only in the sub-topic is listed by the manager alone |
| PlannerPage.SubTopicOnlyMatches | src/pages/Planner.tsx:84-85 | the witness topic matches "calc" in its sub-topic only |
| PlannerPage.MasteryColors | src/pages/Planner.tsx:92-100 | each level has its own colour, never the fallback; any other text gets the fallback |
| PlannerPage.StarsFilled | src/pages/Planner.tsx:102-107 | five stars, exactly the first `difficulty` of them filled |
| PlannerPage.StatsIncludeArchived | src/pages/Planner.tsx:323-335 | the must-win count and the minutes total cover archived topics too: they are the sums over both parts |
| PlannerPage.AverageDifficulty | src/pages/Planner.tsx:347-349 | no average exactly for no topics |
| PlannerPage.AverageDifficultyBounds | src/pages/Planner.tsx:347-349 | the average difficulty lies between 1 and 5 |
| LeaderboardsPage.RankIcons | src/pages/Leaderboards.tsx:59-64 | ranks 1, 2, 3 get three distinct icons; any other rank shows "#rank", which reads back |
| LeaderboardsPage.DeltaMeaning | src/pages/Leaderboards.tsx:66-71 | the trend is up, down or flat exactly as the value is above, below or equal to the comparison; the text reads back as the signed difference |
| LeaderboardsPage.VsAverage | src/pages/Leaderboards.tsx:167-176 | one delta per compared metric |
| LeaderboardsPage.VsAverageReadsBack | src/pages/Leaderboards.tsx:167-176 | each delta reads back as the learner's value minus the average, and points up exactly when the learner is ahead |
| LeaderboardsPage.AnonymousNames | src/pages/Leaderboards.tsx:244 | an anonymous name is "Student " and the rank, and is the same exactly for the same rank; otherwise the real name shows |
| LeaderboardsPage.CoverageVariantMonotone | src/pages/Leaderboards.tsx:278 | more coverage never gets a worse badge; success from 80, warning from 60 |
| Motivation.StepsInverse | src/components/revision/MotivationalSection.tsx:46-54 | next and previous stay in range and undo each other |
| Motivation.AdvanceMod | src/components/revision/MotivationalSection.tsx:38-44 | k automatic steps land on (i + k) mod 5 |
| Motivation.QuoteCarousel.constructor | src/components/revision/MotivationalSection.tsx:36 | the carousel starts on the first quote |
| Motivation.QuoteCarousel.Next | src/components/revision/MotivationalSection.tsx:46-48 | the next quote, wrapping round |
| Motivation.QuoteCarousel.Prev | src/components/revision/MotivationalSection.tsx:50-54 | the previous quote, wrapping round |
| Motivation.QuoteCarousel.Select | src/components/revision/MotivationalSection.tsx:141-145 | clicking a dot shows that quote, and exactly that dot is highlighted |
| Motivation.BadgeMonotone | src/components/revision/MotivationalSection.tsx:83-86 | a longer streak never gets a lesser badge; the thresholds are 3 and 7 |
| Header.ActiveRule | src/components/layout/HeaderNav.tsx:49-54 | the dashboard is active only on "/"; any other item is active on every path starting with its href, so "/focusing" also lights up "/focus" |
| Header.OneActiveOnItemPaths | src/components/layout/HeaderNav.tsx:26-54 | on an item's own path exactly that item is active |
| Header.HeaderNav.constructor | src/components/layout/HeaderNav.tsx:36 | the menu starts closed |
| Header.HeaderNav.ToggleMenu | src/components/layout/HeaderNav.tsx:145 | the menu button toggles the mobile menu |
| Header.HeaderNav.NavigateDesktop | src/components/layout/HeaderNav.tsx:82 | navigating to an item makes exactly that item active |
| Header.HeaderNav.NavigateMobile | src/components/layout/HeaderNav.tsx:166-168 | the same, and the mobile menu closes |
| TopicCatalogue.CatalogueShape | src/data/topicData.ts:2-143 | ten subjects of twelve topics each, no subject twice |
| TopicCatalogue.AllTopicsCount | src/data/topicData.ts:145-147 | all topics together number 120 |
| TopicCatalogue.Lookup | src/data/topicData.ts:149-150 | a subject has no entry exactly when no catalogue entry names it |
| TopicCatalogue.LookupFacts | src/data/topicData.ts:145-150 | a listed subject yields its topics, each of them among all topics; an unlisted one yields nothing |
| TopicCatalogue.TopicsBySubjectFacts | src/data/topicData.ts:149-150 | each subject gets its own list, every topic returned is among all topics, and an unknown subject gets `[]` |
| TopicCatalogue.SubjectNames | src/data/topicData.ts:2-143 | one subject name per catalogue entry |
| TopicCatalogue.FindSubject | src/data/topicData.ts:149-150 | a subject with an entry is at some position of the catalogue |
| Types.ParseMastery | src/types/revision.ts:11 | a level name parses to the level it names; any other text names no level |
| Types.ParseMasteryName | src/types/revision.ts:11 | every level's name parses back to it |
| Types.DueStatusNameInjective | src/types/revision.ts:64 | the three card labels are distinct |
| AdminStore.ReplaceUserFacts | src/store/slices/adminSlice.ts:245-250 | replacing by id keeps the length; it changes nothing without a match and only the first match otherwise |
| AdminStore.ReplaceTopicFacts | src/store/slices/adminSlice.ts:264-269 | the same for topics |
| AdminStore.WithoutTopicFacts | src/store/slices/adminSlice.ts:271-273 | deletion removes every topic with the id and keeps the others in order |
| AdminStore.AdminSlice.constructor | src/store/slices/adminSlice.ts:31-38 | the initial state is empty, not loading and without error |
| AdminStore.AdminSlice.ClearError | src/store/slices/adminSlice.ts:225-227 | only the error is cleared |
| AdminStore.AdminSlice.FetchUsersPending | src/store/slices/adminSlice.ts:232-235 | loading starts and the error clears |
| AdminStore.AdminSlice.FetchUsersFulfilled | src/store/slices/adminSlice.ts:236-239 | the users are replaced and loading ends |
| AdminStore.AdminSlice.FetchUsersRejected | src/store/slices/adminSlice.ts:240-243 | loading ends with the rejection message, or the default one |
| AdminStore.AdminSlice.UpdateUserStatusFulfilled | src/store/slices/adminSlice.ts:245-250 | the user with the payload's id is replaced in place |
| AdminStore.AdminSlice.FetchSystemStatsFulfilled | src/store/slices/adminSlice.ts:252-254 | the statistics are stored |
| AdminStore.AdminSlice.FetchAdminTopicsFulfilled | src/store/slices/adminSlice.ts:256-258 | the topic list is replaced |
| AdminStore.AdminSlice.CreateGlobalTopicFulfilled | src/store/slices/adminSlice.ts:260-262 | the topic is appended |
| AdminStore.AdminSlice.UpdateGlobalTopicFulfilled | src/store/slices/adminSlice.ts:264-269 | the topic with the payload's id is replaced in place |
| AdminStore.AdminSlice.DeleteGlobalTopicFulfilled | src/store/slices/adminSlice.ts:271-273 | no topic with the id remains |
| AdminStore.AdminSlice.ImportCsvTopicsFulfilled | src/store/slices/adminSlice.ts:275-277 | the imported topics are appended in order |
| RevisionStore.FocusRecords | src/store/slices/revisionSlice.ts:64-82 | starting and ending focus mode give a consistent record, and a duration update keeps it consistent |
| RevisionStore.RevisionSlice.constructor | src/store/slices/revisionSlice.ts:19-32 | empty lists, idle focus mode |
| RevisionStore.RevisionSlice.SetSelectedTopic | src/store/slices/revisionSlice.ts:61-63 | the selection is set |
| RevisionStore.RevisionSlice.StartFocusMode | src/store/slices/revisionSlice.ts:64-71 | focus mode is active on the topic from now, with duration 0 |
| RevisionStore.RevisionSlice.EndFocusMode | src/store/slices/revisionSlice.ts:72-79 | focus mode returns to idle |
| RevisionStore.RevisionSlice.UpdateFocusDuration | src/store/slices/revisionSlice.ts:80-82 | only the duration changes |
| RevisionStore.RevisionSlice.ClearError | src/store/slices/revisionSlice.ts:83-85 | only the error is cleared |
| RevisionStore.RevisionSlice.RequestPending | src/store/slices/revisionSlice.ts:90-106 | either request's pending case sets loading and clears the error |
| RevisionStore.RevisionSlice.FetchTopicsFulfilled | src/store/slices/revisionSlice.ts:94-97 | the topics are replaced and loading ends |
| RevisionStore.RevisionSlice.FetchTopicsRejected | src/store/slices/revisionSlice.ts:98-101 | loading ends with the message or "Failed to fetch topics" |
| RevisionStore.RevisionSlice.AddTopicFulfilled | src/store/slices/revisionSlice.ts:107-110 | the topic is appended and loading ends |
| RevisionStore.RevisionSlice.AddTopicRejected | src/store/slices/revisionSlice.ts:111-114 | loading ends with the message or "Failed to add topic" |
| UserStore.MergePrefs | src/store/slices/userSlice.ts:65-68 | a present field wins, an absent one keeps the old value |
| UserStore.MergePrefsLaws | src/store/slices/userSlice.ts:63-70 | an empty patch changes nothing, a patch twice is a patch once, two patches are their composition |
| UserStore.UserSlice.constructor | src/store/slices/userSlice.ts:24-29 | signed out, no user |
| UserStore.UserSlice.Logout | src/store/slices/userSlice.ts:58-62 | no user, signed out, no error |
| UserStore.UserSlice.UpdateUserSettings | src/store/slices/userSlice.ts:63-70 | the patch merges into the user's preferences; without a user nothing happens |
| UserStore.UserSlice.ClearError | src/store/slices/userSlice.ts:71-73 | only the error is cleared |
| UserStore.UserSlice.LoginPending | src/store/slices/userSlice.ts:78-81 | loading starts and the error clears |
| UserStore.UserSlice.LoginFulfilled | src/store/slices/userSlice.ts:82-86 | the user is stored and signed in |
| UserStore.UserSlice.LoginRejected | src/store/slices/userSlice.ts:87-90 | loading ends with the message or "Login failed" |
| UserStore.UserSlice.ProfilePending | src/store/slices/userSlice.ts:92-94 | loading starts; the error is kept |
| UserStore.UserSlice.ProfileFulfilled | src/store/slices/userSlice.ts:95-99 | the profile is stored and signed in |
| UserStore.UserSlice.ProfileRejected | src/store/slices/userSlice.ts:100-103 | loading ends with the message or "Failed to fetch profile" |
| AnalyticsStore.RangeNamesRoundTrip | src/store/slices/analyticsSlice.ts:10 | the five range names are distinct and read back |
| AnalyticsStore.HttpErrorReadsBack | src/store/slices/analyticsSlice.ts:35 | the status reads back from the rejection text, so different statuses give different texts |
| AnalyticsStore.AnalyticsSlice.constructor | src/store/slices/analyticsSlice.ts:13-20 | nothing loaded, a 30-day range |
| AnalyticsStore.AnalyticsSlice.SetTimeRange | src/store/slices/analyticsSlice.ts:93-95 | only the range changes |
| AnalyticsStore.AnalyticsSlice.ClearError | src/store/slices/analyticsSlice.ts:96-98 | only the error is cleared |
| AnalyticsStore.AnalyticsSlice.FetchAnalyticsPending | src/store/slices/analyticsSlice.ts:103-106 | loading starts and the error clears |
| AnalyticsStore.AnalyticsSlice.FetchAnalyticsFulfilled | src/store/slices/analyticsSlice.ts:107-110 | the data is stored and loading ends |
| AnalyticsStore.AnalyticsSlice.FetchAnalyticsRejected | src/store/slices/analyticsSlice.ts:111-114 | loading ends with the message or the default |
| AnalyticsStore.AnalyticsSlice.FetchLeaderboardFulfilled | src/store/slices/analyticsSlice.ts:116-118 | the leaderboard is stored; loading is not touched |
| AnalyticsStore.AnalyticsSlice.FetchLeaderboardRejected | src/store/slices/analyticsSlice.ts:119-121 | the error is set; loading is not touched |
| AnalyticsStore.AnalyticsSlice.FetchComparisonFulfilled | src/store/slices/analyticsSlice.ts:123-125 | the comparison is stored |
| AnalyticsStore.AnalyticsSlice.FetchComparisonRejected | src/store/slices/analyticsSlice.ts:126-128 | the error is set |

## Left out

- **The database.** The SQL round trips of the leaderboard controller
  (`pool.query`) are not modelled as I/O: each query is a function over a
  database value. This covers the upserts into the leaderboard and
  comparison tables (backend-reference/leaderboardController.js:66-88 and
  153-177), which change nothing in the responses, and the `catch` branch
  for a failing query. `getCachedLeaderboard` reads those stored rows back
  and is left out with them.
- **Dates.** They are whole milliseconds. `setDate(getDate() + n)` is
  taken as adding n × 86 400 000 ms, which ignores daylight-saving
  changes.
  - The clock is a parameter everywhere.
  - `toLocaleDateString` and the other display formatting are left out.
  - The schedule dialog anchors at `new Date(topic.firstStudied)`. A
    missing first-studied date (an invalid `Date` in JavaScript) is taken
    as time 0.
- **Randomness.** `Math.random()` in the schedule dialog is replaced by
  `Draw` parameters, one per cycle. Only what holds for every draw is
  proved.
- **Text.** `toLowerCase` is modelled for ASCII letters only. `parseInt`
  follows ECMAScript for decimal and `0x` text. Exponent and other
  non-integer forms are not parsed as numbers.
- **Rendering.** JSX, icons, toasts, skeletons and CSS classes are not
  modelled, apart from the class strings chosen by the helper functions
  above.
- **Timers.** The 24-hour "long pause" check in the focus timer
  (FocusTimer.tsx:60-75) only shows a toast and is left out. The one-second
  and five-second intervals are the `Tick` and `Next` methods. The
  network delays (`delay(...)`) of the mock API are left out.
- **Async thunks and the RTK Query API slice.** They issue `fetch`
  requests and are not modelled. Each slice models only the reducer cases
  that settle them. `src/store/api/apiSlice.ts` and `src/store/index.ts`
  are not part of this model.
- **Fixed demo responses of the mock API.** `getDashboardData`,
  `getAnalytics`, `getLeaderboard`, `getComparison`, `startTimer` and
  `finishTimer` return fixed demo values or stubs and are not modelled.
  The focus pages take the started session id as a parameter.
- **Page handlers that only forward to the API.** On the planner and the
  topics manager, the add, edit, delete and import handlers forward to
  the mock API or to RTK Query and then reload. They are covered by
  `MockApi.Store` and not repeated.
- **The parse-failure path.** The `catch` in the CSV dialog
  (ImportCSVDialog.tsx:85-88) is not modelled: nothing in the modelled
  parse can throw.
- **Number display.** `toFixed(1)` on the planner's average difficulty is
  not modelled; the average is a real number.
- Leaderboard.UserMetricsNulls: averages of durations use real division
  where PostgreSQL uses `numeric`.
- Leaderboard.Percent: the quotient is exact; PostgreSQL's `numeric`
  division rounds it (`1 * 100.0 / 7` gives 14.2857142857142857, whose
  product with 7 is not 100). The rounding of the database's decimal type
  is not modelled.
- Leaderboard.ConsistencyPercent: distinct days × 100 / 7 is exact here and
  rounded by `numeric` division in the database, as for `Percent`.
- Leaderboard.ComparisonOrdering: the means are exact reals, while the
  controller (backend-reference/leaderboardController.js:131-138) sums
  JavaScript doubles left to right and divides. Those sums can break the
  ordering by one unit in the last place: three users each with 5 of 9
  sessions on time have rate 55.55555555555556 after `parseFloat`, and
  the double mean of the three is 55.555555555555564, above the topper's
  rate.
- Leaderboard.TopperAboveMean: stated over exact reals; the double mean
  of values all equal to a bound can exceed it by one unit in the last
  place, by the same input.
- ImportCsv.ImportDialog.ParseCsv: the preview rows are built by the
  corrected conversion `BuildRow`, not by lines 71-76 as written; a text
  `subject,title,estimatedMinutes` / `Maths,Calc,45` shows 30 minutes in
  the dialog as written and 45 in this model. `ImportCsv.ParsedRowsAsWritten`
  states exactly how the as-written preview differs.
- ImportCsv.ReadLines: builds its rows with the corrected conversion, as
  `ParseCsv` does.
- TopicCatalogue.TopicsBySubjectFacts: the source's `topicsBySubject[subject] || []`
  reads a plain object, so a name inherited from `Object.prototype`
  (`constructor`, `toString`, …) returns a function rather than `[]`. The
  model treats every name outside the catalogue as unknown and gives `[]`.
- LeaderboardsPage.DeltaMeaning: metrics are whole numbers, as the mock
  API supplies them (src/lib/mockApi.ts:329-336), although src/types/revision.ts:101-106
  types them as `number`; a fractional difference such as `+15.5` is not
  modelled.
- LeaderboardsPage.VsAverageReadsBack: the read-back of the delta text is
  stated for whole-number metrics only, for the same reason.
- Countdown.FocusTimer.Tick: the React effect that re-arms the interval
  is collapsed into one call per elapsed second.

## Findings

| source | as written | input that shows it | evidently intended | confidence | as-written member | corrected member |
|---|---|---|---|---|---|---|
| src/components/revision/ImportCSVDialog.tsx:71-76 | the headers are lower-cased (line 39), but the conversions read `row.estimatedMinutes`, `row.masteryLevel` and `row.mustWin`, keys that can never exist | a CSV whose `estimatedMinutes` column says 45 imports the topic with 30 minutes; a `masteryLevel` of Advanced becomes Beginner; a `mustWin` of true becomes false | read the lower-cased keys `estimatedminutes`, `masterylevel` and `mustwin` | high (not executed) | ImportCsv.AsWrittenIgnoresColumns | ImportCsv.BuildRow |
