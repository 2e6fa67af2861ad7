# Wellbeing assistant: workout log and insights stores

This project models the two state stores at the centre of the wellbeing
assistant, a fitness app.

- The **workout store** (`src/store/workoutStore.ts`) holds the list of logged
  workouts. It keeps that list newest first whenever a workout is added. It
  also updates and deletes workouts by id, looks a workout up, and computes
  summary statistics: totals, the workouts of the last seven days, and the
  most frequent type.
- The **insights store** (`src/store/insightsStore.ts`) works from the workout
  list and today's health snapshot. It does four things:
  - it generates up to four rule-based insights (motivation or a rest
    warning, sleep, balance, consistency);
  - it computes a recovery score from 0 to 100, with its factors and a trend;
  - it turns that score into a training recommendation;
  - it dismisses insights by id.

Each store is a Dafny `class` whose fields are the store's state. Each action
that changes the state is a method with a `modifies` clause naming what it
changes; the two queries of the workout store, `GetWorkoutById` and
`GetWorkoutStats`, only read it. Every method is proved against a
specification function, and lemmas prove what the app relies on about those
functions.

Files:

- `Wrappers.dfy`: `Option`.
- `WorkoutTypes.dfy`, `HealthTypes.dfy`, `InsightTypes.dfy`: the records of
  `src/types`.
- `WorkoutHistory.dfy`: what both stores share.
  - The seven-day window.
  - The `forEach` loop that fills the per-type counts, proved against `Count`.
  - The pick of the dominant entry after a stable sort by count.
- `Workouts.dfy`: the workout store, with its list functions.
- `Recovery.dfy`: the recovery score and the recommendation.
- `InsightRules.dfy`: the five insight rules.
  - The insight each rule pushes.
  - The order in which the insights are pushed.
  - The ids they take.
- `Insights.dfy`: the insights store itself.
  - What the rules observe in the history and the snapshot.
  - The four push stages of `generateInsights`.
  - Dismissal.

The environment becomes parameters:

- The clock is `now`, in milliseconds.
- The ids `nanoid()` draws are `id`, `exerciseIds` and `ids`.
- `toDateString` is `dayOf`.
- The workout list and health snapshot, which the insights store reads from
  the other stores, are `workouts` and `healthMetrics`.

In three places the model follows the code as written rather than the
obvious reading:

- The rest factor of the recovery score measures from `workouts[0]`, the head
  of the list. It does not use the workout with the latest date.
  `Recovery.RestMeasuredFromNewest` shows that the two agree while the list
  is kept newest first. `Workouts.UpdateMayBreakOrder` shows that an update
  that changes a date can break that order.
- The sleep factor of the recovery score is `sleepHours || 7`. A recorded
  value of 0 therefore counts as seven hours, just like a missing one
  (`Recovery.SleepOrDefault`).
- The sleep rule of `generateInsights` tests `sleepHours` for truthiness. A
  value of 0 therefore does not fire it, and a negative value does.

## Model

| member | source | states |
|---|---|---|
| Workouts.WorkoutStore.constructor | src/store/workoutStore.ts:26-28 | the store starts with no workouts |
| Workouts.WithId | src/store/workoutStore.ts:35-38 | an exercise of the new workout has its fresh id and otherwise exactly the form's fields |
| Workouts.NewWorkout | src/store/workoutStore.ts:31-44 | the new record has the fresh id, date, createdAt and updatedAt set to now; it is not synced; it has no calories, media or voice note; it copies type, duration and notes from the form; and each exercise is the form's exercise with its own fresh id |
| Workouts.InsertByDate | src/store/workoutStore.ts:47-49 | placing one workout among the others adds exactly that workout: one more element, same multiset plus the new one |
| Workouts.InsertKeepsSorted | src/store/workoutStore.ts:47-49 | placing a workout in a newest-first list keeps the list newest first |
| Workouts.SortByDateDesc | src/store/workoutStore.ts:47-49 | the sort by date, descending, is a permutation of its input and is ordered newest first |
| Workouts.SortSortedIsIdentity | src/store/workoutStore.ts:47-49 | a list already newest first comes back unchanged |
| Workouts.SortedByDateDesc | src/store/workoutStore.ts:47-49 | a list ordered newest first has each date no later than the one before it and none later than its head's |
| Workouts.WithDate | src/store/workoutStore.ts:47-49 | the workouts of one date are exactly those of the list with that date |
| Workouts.WithDateAppend | src/store/workoutStore.ts:47-49 | the workouts of one date in a concatenation are those of the first part followed by those of the second |
| Workouts.InsertWithDate | src/store/workoutStore.ts:47-49 | placing a workout keeps the workouts of every date in their order and puts the new one before those dated like it |
| Workouts.SortIsStable | src/store/workoutStore.ts:47-49 | the sort is stable: for every date, the workouts with that date appear in the same order before and after the sort |
| Workouts.NewestAddedGoesFirst | src/store/workoutStore.ts:46-50 | a workout no older than every logged one ends up at the head of the list |
| Workouts.AddToSortedPrepends | src/store/workoutStore.ts:46-50 | adding the newest workout to a newest-first list only prepends it; nothing else moves |
| Workouts.WorkoutStore.AddWorkout | src/store/workoutStore.ts:30-53 | returns the new record; the list becomes the sorted list of the new workout and the old ones, one longer, newest first, and the old multiset plus the new workout |
| Workouts.ApplyPatch | src/store/workoutStore.ts:59 | a field the patch gives takes the patch's value, every other field keeps the old one, and `updatedAt` is now even when the patch gives one |
| Workouts.UpdateById | src/store/workoutStore.ts:56-62 | the length is kept; workouts with another id are untouched; each workout with the id becomes the patched record, with updatedAt set to now |
| Workouts.UpdateAbsentIsNoop | src/store/workoutStore.ts:56-62 | updating an id that is not in the log leaves the log as it is |
| Workouts.UpdateMayBreakOrder | src/store/workoutStore.ts:55-63 | there is a newest-first log and a date patch after which the log is out of order: updates do not re-sort |
| Workouts.WorkoutStore.UpdateWorkout | src/store/workoutStore.ts:55-63 | the list becomes the old list with the patch applied to the workouts with that id |
| Workouts.RemoveById | src/store/workoutStore.ts:66-68 | a workout is kept exactly when it was in the list and has another id; the list never grows |
| Workouts.RemoveByIdAppend | src/store/workoutStore.ts:67 | the filter works piecewise over a concatenation, so the workouts it keeps stay in their order |
| Workouts.RemoveAbsentIsNoop | src/store/workoutStore.ts:67 | deleting an id that is not in the log changes nothing |
| Workouts.RemoveIsIdempotent | src/store/workoutStore.ts:65-69 | deleting twice is deleting once |
| Workouts.TailIdsUnique | src/store/workoutStore.ts:67 | with distinct ids, the tail has distinct ids, none of them the head's |
| Workouts.RemoveUniqueCutsOut | src/store/workoutStore.ts:65-69 | with distinct ids, deleting the id of the k-th workout removes exactly that workout and keeps the rest in order |
| Workouts.WorkoutStore.DeleteWorkout | src/store/workoutStore.ts:65-69 | the list becomes the old list without the workouts that have that id |
| Workouts.FindById | src/store/workoutStore.ts:72 | nothing is found exactly when no workout has the id; otherwise the result is the first workout with that id |
| Workouts.FindAfterAdd | src/store/workoutStore.ts:30-53 | after adding a workout under a fresh id, looking that id up finds the new workout |
| Workouts.FindAfterRemove | src/store/workoutStore.ts:65-73 | after deleting an id, looking it up finds nothing |
| Workouts.WorkoutStore.GetWorkoutById | src/store/workoutStore.ts:71-73 | returns the first workout of the held list with that id, or nothing |
| Workouts.SumDuration | src/store/workoutStore.ts:82 | the total duration is not negative when no duration is |
| Workouts.SumDurationStep | src/store/workoutStore.ts:82 | adding the next workout's duration to the total of a prefix gives the total of the longer prefix, as `reduce` does |
| Workouts.SumDurationAppend | src/store/workoutStore.ts:82 | the duration total splits over a concatenation, so summing one workout at a time from the left gives the same total |
| Workouts.SumCalories | src/store/workoutStore.ts:83-86 | a log with no calorie values totals 0, and a single workout totals its calorie value or 0 when it has none |
| Workouts.SumCaloriesStep | src/store/workoutStore.ts:83-86 | adding the next workout's calories, or 0, to the total of a prefix gives the total of the longer prefix, as `reduce` does |
| Workouts.SumCaloriesAppend | src/store/workoutStore.ts:83-86 | the calorie total splits over a concatenation, so summing one workout at a time from the left gives the same total |
| Workouts.InsertSumDuration | src/store/workoutStore.ts:82 | placing a workout in the list adds exactly its duration to the total duration |
| Workouts.SortSumDuration | src/store/workoutStore.ts:82 | sorting does not change the total duration |
| Workouts.AddSumDuration | src/store/workoutStore.ts:82 | after adding a workout the total duration grows by exactly its duration |
| Workouts.SumCaloriesNonNegative | src/store/workoutStore.ts:83-86 | the calorie total is not negative when no logged value is; a missing value adds nothing |
| Workouts.MostFrequentType | src/store/workoutStore.ts:94-96 | an empty log gives `strength`; otherwise a type that occurs and that no other type outnumbers |
| Workouts.WorkoutStatsOf | src/store/workoutStore.ts:75-105 | the total count, the last-seven-days count (never above the total), the sums of durations and of calories with a missing value counting as 0, and the most frequent type |
| Workouts.WorkoutStore.GetWorkoutStats | src/store/workoutStore.ts:75-105 | the statistics of the held list, as above |
| WorkoutHistory.DaysSince | src/store/insightsStore.ts:155-157 | the days elapsed times the length of a day is the time elapsed, and not negative for a date in the past |
| WorkoutHistory.InLastWeek | src/store/workoutStore.ts:77-80 | a workout is in the window exactly when at most seven days have passed since its date |
| WorkoutHistory.LastWeek | src/store/workoutStore.ts:77-80 | keeps exactly the workouts dated no earlier than seven days before now; never longer than the history |
| WorkoutHistory.LastWeekAppend | src/store/workoutStore.ts:80 | the window splits over a concatenation, so it keeps each workout of the week once and in order, which fixes the weekly count |
| WorkoutHistory.LastWeekExtremes | src/store/insightsStore.ts:42-44 | a history wholly inside the week is its own window, one wholly outside it has an empty window |
| WorkoutHistory.Count | src/store/workoutStore.ts:89-92 | a type's count, the value the loop stores under its key, never exceeds the number of workouts |
| WorkoutHistory.CountsCoverHistory | src/store/workoutStore.ts:89-92 | the counts of the five types add up to the number of workouts |
| WorkoutHistory.CountZeroIffAbsent | src/store/workoutStore.ts:89-92 | a type's count is zero exactly when no workout has that type |
| WorkoutHistory.TypesInOrder | src/store/workoutStore.ts:89-92 | the keys of the counts object: exactly the types that occur, each once |
| WorkoutHistory.CountsStep | src/store/workoutStore.ts:91 | one increment of the counts turns the counts and keys of a prefix into those of the next prefix |
| WorkoutHistory.CountTypes | src/store/workoutStore.ts:89-92 | the loop yields the keys in order of first appearance; a type has an entry exactly when it is a key, and its entry is its count in the history |
| WorkoutHistory.FirstMaximalIndex | src/store/workoutStore.ts:95 | the head of the entries after a stable sort by count, descending: a key no other key outnumbers, and every earlier key has a strictly smaller count |
| WorkoutHistory.MaximalStep | src/store/workoutStore.ts:95 | moving to a new key exactly when its count is strictly larger keeps the first maximal key of the keys seen so far |
| WorkoutHistory.PickDominant | src/store/workoutStore.ts:95 | no entry exactly when there are no keys; otherwise the first maximal key with its count |
| WorkoutHistory.Dominant | src/store/insightsStore.ts:85-90 | no dominant entry exactly when the history is empty; otherwise a type that occurs, with its count, that no other type outnumbers |
| WorkoutHistory.DominantType | src/store/insightsStore.ts:85-90 | the counting loop followed by the pick gives the dominant entry |
| Recovery.SleepOrDefault | src/store/insightsStore.ts:136 | the sleep hours used are the recorded value when it is present and non-zero, and 7 otherwise, so never 0 |
| Recovery.RestAdjustment | src/store/insightsStore.ts:152-163 | no adjustment for an empty history; otherwise +10 exactly from two days since the head of the list, -5 exactly under one day, none in between |
| Recovery.SleepAdjustment | src/store/insightsStore.ts:137-141 | +15 exactly from eight hours, -20 exactly under six, none exactly in between |
| Recovery.LoadAdjustment | src/store/insightsStore.ts:146-150 | +15 exactly for an empty week, -15 exactly from six workouts, none exactly in between |
| Recovery.RawScore | src/store/insightsStore.ts:133-163 | the score before clamping lies in 30..110, and is at least 65 with no workouts |
| Recovery.Clamp | src/store/insightsStore.ts:166 | the result lies in 0..100, equals the input inside that range, and is 100 above it and 0 below it |
| Recovery.TrendOf | src/store/insightsStore.ts:169 | stable exactly from 70, declining exactly from 50 to below 70, improving exactly below 50 |
| Recovery.RecoveryOf | src/store/insightsStore.ts:123-186 | no score exactly when there is no snapshot; otherwise a score between 30 and 100, with sleep defaulting to 7, the load equal to the last week's count, rest days 7 for an empty history or the days since `workouts[0]`, and the time of calculation |
| Recovery.RecoveryScoreIsClampedSum | src/store/insightsStore.ts:133-169 | the score is the clamp of 70 plus the sleep, load and rest adjustments; that sum lies in 30..110; the trend follows the score bands |
| Recovery.RestedEmptyHistoryScoresFull | src/store/insightsStore.ts:133-166 | with no workouts and at least eight hours of sleep the score is 100 and the trend stable |
| Recovery.ScoreMonotoneInSleep | src/store/insightsStore.ts:136-141 | more sleep never lowers the score, all else equal |
| Recovery.RestMeasuredFromNewest | src/store/insightsStore.ts:153-163 | in a newest-first list the head has the fewest days since it, so the rest factor counts from the most recent workout |
| Recovery.ScoreRecovery | src/store/insightsStore.ts:123-186 | the step-by-step computation on a running score stores the recovery score described above |
| Insights.InsightsStore.constructor | src/store/insightsStore.ts:31-34 | the store starts with no insights, no recovery score and no recommendation |
| Insights.InsightsStore.CalculateRecoveryScore | src/store/insightsStore.ts:123-186 | the held score becomes the recovery score of the given workouts and snapshot |
| Recovery.Recommend | src/store/insightsStore.ts:196-229 | rest exactly below 40, light exactly from 40 to below 60, moderate exactly from 60 to below 80, intense exactly from 80; each band with its three suggested activities |
| Recovery.RecommendationFor | src/store/insightsStore.ts:188-232 | no recommendation exactly when there is no score; otherwise the recommendation for the score |
| Recovery.RecommendMonotone | src/store/insightsStore.ts:198-229 | a higher score never gives a less intense recommendation |
| Recovery.RecommendAfterScore | src/store/insightsStore.ts:123-232 | scoring then recommending: no snapshot gives no recommendation; an empty history after eight hours of sleep gives the intense one |
| Insights.InsightsStore.GetRecommendation | src/store/insightsStore.ts:188-232 | the held recommendation becomes the one for the held score, or none |
| InsightRules.InsightFor | src/store/insightsStore.ts:47-116 | each pushed insight has the fresh id, its rule's type, the creation time now and no expiry; it is actionable, and has an action, exactly for motivation, warning and sleep, with the texts "Log your first workout", "Take a rest day" and "Set earlier bedtime"; its priority is high exactly for motivation and sleep, medium exactly for the warning, low exactly for balance and consistency |
| InsightRules.LoadRule | src/store/insightsStore.ts:46-68 | at most one rule: the motivation exactly for an empty week, the warning with the count exactly from five workouts |
| InsightRules.SleepRule | src/store/insightsStore.ts:71-82 | at most one rule, fired exactly when sleep is low, reporting the hours |
| InsightRules.BalanceRule | src/store/insightsStore.ts:90-101 | at most one rule, fired exactly when the history is unbalanced, reporting the dominant type |
| InsightRules.ConsistencyRule | src/store/insightsStore.ts:104-118 | at most one rule, the consistency rule, fired exactly for a consistent history |
| InsightRules.FiredRules | src/store/insightsStore.ts:46-118 | the rules in the source's order: at most four; the motivation exactly for an empty week; consistency exactly for a consistent history |
| InsightRules.Stamp | src/store/insightsStore.ts:47-116 | one insight per fired rule, the k-th taking the k-th fresh id, its rule's kind and the creation time now |
| InsightRules.InRuleOrderAppend | src/store/insightsStore.ts:46-118 | two runs in rule order, all ranks of the first below all ranks of the second, concatenate in rule order |
| InsightRules.FourStagesInOrder | src/store/insightsStore.ts:46-118 | four stages of at most one insight each, with increasing ranks, give at most four insights in rule order |
| InsightRules.RuleKindsAppend | src/store/insightsStore.ts:46-118 | the kinds of a concatenation of rules are the concatenation of their kinds |
| InsightRules.StampKinds | src/store/insightsStore.ts:47-116 | stamping rules with ids keeps each rule's kind, in order |
| InsightRules.Opt | src/store/insightsStore.ts:71-118 | a single stage shows its kind exactly when it fires |
| InsightRules.LoadKinds | src/store/insightsStore.ts:46-68 | the load stage shows motivation exactly when the week is empty and a warning exactly from five workouts on, never both |
| InsightRules.StageKindsInOrder | src/store/insightsStore.ts:46-118 | the stages show at most four kinds, in rule order |
| InsightRules.StageKindsMembers | src/store/insightsStore.ts:46-118 | each kind shows exactly when its stage fires; recovery never shows |
| InsightRules.FiredKinds | src/store/insightsStore.ts:46-118 | at most four rules fire, and their kinds are the stages' kinds |
| InsightRules.ObservedKinds | src/store/insightsStore.ts:46-118 | the stamped insights: at most four, in rule order, each kind exactly when its stage's condition holds, and never a recovery insight |
| InsightRules.StampedMessages | src/store/insightsStore.ts:47-116 | the warning reports the week's count, the sleep insight the hours slept, the balance insight the dominant type; actionable and an action exactly for motivation, warning and sleep, with the texts "Log your first workout", "Take a rest day" and "Set earlier bedtime"; no expiry; the priority of each kind |
| InsightRules.StampPush | src/store/insightsStore.ts:47-116 | a push appends the rule's insight under the next fresh id |
| Insights.SleepIsLow | src/store/insightsStore.ts:71 | the sleep rule never fires without a snapshot or a sleep value; with one it fires exactly when the hours the recovery score uses are the recorded value and under 7 |
| Insights.IsUnbalanced | src/store/insightsStore.ts:91 | some type counts more than 0.7 times the number of workouts, which needs a non-empty history |
| Insights.IsConsistent | src/store/insightsStore.ts:104-107 | the history is consistent exactly when it spans at least three distinct days; the three-workout guard then always holds |
| Insights.SeventyPercent | src/store/insightsStore.ts:91 | over exact reals, a count above 0.7 times the length is the same as 10 times the count above 7 times the length |
| Insights.DistinctDays | src/store/insightsStore.ts:105-106 | the distinct days are exactly the days on which some workout was logged |
| Insights.DistinctDaysSnoc | src/store/insightsStore.ts:105-106 | the days of a log are the days of all but its last workout plus the last one's day |
| Insights.DistinctDaysAtMostWorkouts | src/store/insightsStore.ts:104-107 | there are never more distinct days than workouts, so three distinct days already imply the three-workout guard |
| Insights.UnbalancedType | src/store/insightsStore.ts:85-91 | the balance rule fires exactly when some type makes up more than 70% of the history, and then it reports the most frequent type |
| Insights.LowSleepOf | src/store/insightsStore.ts:71 | the sleep rule fires exactly when a snapshot has a non-zero sleep value under seven, and then it reports that value |
| Insights.Observe | src/store/insightsStore.ts:42-107 | the observations are the last week's count, the low sleep value, the dominant type when unbalanced, and consistency: at least three workouts on at least three distinct days |
| Insights.GeneratedInsights | src/store/insightsStore.ts:36-121 | at most four insights, in rule order; motivation exactly for an empty week, a warning exactly from five workouts in the week, never both; sleep exactly when sleep is low; balance exactly when one type exceeds 70%; consistency exactly for three workouts on three days; never a recovery insight; the k-th insight takes the k-th fresh id and is created now |
| Insights.InsightMessages | src/store/insightsStore.ts:47-116 | the warning reports the week's count, the sleep insight the hours slept, the balance insight the most frequent type; exactly motivation, warning and sleep are actionable and have an action, with the texts "Log your first workout", "Take a rest day" and "Set earlier bedtime"; no expiry; priority high for motivation and sleep, medium for the warning, low for balance and consistency |
| Insights.EmptyStartGivesOnlyMotivation | src/store/insightsStore.ts:36-121 | with no workouts and no snapshot, the only insight is the motivational one |
| Insights.Push | src/store/insightsStore.ts:47-116 | a push appends the next rule's insight so the list stays the stamped fired rules |
| Insights.LoadStage | src/store/insightsStore.ts:42-68 | the first stage pushes the load rule for the last week's count |
| Insights.SleepStage | src/store/insightsStore.ts:71-82 | the second stage pushes the sleep rule exactly when sleep is low |
| Insights.BalanceStage | src/store/insightsStore.ts:85-101 | the third stage, with the counting loop and the pick, pushes the balance rule exactly when one type exceeds 70% |
| Insights.ConsistencyStage | src/store/insightsStore.ts:104-118 | the fourth stage pushes the consistency rule exactly for three workouts on three distinct days |
| Insights.BuildInsights | src/store/insightsStore.ts:36-121 | the four stages in the source's order produce the generated insights described above |
| Insights.InsightsStore.GenerateInsights | src/store/insightsStore.ts:36-121 | the held insights are replaced by the generated insights |
| Insights.WithoutInsight | src/store/insightsStore.ts:236 | an insight is kept exactly when it was held and has another id; the list never grows |
| Insights.WithoutInsightAppend | src/store/insightsStore.ts:236 | dismissal works piecewise over a concatenation, so the kept insights stay in their order |
| Insights.DismissAbsentIsNoop | src/store/insightsStore.ts:234-238 | dismissing an id that is not held changes nothing |
| Insights.DismissIsIdempotent | src/store/insightsStore.ts:234-238 | dismissing twice is dismissing once |
| Insights.TailInsightIdsUnique | src/store/insightsStore.ts:236 | with distinct ids, the tail has distinct ids, none of them the head's |
| Insights.DismissUniqueCutsOut | src/store/insightsStore.ts:234-238 | with distinct ids, dismissing the k-th insight's id removes exactly that insight and keeps the rest in order |
| Insights.InsightsStore.DismissInsight | src/store/insightsStore.ts:234-238 | the held list becomes the old list without the insights that have that id |

## Left out

- `setLoading` and `setError`, with the `isLoading` and `error` fields: they only store their argument.
- The health store, the HealthKit service, the screens, `dateHelpers` and the types no operation uses are not part of this model. The health snapshot and workout list the insights store reads from the other stores are parameters.
- `nanoid()`, `new Date()` / `Date.now()` and `toDateString` are parameters: fresh ids, one `now` in milliseconds, and a `dayOf` function.
- Insights.BuildInsights, Recovery.ScoreRecovery, Workouts.NewWorkout, Workouts.UpdateById: one `now` is used where the source reads the clock several times within one call: the week window, each `createdAt`, the rest factor and `lastCalculated`; the new workout's `date`, `createdAt` and `updatedAt`; and the `updatedAt` of each patched workout. So the model's `date == createdAt == updatedAt` and the single `updatedAt` can differ from the source by the milliseconds between reads.
- Insights.SeventyPercent, Insights.IsUnbalanced: `workouts.length * 0.7` is compared over exact reals, not IEEE doubles. The two differ where the double product rounds, e.g. 63 of 90 workouts.
- WorkoutHistory.DaysSince: the division is exact real division, not a double.
- Workouts.SumDuration, Workouts.SumCalories: the totals are exact real sums, not the left-to-right double additions of `reduce`. Over exact reals the order of the additions does not matter (`SumDurationAppend`, `SumCaloriesAppend`); over doubles it can change the last bits.
- The interpolated insight messages are structured values: a template with the interpolated count, hours or type. `toFixed(1)` formatting and the message texts around the value are not modelled.
- Workouts.ApplyPatch: a patch can give a field a new value or leave it alone. It cannot set a required field to `undefined`, which TypeScript's `Partial` would allow at run time.
- Insight ids: `generateInsights` draws a fresh id for each push. The model takes at least four ids, one for each possible push. It does not prove that the ids differ from those of earlier insights.
- Concurrency between stores, and the subscription and rendering machinery of the store library, are not modelled.
