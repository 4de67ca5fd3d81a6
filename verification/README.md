# HydrateMe hydration tracker: a Dafny model of its computational core

HydrateMe is a React web app. A user profile (weight, height, gender,
activity level) determines a daily fluid goal in millilitres. Drinks are
logged as timestamped intake events. From the log, the app shows today's
total, a current and a best streak of goal-met days, a seven-day history and
a few milestones. This project models the pure layer under the UI:

- `types.dfy` (module `Types`): the records and enumerations of `types.ts`.
- `hydration_goal.dfy` (module `HydrationGoal`): `calculateHydrationGoal`.
- `daily_totals.dfy` (module `Totals`): day keys (`getTodayKey`, the
  `toISOString` day of a timestamp) and the per-day totals map of
  `calculateStreaks`.
- `streaks.dfy` (module `Streaks`): the current-streak walk, the best-streak
  scan and `calculateStreaks`.
- `app.dfy` (module `App`): `addLog`, `deleteLog`, `todayLogs`/`todayTotal`,
  the `streakStats` guard, `historyData`, the goals-met count and the
  milestone tests of `App.tsx`.
- `setup_form.dfy` (module `SetupForm`): the initial form state and
  `handleSubmit` of `components/SetupForm.tsx`.
- `seqs.dfy` (module `Seqs`): the order-preserving filter used by the app.
- `local_days.dfy` (module `LocalDays`): the best-streak loop as it runs on
  instants with local-time steps, next to the day-number model.

Modelling choices:

- A day is an integer: the UTC day number `timestamp / 86400000`. This is the
  day `toISOString().split('T')[0]` names. The clock is a parameter `now`
  (epoch milliseconds), so today is `DayKey(now)`, and yesterday is today − 1.
- Log amounts are non-negative whole numbers and goals are integers. The app
  only ever logs its positive preset amounts and `Math.round` of a drink
  times its positive hydrating factor.
- The goal is 35 ml/kg plus height, gender and activity bonuses, with no
  clamp. The form reads every number with `parseInt`, so the goal formula
  takes whole-number weight and height; `Math.round` (modelled as
  `floor(x + 1/2)`) then changes nothing.
- The backward current-streak walk only stops if the goal is positive, since
  days without logs read as 0 and amounts are never negative.
  `calculateStreaks` therefore requires `logs == [] || goal > 0`, which is
  exactly the set of inputs on which the source returns
  (`Streaks.WalkNeverEndsWithoutPositiveGoal` shows the other side).
- The best-streak scan is modelled on UTC day numbers. The source steps its
  loop with local time; `LocalDays` models that loop on instants for a zone
  with one spring-forward change, which is one of the findings below.
- The best-streak scan does not reset its counter on a missed "today". The
  comment in the source says it breaks there. The model follows the code and
  proves that the difference never changes the result
  (`Streaks.TodayExceptionIsInvisible`).

## Model

| member | source | states |
|---|---|---|
| `HydrationGoal.CalculateHydrationGoal` | utils/calculations.ts:4-21 | for whole-number weight and height the rounded floating-point sum is exactly 35·weight + 200 if height > 180 + 300 if male + the activity bonus (0/300/600/1000) |
| `HydrationGoal.Round` | utils/calculations.ts:20 | Math.round: the result r satisfies x − ½ < r ≤ x + ½ (nearest integer, ties up) |
| `HydrationGoal.GoalMonotoneInWeight` | utils/calculations.ts:10 | a heavier weight never gives a smaller goal |
| `HydrationGoal.GoalMonotoneInActivity` | utils/calculations.ts:14-18 | Sedentary < Light < Moderate < Very Active never decreases the goal |
| `HydrationGoal.HeightBonusIsStrict` | utils/calculations.ts:11 | every height ≤ 180 gives the 180 cm goal; every height > 180 gives exactly 200 ml more |
| `HydrationGoal.MaleBonusExact` | utils/calculations.ts:12 | a male profile's goal is exactly 300 ml above the same profile with any other gender |
| `Totals.DayKey` | utils/calculations.ts:23-25 | the day key d of a timestamp t is its UTC day: d·86400000 ≤ t < (d+1)·86400000 |
| `Totals.Accumulate` | utils/calculations.ts:44-47 | the grouping loop never drops a key, and a day on which nothing was logged keeps its entry |
| `Totals.AccumulateAddsSums` | utils/calculations.ts:44-47 | the grouping loop adds each log's amount to its own day and creates entries for exactly the logged days |
| `Totals.DailyTotals` | utils/calculations.ts:43-47 | the totals map has one key per logged day; every day reads (absent as 0) the sum of that day's amounts |
| `Totals.EarliestDay` | utils/calculations.ts:49-62 | the scan's first day is a logged day and no logged day is earlier |
| `Totals.NonzeroTotalIsLogged` | utils/calculations.ts:68 | a day whose total is non-zero is a logged day, hence not before the earliest logged day |
| `Streaks.WalkBack` | utils/calculations.ts:95-103 | with a positive goal the walk ends; its count c makes the c days ending at the start day all met and the day before them missed |
| `Streaks.WalkBackFuel` | utils/calculations.ts:95-103 | the walk for any goal, cut off after `fuel` steps: when it returns a count c, the c days ending at the start day are met and the day before is missed |
| `Streaks.WalkBackFuelAgrees` | utils/calculations.ts:95-103 | with a positive goal and one step per logged day up to the start day, the walk returns WalkBack's count |
| `Streaks.WalkNeverEndsWithoutPositiveGoal` | utils/calculations.ts:95-103 | with a goal of 0 or less the walk has not stopped after any number of steps |
| `Streaks.CurrentStreak` | utils/calculations.ts:84-104 | the current streak is 0 iff neither today nor yesterday meets the goal; otherwise it is the maximal met run ending at today if met, else yesterday |
| `Streaks.CurrentStreakAtLeast` | utils/calculations.ts:94-103 | the current streak reaches n iff the n days ending at the anchor all meet the goal |
| `Streaks.BestScan` | utils/calculations.ts:66-81 | the scan never lowers the maximum; a larger result is a counter value, at most the entry counter plus the number of days scanned |
| `Streaks.TodayExceptionIsInvisible` | utils/calculations.ts:73-79 | not resetting the counter on a missed today gives the same best streak as resetting it |
| `Streaks.ScanFindsLongestRun` | utils/calculations.ts:66-81 | from any state keeping the counter and maximum invariants, the scan ends with the length of the longest met run within the earliest day..today |
| `Streaks.BestStreak` | utils/calculations.ts:59-82 | the best streak is the length of some met run within the earliest logged day..today, and no met run there is longer |
| `Streaks.BestStreakOfFutureLogs` | utils/calculations.ts:66 | when the earliest logged day is after today the best streak is 0 |
| `Streaks.CalculateStreaks` | utils/calculations.ts:39-107 | an empty log gives {0, 0}; current ≤ best; current is 0 iff the log is empty or neither today's nor yesterday's total reaches the goal |
| `Streaks.CurrentWithinBest` | utils/calculations.ts:55-104 | every day of the current run has a positive total, so lies in the best-streak scan range: current ≤ best |
| `LocalDays.NextLocalDay` | utils/calculations.ts:80 | the local `setDate(+1)` step is 24 hours, or 23 hours exactly when the spring-forward instant comes after `t` and at most 23 hours later; a change in the last hour before the step's end lands in the skipped hour and gives 24 hours |
| `LocalDays.LocalBestScan` | utils/calculations.ts:61-81 | the scan over instants from UTC midnight of the first day while `iterDate <= now`, keyed by UTC day; it ends with the old maximum once past now and never lowers it |
| `LocalDays.LocalScanAwayFromChange` | utils/calculations.ts:61-81 | without a clock change in the scanned range the instant scan equals the UTC day-number scan |
| `LocalDays.SpringForwardHidesToday` | utils/calculations.ts:61-104 | in New York on 2024-03-11, with 100 ml the day before and 250 ml today, goal 250, the loop as written yields best 0 while the current streak is 1; the day-number scan yields 1 |
| `Seqs.Filter` | App.tsx:67-69 | the filter keeps exactly the elements satisfying the predicate, never grows, is the identity when all pass and empty when none pass |
| `Seqs.FilterAppend` | App.tsx:73-76 | filtering distributes over concatenation, i.e. it preserves the order of the kept elements |
| `App.AddLog` | App.tsx:57-65 | the new log, stamped with the current time, is first and every earlier log follows unchanged and in order |
| `App.AddLogTotals` | App.tsx:64 | adding a log raises its own day's total by its amount and leaves every other day's total unchanged |
| `App.DeleteLog` | App.tsx:67-69 | the result holds exactly the logs whose id differs, never grows, and is unchanged for an unknown id |
| `App.DeleteUndoesAdd` | App.tsx:57-69 | deleting a just-added log whose id no earlier log has restores the previous list |
| `App.DeleteSplitsTotal` | App.tsx:68 | a day's total is the kept logs' total plus the total of the logs carrying the deleted id |
| `App.DeleteUniqueLog` | App.tsx:67-69 | deleting the only log with a given id removes exactly its amount from its day's total |
| `App.TodayLogs` | App.tsx:72-77 | today's logs are the logs dated today, each taken from the list, and none dated today is missed |
| `App.SumOfDayFilter` | App.tsx:79 | summing the amounts of the logs filtered to a day gives that day's total |
| `App.SumAmounts` | App.tsx:79 | the reduce's sum contains each amount and is 0 exactly when every amount is 0; SumOfDayFilter ties it to the per-day total |
| `App.TodayTotal` | App.tsx:79 | today's total equals the streak engine's total for today's day key |
| `App.StreakStatsFor` | App.tsx:83-86 | without a profile the stats are {0, 0}; otherwise they are calculateStreaks with the profile's goal, and current ≤ best |
| `App.LastSevenDays` | App.tsx:92-96 | the reversed seven-day list runs today − 6 … today, oldest first |
| `App.AccumulateWindow` | App.tsx:98-105 | the window keeps its keys and each key's value grows by exactly that day's total; other logs are ignored |
| `App.HistoryData` | App.tsx:88-112 | no profile gives []; otherwise 7 entries for today − 6 … today, each with that day's total and the profile's goal |
| `App.HistoryEndsToday` | App.tsx:92-103 | the last entry is today and its total equals todayTotal; consecutive dates differ by one day |
| `App.HistoryIgnoresOutside` | App.tsx:100-105 | appending logs dated outside the window leaves the history unchanged |
| `App.GoalsMet` | App.tsx:287 | the count is at most the number of entries; it equals it iff every entry's total reaches its goal, and is 0 iff none does |
| `App.GoalsMetOfWindow` | App.tsx:287 | over the window the count is in 0..7; it is 7 iff each of the last seven days reaches the goal, 0 iff none does |
| `App.StreakStarter` | App.tsx:296-301 | the Streak Starter test `currentStreak >= 3`; its meaning in days is StreakStarterMeansThreeDays |
| `App.GallonChugger` | App.tsx:302-307 | the Gallon Chugger test `todayTotal > 3800` holds exactly when the day's intake is over 3.8 litres, as the milestone's description says |
| `App.WaterLegend` | App.tsx:308-313 | the Water Legend test `bestStreak >= 7`; its meaning in days is WaterLegendMeansSevenDays |
| `App.StreakStarterMeansThreeDays` | App.tsx:296-301 | Streak Starter holds iff the anchor day and the two days before it all reach the goal |
| `App.WaterLegendMeansSevenDays` | App.tsx:308-313 | Water Legend holds iff seven consecutive goal-met days lie between the earliest logged day and today |
| `App.GallonChuggerMatchesHistory` | App.tsx:302-307 | Gallon Chugger (today's total > 3800) agrees with the last history entry's total |
| `SetupForm.InitialFormData` | components/SetupForm.tsx:13-20 | each field comes from the stored profile when truthy; a missing profile, an empty name or a stored 0 fall back to '', 25, 70, 170, Male, Light |
| `SetupForm.HandleSubmit` | components/SetupForm.tsx:22-31 | the submitted profile carries the form fields unchanged plus a goal of exactly 35·weight + height, gender and activity bonuses |
| `SetupForm.DefaultGoal` | components/SetupForm.tsx:15-19 | submitting the untouched defaults gives a goal of 3050 ml |
| `SetupForm.ResubmitKeepsProfile` | components/SetupForm.tsx:13-31 | re-opening the form on a submitted profile with non-zero numbers and submitting gives the same profile |

## Left out

- Persistence: loading and saving the profile and the log in localStorage as
  JSON, and `handleProfileComplete`, which only stores the profile. This is
  I/O; the model passes the profile and the log as values.
- The clock and ids: `Date.now()` and `new Date()` become the parameter
  `now`. The `Math.random()` id of `addLog` becomes a parameter, and ids are
  not assumed unique.
- Calendar machinery: the `YYYY-MM-DD` strings and the local `setDate` steps
  of yesterday's key, the current-streak walk and the history days are
  modelled as ±1 on the UTC day number. Without a clock change a local
  `setDate(±1)` is exactly 24 hours and always lands on the adjacent UTC
  day. For yesterday's key, the walk and the history days a wrong day needs
  both a clock change inside the step and a starting instant within an hour
  of a UTC midnight; that case is not modelled.
- Streaks.BestStreak: scans each UTC day from the first logged day through
  today exactly once. The source's scan steps with local `setDate`, which
  keeps the local wall-clock time, and compares instants
  (utils/calculations.ts:62-80). Its instant therefore drifts one hour
  earlier at each spring-forward and one hour later at each fall-back
  (unless the change lands in the skipped hour). A drift from 00:00 to
  23:00 UTC visits that day twice; a drift from 23:00 back to 00:00 UTC skips
  the fall-back day, whose miss then does not reset the counter; sitting at
  23:00 or 01:00 UTC the scan reaches today only late or not at all. So its
  result can be larger or smaller than this one (see Findings). `LocalDays`
  models a zone with a single spring-forward only.
- Streaks.CurrentWithinBest: current ≤ best holds of the day-number model; the
  source as written can return a current streak above the best streak after
  a spring-forward (`LocalDays.SpringForwardHidesToday`).
- Streaks.CalculateStreaks: with a non-empty log and a goal of 0 or less the
  source does not return: its walk goes back about 10^8 days until the date
  leaves the range of `toISOString`, which then throws a RangeError. The
  model excludes those inputs by its requires.
- Streaks.CalculateStreaks: reads one `now`; the source reads the clock
  separately at utils/calculations.ts:50, 51, 63 and 94, and calls that
  straddle a midnight are not modelled.
- App.HistoryEndsToday: holds when the history and today's total are computed
  at the same `now`. The source memoises `historyData` on `[logs, profile]`
  only (App.tsx:88-112) while `todayLogs` follows `todayKey` (App.tsx:72-77),
  so after UTC midnight with no new log the shown history still ends
  yesterday.
- App.GallonChuggerMatchesHistory: same caveat; the same memoisation applies
  to `streakStats` (App.tsx:83-86), so the shown streaks and milestones can
  lag today's total by a day.
- HydrationGoal.CalculateHydrationGoal: takes whole numbers, as the setup form
  passes `parseInt` results. Fractional weights, where JavaScript rounds each
  double product and sum, and weights beyond 2^53/35 (about 2.6·10^14), where
  the product is no longer exact, are not modelled.
- Totals.DayKey: accepts any integer timestamp. `toISOString` throws a
  RangeError beyond ±8.64·10^15 ms, and outside the years 0000–9999 it gives
  `±YYYYYY` keys that the string sort at utils/calculations.ts:49 puts out of
  day order; neither is modelled.
- NaN: `parseInt` of an empty field gives NaN, and the `required` inputs keep
  it out; the model's numbers are always integers.
- Floating point: `formatVolume`, the progress percentage, the average-daily
  division and the rounded hydrating-factor amount are not modelled.
- The advice service, the image editor and every presentation component
  (charts, waves, badges, character stage) are not modelled.
- The profile fields `weightUnit`, `exerciseMinutesPerSession`,
  `exerciseDaysPerWeek`, `climate`, `caffeineCups` and `hasMedicalCondition`
  are declared in `types.ts` but never set or read by the modelled code, so
  the profile type leaves them out.

## Findings

| source | as written | input that shows it | evidently intended | confidence | as-written member | corrected member |
|---|---|---|---|---|---|---|
| utils/calculations.ts:95-103 | the `while (true)` walk stops only at a day whose total is below the goal, and the setup form accepts any weight | weight 0, height 170, Female, Sedentary gives a goal of 0 (`SetupForm.HandleSubmit`); with any log every day then meets the goal, and the walk goes back about 10^8 days before `toISOString` throws a RangeError inside the `streakStats` memo, freezing and then crashing the render | a positive goal, so the walk stops at the first day without logs; the progress percentage at App.tsx:80 also divides by the goal | not executed | `Streaks.WalkNeverEndsWithoutPositiveGoal` | `Streaks.WalkBack` |
| utils/calculations.ts:62-80 | the best-streak loop starts at UTC midnight, steps with local `setDate(+1)` and stops when the instant passes now | New York, 100 ml on 2024-03-10 and 250 ml on 2024-03-11, goal 250, now 2024-03-11T14:00Z: the loop visits 2024-03-10 twice and never 2024-03-11, giving best 0 with current 1 | scan every day from the first logged day through today exactly once, so that current ≤ best | not executed | `LocalDays.SpringForwardHidesToday` | `Streaks.BestStreak` |
