# DailyBurnTrackerMobile — a verified model of the app's logic

DailyBurnTrackerMobile is a React Native fitness app. It has:

- an interval workout timer: 40-second work and 20-second rest phases over a list of exercises;
- a weekday workout plan built from a fixed catalogue of ten exercises;
- a meal journal scored by the three Plate Method habits;
- a frequency tracker that logs sessions of a given number of minutes, charts them over the week and derives statistics and advice.

This project models the logic behind those screens in Dafny and proves what it promises.

- `workout_timer.dfy` (module `WorkoutTimer`) covers the timer's state machine:
  - The pure step functions `AfterTick`, `AfterTransition`, `AfterNextExercise`, `AfterToggle` and `AfterReset` describe one step each.
  - `Replay` runs a sequence of inputs.
  - Class `Timer` holds the five state variables and the calls made to the host. Its methods are proved against the step functions.
  - The main result, `ReplayCredits` / `CreditsSinceLastReset`: the host is credited exactly one minute per 60 counted seconds, whatever the phases, skips and pauses.
- `exercises.dfy` (module `Exercises`): the catalogue, `getWorkoutForDay` and `getDayName`.
- `digits.dfy` (module `Digits`): decimal and hexadecimal digit strings. It holds `toString()`, `padStart(2, '0')` and the digit-reading part of `parseInt`.
- `plate_method.dfy` (module `PlateMethod`): the Plate Method checklist dialog, as class `PlateModal`.
- `meals.dfy` (module `Meals`): the meal score, score bar, badge and journal list.
- `nut_tracker.dfy` (module `NutTracker`) covers the frequency screen:
  - `parseInt`, the duration check and the log dialog (class `LogDialog`);
  - total time, daily average and session extremes;
  - the per-day frequency tally (an imperative loop), the week chart, the advice text and the history list.
- `mobile_app.dfy` (module `MobileApp`): the app-level store (class `AppStore`), its sample data and its handlers.
- `wrappers.dfy`: `Option`. `sequences.dfy`: order-preserving sublists.

Dates are millisecond timestamps (`int`). A log belongs to the calendar day `DayOf(date) = date / 86400000`.

## Behaviour worth knowing

The timer component behaves as follows. The model follows its code.

- **Skip:** the skip button calls `nextExercise` (`src/pages/WorkoutTimer.tsx:94-96`), even during a work phase. That moves to the next exercise's work phase, or completes on the last exercise. Skipping never enters a rest phase, as `AfterNextExercise` states.
- **Completion:** on the last exercise, `nextExercise` signals completion and only stops the timer. Index, phase and time left stay as they were (`AfterNextExercise`).
  - When completion comes from the rest phase running out, the timer therefore stays on the last rest phase with no time left.
  - When it comes from the skip button, the phase and time left are whatever they were when skip was pressed. For example, work with 30 seconds left stays work with 30 seconds left.
  - In any uninterrupted run of the timer, for any list and from any state, completion is signalled at most once, and the timer is stopped once it has been (`CompletesAtMostOnce`). `SingleExerciseCompletes` works one run through for a single exercise.
- **Repeated completion:** on its own, the component signals completion again in two ways.
  - Pressing start after completion fires the same transition again (`CompletionRepeatsOnRestart`).
  - Pressing skip on the last exercise signals completion every time, whether the timer runs or not (`SkipRepeatsCompletion`).
  - In the app neither can happen. The host workout screen sets its `isComplete` flag in `onComplete` (`src/pages/WorkoutScreen.tsx:114`). It then shows the completion view instead of the timer (`src/pages/WorkoutScreen.tsx:55-88`). So the app sees completion once per mounted timer.
- **Empty exercise list:** the state machine is defined for an empty list. The index stays 0, and `nextExercise` completes at once, which `WellFormed` allows.
  - The component renders nothing when there is no current exercise (`src/pages/WorkoutTimer.tsx:112`).
  - Only Sunday's plan is empty. On Sunday the host shows the recovery view and never mounts the timer (`src/pages/WorkoutScreen.tsx:21`).

## Model

| member | source | states |
|---|---|---|
| WorkoutTimer.Credits | src/pages/WorkoutTimer.tsx:77-81 | the minutes credited by a call log made only of completions and one-minute progress calls lie between 0 and the number of calls |
| WorkoutTimer.Completions | src/pages/WorkoutTimer.tsx:41-50 | a call log signals completion at most once per call |
| WorkoutTimer.Apply | src/pages/WorkoutTimer.tsx:53-73 | reset gives the initial state; any other input never lowers the total; a firing while paused changes nothing; each input makes at most one call |
| WorkoutTimer.Replay | src/pages/WorkoutTimer.tsx:53-73 | a sequence of inputs makes at most one call per input, and without a reset never lowers the total |
| WorkoutTimer.AfterTick | src/pages/WorkoutTimer.tsx:56-60 | one firing counts one second down and one second into the total, changes nothing else, and credits one minute exactly when the total crosses a multiple of 60 |
| WorkoutTimer.AfterNextExercise | src/pages/WorkoutTimer.tsx:41-50 | before the last exercise: next exercise's 40-second work phase, no call; on the last (or an empty list): one completion call and stopped, state otherwise unchanged; never enters rest, never counts a second |
| WorkoutTimer.AfterTransition | src/pages/WorkoutTimer.tsx:61-67 | at zero time while running, work becomes a 20-second rest on the same exercise; rest behaves exactly as `nextExercise`; no minute is credited |
| WorkoutTimer.AfterToggle | src/pages/WorkoutTimer.tsx:92 | only the running flag flips; no call is made |
| WorkoutTimer.AfterReset | src/pages/WorkoutTimer.tsx:98-104 | any state goes back to exercise 0, work, 40 seconds, paused, total 0, with no call |
| WorkoutTimer.ApplyKeepsWellFormed | src/pages/WorkoutTimer.tsx:21-31 | every input keeps the index in the list and the time left within the current phase's length |
| WorkoutTimer.ReplayKeepsWellFormed | src/pages/WorkoutTimer.tsx:21-31 | every sequence of inputs keeps the state well formed |
| WorkoutTimer.ReplayAppend | src/pages/WorkoutTimer.tsx:53-73 | running two input sequences back to back is running their concatenation, with the calls concatenated |
| WorkoutTimer.ReplayOne | src/pages/WorkoutTimer.tsx:53-73 | replaying one input is applying it |
| WorkoutTimer.CreditsAppend | src/pages/WorkoutTimer.tsx:77-81 | minute credits and completion signals add up over concatenated call logs |
| WorkoutTimer.ReplayCredits | src/pages/WorkoutTimer.tsx:77-81 | without a reset, the total never decreases and the minutes credited equal the whole minutes the total crossed |
| WorkoutTimer.CreditsSinceLastReset | src/pages/WorkoutTimer.tsx:77-81 | since the last reset, the minutes credited equal the total seconds divided by 60 |
| WorkoutTimer.CountDown | src/pages/WorkoutTimer.tsx:56-60 | k firings with at least k seconds left take k seconds off and add k to the total |
| WorkoutTimer.CountDownQuiet | src/pages/WorkoutTimer.tsx:56-60 | counting down never signals completion |
| WorkoutTimer.PhaseRunsOut | src/pages/WorkoutTimer.tsx:56-67 | a running phase ends after the seconds it has left, and the next firing takes the transition out of it |
| WorkoutTimer.TwoExerciseSchedule | src/pages/WorkoutTimer.tsx:41-67 | two exercises from the start: after 40 s the first rest phase; after 60 s the second work phase, with one minute credited |
| WorkoutTimer.SingleExerciseCompletes | src/pages/WorkoutTimer.tsx:41-67 | one exercise: after 60 s and the two transitions, completion is signalled once and the timer stops; further firings change nothing |
| WorkoutTimer.CompletionRepeatsOnRestart | src/pages/WorkoutTimer.tsx:41-50 | after completion, with any total, start followed by a firing signals completion again and leaves the state where it was |
| WorkoutTimer.SkipRepeatsCompletion | src/pages/WorkoutTimer.tsx:41-50 | on the last exercise, two presses of skip signal completion twice, running or paused, and leave the timer stopped where it stood |
| WorkoutTimer.PausedIsInert | src/pages/WorkoutTimer.tsx:53-73 | while paused, any number of scheduler firings change nothing and make no call |
| WorkoutTimer.FiringStopsOnCompletion | src/pages/WorkoutTimer.tsx:41-67 | one firing signals completion at most once, and the timer is stopped when it does |
| WorkoutTimer.CompletesAtMostOnce | src/pages/WorkoutTimer.tsx:41-73 | from any state and for any list, an uninterrupted run of firings signals completion at most once, and leaves the timer stopped if it did |
| WorkoutTimer.FormatTime | src/pages/WorkoutTimer.tsx:106-110 | the text has a colon three characters from the end, and is five characters long below 100 minutes |
| WorkoutTimer.FormatTimeMinutes | src/pages/WorkoutTimer.tsx:106-109 | the text before the colon is digits reading back as the whole minutes |
| WorkoutTimer.FormatTimeSeconds | src/pages/WorkoutTimer.tsx:106-109 | the two characters after the colon are digits reading back as the leftover seconds |
| WorkoutTimer.Field | src/pages/WorkoutTimer.tsx:109 | `n.toString().padStart(2, '0')` is all digits, reads back as n, and has two characters below 100 |
| WorkoutTimer.ClockSplit | src/pages/WorkoutTimer.tsx:109 | cutting the clock text around the colon gives back the minutes field and the seconds field |
| WorkoutTimer.Timer.constructor | src/pages/WorkoutTimer.tsx:21-25 | a new timer is at exercise 0, work, 40 seconds, paused, total 0, with no calls made |
| WorkoutTimer.Timer.Tick | src/pages/WorkoutTimer.tsx:56-60 | the fields become `AfterTick` of the old ones, its calls are appended, and the credit invariant holds |
| WorkoutTimer.Timer.NextExercise | src/pages/WorkoutTimer.tsx:41-50 | the fields become `AfterNextExercise` of the old ones, with its calls appended |
| WorkoutTimer.Timer.Transition | src/pages/WorkoutTimer.tsx:61-67 | the fields become `AfterTransition` of the old ones, with its calls appended |
| WorkoutTimer.Timer.Toggle | src/pages/WorkoutTimer.tsx:92 | only the running flag flips |
| WorkoutTimer.Timer.Skip | src/pages/WorkoutTimer.tsx:94-96 | skip is `nextExercise` whatever the phase and time left |
| WorkoutTimer.Timer.Reset | src/pages/WorkoutTimer.tsx:98-104 | back to the initial state, keeping the calls already made; credits restart from zero |
| WorkoutTimer.Timer.SessionTime | src/pages/WorkoutTimer.tsx:225 | the SESSION TIME text is the total's minutes field, a colon and its seconds field |
| Exercises.CatalogueIdsDistinct | src/data/exercises.ts:10-91 | the catalogue has ten exercises with pairwise distinct identifiers |
| Exercises.FilterLowerOrCore | src/data/exercises.ts:106 | the filter keeps exactly the lower-body and core exercises, in catalogue order, each as many times as it occurs |
| Exercises.WorkoutForDay | src/data/exercises.ts:93-115 | Sunday is Active Recovery with no exercises; 1, 3 and 5 are the lower/core plan; every other number is the full catalogue; every plan is an ordered sublist of the catalogue |
| Exercises.OnlySundayIsEmpty | src/data/exercises.ts:95-100 | a plan is empty exactly on day 0 |
| Exercises.DayName | src/data/exercises.ts:117-120 | a name exactly for 0..6 and none (`undefined`) outside, each name ending in "day", and "Sunday" exactly for 0 |
| Exercises.DayNamesDistinct | src/data/exercises.ts:117-120 | different days have different names |
| Digits.DigitOf | src/pages/NutTrackerScreen.tsx:34 | a digit value below the radix, or -1; in base 10, a digit exactly for '0'..'9' |
| Digits.LeadingIn | src/pages/NutTrackerScreen.tsx:34 | the run `parseInt` reads is the longest all-digit prefix |
| Digits.LeadingStopsAt | src/pages/NutTrackerScreen.tsx:34 | the run stops exactly where the digits end |
| Digits.LeadingZero | src/pages/WorkoutTimer.tsx:109 | a leading zero does not change a digit string's value |
| Digits.DigitChar | src/pages/WorkoutTimer.tsx:109 | the character written for a decimal digit reads back as that digit |
| Digits.Show | src/pages/WorkoutTimer.tsx:109 | `toString()` writes digits reading back as n, without leading zeros, one digit exactly below 10 |
| Digits.PadStart2 | src/pages/WorkoutTimer.tsx:109 | `padStart(2, '0')` ends with the input, has length max(2, len), and keeps its value |
| PlateMethod.Switch | src/pages/PlateMethodModal.tsx:76 | a switch sets its own flag to v and leaves the other two as they were |
| PlateMethod.AllChecked | src/pages/PlateMethodModal.tsx:37 | true exactly when every switch is on |
| PlateMethod.SaveLabel | src/pages/PlateMethodModal.tsx:103 | "LOG PERFECT MEAL" exactly when all are checked, otherwise "SAVE LOG" |
| PlateMethod.SwitchOffIsNotPerfect | src/pages/PlateMethodModal.tsx:37 | turning any switch off makes the meal not perfect and the label SAVE LOG |
| PlateMethod.AllSwitchesOnIsPerfect | src/pages/PlateMethodModal.tsx:72-92 | turning the three switches on in any order makes the meal perfect |
| PlateMethod.PlateModal.constructor | src/pages/PlateMethodModal.tsx:24-28 | the dialog opens with every switch off and no calls made |
| PlateMethod.PlateModal.SetItem | src/pages/PlateMethodModal.tsx:72-92 | one switch changes as `Switch` says; no call is made |
| PlateMethod.PlateModal.Save | src/pages/PlateMethodModal.tsx:31-35 | the old checks go to `onSave`, then every switch is cleared, then the dialog is dismissed |
| PlateMethod.PlateModal.Cancel | src/pages/PlateMethodModal.tsx:96 | CANCEL only dismisses and keeps the switches |
| Meals.Values | src/pages/MealsScreen.tsx:34 | three values: half veggies, drank water and no seconds, in that position |
| Meals.CountTrue | src/pages/MealsScreen.tsx:34 | the count is the number of true entries: at most the length, full exactly when all are true, zero exactly when none is |
| Meals.Score | src/pages/MealsScreen.tsx:33-35 | the score is the sum of the three flags counted as 1 or 0: at most 3, 3 exactly when all are checked, 0 exactly when none is |
| Meals.IsPerfect | src/pages/MealsScreen.tsx:81 | perfect exactly when all three habits were followed |
| Meals.Bar | src/pages/MealsScreen.tsx:85 | the bar is perfect when all flags are on, zero when none is, and partial otherwise |
| Meals.Badge | src/pages/MealsScreen.tsx:101 | the badge is five characters: the score's digit followed by " / 3" |
| Meals.JournalOf | src/pages/MealsScreen.tsx:71-101 | the placeholder exactly when there are no meals; otherwise one card per meal in order, with its id, its score bar and its badge, perfect exactly when all checked and when the bar is perfect |
| NutTracker.DayOf | src/pages/NutTrackerScreen.tsx:57 | a timestamp lies within the 86400000 milliseconds of its day |
| NutTracker.TrimStart | src/pages/NutTrackerScreen.tsx:34 | what is dropped is white space; the rest is a suffix not starting with white space |
| NutTracker.ParseInt | src/pages/NutTrackerScreen.tsx:34 | a number needs some text after the white space; a negative number needs a leading '-', and a leading '-' never gives a positive number |
| NutTracker.Unsigned | src/pages/NutTrackerScreen.tsx:34 | NaN exactly when the text after an optional "0x" or "0X" prefix, which selects base 16, does not start with a digit of that base |
| NutTracker.ParseIntShow | src/pages/NutTrackerScreen.tsx:34 | `parseInt` reads back the decimal text of n, whatever non-digit follows it |
| NutTracker.UnsignedShow | src/pages/NutTrackerScreen.tsx:34 | the unsigned part of `parseInt` reads back the decimal text of n |
| NutTracker.ParseIntNoDigits | src/pages/NutTrackerScreen.tsx:34 | text starting with neither a sign nor a digit after its white space is NaN |
| NutTracker.ValidDuration | src/pages/NutTrackerScreen.tsx:34-35 | accepted exactly when `parseInt` gives a number strictly between 0 and 1440, which is then the result |
| NutTracker.AcceptedDurations | src/pages/NutTrackerScreen.tsx:34-38 | typing n minutes is accepted exactly for 1..1439, and gives n |
| NutTracker.SessionDate | src/pages/NutTrackerScreen.tsx:40-41 | the saved date lies on the day `offset` days before today |
| NutTracker.LogDialog.constructor | src/pages/NutTrackerScreen.tsx:29-31 | closed, offset 0, text "15", no error, nothing saved |
| NutTracker.LogDialog.Open | src/pages/NutTrackerScreen.tsx:136 | LOG NEW SESSION only shows the dialog |
| NutTracker.LogDialog.SelectOffset | src/pages/NutTrackerScreen.tsx:294-297 | a date button sets only the offset, to 0..3 |
| NutTracker.LogDialog.ChangeText | src/pages/NutTrackerScreen.tsx:318-321 | editing sets the text and clears the error |
| NutTracker.LogDialog.Dismiss | src/pages/NutTrackerScreen.tsx:334 | CANCEL only hides the dialog |
| NutTracker.LogDialog.HandleSave | src/pages/NutTrackerScreen.tsx:33-44 | a rejected duration sets the error, saves nothing and keeps the dialog open; an accepted one clears the error, saves one session of that many minutes dated offset days back, and closes |
| NutTracker.DefaultSave | src/pages/NutTrackerScreen.tsx:30 | saving the default text logs 15 minutes on the chosen day |
| NutTracker.TotalTime | src/pages/NutTrackerScreen.tsx:86 | 0 with no logs; one log's duration for a single log; with non-negative durations, non-negative and at least every single duration |
| NutTracker.TotalTimeAppend | src/pages/NutTrackerScreen.tsx:86 | total time adds up over concatenated logs |
| NutTracker.TotalTimeBounds | src/pages/NutTrackerScreen.tsx:86 | sessions that passed the check total between 1 and 1439 minutes each |
| NutTracker.DaysOfLogs | src/pages/NutTrackerScreen.tsx:90 | the set of days holds exactly the days of the logs |
| NutTracker.DaysSnoc | src/pages/NutTrackerScreen.tsx:90 | one more log adds its own day to the set of days |
| NutTracker.DaysCount | src/pages/NutTrackerScreen.tsx:90 | there are at most as many distinct days as logs, and at least one when there is a log |
| NutTracker.RoundDiv | src/pages/NutTrackerScreen.tsx:91 | `Math.round(a / b)`: the nearest integer, halves rounded up |
| NutTracker.AvgMinDay | src/pages/NutTrackerScreen.tsx:88-92 | 0 with no logs; otherwise the total over the distinct days, rounded to nearest |
| NutTracker.OneDayAverage | src/pages/NutTrackerScreen.tsx:88-92 | when every log falls on one day, the average is the total |
| NutTracker.Sessions | src/pages/NutTrackerScreen.tsx:94-101 | {0, 0} with no logs; otherwise max and min are durations of some log and bound every duration |
| NutTracker.OnDay | src/pages/NutTrackerScreen.tsx:57 | holds exactly the logs of that day |
| NutTracker.OnDaySnoc | src/pages/NutTrackerScreen.tsx:57 | one more log joins its own day's list only |
| NutTracker.CountOn | src/pages/NutTrackerScreen.tsx:107-110 | a day's count is at most the number of logs and positive exactly for a day with a log |
| NutTracker.CountOnSnoc | src/pages/NutTrackerScreen.tsx:107-110 | one more log adds one to its own day's count only |
| NutTracker.Tally | src/pages/NutTrackerScreen.tsx:106-110 | after the loop the groups have exactly the days with logs as keys, each mapped to its count |
| NutTracker.TallyStep | src/pages/NutTrackerScreen.tsx:107-110 | one loop round keeps the groups the per-day counts of the logs seen |
| NutTracker.LargestTally | src/pages/NutTrackerScreen.tsx:111 | the maximum of the group values is reached by some day and bounds every group |
| NutTracker.FrequencyMax | src/pages/NutTrackerScreen.tsx:103-112 | 0 with no logs; otherwise the busiest day's count, which is some log's day count, bounds every day and is at most the number of logs |
| NutTracker.MetricValue | src/pages/NutTrackerScreen.tsx:48-51 | a day's value is 0 with no logs, the number of logs for the count metric, and non-negative with non-negative durations |
| NutTracker.WeekChart | src/pages/NutTrackerScreen.tsx:53-59 | seven bars, from six days ago to today, each the day's session count or minutes |
| NutTracker.ChartAfterSave | src/pages/NutTrackerScreen.tsx:53-59 | a new log raises its own day's bar by one session or its minutes, and no other bar |
| NutTracker.SavedSessionBar | src/pages/NutTrackerScreen.tsx:40-41 | a session saved offset days back raises bar 6 − offset by one and leaves the others |
| NutTracker.MaxValue | src/pages/NutTrackerScreen.tsx:82 | at least 1, bounds every bar, and is a bar's value unless it is 1 |
| NutTracker.AgeBand | src/pages/NutTrackerScreen.tsx:114-119 | the band indexes the four pieces of advice |
| NutTracker.AgeBandMonotone | src/pages/NutTrackerScreen.tsx:114-119 | an older user never gets a lower band |
| NutTracker.Recommendation | src/pages/NutTrackerScreen.tsx:114-119 | the advice of the age's band (<20, <30, <40, else); NaN gets the last |
| NutTracker.DefaultProfileAdvice | src/pages/MobileApp.tsx:140 | the default age "25" gets the 20–29 advice |
| NutTracker.FrequencyLabel | src/pages/NutTrackerScreen.tsx:282 | "above" exactly over 15 logs, "within" for 6..15, "below" otherwise |
| NutTracker.Insert | src/pages/NutTrackerScreen.tsx:121 | inserting gives one more entry, holding the new log and exactly the old ones |
| NutTracker.SortedLogs | src/pages/NutTrackerScreen.tsx:121 | sorting keeps the length and exactly the same logs |
| NutTracker.InsertAdds | src/pages/NutTrackerScreen.tsx:121 | inserting adds exactly one log |
| NutTracker.InsertKeepsOrder | src/pages/NutTrackerScreen.tsx:121 | inserting into a newest-first list keeps it newest first |
| NutTracker.SortedLogsSorts | src/pages/NutTrackerScreen.tsx:121 | the sorted logs are newest first and a permutation of the logs |
| NutTracker.HistoryOf | src/pages/NutTrackerScreen.tsx:246-251 | no rows exactly with no logs; otherwise min(10, n) rows |
| NutTracker.FirstAreNewest | src/pages/NutTrackerScreen.tsx:251 | a prefix of a newest-first list is newest first and no later entry is newer |
| NutTracker.HistoryNewestFirst | src/pages/NutTrackerScreen.tsx:246-251 | the history rows are newest first and drawn from the logs |
| NutTracker.HistoryKeepsNewest | src/pages/NutTrackerScreen.tsx:251 | no log left out of the history is newer than one shown |
| MobileApp.InitialMeals | src/pages/MobileApp.tsx:31-42 | two sample meals dated before now: the first perfect, the second scoring 2 |
| MobileApp.InitialMeasurements | src/pages/MobileApp.tsx:44-49 | four sample measurements a week apart, weight decreasing |
| MobileApp.InitialSessionsValid | src/pages/MobileApp.tsx:52-56 | every sample session is dated before now and has a duration the log dialog accepts |
| MobileApp.InitialNutStats | src/pages/MobileApp.tsx:52-56 | the sample logs fall on three days, total 45 minutes, average 15 a day, sessions 10 to 20 |
| MobileApp.RemoveById | src/pages/MobileApp.tsx:90 | the result is an ordered sublist holding exactly the logs with another id, and unchanged when the id is absent |
| MobileApp.RemoveByIdCounts | src/pages/MobileApp.tsx:90 | every log with another id stays as many times as it occurred; none with the id stays |
| MobileApp.DeleteUndoesSave | src/pages/MobileApp.tsx:80-91 | deleting a just-saved log with a fresh id restores the logs |
| MobileApp.Reset | src/pages/MobileApp.tsx:93-101 | each kind empties exactly its lists and zeroes the counters only for all/workouts |
| MobileApp.ResetAllIsEveryReset | src/pages/MobileApp.tsx:93-101 | resetting all is resetting each part, in either order |
| MobileApp.ResetIdempotent | src/pages/MobileApp.tsx:93-101 | a second identical reset changes nothing |
| MobileApp.AppStore.constructor | src/pages/MobileApp.tsx:28-56 | the store starts with the sample data |
| MobileApp.AppStore.ProgressUpdate | src/pages/MobileApp.tsx:63-65 | only the minutes completed grow by the reported minutes |
| MobileApp.AppStore.SaveMeal | src/pages/MobileApp.tsx:67-74 | the new meal goes in front; nothing else changes |
| MobileApp.AppStore.SaveMeasurement | src/pages/MobileApp.tsx:76-78 | the measurement goes at the end; nothing else changes |
| MobileApp.AppStore.SaveNutLog | src/pages/MobileApp.tsx:80-87 | the new log goes at the end; nothing else changes |
| MobileApp.AppStore.DeleteNutLog | src/pages/MobileApp.tsx:89-91 | the logs become `RemoveById` of the old ones; nothing else changes |
| MobileApp.AppStore.ResetData | src/pages/MobileApp.tsx:93-101 | the store becomes `Reset` of the old store |

## Left out

- Scheduling: `setInterval`, `useEffect` re-runs and `useCallback` identities are not modelled. Each firing of the interval and each run of the zero-time effect is an explicit input.
- The ring animation, the SVG geometry, themes, the entrance animations and all JSX layout are not modelled.
- The month and year charts and the chart's weekday labels (`toLocaleDateString`) are not modelled. So are locale-formatted dates in the history and on the meal cards.
- `Date.now()` and `new Date()` are parameters (`now`, `id`), not a clock. The ids the app derives from the clock are inputs too.
- Time zones and daylight saving are not modelled: `DayOf` takes the day from a UTC millisecond count.
- Floating point is not modelled:
  - Durations and counts are integers.
  - `Math.round(total / days)` is computed exactly with integers.
  - `parseInt` of numbers beyond 2^53 is not modelled.
  - Measurements are `real`.
- WorkoutTimer.AfterTick: the minute credit is logged by the tick itself. When a tick empties the last rest phase of a run whose total reaches a multiple of 60, the model logs `ProgressUpdate(1)` before the next firing logs `Completed`. The component's interval effect (`src/pages/WorkoutTimer.tsx:53-73`) runs before its minute effect (`:77-81`) in that commit, so it calls `onComplete()` first and `onProgressUpdate(1)` second. The calls themselves and their counts are the same, but their order at completion is reversed.
- WorkoutTimer.Timer: the exercise list is fixed for the life of the timer. The host recomputes the day's plan on every render (`src/pages/WorkoutScreen.tsx:17-18`). A session that runs past midnight could therefore receive a different list, possibly shorter than the current index. In that case the component renders nothing (`src/pages/WorkoutTimer.tsx:112`). This is not modelled.
- WorkoutTimer.FormatTime: takes a `nat`. The app only formats non-negative times, and negative inputs are not modelled.
- WorkoutTimer.Timer.SessionTime: requires only `0 <= total`, which every reachable state has (`Valid`).
- NutTracker.SortedLogs: the stability of JavaScript's sort (logs with equal dates keep their order) is not stated. Only the newest-first order and the permutation are proved.
- NutTracker.LargestTally: starts from 0 rather than minus infinity. This is equivalent because every group counts at least one log.
- NutTracker.Recommendation: NaN is modelled as `None`, because every comparison with NaN is false.
- NutTracker.ParseInt: a radix argument is not modelled (the app never passes one). Neither are `Infinity` and exponent forms, which `parseInt` does not read anyway.
- Other screens are not part of this model: dashboard, progress, settings and the workout screen's day picker.
