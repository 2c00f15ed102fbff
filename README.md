# Workout tracker core in Dafny

This project models the logic of a client-only workout tracker, a React application that keeps its data in the browser's key-value storage. The model has one module per source file:

- `Storage` (`storage.dfy`, after `services/storageService.ts`). The store has three slots: the list of workout logs, the single active-session marker and the settings record. Each slot holds nothing, a payload that does not parse, or a value.
  - A log is saved by upsert on its (date, day id) key. The first log with that key is replaced in place; otherwise the log is appended.
  - The session marker is started idempotently, read only for its own day, and cleared unconditionally.
  - Every read falls back to an empty value.
- `ExerciseCard` (`exercise_card.dfy`, after `components/ExerciseCard.tsx`). This is the set list of one exercise:
  - the initial sets, parsed from target strings such as `"5x5"` and `"60 kg"`;
  - editing one field of a set;
  - the guarded completion toggle;
  - adding and removing sets;
  - the completed-set count and the volume (weight × reps over completed sets).
- `HistoryChart` (`history_chart.dfy`, after `components/HistoryChart.tsx`). The volume chart:
  - per-log volume over all exercises;
  - the logs sorted by date, of which the latest seven are kept;
  - tonnes rounded half up;
  - the day label, which falls back to the raw id.
- `ProfileView` (`profile_view.dfy`, after `components/ProfileView.tsx`). The profile counters:
  - the distinct workout dates, overall and for the current month;
  - the Monday-first calendar grid, with zero-padded `YYYY-MM-DD` day keys;
  - the membership's remaining days and the warning shown when fewer than 7 remain.
- `WorkoutApp` (`app.dfy`, after `App.tsx`). The application shell:
  - opening a day, which reuses today's log for it;
  - starting the session;
  - the rest-timer target, taken from settings or from the 120 s and 90 s defaults;
  - finishing a workout, with the duration in whole seconds;
  - editing the program's days and exercises.
- `Types` (`types.dfy`, after `types.ts`) holds the records. `Numerals` (`numerals.dfy`) covers decimal numerals as the code reads and writes them: `parseInt` of leading digits, `String(n)` and `padStart(2, '0')`.

How the model is written:

- Weights, repetitions and effort ratings are exact reals.
- Timestamps are integers of milliseconds.
- The component state that the handlers update becomes a class: `Storage.Store`, `ExerciseCard.Card` and `WorkoutApp.App`.
- The map/filter expressions over the program and the parsing and counting logic are functions.
- Loops of the source are methods with loop invariants. These are the nested `forEach` of the chart volume and the two `for` loops of the calendar.

## Model

| member | source | states |
|---|---|---|
| Storage.KeyIndex | services/storageService.ts:21 | The index of the first log with the given date and day id: that log has the key and no earlier log does; -1 when no log has it. |
| Storage.Upsert | services/storageService.ts:20-28 | If the key occurs, the first such log is replaced at its index, the length is unchanged and every other entry is identical. Otherwise the log is appended, the length grows by one and the earlier entries are unchanged. |
| Storage.Lookup | services/storageService.ts:21 | A log is found exactly when some log has the key. What is found is in the list, has the key and is the log at `KeyIndex`, the first one with the key. This is also the `logs.find` that `App.tsx` uses to reopen today's log for a day. |
| Storage.UpsertThenLookup | services/storageService.ts:19-30 | After saving a log, looking up its key gives exactly that log. |
| Storage.UpsertKeepsOtherKeys | services/storageService.ts:19-30 | Saving a log does not change the lookup of any other key. |
| Storage.UpsertKeepsUniqueKeys | services/storageService.ts:19-30 | Saving keeps "at most one log per (date, dayId)". |
| Storage.UpsertLastWriteWins | services/storageService.ts:19-30 | Two saves under one key leave the list that the second save alone leaves. |
| Storage.UpsertIdempotent | services/storageService.ts:19-30 | Saving the same log twice leaves the list that saving it once leaves. |
| Storage.Store.constructor | services/storageService.ts:4-6 | A store whose three slots hold the given payloads. |
| Storage.Store.WorkoutLogs | services/storageService.ts:8-17 | The stored list when the slot parses; the empty list when it is missing or corrupt. |
| Storage.Store.SessionStartTime | services/storageService.ts:46-59 | A start time only when the slot parses and holds a marker for this day. It is null for no marker, a marker of another day, or a corrupt payload. |
| Storage.Store.UserSettingsRecord | services/storageService.ts:61-68 | The stored record when it parses, else the empty record. |
| Storage.Store.SaveWorkoutLog | services/storageService.ts:19-30 | The logs slot now holds the upsert of what it read as. A lookup of the key finds the saved log, and uniqueness of keys is preserved. |
| Storage.Store.StartSession | services/storageService.ts:32-40 | An existing marker for the day with a non-zero start is kept and its start returned. Otherwise the slot is overwritten with this day and `now`, even if it held another day's marker. Either way the day's start time then reads back as the returned value. |
| Storage.Store.EndSession | services/storageService.ts:42-44 | The slot is cleared whatever day is passed. No day has a start time afterwards. |
| Storage.Store.SaveUserSettings | services/storageService.ts:70-72 | The settings slot holds the record, and reading settings returns it. |
| Storage.SessionScenario | services/storageService.ts:32-59 | Starting twice for a day returns the first start, and another day sees no session. Starting another day displaces the first day's marker, and ending clears it. |
| ExerciseCard.Volume | components/ExerciseCard.tsx:105 | Volume is non-negative when weights and reps are, and is 0 when no set is completed. |
| ExerciseCard.CompletedCount | components/ExerciseCard.tsx:103 | The completed count never exceeds the number of sets, and it equals it iff every set is completed. |
| ExerciseCard.VolumeAppend | components/ExerciseCard.tsx:105 | Volume distributes over concatenation of set lists. |
| ExerciseCard.CompletedCountAppend | components/ExerciseCard.tsx:103 | The completed count distributes over concatenation. |
| ExerciseCard.VolumeUpdate | components/ExerciseCard.tsx:105 | Replacing one set changes the volume by exactly the difference of the two sets' contributions. |
| ExerciseCard.CompletedCountUpdate | components/ExerciseCard.tsx:103 | Replacing one set changes the completed count only through its completed flag. |
| ExerciseCard.TargetSetCount | components/ExerciseCard.tsx:26-27 | When the target starts with a non-empty run of digits followed by `x`, the count is the value of those digits, leading zeros included (`"05x5"` gives 5). When no such run exists (`"5 sets"`, `"12"`, `"5-8"`, `"x5"`), the count is 3. |
| ExerciseCard.TargetSetCountSpec | components/ExerciseCard.tsx:26-27 | A target `<n>x<anything>` with `n` written as `String(n)` gives n sets. A target that starts with neither a digit nor `x` gives 3. |
| ExerciseCard.NumericChars | components/ExerciseCard.tsx:28 | Only digits and dots are kept, and the result is no longer than the input. |
| ExerciseCard.NumericCharsAppend | components/ExerciseCard.tsx:28 | The filter works one character at a time: filtering `a + b` gives the filtered `a` followed by the filtered `b`, so every digit and dot is kept, in order. |
| ExerciseCard.NumericCharsOfNoDigit | components/ExerciseCard.tsx:28 | A string without digits leaves nothing but dots. |
| ExerciseCard.ParseDecimal | components/ExerciseCard.tsx:28 | The parsed weight is never negative. |
| ExerciseCard.ParseDecimalOfNumeral | components/ExerciseCard.tsx:28 | `<digits>.<digits>` parses as the whole part plus the fraction, for any number of decimals (`"12.25"` gives 12 + 0.25), and also with no whole digits (`".5"`) or no decimals (`"12."`). |
| ExerciseCard.FractionValue | components/ExerciseCard.tsx:28 | The digits after the point are worth at least 0 and less than 1. |
| ExerciseCard.ParseWhole | components/ExerciseCard.tsx:28 | A plain numeral parses as its value. |
| ExerciseCard.ParseTenths | components/ExerciseCard.tsx:28 | A numeral, a dot and one digit parse as the number plus that many tenths. |
| ExerciseCard.TargetWeight | components/ExerciseCard.tsx:28 | The starting weight is never negative. |
| ExerciseCard.TargetWeightWithoutDigits | components/ExerciseCard.tsx:28 | A target weight with no digit (`"bodyweight"`, `"~kg"`, `"."`) gives 0, the `\|\| 0` fallback for the NaN of `parseFloat`. |
| ExerciseCard.TargetWeightOfWhole | components/ExerciseCard.tsx:28 | A whole-number target followed by a unit (`"60 kg"`) gives that number. |
| ExerciseCard.TargetWeightOfTenths | components/ExerciseCard.tsx:28 | A one-decimal target (`"17.5 kg"`) gives that number exactly. |
| ExerciseCard.InitialSets | components/ExerciseCard.tsx:21-38 | Non-empty initial logs are taken as they are. Otherwise there are as many sets as the target count, each with 0 reps, the target weight, no effort rating and not completed. |
| ExerciseCard.NextSet | components/ExerciseCard.tsx:86-87 | The appended set is the last set with `completed` cleared. On an empty list it is 0 reps, 0 weight, effort 8, not completed. |
| ExerciseCard.ToggledEffect | components/ExerciseCard.tsx:68-69 | Flipping one set's flag moves the completed count by one. The volume moves by that set's contribution when completed, which is its weight times reps. |
| ExerciseCard.Card.constructor | components/ExerciseCard.tsx:21-38 | The card starts with the initial sets. |
| ExerciseCard.Card.CompletedSetsCount | components/ExerciseCard.tsx:103 | The count never exceeds the number of sets. |
| ExerciseCard.Card.SetValue | components/ExerciseCard.tsx:40-46 | Only the chosen field of set `index` changes, and an empty input counts as 0. Every other set and field is unchanged, and the completed count too. |
| ExerciseCard.Card.ToggleComplete | components/ExerciseCard.tsx:53-83 | Completing a set whose weight or reps is not positive is refused and changes nothing. Un-completing is never guarded. Otherwise exactly that set's flag flips, and "all finished" is reported iff every set is then completed. The completed count moves by one, and the volume moves by that set's weight times reps. |
| ExerciseCard.Card.AddSet | components/ExerciseCard.tsx:85-90 | One uncompleted copy of the last set (or the blank set) is appended. Volume and completed count are unchanged. |
| ExerciseCard.Card.RemoveSet | components/ExerciseCard.tsx:92-96 | Exactly the set at `index` is removed: the others keep their order, the length drops by one and the volume drops by that set's contribution. An index out of range changes nothing. |
| HistoryChart.ExercisesVolumeRemove | components/HistoryChart.tsx:17-25 | The log volume does not depend on the order in which exercises are visited: it is any one exercise's volume plus the rest's. |
| HistoryChart.ExercisesVolumeUpdate | components/HistoryChart.tsx:17-25 | Replacing or adding one exercise's sets changes the log volume by exactly the difference. |
| HistoryChart.ExercisesVolumeOfUncompleted | components/HistoryChart.tsx:21 | Incomplete sets never contribute: a log with no completed set has volume 0. |
| HistoryChart.LogVolume | components/HistoryChart.tsx:15-25 | The nested loops compute the sum over all exercises of weight × reps over completed sets. |
| HistoryChart.RoundHalfUp | components/HistoryChart.tsx:31 | The result is the integer within one half of the value, with halves rounded up. |
| HistoryChart.PlottedTonnes | components/HistoryChart.tsx:31 | For an integer volume v the plotted value equals (v + 500) / 1000. |
| HistoryChart.DayIndex | components/HistoryChart.tsx:27 | The index of the first day with the id, or -1 when no day has it. |
| HistoryChart.FindDay | components/HistoryChart.tsx:27 | It finds the first day with the id, and finds nothing exactly when no day has it. |
| HistoryChart.DayLabel | components/HistoryChart.tsx:27 | The label is the first three characters of the day's name. It falls back to the raw day id when no day has that id, or when the first day with that id has an empty name (an empty string is falsy). |
| HistoryChart.Insert | components/HistoryChart.tsx:12 | Inserting keeps every log: the multiset grows by exactly the inserted log. |
| HistoryChart.InsertKeepsBound | components/HistoryChart.tsx:12 | Inserting a log no earlier than a time into a list with none earlier keeps that bound. |
| HistoryChart.InsertKeepsSorted | components/HistoryChart.tsx:12 | Inserting into a date-sorted list keeps it sorted. |
| HistoryChart.SortByTime | components/HistoryChart.tsx:12 | The sorted list has the same length, is a permutation of the logs in ascending date order. |
| HistoryChart.WindowStart | components/HistoryChart.tsx:13 | `slice(-7)` of n logs starts where exactly min(7, n) remain. |
| HistoryChart.LatestWindow | components/HistoryChart.tsx:11-13 | It keeps min(7, n) logs, in ascending date order, all drawn from the input. |
| HistoryChart.LatestWindowIsLatest | components/HistoryChart.tsx:11-13 | Every log left out is no later than every log kept. |
| HistoryChart.LogPoint | components/HistoryChart.tsx:14-31 | The point of one log is `PointOf`: its label, its date and its volume in tonnes, rounded half up. |
| HistoryChart.ChartData | components/HistoryChart.tsx:11-33 | One point per kept log, in order, with the day label, the date and the volume in tonnes rounded half up. |
| ProfileView.WorkoutDates | components/ProfileView.tsx:16-18 | A date is in the set iff some log has that date. |
| ProfileView.WorkoutDatesAppend | components/ProfileView.tsx:17 | A further log adds exactly its date to the set. |
| ProfileView.WorkoutCountAtMostLogs | components/ProfileView.tsx:94 | The total workout count never exceeds the number of logs. |
| ProfileView.WorkoutCountOfAnotherLog | components/ProfileView.tsx:94 | A further log raises the count by one iff its date is new, so two logs on one date count once. |
| ProfileView.MonthDates | components/ProfileView.tsx:103 | This month's dates are exactly the workout dates that start with the `YYYY-MM` prefix. |
| ProfileView.MonthCount | components/ProfileView.tsx:103 | The month count never exceeds the total count. |
| ProfileView.StartOffset | components/ProfileView.tsx:32-35 | The offset is in 0..6 and is the weekday shifted so that Monday comes first (Sunday maps to 6). |
| ProfileView.DateKey | components/ProfileView.tsx:43 | The day key starts with its month's prefix. |
| ProfileView.DateKeyFormat | components/ProfileView.tsx:43 | For a four-digit year the key is `YYYY-MM-DD`, and each field reads back as its number. |
| ProfileView.DayCell | components/ProfileView.tsx:42-58 | The cell carries its day number and date key. It is a workout day iff that key is a workout date, and it is today iff the day is today's. |
| ProfileView.RenderCalendar | components/ProfileView.tsx:37-59 | Exactly `startOffset` blank cells, followed by one cell for each day 1..`daysInMonth`, in order. |
| ProfileView.CeilDiv | components/ProfileView.tsx:69 | The quotient rounded up, for a positive divisor. |
| ProfileView.DaysRemaining | components/ProfileView.tsx:64-71 | Nothing iff there is no end date. Otherwise the milliseconds to the end, divided by a day and rounded up; this can be negative. |
| ProfileView.MembershipWarning | components/ProfileView.tsx:209 | The warning shows (fewer than 7 days) exactly when at most six full days of milliseconds remain. |
| Numerals.DigitChar | components/ProfileView.tsx:43 | A digit character reads back as its value. |
| Numerals.LeadingDigits | components/ExerciseCard.tsx:26-27 | The longest all-digit prefix. |
| Numerals.NatToString | components/ProfileView.tsx:43 | `String(n)` is all digits, reads back as n and has no leading zero. It is one character long iff n < 10. |
| Numerals.Pad2 | components/ProfileView.tsx:43 | `padStart(2, '0')` reads back as n and is two characters long for n < 100. |
| Numerals.LeadingDigitsAt | components/ExerciseCard.tsx:26 | A run of digits that ends at the string's end or before a non-digit is exactly what `^\d+` matches. |
| Numerals.LeadingDigitsOfNumeral | components/ExerciseCard.tsx:26-27 | The leading digits of a numeral followed by a non-digit are that numeral. |
| Numerals.NumeralLength | components/ProfileView.tsx:43 | A number with k digits has a numeral of length k. |
| WorkoutApp.Duration | App.tsx:75 | With a truthy start, r × 1000 ≤ end − start < r × 1000 + 1000 (whole seconds, rounded down). Without one it is 0, and it is non-negative whenever start ≤ end. |
| WorkoutApp.FinishedLog | App.tsx:74-83 | The saved record carries the date, day and exercises. The start falls back to the end time, so the stored duration always agrees with the stored start and end. No derived stats are filled in. |
| WorkoutApp.RestSeconds | App.tsx:64-67 | The between-exercises setting (default 120) when the exercise is finished, else the between-sets setting (default 90). A setting of 0 counts as unset. Never 0, and positive for non-negative settings. |
| WorkoutApp.ExistingExercises | App.tsx:41-46 | The exercises of the first log for today and the day, else the empty map. |
| WorkoutApp.ReopenAfterSave | App.tsx:41-46 | After a log is saved, opening its day on its date restores exactly its exercises. |
| WorkoutApp.ReopenOtherKey | App.tsx:41-46 | Saving a log under another key does not change what opening a day finds. |
| WorkoutApp.Filter | App.tsx:109 | `filter`: an element is kept iff it passes, and the result is no longer than the input. |
| WorkoutApp.FilterAppend | App.tsx:109 | Filtering distributes over concatenation, so the kept elements stay in their order. |
| WorkoutApp.FilterKeepsAll | App.tsx:109 | A filter that every element passes changes nothing. |
| WorkoutApp.AddDay | App.tsx:96-102 | One day with id `day-<now>` and no exercises is appended, and the existing days are unchanged. |
| WorkoutApp.DropDay | App.tsx:109 | No day with the id is left, every other day stays, and nothing is added. |
| WorkoutApp.DropDayAppend | App.tsx:109 | Removing a day distributes over concatenation, so the remaining days keep their order. |
| WorkoutApp.DropDayUndoesAddDay | App.tsx:96-110 | Removing a day just added under a fresh id gives back the program. |
| WorkoutApp.RenameDay | App.tsx:116 | Only the name of matching days changes, and every other day is identical. |
| WorkoutApp.AppendExercise | App.tsx:121-122 | The new exercise is appended to the matching day only, and every other day is identical. |
| WorkoutApp.OtherExercises | App.tsx:127 | An exercise is kept iff its id differs. |
| WorkoutApp.DropExercise | App.tsx:127 | The exercise is filtered out of the matching day only, and every other day is identical. |
| WorkoutApp.DropExerciseUndoesAppend | App.tsx:120-128 | Removing an exercise just added under a fresh id gives back the program. |
| WorkoutApp.NewExerciseOpensWithThreeSets | App.tsx:121 | A freshly added exercise (`"3x8-12"`, `"20 kg"`) opens with three uncompleted sets at 20 kg and 0 reps. |
| WorkoutApp.App.constructor | App.tsx:17-26 | The initial component state: the dashboard, no day selected, an empty active log and no timers. |
| WorkoutApp.App.StartWorkoutView | App.tsx:37-50 | Nothing happens in edit mode. Otherwise the day is selected, the active log is today's saved exercises for it (or empty), the start time is the day's session start, and the workout screen is shown. |
| WorkoutApp.App.HandleManualStart | App.tsx:52-57 | With a day selected, the timer shows the resumed start (when truthy) or `now`, and the store reads back the same start. Without a day, nothing changes. |
| WorkoutApp.App.HandleExerciseUpdate | App.tsx:59-61 | Only the exercise's entry of the active log is replaced, and the log volume changes by exactly the difference. |
| WorkoutApp.App.HandleSetComplete | App.tsx:63-70 | The rest target is `now` plus the chosen rest seconds × 1000. |
| WorkoutApp.App.AddRestSeconds | App.tsx:345 | A running timer's target moves by exactly s × 1000, and no timer means no change. |
| WorkoutApp.App.FinishWorkout | App.tsx:72-89 | Today's log is upserted, the session is cleared for every day, and the rest timer and confirmation are closed. Reopening the day today restores the saved sets, and uniqueness of keys is preserved. Without a selected day nothing changes. |
| WorkoutApp.App.AddNewWorkoutDay | App.tsx:96-105 | The program becomes `AddDay` of the old one. |
| WorkoutApp.App.RemoveWorkoutDay | App.tsx:107-113 | With confirmation, the program becomes `DropDay` of the old one; without it, it is unchanged. |
| WorkoutApp.App.UpdateWorkoutDayName | App.tsx:115-118 | The program becomes `RenameDay` of the old one. |
| WorkoutApp.App.AddNewExercise | App.tsx:120-124 | The program becomes `AppendExercise` of the old one. |
| WorkoutApp.App.RemoveExercise | App.tsx:126-129 | The program becomes `DropExercise` of the old one. |

## Left out

- Serialisation to the browser's storage (`JSON.stringify`, `JSON.parse`, `localStorage`). Each slot is an abstract payload that is absent, corrupt or present; the storage keys are not modelled. The `typeof window` guard of `getWorkoutLogs` is not modelled.
- The clock and calendar primitives are parameters:
  - `Date.now()` becomes `now`, a number of milliseconds;
  - today's `toISOString` date becomes `today`;
  - `new Date(date).getTime()` becomes `timeOf`;
  - the parsed membership end date becomes `endMs`;
  - the month length and the weekday of the 1st become `daysInMonth` and `firstDay`.
- The month prefix of the this-month count is passed in as `monthPrefix`. The model does not capture that it comes from a UTC date while the calendar uses local time.
- IEEE floating point: weights, reps and effort are exact reals. NaN from `parseFloat` and the `|| 0` fallbacks for a missing weight or reps are not modelled. Fields are always present in the model.
- ExerciseCard.ParseDecimal: reads the leading `digits[.digits]` of the kept characters, a simplification of `parseFloat`.
- HistoryChart.ChartData: a point keeps the raw date string. The day of the month that the label appends (`new Date(log.date).getDate()`) is a calendar primitive and is not computed.
- HistoryChart.SortByTime: is modelled as a function on values (an insertion sort), not the in-place `Array.prototype.sort`. Its stability is not stated, and in-place mutation of the array read from storage is not captured.
- `Object.values` iteration order in the chart volume is abstracted: the log volume is defined over the map, independently of order.
- ExerciseCard.Card.TotalVolume and ExerciseCard.Card.CompletedSetsCount: stated through `Volume` and `CompletedCount` and the method contracts, not on their own.
- Rendering, CSS, icons, haptics, sounds, the warning highlight of a refused set and its `setTimeout`, the expanded and chart toggles, and the card's `onUpdate` callback are left out. The callback's effect on the parent is modelled by `WorkoutApp.App.HandleExerciseUpdate`.
- Persisting the program (`getProgram`, `saveProgram`) and `getNextRecommendedWorkoutId` are imported by `App.tsx` but are not part of this model; the program is the `App` constructor's argument. The chart's `WEEKLY_PROGRAM` is likewise a parameter.
- The summary modal (`completedWorkoutLog`) is left out. `finishWorkout` stores the result of `saveWorkoutLog`, which returns nothing, so the modal has no log to show.
- `finishWorkout` calls `endSession()` without a day. The model passes the selected day, which `EndSession` ignores either way.
- Personal records and the stored `totalVolume`, `totalSets` and `prs` fields: the code never computes them, so the finished log leaves them empty.
- `UserSettings` in `types.ts` does not declare the rest-duration fields that `handleSetComplete` reads; the model adds them as optional fields.
- The AI coach (`services/geminiService.ts`, `components/AICoach.tsx`), the navigation between tabs, the edit-mode toggle and the finish-confirmation prompt are left out; `confirm()` in `removeWorkoutDay` is the `confirmed` parameter.
- The year in calendar keys is a natural number. `DateKeyFormat` states the `YYYY-MM-DD` layout for four-digit years only.
