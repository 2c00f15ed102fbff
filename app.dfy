/**
 * The application shell (App.tsx): opening a program day, the workout
 * session handlers, the rest timer, finishing a workout, and editing the
 * program of days and exercises.
 *
 * The program edits are expressions over the list of days and are modelled
 * as functions; the handlers change component state and call the store, and
 * are methods of the class `App`. The clock (`Date.now()`) and today's date
 * string are parameters.
 */
module WorkoutApp {
  import opened Types
  import opened Numerals
  import opened Storage
  import ExerciseCard
  import HistoryChart

  /** The screens the tab bar switches between. */
  datatype View = Dashboard | Workout | History | AiCoach | Profile

  /** JavaScript truthiness of an optional number: `null` and `0` are both falsy. */
  predicate Truthy(t: Option<int>)
  {
    t.Some? && t.value != 0
  }

  // ---------------------------------------------------------------------
  // Finishing a workout and the rest timer
  // ---------------------------------------------------------------------

  /**
   * `Math.floor((endTime - workoutStartTime) / 1000)` when a start time is
   * known, else 0: whole seconds, rounded down also for a negative span.
   */
  function Duration(start: Option<int>, end: int): (r: int)
    ensures !Truthy(start) ==> r == 0
    ensures Truthy(start) ==> r * 1000 <= end - start.value < r * 1000 + 1000
    ensures Truthy(start) && start.value <= end ==> r >= 0
  {
    if Truthy(start) then (end - start.value) / 1000 else 0
  }

  /**
   * The record `finishWorkout` saves: `startTime` falls back to the end time,
   * so the stored duration always agrees with the stored times.
   */
  function FinishedLog(date: string, dayId: string, start: Option<int>, end: int, exercises: ExerciseLog)
    : (r: WorkoutLog)
    ensures HasKey(r, date, dayId) && r.exercises == exercises
    ensures r.endTime == Some(end) && r.startTime.Some? && r.duration.Some?
    ensures Truthy(start) ==> r.startTime == start
    ensures !Truthy(start) ==> r.startTime == Some(end) && r.duration == Some(0)
    ensures r.duration.value * 1000 <= end - r.startTime.value < r.duration.value * 1000 + 1000
    ensures r.startTime.value <= end ==> r.duration.value >= 0
    ensures r.totalVolume.None? && r.totalSets.None? && r.prs.None?
  {
    var startTime := if Truthy(start) then start.value else end;
    WorkoutLog(date, dayId, Some(startTime), Some(end), Some(Duration(start, end)), None, None, None, exercises)
  }

  /**
   * The rest period after a completed set: the between-exercises setting
   * (120 s when unset) once the exercise is finished, else the between-sets
   * setting (90 s when unset). A setting of 0 counts as unset.
   */
  function RestSeconds(exerciseFinished: bool, settings: UserSettings): (r: int)
    ensures r != 0
    ensures exerciseFinished ==>
      r == (if Truthy(settings.restBetweenExercises) then settings.restBetweenExercises.value else 120)
    ensures !exerciseFinished ==>
      r == (if Truthy(settings.restBetweenSets) then settings.restBetweenSets.value else 90)
    ensures ((settings.restBetweenExercises.None? || settings.restBetweenExercises.value >= 0) &&
             (settings.restBetweenSets.None? || settings.restBetweenSets.value >= 0)) ==> r > 0
  {
    if exerciseFinished then
      (if Truthy(settings.restBetweenExercises) then settings.restBetweenExercises.value else 120)
    else
      (if Truthy(settings.restBetweenSets) then settings.restBetweenSets.value else 90)
  }

  /** With no stored settings the defaults apply. */
  lemma RestSecondsDefaults(exerciseFinished: bool)
    ensures RestSeconds(exerciseFinished, EmptySettings) == if exerciseFinished then 120 else 90
  {
  }

  // ---------------------------------------------------------------------
  // Reopening a day
  // ---------------------------------------------------------------------

  /** The exercises of today's log for the day (`logs.find(...)`), or the empty map. */
  function ExistingExercises(logs: seq<WorkoutLog>, today: string, dayId: string): (r: ExerciseLog)
    ensures KeyIndex(logs, today, dayId) >= 0 ==> r == logs[KeyIndex(logs, today, dayId)].exercises
    ensures (forall i :: 0 <= i < |logs| ==> !HasKey(logs[i], today, dayId)) ==> r == map[]
  {
    var found := Lookup(logs, today, dayId);
    if found.Some? then found.value.exercises else map[]
  }

  /** Reopening a day after saving its log restores exactly the saved exercises. */
  lemma ReopenAfterSave(logs: seq<WorkoutLog>, log: WorkoutLog)
    ensures ExistingExercises(Upsert(logs, log), log.date, log.dayId) == log.exercises
  {
    UpsertThenLookup(logs, log);
  }

  /** Saving a log for another date or day does not change what reopening a day finds. */
  lemma ReopenOtherKey(logs: seq<WorkoutLog>, log: WorkoutLog, today: string, dayId: string)
    requires !HasKey(log, today, dayId)
    ensures ExistingExercises(Upsert(logs, log), today, dayId) == ExistingExercises(logs, today, dayId)
  {
    UpsertKeepsOtherKeys(logs, log, today, dayId);
  }

  // ---------------------------------------------------------------------
  // Program editing
  // ---------------------------------------------------------------------

  /** `array.filter(keep)`: the elements that pass, in their original order. */
  function Filter<T(!new)>(s: seq<T>, keep: T -> bool): (r: seq<T>)
    ensures |r| <= |s|
    ensures forall x :: x in r <==> x in s && keep(x)
  {
    if s == [] then []
    else (if keep(s[0]) then [s[0]] else []) + Filter(s[1..], keep)
  }

  /** Filtering distributes over concatenation, so the kept elements stay in order. */
  lemma {:induction false} FilterAppend<T(!new)>(a: seq<T>, b: seq<T>, keep: T -> bool)
    ensures Filter(a + b, keep) == Filter(a, keep) + Filter(b, keep)
  {
    if a != [] {
      var head := if keep(a[0]) then [a[0]] else [];
      var ab := a + b;
      assert ab[0] == a[0] && ab[1..] == a[1..] + b;
      FilterAppend(a[1..], b, keep);
      calc {
        Filter(ab, keep);
        head + Filter(a[1..] + b, keep);
        head + (Filter(a[1..], keep) + Filter(b, keep));
        (head + Filter(a[1..], keep)) + Filter(b, keep);
        Filter(a, keep) + Filter(b, keep);
      }
    } else {
      assert a + b == b;
    }
  }

  /** A filter that every element passes changes nothing. */
  lemma {:induction false} FilterKeepsAll<T(!new)>(s: seq<T>, keep: T -> bool)
    requires forall x :: x in s ==> keep(x)
    ensures Filter(s, keep) == s
  {
    if s != [] {
      assert forall x :: x in s[1..] ==> x in s;
      FilterKeepsAll(s[1..], keep);
    }
  }

  /** Filtering twice with the same test is filtering once. */
  lemma FilterIdempotent<T(!new)>(s: seq<T>, keep: T -> bool)
    ensures Filter(Filter(s, keep), keep) == Filter(s, keep)
  {
    FilterKeepsAll(Filter(s, keep), keep);
  }

  const NewDayName := "Yeni Antrenman G\U{00FC}n\U{00FC}"
  const NewExerciseName := "Yeni Hareket"

  /** The day `addNewWorkoutDay` creates at time `now`. */
  function NewDay(now: nat): WorkoutDay
  {
    WorkoutDay("day-" + NatToString(now), NewDayName, [])
  }

  /** The exercise `addNewExercise` creates at time `now`. */
  function NewExercise(now: nat): ExerciseData
  {
    ExerciseData("ex-" + NatToString(now), NewExerciseName, "3x8-12", "20 kg", None)
  }

  /** `[...program, newDay]`: one empty day at the end, the others unchanged. */
  function AddDay(program: seq<WorkoutDay>, now: nat): (r: seq<WorkoutDay>)
    ensures |r| == |program| + 1 && r[..|program|] == program
    ensures r[|program|].id == "day-" + NatToString(now) && r[|program|].exercises == []
  {
    program + [NewDay(now)]
  }

  /** `program.filter(d => d.id !== dayId)`. */
  function DropDay(program: seq<WorkoutDay>, dayId: string): (r: seq<WorkoutDay>)
    ensures |r| <= |program|
    ensures forall d :: d in r ==> d in program && d.id != dayId
    ensures forall d :: d in program && d.id != dayId ==> d in r
  {
    Filter(program, (d: WorkoutDay) => d.id != dayId)
  }

  /** Removing a day keeps the others in order: it distributes over concatenation. */
  lemma DropDayAppend(a: seq<WorkoutDay>, b: seq<WorkoutDay>, dayId: string)
    ensures DropDay(a + b, dayId) == DropDay(a, dayId) + DropDay(b, dayId)
  {
    FilterAppend(a, b, (d: WorkoutDay) => d.id != dayId);
  }

  /** Removing a day that was just added, under an id no other day has, restores the program. */
  lemma DropDayUndoesAddDay(program: seq<WorkoutDay>, now: nat)
    requires forall i :: 0 <= i < |program| ==> program[i].id != NewDay(now).id
    ensures DropDay(AddDay(program, now), NewDay(now).id) == program
  {
    var keep := (d: WorkoutDay) => d.id != NewDay(now).id;
    FilterAppend(program, [NewDay(now)], keep);
    FilterKeepsAll(program, keep);
    assert Filter([NewDay(now)], keep) == [];
  }

  /** `program.map(d => d.id === dayId ? { ...d, name } : d)`. */
  function RenameDay(program: seq<WorkoutDay>, dayId: string, name: string): (r: seq<WorkoutDay>)
    ensures |r| == |program|
    ensures forall i :: 0 <= i < |r| ==> r[i].id == program[i].id && r[i].exercises == program[i].exercises
    ensures forall i :: 0 <= i < |r| && program[i].id == dayId ==> r[i].name == name
    ensures forall i :: 0 <= i < |r| && program[i].id != dayId ==> r[i] == program[i]
  {
    seq(|program|, i requires 0 <= i < |program| =>
      if program[i].id == dayId then program[i].(name := name) else program[i])
  }

  /** A second rename of the same day overrides the first. */
  lemma RenameDayLastWins(program: seq<WorkoutDay>, dayId: string, first: string, second: string)
    ensures RenameDay(RenameDay(program, dayId, first), dayId, second) == RenameDay(program, dayId, second)
  {
  }

  /** `program.map(d => d.id === dayId ? { ...d, exercises: [...d.exercises, newEx] } : d)`. */
  function AppendExercise(program: seq<WorkoutDay>, dayId: string, now: nat): (r: seq<WorkoutDay>)
    ensures |r| == |program|
    ensures forall i :: 0 <= i < |r| ==> r[i].id == program[i].id && r[i].name == program[i].name
    ensures forall i :: 0 <= i < |r| && program[i].id == dayId ==>
      r[i].exercises == program[i].exercises + [NewExercise(now)]
    ensures forall i :: 0 <= i < |r| && program[i].id != dayId ==> r[i] == program[i]
  {
    seq(|program|, i requires 0 <= i < |program| =>
      if program[i].id == dayId then program[i].(exercises := program[i].exercises + [NewExercise(now)])
      else program[i])
  }

  /** `d.exercises.filter(e => e.id !== exId)`. */
  function OtherExercises(exercises: seq<ExerciseData>, exId: string): (r: seq<ExerciseData>)
    ensures |r| <= |exercises|
    ensures forall e :: e in r <==> e in exercises && e.id != exId
  {
    Filter(exercises, (e: ExerciseData) => e.id != exId)
  }

  /** `program.map(d => d.id === dayId ? { ...d, exercises: d.exercises.filter(...) } : d)`. */
  function DropExercise(program: seq<WorkoutDay>, dayId: string, exId: string): (r: seq<WorkoutDay>)
    ensures |r| == |program|
    ensures forall i :: 0 <= i < |r| ==> r[i].id == program[i].id && r[i].name == program[i].name
    ensures forall i :: 0 <= i < |r| && program[i].id == dayId ==>
      forall e :: e in r[i].exercises <==> e in program[i].exercises && e.id != exId
    ensures forall i :: 0 <= i < |r| && program[i].id != dayId ==> r[i] == program[i]
  {
    seq(|program|, i requires 0 <= i < |program| =>
      if program[i].id == dayId then program[i].(exercises := OtherExercises(program[i].exercises, exId))
      else program[i])
  }

  /**
   * Removing the exercise that was just added, when its id is new in that
   * day, gives back the program as it was.
   */
  lemma DropExerciseUndoesAppend(program: seq<WorkoutDay>, dayId: string, now: nat)
    requires forall i, j :: 0 <= i < |program| && program[i].id == dayId && 0 <= j < |program[i].exercises| ==>
      program[i].exercises[j].id != NewExercise(now).id
    ensures DropExercise(AppendExercise(program, dayId, now), dayId, NewExercise(now).id) == program
  {
    var exId := NewExercise(now).id;
    var keep := (e: ExerciseData) => e.id != exId;
    var r := DropExercise(AppendExercise(program, dayId, now), dayId, exId);
    forall i | 0 <= i < |program|
      ensures r[i] == program[i]
    {
      if program[i].id == dayId {
        var exs := program[i].exercises;
        FilterAppend(exs, [NewExercise(now)], keep);
        FilterKeepsAll(exs, keep);
        assert Filter([NewExercise(now)], keep) == [];
        assert OtherExercises(exs + [NewExercise(now)], exId) == exs;
      }
    }
  }

  /** A freshly added exercise opens with three empty sets at 20 kg ("3x8-12", "20 kg"). */
  lemma NewExerciseOpensWithThreeSets(now: nat)
    ensures var sets := ExerciseCard.InitialSets(NewExercise(now), []);
      |sets| == 3 && forall i :: 0 <= i < 3 ==> sets[i] == ExerciseSet(0.0, 20.0, None, false)
  {
    assert NatToString(3) == "3";
    assert NatToString(3) + "x" + "8-12" == "3x8-12";
    ExerciseCard.TargetSetCountSpec(3, "8-12", "");
    assert NatToString(2) == "2";
    assert NatToString(20) == "20";
    assert NatToString(20) + " kg" == "20 kg";
    ExerciseCard.TargetWeightOfWhole(20);
  }

  // ---------------------------------------------------------------------
  // The component state and its handlers
  // ---------------------------------------------------------------------

  /** The state of the application component and the store it talks to. */
  class App {
    const store: Store
    var currentView: View
    var program: seq<WorkoutDay>
    var isEditMode: bool
    var selectedDay: Option<WorkoutDay>
    var activeLog: ExerciseLog
    var workoutStartTime: Option<int>
    var showFinishConfirm: bool
    var restTargetTime: Option<int>

    /** The initial state on the dashboard, with the program already loaded. */
    constructor (store: Store, program: seq<WorkoutDay>)
      ensures this.store == store && this.program == program
      ensures currentView == Dashboard && !isEditMode && selectedDay.None?
      ensures activeLog == map[] && workoutStartTime.None? && !showFinishConfirm && restTargetTime.None?
    {
      this.store := store;
      this.program := program;
      currentView := Dashboard;
      isEditMode := false;
      selectedDay := None;
      activeLog := map[];
      workoutStartTime := None;
      showFinishConfirm := false;
      restTargetTime := None;
    }

    /**
     * `startWorkoutView`: ignored in edit mode; otherwise selects the day,
     * reloads today's sets for it and the session's start time, and shows the
     * workout screen.
     */
    method StartWorkoutView(day: WorkoutDay, today: string)
      modifies this`selectedDay, this`activeLog, this`workoutStartTime, this`currentView
      ensures old(isEditMode) ==>
        selectedDay == old(selectedDay) && activeLog == old(activeLog) &&
        workoutStartTime == old(workoutStartTime) && currentView == old(currentView)
      ensures !old(isEditMode) ==>
        selectedDay == Some(day) && currentView == Workout &&
        activeLog == ExistingExercises(store.WorkoutLogs(), today, day.id) &&
        workoutStartTime == store.SessionStartTime(day.id)
    {
      if isEditMode {
        return;
      }
      selectedDay := Some(day);
      var logs := store.WorkoutLogs();
      var existingLog := Lookup(logs, today, day.id);
      var activeSessionStart := store.SessionStartTime(day.id);
      if existingLog.Some? {
        activeLog := existingLog.value.exercises;
      } else {
        activeLog := map[];
      }
      workoutStartTime := activeSessionStart;
      currentView := Workout;
    }

    /**
     * `handleManualStart`: starts (or resumes) the session of the selected
     * day; the timer then shows the session's start time.
     */
    method HandleManualStart(now: int)
      modifies store`session, this`workoutStartTime
      ensures selectedDay.None? ==> store.session == old(store.session) && workoutStartTime == old(workoutStartTime)
      ensures selectedDay.Some? ==>
        var existing := old(store.SessionStartTime(selectedDay.value.id));
        workoutStartTime == (if Truthy(existing) then existing else Some(now)) &&
        store.SessionStartTime(selectedDay.value.id) == workoutStartTime
    {
      if selectedDay.None? {
        return;
      }
      var startTime := store.StartSession(selectedDay.value.id, now);
      workoutStartTime := Some(startTime);
    }

    /**
     * `handleExerciseUpdate`: the card's sets replace that exercise's entry
     * of the active log; the log's volume changes by exactly the difference.
     */
    method HandleExerciseUpdate(exId: string, sets: seq<ExerciseSet>)
      modifies this`activeLog
      ensures activeLog == old(activeLog)[exId := sets]
      ensures exId in old(activeLog) ==>
        HistoryChart.ExercisesVolume(activeLog) ==
        HistoryChart.ExercisesVolume(old(activeLog)) - ExerciseCard.Volume(old(activeLog)[exId]) + ExerciseCard.Volume(sets)
      ensures exId !in old(activeLog) ==>
        HistoryChart.ExercisesVolume(activeLog) == HistoryChart.ExercisesVolume(old(activeLog)) + ExerciseCard.Volume(sets)
    {
      HistoryChart.ExercisesVolumeUpdate(activeLog, exId, sets);
      activeLog := activeLog[exId := sets];
    }

    /** `handleSetComplete`: the rest timer runs to `now` plus the chosen rest period. */
    method HandleSetComplete(exerciseFinished: bool, now: int)
      modifies this`restTargetTime
      ensures restTargetTime == Some(now + RestSeconds(exerciseFinished, store.UserSettingsRecord()) * 1000)
    {
      var settings := store.UserSettingsRecord();
      var restSeconds := RestSeconds(exerciseFinished, settings);
      restTargetTime := Some(now + restSeconds * 1000);
    }

    /** The rest timer's `onAddSeconds`: only a running timer moves, by exactly `s` seconds. */
    method AddRestSeconds(s: int)
      modifies this`restTargetTime
      ensures Truthy(old(restTargetTime)) ==> restTargetTime == Some(old(restTargetTime).value + s * 1000)
      ensures !Truthy(old(restTargetTime)) ==> restTargetTime == old(restTargetTime)
    {
      if Truthy(restTargetTime) {
        restTargetTime := Some(restTargetTime.value + s * 1000);
      }
    }

    /**
     * `finishWorkout`: saves today's log for the selected day (replacing an
     * earlier one for the same date and day), clears the session and the rest
     * timer and closes the confirmation. Reopening the day today restores the
     * sets just saved.
     */
    method FinishWorkout(now: int, today: string)
      modifies store`logs, store`session, this`showFinishConfirm, this`restTargetTime
      ensures selectedDay.None? ==>
        store.logs == old(store.logs) && store.session == old(store.session) &&
        showFinishConfirm == old(showFinishConfirm) && restTargetTime == old(restTargetTime)
      ensures selectedDay.Some? ==>
        var log := FinishedLog(today, selectedDay.value.id, workoutStartTime, now, activeLog);
        store.logs == Present(Upsert(old(store.WorkoutLogs()), log)) &&
        store.session == Absent && !showFinishConfirm && restTargetTime.None?
      ensures selectedDay.Some? ==>
        ExistingExercises(store.WorkoutLogs(), today, selectedDay.value.id) == activeLog &&
        (forall d :: store.SessionStartTime(d).None?)
      ensures selectedDay.Some? && UniqueKeys(old(store.WorkoutLogs())) ==> UniqueKeys(store.WorkoutLogs())
    {
      if selectedDay.None? {
        return;
      }
      var endTime := now;
      var logData := FinishedLog(today, selectedDay.value.id, workoutStartTime, endTime, activeLog);
      store.SaveWorkoutLog(logData);
      ReopenAfterSave(old(store.WorkoutLogs()), logData);
      store.EndSession(selectedDay.value.id);
      showFinishConfirm := false;
      restTargetTime := None;
    }

    /** `addNewWorkoutDay`. */
    method AddNewWorkoutDay(now: nat)
      modifies this`program
      ensures program == AddDay(old(program), now)
    {
      program := AddDay(program, now);
    }

    /** `removeWorkoutDay`: only when the user confirms. */
    method RemoveWorkoutDay(dayId: string, confirmed: bool)
      modifies this`program
      ensures confirmed ==> program == DropDay(old(program), dayId)
      ensures !confirmed ==> program == old(program)
    {
      if confirmed {
        program := DropDay(program, dayId);
      }
    }

    /** `updateWorkoutDayName`. */
    method UpdateWorkoutDayName(dayId: string, name: string)
      modifies this`program
      ensures program == RenameDay(old(program), dayId, name)
    {
      program := RenameDay(program, dayId, name);
    }

    /** `addNewExercise`. */
    method AddNewExercise(dayId: string, now: nat)
      modifies this`program
      ensures program == AppendExercise(old(program), dayId, now)
    {
      program := AppendExercise(program, dayId, now);
    }

    /** `removeExercise`. */
    method RemoveExercise(dayId: string, exId: string)
      modifies this`program
      ensures program == DropExercise(old(program), dayId, exId)
    {
      program := DropExercise(program, dayId, exId);
    }
  }
}
