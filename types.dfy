/**
 * The records of the workout tracker (types.ts).
 *
 * Numbers the user types (weight, reps, effort) are exact reals rather than
 * IEEE doubles; timestamps are integers of milliseconds since the epoch.
 */
module Types {

  datatype Option<+T> = None | Some(value: T)

  /** One performed set of an exercise. `rpe` is the optional effort rating. */
  datatype ExerciseSet = ExerciseSet(reps: real, weight: real, rpe: Option<real>, completed: bool)

  /** One exercise of a program day, with its target strings ("5x5", "60 kg"). */
  datatype ExerciseData = ExerciseData(
    id: string,
    name: string,
    targetSets: string,
    targetWeight: string,
    lastLog: Option<string>)

  /** A named day of the program with its ordered exercises. */
  datatype WorkoutDay = WorkoutDay(id: string, name: string, exercises: seq<ExerciseData>)

  /** Sets logged per exercise id. */
  type ExerciseLog = map<string, seq<ExerciseSet>>

  /**
   * The saved record of one workout. `totalVolume`, `totalSets` and `prs`
   * are declared but nothing in the application fills them in.
   */
  datatype WorkoutLog = WorkoutLog(
    date: string,
    dayId: string,
    startTime: Option<int>,
    endTime: Option<int>,
    duration: Option<int>,
    totalVolume: Option<real>,
    totalSets: Option<int>,
    prs: Option<seq<string>>,
    exercises: ExerciseLog)

  /** User preferences; every field may be missing. Rest durations are seconds. */
  datatype UserSettings = UserSettings(
    membershipEndDate: Option<string>,
    membershipStartDate: Option<string>,
    restBetweenSets: Option<int>,
    restBetweenExercises: Option<int>)

  /** The empty settings record `{}`. */
  const EmptySettings := UserSettings(None, None, None, None)

  /** A log is identified by its date and its day id. */
  predicate HasKey(log: WorkoutLog, date: string, dayId: string)
  {
    log.date == date && log.dayId == dayId
  }
}
