/** The records of the workout log (src/types/workout.types.ts). Dates are milliseconds since the epoch. */
module WorkoutTypes {
  import opened Wrappers

  type Millis = int

  datatype WorkoutType = Strength | Cardio | Flexibility | Sports | Other

  datatype WeightUnit = Kg | Lbs

  datatype Exercise = Exercise(
    id: string, name: string, sets: int, reps: int,
    weight: Option<real>, unit: WeightUnit, notes: Option<string>)

  /** An exercise as entered in the form: an `Exercise` without its id. */
  datatype ExerciseDraft = ExerciseDraft(
    name: string, sets: int, reps: int,
    weight: Option<real>, unit: WeightUnit, notes: Option<string>)

  datatype MediaKind = Image | Video

  datatype MediaAttachment = MediaAttachment(
    id: string, kind: MediaKind, uri: string, thumbnail: Option<string>, createdAt: Millis)

  datatype Workout = Workout(
    id: string,
    date: Millis,
    workoutType: WorkoutType,
    exercises: seq<Exercise>,
    duration: real,                 // minutes
    caloriesBurned: Option<real>,
    notes: Option<string>,
    media: Option<seq<MediaAttachment>>,
    voiceNote: Option<string>,
    createdAt: Millis,
    updatedAt: Millis,
    syncedToHealthKit: bool)

  datatype WorkoutFormData = WorkoutFormData(
    workoutType: WorkoutType, exercises: seq<ExerciseDraft>, duration: real, notes: Option<string>)

  datatype WorkoutStats = WorkoutStats(
    totalWorkouts: nat, weeklyWorkouts: nat, totalDuration: real, totalCalories: real,
    mostFrequentType: WorkoutType)

  /**
   * A `Partial<Workout>`: each field either absent (keep the old value) or
   * present with a new value. For the optional fields of `Workout` the new
   * value may itself be "undefined", hence the nested `Option`.
   */
  datatype WorkoutPatch = WorkoutPatch(
    id: Option<string>,
    date: Option<Millis>,
    workoutType: Option<WorkoutType>,
    exercises: Option<seq<Exercise>>,
    duration: Option<real>,
    caloriesBurned: Option<Option<real>>,
    notes: Option<Option<string>>,
    media: Option<Option<seq<MediaAttachment>>>,
    voiceNote: Option<Option<string>>,
    createdAt: Option<Millis>,
    updatedAt: Option<Millis>,
    syncedToHealthKit: Option<bool>)
}
