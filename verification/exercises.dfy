/** The exercise catalogue and the weekday plan built from it
    (`src/data/exercises.ts`). */
module Exercises {

  import opened Wrappers
  import Sequences

  datatype Mode = Strength | Burn

  datatype Category = Lower | Upper | Core | Cardio

  datatype Exercise = Exercise(
    id: string,
    name: string,
    targetArea: string,
    mode: Mode,
    description: string,
    category: Category)

  /** The ten exercises, in the order the app lists them. */
  const Catalogue: seq<Exercise> := [
    AirSquat,
    BicycleCrunch,
    LateralLunge,
    Plank,
    MountainClimbers,
    InclinePushUps,
    GluteBridge,
    DeadBug,
    JumpingJacks,
    WallSit
  ]

  const AirSquat := Exercise("1", "Air Squat", "Thighs", Strength,
    "Keep your chest up, push your knees out, and sit back into your heels.", Lower)

  const BicycleCrunch := Exercise("2", "Bicycle Crunch", "Waist/Core", Strength,
    "Touch elbow to opposite knee while extending the other leg. Keep your lower back pressed to the floor.", Core)

  const LateralLunge := Exercise("3", "Lateral Lunge", "Thighs", Strength,
    "Step wide to the side, sit back into one hip while keeping the other leg straight.", Lower)

  const Plank := Exercise("4", "Plank", "Core", Strength,
    "Keep your body in a straight line from head to heels. Engage your core and don't let your hips sag.", Core)

  const MountainClimbers := Exercise("5", "Mountain Climbers", "Cardio/Core", Burn,
    "Drive your knees toward your chest in a running motion while maintaining a plank position.", Cardio)

  const InclinePushUps := Exercise("6", "Incline Push-ups", "Upper Body", Burn,
    "Place hands on an elevated surface. Lower your chest toward it, then push back up.", Upper)

  const GluteBridge := Exercise("7", "Glute Bridge", "Glutes/Thighs", Strength,
    "Lie on your back, push through your heels to lift your hips. Squeeze at the top.", Lower)

  const DeadBug := Exercise("8", "Dead Bug", "Core", Strength,
    "Lie on your back, extend opposite arm and leg while keeping your lower back flat.", Core)

  const JumpingJacks := Exercise("9", "Jumping Jacks", "Full Body", Burn,
    "Jump feet out while raising arms overhead, then return to starting position.", Cardio)

  const WallSit := Exercise("10", "Wall Sit", "Thighs", Strength,
    "Slide down a wall until your thighs are parallel to the floor. Hold the position.", Lower)

  /** The catalogue holds ten exercises whose identifiers are pairwise distinct. */
  lemma CatalogueIdsDistinct()
    ensures |Catalogue| == 10
    ensures forall i, j :: 0 <= i < j < |Catalogue| ==> Catalogue[i].id != Catalogue[j].id
  {
  }

  /** The lower-body and waist days keep exercises of these two categories. */
  predicate LowerOrCore(e: Exercise)
  {
    e.category == Lower || e.category == Core
  }

  /** `filter(e => e.category === 'lower' || e.category === 'core')`. */
  function FilterLowerOrCore(es: seq<Exercise>): (r: seq<Exercise>)
    ensures Sequences.IsSubsequence(r, es)
    ensures forall e :: e in r <==> e in es && LowerOrCore(e)
    ensures forall e :: multiset(r)[e] == if LowerOrCore(e) then multiset(es)[e] else 0
  {
    if es == [] then []
    else if LowerOrCore(es[0]) then
      var r := [es[0]] + FilterLowerOrCore(es[1..]);
      assert r[1..] == FilterLowerOrCore(es[1..]);
      assert es == [es[0]] + es[1..];
      assert multiset(es) == multiset{es[0]} + multiset(es[1..]);
      r
    else
      assert es == [es[0]] + es[1..];
      assert multiset(es) == multiset{es[0]} + multiset(es[1..]);
      FilterLowerOrCore(es[1..])
  }

  /** What the workout screen runs on a weekday (0 is Sunday). */
  datatype DayWorkout = DayWorkout(kind: string, exercises: seq<Exercise>)

  /** `getWorkoutForDay`: Sunday is a recovery day with no exercises;
      Monday, Wednesday and Friday keep the lower-body and core exercises;
      every other number gets the whole catalogue. */
  function WorkoutForDay(day: int): (w: DayWorkout)
    ensures day == 0 ==> w == DayWorkout("Active Recovery", [])
    ensures day in {1, 3, 5} ==>
      && w.kind == "Lower Body & Waist Focus"
      && (forall e :: e in w.exercises <==> e in Catalogue && LowerOrCore(e))
    ensures day !in {0, 1, 3, 5} ==> w == DayWorkout("Full Body Burn", Catalogue)
    ensures Sequences.IsSubsequence(w.exercises, Catalogue)
  {
    if day == 0 then DayWorkout("Active Recovery", [])
    else if day in {1, 3, 5} then
      DayWorkout("Lower Body & Waist Focus", FilterLowerOrCore(Catalogue))
    else
      Sequences.SubsequenceOfSelf(Catalogue);
      DayWorkout("Full Body Burn", Catalogue)
  }

  /** Only Sunday leaves the timer without exercises. */
  lemma {:induction false} OnlySundayIsEmpty(day: int)
    ensures WorkoutForDay(day).exercises == [] <==> day == 0
  {
    if day in {1, 3, 5} {
      assert Catalogue[0] in WorkoutForDay(day).exercises;
    }
  }

  /** `getDayName`: the name of a day number 0..6; any other number indexes
      past the table and gives `undefined`, here `None`. */
  function DayName(day: int): (name: Option<string>)
    ensures name.Some? <==> 0 <= day < 7
    ensures name.Some? ==> |name.value| >= 6 && name.value[|name.value| - 3..] == "day"
    ensures name == Some("Sunday") <==> day == 0
  {
    if 0 <= day < 7 then Some(["Sunday", "Monday", "Tuesday", "Wednesday", "Thursday", "Friday", "Saturday"][day])
    else None
  }

  /** Different days have different names. */
  lemma DayNamesDistinct(a: int, b: int)
    requires 0 <= a < 7 && 0 <= b < 7 && a != b
    ensures DayName(a) != DayName(b)
  {
  }
}
