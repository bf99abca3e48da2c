/** The workout section (src/components/features/WorkoutSection.tsx): the mock generator keyed
    by mood, and the component state that mirrors the stored workout history. */
module WorkoutSection {
  import opened Types
  import opened Storage
  import opened PlanHistory

  /** One row of the generator's table. */
  datatype WorkoutTemplate = WorkoutTemplate(title: string, exercises: seq<Exercise>, totalDuration: string)

  /** The generator's fixed table, one template per mood. */
  function Workouts(mood: MoodType): WorkoutTemplate
  {
    match mood
    case Energetic =>
      WorkoutTemplate("High-Intensity Full Body Workout", [
        Exercise("Jumping Jacks", "3", "30", "3 min"),
        Exercise("Push-ups", "4", "15-20", "5 min"),
        Exercise("Squats", "4", "20", "5 min"),
        Exercise("Burpees", "3", "10", "4 min"),
        Exercise("Plank Hold", "3", "45 sec", "3 min")],
        "25-30 minutes")
    case Normal =>
      WorkoutTemplate("Balanced Strength Training", [
        Exercise("Warm-up Jog in Place", "1", "5 min", "5 min"),
        Exercise("Lunges", "3", "12 each leg", "6 min"),
        Exercise("Push-ups", "3", "10-15", "5 min"),
        Exercise("Bicycle Crunches", "3", "20", "4 min"),
        Exercise("Cool-down Stretch", "1", "5 min", "5 min")],
        "25 minutes")
    case Tired =>
      WorkoutTemplate("Light Recovery Workout", [
        Exercise("Gentle Stretching", "1", "10 min", "10 min"),
        Exercise("Wall Push-ups", "2", "10", "3 min"),
        Exercise("Chair Squats", "2", "12", "4 min"),
        Exercise("Walking", "1", "10 min", "10 min")],
        "20 minutes")
    case Stressed =>
      WorkoutTemplate("Mindful Movement & Relaxation", [
        Exercise("Deep Breathing", "3", "2 min", "6 min"),
        Exercise("Gentle Yoga Flow", "1", "10 min", "10 min"),
        Exercise("Cat-Cow Stretch", "2", "10", "3 min"),
        Exercise("Child Pose Hold", "2", "2 min", "4 min"),
        Exercise("Meditation", "1", "5 min", "5 min")],
        "25-30 minutes")
  }

  /** `generateMockWorkout`, with `Date.now()` and `new Date()` passed in as `id` and `now`.
      The plan carries the requested mood and its table row; the profile is not consulted. */
  function GenerateMockWorkout(profile: UserProfile, mood: MoodType, id: string, now: Timestamp): (plan: WorkoutPlan)
    ensures plan.mood == mood && plan.id == id && plan.generatedAt == now
    ensures plan.title == Workouts(mood).title
    ensures plan.exercises == Workouts(mood).exercises
    ensures plan.totalDuration == Workouts(mood).totalDuration
    ensures |plan.exercises| == (if mood == Tired then 4 else 5)
    ensures mood == Energetic ==> plan.title == "High-Intensity Full Body Workout" && plan.totalDuration == "25-30 minutes"
  {
    var selectedWorkout := Workouts(mood);
    WorkoutPlan(id, selectedWorkout.title, selectedWorkout.exercises, selectedWorkout.totalDuration, mood, now)
  }

  /** Two profiles give the same plan for the same mood, id and time. */
  lemma WorkoutIgnoresProfile(p1: UserProfile, p2: UserProfile, mood: MoodType, id: string, now: Timestamp)
    ensures GenerateMockWorkout(p1, mood, id, now) == GenerateMockWorkout(p2, mood, id, now)
  {
  }

  /** No two moods share a title, so a plan's title names its mood. */
  lemma TitlesDistinct(m1: MoodType, m2: MoodType)
    requires Workouts(m1).title == Workouts(m2).title
    ensures m1 == m2
  {
  }

  /** The component's state: the selected mood, the plan on display and the local history. */
  class WorkoutView {
    const profile: UserProfile
    var mood: MoodType
    var currentPlan: Option<WorkoutPlan>
    var history: seq<WorkoutPlan>   // newest first, like the store

    /** The state before the mount effect runs. */
    constructor (profile: UserProfile)
      ensures this.profile == profile
      ensures mood == MoodType.Normal && currentPlan == None && history == []
    {
      this.profile := profile;
      mood := MoodType.Normal;
      currentPlan := None;
      history := [];
    }

    /** The mount effect: copy the stored history; when it is non-empty its newest plan becomes
        the current plan and that plan's mood the selected mood. */
    method Mount(s: Store)
      modifies this`history, this`currentPlan, this`mood
      ensures history == s.workoutHistory
      ensures |history| > 0 ==> currentPlan == Some(history[0]) && mood == history[0].mood
      ensures |history| == 0 ==> currentPlan == old(currentPlan) && mood == old(mood)
    {
      var workoutHistory := s.GetWorkoutHistory();
      history := workoutHistory;
      if |workoutHistory| > 0 {
        currentPlan := Some(workoutHistory[0]);
        mood := workoutHistory[0].mood;
      }
    }

    /** The mood selector. */
    method SelectMood(m: MoodType)
      modifies this`mood
      ensures mood == m
    {
      mood := m;
    }

    /** `generateWorkout` once its delay has elapsed: generate for the selected mood, save the
        plan (the store prepends it), show it and prepend it to the local history. A local
        history equal to the stored one before stays equal after. */
    method Generate(s: Store, id: string, now: Timestamp)
      modifies this`currentPlan, this`history, s`workoutHistory
      ensures currentPlan.Some? && currentPlan.value == GenerateMockWorkout(profile, mood, id, now)
      ensures currentPlan.value.mood == mood
      ensures history == [currentPlan.value] + old(history)
      ensures s.workoutHistory == [currentPlan.value] + old(s.workoutHistory)
      ensures old(history) == old(s.workoutHistory) ==> history == s.workoutHistory
    {
      var workoutData := GenerateMockWorkout(profile, mood, id, now);
      s.SaveWorkoutPlan(workoutData);
      currentPlan := Some(workoutData);
      history := [workoutData] + history;
    }

    /** Clicking a plan of the previous-plans panel shows it. */
    method ShowPrevious(k: nat)
      requires PreviousPlans(history).Some? && k < PreviousPlans(history).value.count
      modifies this`currentPlan
      ensures currentPlan == Some(history[k + 1])
    {
      var panel := PreviousPlans(history).value;
      currentPlan := Some(panel.plans[k]);
    }
  }
}
