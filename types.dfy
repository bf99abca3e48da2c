/** The records and enumerations shared by the fitness planner (src/types/index.ts). */
module Types {

  /** A value that may be missing: `null` for the profile, an unset key for the theme. */
  datatype Option<+T> = None | Some(value: T)

  /** A `Date`, as milliseconds since the epoch. */
  type Timestamp = int

  datatype Gender = Male | Female | Other

  datatype Goal = WeightLoss | MuscleGain | Maintenance

  datatype FoodPreference = Veg | NonVeg | Vegan

  /** Every `number` of the profile is a real: the source never restricts them to integers. */
  datatype UserProfile = UserProfile(
    name: string,
    age: real,
    gender: Gender,
    height: real,   // centimetres
    weight: real,   // kilograms
    goal: Goal,
    budget: real,
    foodPreference: FoodPreference,
    gymAccess: bool,
    studyHours: real)

  datatype MoodType = Energetic | Normal | Tired | Stressed

  datatype Exercise = Exercise(name: string, sets: string, reps: string, duration: string)

  datatype WorkoutPlan = WorkoutPlan(
    id: string,
    title: string,
    exercises: seq<Exercise>,
    totalDuration: string,
    mood: MoodType,
    generatedAt: Timestamp)

  datatype MealPlan = MealPlan(breakfast: string, lunch: string, dinner: string, estimatedProtein: string)

  datatype DietPlan = DietPlan(id: string, meals: MealPlan, totalCalories: int, generatedAt: Timestamp)

  datatype WeightEntry = WeightEntry(date: Timestamp, weight: real, bmi: real)

  /** The two values `getTheme` can return. */
  datatype Theme = Light | Dark
}
