/** The hard-coded demo profile and the browser-storage keys (src/constants/demo-user.ts). */
module DemoUser {
  import opened Types

  /** The profile installed by the demo login. */
  const DEMO_USER: UserProfile := UserProfile(
    name := "Demo Student",
    age := 20.0,
    gender := Male,
    height := 170.0,
    weight := 70.0,
    goal := MuscleGain,
    budget := 150.0,
    foodPreference := Veg,
    gymAccess := false,
    studyHours := 6.0)

  /** One key per slot of the store. */
  datatype StorageKey = UserProfileKey | WorkoutHistoryKey | DietHistoryKey | WeightHistoryKey | ThemeKey

  /** The key's string in browser storage. */
  function KeyName(k: StorageKey): string
  {
    match k
    case UserProfileKey => "fitness_user_profile"
    case WorkoutHistoryKey => "fitness_workout_history"
    case DietHistoryKey => "fitness_diet_history"
    case WeightHistoryKey => "fitness_weight_history"
    case ThemeKey => "fitness_theme"
  }

  /** `Object.values(STORAGE_KEYS)`, in declaration order. */
  const StorageKeys: seq<StorageKey> :=
    [UserProfileKey, WorkoutHistoryKey, DietHistoryKey, WeightHistoryKey, ThemeKey]

  /** Every slot has a key in the list, and no two keys share a string, so the slots are independent. */
  lemma StorageKeysDistinct()
    ensures forall k: StorageKey :: k in StorageKeys
    ensures forall i, j :: 0 <= i < j < |StorageKeys| ==> KeyName(StorageKeys[i]) != KeyName(StorageKeys[j])
  {
    forall k: StorageKey ensures k in StorageKeys {
      match k
      case UserProfileKey => assert StorageKeys[0] == k;
      case WorkoutHistoryKey => assert StorageKeys[1] == k;
      case DietHistoryKey => assert StorageKeys[2] == k;
      case WeightHistoryKey => assert StorageKeys[3] == k;
      case ThemeKey => assert StorageKeys[4] == k;
    }
  }
}
