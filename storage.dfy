/** The browser-storage wrapper (src/lib/storage.ts): five independent keyed slots. */
module Storage {
  import opened Types
  import opened DemoUser

  /** The `storage` object over browser storage. Each field is the decoded value of one key.
      A history whose key is absent reads back as `[]`, exactly like a stored empty list, so
      the two are not told apart; the profile and the theme keep their absence. */
  class Store {
    var profile: Option<UserProfile>
    var workoutHistory: seq<WorkoutPlan>   // newest first
    var dietHistory: seq<DietPlan>         // newest first
    var weightHistory: seq<WeightEntry>    // oldest first
    var theme: Option<Theme>

    /** Browser storage in which no key has been written. */
    constructor ()
      ensures IsCleared()
    {
      profile := None;
      workoutHistory := [];
      dietHistory := [];
      weightHistory := [];
      theme := None;
    }

    /** The slot of key `k` holds nothing. */
    predicate IsAbsent(k: StorageKey)
      reads this
    {
      match k
      case UserProfileKey => profile == None
      case WorkoutHistoryKey => workoutHistory == []
      case DietHistoryKey => dietHistory == []
      case WeightHistoryKey => weightHistory == []
      case ThemeKey => theme == None
    }

    /** Every key is absent. */
    predicate IsCleared()
      reads this
    {
      profile == None && workoutHistory == [] && dietHistory == [] && weightHistory == [] && theme == None
    }

    /** What the flows driving the store keep true: a stored profile has a positive height and
        weight, and every recorded weight is positive. */
    predicate ValuesPositive()
      reads this
    {
      && (profile.Some? ==> profile.value.height > 0.0 && profile.value.weight > 0.0)
      && forall i :: 0 <= i < |weightHistory| ==> weightHistory[i].weight > 0.0
    }

    /** The profile's weight is that of the latest weight entry (vacuous without both). */
    predicate WeightInSync()
      reads this
    {
      profile.Some? && weightHistory != [] ==> profile.value.weight == weightHistory[|weightHistory| - 1].weight
    }

    /** `getUserProfile`: `null` until a profile is saved, then the last one saved. */
    method GetUserProfile() returns (p: Option<UserProfile>)
      ensures p == profile
    {
      p := profile;
    }

    /** `saveUserProfile`: overwrites the profile wholesale; no field is merged. */
    method SaveUserProfile(p: UserProfile)
      modifies this`profile
      ensures profile == Some(p)
    {
      profile := Some(p);
    }

    /** `getWorkoutHistory`: `[]` when nothing was saved. */
    method GetWorkoutHistory() returns (h: seq<WorkoutPlan>)
      ensures h == workoutHistory
    {
      h := workoutHistory;
    }

    /** `saveWorkoutPlan`: read the history, `unshift` the plan, write it back. */
    method SaveWorkoutPlan(plan: WorkoutPlan)
      modifies this`workoutHistory
      ensures workoutHistory == [plan] + old(workoutHistory)
    {
      var history := GetWorkoutHistory();
      history := [plan] + history;
      workoutHistory := history;
    }

    /** `getDietHistory`: `[]` when nothing was saved. */
    method GetDietHistory() returns (h: seq<DietPlan>)
      ensures h == dietHistory
    {
      h := dietHistory;
    }

    /** `saveDietPlan`: read the history, `unshift` the plan, write it back. */
    method SaveDietPlan(plan: DietPlan)
      modifies this`dietHistory
      ensures dietHistory == [plan] + old(dietHistory)
    {
      var history := GetDietHistory();
      history := [plan] + history;
      dietHistory := history;
    }

    /** `getWeightHistory`: `[]` when nothing was saved. */
    method GetWeightHistory() returns (h: seq<WeightEntry>)
      ensures h == weightHistory
    {
      h := weightHistory;
    }

    /** `addWeightEntry`: read the history, `push` the entry, write it back. */
    method AddWeightEntry(entry: WeightEntry)
      modifies this`weightHistory
      ensures weightHistory == old(weightHistory) + [entry]
    {
      var history := GetWeightHistory();
      history := history + [entry];
      weightHistory := history;
    }

    /** `updateWeight`: always appends `{date: now, weight, bmi}`; then, only if a profile is
        stored, rewrites that profile with the new weight and every other field kept. Without a
        profile the entry is still appended and the profile stays absent. */
    method UpdateWeight(weight: real, bmi: real, now: Timestamp)
      modifies this`weightHistory, this`profile
      ensures weightHistory == old(weightHistory) + [WeightEntry(now, weight, bmi)]
      ensures old(profile).None? ==> profile == None
      ensures old(profile).Some? ==> profile == Some(old(profile).value.(weight := weight))
    {
      var entry := WeightEntry(now, weight, bmi);
      AddWeightEntry(entry);
      var p := GetUserProfile();
      if p.Some? {
        SaveUserProfile(p.value.(weight := weight));
      }
    }

    /** `getTheme`: the saved theme, `Light` when none was saved. */
    method GetTheme() returns (t: Theme)
      ensures theme.None? ==> t == Light
      ensures theme.Some? ==> t == theme.value
    {
      t := if theme.Some? then theme.value else Light;
    }

    /** `saveTheme`. */
    method SaveTheme(t: Theme)
      modifies this`theme
      ensures theme == Some(t)
    {
      theme := Some(t);
    }

    /** `localStorage.removeItem(key)`: empties that key's slot and no other. */
    method RemoveItem(k: StorageKey)
      modifies this
      ensures IsAbsent(k)
      ensures k != UserProfileKey ==> profile == old(profile)
      ensures k != WorkoutHistoryKey ==> workoutHistory == old(workoutHistory)
      ensures k != DietHistoryKey ==> dietHistory == old(dietHistory)
      ensures k != WeightHistoryKey ==> weightHistory == old(weightHistory)
      ensures k != ThemeKey ==> theme == old(theme)
    {
      match k
      case UserProfileKey => profile := None;
      case WorkoutHistoryKey => workoutHistory := [];
      case DietHistoryKey => dietHistory := [];
      case WeightHistoryKey => weightHistory := [];
      case ThemeKey => theme := None;
    }

    /** `clearAll`: removes every key of `StorageKeys`, the theme included. */
    method ClearAll()
      modifies this
      ensures IsCleared()
    {
      for i := 0 to |StorageKeys|
        invariant forall j :: 0 <= j < i ==> IsAbsent(StorageKeys[j])
      {
        RemoveItem(StorageKeys[i]);
      }
      assert IsAbsent(StorageKeys[0]) && IsAbsent(StorageKeys[1]) && IsAbsent(StorageKeys[2]);
      assert IsAbsent(StorageKeys[3]) && IsAbsent(StorageKeys[4]);
    }
  }

  /** Saving P1 then P2 reads back [P2, P1]; adding W1 then W2 reads back [W1, W2]; the other
      slots are untouched throughout. */
  method SaveOrderScenario(s: Store, p1: WorkoutPlan, p2: WorkoutPlan, d1: DietPlan, d2: DietPlan, w1: WeightEntry, w2: WeightEntry)
    modifies s
    ensures s.workoutHistory == [p2, p1] + old(s.workoutHistory)
    ensures s.dietHistory == [d2, d1] + old(s.dietHistory)
    ensures s.weightHistory == old(s.weightHistory) + [w1, w2]
    ensures s.profile == old(s.profile) && s.theme == old(s.theme)
  {
    s.SaveWorkoutPlan(p1);
    s.SaveWorkoutPlan(p2);
    s.SaveDietPlan(d1);
    s.SaveDietPlan(d2);
    s.AddWeightEntry(w1);
    s.AddWeightEntry(w2);
  }

  /** Reads after `clearAll`: no profile, empty histories, the `Light` theme; a second
      `clearAll` leaves that state as it is. */
  method ClearAllScenario(s: Store) returns (p: Option<UserProfile>, w: seq<WorkoutPlan>, d: seq<DietPlan>, h: seq<WeightEntry>, t: Theme)
    modifies s
    ensures p == None && w == [] && d == [] && h == [] && t == Light
    ensures s.IsCleared()
  {
    s.ClearAll();
    p := s.GetUserProfile();
    w := s.GetWorkoutHistory();
    d := s.GetDietHistory();
    h := s.GetWeightHistory();
    t := s.GetTheme();
    s.ClearAll();
  }
}
