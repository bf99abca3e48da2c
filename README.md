# FitStudent AI — health metrics, local store and plan flows in Dafny

A model of the logic of the FitStudent AI demo, a browser-only fitness planner:

- **Health metrics** (`HealthCalculations`): BMI rounded to one decimal, its four categories,
  the Mifflin-St Jeor BMR with the +5 / −161 / −78 gender offsets, and the daily calorie
  target (activity multiplier 1.55 / 1.5 / 1.4, goal adjustment −500 / +300 / 0). All over
  `real`. `Math.round(x)` is `Floor(x + 1/2)`. `Number(x.toFixed(1))` is the nearest tenth,
  halves away from zero, because `toFixed` rounds the magnitude and then restores the sign.
- **The store** (`Storage.Store`): a class with one field per storage key. The keys are the
  profile, the workout history (newest first), the diet history (newest first), the weight
  history (oldest first) and the theme. Each `save`/`add` is a read-modify-write of its own
  field only, and `ClearAll` loops over the five keys.
- **The flows that drive the store**: the demo login (`LandingPage`), the weight-update
  handler with its chart, current reading and total change (`ProgressSection`), and the two
  plan sections with their mock generators, mount effects and local histories
  (`WorkoutSection`, `DietSection`, and `PlanHistory` for the "previous plans" panel they share).
- **Types and constants**: `Types` holds the records and enumerations. `DemoUser` holds the demo
  profile and the storage keys.

Ids, timestamps and the `Math.random()` draw are parameters. The weight handler gets the
number already parsed: `None` stands for NaN.

Where the design description and the code differ, the model follows the code:

- The design says a profile's weight always matches the latest weight entry. The demo login
  breaks this when the weight history is non-empty and does not end at 70 kg: the profile is
  reset to 70 kg and no entry is added. `LandingPage.HandleDemoLogin` states exactly when the
  two agree afterwards.
- The design has weight recording fail without a profile and reject bad weights. In the code,
  `updateWeight` appends the entry anyway and `calculateBMI` checks nothing; only the
  progress-section handler validates and returns early. The model keeps both behaviours.
- The design speaks of four stored collections. The code has a fifth key, the theme, which
  `clearAll` also removes.

## Model

| member | source | states |
|---|---|---|
| DemoUser.StorageKeysDistinct | src/constants/demo-user.ts:21-27 | every slot has a key in the list that `clearAll` walks, and no two keys share a string |
| HealthCalculations.Round | src/lib/healthcalculations.ts:32-37 | `Math.round`: the result is the integer within (x − 1/2, x + 1/2] |
| HealthCalculations.RoundTenth | src/lib/healthcalculations.ts:9 | `toFixed(1)`: the result has one decimal and lies within 0.05 of x, halves going away from zero |
| HealthCalculations.CalculateBMI | src/lib/healthcalculations.ts:7-10 | the BMI has one decimal and is within 0.05 of weight/(height/100)²; only a zero height is excluded |
| HealthCalculations.GetBMICategory | src/lib/healthcalculations.ts:15-20 | each category holds exactly on its band: < 18.5, [18.5, 25), [25, 30), ≥ 30, lower bounds inclusive |
| HealthCalculations.CategoryMonotone | src/lib/healthcalculations.ts:15-20 | a larger BMI never gets an earlier category |
| HealthCalculations.CalculateBMR | src/lib/healthcalculations.ts:27-39 | the BMR is Math.round of 10w + 6.25h − 5a plus 5 (Male), −161 (Female) or −78 (Other) |
| HealthCalculations.GenderGap | src/lib/healthcalculations.ts:29-38 | for the same body, Male BMR = Female BMR + 166, and Other = Female + 83, strictly between the two |
| HealthCalculations.ActivityMultiplier | src/lib/healthcalculations.ts:48-54 | 1.55 with gym access, else 1.5 below 4 study hours, else 1.4 |
| HealthCalculations.GymAccessIgnoresStudyHours | src/lib/healthcalculations.ts:50-54 | with gym access the study hours do not matter; without it the multiplier is in [1.4, 1.55] |
| HealthCalculations.GoalAdjustment | src/lib/healthcalculations.ts:59-64 | −500 for Weight Loss, +300 for Muscle Gain, 0 for Maintenance |
| HealthCalculations.CalculateDailyCalories | src/lib/healthcalculations.ts:46-67 | the target is Math.round of bmr × multiplier + goal adjustment |
| HealthCalculations.GoalGap | src/lib/healthcalculations.ts:59-66 | for the same profile and BMR, Muscle Gain is exactly 800 above Weight Loss and Maintenance 500 above |
| HealthCalculations.CalculateHealthMetrics | src/lib/healthcalculations.ts:72-84 | the metrics are the four helpers composed, with the category taken from the rounded BMI |
| HealthCalculations.DemoBMI | src/lib/healthcalculations.ts:7-10 | 70 kg at 170 cm gives BMI 24.2 |
| HealthCalculations.DemoUserMetrics | src/constants/demo-user.ts:7-18 | the demo profile yields BMI 24.2, Normal, BMR 1668 and 2635 kcal |
| Storage.Store.constructor | src/lib/storage.ts:11-14 | storage with no key: no profile, empty histories, no theme |
| Storage.Store.GetUserProfile | src/lib/storage.ts:11-14 | returns the stored profile, or none when nothing was saved |
| Storage.Store.SaveUserProfile | src/lib/storage.ts:16-18 | the profile becomes the argument (last write wins, no merge) and nothing else changes |
| Storage.Store.GetWorkoutHistory | src/lib/storage.ts:21-28 | returns the stored workout history, `[]` when absent |
| Storage.Store.SaveWorkoutPlan | src/lib/storage.ts:30-34 | the workout history becomes [plan] + old history; only that key is written |
| Storage.Store.GetDietHistory | src/lib/storage.ts:37-44 | returns the stored diet history, `[]` when absent |
| Storage.Store.SaveDietPlan | src/lib/storage.ts:46-50 | the diet history becomes [plan] + old history; only that key is written |
| Storage.Store.GetWeightHistory | src/lib/storage.ts:53-60 | returns the stored weight history, `[]` when absent |
| Storage.Store.AddWeightEntry | src/lib/storage.ts:62-66 | the weight history becomes old history + [entry]; only that key is written |
| Storage.Store.UpdateWeight | src/lib/storage.ts:68-82 | always appends {now, weight, bmi}; a stored profile changes only its weight; an absent profile stays absent |
| Storage.Store.GetTheme | src/lib/storage.ts:85-88 | the saved theme, or Light when none was saved |
| Storage.Store.SaveTheme | src/lib/storage.ts:90-92 | the theme becomes the argument and nothing else changes |
| Storage.Store.RemoveItem | src/lib/storage.ts:97 | removing a key empties its slot and leaves the other four as they were |
| Storage.Store.ClearAll | src/lib/storage.ts:95-99 | after the loop over the keys every slot is empty, the theme included |
| Storage.SaveOrderScenario | src/lib/storage.ts:30-66 | saving P1 then P2 reads back [P2, P1]; adding W1 then W2 reads back [W1, W2]; profile and theme untouched |
| Storage.ClearAllScenario | src/lib/storage.ts:95-99 | after clearAll: no profile, empty histories, theme Light; a second clearAll leaves the cleared state |
| LandingPage.HandleDemoLogin | pages/LandingPage.tsx:13-28 | profile := DEMO_USER always; one entry {now, 70, 24.2} only if the weight history was empty, else it is kept; plan histories and theme untouched; profile and latest entry agree iff the history was empty or ended at 70; positive values stay positive |
| LandingPage.DemoLoginTwiceScenario | pages/LandingPage.tsx:15-25 | two demo logins leave the same profile and the same number of weight entries as one |
| ProgressSection.ChartData | src/components/features/ProgressSection.tsx:62-66 | one chart point per entry, same order, same date, weight and BMI |
| ProgressSection.CurrentReading | src/components/features/ProgressSection.tsx:107-124 | the current weight and BMI are shown only for a non-empty history and are those of its last entry |
| ProgressSection.TotalChange | src/components/features/ProgressSection.tsx:169-178 | the total change is shown only with at least two entries and equals last weight − first weight |
| ProgressSection.ProgressView.constructor | src/components/features/ProgressSection.tsx:21 | the displayed history starts empty |
| ProgressSection.ProgressView.LoadHistory | src/components/features/ProgressSection.tsx:29-32 | the displayed history becomes the stored one |
| ProgressSection.ProgressView.HandleWeightUpdate | src/components/features/ProgressSection.tsx:34-53 | NaN or ≤ 0 is rejected and nothing changes; no profile: returns and nothing changes; otherwise exactly one entry {now, w, calculateBMI(w, height)} is appended, the profile's weight becomes w with other fields kept, the view reloads, its current reading is the new one and the profile agrees with the latest entry |
| ProgressSection.UpdateWithoutProfileScenario | src/components/features/ProgressSection.tsx:43-47 | without a profile the handler writes nothing, while `updateWeight` called directly still appends |
| PlanHistory.PreviousPlans | src/components/features/WorkoutSection.tsx:127-148 | the panel shows only when the history has more than one plan; it lists the history minus its first plan and counts length − 1 (the diet section, lines 143-164, is the same) |
| WorkoutSection.GenerateMockWorkout | src/components/features/WorkoutSection.tsx:178-235 | the plan has the requested mood, id and time and the mood's row of the table; Tired has 4 exercises, the others 5; Energetic is "High-Intensity Full Body Workout", "25-30 minutes" |
| WorkoutSection.WorkoutIgnoresProfile | src/components/features/WorkoutSection.tsx:178-235 | the plan does not depend on the profile |
| WorkoutSection.TitlesDistinct | src/components/features/WorkoutSection.tsx:179-223 | no two moods share a title |
| WorkoutSection.WorkoutView.constructor | src/components/features/WorkoutSection.tsx:11-13 | initial state: mood Normal, no current plan, empty history |
| WorkoutSection.WorkoutView.Mount | src/components/features/WorkoutSection.tsx:17-26 | the local history becomes the stored one; if non-empty its first plan is current and its mood selected |
| WorkoutSection.WorkoutView.SelectMood | src/components/features/WorkoutSection.tsx:63 | the selected mood becomes the chosen one |
| WorkoutSection.WorkoutView.Generate | src/components/features/WorkoutSection.tsx:28-50 | the plan for the selected mood is saved (prepended in the store), shown, and prepended locally; a local history equal to the stored one stays equal |
| WorkoutSection.WorkoutView.ShowPrevious | src/components/features/WorkoutSection.tsx:148-152 | clicking the k-th listed plan shows history[k + 1] |
| DietSection.MealIndex | src/components/features/DietSection.tsx:216 | Floor(3 × random) is an index in [0, 3), the one whose third of [0, 1) holds the draw |
| DietSection.GenerateMockDiet | src/components/features/DietSection.tsx:194-224 | totalCalories equals the target passed in; the meals are one of the three fixed sets, the one the draw selects |
| DietSection.DietIgnoresProfile | src/components/features/DietSection.tsx:194-224 | the plan ignores the profile, food preference and budget included |
| DietSection.DietView.constructor | src/components/features/DietSection.tsx:12-13 | initial state: no current plan, empty history |
| DietSection.DietView.Mount | src/components/features/DietSection.tsx:17-25 | the local history becomes the stored one; if non-empty its first plan is current |
| DietSection.DietView.Generate | src/components/features/DietSection.tsx:27-49 | the plan is saved (prepended in the store), shown, and prepended locally; a local history equal to the stored one stays equal |
| DietSection.DietView.ShowPrevious | src/components/features/DietSection.tsx:164-168 | clicking the k-th listed plan shows history[k + 1] |

## Left out

- Browser storage and JSON are not modelled. The store keeps typed values, so the Date ↔ string
  round trip and the exceptions that malformed stored JSON would raise are not covered. A
  history key that is absent and one holding `[]` are the same state here, because every
  getter reads both as `[]`.
- Time, ids and randomness are not generated by the model. `Date.now()`, `new Date()` and
  `Math.random()` are parameters, and nothing is claimed about id uniqueness, since the code
  does not guarantee it.
- `parseFloat` is not modelled. The handler receives the parsed number, and prefix-parsing
  quirks are not covered.
- IEEE-754 doubles are not modelled: all arithmetic is over exact reals. `toFixed`'s ties in
  decimal representation, and the `toFixed(1)` formatting of the total change, are not covered.
- HealthCalculations.CalculateBMI: excludes a zero height, where the code returns Infinity or NaN.
- ProgressSection.ProgressView.HandleWeightUpdate: also requires a stored profile's height to
  be non-zero, for the same reason.
- React rendering, routing and navigation are not modelled. The same goes for the 2-second
  delay, `isGenerating`, `alert`, `console.log`, the PDF stub, the show/hide toggles, clearing
  the input box, the dashboard's `onWeightUpdate` refresh, chart date formatting and the
  sign colouring of the total change. These are UI and I/O with no logic beyond what is modelled.
- The `Label` strings of `BmiCategory` give `getBMICategory`'s string results. Elsewhere the
  model uses the enumeration.
