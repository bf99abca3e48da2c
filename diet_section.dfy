/** The diet section (src/components/features/DietSection.tsx): the mock generator that picks
    one of three fixed meal sets, and the component state that mirrors the stored diet history. */
module DietSection {
  import opened Types
  import opened Storage
  import opened PlanHistory

  /** The generator's three vegetarian meal sets. */
  const VegDiets: seq<MealPlan> := [
    MealPlan(
      "Oats porridge (50g) with banana, 2 boiled eggs, green tea",
      "Brown rice (1 cup), dal tadka (1 bowl), mixed vegetable curry, cucumber salad",
      "Roti (3), paneer curry (100g), spinach sabzi, curd",
      "75-85g"),
    MealPlan(
      "Whole wheat toast (2 slices), peanut butter, scrambled eggs (2), milk",
      "Rajma curry (1 bowl), rice (1 cup), mixed salad, buttermilk",
      "Chapati (3), chana masala, bhindi sabzi, curd",
      "70-80g"),
    MealPlan(
      "Poha with peanuts and vegetables, boiled eggs (2), banana",
      "Quinoa pulao (1 cup), moong dal (1 bowl), cabbage sabzi, raita",
      "Multigrain roti (3), soya curry, palak paneer, lassi",
      "80-90g")
  ]

  /** `Math.floor(random * vegDiets.length)` for a `Math.random()` draw in [0, 1): always a
      valid index, and each third of [0, 1) selects its own meal set. */
  function MealIndex(random: real): (i: nat)
    requires 0.0 <= random < 1.0
    ensures i < |VegDiets|
    ensures i as real <= random * 3.0 < i as real + 1.0
  {
    (random * |VegDiets| as real).Floor
  }

  /** `generateMockDiet`, with `Date.now()`, `new Date()` and `Math.random()` passed in. The
      calorie target is copied, the meals are one of the three fixed sets, and the profile
      (food preference and budget included) is not consulted. */
  function GenerateMockDiet(profile: UserProfile, dailyCalories: int, id: string, now: Timestamp, random: real): (plan: DietPlan)
    requires 0.0 <= random < 1.0
    ensures plan.totalCalories == dailyCalories
    ensures plan.meals in VegDiets
    ensures plan.meals == VegDiets[MealIndex(random)]
    ensures plan.id == id && plan.generatedAt == now
  {
    var randomDiet := VegDiets[MealIndex(random)];
    DietPlan(id, randomDiet, dailyCalories, now)
  }

  /** Two profiles give the same plan for the same calorie target, id, time and draw. */
  lemma DietIgnoresProfile(p1: UserProfile, p2: UserProfile, dailyCalories: int, id: string, now: Timestamp, random: real)
    requires 0.0 <= random < 1.0
    ensures GenerateMockDiet(p1, dailyCalories, id, now, random) == GenerateMockDiet(p2, dailyCalories, id, now, random)
  {
  }

  /** The component's state: the plan on display and the local history. */
  class DietView {
    const profile: UserProfile
    const dailyCalories: int
    var currentPlan: Option<DietPlan>
    var history: seq<DietPlan>   // newest first, like the store

    /** The state before the mount effect runs. */
    constructor (profile: UserProfile, dailyCalories: int)
      ensures this.profile == profile && this.dailyCalories == dailyCalories
      ensures currentPlan == None && history == []
    {
      this.profile := profile;
      this.dailyCalories := dailyCalories;
      currentPlan := None;
      history := [];
    }

    /** The mount effect: copy the stored history; when it is non-empty its newest plan
        becomes the current plan. */
    method Mount(s: Store)
      modifies this`history, this`currentPlan
      ensures history == s.dietHistory
      ensures |history| > 0 ==> currentPlan == Some(history[0])
      ensures |history| == 0 ==> currentPlan == old(currentPlan)
    {
      var dietHistory := s.GetDietHistory();
      history := dietHistory;
      if |dietHistory| > 0 {
        currentPlan := Some(dietHistory[0]);
      }
    }

    /** `generateDiet` once its delay has elapsed: generate, save the plan (the store prepends
        it), show it and prepend it to the local history. A local history equal to the stored
        one before stays equal after. */
    method Generate(s: Store, id: string, now: Timestamp, random: real)
      requires 0.0 <= random < 1.0
      modifies this`currentPlan, this`history, s`dietHistory
      ensures currentPlan.Some? && currentPlan.value == GenerateMockDiet(profile, dailyCalories, id, now, random)
      ensures currentPlan.value.totalCalories == dailyCalories
      ensures history == [currentPlan.value] + old(history)
      ensures s.dietHistory == [currentPlan.value] + old(s.dietHistory)
      ensures old(history) == old(s.dietHistory) ==> history == s.dietHistory
    {
      var dietData := GenerateMockDiet(profile, dailyCalories, id, now, random);
      s.SaveDietPlan(dietData);
      currentPlan := Some(dietData);
      history := [dietData] + history;
    }

    /** Clicking a plan of the previous-plans panel shows it. */
    method ShowPrevious(k: nat)
      requires PreviousPlans(history).Some? && k < PreviousPlans(history).value.count
      modifies this`currentPlan
      ensures currentPlan == Some(history[k + 1])
    {
      var panel := PreviousPlans(history).value;
      currentPlan := Some(panel.plans[k]);
    }
  }
}
