/** The demo login of the landing page (pages/LandingPage.tsx). */
module LandingPage {
  import opened Types
  import opened DemoUser
  import opened Storage
  import opened HealthCalculations

  /** `handleDemoLogin`, with `new Date()` passed in as `now` (the navigation is not modelled).
      The profile becomes DEMO_USER whatever was stored; a weight entry of 70 kg at BMI 24.2 is
      seeded only when the weight history is empty; the plan histories and the theme are not
      touched. The profile's weight then agrees with the latest entry exactly when the history
      was empty or already ended at 70 kg. */
  method HandleDemoLogin(s: Store, now: Timestamp)
    modifies s`profile, s`weightHistory
    ensures s.profile == Some(DEMO_USER)
    ensures old(s.weightHistory) == [] ==>
      s.weightHistory == [WeightEntry(now, DEMO_USER.weight, CalculateBMI(DEMO_USER.weight, DEMO_USER.height))]
    ensures old(s.weightHistory) == [] ==> s.weightHistory == [WeightEntry(now, 70.0, 24.2)]
    ensures old(s.weightHistory) != [] ==> s.weightHistory == old(s.weightHistory)
    ensures s.WeightInSync() <==> old(s.weightHistory) == [] || old(s.weightHistory)[|old(s.weightHistory)| - 1].weight == 70.0
    ensures old(s.ValuesPositive()) ==> s.ValuesPositive()
  {
    s.SaveUserProfile(DEMO_USER);
    var history := s.GetWeightHistory();
    if |history| == 0 {
      var bmi := CalculateBMI(DEMO_USER.weight, DEMO_USER.height);
      DemoBMI();
      s.AddWeightEntry(WeightEntry(now, DEMO_USER.weight, bmi));
    }
  }

  /** A second demo login leaves the same profile and the same number of weight entries as the
      first, and neither touches the plan histories. */
  method DemoLoginTwiceScenario(s: Store, t1: Timestamp, t2: Timestamp)
    modifies s
    ensures s.profile == Some(DEMO_USER)
    ensures |s.weightHistory| == if old(s.weightHistory) == [] then 1 else |old(s.weightHistory)|
    ensures s.workoutHistory == old(s.workoutHistory) && s.dietHistory == old(s.dietHistory)
  {
    HandleDemoLogin(s, t1);
    ghost var once := s.weightHistory;
    HandleDemoLogin(s, t2);
    assert s.weightHistory == once;
  }
}
