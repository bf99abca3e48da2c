/** BMI, BMR and the daily calorie target (src/lib/healthcalculations.ts). */
module HealthCalculations {
  import opened Types
  import opened DemoUser

  datatype BmiCategory = Underweight | Normal | Overweight | Obese
  {
    /** The string `getBMICategory` returns. */
    function Label(): string
    {
      match this
      case Underweight => "Underweight"
      case Normal => "Normal"
      case Overweight => "Overweight"
      case Obese => "Obese"
    }

    /** Position in the order Underweight < Normal < Overweight < Obese. */
    function Rank(): nat
    {
      match this
      case Underweight => 0
      case Normal => 1
      case Overweight => 2
      case Obese => 3
    }
  }

  datatype HealthMetrics = HealthMetrics(bmi: real, bmr: int, dailyCalories: int, bmiCategory: BmiCategory)

  /** `n` is what JavaScript's `Math.round` gives for `x`: the nearest integer, halves going up. */
  ghost predicate IsRounding(n: int, x: real)
  {
    x - 0.5 < n as real <= x + 0.5
  }

  /** `Math.round`. */
  function Round(x: real): (n: int)
    ensures IsRounding(n, x)
  {
    (x + 0.5).Floor
  }

  /** `r` has at most one decimal. */
  ghost predicate IsTenths(r: real)
  {
    (10.0 * r).Floor as real == 10.0 * r
  }

  /** `Number(x.toFixed(1))` read over the reals: the nearest tenth, halves away from zero
      (toFixed works on the magnitude and then puts the sign back). */
  function RoundTenth(x: real): (r: real)
    ensures IsTenths(r)
    ensures x >= 0.0 ==> x - 0.05 < r <= x + 0.05
    ensures x < 0.0 ==> x - 0.05 <= r < x + 0.05
  {
    if x >= 0.0 then
      var n := Round(10.0 * x);
      TenthsOf(n);
      n as real / 10.0
    else
      var n := Round(-10.0 * x);
      TenthsOf(-n);
      -n as real / 10.0
  }

  /** A whole number of tenths has at most one decimal. */
  lemma TenthsOf(n: int)
    ensures IsTenths(n as real / 10.0)
  {
  }

  /** weight / (height in metres)², before rounding. */
  function Quetelet(weight: real, height: real): real
    requires height != 0.0
  {
    var heightInMeters := height / 100.0;
    weight / (heightInMeters * heightInMeters)
  }

  /** `calculateBMI`: the Quetelet index rounded to one decimal. No input is rejected; a zero
      height would give Infinity or NaN and is excluded here. */
  function CalculateBMI(weight: real, height: real): (bmi: real)
    requires height != 0.0
    ensures IsTenths(bmi)
    ensures Quetelet(weight, height) >= 0.0 ==> Quetelet(weight, height) - 0.05 < bmi <= Quetelet(weight, height) + 0.05
    ensures Quetelet(weight, height) < 0.0 ==> Quetelet(weight, height) - 0.05 <= bmi < Quetelet(weight, height) + 0.05
  {
    RoundTenth(Quetelet(weight, height))
  }

  /** `getBMICategory`: four bands, each closed at its lower bound. */
  function GetBMICategory(bmi: real): (c: BmiCategory)
    ensures c == Underweight <==> bmi < 18.5
    ensures c == BmiCategory.Normal <==> 18.5 <= bmi < 25.0
    ensures c == Overweight <==> 25.0 <= bmi < 30.0
    ensures c == Obese <==> 30.0 <= bmi
  {
    if bmi < 18.5 then Underweight
    else if bmi < 25.0 then BmiCategory.Normal
    else if bmi < 30.0 then Overweight
    else Obese
  }

  /** A larger BMI never falls in an earlier category. */
  lemma CategoryMonotone(a: real, b: real)
    requires a <= b
    ensures GetBMICategory(a).Rank() <= GetBMICategory(b).Rank()
  {
  }

  /** The gender-independent part of the Mifflin-St Jeor equation. */
  function BaseBMR(p: UserProfile): real
  {
    10.0 * p.weight + 6.25 * p.height - 5.0 * p.age
  }

  /** `calculateBMR`: Mifflin-St Jeor, offset +5 for men, -161 for women and -78 otherwise,
      rounded with `Math.round`. */
  function CalculateBMR(p: UserProfile): (bmr: int)
    ensures p.gender == Male ==> IsRounding(bmr, BaseBMR(p) + 5.0)
    ensures p.gender == Female ==> IsRounding(bmr, BaseBMR(p) - 161.0)
    ensures p.gender == Other ==> IsRounding(bmr, BaseBMR(p) - 78.0)
  {
    var baseBMR := BaseBMR(p);
    if p.gender == Male then Round(baseBMR + 5.0)
    else if p.gender == Female then Round(baseBMR - 161.0)
    else Round(baseBMR - 78.0)
  }

  /** For the same body, a man's BMR is 166 above a woman's, and the other gender sits 83
      from each, strictly between them. */
  lemma GenderGap(p: UserProfile)
    ensures CalculateBMR(p.(gender := Male)) == CalculateBMR(p.(gender := Female)) + 166
    ensures CalculateBMR(p.(gender := Other)) == CalculateBMR(p.(gender := Female)) + 83
    ensures CalculateBMR(p.(gender := Female)) < CalculateBMR(p.(gender := Other)) < CalculateBMR(p.(gender := Male))
  {
  }

  /** The activity multiplier: gym access wins, then fewer than four study hours, else sedentary. */
  function ActivityMultiplier(p: UserProfile): (m: real)
    ensures p.gymAccess ==> m == 1.55
    ensures !p.gymAccess && p.studyHours < 4.0 ==> m == 1.5
    ensures !p.gymAccess && p.studyHours >= 4.0 ==> m == 1.4
  {
    if p.gymAccess then 1.55
    else if p.studyHours < 4.0 then 1.5
    else 1.4
  }

  /** With gym access the study hours play no part, and the multiplier always lies in [1.4, 1.55]. */
  lemma GymAccessIgnoresStudyHours(p: UserProfile, hours: real)
    requires p.gymAccess
    ensures ActivityMultiplier(p) == ActivityMultiplier(p.(studyHours := hours))
    ensures 1.4 <= ActivityMultiplier(p.(gymAccess := false)) <= 1.55
  {
  }

  /** The goal adjustment in kcal. */
  function GoalAdjustment(g: Goal): (a: int)
    ensures g == WeightLoss ==> a == -500
    ensures g == MuscleGain ==> a == 300
    ensures g == Maintenance ==> a == 0
  {
    match g
    case WeightLoss => -500
    case MuscleGain => 300
    case Maintenance => 0
  }

  /** `calculateDailyCalories`: maintenance calories plus the goal adjustment, rounded. */
  function CalculateDailyCalories(p: UserProfile, bmr: real): (calories: int)
    ensures IsRounding(calories, bmr * ActivityMultiplier(p) + GoalAdjustment(p.goal) as real)
  {
    var maintenanceCalories := bmr * ActivityMultiplier(p);
    Round(maintenanceCalories + GoalAdjustment(p.goal) as real)
  }

  /** With everything else equal, a Muscle Gain target is exactly 800 kcal above a Weight Loss
      target, and Maintenance sits 500 above Weight Loss. */
  lemma GoalGap(p: UserProfile, bmr: real)
    ensures CalculateDailyCalories(p.(goal := MuscleGain), bmr) == CalculateDailyCalories(p.(goal := WeightLoss), bmr) + 800
    ensures CalculateDailyCalories(p.(goal := Maintenance), bmr) == CalculateDailyCalories(p.(goal := WeightLoss), bmr) + 500
  {
  }

  /** `calculateHealthMetrics`: the four helpers composed, the category read from the rounded BMI. */
  function CalculateHealthMetrics(p: UserProfile): (h: HealthMetrics)
    requires p.height != 0.0
    ensures h.bmi == CalculateBMI(p.weight, p.height)
    ensures h.bmr == CalculateBMR(p)
    ensures h.dailyCalories == CalculateDailyCalories(p, h.bmr as real)
    ensures h.bmiCategory == GetBMICategory(h.bmi)
  {
    var bmi := CalculateBMI(p.weight, p.height);
    var bmr := CalculateBMR(p);
    var dailyCalories := CalculateDailyCalories(p, bmr as real);
    var bmiCategory := GetBMICategory(bmi);
    HealthMetrics(bmi, bmr, dailyCalories, bmiCategory)
  }

  /** 70 kg at 170 cm gives a BMI of 24.2. */
  lemma DemoBMI()
    ensures CalculateBMI(70.0, 170.0) == 24.2
  {
  }

  /** The demo profile's metrics: BMI 24.2 (Normal), BMR 1668, target 2635 kcal. */
  lemma DemoUserMetrics()
    ensures CalculateHealthMetrics(DEMO_USER) == HealthMetrics(24.2, 1668, 2635, BmiCategory.Normal)
  {
  }
}
