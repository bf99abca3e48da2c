/** The progress section (src/components/features/ProgressSection.tsx): the weight-update
    handler, and the chart, current reading and total change derived from the weight history. */
module ProgressSection {
  import opened Types
  import opened Storage
  import opened HealthCalculations

  /** One chart point. The date stays a timestamp: its locale formatting is not modelled. */
  datatype ChartPoint = ChartPoint(date: Timestamp, weight: real, bmi: real)

  /** The chart data: one point per weight entry, in the same order, with its weight and BMI. */
  function ChartData(history: seq<WeightEntry>): (points: seq<ChartPoint>)
    ensures |points| == |history|
    ensures forall i :: 0 <= i < |history| ==>
      points[i].date == history[i].date && points[i].weight == history[i].weight && points[i].bmi == history[i].bmi
  {
    if history == [] then []
    else [ChartPoint(history[0].date, history[0].weight, history[0].bmi)] + ChartData(history[1..])
  }

  /** The "current weight" and "current BMI" figures. */
  datatype Reading = Reading(weight: real, bmi: real)

  /** The figures are shown only for a non-empty history, and are those of its last entry. */
  function CurrentReading(history: seq<WeightEntry>): (r: Option<Reading>)
    ensures r.Some? <==> history != []
    ensures r.Some? ==> r.value.weight == history[|history| - 1].weight && r.value.bmi == history[|history| - 1].bmi
  {
    if |history| > 0 then
      var last := history[|history| - 1];
      Some(Reading(last.weight, last.bmi))
    else None
  }

  /** The total change, read off the chart: shown only with at least two entries, and equal to
      the last weight minus the first. */
  function TotalChange(history: seq<WeightEntry>): (change: Option<real>)
    ensures change.Some? <==> |history| >= 2
    ensures change.Some? ==> change.value == history[|history| - 1].weight - history[0].weight
  {
    var chartData := ChartData(history);
    if |chartData| > 1 then Some(chartData[|chartData| - 1].weight - chartData[0].weight) else None
  }

  /** What the handler did: alerted about an invalid weight, returned silently for want of a
      profile, or recorded the weight. */
  datatype WeightUpdateOutcome = Rejected | NoProfile | Recorded

  /** The weight the handler accepts: a parsed number (`None` stands for NaN) that is positive. */
  predicate IsValidWeight(parsed: Option<real>)
  {
    parsed.Some? && parsed.value > 0.0
  }

  /** The component's state: the weight history it displays. */
  class ProgressView {
    var weightHistory: seq<WeightEntry>

    /** The state before the mount effect runs. */
    constructor ()
      ensures weightHistory == []
    {
      weightHistory := [];
    }

    /** `loadHistory`, run on mount and after each update. */
    method LoadHistory(s: Store)
      modifies this`weightHistory
      ensures weightHistory == s.weightHistory
    {
      var history := s.GetWeightHistory();
      weightHistory := history;
    }

    /** `handleWeightUpdate`, given the parsed input and the current time. An invalid weight is
        rejected, and with no profile the handler returns; in both cases nothing is written.
        Otherwise the weight and its BMI at the stored height are recorded through
        `updateWeight` and the displayed history is reloaded. A zero stored height (which would
        give an infinite BMI) is excluded. */
    method HandleWeightUpdate(s: Store, parsed: Option<real>, now: Timestamp) returns (outcome: WeightUpdateOutcome)
      requires s.profile.Some? ==> s.profile.value.height != 0.0
      modifies this`weightHistory, s`weightHistory, s`profile
      ensures outcome == Rejected <==> !IsValidWeight(parsed)
      ensures outcome == NoProfile <==> IsValidWeight(parsed) && old(s.profile).None?
      ensures outcome != Recorded ==>
        s.weightHistory == old(s.weightHistory) && s.profile == old(s.profile) && weightHistory == old(weightHistory)
      ensures outcome == Recorded ==>
        var w, p := parsed.value, old(s.profile).value;
        && s.weightHistory == old(s.weightHistory) + [WeightEntry(now, w, CalculateBMI(w, p.height))]
        && s.profile == Some(p.(weight := w))
        && weightHistory == s.weightHistory
        && CurrentReading(weightHistory) == Some(Reading(w, CalculateBMI(w, p.height)))
        && s.WeightInSync()
      ensures old(s.ValuesPositive()) ==> s.ValuesPositive()
    {
      if parsed.None? || parsed.value <= 0.0 {
        return Rejected;
      }
      var weight := parsed.value;
      var profile := s.GetUserProfile();
      if profile.None? {
        return NoProfile;
      }
      var bmi := CalculateBMI(weight, profile.value.height);
      s.UpdateWeight(weight, bmi, now);
      LoadHistory(s);
      outcome := Recorded;
    }
  }

  /** Calling `updateWeight` directly, unlike the handler, appends an entry even when no
      profile is stored. */
  method UpdateWithoutProfileScenario(s: Store, view: ProgressView, w: real, bmi: real, now: Timestamp)
    requires s.profile.None?
    modifies s, view
    ensures s.profile.None?
    ensures |s.weightHistory| == |old(s.weightHistory)| + 1
  {
    var before := s.weightHistory;
    var outcome := view.HandleWeightUpdate(s, Some(1.0), now);
    assert outcome == NoProfile && s.weightHistory == before;
    s.UpdateWeight(w, bmi, now);
  }
}
