/** The "previous plans" panel that the workout and diet sections render in the same way
    (src/components/features/WorkoutSection.tsx, src/components/features/DietSection.tsx). */
module PlanHistory {
  import opened Types

  /** The panel's heading count and the plans it lists. */
  datatype PreviousPanel<T> = PreviousPanel(count: nat, plans: seq<T>)

  /** The panel appears only when the history holds more than one plan; it lists every plan
      but the first (the current one), and its count is the number listed. */
  function PreviousPlans<T>(history: seq<T>): (panel: Option<PreviousPanel<T>>)
    ensures panel.Some? <==> |history| > 1
    ensures panel.Some? ==> panel.value.count == |panel.value.plans| == |history| - 1
    ensures panel.Some? ==> history == [history[0]] + panel.value.plans
  {
    if |history| > 1 then Some(PreviousPanel(|history| - 1, history[1..])) else None
  }
}
