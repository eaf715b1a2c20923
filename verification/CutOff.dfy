/** A run that may be cut off: a budget of effects, if any cut-off is scheduled, and how a call ends. */
module CutOff {
  import opened Options

  /** Finished, refused by the program or what it talks to, or cut off before an effect. */
  datatype Status = Done | Refused | Cut

  /** What an effect leaves of the budget. */
  function Spend(budget: Option<nat>): Option<nat>
    requires budget != Some(0)
  {
    if budget.Some? then Some(budget.value - 1) else None
  }

  /** One effect: it happens unless the budget is used up, and then uses one of it. */
  ghost predicate Pays(before: Option<nat>, after: Option<nat>, s: Status) {
    && (s == Cut ==> before == after == Some(0))
    && (before == Some(0) ==> s == Cut)
    && (s == Refused ==> after == before)
    && (s == Done ==> match before case None => after == None case Some(n) => n > 0 && after == Some(n - 1))
  }

  /** Only a scheduled cut-off cuts, and a call neither schedules nor cancels one. */
  ghost predicate Cuts(before: Option<nat>, after: Option<nat>, s: Status) {
    (before.None? <==> after.None?) && (s == Cut ==> before.Some?)
  }
}
