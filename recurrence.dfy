/**
 * The recurrence advancer: the fixed step each recurrence kind moves a
 * reminder forward by ("monthly" is literally four weeks).
 */
module Recurrence {
  import opened Wrappers
  import opened Clock

  /** The stored `recurring` value is truthy: present and not the empty string. */
  predicate Truthy(recurring: Option<string>) {
    recurring.Some? && recurring.value != ""
  }

  /** The step of a recurrence kind in days; other kinds have none. */
  function RecurrenceDays(kind: string): Option<nat> {
    if kind == "daily" then Some(1)
    else if kind == "weekly" then Some(7)
    else if kind == "monthly" then Some(28)
    else None
  }

  /**
   * The next occurrence computed by `move_to_next_occurrence`: the current
   * time moved by the kind's step, or nothing for an unknown kind.
   */
  function NextOccurrence(current: Moment, kind: string): Option<Moment> {
    match RecurrenceDays(kind)
    case None => None
    case Some(days) => Some(Shift(current, days * MinutesPerDay))
  }

  /** The three kinds move by 1, 7 and 28 days; every other kind (including "") is not advanced. */
  lemma NextOccurrenceSteps(current: Moment, kind: string)
    ensures kind == "daily" ==> NextOccurrence(current, kind) == Some(Shift(current, 1440))
    ensures kind == "weekly" ==> NextOccurrence(current, kind) == Some(Shift(current, 7 * 1440))
    ensures kind == "monthly" ==> NextOccurrence(current, kind) == Some(Shift(current, 28 * 1440))
    ensures NextOccurrence(current, kind).Some? <==> kind in {"daily", "weekly", "monthly"}
  {
  }

  /**
   * Advancing keeps the time of day and moves strictly forward: the next
   * occurrence is later in every zone.
   */
  lemma NextOccurrenceKeepsTimeOfDay(current: Moment, kind: string, offset: int)
    requires NextOccurrence(current, kind).Some?
    ensures TimeOfDay(NextOccurrence(current, kind).value) == TimeOfDay(current)
    ensures InstantIn(NextOccurrence(current, kind).value, offset) > InstantIn(current, offset)
  {
    var days := RecurrenceDays(kind).value;
    WholeDaysKeepTimeOfDay(current, days);
    ShiftMovesInstant(current, days * MinutesPerDay, offset);
  }

  /** Three weekly advances add exactly 21 days. */
  lemma ThreeWeeklyAdvances(d: Moment)
    ensures NextOccurrence(d, "weekly").Some?
    ensures NextOccurrence(NextOccurrence(d, "weekly").value, "weekly").Some?
    ensures NextOccurrence(NextOccurrence(NextOccurrence(d, "weekly").value, "weekly").value, "weekly")
            == Some(Shift(d, 21 * MinutesPerDay))
  {
  }
}
