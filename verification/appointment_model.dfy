/**
 * The `saving` hook registered in `Appointment::booted()`: on every save a
 * cancelled appointment keeps its status, and any other appointment gets
 * "confirmed" when `starts_at` is set and "pending" when it is null.
 */
module AppointmentModel {
  import opened Base
  import opened Records

  predicate IsKnownStatus(s: string) {
    s == Pending || s == Confirmed || s == Cancelled
  }

  /**
   * The consistency the hook establishes: cancelled, or confirmed with a
   * start time, or pending without one.
   */
  predicate StatusConsistent(a: Appointment) {
    || a.status == Cancelled
    || (a.status == Confirmed && a.startsAt.Some?)
    || (a.status == Pending && a.startsAt.None?)
  }

  /**
   * The hook as a pure transformer of the record about to be written. Only
   * the status changes; it ends up one of the three known values; it is
   * "cancelled" exactly when it already was; and otherwise it is
   * "confirmed" exactly when `starts_at` is filled, unknown status strings
   * included.
   */
  function Saving(a: Appointment): (r: Appointment)
    ensures r.id == a.id && r.clientId == a.clientId && r.dogId == a.dogId
    ensures r.startsAt == a.startsAt && r.notes == a.notes
    ensures IsKnownStatus(r.status)
    ensures r.status == Cancelled <==> a.status == Cancelled
    ensures a.status != Cancelled ==> (r.status == Confirmed <==> a.startsAt.Some?)
    ensures a.status != Cancelled ==> (r.status == Pending <==> a.startsAt.None?)
    ensures StatusConsistent(r)
  {
    if a.status == Cancelled then a
    else a.(status := if a.startsAt.Some? then Confirmed else Pending)
  }

  /** Saving twice is the same as saving once. */
  lemma SavingIdempotent(a: Appointment)
    ensures Saving(Saving(a)) == Saving(a)
  {
  }

  /** The records the hook leaves untouched are exactly the consistent ones. */
  lemma SavingFixpoints(a: Appointment)
    ensures Saving(a) == a <==> StatusConsistent(a)
  {
  }

  /**
   * The lifecycle example: a new appointment without a start time is stored
   * pending; giving it a start time and saving again confirms it; clearing
   * the start time again reverts it to pending.
   */
  lemma CreateScheduleUnschedule(a: Appointment, at: CalendarDates.Moment)
    requires a.startsAt.None? && a.status != Cancelled
    ensures Saving(a).status == Pending
    ensures Saving(Saving(a).(startsAt := Some(at))).status == Confirmed
    ensures Saving(Saving(Saving(a).(startsAt := Some(at))).(startsAt := None)).status == Pending
  {
  }
}
