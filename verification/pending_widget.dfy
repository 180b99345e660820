/**
 * `PendingAppointmentsWidget`: the list of appointments still to schedule,
 * its "Programma" action (pick a start, confirm the WhatsApp message, save
 * only `starts_at`), and the same reminder link as the calendar.
 */
module PendingWidget {
  import opened Base
  import opened Text
  import opened CalendarDates
  import opened Reminder
  import opened Records
  import opened AppointmentModel
  import opened AppointmentResource
  import CalendarWidget

  /** The list's query: no start time and status exactly "pending". */
  predicate IsListed(a: Appointment) {
    a.startsAt.None? && a.status == Pending
  }

  /** `getTableQuery`: the listed appointments, in table order. */
  function PendingList(appointments: seq<Appointment>): (r: seq<Appointment>)
    ensures forall a :: a in r <==> a in appointments && IsListed(a)
    ensures forall k :: 0 <= k < |r| ==> IsListed(r[k])
    ensures |r| <= |appointments|
    decreases |appointments|
  {
    if appointments == [] then []
    else
      var rest := PendingList(appointments[1..]);
      assert appointments == [appointments[0]] + appointments[1..];
      if IsListed(appointments[0]) then [appointments[0]] + rest else rest
  }

  /** The query returns each listed row as often as it is stored, and no other row. */
  lemma {:induction false} PendingListCount(appointments: seq<Appointment>, a: Appointment)
    ensures multiset(PendingList(appointments))[a] == if IsListed(a) then multiset(appointments)[a] else 0
    decreases |appointments|
  {
    if appointments != [] {
      var h, t := appointments[0], appointments[1..];
      PendingListCount(t, a);
      assert multiset(appointments) == multiset{h} + multiset(t) by {
        assert appointments == [h] + t;
      }
      if IsListed(h) {
        assert multiset(PendingList(appointments)) == multiset{h} + multiset(PendingList(t));
      }
    }
  }

  /** `getWhatsappPhone`: the digits of the record's client's phone, or null when there are none. */
  function WhatsappPhone(record: Appointment, db: Db): (r: Option<string>)
    ensures r.Some? ==> r.value != "" && IsDigits(r.value)
    ensures r.Some? ==> r.value == DigitsOnly(PhoneOf(FindClient(db, record.clientId)).GetOr(""))
    ensures r.None? <==> DigitsOnly(PhoneOf(FindClient(db, record.clientId)).GetOr("")) == ""
  {
    var phone := DigitsOnly(PhoneOf(FindClient(db, record.clientId)).GetOr(""));
    if phone != "" then Some(phone) else None
  }

  /** `getWhatsappUrl`: no link while the picked start is blank; otherwise the record's reminder link. */
  function WhatsappUrl(record: Appointment, startsAt: Option<string>, db: Db, ctx: WhenContext): (r: Option<string>)
    ensures Blank(startsAt) ==> r.None?
    ensures r.None? <==> Blank(startsAt) || LinkPhone(PhoneOf(FindClient(db, record.clientId))) == ""
    ensures r.Some? ==> StartsWith(r.value, WaMe)
  {
    if Blank(startsAt) then None
    else
      var client := FindClient(db, record.clientId);
      BuildUrl(PhoneOf(client), FirstNameOf(client), DogNameOf(FindDog(db, record.dogId)), startsAt, ctx)
  }

  /** The checkbox's phone rule: it fails whenever the phone has no digits, whatever the start. */
  function PhoneRuleFails(record: Appointment, db: Db): (r: bool)
    ensures r <==> DigitsOnly(PhoneOf(FindClient(db, record.clientId)).GetOr("")) == ""
  {
    var phone := WhatsappPhone(record, db);
    if phone.Some? then
      DigitsBlankIffEmpty(phone.value);
      Blank(phone)
    else
      Blank(phone)
  }

  /** "Apri WhatsApp" is disabled exactly when there is no link or the checkbox is not ticked. */
  function OpenWhatsappDisabled(record: Appointment, startsAt: Option<string>, whatsappSent: bool,
                                db: Db, ctx: WhenContext): (r: bool)
    ensures r <==> WhatsappUrl(record, startsAt, db, ctx).None? || !whatsappSent
  {
    var url := WhatsappUrl(record, startsAt, db, ctx);
    LinkBlankIffNone(url);
    Blank(url) || !whatsappSent
  }

  /** The "missing number" placeholder shows exactly when the phone rule fails. */
  function MissingNumberVisible(record: Appointment, db: Db): (r: bool)
    ensures r <==> PhoneRuleFails(record, db)
  {
    var phone := WhatsappPhone(record, db);
    if phone.Some? then
      DigitsBlankIffEmpty(phone.value);
      Blank(phone)
    else
      Blank(phone)
  }

  /** The action's modal: the picked start and the transient checkbox. */
  datatype ScheduleForm = ScheduleForm(startsAt: Option<string>, whatsappSent: bool)

  /**
   * The modal's validation: `starts_at` is required and, through `minDate`,
   * must not be earlier than `earliest` (the caller's
   * `now()->addMinute()->startOfMinute()`); the checkbox must be ticked; and
   * the client's phone must have digits.
   */
  function ScheduleFormValid(record: Appointment, form: ScheduleForm, db: Db,
                             ctx: WhenContext, earliest: Moment): (r: bool)
    ensures r <==> Filled(form.startsAt) && !Earlier(ctx.parse(form.startsAt.value), earliest)
                   && form.whatsappSent && WhatsappPhone(record, db).Some?
  {
    Filled(form.startsAt) && !Earlier(ctx.parse(form.startsAt.value), earliest)
    && form.whatsappSent && !PhoneRuleFails(record, db)
  }

  /**
   * The action's `$record->update(['starts_at' => ...])`, followed by the
   * saving hook. The action writes only `starts_at`; the hook then derives
   * the status, so a record that was not cancelled becomes "confirmed".
   */
  function Schedule(record: Appointment, at: Moment): (r: Appointment)
    ensures r.id == record.id && r.clientId == record.clientId
    ensures r.dogId == record.dogId && r.notes == record.notes
    ensures r.startsAt == Some(at)
    ensures r.status == (if record.status == Cancelled then Cancelled else Confirmed)
  {
    Saving(record.(startsAt := Some(at)))
  }

  /** A record taken from the list leaves it once scheduled, as "confirmed". */
  lemma ScheduledLeavesList(record: Appointment, at: Moment)
    requires IsListed(record)
    ensures Schedule(record, at).status == Confirmed
    ensures !IsListed(Schedule(record, at))
  {
  }

  /** The action on the store: only the row with that key changes. */
  function ScheduleInDb(db: Db, id: nat, at: Moment): (r: Db)
    ensures r.clients == db.clients && r.dogs == db.dogs
    ensures |r.appointments| == |db.appointments|
    ensures forall k :: 0 <= k < |r.appointments| ==>
      r.appointments[k] == (if db.appointments[k].id == id then Schedule(db.appointments[k], at)
                            else db.appointments[k])
  {
    var appts := seq(|db.appointments|, k requires 0 <= k < |db.appointments| =>
      if db.appointments[k].id == id then Schedule(db.appointments[k], at) else db.appointments[k]);
    db.(appointments := appts)
  }

  /** After scheduling, no appointment with that key is left on the list. */
  lemma ScheduledNotListed(db: Db, id: nat, at: Moment)
    ensures forall a :: a in PendingList(ScheduleInDb(db, id, at).appointments) ==> a.id != id
  {
    var after := ScheduleInDb(db, id, at).appointments;
    forall a | a in PendingList(after)
      ensures a.id != id
    {
      var k :| 0 <= k < |after| && after[k] == a;
      assert IsListed(a);
    }
  }

  datatype Outcome = Rejected | Scheduled(record: Appointment)

  /**
   * Submitting the modal: a form that fails validation is rejected and
   * nothing is written; a valid one schedules the record at the parsed start.
   */
  function Submit(record: Appointment, form: ScheduleForm, db: Db,
                  ctx: WhenContext, earliest: Moment): (r: Outcome)
    ensures r.Rejected? <==> !ScheduleFormValid(record, form, db, ctx, earliest)
    ensures r.Scheduled? ==> r.record.startsAt.Some? && r.record.status != Pending
    ensures r.Scheduled? ==> !Earlier(r.record.startsAt.value, earliest)
    ensures r.Scheduled? ==> r.record == Schedule(record, ctx.parse(form.startsAt.value))
  {
    if !ScheduleFormValid(record, form, db, ctx, earliest) then Rejected
    else Scheduled(Schedule(record, ctx.parse(form.startsAt.value)))
  }

  /** A start before the earliest allowed minute is rejected, whatever else the modal holds. */
  lemma PastStartRejected(record: Appointment, form: ScheduleForm, db: Db,
                          ctx: WhenContext, earliest: Moment)
    requires Filled(form.startsAt) && Earlier(ctx.parse(form.startsAt.value), earliest)
    ensures Submit(record, form, db, ctx, earliest) == Rejected
  {
  }

  /**
   * The start the action saves is the start the reminder describes: both
   * come from parsing the same `starts_at`, so the message's time is the
   * saved record's hour and minute.
   */
  lemma SavedStartIsReminded(record: Appointment, form: ScheduleForm, db: Db,
                             ctx: WhenContext, earliest: Moment)
    requires Submit(record, form, db, ctx, earliest).Scheduled?
    ensures var saved := Submit(record, form, db, ctx, earliest).record.startsAt.value;
      EndsWith(FormatWhen(form.startsAt, ctx), " alle ore " + ClockLabel(saved.hour, saved.minute))
  {
  }

  // ---------------------------------------------------------------------------
  // Relation to the calendar widget

  /**
   * Both widgets give the same reminder link for a record: the pending
   * list's link for a picked start equals the calendar's for a form
   * holding that start.
   */
  lemma SameLinkAsCalendar(record: Appointment, startsAt: Option<string>, f: AppointmentForm,
                           db: Db, ctx: WhenContext)
    requires f.startsAt == startsAt
    ensures WhatsappUrl(record, startsAt, db, ctx) == CalendarWidget.WhatsappUrl(f, Some(record), db, ctx)
  {
  }

  /** Both widgets read the same phone digits for a record. */
  lemma SamePhoneAsCalendar(record: Appointment, f: AppointmentForm, db: Db)
    ensures WhatsappPhone(record, db) == CalendarWidget.WhatsappPhone(f, Some(record), db)
  {
  }

  /**
   * Unlike the calendar, whose phone rule is silent once the record has a
   * start, the pending list's rule fails for every phone without digits.
   */
  lemma StricterPhoneRule(record: Appointment, f: CalendarWidget.CalendarForm, db: Db)
    requires record.startsAt.Some?
    requires DigitsOnly(PhoneOf(FindClient(db, record.clientId)).GetOr("")) == ""
    ensures PhoneRuleFails(record, db)
    ensures !CalendarWidget.PhoneRuleFails(f, Some(record), db)
  {
  }

  /**
   * A phone written as "00" has digits, so it passes the phone rule, yet it
   * normalises to nothing: there is no link and the button stays disabled.
   */
  lemma DoubleZeroPhone(record: Appointment, startsAt: Option<string>, whatsappSent: bool,
                        db: Db, ctx: WhenContext)
    requires PhoneOf(FindClient(db, record.clientId)) == Some("00")
    ensures !PhoneRuleFails(record, db)
    ensures WhatsappUrl(record, startsAt, db, ctx).None?
    ensures OpenWhatsappDisabled(record, startsAt, whatsappSent, db, ctx)
  {
    assert DigitsOnly("00") == "00";
    assert Phone.NormalizeItalianPhone("00") == "";
  }
}
