/**
 * `AppointmentCalendarWidget`: event titles, the status filled in when the
 * create and edit modals open, and the WhatsApp section of the modal form
 * (when confirmation is required, the phone rule on the checkbox, the
 * "Apri WhatsApp" button and the missing-number placeholder).
 */
module CalendarWidget {
  import opened Base
  import opened Text
  import opened CalendarDates
  import opened Reminder
  import opened Records
  import opened AppointmentModel
  import opened AppointmentResource

  /** The calendar modal: the resource form plus the transient WhatsApp checkbox. */
  datatype CalendarForm = CalendarForm(fields: AppointmentForm, whatsappSent: bool)

  /** PHP truthiness of a key read from the form: null and 0 are false. */
  predicate Truthy(id: Option<nat>) {
    id.Some? && id.value != 0
  }

  // ---------------------------------------------------------------------------
  // Events

  datatype Event = Event(id: nat, title: string, start: Option<Moment>)

  const DefaultTitle := "Appuntamento"

  /** PHP's `implode(' - ', array_filter([...], fn ($v) => $v !== ''))` for two parts. */
  function JoinNonEmpty(a: string, b: string): string {
    if a == "" then b
    else if b == "" then a
    else a + " - " + b
  }

  /**
   * An event's title: dog name and client name joined by " - " with empty
   * parts dropped, then trimmed; "Appuntamento" when that leaves nothing.
   * The title is never empty and never has whitespace at either end.
   */
  function EventTitle(dog: Option<Dog>, client: Option<Client>): (r: string)
    ensures r != ""
    ensures !IsSpace(r[0]) && !IsSpace(r[|r| - 1])
    ensures r == DefaultTitle <==> JoinedTitle(dog, client) == "" || JoinedTitle(dog, client) == DefaultTitle
    ensures JoinedTitle(dog, client) != "" ==> r == JoinedTitle(dog, client)
  {
    var title := JoinedTitle(dog, client);
    if title != "" then title
    else
      DefaultTitleEnds();
      DefaultTitle
  }

  /** The trimmed join of the dog's and the client's names. */
  function JoinedTitle(dog: Option<Dog>, client: Option<Client>): string {
    Trim(JoinNonEmpty(DogNameOf(dog).GetOr(""), ClientName(client)))
  }

  lemma DefaultTitleEnds()
    ensures |DefaultTitle| > 0 && !IsSpace(DefaultTitle[0]) && !IsSpace(DefaultTitle[|DefaultTitle| - 1])
  {
  }

  /** `trim(first_name . ' ' . last_name)`, with missing parts read as "". */
  function ClientName(client: Option<Client>): string {
    var first := if client.Some? then client.value.firstName else "";
    var last := if client.Some? then client.value.lastName else "";
    Trim(first + " " + last)
  }

  /**
   * With a dog name that has no surrounding whitespace, the title is the
   * dog name and the client's name joined by " - ", either alone when the
   * other is empty, and "Appuntamento" when both are empty.
   */
  lemma EventTitleOfTrimmedNames(dog: Option<Dog>, client: Option<Client>)
    requires Trim(DogNameOf(dog).GetOr("")) == DogNameOf(dog).GetOr("")
    ensures var d := DogNameOf(dog).GetOr("");
      var c := ClientName(client);
      EventTitle(dog, client) ==
        if d == "" && c == "" then DefaultTitle
        else if d == "" then c
        else if c == "" then d
        else d + " - " + c
  {
    var d := DogNameOf(dog).GetOr("");
    var c := ClientName(client);
    TrimIdempotent(c);
    if d != "" && c != "" {
      TrimJoined(d, " - ", c);
    }
  }

  /** `fetchEvents` on the appointments the date-range query returned. */
  function Events(db: Db, appointments: seq<Appointment>): (r: seq<Event>)
    ensures |r| == |appointments|
    ensures forall k :: 0 <= k < |r| ==>
      r[k].id == appointments[k].id && r[k].start == appointments[k].startsAt && r[k].title != ""
  {
    seq(|appointments|, k requires 0 <= k < |appointments| =>
      var a := appointments[k];
      Event(a.id, EventTitle(FindDog(db, a.dogId), FindClient(db, a.clientId)), a.startsAt))
  }

  // ---------------------------------------------------------------------------
  // Filling the modal

  /** A `starts_at` value as filled into the form: the event's string or the stored datetime. */
  datatype StartValue = Typed(text: string) | Stored(at: Moment)

  /** `filled()` on such a value; a Carbon object is always filled. */
  predicate FilledValue(v: Option<StartValue>) {
    v.Some? && (v.value.Stored? || Filled(Some(v.value.text)))
  }

  datatype Fill = Fill(startsAt: Option<StartValue>, status: string)

  /** The create action's `mountUsing`: status "confirmed" exactly when the clicked slot has a start. */
  function CreateFill(start: Option<string>): (r: Fill)
    ensures r.status == Confirmed <==> Filled(start)
    ensures r.status == Pending <==> Blank(start)
    ensures r.startsAt == (if start.Some? then Some(Typed(start.value)) else None)
  {
    Fill(if start.Some? then Some(Typed(start.value)) else None,
         if Filled(start) then Confirmed else Pending)
  }

  /**
   * The edit action's `mountUsing`: the start is the dragged event's start
   * when one is given (`??` only skips null), else the stored one; a
   * cancelled appointment stays cancelled, any other gets "confirmed"
   * exactly when that start is filled.
   */
  function EditFill(record: Appointment, eventStart: Option<string>): (r: Fill)
    ensures eventStart.Some? ==> r.startsAt == Some(Typed(eventStart.value))
    ensures eventStart.None? ==> r.startsAt == (if record.startsAt.Some? then Some(Stored(record.startsAt.value)) else None)
    ensures record.status == Cancelled ==> r.status == Cancelled
    ensures record.status != Cancelled ==> (r.status == Confirmed <==> FilledValue(r.startsAt))
    ensures record.status != Cancelled ==> (r.status == Pending <==> !FilledValue(r.startsAt))
  {
    var start: Option<StartValue> :=
      if eventStart.Some? then Some(Typed(eventStart.value))
      else if record.startsAt.Some? then Some(Stored(record.startsAt.value))
      else None;
    Fill(start, if record.status == Cancelled then Cancelled
                else if FilledValue(start) then Confirmed else Pending)
  }

  /** Opening a record without moving it shows the status the saving hook would store. */
  lemma EditFillAgreesWithSaving(record: Appointment)
    ensures EditFill(record, None).status == Saving(record).status
  {
  }

  // ---------------------------------------------------------------------------
  // The WhatsApp section

  /**
   * Confirmation is required only on the step from unscheduled to
   * scheduled: a start is being set, and there is no record yet or the
   * record has no stored start.
   */
  function ShouldRequireWhatsapp(startsAt: Option<string>, record: Option<Appointment>): (r: bool)
    ensures r <==> Filled(startsAt) && (record.None? || record.value.startsAt.None?)
  {
    if Blank(startsAt) then false
    else if record.Some? && record.value.startsAt.Some? then false
    else true
  }

  /** Rescheduling an appointment that already had a start never asks for confirmation. */
  lemma RescheduleNeedsNoConfirmation(startsAt: Option<string>, record: Appointment)
    requires record.startsAt.Some?
    ensures !ShouldRequireWhatsapp(startsAt, Some(record))
  {
  }

  /** The client whose phone `getWhatsappPhone` reads: the record's, or a truthy `client_id`'s. */
  function PhoneClient(f: AppointmentForm, record: Option<Appointment>, db: Db): Option<Client> {
    if record.Some? then FindClient(db, record.value.clientId)
    else if Truthy(f.clientId) then FindClient(db, f.clientId.value)
    else None
  }

  /**
   * `getWhatsappPhone`: the digits of the client's phone, or null when
   * there are none. No normalisation is applied here.
   */
  function WhatsappPhone(f: AppointmentForm, record: Option<Appointment>, db: Db): (r: Option<string>)
    ensures r.Some? ==> r.value != "" && IsDigits(r.value)
    ensures r.Some? ==> r.value == DigitsOnly(PhoneOf(PhoneClient(f, record, db)).GetOr(""))
    ensures r.None? <==> DigitsOnly(PhoneOf(PhoneClient(f, record, db)).GetOr("")) == ""
  {
    var phone := DigitsOnly(PhoneOf(PhoneClient(f, record, db)).GetOr(""));
    if phone != "" then Some(phone) else None
  }

  /** The client and dog `getWhatsappUrl` reads: the record's, or the form's selection. */
  function UrlClient(f: AppointmentForm, record: Option<Appointment>, db: Db): Option<Client> {
    if record.Some? then FindClient(db, record.value.clientId)
    else if f.clientId.None? then None
    else FindClient(db, f.clientId.value)
  }

  function UrlDog(f: AppointmentForm, record: Option<Appointment>, db: Db): Option<Dog> {
    if record.Some? then FindDog(db, record.value.dogId)
    else if Truthy(f.dogId) then FindDog(db, f.dogId.value)
    else None
  }

  /**
   * `getWhatsappUrl`: no link while the start is blank; otherwise the
   * reminder link for the record's (or the selected) client and dog, which
   * exists exactly when that client's phone normalises to something.
   */
  function WhatsappUrl(f: AppointmentForm, record: Option<Appointment>, db: Db, ctx: WhenContext): (r: Option<string>)
    ensures Blank(f.startsAt) ==> r.None?
    ensures r.None? <==> Blank(f.startsAt) || LinkPhone(PhoneOf(UrlClient(f, record, db))) == ""
    ensures r.Some? ==> StartsWith(r.value, WaMe)
  {
    if Blank(f.startsAt) then None
    else if record.Some? then
      var client := FindClient(db, record.value.clientId);
      var dog := FindDog(db, record.value.dogId);
      BuildUrl(PhoneOf(client), FirstNameOf(client), DogNameOf(dog), f.startsAt, ctx)
    else if f.clientId.None? then
      LinkPhoneOfNothing();
      None
    else
      var client := FindClient(db, f.clientId.value);
      var dog := if Truthy(f.dogId) then FindDog(db, f.dogId.value) else None;
      BuildUrl(PhoneOf(client), FirstNameOf(client), DogNameOf(dog), f.startsAt, ctx)
  }

  /**
   * From the link the client's normalised digits and the UTF-8 bytes of the
   * message for that client, dog and start read back exactly.
   */
  lemma WhatsappUrlReadsBack(f: AppointmentForm, record: Option<Appointment>, db: Db, ctx: WhenContext)
    requires Filled(f.startsAt) && LinkPhone(PhoneOf(UrlClient(f, record, db))) != ""
    ensures WhatsappUrl(f, record, db, ctx).Some?
    ensures ParseLink(WhatsappUrl(f, record, db, ctx).value)
      == Some((LinkPhone(PhoneOf(UrlClient(f, record, db))),
               PercentEncoding.Utf8(BuildMessage(FirstNameOf(UrlClient(f, record, db)),
                                                 DogNameOf(UrlDog(f, record, db)), f.startsAt, ctx))))
  {
    var client := UrlClient(f, record, db);
    WhatsappUrlIsBuildUrl(f, record, db, ctx);
    BuildUrlReadsBack(PhoneOf(client), FirstNameOf(client), DogNameOf(UrlDog(f, record, db)), f.startsAt, ctx);
  }

  /** With a filled start, the link is the one built for the client and dog the form reads. */
  lemma WhatsappUrlIsBuildUrl(f: AppointmentForm, record: Option<Appointment>, db: Db, ctx: WhenContext)
    requires Filled(f.startsAt)
    ensures var client := UrlClient(f, record, db);
      WhatsappUrl(f, record, db, ctx)
        == BuildUrl(PhoneOf(client), FirstNameOf(client), DogNameOf(UrlDog(f, record, db)), f.startsAt, ctx)
  {
    if record.None? && f.clientId.None? {
      LinkPhoneOfNothing();
    }
  }

  lemma LinkPhoneOfNothing()
    ensures LinkPhone(None) == ""
  {
    assert DigitsOnly("") == "";
  }

  /** The custom rule on the checkbox fails only when confirmation is required and the phone has no digits. */
  function PhoneRuleFails(form: CalendarForm, record: Option<Appointment>, db: Db): (r: bool)
    ensures r <==> ShouldRequireWhatsapp(form.fields.startsAt, record)
                   && DigitsOnly(PhoneOf(PhoneClient(form.fields, record, db)).GetOr("")) == ""
  {
    if !ShouldRequireWhatsapp(form.fields.startsAt, record) then false
    else
      var phone := WhatsappPhone(form.fields, record, db);
      if phone.Some? then
        DigitsBlankIffEmpty(phone.value);
        Blank(phone)
      else
        Blank(phone)
  }

  /** The WhatsApp section, its checkbox included, is shown exactly when confirmation is required. */
  predicate SectionVisible(form: CalendarForm, record: Option<Appointment>) {
    ShouldRequireWhatsapp(form.fields.startsAt, record)
  }

  /**
   * The checkbox's validation as a whole. A hidden field is not validated;
   * a shown one must be ticked (`accepted`, `required`) and pass the phone
   * rule. The form therefore submits without confirmation exactly when none
   * is required.
   */
  function CheckboxValid(form: CalendarForm, record: Option<Appointment>, db: Db): (r: bool)
    ensures !ShouldRequireWhatsapp(form.fields.startsAt, record) ==> r
    ensures ShouldRequireWhatsapp(form.fields.startsAt, record) ==>
      (r <==> form.whatsappSent && WhatsappPhone(form.fields, record, db).Some?)
  {
    if !SectionVisible(form, record) then true
    else form.whatsappSent && !PhoneRuleFails(form, record, db)
  }

  /** "Apri WhatsApp" is disabled exactly when there is no link or the checkbox is not ticked. */
  function OpenWhatsappDisabled(form: CalendarForm, record: Option<Appointment>, db: Db, ctx: WhenContext): (r: bool)
    ensures r <==> WhatsappUrl(form.fields, record, db, ctx).None? || !form.whatsappSent
  {
    var url := WhatsappUrl(form.fields, record, db, ctx);
    LinkBlankIffNone(url);
    Blank(url) || !form.whatsappSent
  }

  /** The "missing number" placeholder shows exactly when confirmation is required and the phone has no digits. */
  function MissingNumberVisible(form: CalendarForm, record: Option<Appointment>, db: Db): (r: bool)
    ensures r <==> PhoneRuleFails(form, record, db)
  {
    ShouldRequireWhatsapp(form.fields.startsAt, record) && Blank(WhatsappPhone(form.fields, record, db))
  }
}
