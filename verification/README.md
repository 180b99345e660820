# Zagadogs appointment scheduling and WhatsApp reminders, in Dafny

This project models the scheduling core of the Zagadogs grooming-salon admin panel, a Laravel/Filament application:

- **Saving hook.** The `saving` hook on `Appointment` derives the status from `starts_at` and never touches a cancelled appointment.
- **Appointment form.** `AppointmentResource` contributes:
  - clearing the dog when the client changes;
  - deriving the status when the start time changes;
  - the client's dog options, ordered by name;
  - the status badge label and colour, and the green row class.
- **Calendar widget.** `AppointmentCalendarWidget` contributes:
  - event titles;
  - the status filled in when the create and edit modals open;
  - the WhatsApp confirmation gate. It covers when confirmation is required, the checkbox's phone rule, the "Apri WhatsApp" button's disabled state and the missing-number placeholder.
- **Pending widget.** `PendingAppointmentsWidget` contributes:
  - the list of appointments still to schedule;
  - its "Programma" action, which writes only `starts_at` and lets the hook confirm the record;
  - the same WhatsApp gate, with a stricter phone rule.
- **Shared reminder.** Both widgets use the same reminder:
  - Italian phone normalisation;
  - the "when" phrase ("oggi" / "domani" / "il <day> <month>", then " alle ore HH:MM");
  - the message template;
  - the `https://wa.me/<digits>?text=<rawurlencoded message>` deep link.

## How the model is organised

Each module is one Dafny file.

| module | contents |
|---|---|
| `Base` | `Option` |
| `Text` | PHP `trim`, Laravel `blank`/`filled`, `preg_replace('/\D+/', '', …)`, decimal digits |
| `CalendarDates` | dates, `Tomorrow`, the `H:i` clock label, the `j F` day label |
| `PercentEncoding` | UTF-8, `rawurlencode`, and a decoder used as its round-trip partner |
| `Phone` | `normalizeItalianPhone` |
| `Reminder` | the when phrase, the message, the link, and a link parser used as its partner |
| `Records` | clients, dogs, appointments and a sequence-backed store with `find` by key |
| `AppointmentModel` | the saving hook |
| `AppointmentResource` | form reactions, dog options, status display |
| `CalendarWidget` | the calendar widget's form, events and WhatsApp gate |
| `PendingWidget` | the pending list and its action |

The two widgets carry identical protected copies of the reminder helpers. They are defined once, in `Reminder`. `PendingWidget.SameLinkAsCalendar` proves that both widgets produce the same link.

The environment is passed in as parameters. `Carbon::parse`, the current date in the parsed timestamp's zone, and the Italian month names are fields of `Reminder.WhenContext`.

Laravel semantics used throughout:

- `blank` means null, or a string that `trim` empties. `trim` strips space, tab, newline, carriage return, NUL and vertical tab.
- A Carbon datetime is always filled, so a stored `starts_at` is `Option<Moment>`.
- `??` skips only null.
- A key read with PHP truthiness (`$clientId ? … : null`, `$dogId ? … : null`) treats id 0 as absent; `blank($clientId)` does not.
- Filament does not validate a hidden field, so the calendar's checkbox rules apply only while its section is visible.

## Model

| member | source | states |
|---|---|---|
| Text.Trim | app/Filament/Widgets/AppointmentCalendarWidget.php:247-248 | PHP `trim`: the result has no whitespace at either end, is empty exactly when the input is all whitespace, and equals an input that already starts and ends with non-whitespace |
| Text.TrimIsInfix | app/Filament/Widgets/AppointmentCalendarWidget.php:247-248 | `trim` only cuts whitespace off the two ends: the result is a contiguous slice of the input, and everything before and after that slice is whitespace |
| Text.BlankIsTrimEmpty | app/Filament/Widgets/AppointmentCalendarWidget.php:166 | `blank` holds exactly for null or a string whose `trim` is empty |
| Text.TrimIdempotent | app/Filament/Widgets/AppointmentCalendarWidget.php:51-55 | trimming an already trimmed name changes nothing |
| Text.DigitsOnly | app/Filament/Widgets/AppointmentCalendarWidget.php:226 | the result is all digits and no longer than the input; a digit string is kept unchanged; the result is empty exactly when the input has no digit |
| Text.DigitsOnlyAppend | app/Filament/Widgets/AppointmentCalendarWidget.php:233 | deleting non-digits distributes over concatenation, so the digits keep their order |
| Text.DecimalRoundTrip | app/Filament/Widgets/AppointmentCalendarWidget.php:293 | the day number printed for `j` reads back as the same number |
| CalendarDates.Tomorrow | app/Filament/Widgets/AppointmentCalendarWidget.php:289 | `addDay()` gives a valid date strictly after the given one |
| CalendarDates.TomorrowIsNextDay | app/Filament/Widgets/AppointmentCalendarWidget.php:289 | no valid date lies strictly between a day and the day after it |
| CalendarDates.ClockLabel | app/Filament/Widgets/AppointmentCalendarWidget.php:283 | `H:i` is five characters, `HH:MM`, and its two halves read back as the hour and the minute |
| PercentEncoding.RawUrlEncode | app/Filament/Widgets/AppointmentCalendarWidget.php:242 | `rawurlencode` emits only unreserved characters and `%`, and is never shorter than its input |
| PercentEncoding.DecodeEncode | app/Filament/Widgets/AppointmentCalendarWidget.php:242 | percent-decoding the encoding of any byte sequence gives that sequence back |
| PercentEncoding.RawUrlDecode | app/Filament/Widgets/AppointmentCalendarWidget.php:242 | percent-decoding `rawurlencode(s)` gives the UTF-8 bytes of `s` |
| Phone.NormalizeItalianPhone | app/Filament/Widgets/AppointmentCalendarWidget.php:257-272 | "" stays ""; after dropping "00", "39" is prepended exactly to a ten-character number not starting with "39", and anything else is returned as it is; digits stay digits; the result is empty exactly for "" and "00" |
| Phone.NormalizeKeepsInternational | app/Filament/Widgets/AppointmentCalendarWidget.php:267-271 | a number without "00" that starts with "39" or is not ten long is unchanged |
| Phone.NormalizeAddsCountryCode | app/Filament/Widgets/AppointmentCalendarWidget.php:267-269 | a bare ten-digit national number gains the "39" prefix |
| Phone.NormalizeStable | app/Filament/Widgets/AppointmentCalendarWidget.php:257-272 | normalising a result again changes nothing unless that result starts with "00" |
| Phone.NormalizeNotIdempotent | app/Filament/Widgets/AppointmentCalendarWidget.php:263-266 | "0000" normalises to "00", and "00" normalises to "" |
| Reminder.FormatWhen | app/Filament/Widgets/AppointmentCalendarWidget.php:274-296 | empty exactly for a blank start; otherwise exactly "oggi", "domani" or "il <day> <month>" (for today, tomorrow and any other date) followed by " alle ore HH:MM"; each prefix is present exactly on its own date case |
| Reminder.PastDateIsSpelledOut | app/Filament/Widgets/AppointmentCalendarWidget.php:285-295 | a date before today is spelled out with "il" |
| Reminder.Greeting | app/Filament/Widgets/AppointmentCalendarWidget.php:251 | the greeting is non-empty and starts with "C", whatever the name |
| Reminder.BookingLine | app/Filament/Widgets/AppointmentCalendarWidget.php:251-254 | the sentence up to the dog line starts with the greeting and ends with ". " |
| Reminder.RawMessageIsTrimmed | app/Filament/Widgets/AppointmentCalendarWidget.php:254 | the interpolated message starts with "C" and ends with "!", so the outer `trim` leaves it unchanged |
| Reminder.RawMessageShape | app/Filament/Widgets/AppointmentCalendarWidget.php:251-254 | the message starts with the greeting and the booking sentence and ends with " Saluti da Zagadogs!"; with a dog it ends ". Cane: <dog>. Saluti…", and without one ".  Saluti…" with two spaces |
| Reminder.BuildMessage | app/Filament/Widgets/AppointmentCalendarWidget.php:245-255 | the message starts with the greeting and booking sentence for the trimmed name and the when phrase, and ends with " Saluti da Zagadogs!"; with a non-blank dog it ends ". Cane: <dog>. Saluti…", else ".  Saluti…" |
| Reminder.MessageGreeting | app/Filament/Widgets/AppointmentCalendarWidget.php:247-251 | the message opens "Ciao <trimmed name>," for a non-blank name and "Ciao," otherwise |
| Reminder.DogLineEmptyIff | app/Filament/Widgets/AppointmentCalendarWidget.php:252 | the dog line is empty exactly when the dog name is empty |
| Reminder.RawDogClause | app/Filament/Widgets/AppointmentCalendarWidget.php:252-254 | after the booking sentence comes "Cane: <dog>." plus the closing exactly when the dog name is non-empty, and the closing alone exactly when it is empty |
| Reminder.DogClauseIff | app/Filament/Widgets/AppointmentCalendarWidget.php:245-255 | the same two if-and-only-ifs for `buildWhatsappMessage`, with the trimmed dog name |
| Reminder.ParseLinkRoundTrip | app/Filament/Widgets/AppointmentCalendarWidget.php:242 | from `https://wa.me/<digits>?text=<rawurlencode(m)>` the digits and the UTF-8 bytes of `m` read back |
| Reminder.LinkPhone | app/Filament/Widgets/AppointmentCalendarWidget.php:233-234 | the phone in the link is all digits, and empty exactly when the phone's digits are "" or "00" |
| Reminder.WhatsappLink | app/Filament/Widgets/AppointmentCalendarWidget.php:242 | the link starts with `https://wa.me/` |
| Reminder.LinkFor | app/Filament/Widgets/AppointmentCalendarWidget.php:233-242 | no link exactly when the normalised phone is empty; otherwise the link starts with `https://wa.me/` |
| Reminder.LinkForReadsBack | app/Filament/Widgets/AppointmentCalendarWidget.php:233-242 | when the phone normalises to something there is a link, and the normalised digits and the message's UTF-8 bytes read back from it |
| Reminder.LinkBlankIffNone | app/Filament/Widgets/AppointmentCalendarWidget.php:99 | `blank` on a possible link holds exactly when there is no link |
| Reminder.BuildUrlReadsBack | app/Filament/Widgets/AppointmentCalendarWidget.php:231-243 | the contract of `Reminder.BuildUrl`, the model of `buildWhatsappUrl`: it returns null exactly when the normalised phone is empty; otherwise its link reads back as the normalised digits and the UTF-8 bytes of `buildWhatsappMessage` |
| Records.Find | app/Filament/Widgets/AppointmentCalendarWidget.php:203 | `find` returns a stored row with the key, and nothing exactly when no row has the key |
| AppointmentModel.Saving | app/Models/Appointment.php:53-59 | only the status changes; it ends up known; it is cancelled exactly when it was; otherwise it is confirmed exactly when `starts_at` is set and pending exactly when it is null |
| AppointmentModel.SavingIdempotent | app/Models/Appointment.php:53-59 | saving twice equals saving once |
| AppointmentModel.SavingFixpoints | app/Models/Appointment.php:53-59 | the hook leaves a record unchanged exactly when its status is already consistent |
| AppointmentModel.CreateScheduleUnschedule | app/Models/Appointment.php:53-59 | a new record without a start is stored pending, becomes confirmed once given one, and reverts to pending when the start is cleared |
| AppointmentResource.AfterClientUpdated | app/Filament/Resources/AppointmentResource.php:44 | changing the client clears the dog, and no other field changes |
| AppointmentResource.AfterStartsAtUpdated | app/Filament/Resources/AppointmentResource.php:111-113 | the status becomes confirmed exactly for a filled start and pending exactly for a blank one; the other fields are unchanged |
| AppointmentResource.StartsAtEditUncancels | app/Filament/Resources/AppointmentResource.php:111-113 | unlike the saving hook, editing the start in the form overwrites a cancelled status |
| AppointmentResource.OwnDogs | app/Filament/Resources/AppointmentResource.php:75-76 | the dogs kept are exactly the stored dogs of that client, each no more often than stored |
| AppointmentResource.OwnDogsCount | app/Filament/Resources/AppointmentResource.php:75-76 | each of the client's dogs is kept exactly as often as it is stored, and every other dog zero times |
| AppointmentResource.NameLeTotal | app/Filament/Resources/AppointmentResource.php:77 | any two names are ordered one way or the other |
| AppointmentResource.NameLeTransitive | app/Filament/Resources/AppointmentResource.php:77 | the name order is transitive |
| AppointmentResource.SortedPairwise | app/Filament/Resources/AppointmentResource.php:77 | in a name-sorted list, every earlier name is at most every later one |
| AppointmentResource.InsertByName | app/Filament/Resources/AppointmentResource.php:77 | inserting into a sorted list keeps it sorted and adds exactly that dog |
| AppointmentResource.SortByName | app/Filament/Resources/AppointmentResource.php:77 | `orderBy('name')` gives a name-sorted permutation |
| AppointmentResource.DogsForClient | app/Filament/Resources/AppointmentResource.php:68-80 | no dogs for a blank client; otherwise exactly that client's dogs, as a permutation, sorted by name |
| AppointmentResource.DogOptions | app/Filament/Resources/AppointmentResource.php:78-79 | `pluck('name', 'id')` pairs each listed dog's id with its name, in order |
| AppointmentResource.DisabledDogSelectIsEmpty | app/Filament/Resources/AppointmentResource.php:68-84 | while no client is chosen the dog select is disabled and offers no dogs |
| AppointmentResource.StatusLabel | app/Filament/Resources/AppointmentResource.php:149-154 | a known status shows the label the form's select offers for it; any other string shows as itself |
| AppointmentResource.StatusColor | app/Filament/Resources/AppointmentResource.php:155-160 | gray exactly for a status the select does not offer; success, warning and danger exactly for confirmed, pending and cancelled |
| AppointmentResource.RowClass | app/Filament/Resources/AppointmentResource.php:133 | the row is green exactly when its badge is "success", and has no class exactly when it is not confirmed |
| CalendarWidget.EventTitle | app/Filament/Widgets/AppointmentCalendarWidget.php:50-58 | the title is never empty and has no whitespace at either end; it is the trimmed join of the names whenever that join is non-empty, and "Appuntamento" exactly when the join is empty or is itself "Appuntamento" |
| CalendarWidget.EventTitleOfTrimmedNames | app/Filament/Widgets/AppointmentCalendarWidget.php:50-58 | for a trimmed dog name the title is "dog - client", or whichever is non-empty, or "Appuntamento" |
| CalendarWidget.Events | app/Filament/Widgets/AppointmentCalendarWidget.php:43-65 | one event per fetched appointment, with its key, its start and a non-empty title |
| CalendarWidget.CreateFill | app/Filament/Widgets/AppointmentCalendarWidget.php:116-122 | the create modal opens confirmed exactly when the clicked slot has a filled start and pending exactly when it has not |
| CalendarWidget.EditFill | app/Filament/Widgets/AppointmentCalendarWidget.php:150-158 | the event's start wins over the stored one; a cancelled record stays cancelled; any other is confirmed exactly when the start shown is filled |
| CalendarWidget.EditFillAgreesWithSaving | app/Filament/Widgets/AppointmentCalendarWidget.php:153-157 | opening a record without moving it shows the status the saving hook stores |
| CalendarWidget.ShouldRequireWhatsapp | app/Filament/Widgets/AppointmentCalendarWidget.php:162-175 | confirmation is required exactly when a start is filled and there is no record or the record has no stored start |
| CalendarWidget.RescheduleNeedsNoConfirmation | app/Filament/Widgets/AppointmentCalendarWidget.php:170-172 | moving an already scheduled appointment never asks for confirmation |
| CalendarWidget.WhatsappPhone | app/Filament/Widgets/AppointmentCalendarWidget.php:214-229 | the client's phone digits when there are any, else null |
| CalendarWidget.WhatsappUrl | app/Filament/Widgets/AppointmentCalendarWidget.php:177-212 | no link for a blank start; otherwise a link exactly when the selected client's phone normalises to something |
| CalendarWidget.WhatsappUrlIsBuildUrl | app/Filament/Widgets/AppointmentCalendarWidget.php:185-211 | with a filled start, the link is the one built for the record's client and dog, or for the form's selection |
| CalendarWidget.WhatsappUrlReadsBack | app/Filament/Widgets/AppointmentCalendarWidget.php:177-212 | with a filled start and a client phone that normalises to something there is a link, and the client's normalised digits and the message for that client, dog and start read back from it |
| CalendarWidget.LinkPhoneOfNothing | app/Filament/Widgets/AppointmentCalendarWidget.php:199-201 | with no client there is no phone to link |
| CalendarWidget.PhoneRuleFails | app/Filament/Widgets/AppointmentCalendarWidget.php:80-91 | the checkbox rule fails exactly when confirmation is required and the phone has no digits |
| CalendarWidget.CheckboxValid | app/Filament/Widgets/AppointmentCalendarWidget.php:73-92 | with no confirmation required the hidden checkbox never blocks; otherwise it passes exactly when ticked and the phone has digits |
| CalendarWidget.OpenWhatsappDisabled | app/Filament/Widgets/AppointmentCalendarWidget.php:99 | the button is disabled exactly when there is no link or the checkbox is not ticked |
| CalendarWidget.MissingNumberVisible | app/Filament/Widgets/AppointmentCalendarWidget.php:103-106 | the placeholder shows exactly when the checkbox's phone rule fails |
| PendingWidget.PendingList | app/Filament/Widgets/PendingAppointmentsWidget.php:100-106 | the list holds exactly the appointments with no start and status "pending" |
| PendingWidget.PendingListCount | app/Filament/Widgets/PendingAppointmentsWidget.php:100-106 | each listed appointment appears exactly as often as it is stored, and every other appointment not at all |
| PendingWidget.WhatsappPhone | app/Filament/Widgets/PendingAppointmentsWidget.php:124-131 | the record's client's phone digits when there are any, else null |
| PendingWidget.WhatsappUrl | app/Filament/Widgets/PendingAppointmentsWidget.php:108-122 | no link for a blank start; otherwise a link exactly when the client's phone normalises to something |
| PendingWidget.PhoneRuleFails | app/Filament/Widgets/PendingAppointmentsWidget.php:63-71 | the rule fails exactly when the phone has no digits, whatever the start |
| PendingWidget.OpenWhatsappDisabled | app/Filament/Widgets/PendingAppointmentsWidget.php:78 | the button is disabled exactly when there is no link or the checkbox is not ticked |
| PendingWidget.MissingNumberVisible | app/Filament/Widgets/PendingAppointmentsWidget.php:85 | the placeholder shows exactly when the phone rule fails |
| PendingWidget.ScheduleFormValid | app/Filament/Widgets/PendingAppointmentsWidget.php:51-71 | the modal validates exactly when a start is filled and not earlier than the `minDate` minute, the checkbox is ticked and the phone has digits |
| PendingWidget.Schedule | app/Filament/Widgets/PendingAppointmentsWidget.php:87-92 | writing `starts_at` and saving keeps every other field, sets the start, and makes a non-cancelled record confirmed |
| PendingWidget.ScheduledLeavesList | app/Filament/Widgets/PendingAppointmentsWidget.php:87-106 | a listed appointment, once scheduled, is confirmed and no longer listed |
| PendingWidget.ScheduleInDb | app/Filament/Widgets/PendingAppointmentsWidget.php:90-92 | only the rows with the scheduled key change in the store |
| PendingWidget.ScheduledNotListed | app/Filament/Widgets/PendingAppointmentsWidget.php:87-106 | after scheduling, no appointment with that key remains on the list |
| PendingWidget.Submit | app/Filament/Widgets/PendingAppointmentsWidget.php:46-95 | an invalid modal is rejected with nothing written; a valid one schedules the record at the parsed start, which is then not pending and not earlier than the `minDate` minute |
| PendingWidget.PastStartRejected | app/Filament/Widgets/PendingAppointmentsWidget.php:51-55 | a start earlier than `now()->addMinute()->startOfMinute()` is rejected whatever the checkbox and phone say |
| PendingWidget.SavedStartIsReminded | app/Filament/Widgets/PendingAppointmentsWidget.php:76-92 | the start the action saves and the start the reminder text describes come from the same parse, so the message's " alle ore HH:MM" is the saved hour and minute |
| PendingWidget.SameLinkAsCalendar | app/Filament/Widgets/PendingAppointmentsWidget.php:108-122 | both widgets give the same link for a record and a start |
| PendingWidget.SamePhoneAsCalendar | app/Filament/Widgets/PendingAppointmentsWidget.php:124-131 | both widgets read the same phone digits for a record |
| PendingWidget.StricterPhoneRule | app/Filament/Widgets/PendingAppointmentsWidget.php:63-71 | for a record that already has a start and a phone without digits, this rule fails while the calendar's is silent |
| PendingWidget.DoubleZeroPhone | app/Filament/Widgets/PendingAppointmentsWidget.php:63-78 | a phone "00" passes the phone rule, yet yields no link, so the button stays disabled |

## Left out

- Carbon parsing, time zones and the current time are parameters of `Reminder.WhenContext`. Parsing is total: an unparsable start string, which Carbon rejects with an exception, is not modelled.
- `translatedFormat('j F')` with the Italian locale is modelled as the day number and a month-name table supplied by the caller. `CalendarDates.ItalianMonths` gives the usual names.
- Eloquent queries, eager loading and `loadMissing` are left out; tables are sequences, and `find` returns the first row with the key.
  - The `whereBetween` date-range filter of `fetchEvents` is not modelled: `CalendarWidget.Events` takes the rows the query returned.
  - The list ordering is not modelled: `defaultSort('created_at', 'desc')` on the pending list and `defaultSort('starts_at', 'desc')` on the resource table.
- `orderBy('name')` uses the database collation. The model orders names by code point, and the order among equal names is unspecified.
- Bytes versus characters:
  - Strings are sequences of Unicode characters.
  - `preg_replace('/\D+/', …)` works on bytes. Multi-byte UTF-8 sequences contain no ASCII digit bytes, so the digit string is the same.
  - `strlen` counts bytes. It is only applied to the digit string, where bytes and characters coincide.
- The pending modal's `minDate` is modelled as Filament's `after_or_equal` validation rule. The minute it compares against, `now()->addMinute()->startOfMinute()`, is a parameter of `PendingWidget.ScheduleFormValid` and `PendingWidget.Submit`.
- The same `minDate` rule on the resource form's `starts_at` (`AppointmentResource.php:109`) is not modelled, because the resource form's validation and save are outside this model; only its reactive updates are.
- `seconds(false)`, `poll('5s')`, the calendar-refresh `dispatch`, opening the link in a new tab, event colours and all labels, icons and helper texts are presentation only.
- The client and dog "create option" sub-forms (`createOptionForm`, `createOptionUsing`) and the client select's option label are outside the scheduling slice.
- Delete and bulk-delete actions, `DogResource` and the migrations are not part of this model.
- The stored `starts_at` is a minute-precision moment. Seconds and the ISO-8601 rendering of event starts are not modelled.
- CalendarWidget.Events: states only that each title is non-empty; the exact title is stated by `CalendarWidget.EventTitle`.
- The message template is the Italian one in the code. When there is no dog, the code keeps two spaces before "Saluti", because the outer `trim` touches only the ends.
- Phone.NormalizeStable: normalisation is idempotent only for results that do not start with "00"; `Phone.NormalizeNotIdempotent` shows the counterexample.
