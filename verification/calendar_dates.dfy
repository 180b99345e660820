/**
 * The slice of Carbon the reminder text needs: calendar dates, the day after
 * a date, wall-clock minutes, and the `H:i` and `j F` renderings. Parsing,
 * time zones and the clock itself stay outside the model; callers pass a
 * parsed `Moment` and the current `Day`.
 */
module CalendarDates {
  import opened Text

  datatype Date = Date(year: int, month: int, day: int)

  /** Gregorian leap years (Carbon uses the proleptic Gregorian calendar). */
  predicate LeapYear(y: int) {
    (y % 4 == 0 && y % 100 != 0) || y % 400 == 0
  }

  function DaysInMonth(y: int, m: int): int
    requires 1 <= m <= 12
  {
    if m == 2 then (if LeapYear(y) then 29 else 28)
    else if m == 4 || m == 6 || m == 9 || m == 11 then 30
    else 31
  }

  predicate ValidDate(d: Date) {
    1 <= d.month <= 12 && 1 <= d.day <= DaysInMonth(d.year, d.month)
  }

  /** A date that exists in the calendar. */
  type Day = d: Date | ValidDate(d) witness Date(2000, 1, 1)

  /** Chronological order of dates. */
  predicate Before(a: Date, b: Date) {
    a.year < b.year
    || (a.year == b.year && a.month < b.month)
    || (a.year == b.year && a.month == b.month && a.day < b.day)
  }

  /** Carbon's `addDay()` on a start-of-day instant. */
  function Tomorrow(d: Day): (r: Day)
    ensures Before(d, r)
  {
    if d.day < DaysInMonth(d.year, d.month) then Date(d.year, d.month, d.day + 1)
    else if d.month < 12 then Date(d.year, d.month + 1, 1)
    else Date(d.year + 1, 1, 1)
  }

  /** No existing date lies strictly between a day and its tomorrow. */
  lemma TomorrowIsNextDay(d: Day, e: Date)
    requires ValidDate(e) && Before(d, e)
    ensures Tomorrow(d) == e || Before(Tomorrow(d), e)
  {
    if d.day < DaysInMonth(d.year, d.month) {
    } else if d.month < 12 {
      assert e.year > d.year || e.month > d.month;
    } else {
      assert e.year > d.year;
    }
  }

  type Hour = h: int | 0 <= h < 24
  type Minute = m: int | 0 <= m < 60

  /** A parsed timestamp, read in its own time zone. */
  datatype Moment = Moment(day: Day, hour: Hour, minute: Minute)

  /** Chronological order of minute-precision moments: `a` is strictly earlier than `b`. */
  predicate Earlier(a: Moment, b: Moment) {
    Before(a.day, b.day)
    || (a.day == b.day && (a.hour < b.hour || (a.hour == b.hour && a.minute < b.minute)))
  }

  /** Carbon's `format('H:i')`: zero-padded hour, colon, zero-padded minute. */
  function ClockLabel(h: Hour, m: Minute): (r: string)
    ensures |r| == 5 && r[2] == ':'
    ensures IsDigits(r[..2]) && DecimalValue(r[..2]) == h
    ensures IsDigits(r[3..]) && DecimalValue(r[3..]) == m
  {
    var r := Pad2(h) + ":" + Pad2(m);
    assert r[..2] == Pad2(h);
    assert r[3..] == Pad2(m);
    r
  }

  /** Month names indexed from January, as a locale supplies them. */
  type MonthTable = t: seq<string> | |t| == 12
    witness ["", "", "", "", "", "", "", "", "", "", "", ""]

  /** The month names of Carbon's Italian locale. */
  const ItalianMonths: MonthTable := [
    "gennaio", "febbraio", "marzo", "aprile", "maggio", "giugno",
    "luglio", "agosto", "settembre", "ottobre", "novembre", "dicembre"
  ]

  /** Carbon's `translatedFormat('j F')`: day without padding, space, month name. */
  function DayLabel(d: Day, months: MonthTable): string {
    DecimalString(d.day) + " " + months[d.month - 1]
  }
}
