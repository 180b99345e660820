/**
 * The WhatsApp reminder shared by the calendar and the pending-list widgets:
 * `formatWhatsappWhen`, `buildWhatsappMessage` and `buildWhatsappUrl`. Both
 * widgets carry identical copies of these methods; here they are defined
 * once and both widget modules call them.
 */
module Reminder {
  import opened Base
  import opened Text
  import opened CalendarDates
  import opened PercentEncoding
  import opened Phone

  /**
   * What the PHP code takes from its environment: `Carbon::parse` (a total
   * function here), the current date in the parsed timestamp's zone
   * (`Carbon::now(...)->startOfDay()`), and the Italian month names
   * (`CalendarDates.ItalianMonths` for Carbon's `it` locale).
   */
  datatype WhenContext = WhenContext(today: Day, parse: string -> Moment, months: MonthTable)

  const Closing := " Saluti da Zagadogs!"
  const WaMe := "https://wa.me/"
  const TextParam := "?text="

  /**
   * The "when" phrase: empty for a blank timestamp; otherwise "oggi" for
   * today, "domani" for tomorrow and "il <day> <month>" for any other date
   * (past dates included), each followed by " alle ore HH:MM".
   */
  function FormatWhen(startsAt: Option<string>, ctx: WhenContext): (r: string)
    ensures r == "" <==> Blank(startsAt)
    ensures Filled(startsAt) ==>
      EndsWith(r, " alle ore " + ClockLabel(ctx.parse(startsAt.value).hour, ctx.parse(startsAt.value).minute))
    ensures StartsWith(r, "oggi ") <==>
      Filled(startsAt) && ctx.parse(startsAt.value).day == ctx.today
    ensures StartsWith(r, "domani ") <==>
      Filled(startsAt) && ctx.parse(startsAt.value).day == Tomorrow(ctx.today)
    ensures StartsWith(r, "il ") <==>
      Filled(startsAt) && ctx.parse(startsAt.value).day != ctx.today
      && ctx.parse(startsAt.value).day != Tomorrow(ctx.today)
    ensures StartsWith(r, "il ") ==>
      StartsWith(r, "il " + DayLabel(ctx.parse(startsAt.value).day, ctx.months) + " ")
    ensures Filled(startsAt) ==>
      var m := ctx.parse(startsAt.value);
      var tail := " alle ore " + ClockLabel(m.hour, m.minute);
      r == (if m.day == ctx.today then "oggi"
            else if m.day == Tomorrow(ctx.today) then "domani"
            else "il " + DayLabel(m.day, ctx.months)) + tail
  {
    if Blank(startsAt) then ""
    else
      var m := ctx.parse(startsAt.value);
      var tail := " alle ore " + ClockLabel(m.hour, m.minute);
      if m.day == ctx.today then
        var r := "oggi" + tail;
        ConcatParts("oggi", tail);
        assert r[..5] == "oggi ";
        FirstCharExcludes(r, "il ");
        FirstCharExcludes(r, "domani ");
        r
      else if m.day == Tomorrow(ctx.today) then
        var r := "domani" + tail;
        ConcatParts("domani", tail);
        assert r[..7] == "domani ";
        FirstCharExcludes(r, "il ");
        FirstCharExcludes(r, "oggi ");
        r
      else
        var dateLabel := "il " + DayLabel(m.day, ctx.months);
        var r := dateLabel + tail;
        ConcatParts(dateLabel, tail);
        assert r[..|dateLabel| + 1] == dateLabel + " ";
        assert r[..3] == "il ";
        FirstCharExcludes(r, "oggi ");
        FirstCharExcludes(r, "domani ");
        r
  }

  /** A date in the past is never "oggi" or "domani". */
  lemma PastDateIsSpelledOut(startsAt: Option<string>, ctx: WhenContext)
    requires Filled(startsAt) && Before(ctx.parse(startsAt.value).day, ctx.today)
    ensures StartsWith(FormatWhen(startsAt, ctx), "il ")
  {
  }

  /** "Ciao <name>," for a non-empty name, else "Ciao,". */
  function Greeting(name: string): (r: string)
    ensures |r| > 0 && r[0] == 'C'
  {
    if name != "" then "Ciao " + name + "," else "Ciao,"
  }

  /** "Cane: <dog>." for a non-empty dog name, else nothing at all. */
  function DogLine(dog: string): string {
    if dog != "" then "Cane: " + dog + "." else ""
  }

  /** Greeting and booking sentence with the when phrase, up to the dog line. */
  function BookingLine(name: string, when: string): (r: string)
    ensures StartsWith(r, Greeting(name)) && EndsWith(r, ". ")
  {
    var g := Greeting(name);
    var r := g + (" prenotazione confermata per " + when + ". ");
    ConcatParts(g, " prenotazione confermata per " + when + ". ");
    ConcatParts(" prenotazione confermata per " + when, ". ");
    assert r[|r| - 2..] == (" prenotazione confermata per " + when + ". ")[|" prenotazione confermata per " + when|..];
    r
  }

  /** The interpolated string before the outer `trim`. */
  function RawMessage(name: string, dog: string, when: string): string {
    BookingLine(name, when) + (DogLine(dog) + Closing)
  }

  lemma ClosingEnds()
    ensures |Closing| > 0 && Closing[|Closing| - 1] == '!'
  {
  }

  /** The raw message starts with "C" and ends with "!". */
  lemma RawMessageEnds(name: string, dog: string, when: string)
    ensures var s := RawMessage(name, dog, when);
      |s| > 0 && s[0] == 'C' && s[|s| - 1] == '!'
  {
    var b := BookingLine(name, when);
    var t := DogLine(dog) + Closing;
    var s := b + t;
    assert b[0] == 'C' by {
      assert b[..|Greeting(name)|][0] == b[0];
    }
    ClosingEnds();
    assert s[0] == b[0];
    assert s[|s| - 1] == t[|t| - 1] == Closing[|Closing| - 1];
  }

  /** So the outer `trim` changes nothing. */
  lemma RawMessageIsTrimmed(name: string, dog: string, when: string)
    ensures Trim(RawMessage(name, dog, when)) == RawMessage(name, dog, when)
  {
    RawMessageEnds(name, dog, when);
  }

  /** The shape of the raw message, independent of where its parts come from. */
  lemma RawMessageShape(name: string, dog: string, when: string)
    ensures StartsWith(RawMessage(name, dog, when), BookingLine(name, when))
    ensures StartsWith(RawMessage(name, dog, when), Greeting(name))
    ensures EndsWith(RawMessage(name, dog, when), Closing)
    ensures dog != "" ==> EndsWith(RawMessage(name, dog, when), ". " + ("Cane: " + dog + ".") + Closing)
    ensures dog == "" ==> EndsWith(RawMessage(name, dog, when), ". " + Closing)
  {
    var b := BookingLine(name, when);
    var t := DogLine(dog) + Closing;
    var r := b + t;
    ConcatParts(b, t);
    StartsWithTrans(r, b, Greeting(name));
    ConcatParts(DogLine(dog), Closing);
    EndsWithTrans(r, t, Closing);
    EndsWithAppend(b, ". ", t);
    if dog != "" {
      assert ". " + t == ". " + ("Cane: " + dog + ".") + Closing;
    } else {
      assert t == Closing;
    }
  }

  /**
   * `buildWhatsappMessage`. The message opens with the greeting for the
   * trimmed client name, then the booking sentence with the when phrase;
   * the dog line "Cane: <dog>." follows only for a non-blank dog, and the
   * message always ends with " Saluti da Zagadogs!". Without a dog, the two
   * spaces around the missing dog line stay in the message.
   */
  function BuildMessage(clientName: Option<string>, dogName: Option<string>, startsAt: Option<string>,
                        ctx: WhenContext): (r: string)
    ensures StartsWith(r, Greeting(Trim(clientName.GetOr(""))))
    ensures StartsWith(r, BookingLine(Trim(clientName.GetOr("")), FormatWhen(startsAt, ctx)))
    ensures EndsWith(r, Closing)
    ensures Trim(dogName.GetOr("")) != "" ==>
      EndsWith(r, ". " + ("Cane: " + Trim(dogName.GetOr("")) + ".") + Closing)
    ensures Trim(dogName.GetOr("")) == "" ==> EndsWith(r, ". " + Closing)
  {
    var name := Trim(clientName.GetOr(""));
    var dog := Trim(dogName.GetOr(""));
    var when := FormatWhen(startsAt, ctx);
    RawMessageIsTrimmed(name, dog, when);
    RawMessageShape(name, dog, when);
    Trim(RawMessage(name, dog, when))
  }

  /** The message opens "Ciao <name>," for a non-blank client name and "Ciao," otherwise. */
  lemma MessageGreeting(clientName: Option<string>, dogName: Option<string>, startsAt: Option<string>,
                        ctx: WhenContext)
    ensures var r := BuildMessage(clientName, dogName, startsAt, ctx);
      var name := Trim(clientName.GetOr(""));
      && (name != "" ==> StartsWith(r, "Ciao " + name + ","))
      && (name == "" ==> StartsWith(r, "Ciao,"))
  {
  }

  /** The dog line is empty exactly for an empty dog name. */
  lemma DogLineEmptyIff(dog: string)
    ensures DogLine(dog) == "" <==> dog == ""
  {
    if dog != "" {
      assert |DogLine(dog)| > 0;
    }
  }

  /** What follows the booking sentence in the raw message. */
  lemma RawDogClause(name: string, dog: string, when: string)
    ensures var r := RawMessage(name, dog, when);
      var b := BookingLine(name, when);
      && |b| <= |r|
      && (r[|b|..] == "Cane: " + dog + "." + Closing <==> dog != "")
      && (r[|b|..] == Closing <==> dog == "")
  {
    var b := BookingLine(name, when);
    var t := DogLine(dog) + Closing;
    ConcatParts(b, t);
    DogLineEmptyIff(dog);
    var full := "Cane: " + dog + "." + Closing;
    assert |full| > |Closing|;
    if dog != "" {
      assert t == full;
    } else {
      assert t == Closing;
    }
  }

  /**
   * After the booking sentence the message reads "Cane: <dog>." and the
   * closing exactly when the trimmed dog name is non-empty, and only the
   * closing exactly when it is empty.
   */
  lemma DogClauseIff(clientName: Option<string>, dogName: Option<string>, startsAt: Option<string>,
                     ctx: WhenContext)
    ensures var r := BuildMessage(clientName, dogName, startsAt, ctx);
      var b := BookingLine(Trim(clientName.GetOr("")), FormatWhen(startsAt, ctx));
      var dog := Trim(dogName.GetOr(""));
      && |b| <= |r|
      && (r[|b|..] == "Cane: " + dog + "." + Closing <==> dog != "")
      && (r[|b|..] == Closing <==> dog == "")
  {
    var name := Trim(clientName.GetOr(""));
    var dog := Trim(dogName.GetOr(""));
    var when := FormatWhen(startsAt, ctx);
    RawMessageIsTrimmed(name, dog, when);
    RawDogClause(name, dog, when);
  }

  /** Length of the run of digits at the start of `s`. */
  function DigitPrefix(s: string): (n: nat)
    ensures n <= |s| && IsDigits(s[..n])
    ensures n < |s| ==> !IsDigit(s[n])
    decreases |s|
  {
    if s != [] && IsDigit(s[0]) then
      var n := 1 + DigitPrefix(s[1..]);
      assert forall k :: 1 <= k < n ==> s[..n][k] == s[1..][..n - 1][k - 1];
      n
    else 0
  }

  /** Splits a wa.me link into the phone digits and the decoded message bytes. */
  function ParseLink(url: string): Option<(string, seq<Byte>)> {
    if !StartsWith(url, WaMe) then None
    else
      var rest := url[|WaMe|..];
      var n := DigitPrefix(rest);
      var tail := rest[n..];
      if !StartsWith(tail, TextParam) then None
      else
        match DecodeBytes(tail[|TextParam|..])
        case None => None
        case Some(bytes) => Some((rest[..n], bytes))
  }

  /** The phone digits and the message can be read back from a built link. */
  lemma ParseLinkRoundTrip(phone: string, message: string)
    requires IsDigits(phone)
    ensures ParseLink(WaMe + (phone + (TextParam + RawUrlEncode(message)))) == Some((phone, Utf8(message)))
  {
    var enc := RawUrlEncode(message);
    var q := TextParam + enc;
    var rest := phone + q;
    ConcatParts(WaMe, rest);
    DigitPrefixOfDigits(phone, q);
    ConcatParts(phone, q);
    ConcatParts(TextParam, enc);
    RawUrlDecode(message);
  }

  lemma {:induction false} DigitPrefixOfDigits(digits: string, t: string)
    requires IsDigits(digits) && t != [] && t[0] == '?'
    ensures DigitPrefix(digits + t) == |digits|
    decreases |digits|
  {
    if digits == [] {
      assert digits + t == t;
    } else {
      assert (digits + t)[1..] == digits[1..] + t;
      DigitPrefixOfDigits(digits[1..], t);
    }
  }

  /** The phone as `buildWhatsappUrl` puts it in the link. */
  function LinkPhone(phone: Option<string>): (r: string)
    ensures IsDigits(r)
    ensures r == "" <==> DigitsOnly(phone.GetOr("")) in {"", "00"}
  {
    NormalizeItalianPhone(DigitsOnly(phone.GetOr("")))
  }

  /** The wa.me deep link for a phone and a message. */
  function WhatsappLink(phone: string, message: string): (r: string)
    ensures StartsWith(r, WaMe)
  {
    var r := WaMe + (phone + (TextParam + RawUrlEncode(message)));
    ConcatParts(WaMe, phone + (TextParam + RawUrlEncode(message)));
    r
  }

  /**
   * The link for a phone and an already composed message: none when the
   * normalised phone is empty, otherwise a wa.me link.
   */
  function LinkFor(phone: Option<string>, message: string): (r: Option<string>)
    ensures r.None? <==> LinkPhone(phone) == ""
    ensures r.Some? ==> StartsWith(r.value, WaMe)
  {
    var p := LinkPhone(phone);
    DigitsBlankIffEmpty(p);
    if Blank(Some(p)) then None
    else Some(WhatsappLink(p, message))
  }

  /** From such a link the normalised digits and the message's UTF-8 bytes read back exactly. */
  lemma LinkForReadsBack(phone: Option<string>, message: string)
    requires LinkPhone(phone) != ""
    ensures LinkFor(phone, message).Some?
    ensures ParseLink(LinkFor(phone, message).value) == Some((LinkPhone(phone), Utf8(message)))
  {
    var p := LinkPhone(phone);
    DigitsBlankIffEmpty(p);
    assert LinkFor(phone, message) == Some(WhatsappLink(p, message));
    assert WhatsappLink(p, message) == WaMe + (p + (TextParam + RawUrlEncode(message)));
    ParseLinkRoundTrip(p, message);
  }

  /** A wa.me link is never blank, so `blank` on a link tells only whether there is one. */
  lemma LinkBlankIffNone(u: Option<string>)
    requires u.Some? ==> StartsWith(u.value, WaMe)
    ensures Blank(u) <==> u.None?
  {
    if u.Some? {
      PrefixedNotBlank(u.value, WaMe);
    }
  }

  /** `buildWhatsappUrl`: the link for the client's phone and the composed message. */
  function BuildUrl(phone: Option<string>, clientName: Option<string>, dogName: Option<string>,
                    startsAt: Option<string>, ctx: WhenContext): Option<string> {
    LinkFor(phone, BuildMessage(clientName, dogName, startsAt, ctx))
  }

  /**
   * A link is built exactly when the phone normalises to something, and from
   * it the normalised digits and the UTF-8 bytes of the composed message
   * read back exactly.
   */
  lemma BuildUrlReadsBack(phone: Option<string>, clientName: Option<string>, dogName: Option<string>,
                          startsAt: Option<string>, ctx: WhenContext)
    ensures BuildUrl(phone, clientName, dogName, startsAt, ctx).None? <==> LinkPhone(phone) == ""
    ensures BuildUrl(phone, clientName, dogName, startsAt, ctx).Some? ==>
      ParseLink(BuildUrl(phone, clientName, dogName, startsAt, ctx).value)
        == Some((LinkPhone(phone), Utf8(BuildMessage(clientName, dogName, startsAt, ctx))))
  {
    var m := BuildMessage(clientName, dogName, startsAt, ctx);
    if LinkFor(phone, m).Some? {
      LinkForReadsBack(phone, m);
    }
  }
}
