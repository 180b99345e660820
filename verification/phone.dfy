/**
 * `normalizeItalianPhone` (identical in both widgets): turns the digits of a
 * client's phone into the international form the wa.me link expects.
 */
module Phone {
  import opened Text

  /** The digits with one leading "00" international prefix dropped. */
  function WithoutIntlPrefix(s: string): string {
    if StartsWith(s, "00") then s[2..] else s
  }

  /** A bare ten-digit national number: it does not already begin with "39". */
  predicate NeedsCountryCode(t: string) {
    |t| == 10 && !StartsWith(t, "39")
  }

  /**
   * The empty string stays empty. Otherwise a leading "00" is removed once;
   * then "39" is put in front exactly when ten characters remain that do
   * not begin with "39", and anything else is returned as it is.
   */
  function NormalizeItalianPhone(s: string): (r: string)
    ensures s == "" ==> r == ""
    ensures s != "" && NeedsCountryCode(WithoutIntlPrefix(s)) ==> r == "39" + WithoutIntlPrefix(s)
    ensures s != "" && !NeedsCountryCode(WithoutIntlPrefix(s)) ==> r == WithoutIntlPrefix(s)
    ensures IsDigits(s) ==> IsDigits(r)
    ensures r == "" <==> (s == "" || s == "00")
  {
    if s == "" then ""
    else
      var t := WithoutIntlPrefix(s);
      if !StartsWith(t, "39") && |t| == 10 then
        var r := "39" + t;
        assert forall k :: 2 <= k < |r| ==> r[k] == t[k - 2];
        r
      else
        assert t == "" ==> s[..2] == "00" && |s| == 2;
        t
  }

  /** A number that does not begin with "00" and is not a bare national number is left alone. */
  lemma NormalizeKeepsInternational(s: string)
    requires !StartsWith(s, "00") && (StartsWith(s, "39") || |s| != 10)
    ensures NormalizeItalianPhone(s) == s
  {
  }

  /** A bare ten-digit national number gains the Italian country code. */
  lemma NormalizeAddsCountryCode(s: string)
    requires |s| == 10 && !StartsWith(s, "39") && !StartsWith(s, "00")
    ensures NormalizeItalianPhone(s) == "39" + s
  {
  }

  /** Normalising a result again changes nothing, unless the result itself begins with "00". */
  lemma NormalizeStable(s: string)
    requires !StartsWith(NormalizeItalianPhone(s), "00")
    ensures NormalizeItalianPhone(NormalizeItalianPhone(s)) == NormalizeItalianPhone(s)
  {
    var r := NormalizeItalianPhone(s);
    if s != "" && NeedsCountryCode(WithoutIntlPrefix(s)) {
      assert r[..2] == "39";
    }
  }

  /** The rule is not idempotent: "0000" gives "00", which gives "". */
  lemma NormalizeNotIdempotent()
    ensures NormalizeItalianPhone("0000") == "00"
    ensures NormalizeItalianPhone(NormalizeItalianPhone("0000")) == ""
  {
    assert StartsWith("0000", "00");
  }
}
