/**
 * The PHP string primitives the scheduling code relies on: `trim`, Laravel's
 * `blank`/`filled`, `preg_replace('/\D+/', '', ...)` and decimal rendering
 * of small numbers.
 */
module Text {
  import opened Base

  /** The characters PHP's `trim` strips by default: " \t\n\r\0\x0B". */
  predicate IsSpace(c: char) {
    c == ' ' || c == '\t' || c == '\n' || c == '\r' || c == '\0' || c == '\U{B}'
  }

  predicate AllSpace(s: string) {
    forall k :: 0 <= k < |s| ==> IsSpace(s[k])
  }

  predicate IsDigit(c: char) {
    '0' <= c <= '9'
  }

  predicate IsDigits(s: string) {
    forall k :: 0 <= k < |s| ==> IsDigit(s[k])
  }

  predicate StartsWith(s: string, prefix: string) {
    |prefix| <= |s| && s[..|prefix|] == prefix
  }

  predicate EndsWith(s: string, suffix: string) {
    |suffix| <= |s| && s[|s| - |suffix|..] == suffix
  }

  /** A concatenation starts with its left part and ends with its right part. */
  lemma ConcatParts(a: string, b: string)
    ensures (a + b)[..|a|] == a && (a + b)[|a|..] == b
    ensures StartsWith(a + b, a) && EndsWith(a + b, b)
  {
  }

  /** A string whose first character differs from the prefix's does not start with it. */
  lemma FirstCharExcludes(s: string, prefix: string)
    requires prefix != [] && (s == [] || s[0] != prefix[0])
    ensures !StartsWith(s, prefix)
  {
    if |prefix| <= |s| {
      assert s[..|prefix|][0] == s[0];
    }
  }

  lemma StartsWithTrans(s: string, p: string, q: string)
    requires StartsWith(s, p) && StartsWith(p, q)
    ensures StartsWith(s, q)
  {
    assert s[..|q|] == s[..|p|][..|q|];
  }

  lemma EndsWithTrans(s: string, p: string, q: string)
    requires EndsWith(s, p) && EndsWith(p, q)
    ensures EndsWith(s, q)
  {
    assert s[|s| - |q|..] == s[|s| - |p|..][|p| - |q|..];
  }

  /** Appending keeps a suffix relation: if `a` ends with `x`, then `a + b` ends with `x + b`. */
  lemma EndsWithAppend(a: string, x: string, b: string)
    requires EndsWith(a, x)
    ensures EndsWith(a + b, x + b)
  {
    assert (a + b)[|a + b| - |x + b|..] == a[|a| - |x|..] + b;
  }

  /**
   * PHP's `trim`: strips whitespace from both ends. The result has no
   * whitespace at either end, is empty exactly for all-whitespace input,
   * and leaves alone a string that already starts and ends with a
   * non-whitespace character.
   */
  function Trim(s: string): (r: string)
    ensures |r| <= |s|
    ensures r == [] || (!IsSpace(r[0]) && !IsSpace(r[|r| - 1]))
    ensures r == [] <==> AllSpace(s)
    ensures |s| > 0 && !IsSpace(s[0]) && !IsSpace(s[|s| - 1]) ==> r == s
    decreases |s|
  {
    if |s| > 0 && IsSpace(s[0]) then
      assert forall k :: 1 <= k < |s| ==> s[k] == s[1..][k - 1];
      Trim(s[1..])
    else if |s| > 0 && IsSpace(s[|s| - 1]) then
      assert forall k :: 0 <= k < |s| - 1 ==> s[k] == s[..|s| - 1][k];
      Trim(s[..|s| - 1])
    else
      s
  }

  /** `trim` removes whitespace from the two ends only: the result is a slice of the input. */
  lemma TrimIsInfix(s: string)
    ensures exists i, j :: 0 <= i <= j <= |s| && Trim(s) == s[i..j] && AllSpace(s[..i]) && AllSpace(s[j..])
  {
    var i, j := TrimBounds(s);
  }

  /** Where `trim` cuts: everything before `i` and from `j` on is whitespace. */
  lemma {:induction false} TrimBounds(s: string) returns (i: nat, j: nat)
    ensures i <= j <= |s| && Trim(s) == s[i..j] && AllSpace(s[..i]) && AllSpace(s[j..])
    decreases |s|
  {
    if |s| > 0 && IsSpace(s[0]) {
      var i', j' := TrimBounds(s[1..]);
      i, j := i' + 1, j' + 1;
      DropFirstSpace(s, i', j');
    } else if |s| > 0 && IsSpace(s[|s| - 1]) {
      i, j := TrimBounds(s[..|s| - 1]);
      DropLastSpace(s, i, j);
    } else {
      i, j := 0, |s|;
      assert s[i..j] == s;
    }
  }

  /** Cut points in `s[1..]` shift by one in `s` when `s[0]` is whitespace. */
  lemma DropFirstSpace(s: string, i: nat, j: nat)
    requires |s| > 0 && IsSpace(s[0]) && i <= j <= |s| - 1
    requires AllSpace(s[1..][..i]) && AllSpace(s[1..][j..])
    ensures s[i + 1..j + 1] == s[1..][i..j]
    ensures AllSpace(s[..i + 1]) && AllSpace(s[j + 1..])
  {
    var mid, mid' := s[i + 1..j + 1], s[1..][i..j];
    forall k | 0 <= k < |mid|
      ensures mid[k] == mid'[k]
    {
    }
    assert mid == mid';
    assert s[j + 1..] == s[1..][j..];
    var front := s[..i + 1];
    forall k | 0 <= k < |front|
      ensures IsSpace(front[k])
    {
      if k > 0 {
        assert front[k] == s[1..][..i][k - 1];
      }
    }
    assert AllSpace(front);
  }

  /** Cut points in `s` without its last character stay valid in `s` when that character is whitespace. */
  lemma DropLastSpace(s: string, i: nat, j: nat)
    requires |s| > 0 && IsSpace(s[|s| - 1]) && i <= j <= |s| - 1
    requires AllSpace(s[..|s| - 1][..i]) && AllSpace(s[..|s| - 1][j..])
    ensures s[i..j] == s[..|s| - 1][i..j]
    ensures AllSpace(s[..i]) && AllSpace(s[j..])
  {
    var t := s[..|s| - 1];
    assert s[..i] == t[..i];
    forall k | 0 <= k < |s| - j
      ensures IsSpace(s[j..][k])
    {
      if k < |t| - j {
        assert s[j..][k] == t[j..][k];
      }
    }
  }

  /** Laravel's `blank` on a nullable string: null, or nothing but whitespace. */
  predicate Blank(o: Option<string>) {
    o.None? || AllSpace(o.value)
  }

  /** `blank` is Laravel's test `trim($value) === ''` on a string that is not null. */
  lemma BlankIsTrimEmpty(o: Option<string>)
    ensures Blank(o) <==> o.None? || Trim(o.value) == []
  {
  }

  /** A digit string is blank only when it is empty. */
  lemma DigitsBlankIffEmpty(s: string)
    requires IsDigits(s)
    ensures Blank(Some(s)) <==> s == ""
  {
    if s != "" {
      assert !IsSpace(s[0]);
    }
  }

  /** Trimming twice is trimming once. */
  lemma TrimIdempotent(s: string)
    ensures Trim(Trim(s)) == Trim(s)
  {
  }

  /** Joining two trimmed, non-empty strings with a separator leaves nothing to trim. */
  lemma TrimJoined(a: string, sep: string, b: string)
    requires a != "" && b != "" && Trim(a) == a && Trim(b) == b
    ensures Trim(a + sep + b) == a + sep + b
  {
    var j := a + sep + b;
    assert j[0] == a[0];
    assert j[|j| - 1] == b[|b| - 1];
  }

  /** A string that starts with a non-whitespace prefix is not blank. */
  lemma PrefixedNotBlank(s: string, prefix: string)
    requires StartsWith(s, prefix) && prefix != [] && !IsSpace(prefix[0])
    ensures !Blank(Some(s))
  {
    assert s[..|prefix|][0] == s[0];
  }

  /** Laravel's `filled`, the negation of `blank`. */
  predicate Filled(o: Option<string>) {
    !Blank(o)
  }

  /**
   * `preg_replace('/\D+/', '', $s)`: deletes every character that is not an
   * ASCII digit. Multi-byte UTF-8 sequences contain no ASCII digit bytes, so
   * working on characters instead of bytes gives the same digit string.
   */
  function DigitsOnly(s: string): (r: string)
    ensures IsDigits(r)
    ensures |r| <= |s|
    ensures IsDigits(s) ==> r == s
    ensures r == [] <==> forall k :: 0 <= k < |s| ==> !IsDigit(s[k])
    decreases |s|
  {
    if s == [] then []
    else
      var rest := DigitsOnly(s[1..]);
      assert forall k :: 1 <= k < |s| ==> s[k] == s[1..][k - 1];
      (if IsDigit(s[0]) then [s[0]] else []) + rest
  }

  /** Removing non-digits distributes over concatenation: digits keep their order. */
  lemma {:induction false} DigitsOnlyAppend(a: string, b: string)
    ensures DigitsOnly(a + b) == DigitsOnly(a) + DigitsOnly(b)
    decreases |a|
  {
    if a == [] {
      assert a + b == b;
    } else {
      var ab, t := a + b, a[1..];
      var h := if IsDigit(a[0]) then [a[0]] else [];
      assert ab[0] == a[0] && ab[1..] == t + b;
      DigitsOnlyStep(ab);
      DigitsOnlyStep(a);
      DigitsOnlyAppend(t, b);
    }
  }

  /** One step of the digit filter: the first character is kept exactly when it is a digit. */
  lemma DigitsOnlyStep(s: string)
    requires s != []
    ensures DigitsOnly(s) == (if IsDigit(s[0]) then [s[0]] else []) + DigitsOnly(s[1..])
  {
  }

  type DigitValue = d: int | 0 <= d < 10

  function DigitChar(d: DigitValue): (c: char)
    ensures IsDigit(c)
  {
    ('0' as int + d) as char
  }

  function ValueOfDigit(c: char): DigitValue
    requires IsDigit(c)
  {
    c as int - '0' as int
  }

  /** The number a string of decimal digits denotes (most significant first). */
  function DecimalValue(s: string): nat
    requires IsDigits(s)
    decreases |s|
  {
    if s == [] then 0 else DecimalValue(s[..|s| - 1]) * 10 + ValueOfDigit(s[|s| - 1])
  }

  /** PHP's decimal rendering of a natural number, as `date('j')` prints a day. */
  function DecimalString(n: nat): (r: string)
    ensures |r| >= 1 && IsDigits(r)
    ensures r[0] == '0' ==> n == 0
    decreases n
  {
    if n < 10 then [DigitChar(n)] else DecimalString(n / 10) + [DigitChar(n % 10)]
  }

  /** Reading back a rendered number gives the number. */
  lemma {:induction false} DecimalRoundTrip(n: nat)
    ensures DecimalValue(DecimalString(n)) == n
    decreases n
  {
    var s := DecimalString(n);
    if n >= 10 {
      DecimalRoundTrip(n / 10);
      assert s[..|s| - 1] == DecimalString(n / 10);
    }
  }

  /** Two-digit zero-padded rendering, as `date('H')` and `date('i')` print. */
  function Pad2(n: int): (r: string)
    requires 0 <= n < 100
    ensures |r| == 2 && IsDigits(r)
    ensures DecimalValue(r) == n
  {
    var r := [DigitChar(n / 10), DigitChar(n % 10)];
    assert r[..1] == [DigitChar(n / 10)];
    assert r[..1][..0] == [];
    assert DecimalValue(r[..1]) == n / 10;
    r
  }
}
