/** The zod string checks the forms use: length bounds, the `HH:MM` time pattern and an
    optional URL that may also be empty. `.email()`, `.url()` and `Date.parse` are not
    interpreted here; the forms take them as predicates. */
module Validators {
  import opened Wrappers
  import opened Strings

  /** `.min(n)`. */
  predicate MinLength(s: string, n: nat) {
    n <= |s|
  }

  /** `.min(lo).max(hi)`. */
  predicate LengthBetween(s: string, lo: nat, hi: nat) {
    lo <= |s| <= hi
  }

  /** The pattern `^([01]\d|2[0-3]):([0-5]\d)$`: two hour digits from 00 to 23, a colon and
      two minute digits from 00 to 59, and nothing else (without the multiline flag `$` only
      matches at the end of the input). */
  predicate IsTimeOfDay(s: string) {
    && |s| == 5
    && (((s[0] == '0' || s[0] == '1') && IsDigit(s[1])) || (s[0] == '2' && '0' <= s[1] <= '3'))
    && s[2] == ':'
    && '0' <= s[3] <= '5'
    && IsDigit(s[4])
  }

  /** The zero-padded `HH:MM` rendering of an hour and a minute. */
  function FormatTime(h: nat, m: nat): (r: string)
    requires h < 24 && m < 60
    ensures |r| == 5 && r[2] == ':'
  {
    [DigitChar(h / 10), DigitChar(h % 10), ':', DigitChar(m / 10), DigitChar(m % 10)]
  }

  /** Reads an accepted time back as an hour and a minute, which render as the same text. */
  function ParseTime(s: string): (r: (nat, nat))
    requires IsTimeOfDay(s)
    ensures r.0 < 24 && r.1 < 60
    ensures FormatTime(r.0, r.1) == s
  {
    var h := 10 * DigitValue(s[0]) + DigitValue(s[1]);
    var m := 10 * DigitValue(s[3]) + DigitValue(s[4]);
    assert h / 10 == DigitValue(s[0]) && h % 10 == DigitValue(s[1]);
    assert m / 10 == DigitValue(s[3]) && m % 10 == DigitValue(s[4]);
    (h, m)
  }

  /** Every zero-padded time of day is accepted, and parsing it gives the hour and minute
      back. */
  lemma FormatTimeAccepted(h: nat, m: nat)
    requires h < 24 && m < 60
    ensures IsTimeOfDay(FormatTime(h, m))
    ensures ParseTime(FormatTime(h, m)) == (h, m)
  {
    var s := FormatTime(h, m);
    assert DigitValue(s[0]) == h / 10 && DigitValue(s[1]) == h % 10;
    assert DigitValue(s[3]) == m / 10 && DigitValue(s[4]) == m % 10;
  }

  /** The pattern accepts exactly the zero-padded renderings of the times of day. */
  lemma TimeOfDayExactly(s: string)
    ensures IsTimeOfDay(s) <==> exists h: nat, m: nat :: h < 24 && m < 60 && s == FormatTime(h, m)
  {
    if IsTimeOfDay(s) {
      var r := ParseTime(s);
      assert s == FormatTime(r.0, r.1);
    }
    if exists h: nat, m: nat :: h < 24 && m < 60 && s == FormatTime(h, m) {
      var h: nat, m: nat :| h < 24 && m < 60 && s == FormatTime(h, m);
      FormatTimeAccepted(h, m);
    }
  }

  /** `.url().optional().or(z.literal(''))`: absent, the empty string, or a URL by `isUrl`. */
  predicate OptionalUrlOrEmpty(v: Option<string>, isUrl: string -> bool) {
    v.None? || v.value == "" || isUrl(v.value)
  }

  /** `z.boolean().default(false)`: a missing flag parses as false. */
  function DefaultFalse(v: Option<bool>): (r: bool)
    ensures r <==> v == Some(true)
  {
    if v.Some? then v.value else false
  }
}
