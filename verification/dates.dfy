/** The `YYYY-MM-DD` date validator, modelled at the level of the
    `%Y-%m-%d` pattern: a four-digit year, a month of one or two digits
    worth 1 to 12 and a day of one or two digits worth 1 to 31, separated by
    dashes.  The validated value prints as `YYYY-MM-DD 00:00:00` with month
    and day zero-padded.
 */
module Dates {
  import opened Results
  import opened Text

  datatype Date = Date(year: nat, month: nat, day: nat)

  /** The values the pattern admits (calendar validity is not part of it). */
  predicate PatternDate(d: Date) {
    d.year < 10000 && 1 <= d.month <= 12 && 1 <= d.day <= 31
  }

  /** The date written with its month and day fields `mw` and `dw` digits wide. */
  function Spelling(d: Date, mw: nat, dw: nat): string {
    ZeroPad(d.year, 4) + "-" + ZeroPad(d.month, mw) + "-" + ZeroPad(d.day, dw)
  }

  /** Widths that write the month and the day in full: one digit only below ten. */
  predicate FitWidths(d: Date, mw: nat, dw: nat) {
    && (mw == 2 || (mw == 1 && d.month < 10))
    && (dw == 2 || (dw == 1 && d.day < 10))
  }

  /** `s` is one of the (up to four) accepted ways of writing `d`. */
  predicate Spells(s: string, d: Date) {
    exists mw: nat, dw: nat | 1 <= mw <= 2 && 1 <= dw <= 2 :: FitWidths(d, mw, dw) && s == Spelling(d, mw, dw)
  }

  function InvalidDateMessage(s: string): string {
    "Incorrect date format for '" + s + "', should be YYYY-MM-DD"
  }

  /** A digit field between `minWidth` and `maxWidth` characters long whose
      value lies in `lo..hi`. */
  function ParseField(s: string, minWidth: nat, maxWidth: nat, lo: nat, hi: nat): (r: Option<nat>)
    ensures r.Some? <==> minWidth <= |s| <= maxWidth && AllDigits(s) && lo <= DecimalValue(s) <= hi
    ensures r.Some? ==> r.value == DecimalValue(s)
  {
    if minWidth <= |s| <= maxWidth && AllDigits(s) && lo <= DecimalValue(s) <= hi then Some(DecimalValue(s))
    else None
  }

  /** Parses `s` as `YYYY-MM-DD`; fails (Python's `ValueError`) on anything
      that is not a spelling of a date the pattern admits, the empty string
      included.  Every accepted string spells the date it yields. */
  function ValidateYYYYMMDD(s: string): (r: Result<Date, string>)
    ensures r.Success? ==> PatternDate(r.value) && Spells(s, r.value)
    ensures r.Failure? ==> r.error == InvalidDateMessage(s)
  {
    var parts := Split(s, '-');
    if |parts| != 3 then Failure(InvalidDateMessage(s))
    else
      var y := ParseField(parts[0], 4, 4, 0, 9999);
      var m := ParseField(parts[1], 1, 2, 1, 12);
      var dd := ParseField(parts[2], 1, 2, 1, 31);
      if y.Some? && m.Some? && dd.Some? then
        var d := Date(y.value, m.value, dd.value);
        SpelledFromParts(parts, d);
        Success(d)
      else Failure(InvalidDateMessage(s))
  }

  lemma SpelledFromParts(parts: seq<string>, d: Date)
    requires |parts| == 3
    requires forall i :: 0 <= i < 3 ==> AllDigits(parts[i])
    requires |parts[0]| == 4 && 1 <= |parts[1]| <= 2 && 1 <= |parts[2]| <= 2
    requires d == Date(DecimalValue(parts[0]), DecimalValue(parts[1]), DecimalValue(parts[2]))
    ensures FitWidths(d, |parts[1]|, |parts[2]|)
    ensures Join(parts, "-") == Spelling(d, |parts[1]|, |parts[2]|)
  {
    ZeroPadOfDigits(parts[0]);
    ZeroPadOfDigits(parts[1]);
    ZeroPadOfDigits(parts[2]);
    DecimalValueBound(parts[1]);
    DecimalValueBound(parts[2]);
    assert Pow10(1) == 10;
    assert Join(parts[1..][1..], "-") == parts[2];
    assert Join(parts[1..], "-") == parts[1] + "-" + parts[2];
    assert Join(parts, "-") == parts[0] + "-" + parts[1] + "-" + parts[2];
  }

  lemma NoDashInDigits(s: string)
    requires AllDigits(s)
    ensures '-' !in s
  {
    forall i | 0 <= i < |s|
      ensures s[i] != '-'
    {
      assert IsDigit(s[i]);
    }
  }

  /** Every spelling of a date the pattern admits is accepted and yields that
      date: with the contract of `ValidateYYYYMMDD`, the validator accepts
      exactly the spellings of pattern dates. */
  lemma ValidateAcceptsSpellings(d: Date, mw: nat, dw: nat)
    requires PatternDate(d) && FitWidths(d, mw, dw)
    ensures ValidateYYYYMMDD(Spelling(d, mw, dw)) == Success(d)
  {
    var y, m, dd := ZeroPad(d.year, 4), ZeroPad(d.month, mw), ZeroPad(d.day, dw);
    SplitSpelling(y, m, dd);
    assert Pow10(4) == 10000 && Pow10(2) == 100 && Pow10(1) == 10;
    PaddedFieldParses(d.year, 4, 4, 4, 0, 9999);
    PaddedFieldParses(d.month, mw, 1, 2, 1, 12);
    PaddedFieldParses(d.day, dw, 1, 2, 1, 31);
  }

  /** A value written in a field of an allowed width parses back. */
  lemma PaddedFieldParses(v: nat, w: nat, minWidth: nat, maxWidth: nat, lo: nat, hi: nat)
    requires v < Pow10(w) && minWidth <= w <= maxWidth && lo <= v <= hi
    ensures ParseField(ZeroPad(v, w), minWidth, maxWidth, lo, hi) == Some(v)
  {
    ZeroPadValue(v, w);
  }

  lemma SplitSpelling(y: string, m: string, dd: string)
    requires AllDigits(y) && AllDigits(m) && AllDigits(dd)
    ensures Split(y + "-" + m + "-" + dd, '-') == [y, m, dd]
  {
    NoDashInDigits(y);
    NoDashInDigits(m);
    NoDashInDigits(dd);
    assert y + "-" + m + "-" + dd == y + ['-'] + (m + ['-'] + dd);
    SplitFirst(y, m + ['-'] + dd, '-');
    SplitFirst(m, dd, '-');
    SplitNoSeparator(dd, '-');
  }

  /** Python's `str` of the validated value: zero-padded date at midnight. */
  function DateString(d: Date): string {
    Spelling(d, 2, 2) + " 00:00:00"
  }

  /** The printed form begins with the canonical spelling, which validates
      back to the same date. */
  lemma DateStringRoundTrip(d: Date)
    requires PatternDate(d)
    ensures |DateString(d)| == 19
    ensures ValidateYYYYMMDD(DateString(d)[..10]) == Success(d)
  {
    assert DateString(d)[..10] == Spelling(d, 2, 2);
    ValidateAcceptsSpellings(d, 2, 2);
  }
}
