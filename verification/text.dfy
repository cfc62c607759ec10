/** String utilities with the meaning the Python built-ins the reporting
    module relies on give them: `str.strip()`, `str.split(c)`, `sep.join(xs)`,
    `str(n)` for integers, `repr` of a string and of a list of strings, and
    Python's ordering of strings.
 */
module Text {

  /** The ASCII whitespace characters `str.strip()` removes. */
  predicate IsSpace(c: char) {
    c == ' ' || c == '\t' || c == '\n' || c == '\r' || c as int == 11 || c as int == 12
  }

  function TrimLeft(s: string): (r: string)
    ensures |r| <= |s| && r == s[|s| - |r|..]
    ensures forall i :: 0 <= i < |s| - |r| ==> IsSpace(s[i])
    ensures |r| > 0 ==> !IsSpace(r[0])
    decreases |s|
  {
    if |s| > 0 && IsSpace(s[0]) then TrimLeft(s[1..]) else s
  }

  function TrimRight(s: string): (r: string)
    ensures |r| <= |s| && r == s[..|r|]
    ensures forall i :: |r| <= i < |s| ==> IsSpace(s[i])
    ensures |r| > 0 ==> !IsSpace(r[|r| - 1])
    decreases |s|
  {
    if |s| > 0 && IsSpace(s[|s| - 1]) then TrimRight(s[..|s| - 1]) else s
  }

  /** `r` sits in `s` at offset `i` with only whitespace before and after it. */
  predicate StrippedAt(s: string, r: string, i: nat) {
    && i + |r| <= |s|
    && r == s[i..i + |r|]
    && (forall k :: 0 <= k < i ==> IsSpace(s[k]))
    && (forall k :: i + |r| <= k < |s| ==> IsSpace(s[k]))
  }

  /** Python's `s.strip()`: the slice of `s` left once the whitespace at both
      ends is cut off; what is cut off is whitespace and what is left neither
      starts nor ends with whitespace. */
  function Strip(s: string): (r: string)
    ensures exists i :: StrippedAt(s, r, i)
    ensures |r| > 0 ==> !IsSpace(r[0]) && !IsSpace(r[|r| - 1])
  {
    StripFacts(s);
    TrimRight(TrimLeft(s))
  }

  lemma StripFacts(s: string)
    ensures StrippedAt(s, TrimRight(TrimLeft(s)), |s| - |TrimLeft(s)|)
    ensures var r := TrimRight(TrimLeft(s)); |r| > 0 ==> !IsSpace(r[0])
  {
    StripSlice(s, TrimLeft(s), TrimRight(TrimLeft(s)));
    StripFirst(TrimLeft(s));
  }

  /** Cutting whitespace off the right of a string that does not start with
      whitespace leaves one that does not either. */
  lemma StripFirst(left: string)
    requires |left| > 0 ==> !IsSpace(left[0])
    ensures var r := TrimRight(left); |r| > 0 ==> !IsSpace(r[0])
  {
    var r := TrimRight(left);
    assert |r| > 0 ==> r[0] == left[0];
  }

  /** Cutting whitespace off the right of the left-trimmed string leaves a
      slice of `s` with whitespace on both sides. */
  lemma StripSlice(s: string, left: string, r: string)
    requires |left| <= |s| && left == s[|s| - |left|..]
    requires forall k :: 0 <= k < |s| - |left| ==> IsSpace(s[k])
    requires |r| <= |left| && r == left[..|r|]
    requires forall k :: |r| <= k < |left| ==> IsSpace(left[k])
    ensures StrippedAt(s, r, |s| - |left|)
  {
    var i := |s| - |left|;
    assert r == s[i..i + |r|];
    forall k | i + |r| <= k < |s|
      ensures IsSpace(s[k])
    {
      assert s[k] == left[k - i];
    }
  }

  /** A string that already neither starts nor ends with whitespace is its own strip. */
  lemma StripClean(s: string)
    requires |s| == 0 || (!IsSpace(s[0]) && !IsSpace(s[|s| - 1]))
    ensures Strip(s) == s
  {
  }

  /** Any run of leading whitespace does not change the strip. */
  lemma StripAfterBlanks(pad: string, s: string)
    requires forall i :: 0 <= i < |pad| ==> IsSpace(pad[i])
    ensures Strip(pad + s) == Strip(s)
  {
    TrimLeftBlanks(pad, s);
  }

  lemma {:induction false} TrimLeftBlanks(pad: string, s: string)
    requires forall i :: 0 <= i < |pad| ==> IsSpace(pad[i])
    ensures TrimLeft(pad + s) == TrimLeft(s)
    decreases |pad|
  {
    if |pad| == 0 {
      assert pad + s == s;
    } else {
      assert (pad + s)[0] == pad[0] && (pad + s)[1..] == pad[1..] + s;
      TrimLeftBlanks(pad[1..], s);
    }
  }

  /** Applies `Strip` to every element. */
  function StripAll(xs: seq<string>): (r: seq<string>)
    ensures |r| == |xs|
    ensures forall i :: 0 <= i < |xs| ==> r[i] == Strip(xs[i])
  {
    if |xs| == 0 then [] else [Strip(xs[0])] + StripAll(xs[1..])
  }

  /** Index of the first occurrence of `c` in `s`, or `|s|` when there is none. */
  function IndexOf(s: string, c: char): (n: nat)
    ensures n <= |s|
    ensures n < |s| ==> s[n] == c
    ensures forall i :: 0 <= i < n ==> s[i] != c
  {
    if |s| == 0 then 0 else if s[0] == c then 0 else 1 + IndexOf(s[1..], c)
  }

  lemma IndexOfFirst(a: string, b: string, c: char)
    requires c !in a
    ensures IndexOf(a + [c] + b, c) == |a|
  {
    var s := a + [c] + b;
    assert s[|a|] == c;
  }

  /** Python's `sep.join(parts)`. */
  function Join(parts: seq<string>, sep: string): string
  {
    if |parts| == 0 then "" else if |parts| == 1 then parts[0] else parts[0] + sep + Join(parts[1..], sep)
  }

  /** Python's `s.split(sep)` for a one-character separator: the pieces
      between separators, none holding the separator, joining back to `s`. */
  function Split(s: string, sep: char): (parts: seq<string>)
    ensures |parts| >= 1
    ensures forall i :: 0 <= i < |parts| ==> sep !in parts[i]
    ensures Join(parts, [sep]) == s
    decreases |s|
  {
    var n := IndexOf(s, sep);
    if n == |s| then [s]
    else
      var rest := Split(s[n + 1..], sep);
      assert s == s[..n] + [sep] + s[n + 1..];
      [s[..n]] + rest
  }

  lemma SplitNoSeparator(s: string, sep: char)
    requires sep !in s
    ensures Split(s, sep) == [s]
  {
  }

  lemma SplitFirst(a: string, b: string, sep: char)
    requires sep !in a
    ensures Split(a + [sep] + b, sep) == [a] + Split(b, sep)
  {
    var s := a + [sep] + b;
    IndexOfFirst(a, b, sep);
    assert s[..|a|] == a && s[|a| + 1..] == b;
  }

  lemma SplitSeparatorOnly(s: string, sep: char)
    requires sep !in s
    ensures Split(s + [sep], sep) == [s, ""]
  {
    SplitFirst(s, "", sep);
    assert s + [sep] + "" == s + [sep];
    SplitNoSeparator("", sep);
  }

  lemma ConsSnoc<T>(a: T, x: seq<T>, y: T)
    ensures [a] + (x + [y]) == ([a] + x) + [y]
  {
  }

  lemma SplitTrailingStep(a: string, b: string, sep: char)
    requires sep !in a
    requires Split(b + [sep], sep) == Split(b, sep) + [""]
    ensures Split(a + [sep] + b + [sep], sep) == Split(a + [sep] + b, sep) + [""]
  {
    var x := Split(b, sep);
    var s1 := a + [sep] + b;
    var s2 := a + [sep] + (b + [sep]);
    assert s1 + [sep] == s2;
    SplitFirst(a, b, sep);
    assert Split(s1, sep) == [a] + x;
    SplitFirst(a, b + [sep], sep);
    assert Split(s2, sep) == [a] + (x + [""]);
    ConsSnoc(a, x, "");
  }

  /** A separator at the end of the text adds one empty piece and changes
      no other. */
  lemma {:induction false} SplitTrailingSeparator(s: string, sep: char)
    ensures Split(s + [sep], sep) == Split(s, sep) + [""]
    decreases |s|
  {
    if sep !in s {
      SplitSeparatorOnly(s, sep);
      SplitNoSeparator(s, sep);
    } else {
      var n := IndexOf(s, sep);
      var a, b := s[..n], s[n + 1..];
      assert s == a + [sep] + b;
      SplitTrailingSeparator(b, sep);
      SplitTrailingStep(a, b, sep);
    }
  }

  /** `Split` inverts `Join`: a non-empty list of separator-free pieces is
      recovered from its join, so `Split` is the only decomposition with the
      properties its contract states. */
  lemma {:induction false} SplitJoin(parts: seq<string>, sep: char)
    requires |parts| >= 1
    requires forall i :: 0 <= i < |parts| ==> sep !in parts[i]
    ensures Split(Join(parts, [sep]), sep) == parts
    decreases |parts|
  {
    if |parts| == 1 {
      SplitNoSeparator(parts[0], sep);
    } else {
      SplitJoin(parts[1..], sep);
      SplitFirst(parts[0], Join(parts[1..], [sep]), sep);
      assert parts == [parts[0]] + parts[1..];
    }
  }

  predicate IsDigit(c: char) {
    '0' <= c <= '9'
  }

  predicate AllDigits(s: string) {
    forall i :: 0 <= i < |s| ==> IsDigit(s[i])
  }

  function DigitChar(d: nat): (c: char)
    requires d < 10
    ensures IsDigit(c)
  {
    ('0' as int + d) as char
  }

  function DigitValue(c: char): (d: nat)
    requires IsDigit(c)
    ensures d < 10 && DigitChar(d) == c
  {
    c as int - '0' as int
  }

  /** The number a string of decimal digits denotes (leading zeros allowed). */
  function DecimalValue(s: string): nat
    requires AllDigits(s)
    decreases |s|
  {
    if |s| == 0 then 0 else 10 * DecimalValue(s[..|s| - 1]) + DigitValue(s[|s| - 1])
  }

  function Pow10(k: nat): (r: nat)
    ensures r >= 1
  {
    if k == 0 then 1 else 10 * Pow10(k - 1)
  }

  /** The last `width` decimal digits of `n`, left-padded with zeros. */
  function ZeroPad(n: nat, width: nat): (r: string)
    ensures |r| == width && AllDigits(r)
  {
    if width == 0 then "" else ZeroPad(n / 10, width - 1) + [DigitChar(n % 10)]
  }

  /** A number narrower than the field reads back from its padded form. */
  lemma {:induction false} ZeroPadValue(n: nat, width: nat)
    requires n < Pow10(width)
    ensures DecimalValue(ZeroPad(n, width)) == n
  {
    if width > 0 {
      ZeroPadValue(n / 10, width - 1);
      var r := ZeroPad(n, width);
      assert r[..|r| - 1] == ZeroPad(n / 10, width - 1);
    }
  }

  /** Padding the value of a digit string to its own width gives it back. */
  lemma {:induction false} ZeroPadOfDigits(s: string)
    requires AllDigits(s)
    ensures ZeroPad(DecimalValue(s), |s|) == s
    decreases |s|
  {
    if |s| > 0 {
      var init := s[..|s| - 1];
      ZeroPadOfDigits(init);
      var v := DecimalValue(s);
      assert v / 10 == DecimalValue(init) && v % 10 == DigitValue(s[|s| - 1]);
      assert s == init + [s[|s| - 1]];
    }
  }

  lemma DecimalValueBound(s: string)
    requires AllDigits(s)
    ensures DecimalValue(s) < Pow10(|s|)
    decreases |s|
  {
    if |s| > 0 {
      DecimalValueBound(s[..|s| - 1]);
    }
  }

  /** Decimal digits as Python's `str` writes them: at least one, and no
      leading zero unless the number is zero itself. */
  predicate Canonical(s: string) {
    |s| >= 1 && AllDigits(s) && (|s| > 1 ==> s[0] != '0')
  }

  /** Python's `str(n)` for a natural number: shortest decimal digits. */
  function NatToDecimal(n: nat): (r: string)
    ensures Canonical(r)
    ensures DecimalValue(r) == n
  {
    if n < 10 then [DigitChar(n)]
    else
      var r := NatToDecimal(n / 10) + [DigitChar(n % 10)];
      assert r[..|r| - 1] == NatToDecimal(n / 10);
      r
  }

  /** A digit string that does not start with zero denotes a positive number. */
  lemma {:induction false} LeadingDigitPositive(s: string)
    requires |s| >= 1 && AllDigits(s) && s[0] != '0'
    ensures DecimalValue(s) >= 1
    decreases |s|
  {
    if |s| > 1 {
      LeadingDigitPositive(s[..|s| - 1]);
    }
  }

  /** Each natural number has exactly one canonical decimal form, the one
      `NatToDecimal` writes. */
  lemma {:induction false} CanonicalUnique(s: string)
    requires Canonical(s)
    ensures s == NatToDecimal(DecimalValue(s))
    decreases |s|
  {
    var n := DecimalValue(s);
    if |s| > 1 {
      var init := s[..|s| - 1];
      LeadingDigitPositive(init);
      assert n / 10 == DecimalValue(init) && n % 10 == DigitValue(s[|s| - 1]);
      CanonicalUnique(init);
      assert s == init + [s[|s| - 1]];
    }
  }

  /** Python's `str(i)` for an integer: the canonical digits of its
      magnitude, after a `-` when it is negative. */
  function IntToDecimal(i: int): (r: string)
    ensures |r| >= 1
    ensures i >= 0 ==> Canonical(r) && DecimalValue(r) == i
    ensures i < 0 ==> r[0] == '-' && Canonical(r[1..]) && DecimalValue(r[1..]) == -i
  {
    if i < 0 then "-" + NatToDecimal(-i) else NatToDecimal(i)
  }

  /** Python's `repr` of a string free of quotes and backslashes. */
  function Quote(s: string): string {
    "'" + s + "'"
  }

  function QuoteAll(xs: seq<string>): (r: seq<string>)
    ensures |r| == |xs|
    ensures forall i :: 0 <= i < |xs| ==> r[i] == Quote(xs[i])
  {
    if |xs| == 0 then [] else [Quote(xs[0])] + QuoteAll(xs[1..])
  }

  /** Python's `str` of a list of strings: `['a', 'b']`. */
  function ReprList(xs: seq<string>): string {
    "[" + Join(QuoteAll(xs), ", ") + "]"
  }

  /** Python's `<` on strings: lexicographic by code point, a proper prefix first. */
  predicate LexLess(a: string, b: string)
    decreases |a|
  {
    |b| > 0 && (|a| == 0 || a[0] < b[0] || (a[0] == b[0] && LexLess(a[1..], b[1..])))
  }

  lemma {:induction false} LexLessIrreflexive(a: string)
    ensures !LexLess(a, a)
    decreases |a|
  {
    if |a| > 0 {
      LexLessIrreflexive(a[1..]);
    }
  }

  lemma {:induction false} LexLessTransitive(a: string, b: string, c: string)
    requires LexLess(a, b) && LexLess(b, c)
    ensures LexLess(a, c)
    decreases |a|
  {
    if |a| > 0 && a[0] == b[0] && b[0] == c[0] {
      LexLessTransitive(a[1..], b[1..], c[1..]);
    }
  }

  /** Each element strictly below its successor. */
  predicate AdjacentSorted(xs: seq<string>) {
    forall i :: 0 <= i < |xs| - 1 ==> LexLess(xs[i], xs[i + 1])
  }

  /** Every earlier element strictly below every later one. */
  predicate StrictlySorted(xs: seq<string>) {
    forall i, j :: 0 <= i < j < |xs| ==> LexLess(xs[i], xs[j])
  }

  /** Checking neighbours suffices for a strict order; the elements are then distinct. */
  lemma {:induction false} AdjacentSortedIsSorted(xs: seq<string>)
    requires AdjacentSorted(xs)
    ensures StrictlySorted(xs)
    ensures forall i, j :: 0 <= i < j < |xs| ==> xs[i] != xs[j]
    decreases |xs|
  {
    if |xs| > 1 {
      AdjacentSortedIsSorted(xs[1..]);
      forall j | 1 < j < |xs|
        ensures LexLess(xs[0], xs[j])
      {
        assert LexLess(xs[1], xs[j]) by {
          assert xs[1] == xs[1..][0] && xs[j] == xs[1..][j - 1];
        }
        LexLessTransitive(xs[0], xs[1], xs[j]);
      }
      forall i, j | 0 <= i < j < |xs|
        ensures LexLess(xs[i], xs[j]) && xs[i] != xs[j]
      {
        if i > 0 {
          assert xs[i] == xs[1..][i - 1] && xs[j] == xs[1..][j - 1];
        }
        LexLessIrreflexive(xs[i]);
      }
    }
  }
}
