/** The string primitives the validators rely on: .NET's whitespace test,
    `string.IsNullOrWhiteSpace`, `Trim`, `char.IsDigit`, removal of one
    character (`Replace(c, "")`) and decimal numerals. */
module Text {
  import opened Results

  /** .NET's `char.IsWhiteSpace`: the Unicode space, line and paragraph
      separators, U+0009..U+000D and U+0085. */
  predicate IsWhiteSpace(c: char) {
    c == ' ' || ('\U{0009}' <= c <= '\U{000D}') || c == '\U{0085}' || c == '\U{00A0}' ||
    c == '\U{1680}' || ('\U{2000}' <= c <= '\U{200A}') || c == '\U{2028}' || c == '\U{2029}' ||
    c == '\U{202F}' || c == '\U{205F}' || c == '\U{3000}'
  }

  /** Every character is whitespace (the empty string included). */
  predicate IsBlank(s: string) {
    forall i :: 0 <= i < |s| ==> IsWhiteSpace(s[i])
  }

  /** `string.IsNullOrWhiteSpace`: null, or nothing left once trimmed. */
  predicate IsNullOrWhiteSpace(s: Option<string>): (b: bool)
    ensures b <==> s.None? || Trim(s.value) == []
  {
    s.None? || IsBlank(s.value)
  }

  /** `char.IsDigit`, restricted to the ASCII digits. */
  predicate IsDigit(c: char) {
    '0' <= c <= '9'
  }

  /** `s.All(char.IsDigit)`: true of the empty string. */
  predicate AllDigits(s: string) {
    forall i :: 0 <= i < |s| ==> IsDigit(s[i])
  }

  lemma DigitsAreNotBlank(s: string)
    ensures AllDigits(s) && s != [] ==> !IsBlank(s)
  {
    if s != [] {
      assert IsDigit(s[0]) ==> !IsWhiteSpace(s[0]);
    }
  }

  /** The first index at or after `i` whose character is not whitespace, or
      `|s|` when there is none: the forward scan of `Trim()`. */
  function SkipLeading(s: string, i: nat): (j: nat)
    requires i <= |s|
    ensures i <= j <= |s|
    ensures forall k :: i <= k < j ==> IsWhiteSpace(s[k])
    ensures j < |s| ==> !IsWhiteSpace(s[j])
    decreases |s| - i
  {
    if i < |s| && IsWhiteSpace(s[i]) then SkipLeading(s, i + 1) else i
  }

  /** The index just past the last non-whitespace character in `s[lo..j]`,
      or `lo` when there is none: the backward scan of `Trim()`. */
  function SkipTrailing(s: string, lo: nat, j: nat): (e: nat)
    requires lo <= j <= |s|
    ensures lo <= e <= j
    ensures forall k :: e <= k < j ==> IsWhiteSpace(s[k])
    ensures lo < e ==> !IsWhiteSpace(s[e - 1])
    decreases j
  {
    if lo < j && IsWhiteSpace(s[j - 1]) then SkipTrailing(s, lo, j - 1) else j
  }

  /** Neither starts nor ends with whitespace. */
  predicate IsTrimmed(s: string) {
    s == [] || (!IsWhiteSpace(s[0]) && !IsWhiteSpace(s[|s| - 1]))
  }

  lemma TrimmedNotBlank(s: string)
    ensures IsTrimmed(s) && s != [] ==> !IsBlank(s)
  {
  }

  /** `Trim()`: the string with its leading and trailing whitespace removed. */
  function Trim(s: string): (r: string)
    ensures |r| <= |s|
    ensures IsTrimmed(r)
    ensures r == [] <==> IsBlank(s)
  {
    var a := SkipLeading(s, 0);
    var b := SkipTrailing(s, a, |s|);
    assert a < b ==> s[a..b][0] == s[a] && s[a..b][b - a - 1] == s[b - 1];
    assert a == b ==> a == |s|;
    s[a..b]
  }

  /** The whitespace `Trim()` removes in front. */
  function LeadingWhiteSpace(s: string): (w: string)
    ensures IsBlank(w)
  {
    s[..SkipLeading(s, 0)]
  }

  /** The whitespace `Trim()` removes at the back. */
  function TrailingWhiteSpace(s: string): (w: string)
    ensures IsBlank(w)
  {
    s[SkipTrailing(s, SkipLeading(s, 0), |s|)..]
  }

  /** `Trim()` removes whitespace at the two ends and nothing else: the input
      is the leading whitespace, the result and the trailing whitespace, in
      that order. */
  lemma TrimSplits(s: string)
    ensures s == LeadingWhiteSpace(s) + Trim(s) + TrailingWhiteSpace(s)
  {
    var a := SkipLeading(s, 0);
    var b := SkipTrailing(s, a, |s|);
    assert s == s[..a] + s[a..b] + s[b..];
  }

  /** A string that is already trimmed is left as it is. */
  lemma TrimOfTrimmed(s: string)
    ensures IsTrimmed(s) ==> Trim(s) == s
  {
    if s != [] && IsTrimmed(s) {
      assert SkipLeading(s, 0) == 0;
      assert SkipTrailing(s, 0, |s|) == |s|;
      assert s[0..|s|] == s;
    }
  }

  /** Trimming twice trims nothing more. */
  lemma TrimIdempotent(s: string)
    ensures Trim(Trim(s)) == Trim(s)
  {
    TrimOfTrimmed(Trim(s));
  }

  /** `s.Replace(c.ToString(), string.Empty)`: every occurrence of `c` removed,
      everything else kept in order. */
  function Without(s: string, c: char): (r: string)
    ensures c !in r
    ensures |r| <= |s|
    ensures multiset(r) == multiset(s)[c := 0]
  {
    if s == [] then []
    else
      var rest := Without(s[1..], c);
      assert s == [s[0]] + s[1..];
      if s[0] == c then rest else [s[0]] + rest
  }

  lemma {:induction false} WithoutAbsent(s: string, c: char)
    requires c !in s
    ensures Without(s, c) == s
  {
    if s != [] {
      WithoutAbsent(s[1..], c);
    }
  }

  lemma {:induction false} WithoutAppend(a: string, b: string, c: char)
    ensures Without(a + b, c) == Without(a, c) + Without(b, c)
  {
    if a != [] {
      assert (a + b)[1..] == a[1..] + b;
      WithoutAppend(a[1..], b, c);
    } else {
      assert a + b == b;
    }
  }

  /** The character of a decimal digit. */
  function DigitChar(n: int): (c: char)
    requires 0 <= n < 10
    ensures IsDigit(c)
  {
    ('0' as int + n) as char
  }

  /** The value of a decimal digit. */
  function DigitValue(c: char): (n: int)
    requires IsDigit(c)
    ensures 0 <= n < 10 && DigitChar(n) == c
  {
    c as int - '0' as int
  }

  /** The number a string of decimal digits denotes (0 for the empty string). */
  function DigitsValue(s: string): (n: nat)
    requires AllDigits(s)
  {
    if s == [] then 0 else DigitsValue(s[..|s| - 1]) * 10 + DigitValue(s[|s| - 1])
  }

  lemma {:induction false} DigitsValueAppend(a: string, b: string)
    requires AllDigits(a) && AllDigits(b)
    ensures AllDigits(a + b)
    ensures DigitsValue(a + b) == DigitsValue(a) * Pow10(|b|) + DigitsValue(b)
    decreases |b|
  {
    assert AllDigits(a + b) by {
      forall i | 0 <= i < |a + b| ensures IsDigit((a + b)[i]) {
        if i >= |a| { assert (a + b)[i] == b[i - |a|]; }
      }
    }
    if b == [] {
      assert a + b == a;
    } else {
      var b' := b[..|b| - 1];
      assert (a + b)[..|a + b| - 1] == a + b';
      assert (a + b)[|a + b| - 1] == b[|b| - 1];
      DigitsValueAppend(a, b');
      ShiftDigit(DigitsValue(a), Pow10(|b'|), DigitsValue(b'), DigitValue(b[|b| - 1]));
    }
  }

  lemma ShiftDigit(x: int, p: int, y: int, d: int)
    ensures (x * p + y) * 10 + d == x * (10 * p) + (y * 10 + d)
  {
  }

  function Pow10(n: nat): (p: nat)
    ensures p >= 1
  {
    if n == 0 then 1 else 10 * Pow10(n - 1)
  }

  /** The shortest decimal numeral of `n`, as `n.ToString()` writes it. */
  function NatToString(n: nat): (s: string)
    ensures s != [] && AllDigits(s)
    ensures DigitsValue(s) == n
    ensures s[0] == '0' ==> s == "0"
  {
    if n < 10 then
      [DigitChar(n)]
    else
      var prefix := NatToString(n / 10);
      var s := prefix + [DigitChar(n % 10)];
      assert s[..|s| - 1] == prefix;
      s
  }

  /** The last `width` decimal digits of `n`, with leading zeros. */
  function FixedDigits(n: nat, width: nat): (s: string)
    requires n < Pow10(width)
    ensures |s| == width && AllDigits(s)
    ensures DigitsValue(s) == n
  {
    if width == 0 then
      []
    else
      var prefix := FixedDigits(n / 10, width - 1);
      var s := prefix + [DigitChar(n % 10)];
      assert s[..|s| - 1] == prefix;
      s
  }

  /** A numeral without superfluous leading zeros: "0", or a first digit that
      is not '0'. */
  predicate IsCanonical(s: string) {
    s != [] && AllDigits(s) && (s[0] == '0' ==> s == "0")
  }

  lemma {:induction false} Pow10Monotone(m: nat, n: nat)
    requires m <= n
    ensures Pow10(m) <= Pow10(n)
    decreases n - m
  {
    if m < n {
      Pow10Monotone(m, n - 1);
    }
  }

  /** `k` digits denote less than 10^k. */
  lemma {:induction false} DigitsValueBound(s: string)
    requires AllDigits(s)
    ensures DigitsValue(s) < Pow10(|s|)
  {
    if s != [] {
      DigitsValueBound(s[..|s| - 1]);
    }
  }

  /** A numeral whose first digit is not '0' denotes at least 10^(k-1). */
  lemma {:induction false} LeadingDigitBound(s: string)
    requires AllDigits(s) && s != [] && s[0] != '0'
    ensures Pow10(|s| - 1) <= DigitsValue(s)
  {
    if |s| > 1 {
      var prefix := s[..|s| - 1];
      assert prefix[0] == s[0];
      LeadingDigitBound(prefix);
    }
  }

  lemma LastDigitUnique(a: int, x: int, b: int, y: int)
    requires 0 <= x < 10 && 0 <= y < 10 && a * 10 + x == b * 10 + y
    ensures a == b && x == y
  {
  }

  /** Two numerals of one length that denote the same number are the same. */
  lemma {:induction false} FixedLengthUnique(s: string, t: string)
    requires AllDigits(s) && AllDigits(t) && |s| == |t|
    requires DigitsValue(s) == DigitsValue(t)
    ensures s == t
  {
    if s != [] {
      var s', t' := s[..|s| - 1], t[..|t| - 1];
      LastDigitUnique(DigitsValue(s'), DigitValue(s[|s| - 1]), DigitsValue(t'), DigitValue(t[|t| - 1]));
      FixedLengthUnique(s', t');
      assert s == s' + [s[|s| - 1]] && t == t' + [t[|t| - 1]];
    }
  }

  lemma ShorterIsSmaller(s: string, t: string)
    requires AllDigits(s) && s != [] && IsCanonical(t) && |s| < |t|
    ensures DigitsValue(s) < DigitsValue(t)
  {
    assert t[0] != '0' by { assert |t| > 1; }
    DigitsValueBound(s);
    LeadingDigitBound(t);
    Pow10Monotone(|s|, |t| - 1);
  }

  /** Two canonical numerals that denote the same number are the same. */
  lemma CanonicalUnique(s: string, t: string)
    requires IsCanonical(s) && IsCanonical(t) && DigitsValue(s) == DigitsValue(t)
    ensures s == t
  {
    if |s| < |t| {
      ShorterIsSmaller(s, t);
    } else if |t| < |s| {
      ShorterIsSmaller(t, s);
    } else {
      FixedLengthUnique(s, t);
    }
  }
}
