/**
 * The dashboard's `formatNumber`: a whole count written in decimal, with a comma
 * inserted between digits wherever the number of digits to the right is a positive
 * multiple of three.  The source does this with one global regular-expression
 * replacement over `num.toString()`; both halves are modelled literally here, for
 * counts a JavaScript number holds exactly, and then related to a right-to-left
 * grouping of the digits.
 */
module NumberFormat {
  import opened Wrappers

  predicate IsDigit(c: char) { '0' <= c <= '9' }

  /** A word character of JavaScript regular expressions: `[A-Za-z0-9_]`. */
  predicate IsWordChar(c: char)
  {
    IsDigit(c) || 'a' <= c <= 'z' || 'A' <= c <= 'Z' || c == '_'
  }

  predicate AllDigits(s: string)
  {
    forall i :: 0 <= i < |s| ==> IsDigit(s[i])
  }

  function DigitValue(c: char): nat
    requires IsDigit(c)
  {
    c as int - '0' as int
  }

  function DigitChar(d: nat): (c: char)
    requires d < 10
    ensures IsDigit(c) && DigitValue(c) == d
  {
    ('0' as int + d) as char
  }

  // ---------------------------------------------------------------------------
  // `toString` of a whole non-negative number, and its inverse
  // ---------------------------------------------------------------------------

  /**
   * `n.toString()` for a natural count a JavaScript number holds exactly (at most
   * 2^53): its decimal digits, most significant first.
   */
  function DecimalDigits(n: nat): (s: string)
    ensures 1 <= |s| && AllDigits(s)
    ensures s[0] == '0' ==> n == 0
    decreases n
  {
    if n < 10 then [DigitChar(n)] else DecimalDigits(n / 10) + [DigitChar(n % 10)]
  }

  /** The number a string of decimal digits denotes. */
  function ValueOf(s: string): nat
    requires AllDigits(s)
  {
    if s == [] then 0 else 10 * ValueOf(s[..|s| - 1]) + DigitValue(s[|s| - 1])
  }

  /** The strings `toString` can produce: digits, and no leading zero unless the number is 0. */
  predicate IsCanonical(s: string)
  {
    1 <= |s| && AllDigits(s) && (s[0] == '0' ==> |s| == 1)
  }

  lemma {:induction false} ValueOfDecimalDigits(n: nat)
    ensures ValueOf(DecimalDigits(n)) == n
  {
    if n >= 10 {
      var s := DecimalDigits(n);
      assert s[..|s| - 1] == DecimalDigits(n / 10);
      ValueOfDecimalDigits(n / 10);
    }
  }

  lemma {:induction false} ValueOfPositive(s: string)
    requires 1 <= |s| && AllDigits(s) && s[0] != '0'
    ensures ValueOf(s) >= 1
  {
    if |s| > 1 {
      ValueOfPositive(s[..|s| - 1]);
    }
  }

  /** Every canonical digit string is what `toString` prints for its own value. */
  lemma {:induction false} DecimalDigitsOfValue(s: string)
    requires IsCanonical(s)
    ensures DecimalDigits(ValueOf(s)) == s
  {
    var last := s[|s| - 1];
    if |s| == 1 {
      assert DigitChar(DigitValue(last)) == last;
      assert [last] == s;
    } else {
      var prefix := s[..|s| - 1];
      assert prefix[0] == s[0];
      ValueOfPositive(prefix);
      DecimalDigitsOfValue(prefix);
      var v := ValueOf(s);
      assert v / 10 == ValueOf(prefix) && v % 10 == DigitValue(last);
      assert DigitChar(DigitValue(last)) == last;
      assert prefix + [last] == s;
    }
  }

  /** `toString` is a bijection between the naturals and the canonical digit strings. */
  lemma DecimalDigitsIsCanonical(n: nat)
    ensures IsCanonical(DecimalDigits(n))
    ensures ValueOf(DecimalDigits(n)) == n
  {
    ValueOfDecimalDigits(n);
  }

  lemma {:induction false} DecimalDigitsLength(n: nat)
    ensures |DecimalDigits(n)| <= 3 <==> n < 1000
  {
    if n >= 10 {
      var m := n / 10;
      if m >= 10 {
        assert |DecimalDigits(m)| == |DecimalDigits(m / 10)| + 1;
        if m / 10 >= 10 {
          assert |DecimalDigits(m / 10)| >= 2;
        }
      }
    }
  }

  // ---------------------------------------------------------------------------
  // Global replacement of the zero-width pattern \B(?=(\d{3})+(?!\d)) by a comma
  // ---------------------------------------------------------------------------

  /**
   * `\B` holds at position p: the characters on either side are both word characters
   * or both not.  In front of a digit that means: after a word character, and so
   * never at the very start of the text.
   */
  predicate NotWordBoundary(s: string, p: nat): (inside: bool)
    requires p <= |s|
    ensures p < |s| && IsDigit(s[p]) ==> (inside <==> 0 < p && IsWordChar(s[p - 1]))
    ensures p == 0 && 0 < |s| && IsDigit(s[0]) ==> !inside
  {
    (0 < p && IsWordChar(s[p - 1])) == (p < |s| && IsWordChar(s[p]))
  }

  /**
   * `(?=(\d{3})+(?!\d))` holds at position p: one or more runs of three digits, then no
   * digit.  Inside a string of digits: exactly when the rest is a positive multiple of
   * three long.
   */
  predicate DigitTriplesAhead(s: string, p: nat): (ahead: bool)
    requires p <= |s|
    ensures ahead ==> p + 3 <= |s| && IsDigit(s[p])
    ensures AllDigits(s) ==> (ahead <==> p + 3 <= |s| && (|s| - p) % 3 == 0)
    decreases |s| - p
  {
    && p + 3 <= |s|
    && IsDigit(s[p]) && IsDigit(s[p + 1]) && IsDigit(s[p + 2])
    && (p + 3 == |s| || !IsDigit(s[p + 3]) || DigitTriplesAhead(s, p + 3))
  }

  /**
   * The zero-width pattern matches at position p: only ever strictly inside the text,
   * between a word character and a digit.
   */
  predicate MatchesAt(s: string, p: nat): (matches: bool)
    requires p <= |s|
    ensures matches ==> 0 < p < |s| && IsWordChar(s[p - 1]) && IsDigit(s[p])
  {
    NotWordBoundary(s, p) && DigitTriplesAhead(s, p)
  }

  /**
   * What the global replacement writes for the first k characters of s: every
   * character, preceded by a comma where the empty pattern matches in front of it.
   */
  function ReplacedUpTo(s: string, k: nat): string
    requires k <= |s|
  {
    if k == 0 then []
    else ReplacedUpTo(s, k - 1) + (if MatchesAt(s, k - 1) then "," else "") + [s[k - 1]]
  }

  /** The global replacement tries every position of s, the end included; it only ever adds commas. */
  function InsertSeparators(s: string): (replaced: string)
    ensures RemoveCommas(replaced) == RemoveCommas(s)
  {
    var upToEnd := ReplacedUpTo(s, |s|);
    ReplacedUpToAddsOnlyCommas(s, |s|);
    assert s[..|s|] == s;
    assert !MatchesAt(s, |s|) && upToEnd + "" == upToEnd;
    upToEnd + (if MatchesAt(s, |s|) then "," else "")
  }

  lemma {:induction false} ReplacedUpToAddsOnlyCommas(s: string, k: nat)
    requires k <= |s|
    ensures RemoveCommas(ReplacedUpTo(s, k)) == RemoveCommas(s[..k])
  {
    if k > 0 {
      var before, mark, last := ReplacedUpTo(s, k - 1), (if MatchesAt(s, k - 1) then "," else ""), [s[k - 1]];
      ReplacedUpToAddsOnlyCommas(s, k - 1);
      RemoveCommasConcat(before + mark, last);
      RemoveCommasConcat(before, mark);
      assert RemoveCommas(mark) == [];
      assert s[..k] == s[..k - 1] + last;
      RemoveCommasConcat(s[..k - 1], last);
    }
  }

  /** `formatNumber(n)` for a whole non-negative count: its digits grouped by threes from the right. */
  function FormatNumber(n: nat): (text: string)
    ensures text == Chunked(DecimalDigits(n))
  {
    InsertSeparatorsIsChunked(DecimalDigits(n));
    InsertSeparators(DecimalDigits(n))
  }

  // ---------------------------------------------------------------------------
  // Where the pattern matches in a digit string
  // ---------------------------------------------------------------------------

  /** A comma goes at p of a digit string of length len: inside it, a multiple of three from the end. */
  predicate IsSeparatorPosition(len: nat, p: nat)
  {
    0 < p < len && (len - p) % 3 == 0
  }

  lemma MatchesAtInDigits(s: string, p: nat)
    requires AllDigits(s) && p <= |s|
    ensures MatchesAt(s, p) <==> IsSeparatorPosition(|s|, p)
  {
  }

  // ---------------------------------------------------------------------------
  // A partner definition: groups of three cut off from the right
  // ---------------------------------------------------------------------------

  /** The digits with a comma before each complete group of three counted from the right. */
  function Chunked(ds: string): string
    decreases |ds|
  {
    if |ds| <= 3 then ds else Chunked(ds[..|ds| - 3]) + "," + ds[|ds| - 3..]
  }

  lemma {:induction false} ReplacedUpToShort(ds: string, k: nat)
    requires AllDigits(ds) && |ds| <= 3 && k <= |ds|
    ensures ReplacedUpTo(ds, k) == ds[..k]
  {
    if k > 0 {
      ReplacedUpToShort(ds, k - 1);
      MatchesAtInDigits(ds, k - 1);
      assert ds[..k - 1] + [ds[k - 1]] == ds[..k];
    }
  }

  /** Dropping the last group of three changes nothing before it. */
  lemma {:induction false} ReplacedUpToPrefix(ds: string, k: nat)
    requires AllDigits(ds) && 3 <= |ds| && k <= |ds| - 3
    ensures ReplacedUpTo(ds, k) == ReplacedUpTo(ds[..|ds| - 3], k)
  {
    if k > 0 {
      var t := ds[..|ds| - 3];
      ReplacedUpToPrefix(ds, k - 1);
      MatchesAtInDigits(ds, k - 1);
      MatchesAtInDigits(t, k - 1);
    }
  }

  lemma ReplacedUpToStep(ds: string, k: nat)
    requires AllDigits(ds) && k < |ds|
    ensures ReplacedUpTo(ds, k + 1) ==
      ReplacedUpTo(ds, k) + (if IsSeparatorPosition(|ds|, k) then "," else "") + [ds[k]]
  {
    MatchesAtInDigits(ds, k);
  }

  /** In front of the last three digits of a longer digit string the pattern matches, and nowhere after. */
  lemma ReplacedUpToLastGroup(ds: string)
    requires AllDigits(ds) && |ds| > 3
    ensures ReplacedUpTo(ds, |ds|) == ReplacedUpTo(ds[..|ds| - 3], |ds| - 3) + "," + ds[|ds| - 3..]
  {
    var n := |ds|;
    var head := ReplacedUpTo(ds, n - 3);
    var tail := ds[n - 3..];
    assert tail == [ds[n - 3], ds[n - 2], ds[n - 1]];
    ReplacedUpToStep(ds, n - 3);
    assert IsSeparatorPosition(n, n - 3);
    var upToSecond := head + "," + [ds[n - 3]];
    assert ReplacedUpTo(ds, n - 2) == upToSecond;
    ReplacedUpToStep(ds, n - 2);
    assert !IsSeparatorPosition(n, n - 2);
    var upToThird := upToSecond + [ds[n - 2]];
    assert ReplacedUpTo(ds, n - 1) == upToThird;
    ReplacedUpToStep(ds, n - 1);
    assert !IsSeparatorPosition(n, n - 1);
    assert ReplacedUpTo(ds, n) == upToThird + [ds[n - 1]];
    assert upToThird + [ds[n - 1]] == head + "," + tail;
    ReplacedUpToPrefix(ds, n - 3);
  }

  /** On a digit string the regular-expression replacement is exactly the grouping from the right. */
  lemma {:induction false} InsertSeparatorsIsChunked(ds: string)
    requires AllDigits(ds)
    ensures InsertSeparators(ds) == Chunked(ds)
    decreases |ds|
  {
    var n := |ds|;
    MatchesAtInDigits(ds, n);
    assert InsertSeparators(ds) == ReplacedUpTo(ds, n);
    if n <= 3 {
      ReplacedUpToShort(ds, n);
      assert ds[..n] == ds;
    } else {
      var t := ds[..n - 3];
      assert AllDigits(t);
      ReplacedUpToLastGroup(ds);
      InsertSeparatorsIsChunked(t);
      MatchesAtInDigits(t, n - 3);
      assert InsertSeparators(t) == ReplacedUpTo(t, n - 3);
      assert Chunked(ds) == Chunked(t) + "," + ds[n - 3..];
    }
  }

  // ---------------------------------------------------------------------------
  // Reading a formatted number back
  // ---------------------------------------------------------------------------

  function RemoveCommas(s: string): string
  {
    if s == [] then [] else (if s[0] == ',' then [] else [s[0]]) + RemoveCommas(s[1..])
  }

  /** Reads a comma-grouped count back, or None when what is left is not a digit string. */
  function ParseFormatted(s: string): Option<nat>
  {
    var ds := RemoveCommas(s);
    if 1 <= |ds| && AllDigits(ds) then Some(ValueOf(ds)) else None
  }

  lemma {:induction false} RemoveCommasConcat(a: string, b: string)
    ensures RemoveCommas(a + b) == RemoveCommas(a) + RemoveCommas(b)
  {
    if a == [] {
      assert a + b == b;
    } else {
      assert (a + b)[1..] == a[1..] + b;
      RemoveCommasConcat(a[1..], b);
    }
  }

  lemma {:induction false} RemoveCommasDigits(s: string)
    requires AllDigits(s)
    ensures RemoveCommas(s) == s
  {
    if s != [] {
      RemoveCommasDigits(s[1..]);
    }
  }

  lemma {:induction false} RemoveCommasChunked(ds: string)
    requires AllDigits(ds)
    ensures RemoveCommas(Chunked(ds)) == ds
    decreases |ds|
  {
    if |ds| <= 3 {
      RemoveCommasDigits(ds);
    } else {
      var t, tail := ds[..|ds| - 3], ds[|ds| - 3..];
      var front := Chunked(t);
      assert Chunked(ds) == front + "," + tail;
      RemoveCommasChunked(t);
      RemoveCommasConcat(front + ",", tail);
      RemoveCommasConcat(front, ",");
      assert RemoveCommas(",") == [];
      RemoveCommasDigits(tail);
      assert RemoveCommas(front + "," + tail) == t + tail;
      assert t + tail == ds;
    }
  }

  /** A text put together from three parts splits back into those parts. */
  lemma FramedParts(prefix: string, middle: string, suffix: string)
    ensures var text := prefix + middle + suffix;
      && |prefix| + |suffix| <= |text|
      && text[..|prefix|] == prefix
      && text[|prefix|..|text| - |suffix|] == middle
      && text[|text| - |suffix|..] == suffix
  {
  }

  /** Formatting loses nothing: without its commas the text is `toString`, and it reads back as n. */
  lemma FormatNumberRoundTrip(n: nat)
    ensures RemoveCommas(FormatNumber(n)) == DecimalDigits(n)
    ensures ParseFormatted(FormatNumber(n)) == Some(n)
  {
    InsertSeparatorsIsChunked(DecimalDigits(n));
    RemoveCommasChunked(DecimalDigits(n));
    ValueOfDecimalDigits(n);
  }

  // ---------------------------------------------------------------------------
  // The groups between commas
  // ---------------------------------------------------------------------------

  /** The pieces of s between commas, in order (`s.split(',')`). */
  function SplitOnCommas(s: string): (groups: seq<string>)
    ensures |groups| >= 1
  {
    if s == [] then [[]]
    else
      var rest := SplitOnCommas(s[1..]);
      if s[0] == ',' then [[]] + rest else [[s[0]] + rest[0]] + rest[1..]
  }

  /** The first group has one to three digits, every later group exactly three. */
  predicate WellGrouped(groups: seq<string>)
  {
    && |groups| >= 1
    && 1 <= |groups[0]| <= 3
    && (forall i :: 1 <= i < |groups| ==> |groups[i]| == 3)
    && (forall i :: 0 <= i < |groups| ==> AllDigits(groups[i]))
  }

  lemma {:induction false} SplitDigits(s: string)
    requires AllDigits(s)
    ensures SplitOnCommas(s) == [s]
  {
    if s != [] {
      SplitDigits(s[1..]);
      assert [s[0]] + s[1..] == s;
    }
  }

  lemma {:induction false} SplitAtComma(a: string, b: string)
    ensures SplitOnCommas(a + "," + b) == SplitOnCommas(a) + SplitOnCommas(b)
  {
    var whole := a + "," + b;
    if a == [] {
      assert whole[0] == ',' && whole[1..] == b;
    } else {
      assert whole[0] == a[0] && whole[1..] == a[1..] + "," + b;
      SplitAtComma(a[1..], b);
      var rest := SplitOnCommas(a[1..]);
      assert SplitOnCommas(whole[1..]) == rest + SplitOnCommas(b);
    }
  }

  lemma {:induction false} ChunkedIsWellGrouped(ds: string)
    requires 1 <= |ds| && AllDigits(ds)
    ensures WellGrouped(SplitOnCommas(Chunked(ds)))
    ensures |SplitOnCommas(Chunked(ds))| == (|ds| + 2) / 3
    decreases |ds|
  {
    if |ds| <= 3 {
      SplitDigits(ds);
    } else {
      var t, tail := ds[..|ds| - 3], ds[|ds| - 3..];
      ChunkedIsWellGrouped(t);
      SplitAtComma(Chunked(t), tail);
      SplitDigits(tail);
    }
  }

  /**
   * The formatted text splits at its commas into a first group of one to three digits
   * followed by groups of exactly three, one group per started triple of digits.
   */
  lemma FormatNumberGroups(n: nat)
    ensures WellGrouped(SplitOnCommas(FormatNumber(n)))
    ensures |SplitOnCommas(FormatNumber(n))| == (|DecimalDigits(n)| + 2) / 3
  {
    InsertSeparatorsIsChunked(DecimalDigits(n));
    ChunkedIsWellGrouped(DecimalDigits(n));
  }

  lemma {:induction false} ChunkedEnds(ds: string)
    requires 1 <= |ds| && AllDigits(ds)
    ensures |Chunked(ds)| >= 1
    ensures IsDigit(Chunked(ds)[0]) && IsDigit(Chunked(ds)[|Chunked(ds)| - 1])
    decreases |ds|
  {
    if |ds| > 3 {
      ChunkedEnds(ds[..|ds| - 3]);
    }
  }

  /** The formatted text neither starts nor ends with a comma. */
  lemma FormatNumberEnds(n: nat)
    ensures |FormatNumber(n)| >= 1
    ensures FormatNumber(n)[0] != ',' && FormatNumber(n)[|FormatNumber(n)| - 1] != ','
  {
    InsertSeparatorsIsChunked(DecimalDigits(n));
    ChunkedEnds(DecimalDigits(n));
  }

  lemma ChunkedCommaIffLong(ds: string)
    requires AllDigits(ds)
    ensures (',' in Chunked(ds)) <==> |ds| > 3
  {
    if |ds| <= 3 {
      assert forall i :: 0 <= i < |ds| ==> ds[i] != ',';
    } else {
      var front := Chunked(ds[..|ds| - 3]);
      assert Chunked(ds)[|front|] == ',';
    }
  }

  /** A comma appears exactly when the count reaches a thousand; below that the text is `toString`. */
  lemma FormatNumberCommaIffThousand(n: nat)
    ensures (',' in FormatNumber(n)) <==> n >= 1000
    ensures n < 1000 ==> FormatNumber(n) == DecimalDigits(n)
  {
    var ds := DecimalDigits(n);
    InsertSeparatorsIsChunked(ds);
    DecimalDigitsLength(n);
    ChunkedCommaIffLong(ds);
  }

  lemma DecimalDigitsOfMillions()
    ensures DecimalDigits(1234567) == "1234567"
  {
    assert DecimalDigits(1) == "1";
    assert DecimalDigits(12) == "12";
    assert DecimalDigits(123) == "123";
    assert DecimalDigits(1234) == "1234";
    assert DecimalDigits(12345) == "12345";
    assert DecimalDigits(123456) == "123456";
  }

  lemma ChunkedOfMillions()
    ensures Chunked("1234567") == "1,234,567"
  {
    assert Chunked("1") == "1";
    assert Chunked("1234") == "1,234";
  }

  /** `formatNumber(1234567)` is "1,234,567". */
  lemma FormatNumberMillions()
    ensures FormatNumber(1234567) == "1,234,567"
  {
    DecimalDigitsOfMillions();
    InsertSeparatorsIsChunked("1234567");
    ChunkedOfMillions();
  }

  /** `formatNumber(0)` is "0" and `formatNumber(999)` is "999". */
  lemma FormatNumberSmallExamples()
    ensures FormatNumber(0) == "0"
    ensures FormatNumber(999) == "999"
  {
    FormatNumberCommaIffThousand(0);
    FormatNumberCommaIffThousand(999);
    assert DecimalDigits(9) == "9";
    assert DecimalDigits(99) == "99";
    assert DecimalDigits(999) == "999";
  }
}
