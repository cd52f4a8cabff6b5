/**
 * `createDateString` of
 * imagery-cesium/mapSourceProviders/cesium-sentinel-source-provider.ts: the
 * `TIME` parameter of the imagery request, `Y-mm-dd`. For four-digit years
 * this is the `full-date` form of section 5.6 of RFC 3339; the year itself
 * is never padded.
 */
module SentinelDate {

  /** What the `Date` getters return: `getFullYear()`, the 0-based `getMonth()` and `getDate()`. */
  datatype LocalDate = LocalDate(fullYear: int, monthIndex: int, dayOfMonth: int)

  function DigitChar(d: nat): char
    requires d < 10
  {
    "0123456789"[d]
  }

  predicate IsDigit(c: char) {
    '0' <= c <= '9'
  }

  /** The decimal text of a natural number, as a template literal prints it. */
  function NatToString(n: nat): (s: string)
    ensures |s| >= 1
    ensures forall i :: 0 <= i < |s| ==> IsDigit(s[i])
  {
    if n < 10 then [DigitChar(n)] else NatToString(n / 10) + [DigitChar(n % 10)]
  }

  /** The decimal text of an integer: a minus sign before negative numbers. */
  function IntToString(i: int): string {
    if i < 0 then "-" + NatToString(-i) else NatToString(i)
  }

  /** `` m >= 10 ? m : `0${m}` ``: one leading zero below 10. */
  function Pad(n: int): string {
    if n >= 10 then IntToString(n) else "0" + IntToString(n)
  }

  /**
   * `createDateString(date)`: the year as printed, then for a month index
   * 0..11 and a day 1..31 a two-digit month (index plus one) and a
   * two-digit day, each after a `-`.
   */
  function CreateDateString(date: LocalDate): (s: string)
    ensures var y := IntToString(date.fullYear);
      && |s| >= |y| + 1 && s[..|y|] == y && s[|y|] == '-'
    ensures var y := IntToString(date.fullYear);
      0 <= date.monthIndex <= 11 && 1 <= date.dayOfMonth <= 31 ==>
        && |s| == |y| + 6 && s[|y| + 3] == '-'
        && s[|y| + 1..|y| + 3] == Pad(date.monthIndex + 1)
        && s[|y| + 4..] == Pad(date.dayOfMonth)
  {
    var m := date.monthIndex + 1;
    var d := date.dayOfMonth;
    var y := IntToString(date.fullYear);
    if 1 <= m <= 12 && 1 <= d <= 31 then
      PaddedTwoDigits(m);
      PaddedTwoDigits(d);
      y + "-" + Pad(m) + "-" + Pad(d)
    else
      y + "-" + Pad(m) + "-" + Pad(d)
  }

  // ---------------------------------------------------------------------
  // Reading the text back
  // ---------------------------------------------------------------------

  /** The value of a run of decimal digits, most significant first. */
  function ParseDecimal(s: string): nat
    requires forall i :: 0 <= i < |s| ==> IsDigit(s[i])
  {
    if s == [] then 0
    else
      assert IsDigit(s[|s| - 1]);
      ParseDecimal(s[..|s| - 1]) * 10 + (s[|s| - 1] as int - '0' as int)
  }

  /** `s.split(sep)`: the pieces between separators, in order. */
  function Split(s: string, sep: char): (r: seq<string>)
    ensures |r| >= 1
  {
    if s == [] then [""]
    else
      var rest := Split(s[1..], sep);
      if s[0] == sep then [""] + rest else [[s[0]] + rest[0]] + rest[1..]
  }

  /** The `full-date` production of section 5.6 of RFC 3339: `4DIGIT "-" 2DIGIT "-" 2DIGIT`. */
  predicate IsFullDate(s: string) {
    && |s| == 10
    && s[4] == '-' && s[7] == '-'
    && forall i :: 0 <= i < 10 && i != 4 && i != 7 ==> IsDigit(s[i])
  }

  lemma {:induction false} ParseNatToString(n: nat)
    ensures ParseDecimal(NatToString(n)) == n
  {
    if n >= 10 {
      var s := NatToString(n);
      ParseNatToString(n / 10);
      assert s[..|s| - 1] == NatToString(n / 10);
    }
  }

  /** A leading zero does not change the value read back. */
  lemma {:induction false} ParseLeadingZero(s: string)
    requires forall i :: 0 <= i < |s| ==> IsDigit(s[i])
    ensures ParseDecimal("0" + s) == ParseDecimal(s)
  {
    if s != [] {
      ParseLeadingZero(s[..|s| - 1]);
      assert ("0" + s)[..|s|] == "0" + s[..|s| - 1];
    }
  }

  lemma NatToStringLength(n: nat)
    ensures n < 10 ==> |NatToString(n)| == 1
    ensures 10 <= n < 100 ==> |NatToString(n)| == 2
    ensures 1000 <= n < 10000 ==> |NatToString(n)| == 4
  {
    if 1000 <= n < 10000 {
      assert 100 <= n / 10 < 1000;
      assert 10 <= n / 100 < 100;
      assert NatToString(n / 10) == NatToString(n / 10 / 10) + [DigitChar(n / 10 % 10)];
      assert n / 10 / 10 == n / 100;
    }
  }

  /** A piece without the separator splits to itself. */
  lemma {:induction false} SplitWithoutSep(a: string, sep: char)
    requires forall i :: 0 <= i < |a| ==> a[i] != sep
    ensures Split(a, sep) == [a]
  {
    if a != [] {
      SplitWithoutSep(a[1..], sep);
      assert [a[0]] + a[1..] == a;
    }
  }

  /** Splitting `a + sep + b`, where `a` has no separator, yields `a` and then the pieces of `b`. */
  lemma {:induction false} SplitAfterPiece(a: string, sep: char, b: string)
    requires forall i :: 0 <= i < |a| ==> a[i] != sep
    ensures Split(a + [sep] + b, sep) == [a] + Split(b, sep)
  {
    if a == [] {
      assert a + [sep] + b == [sep] + b;
      assert ([sep] + b)[1..] == b;
    } else {
      SplitAfterPiece(a[1..], sep, b);
      assert (a + [sep] + b)[1..] == a[1..] + [sep] + b;
      assert [a[0]] + a[1..] == a;
    }
  }

  /** The printed month is the 0-based month plus one, with one leading zero below 10. */
  lemma PaddedTwoDigits(n: int)
    requires 1 <= n <= 31
    ensures |Pad(n)| == 2
    ensures forall i :: 0 <= i < 2 ==> IsDigit(Pad(n)[i])
    ensures ParseDecimal(Pad(n)) == n
    ensures n < 10 ==> Pad(n)[0] == '0'
  {
    NatToStringLength(n);
    ParseNatToString(n);
    if n < 10 {
      ParseLeadingZero(NatToString(n));
    }
  }

  /**
   * For a four-digit year, a month index 0..11 and a day 1..31 the string is
   * a `full-date`; splitting it at `-` gives three fields that read back as
   * the year, the month (index plus one) and the day.
   */
  lemma {:induction false} DateStringRoundTrip(date: LocalDate)
    requires 1000 <= date.fullYear <= 9999
    requires 0 <= date.monthIndex <= 11
    requires 1 <= date.dayOfMonth <= 31
    ensures var s := CreateDateString(date);
      && IsFullDate(s)
      && var fields := Split(s, '-');
      && |fields| == 3
      && (forall k, i :: 0 <= k < 3 && 0 <= i < |fields[k]| ==> IsDigit(fields[k][i]))
      && ParseDecimal(fields[0]) == date.fullYear
      && ParseDecimal(fields[1]) == date.monthIndex + 1
      && ParseDecimal(fields[2]) == date.dayOfMonth
  {
    var y := IntToString(date.fullYear);
    var m := Pad(date.monthIndex + 1);
    var d := Pad(date.dayOfMonth);
    NatToStringLength(date.fullYear);
    ParseNatToString(date.fullYear);
    PaddedTwoDigits(date.monthIndex + 1);
    PaddedTwoDigits(date.dayOfMonth);
    var s := CreateDateString(date);
    assert s == y + "-" + m + "-" + d;
    assert s == y + ['-'] + (m + ['-'] + d);
    SplitAfterPiece(y, '-', m + ['-'] + d);
    SplitAfterPiece(m, '-', d);
    SplitWithoutSep(d, '-');
    assert Split(s, '-') == [y, m, d];
  }

  /** Years below 1000 are not padded: the year 5 gives `5-01-02`. */
  lemma ShortYearNotPadded()
    ensures CreateDateString(LocalDate(5, 0, 2)) == "5-01-02"
  {
  }
}
