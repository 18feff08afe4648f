/**
 * Calendar days written `YYYY-MM-DD`, as the date inputs produce them and as
 * the table compares them (by day).
 */
module Dates {
  import opened Options
  import opened Strings

  datatype Date = Date(year: nat, month: nat, day: nat)

  predicate IsLeapYear(y: nat) {
    (y % 4 == 0 && y % 100 != 0) || y % 400 == 0
  }

  function DaysInMonth(y: nat, m: nat): nat {
    if m == 2 then (if IsLeapYear(y) then 29 else 28)
    else if m == 4 || m == 6 || m == 9 || m == 11 then 30
    else 31
  }

  /** A real calendar day with a four-digit year. */
  predicate Valid(d: Date) {
    d.year <= 9999 && 1 <= d.month <= 12 && 1 <= d.day <= DaysInMonth(d.year, d.month)
  }

  type Day = d: Date | Valid(d) witness Date(1970, 1, 1)

  /** `a < b` on the days the two dates denote. */
  predicate Before(a: Date, b: Date) {
    a.year < b.year
    || (a.year == b.year && (a.month < b.month || (a.month == b.month && a.day < b.day)))
  }

  lemma BeforeIsStrictTotalOrder(a: Date, b: Date, c: Date)
    ensures !Before(a, a)
    ensures Before(a, b) && Before(b, c) ==> Before(a, c)
    ensures a == b || Before(a, b) || Before(b, a)
    ensures !(Before(a, b) && Before(b, a))
  {
  }

  // ---------------------------------------------------------------- text form

  function Digits2(n: nat): (s: string)
    requires n < 100
    ensures |s| == 2 && IsDigits(s)
  {
    [DigitChar(n / 10), DigitChar(n % 10)]
  }

  function Digits4(n: nat): (s: string)
    requires n < 10000
    ensures |s| == 4 && IsDigits(s)
  {
    Digits2(n / 100) + Digits2(n % 100)
  }

  /** The `YYYY-MM-DD` text of a day. */
  function Format(d: Day): (s: string)
    ensures |s| == 10 && s[4] == '-' && s[7] == '-'
  {
    Digits4(d.year) + "-" + Digits2(d.month) + "-" + Digits2(d.day)
  }

  /** The day a `YYYY-MM-DD` text denotes; anything else is not a day. */
  function ParseDate(s: string): (r: Option<Day>)
    ensures r.Some? ==> |s| == 10
  {
    if |s| == 10 && s[4] == '-' && s[7] == '-'
       && IsDigits(s[..4]) && IsDigits(s[5..7]) && IsDigits(s[8..])
    then
      var d := Date(DigitsValue(s[..4]), DigitsValue(s[5..7]), DigitsValue(s[8..]));
      if Valid(d) then Some(d) else None
    else None
  }

  lemma DigitsValue2(s: string)
    requires |s| == 2 && IsDigits(s)
    ensures DigitsValue(s) == 10 * DigitValue(s[0]) + DigitValue(s[1])
  {
    var first := s[..1];
    assert first[..0] == [] && first[0] == s[0];
    assert DigitsValue(first) == DigitValue(s[0]);
    assert s[..|s| - 1] == first;
  }

  lemma DigitsValue4(s: string)
    requires |s| == 4 && IsDigits(s)
    ensures DigitsValue(s) == 100 * DigitsValue(s[..2]) + DigitsValue(s[2..])
  {
    var a, b := s[..2], s[2..];
    DigitsValue2(a);
    DigitsValue2(b);
    assert s[..3][..2] == a;
    assert s[..3] == a + [s[2]];
    calc {
      DigitsValue(s);
      10 * DigitsValue(s[..3]) + DigitValue(s[3]);
      10 * (10 * DigitsValue(a) + DigitValue(s[2])) + DigitValue(s[3]);
    }
  }

  lemma Digits2Value(n: nat)
    requires n < 100
    ensures DigitsValue(Digits2(n)) == n
  {
    DigitsValue2(Digits2(n));
  }

  lemma Digits4Value(n: nat)
    requires n < 10000
    ensures DigitsValue(Digits4(n)) == n
  {
    var s := Digits4(n);
    DigitsValue4(s);
    assert s[..2] == Digits2(n / 100) && s[2..] == Digits2(n % 100);
    Digits2Value(n / 100);
    Digits2Value(n % 100);
  }

  lemma DigitCharOfValue(c: char)
    requires IsDigit(c)
    ensures DigitChar(DigitValue(c)) == c
  {
  }

  lemma Digits2OfValue(s: string)
    requires |s| == 2 && IsDigits(s)
    ensures DigitsValue(s) < 100 && Digits2(DigitsValue(s)) == s
  {
    DigitsValue2(s);
    var v := DigitsValue(s);
    assert v / 10 == DigitValue(s[0]) && v % 10 == DigitValue(s[1]);
    DigitCharOfValue(s[0]);
    DigitCharOfValue(s[1]);
  }

  lemma Digits4OfValue(s: string)
    requires |s| == 4 && IsDigits(s)
    ensures DigitsValue(s) < 10000 && Digits4(DigitsValue(s)) == s
  {
    DigitsValue4(s);
    var hi, lo := DigitsValue(s[..2]), DigitsValue(s[2..]);
    DigitsValue2(s[..2]);
    DigitsValue2(s[2..]);
    var v := DigitsValue(s);
    assert v / 100 == hi && v % 100 == lo;
    Digits2OfValue(s[..2]);
    Digits2OfValue(s[2..]);
    assert s[..2] + s[2..] == s;
  }

  /** Reading back the text of a day gives the day. */
  lemma ParseFormat(d: Day)
    ensures ParseDate(Format(d)) == Some(d)
  {
    var s := Format(d);
    assert s[..4] == Digits4(d.year);
    assert s[5..7] == Digits2(d.month);
    assert s[8..] == Digits2(d.day);
    Digits4Value(d.year);
    Digits2Value(d.month);
    Digits2Value(d.day);
  }

  /** A text that reads as a day is that day's text: the `YYYY-MM-DD` form is canonical. */
  lemma FormatParse(s: string)
    requires ParseDate(s).Some?
    ensures Format(ParseDate(s).value) == s
  {
    var d := ParseDate(s).value;
    Digits4OfValue(s[..4]);
    Digits2OfValue(s[5..7]);
    Digits2OfValue(s[8..]);
    var f := Format(d);
    assert f[..4] == s[..4] && f[4] == s[4] && f[5..7] == s[5..7] && f[7] == s[7] && f[8..] == s[8..];
    assert f == f[..4] + [f[4]] + f[5..7] + [f[7]] + f[8..];
    assert s == s[..4] + [s[4]] + s[5..7] + [s[7]] + s[8..];
  }
}
