/**
 * The birthday check: Go's `time.Parse` with the layout "2006-01-02". The year is
 * exactly four digits, month and day exactly two (the layout's zero-padded
 * elements), separated by '-', with nothing before or after. A month outside
 * 1..12 or a day outside 1..DaysIn(month, year) is a range error, so the check is
 * leap-year aware. A parsed date is midnight of that day.
 */
module DateLayout {
  import opened Basics
  import opened Clock

  const Layout := "2006-01-02"

  predicate IsDigit(c: char) {
    '0' <= c <= '9'
  }

  function DigitValue(c: char): (n: int)
    requires IsDigit(c)
    ensures 0 <= n <= 9
  {
    c as int - '0' as int
  }

  function DigitChar(n: int): (c: char)
    requires 0 <= n <= 9
    ensures IsDigit(c) && DigitValue(c) == n
  {
    ('0' as int + n) as char
  }

  /** The characters at positions 0-3, 5-6 and 8-9 are digits and positions 4 and 7 hold '-'. */
  predicate Shaped(s: string) {
    && |s| == |Layout|
    && IsDigit(s[0]) && IsDigit(s[1]) && IsDigit(s[2]) && IsDigit(s[3])
    && s[4] == '-'
    && IsDigit(s[5]) && IsDigit(s[6])
    && s[7] == '-'
    && IsDigit(s[8]) && IsDigit(s[9])
  }

  function YearOf(s: string): int
    requires Shaped(s)
  {
    1000 * DigitValue(s[0]) + 100 * DigitValue(s[1]) + 10 * DigitValue(s[2]) + DigitValue(s[3])
  }

  function MonthOf(s: string): int
    requires Shaped(s)
  {
    10 * DigitValue(s[5]) + DigitValue(s[6])
  }

  function DayOf(s: string): int
    requires Shaped(s)
  {
    10 * DigitValue(s[8]) + DigitValue(s[9])
  }

  /** A midnight calendar date that the layout can express. */
  predicate IsLayoutDate(t: Time) {
    Valid(t) && YearInRange(t) && t.hour == 0 && t.minute == 0 && AtMinute(t)
  }

  /** `time.Parse(layout, s)`: `None` is the parse error. */
  function ParseDate(s: string): (r: Option<Time>)
    ensures r.Some? ==> IsLayoutDate(r.value)
    ensures r.Some? <==> Shaped(s) && 1 <= MonthOf(s) <= 12 && 1 <= DayOf(s) <= DaysIn(MonthOf(s), YearOf(s))
  {
    if !Shaped(s) then None
    else
      var y, m, d := YearOf(s), MonthOf(s), DayOf(s);
      if 1 <= m <= 12 && 1 <= d <= DaysIn(m, y) then Some(Time(y, m, d, 0, 0, 0, 0))
      else None
  }

  /** Zero-padded decimal of `n < 10^4` in four digits. */
  function Pad4(n: int): (s: string)
    requires 0 <= n <= 9999
    ensures |s| == 4 && IsDigit(s[0]) && IsDigit(s[1]) && IsDigit(s[2]) && IsDigit(s[3])
  {
    [DigitChar(n / 1000), DigitChar(n / 100 % 10), DigitChar(n / 10 % 10), DigitChar(n % 10)]
  }

  /** Zero-padded decimal of `n < 100` in two digits. */
  function Pad2(n: int): (s: string)
    requires 0 <= n <= 99
    ensures |s| == 2 && IsDigit(s[0]) && IsDigit(s[1])
  {
    [DigitChar(n / 10), DigitChar(n % 10)]
  }

  /** `t.Format(layout)` for a date the layout can express. */
  function FormatDate(t: Time): (s: string)
    requires 0 <= t.year <= 9999 && 1 <= t.month <= 12 && 1 <= t.day <= 31
    ensures Shaped(s)
  {
    Pad4(t.year) + "-" + Pad2(t.month) + "-" + Pad2(t.day)
  }

  lemma DecimalDigits4(n: int)
    requires 0 <= n <= 9999
    ensures 1000 * (n / 1000) + 100 * (n / 100 % 10) + 10 * (n / 10 % 10) + n % 10 == n
  {
    var q := n / 10;
    assert n == 10 * q + n % 10;
    assert q / 10 == n / 100;
    assert q / 100 == n / 1000;
    var r := q / 10;
    assert r == 10 * (r / 10) + r % 10;
  }

  lemma DigitsOfDecimal4(a: int, b: int, c: int, d: int)
    requires 0 <= a <= 9 && 0 <= b <= 9 && 0 <= c <= 9 && 0 <= d <= 9
    ensures var n := 1000 * a + 100 * b + 10 * c + d;
      n / 1000 == a && n / 100 % 10 == b && n / 10 % 10 == c && n % 10 == d
  {
    var n := 1000 * a + 100 * b + 10 * c + d;
    assert n / 10 == 100 * a + 10 * b + c;
    assert n / 100 == 10 * a + b;
  }

  /** A parsed date formats back to exactly the accepted text. */
  lemma FormatParse(s: string)
    requires ParseDate(s).Some?
    ensures FormatDate(ParseDate(s).value) == s
  {
    var t := ParseDate(s).value;
    DigitsOfDecimal4(DigitValue(s[0]), DigitValue(s[1]), DigitValue(s[2]), DigitValue(s[3]));
    var f := FormatDate(t);
    assert f[0] == s[0] && f[1] == s[1] && f[2] == s[2] && f[3] == s[3];
    assert f[5] == s[5] && f[6] == s[6] && f[8] == s[8] && f[9] == s[9];
    assert f == s;
  }

  /** Every date the layout can express is parsed back from its formatted text. */
  lemma ParseFormat(t: Time)
    requires IsLayoutDate(t)
    ensures ParseDate(FormatDate(t)) == Some(t)
  {
    var s := FormatDate(t);
    var y, m, d := Pad4(t.year), Pad2(t.month), Pad2(t.day);
    assert s[0] == y[0] && s[1] == y[1] && s[2] == y[2] && s[3] == y[3];
    assert s[5] == m[0] && s[6] == m[1] && s[8] == d[0] && s[9] == d[1];
    Pad4Value(t.year);
    Pad2Value(t.month);
    Pad2Value(t.day);
  }

  lemma Pad4Value(n: int)
    requires 0 <= n <= 9999
    ensures var p := Pad4(n);
      1000 * DigitValue(p[0]) + 100 * DigitValue(p[1]) + 10 * DigitValue(p[2]) + DigitValue(p[3]) == n
  {
    DecimalDigits4(n);
  }

  lemma Pad2Value(n: int)
    requires 0 <= n <= 99
    ensures var p := Pad2(n); 10 * DigitValue(p[0]) + DigitValue(p[1]) == n
  {
  }

  /** The text is accepted exactly when it is the formatting of some expressible date. */
  lemma ParseAcceptsExactlyFormatted(s: string)
    ensures ParseDate(s).Some? <==> exists t :: IsLayoutDate(t) && FormatDate(t) == s
  {
    if ParseDate(s).Some? {
      FormatParse(s);
    }
    if exists t :: IsLayoutDate(t) && FormatDate(t) == s {
      var t :| IsLayoutDate(t) && FormatDate(t) == s;
      ParseFormat(t);
    }
  }

  /** Calendar edge cases: 30 February never exists; 29 February only in leap years; no short or padded forms. */
  lemma LayoutExamples()
    ensures ParseDate("2024-02-30") == None
    ensures ParseDate("2024-02-29") == Some(Time(2024, 2, 29, 0, 0, 0, 0))
    ensures ParseDate("1900-02-29") == None && ParseDate("2000-02-29").Some?
    ensures ParseDate("2020-13-01") == None && ParseDate("2020-01-00") == None
    ensures ParseDate("2020-1-01") == None && ParseDate("2020-01-01 ") == None
  {
  }
}
