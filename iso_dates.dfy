/** Calendar days written as `YYYY-MM-DD`, the form every transaction date in the dashboard
    takes. `parseISO` (date-fns) and `new Date` read such a string as one instant of that
    day; the model reads it as the day key Y*10000 + M*100 + D, which grows strictly with
    the day, so comparing keys compares the instants. */
module IsoDates {
  import opened Lists
  import opened Text

  predicate IsLeapYear(y: int)
  {
    y % 4 == 0 && (y % 100 != 0 || y % 400 == 0)
  }

  function DaysInMonth(y: int, m: int): (n: int)
    requires 1 <= m <= 12
    ensures 28 <= n <= 31
    ensures m == 2 ==> (n == 29 <==> IsLeapYear(y))
  {
    if m == 2 then (if IsLeapYear(y) then 29 else 28)
    else if m == 4 || m == 6 || m == 9 || m == 11 then 30
    else 31
  }

  predicate ValidDay(y: int, m: int, d: int)
  {
    1 <= m <= 12 && 1 <= d <= DaysInMonth(y, m)
  }

  function DayKey(y: int, m: int, d: int): int
  {
    y * 10000 + m * 100 + d
  }

  /** The layout `dddd-dd-dd`. */
  predicate IsoShape(s: string)
  {
    |s| == 10 && s[4] == '-' && s[7] == '-'
    && AllDigits(s[..4]) && AllDigits(s[5..7]) && AllDigits(s[8..])
  }

  /** The eight digits of a `dddd-dd-dd` string, dashes dropped. */
  function DigitsOf(s: string): string
    requires IsoShape(s)
  {
    s[..4] + s[5..7] + s[8..]
  }

  /** `parseISO` on a date-only string: the day key, or `None` for an Invalid Date (wrong
      layout, month outside 1..12, or a day the month does not have). */
  function ParseIsoDay(s: string): (r: Option<int>)
    ensures r.Some? ==> IsoShape(s)
  {
    if IsoShape(s) then
      var y, m, d := DigitsValue(s[..4]), DigitsValue(s[5..7]), DigitsValue(s[8..]);
      if ValidDay(y, m, d) then Some(DayKey(y, m, d)) else None
    else None
  }

  /** The key of a valid date is the number its eight digits spell. */
  lemma ParsedKeyIsDigits(s: string)
    requires ParseIsoDay(s).Some?
    ensures AllDigits(DigitsOf(s))
    ensures ParseIsoDay(s).value == DigitsValue(DigitsOf(s))
  {
    var a, b, c := s[..4], s[5..7], s[8..];
    DigitsValueConcat(a, b);
    DigitsValueConcat(a + b, c);
    assert Pow10(2) == 100;
    assert Pow10(2) * Pow10(2) == 10000;
  }

  /** Dropping a character both strings have at the same position does not change how they
      compare. */
  lemma LexLeDropCommon(p: string, c: char, x: string, q: string, y: string)
    requires |p| == |q|
    ensures LexLe(p + [c] + x, q + [c] + y) <==> LexLe(p + x, q + y)
  {
    assert p + [c] + x == p + ([c] + x);
    assert q + [c] + y == q + ([c] + y);
    LexLeConcat(p, [c] + x, q, [c] + y);
    LexLeConcat(p, x, q, y);
    LexLeConcat([c], x, [c], y);
  }

  lemma LexLeIgnoresDashes(a: string, b: string)
    requires IsoShape(a) && IsoShape(b)
    ensures LexLe(a, b) <==> LexLe(DigitsOf(a), DigitsOf(b))
  {
    assert a == a[..4] + ['-'] + (a[5..7] + ['-'] + a[8..]);
    assert b == b[..4] + ['-'] + (b[5..7] + ['-'] + b[8..]);
    LexLeDropCommon(a[..4], '-', a[5..7] + ['-'] + a[8..], b[..4], b[5..7] + ['-'] + b[8..]);
    assert a[..4] + (a[5..7] + ['-'] + a[8..]) == a[..4] + a[5..7] + ['-'] + a[8..];
    assert b[..4] + (b[5..7] + ['-'] + b[8..]) == b[..4] + b[5..7] + ['-'] + b[8..];
    LexLeDropCommon(a[..4] + a[5..7], '-', a[8..], b[..4] + b[5..7], b[8..]);
  }

  /** For two valid dates, JavaScript's string comparison orders them as the calendar does,
      so sorting the date column as text sorts it chronologically. */
  lemma StringOrderIsChronological(a: string, b: string)
    requires ParseIsoDay(a).Some? && ParseIsoDay(b).Some?
    ensures LexLe(a, b) <==> ParseIsoDay(a).value <= ParseIsoDay(b).value
  {
    ParsedKeyIsDigits(a);
    ParsedKeyIsDigits(b);
    LexLeIgnoresDashes(a, b);
    DigitsOrder(DigitsOf(a), DigitsOf(b));
  }

  /** Two valid date strings with the same key are the same string. */
  lemma DayKeyInjective(a: string, b: string)
    requires ParseIsoDay(a).Some? && ParseIsoDay(b).Some?
    requires ParseIsoDay(a).value == ParseIsoDay(b).value
    ensures a == b
  {
    StringOrderIsChronological(a, b);
    StringOrderIsChronological(b, a);
    LexLeAntisymmetric(a, b);
  }

  /** The decimal digits of `n`, zero-padded on the left to `width` (date-fns `yyyy`, `MM`,
      `dd`). */
  function FixedDigits(n: nat, width: nat): (r: string)
    requires n < Pow10(width)
    ensures |r| == width && AllDigits(r)
    ensures DigitsValue(r) == n
  {
    if width == 0 then []
    else
      var r := FixedDigits(n / 10, width - 1) + [DigitChar(n % 10)];
      assert r[..|r| - 1] == FixedDigits(n / 10, width - 1);
      r
  }

  function IsoDayText(y: nat, m: nat, d: nat): (s: string)
    requires y < 10000 && m < 100 && d < 100
  {
    FixedDigits(y, 4) + "-" + FixedDigits(m, 2) + "-" + FixedDigits(d, 2)
  }

  /** Writing a valid day as `yyyy-MM-dd` and parsing it gives back its key. */
  lemma ParseIsoDayText(y: nat, m: nat, d: nat)
    requires y < 10000 && ValidDay(y, m, d)
    ensures ParseIsoDay(IsoDayText(y, m, d)) == Some(DayKey(y, m, d))
  {
    assert Pow10(2) == 100 && Pow10(4) == 10000;
    var s := IsoDayText(y, m, d);
    var a, b, c := FixedDigits(y, 4), FixedDigits(m, 2), FixedDigits(d, 2);
    assert s == a + "-" + b + "-" + c;
    assert s[..4] == a && s[5..7] == b && s[8..] == c;
    assert s[4] == '-' && s[7] == '-';
  }
}
