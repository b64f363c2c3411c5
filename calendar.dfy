/** Calendar dates as the records store them (`YYYY-MM-DD`), their day numbers, and the
    `Math.ceil(ms / day)` difference between two of them.

    A date-only ISO string given to `new Date` denotes UTC midnight of that day, so its
    millisecond timestamp is its day number (days since 1970-01-01) times the length of a day. */
module Calendar {
  import opened Wrappers
  import opened Text
  import Numeric

  datatype Date = Date(year: int, month: int, day: int)

  predicate IsLeapYear(y: int)
  {
    y % 4 == 0 && (y % 100 != 0 || y % 400 == 0)
  }

  function DaysInMonth(y: int, m: int): (n: int)
    requires 1 <= m <= 12
    ensures 28 <= n <= 31
  {
    if m == 2 then (if IsLeapYear(y) then 29 else 28)
    else if m == 4 || m == 6 || m == 9 || m == 11 then 30
    else 31
  }

  /** A real Gregorian date with a four-digit year: what `YYYY-MM-DD` can name. */
  predicate ValidDate(d: Date)
  {
    0 <= d.year <= 9999 && 1 <= d.month <= 12 && 1 <= d.day <= DaysInMonth(d.year, d.month)
  }

  type CalendarDate = d: Date | ValidDate(d) witness Date(1970, 1, 1)

  /** Days from 1 March of the first year of a 400-year era to 1 March of the year `yoe`
      years later: 365 a year, plus a leap day every fourth year except every hundredth. */
  function EraDays(yoe: int): int
  {
    yoe * 365 + yoe / 4 - yoe / 100
  }

  /** Days from 1 March of year 0 (proleptic Gregorian) to 1 March of year `y`. */
  function MarchYearBase(y: int): int
  {
    (y / 400) * 146097 + EraDays(y % 400)
  }

  /** Days from 1 March to the first day of the month `mp` months later. */
  function MonthOffset(mp: int): int
    requires 0 <= mp < 12
  {
    (153 * mp + 2) / 5
  }

  /** Days since 1970-01-01 (days-from-civil). */
  function DayNumber(d: Date): int
    requires 1 <= d.month <= 12
  {
    var y := if d.month <= 2 then d.year - 1 else d.year;
    var mp := if d.month > 2 then d.month - 3 else d.month + 9;
    MarchYearBase(y) + MonthOffset(mp) + d.day - 1 - 719468
  }

  /** The calendar day after `d`. */
  function NextDay(d: CalendarDate): (n: Date)
    ensures 1 <= n.month <= 12 && 1 <= n.day <= DaysInMonth(n.year, n.month)
  {
    if d.day < DaysInMonth(d.year, d.month) then Date(d.year, d.month, d.day + 1)
    else if d.month < 12 then Date(d.year, d.month + 1, 1)
    else Date(d.year + 1, 1, 1)
  }

  /** Quotient and remainder by 4, 100 and 400, from their defining equation. */
  lemma DivMod4(a: int, q: int, r: int)
    requires a == 4 * q + r && 0 <= r < 4
    ensures a / 4 == q && a % 4 == r
  {
  }

  lemma DivMod100(a: int, q: int, r: int)
    requires a == 100 * q + r && 0 <= r < 100
    ensures a / 100 == q && a % 100 == r
  {
  }

  lemma DivMod400(a: int, q: int, r: int)
    requires a == 400 * q + r && 0 <= r < 400
    ensures a / 400 == q && a % 400 == r
  {
  }

  /** Whether a year is a leap year depends only on its year within the era. */
  lemma ModsOfEra(a: int, q: int, r: int)
    requires a == 400 * q + r && 0 <= r < 400
    ensures a % 4 == r % 4 && a % 100 == r % 100
  {
    DivMod4(a, 100 * q + r / 4, r % 4);
    DivMod100(a, 4 * q + r / 100, r % 100);
  }

  /** One more year adds one to the quotient by 4 exactly when it reaches a multiple of 4. */
  lemma NextQuotient4(r: int)
    requires 0 <= r
    ensures (r + 1) / 4 == r / 4 + (if (r + 1) % 4 == 0 then 1 else 0)
  {
    if r % 4 == 3 {
      DivMod4(r + 1, r / 4 + 1, 0);
    } else {
      DivMod4(r + 1, r / 4, r % 4 + 1);
    }
  }

  lemma NextQuotient100(r: int)
    requires 0 <= r
    ensures (r + 1) / 100 == r / 100 + (if (r + 1) % 100 == 0 then 1 else 0)
  {
    if r % 100 == 99 {
      DivMod100(r + 1, r / 100 + 1, 0);
    } else {
      DivMod100(r + 1, r / 100, r % 100 + 1);
    }
  }

  /** Within an era, one more year adds 365 days, plus one when the next year is a leap year
      of the era's count (every fourth, except every hundredth). */
  lemma YearOfEraLength(r: int)
    requires 0 <= r < 399
    ensures EraDays(r + 1) == EraDays(r) + 365 + (if (r + 1) % 4 == 0 && (r + 1) % 100 != 0 then 1 else 0)
  {
    NextQuotient4(r);
    NextQuotient100(r);
    if (r + 1) % 100 == 0 {
      DivMod4(r + 1, 25 * ((r + 1) / 100), 0);
    }
  }

  /** A leap year of the calendar is a leap year of its era's count, except a year that
      starts an era, which is always a leap year. */
  lemma LeapInEra(a: int, q: int, r: int)
    requires a == 400 * q + r && 0 <= r < 400
    ensures IsLeapYear(a) <==> r == 0 || (r % 4 == 0 && r % 100 != 0)
  {
    DivMod400(a, q, r);
    ModsOfEra(a, q, r);
  }

  /** A March-based year is 365 days long, 366 when the February it ends with has 29 days. */
  lemma MarchYearLength(y: int)
    ensures MarchYearBase(y + 1) == MarchYearBase(y) + (if IsLeapYear(y + 1) then 366 else 365)
  {
    var q, r := y / 400, y % 400;
    if r < 399 {
      DivMod400(y + 1, q, r + 1);
      LeapInEra(y + 1, q, r + 1);
      YearOfEraLength(r);
    } else {
      DivMod400(y + 1, q + 1, 0);
      LeapInEra(y + 1, q + 1, 0);
      assert EraDays(399) == 145731 && EraDays(0) == 0;
    }
  }

  /** Outside February, the next month starts a month's length after this one. */
  lemma MonthOffsetStep(y: int, m: int)
    requires 1 <= m <= 12 && m != 2
    ensures var mp := if m > 2 then m - 3 else m + 9;
      mp < 11 && MonthOffset(mp + 1) == MonthOffset(mp) + DaysInMonth(y, m)
  {
    if m == 1 {
      assert MonthOffset(10) == 306 && MonthOffset(11) == 337;
    } else if m == 3 {
      assert MonthOffset(0) == 0 && MonthOffset(1) == 31;
    } else if m == 4 {
      assert MonthOffset(1) == 31 && MonthOffset(2) == 61;
    } else if m == 5 {
      assert MonthOffset(2) == 61 && MonthOffset(3) == 92;
    } else if m == 6 {
      assert MonthOffset(3) == 92 && MonthOffset(4) == 122;
    } else if m == 7 {
      assert MonthOffset(4) == 122 && MonthOffset(5) == 153;
    } else if m == 8 {
      assert MonthOffset(5) == 153 && MonthOffset(6) == 184;
    } else if m == 9 {
      assert MonthOffset(6) == 184 && MonthOffset(7) == 214;
    } else if m == 10 {
      assert MonthOffset(7) == 214 && MonthOffset(8) == 245;
    } else if m == 11 {
      assert MonthOffset(8) == 245 && MonthOffset(9) == 275;
    } else {
      assert MonthOffset(9) == 275 && MonthOffset(10) == 306;
    }
  }

  /** The day after the last of February is 1 March, which starts the next March-based year. */
  lemma NextDayAfterFebruary(d: CalendarDate)
    requires d.month == 2 && d.day == DaysInMonth(d.year, 2)
    ensures NextDay(d) == Date(d.year, 3, 1)
    ensures DayNumber(Date(d.year, 3, 1)) == DayNumber(d) + 1
  {
    MarchYearLength(d.year - 1);
    assert MonthOffset(11) == 337 && MonthOffset(0) == 0;
  }

  /** The day after the last of another month is the first of the next month. */
  lemma NextDayAfterMonthEnd(d: CalendarDate)
    requires d.month != 2 && d.day == DaysInMonth(d.year, d.month)
    ensures DayNumber(NextDay(d)) == DayNumber(d) + 1
  {
    MonthOffsetStep(d.year, d.month);
  }

  /** Day numbers count days: the next calendar day has the next day number. */
  lemma {:induction false} DayNumberNextDay(d: CalendarDate)
    ensures DayNumber(NextDay(d)) == DayNumber(d) + 1
  {
    if d.day < DaysInMonth(d.year, d.month) {
    } else if d.month == 2 {
      NextDayAfterFebruary(d);
    } else {
      NextDayAfterMonthEnd(d);
    }
  }

  /** 1970-01-01 is day zero. */
  lemma EpochIsDayZero()
    ensures DayNumber(Date(1970, 1, 1)) == 0
  {
  }

  const MsPerDay: int := 1000 * 60 * 60 * 24

  /** `new Date(iso).getTime()` for a date-only string: UTC midnight. */
  function EpochMs(d: CalendarDate): int
  {
    DayNumber(d) * MsPerDay
  }

  /** `Math.ceil((b.getTime() - a.getTime()) / (1000 * 60 * 60 * 24))`. */
  function DaysDelta(a: CalendarDate, b: CalendarDate): int
  {
    Numeric.CeilDiv(EpochMs(b) - EpochMs(a), MsPerDay)
  }

  /** Both timestamps are midnights, so the ceiling is the exact day difference. */
  lemma DaysDeltaExact(a: CalendarDate, b: CalendarDate)
    ensures DaysDelta(a, b) == DayNumber(b) - DayNumber(a)
  {
    assert EpochMs(b) - EpochMs(a) == (DayNumber(b) - DayNumber(a)) * MsPerDay;
    Numeric.CeilDivExact(DayNumber(b) - DayNumber(a), MsPerDay);
  }

  function Pad2(n: nat): (s: string)
    requires n < 100
    ensures |s| == 2
  {
    [DigitChar(n / 10), DigitChar(n % 10)]
  }

  function Pad4(n: nat): (s: string)
    requires n < 10000
    ensures |s| == 4
  {
    Pad2(n / 100) + Pad2(n % 100)
  }

  /** The `YYYY-MM-DD` text a record stores for a date. */
  function ToIso(d: CalendarDate): (s: string)
    ensures |s| == 10 && s[4] == '-' && s[7] == '-'
  {
    Pad4(d.year) + "-" + Pad2(d.month) + "-" + Pad2(d.day)
  }

  predicate IsoShape(s: string)
  {
    |s| == 10 && s[4] == '-' && s[7] == '-'
    && IsDigit(s[0]) && IsDigit(s[1]) && IsDigit(s[2]) && IsDigit(s[3])
    && IsDigit(s[5]) && IsDigit(s[6]) && IsDigit(s[8]) && IsDigit(s[9])
  }

  function Digits2(a: char, b: char): (n: nat)
    requires IsDigit(a) && IsDigit(b)
    ensures n < 100
  {
    10 * DigitValue(a) + DigitValue(b)
  }

  /** Reads a `YYYY-MM-DD` string; anything else, or an impossible date, is `None`. */
  function ParseIso(s: string): Option<CalendarDate>
  {
    if !IsoShape(s) then None
    else
      var d := Date(100 * Digits2(s[0], s[1]) + Digits2(s[2], s[3]), Digits2(s[5], s[6]), Digits2(s[8], s[9]));
      if ValidDate(d) then Some(d) else None
  }

  lemma DivMod10(a: int, q: int, r: int)
    requires a == 10 * q + r && 0 <= r < 10
    ensures a / 10 == q && a % 10 == r
  {
  }

  lemma Pad2Reads(n: nat)
    requires n < 100
    ensures Digits2(Pad2(n)[0], Pad2(n)[1]) == n
  {
    assert DigitValue(DigitChar(n / 10)) == n / 10 && DigitValue(DigitChar(n % 10)) == n % 10;
  }

  lemma Pad4Reads(n: nat)
    requires n < 10000
    ensures 100 * Digits2(Pad4(n)[0], Pad4(n)[1]) + Digits2(Pad4(n)[2], Pad4(n)[3]) == n
  {
    var s := Pad4(n);
    Pad2Reads(n / 100);
    Pad2Reads(n % 100);
    assert s[0] == Pad2(n / 100)[0] && s[1] == Pad2(n / 100)[1];
    assert s[2] == Pad2(n % 100)[0] && s[3] == Pad2(n % 100)[1];
  }

  /** Reading a printed date gives the date back. */
  lemma ParsePrinted(d: CalendarDate)
    ensures ParseIso(ToIso(d)) == Some(d)
  {
    var s := ToIso(d);
    assert s[0..4] == Pad4(d.year) && s[5..7] == Pad2(d.month) && s[8..10] == Pad2(d.day);
    Pad4Reads(d.year);
    Pad2Reads(d.month);
    Pad2Reads(d.day);
  }

  lemma Digits2Prints(a: char, b: char)
    requires IsDigit(a) && IsDigit(b)
    ensures Pad2(Digits2(a, b)) == [a, b]
  {
    DivMod10(Digits2(a, b), DigitValue(a), DigitValue(b));
  }

  lemma Digits4Prints(a: char, b: char, c: char, e: char)
    requires IsDigit(a) && IsDigit(b) && IsDigit(c) && IsDigit(e)
    ensures Pad4(100 * Digits2(a, b) + Digits2(c, e)) == [a, b, c, e]
  {
    DivMod100(100 * Digits2(a, b) + Digits2(c, e), Digits2(a, b), Digits2(c, e));
    Digits2Prints(a, b);
    Digits2Prints(c, e);
  }

  /** A string that reads as a date is exactly that date's printed form. */
  lemma PrintParsed(s: string)
    requires ParseIso(s).Some?
    ensures ToIso(ParseIso(s).value) == s
  {
    var d := ParseIso(s).value;
    Digits2Prints(s[5], s[6]);
    Digits2Prints(s[8], s[9]);
    Digits4Prints(s[0], s[1], s[2], s[3]);
    assert ToIso(d) == s[0..4] + "-" + s[5..7] + "-" + s[8..10];
  }
}
