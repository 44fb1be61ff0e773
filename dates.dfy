/**
 * Calendar helpers (lib/dates.ts) over an explicit proleptic Gregorian calendar, the calendar of
 * JavaScript's `Date`. A date is (year, month 1..12, day); `DayNumber` counts days from
 * 1970-01-01, which lets `setDate` overflow into neighbouring months the way `Date` does.
 */
module Dates {
  import opened Wrappers
  import opened Strings
  import opened Types

  datatype Date = Date(year: int, month: int, day: int) {
    predicate IsValid() {
      1 <= month <= 12 && 1 <= day <= DaysInMonth(year, month)
    }
  }

  /** What a `Date` object holds: always a real calendar day. */
  type JsDate = d: Date | d.IsValid() witness Date(1970, 1, 1)

  predicate IsLeapYear(y: int) {
    y % 4 == 0 && (y % 100 != 0 || y % 400 == 0)
  }

  function DaysInMonth(y: int, m: int): (r: int)
    requires 1 <= m <= 12
    ensures 28 <= r <= 31
  {
    if m == 2 then (if IsLeapYear(y) then 29 else 28)
    else if m == 4 || m == 6 || m == 9 || m == 11 then 30
    else 31
  }

  function DaysInYear(y: int): int {
    if IsLeapYear(y) then 366 else 365
  }

  /** Days from 1970-01-01 to the first of January of `y` (negative before 1970). */
  function DaysBeforeYear(y: int): int
    decreases if y >= 1970 then y - 1970 else 1970 - y
  {
    if y == 1970 then 0
    else if y > 1970 then DaysBeforeYear(y - 1) + DaysInYear(y - 1)
    else DaysBeforeYear(y + 1) - DaysInYear(y)
  }

  lemma DaysBeforeNextYear(y: int)
    ensures DaysBeforeYear(y + 1) == DaysBeforeYear(y) + DaysInYear(y)
  {
  }

  /**
   * Days from the first of January to the first of month `m`: 0, 31, 59, 90, ... (one more from
   * March on in a leap year), written as one formula rather than twelve cases.
   */
  function DaysBeforeMonth(y: int, m: int): int
    requires 1 <= m <= 12
  {
    (367 * m - 362) / 12 + (if m <= 2 then 0 else if IsLeapYear(y) then -1 else -2)
  }

  /** The day's position on the time line, in days since 1970-01-01. */
  function DayNumber(d: JsDate): int {
    DaysBeforeYear(d.year) + DaysBeforeMonth(d.year, d.month) + d.day - 1
  }

  /** `getDay()`: 0 for Sunday through 6 for Saturday; 1970-01-01 was a Thursday. */
  function Weekday(d: JsDate): (r: int)
    ensures 0 <= r < 7
  {
    (DayNumber(d) + 4) % 7
  }

  /** Calendar order on dates: by year, then month, then day. */
  predicate DateLe(a: Date, b: Date) {
    a.year < b.year || (a.year == b.year && (a.month < b.month || (a.month == b.month && a.day <= b.day)))
  }

  /** A year's days fit before the next year. */
  lemma DaysInYearFit(y: int, m: int)
    requires 1 <= m <= 12
    ensures DaysBeforeMonth(y, m) + DaysInMonth(y, m) <= DaysInYear(y)
  {
  }

  /** Later years start later, by at least the whole of the earlier year. */
  lemma {:induction false} DaysBeforeYearGrows(y1: int, y2: int)
    requires y1 < y2
    ensures DaysBeforeYear(y1) + DaysInYear(y1) <= DaysBeforeYear(y2)
    decreases y2 - y1
  {
    DaysBeforeNextYear(y1);
    if y1 + 1 < y2 {
      DaysBeforeYearGrows(y1 + 1, y2);
    }
  }

  /** Within a year, later months start after the earlier month has ended. */
  lemma DaysBeforeMonthGrows(y: int, m1: int, m2: int)
    requires 1 <= m1 < m2 <= 12
    ensures DaysBeforeMonth(y, m1) + DaysInMonth(y, m1) <= DaysBeforeMonth(y, m2)
  {
  }

  /** Comparing two `Date` objects, which compares their time values, is calendar order. */
  lemma DateLeIsTimeOrder(a: JsDate, b: JsDate)
    ensures DateLe(a, b) <==> DayNumber(a) <= DayNumber(b)
  {
    if a.year < b.year {
      DaysInYearFit(a.year, a.month);
      DaysBeforeYearGrows(a.year, b.year);
    } else if b.year < a.year {
      DaysInYearFit(b.year, b.month);
      DaysBeforeYearGrows(b.year, a.year);
    } else if a.month < b.month {
      DaysBeforeMonthGrows(a.year, a.month, b.month);
    } else if b.month < a.month {
      DaysBeforeMonthGrows(a.year, b.month, a.month);
    }
  }

  /** Each month starts where the previous one ends. */
  lemma DaysBeforeMonthStep(y: int, m: int)
    requires 2 <= m <= 12
    ensures DaysBeforeMonth(y, m) == DaysBeforeMonth(y, m - 1) + DaysInMonth(y, m - 1)
  {
  }

  function NextDay(d: JsDate): (r: JsDate)
    ensures DayNumber(r) == DayNumber(d) + 1
  {
    if d.day < DaysInMonth(d.year, d.month) then Date(d.year, d.month, d.day + 1)
    else if d.month < 12 then DaysBeforeMonthStep(d.year, d.month + 1); Date(d.year, d.month + 1, 1)
    else
      DaysBeforeNextYear(d.year);
      Date(d.year + 1, 1, 1)
  }

  function PrevDay(d: JsDate): (r: JsDate)
    ensures DayNumber(r) == DayNumber(d) - 1
  {
    if d.day > 1 then Date(d.year, d.month, d.day - 1)
    else if d.month > 1 then
      DaysBeforeMonthStep(d.year, d.month);
      Date(d.year, d.month - 1, DaysInMonth(d.year, d.month - 1))
    else
      DaysBeforeNextYear(d.year - 1);
      Date(d.year - 1, 12, 31)
  }

  /** The day `k` days after `d` (before it when `k` is negative). */
  function AddDays(d: JsDate, k: int): (r: JsDate)
    ensures DayNumber(r) == DayNumber(d) + k
    decreases if k >= 0 then k else -k
  {
    if k == 0 then d
    else if k > 0 then AddDays(NextDay(d), k - 1)
    else AddDays(PrevDay(d), k + 1)
  }

  /** Moving forward inside a month only changes the day. */
  lemma {:induction false} AddDaysWithinMonth(d: JsDate, k: nat)
    requires d.day + k <= DaysInMonth(d.year, d.month)
    ensures AddDays(d, k) == Date(d.year, d.month, d.day + k)
    decreases k
  {
    if k > 0 {
      AddDaysWithinMonth(NextDay(d), k - 1);
    }
  }

  /** The year the `Date` constructor uses: years 0 to 99 mean 1900 to 1999. */
  function FullYear(y: int): (r: int)
    ensures !(0 <= r <= 99)
    ensures !(0 <= y <= 99) ==> r == y
    ensures 0 <= y <= 99 ==> 1900 <= r <= 1999 && r % 100 == y
  {
    if 0 <= y <= 99 then 1900 + y else y
  }

  /** Months counted from January of year 0, so that consecutive months differ by one. */
  function MonthIndex(d: JsDate): int {
    d.year * 12 + d.month - 1
  }

  /** The first of the month `m0` months (zero-based) after January of `fy`. */
  function MonthStart(fy: int, m0: int): (r: JsDate)
    ensures r.day == 1 && MonthIndex(r) == fy * 12 + m0
    ensures 0 <= m0 < 12 ==> r == Date(fy, m0 + 1, 1)
  {
    Date(fy + m0 / 12, m0 % 12 + 1, 1)
  }

  /**
   * `new Date(y, m0, day)` with a zero-based month: the month and then the day may overflow
   * into later or earlier months and years.
   */
  function JsNewDate(y: int, m0: int, day: int): (r: JsDate)
    ensures 0 <= m0 < 12 && 1 <= day <= DaysInMonth(FullYear(y), m0 + 1) ==> r == Date(FullYear(y), m0 + 1, day)
    ensures day == 1 ==> r.day == 1 && MonthIndex(r) == FullYear(y) * 12 + m0
  {
    var first := MonthStart(FullYear(y), m0);
    if day == 1 then
      first
    else if 0 <= m0 < 12 && 1 <= day <= DaysInMonth(FullYear(y), m0 + 1) then
      AddDaysWithinMonth(first, day - 1);
      AddDays(first, day - 1)
    else
      AddDays(first, day - 1)
  }

  /** `d.setDate(n)`: day `n` of d's month, overflowing the same way; the year is kept as is. */
  function SetDate(d: JsDate, n: int): (r: JsDate)
    ensures DayNumber(r) == DayNumber(d) - d.day + n
    ensures 1 <= n <= DaysInMonth(d.year, d.month) ==> r == Date(d.year, d.month, n)
  {
    var first: JsDate := Date(d.year, d.month, 1);
    if 1 <= n <= DaysInMonth(d.year, d.month) then
      AddDaysWithinMonth(first, n - 1);
      AddDays(first, n - 1)
    else
      AddDays(first, n - 1)
  }

  /** `startOfMonth(d)`: day 1 of d's month. */
  function StartOfMonth(d: JsDate): (r: JsDate)
    ensures r == Date(FullYear(d.year), d.month, 1)
  {
    JsNewDate(d.year, d.month - 1, 1)
  }

  /** `endOfMonth(d)`: day 0 of the next month, which is the last day of d's month. */
  function EndOfMonth(d: JsDate): (r: JsDate)
    ensures r == Date(FullYear(d.year), d.month, DaysInMonth(FullYear(d.year), d.month))
  {
    var fy := FullYear(d.year);
    var first: JsDate := Date(fy + d.month / 12, d.month % 12 + 1, 1);
    assert AddDays(first, -1) == PrevDay(first);
    JsNewDate(d.year, d.month, 0)
  }

  /** Stepping back by the source's `diff` from any weekday lands on a Monday 0 to 6 days earlier. */
  lemma MondayStep(n: int)
    ensures var day := (n + 4) % 7;
            var diff := (if day == 0 then -6 else 1) - day;
            -6 <= diff <= 0 && (n + diff + 4) % 7 == 1
  {
    var day := (n + 4) % 7;
    var q := (n + 4) / 7;
    assert n + 4 == 7 * q + day;
    var diff := (if day == 0 then -6 else 1) - day;
    assert n + diff + 4 == 7 * (if day == 0 then q - 1 else q) + 1;
  }

  /** Moving x by the source's `diff` lands on the Monday 0 to 6 days before it. */
  lemma MondayOf(x: JsDate)
    ensures var day := Weekday(x);
            var r := SetDate(x, x.day + ((if day == 0 then -6 else 1) - day));
            Weekday(r) == 1 && DayNumber(x) - 6 <= DayNumber(r) <= DayNumber(x)
  {
    MondayStep(DayNumber(x));
  }

  /** Rebuilding a date from its own fields gives it back, outside the years 0 to 99. */
  lemma JsNewDateOfDate(d: JsDate)
    requires !(0 <= d.year <= 99)
    ensures JsNewDate(d.year, d.month - 1, d.day) == d
  {
  }

  /** `x.setDate(x.getDate() + diff)`: the Monday on or before x. */
  function MondayOnOrBefore(x: JsDate): (r: JsDate)
    ensures Weekday(r) == 1 && DayNumber(x) - 6 <= DayNumber(r) <= DayNumber(x)
  {
    var day := Weekday(x);
    var diff := (if day == 0 then -6 else 1) - day;   // move back to Monday
    MondayOf(x);
    SetDate(x, x.day + diff)
  }

  /** `startOfWeekMonday(d)`: the Monday of d's week, weeks running Monday to Sunday. */
  function StartOfWeekMonday(d: JsDate): (r: JsDate)
    ensures Weekday(r) == 1
    ensures !(0 <= d.year <= 99) ==> DayNumber(d) - 6 <= DayNumber(r) <= DayNumber(d)
    ensures var x := JsNewDate(d.year, d.month - 1, d.day);
            DayNumber(x) - 6 <= DayNumber(r) <= DayNumber(x)
  {
    var x := JsNewDate(d.year, d.month - 1, d.day);
    if !(0 <= d.year <= 99) then JsNewDateOfDate(d); MondayOnOrBefore(x)
    else MondayOnOrBefore(x)
  }

  /** `clampNonNeg(n)`: n when finite and non-negative, otherwise 0. */
  function ClampNonNeg(n: Num): (r: real)
    ensures r >= 0.0
    ensures n.Finite? && n.value >= 0.0 ==> r == n.value
    ensures !n.Finite? ==> r == 0.0
    ensures n.Finite? && n.value < 0.0 ==> r == 0.0
  {
    if n.Finite? then Max(0.0, n.value) else 0.0
  }

  /** `monthKey(d)`: `YYYY-MM` for d's year and month. */
  function MonthKey(d: JsDate): (r: string)
    ensures |r| >= 4 && r[..|r| - 3] == IntToString(d.year)
    ensures r[|r| - 3] == '-' && r[|r| - 2..] == Pad2(d.month)
  {
    var y, mm := IntToString(d.year), Pad2(d.month);
    var r := y + "-" + mm;
    assert r[..|r| - 3] == y && r[|r| - 2..] == mm;
    r
  }

  /**
   * `parseMonthKey(key)`: split at '-', read year and month with `parseInt`, default a missing
   * or zero month to January, and build day 1 of that month. None stands for the invalid `Date`
   * that a year which is not a number produces.
   */
  function ParseMonthKey(key: string): (r: Option<JsDate>)
    ensures r.None? <==> ParseInt(Split(key, '-')[0]).None?
    ensures r.Some? ==> r.value.day == 1
    ensures r.Some? ==>
              var parts := Split(key, '-');
              var fy := FullYear(ParseInt(parts[0]).value);
              var mm := if |parts| > 1 then ParseInt(parts[1]) else None;
              && (mm.None? || mm == Some(0) ==> r.value == Date(fy, 1, 1))
              && (mm.Some? && mm.value != 0 ==> MonthIndex(r.value) == fy * 12 + mm.value - 1)
  {
    var parts := Split(key, '-');
    var yy := ParseInt(parts[0]);
    var mm := if |parts| > 1 then ParseInt(parts[1]) else None;
    var month := match mm case Some(v) => (if v != 0 then v else 1) case None => 1;   // mm || 1
    match yy
    case None => None
    case Some(y) =>
      Some(JsNewDate(y, month - 1, 1))
  }

  /** A key without a month piece, such as "2026", is January of that year. */
  lemma YearOnlyKey(ds: string)
    requires ds != [] && AllDigits(ds)
    ensures ParseMonthKey(ds) == Some(Date(FullYear(ParseDigits(ds)), 1, 1))
  {
    assert '-' !in ds by {
      forall i | 0 <= i < |ds| ensures ds[i] != '-' { assert IsDigit(ds[i]); }
    }
    SplitNone(ds, '-');
    ParseIntOfDigits(ds);
    var y := ParseDigits(ds);
    assert ParseInt(Split(ds, '-')[0]) == Some(y);
    assert JsNewDate(y, 0, 1) == MonthStart(FullYear(y), 0) == Date(FullYear(y), 1, 1);
  }

  /** A well-formed key: four digits not starting with 0, '-', and a month from 01 to 12. */
  predicate IsMonthKey(k: string) {
    IsYearMonthText(k) && k[0] != '0' && 1 <= ParseDigits(k[5..]) <= 12
  }

  /** A key of the shape `YYYY-MM` splits into its year and month digits. */
  lemma SplitYearMonth(k: string)
    requires IsYearMonthText(k)
    ensures Split(k, '-') == [k[..4], k[5..]]
  {
    assert k == k[..4] + ['-'] + k[5..];
    assert '-' !in k[..4] by {
      forall i | 0 <= i < 4 ensures k[..4][i] != '-' { assert IsDigit(k[..4][i]); }
    }
    assert '-' !in k[5..] by {
      forall i | 0 <= i < 2 ensures k[5..][i] != '-' { assert IsDigit(k[5..][i]); }
    }
    SplitAt(k[..4], '-', k[5..]);
    SplitNone(k[5..], '-');
  }

  /** Four digits that do not start with 0 make a value from 1000 to 9999. */
  lemma FourDigitYear(s: string)
    requires |s| == 4 && AllDigits(s) && s[0] != '0'
    ensures 1000 <= ParseDigits(s) <= 9999
  {
    var a := DigitValue(s[0]);
    assert s[..1][..0] == [];
    assert ParseDigits(s[..1]) == a;
    assert s[..2][..1] == s[..1];
    var b := ParseDigits(s[..2]);
    assert b == a * 10 + DigitValue(s[1]);
    assert 10 <= b <= 99;
    assert s[..3][..2] == s[..2];
    var c := ParseDigits(s[..3]);
    assert c == b * 10 + DigitValue(s[2]);
    assert 100 <= c <= 999;
    assert s[..3] == s[..|s| - 1];
    assert ParseDigits(s) == c * 10 + DigitValue(s[3]);
  }

  /** Parsing a well-formed key gives day 1 of that year and month. */
  lemma ParseWellFormedKey(k: string)
    requires IsMonthKey(k)
    ensures ParseMonthKey(k) == Some(Date(ParseDigits(k[..4]), ParseDigits(k[5..]), 1))
  {
    SplitYearMonth(k);
    var y, m := ParseDigits(k[..4]), ParseDigits(k[5..]);
    ParseIntOfDigits(k[..4]);
    ParseIntOfDigits(k[5..]);
    FourDigitYear(k[..4]);
    assert FullYear(y) == y;
    assert JsNewDate(y, m - 1, 1) == Date(y, m, 1);
  }

  /** `monthKey(parseMonthKey(k)) == k` for every well-formed key. */
  lemma MonthKeyRoundTrip(k: string)
    requires IsMonthKey(k)
    ensures ParseMonthKey(k).Some? && MonthKey(ParseMonthKey(k).value) == k
  {
    ParseWellFormedKey(k);
    NatToStringOfDigits(k[..4]);
    Pad2OfDigits(k[5..]);
    FourDigitYear(k[..4]);
    assert IntToString(ParseDigits(k[..4])) == k[..4];
    KeyPieces(k);
  }

  /**
   * The round trip fails for a year written with a leading zero: "0999-05" parses as year 999
   * and prints as "999-05", and "0050-05" parses as 1950, because `new Date` reads years 0 to 99
   * as 1900 to 1999.
   */
  lemma LeadingZeroYearBreaksRoundTrip(k: string)
    requires IsYearMonthText(k) && k[0] == '0' && 1 <= ParseDigits(k[5..]) <= 12
    ensures ParseMonthKey(k).Some? && MonthKey(ParseMonthKey(k).value) != k
  {
    SplitYearMonth(k);
    var y, m := ParseDigits(k[..4]), ParseDigits(k[5..]);
    ParseIntOfDigits(k[..4]);
    ParseIntOfDigits(k[5..]);
    var d := ParseMonthKey(k).value;
    assert d == Date(FullYear(y), m, 1);
  }

  /** A key is its year digits, the dash and its month digits. */
  lemma KeyPieces(k: string)
    requires IsMonthKey(k)
    ensures k == k[..4] + "-" + k[5..]
  {
    assert k[..4] + "-" + k[5..] == k[..4] + [k[4]] + k[5..];
    assert k[..4] + [k[4]] == k[..5];
  }

  /** `String(i)` reads back with `parseInt` as `i`, so different years print differently. */
  lemma IntToStringReadsBack(i: int)
    ensures ParseInt(IntToString(i)) == Some(i)
  {
    if i < 0 {
      ParseIntOfNegative(NatToString(-i));
    } else {
      ParseIntOfDigits(NatToString(i));
    }
  }

  /** `sameMonth(a, b)`: same year and same month. */
  predicate SameMonth(a: JsDate, b: JsDate) {
    a.year == b.year && a.month == b.month
  }

  /** Two dates are in the same month exactly when their month keys are equal. */
  lemma SameMonthIffSameKey(a: JsDate, b: JsDate)
    ensures SameMonth(a, b) <==> MonthKey(a) == MonthKey(b)
  {
    var ka, kb := MonthKey(a), MonthKey(b);
    if ka == kb {
      assert Pad2(a.month) == Pad2(b.month);
      assert a.month == b.month by {
        assert ParseDigits(Pad2(a.month)) == a.month && ParseDigits(Pad2(b.month)) == b.month;
      }
      assert IntToString(a.year) == IntToString(b.year);
      IntToStringInjective(a.year, b.year);
    }
  }

  /** Different integers print differently. */
  lemma IntToStringInjective(x: int, y: int)
    requires IntToString(x) == IntToString(y)
    ensures x == y
  {
    IntToStringReadsBack(x);
    IntToStringReadsBack(y);
  }
}
