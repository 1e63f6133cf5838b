/**
 UTC date formatting: apps/tersa/src/dates.rs, proved to print the proleptic Gregorian
 calendar.

 The code works in 64-bit integers, so it is written here over `i64`: Dafny then proves
 that no intermediate value leaves the 64-bit range.  The calendar it is compared with
 (month lengths of section 5.7 and leap rule of Appendix C of RFC 3339) is written over
 unbounded integers.
 */
module Dates {
  newtype i64 = x: int | -0x8000_0000_0000_0000 <= x < 0x8000_0000_0000_0000

  datatype Date = Date(year: int, month: int, day: int)

  datatype Stamp = Stamp(date: Date, hour: int, minute: int)

  // ----- The reference calendar -----

  predicate IsLeap(year: int) {
    year % 4 == 0 && (year % 100 != 0 || year % 400 == 0)
  }

  function MonthLength(year: int, month: int): int {
    if month == 2 then (if IsLeap(year) then 29 else 28)
    else if month in {4, 6, 9, 11} then 30
    else 31
  }

  predicate ValidDate(date: Date) {
    1 <= date.month <= 12 && 1 <= date.day <= MonthLength(date.year, date.month)
  }

  /** The calendar day after `date`. */
  function NextDay(date: Date): Date {
    if date.day < MonthLength(date.year, date.month) then date.(day := date.day + 1)
    else if date.month < 12 then Date(date.year, date.month + 1, 1)
    else Date(date.year + 1, 1, 1)
  }

  /** Days from 1970-01-01 to the first of January of `year`. */
  function DaysBeforeYear(year: int): int {
    365 * (year - 1) + (year - 1) / 4 - (year - 1) / 100 + (year - 1) / 400 - 719_162
  }

  function DaysBeforeMonth(year: int, month: int): int
    requires 1 <= month
    decreases month
  {
    if month == 1 then 0 else DaysBeforeMonth(year, month - 1) + MonthLength(year, month - 1)
  }

  /** Days from 1970-01-01 to `date`: the inverse of the code's conversion. */
  function DayNumber(date: Date): int
    requires ValidDate(date)
  {
    DaysBeforeYear(date.year) + DaysBeforeMonth(date.year, date.month) + date.day - 1
  }

  // ----- The code -----

  /** `civil_from_days`: the date of the day `days` after 1970-01-01. */
  function CivilFromDays(days: i64): Date
    requires days as int + 719_468 < 0x8000_0000_0000_0000
  {
    var shifted := days + 719_468;
    var era := shifted / 146_097;
    var dayOfEra := shifted % 146_097;
    var yearOfEra := (dayOfEra - dayOfEra / 1460 + dayOfEra / 36_524 - dayOfEra / 146_096) / 365;
    var dayOfYear := dayOfEra - (365 * yearOfEra + yearOfEra / 4 - yearOfEra / 100);
    var monthIndex := (5 * dayOfYear + 2) / 153;
    var day := dayOfYear - (153 * monthIndex + 2) / 5 + 1;
    var month := if monthIndex < 10 then monthIndex + 3 else monthIndex - 9;
    var year := yearOfEra + era * 400 + (if month <= 2 then 1 else 0);
    Date(year as int, month as int, day as int)
  }

  /** The five numbers `format_utc` prints; defined for every 64-bit instant. */
  function Fields(millis: i64): Stamp {
    var seconds := millis / 1000;
    var days := seconds / 86_400;
    var secondOfDay := seconds % 86_400;
    Stamp(CivilFromDays(days), (secondOfDay / 3600) as int, (secondOfDay % 3600 / 60) as int)
  }

  function FormatUtc(millis: i64): string {
    Text(Fields(millis))
  }

  /** `YYYY-MM-DD HH:MM`. */
  function Text(stamp: Stamp): string {
    Padded(stamp.date.year, 4) + "-" + Padded(stamp.date.month, 2) + "-" + Padded(stamp.date.day, 2)
    + " " + Padded(stamp.hour, 2) + ":" + Padded(stamp.minute, 2)
  }

  /** Decimal text padded with zeros to `width`, the sign counting towards the width. */
  function Padded(value: int, width: nat): string {
    if value < 0 then "-" + ZeroFill(Digits(-value), width - 1) else ZeroFill(Digits(value), width)
  }

  function Digits(n: nat): string {
    if n < 10 then ['0' + n as char] else Digits(n / 10) + ['0' + (n % 10) as char]
  }

  function ZeroFill(text: string, width: int): string
    decreases width - |text|
  {
    if |text| >= width then text else ZeroFill("0" + text, width)
  }

  // ----- The year of an era -----

  /** The first day of year `y` of a 400-year era whose years begin on 1 March. */
  function YearStart(y: int): int {
    365 * y + y / 4 - y / 100
  }

  /** The length of year `y` of an era; the last one ends with the era's leap day. */
  function YearDays(y: int): int {
    if y < 399 then YearStart(y + 1) - YearStart(y) else 366
  }

  function YearOfEra(dayOfEra: int): int {
    (dayOfEra - dayOfEra / 1460 + dayOfEra / 36_524 - dayOfEra / 146_096) / 365
  }

  /** Within century `c`, for day `r` of that century. */
  lemma YearOfCentury(c: int, r: int) returns (u: int)
    requires 0 <= c <= 3 && 0 <= r < 36_524
    ensures u == (r - (24 * c + r) / 1460) / 365
    ensures 0 <= u < 100
    ensures 365 * u + u / 4 <= r
    ensures u == 99 || r < 365 * (u + 1) + (u + 1) / 4
  {
    var k, s := r / 1461, r % 1461;
    var v := if 24 * c + k + s >= 1460 then 1 else 0;
    assert (24 * c + r) / 1460 == k + v;
    var w := if s < 365 then 0 else if s < 730 then 1 else if s < 1095 then 2 else 3;
    u := 4 * k + w;
    assert 365 * u <= r - (k + v) < 365 * (u + 1);
  }

  /** The code's four-term division picks exactly the year whose span holds the day. */
  lemma YearOfEraSpan(doe: int)
    requires 0 <= doe < 146_097
    ensures var y := YearOfEra(doe);
      0 <= y < 400 && YearStart(y) <= doe < YearStart(y) + YearDays(y)
  {
    if doe < 146_096 {
      var c, r := doe / 36_524, doe % 36_524;
      var u := YearOfCentury(c, r);
      assert doe / 1460 == 25 * c + (24 * c + r) / 1460;
      assert YearOfEra(doe) == 100 * c + u;
      assert (100 * c + u) / 4 == 25 * c + u / 4;
      assert (100 * c + u) / 100 == c;
      assert (100 * c + u + 1) / 4 == 25 * c + (u + 1) / 4;
    }
  }

  // ----- The calendar -----

  lemma YearLength(year: int)
    ensures DaysBeforeYear(year + 1) == DaysBeforeYear(year) + (if IsLeap(year) then 366 else 365)
  {
    assert year / 4 - (year - 1) / 4 == (if year % 4 == 0 then 1 else 0);
    assert year / 100 - (year - 1) / 100 == (if year % 100 == 0 then 1 else 0);
    assert year / 400 - (year - 1) / 400 == (if year % 400 == 0 then 1 else 0);
    MultiplesOfHundred(year);
  }

  lemma MultiplesOfHundred(year: int)
    ensures year % 400 == 0 ==> year % 100 == 0
    ensures year % 100 == 0 ==> year % 4 == 0
  {
    assert year == 400 * (year / 400) + year % 400;
    if year % 400 == 0 {
      assert year == 100 * (4 * (year / 400));
    }
    if year % 100 == 0 {
      assert year == 4 * (25 * (year / 100));
    }
  }

  lemma {:induction false} YearsInOrder(a: int, b: int)
    requires a < b
    ensures DaysBeforeYear(a + 1) <= DaysBeforeYear(b)
    decreases b - a
  {
    if a + 1 < b {
      YearLength(a + 1);
      YearsInOrder(a + 1, b);
    }
  }

  /** The length of the months before `month`, spelled out. */
  lemma MonthStarts(year: int, month: int)
    requires 1 <= month <= 12
    ensures var leap := if IsLeap(year) then 1 else 0;
      DaysBeforeMonth(year, month) ==
        (if month == 1 then 0 else if month == 2 then 31
         else 59 + leap + (153 * (month - 3) + 2) / 5)
  {
    if month > 1 {
      MonthStarts(year, month - 1);
    }
  }

  lemma {:induction false} MonthsInOrder(year: int, a: int, b: int)
    requires 1 <= a < b
    ensures DaysBeforeMonth(year, a) + MonthLength(year, a) <= DaysBeforeMonth(year, b)
    decreases b
  {
    if a + 1 < b {
      MonthsInOrder(year, a, b - 1);
    }
  }

  lemma MonthEnds(year: int, month: int, day: int)
    requires ValidDate(Date(year, month, day))
    ensures DaysBeforeMonth(year, month) + day <= (if IsLeap(year) then 366 else 365)
  {
    MonthStarts(year, month);
  }

  predicate Before(a: Date, b: Date) {
    a.year < b.year
    || (a.year == b.year && (a.month < b.month || (a.month == b.month && a.day < b.day)))
  }

  /** Later dates have larger day numbers, so a day number names one date only. */
  lemma DayNumberOrders(a: Date, b: Date)
    requires ValidDate(a) && ValidDate(b) && Before(a, b)
    ensures DayNumber(a) < DayNumber(b)
  {
    if a.year < b.year {
      MonthEnds(a.year, a.month, a.day);
      YearLength(a.year);
      YearsInOrder(a.year, b.year);
      MonthStarts(b.year, b.month);
    } else if a.month < b.month {
      MonthsInOrder(a.year, a.month, b.month);
    }
  }

  lemma DayNumberIsInjective(a: Date, b: Date)
    requires ValidDate(a) && ValidDate(b) && DayNumber(a) == DayNumber(b)
    ensures a == b
  {
    if Before(a, b) {
      DayNumberOrders(a, b);
    } else if Before(b, a) {
      DayNumberOrders(b, a);
    }
  }

  /** The next day of a valid date is valid and numbered one higher. */
  lemma NextDayNumber(date: Date)
    requires ValidDate(date)
    ensures ValidDate(NextDay(date)) && DayNumber(NextDay(date)) == DayNumber(date) + 1
  {
    if date.month == 12 {
      MonthStarts(date.year, 12);
      YearLength(date.year);
    }
  }

  // ----- Main results -----

  /** The code yields a real calendar date, and `DayNumber` undoes it. */
  lemma CivilFromDaysIsValid(days: i64)
    requires days as int + 719_468 < 0x8000_0000_0000_0000
    ensures ValidDate(CivilFromDays(days)) && DayNumber(CivilFromDays(days)) == days as int
  {
    var era, doe := CodeIsShiftedDate(days);
    ShiftedDateIsValid(era, doe);
  }

  lemma ShiftedDateIsValid(era: int, doe: int)
    requires 0 <= doe < 146_097
    ensures var date := ShiftedDate(era, YearOfEra(doe), doe - YearStart(YearOfEra(doe)));
      ValidDate(date) && DayNumber(date) == 146_097 * era + doe - 719_468
  {
    YearOfEraSpan(doe);
    var y := YearOfEra(doe);
    DateOfShiftedYear(era, y, doe - YearStart(y));
  }

  /** The code's 64-bit steps, read as steps over the integers. */
  lemma CodeIsShiftedDate(days: i64) returns (era: int, doe: int)
    requires days as int + 719_468 < 0x8000_0000_0000_0000
    ensures days as int + 719_468 == 146_097 * era + doe && 0 <= doe < 146_097
    ensures CivilFromDays(days) == ShiftedDate(era, YearOfEra(doe), doe - YearStart(YearOfEra(doe)))
  {
    era, doe := (days as int + 719_468) / 146_097, (days as int + 719_468) % 146_097;
  }

  /** The date of day `doy` of the March-based year `y` of `era`, as the code assembles it. */
  function ShiftedDate(era: int, y: int, doy: int): Date {
    var mi := (5 * doy + 2) / 153;
    var month := if mi < 10 then mi + 3 else mi - 9;
    Date(y + era * 400 + (if month <= 2 then 1 else 0), month, doy - (153 * mi + 2) / 5 + 1)
  }

  lemma DateOfShiftedYear(era: int, y: int, doy: int)
    requires 0 <= y < 400
    requires 0 <= doy < YearDays(y)
    ensures var date := ShiftedDate(era, y, doy);
      ValidDate(date) && DayNumber(date) == 146_097 * era + YearStart(y) + doy - 719_468
  {
    var date := ShiftedDate(era, y, doy);
    DayInItsMonth(y, doy);
    SameLeapYear(era, y, date.year);
    YearStartsOnMarchFirst(era, y);
    MonthStarts(date.year, date.month);
  }

  /** A day of a March-based year falls inside the month the code picks. */
  lemma DayInItsMonth(y: int, doy: int)
    requires 0 <= y < 400
    requires 0 <= doy < YearDays(y)
    ensures var mi := (5 * doy + 2) / 153;
      var dom := doy - (153 * mi + 2) / 5 + 1;
      0 <= mi < 12 && 1 <= dom
      && dom <= MonthLength(y + (if mi < 10 then 0 else 1), if mi < 10 then mi + 3 else mi - 9)
  {
    assert (y + 1) / 4 - y / 4 == (if (y + 1) % 4 == 0 then 1 else 0);
    assert (y + 1) / 100 - y / 100 == (if (y + 1) % 100 == 0 then 1 else 0);
    var mi := (5 * doy + 2) / 153;
    assert 0 <= mi < 12;
    assert mi == 11 ==> (153 * mi + 2) / 5 == 337;
  }

  lemma SameRemainder(z: int, k: int, d: int)
    requires d == 4 || d == 100 || d == 400
    ensures (z + d * k) % d == z % d
  {
    assert z + d * k == d * (z / d + k) + z % d;
  }

  /** Leap years repeat every era. */
  lemma SameLeapYear(era: int, y: int, year: int)
    requires 0 <= y < 400 && (year == 400 * era + y || year == 400 * era + y + 1)
    ensures IsLeap(year) == IsLeap(year - 400 * era)
  {
    var z := year - 400 * era;
    SameRemainder(z, 100 * era, 4);
    SameRemainder(z, 4 * era, 100);
    SameRemainder(z, era, 400);
  }

  lemma YearStartsOnMarchFirst(era: int, y: int)
    requires 0 <= y < 400
    ensures DaysBeforeYear(400 * era + y + 1) == 146_097 * era + YearStart(y) - 719_162
    ensures DaysBeforeYear(400 * era + y) + (if IsLeap(400 * era + y) then 60 else 59)
      == 146_097 * era + YearStart(y) - 719_468
  {
    assert (400 * era + y) / 4 == 100 * era + y / 4;
    assert (400 * era + y) / 100 == 4 * era + y / 100;
    YearLength(400 * era + y);
  }

  lemma EpochDate()
    ensures CivilFromDays(0) == Date(1970, 1, 1)
  {
    CivilFromDaysIsValid(0);
    DayZero(CivilFromDays(0));
  }

  lemma DayZero(date: Date)
    requires ValidDate(date) && DayNumber(date) == 0
    ensures date == Date(1970, 1, 1)
  {
    DayNumberIsInjective(date, Date(1970, 1, 1));
  }

  /** Each further day is the calendar's next day; with `EpochDate` this fixes every date. */
  lemma CivilFromDaysIsTheCalendar(days: i64)
    requires days as int + 719_469 < 0x8000_0000_0000_0000
    ensures CivilFromDays(days + 1) == NextDay(CivilFromDays(days))
  {
    CivilFromDaysIsValid(days);
    CivilFromDaysIsValid(days + 1);
    NextByNumber(CivilFromDays(days), CivilFromDays(days + 1));
  }

  lemma NextByNumber(a: Date, b: Date)
    requires ValidDate(a) && ValidDate(b) && DayNumber(b) == DayNumber(a) + 1
    ensures b == NextDay(a)
  {
    NextDayNumber(a);
    DayNumberIsInjective(b, NextDay(a));
  }

  /** Every date of the calendar is reached, from its own day number. */
  lemma CivilFromDaysInvertsDayNumber(date: Date)
    requires ValidDate(date)
    requires -0x8000_0000_0000_0000 <= DayNumber(date) < 0x8000_0000_0000_0000 - 719_468
    ensures CivilFromDays(DayNumber(date) as i64) == date
  {
    CivilFromDaysIsValid(DayNumber(date) as i64);
    DayNumberIsInjective(CivilFromDays(DayNumber(date) as i64), date);
  }

  /** The fields name one minute: floor(millis / 60000), also before 1970. */
  lemma FieldsNameTheMinute(millis: i64)
    ensures var stamp := Fields(millis);
      ValidDate(stamp.date) && 0 <= stamp.hour < 24 && 0 <= stamp.minute < 60
      && 1440 * DayNumber(stamp.date) + 60 * stamp.hour + stamp.minute == millis as int / 60_000
  {
    CivilFromDaysIsValid(millis / 1000 / 86_400);
  }

  // ----- The printed text -----

  function Value(text: string): int {
    if text == [] then 0 else 10 * Value(text[..|text| - 1]) + (text[|text| - 1] as int - '0' as int)
  }

  predicate AllDigits(text: string) {
    forall i :: 0 <= i < |text| ==> '0' <= text[i] <= '9'
  }

  lemma {:induction false} ValueOfDigits(n: nat)
    ensures AllDigits(Digits(n)) && Value(Digits(n)) == n && |Digits(n)| >= 1
    ensures n < 100 ==> |Digits(n)| <= 2
  {
    if n >= 10 {
      ValueOfDigits(n / 10);
      assert Digits(n)[..|Digits(n)| - 1] == Digits(n / 10);
    } else {
      assert Digits(n)[..0] == [];
    }
  }

  lemma {:induction false} LeadingZero(text: string)
    ensures Value("0" + text) == Value(text)
  {
    var longer := "0" + text;
    if text == [] {
      assert longer[..0] == [];
    } else {
      LeadingZero(text[..|text| - 1]);
      assert longer[..|longer| - 1] == "0" + text[..|text| - 1];
    }
  }

  lemma {:induction false} ZeroFillKeepsValue(text: string, width: int)
    requires AllDigits(text)
    ensures var filled := ZeroFill(text, width);
      AllDigits(filled) && Value(filled) == Value(text)
      && |filled| == (if |text| >= width then |text| else width)
    decreases width - |text|
  {
    if |text| < width {
      LeadingZero(text);
      ZeroFillKeepsValue("0" + text, width);
    }
  }

  /** Padded text determines the number; two digits suffice below a hundred. */
  lemma PaddedDeterminesValue(a: int, b: int, width: nat)
    requires Padded(a, width) == Padded(b, width)
    ensures a == b
  {
    PaddedShape(a, width);
    PaddedShape(b, width);
  }

  lemma PaddedShape(a: int, width: nat)
    ensures var text := Padded(a, width);
      |text| >= 1 && |text| >= width
      && (a >= 0 ==> AllDigits(text) && Value(text) == a)
      && (a < 0 ==> text[0] == '-' && AllDigits(text[1..]) && Value(text[1..]) == -a)
      && (0 <= a < 100 && width == 2 ==> |text| == 2)
  {
    var size := if a < 0 then -a else a;
    ValueOfDigits(size);
    ZeroFillKeepsValue(Digits(size), if a < 0 then width - 1 else width);
  }

  lemma YearWidth(year: int)
    ensures |Padded(year, 4)| >= 4
  {
    PaddedShape(year, 4);
  }

  lemma TwoDigits(a: int)
    requires 0 <= a < 100
    ensures |Padded(a, 2)| == 2
  {
    PaddedShape(a, 2);
  }

  predicate InRange(stamp: Stamp) {
    ValidDate(stamp.date) && 0 <= stamp.hour < 24 && 0 <= stamp.minute < 60
  }

  lemma TextShape(stamp: Stamp)
    requires InRange(stamp)
    ensures var text := Text(stamp);
      var n := |text| - 12;
      n >= 1 && text[..n] == Padded(stamp.date.year, 4)
      && text[n + 1..n + 3] == Padded(stamp.date.month, 2)
      && text[n + 4..n + 6] == Padded(stamp.date.day, 2)
      && text[n + 7..n + 9] == Padded(stamp.hour, 2) && text[n + 10..] == Padded(stamp.minute, 2)
      && text[n] == '-' && text[n + 3] == '-' && text[n + 6] == ' ' && text[n + 9] == ':'
  {
    YearWidth(stamp.date.year);
    TwoDigits(stamp.date.month);
    TwoDigits(stamp.date.day);
    TwoDigits(stamp.hour);
    TwoDigits(stamp.minute);
    Slices(Padded(stamp.date.year, 4), Padded(stamp.date.month, 2), Padded(stamp.date.day, 2),
           Padded(stamp.hour, 2), Padded(stamp.minute, 2));
  }

  lemma Slices(y: string, m: string, d: string, h: string, i: string)
    requires |m| == |d| == |h| == |i| == 2
    ensures var text := y + "-" + m + "-" + d + " " + h + ":" + i;
      var n := |y|;
      |text| == n + 12 && text[..n] == y && text[n + 1..n + 3] == m && text[n + 4..n + 6] == d
      && text[n + 7..n + 9] == h && text[n + 10..] == i
      && text[n] == '-' && text[n + 3] == '-' && text[n + 6] == ' ' && text[n + 9] == ':'
  {
  }

  lemma TextDeterminesStamp(x: Stamp, y: Stamp)
    requires InRange(x) && InRange(y) && Text(x) == Text(y)
    ensures x == y
  {
    TextShape(x);
    TextShape(y);
    PaddedDeterminesValue(x.date.year, y.date.year, 4);
    PaddedDeterminesValue(x.date.month, y.date.month, 2);
    PaddedDeterminesValue(x.date.day, y.date.day, 2);
    PaddedDeterminesValue(x.hour, y.hour, 2);
    PaddedDeterminesValue(x.minute, y.minute, 2);
  }

  lemma MinuteDeterminesStamp(x: Stamp, y: Stamp)
    requires InRange(x) && InRange(y)
    requires 1440 * DayNumber(x.date) + 60 * x.hour + x.minute
      == 1440 * DayNumber(y.date) + 60 * y.hour + y.minute
    ensures x == y
  {
    assert DayNumber(x.date) == DayNumber(y.date) && x.hour == y.hour;
    DayNumberIsInjective(x.date, y.date);
  }

  /** Two instants print the same text exactly when they lie in the same minute. */
  lemma FormatUtcSeparatesMinutes(a: i64, b: i64)
    ensures FormatUtc(a) == FormatUtc(b) <==> a as int / 60_000 == b as int / 60_000
  {
    FieldsNameTheMinute(a);
    FieldsNameTheMinute(b);
    if FormatUtc(a) == FormatUtc(b) {
      TextDeterminesStamp(Fields(a), Fields(b));
    }
    if a as int / 60_000 == b as int / 60_000 {
      MinuteDeterminesStamp(Fields(a), Fields(b));
    }
  }
}
