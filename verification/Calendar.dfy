/**
 Julian day numbers (zing/base/Date.cpp, zing/base/Date.h). `JulianDay` and `FromJulianDay` are the two
 formulas of the source; the proleptic Gregorian calendar is described independently of them by `IsDate`
 and `Next`.
 */
module Calendar {
  import opened CArithmetic

  datatype Date = Date(year: int, month: int, day: int)

  predicate IsLeap(year: int) { year % 4 == 0 && (year % 100 != 0 || year % 400 == 0) }

  function DaysIn(year: int, month: int): int {
    if month == 2 then (if IsLeap(year) then 29 else 28)
    else if month == 4 || month == 6 || month == 9 || month == 11 then 30
    else 31
  }

  predicate IsDate(d: Date) { 1 <= d.month <= 12 && 1 <= d.day <= DaysIn(d.year, d.month) }

  function Next(d: Date): Date {
    if d.day < DaysIn(d.year, d.month) then d.(day := d.day + 1)
    else if d.month < 12 then Date(d.year, d.month + 1, 1)
    else Date(d.year + 1, 1, 1)
  }

  /** `getJulianDayNumber`. */
  function JulianDay(date: Date): int {
    var a := CDiv(14 - date.month, 12);
    var y := date.year + 4800 - a;
    var m := date.month + 12 * a - 3;
    date.day + CDiv(153 * m + 2, 5) + y * 365 + CDiv(y, 4) - CDiv(y, 100) + CDiv(y, 400) - 32045
  }

  /** `getYearMonthDay`. */
  function FromJulianDay(julianDay: int): Date {
    var a := julianDay + 32044;
    var b := CDiv(4 * a + 3, 146097);
    var c := a - CDiv(b * 146097, 4);
    var d := CDiv(4 * c + 3, 1461);
    var e := c - CDiv(1461 * d, 4);
    var m := CDiv(5 * e + 2, 153);
    Date(b * 100 + d - 4800 + CDiv(m, 10), m + 3 - 12 * CDiv(m, 10), e - CDiv(153 * m + 2, 5) + 1)
  }

  /** `kJulianDayOf1970_01_01`. */
  const EPOCH: int := 2440588

  /** The number of the first day of the calendar, 1 March -4800. */
  const FIRST: int := -32044

  predicate OnOrAfterFirst(d: Date) { d.year > -4800 || (d.year == -4800 && d.month >= 3) }

  // ---------------------------------------------------------------- years that begin in March

  /** Days from 1 March -4800 to 1 March `y` years later. */
  function YearStart(y: nat): nat { 365 * y + y / 4 - y / 100 + y / 400 }

  function YearLength(y: nat): nat { if IsLeap(y + 1) then 366 else 365 }

  /** Days from 1 March to the first of the `m`-th month after March. */
  function MonthStart(m: nat): nat { (153 * m + 2) / 5 }

  lemma YearStep(y: nat)
    ensures YearStart(y + 1) == YearStart(y) + YearLength(y)
  {
    YearQuotient(y, 4);
    YearQuotient(y, 100);
    YearQuotient(y, 400);
  }

  lemma YearQuotient(y: nat, n: nat)
    requires n == 4 || n == 100 || n == 400
    ensures (y + 1) / n == y / n + if (y + 1) % n == 0 then 1 else 0
  {}

  lemma {:induction false} YearsInOrder(y: nat, z: nat)
    requires y <= z
    ensures YearStart(y) <= YearStart(z)
    decreases z - y
  {
    if y < z {
      YearStep(z - 1);
      YearsInOrder(y, z - 1);
    }
  }

  /** The centuries and years that the source computes, in terms of the year. */
  lemma YearOfCentury(b: nat, d: nat)
    requires d < 100
    ensures YearStart(100 * b + d) == 36524 * b + b / 4 + 365 * d + d / 4
  {
    assert (100 * b + d) / 4 == 25 * b + d / 4;
    assert (100 * b + d) / 100 == b;
    assert (100 * b + d) / 400 == b / 4;
  }

  function Century(a: nat): nat { (4 * a + 3) / 146097 }

  function DayOfCentury(a: nat): int { a - Century(a) * 146097 / 4 }

  function YearOfDay(c: int): int { (4 * c + 3) / 1461 }

  function DayOfYear(c: int): int { c - 1461 * YearOfDay(c) / 4 }

  /** The year that the nested divisions find. */
  function YearOf(a: nat): int { 100 * Century(a) + YearOfDay(DayOfCentury(a)) }

  lemma CenturyRange(a: nat)
    ensures var b, c := Century(a), DayOfCentury(a);
            && 0 <= c <= 36524 && (c == 36524 ==> b % 4 == 3)
            && a == 36524 * b + b / 4 + c
  {
    var b := Century(a);
    assert b * 146097 / 4 == 36524 * b + b / 4;
  }

  lemma YearRange(c: int)
    requires 0 <= c <= 36524
    ensures var d, e := YearOfDay(c), DayOfYear(c);
            0 <= d < 100 && 0 <= e <= 365 && c == 365 * d + d / 4 + e && d == (4 * c + 3) / 1461
  {
    var d := YearOfDay(c);
    assert 1461 * d / 4 == 365 * d + d / 4;
  }

  /** It is the one that contains the day. */
  lemma FindYear(a: nat)
    ensures YearOf(a) >= 0 && YearStart(YearOf(a)) <= a < YearStart(YearOf(a)) + YearLength(YearOf(a))
    ensures 0 <= DayOfYear(DayOfCentury(a)) == a - YearStart(YearOf(a)) <= 365
  {
    CenturyRange(a);
    var b, c := Century(a), DayOfCentury(a);
    YearRange(c);
    hide DayOfCentury, Century, YearOfDay, DayOfYear;
    var d := YearOfDay(c);
    YearOfCentury(b, d);
    hide YearStart;
    if DayOfYear(c) == 365 { LongYear(b, c, d); }
  }

  lemma CenturyTruncates(a: nat)
    ensures CDiv(4 * a + 3, 146097) == Century(a) && a - CDiv(Century(a) * 146097, 4) == DayOfCentury(a)
  {}

  lemma YearTruncates(c: nat)
    ensures CDiv(4 * c + 3, 1461) == YearOfDay(c) && c - CDiv(1461 * YearOfDay(c), 4) == DayOfYear(c)
  {}

  lemma MonthTruncates(e: nat, y: int)
    requires e < 366
    ensures var m := CDiv(5 * e + 2, 153);
            Date(y - 4800 + CDiv(m, 10), m + 3 - 12 * CDiv(m, 10), e - CDiv(153 * m + 2, 5) + 1) == DateIn(y, e)
  {}

  /** The date of a day of a year that begins in March. */
  function DateIn(y: int, e: nat): Date {
    var m := (5 * e + 2) / 153;
    MonthOf(y, m, e - MonthStart(m) + 1)
  }

  lemma Stages(a: int, b: int, c: int, d: int, e: int)
    requires b == CDiv(4 * a + 3, 146097) && c == a - CDiv(b * 146097, 4)
    requires d == CDiv(4 * c + 3, 1461) && e == c - CDiv(1461 * d, 4)
    ensures FromJulianDay(FIRST + a) ==
              var m := CDiv(5 * e + 2, 153);
              Date(b * 100 + d - 4800 + CDiv(m, 10), m + 3 - 12 * CDiv(m, 10), e - CDiv(153 * m + 2, 5) + 1)
  {
    hide CDiv;
  }

  lemma Unfold(a: nat)
    ensures YearOf(a) >= 0 && 0 <= a - YearStart(YearOf(a)) < 366
    ensures FromJulianDay(FIRST + a) == DateIn(YearOf(a), a - YearStart(YearOf(a)))
  {
    hide *;
    FindYear(a);
    CenturyRange(a);
    var c := DayOfCentury(a);
    YearRange(c);
    CenturyTruncates(a);
    YearTruncates(c);
    MonthTruncates(DayOfYear(c), 100 * Century(a) + YearOfDay(c));
    Stages(a, Century(a), c, YearOfDay(c), DayOfYear(c));
    YearOfIs(a);
  }

  lemma YearOfIs(a: nat)
    ensures YearOf(a) == 100 * Century(a) + YearOfDay(DayOfCentury(a))
  {}

  /** A year has a 366th day only if it is long. */
  lemma LongYear(b: nat, c: nat, d: nat)
    requires c <= 36524 && (c == 36524 ==> b % 4 == 3)
    requires d == (4 * c + 3) / 1461 && d < 100 && c - (365 * d + d / 4) == 365
    ensures YearLength(100 * b + d) == 366
  {
    var y := 100 * b + d + 1;
    assert (d + 1) % 4 == 0;
    assert y % 4 == 0;
    if d == 99 {
      assert c == 36524;
      assert y == 100 * (b + 1) && (b + 1) % 4 == 0;
      assert y % 400 == 0;
    } else {
      assert y % 100 == d + 1;
    }
  }

  /** And no other year does. */
  lemma YearUnique(y: nat, e: nat, z: nat, f: nat)
    requires e < YearLength(y) && f < YearLength(z) && YearStart(y) + e == YearStart(z) + f
    ensures y == z && e == f
  {
    YearStep(y);
    YearStep(z);
    hide YearStart, YearLength;
    if y < z {
      YearsInOrder(y + 1, z);
    } else if z < y {
      YearsInOrder(z + 1, y);
    }
  }

  lemma FindMonth(e: nat)
    requires e < 366
    ensures var m := (5 * e + 2) / 153; m <= 11 && MonthStart(m) <= e < MonthStart(m + 1)
  {}

  lemma MonthUnique(m: nat, e: nat)
    requires m <= 11 && MonthStart(m) <= e < MonthStart(m + 1)
    ensures (5 * e + 2) / 153 == m
  {}

  /** The `m`-th month after March in the year `y` years after -4800, as the calendar knows it. */
  function MonthOf(y: int, m: int, day: int): Date {
    if m < 10 then Date(y - 4800, m + 3, day) else Date(y - 4799, m - 9, day)
  }

  /** The day of the month that a day of the year is. */
  lemma MonthLength(y: nat, m: nat, e: nat)
    requires m <= 11 && MonthStart(m) <= e
    ensures e < MonthStart(m + 1) && e < YearLength(y) <==> IsDate(MonthOf(y, m, e - MonthStart(m) + 1))
  {
    LeapShift(y);
  }

  lemma LeapShift(y: nat)
    ensures IsLeap(y - 4799) <==> IsLeap(y + 1)
  {
    assert y + 1 == (y - 4799) + 12 * 400;
    assert (y + 1) % 400 == (y - 4799) % 400;
    assert (y + 1) % 100 == (y - 4799) % 100;
    assert (y + 1) % 4 == (y - 4799) % 4;
  }

  /** Both formulas, on the days of the calendar. */
  lemma JulianDayIs(y: int, m: nat, day: int)
    requires m <= 11
    ensures JulianDay(MonthOf(y, m, day))
         == day + MonthStart(m) + y * 365 + CDiv(y, 4) - CDiv(y, 100) + CDiv(y, 400) - 32045
  {}

  lemma DateInIs(y: int, m: nat, e: nat)
    requires m <= 11 && MonthStart(m) <= e < MonthStart(m + 1)
    ensures DateIn(y, e) == MonthOf(y, m, e - MonthStart(m) + 1)
  {
    MonthUnique(m, e);
  }

  lemma FromDayOfYear(y: nat, e: nat)
    requires e < YearLength(y)
    ensures FromJulianDay(FIRST + YearStart(y) + e) == DateIn(y, e)
  {
    hide *;
    var a := YearStart(y) + e;
    FindYear(a);
    Unfold(a);
    YearUnique(YearOf(a), a - YearStart(YearOf(a)), y, e);
  }

  lemma FromJulianDayIs(y: nat, m: nat, day: nat)
    requires m <= 11 && IsDate(MonthOf(y, m, day))
    ensures FromJulianDay(FIRST + YearStart(y) + MonthStart(m) + day - 1) == MonthOf(y, m, day)
  {
    var e := MonthStart(m) + day - 1;
    hide YearStart, YearLength, FromJulianDay, DateIn, DaysIn;
    MonthLength(y, m, e);
    FromDayOfYear(y, e);
    DateInIs(y, m, e);
  }

  /** Every date is the day of some month of some March-based year. */
  lemma AsMonthOf(date: Date) returns (y: int, m: nat)
    requires IsDate(date)
    ensures m <= 11 && date == MonthOf(y, m, date.day) && (y >= 0 <==> OnOrAfterFirst(date))
  {
    if date.month >= 3 {
      y, m := date.year + 4800, date.month - 3;
    } else {
      y, m := date.year + 4799, date.month + 9;
    }
  }

  // ---------------------------------------------------------------- the bijection

  /** Before the calendar the divisions truncate the wrong way, and the day of the month comes out below one. */
  lemma TooEarly(julianDay: int)
    requires julianDay < FIRST
    ensures !IsDate(FromJulianDay(julianDay))
  {
    hide CDiv, FromJulianDay;
    var a := julianDay + 32044;
    var b := CDiv(4 * a + 3, 146097);
    TruncatedBelow(a, b, 146097);
    var c := a - CDiv(b * 146097, 4);
    var d := CDiv(4 * c + 3, 1461);
    TruncatedBelow(c, d, 1461);
    var e := c - CDiv(1461 * d, 4);
    Stages(a, b, c, d, e);
    NegativeMonth(e);
  }

  lemma TruncatedBelow(a: int, q: int, n: nat)
    requires a < 0 && (n == 146097 || n == 1461) && q == CDiv(4 * a + 3, n)
    ensures -(n + 2) / 4 <= a - CDiv(q * n, 4) < 0
  {}

  lemma NegativeMonth(e: int)
    requires -366 <= e < 0
    ensures var m := CDiv(5 * e + 2, 153); e - CDiv(153 * m + 2, 5) + 1 <= 0
  {}

  /** A number stands for a date exactly from the first day of the calendar on. */
  lemma DayIsDateIff(julianDay: int)
    ensures IsDate(FromJulianDay(julianDay)) <==> julianDay >= FIRST
    ensures julianDay >= FIRST ==>
              var d := FromJulianDay(julianDay); OnOrAfterFirst(d) && JulianDay(d) == julianDay
  {
    hide FromJulianDay, JulianDay, YearOf, YearLength, YearStart, IsDate, DateIn;
    if julianDay < FIRST {
      TooEarly(julianDay);
    } else {
      var a := julianDay - FIRST;
      FindYear(a);
      Unfold(a);
      DateInIsDate(YearOf(a), a - YearStart(YearOf(a)));
    }
  }

  lemma DateInIsDate(y: nat, e: nat)
    requires e < YearLength(y)
    ensures IsDate(DateIn(y, e)) && OnOrAfterFirst(DateIn(y, e))
    ensures JulianDay(DateIn(y, e)) == FIRST + YearStart(y) + e
  {
    YearAtMost(y);
    FindMonth(e);
    var m := (5 * e + 2) / 153;
    MonthLength(y, m, e);
    hide IsDate, YearLength, JulianDay;
    JulianDayIs(y, m, e - MonthStart(m) + 1);
  }

  lemma YearAtMost(y: nat)
    ensures YearLength(y) <= 366
  {}

  /** A date comes back from its number exactly if it is not before the first day of the calendar. */
  lemma DateRoundTripIff(date: Date)
    requires IsDate(date)
    ensures FromJulianDay(JulianDay(date)) == date <==> OnOrAfterFirst(date)
    ensures OnOrAfterFirst(date) ==> JulianDay(date) >= FIRST
  {
    var y, m := AsMonthOf(date);
    JulianDayIs(y, m, date.day);
    if OnOrAfterFirst(date) {
      FromJulianDayIs(y, m, date.day);
    } else {
      EarlyYear(y, m, date);
      DayIsDateIff(JulianDay(date));
    }
  }

  lemma EarlyYear(y: int, m: nat, date: Date)
    requires y < 0 && m <= 11 && date == MonthOf(y, m, date.day) && IsDate(date)
    ensures MonthStart(m) + date.day <= 366
    ensures JulianDay(date) <= FIRST
  {
    JulianDayIs(y, m, date.day);
    assert CDiv(y, 4) <= CDiv(y, 100) && CDiv(y, 400) <= 0;
  }

  /** The next day has the next number. */
  lemma NextDay(date: Date)
    requires IsDate(date) && OnOrAfterFirst(date)
    ensures IsDate(Next(date)) && JulianDay(Next(date)) == JulianDay(date) + 1
  {
    var y, m := AsMonthOf(date);
    if date.day == DaysIn(date.year, date.month) {
      MonthEnd(y, m, date);
    } else {
      hide CDiv;
      JulianDayIs(y, m, date.day);
      JulianDayIs(y, m, date.day + 1);
    }
  }

  lemma MonthEnd(y: nat, m: nat, date: Date)
    requires m <= 11 && date == MonthOf(y, m, DaysIn(date.year, date.month)) && 1 <= date.month <= 12
    ensures IsDate(Next(date)) && JulianDay(Next(date)) == JulianDay(date) + 1
  {
    JulianDayIs(y, m, date.day);
    hide JulianDay, CDiv;
    if m < 11 {
      MonthDays(y, m);
      JulianDayIs(y, m + 1, 1);
    } else {
      YearEnd(y);
      JulianDayIs(y + 1, 0, 1);
    }
  }

  lemma MonthDays(y: nat, m: nat)
    requires m < 11
    ensures var last := MonthOf(y, m, MonthStart(m + 1) - MonthStart(m));
            last.day == DaysIn(last.year, last.month) && Next(last) == MonthOf(y, m + 1, 1)
  {
    hide IsLeap;
  }

  lemma YearEnd(y: nat)
    ensures var last := MonthOf(y, 11, YearLength(y) - MonthStart(11));
            last.day == DaysIn(last.year, last.month) && Next(last) == MonthOf(y + 1, 0, 1)
    ensures (y + 1) * 365 + CDiv(y + 1, 4) - CDiv(y + 1, 100) + CDiv(y + 1, 400)
         == y * 365 + CDiv(y, 4) - CDiv(y, 100) + CDiv(y, 400) + YearLength(y)
  {
    LeapShift(y);
    YearStep(y);
  }

  /** And so the day after a number's date is the next number's date. */
  lemma NextNumber(julianDay: int)
    requires julianDay >= FIRST
    ensures FromJulianDay(julianDay + 1) == Next(FromJulianDay(julianDay))
  {
    hide FromJulianDay, JulianDay, IsDate, Next;
    DayIsDateIff(julianDay);
    var d := FromJulianDay(julianDay);
    NextDay(d);
    LaterDate(d);
    DateRoundTripIff(Next(d));
  }

  lemma LaterDate(d: Date)
    requires OnOrAfterFirst(d)
    ensures OnOrAfterFirst(Next(d))
  {}

  // ---------------------------------------------------------------- the day of the week

  /** `weekDay`: Sunday is 0. */
  function WeekDay(julianDay: int): int { CMod(julianDay + 1, 7) }

  /** 1 January 1970 was a Thursday, and each day has its own successor; a negative number, which `valid`
      rejects, can have a negative week day. */
  lemma WeekDayIff(julianDay: int)
    ensures JulianDay(Date(1970, 1, 1)) == EPOCH && WeekDay(EPOCH) == 4
    ensures WeekDay(julianDay) == (julianDay - EPOCH + 4) % 7 <==> julianDay >= -1 || (julianDay + 1) % 7 == 0
    ensures julianDay >= -1 ==> WeekDay(julianDay + 1) == (WeekDay(julianDay) + 1) % 7
  {}

  // ---------------------------------------------------------------- 32-bit arithmetic

  /** The last number whose date can be computed without overflow: `4 * a + 3` fits no longer. */
  const LAST: int := 0x7FFF_FFFF / 4 - 32044

  /** `getJulianDayNumber` in 32 bits: no intermediate value overflows, and the result is the same. */
  function JulianDay32(year: int32, month: int32, day: int32): (r: int32)
    requires -5800000 <= year <= 5800000 && 1 <= month <= 12 && 1 <= day <= 31
    ensures r as int == JulianDay(Date(year as int, month as int, day as int))
  {
    var a := CDiv32(14 - month, 12);
    var y := year + 4800 - a;
    var m := month + 12 * a - 3;
    day + CDiv32(153 * m + 2, 5) + y * 365 + CDiv32(y, 4) - CDiv32(y, 100) + CDiv32(y, 400) - 32045
  }

  /** `getYearMonthDay` in 32 bits: nothing overflows up to `LAST`. */
  function FromJulianDay32(julianDay: int32): (int32, int32, int32)
    requires FIRST <= julianDay as int <= LAST
  {
    var a := julianDay + 32044;
    CenturyRange(a as int);
    CenturyTruncates(a as int);
    var b := CDiv32(4 * a + 3, 146097);
    var c := a - CDiv32(b * 146097, 4);
    YearRange(c as int);
    YearTruncates(c as int);
    var d := CDiv32(4 * c + 3, 1461);
    var e := c - CDiv32(1461 * d, 4);
    var m := CDiv32(5 * e + 2, 153);
    (b * 100 + d - 4800 + CDiv32(m, 10), m + 3 - 12 * CDiv32(m, 10), e - CDiv32(153 * m + 2, 5) + 1)
  }

  lemma FromJulianDay32Is(julianDay: int32)
    requires FIRST <= julianDay as int <= LAST
    ensures var r := FromJulianDay32(julianDay);
            Date(r.0 as int, r.1 as int, r.2 as int) == FromJulianDay(julianDay as int)
  {
    hide FromJulianDay, CDiv, CDiv32, Century, DayOfCentury, YearOfDay, DayOfYear;
    var a := julianDay + 32044;
    CenturyRange(a as int);
    CenturyTruncates(a as int);
    var b := CDiv32(4 * a + 3, 146097);
    var c := a - CDiv32(b * 146097, 4);
    YearRange(c as int);
    YearTruncates(c as int);
    var d := CDiv32(4 * c + 3, 1461);
    Stages(a as int, b as int, c as int, d as int, (c - CDiv32(1461 * d, 4)) as int);
  }
}
