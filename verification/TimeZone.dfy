/**
 zing/base/TimeZone.cpp. Times are seconds since 1970 in UTC and may be negative. `ToUtc` and `FromUtc` stand
 for `gmtime_r` and `timegm` inside `ToLocal` and `FromLocal`.
 */
module TimeZone {
  import opened Calendar
  import opened CArithmetic

  const DAY: int := 86400

  /** `struct tm`; `zone` is the index of the abbreviation that `tm_zone` points to. */
  datatype Tm = Tm(sec: int, min: int, hour: int, mday: int, mon: int, year: int, wday: int, yday: int,
                   isdst: bool, gmtoff: int, zone: int)

  /** `static_cast<int>` of a `time_t`. */
  function ToInt(x: int): int { (x + 0x8000_0000) % 0x1_0000_0000 - 0x8000_0000 }

  // ---------------------------------------------------------------- UTC

  /** `toUtcTime`; `fillHMS` divides as unsigned. */
  function ToUtc(t: int, yday: bool): Tm {
    var rest, quotient := ToInt(CMod(t, DAY)), ToInt(CDiv(t, DAY));
    var seconds := if rest < 0 then rest + DAY else rest;
    var days := if rest < 0 then quotient - 1 else quotient;
    var julianDay := days + EPOCH;
    var date := FromJulianDay(julianDay);
    Tm(seconds % 60, seconds / 60 % 60, seconds / 60 / 60, date.day, date.month - 1, date.year - 1900,
       WeekDay(julianDay), if yday then julianDay - JulianDay(Date(date.year, 1, 1)) else 0, false, 0, 0)
  }

  /** `fromUtcTime`. */
  function FromUtc(tm: Tm): int {
    (JulianDay(DateOf(tm)) - EPOCH) * DAY + (tm.hour * 3600 + tm.min * 60 + tm.sec)
  }

  function DateOf(tm: Tm): Date { Date(tm.year + 1900, tm.mon + 1, tm.mday) }

  function JulianDayOf(t: int): int { t / DAY + EPOCH }

  /** The times whose day has a number that `getYearMonthDay` can handle. */
  predicate InCalendar(t: int) { FIRST <= JulianDayOf(t) <= LAST }

  predicate IsTimeOfDay(tm: Tm) { 0 <= tm.hour < 24 && 0 <= tm.min < 60 && 0 <= tm.sec < 60 }

  /** The adjustment after the truncating division gives the day and the second of the day. */
  lemma Truncated(t: int)
    requires InCalendar(t)
    ensures ToInt(CMod(t, DAY)) == (if t >= 0 || t % DAY == 0 then t % DAY else t % DAY - DAY)
    ensures ToInt(CDiv(t, DAY)) == (if t >= 0 || t % DAY == 0 then t / DAY else t / DAY + 1)
  {
    if t < 0 {
      var q, r := (-t) / DAY, (-t) % DAY;
      assert -t == q * DAY + r;
      assert t == (if r == 0 then -q * DAY else (-q - 1) * DAY + (DAY - r));
    }
  }

  lemma UtcIs(t: int, yday: bool)
    requires InCalendar(t)
    ensures var tm, s, date := ToUtc(t, yday), t % DAY, FromJulianDay(JulianDayOf(t));
            && tm.sec == s % 60 && tm.min == s / 60 % 60 && tm.hour == s / 60 / 60
            && DateOf(tm) == date && tm.wday == WeekDay(JulianDayOf(t))
            && tm.yday == if yday then JulianDayOf(t) - JulianDay(Date(date.year, 1, 1)) else 0
  {
    hide FromJulianDay, JulianDay, WeekDay, ToInt, CMod, CDiv;
    Truncated(t);
  }

  /** `fromUtcTime` undoes `toUtcTime` for every time of the calendar, and the fields are a date and a time. */
  lemma UtcRoundTrip(t: int, yday: bool)
    requires InCalendar(t)
    ensures var tm := ToUtc(t, yday);
            FromUtc(tm) == t && IsTimeOfDay(tm) && IsDate(DateOf(tm)) && OnOrAfterFirst(DateOf(tm))
  {
    hide FromJulianDay, JulianDay, WeekDay, ToUtc, IsDate;
    UtcIs(t, yday);
    DayIsDateIff(JulianDayOf(t));
    Clock(t % DAY);
  }

  lemma Clock(s: int)
    requires 0 <= s < DAY
    ensures s == s / 60 / 60 * 3600 + s / 60 % 60 * 60 + s % 60 && s / 60 / 60 < 24
  {}

  lemma ClockUnique(h: int, m: int, s: int)
    requires 0 <= h < 24 && 0 <= m < 60 && 0 <= s < 60
    ensures var t := h * 3600 + m * 60 + s; t % 60 == s && t / 60 % 60 == m && t / 60 / 60 == h && 0 <= t < DAY
  {
    var t := h * 3600 + m * 60 + s;
    assert t / 60 == h * 60 + m;
  }

  /** The lengths of the months before `month`, added up. */
  function DaysBefore(year: int, month: int): int {
    if month <= 1 then 0 else DaysBefore(year, month - 1) + DaysIn(year, month - 1)
  }

  lemma DaysBeforeIs(year: int, month: int)
    requires 1 <= month <= 12
    ensures DaysBefore(year, month)
         == if month == 1 then 0 else if month == 2 then 31
            else MonthStart(month - 3) + (if IsLeap(year) then 60 else 59)
  {
    hide IsLeap;
    assert DaysBefore(year, 1) == 0;
    assert DaysBefore(year, 3) == DaysBefore(year, 2) + DaysIn(year, 2);
    if month > 3 {
      MonthsAdd(year, month);
    }
  }

  lemma {:induction false} MonthsAdd(year: int, month: int)
    requires 3 <= month <= 12
    ensures DaysBefore(year, month) == DaysBefore(year, 3) + MonthStart(month - 3) - MonthStart(0)
    decreases month
  {
    hide IsLeap;
    if month > 3 { MonthsAdd(year, month - 1); }
  }

  /** `tm_yday` counts the days of the year, except in the calendar's first year, whose January is outside. */
  lemma YearDayIff(date: Date)
    requires IsDate(date) && OnOrAfterFirst(date)
    ensures JulianDay(date) - JulianDay(Date(date.year, 1, 1)) == DaysBefore(date.year, date.month) + date.day - 1
            <==> date.year > -4800
  {
    hide JulianDay, CDiv, DaysIn, IsDate, IsLeap, MonthStart;
    var y, m := AsMonthOf(date);
    DaysBeforeIs(date.year, date.month);
    if date.month >= 3 {
      FromMarch(y, m, date.day);
      ToMarch(y);
      FirstYearIsLeap();
    } else {
      FromJanuary(y, m, date.day);
    }
  }

  lemma FromMarch(y: int, m: nat, day: int)
    requires m <= 9
    ensures JulianDay(Date(y - 4800, m + 3, day)) == JulianDay(Date(y - 4800, 3, 1)) + MonthStart(m) + day - 1
  {
    hide JulianDay, CDiv;
    JulianDayIs(y, m, day);
    JulianDayIs(y, 0, 1);
  }

  lemma FromJanuary(y: int, m: nat, day: int)
    requires 10 <= m <= 11
    ensures JulianDay(Date(y - 4799, m - 9, day)) == JulianDay(Date(y - 4799, 1, 1)) + (if m == 10 then 0 else 31) + day - 1
  {
    hide JulianDay, CDiv;
    JulianDayIs(y, m, day);
    JulianDayIs(y, 10, 1);
  }

  lemma ToMarch(y: nat)
    ensures JulianDay(Date(y - 4800, 3, 1)) - JulianDay(Date(y - 4800, 1, 1))
         == if y > 0 && IsLeap(y - 4800) then 60 else 59
  {
    hide CDiv, JulianDay, IsLeap;
    JulianDayIs(y, 0, 1);
    JulianDayIs(y - 1, 10, 1);
    NewYear(y);
  }

  lemma FirstYearIsLeap()
    ensures IsLeap(-4800)
  {}

  /** From 1 January to 1 March. */
  lemma NewYear(y: int)
    requires y >= 0
    ensures var days := CDiv(y, 4) - CDiv(y, 100) + CDiv(y, 400) - (CDiv(y - 1, 4) - CDiv(y - 1, 100) + CDiv(y - 1, 400));
            days == if y > 0 && IsLeap(y - 4800) then 1 else 0
  {
    if y > 0 {
      LeapShift(y - 1);
      YearStep(y - 1);
    }
  }

  /** What `toUtcTime` makes of the time that `fromUtcTime` computes: the week day counts from a Thursday. */
  predicate Proper(tm: Tm) {
    && IsTimeOfDay(tm) && IsDate(DateOf(tm))
    && tm.wday == (JulianDay(DateOf(tm)) - EPOCH + 4) % 7
    && tm.yday == DaysBefore(tm.year + 1900, tm.mon + 1) + tm.mday - 1
    && !tm.isdst && tm.gmtoff == 0 && tm.zone == 0
  }

  /** And `toUtcTime` undoes `fromUtcTime`, but for the day of the year in the calendar's first year and the
      week day of a negative day number. */
  lemma TmRoundTripIff(tm: Tm)
    requires Proper(tm) && OnOrAfterFirst(DateOf(tm)) && JulianDay(DateOf(tm)) <= LAST
    ensures ToUtc(FromUtc(tm), true) == tm <==>
              var j := JulianDay(DateOf(tm)); tm.year + 1900 > -4800 && (j >= -1 || (j + 1) % 7 == 0)
  {
    var t, date := FromUtc(tm), DateOf(tm);
    hide FromJulianDay, JulianDay, WeekDay, IsDate, DaysBefore, ToUtc;
    ClockUnique(tm.hour, tm.min, tm.sec);
    assert t / DAY == JulianDay(date) - EPOCH && t % DAY == tm.hour * 3600 + tm.min * 60 + tm.sec;
    DateRoundTripIff(date);
    UtcIs(t, true);
    WeekDayIff(JulianDay(date));
    YearDayIff(date);
    Plain(t, true);
  }

  lemma Plain(t: int, yday: bool)
    ensures var tm := ToUtc(t, yday); !tm.isdst && tm.gmtoff == 0 && tm.zone == 0
  {}

  // ---------------------------------------------------------------- local time

  datatype Transition = Transition(gmt: int, local: int, idx: nat)

  datatype Localtime = Localtime(offset: int, isDst: bool, abbr: int)

  datatype Zone = Zone(transitions: seq<Transition>, localtimes: seq<Localtime>) {
    predicate Ok() {
      |localtimes| > 0 && forall k :: 0 <= k < |transitions| ==> transitions[k].idx < |localtimes|
    }

    function TypeAt(k: nat): Localtime
      requires Ok() && k < |transitions|
    {
      localtimes[transitions[k].idx]
    }
  }

  function Key(tr: Transition, gmt: bool): int { if gmt then tr.gmt else tr.local }

  /** `lower_bound` with `Comp(gmt)`. */
  function LowerBound(trs: seq<Transition>, key: int, gmt: bool): (i: nat)
    ensures i <= |trs|
    ensures forall j :: 0 <= j < i ==> Key(trs[j], gmt) < key
    ensures i < |trs| ==> Key(trs[i], gmt) >= key
  {
    if trs == [] || Key(trs[0], gmt) >= key then 0 else 1 + LowerBound(trs[1..], key, gmt)
  }

  /** `findLocaltime`. */
  function FindLocaltime(zone: Zone, key: int, gmt: bool): Localtime
    requires zone.Ok()
  {
    var trs := zone.transitions;
    if |trs| == 0 || key < Key(trs[0], gmt) then
      zone.localtimes[0]
    else
      var i := LowerBound(trs, key, gmt);
      if i < |trs| then zone.TypeAt(if key == Key(trs[i], gmt) then i else i - 1)
      else zone.TypeAt(|trs| - 1)
  }

  /** `toLocalTime`. */
  function ToLocal(zone: Zone, t: int): Tm
    requires zone.Ok()
  {
    var local := FindLocaltime(zone, t, true);
    ToUtc(t + local.offset, false).(isdst := local.isDst, gmtoff := local.offset, zone := local.abbr)
  }

  /** `fromLocalTime`. */
  function FromLocal(zone: Zone, tm: Tm): int
    requires zone.Ok()
  {
    var seconds := FromUtc(tm);
    var local := FindLocaltime(zone, seconds, false);
    var again := ToLocal(zone, seconds - local.offset);
    if tm.isdst && !again.isdst && again.hour == tm.hour && again.min == tm.min
    then seconds - 3600 - local.offset
    else seconds - local.offset
  }

  /** The local clock at `t`, in seconds. */
  function LocalSeconds(zone: Zone, t: int): int
    requires zone.Ok()
  {
    t + FindLocaltime(zone, t, true).offset
  }

  /** For any zone whatever: a time comes back exactly if the type found by local time has the offset in force,
      or the time is in DST, one hour ahead of the type found, and a standard time an hour later reads the same. */
  lemma LocalRoundTripIff(zone: Zone, t: int)
    requires zone.Ok() && InCalendar(LocalSeconds(zone, t))
    ensures FromLocal(zone, ToLocal(zone, t)) == t <==>
              var here := FindLocaltime(zone, t, true);
              var found := FindLocaltime(zone, LocalSeconds(zone, t), false);
              || found.offset == here.offset
              || (here.isDst && here.offset == found.offset + 3600
                  && (var later, tm := ToLocal(zone, t + 3600), ToLocal(zone, t);
                      !later.isdst && later.hour == tm.hour && later.min == tm.min))
  {
    hide ToUtc, FindLocaltime, FromJulianDay, JulianDay;
    UtcRoundTrip(LocalSeconds(zone, t), false);
    assert FromUtc(ToLocal(zone, t)) == LocalSeconds(zone, t);
  }

  /** Standard time `o`, and daylight saving time one hour ahead of it, in turns; the first type is standard
      time, and the first transition starts daylight saving time. */
  predicate Alternating(zone: Zone, o: int) {
    && zone.Ok()
    && zone.localtimes[0].offset == o && !zone.localtimes[0].isDst
    && (forall k :: 0 <= k < |zone.transitions| ==>
          var tr, local := zone.transitions[k], zone.TypeAt(k);
          && local.isDst == (k % 2 == 0) && local.offset == (if local.isDst then o + 3600 else o)
          && tr.local == tr.gmt + local.offset)
    && (forall k :: 0 <= k < |zone.transitions| - 1 ==> zone.transitions[k].gmt + 3600 < zone.transitions[k + 1].gmt)
  }

  lemma AlternatingAt(zone: Zone, o: int, k: nat)
    requires Alternating(zone, o) && k < |zone.transitions|
    ensures zone.Ok() && zone.localtimes[0].offset == o && !zone.localtimes[0].isDst
    ensures var tr, local := zone.transitions[k], zone.TypeAt(k);
            local.isDst == (k % 2 == 0) && local.offset == (if local.isDst then o + 3600 else o)
            && tr.local == tr.gmt + local.offset
    ensures k + 1 < |zone.transitions| ==> zone.transitions[k].gmt + 3600 < zone.transitions[k + 1].gmt
  {}

  predicate Sorted(trs: seq<Transition>, gmt: bool) {
    forall j, k :: 0 <= j < k < |trs| ==> Key(trs[j], gmt) < Key(trs[k], gmt)
  }

  /** `findLocaltime` finds the last transition not after the key. */
  lemma FindsLast(zone: Zone, key: int, gmt: bool, k: nat)
    requires zone.Ok() && Sorted(zone.transitions, gmt) && k < |zone.transitions|
    requires Key(zone.transitions[k], gmt) <= key
    requires k + 1 < |zone.transitions| ==> key < Key(zone.transitions[k + 1], gmt)
    ensures FindLocaltime(zone, key, gmt) == zone.TypeAt(k)
  {
    var trs := zone.transitions;
    assert k > 0 ==> Key(trs[0], gmt) < Key(trs[k], gmt);
    var i := LowerBound(trs, key, gmt);
    assert i <= k + 1;
  }

  lemma {:induction false} AlternatingSorted(zone: Zone, o: int, gmt: bool, j: nat, k: nat)
    requires Alternating(zone, o) && j < k < |zone.transitions|
    ensures Key(zone.transitions[j], gmt) < Key(zone.transitions[k], gmt)
    decreases k
  {
    var trs := zone.transitions;
    assert trs[k - 1].gmt + 3600 < trs[k - 1 + 1].gmt;
    assert Key(trs[k - 1], gmt) < Key(trs[k], gmt);
    if j < k - 1 { AlternatingSorted(zone, o, gmt, j, k - 1); }
  }

  lemma BothSorted(zone: Zone, o: int)
    requires Alternating(zone, o)
    ensures Sorted(zone.transitions, true) && Sorted(zone.transitions, false)
  {
    forall gmt: bool, j, k | 0 <= j < k < |zone.transitions|
      ensures Key(zone.transitions[j], gmt) < Key(zone.transitions[k], gmt)
    {
      AlternatingSorted(zone, o, gmt, j, k);
    }
  }

  /** The last transition not after `t`. */
  lemma {:induction false} LastBefore(trs: seq<Transition>, t: int, n: nat) returns (k: nat)
    requires Sorted(trs, true) && n <= |trs| && n > 0 && trs[0].gmt <= t
    requires n < |trs| ==> t < trs[n].gmt
    ensures k < |trs| && trs[k].gmt <= t && (k + 1 < |trs| ==> t < trs[k + 1].gmt)
    decreases n
  {
    if trs[n - 1].gmt <= t {
      k := n - 1;
    } else {
      k := LastBefore(trs, t, n - 1);
    }
  }

  /** The hour that is repeated when daylight saving time ends at transition `k`. */
  predicate FirstPass(zone: Zone, k: nat, t: int) {
    k < |zone.transitions| && k % 2 == 1 && zone.transitions[k].gmt - 3600 <= t < zone.transitions[k].gmt
  }

  lemma RepeatedHour(zone: Zone, o: int, k: nat, t: int)
    requires Alternating(zone, o) && FirstPass(zone, k, t)
    ensures FindLocaltime(zone, t, true) == zone.TypeAt(k - 1)
    ensures FindLocaltime(zone, t + 3600, true) == zone.TypeAt(k)
    ensures FindLocaltime(zone, t + 3600 + o, false) == zone.TypeAt(k)
  {
    hide FindLocaltime, Sorted, Alternating;
    BothSorted(zone, o);
    AlternatingAt(zone, o, k - 1);
    AlternatingAt(zone, o, k);
    if k + 1 < |zone.transitions| { AlternatingAt(zone, o, k + 1); }
    FindsLast(zone, t, true, k - 1);
    FindsLast(zone, t + 3600, true, k);
    FindsLast(zone, t + 3600 + o, false, k);
  }

  /** Both passes of the repeated hour show the same clock and date; only `tm_isdst` and the zone tell. */
  lemma FoldIsMarked(zone: Zone, o: int, k: nat, t: int)
    requires Alternating(zone, o) && FirstPass(zone, k, t)
    ensures var first, second := ToLocal(zone, t), ToLocal(zone, t + 3600);
            && first.isdst && !second.isdst && first.gmtoff == second.gmtoff + 3600
            && first.(isdst := false, gmtoff := second.gmtoff, zone := second.zone) == second
  {
    hide ToUtc, FindLocaltime, Alternating;
    AlternatingAt(zone, o, k - 1);
    AlternatingAt(zone, o, k);
    RepeatedHour(zone, o, k, t);
  }

  /** Outside the first pass of a repeated hour, the local time finds the type in force. */
  lemma SameType(zone: Zone, o: int, k: nat, t: int)
    requires Alternating(zone, o) && k < |zone.transitions| && zone.transitions[k].gmt <= t
    requires k + 1 < |zone.transitions| ==> t < zone.transitions[k + 1].gmt && !FirstPass(zone, k + 1, t)
    ensures FindLocaltime(zone, t, true) == zone.TypeAt(k)
    ensures FindLocaltime(zone, t + zone.TypeAt(k).offset, false) == zone.TypeAt(k)
  {
    hide FindLocaltime, Sorted, Alternating;
    BothSorted(zone, o);
    AlternatingAt(zone, o, k);
    if k + 1 < |zone.transitions| { AlternatingAt(zone, o, k + 1); }
    FindsLast(zone, t, true, k);
    FindsLast(zone, t + zone.TypeAt(k).offset, false, k);
  }

  /** In an alternating zone every time comes back from its local time, both passes of a repeated hour included. */
  lemma LocalRoundTrip(zone: Zone, o: int, t: int)
    requires Alternating(zone, o) && InCalendar(LocalSeconds(zone, t))
    ensures FromLocal(zone, ToLocal(zone, t)) == t
  {
    var trs := zone.transitions;
    hide FromLocal, ToLocal, InCalendar, FindLocaltime, Alternating, Sorted;
    AlternatingOk(zone, o);
    if |trs| == 0 || t < trs[0].gmt {
      BeforeFirst(zone, o, t);
      LocalRoundTripIff(zone, t);
    } else {
      BothSorted(zone, o);
      var k := LastBefore(trs, t, |trs|);
      if k + 1 < |trs| && FirstPass(zone, k + 1, t) {
        FirstPassReturns(zone, o, k + 1, t);
      } else {
        SameType(zone, o, k, t);
        LocalRoundTripIff(zone, t);
      }
    }
  }

  lemma FirstPassReturns(zone: Zone, o: int, k: nat, t: int)
    requires Alternating(zone, o) && FirstPass(zone, k, t) && InCalendar(LocalSeconds(zone, t))
    ensures FromLocal(zone, ToLocal(zone, t)) == t
  {
    hide FromLocal, ToLocal, InCalendar, FindLocaltime, Alternating;
    AlternatingAt(zone, o, k - 1);
    AlternatingAt(zone, o, k);
    RepeatedHour(zone, o, k, t);
    FoldIsMarked(zone, o, k, t);
    LocalRoundTripIff(zone, t);
  }

  lemma AlternatingOk(zone: Zone, o: int)
    requires Alternating(zone, o)
    ensures zone.Ok()
  {}

  lemma BeforeFirst(zone: Zone, o: int, t: int)
    requires Alternating(zone, o) && (|zone.transitions| == 0 || t < zone.transitions[0].gmt)
    ensures FindLocaltime(zone, t, true) == zone.localtimes[0]
    ensures FindLocaltime(zone, LocalSeconds(zone, t), false) == zone.localtimes[0]
  {
    if |zone.transitions| > 0 { AlternatingAt(zone, o, 0); }
  }

  // ---------------------------------------------------------------- which times are lost

  /** Transitions are at least an hour apart, and in the same order by local time. */
  predicate Spaced(zone: Zone) {
    && zone.Ok()
    && (forall k :: 0 <= k < |zone.transitions| ==> zone.transitions[k].local == zone.transitions[k].gmt + zone.TypeAt(k).offset)
    && Sorted(zone.transitions, true) && Sorted(zone.transitions, false)
    && (forall k :: 0 <= k < |zone.transitions| - 1 ==> zone.transitions[k].gmt + 3600 <= zone.transitions[k + 1].gmt)
  }

  /** The type in force before transition `k`. */
  function TypeBefore(zone: Zone, k: nat): Localtime
    requires zone.Ok() && k <= |zone.transitions|
  {
    if k == 0 then zone.localtimes[0] else zone.TypeAt(k - 1)
  }

  /** Transition `k`, if there is one, is the next after the key. */
  predicate IsNext(zone: Zone, k: nat, key: int, gmt: bool) {
    && k <= |zone.transitions|
    && (k > 0 ==> Key(zone.transitions[k - 1], gmt) <= key)
    && (k < |zone.transitions| ==> key < Key(zone.transitions[k], gmt))
  }

  lemma FindsBefore(zone: Zone, key: int, gmt: bool, k: nat)
    requires zone.Ok() && Sorted(zone.transitions, gmt) && IsNext(zone, k, key, gmt)
    ensures FindLocaltime(zone, key, gmt) == TypeBefore(zone, k)
  {
    if k > 0 { FindsLast(zone, key, gmt, k - 1); }
  }

  lemma {:induction false} NextFrom(zone: Zone, key: int, gmt: bool, from: nat) returns (j: nat)
    requires from <= |zone.transitions| && (from > 0 ==> Key(zone.transitions[from - 1], gmt) <= key)
    ensures from <= j && IsNext(zone, j, key, gmt)
    decreases |zone.transitions| - from
  {
    if from == |zone.transitions| || key < Key(zone.transitions[from], gmt) {
      j := from;
    } else {
      j := NextFrom(zone, key, gmt, from + 1);
    }
  }

  /** The local clock before transition `k` shows what it shows again after it. */
  predicate Repeated(zone: Zone, k: nat, t: int)
    requires zone.Ok() && k <= |zone.transitions|
  {
    k < |zone.transitions| && zone.transitions[k].local <= t + TypeBefore(zone, k).offset
  }

  /** The retry finds the first pass: the transition ends DST by an hour, and no later one repeats it too. */
  predicate Retried(zone: Zone, k: nat, t: int)
    requires zone.Ok() && k < |zone.transitions|
  {
    var before, after := TypeBefore(zone, k), zone.TypeAt(k);
    && before.isDst && !after.isDst && before.offset == after.offset + 3600
    && (k + 1 < |zone.transitions| ==> t + before.offset < zone.transitions[k + 1].local)
  }

  /** A time is lost exactly if it is in a stretch that the next transition repeats, unless that transition ends
      DST by an hour. */
  lemma LostTimesIff(zone: Zone, k: nat, t: int)
    requires Spaced(zone) && IsNext(zone, k, t, true) && InCalendar(t + TypeBefore(zone, k).offset)
    ensures FromLocal(zone, ToLocal(zone, t)) != t <==> Repeated(zone, k, t) && !Retried(zone, k, t)
  {
    hide Spaced, FromLocal, ToLocal, FindLocaltime, InCalendar, Sorted, Key;
    SpacedOk(zone);
    var local := t + TypeBefore(zone, k).offset;
    FindsBefore(zone, t, true, k);
    LocalRoundTripIff(zone, t);
    LocalNotBefore(zone, k, t);
    var j := NextFrom(zone, local, false, k);
    FindsBefore(zone, local, false, j);
    if j == k {
      NotRepeated(zone, k, t);
    } else {
      FoundLater(zone, k, t, j);
      if j == k + 1 {
        NotRepeatedAgain(zone, k, t);
        AnHourLater(zone, k, t);
      }
    }
  }

  lemma SpacedOk(zone: Zone)
    requires Spaced(zone)
    ensures zone.Ok() && Sorted(zone.transitions, true) && Sorted(zone.transitions, false)
  {}

  lemma SpacedAt(zone: Zone, k: nat)
    requires Spaced(zone) && k < |zone.transitions|
    ensures zone.Ok() && zone.transitions[k].local == zone.transitions[k].gmt + zone.TypeAt(k).offset
    ensures k + 1 < |zone.transitions| ==> zone.transitions[k].gmt + 3600 <= zone.transitions[k + 1].gmt
  {}

  lemma LocalNotBefore(zone: Zone, k: nat, t: int)
    requires Spaced(zone) && IsNext(zone, k, t, true)
    ensures zone.Ok() && (k > 0 ==> Key(zone.transitions[k - 1], false) <= t + TypeBefore(zone, k).offset)
  {
    if k > 0 { SpacedAt(zone, k - 1); }
  }

  lemma NotRepeated(zone: Zone, k: nat, t: int)
    requires zone.Ok() && k <= |zone.transitions| && IsNext(zone, k, t + TypeBefore(zone, k).offset, false)
    ensures !Repeated(zone, k, t)
  {}

  lemma NotRepeatedAgain(zone: Zone, k: nat, t: int)
    requires zone.Ok() && k < |zone.transitions| && IsNext(zone, k + 1, t + TypeBefore(zone, k).offset, false)
    ensures k + 1 < |zone.transitions| ==> t + TypeBefore(zone, k).offset < zone.transitions[k + 1].local
  {}

  /** Beyond the next transition, local time finds a smaller offset, and one an hour smaller only right behind it. */
  lemma FoundLater(zone: Zone, k: nat, t: int, j: nat)
    requires Spaced(zone) && IsNext(zone, k, t, true) && k < j
    requires zone.Ok() && IsNext(zone, j, t + TypeBefore(zone, k).offset, false)
    ensures Repeated(zone, k, t) && zone.TypeAt(j - 1).offset < TypeBefore(zone, k).offset
    ensures TypeBefore(zone, k).offset == zone.TypeAt(j - 1).offset + 3600 ==> j == k + 1
    ensures j > k + 1 ==> zone.transitions[k + 1].local <= t + TypeBefore(zone, k).offset
  {
    SpacedAt(zone, j - 1);
    SpacedAt(zone, k);
    InOrder(zone, k, j - 1);
    hide Spaced, Sorted;
  }

  lemma InOrder(zone: Zone, k: nat, j: nat)
    requires Spaced(zone) && k <= j < |zone.transitions|
    ensures zone.transitions[k].local <= zone.transitions[j].local && zone.transitions[k].gmt <= zone.transitions[j].gmt
    ensures k < j ==> zone.transitions[k + 1].local <= zone.transitions[j].local
                      && zone.transitions[k].gmt + 3600 <= zone.transitions[j].gmt
  {
    var trs := zone.transitions;
    if k < j {
      assert Key(trs[k], false) < Key(trs[j], false) && Key(trs[k], true) < Key(trs[j], true);
      assert trs[k].gmt + 3600 <= trs[k + 1].gmt;
      if k + 1 < j {
        assert Key(trs[k + 1], false) < Key(trs[j], false) && Key(trs[k + 1], true) < Key(trs[j], true);
      }
    }
  }

  /** An hour after the first pass of a stretch that is repeated by an hour, the clock shows the same. */
  lemma AnHourLater(zone: Zone, k: nat, t: int)
    requires Spaced(zone) && k < |zone.transitions| && IsNext(zone, k, t, true) && zone.Ok() && Repeated(zone, k, t)
    ensures var before, after, later, tm := TypeBefore(zone, k), zone.TypeAt(k), ToLocal(zone, t + 3600), ToLocal(zone, t);
            before.offset == after.offset + 3600 ==>
              later.isdst == after.isDst && later.hour == tm.hour && later.min == tm.min
  {
    hide Spaced, FindLocaltime, ToUtc, Sorted;
    SpacedOk(zone);
    FindsBefore(zone, t, true, k);
    if TypeBefore(zone, k).offset == zone.TypeAt(k).offset + 3600 {
      StillNext(zone, k, t);
      FindsBefore(zone, t + 3600, true, k + 1);
    }
  }

  lemma StillNext(zone: Zone, k: nat, t: int)
    requires Spaced(zone) && k < |zone.transitions| && IsNext(zone, k, t, true) && zone.Ok() && Repeated(zone, k, t)
    requires TypeBefore(zone, k).offset == zone.TypeAt(k).offset + 3600
    ensures IsNext(zone, k + 1, t + 3600, true)
  {
    SpacedAt(zone, k);
    hide Spaced;
  }

  const SET_BACK: Zone := Zone([Transition(0, 0, 1)], [Localtime(3600, false, 0), Localtime(0, false, 4)])

  lemma SetBackTypes()
    ensures SET_BACK.Ok() && LocalSeconds(SET_BACK, -1800) == 1800 == LocalSeconds(SET_BACK, 1800)
    ensures FindLocaltime(SET_BACK, -1800, true) == Localtime(3600, false, 0)
    ensures FindLocaltime(SET_BACK, 1800, true) == FindLocaltime(SET_BACK, 1800, false) == Localtime(0, false, 4)
  {
    FindsLast(SET_BACK, 1800, true, 0);
    FindsLast(SET_BACK, 1800, false, 0);
  }

  /** A zone that sets its standard time back: the repeated hour is not marked, and its first pass is lost. */
  lemma StandardTimeSetBack()
    ensures SET_BACK.Ok()
    ensures ToLocal(SET_BACK, -1800) == ToLocal(SET_BACK, 1800).(gmtoff := 3600, zone := 0)
    ensures FromLocal(SET_BACK, ToLocal(SET_BACK, -1800)) == 1800
  {
    hide ToUtc, FindLocaltime, FromUtc;
    SetBackTypes();
    UtcRoundTrip(1800, false);
    assert FromUtc(ToLocal(SET_BACK, -1800)) == FromUtc(ToUtc(1800, false)) by { FieldsOnly(); }
  }

  /** The three fields that `ToLocal` sets do not matter to `FromUtc`. */
  lemma FieldsOnly()
    ensures forall tm: Tm, d: bool, g: int, z: int :: FromUtc(tm.(isdst := d, gmtoff := g, zone := z)) == FromUtc(tm)
  {}
}
