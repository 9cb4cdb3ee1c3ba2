/** Calendar conversion in kernel/datetime.c: Unix time (POSIX.1-2017, Base Definitions, section
    4.16) to a Gregorian date and back, and the time-zone adjustment. */
module Datetime {

  datatype Date = Date(year: nat, month: nat, day: nat, hour: nat, minute: nat, second: nat)

  predicate IsLeapYear(year: nat) { (year % 4 == 0 && year % 100 != 0) || year % 400 == 0 }

  function YearLength(year: nat): nat { if IsLeapYear(year) then 366 else 365 }

  const DAYS_IN_MONTH: seq<nat> := [31, 28, 31, 30, 31, 30, 31, 31, 30, 31, 30, 31]

  /** Months count from 0 here. */
  function MonthLength(year: nat, month: nat): nat
    requires month < 12
  {
    if month == 1 && IsLeapYear(year) then 29 else DAYS_IN_MONTH[month]
  }

  /** Days from 1 January 1970 to 1 January of the year, negative before 1970. */
  function YearStart(year: nat): int
    decreases if year < 1970 then 1970 - year else year - 1970
  {
    if year == 1970 then 0
    else if year > 1970 then YearStart(year - 1) + YearLength(year - 1)
    else YearStart(year + 1) - YearLength(year)
  }

  /** Days in the months before the given one. */
  function MonthStart(year: nat, month: nat): nat
    requires month <= 12
  {
    if month == 0 then 0 else MonthStart(year, month - 1) + MonthLength(year, month - 1)
  }

  predicate IsDate(d: Date) {
    && 1 <= d.month <= 12 && 1 <= d.day <= MonthLength(d.year, d.month - 1) && d.hour < 24 && d.minute < 60
    && d.second < 60
  }

  function DayNumber(d: Date): int
    requires 1 <= d.month <= 12
  {
    YearStart(d.year) + MonthStart(d.year, d.month - 1) + d.day - 1
  }

  /** Seconds since the epoch. */
  function Seconds(d: Date): int
    requires 1 <= d.month <= 12
  {
    ((DayNumber(d) * 24 + d.hour) * 60 + d.minute) * 60 + d.second
  }

  // The same count by formula, without a table of months or a test for leap years.

  /** The leap days up to the end of the year. */
  function LeapDays(year: nat): int { year / 4 - year / 100 + year / 400 }

  /** The day of the year counting from 0. From March on, five months have 153 days. */
  function YearDay(d: Date): int
    requires d.year > 0 && 1 <= d.month <= 12
  {
    if d.month <= 2 then 31 * (d.month - 1) + d.day - 1
    else 59 + LeapDays(d.year) - LeapDays(d.year - 1) + (153 * (d.month - 3) + 2) / 5 + d.day - 1
  }

  /** Seconds since the epoch as POSIX.1-2017 defines them, where years count from 1900. */
  function PosixSeconds(d: Date): int
    requires d.year >= 1970 && 1 <= d.month <= 12
  {
    var y := d.year - 1900;
    d.second + d.minute * 60 + d.hour * 3600 + YearDay(d) * 86400 + (y - 70) * 31536000 + (y - 69) / 4 * 86400
    - (y - 1) / 100 * 86400 + (y + 299) / 400 * 86400
  }

  lemma LeapDay(year: nat)
    requires year > 0
    ensures LeapDays(year) - LeapDays(year - 1) == YearLength(year) - 365
  {
    Multiples(year);
    Divides(year);
  }

  lemma Multiples(x: nat)
    requires x > 0
    ensures x / 4 - (x - 1) / 4 == if x % 4 == 0 then 1 else 0
    ensures x / 100 - (x - 1) / 100 == if x % 100 == 0 then 1 else 0
    ensures x / 400 - (x - 1) / 400 == if x % 400 == 0 then 1 else 0
  {
  }

  lemma Hundreds(q: nat)
    ensures 100 * q % 100 == 0
  {
  }

  lemma Fours(q: nat)
    ensures 4 * q % 4 == 0
  {
  }

  lemma Divides(x: nat)
    ensures x % 400 == 0 ==> x % 100 == 0
    ensures x % 100 == 0 ==> x % 4 == 0
  {
    if x % 400 == 0 {
      assert x == 100 * (4 * (x / 400));
      Hundreds(4 * (x / 400));
    }
    if x % 100 == 0 {
      assert x == 4 * (25 * (x / 100));
      Fours(25 * (x / 100));
    }
  }

  lemma {:induction false} YearStartIs(year: nat)
    requires year >= 1970
    ensures YearStart(year) == (year - 1970) * 365 + LeapDays(year - 1) - 477
  {
    if year > 1970 {
      YearStartIs(year - 1);
      LeapDay(year - 1);
    }
  }

  lemma YearTerms(year: nat)
    requires year >= 1970
    ensures LeapDays(year - 1) - 477 == (year - 1969) / 4 - (year - 1901) / 100 + (year - 1601) / 400
  {
    var y := year - 1;
    assert y / 4 == (y - 1968) / 4 + 492;
    assert y / 100 == (y - 1900) / 100 + 19;
    assert y / 400 == (y - 1600) / 400 + 4;
  }

  lemma YearDayIs(d: Date)
    requires d.year > 0 && 1 <= d.month <= 12
    ensures YearDay(d) == MonthStart(d.year, d.month - 1) + d.day - 1
  {
    LeapDay(d.year);
    MonthStarts(d.year, d.month - 1);
  }

  lemma {:induction false} MonthStarts(year: nat, month: nat)
    requires month < 12
    ensures MonthStart(year, month) ==
            if month < 2 then 31 * month else YearLength(year) - 306 + (153 * (month - 2) + 2) / 5
  {
    if month > 0 { MonthStarts(year, month - 1); }
  }

  /** The table, the leap-year rule and the loops over years and months count what POSIX counts. */
  lemma SecondsArePosix(d: Date)
    requires d.year >= 1970 && 1 <= d.month <= 12
    ensures Seconds(d) == PosixSeconds(d)
  {
    hide YearStart, MonthStart, YearDay, LeapDays;
    YearStartIs(d.year);
    YearTerms(d.year);
    YearDayIs(d);
  }

  /** A month has the days up to the first of the next. */
  lemma LengthsArePosix(d: Date)
    requires d.year >= 1970 && 1 <= d.month <= 12
    ensures var next := if d.month < 12 then d.(month := d.month + 1) else d.(year := d.year + 1, month := 1);
            PosixSeconds(next) == PosixSeconds(d) + 86400 * MonthLength(d.year, d.month - 1)
  {
    hide YearStart, YearLength, PosixSeconds, MonthLength, MonthStart;
    var next := if d.month < 12 then d.(month := d.month + 1) else d.(year := d.year + 1, month := 1);
    SecondsArePosix(d);
    SecondsArePosix(next);
    MonthEnds(d.year, d.month - 1);
    YearEnds(d.year);
    YearEnds(d.year + 1);
  }

  lemma YearEnds(year: nat)
    ensures MonthStart(year, 12) == YearLength(year) && MonthStart(year, 0) == 0
    ensures YearStart(year + 1) == YearStart(year) + YearLength(year)
  {
    assert MonthStart(year, 1) == 31;
    assert MonthStart(year, 2) == 31 + MonthLength(year, 1);
    assert MonthStart(year, 4) == MonthStart(year, 2) + 61;
    assert MonthStart(year, 6) == MonthStart(year, 4) + 61;
    assert MonthStart(year, 8) == MonthStart(year, 6) + 62;
    assert MonthStart(year, 10) == MonthStart(year, 8) + 61;
  }

  lemma {:induction false} MonthsAscend(year: nat, a: nat, b: nat)
    requires a < b <= 12
    ensures MonthStart(year, a) + MonthLength(year, a) <= MonthStart(year, b)
    decreases b
  {
    if a + 1 < b { MonthsAscend(year, a, b - 1); }
  }

  lemma {:induction false} YearsAscend(a: nat, b: nat)
    requires a < b
    ensures YearStart(a) + YearLength(a) <= YearStart(b)
    decreases b
  {
    YearEnds(b - 1);
    if a + 1 < b { YearsAscend(a, b - 1); }
  }

  /** The day of the year stays within the year. */
  lemma DayInYear(d: Date)
    requires IsDate(d)
    ensures MonthStart(d.year, d.month - 1) + d.day - 1 < YearLength(d.year)
  {
    YearEnds(d.year);
    if d.month < 12 { MonthsAscend(d.year, d.month - 1, 12); }
  }

  lemma DayDetermines(a: Date, b: Date)
    requires IsDate(a) && IsDate(b) && DayNumber(a) == DayNumber(b)
    ensures a.year == b.year && a.month == b.month && a.day == b.day
  {
    hide YearStart, MonthStart, YearLength, MonthLength;
    DayInYear(a);
    DayInYear(b);
    if a.year < b.year { YearsAscend(a.year, b.year); }
    if b.year < a.year { YearsAscend(b.year, a.year); }
    if a.month < b.month { MonthsAscend(a.year, a.month - 1, b.month - 1); }
    if b.month < a.month { MonthsAscend(a.year, b.month - 1, a.month - 1); }
  }

  /** A date is determined by its seconds since the epoch. */
  lemma SecondsDetermine(a: Date, b: Date)
    requires IsDate(a) && IsDate(b) && Seconds(a) == Seconds(b)
    ensures a == b
  {
    DayDetermines(a, b);
  }

  function DayBefore(d: Date): Date
    requires IsDate(d) && d.year > 0
  {
    if d.day > 1 then d.(day := d.day - 1)
    else if d.month > 1 then d.(month := d.month - 1, day := MonthLength(d.year, d.month - 2))
    else d.(year := d.year - 1, month := 12, day := 31)
  }

  function DayAfter(d: Date): Date
    requires IsDate(d)
  {
    if d.day < MonthLength(d.year, d.month - 1) then d.(day := d.day + 1)
    else if d.month < 12 then d.(month := d.month + 1, day := 1)
    else d.(year := d.year + 1, month := 1, day := 1)
  }

  lemma AfterIsNext(d: Date)
    requires IsDate(d)
    ensures IsDate(DayAfter(d)) && DayNumber(DayAfter(d)) == DayNumber(d) + 1
  {
    hide MonthStart, YearStart, YearLength;
    YearEnds(d.year);
    YearEnds(d.year + 1);
    MonthEnds(d.year, d.month - 1);
  }

  lemma BeforeIsPrevious(d: Date)
    requires IsDate(d) && d.year > 0
    ensures IsDate(DayBefore(d)) && DayNumber(DayBefore(d)) == DayNumber(d) - 1
  {
    hide MonthStart, YearStart, YearLength;
    YearEnds(d.year);
    YearEnds(d.year - 1);
    MonthEnds(d.year - 1, 11);
    if d.month > 1 { MonthEnds(d.year, d.month - 2); }
  }

  /** Moving by whole days and setting the hour. */
  lemma ClockMoves(was: Date, base: Date, days: int, hour: nat, hours: int)
    requires IsDate(was) && IsDate(base) && DayNumber(base) == DayNumber(was) + days
    requires base.minute == was.minute && base.second == was.second
    ensures IsDate(base.(hour := hour)) <==> hour < 24
    ensures hour == was.hour + hours - 24 * days ==> Seconds(base.(hour := hour)) == Seconds(was) + 3600 * hours
  {
    hide YearStart, MonthStart;
    assert DayNumber(base.(hour := hour)) == DayNumber(base);
    hide DayNumber;
  }

  lemma MonthEnds(year: nat, month: nat)
    requires month < 12
    ensures MonthStart(year, month + 1) == MonthStart(year, month) + MonthLength(year, month)
  {}

  lemma LengthIs(year: nat, month: nat)
    requires month < 12
    ensures MonthLength(year, month) == if month == 1 && IsLeapYear(year) then 29 else DAYS_IN_MONTH[month]
    ensures MonthLength(year, 11) == 31
  {}

  lemma ClockSplit(t: nat)
    ensures t == ((t / 60 / 60 / 24 * 24 + t / 60 / 60 % 24) * 60 + t / 60 % 60) * 60 + t % 60
  {}

  lemma FirstYear()
    ensures YearStart(1970) == 0
  {}

  lemma YearLengthIs(year: nat)
    ensures YearLength(year) == if IsLeapYear(year) then 366 else 365
  {}

  /** Dates before 1970 have negative seconds. */
  lemma FromEpoch(d: Date)
    requires IsDate(d) && Seconds(d) >= 0
    ensures d.year >= 1970
  {
    hide YearStart, MonthStart;
    DayInYear(d);
    FirstYear();
    if d.year < 1970 { YearsAscend(d.year, 1970); }
  }

  class RtcDate {
    var second: nat
    var minute: nat
    var hour: nat
    var day: nat
    var month: nat
    var year: nat

    function Value(): Date
      reads this
    {
      Date(year, month, day, hour, minute, second)
    }

    /** timestamp_to_date: the date whose seconds since the epoch are the timestamp. */
    method TimestampToDate(timestamp: nat)
      modifies this
      ensures IsDate(Value()) && year >= 1970 && Seconds(Value()) == timestamp == PosixSeconds(Value())
    {
      hide YearStart, MonthStart, YearLength, MonthLength, PosixSeconds;
      var seconds := timestamp;
      second := seconds % 60;
      seconds := seconds / 60;
      minute := seconds % 60;
      seconds := seconds / 60;
      hour := seconds % 24;
      var days := seconds / 24;
      ghost var total := days;
      ClockSplit(timestamp);
      label Clock:
      var y := 1970;
      FirstYear();
      while true
        invariant y >= 1970 && YearStart(y) + days == total && unchanged@Clock(this)
        decreases days
      {
        var daysThisYear := if IsLeapYear(y) then 366 else 365;
        YearEnds(y);
        YearLengthIs(y);
        if days < daysThisYear {
          break;
        }
        days := days - daysThisYear;
        y := y + 1;
      }
      year := y;
      label Year:
      var m := 0;
      while m < 12
        invariant m <= 12 && YearStart(y) + MonthStart(y, m) + days == total
        invariant MonthStart(y, m) + days < MonthStart(y, 12)
        invariant unchanged@Year(this)
      {
        var daysThisMonth := DAYS_IN_MONTH[m];
        if m == 1 && IsLeapYear(y) {
          daysThisMonth := 29;
        }
        LengthIs(y, m);
        MonthEnds(y, m);
        if days < daysThisMonth {
          break;
        }
        days := days - daysThisMonth;
        m := m + 1;
      }
      month := m + 1;
      day := days + 1;
      assert DayNumber(Value()) == total;
      SecondsArePosix(Value());
    }

    /** adjust_timezone, for any offset: the time moves by that many hours, as long as the day
        changes by at most one, and exactly then is the result a date. */
    method AdjustTimezone(hours: int)
      requires IsDate(Value()) && year > 0 && -0x8000_0000 <= hours < 0x7fff_ffe8
      modifies this
      ensures IsDate(Value()) <==> -24 <= old(hour) + hours < 48
      ensures IsDate(Value()) ==> Seconds(Value()) == old(Seconds(Value())) + 3600 * hours
      ensures var h := old(hour) + hours;
              var moved := if h < 0 then h + 24 else if h >= 24 then h - 24 else h;
              hour == if moved >= 0 then moved else moved + 0x1_0000_0000_0000_0000
    {
      hide DayNumber, Seconds, MonthLength;
      ghost var was, base, moved := Value(), Value(), 0;
      AfterIsNext(was);
      BeforeIsPrevious(was);
      var newHour := hour + hours;
      if newHour < 0 {
        newHour := newHour + 24;
        day := day - 1;
        if day < 1 {
          month := month - 1;
          if month < 1 {
            month := 12;
            year := year - 1;
          }
          var days := DAYS_IN_MONTH[month - 1];
          if month == 2 && IsLeapYear(year) {
            days := 29;
          }
          day := days;
        }
        base, moved := DayBefore(was), -1;
        assert Value() == base by { LengthIs(year, month - 1); }
      } else if newHour >= 24 {
        newHour := newHour - 24;
        day := day + 1;
        var days := DAYS_IN_MONTH[month - 1];
        if month == 2 && IsLeapYear(year) {
          days := 29;
        }
        if day > days {
          day := 1;
          month := month + 1;
          if month > 12 {
            month := 1;
            year := year + 1;
          }
        }
        base, moved := DayAfter(was), 1;
        assert Value() == base by { LengthIs(was.year, was.month - 1); }
      }
      hour := if newHour >= 0 then newHour else newHour + 0x1_0000_0000_0000_0000;
      ClockMoves(was, base, moved, hour, hours);
    }

    /** sys_datetime: the date two hours after the boot time plus the time since boot, counted in
        cycles of a 10 MHz clock. */
    method SysDatetime(bootEpoch: nat, cycles: nat)
      modifies this
      ensures IsDate(Value()) && Seconds(Value()) == bootEpoch + cycles / 10_000_000 + 7200
      ensures year >= 1970 && Seconds(Value()) == PosixSeconds(Value())
    {
      TimestampToDate(bootEpoch + cycles / 10_000_000);
      AdjustTimezone(2);
      FromEpoch(Value());
      SecondsArePosix(Value());
    }
  }

  /** Converting and then adjusting by up to a day either way is converting the moved timestamp,
      whenever that is not before the epoch. */
  method AdjustIsConvert(a: RtcDate, b: RtcDate, timestamp: nat, hours: int)
    requires a != b && -24 <= hours <= 24 && timestamp + 3600 * hours >= 0
    modifies a, b
    ensures IsDate(a.Value()) && a.Value() == b.Value() && Seconds(b.Value()) == timestamp + 3600 * hours
  {
    a.TimestampToDate(timestamp);
    a.AdjustTimezone(hours);
    b.TimestampToDate(timestamp + 3600 * hours);
    SecondsDetermine(a.Value(), b.Value());
  }
}
