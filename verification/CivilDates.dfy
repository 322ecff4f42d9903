/** Dates of `Retry-After` headers (section 5.6.7 of RFC 9110) as days and seconds since 1970. */
module CivilDates {
  import opened Wrappers

  /** Integer division that drops the fraction, as the source language has it. */
  function Truncate(a: int, b: int): int
    requires b > 0
  {
    if a >= 0 then a / b else -(-a / b)
  }

  /** Days since 1970-01-01; years begin in March, so a leap day is the last of its year. */
  function DaysFromCivil(year: int, month: int, day: int): int
    requires 1 <= month <= 12
  {
    var y := if month <= 2 then year - 1 else year;
    var era := Truncate(if y >= 0 then y else y - 399, 400);
    var yoe := y - era * 400;
    var mp := (month + 9) % 12;
    var doy := Truncate(153 * mp + 2, 5) + day - 1;
    var doe := yoe * 365 + Truncate(yoe, 4) - Truncate(yoe, 100) + doy;
    era * 146097 + doe - 719468
  }

  // ---------------------------------------------------- the Gregorian calendar

  predicate Leap(year: int) {
    year % 4 == 0 && (year % 100 != 0 || year % 400 == 0)
  }

  function MonthLength(year: int, month: int): int
    requires 1 <= month <= 12
  {
    if month == 2 then (if Leap(year) then 29 else 28)
    else if month == 4 || month == 6 || month == 9 || month == 11 then 30 else 31
  }

  datatype Date = Date(year: int, month: int, day: int)

  predicate Valid(d: Date) {
    1 <= d.month <= 12 && 1 <= d.day <= MonthLength(d.year, d.month)
  }

  function Tomorrow(d: Date): (t: Date)
    requires Valid(d)
    ensures Valid(t)
  {
    if d.day < MonthLength(d.year, d.month) then d.(day := d.day + 1)
    else if d.month < 12 then Date(d.year, d.month + 1, 1)
    else Date(d.year + 1, 1, 1)
  }

  predicate Earlier(a: Date, b: Date) {
    || a.year < b.year
    || (a.year == b.year && a.month < b.month)
    || (a.year == b.year && a.month == b.month && a.day < b.day)
  }

  function Days(d: Date): int
    requires Valid(d)
  {
    DaysFromCivil(d.year, d.month, d.day)
  }

  // --------------------------------------------------------------- the proofs

  /** Days before the first of March of a year, with floors. */
  function Marches(y: int): int {
    y / 400 * 146097 + y % 400 * 365 + y % 400 / 4 - y % 400 / 100
  }

  /** The truncating division, as it is used, rounds down for negative years too. */
  lemma EraIsFloor(y: int)
    ensures Truncate(if y >= 0 then y else y - 399, 400) == y / 400
  {
  }

  /** Days from the first of March to the first of a month. */
  function Offset(month: int): int {
    (153 * ((month + 9) % 12) + 2) / 5
  }

  lemma OffsetTable()
    ensures Offset(3) == 0 && Offset(4) == 31 && Offset(5) == 61 && Offset(6) == 92 && Offset(7) == 122
            && Offset(8) == 153
    ensures Offset(9) == 184 && Offset(10) == 214 && Offset(11) == 245 && Offset(12) == 275 && Offset(1) == 306
            && Offset(2) == 337
  {
  }

  lemma DaysAreMarches(year: int, month: int, day: int)
    requires 1 <= month <= 12
    ensures DaysFromCivil(year, month, day)
            == Marches(if month <= 2 then year - 1 else year) + Offset(month) + day - 1 - 719468
  {
    EraIsFloor(if month <= 2 then year - 1 else year);
  }

  lemma By4(q: int, r: int)
    requires 0 <= r < 4
    ensures (4 * q + r) % 4 == r
  {
  }

  lemma By100(q: int, r: int)
    requires 0 <= r < 100
    ensures (100 * q + r) % 100 == r
  {
  }

  lemma By400(q: int, r: int)
    requires 0 <= r < 400
    ensures (400 * q + r) % 400 == r && (400 * q + r) / 400 == q
  {
  }

  lemma LeapWithin(era: int, yoe: int)
    requires 0 <= yoe < 400
    ensures Leap(era * 400 + yoe) <==> yoe % 4 == 0 && (yoe % 100 != 0 || yoe == 0)
  {
    var y := era * 400 + yoe;
    By4(era * 100 + yoe / 4, yoe % 4);
    assert y == 4 * (era * 100 + yoe / 4) + yoe % 4;
    By100(era * 4 + yoe / 100, yoe % 100);
    assert y == 100 * (era * 4 + yoe / 100) + yoe % 100;
    By400(era, yoe);
  }

  lemma QuartersAndCenturies(yoe: int)
    requires 0 <= yoe < 399
    ensures (yoe + 1) / 4 == yoe / 4 + if (yoe + 1) % 4 == 0 then 1 else 0
    ensures (yoe + 1) / 100 == yoe / 100 + if (yoe + 1) % 100 == 0 then 1 else 0
    ensures (yoe + 1) % 100 == 0 ==> (yoe + 1) % 4 == 0
  {
  }

  lemma MarchToMarch(y: int)
    ensures Marches(y + 1) - Marches(y) == 365 + if Leap(y + 1) then 1 else 0
  {
    var era, yoe := y / 400, y % 400;
    if yoe < 399 {
      By400(era, yoe + 1);
      LeapWithin(era, yoe + 1);
      QuartersAndCenturies(yoe);
    } else {
      By400(era + 1, 0);
      LeapWithin(era + 1, 0);
    }
  }

  lemma FebruaryAbuts(year: int)
    ensures DaysFromCivil(year, 3, 1) == DaysFromCivil(year, 2, 1) + MonthLength(year, 2)
  {
    DaysAreMarches(year, 2, 1);
    DaysAreMarches(year, 3, 1);
    OffsetTable();
    MarchToMarch(year - 1);
  }

  lemma DecemberAbuts(year: int)
    ensures DaysFromCivil(year + 1, 1, 1) == DaysFromCivil(year, 12, 1) + 31
  {
    DaysAreMarches(year, 12, 1);
    DaysAreMarches(year + 1, 1, 1);
    OffsetTable();
  }

  lemma OffsetStep(year: int, month: int)
    requires 1 <= month < 12 && month != 2
    ensures Offset(month + 1) == Offset(month) + MonthLength(year, month)
  {
    OffsetTable();
  }

  /** The first of the next month is the length of this month away. */
  lemma MonthsAbut(year: int, month: int)
    requires 1 <= month <= 12
    ensures month < 12 ==> DaysFromCivil(year, month + 1, 1) == DaysFromCivil(year, month, 1) + MonthLength(year, month)
    ensures month == 12 ==> DaysFromCivil(year + 1, 1, 1) == DaysFromCivil(year, month, 1) + MonthLength(year, month)
  {
    if month == 2 {
      FebruaryAbuts(year);
    } else if month == 12 {
      DecemberAbuts(year);
    } else {
      DaysAreMarches(year, month, 1);
      DaysAreMarches(year, month + 1, 1);
      OffsetStep(year, month);
    }
  }

  lemma DayOffset(year: int, month: int, day: int)
    requires 1 <= month <= 12
    ensures DaysFromCivil(year, month, day) == DaysFromCivil(year, month, 1) + day - 1
  {
  }

  /** The count is right at the epoch, and each calendar day is one more than the day before, in every year. */
  lemma CountsDays(d: Date)
    requires Valid(d)
    ensures Days(Date(1970, 1, 1)) == 0
    ensures Days(Tomorrow(d)) == Days(d) + 1
  {
    if d.day < MonthLength(d.year, d.month) {
      DayOffset(d.year, d.month, d.day);
      DayOffset(d.year, d.month, d.day + 1);
    } else {
      DayOffset(d.year, d.month, d.day);
      MonthsAbut(d.year, d.month);
    }
  }

  /** The month after. */
  function Next(y: int, m: int): (int, int)
    requires 1 <= m <= 12
  {
    if m == 12 then (y + 1, 1) else (y, m + 1)
  }

  /** From one month to a later one, at least the length of the first lies between. */
  lemma {:induction false} LaterMonth(y: int, m: int, y': int, m': int)
    requires 1 <= m <= 12 && 1 <= m' <= 12 && (y < y' || (y == y' && m < m'))
    ensures DaysFromCivil(y, m, 1) + MonthLength(y, m) <= DaysFromCivil(y', m', 1)
    decreases y' - y, 12 - m
  {
    hide DaysFromCivil, MonthLength;
    MonthsAbut(y, m);
    var (ny, nm) := Next(y, m);
    if (ny, nm) != (y', m') {
      LaterMonth(ny, nm, y', m');
      MonthsAreDays(ny, nm);
    }
  }

  lemma MonthsAreDays(y: int, m: int)
    requires 1 <= m <= 12
    ensures MonthLength(y, m) >= 28
  {
  }

  /** Later dates count more days. */
  lemma StrictlyMonotone(a: Date, b: Date)
    requires Valid(a) && Valid(b) && Earlier(a, b)
    ensures Days(a) < Days(b)
  {
    DayOffset(a.year, a.month, a.day);
    DayOffset(b.year, b.month, b.day);
    if a.year < b.year || a.month < b.month {
      LaterMonth(a.year, a.month, b.year, b.month);
    }
  }

  // -------------------------------------------------------------- the instants

  datatype Stamp = Stamp(date: Date, hour: nat, minute: nat, second: nat)

  /** Seconds since 1970 of the fields of a header date; a leap second counts as the second before it. */
  function Instant(s: Stamp): Option<nat>
    requires 1 <= s.date.month <= 12
  {
    if s.date.day <= 0 || s.date.day > 31 || s.hour > 23 || s.minute > 59 || s.second > 60 then None
    else
      var secs := DaysFromCivil(s.date.year, s.date.month, s.date.day) * 86400
                  + s.hour * 3600 + s.minute * 60 + if s.second < 59 then s.second else 59;
      if secs < 0 then None else Some(secs)
  }

  /** The fields the reader accepts: a day up to 31 in any month, and a leap second in any minute. */
  predicate InRange(s: Stamp) {
    1 <= s.date.month <= 12 && 1 <= s.date.day <= 31 && s.hour < 24 && s.minute < 60 && s.second <= 60
  }

  /** A day the month does not have is counted on into the next one. */
  function NormalDate(d: Date): (n: Date)
    requires 1 <= d.month <= 12 && 1 <= d.day <= 31
    ensures Valid(n)
  {
    var length := MonthLength(d.year, d.month);
    if d.day <= length then d else Date(d.year, d.month + 1, d.day - length)
  }

  function Normal(s: Stamp): Stamp
    requires InRange(s)
  {
    Stamp(NormalDate(s.date), s.hour, s.minute, if s.second < 59 then s.second else 59)
  }

  lemma NormalSameDay(d: Date)
    requires 1 <= d.month <= 12 && 1 <= d.day <= 31
    ensures DaysFromCivil(d.year, d.month, d.day) == Days(NormalDate(d))
  {
    var length := MonthLength(d.year, d.month);
    if d.day > length {
      DayOffset(d.year, d.month, d.day);
      MonthsAbut(d.year, d.month);
      DayOffset(d.year, d.month + 1, d.day - length);
    }
  }

  predicate StampEarlier(a: Stamp, b: Stamp) {
    || Earlier(a.date, b.date)
    || (a.date == b.date && a.hour < b.hour)
    || (a.date == b.date && a.hour == b.hour && a.minute < b.minute)
    || (a.date == b.date && a.hour == b.hour && a.minute == b.minute && a.second < b.second)
  }

  lemma InstantOfNormal(s: Stamp)
    requires 1 <= s.date.month <= 12
    ensures Instant(s).Some? <==> InRange(s) && Normal(s).date.year >= 1970
    ensures Instant(s).Some? ==>
              Instant(s).value == Days(Normal(s).date) * 86400 + s.hour * 3600 + s.minute * 60 + Normal(s).second
  {
    if InRange(s) {
      NormalSameDay(s.date);
      SinceEpoch(Normal(s).date);
    }
  }

  lemma EarlierOrNot(a: Date, b: Date)
    ensures Earlier(a, b) || Earlier(b, a) || a == b
  {
  }

  /**
   * Whatever the fields, a stamp is read exactly when they are in range and its calendar date is not
   * before 1970; and of two that are read, one is the earlier instant exactly when it is the earlier
   * date and time.
   */
  lemma InstantsFollowTheCalendar(a: Stamp, b: Stamp)
    requires 1 <= a.date.month <= 12 && 1 <= b.date.month <= 12
    ensures Instant(a).Some? <==> InRange(a) && Normal(a).date.year >= 1970
    ensures Instant(a).Some? && Instant(b).Some? ==>
              (Instant(a).value < Instant(b).value <==> StampEarlier(Normal(a), Normal(b)))
  {
    InstantOfNormal(a);
    InstantOfNormal(b);
    if Instant(a).Some? && Instant(b).Some? {
      var x, y := Normal(a).date, Normal(b).date;
      EarlierOrNot(x, y);
      if Earlier(x, y) {
        StrictlyMonotone(x, y);
      } else if Earlier(y, x) {
        StrictlyMonotone(y, x);
      }
    }
  }

  lemma SinceEpoch(d: Date)
    requires Valid(d)
    ensures Days(d) >= 0 <==> d.year >= 1970
  {
    var epoch := Date(1970, 1, 1);
    CountsDays(epoch);
    if Earlier(d, epoch) {
      StrictlyMonotone(d, epoch);
    } else if d != epoch {
      StrictlyMonotone(epoch, d);
    }
  }
}
