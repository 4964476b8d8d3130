/**
 * The proleptic Gregorian calendar: the closed forms between day numbers and dates, the plain
 * day-by-day calendar, and the proof that they agree on every integer. Day 0 is 1970-01-01.
 */
module Civil {
  datatype Date = Date(year: int, month: int, day: int)

  predicate Leap(y: int) {
    y % 4 == 0 && (y % 100 != 0 || y % 400 == 0)
  }

  function DaysInMonth(y: int, m: int): int {
    if m == 2 then if Leap(y) then 29 else 28
    else if m == 4 || m == 6 || m == 9 || m == 11 then 30
    else 31
  }

  predicate Valid(t: Date) {
    1 <= t.month <= 12 && 1 <= t.day <= DaysInMonth(t.year, t.month)
  }

  function NextDay(t: Date): Date {
    if t.day < DaysInMonth(t.year, t.month) then t.(day := t.day + 1)
    else if t.month < 12 then Date(t.year, t.month + 1, 1)
    else Date(t.year + 1, 1, 1)
  }

  function PreviousDay(t: Date): Date {
    if t.day > 1 then t.(day := t.day - 1)
    else if t.month > 1 then Date(t.year, t.month - 1, DaysInMonth(t.year, t.month - 1))
    else Date(t.year - 1, 12, 31)
  }

  const EPOCH := Date(1970, 1, 1)

  /** The date n days after the epoch, counted one day at a time. */
  function NaiveDate(n: int): Date
    decreases if n < 0 then -n else n
  {
    if n == 0 then EPOCH
    else if n > 0 then NextDay(NaiveDate(n - 1))
    else PreviousDay(NaiveDate(n + 1))
  }

  // ----- The closed forms -----

  /** Days before month `mp` of a year that starts in March. */
  function MonthStart(mp: int): int {
    (153 * mp + 2) / 5
  }

  /** Days before year `yoe` of a 400-year era that starts in March. */
  function YearStart(yoe: int): int {
    yoe * 365 + yoe / 4 - yoe / 100
  }

  function DaysFromCivil(y0: int, m0: int, d: int): int {
    var y := if m0 <= 2 then y0 - 1 else y0;
    var m := if m0 <= 2 then m0 + 9 else m0 - 3;
    var era := y / 400;
    var yoe := y - era * 400;
    var doy := MonthStart(m) + d - 1;
    var doe := YearStart(yoe) + doy;
    era * 146_097 + doe - 719_468
  }

  function YearOfEra(doe: int): int {
    (doe - doe / 1460 + doe / 36_524 - doe / 146_096) / 365
  }

  function MonthOfYear(doy: int): int {
    (5 * doy + 2) / 153
  }

  function CivilFromDays(days: int): Date {
    var z := days + 719_468;
    var era := z / 146_097;
    var doe := z - era * 146_097;
    var yoe := YearOfEra(doe);
    var doy := doe - YearStart(yoe);
    var mp := MonthOfYear(doy);
    var d := doy - MonthStart(mp) + 1;
    var m := if mp < 10 then mp + 3 else mp - 9;
    var y := yoe + era * 400 + (if m <= 2 then 1 else 0);
    Date(y, m, d)
  }

  // ----- Months -----

  /** The year starting in March has 366 days when the February that ends it is long. */
  function YearLength(yoe: int): int {
    if Leap(yoe + 1) then 366 else 365
  }

  function MonthLength(mp: int, yoe: int): int {
    if mp == 11 then YearLength(yoe) - 337 else MonthStart(mp + 1) - MonthStart(mp)
  }

  lemma MonthTable()
    ensures MonthStart(0) == 0 && MonthStart(1) == 31 && MonthStart(2) == 61 && MonthStart(3) == 92
    ensures MonthStart(4) == 122 && MonthStart(5) == 153 && MonthStart(6) == 184 && MonthStart(7) == 214
    ensures MonthStart(8) == 245 && MonthStart(9) == 275 && MonthStart(10) == 306 && MonthStart(11) == 337
  {
  }

  lemma MonthLengths(y: int, m: int)
    requires 1 <= m <= 12
    ensures DaysInMonth(y, m) == if m <= 2 then MonthLength(m + 9, y - 1) else MonthLength(m - 3, y)
  {
    MonthTable();
  }

  /** The month formula inverts the table of month starts. */
  lemma MonthInverts(mp: int, d: int, yoe: int)
    requires 0 <= mp <= 11 && 1 <= d <= MonthLength(mp, yoe)
    ensures MonthOfYear(MonthStart(mp) + d - 1) == mp
    ensures 0 <= MonthStart(mp) + d - 1 < YearLength(yoe)
  {
    MonthTable();
    var doy := MonthStart(mp) + d - 1;
    assert 153 * mp <= 5 * doy + 2 < 153 * (mp + 1);
  }

  lemma MonthOfDay(doy: int, yoe: int)
    requires 0 <= doy < YearLength(yoe)
    ensures 0 <= MonthOfYear(doy) <= 11
    ensures 1 <= doy - MonthStart(MonthOfYear(doy)) + 1 <= MonthLength(MonthOfYear(doy), yoe)
  {
    MonthTable();
    var mp := MonthOfYear(doy);
    assert 153 * mp <= 5 * doy + 2 < 153 * (mp + 1);
  }

  // ----- Years -----

  /** A year of the era as centuries, four-year cycles and single years. */
  lemma YearParts(yoe: int, c: int, q: int, r: int)
    requires 0 <= c < 4 && 0 <= q < 25 && 0 <= r < 4 && yoe == 100 * c + 4 * q + r
    ensures YearStart(yoe) == 36_524 * c + 1461 * q + 365 * r
    ensures YearLength(yoe) == if r == 3 && (q != 24 || c == 3) then 366 else 365
  {
    assert yoe / 4 == 25 * c + q;
    assert yoe / 100 == c;
    var n := yoe + 1;
    if r == 3 {
      assert n == 4 * (25 * c + q + 1);
      if q == 24 {
        assert n == 100 * (c + 1);
      } else {
        assert n == 100 * c + 4 * (q + 1);
      }
    } else {
      assert n == 4 * (25 * c + q) + (r + 1);
    }
  }

  /** The year formula inverts the table of year starts. */
  lemma YearInverts(yoe: int, doy: int)
    requires 0 <= yoe < 400 && 0 <= doy < YearLength(yoe)
    ensures YearOfEra(YearStart(yoe) + doy) == yoe
    ensures 0 <= YearStart(yoe) + doy < 146_097
  {
    var c, q, r := yoe / 100, yoe % 100 / 4, yoe % 4;
    YearParts(yoe, c, q, r);
    var doe := YearStart(yoe) + doy;
    Corrections(c, q, r, doy);
    assert doe == 36_524 * c + 1461 * q + 365 * r + doy;
  }

  /** The three corrections of the year formula, for the day `doy` of a year given by its parts. */
  lemma Corrections(c: int, q: int, r: int, doy: int)
    requires 0 <= c < 4 && 0 <= q < 25 && 0 <= r < 4
    requires 0 <= doy < if r == 3 && (q != 24 || c == 3) then 366 else 365
    ensures YearOfEra(36_524 * c + 1461 * q + 365 * r + doy) == 100 * c + 4 * q + r
    ensures 0 <= 36_524 * c + 1461 * q + 365 * r + doy < 146_097
  {
    var doe := 36_524 * c + 1461 * q + 365 * r + doy;
    assert doe / 36_524 - doe / 146_096 == c by {
      if doe == 146_096 {
        assert c == 3;
      } else {
        assert 36_524 * c <= doe < 36_524 * (c + 1);
      }
    }
    var w := 24 * c + q + 365 * r + doy;
    var e := if w >= 1460 then 1 else 0;
    assert doe == 1460 * (25 * c + q) + w;
    assert doe / 1460 == 25 * c + q + e;
    assert doe - doe / 1460 + c == 365 * (100 * c + 4 * q + r) + (doy - e);
    assert 0 <= doy - e < 365;
  }

  /** Every day of the era belongs to the year the formula finds. */
  lemma YearOfDay(doe: int)
    requires 0 <= doe < 146_097
    ensures var yoe := YearOfEra(doe); 0 <= yoe < 400 && 0 <= doe - YearStart(yoe) < YearLength(yoe)
  {
    var c := if doe / 36_524 < 4 then doe / 36_524 else 3;
    var inCentury := doe - 36_524 * c;
    var q := if inCentury / 1461 < 25 then inCentury / 1461 else 24;
    var inCycle := inCentury - 1461 * q;
    var r := if inCycle / 365 < 4 then inCycle / 365 else 3;
    var yoe, doy := 100 * c + 4 * q + r, inCycle - 365 * r;
    YearParts(yoe, c, q, r);
    YearInverts(yoe, doy);
  }

  // ----- The closed forms are inverse to each other -----

  /** The leap rule repeats every 400 years. */
  lemma LeapByEra(era: int, y: int)
    ensures Leap(y + era * 400) == Leap(y)
  {
    Mod4(era, y);
    Mod100(era, y);
    Mod400(era, y);
  }

  lemma Mod4(era: int, y: int)
    ensures (y + era * 400) % 4 == y % 4
  {
    assert y + era * 400 == 4 * (y / 4 + 100 * era) + y % 4;
  }

  lemma Mod100(era: int, y: int)
    ensures (y + era * 400) % 100 == y % 100
  {
    assert y + era * 400 == 100 * (y / 100 + 4 * era) + y % 100;
  }

  lemma Mod400(era: int, y: int)
    ensures (y + era * 400) % 400 == y % 400 && (0 <= y < 400 ==> (y + era * 400) / 400 == era)
  {
  }

  lemma MonthByEra(era: int, mp: int, yoe: int)
    ensures MonthLength(mp, yoe + era * 400) == MonthLength(mp, yoe)
  {
    LeapByEra(era, yoe + 1);
    assert yoe + era * 400 + 1 == yoe + 1 + era * 400;
  }

  /** A date in the calendar that starts in March: era, year of the era, month and day. */
  lemma FromMarch(era: int, yoe: int, mp: int, d: int)
    requires 0 <= yoe < 400 && 0 <= mp <= 11 && 1 <= d <= MonthLength(mp, yoe)
    ensures var m := if mp < 10 then mp + 3 else mp - 9;
            var y := yoe + era * 400 + (if m <= 2 then 1 else 0);
            && Valid(Date(y, m, d))
            && DaysFromCivil(y, m, d) == era * 146_097 + YearStart(yoe) + MonthStart(mp) + d - 1 - 719_468
            && CivilFromDays(DaysFromCivil(y, m, d)) == Date(y, m, d)
  {
    hide YearStart, YearOfEra, MonthStart, MonthOfYear, MonthLength, DaysInMonth;
    var m := if mp < 10 then mp + 3 else mp - 9;
    var y := yoe + era * 400 + (if m <= 2 then 1 else 0);
    MonthByEra(era, mp, yoe);
    MonthLengths(y, m);
    MonthInverts(mp, d, yoe);
    YearInverts(yoe, MonthStart(mp) + d - 1);
    Mod400(era, yoe);
    EraOfDay(era, YearStart(yoe) + MonthStart(mp) + d - 1);
  }

  lemma EraOfDay(era: int, doe: int)
    requires 0 <= doe < 146_097
    ensures (era * 146_097 + doe) / 146_097 == era
  {
  }

  /** Every day number has a valid date, and the other closed form maps it back. */
  lemma DaysRoundTrip(days: int)
    ensures var t := CivilFromDays(days);
            Valid(t) && DaysFromCivil(t.year, t.month, t.day) == days
  {
    hide YearOfEra, MonthOfYear, YearStart, MonthStart, Valid, DaysFromCivil;
    var z := days + 719_468;
    var era := z / 146_097;
    var doe := z - era * 146_097;
    YearOfDay(doe);
    var yoe := YearOfEra(doe);
    var doy := doe - YearStart(yoe);
    MonthOfDay(doy, yoe);
    FromMarch(era, yoe, MonthOfYear(doy), doy - MonthStart(MonthOfYear(doy)) + 1);
  }

  /** Every valid date has a day number, and the other closed form maps it back. */
  lemma DateRoundTrip(t: Date)
    requires Valid(t)
    ensures CivilFromDays(DaysFromCivil(t.year, t.month, t.day)) == t
  {
    hide MonthLength, DaysInMonth, CivilFromDays, DaysFromCivil;
    var y := if t.month <= 2 then t.year - 1 else t.year;
    var mp := if t.month <= 2 then t.month + 9 else t.month - 3;
    MonthByEra(y / 400, mp, y % 400);
    MonthLengths(t.year, t.month);
    FromMarch(y / 400, y % 400, mp, t.day);
  }

  // ----- Agreement with the day-by-day calendar -----

  lemma NextDayIsValid(t: Date)
    requires Valid(t)
    ensures Valid(NextDay(t)) && Valid(PreviousDay(t)) && NextDay(PreviousDay(t)) == t
  {
  }

  /** Consecutive years of the era follow each other without a gap, and so do the eras. */
  lemma YearsFollow(yoe: int)
    requires 0 <= yoe < 400
    ensures if yoe < 399 then YearStart(yoe) + YearLength(yoe) == YearStart(yoe + 1)
            else YearStart(yoe) + YearLength(yoe) == 146_097
  {
    var c, q, r := yoe / 100, yoe % 100 / 4, yoe % 4;
    YearParts(yoe, c, q, r);
    if r < 3 {
      YearParts(yoe + 1, c, q, r + 1);
    } else if q < 24 {
      YearParts(yoe + 1, c, q + 1, 0);
    } else if c < 3 {
      YearParts(yoe + 1, c + 1, 0, 0);
    }
  }

  /** The next day has the next number. */
  lemma NextDayNumber(t: Date)
    requires Valid(t)
    ensures var u := NextDay(t);
            DaysFromCivil(u.year, u.month, u.day) == DaysFromCivil(t.year, t.month, t.day) + 1
  {
    hide YearStart, MonthStart, MonthLength, DaysInMonth;
    var y := if t.month <= 2 then t.year - 1 else t.year;
    var mp := if t.month <= 2 then t.month + 9 else t.month - 3;
    MonthByEra(y / 400, mp, y % 400);
    MonthLengths(t.year, t.month);
    if t.day == DaysInMonth(t.year, t.month) {
      MonthsFollow(mp, y % 400);
      if mp == 11 {
        YearsFollow(y % 400);
        NextYear(y);
      }
    }
  }

  lemma MonthsFollow(mp: int, yoe: int)
    requires 0 <= mp <= 11
    ensures MonthStart(0) == YearStart(0) == 0
    ensures MonthStart(mp) + MonthLength(mp, yoe) == if mp == 11 then YearLength(yoe) else MonthStart(mp + 1)
  {
    hide MonthStart;
    MonthTable();
  }

  lemma NextYear(y: int)
    ensures if y % 400 == 399 then (y + 1) / 400 == y / 400 + 1 && (y + 1) % 400 == 0
            else (y + 1) / 400 == y / 400 && (y + 1) % 400 == y % 400 + 1
  {
  }

  /** The closed form is the calendar counted day by day, on every integer. */
  lemma {:induction false} ClosedFormIsNaive(n: int)
    ensures CivilFromDays(n) == NaiveDate(n) && Valid(NaiveDate(n))
    decreases if n < 0 then -n else n
  {
    hide CivilFromDays, DaysFromCivil, NextDay, PreviousDay, Valid;
    if n == 0 {
      EpochDate();
    } else {
      var m := if n > 0 then n - 1 else n + 1;
      var t := NaiveDate(m);
      ClosedFormIsNaive(m);
      DaysRoundTrip(m);
      NextDayIsValid(t);
      if n > 0 {
        NextDayNumber(t);
        DateRoundTrip(NextDay(t));
      } else {
        NextDayNumber(PreviousDay(t));
        DateRoundTrip(PreviousDay(t));
      }
    }
  }

  lemma EpochDate()
    ensures CivilFromDays(0) == EPOCH && Valid(EPOCH)
  {
    assert DaysFromCivil(1970, 1, 1) == 0;
    DateRoundTrip(EPOCH);
  }

  /** The other closed form counts the days from the epoch. */
  lemma DaysFromCivilIsNaive(t: Date)
    requires Valid(t)
    ensures NaiveDate(DaysFromCivil(t.year, t.month, t.day)) == t
    ensures forall n | NaiveDate(n) == t :: n == DaysFromCivil(t.year, t.month, t.day)
  {
    DateRoundTrip(t);
    ClosedFormIsNaive(DaysFromCivil(t.year, t.month, t.day));
    forall n | NaiveDate(n) == t
      ensures n == DaysFromCivil(t.year, t.month, t.day)
    {
      ClosedFormIsNaive(n);
      DaysRoundTrip(n);
    }
  }
}
