/** Day counts as Gregorian dates (`civil` in crates/polywan/src/events.rs) and
    weekdays (`rfc5322_date` in crates/polywan/src/mail.rs). */
module Calendar {
  datatype Date = Date(year: int, month: int, day: int)

  // -------------------------------------------------------------- the calendar

  /** Leap years of the proleptic Gregorian calendar. */
  predicate Leap(y: int) { y % 4 == 0 && (y % 100 != 0 || y % 400 == 0) }

  /** The last day of a month (section 5.7 of RFC 3339). */
  function DaysIn(y: int, m: int): int
  {
    if m == 2 then (if Leap(y) then 29 else 28) else if m == 4 || m == 6 || m == 9 || m == 11 then 30 else 31
  }

  predicate ValidDate(d: Date) { 1 <= d.month <= 12 && 1 <= d.day <= DaysIn(d.year, d.month) }

  /** The day after. */
  function NextDay(d: Date): Date
  {
    if d.day < DaysIn(d.year, d.month) then d.(day := d.day + 1)
    else if d.month < 12 then Date(d.year, d.month + 1, 1)
    else Date(d.year + 1, 1, 1)
  }

  // ------------------------------------------------------------- the algorithm

  /** The year of a 400-year era that a day of the era falls in; years start in
      March. */
  function YearOfEra(doe: int): int { (doe - doe / 1460 + doe / 36524 - doe / 146096) / 365 }

  function DayOfYear(doe: int): int { doe - (365 * YearOfEra(doe) + YearOfEra(doe) / 4 - YearOfEra(doe) / 100) }

  /** The date of a day of a March-based year. */
  function FromYearDay(y: int, doy: int): Date
  {
    var mp := (5 * doy + 2) / 153;
    var d := doy - (153 * mp + 2) / 5 + 1;
    var m := if mp < 10 then mp + 3 else mp - 9;
    Date(if m <= 2 then y + 1 else y, m, d)
  }

  /** Year, month and day of a day count since 1970-01-01. */
  function Civil(days: int): Date
  {
    var z := days + 719468;
    var doe := z % 146097;
    FromYearDay(YearOfEra(doe) + z / 146097 * 400, DayOfYear(doe))
  }

  // ---------------------------------------------------------- years of an era

  /** A day of an era as century, leap cycle, year of the cycle and the rest. */
  predicate Split(doe: int, c: int, q: int, a: int, doy: int)
  {
    && 0 <= c <= 3 && 0 <= q <= 24 && 0 <= a <= 3 && 0 <= doy <= 365
    && doe == 36524 * c + 1461 * q + 365 * a + doy
    && (doy == 365 ==> a == 3 && (q < 24 || c == 3))
  }

  lemma SplitDay(doe: int) returns (c: int, q: int, a: int, doy: int)
    requires 0 <= doe < 146097
    ensures Split(doe, c, q, a, doy)
  {
    c := if doe == 146096 then 3 else doe / 36524;
    var r := doe - 36524 * c;
    q := r / 1461;
    var s := r - 1461 * q;
    a := if s == 1460 then 3 else s / 365;
    doy := s - 365 * a;
  }

  lemma CenturyTerms(doe: int, c: int, q: int, a: int, doy: int)
    requires Split(doe, c, q, a, doy)
    ensures doe / 36524 - doe / 146096 == c
  {
    var r := 1461 * q + 365 * a + doy;
    assert 0 <= r <= 36524 && (r == 36524 ==> c == 3);
  }

  lemma CycleTerm(doe: int, c: int, q: int, a: int, doy: int)
    requires Split(doe, c, q, a, doy)
    ensures var t := 24 * c + q + 365 * a + doy;
            doe / 1460 == 25 * c + q + (if t >= 1460 then 1 else 0)
  {
    var t := 24 * c + q + 365 * a + doy;
    assert doe == 1460 * (25 * c + q) + t && 0 <= t < 2920;
  }

  /** The year formula finds the year of the decomposition. */
  lemma YearIs(doe: int, c: int, q: int, a: int, doy: int)
    requires Split(doe, c, q, a, doy)
    ensures YearOfEra(doe) == 100 * c + 4 * q + a && DayOfYear(doe) == doy
  {
    CenturyTerms(doe, c, q, a, doy);
    CycleTerm(doe, c, q, a, doy);
    var y := 100 * c + 4 * q + a;
    var f := doe - doe / 1460 + doe / 36524 - doe / 146096;
    assert 365 * y <= f < 365 * (y + 1);
    assert f / 365 == y;
    assert y / 4 == 25 * c + q && y / 100 == c;
  }

  // ------------------------------------------------------- years of all time

  /** Days before the first of March of a year. */
  function Start(y: int): int { 365 * y + y / 4 - y / 100 + y / 400 }

  /** The February of a March-based year is that of the next calendar year. */
  function YearLength(y: int): int { if Leap(y + 1) then 366 else 365 }

  lemma StartNext(y: int)
    ensures Start(y + 1) == Start(y) + YearLength(y)
  {
    Quotient(y, 4);
    Quotient(y, 100);
    Quotient(y, 400);
  }

  lemma Quotient(y: int, n: int)
    requires n > 1
    ensures (y + 1) / n == y / n + (if (y + 1) % n == 0 then 1 else 0)
  {
    var k, r := y / n, y % n;
    assert y == n * k + r;
    if r + 1 == n {
      assert y + 1 == n * (k + 1) by { assert n * (k + 1) == n * k + n; }
      DivMod(y + 1, n, k + 1, 0);
    } else {
      DivMod(y + 1, n, k, r + 1);
    }
  }

  lemma DivMod(x: int, n: int, k: int, r: int)
    requires n > 0 && 0 <= r < n && x == n * k + r
    ensures x / n == k && x % n == r
  {
    var d := x / n - k;
    assert n * d == r - x % n by { assert n * (x / n - k) == n * (x / n) - n * k; }
    Multiples(n, d);
  }

  lemma Multiples(n: int, d: int)
    requires n > 0
    ensures (d >= 1 ==> n * d >= n) && (d <= -1 ==> n * d <= -n)
  {
  }

  lemma {:induction false} StartGrows(y: int, y': int)
    requires y < y'
    ensures Start(y') >= Start(y + 1)
    decreases y' - y
  {
    if y + 1 < y' {
      StartGrows(y, y' - 1);
      StartNext(y' - 1);
    }
  }

  /** A day is in one year only. */
  lemma OneYear(y: int, doy: int, y': int, doy': int)
    requires 0 <= doy < YearLength(y) && 0 <= doy' < YearLength(y') && Start(y) + doy == Start(y') + doy'
    ensures y == y' && doy == doy'
  {
    StartNext(y);
    StartNext(y');
    if y < y' { StartGrows(y, y'); }
    if y' < y { StartGrows(y', y); }
  }

  lemma Shifted(y: int, e: int, n: int, k: int)
    requires n > 0 && n * k == 400
    ensures (y + e * 400) / n == y / n + k * e && (y + e * 400) % n == y % n
  {
    assert n * (y / n + k * e) == n * (y / n) + e * 400 by { assert n * (k * e) == n * k * e; }
    DivMod(y + e * 400, n, y / n + k * e, y % n);
  }

  lemma EraStart(e: int, y: int)
    requires 0 <= y < 400
    ensures Start(y + e * 400) == 365 * y + y / 4 - y / 100 + e * 146097
  {
    Shifted(y, e, 4, 100);
    Shifted(y, e, 100, 4);
    Shifted(y, e, 400, 1);
  }

  lemma LeapShifted(y: int, e: int)
    ensures Leap(y + e * 400) <==> Leap(y)
  {
    Shifted(y, e, 4, 100);
    Shifted(y, e, 100, 4);
    Shifted(y, e, 400, 1);
  }

  lemma EraLeap(c: int, q: int, a: int)
    requires 0 <= c <= 3 && 0 <= q <= 24 && 0 <= a <= 3
    ensures Leap(100 * c + 4 * q + a + 1) <==> a == 3 && (q < 24 || c == 3)
  {
    var y, w := 100 * c + 4 * q + a + 1, 4 * q + a + 1;
    if a < 3 {
      DivMod(y, 4, 25 * c + q, a + 1);
    } else {
      DivMod(y, 4, 25 * c + q + 1, 0);
      if q < 24 { DivMod(y, 100, c, w); } else { DivMod(y, 100, c + 1, 0); }
    }
  }

  lemma EraLength(e: int, c: int, q: int, a: int)
    requires 0 <= c <= 3 && 0 <= q <= 24 && 0 <= a <= 3
    ensures YearLength(100 * c + 4 * q + a + e * 400) == if a == 3 && (q < 24 || c == 3) then 366 else 365
  {
    hide Leap;
    LeapShifted(100 * c + 4 * q + a + 1, e);
    EraLeap(c, q, a);
  }

  /** The year and day of the year that the algorithm finds. */
  lemma YearDay(n: int) returns (y: int, doy: int)
    ensures Civil(n) == FromYearDay(y, doy)
    ensures 0 <= doy < YearLength(y) && n + 719468 == Start(y) + doy
  {
    hide Start, YearLength, YearOfEra, DayOfYear, FromYearDay;
    var z := n + 719468;
    var e, doe := z / 146097, z % 146097;
    var c, q, a, d := SplitDay(doe);
    YearIs(doe, c, q, a, d);
    var yoe := 100 * c + 4 * q + a;
    EraStart(e, yoe);
    EraLength(e, c, q, a);
    DivMod(yoe, 4, 25 * c + q, a);
    DivMod(yoe, 100, c, 4 * q + a);
    y, doy := yoe + e * 400, d;
  }

  // ------------------------------------------------------------------- months

  /** The first day of a month counted from March. */
  function MonthStart(mp: int): int { (153 * mp + 2) / 5 }

  lemma MonthOf(doy: int) returns (mp: int)
    requires 0 <= doy <= 365
    ensures 0 <= mp <= 11 && mp == (5 * doy + 2) / 153 && MonthStart(mp) <= doy
    ensures mp < 11 ==> doy < MonthStart(mp + 1)
  {
    mp := (5 * doy + 2) / 153;
    assert 153 * mp <= 5 * doy + 2 < 153 * (mp + 1);
  }

  lemma MonthLengths(y: int, mp: int)
    requires 0 <= mp <= 10
    ensures var m := if mp < 10 then mp + 3 else 1;
            MonthStart(mp + 1) - MonthStart(mp) == DaysIn(if m <= 2 then y + 1 else y, m)
    ensures MonthStart(11) == 337
  {
    if mp == 0 {} else if mp == 1 {} else if mp == 2 {} else if mp == 3 {} else if mp == 4 {} else if mp == 5 {}
    else if mp == 6 {} else if mp == 7 {} else if mp == 8 {} else if mp == 9 {} else {}
  }

  lemma MonthsAre(doy: int, mp: int)
    requires 0 <= doy && 0 <= mp <= 11 && MonthStart(mp) <= doy
    requires if mp < 11 then doy < MonthStart(mp + 1) else doy <= 366
    ensures (5 * doy + 2) / 153 == mp
  {
    assert 153 * mp <= 5 * doy + 2;
    assert 5 * doy + 2 < 153 * (mp + 1);
  }

  lemma FebruaryLength(y: int)
    ensures YearLength(y) - 337 == DaysIn(y + 1, 2)
  {
  }

  lemma YearDayValid(y: int, doy: int)
    requires 0 <= doy < YearLength(y)
    ensures ValidDate(FromYearDay(y, doy))
  {
    var mp := MonthOf(doy);
    FebruaryLength(y);
    if mp < 11 { MonthLengths(y, mp); }
  }

  lemma NextInYear(y: int, doy: int)
    requires 0 <= doy && doy + 1 < YearLength(y)
    ensures FromYearDay(y, doy + 1) == NextDay(FromYearDay(y, doy))
  {
    var mp := MonthOf(doy);
    FebruaryLength(y);
    if mp < 11 {
      MonthLengths(y, mp);
      if doy + 1 == MonthStart(mp + 1) {
        if mp < 10 { MonthLengths(y, mp + 1); }
        MonthsAre(doy + 1, mp + 1);
      } else {
        MonthsAre(doy + 1, mp);
      }
    } else {
      MonthsAre(doy + 1, 11);
    }
  }

  lemma NextYear(y: int)
    ensures FromYearDay(y + 1, 0) == NextDay(FromYearDay(y, YearLength(y) - 1))
  {
    var mp := MonthOf(YearLength(y) - 1);
    MonthLengths(y, 10);
    FebruaryLength(y);
    MonthsAre(YearLength(y) - 1, 11);
  }

  // ----------------------------------------------------------------- theorems

  /** The epoch. */
  lemma Epoch()
    ensures Civil(0) == Date(1970, 1, 1)
  {
    DivMod(719468, 146097, 4, 135080);
    assert Split(135080, 3, 17, 1, 306);
    YearIs(135080, 3, 17, 1, 306);
  }

  /** Every result is a date of the calendar. */
  lemma CivilValid(n: int)
    ensures ValidDate(Civil(n))
  {
    var y, doy := YearDay(n);
    YearDayValid(y, doy);
  }

  /** The next day count is the next date, for every day of all time. */
  lemma CivilNext(n: int)
    ensures Civil(n + 1) == NextDay(Civil(n))
  {
    hide Civil, FromYearDay, NextDay, Start, YearLength;
    var y, doy := YearDay(n);
    var y', doy' := YearDay(n + 1);
    StartNext(y);
    if doy + 1 < YearLength(y) {
      OneYear(y, doy + 1, y', doy');
      NextInYear(y, doy);
    } else {
      LongYear(y + 1);
      OneYear(y + 1, 0, y', doy');
      NextYear(y);
    }
  }

  lemma LongYear(y: int)
    ensures YearLength(y) >= 365
  {
  }

  /** The day count of a date, from the calendar alone. */
  function DayNumber(d: Date): int
  {
    var y := if d.month <= 2 then d.year - 1 else d.year;
    var mp := if d.month > 2 then d.month - 3 else d.month + 9;
    Start(y) + MonthStart(mp) + d.day - 1 - 719468
  }

  /** Every date of the calendar is the date of exactly one day count. */
  lemma CivilBijective(n: int, d: Date)
    ensures DayNumber(Civil(n)) == n
    ensures ValidDate(d) ==> Civil(DayNumber(d)) == d
  {
    NumberOfCivil(n);
    if ValidDate(d) { CivilOfNumber(d); }
  }

  lemma NumberOfCivil(n: int)
    ensures DayNumber(Civil(n)) == n
  {
    hide Start, Civil, YearLength;
    var y, doy := YearDay(n);
    LongYearBound(y);
    var mp := MonthOf(doy);
  }

  lemma LongYearBound(y: int)
    ensures YearLength(y) <= 366
  {
  }

  lemma CivilOfNumber(d: Date)
    requires ValidDate(d)
    ensures Civil(DayNumber(d)) == d
  {
    hide Start, Civil;
    var y := if d.month <= 2 then d.year - 1 else d.year;
    var mp := if d.month > 2 then d.month - 3 else d.month + 9;
    var doy := MonthStart(mp) + d.day - 1;
    FebruaryLength(y);
    if mp < 11 {
      MonthLengths(y, mp);
      BeforeFebruary(mp + 1);
    } else {
      MonthLengths(y, 10);
    }
    MonthsAre(doy, mp);
    assert FromYearDay(y, doy) == d;
    var y', doy' := YearDay(DayNumber(d));
    OneYear(y, doy, y', doy');
  }

  lemma BeforeFebruary(mp: int)
    requires 1 <= mp <= 11
    ensures MonthStart(mp) <= 337
  {
  }

  // ----------------------------------------------------------------- weekdays

  const WEEKDAYS: seq<string> := ["Thu", "Fri", "Sat", "Sun", "Mon", "Tue", "Wed"]

  function Weekday(n: int): string { WEEKDAYS[n % 7] }

  /** The week used by a date (section 3.3 of RFC 5322). */
  function NextWeekday(w: string): string
  {
    if w == "Mon" then "Tue" else if w == "Tue" then "Wed" else if w == "Wed" then "Thu" else if w == "Thu" then "Fri"
    else if w == "Fri" then "Sat" else if w == "Sat" then "Sun" else "Mon"
  }

  /** The weekday advances with the date, and the calendar repeats every 400
      years, weekdays included. */
  lemma WeekdayAdvances(n: int)
    ensures Weekday(0) == "Thu" && Weekday(n + 1) == NextWeekday(Weekday(n))
    ensures Weekday(n + 146097) == Weekday(n)
    ensures Civil(n + 146097) == Civil(n).(year := Civil(n).year + 400)
  {
    hide Civil;
    var r := n % 7;
    NextName(r);
    hide NextWeekday;
    DivMod(n + 1, 7, if r == 6 then n / 7 + 1 else n / 7, if r == 6 then 0 else r + 1);
    DivMod(n + 146097, 7, n / 7 + 20871, r);
    Repeats(n);
  }

  lemma NextName(r: int)
    requires 0 <= r < 7
    ensures WEEKDAYS[if r == 6 then 0 else r + 1] == NextWeekday(WEEKDAYS[r])
  {
    if r == 0 {} else if r == 1 {} else if r == 2 {} else if r == 3 {} else if r == 4 {} else if r == 5 {} else {}
  }

  lemma Repeats(n: int)
    ensures Civil(n + 146097) == Civil(n).(year := Civil(n).year + 400)
  {
    hide YearOfEra, DayOfYear;
    var z := n + 719468;
    DivMod(z + 146097, 146097, z / 146097 + 1, z % 146097);
  }
}
