/**
 * Backup ids `YYYYMMDDTHHMMSSZ` as the number YYYYMMDDHHMMSS, so that comparing ids as text is
 * comparing numbers, and the UTC instants (milliseconds since 1970) they name.
 */
module Calendar {

  type Id = nat

  function Hour(id: Id): nat { id / 10000 % 100 }
  function Minute(id: Id): nat { id / 100 % 100 }
  function Second(id: Id): nat { id % 100 }

  /** The date part, YYYYMMDD. */
  function DayOf(id: Id): nat { id / 1000000 }

  /** The time of day, HHMMSS. */
  function ClockOf(id: Id): nat { id % 1000000 }

  predicate Leap(y: nat) {
    y % 4 == 0 && (y % 100 != 0 || y % 400 == 0)
  }

  function YearLength(y: nat): nat {
    if Leap(y) then 366 else 365
  }

  function MonthLength(y: nat, m: nat): nat {
    if m == 2 then (if Leap(y) then 29 else 28)
    else if m == 4 || m == 6 || m == 9 || m == 11 then 30
    else 31
  }

  function DaysBeforeYear(y: nat): int {
    365 * y + (y + 3) / 4 - (y + 99) / 100 + (y + 399) / 400
  }

  function DaysBeforeMonth(y: nat, m: nat): nat {
    if m <= 1 then 0 else DaysBeforeMonth(y, m - 1) + MonthLength(y, m - 1)
  }

  const EPOCH_DAY := 719528

  /** Days from 1970-01-01 to the date YYYYMMDD. */
  function DayNumber(day: nat): int {
    DaysBeforeYear(day / 10000) + DaysBeforeMonth(day / 10000, day / 100 % 100) + day % 100 - 1 - EPOCH_DAY
  }

  predicate ValidDay(day: nat) {
    var y, m, d := day / 10000, day / 100 % 100, day % 100;
    100 <= y <= 9999 && 1 <= m <= 12 && 1 <= d <= MonthLength(y, m)
  }

  /**
   * What survives the round trip through `Date.UTC`: every field in range. `Date.UTC` takes years
   * 0 to 99 as 1900 to 1999, so those do not survive it.
   */
  predicate ValidId(id: Id) {
    ValidDay(DayOf(id)) && Hour(id) < 24 && Minute(id) < 60 && Second(id) < 60
  }

  const DAY_MS := 86400000

  /** The instant an id names. */
  function Time(id: Id): int {
    DayNumber(DayOf(id)) * DAY_MS + ((Hour(id) * 60 + Minute(id)) * 60 + Second(id)) * 1000
  }

  /** getUTCDay() == 0; 1970-01-01 was a Thursday. */
  predicate Sunday(day: nat) {
    (DayNumber(day) + 4) % 7 == 0
  }

  predicate FirstOfMonth(day: nat) {
    day % 100 == 1
  }

  // ----- Comparing ids is comparing instants -----

  lemma YearStep(y: nat)
    ensures DaysBeforeYear(y + 1) == DaysBeforeYear(y) + YearLength(y)
  {
    assert (y + 4) / 4 - (y + 3) / 4 == if y % 4 == 0 then 1 else 0;
    assert (y + 100) / 100 - (y + 99) / 100 == if y % 100 == 0 then 1 else 0;
    assert (y + 400) / 400 - (y + 399) / 400 == if y % 400 == 0 then 1 else 0;
    assert y % 100 == 0 ==> y % 4 == 0;
    assert y % 400 == 0 ==> y % 100 == 0;
  }

  lemma {:induction false} YearsInOrder(a: nat, b: nat)
    requires a < b
    ensures DaysBeforeYear(a) + YearLength(a) <= DaysBeforeYear(b)
  {
    YearStep(b - 1);
    if a < b - 1 {
      YearsInOrder(a, b - 1);
    }
  }

  lemma {:induction false} MonthsInOrder(y: nat, a: nat, b: nat)
    requires 1 <= a < b
    ensures DaysBeforeMonth(y, a) + MonthLength(y, a) <= DaysBeforeMonth(y, b)
  {
    if a < b - 1 {
      MonthsInOrder(y, a, b - 1);
    }
  }

  lemma YearHoldsItsMonths(y: nat, m: nat)
    requires 1 <= m <= 12
    ensures DaysBeforeMonth(y, m) + MonthLength(y, m) <= YearLength(y)
  {
    assert DaysBeforeMonth(y, 4) == DaysBeforeMonth(y, 3) + 31;
    assert DaysBeforeMonth(y, 7) == DaysBeforeMonth(y, 6) + 30 == DaysBeforeMonth(y, 5) + 61;
    assert DaysBeforeMonth(y, 10) == DaysBeforeMonth(y, 9) + 30 == DaysBeforeMonth(y, 8) + 61;
    assert DaysBeforeMonth(y, 12) == DaysBeforeMonth(y, 11) + 30;
    if m < 12 {
      MonthsInOrder(y, m, 12);
    }
  }

  lemma TwoDigits(n: nat)
    ensures n / 10000 == n / 100 / 100
    ensures n == n / 10000 * 10000 + n / 100 % 100 * 100 + n % 100
  {
    var q := n / 100;
    assert n == 100 * q + n % 100 && q == 100 * (q / 100) + q % 100;
  }

  lemma DateInOrder(y: nat, m: nat, d: nat, z: nat, n: nat, e: nat)
    requires 1 <= m <= 12 && 1 <= n <= 12 && 1 <= d <= MonthLength(y, m) && 1 <= e
    requires y < z || (y == z && (m < n || (m == n && d < e)))
    ensures DaysBeforeYear(y) + DaysBeforeMonth(y, m) + d < DaysBeforeYear(z) + DaysBeforeMonth(z, n) + e
  {
    YearHoldsItsMonths(y, m);
    if y < z {
      YearsInOrder(y, z);
    } else if m < n {
      MonthsInOrder(y, m, n);
    }
  }

  lemma DaysInOrder(a: nat, b: nat)
    requires ValidDay(a) && ValidDay(b) && a < b
    ensures DayNumber(a) < DayNumber(b)
  {
    hide DaysBeforeYear, DaysBeforeMonth, MonthLength;
    TwoDigits(a);
    TwoDigits(b);
    var y, m, d := a / 10000, a / 100 % 100, a % 100;
    var z, n, e := b / 10000, b / 100 % 100, b % 100;
    assert y < z || (y == z && (m < n || (m == n && d < e)));
    DateInOrder(y, m, d, z, n, e);
  }

  /** Ids sort as the instants they name: text order is time order. */
  lemma IdsAreChronological(a: Id, b: Id)
    requires ValidId(a) && ValidId(b)
    ensures a < b <==> Time(a) < Time(b)
  {
    hide DayNumber;
    Earlier(a, b);
    Earlier(b, a);
  }

  lemma Earlier(a: Id, b: Id)
    requires ValidId(a) && ValidId(b)
    ensures a < b ==> Time(a) < Time(b)
  {
    hide DayNumber, ValidDay;
    if DayOf(a) < DayOf(b) {
      DaysInOrder(DayOf(a), DayOf(b));
    } else if a < b {
      assert DayOf(a) == DayOf(b) && ClockOf(a) < ClockOf(b);
      ClockInOrder(a, b);
    }
  }

  function ClockMs(id: Id): nat {
    ((Hour(id) * 60 + Minute(id)) * 60 + Second(id)) * 1000
  }

  lemma ClockFields(id: Id)
    ensures ClockOf(id) == Hour(id) * 10000 + Minute(id) * 100 + Second(id)
  {
    TwoDigits(id);
    var q := id / 10000;
    assert id / 1000000 == q / 100 && q == q / 100 * 100 + q % 100;
  }

  lemma ClockInOrder(a: Id, b: Id)
    requires ClockOf(a) < ClockOf(b) && Minute(a) < 60 && Second(a) < 60
    ensures ClockMs(a) < ClockMs(b)
  {
    ClockFields(a);
    ClockFields(b);
    assert Minute(b) < 100 && Second(b) < 100;
    hide Hour, Minute, Second, ClockOf;
    SixtyToHundred(Hour(a), Minute(a), Second(a), Hour(b), Minute(b), Second(b));
  }

  lemma SixtyToHundred(h: nat, m: nat, s: nat, i: nat, n: nat, t: nat)
    requires m < 60 && s < 60 && n < 100 && t < 100
    requires h * 10000 + m * 100 + s < i * 10000 + n * 100 + t
    ensures (h * 60 + m) * 60 + s < (i * 60 + n) * 60 + t
  {
    if h == i && m == n {
      assert s < t;
    }
  }

  // ----- Which instants -----

  /** The Gregorian months. */
  lemma MonthsAre(y: nat)
    ensures MonthLength(y, 2) == if y % 400 == 0 || (y % 4 == 0 && y % 100 != 0) then 29 else 28
    ensures forall m :: m in {1, 3, 5, 7, 8, 10, 12} ==> MonthLength(y, m) == 31
    ensures forall m :: m in {4, 6, 9, 11} ==> MonthLength(y, m) == 30
  {
  }

  function Date(y: nat, m: nat, d: nat): nat { y * 10000 + m * 100 + d }

  lemma DateFields(y: nat, m: nat, d: nat)
    requires m < 100 && d < 100
    ensures Date(y, m, d) / 10000 == y && Date(y, m, d) / 100 % 100 == m && Date(y, m, d) % 100 == d
  {
    assert Date(y, m, d) / 100 == y * 100 + m;
  }

  /** The day after a date, in the same month, the next one, or the next year. */
  function NextDay(y: nat, m: nat, d: nat): nat {
    if d < MonthLength(y, m) then Date(y, m, d + 1)
    else if m < 12 then Date(y, m + 1, 1)
    else Date(y + 1, 1, 1)
  }

  /** Days are counted one by one from 1970-01-01. */
  lemma DaysCount(y: nat, m: nat, d: nat)
    requires 1 <= m <= 12 && 1 <= d <= MonthLength(y, m)
    ensures DayNumber(Date(1970, 1, 1)) == 0
    ensures DayNumber(NextDay(y, m, d)) == DayNumber(Date(y, m, d)) + 1
  {
    DateFields(1970, 1, 1);
    DateFields(y, m, d);
    if d < MonthLength(y, m) {
      DateFields(y, m, d + 1);
    } else if m < 12 {
      DateFields(y, m + 1, 1);
      assert DaysBeforeMonth(y, m + 1) == DaysBeforeMonth(y, m) + MonthLength(y, m);
    } else {
      DateFields(y + 1, 1, 1);
      YearStep(y);
      YearIsItsMonths(y);
    }
  }

  lemma YearIsItsMonths(y: nat)
    ensures DaysBeforeMonth(y, 12) + 31 == YearLength(y)
  {
    assert DaysBeforeMonth(y, 1) == 0;
    assert DaysBeforeMonth(y, 2) == 31;
    assert DaysBeforeMonth(y, 3) == 31 + MonthLength(y, 2);
    assert DaysBeforeMonth(y, 4) == DaysBeforeMonth(y, 3) + 31;
    assert DaysBeforeMonth(y, 7) == DaysBeforeMonth(y, 6) + 30 == DaysBeforeMonth(y, 5) + 61;
    assert DaysBeforeMonth(y, 10) == DaysBeforeMonth(y, 9) + 30 == DaysBeforeMonth(y, 8) + 61;
    assert DaysBeforeMonth(y, 12) == DaysBeforeMonth(y, 11) + 30;
  }

  function IdAt(day: nat, h: nat, m: nat, s: nat): Id { day * 1000000 + h * 10000 + m * 100 + s }

  lemma IdFields(day: nat, h: nat, m: nat, s: nat)
    requires h < 100 && m < 100 && s < 100
    ensures var id := IdAt(day, h, m, s); DayOf(id) == day && Hour(id) == h && Minute(id) == m && Second(id) == s
  {
    var id := IdAt(day, h, m, s);
    assert id / 10000 == day * 100 + h && id / 1000000 == day;
    Hundreds(id, day * 10000 + h * 100 + m, s);
    Hundreds(day * 10000 + h * 100 + m, day * 100 + h, m);
    Hundreds(day * 100 + h, day, h);
  }

  lemma Hundreds(n: nat, q: nat, r: nat)
    requires n == q * 100 + r && r < 100
    ensures n / 100 == q && n % 100 == r
  {
  }

  /** An id names its date at its time of day: the epoch is zero, and a day is 24 hours. */
  lemma InstantsAre(day: nat, h: nat, m: nat, s: nat)
    requires h < 24 && m < 60 && s < 60
    ensures Time(IdAt(day, h, m, s)) == DayNumber(day) * 86400000 + h * 3600000 + m * 60000 + s * 1000
    ensures DayOf(IdAt(day, h, m, s)) == day
    ensures Time(19700101000000) == 0
  {
    IdFields(day, h, m, s);
    EpochIs();
    hide Hour, Minute, Second, DayOf, DayNumber;
  }

  lemma EpochIs()
    ensures Time(19700101000000) == 0
  {
    DateFields(1970, 1, 1);
    assert DayOf(19700101000000) == 19700101 == Date(1970, 1, 1);
  }

  /** 1970-01-04 was a Sunday, and so is every seventh day from it. */
  lemma SundaysAre(day: nat)
    ensures DayNumber(Date(1970, 1, 4)) == 3
    ensures Sunday(day) <==> (DayNumber(day) - 3) % 7 == 0
  {
    DaysCount(1970, 1, 1);
    DaysCount(1970, 1, 2);
    DaysCount(1970, 1, 3);
    hide DayNumber;
    EverySeventh(DayNumber(day));
  }

  lemma EverySeventh(n: int)
    ensures (n + 4) % 7 == 0 <==> (n - 3) % 7 == 0
  {
  }
}
