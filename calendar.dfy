/**
 * Python `datetime` arithmetic on the proleptic Gregorian calendar.  An
 * instant is a whole number of seconds since 1970-01-01T00:00:00Z; aware
 * datetimes of the code are all in UTC.  Sub-second precision is dropped.
 */
module Calendar {

  predicate IsLeap(y: int) { y % 4 == 0 && (y % 100 != 0 || y % 400 == 0) }

  function DaysInYear(y: int): int { if IsLeap(y) then 366 else 365 }

  function DaysInMonth(y: int, m: int): (n: int)
    requires 1 <= m <= 12
    ensures 28 <= n <= 31
  {
    if m == 2 then (if IsLeap(y) then 29 else 28)
    else if m == 4 || m == 6 || m == 9 || m == 11 then 30
    else 31
  }

  /** What `datetime(year, month, day, hour, minute)` accepts without `ValueError`. */
  predicate ValidDateTime(y: int, mo: int, d: int, h: int, mi: int) {
    1 <= y <= 9999 && 1 <= mo <= 12 && 1 <= d <= DaysInMonth(y, mo) && 0 <= h < 24 && 0 <= mi < 60
  }

  /** Days from 0001-01-01 to January 1st of year `y`. */
  function DaysBeforeYear(y: int): int
    requires y >= 1
  {
    var p := y - 1;
    365 * p + p / 4 - p / 100 + p / 400
  }

  /** Days from January 1st to the first day of month `m` of year `y`. */
  function DaysBeforeMonth(y: int, m: int): (n: int)
    requires 1 <= m <= 12
    ensures m == 1 ==> n == 0
    ensures m > 1 ==> n == DaysBeforeMonth(y, m - 1) + DaysInMonth(y, m - 1)
    ensures 0 <= n && n + DaysInMonth(y, m) <= DaysInYear(y)
  {
    [0, 31, 59, 90, 120, 151, 181, 212, 243, 273, 304, 334][m - 1] + (if m > 2 && IsLeap(y) then 1 else 0)
  }

  /** Days from 0001-01-01 to 1970-01-01. */
  const EpochDay: int := 719162

  const SecondsPerDay: int := 86400

  function DayNumber(y: int, m: int, d: int): int
    requires y >= 1 && 1 <= m <= 12
  {
    DaysBeforeYear(y) + DaysBeforeMonth(y, m) + (d - 1) - EpochDay
  }

  /** The instant of `datetime(y, mo, d, h, mi, s, tzinfo=timezone.utc)`. */
  function Instant(y: int, mo: int, d: int, h: int, mi: int, s: int): int
    requires y >= 1 && 1 <= mo <= 12
  {
    DayNumber(y, mo, d) * SecondsPerDay + h * 3600 + mi * 60 + s
  }

  function YearStart(y: int): int
    requires y >= 1
  {
    (DaysBeforeYear(y) - EpochDay) * SecondsPerDay
  }

  /** `datetime.min` and `datetime.max` (to the second), in UTC. */
  const MinInstant: int := -62135596800
  const MaxInstant: int := 253402300799

  predicate InRange(t: int) { MinInstant <= t <= MaxInstant }

  /** Each year is as long as `DaysInYear` says. */
  lemma DaysBeforeNextYear(y: int)
    requires y >= 1
    ensures DaysBeforeYear(y + 1) == DaysBeforeYear(y) + DaysInYear(y)
  {
    var p := y - 1;
    var a := y / 4 - p / 4;
    var b := y / 100 - p / 100;
    var c := y / 400 - p / 400;
    assert a == (if y % 4 == 0 then 1 else 0);
    assert b == (if y % 100 == 0 then 1 else 0);
    assert c == (if y % 400 == 0 then 1 else 0);
    assert DaysBeforeYear(y + 1) - DaysBeforeYear(y) == 365 + a - b + c;
  }

  lemma {:induction false} YearStartMonotone(a: int, b: int)
    requires 1 <= a <= b
    ensures YearStart(a) <= YearStart(b)
    decreases b - a
  {
    if a < b {
      DaysBeforeNextYear(a);
      YearStartMonotone(a + 1, b);
    }
  }

  /** A valid datetime lies within its own year. */
  lemma InstantWithinYear(y: int, mo: int, d: int, h: int, mi: int, s: int)
    requires ValidDateTime(y, mo, d, h, mi) && 0 <= s < 60
    ensures YearStart(y) <= Instant(y, mo, d, h, mi, s) < YearStart(y + 1)
  {
    DaysBeforeNextYear(y);
  }

  lemma RangeEnds()
    ensures MinInstant == Instant(1, 1, 1, 0, 0, 0) == YearStart(1)
    ensures MaxInstant == Instant(9999, 12, 31, 23, 59, 59) == YearStart(10000) - 1
  {
    assert DaysBeforeMonth(9999, 12) == 334;
  }

  /** The year of an instant, searched upward from `y`. */
  function YearFrom(y: int, t: int): (r: int)
    requires 1 <= y <= 9999 && YearStart(y) <= t <= MaxInstant
    ensures y <= r <= 9999 && YearStart(r) <= t < YearStart(r + 1)
    decreases 9999 - y
  {
    if t < YearStart(y + 1) then y
    else if y == 9999 then (RangeEnds(); assert false; y)
    else YearFrom(y + 1, t)
  }

  /** `dt.year` for the datetime at instant `t`. */
  function YearOf(t: int): (r: int)
    requires InRange(t)
    ensures 1 <= r <= 9999 && YearStart(r) <= t < YearStart(r + 1)
  {
    RangeEnds();
    YearFrom(1, t)
  }

  /** The year found is the only year whose span holds `t`. */
  lemma YearOfUnique(t: int, y: int)
    requires InRange(t) && 1 <= y && YearStart(y) <= t < YearStart(y + 1)
    ensures YearOf(t) == y
  {
    SpanUnique(YearOf(t), y, t);
  }

  /** Year spans do not overlap. */
  lemma SpanUnique(a: int, b: int, t: int)
    requires 1 <= a && YearStart(a) <= t < YearStart(a + 1)
    requires 1 <= b && YearStart(b) <= t < YearStart(b + 1)
    ensures a == b
  {
    if a < b { YearStartMonotone(a + 1, b); }
    if b < a { YearStartMonotone(b + 1, a); }
  }

  /** The instant of a valid datetime has that datetime's year. */
  lemma YearOfInstant(y: int, mo: int, d: int, h: int, mi: int, s: int)
    requires ValidDateTime(y, mo, d, h, mi) && 0 <= s < 60
    ensures InRange(Instant(y, mo, d, h, mi, s))
    ensures YearOf(Instant(y, mo, d, h, mi, s)) == y
  {
    InstantWithinYear(y, mo, d, h, mi, s);
    RangeEnds();
    YearStartMonotone(1, y);
    YearStartMonotone(y + 1, 10000);
    YearOfUnique(Instant(y, mo, d, h, mi, s), y);
  }
}
