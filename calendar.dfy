/**
 * The expiry timestamp "first day of this month, next year": proleptic
 * Gregorian dates, the seconds since the Unix epoch of a UTC midnight, and
 * the month arithmetic that keeps the month and increments the year.
 */
module Calendar {
  import opened Wrappers

  /** The largest year a date can have. */
  const MaxYear := 9999
  const SecondsPerDay := 86400

  predicate IsLeap(y: int) {
    y % 4 == 0 && (y % 100 != 0 || y % 400 == 0)
  }

  function DaysInMonth(y: int, m: int): (n: nat)
    requires 1 <= m <= 12
    ensures 28 <= n <= 31
  {
    if m == 2 then (if IsLeap(y) then 29 else 28)
    else if m == 4 || m == 6 || m == 9 || m == 11 then 30
    else 31
  }

  datatype Date = Date(year: int, month: int, day: int)

  predicate ValidDate(d: Date) {
    1 <= d.year <= MaxYear && 1 <= d.month <= 12 && 1 <= d.day <= DaysInMonth(d.year, d.month)
  }

  /** Days from 0001-01-01 to January 1st of year y. */
  function DaysBeforeYear(y: int): int
    requires y >= 1
  {
    var p := y - 1;
    365 * p + p / 4 - p / 100 + p / 400
  }

  /** Days from January 1st to the first of month m. */
  function DaysBeforeMonth(y: int, m: int): int
    requires 1 <= m <= 12
  {
    var table := [0, 31, 59, 90, 120, 151, 181, 212, 243, 273, 304, 334];
    table[m - 1] + (if m > 2 && IsLeap(y) then 1 else 0)
  }

  /** Days from 0001-01-01 to 1970-01-01. */
  const EpochDays := 719162

  /** calendar.timegm of y-m-d at 00:00 UTC: seconds since the Unix epoch. */
  function TimeGm(y: int, m: int, d: int): int
    requires y >= 1 && 1 <= m <= 12
  {
    (DaysBeforeYear(y) + DaysBeforeMonth(y, m) + d - 1 - EpochDays) * SecondsPerDay
  }

  /**
   * unix_time_for_12_months_from_now for the date `now`: the month index
   * is shifted by twelve and split into a year carry and a month; None
   * where the resulting year is beyond MaxYear and the datetime
   * constructor raises.
   */
  function TwelveMonthsFromNow(now: Date): (r: Option<int>)
    requires ValidDate(now)
    ensures r.Some? <==> now.year < MaxYear
    ensures r.Some? ==> r.value == TimeGm(now.year + 1, now.month, 1)
  {
    var month := now.month - 1 + 12;
    var nextYear := now.year + month / 12;
    var nextMonth := month % 12 + 1;
    assert month / 12 == 1 && month % 12 == now.month - 1;
    if nextYear > MaxYear then None
    else Some(TimeGm(nextYear, nextMonth, 1))
  }

  lemma YearLength(y: int)
    requires y >= 1
    ensures DaysBeforeYear(y + 1) - DaysBeforeYear(y) == if IsLeap(y) then 366 else 365
  {
    var p := y - 1;
    assert (p + 1) / 4 - p / 4 == (if y % 4 == 0 then 1 else 0);
    assert (p + 1) / 100 - p / 100 == (if y % 100 == 0 then 1 else 0);
    assert (p + 1) / 400 - p / 400 == (if y % 400 == 0 then 1 else 0);
  }

  /**
   * The result lies 365 or 366 days after the first of the current month:
   * 366 exactly when a February 29th falls in between.
   */
  lemma {:induction false} TwelveMonthsSpan(now: Date)
    requires ValidDate(now) && now.year < MaxYear
    ensures TwelveMonthsFromNow(now).Some?
    ensures TwelveMonthsFromNow(now).value - TimeGm(now.year, now.month, 1) ==
      SecondsPerDay * (if (now.month <= 2 && IsLeap(now.year)) || (now.month > 2 && IsLeap(now.year + 1)) then 366 else 365)
  {
    YearLength(now.year);
  }

  /** The result is always strictly later than midnight of `now` itself. */
  lemma {:induction false} TwelveMonthsLater(now: Date)
    requires ValidDate(now) && now.year < MaxYear
    ensures TwelveMonthsFromNow(now).Some?
    ensures TwelveMonthsFromNow(now).value > TimeGm(now.year, now.month, now.day)
  {
    TwelveMonthsSpan(now);
  }
}
