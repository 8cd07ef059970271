/** The periods of the dashboard, as both runtimes compute them. */
module Calendar {
  import opened Schema

  /** A day of the proleptic Gregorian calendar. */
  datatype Civil = Civil(year: int, month: int, day: int)

  const DAY: Time := 86_400_000_000
  const MIN_YEAR := 1
  const MAX_YEAR := 9999

  predicate IsLeap(y: int) {
    y % 4 == 0 && (y % 100 != 0 || y % 400 == 0)
  }

  function DaysIn(y: int, m: int): (n: nat)
    ensures 28 <= n <= 31
  {
    if m == 2 then if IsLeap(y) then 29 else 28
    else if m == 4 || m == 6 || m == 9 || m == 11 then 30
    else 31
  }

  predicate Valid(c: Civil) {
    MIN_YEAR <= c.year <= MAX_YEAR && 1 <= c.month <= 12 && 1 <= c.day <= DaysIn(c.year, c.month)
  }

  /** Days from 0001-01-01 to the first of the month; negative for the years Go counts before year 1. */
  function MonthStart(y: int, m: int): (n: int)
    requires 1 <= m <= 12
    ensures y >= 1 ==> n >= 0
    decreases if y >= 1 then y else 2 - y, if y >= 1 then m else 12 - m
  {
    if y >= 1 then
      if m > 1 then MonthStart(y, m - 1) + DaysIn(y, m - 1)
      else if y > 1 then MonthStart(y - 1, 12) + DaysIn(y - 1, 12)
      else 0
    else if m < 12 then MonthStart(y, m + 1) - DaysIn(y, m)
    else MonthStart(y + 1, 1) - DaysIn(y, 12)
  }

  /** The number of the day, 0001-01-01 being 1. */
  function Ordinal(c: Civil): int
    requires 1 <= c.month <= 12
  {
    MonthStart(c.year, c.month) + c.day
  }

  /** Days before the month in a year without a leap day. */
  const BEFORE_MONTH: seq<int> := [0, 31, 59, 90, 120, 151, 181, 212, 243, 273, 304, 334]

  lemma MonthsOfYear(y: int, m: int)
    requires y >= 1 && 1 <= m <= 12
    ensures MonthStart(y, m) == MonthStart(y, 1) + BEFORE_MONTH[m - 1] + if m > 2 && IsLeap(y) then 1 else 0
    decreases m
  {
    if m > 1 {
      MonthsOfYear(y, m - 1);
    }
  }

  lemma ByFours(y: int)
    ensures y / 4 == (y - 1) / 4 + if y % 4 == 0 then 1 else 0
  {
  }

  lemma ByHundreds(y: int)
    ensures y / 100 == (y - 1) / 100 + if y % 100 == 0 then 1 else 0
    ensures y % 100 == 0 ==> y % 4 == 0
  {
  }

  lemma ByFourHundreds(y: int)
    ensures y / 400 == (y - 1) / 400 + if y % 400 == 0 then 1 else 0
    ensures y % 400 == 0 ==> y % 100 == 0
  {
  }

  lemma LeapDays(y: int)
    requires y >= 1
    ensures y / 4 - y / 100 + y / 400 == (y - 1) / 4 - (y - 1) / 100 + (y - 1) / 400 + if IsLeap(y) then 1 else 0
  {
    ByFours(y);
    ByHundreds(y);
    ByFourHundreds(y);
  }

  /** The number of a day in closed form: the Gregorian rule of 97 leap years in 400. */
  lemma {:induction false} DayNumber(c: Civil)
    requires c.year >= 1 && 1 <= c.month <= 12
    ensures var p := c.year - 1;
            var leap := c.year % 4 == 0 && (c.year % 100 != 0 || c.year % 400 == 0);
            Ordinal(c) == 365 * p + p / 4 - p / 100 + p / 400 + BEFORE_MONTH[c.month - 1] + (if c.month > 2 && leap then 1 else 0) + c.day
    decreases c.year
  {
    MonthsOfYear(c.year, c.month);
    if c.year > 1 {
      DayNumber(Civil(c.year - 1, 12, 31));
      LeapDays(c.year - 1);
      assert MonthStart(c.year, 1) == Ordinal(Civil(c.year - 1, 12, 31));
    }
  }

  /** Counts `n` days on from the eve of the month's first, or back. */
  function Walk(y: int, m: int, n: int): Civil
    decreases if n >= 1 then n else 0
  {
    if n > DaysIn(y, m) then if m == 12 then Walk(y + 1, 1, n - 31) else Walk(y, m + 1, n - DaysIn(y, m))
    else Civil(y, m, n)
  }

  function WalkBack(y: int, m: int, n: int): Civil
    decreases if n < 1 then 1 - n else 0
  {
    if n >= 1 then Civil(y, m, n)
    else if m == 1 then WalkBack(y - 1, 12, n + 31)
    else WalkBack(y, m - 1, n + DaysIn(y, m - 1))
  }

  /** The day with number `n`. */
  function FromOrdinal(n: int): Civil {
    if n >= 1 then Walk(1, 1, n) else WalkBack(1, 1, n)
  }

  lemma {:induction false} WalkFromStart(y: int, m: int, d: int)
    requires y >= 1 && 1 <= m <= 12 && d >= 1
    ensures Walk(1, 1, MonthStart(y, m) + d) == Walk(y, m, d)
    decreases y, m
  {
    if m > 1 {
      WalkFromStart(y, m - 1, DaysIn(y, m - 1) + d);
    } else if y > 1 {
      WalkFromStart(y - 1, 12, 31 + d);
    }
  }

  /** Numbers identify days. */
  lemma OrdinalRoundTrip(c: Civil)
    requires Valid(c)
    ensures Ordinal(c) >= 1 && FromOrdinal(Ordinal(c)) == c
  {
    WalkFromStart(c.year, c.month, c.day);
  }

  lemma {:induction false} WalkOrdinal(y: int, m: int, n: int)
    requires y >= 1 && 1 <= m <= 12 && n >= 1
    ensures var c := Walk(y, m, n);
            && c.year >= y && 1 <= c.month <= 12 && 1 <= c.day <= DaysIn(c.year, c.month)
            && Ordinal(c) == MonthStart(y, m) + n
    decreases n
  {
    if n > DaysIn(y, m) {
      if m == 12 {
        WalkOrdinal(y + 1, 1, n - 31);
      } else {
        WalkOrdinal(y, m + 1, n - DaysIn(y, m));
      }
    }
  }

  lemma FromOrdinalRoundTrip(n: int)
    requires n >= 1
    ensures var c := FromOrdinal(n);
            && c.year >= 1 && 1 <= c.month <= 12 && 1 <= c.day <= DaysIn(c.year, c.month)
            && Ordinal(c) == n
  {
    WalkOrdinal(1, 1, n);
  }

  // ---- python/app/dashboard.py

  /** The texts TODAY, LAST_7_DAYS, THIS_MONTH, or any other. */
  datatype Period = Today | Last7Days | ThisMonth | OtherPeriod(text: string)

  datatype CalendarError = InvalidPeriod | OutOfRange

  /** date + timedelta(days=k): through the day number, refused outside the years 1..9999. */
  function PlusDays(c: Civil, k: int): Result<Civil, CalendarError>
    requires Valid(c)
  {
    var n := Ordinal(c) + k;
    if n < 1 || FromOrdinal(n).year > MAX_YEAR then Failure(OutOfRange) else Success(FromOrdinal(n))
  }

  /** date.replace(...): refused when the fields are not a date. */
  function Replaced(c: Civil): Result<Civil, CalendarError> {
    if Valid(c) then Success(c) else Failure(OutOfRange)
  }

  function Both(start: Result<Civil, CalendarError>, end: Result<Civil, CalendarError>): Result<(Civil, Civil), CalendarError> {
    if start.Failure? then Failure(start.error) else if end.Failure? then Failure(end.error) else Success((start.value, end.value))
  }

  function PythonBounds(period: Period, today: Civil): Result<(Civil, Civil), CalendarError>
    requires Valid(today)
  {
    match period
    case Today => Both(Success(today), PlusDays(today, 1))
    case Last7Days => Both(PlusDays(today, -6), PlusDays(today, 1))
    case ThisMonth =>
      var start := today.(day := 1);
      Both(Replaced(start),
           if start.month == 12 then Replaced(start.(year := start.year + 1, month := 1))
           else Replaced(start.(month := start.month + 1)))
    case OtherPeriod(_) => Failure(InvalidPeriod)
  }

  // ---- go/internal/dashboard/service.go

  /** time.Date: months beyond December carry into the year, days beyond the month into the following ones. */
  function GoDate(year: int, month: int, day: int): Civil
    requires year >= 1 && month >= 1
  {
    var y, m := year + (month - 1) / 12, (month - 1) % 12 + 1;
    FromOrdinal(MonthStart(y, m) + day)
  }

  /** t.AddDate(0, months, days). */
  function AddDate(c: Civil, months: nat, days: int): Civil
    requires c.year >= 1 && c.month >= 1
  {
    GoDate(c.year, c.month + months, c.day + days)
  }

  /** The first of a month is its own normal form. */
  lemma FirstIsKept(today: Civil)
    requires Valid(today)
    ensures GoDate(today.year, today.month, 1) == today.(day := 1)
  {
    assert (today.month - 1) / 12 == 0 && (today.month - 1) % 12 + 1 == today.month;
    FirstFromOrdinal(today.year, today.month);
  }

  lemma FirstFromOrdinal(y: int, m: int)
    requires y >= 1 && 1 <= m <= 12
    ensures FromOrdinal(MonthStart(y, m) + 1) == Civil(y, m, 1)
  {
    WalkFromStart(y, m, 1);
    assert Walk(y, m, 1) == Civil(y, m, 1);
  }

  function GoBounds(period: Period, today: Civil): Result<(Civil, Civil), CalendarError>
    requires Valid(today)
  {
    match period
    case Today => Success((today, AddDate(today, 0, 1)))
    case Last7Days => Success((AddDate(today, 0, -6), AddDate(today, 0, 1)))
    case ThisMonth =>
      FirstIsKept(today);
      var start := GoDate(today.year, today.month, 1);
      Success((start, AddDate(start, 1, 0)))
    case OtherPeriod(_) => Failure(InvalidPeriod)
  }

  // ---- what the bounds are

  /** The day on which Python has no answer: the period would reach past the years 1..9999. */
  predicate Unanswerable(period: Period, today: Civil) {
    match period
    case Today => today == Civil(9999, 12, 31)
    case Last7Days => today == Civil(9999, 12, 31) || (today.year == 1 && today.month == 1 && today.day <= 6)
    case ThisMonth => today.year == 9999 && today.month == 12
    case _ => false
  }

  /** The first day after a month. */
  function NextMonth(y: int, m: int): Civil {
    if m == 12 then Civil(y + 1, 1, 1) else Civil(y, m + 1, 1)
  }

  lemma NextMonthStart(y: int, m: int)
    requires y >= 1 && 1 <= m <= 12
    ensures Ordinal(NextMonth(y, m)) == MonthStart(y, m) + DaysIn(y, m) + 1
  {
    if m == 12 {
      assert MonthStart(y + 1, 1) == MonthStart(y, 12) + DaysIn(y, 12);
    } else {
      assert MonthStart(y, m + 1) == MonthStart(y, m) + DaysIn(y, m);
    }
  }

  lemma Tomorrow(today: Civil)
    requires Valid(today)
    ensures FromOrdinal(Ordinal(today) + 1) ==
            if today.day < DaysIn(today.year, today.month) then today.(day := today.day + 1) else NextMonth(today.year, today.month)
  {
    WalkFromStart(today.year, today.month, today.day + 1);
  }

  lemma SixDaysBefore(today: Civil)
    requires Valid(today)
    ensures Ordinal(today) <= 6 <==> today.year == 1 && today.month == 1 && today.day <= 6
    ensures Ordinal(today) > 6 ==> Valid(FromOrdinal(Ordinal(today) - 6))
  {
    if today.year > 1 || today.month > 1 {
      LaterMonthStart(today.year, today.month);
    }
    if Ordinal(today) > 6 {
      FromOrdinalRoundTrip(Ordinal(today) - 6);
      var c := FromOrdinal(Ordinal(today) - 6);
      if c.year > MAX_YEAR {
        OrdinalOfLaterYear(today, c);
        assert false;
      }
    }
  }

  lemma {:induction false} LaterMonthStart(y: int, m: int)
    requires y >= 1 && 1 <= m <= 12 && (y > 1 || m > 1)
    ensures MonthStart(y, m) >= 31
    decreases y, m
  {
    if m > 2 || (m == 2 && y > 1) {
      LaterMonthStart(y, m - 1);
    } else if m == 1 && y > 2 {
      LaterMonthStart(y - 1, 12);
    } else if m == 1 {
      LaterMonthStart(1, 12);
    }
  }

  lemma {:induction false} MonthStartGrows(y: int, m: int, y': int, m': int)
    requires 1 <= y && 1 <= m <= 12 && 1 <= m' <= 12 && (y < y' || (y == y' && m < m'))
    ensures MonthStart(y, m) + DaysIn(y, m) <= MonthStart(y', m')
    decreases y', m'
  {
    if m' > 1 {
      if y < y' || m < m' - 1 {
        MonthStartGrows(y, m, y', m' - 1);
      }
    } else if y < y' - 1 || m < 12 {
      MonthStartGrows(y, m, y' - 1, 12);
    }
  }

  lemma OrdinalOfLaterYear(c: Civil, c': Civil)
    requires c.year >= 1 && 1 <= c.month <= 12 && c.day <= DaysIn(c.year, c.month)
    requires c'.year > c.year && 1 <= c'.month <= 12 && c'.day >= 1
    ensures Ordinal(c) < Ordinal(c')
  {
    MonthStartGrows(c.year, c.month, c'.year, c'.month);
  }

  lemma AddDays(today: Civil, k: int)
    requires Valid(today)
    ensures AddDate(today, 0, k) == FromOrdinal(Ordinal(today) + k)
  {
    assert (today.month - 1) / 12 == 0 && (today.month - 1) % 12 + 1 == today.month;
  }

  lemma AgreeOnToday(today: Civil)
    requires Valid(today)
    ensures if today == Civil(9999, 12, 31) then PlusDays(today, 1) == Failure(OutOfRange) else PlusDays(today, 1) == Success(AddDate(today, 0, 1))
  {
    Tomorrow(today);
    AddDays(today, 1);
  }

  lemma AgreeOnLastWeek(today: Civil)
    requires Valid(today)
    ensures if today.year == 1 && today.month == 1 && today.day <= 6 then PlusDays(today, -6) == Failure(OutOfRange)
            else PlusDays(today, -6) == Success(AddDate(today, 0, -6))
  {
    SixDaysBefore(today);
    AddDays(today, -6);
  }

  lemma GoNextMonth(today: Civil)
    requires Valid(today)
    ensures AddDate(today.(day := 1), 1, 0) == NextMonth(today.year, today.month)
  {
    var next := NextMonth(today.year, today.month);
    assert today.month / 12 == (if today.month == 12 then 1 else 0);
    assert today.month % 12 + 1 == next.month;
    FirstFromOrdinal(next.year, next.month);
  }

  predicate AgreeUnlessUnanswerable(period: Period, today: Civil)
    requires Valid(today)
  {
    && (PythonBounds(period, today) == GoBounds(period, today) <==> !Unanswerable(period, today))
    && (Unanswerable(period, today) ==> PythonBounds(period, today) == Failure(OutOfRange) && GoBounds(period, today).Success?)
  }

  lemma TodayCase(today: Civil)
    requires Valid(today)
    ensures AgreeUnlessUnanswerable(Today, today)
  {
    AgreeOnToday(today);
  }

  lemma LastWeekCase(today: Civil)
    requires Valid(today)
    ensures AgreeUnlessUnanswerable(Last7Days, today)
  {
    AgreeOnToday(today);
    AgreeOnLastWeek(today);
  }

  lemma ThisMonthCase(today: Civil)
    requires Valid(today)
    ensures AgreeUnlessUnanswerable(ThisMonth, today)
  {
    GoThisMonth(today);
    PythonThisMonth(today);
  }

  /** Both runtimes give the same bounds for every day and period, except where Python's years end: there, and only
      there, Python raises while Go goes on into year 0 or year 10000.  */
  lemma RuntimesAgreeOnPeriods(period: Period, today: Civil)
    requires Valid(today)
    ensures PythonBounds(period, today) == GoBounds(period, today) <==> !Unanswerable(period, today)
    ensures Unanswerable(period, today) ==> PythonBounds(period, today) == Failure(OutOfRange) && GoBounds(period, today).Success?
  {
    match period
    case Today => TodayCase(today);
    case Last7Days => LastWeekCase(today);
    case ThisMonth => ThisMonthCase(today);
    case OtherPeriod(_) =>
  }

  lemma GoThisMonth(today: Civil)
    requires Valid(today)
    ensures GoBounds(ThisMonth, today) == Success((today.(day := 1), NextMonth(today.year, today.month)))
  {
    FirstIsKept(today);
    GoNextMonth(today);
  }

  lemma PythonThisMonth(today: Civil)
    requires Valid(today)
    ensures PythonBounds(ThisMonth, today) ==
            if today.year == 9999 && today.month == 12 then Failure(OutOfRange)
            else Success((today.(day := 1), NextMonth(today.year, today.month)))
  {
  }

  /** The instant a day begins. */
  function Midnight(c: Civil): Time
    requires 1 <= c.month <= 12
  {
    Ordinal(c) * 86_400_000_000
  }

  /** Going less than a month back from 0001-01-01 ends in December of year 0. */
  lemma BeforeYearOne(n: int)
    requires -30 <= n <= 0
    ensures FromOrdinal(n) == Civil(0, 12, n + 31) && Ordinal(FromOrdinal(n)) == n
  {
    assert WalkBack(1, 1, n) == WalkBack(0, 12, n + 31);
    assert MonthStart(0, 12) == MonthStart(1, 1) - 31;
  }

  lemma FromOrdinalNumbers(n: int)
    requires n >= -30
    ensures 1 <= FromOrdinal(n).month <= 12 && Ordinal(FromOrdinal(n)) == n
  {
    if n >= 1 {
      FromOrdinalRoundTrip(n);
    } else {
      BeforeYearOne(n);
    }
  }

  lemma GoPeriodOrdinals(period: Period, today: Civil)
    requires Valid(today) && GoBounds(period, today).Success?
    ensures var (start, end) := GoBounds(period, today).value;
            && 1 <= start.month <= 12 && 1 <= end.month <= 12
            && Ordinal(start) <= Ordinal(today) < Ordinal(end)
            && (period.Today? || period.Last7Days? ==> Ordinal(end) == Ordinal(today) + 1)
            && (period.Today? ==> Ordinal(end) - Ordinal(start) == 1)
            && (period.Last7Days? ==> Ordinal(end) - Ordinal(start) == 7)
  {
    AddDays(today, 1);
    FromOrdinalNumbers(Ordinal(today) + 1);
    match period
    case Today =>
    case Last7Days =>
      AddDays(today, -6);
      FromOrdinalNumbers(Ordinal(today) - 6);
    case ThisMonth =>
      GoThisMonth(today);
      NextMonthStart(today.year, today.month);
  }

  /** Go answers every known period on every day, the ends of Python's years included: `now` lies in the interval, TODAY
      lasts one day and LAST_7_DAYS seven, both to the next midnight. Where Python answers at all, its interval is the same.  */
  lemma NowIsInThePeriod(period: Period, today: Civil, sinceMidnight: Time)
    requires Valid(today) && 0 <= sinceMidnight < DAY
    ensures GoBounds(period, today).Success? <==> !period.OtherPeriod?
    ensures PythonBounds(period, today).Success? ==> GoBounds(period, today) == PythonBounds(period, today)
    ensures GoBounds(period, today).Success? ==>
              var (start, end) := GoBounds(period, today).value;
              && 1 <= start.month <= 12 && 1 <= end.month <= 12
              && Midnight(start) <= Midnight(today) + sinceMidnight < Midnight(end)
              && (period.Today? || period.Last7Days? ==> Midnight(end) == Midnight(today) + DAY)
              && (period.Today? ==> Midnight(end) - Midnight(start) == DAY)
              && (period.Last7Days? ==> Midnight(end) - Midnight(start) == 7 * DAY)
  {
    RuntimesAgreeOnPeriods(period, today);
    if GoBounds(period, today).Success? {
      GoPeriodOrdinals(period, today);
      var (start, end) := GoBounds(period, today).value;
      Between(Ordinal(start), Ordinal(today), Ordinal(end), sinceMidnight);
    }
  }

  lemma Between(start: int, today: int, end: int, sinceMidnight: Time)
    requires start <= today < end && 0 <= sinceMidnight < DAY
    ensures start * 86_400_000_000 <= today * 86_400_000_000 + sinceMidnight < end * 86_400_000_000
  {
  }

  /** THIS_MONTH covers exactly the days of the current month. */
  lemma ThisMonthExactly(today: Civil, c: Civil)
    requires Valid(today) && Valid(c) && PythonBounds(ThisMonth, today).Success?
    ensures var (start, end) := PythonBounds(ThisMonth, today).value;
            Ordinal(start) <= Ordinal(c) < Ordinal(end) <==> c.year == today.year && c.month == today.month
  {
    NextMonthStart(today.year, today.month);
    var d := Ordinal(c) - MonthStart(today.year, today.month);
    if 1 <= d <= DaysIn(today.year, today.month) {
      OrdinalRoundTrip(c);
      OrdinalRoundTrip(Civil(today.year, today.month, d));
    }
  }
}
