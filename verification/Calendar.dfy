/**
 * Billing periods. The code moves a JavaScript `Date` by letting it overflow and stepping back;
 * here it is proved to follow the plain calendar rule (ECMA-262, section 21.4.1).
 */
module Calendar {
  import opened Base

  datatype Interval = Month | Year

  // ---- The Gregorian calendar ----

  predicate IsLeap(y: int) {
    y % 4 == 0 && (y % 100 != 0 || y % 400 == 0)
  }

  function DaysInYear(y: int): int {
    if IsLeap(y) then 366 else 365
  }

  /** Days from 1 January 1970 to 1 January of `y`, year by year. */
  function DayFromYear(y: int): int
    decreases if y >= 1970 then y - 1970 else 1970 - y
  {
    if y == 1970 then 0
    else if y > 1970 then DayFromYear(y - 1) + DaysInYear(y - 1)
    else DayFromYear(y + 1) - DaysInYear(y)
  }

  lemma YearStep(y: int)
    ensures DayFromYear(y + 1) == DayFromYear(y) + DaysInYear(y)
  {
  }

  /** DayFromYear as ECMA-262 writes it. */
  function ClosedForm(y: int): int {
    365 * (y - 1970) + (y - 1969) / 4 - (y - 1901) / 100 + (y - 1601) / 400
  }

  lemma {:induction false} DayFromYearClosed(y: int)
    ensures DayFromYear(y) == ClosedForm(y)
    decreases if y >= 1970 then y - 1970 else 1970 - y
  {
    if y > 1970 {
      DayFromYearClosed(y - 1);
      ClosedFormStep(y - 1);
    } else if y < 1970 {
      DayFromYearClosed(y + 1);
      ClosedFormStep(y);
    }
  }

  lemma ClosedFormStep(y: int)
    ensures ClosedForm(y + 1) == ClosedForm(y) + DaysInYear(y)
  {
    EveryFourth(y);
    EveryHundredth(y);
    EveryFourHundredth(y);
    Centuries(y);
  }

  lemma Centuries(y: int)
    ensures y % 100 == 0 ==> y % 4 == 0
    ensures y % 400 == 0 ==> y % 100 == 0
  {
  }

  lemma EveryFourth(y: int)
    ensures (y - 1968) / 4 - (y - 1969) / 4 == if y % 4 == 0 then 1 else 0
  {
  }

  lemma EveryHundredth(y: int)
    ensures (y - 1900) / 100 - (y - 1901) / 100 == if y % 100 == 0 then 1 else 0
  {
  }

  lemma EveryFourHundredth(y: int)
    ensures (y - 1600) / 400 - (y - 1601) / 400 == if y % 400 == 0 then 1 else 0
  {
  }

  /** Length of month `m`, counted from 0, in a common or leap year. */
  function LengthOf(leap: bool, m: int): (r: int)
    ensures 28 <= r <= 31
  {
    if m == 1 then (if leap then 29 else 28) else if m == 3 || m == 5 || m == 8 || m == 10 then 30 else 31
  }

  /** Days of the year before month `m`; month 12 closes the year. */
  function DaysBefore(leap: bool, m: int): (r: int)
    ensures 0 <= r
  {
    if m <= 0 then 0 else DaysBefore(leap, m - 1) + LengthOf(leap, m - 1)
  }

  function MonthLength(y: int, m: int): int {
    LengthOf(IsLeap(y), m)
  }

  lemma YearIsItsMonths(leap: bool)
    ensures DaysBefore(leap, 12) == if leap then 366 else 365
  {
    var x := if leap then 1 else 0;
    assert DaysBefore(leap, 1) == 31;
    assert DaysBefore(leap, 2) == 59 + x;
    assert DaysBefore(leap, 4) == 120 + x;
    assert DaysBefore(leap, 6) == 181 + x;
    assert DaysBefore(leap, 8) == 243 + x;
    assert DaysBefore(leap, 10) == 304 + x;
  }

  /** A date; January is month 0 and the first day of a month is 1. */
  datatype Civil = Civil(year: int, month: int, day: int) {
    predicate Valid() {
      0 <= month < 12 && 1 <= day <= MonthLength(year, month)
    }

    function Number(): int {
      DayFromYear(year) + DaysBefore(IsLeap(year), month) + day - 1
    }

    function MonthIndex(): int {
      12 * year + month
    }
  }

  function YearUp(day: int, y: int): (r: int)
    requires DayFromYear(y) <= day
    ensures DayFromYear(r) <= day < DayFromYear(r + 1)
    decreases day - DayFromYear(y)
  {
    YearStep(y);
    if day < DayFromYear(y + 1) then y else YearUp(day, y + 1)
  }

  function YearDown(day: int, y: int): (r: int)
    requires day < DayFromYear(y + 1)
    ensures DayFromYear(r) <= day < DayFromYear(r + 1)
    decreases DayFromYear(y + 1) - day
  {
    YearStep(y);
    if DayFromYear(y) <= day then y else YearDown(day, y - 1)
  }

  /** YearFromTime of ECMA-262: the year whose first day is the last one not after `day`. */
  function YearOf(day: int): (r: int)
    ensures DayFromYear(r) <= day < DayFromYear(r + 1)
  {
    if DayFromYear(1970) <= day then YearUp(day, 1970) else YearDown(day, 1969)
  }

  /** MonthFromTime of ECMA-262. */
  function MonthAt(leap: bool, inYear: int, m: int): (r: int)
    requires 0 <= m <= 11 && DaysBefore(leap, m) <= inYear < DaysBefore(leap, 12)
    ensures m <= r <= 11 && DaysBefore(leap, r) <= inYear < DaysBefore(leap, r + 1)
    decreases 11 - m
  {
    if inYear < DaysBefore(leap, m + 1) then m else MonthAt(leap, inYear, m + 1)
  }

  function CivilOf(day: int): (c: Civil)
    ensures c.Valid() && c.Number() == day
  {
    var y := YearOf(day);
    YearStep(y);
    YearIsItsMonths(IsLeap(y));
    var inYear := day - DayFromYear(y);
    var m := MonthAt(IsLeap(y), inYear, 0);
    Civil(y, m, inYear - DaysBefore(IsLeap(y), m) + 1)
  }

  lemma {:induction false} YearsGrow(a: int, b: int)
    requires a <= b
    ensures DayFromYear(a) + 365 * (b - a) <= DayFromYear(b)
    decreases b - a
  {
    if a < b {
      YearsGrow(a, b - 1);
      YearStep(b - 1);
    }
  }

  lemma {:induction false} MonthsGrow(leap: bool, a: int, b: int)
    requires 0 <= a < b <= 12
    ensures DaysBefore(leap, a) + LengthOf(leap, a) <= DaysBefore(leap, b)
    decreases b - a
  {
    if a < b - 1 {
      MonthsGrow(leap, a, b - 1);
    }
  }

  predicate Before(a: Civil, b: Civil) {
    a.MonthIndex() < b.MonthIndex() || (a.MonthIndex() == b.MonthIndex() && a.day < b.day)
  }

  lemma InItsYear(c: Civil)
    requires c.Valid()
    ensures DayFromYear(c.year) <= c.Number() < DayFromYear(c.year + 1)
  {
    YearStep(c.year);
    YearIsItsMonths(IsLeap(c.year));
    MonthsGrow(IsLeap(c.year), c.month, 12);
  }

  /** Later dates have larger day numbers. */
  lemma NumberMonotone(a: Civil, b: Civil)
    requires a.Valid() && b.Valid() && Before(a, b)
    ensures a.Number() < b.Number()
  {
    if a.year < b.year {
      InItsYear(a);
      InItsYear(b);
      YearsGrow(a.year + 1, b.year);
    } else {
      SameYearMonotone(IsLeap(a.year), a.month, a.day, b.month, b.day);
    }
  }

  lemma SameYearMonotone(leap: bool, m: int, d: int, n: int, e: int)
    requires 0 <= m <= n < 12 && 1 <= e && d <= LengthOf(leap, m)
    requires m < n || d < e
    ensures DaysBefore(leap, m) + d < DaysBefore(leap, n) + e
  {
    if m < n {
      MonthsGrow(leap, m, n);
    }
  }

  lemma CivilUnique(c: Civil)
    requires c.Valid()
    ensures CivilOf(c.Number()) == c
  {
    SameNumberSameDate(c, CivilOf(c.Number()));
  }

  lemma SameNumberSameDate(c: Civil, d: Civil)
    requires c.Valid() && d.Valid() && c.Number() == d.Number()
    ensures c == d
  {
    if Before(c, d) {
      NumberMonotone(c, d);
    } else if Before(d, c) {
      NumberMonotone(d, c);
    }
  }

  // ---- The Date object ----

  /** MakeDay of ECMA-262: a month outside 0..11 carries into the year, and the day may be anything. */
  function MakeDay(year: int, month: int, date: int): int
    decreases if month < 0 then 12 - month else month
  {
    if month < 0 then MakeDay(year - 1, month + 12, date)
    else if month >= 12 then MakeDay(year + 1, month - 12, date)
    else Civil(year, month, 1).Number() + date - 1
  }

  /** MakeDate of ECMA-262 with the time of day of `time`. */
  function OnDay(day: int, time: int): int {
    day * MS_PER_DAY + time % MS_PER_DAY
  }

  function DateOf(time: int): (c: Civil)
    ensures c.Valid() && c.Number() == time / MS_PER_DAY
  {
    CivilOf(time / MS_PER_DAY)
  }

  class JsDate {
    var time: int

    constructor (time: int)
      ensures this.time == time
    {
      this.time := time;
    }

    method SetUTCFullYear(year: int)
      modifies this
      ensures time == OnDay(MakeDay(year, DateOf(old(time)).month, DateOf(old(time)).day), old(time))
    {
      var c := DateOf(time);
      time := OnDay(MakeDay(year, c.month, c.day), time);
    }

    method SetUTCMonth(month: int)
      modifies this
      ensures time == OnDay(MakeDay(DateOf(old(time)).year, month, DateOf(old(time)).day), old(time))
    {
      var c := DateOf(time);
      time := OnDay(MakeDay(c.year, month, c.day), time);
    }

    method SetUTCDate(date: int)
      modifies this
      ensures time == OnDay(MakeDay(DateOf(old(time)).year, DateOf(old(time)).month, date), old(time))
    {
      var c := DateOf(time);
      time := OnDay(MakeDay(c.year, c.month, date), time);
    }
  }

  // ---- The plain rule, and the code that follows it ----

  /** The first day of the month after this one. */
  function MonthAfter(year: int, month: int): Civil {
    if month == 11 then Civil(year + 1, 0, 1) else Civil(year, month + 1, 1)
  }

  /** The same day of the next month or of the same month next year, or that month's last day. */
  function Following(c: Civil, interval: Interval): Civil {
    var first := if interval == Year then Civil(c.year + 1, c.month, 1) else MonthAfter(c.year, c.month);
    first.(day := Min(c.day, MonthLength(first.year, first.month)))
  }

  function NextPeriod(time: int, interval: Interval): int {
    OnDay(Following(DateOf(time), interval).Number(), time)
  }

  method AddInterval(from: JsDate, interval: Interval) returns (next: JsDate)
    ensures fresh(next) && next.time == NextPeriod(from.time, interval)
  {
    next := new JsDate(from.time);
    var day := DateOf(next.time).day;
    ghost var moved := OnDay(Moved(DateOf(from.time), interval), from.time);
    Advance(next, interval);
    assert next.time == moved;
    OverflowThenBack(from.time, interval);
    if DateOf(next.time).day != day {
      next.SetUTCDate(0);
    }
  }

  method Advance(next: JsDate, interval: Interval)
    modifies next
    ensures next.time == OnDay(Moved(DateOf(old(next.time)), interval), old(next.time))
  {
    if interval == Year {
      next.SetUTCFullYear(DateOf(next.time).year + 1);
    } else {
      next.SetUTCMonth(DateOf(next.time).month + 1);
    }
  }

  lemma OverflowThenBack(time: int, interval: Interval)
    ensures var moved := OnDay(Moved(DateOf(time), interval), time);
            var reached := DateOf(moved);
            NextPeriod(time, interval) ==
              if reached.day == DateOf(time).day then moved
              else OnDay(MakeDay(reached.year, reached.month, 0), moved)
  {
    var from := DateOf(time);
    var day := Moved(from, interval);
    OnDayParts(day, time);
    var reached := DateOf(OnDay(day, time));
    OverflowLands(from, interval, reached);
    SameTimeOfDay(time, day, reached, from.day);
  }

  /** Stepping back from the day that was reached keeps the time of day. */
  lemma SameTimeOfDay(time: int, day: int, reached: Civil, from: int)
    requires reached.Valid() && reached.Number() == day
    ensures OnDay(SteppedBack(reached, from), time) ==
            if reached.day == from then OnDay(day, time) else OnDay(MakeDay(reached.year, reached.month, 0), OnDay(day, time))
  {
    OnDayParts(day, time);
  }

  /** The day number the first setter of `addInterval` moves to. */
  function Moved(c: Civil, interval: Interval): int {
    if interval == Year then MakeDay(c.year + 1, c.month, c.day) else MakeDay(c.year, c.month + 1, c.day)
  }

  /** What stepping back to day 0 when the day has changed leads to. */
  function SteppedBack(reached: Civil, day: int): int {
    if reached.day == day then reached.Number() else MakeDay(reached.year, reached.month, 0)
  }

  lemma MonthLengths(y: int, m: int)
    requires 0 <= m < 12
    ensures 28 <= MonthLength(y, m) <= 31
  {
  }

  lemma MakeDayInRange(year: int, month: int, date: int)
    requires 0 <= month < 12
    ensures MakeDay(year, month, date) == Civil(year, month, 1).Number() + date - 1
    ensures MakeDay(year, month + 1, date) == MonthAfter(year, month).Number() + date - 1
  {
  }

  lemma MovedFromFirst(c: Civil, interval: Interval)
    requires 0 <= c.month < 12
    ensures Moved(c, interval) == Following(c, interval).(day := 1).Number() + c.day - 1
  {
    MakeDayInRange(c.year, c.month, c.day);
    MakeDayInRange(c.year + 1, c.month, c.day);
  }

  lemma MonthAfterNumber(year: int, month: int)
    requires 0 <= month < 12
    ensures MonthAfter(year, month).Number() == Civil(year, month, 1).Number() + MonthLength(year, month)
  {
    YearStep(year);
    if month == 11 {
      YearIsItsMonths(IsLeap(year));
    }
  }

  lemma OnDayParts(day: int, time: int)
    ensures OnDay(day, time) / MS_PER_DAY == day && OnDay(day, time) % MS_PER_DAY == time % MS_PER_DAY
  {
  }

  /**
   * The overflowing date is either in the target month, or an early day of the month after, whose
   * day 0 is the target month's last day.
   */
  lemma OverflowLands(c: Civil, interval: Interval, reached: Civil)
    requires c.Valid() && reached.Valid() && reached.Number() == Moved(c, interval)
    ensures SteppedBack(reached, c.day) == Following(c, interval).Number()
  {
    MovedFromFirst(c, interval);
    var target := Following(c, interval);
    if c.day <= MonthLength(target.year, target.month) {
      SameNumberSameDate(reached, target);
    } else {
      LandsAfter(target.year, target.month, c.day, reached);
    }
  }

  lemma DayOfMonthAfter(year: int, month: int, day: int)
    requires 0 <= month < 12 && MonthLength(year, month) < day <= 31
    ensures var c := MonthAfter(year, month).(day := day - MonthLength(year, month));
            c.Valid() && c.Number() == Civil(year, month, 1).Number() + day - 1 && c.day != day
  {
    var first := MonthAfter(year, month);
    MonthLengths(year, month);
    MonthLengths(first.year, first.month);
    MonthAfterNumber(year, month);
  }

  lemma DayZero(year: int, month: int)
    requires 0 <= month < 12
    ensures var first := MonthAfter(year, month);
            MakeDay(first.year, first.month, 0) == Civil(year, month, MonthLength(year, month)).Number()
  {
    var first := MonthAfter(year, month);
    MakeDayInRange(first.year, first.month, 0);
    MonthAfterNumber(year, month);
  }

  lemma LandsAfter(year: int, month: int, day: int, reached: Civil)
    requires 0 <= month < 12 && MonthLength(year, month) < day <= 31
    requires reached.Valid() && reached.Number() == Civil(year, month, 1).Number() + day - 1
    ensures reached.day != day
    ensures MakeDay(reached.year, reached.month, 0) == Civil(year, month, MonthLength(year, month)).Number()
  {
    DayOfMonthAfter(year, month, day);
    SameNumberSameDate(reached, MonthAfter(year, month).(day := day - MonthLength(year, month)));
    DayZero(year, month);
  }

  lemma FollowingValid(c: Civil, interval: Interval)
    requires c.Valid()
    ensures Following(c, interval).Valid() && Before(c, Following(c, interval))
  {
  }

  /** A period ends strictly after it starts, at the same time of day. */
  lemma NextPeriodIsLater(time: int, interval: Interval)
    ensures time < NextPeriod(time, interval)
    ensures NextPeriod(time, interval) % MS_PER_DAY == time % MS_PER_DAY
    ensures NextPeriod(time, interval) / MS_PER_DAY == Following(DateOf(time), interval).Number()
  {
    var c := DateOf(time);
    FollowingValid(c, interval);
    NumberMonotone(c, Following(c, interval));
    OnDayParts(Following(c, interval).Number(), time);
    LaterDayLater(time, NextPeriod(time, interval));
  }

  lemma LaterDayLater(a: int, b: int)
    ensures a / MS_PER_DAY < b / MS_PER_DAY ==> a < b
    ensures a / MS_PER_DAY == b / MS_PER_DAY ==> (a < b <==> a % MS_PER_DAY < b % MS_PER_DAY)
  {
  }

  lemma FollowingMonotone(c: Civil, d: Civil, interval: Interval)
    requires c.Valid() && d.Valid() && c.Number() <= d.Number()
    ensures Following(c, interval).Number() <= Following(d, interval).Number()
  {
    if c.Number() == d.Number() {
      SameNumberSameDate(c, d);
    } else {
      if Before(d, c) {
        NumberMonotone(d, c);
      }
      FollowingOrder(c, d, interval);
      FollowingValid(c, interval);
      FollowingValid(d, interval);
      if Following(c, interval) != Following(d, interval) {
        NumberMonotone(Following(c, interval), Following(d, interval));
      }
    }
  }

  lemma FollowingOrder(c: Civil, d: Civil, interval: Interval)
    requires c.Valid() && d.Valid() && !Before(d, c)
    ensures Following(c, interval) == Following(d, interval) || Before(Following(c, interval), Following(d, interval))
  {
  }

  /** A later date never gets an earlier period end. */
  lemma PeriodEndMonotone(a: int, b: int, interval: Interval)
    requires a / MS_PER_DAY <= b / MS_PER_DAY
    ensures NextPeriod(a, interval) / MS_PER_DAY <= NextPeriod(b, interval) / MS_PER_DAY
  {
    NextPeriodIsLater(a, interval);
    NextPeriodIsLater(b, interval);
    FollowingMonotone(DateOf(a), DateOf(b), interval);
  }

  /**
   * Instants are another matter: an earlier one gets the later period end exactly when both dates are
   * cut to the same day and its time of day is the later one.
   */
  lemma InstantsCrossExactly(a: int, b: int, interval: Interval)
    requires a < b
    ensures NextPeriod(b, interval) < NextPeriod(a, interval) <==>
      Following(DateOf(a), interval) == Following(DateOf(b), interval) && b % MS_PER_DAY < a % MS_PER_DAY
  {
    LaterDayLater(b, a);
    PeriodEndMonotone(a, b, interval);
    NextPeriodIsLater(a, interval);
    NextPeriodIsLater(b, interval);
    LaterDayLater(NextPeriod(b, interval), NextPeriod(a, interval));
    var c, d := DateOf(a), DateOf(b);
    FollowingValid(c, interval);
    FollowingValid(d, interval);
    if Following(c, interval).Number() == Following(d, interval).Number() {
      SameNumberSameDate(Following(c, interval), Following(d, interval));
    }
  }

  lemma RestOnDay(day: int, rest: int)
    requires 0 <= rest < MS_PER_DAY
    ensures OnDay(day, rest) / MS_PER_DAY == day && OnDay(day, rest) % MS_PER_DAY == rest
  {
  }

  lemma DateIs(time: int, c: Civil)
    requires c.Valid() && c.Number() == time / MS_PER_DAY
    ensures DateOf(time) == c
  {
    SameNumberSameDate(c, DateOf(time));
  }

  lemma OnDayOrder(day: int, other: int, s: int, t: int)
    requires day < other
    ensures OnDay(day, s) < OnDay(other, t)
  {
    OnDayParts(day, s);
    OnDayParts(other, t);
  }

  lemma CutTogether(c: Civil, d: Civil, early: int, late: int, interval: Interval)
    requires c.Valid() && d.Valid() && Before(c, d) && Following(c, interval) == Following(d, interval)
    requires 0 <= early < late < MS_PER_DAY
    ensures OnDay(c.Number(), late) < OnDay(d.Number(), early)
    ensures NextPeriod(OnDay(d.Number(), early), interval) < NextPeriod(OnDay(c.Number(), late), interval)
  {
    NumberMonotone(c, d);
    OnDayOrder(c.Number(), d.Number(), late, early);
    RestOnDay(c.Number(), late);
    RestOnDay(d.Number(), early);
    DateIs(OnDay(c.Number(), late), c);
    DateIs(OnDay(d.Number(), early), d);
    InstantsCrossExactly(OnDay(c.Number(), late), OnDay(d.Number(), early), interval);
  }

  /** 30 January at 23:00 comes before 31 January at 01:00, but a month later it is the other way round. */
  lemma InstantsCross(year: int)
    ensures var a := OnDay(Civil(year, 0, 30).Number(), 23 * 3_600_000);
            var b := OnDay(Civil(year, 0, 31).Number(), 3_600_000);
            a < b && NextPeriod(b, Month) < NextPeriod(a, Month)
  {
    CutTogether(Civil(year, 0, 30), Civil(year, 0, 31), 3_600_000, 23 * 3_600_000, Month);
  }

  // ---- Renewing month after month ----

  function Monthly(c: Civil, n: nat): Civil {
    if n == 0 then c else Following(Monthly(c, n - 1), Month)
  }

  /** Length of the month with this index. */
  function LengthAt(index: int): int {
    MonthLength(index / 12, index % 12)
  }

  /** The smallest of `day` and the lengths of the `n` months after `index`. */
  function Shortest(day: int, index: int, n: nat): int {
    if n == 0 then day else Min(Shortest(day, index, n - 1), LengthAt(index + n))
  }

  /**
   * After n monthly renewals exactly n months have passed, and the day is the smallest of the start
   * day and every visited month's length: once shortened it never grows back, but never below 28.
   */
  lemma {:induction false} MonthlyRenewal(c: Civil, n: nat)
    requires c.Valid()
    ensures var d := Monthly(c, n);
            && d.Valid()
            && d.MonthIndex() == c.MonthIndex() + n
            && d.day == Shortest(c.day, c.MonthIndex(), n)
            && Min(c.day, 28) <= d.day <= c.day
            && (n > 0 ==> d.day <= Monthly(c, n - 1).day)
  {
    if n > 0 {
      MonthlyRenewal(c, n - 1);
      var before, d := Monthly(c, n - 1), Monthly(c, n);
      FollowingValid(before, Month);
      assert d.MonthIndex() == before.MonthIndex() + 1;
      assert d.MonthIndex() / 12 == d.year && d.MonthIndex() % 12 == d.month;
    }
  }

  lemma {:induction false} ShortestBounds(day: int, index: int, n: nat, k: nat)
    requires k <= n
    ensures Shortest(day, index, n) <= Shortest(day, index, k) <= day
    ensures 0 < k ==> Shortest(day, index, k) <= LengthAt(index + k)
    decreases n
  {
    if k < n {
      ShortestBounds(day, index, n - 1, k);
    } else if k > 0 {
      ShortestBounds(day, index, k - 1, k - 1);
    }
  }

  /** The February that twelve months from `c` pass through. */
  function PassedFebruary(c: Civil): int {
    MonthLength(if c.month == 0 then c.year else c.year + 1, 1)
  }

  lemma LengthAhead(c: Civil, n: nat)
    requires c.Valid() && n <= 12
    ensures LengthAt(c.MonthIndex() + n) ==
      if c.month + n < 12 then MonthLength(c.year, c.month + n) else MonthLength(c.year + 1, c.month + n - 12)
  {
  }

  lemma AheadAtLeast(c: Civil, k: nat)
    requires c.Valid() && 1 <= k <= 12
    ensures LengthAt(c.MonthIndex() + k) >= PassedFebruary(c)
  {
    LengthAhead(c, k);
  }

  lemma FebruaryAhead(c: Civil) returns (k: nat)
    requires c.Valid()
    ensures 1 <= k <= 12 && LengthAt(c.MonthIndex() + k) == PassedFebruary(c)
  {
    k := if c.month == 0 then 1 else 13 - c.month;
    LengthAhead(c, k);
  }

  lemma {:induction false} ShortestAtLeast(c: Civil, n: nat)
    requires c.Valid() && n <= 12
    ensures Shortest(c.day, c.MonthIndex(), n) >= Min(c.day, PassedFebruary(c))
    decreases n
  {
    if n > 0 {
      ShortestAtLeast(c, n - 1);
      AheadAtLeast(c, n);
    }
  }

  /** Over twelve months it is the February that counts. */
  lemma TwelveShortest(c: Civil)
    requires c.Valid()
    ensures Shortest(c.day, c.MonthIndex(), 12) == Min(c.day, PassedFebruary(c))
  {
    ShortestAtLeast(c, 12);
    var k := FebruaryAhead(c);
    ShortestBounds(c.day, c.MonthIndex(), 12, k);
  }

  lemma YearlyDay(c: Civil)
    requires c.Valid()
    ensures Following(c, Year).day == if c.month == 1 then Min(c.day, PassedFebruary(c)) else c.day
  {
  }

  /** A year of monthly renewals ends on the day of one yearly renewal exactly when no February in between was too short. */
  lemma TwelveMonthsAreOneYear(c: Civil)
    requires c.Valid()
    ensures Monthly(c, 12) == Following(c, Year) <==> c.month == 1 || c.day <= PassedFebruary(c)
  {
    var d, e := Monthly(c, 12), Following(c, Year);
    assert d.Valid() && d.MonthIndex() == c.MonthIndex() + 12 && d.day == Shortest(c.day, c.MonthIndex(), 12) by {
      MonthlyRenewal(c, 12);
    }
    TwelveShortest(c);
    YearlyDay(c);
    FollowingValid(c, Year);
    SameIndex(d, e);
  }

  lemma SameIndex(c: Civil, d: Civil)
    requires c.Valid() && d.Valid() && c.MonthIndex() == d.MonthIndex()
    ensures c.year == d.year && c.month == d.month
  {
  }
}
