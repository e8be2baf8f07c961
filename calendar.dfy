/**
 * The booking calendar: a month grid of leading blanks and day cells, the rules that make a
 * day past, available, disabled, today or selected, the class a day cell gets, and the month
 * navigation and day selection state.
 *
 * Dates are proleptic Gregorian `(year, month, day)` with dayjs's 0-based month. "Today" is given
 * to the model as a date.
 */
module Calendar {
  import opened Wrappers

  datatype Month = Month(year: int, month: int)

  datatype Date = Date(year: int, month: int, day: int)

  predicate ValidMonth(m: Month)
  {
    0 <= m.month < 12
  }

  // ---------------------------------------------------------------------------------------
  // Gregorian arithmetic
  // ---------------------------------------------------------------------------------------

  predicate IsLeap(year: int)
  {
    year % 4 == 0 && (year % 100 != 0 || year % 400 == 0)
  }

  /** `daysInMonth()` of a 0-based month. */
  function DaysInMonth(year: int, month: int): (r: int)
    ensures 28 <= r <= 31
  {
    if month == 1 then (if IsLeap(year) then 29 else 28)
    else if month == 3 || month == 5 || month == 8 || month == 10 then 30
    else 31
  }

  /** Days from 0001-01-01 to the first day of `year`. */
  function DaysBeforeYear(year: int): int
  {
    var y := year - 1;
    365 * y + y / 4 - y / 100 + y / 400
  }

  /** Days from the first day of `year` to the first day of its month `month`. */
  function DaysBeforeMonth(year: int, month: nat): int
    requires month <= 12
  {
    if month == 0 then 0 else DaysBeforeMonth(year, month - 1) + DaysInMonth(year, month - 1)
  }

  /** Days from 0001-01-01 (day 0) to the date. */
  function Ordinal(d: Date): int
    requires 0 <= d.month < 12
  {
    DaysBeforeYear(d.year) + DaysBeforeMonth(d.year, d.month) + d.day - 1
  }

  /** `day()`: 0 for Sunday through 6 for Saturday; 0001-01-01 was a Monday. */
  function Weekday(d: Date): (r: int)
    requires 0 <= d.month < 12
    ensures 0 <= r < 7
  {
    (Ordinal(d) + 1) % 7
  }

  /** `startOf("month").day()`. */
  function FirstWeekday(m: Month): int
    requires ValidMonth(m)
  {
    Weekday(Date(m.year, m.month, 1))
  }

  /** How many multiples of 4, 100 and 400 the step from `y - 1` to `y` passes. */
  lemma DivSteps(y: int)
    ensures y / 4 - (y - 1) / 4 == (if y % 4 == 0 then 1 else 0)
    ensures y / 100 - (y - 1) / 100 == (if y % 100 == 0 then 1 else 0)
    ensures y / 400 - (y - 1) / 400 == (if y % 400 == 0 then 1 else 0)
  {
  }

  /** A multiple of 400 is a multiple of 100, and a multiple of 100 is a multiple of 4. */
  lemma MultipleChain(y: int)
    ensures y % 400 == 0 ==> y % 100 == 0
    ensures y % 100 == 0 ==> y % 4 == 0
  {
  }

  /** A year has 366 days when it is a leap year and 365 otherwise. */
  lemma YearLength(year: int)
    ensures DaysBeforeYear(year + 1) - DaysBeforeYear(year) == (if IsLeap(year) then 366 else 365)
  {
    DivSteps(year);
    MultipleChain(year);
  }

  /** The month lengths of a year add up to the year's length. */
  lemma MonthsFillYear(year: int)
    ensures DaysBeforeMonth(year, 12) == (if IsLeap(year) then 366 else 365)
  {
    var feb := DaysInMonth(year, 1);
    assert DaysBeforeMonth(year, 1) == 31;
    assert DaysBeforeMonth(year, 2) == 31 + feb;
    assert DaysBeforeMonth(year, 3) == 62 + feb;
    assert DaysBeforeMonth(year, 4) == 92 + feb;
    assert DaysBeforeMonth(year, 5) == 123 + feb;
    assert DaysBeforeMonth(year, 6) == 153 + feb;
    assert DaysBeforeMonth(year, 7) == 184 + feb;
    assert DaysBeforeMonth(year, 8) == 215 + feb;
    assert DaysBeforeMonth(year, 9) == 245 + feb;
    assert DaysBeforeMonth(year, 10) == 276 + feb;
    assert DaysBeforeMonth(year, 11) == 306 + feb;
    assert DaysBeforeMonth(year, 12) == 337 + feb;
  }

  // ---------------------------------------------------------------------------------------
  // Month navigation
  // ---------------------------------------------------------------------------------------

  /** `currentMonth.subtract(1, "month")`. */
  function PrevMonth(m: Month): Month
  {
    if m.month == 0 then Month(m.year - 1, 11) else Month(m.year, m.month - 1)
  }

  /** `currentMonth.add(1, "month")`. */
  function NextMonth(m: Month): Month
  {
    if m.month == 11 then Month(m.year + 1, 0) else Month(m.year, m.month + 1)
  }

  /** Months counted from year 0. */
  function MonthIndex(m: Month): int
  {
    12 * m.year + m.month
  }

  /** Previous moves one month back, next one month forward, and each undoes the other. */
  lemma MonthNavigation(m: Month)
    requires ValidMonth(m)
    ensures ValidMonth(PrevMonth(m)) && ValidMonth(NextMonth(m))
    ensures MonthIndex(PrevMonth(m)) == MonthIndex(m) - 1
    ensures MonthIndex(NextMonth(m)) == MonthIndex(m) + 1
    ensures NextMonth(PrevMonth(m)) == m && PrevMonth(NextMonth(m)) == m
  {
  }

  /** The first day of the month after `m` is `m`'s length of days after `m`'s first day. */
  lemma NextMonthOrdinal(m: Month)
    requires ValidMonth(m)
    ensures Ordinal(Date(NextMonth(m).year, NextMonth(m).month, 1))
            == Ordinal(Date(m.year, m.month, 1)) + DaysInMonth(m.year, m.month)
  {
    if m.month == 11 {
      YearLength(m.year);
      MonthsFillYear(m.year);
      assert DaysBeforeMonth(m.year, 12) == DaysBeforeMonth(m.year, 11) + DaysInMonth(m.year, 11);
    }
  }

  lemma ShiftMod7(a: int, k: int)
    ensures (a + k) % 7 == (a % 7 + k) % 7
  {
  }

  /** The month after `m` starts on the weekday following `m`'s last day. */
  lemma NextMonthWeekday(m: Month)
    requires ValidMonth(m)
    ensures FirstWeekday(NextMonth(m)) == (FirstWeekday(m) + DaysInMonth(m.year, m.month)) % 7
  {
    NextMonthOrdinal(m);
    ShiftMod7(Ordinal(Date(m.year, m.month, 1)) + 1, DaysInMonth(m.year, m.month));
  }

  // ---------------------------------------------------------------------------------------
  // The grid
  // ---------------------------------------------------------------------------------------

  datatype Cell = Blank | Day(n: int)

  /** `[...Array(firstDayOfMonth).fill(null), ...Array(daysInMonth).keys()]` with days 1-based. */
  function Grid(m: Month): (r: seq<Cell>)
    requires ValidMonth(m)
    ensures |r| == FirstWeekday(m) + DaysInMonth(m.year, m.month)
    ensures forall i :: 0 <= i < FirstWeekday(m) ==> r[i] == Blank
    ensures forall d :: 1 <= d <= DaysInMonth(m.year, m.month) ==> r[FirstWeekday(m) + d - 1] == Day(d)
  {
    var first := FirstWeekday(m);
    seq(first, i => Blank) + seq(DaysInMonth(m.year, m.month), k => Day(k + 1))
  }

  /** Consecutive days of a month fall on consecutive weekdays. */
  lemma WeekdayStep(m: Month, d: int)
    requires ValidMonth(m)
    ensures Weekday(Date(m.year, m.month, d + 1)) == (Weekday(Date(m.year, m.month, d)) + 1) % 7
  {
  }

  lemma {:induction false} WeekdayOfDay(m: Month, d: nat)
    requires ValidMonth(m) && d >= 1
    ensures Weekday(Date(m.year, m.month, d)) == (FirstWeekday(m) + d - 1) % 7
  {
    if d > 1 {
      WeekdayOfDay(m, d - 1);
      WeekdayStep(m, d - 1);
      NextResidue(Weekday(Date(m.year, m.month, d - 1)), FirstWeekday(m) + d - 2);
    }
  }

  lemma NextResidue(w: int, k: int)
    requires w == k % 7
    ensures (w + 1) % 7 == (k + 1) % 7
  {
  }

  /** In a grid of seven columns starting on Sunday, every day sits in its weekday's column. */
  lemma GridColumns(m: Month, i: nat)
    requires ValidMonth(m) && i < |Grid(m)| && Grid(m)[i].Day?
    ensures i % 7 == Weekday(Date(m.year, m.month, Grid(m)[i].n))
  {
    var first := FirstWeekday(m);
    var d := i - first + 1;
    assert Grid(m)[i] == Day(d);
    WeekdayOfDay(m, d);
  }

  // ---------------------------------------------------------------------------------------
  // YYYY-MM-DD
  // ---------------------------------------------------------------------------------------

  function DigitChar(n: int): char
    requires 0 <= n < 10
  {
    "0123456789"[n]
  }

  /** The decimal digits of `n`, without leading zeros. */
  function Decimal(n: nat): (r: string)
    ensures |r| >= 1
    ensures n >= 10 ==> |r| >= 2
    ensures n > 0 ==> r[0] != '0'
    ensures n < 10 ==> |r| == 1
    ensures n < 100 ==> |r| <= 2
  {
    if n < 10 then [DigitChar(n)] else Decimal(n / 10) + [DigitChar(n % 10)]
  }

  function Zeros(k: nat): (r: string)
    ensures |r| == k && forall i :: 0 <= i < k ==> r[i] == '0'
  {
    if k == 0 then [] else Zeros(k - 1) + ['0']
  }

  /** `padStart(width, "0")`. */
  function PadStart(s: string, width: nat): (r: string)
    ensures |r| == if |s| < width then width else |s|
    ensures r[|r| - |s|..] == s
  {
    if |s| < width then Zeros(width - |s|) + s else s
  }

  /** Different numbers have different decimal forms. */
  lemma {:induction false} DecimalInjective(n: nat, m: nat)
    requires Decimal(n) == Decimal(m)
    ensures n == m
  {
    if n >= 10 && m >= 10 {
      DecimalSplit(n);
      DecimalSplit(m);
      DecimalInjective(n / 10, m / 10);
      DigitCharInjective(n % 10, m % 10);
    } else if n < 10 && m < 10 {
      DigitCharInjective(n, m);
    }
  }

  /** A number of two or more digits is its leading digits followed by its last one. */
  lemma DecimalSplit(n: nat)
    requires n >= 10
    ensures Decimal(n)[..|Decimal(n)| - 1] == Decimal(n / 10)
    ensures Decimal(n)[|Decimal(n)| - 1] == DigitChar(n % 10)
  {
    var a := Decimal(n);
    assert a == Decimal(n / 10) + [DigitChar(n % 10)];
  }

  lemma DigitCharInjective(x: int, y: int)
    requires 0 <= x < 10 && 0 <= y < 10 && DigitChar(x) == DigitChar(y)
    ensures x == y
  {
  }

  /** Zero-padding to a common width keeps different numbers apart. */
  lemma PaddedInjective(n: nat, m: nat, width: nat)
    requires PadStart(Decimal(n), width) == PadStart(Decimal(m), width)
    ensures n == m
  {
    var a := Decimal(n);
    var b := Decimal(m);
    var s := PadStart(a, width);
    if |a| == |b| {
      assert s[|s| - |a|..] == a && s[|s| - |b|..] == b;
      DecimalInjective(n, m);
    }
  }

  predicate ValidDate(d: Date)
  {
    d.year >= 0 && 0 <= d.month < 12 && 1 <= d.day <= 31
  }

  /** `format("YYYY-MM-DD")` for a year from 0 on. */
  function FormatDate(d: Date): (r: string)
    requires ValidDate(d)
    ensures |r| == |PadStart(Decimal(d.year), 4)| + 6
  {
    Dashed(PadStart(Decimal(d.year), 4), PadStart(Decimal(d.month + 1), 2), PadStart(Decimal(d.day), 2))
  }

  function Dashed(y: string, mo: string, da: string): string
  {
    y + "-" + mo + "-" + da
  }

  /** A month or day number pads to exactly two characters. */
  lemma TwoDigits(n: nat)
    requires n < 100
    ensures |PadStart(Decimal(n), 2)| == 2
  {
  }

  /** Joining fields of fixed widths with dashes can be undone. */
  lemma DashedInjective(y: string, mo: string, da: string, y': string, mo': string, da': string)
    requires |mo| == |mo'| == 2 && |da| == |da'| == 2
    requires Dashed(y, mo, da) == Dashed(y', mo', da')
    ensures y == y' && mo == mo' && da == da'
  {
    var s := Dashed(y, mo, da);
    assert s[..|y|] == y && s[..|y'|] == y';
    assert s[|y| + 1..|y| + 3] == mo && s[|y'| + 1..|y'| + 3] == mo';
    assert s[|y| + 4..] == da && s[|y'| + 4..] == da';
  }

  /** Equal formatted dates have equal padded fields. */
  lemma FormatDateParts(a: Date, b: Date)
    requires ValidDate(a) && ValidDate(b) && FormatDate(a) == FormatDate(b)
    ensures PadStart(Decimal(a.year), 4) == PadStart(Decimal(b.year), 4)
    ensures PadStart(Decimal(a.month + 1), 2) == PadStart(Decimal(b.month + 1), 2)
    ensures PadStart(Decimal(a.day), 2) == PadStart(Decimal(b.day), 2)
  {
    FormatDateShape(a);
    FormatDateShape(b);
    DashedInjective(PadStart(Decimal(a.year), 4), PadStart(Decimal(a.month + 1), 2), PadStart(Decimal(a.day), 2),
                    PadStart(Decimal(b.year), 4), PadStart(Decimal(b.month + 1), 2), PadStart(Decimal(b.day), 2));
  }

  /** The month and day fields of a formatted date are two characters wide. */
  lemma FormatDateShape(d: Date)
    requires ValidDate(d)
    ensures FormatDate(d) == Dashed(PadStart(Decimal(d.year), 4), PadStart(Decimal(d.month + 1), 2), PadStart(Decimal(d.day), 2))
    ensures |PadStart(Decimal(d.month + 1), 2)| == 2 && |PadStart(Decimal(d.day), 2)| == 2
  {
    TwoDigits(d.month + 1);
    TwoDigits(d.day);
  }

  /** Two dates with the same `YYYY-MM-DD` text are the same date. */
  lemma FormatDateInjective(a: Date, b: Date)
    requires ValidDate(a) && ValidDate(b) && FormatDate(a) == FormatDate(b)
    ensures a == b
  {
    FormatDateParts(a, b);
    PaddedInjective(a.year, b.year, 4);
    PaddedInjective(a.month + 1, b.month + 1, 2);
    PaddedInjective(a.day, b.day, 2);
  }

  // ---------------------------------------------------------------------------------------
  // Day predicates
  // ---------------------------------------------------------------------------------------

  /** `a` is a strictly earlier calendar date than `b`. */
  predicate Before(a: Date, b: Date)
  {
    a.year < b.year || (a.year == b.year && (a.month < b.month || (a.month == b.month && a.day < b.day)))
  }

  function DateIn(m: Month, day: int): Date
  {
    Date(m.year, m.month, day)
  }

  /** `isPastDate`: the day lies before the start of today. */
  predicate IsPastDate(m: Month, day: int, today: Date)
  {
    Before(DateIn(m, day), today)
  }

  /** `isDateAvailable`: every day when no list is given, else exactly the listed dates. */
  predicate IsDateAvailable(m: Month, day: int, availableDates: seq<string>)
    requires ValidDate(DateIn(m, day))
  {
    |availableDates| == 0 || FormatDate(DateIn(m, day)) in availableDates
  }

  /** `isToday`. */
  predicate IsToday(m: Month, day: int, today: Date)
  {
    DateIn(m, day) == today
  }

  /** `isSelectedDay`: day, month and year all match. */
  predicate IsSelectedDay(m: Month, day: int, selected: Date)
  {
    selected.day == day && selected.month == m.month && selected.year == m.year
  }

  /** A day is disabled when it is past or not available. */
  predicate IsDisabled(m: Month, day: int, today: Date, availableDates: seq<string>)
    requires ValidDate(DateIn(m, day))
  {
    IsPastDate(m, day, today) || !IsDateAvailable(m, day, availableDates)
  }

  /** Today is never past, and a day is selected exactly when it is the selected date. */
  lemma DayPredicates(m: Month, day: int, today: Date, selected: Date)
    ensures IsToday(m, day, today) ==> !IsPastDate(m, day, today)
    ensures IsSelectedDay(m, day, selected) <==> DateIn(m, day) == selected
    ensures IsPastDate(m, day, today) ==> DateIn(m, day) != today
  {
  }

  /**
   * With the list given as the formatted dates of `dates`, a day is available exactly when it
   * is one of those dates.
   */
  lemma AvailableIffListed(m: Month, day: int, dates: seq<Date>)
    requires ValidDate(DateIn(m, day)) && |dates| > 0
    requires forall k :: 0 <= k < |dates| ==> ValidDate(dates[k])
    ensures var listed := seq(|dates|, k requires 0 <= k < |dates| => FormatDate(dates[k]));
      IsDateAvailable(m, day, listed) <==> DateIn(m, day) in dates
  {
    var listed := seq(|dates|, k requires 0 <= k < |dates| => FormatDate(dates[k]));
    if FormatDate(DateIn(m, day)) in listed {
      var k :| 0 <= k < |listed| && listed[k] == FormatDate(DateIn(m, day));
      FormatDateInjective(dates[k], DateIn(m, day));
    }
    if DateIn(m, day) in dates {
      var k :| 0 <= k < |dates| && dates[k] == DateIn(m, day);
      assert listed[k] == FormatDate(DateIn(m, day));
    }
  }

  // ---------------------------------------------------------------------------------------
  // Cell classes
  // ---------------------------------------------------------------------------------------

  /** The look `getDayClasses` picks for a cell. */
  datatype DayLook = NoLook | SelectedLook | DisabledLook | TodayLook | PlainLook

  /** Priority: selected, then disabled, then today, then plain; blanks get no class. */
  function DayClasses(m: Month, cell: Cell, today: Date, selected: Date, availableDates: seq<string>): (r: DayLook)
    requires cell.Day? ==> ValidDate(DateIn(m, cell.n))
    ensures r == NoLook <==> cell.Blank?
    ensures cell.Day? ==>
      && (r == SelectedLook <==> IsSelectedDay(m, cell.n, selected))
      && (r == DisabledLook <==> !IsSelectedDay(m, cell.n, selected) && IsDisabled(m, cell.n, today, availableDates))
      && (r == TodayLook <==>
            !IsSelectedDay(m, cell.n, selected) && !IsDisabled(m, cell.n, today, availableDates) && IsToday(m, cell.n, today))
  {
    match cell
    case Blank => NoLook
    case Day(n) =>
      if IsSelectedDay(m, n, selected) then SelectedLook
      else if IsDisabled(m, n, today, availableDates) then DisabledLook
      else if IsToday(m, n, today) then TodayLook
      else PlainLook
  }

  /** The calendar's own state: the shown month and the selected date. */
  class BookingCalendar {
    const today: Date
    var currentMonth: Month
    var selected: Date

    predicate Valid()
      reads this
    {
      ValidMonth(currentMonth)
    }

    /** Start on today's month, with the given date (or today) selected. */
    constructor(today: Date, propSelected: Option<Date>)
      requires ValidDate(today)
      ensures this.today == today && currentMonth == Month(today.year, today.month)
      ensures selected == propSelected.GetOr(today)
      ensures Valid()
    {
      this.today := today;
      currentMonth := Month(today.year, today.month);
      selected := propSelected.GetOr(today);
    }

    /** The effect on a new `selectedDate` prop: select it and show its month. */
    method SyncSelected(propSelected: Option<Date>)
      requires Valid()
      requires propSelected.Some? ==> ValidDate(propSelected.value)
      modifies this
      ensures Valid()
      ensures propSelected.None? ==> currentMonth == old(currentMonth) && selected == old(selected)
      ensures propSelected.Some? ==>
                selected == propSelected.value
                && currentMonth == Month(propSelected.value.year, propSelected.value.month)
    {
      if propSelected.Some? {
        selected := propSelected.value;
        currentMonth := Month(propSelected.value.year, propSelected.value.month);
      }
    }

    /** `prevMonth`: the month before, which is also what `onMonthChange` receives. */
    method PrevMonthClick() returns (notified: Month)
      requires Valid()
      modifies this
      ensures Valid()
      ensures currentMonth == PrevMonth(old(currentMonth)) && notified == currentMonth
      ensures MonthIndex(currentMonth) == MonthIndex(old(currentMonth)) - 1
      ensures selected == old(selected)
    {
      MonthNavigation(currentMonth);
      currentMonth := PrevMonth(currentMonth);
      notified := currentMonth;
    }

    /** `nextMonth`: the month after, which is also what `onMonthChange` receives. */
    method NextMonthClick() returns (notified: Month)
      requires Valid()
      modifies this
      ensures Valid()
      ensures currentMonth == NextMonth(old(currentMonth)) && notified == currentMonth
      ensures MonthIndex(currentMonth) == MonthIndex(old(currentMonth)) + 1
      ensures selected == old(selected)
    {
      MonthNavigation(currentMonth);
      currentMonth := NextMonth(currentMonth);
      notified := currentMonth;
    }

    /**
     * A click on a grid cell: blanks and disabled days do nothing; an enabled day becomes the
     * selected date and is passed to `onChange`.
     */
    method CellClick(cell: Cell, availableDates: seq<string>) returns (changed: Option<Date>)
      requires Valid()
      requires currentMonth.year >= 0
      requires cell in Grid(currentMonth)
      modifies this
      ensures Valid() && currentMonth == old(currentMonth)
      ensures changed.None? <==>
                cell.Blank? || IsDisabled(currentMonth, cell.n, today, availableDates)
      ensures changed.None? ==> selected == old(selected)
      ensures changed.Some? ==> changed.value == DateIn(currentMonth, cell.n) && selected == changed.value
    {
      if cell.Blank? {
        return None;
      }
      GridDaysValid(currentMonth, cell);
      if IsDisabled(currentMonth, cell.n, today, availableDates) {
        return None;
      }
      selected := DateIn(currentMonth, cell.n);
      changed := Some(selected);
    }
  }

  /** Every day cell of a grid is a real date of its month. */
  lemma GridDaysValid(m: Month, cell: Cell)
    requires ValidMonth(m) && m.year >= 0 && cell in Grid(m) && cell.Day?
    ensures ValidDate(DateIn(m, cell.n)) && 1 <= cell.n <= DaysInMonth(m.year, m.month)
  {
    var g := Grid(m);
    var i :| 0 <= i < |g| && g[i] == cell;
    var first := FirstWeekday(m);
    assert i >= first;
    assert g[i] == Day(i - first + 1);
  }
}
