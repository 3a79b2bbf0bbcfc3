/** The appointment calendar: the proleptic Gregorian calendar counted in
    days since 1970-01-01, the month grid (blank cells up to the weekday
    of the 1st, then one cell per day holding that day's appointments),
    the "+n more" truncation of a cell, and month-by-month navigation. */
module Calendar {
  import opened Rows
  import opened Text
  import opened Clinic
  import Arith

  // ---------------------------------------------------------------------
  // Gregorian day count (months are 0-based, as `Date.getMonth` gives them)

  predicate IsLeap(y: int) {
    y % 4 == 0 && (y % 100 != 0 || y % 400 == 0)
  }

  /** Length of month `m` of year `y`. */
  function DaysInMonth(y: int, m: int): (n: nat)
    requires 0 <= m < 12
    ensures 28 <= n <= 31
    ensures m == 1 ==> (n == 29 <==> IsLeap(y))
  {
    if m == 1 then (if IsLeap(y) then 29 else 28)
    else if m == 3 || m == 5 || m == 8 || m == 10 then 30
    else 31
  }

  function YearLength(y: int): nat {
    if IsLeap(y) then 366 else 365
  }

  /** `x / 4 - x / 100 + x / 400` with floor division: for `x >= 0` the
      number of leap years among 1..x. */
  function Leaps(x: int): int {
    x / 4 - x / 100 + x / 400
  }

  /** Days from 1970-01-01 to January 1st of `y` (negative before 1970). */
  function DaysBeforeYear(y: int): int {
    365 * (y - 1970) + Leaps(y - 1) - Leaps(1969)
  }

  /** Days of year `y` before the 1st of month `m`. */
  function DaysBeforeMonth(y: int, m: int): nat
    requires 0 <= m <= 12
  {
    if m == 0 then 0 else DaysBeforeMonth(y, m - 1) + DaysInMonth(y, m - 1)
  }

  /** Day `d` of month `m` of year `y`, counted in days since 1970-01-01;
      `d` may lie outside the month, as JavaScript's `Date` allows. */
  function DayNumber(y: int, m: int, d: int): int
    requires 0 <= m < 12
  {
    DaysBeforeYear(y) + DaysBeforeMonth(y, m) + d - 1
  }

  /** `Date.getDay()`: 0 for Sunday through 6 for Saturday (1970-01-01
      was a Thursday). */
  function Weekday(y: int, m: int, d: int): (w: nat)
    requires 0 <= m < 12
    ensures w < 7
  {
    (DayNumber(y, m, d) + 4) % 7
  }

  /** The month after `m` of `y`, rolling over into January of the next year. */
  function NextMonth(y: int, m: int): (r: (int, int))
    requires 0 <= m < 12
    ensures 0 <= r.1 < 12
    ensures MonthIndex(r.0, r.1) == MonthIndex(y, m) + 1
  {
    if m == 11 then (y + 1, 0) else (y, m + 1)
  }

  /** The month before `m` of `y`, rolling back into December of the
      previous year. */
  function PrevMonth(y: int, m: int): (r: (int, int))
    requires 0 <= m < 12
    ensures 0 <= r.1 < 12
    ensures MonthIndex(r.0, r.1) == MonthIndex(y, m) - 1
  {
    if m == 0 then (y - 1, 11) else (y, m - 1)
  }

  /** Months counted from January of year 0. */
  function MonthIndex(y: int, m: int): int {
    12 * y + m
  }

  /** Stepping forward and back are inverse. */
  lemma NavigationInverse(y: int, m: int)
    requires 0 <= m < 12
    ensures PrevMonth(NextMonth(y, m).0, NextMonth(y, m).1) == (y, m)
    ensures NextMonth(PrevMonth(y, m).0, PrevMonth(y, m).1) == (y, m)
  {
  }

  /** A year has one more leap year before its end than before its start
      exactly when it is a leap year. */
  lemma LeapsStep(y: int)
    ensures Leaps(y) - Leaps(y - 1) == if IsLeap(y) then 1 else 0
  {
    DivStep(y, 4);
    DivStep(y, 100);
    DivStep(y, 400);
    if y % 400 == 0 {
      assert y % 100 == 0 && y % 4 == 0 by {
        var k := y / 400;
        assert y == 400 * k;
        assert y == 100 * (4 * k) && y == 4 * (100 * k);
      }
    } else if y % 100 == 0 {
      assert y % 4 == 0 by {
        var k := y / 100;
        assert y == 100 * k;
        assert y == 4 * (25 * k);
      }
    }
  }

  /** Floor division by `d` steps up by one exactly at multiples of `d`. */
  lemma DivStep(x: int, d: int)
    requires d > 0
    ensures x / d - (x - 1) / d == if x % d == 0 then 1 else 0
  {
    var q := (x - 1) / d;
    var r := (x - 1) % d;
    assert x - 1 == d * q + r && 0 <= r < d;
    if r == d - 1 {
      assert x == d * (q + 1) + 0;
      ModOf(x, d, q + 1, 0);
    } else {
      assert x == d * q + (r + 1);
      ModOf(x, d, q, r + 1);
    }
  }

  /** Quotient and remainder are determined by any decomposition. */
  lemma ModOf(x: int, d: int, q: int, r: int)
    requires d > 0 && 0 <= r < d && x == d * q + r
    ensures x / d == q && x % d == r
  {
    Arith.DivIs(x, d, q);
  }

  /** Adding to a number and adding to its remainder leave the same
      remainder. */
  lemma ModAdd(a: int, n: int, d: int)
    requires d > 0
    ensures (a + n) % d == (a % d + n) % d
  {
    var b := a % d + n;
    assert a == d * (a / d) + a % d;
    assert b == d * (b / d) + b % d;
    assert a + n == d * (a / d + b / d) + b % d;
    ModOf(a + n, d, a / d + b / d, b % d);
  }

  /** Consecutive Januaries lie a year's length apart. */
  lemma YearStep(y: int)
    ensures DaysBeforeYear(y + 1) - DaysBeforeYear(y) == YearLength(y)
  {
    LeapsStep(y);
  }

  /** The twelve months make up the year. */
  lemma MonthsMakeYear(y: int)
    ensures DaysBeforeMonth(y, 12) == YearLength(y)
  {
    var f := if IsLeap(y) then 29 else 28;
    assert DaysBeforeMonth(y, 1) == 31;
    assert DaysBeforeMonth(y, 2) == 31 + f;
    assert DaysBeforeMonth(y, 3) == 62 + f;
    assert DaysBeforeMonth(y, 4) == 92 + f;
    assert DaysBeforeMonth(y, 5) == 123 + f;
    assert DaysBeforeMonth(y, 6) == 153 + f;
    assert DaysBeforeMonth(y, 7) == 184 + f;
    assert DaysBeforeMonth(y, 8) == 215 + f;
    assert DaysBeforeMonth(y, 9) == 245 + f;
    assert DaysBeforeMonth(y, 10) == 276 + f;
    assert DaysBeforeMonth(y, 11) == 306 + f;
  }

  /** The last day of a month is day 0 of the next month: the day just
      before its 1st. This is how the calendar finds the month length
      (`new Date(year, month + 1, 0).getDate()`). */
  lemma LastDayIsDayZeroOfNext(y: int, m: int)
    requires 0 <= m < 12
    ensures var (ny, nm) := NextMonth(y, m);
      DayNumber(y, m, DaysInMonth(y, m)) == DayNumber(ny, nm, 0)
  {
    if m == 11 {
      MonthsMakeYear(y);
      YearStep(y);
    }
  }

  /** The weekday of the 1st advances by the month's length. */
  lemma FirstWeekdayStep(y: int, m: int)
    requires 0 <= m < 12
    ensures var (ny, nm) := NextMonth(y, m);
      Weekday(ny, nm, 1) == (Weekday(y, m, 1) + DaysInMonth(y, m)) % 7
  {
    LastDayIsDayZeroOfNext(y, m);
    var (ny, nm) := NextMonth(y, m);
    assert DayNumber(ny, nm, 1) + 4 == (DayNumber(y, m, 1) + 4) + DaysInMonth(y, m);
    ModAdd(DayNumber(y, m, 1) + 4, DaysInMonth(y, m), 7);
  }

  // ---------------------------------------------------------------------
  // The month grid

  /** One cell of the grid. */
  datatype CalendarDay = CalendarDay(date: string, day: nat, appointments: seq<Appointment>, isEmpty: bool)

  /** A blank cell before the 1st. */
  const EmptyDay := CalendarDay("", 0, [], true)

  /** `${year}-${MM}-${DD}`: the year as written, month (1-based) and day
      zero-padded to two digits. */
  function DateString(y: int, m: nat, d: nat): string {
    IntToString(y) + "-" + Pad2(m + 1) + "-" + Pad2(d)
  }

  function OnDate(date: string): Appointment -> bool {
    (a: Appointment) => a.date == date
  }

  /** The cell of day `d`: its date string and the appointments booked on
      it, in list order. */
  function DayCell(y: int, m: nat, d: nat, apps: seq<Appointment>): CalendarDay {
    var ds := DateString(y, m, d);
    CalendarDay(ds, d, Filter(apps, OnDate(ds)), false)
  }

  function Blanks(n: nat): seq<CalendarDay> {
    seq(n, _ => EmptyDay)
  }

  /** The cells of days 1..n. */
  function DayCells(y: int, m: nat, n: nat, apps: seq<Appointment>): seq<CalendarDay> {
    seq(n, i requires 0 <= i < n => DayCell(y, m, i + 1, apps))
  }

  /** The grid of month `m` of `y`: blanks up to the weekday of the 1st,
      then the days of the month in order. */
  function Grid(y: int, m: int, apps: seq<Appointment>): seq<CalendarDay>
    requires 0 <= m < 12
  {
    Blanks(Weekday(y, m, 1)) + DayCells(y, m, DaysInMonth(y, m), apps)
  }

  /** `getCalendarDays`: one loop pushing the blank cells, one pushing the
      cells of days 1..daysInMonth. */
  method GetCalendarDays(y: int, m: int, apps: seq<Appointment>) returns (days: seq<CalendarDay>)
    requires 0 <= m < 12
    ensures days == Grid(y, m, apps)
  {
    var startingDayOfWeek := Weekday(y, m, 1);
    var daysInMonth := DaysInMonth(y, m);
    days := [];
    var i := 0;
    while i < startingDayOfWeek
      invariant 0 <= i <= startingDayOfWeek
      invariant days == Blanks(i)
    {
      days := days + [EmptyDay];
      i := i + 1;
    }
    var day := 1;
    while day <= daysInMonth
      invariant 1 <= day <= daysInMonth + 1
      invariant days == Blanks(startingDayOfWeek) + DayCells(y, m, day - 1, apps)
    {
      var dateString := DateString(y, m, day);
      var dayAppointments := Filter(apps, OnDate(dateString));
      assert DayCells(y, m, day, apps) == DayCells(y, m, day - 1, apps) + [DayCell(y, m, day, apps)];
      days := days + [CalendarDay(dateString, day, dayAppointments, false)];
      day := day + 1;
    }
  }

  /** The grid's shape: the weekday of the 1st blank cells, then day `d`
      in cell `offset + d - 1`, every day of the month once; at most 37
      cells, so six rows of seven always suffice. */
  lemma GridLayout(y: int, m: int, apps: seq<Appointment>)
    requires 0 <= m < 12
    ensures var g := Grid(y, m, apps);
      var offset := Weekday(y, m, 1);
      |g| == offset + DaysInMonth(y, m) && |g| <= 37
      && (forall i :: 0 <= i < offset ==> g[i].isEmpty && g[i].date == "" && g[i].day == 0 && g[i].appointments == [])
      && (forall i :: offset <= i < |g| ==>
            !g[i].isEmpty && g[i].day == i - offset + 1 && g[i].date == DateString(y, m, i - offset + 1))
  {
  }

  /** Reading the date string back: a day below 100 is its last two digits. */
  lemma DateStringDay(y: int, m: nat, d: nat)
    requires d < 100
    ensures var s := DateString(y, m, d);
      |s| >= 2 && (forall i :: |s| - 2 <= i < |s| ==> IsDigit(s[i])) && DecimalValue(s[|s| - 2..]) == d
  {
    var p := IntToString(y) + "-" + Pad2(m + 1) + "-";
    assert DateString(y, m, d) == p + Pad2(d);
    assert |NatToString(d)| <= 2 by {
      if d >= 10 { assert NatToString(d) == NatToString(d / 10) + [DigitChar(d % 10)]; }
    }
    assert (p + Pad2(d))[|p + Pad2(d)| - 2..] == Pad2(d);
    Pad2Value(d);
  }

  /** Different days of one month get different date strings. */
  lemma DateStringInjective(y: int, m: nat, d1: nat, d2: nat)
    requires DateString(y, m, d1) == DateString(y, m, d2)
    ensures d1 == d2
  {
    var p := IntToString(y) + "-" + Pad2(m + 1) + "-";
    assert DateString(y, m, d1) == p + Pad2(d1);
    assert DateString(y, m, d2) == p + Pad2(d2);
    assert (p + Pad2(d1))[|p|..] == Pad2(d1);
    assert (p + Pad2(d2))[|p|..] == Pad2(d2);
    Pad2Injective(d1, d2);
  }

  /** A cell holds exactly the listed appointments dated on its date
      string, in list order; a blank cell holds none. */
  lemma CellContents(y: int, m: int, apps: seq<Appointment>, i: nat)
    requires 0 <= m < 12
    requires i < |Grid(y, m, apps)|
    ensures var c := Grid(y, m, apps)[i];
      IsSubseq(c.appointments, apps)
      && forall a :: a in c.appointments <==> !c.isEmpty && a in apps && a.date == c.date
  {
    var g := Grid(y, m, apps);
    var offset := Weekday(y, m, 1);
    if i < offset {
      assert g[i] == EmptyDay;
    } else {
      assert g[i] == DayCell(y, m, i - offset + 1, apps);
      var ds := DateString(y, m, i - offset + 1);
      FilterIsSubseq(apps, OnDate(ds));
      forall a ensures a in g[i].appointments <==> a in apps && a.date == ds {
        FilterMembership(apps, OnDate(ds), a);
      }
    }
  }

  /** An appointment appears in at most one cell of the grid. */
  lemma AtMostOneCell(y: int, m: int, apps: seq<Appointment>, a: Appointment, i: nat, j: nat)
    requires 0 <= m < 12
    requires i < |Grid(y, m, apps)| && j < |Grid(y, m, apps)|
    requires a in Grid(y, m, apps)[i].appointments && a in Grid(y, m, apps)[j].appointments
    ensures i == j
  {
    var g := Grid(y, m, apps);
    CellContents(y, m, apps, i);
    CellContents(y, m, apps, j);
    GridLayout(y, m, apps);
    var offset := Weekday(y, m, 1);
    DateStringInjective(y, m, i - offset + 1, j - offset + 1);
  }

  /** An appointment booked on a day of the month appears in that day's cell. */
  lemma AppointmentPlaced(y: int, m: int, apps: seq<Appointment>, a: Appointment, d: nat)
    requires 0 <= m < 12
    requires 1 <= d <= DaysInMonth(y, m)
    requires a in apps && a.date == DateString(y, m, d)
    ensures Weekday(y, m, 1) + d - 1 < |Grid(y, m, apps)|
    ensures a in Grid(y, m, apps)[Weekday(y, m, 1) + d - 1].appointments
  {
    var offset := Weekday(y, m, 1);
    GridLayout(y, m, apps);
    CellContents(y, m, apps, offset + d - 1);
  }

  // ---------------------------------------------------------------------
  // What a cell shows

  /** `appointments.slice(0, 2)`: the first two appointments at most. */
  function Shown(c: CalendarDay): (r: seq<Appointment>)
    ensures |r| <= 2 && IsSubseq(r, c.appointments)
    ensures |c.appointments| <= 2 ==> r == c.appointments
    ensures forall k :: 0 <= k < |r| ==> r[k] == c.appointments[k]
  {
    var r := if |c.appointments| <= 2 then c.appointments else c.appointments[..2];
    PrefixIsSubseq(r, c.appointments);
    r
  }

  /** The `+n more` note: shown only past two appointments, with `n` the
      ones not shown, so the shown ones and `n` account for all. */
  function MoreCount(c: CalendarDay): (r: Option<nat>)
    ensures r.Some? <==> |c.appointments| > 2
    ensures r.Some? ==> r.value > 0 && |Shown(c)| + r.value == |c.appointments|
    ensures r.None? ==> |Shown(c)| == |c.appointments|
  {
    if |c.appointments| > 2 then Some(|c.appointments| - 2) else None
  }

  lemma {:induction false} PrefixIsSubseq<T>(r: seq<T>, s: seq<T>)
    requires |r| <= |s| && r == s[..|r|]
    ensures IsSubseq(r, s)
    decreases |s|
  {
    if r != [] {
      PrefixIsSubseq(r[1..], s[1..]);
    }
  }

  // ---------------------------------------------------------------------
  // The calendar card

  /** The calendar's state: the month on view and the fetched appointments. */
  class CalendarView {
    var year: int
    var month: int
    var appointments: seq<Appointment>

    ghost predicate Valid()
      reads this
    {
      0 <= month < 12
    }

    constructor (y: int, m: int)
      requires 0 <= m < 12
      ensures Valid() && year == y && month == m && appointments == []
    {
      year := y;
      month := m;
      appointments := [];
    }

    /** The cells on view. */
    function Days(): seq<CalendarDay>
      reads this
      requires Valid()
    {
      Grid(year, month, appointments)
    }

    /** The left arrow: one month back. */
    method Prev()
      requires Valid()
      modifies this`year, this`month
      ensures Valid()
      ensures (year, month) == PrevMonth(old(year), old(month))
      ensures MonthIndex(year, month) == MonthIndex(old(year), old(month)) - 1
    {
      if month == 0 {
        year, month := year - 1, 11;
      } else {
        month := month - 1;
      }
    }

    /** The right arrow: one month forward. */
    method Next()
      requires Valid()
      modifies this`year, this`month
      ensures Valid()
      ensures (year, month) == NextMonth(old(year), old(month))
      ensures MonthIndex(year, month) == MonthIndex(old(year), old(month)) + 1
    {
      if month == 11 {
        year, month := year + 1, 0;
      } else {
        month := month + 1;
      }
    }

    /** A finished fetch: a missing list reads as empty; a failed fetch
        leaves the appointments as they were. */
    method Load(f: Fetch<Appointment>)
      modifies this`appointments
      ensures f.Fetched? ==> appointments == RowsOrEmpty(f.data)
      ensures f.FetchError? ==> appointments == old(appointments)
    {
      if f.Fetched? {
        appointments := RowsOrEmpty(f.data);
      }
    }
  }
}
