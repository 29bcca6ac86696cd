/** The calendar arithmetic behind the default travel dates: proleptic
    Gregorian dates in the years 1 to 9999, as Python's `datetime.date`
    has them, adding days as `+ timedelta(days=n)` does, and rendering as
    `strftime('%Y-%m-%d')`. */
module Calendar {
  import opened Strings
  import opened Values

  datatype Date = Date(year: int, month: int, day: int)

  /** The last year a `datetime` can hold. */
  const MaxYear: int := 9999

  predicate IsLeap(y: int) {
    y % 4 == 0 && (y % 100 != 0 || y % 400 == 0)
  }

  function DaysInMonth(y: int, m: int): (n: int)
    requires 1 <= m <= 12
    ensures 28 <= n <= 31
  {
    if m == 2 then (if IsLeap(y) then 29 else 28)
    else if m == 4 || m == 6 || m == 9 || m == 11 then 30
    else 31
  }

  predicate ValidDate(d: Date) {
    && 1 <= d.year <= MaxYear
    && 1 <= d.month <= 12
    && 1 <= d.day <= DaysInMonth(d.year, d.month)
  }

  /** The following day; None past the last representable date, where
      Python raises `OverflowError`. */
  function NextDay(d: Date): (r: Option<Date>)
    requires ValidDate(d)
    ensures r.Some? ==> ValidDate(r.value)
    ensures r.None? <==> d == Date(MaxYear, 12, 31)
  {
    if d.day < DaysInMonth(d.year, d.month) then Some(Date(d.year, d.month, d.day + 1))
    else if d.month < 12 then Some(Date(d.year, d.month + 1, 1))
    else if d.year < MaxYear then Some(Date(d.year + 1, 1, 1))
    else None
  }

  /** `d + timedelta(days=n)`, one day at a time; None on overflow. */
  function AddDays(d: Date, n: nat): (r: Option<Date>)
    requires ValidDate(d)
    ensures r.Some? ==> ValidDate(r.value)
    decreases n
  {
    if n == 0 then Some(d)
    else match NextDay(d)
      case None => None
      case Some(e) => AddDays(e, n - 1)
  }

  /** Adding a + b days is adding a days and then b more. */
  lemma {:induction false} AddDaysSplit(d: Date, a: nat, b: nat)
    requires ValidDate(d)
    ensures AddDays(d, a + b) == match AddDays(d, a)
      case None => None
      case Some(e) => AddDays(e, b)
    decreases a
  {
    if a > 0 {
      match NextDay(d)
      case None =>
      case Some(e) => AddDaysSplit(e, a - 1, b);
    }
  }

  /** Within a month, adding days only moves the day of the month. */
  lemma {:induction false} AddDaysInMonth(d: Date, n: nat)
    requires ValidDate(d) && d.day + n <= DaysInMonth(d.year, d.month)
    ensures AddDays(d, n) == Some(Date(d.year, d.month, d.day + n))
    decreases n
  {
    if n > 0 {
      AddDaysInMonth(Date(d.year, d.month, d.day + 1), n - 1);
    }
  }

  /** The month after (y, m); December rolls over to January of y + 1. */
  function NextMonth(y: int, m: int): (int, int) {
    if m == 12 then (y + 1, 1) else (y, m + 1)
  }

  /** `(now.replace(day=1) + timedelta(days=32)).replace(day=1)`: the first
      of the month after now; None when that month is past year 9999. */
  function FirstOfNextMonth(now: Date): (r: Option<Date>)
    requires ValidDate(now)
    ensures r.Some? ==> ValidDate(r.value) && r.value.day == 1
  {
    match AddDays(Date(now.year, now.month, 1), 32)
    case None => None
    case Some(d) => Some(Date(d.year, d.month, 1))
  }

  /** Thirty-two days after the first of a month is early in the next
      month, whatever the length of the first. */
  lemma AddThirtyTwoDays(y: int, m: int)
    requires ValidDate(Date(y, m, 1))
    ensures var (ny, nm) := NextMonth(y, m);
      AddDays(Date(y, m, 1), 32) ==
        if ny > MaxYear then None else Some(Date(ny, nm, 33 - DaysInMonth(y, m)))
  {
    var first := Date(y, m, 1);
    var n := DaysInMonth(y, m);
    var last := Date(y, m, n);
    AddDaysInMonth(first, n - 1);
    AddDaysSplit(first, n - 1, 33 - n);
    AddDaysSplit(last, 1, 32 - n);
    var (ny, nm) := NextMonth(y, m);
    if ny <= MaxYear {
      assert NextDay(last) == Some(Date(ny, nm, 1));
      AddDaysInMonth(Date(ny, nm, 1), 32 - n);
    }
  }

  /** The first of next month is reached from any day of this one, and it
      is missing only for December of the last year. */
  lemma FirstOfNextMonthIs(now: Date)
    requires ValidDate(now)
    ensures var (ny, nm) := NextMonth(now.year, now.month);
      FirstOfNextMonth(now) == if ny > MaxYear then None else Some(Date(ny, nm, 1))
  {
    AddThirtyTwoDays(now.year, now.month);
  }

  /** A week's stay starting on the first ends on the seventh. */
  lemma SixDaysAfterFirst(d: Date)
    requires ValidDate(d) && d.day == 1
    ensures AddDays(d, 6) == Some(Date(d.year, d.month, 7))
  {
    AddDaysInMonth(d, 6);
  }

  /** `now.replace(month=7, day=1)`, plus ten days, is July 11. */
  lemma TenDaysAfterJulyFirst(y: int)
    requires 1 <= y <= MaxYear
    ensures AddDays(Date(y, 7, 1), 10) == Some(Date(y, 7, 11))
  {
    AddDaysInMonth(Date(y, 7, 1), 10);
  }

  /** `d.strftime('%Y-%m-%d')` */
  function FormatDate(d: Date): (r: string)
    requires ValidDate(d)
    ensures r != []
  {
    PadDecimal(d.year, 4) + "-" + PadDecimal(d.month, 2) + "-" + PadDecimal(d.day, 2)
  }

  /** Reads back a `YYYY-MM-DD` text; None for anything of another shape. */
  function ParseDate(s: string): Option<Date> {
    if |s| == 10 && s[4] == '-' && s[7] == '-'
       && AllDigits(s[..4]) && AllDigits(s[5..7]) && AllDigits(s[8..])
    then Some(Date(DecimalValue(s[..4]), DecimalValue(s[5..7]), DecimalValue(s[8..])))
    else None
  }

  /** The rendering of a date has ten characters and is read back as the
      same date. */
  lemma FormatDateRoundTrip(d: Date)
    requires ValidDate(d)
    ensures |FormatDate(d)| == 10
    ensures ParseDate(FormatDate(d)) == Some(d)
  {
    assert Pow10(4) == 10000 && Pow10(2) == 100;
    PadDecimalRoundTrip(d.year, 4);
    PadDecimalRoundTrip(d.month, 2);
    PadDecimalRoundTrip(d.day, 2);
    var s := FormatDate(d);
    assert s[..4] == PadDecimal(d.year, 4);
    assert s[5..7] == PadDecimal(d.month, 2);
    assert s[8..] == PadDecimal(d.day, 2);
  }
}
