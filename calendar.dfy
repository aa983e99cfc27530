/** The month calendar of the diary page: which days of the viewed month carry
    a journal dot, which are today, selected or in the future (disabled), how
    month navigation rolls over years, and the `YYYY-MM-DD` keys that connect
    the server's journal dates to the grid. */
module Calendar {
  import opened Options
  import opened JsText

  // ---------------------------------------------------------------------------
  // Dates as a JavaScript `Date` reports them in local time

  /** `getFullYear()`, `getMonth()` (0 for January) and `getDate()`. */
  datatype Date = Date(year: int, month: int, day: int)

  const MsPerDay: int := 86400000

  /** A point in time: a calendar day and the milliseconds since its midnight. */
  datatype Moment = Moment(date: Date, ms: int)

  /** Proleptic Gregorian leap years, as `Date` uses them. */
  predicate IsLeapYear(y: int) {
    (y % 4 == 0 && y % 100 != 0) || y % 400 == 0
  }

  function DaysInMonth(y: int, m: int): (n: int)
    requires 0 <= m < 12
    ensures 28 <= n <= 31
  {
    if m == 1 then (if IsLeapYear(y) then 29 else 28)
    else if m == 3 || m == 5 || m == 8 || m == 10 then 30
    else 31
  }

  /** The values a `Date` object can report: its getters are always normalised. */
  predicate ValidDate(d: Date) {
    0 <= d.month < 12 && 1 <= d.day <= DaysInMonth(d.year, d.month)
  }

  predicate ValidMoment(t: Moment) {
    ValidDate(t.date) && 0 <= t.ms < MsPerDay
  }

  /** Carries a day number that lies outside month `m` of year `y` into the
      neighbouring months, one month at a time. */
  function Settle(y: int, m: int, d: int): (r: Date)
    requires 0 <= m < 12
    ensures ValidDate(r)
    decreases if d < 1 then 33 - d else d
  {
    if d < 1 then
      var py := if m == 0 then y - 1 else y;
      var pm := if m == 0 then 11 else m - 1;
      Settle(py, pm, d + DaysInMonth(py, pm))
    else if d > DaysInMonth(y, m) then
      var ny := if m == 11 then y + 1 else y;
      var nm := if m == 11 then 0 else m + 1;
      Settle(ny, nm, d - DaysInMonth(y, m))
    else Date(y, m, d)
  }

  /** The year argument of `new Date(y, m, d)`: a year from 0 to 99 is read as
      1900 + y, before the month is carried into it. */
  function FullYear(y: int): (r: int)
    ensures 0 <= y <= 99 ==> r == 1900 + y
    ensures !(0 <= y <= 99) ==> r == y
  {
    if 0 <= y <= 99 then 1900 + y else y
  }

  /** `new Date(y, m, d)`: the year is read by FullYear, an out-of-range month
      index is carried into it (floor division), then an out-of-range day into
      the months. */
  function MakeDate(y: int, m: int, d: int): (r: Date)
    ensures ValidDate(r)
  {
    Settle(FullYear(y) + m / 12, m % 12, d)
  }

  /** A day that lies within month `m` of the year FullYear reads is not
      carried anywhere. */
  lemma MakeDateInMonth(y: int, m: int, d: int)
    requires 0 <= m < 12 && 1 <= d <= DaysInMonth(FullYear(y), m)
    ensures MakeDate(y, m, d) == Date(FullYear(y), m, d)
  {
  }

  /** Components that already form a date are kept, except in the years 0..99,
      which move to 1900..1999; the 29th of February of year 0 (a leap year)
      then falls on the 1st of March 1900 (a common year). */
  lemma MakeDateOfValid(d: Date)
    requires ValidDate(d)
    ensures !(0 <= d.year <= 99) ==> MakeDate(d.year, d.month, d.day) == d
    ensures 1 <= d.year <= 99 ==> MakeDate(d.year, d.month, d.day) == Date(1900 + d.year, d.month, d.day)
    ensures d.year == 0 ==>
              MakeDate(d.year, d.month, d.day)
              == if d.month == 1 && d.day == 29 then Date(1900, 2, 1) else Date(1900, d.month, d.day)
  {
    if 1 <= d.year <= 99 {
      assert IsLeapYear(d.year) <==> IsLeapYear(1900 + d.year);
      MakeDateInMonth(d.year, d.month, d.day);
    } else if d.year == 0 {
      if d.month == 1 && d.day == 29 {
        assert MakeDate(0, 1, 29) == Settle(1900, 2, 1);
      } else {
        MakeDateInMonth(d.year, d.month, d.day);
      }
    } else {
      MakeDateInMonth(d.year, d.month, d.day);
    }
  }

  /** Day 0 of the following month is the last day of this one: the calendar
      reads the month's length off `new Date(y, m + 1, 0)`, in the year
      FullYear reads. */
  lemma LastDayOfMonth(y: int, m: int)
    requires 0 <= m < 12
    ensures MakeDate(y, m + 1, 0) == Date(FullYear(y), m, DaysInMonth(FullYear(y), m))
  {
    var fy := FullYear(y);
    if m == 11 {
      assert MakeDate(y, 12, 0) == Settle(fy + 1, 0, 0);
      assert Settle(fy + 1, 0, 0) == Settle(fy, 11, 31);
    } else {
      assert MakeDate(y, m + 1, 0) == Settle(fy, m + 1, 0);
    }
  }

  // ---------------------------------------------------------------------------
  // Day numbers, weekdays and order

  function YearLength(y: int): int {
    if IsLeapYear(y) then 366 else 365
  }

  /** Days from 0001-01-01 to the first of January of `y`. */
  function DaysBeforeYear(y: int): int {
    var p := y - 1;
    365 * p + p / 4 - p / 100 + p / 400
  }

  /** Days from the first of January to the first of month `m`. */
  function DaysBeforeMonth(y: int, m: int): int
    requires 0 <= m < 12
  {
    [0, 31, 59, 90, 120, 151, 181, 212, 243, 273, 304, 334][m]
      + (if m >= 2 && IsLeapYear(y) then 1 else 0)
  }

  /** Days from 0001-01-01 (a Monday) to `d`. */
  function DayNumber(d: Date): int
    requires 0 <= d.month < 12
  {
    DaysBeforeYear(d.year) + DaysBeforeMonth(d.year, d.month) + d.day - 1
  }

  /** `getDay()`: 0 for Sunday up to 6 for Saturday. */
  function Weekday(d: Date): (w: int)
    requires 0 <= d.month < 12
    ensures 0 <= w < 7
  {
    (DayNumber(d) + 1) % 7
  }

  /** The weekday numbering is JavaScript's: the weekday of any date is four
      plus the days since 1970-01-01 modulo 7 (the first of January 1970 was
      a Thursday), whether the date lies before or after it. */
  lemma EpochIsThursday(d: Date)
    requires 0 <= d.month < 12
    ensures Weekday(Date(1970, 0, 1)) == 4
    ensures Weekday(d) == (4 + (DayNumber(d) - DayNumber(Date(1970, 0, 1)))) % 7
  {
    assert DayNumber(Date(1970, 0, 1)) == 719162;
  }

  lemma Div4Step(y: int)
    ensures y / 4 - (y - 1) / 4 == if y % 4 == 0 then 1 else 0
  {
  }

  lemma Div100Step(y: int)
    ensures y / 100 - (y - 1) / 100 == if y % 100 == 0 then 1 else 0
  {
  }

  lemma Div400Step(y: int)
    ensures y / 400 - (y - 1) / 400 == if y % 400 == 0 then 1 else 0
  {
  }

  lemma YearStep(y: int)
    ensures DaysBeforeYear(y + 1) == DaysBeforeYear(y) + YearLength(y)
  {
    Div4Step(y);
    Div100Step(y);
    Div400Step(y);
    if y % 400 == 0 {
      assert y % 100 == 0 && y % 4 == 0;
    } else if y % 100 == 0 {
      assert y % 4 == 0;
    }
  }

  lemma MonthStep(y: int, m: int)
    requires 0 <= m < 11
    ensures DaysBeforeMonth(y, m + 1) == DaysBeforeMonth(y, m) + DaysInMonth(y, m)
  {
  }

  lemma DecemberEndsYear(y: int)
    ensures DaysBeforeMonth(y, 11) + DaysInMonth(y, 11) == YearLength(y)
  {
  }

  /** The day after `d`: the day number one past it, carried into the next
      month when it leaves this one. */
  function NextDay(d: Date): (r: Date)
    requires ValidDate(d)
    ensures ValidDate(r)
  {
    Settle(d.year, d.month, d.day + 1)
  }

  /** The day after is one day number later. */
  lemma NextDayNumber(d: Date)
    requires ValidDate(d)
    ensures DayNumber(NextDay(d)) == DayNumber(d) + 1
  {
    if d.day < DaysInMonth(d.year, d.month) {
      assert NextDay(d) == Date(d.year, d.month, d.day + 1);
    } else if d.month < 11 {
      assert NextDay(d) == Settle(d.year, d.month + 1, 1) == Date(d.year, d.month + 1, 1);
      MonthStep(d.year, d.month);
    } else {
      assert NextDay(d) == Settle(d.year + 1, 0, 1) == Date(d.year + 1, 0, 1);
      YearStep(d.year);
      DecemberEndsYear(d.year);
    }
  }

  /** Weekdays cycle: the day after `d` has the next weekday. */
  lemma WeekdayOfNextDay(d: Date)
    requires ValidDate(d)
    ensures Weekday(NextDay(d)) == (Weekday(d) + 1) % 7
  {
    NextDayNumber(d);
    ModSevenStep(DayNumber(d) + 1);
  }

  lemma ModSevenStep(n: int)
    ensures (n + 1) % 7 == (n % 7 + 1) % 7
  {
  }

  /** Calendar order: earlier year, then earlier month, then earlier day. */
  predicate Before(a: Date, b: Date) {
    || a.year < b.year
    || (a.year == b.year && a.month < b.month)
    || (a.year == b.year && a.month == b.month && a.day < b.day)
  }

  lemma {:induction false} DaysBeforeYearMonotone(y: int, z: int)
    requires y <= z
    ensures DaysBeforeYear(y) <= DaysBeforeYear(z)
    decreases z - y
  {
    if y < z {
      YearStep(y);
      DaysBeforeYearMonotone(y + 1, z);
    }
  }

  lemma MonthFitsYear(y: int, m: int)
    requires 0 <= m < 12
    ensures DaysBeforeMonth(y, m) + DaysInMonth(y, m) <= YearLength(y)
  {
  }

  lemma MonthOrder(y: int, ma: int, mb: int)
    requires 0 <= ma < mb < 12
    ensures DaysBeforeMonth(y, ma) + DaysInMonth(y, ma) <= DaysBeforeMonth(y, mb)
  {
  }

  lemma DayNumberMonotone(a: Date, b: Date)
    requires ValidDate(a) && ValidDate(b) && Before(a, b)
    ensures DayNumber(a) < DayNumber(b)
  {
    if a.year < b.year {
      MonthFitsYear(a.year, a.month);
      YearStep(a.year);
      DaysBeforeYearMonotone(a.year + 1, b.year);
    } else if a.month < b.month {
      MonthOrder(a.year, a.month, b.month);
    }
  }

  /** Day numbers order valid dates exactly as the calendar does. */
  lemma DayNumberOrder(a: Date, b: Date)
    requires ValidDate(a) && ValidDate(b)
    ensures Before(a, b) <==> DayNumber(a) < DayNumber(b)
  {
    if Before(a, b) {
      DayNumberMonotone(a, b);
    } else if a != b {
      DayNumberMonotone(b, a);
    }
  }

  /** The time value of midnight plus `ms` on `d`, counted in milliseconds. */
  function TimeValue(d: Date, ms: int): int
    requires 0 <= d.month < 12
  {
    DayNumber(d) * MsPerDay + ms
  }

  /** `currentDate > today`: the day's midnight against the present moment. */
  predicate IsFutureDate(d: Date, now: Moment)
    requires 0 <= d.month < 12 && 0 <= now.date.month < 12
  {
    TimeValue(d, 0) > TimeValue(now.date, now.ms)
  }

  /** A day is in the future exactly when it comes after today's date, whatever
      the time of day: today itself is never disabled. */
  lemma FutureIffAfterToday(d: Date, now: Moment)
    requires ValidDate(d) && ValidMoment(now)
    ensures IsFutureDate(d, now) <==> Before(now.date, d)
  {
    DayNumberOrder(now.date, d);
  }

  // ---------------------------------------------------------------------------
  // Month navigation and the Today button

  /** `new Date(y, m + direction, 1)`. */
  function Navigate(view: Date, direction: int): (r: Date)
    requires ValidDate(view)
    ensures ValidDate(r) && r.day == 1
  {
    MakeDate(view.year, view.month + direction, 1)
  }

  /** One month on: the next month of the year FullYear reads, or January of
      the year after from December. */
  lemma NavigateForward(view: Date)
    requires ValidDate(view)
    ensures view.month < 11 ==> Navigate(view, 1) == Date(FullYear(view.year), view.month + 1, 1)
    ensures view.month == 11 ==> Navigate(view, 1) == Date(FullYear(view.year) + 1, 0, 1)
  {
  }

  /** One month back: the previous month of the year FullYear reads, or
      December of the year before from January. */
  lemma NavigateBackward(view: Date)
    requires ValidDate(view)
    ensures view.month > 0 ==> Navigate(view, -1) == Date(FullYear(view.year), view.month - 1, 1)
    ensures view.month == 0 ==> Navigate(view, -1) == Date(FullYear(view.year) - 1, 11, 1)
  {
  }

  lemma FloorShift(a: int, q: int)
    requires 0 <= a < 12
    ensures (a - 12 * q) / 12 == -q && (a - 12 * q) % 12 == a
  {
  }

  /** Going `direction` months and back lands on the first of the month
      viewed, whenever neither the year viewed nor the year reached lies in
      0..99. */
  lemma NavigateRoundTrip(view: Date, direction: int)
    requires ValidDate(view)
    ensures var there := Navigate(view, direction);
            !(0 <= view.year <= 99) && !(0 <= there.year <= 99) ==>
              Navigate(there, -direction) == Date(view.year, view.month, 1)
  {
    var n := view.month + direction;
    var there := Navigate(view, direction);
    assert there == Date(FullYear(view.year) + n / 12, n % 12, 1);
    FloorShift(view.month, n / 12);
    assert n % 12 - direction == view.month - 12 * (n / 12);
  }

  /** Across year 100 the round trip fails: back from January 100 reaches
      December 99, and forward from there reads 99 as 1999 and reaches
      January 2000. */
  lemma NavigateAcrossYear100()
    ensures Navigate(Date(100, 0, 1), -1) == Date(99, 11, 1)
    ensures Navigate(Navigate(Date(100, 0, 1), -1), 1) == Date(2000, 0, 1)
  {
    assert Navigate(Date(100, 0, 1), -1) == Settle(99, 11, 1);
    assert Navigate(Date(99, 11, 1), 1) == Settle(2000, 0, 1);
  }

  /** The Today button selects and shows the present day, which is never a
      future date. */
  function HandleToday(now: Moment): (r: (Date, Date))
    requires ValidMoment(now)
    ensures r == (now.date, now.date)
    ensures ValidDate(r.0) && !IsFutureDate(r.0, now)
  {
    FutureIffAfterToday(now.date, now);
    (now.date, now.date)
  }

  // ---------------------------------------------------------------------------
  // Date keys

  /** `${getFullYear()}-${String(getMonth() + 1).padStart(2, '0')}-${String(getDate()).padStart(2, '0')}`. */
  function DateKey(d: Date): string
    requires ValidDate(d)
  {
    IntToString(d.year) + "-" + TwoDigits(d.month + 1) + "-" + TwoDigits(d.day)
  }

  /** The same template applied to an Invalid Date, whose getters give `NaN`. */
  const InvalidDateKey: string := "NaN-NaN-NaN"

  lemma KeySlices(y: string, mm: string, dd: string)
    requires |mm| == 2 && |dd| == 2
    ensures var k := y + "-" + mm + "-" + dd;
            && |k| == |y| + 6 && |k| >= 6
            && k[..|k| - 6] == y && k[|k| - 6] == '-' && k[|k| - 5..|k| - 3] == mm
            && k[|k| - 3] == '-' && k[|k| - 2..] == dd
  {
    var k := y + "-" + mm + "-" + dd;
    assert k == y + (['-'] + mm + ['-'] + dd);
  }

  /** Different days have different keys. */
  lemma DateKeyInjective(a: Date, b: Date)
    requires ValidDate(a) && ValidDate(b) && DateKey(a) == DateKey(b)
    ensures a == b
  {
    var ya, ma, da := IntToString(a.year), TwoDigits(a.month + 1), TwoDigits(a.day);
    var yb, mb, db := IntToString(b.year), TwoDigits(b.month + 1), TwoDigits(b.day);
    var k := DateKey(a);
    assert k == ya + "-" + ma + "-" + da;
    assert k == yb + "-" + mb + "-" + db;
    KeySlices(ya, ma, da);
    KeySlices(yb, mb, db);
    assert ya == yb by {
      assert ya == k[..|k| - 6];
    }
    assert ma == mb by {
      assert ma == k[|k| - 5..|k| - 3];
    }
    assert da == db by {
      assert da == k[|k| - 2..];
    }
    IntToStringInjective(a.year, b.year);
  }

  /** No day's key is the key of an Invalid Date: a day's key ends in a digit. */
  lemma InvalidKeyIsNoDay(d: Date)
    requires ValidDate(d)
    ensures DateKey(d) != InvalidDateKey
  {
    var dd := TwoDigits(d.day);
    KeySlices(IntToString(d.year), TwoDigits(d.month + 1), dd);
    assert IsDigit(DateKey(d)[|DateKey(d)| - 1]) by {
      assert DateKey(d)[|DateKey(d)| - 2..] == dd;
      assert dd[1] == DateKey(d)[|DateKey(d)| - 1];
    }
  }

  // ---------------------------------------------------------------------------
  // The journals of a month

  /** The `journaldate` of a journal in the month listing, after `new Date(...)`:
      missing or empty, a day, or text that does not parse (an Invalid Date). */
  datatype JournalDate = Missing | OnDay(date: Date) | Unparseable

  predicate ValidJournalDate(j: JournalDate) {
    j.OnDay? ==> ValidDate(j.date)
  }

  predicate ValidListing(entries: seq<JournalDate>) {
    forall i :: 0 <= i < |entries| ==> ValidJournalDate(entries[i])
  }

  /** The outcome of `GET /api/journals/month/{year}/{month}`: a failed request,
      or a body that is either a JSON array of journals or something else. */
  datatype MonthReply = Failed | Body(journals: Option<seq<JournalDate>>)

  function EntryKey(j: JournalDate): string
    requires ValidJournalDate(j)
  {
    match j
    case Missing => ""
    case OnDay(d) => DateKey(d)
    case Unparseable => InvalidDateKey
  }

  /** The keys a listing marks: one for each journal whose `journaldate` is set. */
  function KeysOf(entries: seq<JournalDate>): set<string>
    requires ValidListing(entries)
  {
    if entries == [] then {}
    else
      var last := entries[|entries| - 1];
      KeysOf(entries[..|entries| - 1]) + (if last.Missing? then {} else {EntryKey(last)})
  }

  /** A day carries a dot exactly when some journal of the listing is dated that day. */
  lemma {:induction false} MarkedIffListed(entries: seq<JournalDate>, d: Date)
    requires ValidListing(entries) && ValidDate(d)
    ensures DateKey(d) in KeysOf(entries) <==> OnDay(d) in entries
  {
    if entries != [] {
      var init := entries[..|entries| - 1];
      var last := entries[|entries| - 1];
      assert entries == init + [last];
      MarkedIffListed(init, d);
      assert KeysOf(entries) == KeysOf(init) + (if last.Missing? then {} else {EntryKey(last)});
      assert OnDay(d) in entries <==> OnDay(d) in init || last == OnDay(d);
      match last
      case Missing =>
      case OnDay(e) =>
        if DateKey(d) == DateKey(e) {
          DateKeyInjective(d, e);
        }
      case Unparseable =>
        InvalidKeyIsNoDay(d);
    }
  }

  /** The path the month listing is requested from. */
  function MonthPath(view: Date): string {
    "/api/journals/month/" + IntToString(view.year) + "/" + IntToString(view.month + 1)
  }

  /** A cell of the grid: a blank before the first of the month, or a day button
      (disabled when `isFuture`). */
  datatype Cell = Blank | Day(day: int, isToday: bool, isSelected: bool, isFuture: bool, hasJournal: bool)

  /** What the button for day `d` shows: its number, and whether it is today,
      the selected day, in the future, or marked with a journal dot. */
  predicate ShowsDay(c: Cell, d: Date, selected: Date, now: Moment, marks: set<string>)
    requires ValidDate(d)
  {
    && c.Day? && c.day == d.day
    && (c.isToday <==> d == now.date)
    && (c.isSelected <==> d == selected)
    && (c.isFuture <==> Before(now.date, d))
    && (c.hasJournal <==> DateKey(d) in marks)
  }

  class CalendarWidget {
    var journalDates: set<string>
    var isLoadingJournalDates: bool
    var showFutureWarning: bool

    constructor ()
      ensures journalDates == {} && !isLoadingJournalDates && !showFutureWarning
    {
      journalDates := {};
      isLoadingJournalDates := false;
      showFutureWarning := false;
    }

    /** `fetchJournalDatesForMonth(viewDate)`: returns the path requested, if any.
        Without a token nothing is requested and the marks stay; a failed request
        clears them; otherwise they become the keys of the listing (none when
        the body is not an array). Loading is off afterwards in every case. */
    method FetchJournalDatesForMonth(view: Date, hasToken: bool, reply: MonthReply)
      returns (requested: Option<string>)
      requires reply.Body? && reply.journals.Some? ==> ValidListing(reply.journals.value)
      modifies this
      ensures !isLoadingJournalDates && showFutureWarning == old(showFutureWarning)
      ensures !hasToken ==> requested == None && journalDates == old(journalDates)
      ensures hasToken ==> requested == Some(MonthPath(view))
      ensures hasToken && reply.Failed? ==> journalDates == {}
      ensures hasToken && reply.Body? && reply.journals.None? ==> journalDates == {}
      ensures hasToken && reply.Body? && reply.journals.Some? ==> journalDates == KeysOf(reply.journals.value)
    {
      isLoadingJournalDates := true;
      if !hasToken {
        isLoadingJournalDates := false;
        return None;
      }
      requested := Some(MonthPath(view));
      if reply.Failed? {
        journalDates := {};
      } else {
        var dates: set<string> := {};
        if reply.journals.Some? {
          dates := ListingKeys(reply.journals.value);
        }
        journalDates := dates;
      }
      isLoadingJournalDates := false;
    }

    /** The loop over the listing: the key of every journal with a
        `journaldate`, collected into a set. */
    method ListingKeys(entries: seq<JournalDate>) returns (dates: set<string>)
      requires ValidListing(entries)
      ensures dates == KeysOf(entries)
    {
      dates := {};
      var i := 0;
      while i < |entries|
        invariant 0 <= i <= |entries|
        invariant dates == KeysOf(entries[..i])
      {
        assert entries[..i + 1][..i] == entries[..i];
        if !entries[i].Missing? {
          dates := dates + {EntryKey(entries[i])};
        }
        i := i + 1;
      }
      assert entries[..|entries|] == entries;
    }

    /** `hasJournalEntry(date)`. */
    predicate HasJournalEntry(d: Date)
      requires ValidDate(d)
      reads this
    {
      DateKey(d) in journalDates
    }

    /** The button for one day of the grid, with the flags `renderCalendarDays`
        computes for it. */
    function DayButton(d: Date, selected: Date, now: Moment): (c: Cell)
      requires ValidDate(d) && ValidDate(selected) && ValidMoment(now)
      reads this
      ensures ShowsDay(c, d, selected, now, journalDates)
    {
      FutureIffAfterToday(d, now);
      Day(d.day, d == now.date, d == selected, IsFutureDate(d, now), HasJournalEntry(d))
    }

    /** `handleDateClick`: a future day raises the warning and selects nothing;
        any other day is passed to `onDateSelect`. */
    method HandleDateClick(d: Date, isFuture: bool) returns (selected: Option<Date>)
      modifies this
      ensures isFuture ==> selected == None && showFutureWarning
      ensures !isFuture ==> selected == Some(d) && showFutureWarning == old(showFutureWarning)
      ensures journalDates == old(journalDates) && isLoadingJournalDates == old(isLoadingJournalDates)
    {
      if isFuture {
        showFutureWarning := true;
        selected := None;
      } else {
        selected := Some(d);
      }
    }

    /** The dates `renderCalendarDays` starts from: the weekday of the first of
        the month viewed, and the number of days in it, read off day 0 of the
        next month. */
    method MonthLayout(view: Date) returns (startDate: int, daysInMonth: int)
      requires ValidDate(view)
      ensures startDate == Weekday(Date(FullYear(view.year), view.month, 1)) && 0 <= startDate < 7
      ensures daysInMonth == DaysInMonth(FullYear(view.year), view.month)
    {
      var firstDay := MakeDate(view.year, view.month, 1);
      var lastDay := MakeDate(view.year, view.month + 1, 0);
      MakeDateInMonth(view.year, view.month, 1);
      LastDayOfMonth(view.year, view.month);
      startDate := Weekday(firstDay);
      daysInMonth := lastDay.day;
    }

    /** `renderCalendarDays`: one blank per weekday before the first of the
        month, then one button per day of the month, in order. */
    method RenderCalendarDays(view: Date, selected: Date, now: Moment) returns (cells: seq<Cell>)
      requires ValidDate(view) && ValidDate(selected) && ValidMoment(now)
      ensures var start := Weekday(Date(FullYear(view.year), view.month, 1));
              var n := DaysInMonth(FullYear(view.year), view.month);
              && |cells| == start + n
              && (forall i :: 0 <= i < start ==> cells[i] == Blank)
              && (forall k :: 1 <= k <= n ==>
                    ShowsDay(cells[start + k - 1], Date(FullYear(view.year), view.month, k), selected, now, journalDates))
    {
      var startDate, daysInMonth := MonthLayout(view);
      var blanks := BlankCells(startDate);
      cells := AppendDayCells(blanks, view, daysInMonth, selected, now);
    }

    /** The leading blanks of the grid. */
    method BlankCells(count: int) returns (cells: seq<Cell>)
      requires count >= 0
      ensures |cells| == count && forall i :: 0 <= i < |cells| ==> cells[i] == Blank
    {
      cells := [];
      var i := 0;
      while i < count
        invariant 0 <= i <= count
        invariant |cells| == i && forall j :: 0 <= j < i ==> cells[j] == Blank
      {
        cells := cells + [Blank];
        i := i + 1;
      }
    }

    /** The loop over the days `1..daysInMonth` of the month viewed, pushing
        one button per day after the cells already there. */
    method AppendDayCells(prefix: seq<Cell>, view: Date, daysInMonth: int, selected: Date, now: Moment)
      returns (cells: seq<Cell>)
      requires ValidDate(view) && ValidDate(selected) && ValidMoment(now)
      requires daysInMonth == DaysInMonth(FullYear(view.year), view.month)
      ensures |cells| == |prefix| + daysInMonth && cells[..|prefix|] == prefix
      ensures forall k :: 1 <= k <= daysInMonth ==>
                ShowsDay(cells[|prefix| + k - 1], Date(FullYear(view.year), view.month, k), selected, now, journalDates)
    {
      cells := prefix;
      var day := 1;
      while day <= daysInMonth
        invariant 1 <= day <= daysInMonth + 1
        invariant |cells| == |prefix| + day - 1 && cells[..|prefix|] == prefix
        invariant forall k :: 1 <= k < day ==>
                    ShowsDay(cells[|prefix| + k - 1], Date(FullYear(view.year), view.month, k), selected, now, journalDates)
      {
        var currentDate := MakeDate(view.year, view.month, day);
        MakeDateInMonth(view.year, view.month, day);
        var cell := DayButton(currentDate, selected, now);
        cells := cells + [cell];
        day := day + 1;
      }
    }
  }
}
