/**
 * Week and day keys (`mondayOfWeekPDT`, `todayColIndex` and the calendar
 * `ym`/`day` of the completion cascade). The time-zone conversion is not
 * modelled: the caller supplies today's civil date and weekday in the
 * configured zone, read from one instant.
 */
module TimeKey {
  import opened Wrappers
  import opened Text

  /** Weekdays in the order of the `['Sun','Mon',…,'Sat']` table. */
  datatype Weekday = Sun | Mon | Tue | Wed | Thu | Fri | Sat

  /** The weekday's index in that table (Sunday = 0). */
  function Sun0(w: Weekday): nat {
    match w
    case Sun => 0
    case Mon => 1
    case Tue => 2
    case Wed => 3
    case Thu => 4
    case Fri => 5
    case Sat => 6
  }

  function WeekdayAt(i: nat): (w: Weekday)
    requires i < 7
    ensures Sun0(w) == i
  {
    [Sun, Mon, Tue, Wed, Thu, Fri, Sat][i]
  }

  /** The weekday `k` days after `w`. */
  function WeekdayAfter(w: Weekday, k: nat): Weekday {
    WeekdayAt((Sun0(w) + k) % 7)
  }

  /** Days since Monday: 6 on Sunday, otherwise the table index minus one. */
  function MondayOffset(w: Weekday): (r: nat)
    ensures r < 7 && WeekdayAfter(Mon, r) == w
  {
    var sun0 := Sun0(w);
    if sun0 == 0 then 6 else sun0 - 1
  }

  /** The offset is the only number of days, under a week, that leads from Monday to `w`. */
  lemma MondayOffsetUnique(w: Weekday, k: nat)
    requires k < 7 && WeekdayAfter(Mon, k) == w
    ensures MondayOffset(w) == k
  {
  }

  /** `todayColIndex`: the table column of a weekday, Monday to Friday, or -1 at the weekend. */
  function TodayColIndex(w: Weekday): (r: int)
    ensures -1 <= r <= 4
    ensures r == -1 <==> (w == Sat || w == Sun)
    ensures r != -1 ==> r == MondayOffset(w)
  {
    match w
    case Mon => 0
    case Tue => 1
    case Wed => 2
    case Thu => 3
    case Fri => 4
    case _ => -1
  }

  // -----------------------------------------------------------------------
  // The proleptic Gregorian calendar of JavaScript's Date

  datatype Date = Date(year: int, month: int, day: int)

  predicate IsLeapYear(y: int) {
    y % 4 == 0 && (y % 100 != 0 || y % 400 == 0)
  }

  function DaysInMonth(y: int, m: int): (n: int)
    requires 1 <= m <= 12
    ensures 28 <= n <= 31
  {
    if m == 2 then (if IsLeapYear(y) then 29 else 28)
    else if m == 4 || m == 6 || m == 9 || m == 11 then 30
    else 31
  }

  predicate ValidDate(d: Date) {
    1 <= d.month <= 12 && 1 <= d.day <= DaysInMonth(d.year, d.month)
  }

  /** The day before (`setDate(getDate() - 1)`), across month and year ends. */
  function PrevDay(d: Date): (r: Date)
    requires ValidDate(d)
    ensures ValidDate(r) && d.year - 1 <= r.year <= d.year
  {
    if d.day > 1 then Date(d.year, d.month, d.day - 1)
    else if d.month > 1 then Date(d.year, d.month - 1, DaysInMonth(d.year, d.month - 1))
    else Date(d.year - 1, 12, 31)
  }

  /** The day after, across month and year ends. */
  function NextDay(d: Date): (r: Date)
    requires ValidDate(d)
    ensures ValidDate(r) && d.year <= r.year <= d.year + 1
  {
    if d.day < DaysInMonth(d.year, d.month) then Date(d.year, d.month, d.day + 1)
    else if d.month < 12 then Date(d.year, d.month + 1, 1)
    else Date(d.year + 1, 1, 1)
  }

  lemma PrevOfNext(d: Date)
    requires ValidDate(d)
    ensures PrevDay(NextDay(d)) == d
  {
  }

  lemma NextOfPrev(d: Date)
    requires ValidDate(d)
    ensures NextDay(PrevDay(d)) == d
  {
  }

  /** `n` days earlier, one day at a time. */
  function SubtractDays(d: Date, n: nat): (r: Date)
    requires ValidDate(d)
    ensures ValidDate(r) && d.year - n <= r.year <= d.year
    decreases n
  {
    if n == 0 then d else SubtractDays(PrevDay(d), n - 1)
  }

  /** `n` days later, one day at a time. */
  function AddDays(d: Date, n: nat): (r: Date)
    requires ValidDate(d)
    ensures ValidDate(r) && d.year <= r.year
    decreases n
  {
    if n == 0 then d else NextDay(AddDays(d, n - 1))
  }

  lemma {:induction false} SubtractDaysAfterAddDays(d: Date, n: nat)
    requires ValidDate(d)
    ensures SubtractDays(AddDays(d, n), n) == d
  {
    if n > 0 {
      PrevOfNext(AddDays(d, n - 1));
      SubtractDaysAfterAddDays(d, n - 1);
    }
  }

  lemma {:induction false} AddDaysAfterSubtractDays(d: Date, n: nat)
    requires ValidDate(d)
    ensures AddDays(SubtractDays(d, n), n) == d
    decreases n
  {
    if n > 0 {
      AddDaysAfterSubtractDays(PrevDay(d), n - 1);
      NextOfPrev(d);
    }
  }

  // -----------------------------------------------------------------------
  // Today and its keys

  /** Today's civil date and weekday in the configured zone, read from one instant. */
  datatype Today = Today(date: Date, weekday: Weekday)

  /**
   * A date the clock can report. Years 0 to 99 are left out: the
   * `new Date(Y, M-1, D)` constructor reads them as 1900 to 1999.
   */
  predicate ValidToday(t: Today) {
    ValidDate(t.date) && t.date.year >= 100
  }

  /** The Monday on or before today. */
  function MondayOf(t: Today): (r: Date)
    requires ValidToday(t)
    ensures ValidDate(r) && r.year >= 0
  {
    SubtractDays(t.date, MondayOffset(t.weekday))
  }

  /**
   * `${yy}-${mm}-${dd}` with month and day zero-padded to two digits: for a
   * year of the common era it reads back with `split('-').map(Number)` as
   * the year, month and day.
   */
  function FormatYmd(d: Date): (r: string)
    requires ValidDate(d)
    ensures d.year >= 0 ==> ParseNumbers(r) == Some([d.year, d.month, d.day])
    ensures d.year >= 0 ==>
      var p := Split(r, '-');
      |p| == 3 && p[0] == NatToString(d.year)
      && |p[1]| == 2 && AllDigits(p[1]) && |p[2]| == 2 && AllDigits(p[2])
  {
    DashedTripleRoundTrip(d.year, d.month, d.day);
    IntToString(d.year) + "-" + Pad2(d.month) + "-" + Pad2(d.day)
  }

  /**
   * `mondayOfWeekPDT`: the week key, which reads back as the year, month and
   * day of the Monday on or before today, with month and day zero-padded to
   * two digits.
   */
  function WeekKey(t: Today): (r: string)
    requires ValidToday(t)
    ensures var m := MondayOf(t); ParseNumbers(r) == Some([m.year, m.month, m.day])
    ensures var m, p := MondayOf(t), Split(r, '-');
      |p| == 3 && p[0] == NatToString(m.year)
      && |p[1]| == 2 && AllDigits(p[1]) && |p[2]| == 2 && AllDigits(p[2])
  {
    FormatYmd(MondayOf(t))
  }

  /**
   * The calendar month key `yy + '-' + mm` of the completion cascade: for a
   * year of the common era it reads back as the year and month, with the
   * month zero-padded to two digits.
   */
  function YearMonth(d: Date): (r: string)
    requires ValidDate(d)
    ensures d.year >= 0 ==> ParseNumbers(r) == Some([d.year, d.month])
    ensures d.year >= 0 ==>
      var p := Split(r, '-');
      |p| == 2 && p[0] == NatToString(d.year) && |p[1]| == 2 && AllDigits(p[1])
  {
    DashedPairRoundTrip(d.year, d.month);
    IntToString(d.year) + "-" + Pad2(d.month)
  }

  /** Today is the Monday plus the Monday offset. */
  lemma MondayPlusOffsetIsToday(t: Today)
    requires ValidToday(t)
    ensures AddDays(MondayOf(t), MondayOffset(t.weekday)) == t.date
  {
    AddDaysAfterSubtractDays(t.date, MondayOffset(t.weekday));
  }

  /** Every day of one week, Monday to Sunday, yields that week's Monday as key. */
  lemma WeekKeyStable(monday: Date, k: nat)
    requires ValidDate(monday) && monday.year >= 100 && k < 7
    ensures WeekKey(Today(AddDays(monday, k), WeekdayAfter(Mon, k))) == FormatYmd(monday)
  {
    var t := Today(AddDays(monday, k), WeekdayAfter(Mon, k));
    MondayOffsetUnique(t.weekday, k);
    SubtractDaysAfterAddDays(monday, k);
  }

  // -----------------------------------------------------------------------
  // Reading keys back: `s.split('-').map(Number)`

  /** `Number(p)` on a digit string (the empty string is 0); anything else is NaN. */
  function PartValue(p: string): Option<nat> {
    if AllDigits(p) then Some(DigitsValue(p)) else None
  }

  function PartValues(parts: seq<string>): (r: Option<seq<nat>>)
    ensures r.Some? ==> |r.value| == |parts|
  {
    if parts == [] then Some([])
    else
      match (PartValue(parts[0]), PartValues(parts[1..]))
      case (Some(v), Some(vs)) => Some([v] + vs)
      case _ => None
  }

  lemma PartValuesCons(p: string, ps: seq<string>, v: nat, vs: seq<nat>)
    requires PartValue(p) == Some(v) && PartValues(ps) == Some(vs)
    ensures PartValues([p] + ps) == Some([v] + vs)
  {
  }

  /** The numbers of a dash-separated key, or None if some part is not a number. */
  function ParseNumbers(s: string): Option<seq<nat>> {
    PartValues(Split(s, '-'))
  }

  lemma DigitsHaveNoDash(s: string)
    requires AllDigits(s)
    ensures '-' !in s
  {
  }

  /**
   * Three numbers joined by dashes, the last two padded, read back as
   * themselves, and split into the year's digits and two-digit parts.
   */
  lemma DashedTripleRoundTrip(year: int, month: nat, day: nat)
    ensures year >= 0 ==>
      ParseNumbers(IntToString(year) + "-" + Pad2(month) + "-" + Pad2(day)) == Some([year, month, day])
    ensures year >= 0 && month < 100 && day < 100 ==>
      Split(IntToString(year) + "-" + Pad2(month) + "-" + Pad2(day), '-') == [NatToString(year), Pad2(month), Pad2(day)]
  {
    if year >= 0 {
      var y, m, dd := NatToString(year), Pad2(month), Pad2(day);
      var key := IntToString(year) + "-" + Pad2(month) + "-" + Pad2(day);
      DigitsHaveNoDash(y);
      DigitsHaveNoDash(m);
      DigitsHaveNoDash(dd);
      assert key == y + ['-'] + (m + ['-'] + dd);
      SplitAtFirst(y, m + ['-'] + dd, '-');
      SplitAtFirst(m, dd, '-');
      SplitNoSeparator(dd, '-');
      NatToStringRoundTrip(year);
      assert Split(key, '-') == [y, m, dd];
      PartValuesCons(dd, [], day, []);
      assert [dd] + [] == [dd] && [day] + [] == [day];
      PartValuesCons(m, [dd], month, [day]);
      assert [m] + [dd] == [m, dd] && [month] + [day] == [month, day];
      PartValuesCons(y, [m, dd], year, [month, day]);
      assert [y] + [m, dd] == [y, m, dd];
      assert [year] + [month, day] == [year, month, day];
      assert ParseNumbers(key) == PartValues([y, m, dd]);
    }
  }

  /**
   * Two numbers joined by a dash, the second padded, read back as
   * themselves, and split into the year's digits and the padded month.
   */
  lemma DashedPairRoundTrip(year: int, month: nat)
    ensures year >= 0 ==> ParseNumbers(IntToString(year) + "-" + Pad2(month)) == Some([year, month])
    ensures year >= 0 ==> Split(IntToString(year) + "-" + Pad2(month), '-') == [NatToString(year), Pad2(month)]
  {
    if year >= 0 {
      var y, m := NatToString(year), Pad2(month);
      var key := IntToString(year) + "-" + Pad2(month);
      DigitsHaveNoDash(y);
      DigitsHaveNoDash(m);
      assert key == y + ['-'] + m;
      SplitAtFirst(y, m, '-');
      SplitNoSeparator(m, '-');
      NatToStringRoundTrip(year);
      assert Split(key, '-') == [y, m];
      PartValuesCons(m, [], month, []);
      assert [m] + [] == [m] && [month] + [] == [month];
      PartValuesCons(y, [m], year, [month]);
      assert [y] + [m] == [y, m];
      assert [year] + [month] == [year, month];
      assert ParseNumbers(key) == PartValues([y, m]);
    }
  }

  /** Two instants share a week key exactly when they share the Monday. */
  lemma WeekKeyIdentifiesMonday(t1: Today, t2: Today)
    requires ValidToday(t1) && ValidToday(t2)
    ensures WeekKey(t1) == WeekKey(t2) <==> MondayOf(t1) == MondayOf(t2)
  {
  }
}
