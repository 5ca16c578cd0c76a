/**
 * `java.time.LocalDate` as an epoch day number (day 0 = 1970-01-01), with the
 * proleptic Gregorian conversions the services rely on (month and year
 * lengths, `plusYears(1)`, `plusDays(1)`), and the date-set expansion loops.
 */
module Calendar {

  /** A civil date (year, month 1..12, day of month). */
  datatype Civil = Civil(year: int, month: int, day: int)

  predicate IsLeapYear(y: int) { y % 4 == 0 && (y % 100 != 0 || y % 400 == 0) }

  function MonthLength(y: int, m: int): (n: int)
    ensures 28 <= n <= 31
    ensures m == 2 ==> (n == if IsLeapYear(y) then 29 else 28)
  {
    if m == 2 then (if IsLeapYear(y) then 29 else 28)
    else if m == 4 || m == 6 || m == 9 || m == 11 then 30
    else 31
  }

  function YearLength(y: int): (n: int)
    ensures n == 365 || n == 366
    ensures n == 366 <==> IsLeapYear(y)
  {
    if IsLeapYear(y) then 366 else 365
  }

  /** Epoch day of a civil date (days-from-civil). */
  function EpochDay(c: Civil): int
  {
    var y := if c.month <= 2 then c.year - 1 else c.year;
    var era := y / 400;
    var yoe := y - era * 400;
    var mp := if c.month > 2 then c.month - 3 else c.month + 9;
    var doy := (153 * mp + 2) / 5 + c.day - 1;
    var doe := yoe * 365 + yoe / 4 - yoe / 100 + doy;
    era * 146097 + doe - 719468
  }

  /** Civil date of an epoch day (civil-from-days). */
  function CivilOf(day: int): Civil
  {
    var z := day + 719468;
    var era := z / 146097;
    var doe := z - era * 146097;
    var yoe := (doe - doe / 1460 + doe / 36524 - doe / 146096) / 365;
    var y := yoe + era * 400;
    var doy := doe - (365 * yoe + yoe / 4 - yoe / 100);
    var mp := (5 * doy + 2) / 153;
    var d := doy - (153 * mp + 2) / 5 + 1;
    var m := if mp < 10 then mp + 3 else mp - 9;
    Civil(if m <= 2 then y + 1 else y, m, d)
  }

  /** `LocalDate.plusYears(1)`: same month and day a year later, Feb 29 clamped to Feb 28. */
  function PlusOneYear(day: int): int
  {
    var c := CivilOf(day);
    var d := if c.day <= MonthLength(c.year + 1, c.month) then c.day else MonthLength(c.year + 1, c.month);
    EpochDay(Civil(c.year + 1, c.month, d))
  }

  function DayOfMonth(day: int): int { CivilOf(day).day }
  function MonthValue(day: int): int { CivilOf(day).month }
  function Year(day: int): int { CivilOf(day).year }

  /** `YearMonth.from(day).lengthOfMonth()`. */
  function LengthOfMonthAt(day: int): (n: int)
    ensures 28 <= n <= 31
  {
    MonthLength(Year(day), MonthValue(day))
  }

  /** `LocalDate.lengthOfYear()`. */
  function LengthOfYearAt(day: int): (n: int)
    ensures n == 365 || n == 366
  {
    YearLength(Year(day))
  }

  /** `YearMonth.atDay(1)` of the month a day falls in. */
  function FirstOfMonth(day: int): int
  {
    EpochDay(Civil(Year(day), MonthValue(day), 1))
  }

  /** `LocalDate.minusMonths(1)`: the same day of the previous month, clamped to its length. */
  function MinusOneMonth(day: int): int
  {
    var c := CivilOf(day);
    var y := if c.month == 1 then c.year - 1 else c.year;
    var m := if c.month == 1 then 12 else c.month - 1;
    EpochDay(Civil(y, m, if c.day <= MonthLength(y, m) then c.day else MonthLength(y, m)))
  }

  /** The days `lo, lo+1, ..., hi-1`: the end-exclusive range of a stay. */
  function Span(lo: int, hi: int): set<int>
    decreases hi - lo
  {
    if hi <= lo then {} else Span(lo, hi - 1) + {hi - 1}
  }

  lemma {:induction false} SpanMembers(lo: int, hi: int)
    ensures forall d :: d in Span(lo, hi) <==> lo <= d < hi
    decreases hi - lo
  {
    if lo < hi {
      SpanMembers(lo, hi - 1);
    }
  }

  lemma {:induction false} SpanSize(lo: int, hi: int)
    ensures |Span(lo, hi)| == if lo < hi then hi - lo else 0
    decreases hi - lo
  {
    if lo < hi {
      SpanSize(lo, hi - 1);
      SpanMembers(lo, hi - 1);
    }
  }

  /**
   * `getDatesBetween(startDate, endDate)`: the while-loop that adds each day
   * from the start while it is before the end. The end day itself is not
   * included, as in a stay's check-out day or an iCalendar DTEND.
   */
  method DatesBetween(start: int, end: int) returns (dates: set<int>)
    ensures dates == Span(start, end)
    ensures forall d :: d in dates <==> start <= d < end
    ensures |dates| == if start < end then end - start else 0
    ensures end <= start ==> dates == {}
  {
    dates := {};
    var current := start;
    while current < end
      invariant start <= current
      invariant start < end ==> current <= end
      invariant end <= start ==> current == start
      invariant dates == Span(start, current)
      decreases end - current
    {
      dates := dates + {current};
      current := current + 1;
    }
    assert dates == Span(start, end) by {
      if start < end { assert current == end; } else { assert current == start; }
    }
    SpanMembers(start, end);
    SpanSize(start, end);
  }

  /** A non-empty set of days has a member to pick. */
  lemma HasMember(s: set<int>)
    requires s != {}
    ensures exists d :: d in s
  {
    if forall d :: d !in s {
      assert false;
    }
  }

  /** The earliest day of a non-empty set of days (`stream().min(LocalDate::compareTo)`). */
  ghost function MinDay(s: set<int>): (m: int)
    requires s != {}
    ensures m in s
    ensures forall d :: d in s ==> m <= d
  {
    HasMember(s);
    var d :| d in s;
    if s == {d} then d
    else
      var rest := MinDay(s - {d});
      assert forall e :: e in s ==> e == d || e in s - {d};
      if d <= rest then d else rest
  }

  /** The latest day of a non-empty set of days (`stream().max(LocalDate::compareTo)`). */
  ghost function MaxDay(s: set<int>): (m: int)
    requires s != {}
    ensures m in s
    ensures forall d :: d in s ==> d <= m
  {
    HasMember(s);
    var d :| d in s;
    if s == {d} then d
    else
      var rest := MaxDay(s - {d});
      assert forall e :: e in s ==> e == d || e in s - {d};
      if d >= rest then d else rest
  }
}
