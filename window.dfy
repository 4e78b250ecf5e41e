/** The month for which orders are fetched, and the month that ends the window
    (rust/src/main.rs:70-82). */
module Window {
  import opened Orders

  const U32_MAX := 0xFFFF_FFFF
  const I32_MAX := 0x7FFF_FFFF

  /** The command line's `month: u32` and `year: i32`. */
  type U32 = x: int | 0 <= x <= U32_MAX
  type I32 = x: int | -0x8000_0000 <= x <= I32_MAX

  /** The years of chrono's calendar (`i32::MIN >> 13` to `i32::MAX >> 13`); building a date
      outside them fails. */
  const MIN_YEAR := -262_144
  const MAX_YEAR := 262_143

  /** The first of `month` in `year` is a date chrono can build. */
  predicate IsCalendarMonth(month: int, year: int)
  {
    1 <= month <= 12 && MIN_YEAR <= year <= MAX_YEAR
  }

  /** The number of months from January of year 0 to `month` of `year`. */
  function MonthIndex(month: int, year: int): int
  {
    12 * year + (month - 1)
  }

  /** The (month, year) a month index stands for; the inverse of `MonthIndex`. */
  function FromMonthIndex(i: int): (r: (int, int))
    ensures 1 <= r.0 <= 12
    ensures MonthIndex(r.0, r.1) == i
  {
    (i % 12 + 1, i / 12)
  }

  lemma MonthIndexRoundTrip(month: int, year: int)
    requires 1 <= month <= 12
    ensures FromMonthIndex(MonthIndex(month, year)) == (month, year)
  {
  }

  /** The month after `month` of `year`: December rolls over into January of the next year.
      `None` is the arithmetic overflow on `month + 1` or `year + 1`, which panics when
      overflow checks are on. */
  function WindowEnd(month: U32, year: I32): (r: Option<(U32, I32)>)
    ensures r.None? <==> (month == 12 && year == I32_MAX) || (month != 12 && month == U32_MAX)
    ensures r.Some? && 1 <= month <= 12 ==>
      1 <= r.value.0 <= 12 && MonthIndex(r.value.0, r.value.1) == MonthIndex(month, year) + 1
    ensures r.Some? && month < 12 ==> r.value == (month + 1, year)
    ensures r.Some? && month == 12 ==> r.value == (1, year + 1)
  {
    if month == 12 then
      if year == I32_MAX then None else Some((1, year + 1))
    else
      if month == U32_MAX then None else Some((month + 1, year))
  }

  /** The window's end is the month whose index follows the start's. */
  lemma WindowEndIsNextMonth(month: U32, year: I32)
    requires 1 <= month <= 12 && WindowEnd(month, year).Some?
    ensures WindowEnd(month, year).value == FromMonthIndex(MonthIndex(month, year) + 1)
  {
    var e := WindowEnd(month, year).value;
    MonthIndexRoundTrip(e.0, e.1);
  }

  /** The first months of the window [start, end). Both ends must be dates chrono can build
      (rust/src/main.rs:75-82), so a month outside 1..12, or a year outside chrono's calendar
      at either end, has no window. */
  function MonthWindow(month: U32, year: I32): (r: Option<((U32, I32), (U32, I32))>)
    ensures r.Some? <==>
      1 <= month <= 12 && MIN_YEAR <= year <= MAX_YEAR && !(month == 12 && year == MAX_YEAR)
    ensures r.Some? ==> r.value.0 == (month, year)
    ensures r.Some? ==> IsCalendarMonth(r.value.1.0, r.value.1.1)
    ensures r.Some? ==> MonthIndex(r.value.1.0, r.value.1.1) == MonthIndex(month, year) + 1
  {
    match WindowEnd(month, year)
    case None => None
    case Some(end) =>
      if IsCalendarMonth(month, year) && IsCalendarMonth(end.0, end.1) then Some(((month, year), end))
      else None
  }
}
