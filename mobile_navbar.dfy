/** The date part of the mobile search bar: the check-in and check-out labels, the
    calendar drop-down and the handler that stores the range the embedded calendar
    reports. The embedded calendar follows exactly the rules of `CompactCalendar`
    (grid, click, hover, month navigation), so the model uses that module for it. */
module MobileNavbar {
  import opened Wrappers
  import opened CivilDates
  import CompactCalendar

  const AddDates: string := "Add dates"

  /** The label of a date field: the formatted date, or "Add dates" when absent.
      The locale formatting is a parameter. */
  function DateLabel(d: Option<int>, format: int -> string): (text: string)
    ensures d.None? ==> text == AddDates
    ensures d.Some? ==> text == format(d.value)
  {
    if d.Some? then format(d.value) else AddDates
  }

  /** `new Date(d.getFullYear(), d.getMonth(), d.getDate())`: the local midnight of
      the day of `t`. */
  function Midnight(t: int): (m: int)
    ensures m <= t < m + DayMs && m % DayMs == 0
  {
    t - t % DayMs
  }

  /** A date the calendar produces is already a midnight. */
  lemma MidnightOfDate(y: int, mo: int, d: int)
    requires 0 <= mo < 12
    ensures Midnight(DateMs(y, mo, d)) == DateMs(y, mo, d)
  {
    assert (DayNumber(y, mo, d) * DayMs) % DayMs == 0;
  }

  /** Normalising twice is normalising once, and normalising keeps the order of two
      times. */
  lemma MidnightMonotone(s: int, t: int)
    ensures Midnight(Midnight(t)) == Midnight(t)
    ensures s <= t ==> Midnight(s) <= Midnight(t)
  {
    if s <= t {
      assert Midnight(s) == (s / DayMs) * DayMs && Midnight(t) == (t / DayMs) * DayMs;
      assert s / DayMs <= t / DayMs;
    }
  }

  /** The calendar's `onChange` handler: a complete range is stored normalised to
      midnight and closes the calendar; a partial one is stored as it is and the
      calendar stays as it was. The second component says whether it closes. */
  function OnChange(r: CompactCalendar.Range): (out: (CompactCalendar.Range, bool))
    ensures out.1 <==> r.start.Some? && r.end.Some?
    ensures out.1 ==> out.0 == CompactCalendar.Range(Some(Midnight(r.start.value)), Some(Midnight(r.end.value)))
    ensures !out.1 ==> out.0 == r
  {
    if r.start.Some? && r.end.Some? then
      (CompactCalendar.Range(Some(Midnight(r.start.value)), Some(Midnight(r.end.value))), true)
    else (r, false)
  }

  /** A click that completes a range closes the calendar and stores an ordered range
      whose ends are the waiting start and the clicked day; any other accepted click
      keeps the calendar open with the clicked day as the new start. */
  lemma ClickThenChange(value: CompactCalendar.Range, cell: CompactCalendar.Slot)
    requires cell.Day? && cell.isAvailable
    ensures var out := OnChange(CompactCalendar.Click(value, cell).value);
      (out.1 <==> value.start.Some? && value.end.None? && cell.date >= value.start.value) &&
      CompactCalendar.Ordered(out.0) &&
      (out.1 ==> out.0 == CompactCalendar.Range(Some(Midnight(value.start.value)), Some(Midnight(cell.date)))) &&
      (!out.1 ==> out.0 == CompactCalendar.Range(Some(cell.date), None))
  {
    CompactCalendar.ClickCases(value, cell);
    if value.start.Some? && value.end.None? && cell.date >= value.start.value {
      MidnightMonotone(value.start.value, cell.date);
    }
  }

  /** The search bar's date state. */
  class NavbarDates {
    var showCalendar: bool
    var dateRange: CompactCalendar.Range

    constructor (dateRange: CompactCalendar.Range)
      ensures !showCalendar && this.dateRange == dateRange
    {
      showCalendar := false;
      this.dateRange := dateRange;
    }

    /** A click on either date field opens or closes the drop-down. */
    method ToggleCalendar()
      modifies this
      ensures showCalendar == !old(showCalendar) && dateRange == old(dateRange)
    {
      showCalendar := !showCalendar;
    }

    /** Focusing the location field, or searching, closes it. */
    method CloseCalendar()
      modifies this
      ensures !showCalendar && dateRange == old(dateRange)
    {
      showCalendar := false;
    }

    /** `onChange` of the embedded calendar. */
    method CalendarChanged(r: CompactCalendar.Range)
      modifies this
      ensures dateRange == OnChange(r).0
      ensures showCalendar == (old(showCalendar) && !OnChange(r).1)
    {
      if r.start.Some? && r.end.Some? {
        dateRange := CompactCalendar.Range(Some(Midnight(r.start.value)), Some(Midnight(r.end.value)));
        showCalendar := false;
      } else {
        dateRange := r;
      }
    }

    /** A click on a day of the embedded calendar, which is shown with the stored
        range: an ignored click changes nothing. */
    method ClickDay(cell: CompactCalendar.Slot)
      modifies this
      ensures CompactCalendar.Click(old(dateRange), cell).None? ==>
        dateRange == old(dateRange) && showCalendar == old(showCalendar)
      ensures CompactCalendar.Click(old(dateRange), cell).Some? ==>
        dateRange == OnChange(CompactCalendar.Click(old(dateRange), cell).value).0 &&
        showCalendar == (old(showCalendar) && !OnChange(CompactCalendar.Click(old(dateRange), cell).value).1)
    {
      var change := CompactCalendar.Click(dateRange, cell);
      if change.Some? {
        CalendarChanged(change.value);
      }
    }
  }
}
