/** The compact date-range calendar: the day grid of the shown month, the click
    rule that builds a check-in/check-out range, the hover preview and month
    navigation. The range belongs to the parent; a click yields the range the
    component hands to `onChange`, or nothing when it ignores the click. */
module CompactCalendar {
  import opened Wrappers
  import opened CivilDates

  /** `{ startDate, endDate }`, each a local-midnight timestamp or absent. */
  datatype Range = Range(start: Option<int>, end: Option<int>)

  /** One cell of the grid: padding before the first weekday, or a day. */
  datatype Slot =
    | Blank
    | Day(day: int, isAvailable: bool, isSelected: bool, isStartDate: bool, isEndDate: bool, date: int)

  /** A range the calendar itself produces: an end only after a start, and never
      before it. */
  predicate Ordered(r: Range) {
    (r.end.Some? ==> r.start.Some?) && (r.start.Some? && r.end.Some? ==> r.start.value <= r.end.value)
  }

  /** The cell of day `day` of month `month` of `year`. */
  function CellFor(year: int, month: int, day: int, today: int, value: Range, hover: Option<int>): (c: Slot)
    requires 0 <= month < 12
  {
    var date := DateMs(year, month, day);
    var inRange := value.start.Some? && value.end.Some? && value.start.value <= date <= value.end.value;
    var inPreview := value.start.Some? && value.end.None? && hover.Some? &&
                     value.start.value < date <= hover.value;
    Day(day, date >= today, inRange || inPreview,
        value.start.Some? && date == value.start.value,
        value.end.Some? && date == value.end.value,
        date)
  }

  /** The number of padding cells: the weekday of the first of the month. */
  function Leading(year: int, month: int): (n: int)
    requires 0 <= month < 12
    ensures 0 <= n < 7
  {
    Weekday(DayNumber(year, month, 1))
  }

  /** `calendarDays`: the padding, then one cell per day of the month. */
  function Grid(year: int, month: int, today: int, value: Range, hover: Option<int>): (g: seq<Slot>)
    requires 0 <= month < 12
    ensures |g| == Leading(year, month) + DaysInMonth(year, month)
  {
    seq(Leading(year, month), _ => Blank) +
    seq(DaysInMonth(year, month), k requires 0 <= k < DaysInMonth(year, month) =>
      CellFor(year, month, k + 1, today, value, hover))
  }

  /** The grid starts on the right weekday, has no more than six padding cells, and
      lists days 1.. of the month in order, one day apart. */
  lemma GridLayout(year: int, month: int, today: int, value: Range, hover: Option<int>)
    requires 0 <= month < 12
    ensures var g := Grid(year, month, today, value, hover);
      var w := Leading(year, month);
      w < 7 &&
      (forall i :: 0 <= i < w ==> g[i].Blank?) &&
      (forall i :: w <= i < |g| ==> g[i].Day? && g[i].day == i - w + 1 && g[i].date == DateMs(year, month, i - w + 1)) &&
      (forall i :: w <= i < |g| - 1 ==> g[i + 1].date == g[i].date + DayMs) &&
      g[|g| - 1].date + DayMs == DateMs(NextMonth(year, month).0, NextMonth(year, month).1, 1)
  {
    var g := Grid(year, month, today, value, hover);
    var w := Leading(year, month);
    forall i | w <= i < |g| - 1 ensures g[i + 1].date == g[i].date + DayMs {
      NextDay(year, month, i - w + 1);
    }
    MonthEndMeetsNextMonth(year, month);
  }

  /** A day is available exactly when it is today or later, and it is marked as the
      start (or end) exactly when it is that date. */
  lemma GridMarks(year: int, month: int, today: int, value: Range, hover: Option<int>, i: int)
    requires 0 <= month < 12
    requires Leading(year, month) <= i < |Grid(year, month, today, value, hover)|
    ensures var c := Grid(year, month, today, value, hover)[i];
      (c.isAvailable <==> c.date >= today) &&
      (c.isStartDate <==> value.start == Some(c.date)) &&
      (c.isEndDate <==> value.end == Some(c.date))
  {
  }

  /** With both dates set, a day is selected exactly when it lies between them; with
      only a start, exactly when it lies after the start and not after the hovered
      day; with no start, never. */
  lemma GridSelection(year: int, month: int, today: int, value: Range, hover: Option<int>, i: int)
    requires 0 <= month < 12
    requires Leading(year, month) <= i < |Grid(year, month, today, value, hover)|
    ensures var c := Grid(year, month, today, value, hover)[i];
      (value.start.Some? && value.end.Some? ==> (c.isSelected <==> value.start.value <= c.date <= value.end.value)) &&
      (value.start.Some? && value.end.None? ==>
        (c.isSelected <==> hover.Some? && value.start.value < c.date <= hover.value)) &&
      (value.start.None? ==> !c.isSelected)
  {
  }

  /** Every date appears at most once, so at most one cell is marked as the start. */
  lemma GridStartMarkedOnce(year: int, month: int, today: int, value: Range, hover: Option<int>, i: int, j: int)
    requires 0 <= month < 12
    requires 0 <= i < |Grid(year, month, today, value, hover)| && 0 <= j < |Grid(year, month, today, value, hover)|
    requires Grid(year, month, today, value, hover)[i].Day? && Grid(year, month, today, value, hover)[i].isStartDate
    requires Grid(year, month, today, value, hover)[j].Day? && Grid(year, month, today, value, hover)[j].isStartDate
    ensures i == j
  {
    var w := Leading(year, month);
    DateMsMonotone(year, month, i - w + 1, j - w + 1);
    DateMsMonotone(year, month, j - w + 1, i - w + 1);
  }

  /** `handleDateClick`: `None` when the click is ignored, otherwise the new range. */
  function Click(value: Range, cell: Slot): (r: Option<Range>)
    ensures r.Some? <==> cell.Day? && cell.isAvailable
  {
    if !cell.Day? || !cell.isAvailable then None
    else if value.start.None? then Some(Range(Some(cell.date), None))
    else if value.end.None? then
      if cell.date >= value.start.value then Some(Range(value.start, Some(cell.date)))
      else Some(Range(Some(cell.date), None))
    else Some(Range(Some(cell.date), None))
  }

  /** A click either starts a new range at the clicked day, or, when a start is
      waiting for its end and the day is not before it, completes the range; the
      result is always ordered, and the clicked day is always one of its ends. */
  lemma ClickCases(value: Range, cell: Slot)
    requires cell.Day? && cell.isAvailable
    ensures var r := Click(value, cell).value;
      Ordered(r) &&
      (r.start == Some(cell.date) || r.end == Some(cell.date)) &&
      (value.start.Some? && value.end.None? && cell.date >= value.start.value ==>
        r == Range(value.start, Some(cell.date))) &&
      (value.start.None? || value.end.Some? || cell.date < value.start.value ==>
        r == Range(Some(cell.date), None))
  {
  }

  /** After a completing click, the days shown between the two ends are exactly
      the selected ones. */
  lemma CompletedRangeSelected(year: int, month: int, today: int, value: Range, cell: Slot, hover: Option<int>, i: int)
    requires 0 <= month < 12
    requires cell.Day? && cell.isAvailable && value.start.Some? && value.end.None? && cell.date >= value.start.value
    requires Leading(year, month) <= i < DaysInMonth(year, month) + Leading(year, month)
    ensures var c := Grid(year, month, today, Click(value, cell).value, hover)[i];
      c.isSelected <==> value.start.value <= c.date <= cell.date
  {
    GridSelection(year, month, today, Click(value, cell).value, hover, i);
  }

  /** The shown month, the hovered day and today's date. */
  class CalendarView {
    var month: int
    var year: int
    var hoverDate: Option<int>
    const today: Civil

    predicate Valid()
      reads this
    {
      0 <= month < 12 && 0 <= today.month < 12
    }

    /** Today's local midnight. */
    function TodayMs(): int
      reads this
      requires Valid()
    {
      DateMs(today.year, today.month, today.day)
    }

    /** The month of the start date if there is one, otherwise today's month. */
    constructor (today: Civil, startDate: Option<Civil>)
      requires 0 <= today.month < 12 && (startDate.Some? ==> 0 <= startDate.value.month < 12)
      ensures Valid() && this.today == today && hoverDate.None?
      ensures var initial := if startDate.Some? then startDate.value else today;
        month == initial.month && year == initial.year
    {
      this.today := today;
      var initial := if startDate.Some? then startDate.value else today;
      month := initial.month;
      year := initial.year;
      hoverDate := None;
    }

    /** The grid of the shown month, built with the two loops of the component. */
    method Days(value: Range) returns (cells: seq<Slot>)
      requires Valid()
      ensures cells == Grid(year, month, TodayMs(), value, hoverDate)
    {
      var firstDayWeekday := Leading(year, month);
      var daysInMonth := DaysInMonth(year, month);
      cells := [];
      var i := 0;
      while i < firstDayWeekday
        invariant 0 <= i <= firstDayWeekday
        invariant cells == seq(i, _ => Blank)
      {
        cells := cells + [Blank];
        i := i + 1;
      }
      var day := 1;
      while day <= daysInMonth
        invariant 1 <= day <= daysInMonth + 1
        invariant |cells| == firstDayWeekday + day - 1
        invariant forall k :: 0 <= k < firstDayWeekday ==> cells[k] == Blank
        invariant forall k :: firstDayWeekday <= k < |cells| ==>
          cells[k] == CellFor(year, month, k - firstDayWeekday + 1, TodayMs(), value, hoverDate)
      {
        cells := cells + [CellFor(year, month, day, TodayMs(), value, hoverDate)];
        day := day + 1;
      }
    }

    /** `handleMouseEnter`: an available day after a waiting start becomes the
        preview end; anything else leaves the hover as it is. */
    method MouseEnter(value: Range, cell: Slot)
      modifies this
      ensures cell.Day? && cell.isAvailable && value.start.Some? && value.end.None? && cell.date > value.start.value ==>
        hoverDate == Some(cell.date)
      ensures !(cell.Day? && cell.isAvailable && value.start.Some? && value.end.None? && cell.date > value.start.value) ==>
        hoverDate == old(hoverDate)
      ensures month == old(month) && year == old(year)
    {
      if cell.Day? && cell.isAvailable && value.start.Some? && value.end.None? && cell.date > value.start.value {
        hoverDate := Some(cell.date);
      }
    }

    /** `handleMouseLeave`. */
    method MouseLeave()
      modifies this
      ensures hoverDate.None? && month == old(month) && year == old(year)
    {
      hoverDate := None;
    }

    /** Whether the back button is disabled: the shown month is today's. */
    function PrevDisabled(): bool
      reads this
    {
      month == today.month && year == today.year
    }

    /** `prevMonth`: January steps back to December of the year before. */
    method GoPrevMonth()
      requires Valid()
      modifies this
      ensures Valid() && (year, month) == PrevMonth(old(year), old(month)) && hoverDate == old(hoverDate)
    {
      if month == 0 {
        month := 11;
        year := year - 1;
      } else {
        month := month - 1;
      }
    }

    /** `nextMonth`: December steps on to January of the next year. */
    method GoNextMonth()
      requires Valid()
      modifies this
      ensures Valid() && (year, month) == NextMonth(old(year), old(month)) && hoverDate == old(hoverDate)
    {
      if month == 11 {
        month := 0;
        year := year + 1;
      } else {
        month := month + 1;
      }
    }
  }

  /** Using only the enabled back button, the calendar never shows a month before
      today's once it shows today's month or a later one. */
  lemma PrevStaysFromToday(year: int, month: int, today: Civil)
    requires 0 <= month < 12 && 0 <= today.month < 12
    requires MonthIndex(year, month) >= MonthIndex(today.year, today.month)
    requires !(month == today.month && year == today.year)
    ensures MonthIndex(PrevMonth(year, month).0, PrevMonth(year, month).1) >= MonthIndex(today.year, today.month)
  {
    MonthSteps(year, month);
  }
}
