/** The month view of the family calendar
    (src/components/family/CalendarView.tsx): the grid of day cells, the
    events of each cell and the truncation of a busy cell. The weekday of
    the first of the month and the length of the month, which the source
    asks `Date` for, are inputs; a cell is an empty slot (`null`) or a
    local calendar day. */
module CalendarView {
  import opened Common
  import opened FamilyTypes

  /** One cell of the month grid. */
  type Cell = Option<CivilDate>

  /** The month grid: `startingDayOfWeek` empty cells, then the days
      1..`daysInMonth` of the month. */
  function MonthGrid(year: int, month: int, startingDayOfWeek: nat, daysInMonth: nat): seq<Cell> {
    seq(startingDayOfWeek + daysInMonth, k requires 0 <= k < startingDayOfWeek + daysInMonth =>
      if k < startingDayOfWeek then None else Some(CivilDate(year, month, k - startingDayOfWeek + 1)))
  }

  /** `getDaysInMonth`: the two counting loops that push the cells. */
  method GetDaysInMonth(year: int, month: int, startingDayOfWeek: nat, daysInMonth: nat) returns (days: seq<Cell>)
    ensures days == MonthGrid(year, month, startingDayOfWeek, daysInMonth)
  {
    days := [];
    var i := 0;
    while i < startingDayOfWeek
      invariant 0 <= i <= startingDayOfWeek
      invariant |days| == i
      invariant forall k :: 0 <= k < i ==> days[k] == None
    {
      days := days + [None];
      i := i + 1;
    }
    var day := 1;
    while day <= daysInMonth
      invariant 1 <= day <= daysInMonth + 1
      invariant |days| == startingDayOfWeek + day - 1
      invariant forall k :: 0 <= k < startingDayOfWeek ==> days[k] == None
      invariant forall k :: startingDayOfWeek <= k < |days| ==>
        days[k] == Some(CivilDate(year, month, k - startingDayOfWeek + 1))
    {
      days := days + [Some(CivilDate(year, month, day))];
      day := day + 1;
    }
  }

  /** The grid has one cell per leading blank and one per day; the blanks
      come first; the rest hold the days 1..`daysInMonth` of that month in
      ascending order, so each day exactly once. */
  lemma MonthGridShape(year: int, month: int, start: nat, dim: nat)
    ensures var g := MonthGrid(year, month, start, dim);
      && |g| == start + dim
      && (forall k :: 0 <= k < start ==> g[k].None?)
      && (forall k :: start <= k < |g| ==> g[k].Some? && g[k].value.year == year && g[k].value.month == month)
      && (forall k :: start <= k < |g| ==> 1 <= g[k].value.day <= dim)
      && (forall k, l :: start <= k < l < |g| ==> g[k].value.day < g[l].value.day)
      && (forall d :: 1 <= d <= dim ==> g[start + d - 1] == Some(CivilDate(year, month, d)))
  {
  }

  /** No two cells of the grid hold the same day. */
  lemma MonthGridDaysDistinct(year: int, month: int, start: nat, dim: nat, a: nat, b: nat)
    requires a < b < start + dim
    requires MonthGrid(year, month, start, dim)[a].Some?
    ensures MonthGrid(year, month, start, dim)[a] != MonthGrid(year, month, start, dim)[b]
  {
  }

  /** The event test of `getEventsForDate`: the event starts on `day`. */
  function StartsOn(day: CivilDate): CalendarEvent -> bool {
    (e: CalendarEvent) => e.startTime.date == day
  }

  /** `getEventsForDate`: no events for an empty cell; otherwise the events
      starting on that day, in their order. */
  function EventsForDate(events: seq<CalendarEvent>, cell: Cell): (r: seq<CalendarEvent>)
    ensures cell.None? ==> r == []
    ensures IsSubsequence(r, events)
    ensures forall i :: 0 <= i < |r| ==> cell.Some? && r[i].startTime.date == cell.value
    ensures cell.Some? ==> forall i :: 0 <= i < |events| && events[i].startTime.date == cell.value ==> events[i] in r
    ensures cell.Some? ==> forall e :: multiset(r)[e] == if e.startTime.date == cell.value then multiset(events)[e] else 0
  {
    match cell
    case None =>
      SubsequenceEmpty(events);
      []
    case Some(day) => Filter(events, StartsOn(day))
  }

  /** An event is listed in at most one cell of the month grid: the one
      holding its start day. */
  lemma EventInAtMostOneCell(events: seq<CalendarEvent>, year: int, month: int, start: nat, dim: nat,
                             e: CalendarEvent, a: nat, b: nat)
    requires a < start + dim && b < start + dim
    requires e in EventsForDate(events, MonthGrid(year, month, start, dim)[a])
    requires e in EventsForDate(events, MonthGrid(year, month, start, dim)[b])
    ensures a == b
  {
    var g := MonthGrid(year, month, start, dim);
    var ea := EventsForDate(events, g[a]);
    var eb := EventsForDate(events, g[b]);
    var i :| 0 <= i < |ea| && ea[i] == e;
    var j :| 0 <= j < |eb| && eb[j] == e;
    assert g[a] == g[b];
    if a < b {
      MonthGridDaysDistinct(year, month, start, dim, a, b);
    } else if b < a {
      MonthGridDaysDistinct(year, month, start, dim, b, a);
    }
  }

  /** How many events a cell lists before summarising the rest. */
  const CellLimit := 2

  /** What a day cell shows: its first two events and, when there are more,
      a '+n more' line. */
  datatype CellDisplay = CellDisplay(shown: seq<CalendarEvent>, more: Option<nat>)

  /** `dayEvents.slice(0, 2)` and `+{dayEvents.length - 2} more`. */
  function DisplayCell(dayEvents: seq<CalendarEvent>): (r: CellDisplay)
    ensures |r.shown| <= CellLimit && |r.shown| <= |dayEvents| && r.shown == dayEvents[..|r.shown|]
    ensures r.more.Some? <==> |dayEvents| > CellLimit
    ensures r.more.Some? ==> |r.shown| == CellLimit && |r.shown| + r.more.value == |dayEvents|
    ensures r.more.None? ==> r.shown == dayEvents
  {
    if |dayEvents| > CellLimit then CellDisplay(dayEvents[..CellLimit], Some(|dayEvents| - CellLimit))
    else CellDisplay(dayEvents, None)
  }
}
