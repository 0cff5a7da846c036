/** The Calendar page (frontend/pages/Calendar.jsx): a Monday-first month grid over
    `currentDate`, month navigation, a selected day and the sidebar listing that
    day's posts. The post table and "today" (the 20th) are fixed in the page and do
    not depend on the month shown. */
module CalendarPage {
  import opened Common
  import opened Text
  import opened CalendarMath

  datatype CellPost = CellPost(platform: string, content: string, time: string)

  /** The page's `scheduledPosts` table, keyed by day of the month. */
  const ScheduledPosts: map<int, seq<CellPost>> := map[
    3 := [CellPost("twitter", "New product launch announcement", "10:00 AM"),
          CellPost("instagram", "Behind the scenes photo", "2:00 PM")],
    5 := [CellPost("linkedin", "Weekly industry insights", "9:00 AM")],
    6 := [CellPost("twitter", "Customer success story", "11:00 AM"),
          CellPost("facebook", "Community poll", "3:00 PM"),
          CellPost("linkedin", "Team spotlight", "4:00 PM")],
    10 := [CellPost("instagram", "Product showcase", "1:00 PM")],
    12 := [CellPost("twitter", "Tips & tricks thread", "10:00 AM")],
    14 := [CellPost("facebook", "Valentine's Day special", "9:00 AM")],
    18 := [CellPost("linkedin", "Case study release", "11:00 AM")],
    20 := [CellPost("twitter", "AI dashboard announcement", "2:00 PM"),
           CellPost("instagram", "Product shoot BTS", "4:00 PM")],
    24 := [CellPost("twitter", "Feature update", "10:00 AM")],
    27 := [CellPost("facebook", "Month recap", "5:00 PM")]]

  const Today := 20

  /** `scheduledPosts[day] || []`. */
  function PostsFor(posts: map<int, seq<CellPost>>, day: int): (r: seq<CellPost>)
    ensures day !in posts ==> r == []
    ensures day in posts ==> r == posts[day]
  {
    if day in posts then posts[day] else []
  }

  /** What a cell lists: the first three posts (`slice(0, 3)`), and the "+N more"
      count exactly when there are more than three. */
  function CellPosts(posts: seq<CellPost>): (r: (seq<CellPost>, Option<nat>))
    ensures |r.0| == if |posts| < 3 then |posts| else 3
    ensures r.0 == posts[..|r.0|]
    ensures r.1.Some? <==> |posts| > 3
    ensures r.1.Some? ==> r.1.value == |posts| - 3 && |r.0| + r.1.value == |posts|
  {
    if |posts| > 3 then (posts[..3], Some((|posts| - 3) as nat)) else (posts, None)
  }

  datatype Cell =
    | Empty
    | Day(day: nat, isToday: bool, isSelected: bool, shown: seq<CellPost>, more: Option<nat>)

  /** One day cell. */
  function DayCell(day: nat, posts: map<int, seq<CellPost>>, selected: Option<nat>): Cell
  {
    var (shown, more) := CellPosts(PostsFor(posts, day));
    Day(day, day == Today, selected == Some(day), shown, more)
  }

  /** The grid: `startDay` empty cells, then the days `1..daysInMonth` in order. */
  function Grid(startDay: nat, daysInMonth: nat, posts: map<int, seq<CellPost>>,
                selected: Option<nat>): (g: seq<Cell>)
    ensures |g| == startDay + daysInMonth
    ensures forall i :: 0 <= i < startDay ==> g[i] == Empty
    ensures forall i :: startDay <= i < |g| ==> g[i].Day? && g[i].day == i - startDay + 1
  {
    seq(startDay, _ => Empty) + seq(daysInMonth, i requires 0 <= i => DayCell(i + 1, posts, selected))
  }

  /** The grid of a month lays every day under its own weekday: with seven columns
      headed Mon … Sun, the cell of day `d` sits in column `MondayFirst(getDay())` of
      that date. */
  lemma GridColumnIsWeekday(date: Date, d: nat)
    requires date.Valid()
    requires 1 <= d <= GetDaysInMonth(date).0
    ensures var (n, start) := GetDaysInMonth(date);
            var g := Grid(start, n, ScheduledPosts, None);
            g[start + d - 1].Day? && g[start + d - 1].day == d
            && (start + d - 1) % 7 == MondayFirst(Weekday(CtorYear(date.year), date.month, d))
  {
    var y := CtorYear(date.year);
    MondayFirstIsDaysSinceMonday(y, date.month, 1);
    MondayFirstIsDaysSinceMonday(y, date.month, d);
    ModAdd(DayNumber(y, date.month, 1), d - 1);
  }

  /** The sidebar heading. It always names February 2026, whatever month is shown. */
  function SidebarTitle(selected: Option<nat>): (t: string)
    ensures selected.None? <==> t == "Select a Day"
  {
    match selected
    case None => "Select a Day"
    case Some(d) => "February " + NatToString(d) + ", 2026"
  }

  /** The sidebar's list: the selected day's entry, or nothing for no selection or
      a day without an entry (both show a message instead). */
  function SidebarPosts(selected: Option<nat>): (r: Option<seq<CellPost>>)
    ensures r.Some? <==> selected.Some? && selected.value in ScheduledPosts
    ensures r.Some? ==> r.value == ScheduledPosts[selected.value]
  {
    if selected.Some? && selected.value in ScheduledPosts then Some(ScheduledPosts[selected.value])
    else None
  }

  class Calendar {
    var currentDate: Date
    var viewMode: string
    var selectedDay: Option<nat>

    /** The page only ever holds the first of a month. */
    predicate Valid()
      reads this
    {
      currentDate.Valid() && currentDate.day == 1
    }

    constructor ()
      ensures Valid()
      ensures currentDate == Date(2026, 1, 1) && viewMode == "month" && selectedDay == None
    {
      currentDate := Date(2026, 1, 1);
      viewMode := "month";
      selectedDay := None;
    }

    function Cells(): seq<Cell>
      reads this
      requires Valid()
    {
      var (n, start) := GetDaysInMonth(currentDate);
      Grid(start, n, ScheduledPosts, selectedDay)
    }

    /** `navigateMonth(direction)`: `setMonth(getMonth() + direction)` on a copy. The
        selected day is left as it was. */
    method NavigateMonth(direction: int)
      requires Valid()
      modifies this`currentDate
      ensures currentDate == AddMonths(old(currentDate), direction)
      ensures Valid()
      ensures MonthIndex(currentDate) == MonthIndex(old(currentDate)) + direction
    {
      AddMonthsMovesIndex(currentDate, direction);
      currentDate := AddMonths(currentDate, direction);
    }

    method SetViewMode(mode: string)
      modifies this`viewMode
      ensures viewMode == mode
    {
      viewMode := mode;
    }

    /** Clicking a day cell. */
    method SelectDay(day: nat)
      modifies this`selectedDay
      ensures selectedDay == Some(day)
    {
      selectedDay := Some(day);
    }
  }

  /** Back and forth: "previous" undoes "next", and the year rolls over at the ends. */
  method NavigateScenario()
  {
    var page := new Calendar();
    February2026();
    assert page.Cells()[6] == DayCell(1, ScheduledPosts, None);
    page.NavigateMonth(-1);
    page.NavigateMonth(-1);
    assert page.currentDate == Date(2025, 11, 1);
    page.NavigateMonth(1);
    assert page.currentDate == Date(2026, 0, 1);
    page.NavigateMonth(1);
    assert page.currentDate == Date(2026, 1, 1);
  }
}
