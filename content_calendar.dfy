/** The dashboard's calendar widget (frontend/components/ContentCalendar.jsx): a fixed
    date, a table of post counts per day and platform, and `renderDays`, which builds
    the month's cells with two loops. */
module ContentCalendar {
  import opened Common
  import opened Text
  import opened CalendarMath

  datatype PlatformCount = PlatformCount(platform: string, count: nat)

  const ScheduledPosts: map<int, seq<PlatformCount>> := map[
    3 := [PlatformCount("twitter", 2)],
    5 := [PlatformCount("instagram", 1)],
    6 := [PlatformCount("twitter", 1), PlatformCount("linkedin", 2)],
    10 := [PlatformCount("facebook", 1)],
    12 := [PlatformCount("linkedin", 2)],
    14 := [PlatformCount("instagram", 1)],
    18 := [PlatformCount("twitter", 1), PlatformCount("facebook", 1)],
    20 := [PlatformCount("instagram", 1)],
    24 := [PlatformCount("twitter", 3)],
    27 := [PlatformCount("facebook", 1)]]

  /** The widget's `currentDate`, 20 February 2026; it is never changed. */
  const CurrentDate := Date(2026, 1, 20)

  /** One platform's dot: its hover title and the count badge, if any. */
  datatype Dot = Dot(platform: string, title: string, badge: Option<nat>)

  datatype DayCell = Empty | Day(day: nat, isToday: bool, dots: seq<Dot>)

  /** `post.count > 1 && <span>{post.count}</span>`. */
  function Badge(count: nat): (b: Option<nat>)
    ensures b.Some? <==> count > 1
    ensures b.Some? ==> b.value == count
  {
    if count > 1 then Some(count) else None
  }

  function DotFor(p: PlatformCount): Dot
  {
    Dot(p.platform, NatToString(p.count) + " " + p.platform + " post(s)", Badge(p.count))
  }

  /** The dots of a day, one per platform entry, in the table's order. */
  function Dots(entries: seq<PlatformCount>): (ds: seq<Dot>)
    ensures |ds| == |entries|
    ensures forall i :: 0 <= i < |entries| ==> ds[i] == DotFor(entries[i])
  {
    if entries == [] then [] else [DotFor(entries[0])] + Dots(entries[1..])
  }

  /** `scheduledPosts[day] || []`. */
  function EntriesFor(posts: map<int, seq<PlatformCount>>, day: int): (r: seq<PlatformCount>)
    ensures day !in posts ==> r == []
    ensures day in posts ==> r == posts[day]
  {
    if day in posts then posts[day] else []
  }

  /** The cell of day `day` of a month whose "today" is `today`. */
  function CellFor(day: nat, today: int, posts: map<int, seq<PlatformCount>>): DayCell
  {
    Day(day, day == today, Dots(EntriesFor(posts, day)))
  }

  /** `renderDays`: `startDay` empty cells, then one cell per day `1..daysInMonth`.
      Exactly `startDay + daysInMonth` cells; every empty cell comes before every day
      cell; the day cells run upward from 1; "today" is the day of `date`. */
  method RenderDays(date: Date, posts: map<int, seq<PlatformCount>>) returns (days: seq<DayCell>)
    requires date.Valid()
    ensures |days| == GetDaysInMonth(date).1 + GetDaysInMonth(date).0
    ensures forall i :: 0 <= i < GetDaysInMonth(date).1 ==> days[i] == Empty
    ensures forall i :: GetDaysInMonth(date).1 <= i < |days| ==>
              days[i] == CellFor(i - GetDaysInMonth(date).1 + 1, date.day, posts)
  {
    var shape := GetDaysInMonth(date);
    var daysInMonth, startDay, today := shape.0, shape.1, date.day;
    days := [];
    var i := 0;
    while i < startDay
      invariant 0 <= i <= startDay
      invariant |days| == i
      invariant forall k :: 0 <= k < i ==> days[k] == Empty
    {
      days := days + [Empty];
      i := i + 1;
    }
    var day := 1;
    while day <= daysInMonth
      invariant 1 <= day <= daysInMonth + 1
      invariant |days| == startDay + day - 1
      invariant forall k :: 0 <= k < startDay ==> days[k] == Empty
      invariant forall k :: startDay <= k < |days| ==> days[k] == CellFor(k - startDay + 1, today, posts)
    {
      var cell := CellFor(day, today, posts);
      assert cell == CellFor((startDay + day - 1) - startDay + 1, today, posts);
      days := days + [cell];
      day := day + 1;
    }
  }

  /** The widget as shown: February 2026 has 28 cells after six empty ones, and the
      20th is today, with one Instagram dot and no badge. */
  method WidgetScenario()
  {
    February2026();
    var days := RenderDays(CurrentDate, ScheduledPosts);
    assert |days| == 34;
    assert days[5] == Empty && days[6].day == 1;
    assert days[25] == CellFor(20, 20, ScheduledPosts);
    assert days[25].isToday;
    assert days[25].dots[0].badge == None;
  }
}
