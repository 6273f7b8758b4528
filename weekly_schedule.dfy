/**
 * The weekly schedule widget of components/WeeklySchedule.tsx: four
 * platforms with a week of placeholder days each, a three-day window that
 * scrolls over the active platform's days, platform selection, and editing
 * one day's title and summary.
 *
 * Dates are day numbers (days since some epoch), so `addDays(today, i)` is
 * `today + i`; date-fns' `format(date, 'EEE dd MMM')` is the parameter
 * `formatDate`.
 */
module WeeklySchedule {

  datatype ScheduleDay = ScheduleDay(date: int, title: string, summary: string)

  datatype PlatformId = Facebook | YouTube | Instagram | LinkedIn

  datatype PlatformSchedule = PlatformSchedule(
    id: PlatformId, name: string, hasNotification: bool, days: seq<ScheduleDay>)

  const DaysPerWeek := 7
  /** How many days the widget shows at once. */
  const WindowSize := 3
  const Placeholder := "Lorem ipsum hikni walium Lorem ipsum hikni walium"

  /** generateWeekSchedule: seven days from today, each titled after its date. */
  function GenerateWeekSchedule(today: int, formatDate: int -> string): (r: seq<ScheduleDay>)
    ensures |r| == DaysPerWeek
    ensures forall i :: 0 <= i < |r| ==>
      r[i].date == today + i && r[i].title == "Event for " + formatDate(today + i) && r[i].summary == Placeholder
  {
    seq(DaysPerWeek, i requires 0 <= i < DaysPerWeek => ScheduleDay(today + i, "Event for " + formatDate(today + i), Placeholder))
  }

  /** The initial platform list, each with its own freshly generated week. */
  function InitialPlatforms(today: int, formatDate: int -> string): seq<PlatformSchedule> {
    [ PlatformSchedule(Facebook, "Facebook", true, GenerateWeekSchedule(today, formatDate)),
      PlatformSchedule(YouTube, "YouTube", false, GenerateWeekSchedule(today, formatDate)),
      PlatformSchedule(Instagram, "Instagram", true, GenerateWeekSchedule(today, formatDate)),
      PlatformSchedule(LinkedIn, "LinkedIn", false, GenerateWeekSchedule(today, formatDate)) ]
  }

  /** A position argument of `Array.prototype.slice`, resolved against a length. */
  function SlicePosition(position: int, length: nat): (r: nat)
    ensures r <= length
    ensures 0 <= position <= length ==> r == position
  {
    if position < 0 then (if length + position < 0 then 0 else length + position)
    else if position > length then length
    else position
  }

  /** `s.slice(start, end)`: negative positions count from the end, both are clamped. */
  function Slice<T>(s: seq<T>, start: int, end: int): (r: seq<T>)
    ensures |r| <= |s|
  {
    var from, to := SlicePosition(start, |s|), SlicePosition(end, |s|);
    if to <= from then [] else s[from..to]
  }

  /** visibleDays: the (at most) three days from the window's first index. */
  function VisibleDays(days: seq<ScheduleDay>, visibleDayIndex: int): seq<ScheduleDay> {
    Slice(days, visibleDayIndex, visibleDayIndex + WindowSize)
  }

  /**
   * From a non-negative index the window is the days from that index on,
   * never more than three; it is exactly three whenever three days remain.
   */
  lemma VisibleDaysWindow(days: seq<ScheduleDay>, visibleDayIndex: int)
    requires visibleDayIndex >= 0
    ensures |VisibleDays(days, visibleDayIndex)| <= WindowSize
    ensures visibleDayIndex + WindowSize <= |days| ==>
      VisibleDays(days, visibleDayIndex) == days[visibleDayIndex..visibleDayIndex + WindowSize]
    ensures visibleDayIndex <= |days| ==>
      VisibleDays(days, visibleDayIndex) == days[visibleDayIndex..if visibleDayIndex + WindowSize <= |days| then visibleDayIndex + WindowSize else |days|]
    ensures visibleDayIndex >= |days| ==> VisibleDays(days, visibleDayIndex) == []
  {
  }

  /** A platform's days with day `dayIndex` given a new title and summary. */
  function WithDayContent(p: PlatformSchedule, dayIndex: nat, title: string, summary: string): (r: PlatformSchedule)
    requires dayIndex < |p.days|
    ensures r.id == p.id && r.name == p.name && r.hasNotification == p.hasNotification
    ensures |r.days| == |p.days|
    ensures r.days[dayIndex] == p.days[dayIndex].(title := title, summary := summary)
    ensures forall j :: 0 <= j < |p.days| && j != dayIndex ==> r.days[j] == p.days[j]
  {
    p.(days := p.days[dayIndex := p.days[dayIndex].(title := title, summary := summary)])
  }

  /** The widget's state: the platform list, the active platform and the window's first index. */
  class ScheduleView {
    var platforms: seq<PlatformSchedule>
    var activePlatform: PlatformSchedule
    var visibleDayIndex: int

    /**
     * Four platforms with distinct ids and a week each; the active platform
     * is one of them, and the window always shows three of its days.
     */
    predicate Valid()
      reads this
    {
      && |platforms| == 4
      && (forall i, j :: 0 <= i < j < |platforms| ==> platforms[i].id != platforms[j].id)
      && (forall i :: 0 <= i < |platforms| ==> |platforms[i].days| == DaysPerWeek)
      && activePlatform in platforms
      && 0 <= visibleDayIndex <= DaysPerWeek - WindowSize
    }

    /** The widget as mounted: Facebook active, the window at today. */
    constructor (today: int, formatDate: int -> string)
      ensures Valid()
      ensures platforms == InitialPlatforms(today, formatDate)
      ensures activePlatform == platforms[0] && visibleDayIndex == 0
    {
      platforms := InitialPlatforms(today, formatDate);
      activePlatform := InitialPlatforms(today, formatDate)[0];
      visibleDayIndex := 0;
    }

    function Visible(): seq<ScheduleDay>
      reads this
    {
      VisibleDays(activePlatform.days, visibleDayIndex)
    }

    /** handleScrollUp: one day earlier, unless the window is at the first day. */
    method ScrollUp()
      requires Valid()
      modifies this`visibleDayIndex
      ensures Valid()
      ensures visibleDayIndex == if old(visibleDayIndex) > 0 then old(visibleDayIndex) - 1 else old(visibleDayIndex)
      ensures |Visible()| == WindowSize
    {
      if visibleDayIndex > 0 {
        visibleDayIndex := visibleDayIndex - 1;
      }
      ActiveHasAWeek();
      VisibleDaysWindow(activePlatform.days, visibleDayIndex);
    }

    /** handleScrollDown: one day later, unless the window already shows the last day. */
    method ScrollDown()
      requires Valid()
      modifies this`visibleDayIndex
      ensures Valid()
      ensures visibleDayIndex ==
        if old(visibleDayIndex) < |activePlatform.days| - WindowSize then old(visibleDayIndex) + 1 else old(visibleDayIndex)
      ensures |Visible()| == WindowSize
    {
      ActiveHasAWeek();
      if visibleDayIndex < |activePlatform.days| - WindowSize {
        visibleDayIndex := visibleDayIndex + 1;
      }
      VisibleDaysWindow(activePlatform.days, visibleDayIndex);
    }

    /** The active platform, being one of the list, has a full week. */
    lemma ActiveHasAWeek()
      requires Valid()
      ensures |activePlatform.days| == DaysPerWeek
    {
      var k :| 0 <= k < |platforms| && platforms[k] == activePlatform;
    }

    /** handlePlatformSelect, called with one of the listed platforms: it becomes active and the window returns to the first day. */
    method SelectPlatform(k: nat)
      requires Valid() && k < |platforms|
      modifies this`activePlatform, this`visibleDayIndex
      ensures Valid()
      ensures activePlatform == platforms[k] && visibleDayIndex == 0
      ensures Visible() == platforms[k].days[..WindowSize]
    {
      activePlatform := platforms[k];
      visibleDayIndex := 0;
      VisibleDaysWindow(activePlatform.days, 0);
    }

    /** `platforms.findIndex(p => p.id === id)`: the first position with that id, or -1. */
    method FindPlatform(id: PlatformId) returns (k: int)
      ensures -1 <= k < |platforms|
      ensures k == -1 <==> forall j :: 0 <= j < |platforms| ==> platforms[j].id != id
      ensures k >= 0 ==> platforms[k].id == id && forall j :: 0 <= j < k ==> platforms[j].id != id
    {
      var i := 0;
      while i < |platforms|
        invariant 0 <= i <= |platforms|
        invariant forall j :: 0 <= j < i ==> platforms[j].id != id
      {
        if platforms[i].id == id {
          return i;
        }
        i := i + 1;
      }
      return -1;
    }

    /**
     * updateDayContent: day `dayIndex` of the active platform gets the new
     * title and summary, in the list and in the active platform alike.  An
     * index outside the week makes the assignment throw (`days[dayIndex]` is
     * undefined) before anything changes; `ok` reports which happened.
     */
    method UpdateDayContent(dayIndex: int, title: string, summary: string) returns (ok: bool)
      requires Valid()
      modifies this`platforms, this`activePlatform
      ensures Valid() && visibleDayIndex == old(visibleDayIndex)
      ensures ok <==> 0 <= dayIndex < DaysPerWeek
      ensures !ok ==> platforms == old(platforms) && activePlatform == old(activePlatform)
      ensures ok ==> exists k :: (
        && 0 <= k < |old(platforms)| && old(platforms)[k] == old(activePlatform)
        && platforms == old(platforms)[k := WithDayContent(old(activePlatform), dayIndex, title, summary)]
        && activePlatform == platforms[k])
    {
      var k := FindPlatform(activePlatform.id);
      assert k >= 0 by {
        var m :| 0 <= m < |platforms| && platforms[m] == activePlatform;
      }
      ActiveHasAWeek();
      if !(0 <= dayIndex < |platforms[k].days|) {
        return false;
      }
      assert platforms[k] == activePlatform by {
        var m :| 0 <= m < |platforms| && platforms[m] == activePlatform;
        assert m == k;
      }
      var updated := WithDayContent(platforms[k], dayIndex, title, summary);
      platforms := platforms[k := updated];
      activePlatform := platforms[k];
      return true;
    }
  }
}
