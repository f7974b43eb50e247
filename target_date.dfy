/** `get_target_date` and the defaulted ranking window of
    `fetch_sorter_rank_data`: from 18:00 on, the collector asks for the next
    day's data. The clock is a parameter: `hour` is the current hour, `today`
    the current date as a day number, and `fmt` renders a day number as
    `YYYY-MM-DD`. */
module TargetDate {
  import opened Api

  const CutoffHour := 18

  /** The day number asked for, `offsetDays` days after the current one, or
      one more from the cutoff hour on. */
  function TargetDay(hour: int, today: int, offsetDays: int): (d: int)
    ensures today + offsetDays <= d <= today + offsetDays + 1
    ensures d == today + offsetDays + 1 <==> hour >= CutoffHour
  {
    if hour >= CutoffHour then today + offsetDays + 1 else today + offsetDays
  }

  /** The target date is the date of the moment six hours from now (the
      cutoff moves midnight to 18:00), shifted by the offset. */
  lemma TargetDayIsSixHoursAhead(hour: int, today: int, offsetDays: int)
    requires 0 <= hour < 24
    ensures TargetDay(hour, today, offsetDays) == (today * 24 + hour + 6) / 24 + offsetDays
  {
  }

  /** As the clock moves forward the target date never moves back, and it is
      never more than one day past the current date plus the offset. */
  lemma TargetDayMonotone(h1: int, d1: int, h2: int, d2: int, offsetDays: int)
    requires 0 <= h1 < 24 && 0 <= h2 < 24
    requires d1 * 24 + h1 <= d2 * 24 + h2
    ensures TargetDay(h1, d1, offsetDays) <= TargetDay(h2, d2, offsetDays)
    ensures d1 + offsetDays <= TargetDay(h1, d1, offsetDays) <= d1 + offsetDays + 1
  {
  }

  const MidnightSuffix := " 00:00:00"

  /** The `target_date` parameter: the target day followed by a midnight
      time of day. */
  function TargetDateText(hour: int, today: int, offsetDays: int, fmt: int -> string): (r: string)
    ensures |r| >= |MidnightSuffix|
    ensures r[|r| - |MidnightSuffix|..] == MidnightSuffix
    ensures r[..|r| - |MidnightSuffix|] == fmt(TargetDay(hour, today, offsetDays))
  {
    fmt(TargetDay(hour, today, offsetDays)) + MidnightSuffix
  }

  /** `fetch_data`'s target date: the caller's, or `get_target_date()`. */
  function ProgressTarget(given: Option<string>, hour: int, today: int, fmt: int -> string): string {
    if given.Some? then given.value else TargetDateText(hour, today, 0, fmt)
  }

  const WindowStartSuffix := " 05:00"
  const WindowEndSuffix := " 09:00"

  /** `fetch_sorter_rank_data`'s window: both given bounds unchanged, or, when
      either is missing, 05:00 to 09:00 of the day `get_target_date()` would
      name (a single given bound is discarded). */
  function RankWindow(start: Option<string>, end: Option<string>, hour: int, today: int, fmt: int -> string): (w: Window)
    ensures start.Some? && end.Some? ==> w == Window(start.value, end.value)
  {
    if start.None? || end.None? then
      var date := fmt(TargetDay(hour, today, 0));
      Window(date + WindowStartSuffix, date + WindowEndSuffix)
    else Window(start.value, end.value)
  }

  /** A defaulted ranking window lies on the same date as the progress data
      fetched at the same moment, and runs from 05:00 to 09:00. */
  lemma RankWindowMatchesTargetDate(start: Option<string>, end: Option<string>, hour: int, today: int, fmt: int -> string)
    requires start.None? || end.None?
    ensures var w := RankWindow(start, end, hour, today, fmt);
      var t := ProgressTarget(None, hour, today, fmt);
      var date := t[..|t| - |MidnightSuffix|];
      w.cycleStart == date + WindowStartSuffix && w.cycleEnd == date + WindowEndSuffix
  {
  }
}
