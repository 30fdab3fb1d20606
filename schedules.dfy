/**
 * Blocking schedules and the time-window test of background.js
 * (`isBlockingTimeActive`), with times of day in minutes since midnight.
 */
module Schedules {
  import opened Strings
  import opened Helpers

  /** A stored blocking schedule; `startTime`/`endTime` are "HH:MM" strings. */
  datatype Schedule = Schedule(
    name: string,
    startTime: string,
    endTime: string,
    days: seq<int>,
    blockedSites: seq<string>,
    active: bool)

  /** The local clock reading the engine consults: `getDay()` (0 = Sunday) and `getHours() * 60 + getMinutes()`. */
  datatype Moment = Moment(weekday: int, minuteOfDay: int)

  predicate ValidMoment(m: Moment) { 0 <= m.weekday < 7 && 0 <= m.minuteOfDay < 1440 }

  /** The window test: inclusive on both ends; when start > end the window wraps past midnight. */
  predicate InWindow(now: int, start: int, end: int)
  {
    if start <= end then start <= now <= end else now >= start || now <= end
  }

  /** `isBlockingTimeActive(currentTime, schedule)`. */
  predicate IsBlockingTimeActive(m: Moment, s: Schedule)
  {
    m.weekday in s.days && InWindow(m.minuteOfDay, ParseTime(s.startTime), ParseTime(s.endTime))
  }

  /** An overnight window is everything except the open gap between its end and its start. */
  lemma OvernightIsComplementOfGap(now: int, start: int, end: int)
    requires start > end
    ensures InWindow(now, start, end) <==> !(end < now < start)
  {}

  /** Equal start and end make a one-minute window, not a full day. */
  lemma EqualEndsIsOneMinute(now: int, t: int)
    ensures InWindow(now, t, t) <==> now == t
  {}

  /** A window that wraps exactly at midnight ("HH:MM" to the minute before) covers the whole day. */
  lemma AdjacentEndsCoverDay(now: int, start: int)
    requires 0 < start < 1440 && 0 <= now < 1440
    ensures InWindow(now, start, start - 1)
  {}

  /** Minutes of the day inside a window. */
  function WindowMinutes(start: int, end: int): set<int>
  {
    set now | 0 <= now < 1440 && InWindow(now, start, end)
  }

  function Range(lo: int, hi: int): (r: set<int>)
    requires lo <= hi
    ensures |r| == hi - lo
    ensures forall x :: x in r <==> lo <= x < hi
    decreases hi - lo
  {
    if lo == hi then {} else Range(lo, hi - 1) + {hi - 1}
  }

  /**
   * How long a window is: end - start + 1 minutes for a same-day window and
   * 1440 - (start - end - 1) for an overnight one, for clock times in range.
   */
  lemma WindowLength(start: int, end: int)
    requires 0 <= start < 1440 && 0 <= end < 1440
    ensures start <= end ==> |WindowMinutes(start, end)| == end - start + 1
    ensures start > end ==> |WindowMinutes(start, end)| == 1440 - (start - end - 1)
  {
    if start <= end {
      assert WindowMinutes(start, end) == Range(start, end + 1);
    } else {
      var a, b := Range(0, end + 1), Range(start, 1440);
      assert WindowMinutes(start, end) == a + b;
      assert a * b == {};
      assert |a + b| == |a| + |b|;
    }
  }

  lemma Clock0900() ensures ParseTime("09:00") == 540
  {
    ParseTimeOfClock(9, 0);
    assert Pad2(9) + ":" + Pad2(0) == "09:00";
  }

  lemma Clock1700() ensures ParseTime("17:00") == 1020
  {
    ParseTimeOfClock(17, 0);
    assert Pad2(17) + ":" + Pad2(0) == "17:00";
  }

  lemma Clock2200() ensures ParseTime("22:00") == 1320
  {
    ParseTimeOfClock(22, 0);
    assert Pad2(22) + ":" + Pad2(0) == "22:00";
  }

  lemma Clock0600() ensures ParseTime("06:00") == 360
  {
    ParseTimeOfClock(6, 0);
    assert Pad2(6) + ":" + Pad2(0) == "06:00";
  }

  /** A weekday 09:00-17:00 schedule: on at 14:30 on Monday, off at 08:30 and on Saturday. */
  lemma WorkHoursScenario(sites: seq<string>)
    ensures var s := Schedule("Work Hours", "09:00", "17:00", [0, 1, 2, 3, 4], sites, true);
      IsBlockingTimeActive(Moment(1, 14 * 60 + 30), s)
      && !IsBlockingTimeActive(Moment(1, 8 * 60 + 30), s)
      && !IsBlockingTimeActive(Moment(6, 14 * 60 + 30), s)
  {
    var s := Schedule("Work Hours", "09:00", "17:00", [0, 1, 2, 3, 4], sites, true);
    assert 1 in s.days by {
      assert s.days[1] == 1;
    }
    assert 6 !in s.days;
    assert ParseTime(s.startTime) == 540 && ParseTime(s.endTime) == 1020 by {
      Clock0900();
      Clock1700();
    }
  }

  /** A 22:00-06:00 schedule on every day: on at 23:30 and 05:30, off at noon. */
  lemma OvernightScenario(sites: seq<string>)
    ensures var s := Schedule("Night Ban", "22:00", "06:00", [0, 1, 2, 3, 4, 5, 6], sites, true);
      IsBlockingTimeActive(Moment(1, 23 * 60 + 30), s)
      && IsBlockingTimeActive(Moment(2, 5 * 60 + 30), s)
      && !IsBlockingTimeActive(Moment(2, 12 * 60), s)
  {
    Clock2200();
    Clock0600();
  }
}
