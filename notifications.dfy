/**
 * The service worker's notification scheduler (background.js): the per-minute
 * schedule notices with their per-day de-duplication store, the pruning of
 * that store, the daily reminder alarm, the deadline reminder alarms and the
 * deadline chosen for the daily reminder.
 */
module Notifications {
  import opened Wrappers
  import opened Strings
  import opened Helpers
  import opened Schedules
  import opened Goals

  // ------------------------------------------------------ schedule notices

  datatype NoticeKind = StartingSoon | Started | Ended

  /** A notification `sendScheduleNotification(name, type)` is asked to show. */
  datatype Notice = Notice(scheduleName: string, kind: NoticeKind)

  function KindSuffix(k: NoticeKind): string
  {
    match k
    case StartingSoon => "_starting_soon"
    case Started => "_started"
    case Ended => "_ended"
  }

  /** The de-duplication key: the name with each white-space run made `_`, then the type. */
  function NoticeKey(name: string, k: NoticeKind): string
  {
    CollapseSpaces(name) + KindSuffix(k)
  }

  function Key(n: Notice): string { NoticeKey(n.scheduleName, n.kind) }

  /** The key names its notice type: the three keys of one schedule never collide. */
  lemma NoticeKeyDeterminesKind(a: string, ka: NoticeKind, b: string, kb: NoticeKind)
    requires NoticeKey(a, ka) == NoticeKey(b, kb)
    ensures ka == kb
  {
    var key := NoticeKey(a, ka);
    var tailA := KindSuffix(ka)[|KindSuffix(ka)| - 3..];
    var tailB := KindSuffix(kb)[|KindSuffix(kb)| - 3..];
    assert key[|key| - 3..] == tailA;
    assert key[|key| - 3..] == tailB;
    assert tailA[0] == tailB[0];
  }

  /** Schedules whose names differ only in white-space runs share their keys, so one suppresses the other. */
  lemma SpacingSharesKey(a: string, b: string, k: NoticeKind)
    requires CollapseSpaces(a) == CollapseSpaces(b)
    ensures NoticeKey(a, k) == NoticeKey(b, k)
  {}

  /**
   * The minute of day at which a notice of kind `k` is due. On an overnight
   * schedule the code computes `scheduleEndTime = end + 1440` but compares
   * with the raw end, as it does on a same-day schedule.
   */
  function Mark(s: Schedule, k: NoticeKind): int
  {
    var start := ParseTime(s.startTime);
    var end := ParseTime(s.endTime);
    match k
    case StartingSoon => start - 5
    case Started => start
    case Ended =>
      var scheduleEndTime := if start > end then end + 24 * 60 else end;
      if start > end then end else scheduleEndTime
  }

  /** The end notice is due at the parsed end time on every schedule, overnight or not. */
  lemma EndMarkIsRawEnd(s: Schedule)
    ensures Mark(s, Ended) == ParseTime(s.endTime)
  {}

  /** A schedule starting before 00:05 has a negative warning mark, which no clock minute reaches. */
  lemma EarlyStartHasNoWarning(s: Schedule, minute: int)
    requires ParseTime(s.startTime) < 5 && 0 <= minute
    ensures Mark(s, StartingSoon) != minute
  {}

  /** A notice of kind `k` is due for `s` at `minute`. */
  predicate Due(s: Schedule, k: NoticeKind, minute: int)
  {
    s.active && minute == Mark(s, k)
  }

  /** The notices one poll shows and today's key set after it. */
  datatype Poll = Poll(fired: seq<Notice>, sent: set<string>)

  /** One `if (currentTime === mark && !sentToday[today][key])` check. */
  function FireKind(s: Schedule, k: NoticeKind, sent: set<string>, minute: int): Poll
  {
    var key := NoticeKey(s.name, k);
    if Due(s, k, minute) && key !in sent then Poll([Notice(s.name, k)], sent + {key})
    else Poll([], sent)
  }

  /** The three checks for one schedule, in the code's order. */
  function FireOne(s: Schedule, sent: set<string>, minute: int): Poll
  {
    var a := FireKind(s, StartingSoon, sent, minute);
    var b := FireKind(s, Started, a.sent, minute);
    var c := FireKind(s, Ended, b.sent, minute);
    Poll(a.fired + b.fired + c.fired, c.sent)
  }

  /** The loop of `checkScheduleNotifications` over the schedules, in list order. */
  function FireAll(schedules: seq<Schedule>, sent: set<string>, minute: int): Poll
    decreases |schedules|
  {
    if schedules == [] then Poll([], sent)
    else
      var p := FireAll(schedules[..|schedules| - 1], sent, minute);
      var q := FireOne(schedules[|schedules| - 1], p.sent, minute);
      Poll(p.fired + q.fired, q.sent)
  }

  function Keys(ns: seq<Notice>): set<string>
  {
    set i | 0 <= i < |ns| :: Key(ns[i])
  }

  /**
   * A poll that started from the key set `before` showed only notices whose
   * keys were not yet set, no key twice, and recorded exactly those keys.
   */
  predicate Recorded(before: set<string>, p: Poll)
  {
    && p.sent == before + Keys(p.fired)
    && (forall i :: 0 <= i < |p.fired| ==> Key(p.fired[i]) !in before)
    && (forall i, j :: 0 <= i < j < |p.fired| ==> Key(p.fired[i]) != Key(p.fired[j]))
  }

  lemma KeysConcat(a: seq<Notice>, b: seq<Notice>)
    ensures Keys(a + b) == Keys(a) + Keys(b)
  {
    var f := a + b;
    forall x | x in Keys(f) ensures x in Keys(a) + Keys(b) {
      var i :| 0 <= i < |f| && Key(f[i]) == x;
      if i >= |a| { assert f[i] == b[i - |a|]; }
    }
    forall x | x in Keys(a) + Keys(b) ensures x in Keys(f) {
      if x in Keys(a) {
        var i :| 0 <= i < |a| && Key(a[i]) == x;
        assert f[i] == a[i];
      } else {
        var i :| 0 <= i < |b| && Key(b[i]) == x;
        assert f[|a| + i] == b[i];
      }
    }
  }

  lemma FreshCompose(before: set<string>, p: Poll, q: Poll)
    requires Recorded(before, p) && Recorded(p.sent, q)
    ensures forall i :: 0 <= i < |p.fired + q.fired| ==> Key((p.fired + q.fired)[i]) !in before
  {
    var f := p.fired + q.fired;
    forall i | 0 <= i < |f| ensures Key(f[i]) !in before {
      if i >= |p.fired| { assert f[i] == q.fired[i - |p.fired|]; }
    }
  }

  lemma DistinctCompose(before: set<string>, p: Poll, q: Poll)
    requires Recorded(before, p) && Recorded(p.sent, q)
    ensures forall i, j :: 0 <= i < j < |p.fired + q.fired| ==> Key((p.fired + q.fired)[i]) != Key((p.fired + q.fired)[j])
  {
    var f := p.fired + q.fired;
    forall i, j | 0 <= i < j < |f| ensures Key(f[i]) != Key(f[j]) {
      if j >= |p.fired| && i < |p.fired| {
        assert f[i] == p.fired[i];
        assert Key(p.fired[i]) in Keys(p.fired);
        assert f[j] == q.fired[j - |p.fired|];
      } else if i >= |p.fired| {
        assert f[i] == q.fired[i - |p.fired|] && f[j] == q.fired[j - |p.fired|];
      }
    }
  }

  lemma RecordedCompose(before: set<string>, p: Poll, q: Poll)
    requires Recorded(before, p) && Recorded(p.sent, q)
    ensures Recorded(before, Poll(p.fired + q.fired, q.sent))
  {
    KeysConcat(p.fired, q.fired);
    FreshCompose(before, p, q);
    DistinctCompose(before, p, q);
  }

  lemma FireKindRecorded(s: Schedule, k: NoticeKind, sent: set<string>, minute: int)
    ensures Recorded(sent, FireKind(s, k, sent, minute))
  {
    var p := FireKind(s, k, sent, minute);
    if p.fired != [] {
      assert p.fired == [Notice(s.name, k)];
      assert Keys(p.fired) == {Key(p.fired[0])};
    } else {
      assert Keys(p.fired) == {};
    }
  }

  lemma FireOneRecorded(s: Schedule, sent: set<string>, minute: int)
    ensures Recorded(sent, FireOne(s, sent, minute))
  {
    var a := FireKind(s, StartingSoon, sent, minute);
    var b := FireKind(s, Started, a.sent, minute);
    var c := FireKind(s, Ended, b.sent, minute);
    FireKindRecorded(s, StartingSoon, sent, minute);
    FireKindRecorded(s, Started, a.sent, minute);
    FireKindRecorded(s, Ended, b.sent, minute);
    RecordedCompose(sent, a, b);
    RecordedCompose(sent, Poll(a.fired + b.fired, b.sent), c);
  }

  /**
   * A poll shows each notice at most once, only if its key was not already
   * set today, and afterwards today's keys are the old ones plus those shown.
   */
  lemma {:induction false} FireAllRecorded(schedules: seq<Schedule>, sent: set<string>, minute: int)
    ensures Recorded(sent, FireAll(schedules, sent, minute))
    decreases |schedules|
  {
    if schedules != [] {
      var p := FireAll(schedules[..|schedules| - 1], sent, minute);
      FireAllRecorded(schedules[..|schedules| - 1], sent, minute);
      FireOneRecorded(schedules[|schedules| - 1], p.sent, minute);
      RecordedCompose(sent, p, FireOne(schedules[|schedules| - 1], p.sent, minute));
    }
  }

  /** A notice shown by a poll belongs to an active schedule of that name whose mark is this minute. */
  predicate Justified(schedules: seq<Schedule>, n: Notice, minute: int)
  {
    exists j :: 0 <= j < |schedules| && schedules[j].name == n.scheduleName && Due(schedules[j], n.kind, minute)
  }

  lemma FireOneJustified(s: Schedule, sent: set<string>, minute: int)
    ensures var q := FireOne(s, sent, minute);
      forall i :: 0 <= i < |q.fired| ==> q.fired[i].scheduleName == s.name && Due(s, q.fired[i].kind, minute)
  {}

  lemma {:induction false} FireAllJustified(schedules: seq<Schedule>, sent: set<string>, minute: int)
    ensures forall i :: 0 <= i < |FireAll(schedules, sent, minute).fired| ==>
      Justified(schedules, FireAll(schedules, sent, minute).fired[i], minute)
    decreases |schedules|
  {
    if schedules != [] {
      var n := |schedules| - 1;
      var init := schedules[..n];
      var p := FireAll(init, sent, minute);
      FireAllJustified(init, sent, minute);
      assert forall k :: 0 <= k < |p.fired| ==> Justified(init, p.fired[k], minute);
      var q := FireOne(schedules[n], p.sent, minute);
      FireOneJustified(schedules[n], p.sent, minute);
      var f := p.fired + q.fired;
      forall i | 0 <= i < |f| ensures Justified(schedules, f[i], minute) {
        if i < |p.fired| {
          assert f[i] == p.fired[i];
          assert Justified(init, p.fired[i], minute);
          var j :| 0 <= j < |init| && init[j].name == p.fired[i].scheduleName && Due(init[j], p.fired[i].kind, minute);
          assert schedules[j] == init[j];
        } else {
          assert f[i] == q.fired[i - |p.fired|];
        }
      }
    }
  }

  lemma FireOneCovers(s: Schedule, sent: set<string>, minute: int)
    ensures var q := FireOne(s, sent, minute);
      sent <= q.sent && forall k :: Due(s, k, minute) ==> NoticeKey(s.name, k) in q.sent
  {
    FireOneRecorded(s, sent, minute);
  }

  /** Every notice due this minute has its key in `sent`. */
  predicate Covered(schedules: seq<Schedule>, sent: set<string>, minute: int)
  {
    forall j, k :: 0 <= j < |schedules| && Due(schedules[j], k, minute) ==> NoticeKey(schedules[j].name, k) in sent
  }

  lemma CoveredExtend(init: seq<Schedule>, last: Schedule, sent: set<string>, minute: int)
    requires Covered(init, sent, minute)
    requires forall k :: Due(last, k, minute) ==> NoticeKey(last.name, k) in sent
    ensures Covered(init + [last], sent, minute)
  {
    var all := init + [last];
    forall j, k | 0 <= j < |all| && Due(all[j], k, minute) ensures NoticeKey(all[j].name, k) in sent {
      if j < |init| { assert all[j] == init[j]; }
    }
  }

  lemma CoveredGrow(schedules: seq<Schedule>, sent: set<string>, more: set<string>, minute: int)
    requires Covered(schedules, sent, minute) && sent <= more
    ensures Covered(schedules, more, minute)
  {}

  /** After a poll, every notice due this minute has its key set: shown now or earlier today. */
  lemma {:induction false} FireAllCovers(schedules: seq<Schedule>, sent: set<string>, minute: int)
    ensures Covered(schedules, FireAll(schedules, sent, minute).sent, minute)
    decreases |schedules|
  {
    if schedules != [] {
      var init := schedules[..|schedules| - 1];
      var last := schedules[|schedules| - 1];
      FireAllCovers(init, sent, minute);
      var p := FireAll(init, sent, minute);
      FireOneCovers(last, p.sent, minute);
      var q := FireOne(last, p.sent, minute);
      CoveredGrow(init, p.sent, q.sent, minute);
      CoveredExtend(init, last, q.sent, minute);
      assert init + [last] == schedules;
    }
  }

  /** With every due key already set, a poll shows nothing and changes nothing. */
  lemma {:induction false} AllSentFiresNothing(schedules: seq<Schedule>, sent: set<string>, minute: int)
    requires Covered(schedules, sent, minute)
    ensures FireAll(schedules, sent, minute) == Poll([], sent)
    decreases |schedules|
  {
    if schedules != [] {
      var init := schedules[..|schedules| - 1];
      forall j, k | 0 <= j < |init| && Due(init[j], k, minute) ensures NoticeKey(init[j].name, k) in sent {
        assert init[j] == schedules[j];
      }
      AllSentFiresNothing(init, sent, minute);
      var last := schedules[|schedules| - 1];
      assert forall k :: Due(last, k, minute) ==> NoticeKey(last.name, k) in sent;
    }
  }

  /** A second poll in the same minute, on the store the first one left, shows nothing. */
  lemma SecondPollSameMinuteIsSilent(schedules: seq<Schedule>, sent: set<string>, minute: int)
    ensures var p := FireAll(schedules, sent, minute);
      FireAll(schedules, p.sent, minute) == Poll([], p.sent)
  {
    FireAllCovers(schedules, sent, minute);
    AllSentFiresNothing(schedules, FireAll(schedules, sent, minute).sent, minute);
  }

  /** No warning is ever shown for a schedule list whose every start is before 00:05. */
  lemma EarlyStartsNeverWarn(schedules: seq<Schedule>, sent: set<string>, minute: int)
    requires 0 <= minute
    requires forall j :: 0 <= j < |schedules| ==> ParseTime(schedules[j].startTime) < 5
    ensures var p := FireAll(schedules, sent, minute);
      forall i :: 0 <= i < |p.fired| ==> p.fired[i].kind != StartingSoon
  {
    FireAllJustified(schedules, sent, minute);
  }

  /** One poll of the day: the schedule list then, and the clock minute. */
  datatype PollInput = PollInput(schedules: seq<Schedule>, minute: int)

  /** The notices shown by a day's polls, in order, and the key set they leave. */
  function RunDay(polls: seq<PollInput>, sent: set<string>): Poll
    decreases |polls|
  {
    if polls == [] then Poll([], sent)
    else
      var p := RunDay(polls[..|polls| - 1], sent);
      var last := polls[|polls| - 1];
      var q := FireAll(last.schedules, p.sent, last.minute);
      Poll(p.fired + q.fired, q.sent)
  }

  /** Across all of a day's polls, whatever the schedules do meanwhile, no key is shown twice. */
  lemma {:induction false} AtMostOncePerDay(polls: seq<PollInput>, sent: set<string>)
    ensures Recorded(sent, RunDay(polls, sent))
    decreases |polls|
  {
    if polls != [] {
      var p := RunDay(polls[..|polls| - 1], sent);
      var last := polls[|polls| - 1];
      AtMostOncePerDay(polls[..|polls| - 1], sent);
      FireAllRecorded(last.schedules, p.sent, last.minute);
      RecordedCompose(sent, p, FireAll(last.schedules, p.sent, last.minute));
    }
  }

  /** One `if (currentTime === mark && !sentToday[today][key])` block of an active schedule. */
  method CheckMark(s: Schedule, k: NoticeKind, mark: int, firedBefore: seq<Notice>, sentBefore: set<string>, minute: int)
    returns (fired: seq<Notice>, sentAfter: set<string>)
    requires s.active && mark == Mark(s, k)
    ensures var q := FireKind(s, k, sentBefore, minute);
      fired == firedBefore + q.fired && sentAfter == q.sent
  {
    fired, sentAfter := firedBefore, sentBefore;
    var key := NoticeKey(s.name, k);
    if minute == mark && key !in sentAfter {
      fired := fired + [Notice(s.name, k)];
      sentAfter := sentAfter + {key};
    }
  }

  /** The body of the `checkScheduleNotifications` loop for an active schedule: its three checks in order. */
  method CheckSchedule(s: Schedule, firedBefore: seq<Notice>, sentBefore: set<string>, minute: int)
    returns (fired: seq<Notice>, sentAfter: set<string>)
    requires s.active
    ensures var q := FireOne(s, sentBefore, minute);
      fired == firedBefore + q.fired && sentAfter == q.sent
  {
    fired, sentAfter := firedBefore, sentBefore;
    var startTime: int := ParseTime(s.startTime);
    var endTime: int := ParseTime(s.endTime);
    fired, sentAfter := CheckMark(s, StartingSoon, startTime - 5, fired, sentAfter, minute);
    fired, sentAfter := CheckMark(s, Started, startTime, fired, sentAfter, minute);
    var scheduleEndTime := endTime;
    if startTime > endTime {
      scheduleEndTime := endTime + 24 * 60;
    }
    // the overnight branch compares with the raw end, the other with `scheduleEndTime`, which then equals it
    var endMark := if startTime > endTime then endTime else scheduleEndTime;
    fired, sentAfter := CheckMark(s, Ended, endMark, fired, sentAfter, minute);
  }

  /** The imperative loop of `checkScheduleNotifications` over one day's key set. */
  method RunSchedulePoll(schedules: seq<Schedule>, sent: set<string>, minute: int) returns (fired: seq<Notice>, sentAfter: set<string>)
    ensures Poll(fired, sentAfter) == FireAll(schedules, sent, minute)
    ensures Recorded(sent, Poll(fired, sentAfter))
  {
    fired := [];
    sentAfter := sent;
    var i := 0;
    while i < |schedules|
      invariant 0 <= i <= |schedules|
      invariant Poll(fired, sentAfter) == FireAll(schedules[..i], sent, minute)
    {
      assert schedules[..i + 1][..i] == schedules[..i];
      if schedules[i].active {
        fired, sentAfter := CheckSchedule(schedules[i], fired, sentAfter, minute);
      } else {
        assert fired + [] == fired;
      }
      i := i + 1;
    }
    assert schedules[..i] == schedules;
    FireAllRecorded(schedules, sent, minute);
  }

  /** The whole store after a poll: today's entry (created if missing) holds the poll's key set. */
  function StoreAfterPoll(store: map<string, set<string>>, today: string, schedules: seq<Schedule>, minute: int): (r: map<string, set<string>>)
    ensures r.Keys == store.Keys + {today}
    ensures forall d :: d in store && d != today ==> r[d] == store[d]
    ensures var before := if today in store then store[today] else {};
      Recorded(before, Poll(FireAll(schedules, before, minute).fired, r[today]))
  {
    var before := if today in store then store[today] else {};
    FireAllRecorded(schedules, before, minute);
    store[today := FireAll(schedules, before, minute).sent]
  }

  /** The pruning in `cleanupCompletedGoals`: keep only today's and yesterday's key sets. */
  function PruneSent(store: map<string, set<string>>, today: string, yesterday: string): (r: map<string, set<string>>)
    ensures r.Keys == store.Keys * {today, yesterday}
    ensures forall d :: d in r ==> r[d] == store[d]
  {
    map d | d in store && (d == today || d == yesterday) :: store[d]
  }

  /** Pruning never lets a notice already shown today be shown again. */
  lemma PruneKeepsToday(store: map<string, set<string>>, today: string, yesterday: string, schedules: seq<Schedule>, minute: int)
    ensures StoreAfterPoll(PruneSent(store, today, yesterday), today, schedules, minute)[today]
         == StoreAfterPoll(store, today, schedules, minute)[today]
  {}

  // ----------------------------------------------------- reminder alarms

  /** The local midnight starting the day that contains `t`, for a fixed offset in ms (no daylight saving). */
  function LocalMidnight(t: int, tzOffset: int): (r: int)
    ensures r <= t < r + DayMs
    ensures (r + tzOffset) % DayMs == 0
  {
    t - (t + tzOffset) % DayMs
  }

  const MinuteMs := 60000

  /** `timeString.split(':').map(Number)` as minutes of day; none when a part is missing or not a number. */
  function ClockMinutes(timeString: string): (r: Option<nat>)
    ensures r.Some? <==> (var parts := Split(timeString, ':');
      |parts| >= 2 && NumberOfPart(parts[0]).Some? && NumberOfPart(parts[1]).Some?)
  {
    var parts := Split(timeString, ':');
    if |parts| < 2 then None
    else match (NumberOfPart(parts[0]), NumberOfPart(parts[1]))
      case (Some(h), Some(m)) => Some(h * 60 + m)
      case _ => None
  }

  /** `result.notificationTime || '09:00'`. */
  function NotificationTimeOrDefault(stored: string): string
  {
    if stored == "" then "09:00" else stored
  }

  /**
   * `getNextReminderTime(timeString)`: today's instant at that clock time, or
   * the same clock time tomorrow when today's has passed (a `NaN` time gives none).
   */
  function GetNextReminderTime(timeString: string, now: int, tzOffset: int): (r: Option<int>)
    ensures r.Some? <==> ClockMinutes(timeString).Some?
    ensures r.Some? ==> now < r.value
    ensures r.Some? && ClockMinutes(timeString).value < 1440 ==>
      r.value <= now + DayMs && (r.value + tzOffset) % DayMs == ClockMinutes(timeString).value * MinuteMs
  {
    match ClockMinutes(timeString)
    case None => None
    case Some(minutes) =>
      var today := LocalMidnight(now, tzOffset) + minutes * MinuteMs;
      if today <= now then Some(today + DayMs) else Some(today)
  }

  /** Of two instants showing the same local clock time, the later lies a whole day or more after the earlier. */
  lemma SameClockApart(a: int, b: int, tzOffset: int)
    requires (a + tzOffset) % DayMs == (b + tzOffset) % DayMs
    requires a - DayMs < b
    ensures a <= b
  {
    var x := a + tzOffset;
    var y := b + tzOffset;
    assert x == DayMs * (x / DayMs) + x % DayMs;
    assert y == DayMs * (y / DayMs) + y % DayMs;
  }

  /** The daily reminder is the first instant after now that shows the chosen clock time. */
  lemma NextReminderIsEarliest(timeString: string, now: int, tzOffset: int, t: int)
    requires ClockMinutes(timeString).Some? && ClockMinutes(timeString).value < 1440
    requires now < t && (t + tzOffset) % DayMs == ClockMinutes(timeString).value * MinuteMs
    ensures GetNextReminderTime(timeString, now, tzOffset).value <= t
  {
    var r := GetNextReminderTime(timeString, now, tzOffset).value;
    SameClockApart(r, t, tzOffset);
  }

  const NineAmMs := 9 * 60 * MinuteMs

  /** `reminderTime.setHours(9, 0, 0, 0)` on the deadline's local day. */
  function ReminderAt(deadline: int, tzOffset: int): (r: int)
    ensures LocalMidnight(r, tzOffset) == LocalMidnight(deadline, tzOffset)
    ensures (r + tzOffset) % DayMs == NineAmMs
  {
    var midnight := LocalMidnight(deadline, tzOffset);
    ModShift(midnight + tzOffset, NineAmMs);
    midnight + NineAmMs
  }

  lemma ModShift(x: int, c: int)
    requires x % DayMs == 0 && 0 <= c < DayMs
    ensures (x + c) % DayMs == c
  {
    assert x == DayMs * (x / DayMs);
    assert x + c == DayMs * (x / DayMs) + c;
  }

  /** The goals for which `setupDeadlineReminders` creates an alarm. */
  predicate ReminderDue(g: Goal, now: int, tzOffset: int)
  {
    g.deadline.Some? && !g.completed && g.deadline.value > now && ReminderAt(g.deadline.value, tzOffset) > now
  }

  /** `chrome.alarms.create('deadlineReminder_<index>', { when })`. */
  datatype Alarm = Alarm(goalIndex: nat, when: int)

  /** `setupDeadlineReminders(goals)`: one alarm per due goal, at 9:00 on its deadline day. */
  method SetupDeadlineReminders(goals: seq<Goal>, now: int, tzOffset: int) returns (alarms: seq<Alarm>)
    ensures forall j :: 0 <= j < |alarms| ==>
      alarms[j].goalIndex < |goals| && ReminderDue(goals[alarms[j].goalIndex], now, tzOffset)
      && alarms[j].when == ReminderAt(goals[alarms[j].goalIndex].deadline.value, tzOffset)
      && alarms[j].when > now
    ensures forall j, k :: 0 <= j < k < |alarms| ==> alarms[j].goalIndex < alarms[k].goalIndex
    ensures forall i :: 0 <= i < |goals| && ReminderDue(goals[i], now, tzOffset) ==>
      exists j :: 0 <= j < |alarms| && alarms[j].goalIndex == i
  {
    alarms := [];
    var i := 0;
    while i < |goals|
      invariant 0 <= i <= |goals|
      invariant forall j :: 0 <= j < |alarms| ==>
        alarms[j].goalIndex < i && ReminderDue(goals[alarms[j].goalIndex], now, tzOffset)
        && alarms[j].when == ReminderAt(goals[alarms[j].goalIndex].deadline.value, tzOffset)
      invariant forall j, k :: 0 <= j < k < |alarms| ==> alarms[j].goalIndex < alarms[k].goalIndex
      invariant forall n :: 0 <= n < i && ReminderDue(goals[n], now, tzOffset) ==>
        exists j :: 0 <= j < |alarms| && alarms[j].goalIndex == n
    {
      var goal := goals[i];
      if goal.deadline.Some? && !goal.completed {
        if goal.deadline.value > now {
          var reminderTime := LocalMidnight(goal.deadline.value, tzOffset) + NineAmMs;
          if reminderTime > now {
            ghost var prev := alarms;
            alarms := alarms + [Alarm(i, reminderTime)];
            assert forall j :: 0 <= j < |prev| ==> alarms[j] == prev[j];
            assert alarms[|alarms| - 1].goalIndex == i;
          }
        }
      }
      i := i + 1;
    }
  }

  // ------------------------------------------------ daily reminder deadline

  /** An open goal whose deadline is `0..maxDays` days away (rounded up). */
  predicate DueWithin(g: Goal, now: int, maxDays: int)
  {
    g.deadline.Some? && !g.completed && 0 <= DaysUntil(g.deadline.value, now) <= maxDays
  }

  /** `goals.filter(...)[0]`: the first goal due within `maxDays`. */
  function FirstDueWithin(goals: seq<Goal>, now: int, maxDays: int): (r: Option<nat>)
    ensures r.None? <==> forall i :: 0 <= i < |goals| ==> !DueWithin(goals[i], now, maxDays)
    ensures r.Some? ==> (r.value < |goals| && DueWithin(goals[r.value], now, maxDays)
      && forall i :: 0 <= i < r.value ==> !DueWithin(goals[i], now, maxDays))
  {
    if goals == [] then None
    else if DueWithin(goals[0], now, maxDays) then Some(0)
    else match FirstDueWithin(goals[1..], now, maxDays)
      case None => None
      case Some(j) => Some(j + 1)
  }

  /**
   * `goals.filter(...).sort(by deadline)[0]`: a goal due within `maxDays` with
   * the earliest deadline, the first such in list order since the sort is stable.
   */
  function EarliestDueWithin(goals: seq<Goal>, now: int, maxDays: int): (r: Option<nat>)
    ensures r.None? <==> forall i :: 0 <= i < |goals| ==> !DueWithin(goals[i], now, maxDays)
    ensures r.Some? ==> r.value < |goals| && DueWithin(goals[r.value], now, maxDays)
    ensures r.Some? ==> forall i :: 0 <= i < |goals| && DueWithin(goals[i], now, maxDays) ==>
      goals[r.value].deadline.value <= goals[i].deadline.value
    ensures r.Some? ==> forall i :: 0 <= i < r.value && DueWithin(goals[i], now, maxDays) ==>
      goals[r.value].deadline.value < goals[i].deadline.value
    decreases |goals|
  {
    if goals == [] then None
    else
      var n := |goals| - 1;
      var best := EarliestDueWithin(goals[..n], now, maxDays);
      assert forall i :: 0 <= i < n ==> goals[..n][i] == goals[i];
      if DueWithin(goals[n], now, maxDays) && (best.None? || goals[n].deadline.value < goals[best.value].deadline.value)
      then Some(n)
      else best
  }

  /** The deadline `sendDailyNotification` shows: the first within 7 days, else the earliest within 30. */
  function PickDeadline(goals: seq<Goal>, now: int): (r: Option<nat>)
    ensures r.None? <==> forall i :: 0 <= i < |goals| ==> !DueWithin(goals[i], now, 30)
    ensures r.Some? ==> r.value < |goals| && DueWithin(goals[r.value], now, 30)
    ensures (exists i :: 0 <= i < |goals| && DueWithin(goals[i], now, 7)) ==>
      r.Some? && DueWithin(goals[r.value], now, 7) && forall i :: 0 <= i < r.value ==> !DueWithin(goals[i], now, 7)
    ensures (forall i :: 0 <= i < |goals| ==> !DueWithin(goals[i], now, 7)) && r.Some? ==>
      forall i :: 0 <= i < |goals| && DueWithin(goals[i], now, 30) ==> goals[r.value].deadline.value <= goals[i].deadline.value
  {
    match FirstDueWithin(goals, now, 7)
    case Some(i) => Some(i)
    case None =>
      assert forall i :: 0 <= i < |goals| && DueWithin(goals[i], now, 30) ==> DueWithin(goals[i], now, 30);
      EarliestDueWithin(goals, now, 30)
  }

  /** The deadline line of the daily reminder: the goal's text and how many days remain. */
  datatype DeadlineLine = DueToday(text: string) | DueTomorrow(text: string) | DaysLeft(days: nat, text: string)

  /** The daily reminder's content: the life-expectancy message and an optional deadline line. */
  datatype DailyMessage = DailyMessage(borrowedTime: bool, daysLeft: int, deadline: Option<DeadlineLine>)

  /**
   * `sendDailyNotification()`: nothing when the reminder is disabled; otherwise the
   * days-left message (age from the birthdate when known, else the stored age)
   * and the picked deadline.
   */
  function SendDailyNotification(enabled: bool, storedAge: int, birthdate: Option<CalendarDate>, today: CalendarDate,
                                 continent: string, goals: seq<Goal>, now: int): (r: Option<DailyMessage>)
    ensures r.Some? <==> enabled
    ensures r.Some? ==> (r.value.borrowedTime <==> r.value.daysLeft < 0)
    ensures r.Some? ==>
      r.value.daysLeft == CalculateDaysLeft(if birthdate.Some? then CalculateAge(today, birthdate) else storedAge, continent)
    ensures r.Some? ==> (r.value.deadline.Some? <==> PickDeadline(goals, now).Some?)
    ensures r.Some? && r.value.deadline.Some? ==>
      var g := goals[PickDeadline(goals, now).value];
      r.value.deadline.value.text == g.text
      && match r.value.deadline.value
         case DueToday(_) => DaysUntil(g.deadline.value, now) == 0
         case DueTomorrow(_) => DaysUntil(g.deadline.value, now) == 1
         case DaysLeft(n, _) => 2 <= n <= 30 && DaysUntil(g.deadline.value, now) == n
  {
    if !enabled then None
    else
      var age := if birthdate.Some? then CalculateAge(today, birthdate) else storedAge;
      var daysLeft := CalculateDaysLeft(age, continent);
      var line := match PickDeadline(goals, now)
        case None => None
        case Some(i) =>
          var days := DaysUntil(goals[i].deadline.value, now);
          Some(if days == 0 then DueToday(goals[i].text)
               else if days == 1 then DueTomorrow(goals[i].text)
               else DaysLeft(days, goals[i].text));
      Some(DailyMessage(daysLeft < 0, daysLeft, line))
  }
}
