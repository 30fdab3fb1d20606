/**
 * The service worker object of background.js: the activity tracker driven by
 * tab, focus and idle events, the per-second polls, the stats writers and
 * the daily clean-up. Storage is held in fields; the clock, the tab lookup
 * (`chrome.tabs.get`) and URL parsing (`new URL(url).hostname`) are inputs.
 */
module Background {
  import opened Wrappers
  import opened Strings
  import opened Schedules
  import opened Matching
  import opened Goals
  import DailyStats
  import Notifications

  /** `Math.floor((end - start) / 1000)`: whole seconds between two ms instants. */
  function ElapsedSeconds(start: int, end: int): (s: int)
    ensures s * 1000 <= end - start < s * 1000 + 1000
  {
    (end - start) / 1000
  }

  /** The URL tests `startRealTracking` applies before it starts a session. */
  predicate TrackableUrl(url: string)
  {
    url != "" && !StartsWith(url, "chrome-extension://") && !StartsWith(url, "chrome://")
  }

  /** The URL tests of the per-second screen-time poll; it also skips `about:` pages. */
  predicate PollableUrl(url: string)
  {
    TrackableUrl(url) && !StartsWith(url, "about:")
  }

  /** A URL starting with `h`, such as any `http:` or `https:` one, is tracked and polled. */
  lemma WebUrlIsPollable(url: string)
    requires |url| > 0 && url[0] == 'h'
    ensures TrackableUrl(url) && PollableUrl(url)
  {
    assert !StartsWith(url, "chrome-extension://") by { assert "chrome-extension://"[0] == 'c'; }
    assert !StartsWith(url, "chrome://") by { assert "chrome://"[0] == 'c'; }
    assert !StartsWith(url, "about:") by { assert "about:"[0] == 'a'; }
  }

  /** A tab id as JavaScript tests it: `null` and `0` are false. */
  predicate Truthy(id: Option<int>) { id.Some? && id.value != 0 }

  /** The schedules `updateSavedTimeEverySecond` finds active: on, and in their window now. */
  function ActiveSchedulesAt(schedules: seq<Schedule>, m: Moment): (r: seq<Schedule>)
    ensures |r| <= |schedules|
    ensures forall i :: 0 <= i < |r| ==> r[i] in schedules && r[i].active && IsBlockingTimeActive(m, r[i])
    ensures forall s :: s in schedules && s.active && IsBlockingTimeActive(m, s) ==> s in r
  {
    if schedules == [] then []
    else
      var rest := ActiveSchedulesAt(schedules[1..], m);
      if schedules[0].active && IsBlockingTimeActive(m, schedules[0]) then [schedules[0]] + rest else rest
  }

  /** Whenever some host would be blocked, the saved-time counter is ticking too. */
  lemma BlockingImpliesSavedTimeTicks(hostname: string, m: Moment, schedules: seq<Schedule>)
    requires ShouldBlockSite(hostname, m, schedules)
    ensures |ActiveSchedulesAt(schedules, m)| > 0
  {
    var i :| 0 <= i < |schedules| && ScheduleBlocks(hostname, m, schedules[i]);
    assert schedules[i] in schedules;
  }

  /** Saved time ticks while an active schedule is in its window, even one listing no site. */
  lemma SavedTimeTicksWithoutSites(s: Schedule, m: Moment)
    requires s.active && IsBlockingTimeActive(m, s) && s.blockedSites == []
    ensures |ActiveSchedulesAt([s], m)| == 1
    ensures forall h :: !ShouldBlockSite(h, m, [s])
  {
    assert forall h :: !AnySiteBlocks(h, s.blockedSites);
  }

  /** The seconds `trackWastedTime` adds: the time since the tab started, if in (0, 600], else 5. */
  function WastedIncrement(activeTabId: Option<int>, tabStartTimes: map<int, int>, now: int): (inc: int)
    ensures 1 <= inc <= 600
    ensures inc != 5 ==> (Truthy(activeTabId) && activeTabId.value in tabStartTimes
      && inc == ElapsedSeconds(tabStartTimes[activeTabId.value], now))
  {
    if Truthy(activeTabId) && activeTabId.value in tabStartTimes then
      var sinceStart := ElapsedSeconds(tabStartTimes[activeTabId.value], now);
      if 0 < sinceStart <= 600 then sinceStart else 5
    else 5
  }

  /** The goal filter of `cleanupCompletedGoals`: only goals created today survive, in order. */
  function KeepTodaysGoals(goals: seq<Goal>, today: string): (r: seq<Goal>)
    ensures forall i :: 0 <= i < |r| ==> r[i].createdDay == Some(today)
    ensures forall g :: g in goals && g.createdDay == Some(today) ==> g in r
    ensures |r| <= |goals|
  {
    Filter(goals, (g: Goal) => g.createdDay == Some(today))
  }

  class BackgroundService {
    var activeTabId: Option<int>
    var isWindowFocused: bool
    var isUserIdle: bool
    var isReallyTracking: bool
    /** `tabStartTimes`: tab id to the ms instant its session started. */
    var tabStartTimes: map<int, int>
    /** `smartIdleState.isIdle`, reported by the content script. */
    var smartIdle: bool
    var currentlyActiveSchedules: seq<Schedule>
    // Stored values
    var schedules: seq<Schedule>
    var dailyStats: DailyStats.Stats
    var sentNotifications: map<string, set<string>>
    var goals: seq<Goal>
    var wastedTime: int

    /**
     * The tracker's consistency: a session is open only for a truthy active
     * tab while the window is focused and the user active, and the start-time
     * map holds exactly that tab's start while a session is open and nothing
     * otherwise.
     */
    predicate TrackerInv()
      reads this
    {
      && (isReallyTracking ==> Truthy(activeTabId) && isWindowFocused && !isUserIdle)
      && tabStartTimes.Keys == (if isReallyTracking then {activeTabId.value} else {})
    }

    constructor (schedules: seq<Schedule>, dailyStats: DailyStats.Stats)
      ensures TrackerInv()
      ensures activeTabId == None && isWindowFocused && !isUserIdle && !isReallyTracking && tabStartTimes == map[]
      ensures this.schedules == schedules && this.dailyStats == dailyStats
    {
      activeTabId := None;
      isWindowFocused := true;
      isUserIdle := false;
      isReallyTracking := false;
      tabStartTimes := map[];
      smartIdle := false;
      currentlyActiveSchedules := [];
      this.schedules := schedules;
      this.dailyStats := dailyStats;
      sentNotifications := map[];
      goals := [];
      wastedTime := 0;
    }

    /** `activeTabId && isWindowFocused && !isUserIdle`. */
    predicate ShouldTrack()
      reads this
    {
      Truthy(activeTabId) && isWindowFocused && !isUserIdle
    }

    /**
     * `startRealTracking()`, given the URL `chrome.tabs.get` reports for the
     * active tab (none when the lookup fails): opens a session at `now`.
     */
    method StartRealTracking(now: int, tabUrl: Option<string>)
      modifies this`isReallyTracking, this`tabStartTimes
      ensures old(TrackerInv()) ==> TrackerInv()
      ensures var opens := old(ShouldTrack()) && !old(isReallyTracking) && tabUrl.Some? && TrackableUrl(tabUrl.value);
        && (opens ==> isReallyTracking && tabStartTimes == old(tabStartTimes)[activeTabId.value := now])
        && (!opens ==> isReallyTracking == old(isReallyTracking) && tabStartTimes == old(tabStartTimes))
    {
      if ShouldTrack() && !isReallyTracking {
        if tabUrl.Some? && TrackableUrl(tabUrl.value) {
          tabStartTimes := tabStartTimes[activeTabId.value := now];
          isReallyTracking := true;
        }
      }
    }

    /** The screen time a `stopRealTracking()` at `now` records, if any. */
    function SessionSeconds(now: int, tabUrl: Option<string>, hostname: Option<string>): (r: Option<int>)
      reads this
      ensures r.Some? ==> r.value >= 1 && hostname.Some? && isReallyTracking
    {
      if isReallyTracking && Truthy(activeTabId) && activeTabId.value in tabStartTimes
         && tabUrl.Some? && tabUrl.value != "" && hostname.Some?
      then
        var seconds := ElapsedSeconds(tabStartTimes[activeTabId.value], now);
        if seconds >= 1 then Some(seconds) else None
      else None
    }

    /** The store once `stopRealTracking()` at `now` has recorded the open session, if it records one. */
    function StatsAfterStop(now: int, today: string, tabUrl: Option<string>, hostname: Option<string>): DailyStats.Stats
      reads this
    {
      match SessionSeconds(now, tabUrl, hostname)
      case None => dailyStats
      case Some(seconds) => DailyStats.ProcessRealScreenTime(dailyStats, schedules, today, Lower(hostname.value), seconds)
    }

    /**
     * `stopRealTracking()`: records the open session's whole seconds (at least
     * one) for the parsed host, then always closes the session. A failed tab
     * lookup or URL parse loses the session's time.
     */
    method StopRealTracking(now: int, today: string, tabUrl: Option<string>, hostname: Option<string>)
      modifies this`isReallyTracking, this`tabStartTimes, this`dailyStats
      ensures !isReallyTracking && tabStartTimes == map[]
      ensures TrackerInv()
      ensures match old(SessionSeconds(now, tabUrl, hostname))
        case None => dailyStats == old(dailyStats)
        case Some(seconds) =>
          seconds >= 1
          && dailyStats == DailyStats.ProcessRealScreenTime(old(dailyStats), schedules, today, Lower(hostname.value), seconds)
      ensures dailyStats == old(StatsAfterStop(now, today, tabUrl, hostname))
    {
      if isReallyTracking && Truthy(activeTabId) && activeTabId.value in tabStartTimes {
        if tabUrl.Some? && tabUrl.value != "" {
          var startTime := tabStartTimes[activeTabId.value];
          var timeSpentSeconds := ElapsedSeconds(startTime, now);
          if timeSpentSeconds >= 1 && hostname.Some? {
            ProcessRealScreenTime(Lower(hostname.value), timeSpentSeconds, today);
          }
        }
      }
      isReallyTracking := false;
      tabStartTimes := map[];
    }

    /**
     * `processRealScreenTime(hostname, seconds)`: screen time, and saved time
     * for a tracked host; a throwing `recordScreenTime` stops it early.
     */
    method ProcessRealScreenTime(hostname: string, seconds: int, today: string)
      modifies this`dailyStats
      ensures dailyStats == DailyStats.ProcessRealScreenTime(old(dailyStats), schedules, today, hostname, seconds)
    {
      var recorded := RecordScreenTime(hostname, seconds, today);
      if recorded && IsSiteTracked(hostname, schedules) {
        RecordWastedTime(hostname, seconds, today);
      }
    }

    /**
     * `recordScreenTime(hostname, seconds)`: edits a copy of the store and
     * writes it back; `recorded` is false when the edit throws on a record
     * without a site map, and then nothing is written.
     */
    method RecordScreenTime(hostname: string, seconds: int, today: string) returns (recorded: bool)
      modifies this`dailyStats
      ensures recorded <==> DailyStats.HasSiteMap(old(dailyStats), today)
      ensures dailyStats == DailyStats.RecordScreenTime(old(dailyStats), today, hostname, seconds)
    {
      var stats := dailyStats;
      if today !in stats {
        stats := stats[today := DailyStats.EmptyDay];
      }
      var day := stats[today];
      ghost var d0 := DailyStats.DayOf(dailyStats, today);
      assert day == d0;
      if day.sites.None? {
        recorded := false;
        return;
      }
      var sites := day.sites.value;
      if hostname !in sites {
        sites := sites[hostname := 0];
      }
      assert sites[hostname] == DailyStats.SiteSeconds(d0, hostname);
      sites := sites[hostname := sites[hostname] + seconds];
      assert sites == d0.sites.value[hostname := DailyStats.SiteSeconds(d0, hostname) + seconds];
      day := day.(sites := Some(sites), totalTime := day.totalTime + seconds);
      assert stats[today := day] == dailyStats[today := day];
      dailyStats := stats[today := day];
      recorded := true;
    }

    /** `recordSavedTime(seconds)`. */
    method RecordSavedTime(seconds: int, today: string)
      modifies this`dailyStats
      ensures dailyStats == DailyStats.AddSavedTime(old(dailyStats), today, seconds)
    {
      if today !in dailyStats {
        dailyStats := dailyStats[today := DailyStats.EmptyDay];
      }
      dailyStats := dailyStats[today := dailyStats[today].(savedTime := dailyStats[today].savedTime + seconds)];
    }

    /** `recordWastedTime(hostname, seconds)`: the same counter as `recordSavedTime`; the host is unused. */
    method RecordWastedTime(hostname: string, seconds: int, today: string)
      modifies this`dailyStats
      ensures dailyStats == DailyStats.AddSavedTime(old(dailyStats), today, seconds)
    {
      RecordSavedTime(seconds, today);
    }

    /** `resetSavedTime()`. */
    method ResetSavedTime(today: string)
      modifies this`dailyStats
      ensures dailyStats == DailyStats.ResetSavedTime(old(dailyStats), today)
    {
      if today in dailyStats {
        dailyStats := dailyStats[today := dailyStats[today].(savedTime := 0)];
      }
    }

    /**
     * `trackWastedTime()`: one blocked visit and its clamped duration as saved
     * time. It creates a record without a site map, and `blocked += 1` on a
     * record without `blocked` stores NaN.
     */
    method TrackWastedTime(now: int, today: string) returns (increment: int)
      modifies this`dailyStats
      ensures 1 <= increment <= 600
      ensures increment == WastedIncrement(activeTabId, tabStartTimes, now)
      ensures dailyStats == DailyStats.AddBlockedVisit(old(dailyStats), today, increment)
    {
      increment := 5;
      if Truthy(activeTabId) && activeTabId.value in tabStartTimes {
        var timeSinceStart := ElapsedSeconds(tabStartTimes[activeTabId.value], now);
        if timeSinceStart > 0 && timeSinceStart <= 600 {
          increment := timeSinceStart;
        }
      }
      var stats := dailyStats;
      if today !in stats {
        stats := stats[today := DailyStats.BlockedDay];
      }
      var day := stats[today];
      day := day.(blocked := DailyStats.AddOne(day.blocked), savedTime := day.savedTime + increment);
      dailyStats := stats[today := day];
    }

    // ------------------------------------------------------------ event handlers

    /**
     * `tabs.onActivated`: close the old session, switch tab, try to open a new
     * one, then run `checkAndBlockSite` on the new tab's URL when it has one
     * (`newHost` is what parsing that URL gives, `m` the clock reading).
     */
    method OnTabActivated(tabId: int, now: int, today: string, oldUrl: Option<string>, oldHost: Option<string>,
                          newUrl: Option<string>, newHost: Option<string>, m: Moment)
      returns (decision: Option<NavDecision>)
      modifies this`activeTabId, this`isReallyTracking, this`tabStartTimes, this`dailyStats
      ensures TrackerInv()
      ensures activeTabId == Some(tabId)
      ensures isReallyTracking <==> Truthy(Some(tabId)) && isWindowFocused && !isUserIdle && newUrl.Some? && TrackableUrl(newUrl.value)
      ensures tabStartTimes == if isReallyTracking then map[tabId := now] else map[]
      ensures dailyStats == old(StatsAfterStop(now, today, oldUrl, oldHost))
      ensures decision.Some? <==> newUrl.Some? && newUrl.value != ""
      ensures decision.Some? ==> decision.value == CheckAndBlockSite(newUrl.value, newHost, m, schedules)
    {
      StopRealTracking(now, today, oldUrl, oldHost);
      activeTabId := Some(tabId);
      StartRealTracking(now, newUrl);
      decision := None;
      if newUrl.Some? && newUrl.value != "" {
        decision := Some(CheckAndBlockSite(newUrl.value, newHost, m, schedules));
      }
    }

    /** `tabs.onRemoved`: closing the active tab ends its session and clears the active tab. */
    method OnTabRemoved(tabId: int, now: int, today: string, url: Option<string>, hostname: Option<string>)
      modifies this`activeTabId, this`isReallyTracking, this`tabStartTimes, this`dailyStats
      ensures old(activeTabId) == Some(tabId) ==>
        activeTabId == None && !isReallyTracking && tabStartTimes == map[]
        && dailyStats == old(StatsAfterStop(now, today, url, hostname)) && TrackerInv()
      ensures old(activeTabId) != Some(tabId) ==>
        activeTabId == old(activeTabId) && isReallyTracking == old(isReallyTracking)
        && tabStartTimes == old(tabStartTimes) && dailyStats == old(dailyStats)
      ensures old(TrackerInv()) ==> TrackerInv()
    {
      if activeTabId == Some(tabId) {
        StopRealTracking(now, today, url, hostname);
        activeTabId := None;
      }
    }

    /**
     * `windows.onFocusChanged`: losing focus ends the session, gaining it
     * tries to open one for the active tab's URL.
     */
    method OnFocusChanged(focusLost: bool, now: int, today: string, url: Option<string>, hostname: Option<string>)
      modifies this`isWindowFocused, this`isReallyTracking, this`tabStartTimes, this`dailyStats
      ensures isWindowFocused == !focusLost
      ensures focusLost ==>
        !isReallyTracking && tabStartTimes == map[]
        && dailyStats == old(StatsAfterStop(now, today, url, hostname)) && TrackerInv()
      ensures !focusLost ==> dailyStats == old(dailyStats)
      ensures !focusLost ==>
        var opens := !old(isReallyTracking) && Truthy(activeTabId) && !isUserIdle && url.Some? && TrackableUrl(url.value);
        && (opens ==> isReallyTracking && tabStartTimes == old(tabStartTimes)[activeTabId.value := now])
        && (!opens ==> isReallyTracking == old(isReallyTracking) && tabStartTimes == old(tabStartTimes))
      ensures old(TrackerInv()) ==> TrackerInv()
    {
      if focusLost {
        isWindowFocused := false;
        StopRealTracking(now, today, url, hostname);
      } else {
        isWindowFocused := true;
        StartRealTracking(now, url);
      }
    }

    /** `idle.onStateChanged`: any state but `"active"` is idle and ends the session; `"active"` tries to open one. */
    method OnIdleStateChanged(state: string, now: int, today: string, url: Option<string>, hostname: Option<string>)
      modifies this`isUserIdle, this`isReallyTracking, this`tabStartTimes, this`dailyStats
      ensures isUserIdle <==> state != "active"
      ensures isUserIdle ==>
        !isReallyTracking && tabStartTimes == map[]
        && dailyStats == old(StatsAfterStop(now, today, url, hostname)) && TrackerInv()
      ensures !isUserIdle ==> dailyStats == old(dailyStats)
      ensures !isUserIdle ==>
        var opens := !old(isReallyTracking) && Truthy(activeTabId) && isWindowFocused && url.Some? && TrackableUrl(url.value);
        && (opens ==> isReallyTracking && tabStartTimes == old(tabStartTimes)[activeTabId.value := now])
        && (!opens ==> isReallyTracking == old(isReallyTracking) && tabStartTimes == old(tabStartTimes))
      ensures old(TrackerInv()) ==> TrackerInv()
    {
      isUserIdle := state != "active";
      if isUserIdle {
        StopRealTracking(now, today, url, hostname);
      } else {
        StartRealTracking(now, url);
      }
    }

    /** The `updateIdleState` message: stored, and read by nothing else. */
    method UpdateIdleState(isIdle: bool)
      modifies this`smartIdle
      ensures smartIdle == isIdle
    {
      smartIdle := isIdle;
    }

    // ------------------------------------------------------------------ polls

    /**
     * `updateScreenTimeEverySecond()`, given the active tab of the last focused
     * window: one second for its host, whatever the focus, idle or session
     * state, and that tab becomes the active tab.
     */
    method UpdateScreenTimeEverySecond(tab: Option<(int, string)>, hostname: Option<string>, today: string)
      modifies this`activeTabId, this`dailyStats
      ensures var counts := tab.Some? && PollableUrl(tab.value.1) && hostname.Some?;
        && (counts ==> (activeTabId == Some(tab.value.0)
              && dailyStats == DailyStats.RecordScreenTime(old(dailyStats), today, Lower(hostname.value), 1)))
        && (!counts ==> activeTabId == old(activeTabId) && dailyStats == old(dailyStats))
    {
      if tab.Some? && PollableUrl(tab.value.1) && hostname.Some? {
        activeTabId := Some(tab.value.0);
        var recorded := RecordScreenTime(Lower(hostname.value), 1, today);
      }
    }

    /** `updateSavedTimeEverySecond()`: one saved second iff some schedule is active and in its window. */
    method UpdateSavedTimeEverySecond(m: Moment, today: string)
      modifies this`currentlyActiveSchedules, this`dailyStats
      ensures currentlyActiveSchedules == ActiveSchedulesAt(schedules, m)
      ensures |currentlyActiveSchedules| > 0 ==> dailyStats == DailyStats.AddSavedTime(old(dailyStats), today, 1)
      ensures |currentlyActiveSchedules| == 0 ==> dailyStats == old(dailyStats)
    {
      currentlyActiveSchedules := ActiveSchedulesAt(schedules, m);
      if |currentlyActiveSchedules| > 0 {
        RecordSavedTime(1, today);
      }
    }

    /** `checkScheduleNotifications()` at a clock minute: the notices shown and today's updated keys. */
    method CheckScheduleNotifications(minute: int, today: string) returns (shown: seq<Notifications.Notice>)
      modifies this`sentNotifications
      ensures var before := if today in old(sentNotifications) then old(sentNotifications)[today] else {};
        shown == Notifications.FireAll(schedules, before, minute).fired
      ensures sentNotifications == Notifications.StoreAfterPoll(old(sentNotifications), today, schedules, minute)
    {
      var sentToday := if today in sentNotifications then sentNotifications[today] else {};
      var sentAfter;
      shown, sentAfter := Notifications.RunSchedulePoll(schedules, sentToday, minute);
      sentNotifications := sentNotifications[today := sentAfter];
    }

    /** `cleanupCompletedGoals()`: today's goals only, wasted time reset, dedup keys of today and yesterday. */
    method CleanupCompletedGoals(today: string, yesterday: string)
      modifies this`goals, this`wastedTime, this`sentNotifications
      ensures goals == KeepTodaysGoals(old(goals), today)
      ensures wastedTime == (if old(wastedTime) > 0 then 0 else old(wastedTime))
      ensures sentNotifications == Notifications.PruneSent(old(sentNotifications), today, yesterday)
    {
      goals := KeepTodaysGoals(goals, today);
      if wastedTime > 0 {
        wastedTime := 0;
      }
      sentNotifications := Notifications.PruneSent(sentNotifications, today, yesterday);
    }
  }

  /**
   * The per-second poll breaks the tracker invariant: while a session is open
   * on tab 1 it switches the active tab to tab 2 without touching the
   * start-time map.
   */
  method PollBreaksTrackerInvariant(url: string, host: string, otherUrl: string, otherHost: string, today: string)
    returns (before: bool, after: bool)
    requires |url| > 0 && url[0] == 'h' && |otherUrl| > 0 && otherUrl[0] == 'h'
    ensures before && !after
  {
    var service := new BackgroundService([], map[]);
    WebUrlIsPollable(url);
    WebUrlIsPollable(otherUrl);
    var decision := service.OnTabActivated(1, 1000, today, None, None, Some(url), Some(host), Moment(0, 0));
    before := service.TrackerInv();
    service.UpdateScreenTimeEverySecond(Some((2, otherUrl)), Some(otherHost), today);
    after := service.TrackerInv();
  }

  /**
   * The session open on tab 1 is lost when a poll has moved the active tab:
   * after 5 s on tab 1, a poll on tab 2 and a focus loss, the day holds only
   * the poll's second and the session is closed.
   */
  method PollThenBlurLosesSession(url: string, host: string, otherUrl: string, otherHost: string, today: string)
    returns (recorded: int, tracking: bool)
    requires |url| > 0 && url[0] == 'h' && |otherUrl| > 0 && otherUrl[0] == 'h'
    ensures recorded == 1 && !tracking
  {
    var service := new BackgroundService([], map[]);
    WebUrlIsPollable(url);
    WebUrlIsPollable(otherUrl);
    var decision := service.OnTabActivated(1, 0, today, None, None, Some(url), Some(host), Moment(0, 0));
    service.UpdateScreenTimeEverySecond(Some((2, otherUrl)), Some(otherHost), today);
    service.OnFocusChanged(true, 5000, today, Some(otherUrl), Some(otherHost));
    recorded := service.dailyStats[today].totalTime;
    tracking := service.isReallyTracking;
  }
}
