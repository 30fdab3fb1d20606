/**
 * The per-day statistics store the service worker writes (background.js
 * recordScreenTime, recordSavedTime, recordWastedTime, resetSavedTime,
 * trackWastedTime): a map from the date key (`Date.toDateString()`) to a
 * record of seconds.
 */
module DailyStats {
  import opened Wrappers
  import opened Schedules
  import opened Matching

  /** The `blocked` field of a stored record: missing, NaN, or a visit count. */
  datatype VisitCount = Absent | NotANumber | Visits(n: int)

  /** `blocked += 1` in JavaScript: a missing field gives NaN, and NaN stays NaN. */
  function AddOne(c: VisitCount): (r: VisitCount)
    ensures r.Visits? <==> c.Visits?
    ensures c.Visits? ==> r.n == c.n + 1
  {
    match c
    case Visits(n) => Visits(n + 1)
    case _ => NotANumber
  }

  /**
   * One day's record; every count is in seconds except `blocked`. The writers
   * create different records, so `sites` and `blocked` may be missing.
   */
  datatype DayStats = DayStats(totalTime: int, sites: Option<map<string, int>>, savedTime: int, blocked: VisitCount)

  type Stats = map<string, DayStats>

  /** The record `recordScreenTime`, `recordSavedTime` and `recordWastedTime` create: a site map and no `blocked`. */
  const EmptyDay := DayStats(0, Some(map[]), 0, Absent)

  /** The record `trackWastedTime` creates: a `blocked` count and no site map. */
  const BlockedDay := DayStats(0, None, 0, Visits(0))

  function DayOf(stats: Stats, day: string): DayStats
  {
    if day in stats then stats[day] else EmptyDay
  }

  /** The site map of a record, empty when the record has none. */
  function SitesOf(d: DayStats): map<string, int>
  {
    if d.sites.Some? then d.sites.value else map[]
  }

  /** `sites[host] || 0`. */
  function SiteSeconds(d: DayStats, host: string): int
  {
    if host in SitesOf(d) then SitesOf(d)[host] else 0
  }

  /**
   * Whether `recordScreenTime` can write today's record: a missing record is
   * created with a site map, but reading `sites[hostname]` of a record
   * without one throws before anything is stored.
   */
  predicate HasSiteMap(stats: Stats, today: string)
  {
    DayOf(stats, today).sites.Some?
  }

  /**
   * `recordScreenTime(hostname, seconds)`: today's record (created if needed)
   * gains `seconds` for the host and in its total; nothing else changes. On a
   * record without a site map the write throws and the store is unchanged.
   */
  function RecordScreenTime(stats: Stats, today: string, host: string, seconds: int): (r: Stats)
    ensures !HasSiteMap(stats, today) ==> r == stats
    ensures HasSiteMap(stats, today) ==>
      && r.Keys == stats.Keys + {today}
      && (forall day :: day in stats && day != today ==> r[day] == stats[day])
      && r[today].sites.Some?
      && SitesOf(r[today]).Keys == SitesOf(DayOf(stats, today)).Keys + {host}
      && SiteSeconds(r[today], host) == SiteSeconds(DayOf(stats, today), host) + seconds
      && (forall h :: h != host ==> SiteSeconds(r[today], h) == SiteSeconds(DayOf(stats, today), h))
      && r[today].totalTime == DayOf(stats, today).totalTime + seconds
      && r[today].savedTime == DayOf(stats, today).savedTime
      && r[today].blocked == DayOf(stats, today).blocked
  {
    var d := DayOf(stats, today);
    if d.sites.None? then stats
    else
      stats[today := d.(sites := Some(d.sites.value[host := SiteSeconds(d, host) + seconds]),
                        totalTime := d.totalTime + seconds)]
  }

  /**
   * `recordSavedTime(seconds)` and `recordWastedTime(hostname, seconds)`, which
   * write the same counter: today's `savedTime` gains `seconds`.
   */
  function AddSavedTime(stats: Stats, today: string, seconds: int): (r: Stats)
    ensures r.Keys == stats.Keys + {today}
    ensures forall day :: day in stats && day != today ==> r[day] == stats[day]
    ensures r[today] == DayOf(stats, today).(savedTime := DayOf(stats, today).savedTime + seconds)
  {
    var d := DayOf(stats, today);
    stats[today := d.(savedTime := d.savedTime + seconds)]
  }

  /** `resetSavedTime()`: zero today's saved time if there is a record; never creates one. */
  function ResetSavedTime(stats: Stats, today: string): (r: Stats)
    ensures r.Keys == stats.Keys
    ensures forall day :: day in stats && day != today ==> r[day] == stats[day]
    ensures today in stats ==> r[today] == stats[today].(savedTime := 0)
  {
    if today in stats then stats[today := stats[today].(savedTime := 0)] else stats
  }

  /**
   * The body of `trackWastedTime`: one more blocked visit and `seconds` more
   * saved time in today's record, which it creates with a `blocked` count and
   * without a site map.
   */
  function AddBlockedVisit(stats: Stats, today: string, seconds: int): (r: Stats)
    ensures r.Keys == stats.Keys + {today}
    ensures forall day :: day in stats && day != today ==> r[day] == stats[day]
    ensures today !in stats ==> r[today] == DayStats(0, None, seconds, Visits(1))
    ensures today in stats ==>
      r[today] == stats[today].(blocked := AddOne(stats[today].blocked), savedTime := stats[today].savedTime + seconds)
  {
    var d := if today in stats then stats[today] else BlockedDay;
    stats[today := d.(blocked := AddOne(d.blocked), savedTime := d.savedTime + seconds)]
  }

  /** A blocked visit on a record the screen-time writer made stores NaN: that record has no `blocked`. */
  lemma BlockedVisitAfterScreenTimeIsNaN(stats: Stats, today: string, host: string, seconds: int, wasted: int)
    requires today !in stats
    ensures AddBlockedVisit(RecordScreenTime(stats, today, host, seconds), today, wasted)[today].blocked == NotANumber
  {
    assert RecordScreenTime(stats, today, host, seconds)[today].blocked == Absent;
  }

  /** After a blocked visit opens the day, the day has no site map and no screen time is recorded for it. */
  lemma BlockedVisitFirstStopsScreenTime(stats: Stats, today: string, host: string, seconds: int, wasted: int)
    requires today !in stats
    ensures var r := AddBlockedVisit(stats, today, wasted);
      !HasSiteMap(r, today) && RecordScreenTime(r, today, host, seconds) == r
  {}

  /**
   * `processRealScreenTime(hostname, seconds)`: screen time for the host, and
   * the same seconds as saved time when the host is tracked by any schedule.
   * When `recordScreenTime` throws, the saved time is not written either.
   */
  function ProcessRealScreenTime(stats: Stats, schedules: seq<Schedule>, today: string, host: string, seconds: int): (r: Stats)
    ensures !HasSiteMap(stats, today) ==> r == stats
    ensures HasSiteMap(stats, today) ==>
      && r.Keys == stats.Keys + {today}
      && (forall day :: day in stats && day != today ==> r[day] == stats[day])
      && r[today].totalTime == DayOf(stats, today).totalTime + seconds
      && SiteSeconds(r[today], host) == SiteSeconds(DayOf(stats, today), host) + seconds
      && r[today].savedTime == DayOf(stats, today).savedTime + (if IsSiteTracked(host, schedules) then seconds else 0)
  {
    if !HasSiteMap(stats, today) then stats
    else
      var withTime := RecordScreenTime(stats, today, host, seconds);
      if IsSiteTracked(host, schedules) then AddSavedTime(withTime, today, seconds) else withTime
  }

  // ------------------------------------------------------------ invariants

  /** The sum of a map's values. */
  ghost function SumValues(m: map<string, int>): int
    decreases |m|
  {
    if m == map[] then 0
    else
      var k :| k in m;
      m[k] + SumValues(m - {k})
  }

  lemma {:induction false} SumValuesRemove(m: map<string, int>, k: string)
    requires k in m
    ensures SumValues(m) == m[k] + SumValues(m - {k})
    decreases |m|
  {
    var j :| j in m && SumValues(m) == m[j] + SumValues(m - {j});
    if j != k {
      assert k in m - {j} && j in m - {k};
      SumValuesRemove(m - {j}, k);
      SumValuesRemove(m - {k}, j);
      assert m - {j} - {k} == m - {k} - {j};
    }
  }

  /** Setting one entry moves the sum by the difference. */
  lemma SumValuesUpdate(m: map<string, int>, k: string, v: int)
    ensures SumValues(m[k := v]) == SumValues(m) - (if k in m then m[k] else 0) + v
  {
    SumValuesRemove(m[k := v], k);
    if k in m {
      SumValuesRemove(m, k);
      assert m[k := v] - {k} == m - {k};
    } else {
      assert m[k := v] - {k} == m;
    }
  }

  /** The per-site seconds of a day add up to its total. */
  ghost predicate Balanced(d: DayStats)
  {
    SumValues(SitesOf(d)) == d.totalTime
  }

  ghost predicate AllBalanced(stats: Stats)
  {
    forall day :: day in stats ==> Balanced(stats[day])
  }

  lemma RecordScreenTimeKeepsBalance(stats: Stats, today: string, host: string, seconds: int)
    requires AllBalanced(stats)
    ensures AllBalanced(RecordScreenTime(stats, today, host, seconds))
  {
    var d := DayOf(stats, today);
    assert SumValues(SitesOf(EmptyDay)) == 0;
    if d.sites.Some? {
      SumValuesUpdate(d.sites.value, host, SiteSeconds(d, host) + seconds);
    }
  }

  lemma SavedTimeKeepsBalance(stats: Stats, today: string, seconds: int)
    requires AllBalanced(stats)
    ensures AllBalanced(AddSavedTime(stats, today, seconds))
    ensures AllBalanced(ResetSavedTime(stats, today))
    ensures AllBalanced(AddBlockedVisit(stats, today, seconds))
  {
    assert SumValues(SitesOf(EmptyDay)) == 0;
    assert SumValues(SitesOf(BlockedDay)) == 0;
  }

  /** Every count in the store is non-negative. */
  predicate NonNegative(stats: Stats)
  {
    forall day :: day in stats ==>
      stats[day].totalTime >= 0 && stats[day].savedTime >= 0
      && (stats[day].blocked.Visits? ==> stats[day].blocked.n >= 0)
      && forall h :: h in SitesOf(stats[day]) ==> SitesOf(stats[day])[h] >= 0
  }

  lemma ScreenTimeKeepsNonNegative(stats: Stats, today: string, host: string, seconds: nat)
    requires NonNegative(stats)
    ensures NonNegative(RecordScreenTime(stats, today, host, seconds))
  {
    var r := RecordScreenTime(stats, today, host, seconds);
    if HasSiteMap(stats, today) {
      assert forall h :: h in SitesOf(r[today]) ==> SitesOf(r[today])[h] == SiteSeconds(r[today], h);
    }
  }

  lemma SavedTimeKeepsNonNegative(stats: Stats, today: string, seconds: nat)
    requires NonNegative(stats)
    ensures NonNegative(AddSavedTime(stats, today, seconds))
  {
    var r := AddSavedTime(stats, today, seconds);
    assert SitesOf(r[today]) == SitesOf(DayOf(stats, today));
  }

  lemma ResetKeepsNonNegative(stats: Stats, today: string)
    requires NonNegative(stats)
    ensures NonNegative(ResetSavedTime(stats, today))
  {
    var r := ResetSavedTime(stats, today);
    if today in stats {
      assert SitesOf(r[today]) == SitesOf(stats[today]);
    }
  }

  lemma BlockedVisitKeepsNonNegative(stats: Stats, today: string, seconds: nat)
    requires NonNegative(stats)
    ensures NonNegative(AddBlockedVisit(stats, today, seconds))
  {
    var r := AddBlockedVisit(stats, today, seconds);
    if today in stats {
      assert SitesOf(r[today]) == SitesOf(stats[today]);
    }
  }

  lemma ProcessKeepsNonNegative(stats: Stats, schedules: seq<Schedule>, today: string, host: string, seconds: nat)
    requires NonNegative(stats)
    ensures NonNegative(ProcessRealScreenTime(stats, schedules, today, host, seconds))
  {
    ScreenTimeKeepsNonNegative(stats, today, host, seconds);
    SavedTimeKeepsNonNegative(RecordScreenTime(stats, today, host, seconds), today, seconds);
  }

  // ---------------------------------------------------- repeated recording

  /** `n` one-second records in a row, as the per-second poll makes them. */
  function RepeatScreenTime(stats: Stats, today: string, host: string, n: nat): Stats
  {
    if n == 0 then stats else RecordScreenTime(RepeatScreenTime(stats, today, host, n - 1), today, host, 1)
  }

  /**
   * `n` one-second polls add exactly `n` seconds for the host and to the
   * day's total, or nothing at all on a record without a site map.
   */
  lemma {:induction false} RepeatedSecondsAccumulate(stats: Stats, today: string, host: string, n: nat)
    requires n > 0
    ensures var r := RepeatScreenTime(stats, today, host, n);
      && (!HasSiteMap(stats, today) ==> r == stats)
      && (HasSiteMap(stats, today) ==>
        today in r && HasSiteMap(r, today)
        && SiteSeconds(r[today], host) == SiteSeconds(DayOf(stats, today), host) + n
        && r[today].totalTime == DayOf(stats, today).totalTime + n
        && r[today].savedTime == DayOf(stats, today).savedTime)
  {
    if n > 1 {
      RepeatedSecondsAccumulate(stats, today, host, n - 1);
    }
  }

  /**
   * The per-second poll and the focus-based interval both write screen time:
   * a host watched for `n` seconds by both is counted `2 * n` seconds.
   */
  lemma PollAndIntervalCountTwice(stats: Stats, schedules: seq<Schedule>, today: string, host: string, n: nat)
    requires n > 0
    ensures var r := ProcessRealScreenTime(RepeatScreenTime(stats, today, host, n), schedules, today, host, n);
      && (HasSiteMap(stats, today) ==>
        r[today].totalTime == DayOf(stats, today).totalTime + 2 * n
        && SiteSeconds(r[today], host) == SiteSeconds(DayOf(stats, today), host) + 2 * n)
      && (!HasSiteMap(stats, today) ==> r == stats)
  {
    RepeatedSecondsAccumulate(stats, today, host, n);
  }
}
