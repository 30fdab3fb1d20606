/**
 * The statistics page (stats.js): today's screen time, the seven-day chart,
 * the top-sites ranking over a date range, the removal of old completed
 * goals and the days-remaining figure. The page works on what it loaded
 * from storage, kept here as fields of `StatsManager`; dates arrive as the
 * date keys the page would compute (`toDateString()` of today and the days
 * before it).
 */
module Stats {
  import opened Wrappers
  import opened Goals
  import opened Helpers
  import opened DailyStats

  // ------------------------------------------------------------ screen time

  /** A legacy `dailyTimeSpent` entry: a number of minutes, or an object of per-site minutes. */
  datatype LegacyTime = LegacyMinutes(minutes: int) | LegacyPerSite(values: seq<int>)

  function Sum(xs: seq<int>): int
  {
    if xs == [] then 0 else Sum(xs[..|xs| - 1]) + xs[|xs| - 1]
  }

  lemma {:induction false} SumNonNegative(xs: seq<int>)
    requires forall i :: 0 <= i < |xs| ==> xs[i] >= 0
    ensures Sum(xs) >= 0
  {
    if xs != [] {
      SumNonNegative(xs[..|xs| - 1]);
    }
  }

  /** `Object.values(entry).forEach(time => total += time || 0)`. */
  method AddValues(total: int, values: seq<int>) returns (r: int)
    ensures r == total + Sum(values)
  {
    r := total;
    var i := 0;
    while i < |values|
      invariant 0 <= i <= |values|
      invariant r == total + Sum(values[..i])
    {
      assert values[..i + 1][..i] == values[..i];
      r := r + values[i];
      i := i + 1;
    }
    assert values[..|values|] == values;
  }

  /** The whole minutes of a day's recorded seconds, `Math.floor(totalTime / 60)`; nothing for a missing or zero total. */
  function RecordedMinutes(stats: Stats, day: string): int
  {
    if day in stats && stats[day].totalTime != 0 then stats[day].totalTime / 60 else 0
  }

  /** The legacy minutes of a day. */
  function LegacyDayMinutes(spent: map<string, LegacyTime>, day: string): int
  {
    if day !in spent then 0
    else match spent[day]
      case LegacyMinutes(m) => m
      case LegacyPerSite(vs) => Sum(vs)
  }

  /** The screen time of a day in minutes: recorded seconds plus legacy minutes. */
  function ScreenMinutes(stats: Stats, spent: map<string, LegacyTime>, day: string): int
  {
    RecordedMinutes(stats, day) + LegacyDayMinutes(spent, day)
  }

  predicate LegacyNonNegative(spent: map<string, LegacyTime>)
  {
    forall day :: day in spent ==>
      match spent[day]
      case LegacyMinutes(m) => m >= 0
      case LegacyPerSite(vs) => forall i :: 0 <= i < |vs| ==> vs[i] >= 0
  }

  /** With non-negative stored counts a day's screen time is never negative. */
  lemma ScreenMinutesNonNegative(stats: Stats, spent: map<string, LegacyTime>, day: string)
    requires NonNegative(stats) && LegacyNonNegative(spent)
    ensures ScreenMinutes(stats, spent, day) >= 0
  {
    if day in spent && spent[day].LegacyPerSite? {
      SumNonNegative(spent[day].values);
    }
  }

  // ------------------------------------------------------------ weekly chart

  /** A day of the chart: its date key and its `getDay()` (0 = Sunday). */
  datatype DayRef = DayRef(key: string, weekday: int)

  /** One bar of the chart. */
  datatype DayBar = DayBar(day: string, value: int, date: string)

  /** The bar label: the chart's week runs Monday to Sunday. */
  function WeekdayLabel(weekday: int): string
    requires 0 <= weekday < 7
  {
    ["Mon", "Tue", "Wed", "Thu", "Fri", "Sat", "Sun"][if weekday == 0 then 6 else weekday - 1]
  }

  /**
   * A bar's value: the day's screen time; for a past day without any, its
   * blocked-visit count when that is a nonzero number; never below 0.
   */
  function BarValue(stats: Stats, spent: map<string, LegacyTime>, key: string, past: bool): int
  {
    var t := ScreenMinutes(stats, spent, key);
    var v := if t == 0 && past && key in stats && stats[key].blocked.Visits? && stats[key].blocked.n != 0 then stats[key].blocked.n else t;
    Max(0, v)
  }

  /** The seven days ending today, oldest first, one calendar day apart. */
  predicate ConsecutiveWeek(week: seq<DayRef>)
  {
    |week| == 7
    && (forall j :: 0 <= j < 7 ==> 0 <= week[j].weekday < 7)
    && (forall j :: 0 <= j < 6 ==> week[j + 1].weekday == (week[j].weekday + 1) % 7)
  }

  /** Seven consecutive days carry seven different labels. */
  lemma WeekLabelsDistinct(week: seq<DayRef>)
    requires ConsecutiveWeek(week)
    ensures forall j, k :: 0 <= j < k < 7 ==> WeekdayLabel(week[j].weekday) != WeekdayLabel(week[k].weekday)
  {
    forall j, k | 0 <= j < k < 7
      ensures WeekdayLabel(week[j].weekday) != WeekdayLabel(week[k].weekday)
    {
      WeekdayOffset(week, j);
      WeekdayOffset(week, k);
      LabelsDiffer(week[j].weekday, week[k].weekday);
    }
  }

  /** Day `j` of a consecutive week falls `j` weekdays after the first. */
  lemma {:induction false} WeekdayOffset(week: seq<DayRef>, j: nat)
    requires ConsecutiveWeek(week) && j < 7
    ensures week[j].weekday == (week[0].weekday + j) % 7
  {
    if j > 0 {
      WeekdayOffset(week, j - 1);
    }
  }

  /** Different weekdays get different labels. */
  lemma LabelsDiffer(a: int, b: int)
    requires 0 <= a < 7 && 0 <= b < 7 && a != b
    ensures WeekdayLabel(a) != WeekdayLabel(b)
  {
    var names := ["Mon", "Tue", "Wed", "Thu", "Fri", "Sat", "Sun"];
    var i, k := if a == 0 then 6 else a - 1, if b == 0 then 6 else b - 1;
    assert WeekdayLabel(a) == names[i] && WeekdayLabel(b) == names[k];
    assert names[i][0] != names[k][0] || names[i][1] != names[k][1];
  }

  /** Today's bar shows today's screen time when the stored counts are non-negative. */
  lemma TodayBarIsScreenTime(stats: Stats, spent: map<string, LegacyTime>, today: string)
    requires NonNegative(stats) && LegacyNonNegative(spent)
    ensures BarValue(stats, spent, today, false) == ScreenMinutes(stats, spent, today)
  {
    ScreenMinutesNonNegative(stats, spent, today);
  }

  // ------------------------------------------------------------ top sites

  /** A site's minutes in the chosen range. */
  datatype SiteMinutes = SiteMinutes(site: string, minutes: int)

  /** `m[k] || 0`. */
  function Get(m: map<string, int>, k: string): int
  {
    if k in m then m[k] else 0
  }

  /** The recorded days that fall in the range. */
  function DaysInRange(stats: Stats, dates: seq<string>): set<string>
  {
    set d | d in stats && d in dates
  }

  /** The sites recorded on some day of `days`. */
  ghost function RangeSites(stats: Stats, days: set<string>): set<string>
    requires days <= stats.Keys
  {
    set d, s | d in days && s in SitesOf(stats[d]) :: s
  }

  /** Every site of the range with its summed seconds. */
  ghost function RangeTotals(stats: Stats, days: set<string>): map<string, int>
    requires days <= stats.Keys
  {
    map s | s in RangeSites(stats, days) :: RangeSeconds(stats, days, s)
  }

  /** A site's seconds summed over `days`. */
  ghost function RangeSeconds(stats: Stats, days: set<string>, site: string): int
    requires days <= stats.Keys
    decreases days
  {
    if days == {} then 0
    else
      var d :| d in days;
      SiteSeconds(stats[d], site) + RangeSeconds(stats, days - {d}, site)
  }

  lemma {:induction false} RangeSecondsRemove(stats: Stats, days: set<string>, d: string, site: string)
    requires days <= stats.Keys && d in days
    ensures RangeSeconds(stats, days, site) == SiteSeconds(stats[d], site) + RangeSeconds(stats, days - {d}, site)
    decreases days
  {
    var e :| e in days && RangeSeconds(stats, days, site) == SiteSeconds(stats[e], site) + RangeSeconds(stats, days - {e}, site);
    if e != d {
      assert days - {e} - {d} == days - {d} - {e};
      RangeSecondsRemove(stats, days - {e}, d, site);
      RangeSecondsRemove(stats, days - {d}, e, site);
    }
  }

  /** The per-site seconds a day with a site map adds to the running totals. */
  method AddDaySites(siteTimes: map<string, int>, day: DayStats) returns (r: map<string, int>)
    requires day.sites.Some?
    ensures r.Keys == siteTimes.Keys + SitesOf(day).Keys
    ensures forall s :: Get(r, s) == Get(siteTimes, s) + SiteSeconds(day, s)
  {
    r := siteTimes;
    var sites := day.sites.value;
    var todo := sites.Keys;
    while todo != {}
      invariant todo <= sites.Keys
      invariant r.Keys == siteTimes.Keys + (sites.Keys - todo)
      invariant forall s :: Get(r, s) == Get(siteTimes, s) + (if s in sites && s !in todo then sites[s] else 0)
      decreases todo
    {
      var site :| site in todo;
      if site !in r {
        r := r[site := 0];
      }
      r := r[site := r[site] + sites[site]];
      todo := todo - {site};
    }
  }

  /**
   * The JSON-level loop over `dailyStats`: every recorded day in the range
   * that has a site map adds its sites (a day without one adds nothing).
   */
  method AggregateSiteTimes(stats: Stats, dates: seq<string>) returns (siteTimes: map<string, int>)
    ensures siteTimes == RangeTotals(stats, DaysInRange(stats, dates))
  {
    siteTimes := map[];
    var todo := stats.Keys;
    ghost var done: set<string> := {};
    while todo != {}
      invariant todo <= stats.Keys
      invariant done == set d | d in stats.Keys - todo && d in dates
      invariant siteTimes.Keys == RangeSites(stats, done)
      invariant forall s :: Get(siteTimes, s) == RangeSeconds(stats, done, s)
      decreases todo
    {
      var date :| date in todo;
      if date in dates {
        if stats[date].sites.Some? {
          siteTimes := AddDaySites(siteTimes, stats[date]);
        } else {
          assert SitesOf(stats[date]) == map[];
        }
        forall s
          ensures Get(siteTimes, s) == RangeSeconds(stats, done + {date}, s)
        {
          RangeSecondsRemove(stats, done + {date}, date, s);
          assert done + {date} - {date} == done;
        }
        assert RangeSites(stats, done + {date}) == RangeSites(stats, done) + SitesOf(stats[date]).Keys;
        done := done + {date};
      }
      todo := todo - {date};
    }
    assert done == DaysInRange(stats, dates);
    assert forall s :: s in siteTimes ==> siteTimes[s] == Get(siteTimes, s);
  }

  predicate Descending(xs: seq<SiteMinutes>)
  {
    forall i, j :: 0 <= i < j < |xs| ==> xs[i].minutes >= xs[j].minutes
  }

  /** Insertion into a descending list, after the entries with as many minutes. */
  function Insert(x: SiteMinutes, xs: seq<SiteMinutes>): (r: seq<SiteMinutes>)
    ensures multiset(r) == multiset(xs) + multiset{x}
  {
    if xs == [] || x.minutes >= xs[0].minutes then [x] + xs
    else
      assert xs == [xs[0]] + xs[1..];
      [xs[0]] + Insert(x, xs[1..])
  }

  lemma {:induction false} InsertKeepsDescending(x: SiteMinutes, xs: seq<SiteMinutes>)
    requires Descending(xs)
    ensures Descending(Insert(x, xs))
  {
    if xs != [] && x.minutes < xs[0].minutes {
      var rest := Insert(x, xs[1..]);
      InsertKeepsDescending(x, xs[1..]);
      forall i | 0 <= i < |rest|
        ensures rest[i].minutes <= xs[0].minutes
      {
        assert rest[i] in multiset(xs[1..]) + multiset{x};
        if rest[i] != x {
          assert rest[i] in xs[1..];
        }
      }
    }
  }

  /** `sort((a, b) => b.minutes - a.minutes)`: descending by minutes, the same entries. */
  function SortByMinutes(xs: seq<SiteMinutes>): (r: seq<SiteMinutes>)
    ensures Descending(r)
    ensures multiset(r) == multiset(xs)
  {
    if xs == [] then []
    else
      assert xs == [xs[0]] + xs[1..];
      InsertKeepsDescending(xs[0], SortByMinutes(xs[1..]));
      Insert(xs[0], SortByMinutes(xs[1..]))
  }

  /** `Object.entries(siteTimes).map(([site, seconds]) => ({site, minutes: Math.floor(seconds / 60)}))`. */
  method SiteEntries(siteTimes: map<string, int>) returns (entries: seq<SiteMinutes>)
    ensures ListsTotals(entries, siteTimes)
  {
    entries := [];
    var todo := siteTimes.Keys;
    while todo != {}
      invariant todo <= siteTimes.Keys
      invariant |entries| + |todo| == |siteTimes.Keys|
      invariant forall i :: 0 <= i < |entries| ==>
        entries[i].site in siteTimes && entries[i].minutes == siteTimes[entries[i].site] / 60
      invariant EntrySites(entries) == siteTimes.Keys - todo
      invariant DistinctSites(entries)
      decreases todo
    {
      var site :| site in todo;
      DistinctSnoc(entries, SiteMinutes(site, siteTimes[site] / 60));
      EntrySitesSnoc(entries, SiteMinutes(site, siteTimes[site] / 60));
      entries := entries + [SiteMinutes(site, siteTimes[site] / 60)];
      todo := todo - {site};
    }
  }

  function EntrySites(xs: seq<SiteMinutes>): set<string>
  {
    set i | 0 <= i < |xs| :: xs[i].site
  }

  /** No site has two entries. */
  predicate DistinctSites(xs: seq<SiteMinutes>)
  {
    forall i, j :: 0 <= i < j < |xs| ==> xs[i].site != xs[j].site
  }

  /** Appending an entry for a new site keeps the sites distinct. */
  lemma DistinctSnoc(xs: seq<SiteMinutes>, x: SiteMinutes)
    requires DistinctSites(xs) && x.site !in EntrySites(xs)
    ensures DistinctSites(xs + [x])
  {
    var ys := xs + [x];
    forall i, j | 0 <= i < j < |ys|
      ensures ys[i].site != ys[j].site
    {
      assert ys[i] == xs[i];
      if j == |xs| {
        assert xs[i].site in EntrySites(xs);
      } else {
        assert ys[j] == xs[j];
      }
    }
  }

  /** In a list with distinct sites every entry occurs once. */
  lemma DistinctOccursOnce(xs: seq<SiteMinutes>, k: int)
    requires DistinctSites(xs) && 0 <= k < |xs|
    ensures multiset(xs)[xs[k]] == 1
  {
    var x := xs[k];
    assert xs == xs[..k] + [x] + xs[k + 1..];
    assert x !in xs[..k] by {
      forall m | 0 <= m < k
        ensures xs[..k][m] != x
      {
        assert xs[m].site != x.site;
      }
    }
    assert x !in xs[k + 1..] by {
      var rest := xs[k + 1..];
      forall m | 0 <= m < |rest|
        ensures rest[m] != x
      {
        assert rest[m] == xs[k + 1 + m];
      }
    }
    assert multiset(xs) == multiset(xs[..k]) + multiset{x} + multiset(xs[k + 1..]);
  }

  /** An entry that occurs once is not repeated later. */
  lemma OnceNotRepeated(ys: seq<SiteMinutes>, i: int, j: int)
    requires 0 <= i < j < |ys| && multiset(ys)[ys[i]] == 1
    ensures ys[i] != ys[j]
  {
    assert ys == ys[..j] + ys[j..];
    assert ys[..j][i] == ys[i];
    assert ys[j..][0] == ys[j];
    assert multiset(ys) == multiset(ys[..j]) + multiset(ys[j..]);
  }

  /** Reordering a list with distinct sites keeps them distinct. */
  lemma PermutationKeepsDistinct(xs: seq<SiteMinutes>, ys: seq<SiteMinutes>)
    requires DistinctSites(xs) && multiset(ys) == multiset(xs)
    ensures DistinctSites(ys)
  {
    forall i, j | 0 <= i < j < |ys|
      ensures ys[i].site != ys[j].site
    {
      assert ys[i] in multiset(xs) && ys[j] in multiset(xs);
      var k1 :| 0 <= k1 < |xs| && xs[k1] == ys[i];
      var k2 :| 0 <= k2 < |xs| && xs[k2] == ys[j];
      DistinctOccursOnce(xs, k1);
      OnceNotRepeated(ys, i, j);
      assert k1 != k2;
    }
  }

  lemma EntrySitesSnoc(xs: seq<SiteMinutes>, x: SiteMinutes)
    ensures EntrySites(xs + [x]) == EntrySites(xs) + {x.site}
  {
    var ys := xs + [x];
    assert ys[|xs|].site == x.site;
    forall s | s in EntrySites(xs)
      ensures s in EntrySites(ys)
    {
      var i :| 0 <= i < |xs| && xs[i].site == s;
      assert ys[i].site == s;
    }
  }

  /** `relevantDates`: today, the last seven days or the last thirty; nothing for another range. */
  method RelevantDates(timeRange: string, recent: seq<string>) returns (dates: seq<string>)
    requires |recent| >= 30
    ensures dates == recent[..RangeLength(timeRange)]
  {
    var n := 0;
    if timeRange == "today" {
      n := 1;
    } else if timeRange == "week" {
      n := 7;
    } else if timeRange == "month" {
      n := 30;
    }
    dates := [];
    for i := 0 to n
      invariant dates == recent[..i]
    {
      dates := dates + [recent[i]];
    }
  }

  function RangeLength(timeRange: string): (n: nat)
    ensures n <= 30
  {
    if timeRange == "today" then 1
    else if timeRange == "week" then 7
    else if timeRange == "month" then 30
    else 0
  }

  /**
   * `top` is the ranking of `totals` in minutes: at most ten entries,
   * descending, no site twice, each a site with its whole minutes, and every
   * site left out has no more minutes than any site kept.
   */
  predicate Ranks(top: seq<SiteMinutes>, totals: map<string, int>)
  {
    |top| == Min(10, |totals.Keys|)
    && Descending(top)
    && DistinctSites(top)
    && (forall i :: 0 <= i < |top| ==> top[i].site in totals && top[i].minutes == totals[top[i].site] / 60)
    && (forall s :: s in totals && s !in EntrySites(top) ==>
          forall i :: 0 <= i < |top| ==> totals[s] / 60 <= top[i].minutes)
  }

  /** The sort and slice of `createTopSitesChart`. */
  method RankSites(siteTimes: map<string, int>) returns (top: seq<SiteMinutes>)
    ensures Ranks(top, siteTimes)
  {
    var entries := SiteEntries(siteTimes);
    var sorted := SortByMinutes(entries);
    top := sorted[..Min(10, |sorted|)];
    SortedPrefixRanks(siteTimes, entries, sorted);
  }

  /** The entries of a map of totals: one per site, with its whole minutes. */
  predicate ListsTotals(entries: seq<SiteMinutes>, totals: map<string, int>)
  {
    |entries| == |totals.Keys|
    && DistinctSites(entries)
    && (forall i :: 0 <= i < |entries| ==> entries[i].site in totals && entries[i].minutes == totals[entries[i].site] / 60)
    && EntrySites(entries) == totals.Keys
  }

  /** Sorting the entries descending and keeping ten ranks the totals. */
  lemma SortedPrefixRanks(totals: map<string, int>, entries: seq<SiteMinutes>, sorted: seq<SiteMinutes>)
    requires ListsTotals(entries, totals)
    requires Descending(sorted) && multiset(sorted) == multiset(entries)
    ensures Ranks(sorted[..Min(10, |sorted|)], totals)
  {
    assert |sorted| == |entries| by {
      assert |multiset(sorted)| == |multiset(entries)|;
    }
    var n := Min(10, |sorted|);
    var top := sorted[..n];
    RankedPrefix(entries, sorted, n);
    assert Descending(top) && DistinctSites(top) by {
      PermutationKeepsDistinct(entries, sorted);
      PrefixKeepsOrder(sorted, n);
    }
    forall i | 0 <= i < n
      ensures top[i].site in totals && top[i].minutes == totals[top[i].site] / 60
    {
      var k :| 0 <= k < |entries| && entries[k] == top[i];
    }
    forall s | s in totals && s !in EntrySites(top)
      ensures forall i :: 0 <= i < n ==> totals[s] / 60 <= top[i].minutes
    {
      LeftOutEntry(totals, entries, top, s);
    }
  }

  /** A prefix of a descending list with distinct sites is both. */
  lemma PrefixKeepsOrder(xs: seq<SiteMinutes>, n: nat)
    requires n <= |xs| && Descending(xs) && DistinctSites(xs)
    ensures Descending(xs[..n]) && DistinctSites(xs[..n])
  {
    assert forall i :: 0 <= i < n ==> xs[..n][i] == xs[i];
  }

  /** A site missing from `top` has an entry that is not in `top`. */
  lemma LeftOutEntry(totals: map<string, int>, entries: seq<SiteMinutes>, top: seq<SiteMinutes>, s: string)
    requires ListsTotals(entries, totals)
    requires s in totals && s !in EntrySites(top)
    ensures SiteMinutes(s, totals[s] / 60) in entries && SiteMinutes(s, totals[s] / 60) !in top
  {
    var k :| 0 <= k < |entries| && entries[k].site == s;
    forall i | 0 <= i < |top|
      ensures top[i] != SiteMinutes(s, totals[s] / 60)
    {
      assert top[i].site in EntrySites(top);
    }
  }

  /** `createTopSitesChart(timeRange)`: the ranking of the range's per-site seconds. */
  method TopSites(stats: Stats, timeRange: string, recent: seq<string>) returns (top: seq<SiteMinutes>)
    requires |recent| >= 30
    ensures Ranks(top, RangeTotals(stats, DaysInRange(stats, recent[..RangeLength(timeRange)])))
  {
    var dates := RelevantDates(timeRange, recent);
    var siteTimes := AggregateSiteTimes(stats, dates);
    top := RankSites(siteTimes);
  }

  /** What the sort and the slice keep: every entry left out has no more minutes than any kept one. */
  lemma RankedPrefix(entries: seq<SiteMinutes>, sorted: seq<SiteMinutes>, n: nat)
    requires n <= |sorted| && Descending(sorted) && multiset(sorted) == multiset(entries)
    ensures forall e :: e in entries && e !in sorted[..n] ==> forall i :: 0 <= i < n ==> e.minutes <= sorted[i].minutes
    ensures forall i :: 0 <= i < n ==> sorted[i] in entries
  {
    forall e | e in entries && e !in sorted[..n]
      ensures forall i :: 0 <= i < n ==> e.minutes <= sorted[i].minutes
    {
      assert e in multiset(sorted);
      var k :| 0 <= k < |sorted| && sorted[k] == e;
      assert k >= n;
    }
    forall i | 0 <= i < n
      ensures sorted[i] in entries
    {
      assert sorted[i] in multiset(entries);
    }
  }

  function Min(a: int, b: int): int
  {
    if a <= b then a else b
  }

  // ------------------------------------------------------------ days remaining

  /** What the "days remaining" card shows. */
  datatype DaysDisplay = BorrowedTime | DaysCount(days: int) | Unbounded

  /** The card: "Borrowed Time" below zero, the count when positive, "∞" for zero (an unknown age). */
  function DaysRemainingDisplay(age: int, continent: string): (r: DaysDisplay)
    ensures r == Unbounded <==> age == 0
    ensures r == BorrowedTime <==> age != 0 && age >= ExpectedLifespan(continent)
    ensures r.DaysCount? ==> r.days == CalculateDaysLeft(age, continent) && r.days > 0
  {
    var daysLeft := CalculateDaysLeft(age, continent);
    if daysLeft < 0 then BorrowedTime
    else if daysLeft > 0 then DaysCount(daysLeft)
    else Unbounded
  }

  // ------------------------------------------------------------ the page

  /** A completed goal created on another day; `cleanupOldGoals` removes these. */
  predicate StaleGoal(g: Goal, today: string)
  {
    g.completed && g.createdDay.Some? && g.createdDay.value != today
  }

  function CleanedGoals(goals: seq<Goal>, today: string): (r: seq<Goal>)
    ensures forall i :: 0 <= i < |r| ==> !StaleGoal(r[i], today) && r[i] in goals
    ensures forall g :: g in goals && !StaleGoal(g, today) ==> g in r
  {
    Filter(goals, (g: Goal) => !StaleGoal(g, today))
  }

  predicate AnyStale(goals: seq<Goal>, today: string)
  {
    exists k :: 0 <= k < |goals| && StaleGoal(goals[k], today)
  }

  /** Something is removed exactly when a stale goal is present. */
  lemma CleanupShortensIffStale(goals: seq<Goal>, today: string)
    ensures |CleanedGoals(goals, today)| < |goals| <==> AnyStale(goals, today)
    ensures !AnyStale(goals, today) ==> CleanedGoals(goals, today) == goals
  {
    if AnyStale(goals, today) {
      var k :| 0 <= k < |goals| && StaleGoal(goals[k], today);
      FilterDrops(goals, (g: Goal) => !StaleGoal(g, today), k);
    }
  }

  /** One more goal is kept unless it is stale. */
  lemma CleanedGoalsStep(goals: seq<Goal>, today: string, i: nat)
    requires i < |goals|
    ensures CleanedGoals(goals[..i + 1], today)
         == CleanedGoals(goals[..i], today) + (if StaleGoal(goals[i], today) then [] else [goals[i]])
  {
    assert goals[..i + 1] == goals[..i] + [goals[i]];
    FilterConcat(goals[..i], [goals[i]], (g: Goal) => !StaleGoal(g, today));
  }

  /** One more goal makes the list hold a stale goal when it is stale itself. */
  lemma AnyStaleStep(goals: seq<Goal>, today: string, i: nat)
    requires i < |goals|
    ensures AnyStale(goals[..i + 1], today) <==> AnyStale(goals[..i], today) || StaleGoal(goals[i], today)
  {
    if AnyStale(goals[..i + 1], today) && !StaleGoal(goals[i], today) {
      var k :| 0 <= k < i + 1 && StaleGoal(goals[..i + 1][k], today);
      assert goals[..i][k] == goals[k];
    }
    if AnyStale(goals[..i], today) {
      var k :| 0 <= k < i && StaleGoal(goals[..i][k], today);
      assert goals[..i + 1][k] == goals[k];
    }
    if StaleGoal(goals[i], today) {
      assert goals[..i + 1][i] == goals[i];
    }
  }

  /** The cleanup removes nothing the second time. */
  lemma CleanupIdempotent(goals: seq<Goal>, today: string)
    ensures CleanedGoals(CleanedGoals(goals, today), today) == CleanedGoals(goals, today)
  {
    var r := CleanedGoals(goals, today);
    assert forall i :: 0 <= i < |r| ==> !StaleGoal(r[i], today);
  }

  /** The data the page loaded from storage. */
  class StatsManager {
    var userAge: int
    var userContinent: string
    var goals: seq<Goal>
    var dailyStats: Stats
    var dailyTimeSpent: map<string, LegacyTime>

    constructor(userAge: int, userContinent: string, goals: seq<Goal>, dailyStats: Stats,
                dailyTimeSpent: map<string, LegacyTime>)
      ensures this.userAge == userAge && this.userContinent == userContinent && this.goals == goals
      ensures this.dailyStats == dailyStats && this.dailyTimeSpent == dailyTimeSpent
    {
      this.userAge := userAge;
      this.userContinent := userContinent;
      this.goals := goals;
      this.dailyStats := dailyStats;
      this.dailyTimeSpent := dailyTimeSpent;
    }

    /** `getTodayScreenTime`. */
    method GetTodayScreenTime(today: string) returns (totalMinutes: int)
      ensures totalMinutes == ScreenMinutes(dailyStats, dailyTimeSpent, today)
    {
      totalMinutes := 0;
      if today in dailyStats && dailyStats[today].totalTime != 0 {
        totalMinutes := totalMinutes + dailyStats[today].totalTime / 60;
      }
      if today in dailyTimeSpent {
        match dailyTimeSpent[today]
        case LegacyMinutes(m) =>
          totalMinutes := totalMinutes + m;
        case LegacyPerSite(vs) =>
          totalMinutes := AddValues(totalMinutes, vs);
      }
    }

    /** `generateWeeklyData`: seven bars, oldest first, today last. */
    method GenerateWeeklyData(week: seq<DayRef>) returns (weekData: seq<DayBar>)
      requires |week| == 7 && forall j :: 0 <= j < 7 ==> 0 <= week[j].weekday < 7
      ensures |weekData| == 7
      ensures forall j :: 0 <= j < 7 ==>
        weekData[j] == DayBar(WeekdayLabel(week[j].weekday), BarValue(dailyStats, dailyTimeSpent, week[j].key, j < 6), week[j].key)
      ensures forall j :: 0 <= j < 7 ==> weekData[j].value >= 0
    {
      weekData := [];
      for i := 7 downto 0
        invariant |weekData| == 7 - i
        invariant forall j :: 0 <= j < 7 - i ==>
          weekData[j] == DayBar(WeekdayLabel(week[j].weekday), BarValue(dailyStats, dailyTimeSpent, week[j].key, j < 6), week[j].key)
      {
        var date := week[6 - i];
        var timeSpent := GetDayMinutes(date.key);
        if timeSpent == 0 && i > 0 {
          if date.key in dailyStats && dailyStats[date.key].blocked.Visits? && dailyStats[date.key].blocked.n != 0 {
            timeSpent := dailyStats[date.key].blocked.n;
          }
        }
        weekData := weekData + [DayBar(WeekdayLabel(date.weekday), Max(0, timeSpent), date.key)];
      }
    }

    /** The per-day sum `generateWeeklyData` repeats for each day (the same as `getTodayScreenTime`). */
    method GetDayMinutes(day: string) returns (timeSpent: int)
      ensures timeSpent == ScreenMinutes(dailyStats, dailyTimeSpent, day)
    {
      timeSpent := GetTodayScreenTime(day);
    }

    /** `cleanupOldGoals`: drops completed goals of earlier days; says whether anything went. */
    method CleanupOldGoals(today: string) returns (goalsChanged: bool)
      modifies this`goals
      ensures goals == CleanedGoals(old(goals), today)
      ensures goalsChanged <==> AnyStale(old(goals), today)
    {
      ghost var original := goals;
      var kept: seq<Goal> := [];
      goalsChanged := false;
      var i := 0;
      while i < |goals|
        invariant 0 <= i <= |goals| && goals == original
        invariant kept == CleanedGoals(goals[..i], today)
        invariant goalsChanged <==> AnyStale(goals[..i], today)
      {
        var goal := goals[i];
        CleanedGoalsStep(goals, today, i);
        AnyStaleStep(goals, today, i);
        if StaleGoal(goal, today) {
          goalsChanged := true;
        } else {
          kept := kept + [goal];
        }
        i := i + 1;
      }
      assert goals[..|goals|] == goals;
      goals := kept;
    }

    /** The "days remaining" card of `updateStats`. */
    function DaysRemaining(): (r: DaysDisplay)
      reads this
      ensures r == Unbounded <==> userAge == 0
      ensures r == BorrowedTime <==> userAge != 0 && userAge >= ExpectedLifespan(userContinent)
    {
      DaysRemainingDisplay(userAge, userContinent)
    }
  }
}
