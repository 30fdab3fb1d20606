/**
 * Host matching in background.js: the tiered matcher behind blocking
 * (`shouldBlockSite`) and the looser substring matcher behind time
 * accounting (`isSiteTracked`), plus the navigation check `checkAndBlockSite`.
 */
module Matching {
  import opened Wrappers
  import opened Strings
  import opened Schedules
  import opened Sequences

  /** A blocked-site entry as both matchers clean it: lower-cased, trimmed, one "www." removed. */
  function CleanSite(site: string): string
  {
    StripPrefix(Trim(Lower(site)), "www.")
  }

  /** A host name as both matchers clean it: lower-cased, one "www." removed (not trimmed). */
  function CleanHost(hostname: string): string
  {
    StripPrefix(Lower(hostname), "www.")
  }

  /** `s.split('.').slice(-2).join('.')`: the last two labels (fewer when there are fewer). */
  function LastTwoLabels(s: string): string
  {
    var labels := Split(s, '.');
    Join(if |labels| >= 2 then labels[|labels| - 2..] else labels, '.')
  }

  /** The four tiers: equal, host under site, site under host, same last two labels. */
  predicate TieredMatch(host: string, site: string)
  {
    host == site
    || EndsWith(host, "." + site)
    || EndsWith(site, "." + host)
    || LastTwoLabels(host) == LastTwoLabels(site)
  }

  /** One blocked-site entry blocks a host. */
  predicate SiteBlocks(hostname: string, site: string)
  {
    TieredMatch(CleanHost(hostname), CleanSite(site))
  }

  /** The accounting matcher: equal, or either contains the other. */
  predicate SubstringMatch(host: string, site: string)
  {
    host == site || Contains(host, site) || Contains(site, host)
  }

  predicate SiteTracks(hostname: string, site: string)
  {
    SubstringMatch(CleanHost(hostname), CleanSite(site))
  }

  lemma TieredMatchSymmetric(a: string, b: string)
    ensures TieredMatch(a, b) <==> TieredMatch(b, a)
  {}

  /** Some entry of `sites` blocks `hostname`. */
  function AnySiteBlocks(hostname: string, sites: seq<string>): (r: bool)
    ensures r <==> exists j :: 0 <= j < |sites| && SiteBlocks(hostname, sites[j])
  {
    AnyOf(sites, (site: string) => SiteBlocks(hostname, site))
  }

  /** One schedule blocks `hostname` at `m`: active, in its window, and listing a matching entry. */
  predicate ScheduleBlocks(hostname: string, m: Moment, s: Schedule)
  {
    s.active && IsBlockingTimeActive(m, s) && AnySiteBlocks(hostname, s.blockedSites)
  }

  /**
   * `shouldBlockSite(hostname, currentTime, schedules)`: some active schedule
   * whose window contains the moment lists an entry that blocks the host.
   */
  function ShouldBlockSite(hostname: string, m: Moment, schedules: seq<Schedule>): (r: bool)
    ensures r <==> exists i :: 0 <= i < |schedules| && ScheduleBlocks(hostname, m, schedules[i])
  {
    AnyOf(schedules, (s: Schedule) => ScheduleBlocks(hostname, m, s))
  }

  /** `isSiteTracked(hostname, schedules)`: any schedule, active or not, at any time. */
  function IsSiteTracked(hostname: string, schedules: seq<Schedule>): (r: bool)
    ensures r <==> TrackedIn(hostname, schedules)
  {
    if schedules == [] then false
    else
      TrackedInCons(hostname, schedules);
      AnySiteTracks(hostname, schedules[0].blockedSites) || IsSiteTracked(hostname, schedules[1..])
  }

  /** Some entry of some schedule tracks `hostname`. */
  predicate TrackedIn(hostname: string, schedules: seq<Schedule>)
  {
    exists i, j :: 0 <= i < |schedules| && 0 <= j < |schedules[i].blockedSites|
      && SiteTracks(hostname, schedules[i].blockedSites[j])
  }

  /** An entry tracks `hostname` in the first schedule or in one of the rest. */
  lemma TrackedInCons(hostname: string, schedules: seq<Schedule>)
    requires schedules != []
    ensures TrackedIn(hostname, schedules) <==>
      (exists j :: 0 <= j < |schedules[0].blockedSites| && SiteTracks(hostname, schedules[0].blockedSites[j]))
      || TrackedIn(hostname, schedules[1..])
  {
    if TrackedIn(hostname, schedules) {
      TrackedInSplit(hostname, schedules);
    }
    if TrackedIn(hostname, schedules[1..]) {
      TrackedInRest(hostname, schedules);
    }
  }

  lemma TrackedInSplit(hostname: string, schedules: seq<Schedule>)
    requires schedules != [] && TrackedIn(hostname, schedules)
    ensures (exists j :: 0 <= j < |schedules[0].blockedSites| && SiteTracks(hostname, schedules[0].blockedSites[j]))
      || TrackedIn(hostname, schedules[1..])
  {
    var i, j :| 0 <= i < |schedules| && 0 <= j < |schedules[i].blockedSites|
      && SiteTracks(hostname, schedules[i].blockedSites[j]);
    if i == 0 {
      assert SiteTracks(hostname, schedules[0].blockedSites[j]);
    } else {
      var rest := schedules[1..];
      assert rest[i - 1] == schedules[i];
      assert 0 <= i - 1 < |rest| && 0 <= j < |rest[i - 1].blockedSites|
        && SiteTracks(hostname, rest[i - 1].blockedSites[j]);
      assert TrackedIn(hostname, rest);
    }
  }

  lemma TrackedInRest(hostname: string, schedules: seq<Schedule>)
    requires schedules != [] && TrackedIn(hostname, schedules[1..])
    ensures TrackedIn(hostname, schedules)
  {
    var rest := schedules[1..];
    var i, j :| 0 <= i < |rest| && 0 <= j < |rest[i].blockedSites|
      && SiteTracks(hostname, rest[i].blockedSites[j]);
    assert schedules[i + 1] == rest[i];
    assert SiteTracks(hostname, schedules[i + 1].blockedSites[j]);
  }

  function AnySiteTracks(hostname: string, sites: seq<string>): (r: bool)
    ensures r <==> exists j :: 0 <= j < |sites| && SiteTracks(hostname, sites[j])
  {
    AnyOf(sites, (site: string) => SiteTracks(hostname, site))
  }

  /** Whatever would block a host also counts it as tracked (blocking only adds conditions)... */
  lemma ExactEntryIsBoth(hostname: string, site: string)
    requires CleanHost(hostname) == CleanSite(site)
    ensures SiteBlocks(hostname, site) && SiteTracks(hostname, site)
  {}

  lemma EndsWithConcat(a: string, b: string)
    ensures EndsWith(a + b, b)
  {
    assert (a + b)[|a|..] == b;
  }

  /** A subdomain of an entry matches it. */
  lemma SubdomainMatches(sub: string, site: string)
    ensures TieredMatch(sub + "." + site, site)
  {
    EndsWithConcat(sub, "." + site);
    assert sub + "." + site == sub + ("." + site);
  }

  /** A subdomain of a listed entry is blocked. */
  lemma SubdomainBlocked(hostname: string, sub: string, site: string)
    requires CleanHost(hostname) == sub + "." + CleanSite(site)
    ensures SiteBlocks(hostname, site)
  {
    SubdomainMatches(sub, CleanSite(site));
  }

  predicate NoDot(s: string) { forall i :: 0 <= i < |s| ==> s[i] != '.' }

  lemma SplitNoDot(s: string)
    requires NoDot(s)
    ensures Split(s, '.') == [s]
  {
    IndexOfAbsent(s, '.');
  }

  lemma SplitTwo(a: string, b: string)
    requires NoDot(a) && NoDot(b)
    ensures Split(a + "." + b, '.') == [a, b]
  {
    var ps := [a, b];
    assert Join(ps, '.') == a + "." + b by {
      assert Join(ps[1..], '.') == b;
    }
    SplitJoin(ps, '.');
  }

  lemma SplitThree(a: string, b: string, c: string)
    requires NoDot(a) && NoDot(b) && NoDot(c)
    ensures Split(a + "." + b + "." + c, '.') == [a, b, c]
  {
    var ps := [a, b, c];
    assert Join(ps, '.') == a + "." + b + "." + c by {
      assert Join(ps[1..], '.') == b + "." + c by {
        assert Join(ps[2..], '.') == c;
      }
    }
    SplitJoin(ps, '.');
  }

  /** Two hosts under the same two-label suffix ("x.co.uk", "y.co.uk") block each other. */
  lemma SharedSuffixMatches(x: string, y: string, b: string, c: string)
    requires NoDot(x) && NoDot(y) && NoDot(b) && NoDot(c)
    ensures TieredMatch(x + "." + b + "." + c, y + "." + b + "." + c)
  {
    SplitThree(x, b, c);
    SplitThree(y, b, c);
    var l := [x, b, c];
    assert l[|l| - 2..] == [b, c];
    var k := [y, b, c];
    assert k[|k| - 2..] == [b, c];
  }

  /** A two-label name is its own last two labels. */
  lemma LastTwoOfTwo(x: string, y: string)
    requires NoDot(x) && NoDot(y)
    ensures LastTwoLabels(x + "." + y) == x + "." + y
  {
    SplitTwo(x, y);
    var l := [x, y];
    assert l[|l| - 2..] == l;
    assert Join(l, '.') == x + "." + y by {
      assert Join(l[1..], '.') == y;
    }
  }

  /** Gluing dot-free letters in front of a name does not make it a dot-suffix. */
  lemma GluedPrefixNotDotSuffix(p: string, site: string)
    requires p != [] && NoDot(p)
    ensures !EndsWith(p + site, "." + site)
  {
    var h := p + site;
    assert h[|p| - 1] == p[|p| - 1] != '.';
  }

  /**
   * The tiers do not match a look-alike that merely contains the entry:
   * "preddit.com" is not blocked by "reddit.com", although the accounting
   * matcher counts it.
   */
  lemma LookalikeNotBlockedButTracked(p: string, a: string, b: string)
    requires p != [] && NoDot(p) && NoDot(a) && NoDot(b)
    ensures !TieredMatch(p + a + "." + b, a + "." + b)
    ensures SubstringMatch(p + a + "." + b, a + "." + b)
  {
    var site := a + "." + b;
    var host := p + site;
    assert host == (p + a) + "." + b == p + a + "." + b;
    LookalikeParts(p, a, b, host, site);
    assert host[|p|..] == site;
    ContainsAt(host, site, |p|);
  }

  lemma LookalikeParts(p: string, a: string, b: string, host: string, site: string)
    requires p != [] && NoDot(p) && NoDot(a) && NoDot(b)
    requires site == a + "." + b && host == (p + a) + "." + b && host == p + site
    ensures !TieredMatch(host, site)
  {
    assert NoDot(p + a);
    LastTwoOfTwo(p + a, b);
    LastTwoOfTwo(a, b);
    GluedPrefixNotDotSuffix(p, site);
    assert |host| > |site|;
  }

  /** An entry that is blank after cleaning counts every host as tracked. */
  lemma BlankEntryTracksEverything(hostname: string, site: string)
    requires CleanSite(site) == ""
    ensures SiteTracks(hostname, site)
  {
    EverythingContainsEmpty(CleanHost(hostname));
  }

  lemma JoinOfTwoOrMore(ps: seq<string>, c: char)
    requires |ps| >= 2
    ensures Join(ps, c) != ""
  {
    assert Join(ps, c) == ps[0] + [c] + Join(ps[1..], c);
  }

  /** Only the empty name has empty last two labels. */
  lemma LastTwoEmpty(h: string)
    ensures LastTwoLabels(h) == "" <==> h == ""
  {
    var labels := Split(h, '.');
    if |labels| >= 2 {
      JoinOfTwoOrMore(labels[|labels| - 2..], '.');
      JoinOfTwoOrMore(labels, '.');
      JoinSplit(h, '.');
    } else {
      JoinSplit(h, '.');
    }
  }

  lemma TieredWithBlank(h: string)
    ensures TieredMatch(h, "") <==> h == "" || EndsWith(h, ".")
  {
    LastTwoEmpty(h);
    LastTwoEmpty("");
  }

  /** ... while it blocks only an empty host or one ending in a dot. */
  lemma BlankEntryBlocksAlmostNothing(hostname: string, site: string)
    requires CleanSite(site) == ""
    ensures SiteBlocks(hostname, site) <==> CleanHost(hostname) == "" || EndsWith(CleanHost(hostname), ".")
  {
    TieredWithBlank(CleanHost(hostname));
  }

  /** An entry of white space only is blank after cleaning. */
  lemma SpacesAreBlank(site: string)
    requires forall i :: 0 <= i < |site| ==> IsSpace(site[i])
    ensures CleanSite(site) == ""
  {
    assert forall i :: 0 <= i < |Lower(site)| ==> IsSpace(Lower(site)[i]);
  }

  /** A schedule with a blank entry makes `isSiteTracked` true for every host. */
  lemma BlankEntryInSchedules(hostname: string, schedules: seq<Schedule>, i: nat, j: nat)
    requires i < |schedules| && j < |schedules[i].blockedSites|
    requires CleanSite(schedules[i].blockedSites[j]) == ""
    ensures IsSiteTracked(hostname, schedules)
  {
    BlankEntryTracksEverything(hostname, schedules[i].blockedSites[j]);
  }

  // --------------------------------------------------------- checkAndBlockSite

  /** What `checkAndBlockSite` does with a navigation. */
  datatype NavDecision = Exempt | Unparsable | Allow | Redirect(host: string)

  predicate ExemptUrl(url: string)
  {
    StartsWith(url, "chrome-extension://") || StartsWith(url, "chrome://")
    || StartsWith(url, "about:") || StartsWith(url, "moz-extension://")
  }

  /**
   * `checkAndBlockSite(url, tabId)`: extension and browser pages are exempt,
   * an unparsable URL is let through, otherwise the lower-cased host of
   * `parsedHost` (what `new URL(url).hostname` gives) is redirected exactly
   * when `shouldBlockSite` says so.
   */
  function CheckAndBlockSite(url: string, parsedHost: Option<string>, m: Moment, schedules: seq<Schedule>): (d: NavDecision)
    ensures d == Exempt <==> ExemptUrl(url)
    ensures d == Unparsable <==> !ExemptUrl(url) && parsedHost.None?
    ensures d.Redirect? <==> !ExemptUrl(url) && parsedHost.Some? && ShouldBlockSite(Lower(parsedHost.value), m, schedules)
    ensures d.Redirect? ==> d.host == Lower(parsedHost.value)
  {
    if ExemptUrl(url) then Exempt
    else match parsedHost
      case None => Unparsable
      case Some(h) =>
        var hostname := Lower(h);
        if ShouldBlockSite(hostname, m, schedules) then Redirect(hostname) else Allow
  }

  /** Blocking fails open: no schedules, or none active, never redirects. */
  lemma NoActiveScheduleAllows(url: string, parsedHost: Option<string>, m: Moment, schedules: seq<Schedule>)
    requires forall i :: 0 <= i < |schedules| ==> !schedules[i].active
    ensures !CheckAndBlockSite(url, parsedHost, m, schedules).Redirect?
  {}
}
