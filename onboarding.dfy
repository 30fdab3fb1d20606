/**
 * The first-run page (onboarding.js): the list of sites to block, the gate on
 * the "complete" button, and the settings `completeSetup` stores, including
 * the all-week default schedule. The page's inputs are fields and parameters;
 * `new Date(birthdate)` arrives already read as a calendar date.
 */
module Onboarding {
  import opened Wrappers
  import opened Strings
  import opened Sequences
  import opened Sites
  import opened Helpers
  import opened Schedules

  const DefaultScheduleDays: seq<int> := [0, 1, 2, 3, 4, 5, 6]

  /** The schedules `completeSetup` stores: one all-day, all-week schedule when sites were added, none otherwise. */
  function DefaultSchedules(sites: seq<string>): (r: seq<Schedule>)
    ensures |r| <= 1
    ensures r == [] <==> sites == []
    ensures r != [] ==> r[0].blockedSites == sites && r[0].active && r[0].days == DefaultScheduleDays
  {
    if |sites| > 0 then [Schedule("Default Schedule", "00:00", "23:59", DefaultScheduleDays, sites, true)]
    else []
  }

  /** The default schedule blocks at every minute of every day. */
  lemma DefaultScheduleAlwaysOn(sites: seq<string>, m: Moment)
    requires sites != [] && ValidMoment(m)
    ensures IsBlockingTimeActive(m, DefaultSchedules(sites)[0])
  {
    var s := DefaultSchedules(sites)[0];
    assert m.weekday in s.days by {
      assert s.days[m.weekday] == m.weekday;
    }
    assert InWindow(m.minuteOfDay, ParseTime(s.startTime), ParseTime(s.endTime)) by {
      Clock0000();
      Clock2359();
    }
  }

  lemma Clock0000() ensures ParseTime("00:00") == 0
  {
    ParseTimeOfClock(0, 0);
    assert Pad2(0) + ":" + Pad2(0) == "00:00";
  }

  lemma Clock2359() ensures ParseTime("23:59") == 1439
  {
    ParseTimeOfClock(23, 59);
    assert Pad2(23) + ":" + Pad2(59) == "23:59";
  }

  /** What `completeSetup` writes to storage (the fields this model keeps). */
  datatype Settings = Settings(
    birthdate: string,
    userAge: int,
    userContinent: string,
    dailyNotifications: bool,
    notificationTime: string,
    blockedSites: seq<string>,
    blockingSchedules: seq<Schedule>,
    strictMode: bool,
    strictModePin: string,
    privacyAccepted: bool,
    wastedTime: int)

  class OnboardingManager {
    var blockedSites: seq<string>
    /** The text of the site input box. */
    var siteInput: string
    /** Whether the "complete setup" button is disabled. */
    var completeDisabled: bool

    /** The constructor, with `init`'s first `updateCompleteButton` on the page's initial inputs. */
    constructor(privacyAccepted: bool, birthdate: string)
      ensures blockedSites == [] && siteInput == ""
      ensures completeDisabled <==> !(privacyAccepted && birthdate != "")
    {
      blockedSites := [];
      siteInput := "";
      completeDisabled := !(privacyAccepted && birthdate != "");
    }

    /**
     * `addSite`: the typed entry, trimmed, lower-cased and cut down to its host,
     * is appended when it is non-empty and not yet listed; the input is then
     * cleared.
     */
    method AddSite()
      modifies this`blockedSites, this`siteInput
      ensures var c := NormalizeSite(old(siteInput));
        if c != "" && c !in old(blockedSites) then blockedSites == old(blockedSites) + [c] && siteInput == ""
        else blockedSites == old(blockedSites) && siteInput == old(siteInput)
      ensures old(NoDup(blockedSites)) ==> NoDup(blockedSites)
    {
      var site := Lower(Trim(siteInput));
      if site == "" {
        assert Trim(siteInput) == "";
        BlankEntryIsDropped(siteInput);
        return;
      }
      var cleanSite := Cuts(site);
      assert cleanSite == NormalizeSite(siteInput);
      if cleanSite != "" && cleanSite !in blockedSites {
        if NoDup(blockedSites) {
          AppendKeepsNoDup(blockedSites, cleanSite);
        }
        blockedSites := blockedSites + [cleanSite];
        siteInput := "";
      }
    }

    /** A quick-add button: its site is appended unless already listed. */
    method QuickAdd(site: string)
      modifies this`blockedSites
      ensures blockedSites == if site in old(blockedSites) then old(blockedSites) else old(blockedSites) + [site]
      ensures old(NoDup(blockedSites)) ==> NoDup(blockedSites)
    {
      if site !in blockedSites {
        if NoDup(blockedSites) {
          AppendKeepsNoDup(blockedSites, site);
        }
        blockedSites := blockedSites + [site];
      }
    }

    /** `removeSite`: every entry equal to `site` goes, the rest keep their order. */
    method RemoveSite(site: string)
      modifies this`blockedSites
      ensures blockedSites == Without(old(blockedSites), site)
      ensures old(NoDup(blockedSites)) ==> NoDup(blockedSites)
    {
      if NoDup(blockedSites) {
        WithoutKeepsNoDup(blockedSites, site);
      }
      blockedSites := Without(blockedSites, site);
    }

    /** `updateCompleteButton`: enabled exactly when privacy is accepted and a birth date is entered. */
    method UpdateCompleteButton(privacyAccepted: bool, birthdate: string)
      modifies this`completeDisabled
      ensures !completeDisabled <==> privacyAccepted && birthdate != ""
    {
      if privacyAccepted && birthdate != "" {
        completeDisabled := false;
      } else {
        completeDisabled := true;
      }
    }

    /**
     * The settings `completeSetup` saves: the age in completed years, the
     * sites and the default schedule built from them, strict mode off without
     * a PIN, and no wasted time.
     */
    method CompleteSetup(birthdate: string, birth: CalendarDate, today: CalendarDate, userContinent: string,
                         dailyNotifications: bool, notificationTime: string) returns (settings: Settings)
      ensures BirthdayReached(today, birth, settings.userAge) && !BirthdayReached(today, birth, settings.userAge + 1)
      ensures settings.userAge == CalculateAge(today, Some(birth))
      ensures settings.birthdate == birthdate && settings.userContinent == userContinent
      ensures settings.dailyNotifications == dailyNotifications && settings.notificationTime == notificationTime
      ensures settings.blockedSites == blockedSites && settings.blockingSchedules == DefaultSchedules(blockedSites)
      ensures !settings.strictMode && settings.strictModePin == "" && settings.privacyAccepted
      ensures settings.wastedTime == 0
    {
      var userAge := today.year - birth.year;
      var monthDiff := today.month - birth.month;
      if monthDiff < 0 || (monthDiff == 0 && today.day < birth.day) {
        userAge := userAge - 1;
      }
      var blockingSchedules: seq<Schedule> := [];
      if |blockedSites| > 0 {
        blockingSchedules := [Schedule("Default Schedule", "00:00", "23:59", DefaultScheduleDays, blockedSites, true)];
      }
      settings := Settings(birthdate, userAge, userContinent, dailyNotifications, notificationTime,
                           blockedSites, blockingSchedules, false, "", true, 0);
    }
  }
}
