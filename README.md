# Memento-Mori core in Dafny

Memento-Mori is a browser extension that blocks distracting sites on
schedules, measures screen time, and reminds the user of the days they have
left. This project models its core and proves properties of the model.

The core is the service worker's engine (background.js):

- the two host matchers;
- the schedule-window test and the blocking decision;
- the per-day statistics store;
- the activity tracker, driven by tab, focus and idle events;
- the schedule-notification scheduler with its per-day dedup map;
- deadline reminders and the deadline pick of the daily notification.

Around it sit:

- the shared helpers (utils/helpers.js, utils.js);
- the two loggers (utils/logger.js, utils.js);
- the in-page idle detector (content.js);
- the pages of the extension: options, first-run, statistics, popup and focus mode.

One Dafny module models each source file. Shared modules hold the string,
sequence and site-normalisation pieces:

| module | models |
|---|---|
| `Helpers` | utils/helpers.js. utils.js repeats `parseTime`, `formatTime`, `cleanHostname`, `isValidPIN` and `calculateAge` word for word, so it is modelled once. |
| `Utils` | what differs in utils.js: the birth-date branch of `calculateDaysLeft` and the permissive `Logger` object. |
| `Logging` | the `Logger` class of utils/logger.js. |
| `Schedules`, `Matching` | `isBlockingTimeActive`, `shouldBlockSite`, `isSiteTracked` and `checkAndBlockSite`. |
| `DailyStats` | the `dailyStats` store as a map from date key to a day record, and its pure updates. |
| `Background` | the `BackgroundService` class: the tracker fields, the handlers and the per-second polls over that store. |
| `Notifications` | the schedule-notice scheduler, the reminder times and the deadline pick. |
| `Content` | the `IdleDetector` class (content.js). |
| `Sites` | the site-entry normalisation shared by options.js and onboarding.js. |
| `Options`, `Onboarding`, `Stats`, `Popup`, `Focus` | the page classes. |

Times come in as inputs rather than from a clock:

- a weekday 0..6 (0 = Sunday);
- a minute of the day;
- a millisecond instant;
- a date key;
- a time-zone offset.

Hostnames parsed by `new URL(...)` arrive as `Option<string>`. Browser storage
is a field or a map of the class that owns it.

## Model

| member | source | states |
|---|---|---|
| Helpers.YearsBetween | utils/helpers.js:18-23 | the result is the one count k with the k-th birthday reached and the (k+1)-th not |
| Helpers.CalculateAge | utils/helpers.js:14-24 | 0 without a birth date; otherwise the number of completed years (birthday reached, next one not) |
| Helpers.AgeIsUnique | utils/helpers.js:18-23 | any count with that birthday property equals the computed age |
| Helpers.MonotoneBirthday | utils/helpers.js:18-23 | reaching the k-th birthday implies reaching every earlier one |
| Helpers.ExpectedLifespan | utils/helpers.js:35-45 | the continent table with its default of 79 lies between 64 and 81 |
| Helpers.YearsToDays | utils/helpers.js:51-52 | floor(years * 365.25), stated as 4d <= 1461y < 4d + 4 |
| Helpers.CalculateDaysLeft | utils/helpers.js:32-53 | 0 for age 0; -1 for age >= lifespan; otherwise positive and floor((lifespan - age) * 365.25) |
| Helpers.DaysLeftDecreasesWithAge | utils/helpers.js:47-52 | an older user never has more days left on the same continent |
| Helpers.DaysLeftExamples | utils/helpers.js:32-53 | 85 in North America is -1; an unknown continent falls back to 79 (30 gives 17897) |
| Helpers.NumberOfPart | utils/helpers.js:62 | `Number(part)`: "" is 0, a digit string is its value, anything else is NaN (none) |
| Helpers.ParseTimeOfClock | utils/helpers.js:60-64 | a zero-padded "HH:MM" parses to hours * 60 + minutes |
| Helpers.ParseTimeExamples | utils/helpers.js:60-64 | "09:00" is 540 and "23:59" is 1439 |
| Helpers.ParseTimeEdgeExamples | utils/helpers.js:61-63 | "00:00" is 0 and "" is 0 |
| Helpers.ParseTimeHoursOnly | utils/helpers.js:62-63 | a string without a colon counts as whole hours (missing minutes are 0) |
| Helpers.ParseTimeBadHours | utils/helpers.js:62-63 | a non-numeric hour field counts 0 while the minutes still count |
| Helpers.ReadsBackBelowDay | utils/helpers.js:74-77 | between 60 and 1439 minutes the "Hh Mm" / "Hh" text reads back as exactly the minutes |
| Helpers.ReadsBackFromDay | utils/helpers.js:78-81 | from a day on, the "Dd Hh" / "Dd" text reads back as the minutes without their last partial hour |
| Helpers.FormatTimeReadsBack | utils/helpers.js:71-83 | for every input, the text reads back as m below a day and as m - m % 60 from a day on |
| Helpers.FormatTimeExamples | utils/helpers.js:72-77 | 30 is "30m", 90 is "1h 30m", 120 is "2h" |
| Helpers.FormatTimeDayExamples | utils/helpers.js:78-81 | 1440 is "1d" and 1500 is "1d 1h" (the minutes are dropped) |
| Helpers.CleanHostnameShape | utils/helpers.js:90-93 | the result is lower case and is the lower-cased input with at most one leading "www." removed |
| Helpers.CleanHostnameIdempotentIff | utils/helpers.js:90-93 | cleaning twice equals cleaning once iff the result does not itself start with "www." |
| Helpers.CleanHostnameStripsWww | utils/helpers.js:90-93 | "www." + a lower-case host cleans to the host |
| Helpers.PaddedCodeIsValidPIN | utils/helpers.js:111-113 | every code 0000..9999 written with its leading zeros is a valid PIN |
| Helpers.IsValidPINExamples | utils/helpers.js:111-113 | four digits pass; three or five digits, letters and "" fail |
| Helpers.DaysUntil | utils/helpers.js:132-137 | ceil((deadline - now) / day), stated as (d - 1) * day < deadline - now <= d * day |
| Helpers.DaysUntilDeadline | utils/helpers.js:132-137 | null exactly without a deadline; otherwise the rounded-up day count |
| Helpers.DaysUntilRoundsUp | utils/helpers.js:136 | a deadline at now is 0 days away; one ms later is 1; one ms earlier is 0 |
| Utils.CalculateDaysLeft | utils.js:61-103 | with a birth date: -1 once the death date has passed, else the rounded-up days to it |
| Utils.AgeFallbackAgrees | utils.js:94-102 | without a birth date it agrees with the utils/helpers.js version |
| Utils.BirthdatePathEdges | utils.js:84-91 | a death date at now is 0 days left; 1 ms in the past is borrowed time (-1) |
| Utils.UtilsLogger.SetLevel | utils.js:13-15 | stores any level name, even an unknown one |
| Utils.UtilsLogger.Error | utils.js:40-44 | an error is printed iff the stored level is one of the four known names |
| Utils.UtilsLogger.Debug | utils.js:22-26 | debug is printed iff the level is "debug" |
| Utils.MisspeltLevelScenario | utils.js:13-20 | after `setLevel("warning")` this logger drops errors, the utils/logger.js class keeps them |
| Logging.LevelRank | utils/logger.js:35 | ranks 0..3 exactly for debug, info, warn and error |
| Logging.RaisingThresholdSilences | utils/logger.js:34-37 | raising the threshold never enables a level that was filtered out |
| Logging.KnownThresholdBounds | utils/logger.js:34-37 | under a known threshold errors always pass; debug passes iff the threshold is debug |
| Logging.UnknownThresholdSilences | utils/logger.js:34-37 | an unknown threshold filters every level |
| Logging.DetectProduction | utils/logger.js:16-25 | production iff the manifest version is missing or does not contain "dev" |
| Logging.Logger.constructor | utils/logger.js:10-14 | the level starts at "info" in production and "debug" otherwise |
| Logging.Logger.SetLevel | utils/logger.js:27-32 | a known name becomes the level; any other name leaves it unchanged |
| Logging.Logger.Debug | utils/logger.js:45-49 | printed iff the level is debug |
| Logging.Logger.Info | utils/logger.js:51-55 | printed iff the level is debug or info |
| Logging.Logger.Warn | utils/logger.js:57-61 | printed unless the level is error |
| Logging.Logger.Error | utils/logger.js:63-67 | always printed |
| Schedules.OvernightIsComplementOfGap | background.js:897-901 | a window with start > end holds exactly outside the open gap (end, start) |
| Schedules.EqualEndsIsOneMinute | background.js:896-898 | start == end is a one-minute window, not a whole day |
| Schedules.AdjacentEndsCoverDay | background.js:897-901 | the window from start to start - 1 covers every minute of the day |
| Schedules.WindowLength | background.js:885-902 | an ordinary window has end - start + 1 minutes; an overnight one has 1440 - (start - end - 1) |
| Schedules.WorkHoursScenario | background.js:878-906 | 09:00-17:00 on weekdays: Monday 14:30 is in; 08:30 and Saturday are out |
| Schedules.OvernightScenario | background.js:878-906 | 22:00-06:00 includes 23:30 and 05:30 and excludes noon |
| Matching.TieredMatchSymmetric | background.js:860-864 | the tiered rule gives the same answer with host and site swapped |
| Matching.AnySiteBlocks | background.js:849-871 | a schedule's list blocks iff one of its entries matches by the tiered rule |
| Matching.ShouldBlockSite | background.js:830-876 | blocked iff some schedule is active, in its window and has a matching entry |
| Matching.IsSiteTracked | background.js:306-322 | tracked iff some entry of some schedule matches by equality or substring, active or not |
| Matching.AnySiteTracks | background.js:309-318 | a site list tracks iff one of its entries matches by substring |
| Matching.ExactEntryIsBoth | background.js:851-861 | an entry equal to the cleaned host both blocks and tracks it |
| Matching.SubdomainMatches | background.js:862 | "sub." + site matches site |
| Matching.SubdomainBlocked | background.js:850-862 | a subdomain of a blocked entry is blocked |
| Matching.SharedSuffixMatches | background.js:864 | two hosts with the same last two labels match |
| Matching.GluedPrefixNotDotSuffix | background.js:862 | "p" + site is not a dot-suffix of site |
| Matching.LookalikeNotBlockedButTracked | background.js:859 | "preddit.com" is not blocked by "reddit.com" but is tracked by it |
| Matching.BlankEntryTracksEverything | background.js:315 | a blank entry makes every host tracked (`includes("")`) |
| Matching.BlankEntryBlocksAlmostNothing | background.js:851-864 | a blank entry blocks only an empty host or one ending in "." |
| Matching.TieredWithBlank | background.js:860-864 | the tiered rule against "" holds iff the host is "" or ends with "." |
| Matching.LastTwoEmpty | background.js:864 | the last two labels are empty iff the host is empty |
| Matching.SpacesAreBlank | background.js:851 | an entry of spaces cleans to "" |
| Matching.BlankEntryInSchedules | background.js:306-322 | one blank entry anywhere tracks every host |
| Matching.CheckAndBlockSite | background.js:781-823 | internal pages are exempt; an unparsable URL does nothing; otherwise redirect iff `shouldBlockSite` on the lower-cased host |
| Matching.NoActiveScheduleAllows | background.js:831-846 | with no active schedule nothing is redirected |
| DailyStats.RecordScreenTime | background.js:324-339 | today +seconds on its site and its total; other sites, `savedTime`, `blocked` and other days unchanged; a missing record starts zeroed with an empty site map; a record without a site map (one `trackWastedTime` made) leaves the store unchanged, because the site lookup throws before the save |
| DailyStats.AddSavedTime | background.js:1083-1094 | only today's `savedTime` changes, by exactly +seconds |
| DailyStats.ResetSavedTime | background.js:1214-1223 | `savedTime` 0 only when today's record exists; nothing else changes |
| DailyStats.AddBlockedVisit | background.js:931-938 | today's `blocked` +1 and `savedTime` +seconds; other days unchanged; a new record has `blocked` 1 and no site map; `blocked += 1` on a record without a count gives NaN |
| DailyStats.BlockedVisitAfterScreenTimeIsNaN | background.js:933-937 | a blocked visit on a day that screen time created stores NaN as its count |
| DailyStats.BlockedVisitFirstStopsScreenTime | background.js:329-336 | a day that a blocked visit created has no site map, and screen time then records nothing on it |
| DailyStats.ProcessRealScreenTime | background.js:287-304 | total and site +seconds; `savedTime` +seconds iff the host is tracked by any schedule; nothing at all when today's record has no site map |
| DailyStats.RecordScreenTimeKeepsBalance | background.js:336-337 | a total equal to the sum of the site counts stays equal |
| DailyStats.SavedTimeKeepsBalance | background.js:1083-1094 | saved-time updates keep that balance |
| DailyStats.ScreenTimeKeepsNonNegative | background.js:324-339 | non-negative counts stay non-negative |
| DailyStats.SavedTimeKeepsNonNegative | background.js:1083-1094 | the same for saved time |
| DailyStats.ResetKeepsNonNegative | background.js:1214-1223 | the same for the reset |
| DailyStats.BlockedVisitKeepsNonNegative | background.js:931-938 | the same for a blocked visit |
| DailyStats.ProcessKeepsNonNegative | background.js:287-304 | the same for a finished session |
| DailyStats.RepeatedSecondsAccumulate | background.js:1046-1049 | n one-second polls add exactly n to the site and the total and leave saved time alone; on a record without a site map they change nothing |
| DailyStats.PollAndIntervalCountTwice | background.js:1036-1056 | n polled seconds plus an n-second session count 2n; on a record without a site map nothing is counted |
| Background.ElapsedSeconds | background.js:270 | floor((end - start) / 1000) |
| Background.WebUrlIsPollable | background.js:1042 | an http(s) URL passes both the tracking and the polling filters |
| Background.ActiveSchedulesAt | background.js:1066-1068 | exactly the active schedules in their window, from the list |
| Background.BlockingImpliesSavedTimeTicks | background.js:1066-1075 | whenever some host is blocked, the saved-time poll ticks |
| Background.SavedTimeTicksWithoutSites | background.js:1066-1075 | an active in-window schedule with no sites still ticks saved time but blocks nothing |
| Background.WastedIncrement | background.js:918-929 | always in [1, 600]; anything but 5 is the measured time since the tab's start |
| Background.KeepTodaysGoals | background.js:474-480 | exactly the goals created today are kept |
| Background.BackgroundService.constructor | background.js:5-33 | no active tab, focused, not idle, not tracking, no start times |
| Background.BackgroundService.StartRealTracking | background.js:244-261 | opens iff a truthy tab, focus, not idle, not yet tracking and a non-internal URL; the tab's start is then now and the other start times are kept; keeps the tracker invariant when it held |
| Background.BackgroundService.StopRealTracking | background.js:263-285 | always ends not tracking with no start times; records floor(elapsed) only if it was tracking with a start for the active tab and it is >= 1 |
| Background.BackgroundService.ProcessRealScreenTime | background.js:287-304 | the store becomes `DailyStats.ProcessRealScreenTime` of the old one |
| Background.BackgroundService.RecordScreenTime | background.js:324-339 | the store is updated by `DailyStats.RecordScreenTime` and nothing else; reports whether it got past the site lookup |
| Background.BackgroundService.RecordSavedTime | background.js:1083-1094 | only saved time, +seconds |
| Background.BackgroundService.RecordWastedTime | background.js:359-370 | the same update as saved time |
| Background.BackgroundService.ResetSavedTime | background.js:1214-1223 | the store is `DailyStats.ResetSavedTime` of the old one |
| Background.BackgroundService.TrackWastedTime | background.js:913-938 | adds an increment in [1, 600] to today's saved time and one blocked visit, as `DailyStats.AddBlockedVisit` (a new record without a site map, NaN on a record without a count) |
| Background.BackgroundService.OnTabActivated | background.js:68-86 | the old session is recorded as `stopRealTracking` records it; the new tab becomes active; tracking resumes iff the start conditions hold, with that tab's start only; the tracker invariant holds afterwards from any state; a tab with a URL gets exactly the `checkAndBlockSite` decision, a tab without one none |
| Background.BackgroundService.OnTabRemoved | background.js:89-95 | closing the active tab records its session, stops tracking and clears it; any other tab changes nothing |
| Background.BackgroundService.OnFocusChanged | background.js:98-108 | losing focus records the session and stops tracking; regaining it records nothing and opens a session iff none was open and the start conditions hold, starting the active tab now |
| Background.BackgroundService.OnIdleStateChanged | background.js:111-122 | idle iff the state is not "active"; idle records the session and stops tracking; "active" records nothing and opens a session iff none was open and the start conditions hold |
| Background.BackgroundService.UpdateIdleState | background.js:972-977 | the smart idle flag is stored and nothing of the tracker reads it |
| Background.BackgroundService.UpdateScreenTimeEverySecond | background.js:1036-1056 | a web tab gets +1 s on its host whatever the focus or idle state, and becomes the active tab |
| Background.BackgroundService.UpdateSavedTimeEverySecond | background.js:1058-1081 | saved time +1 iff some schedule is active and in its window |
| Background.BackgroundService.CheckScheduleNotifications | background.js:1113-1178 | shows exactly the poll's fresh notices and stores the updated dedup map |
| Background.BackgroundService.CleanupCompletedGoals | background.js:468-509 | keeps today's goals; zeroes a positive wasted time; prunes the dedup map to today and yesterday |
| Background.PollBreaksTrackerInvariant | background.js:1046 | a poll on another tab leaves tracking on without a start time for the new active tab |
| Background.PollThenBlurLosesSession | background.js:263-284 | after a poll moves the active tab, a focus loss closes tab 1's 5-second session without recording it: only the poll's second is stored |
| Notifications.NoticeKeyDeterminesKind | background.js:1133-1153 | two equal keys name the same notice kind |
| Notifications.SpacingSharesKey | background.js:1133 | names that differ only in runs of white space share their keys |
| Notifications.EndMarkIsRawEnd | background.js:1154-1169 | the end notice fires at the raw end time, overnight or not |
| Notifications.EarlyStartHasNoWarning | background.js:1136-1138 | a start before 00:05 has a negative warning mark that no minute matches |
| Notifications.FireAllRecorded | background.js:1128-1170 | every notice shown is fresh, distinct from the others, and recorded as sent |
| Notifications.FireAllJustified | background.js:1128-1170 | every notice belongs to an active schedule whose mark is the current minute |
| Notifications.FireAllCovers | background.js:1128-1170 | after the poll every due mark of every active schedule is recorded |
| Notifications.AllSentFiresNothing | background.js:1138-1169 | when every due mark is recorded the poll shows nothing and stores nothing new |
| Notifications.SecondPollSameMinuteIsSilent | background.js:1113-1178 | a second poll in the same minute shows nothing |
| Notifications.EarlyStartsNeverWarn | background.js:1136-1142 | with all starts before 00:05 no starting-soon notice ever fires |
| Notifications.AtMostOncePerDay | background.js:1113-1178 | across any run of polls in a day each key is shown at most once |
| Notifications.CheckMark | background.js:1137-1142 | one mark's check, as a loop step, matches its specification |
| Notifications.CheckSchedule | background.js:1129-1169 | one schedule's three checks match their specification |
| Notifications.RunSchedulePoll | background.js:1128-1170 | the loop over the schedules computes the poll's notices and sent set |
| Notifications.StoreAfterPoll | background.js:1121-1173 | only today's entry of the map changes, and it records what was shown |
| Notifications.PruneSent | background.js:502-506 | keeps exactly the today and yesterday entries, unchanged |
| Notifications.PruneKeepsToday | background.js:502-506 | pruning never changes what today's poll shows or records |
| Notifications.LocalMidnight | background.js:609 | the local midnight at or before the instant |
| Notifications.ClockMinutes | background.js:603 | the clock string gives minutes iff both parts are numeric |
| Notifications.GetNextReminderTime | background.js:602-619 | strictly after now, within a day, at the requested local clock time; none on NaN |
| Notifications.NextReminderIsEarliest | background.js:602-619 | no later instant with that clock reading comes earlier |
| Notifications.ReminderAt | background.js:588-589 | 09:00 local on the deadline's own day |
| Notifications.SetupDeadlineReminders | background.js:571-600 | exactly one alarm per open goal whose deadline and 09:00 reminder are still ahead, in goal order |
| Notifications.FirstDueWithin | background.js:666-683 | the first open goal due in 0..maxDays days, or none |
| Notifications.EarliestDueWithin | background.js:686-701 | the open goal with the earliest deadline in range, the first one on a tie (stable sort) |
| Notifications.PickDeadline | background.js:662-703 | the first goal due within 7 days if any; else the earliest due within 30; else none |
| Notifications.SendDailyNotification | background.js:642-703 | nothing when disabled; the days left for the age from the birthdate when known, else the stored age; borrowed time iff days left < 0; the picked goal's text and due band |
| Content.AnyPlaying | content.js:491-501 | true iff some element is playing (not paused, not ended, readyState > 2) |
| Content.Min3 | content.js:576-580 | the least of the three deltas |
| Content.IdleIffAllQuiet | content.js:583-595 | idle iff all three deltas exceed 30000 ms, no media plays, no scroll, and the tab has focus |
| Content.IdleDetector.constructor | content.js:2-15 | all timestamps now; nothing playing; no flags; in focus |
| Content.IdleDetector.OnMouseMove | content.js:445-448 | the timestamp becomes now and `noMouseMovement` is cleared |
| Content.IdleDetector.OnKeyDown | content.js:451-454 | the timestamp becomes now and `noKeyPress` is cleared |
| Content.IdleDetector.OnScroll | content.js:457-460 | the timestamp becomes now and scrolling is set |
| Content.IdleDetector.OnScrollTimeout | content.js:461-463 | scrolling is cleared |
| Content.IdleDetector.OnFocusEvent | content.js:467-477 | the focus flag follows the event |
| Content.IdleDetector.CheckVideos | content.js:491-502 | video playing iff some video plays |
| Content.IdleDetector.CheckAudio | content.js:533-544 | audio playing iff some audio element plays |
| Content.IdleDetector.OnPlay | content.js:508-512 | a play event sets only its own kind's flag |
| Content.IdleDetector.IdleCheck | content.js:573-596 | the flags are recomputed as strict comparisons with 30000; idle implies every quiet condition |
| Content.RecentMouseMoveIsNotIdle | content.js:445-448 | within 30 s of a mouse move the page is never idle |
| Sites.StripScheme | options.js:357 | removes one leading "https://", else one "http://" |
| Sites.StripWww | options.js:358 | removes one leading "www." |
| Sites.BeforeSlash | options.js:359 | the text before the first "/" |
| Sites.NormalizeSite | options.js:355-359 | the cleaned entry holds no "/" and is lower case |
| Sites.CutsKeepLower | options.js:356-359 | the cuts keep lower case |
| Sites.BlankEntryIsDropped | options.js:355-361 | a blank entry normalises to "" |
| Sites.PlainHostIsKept | onboarding.js:53-58 | a trimmed lower-case host without scheme, "www." or "/" is unchanged |
| Sites.CutsOfAddress | onboarding.js:58 | scheme, optional "www.", host and path reduce to the host |
| Options.NormalizeAll | options.js:353-359 | every input normalised, position by position |
| Options.GetSiteInputs | options.js:350-368 | the non-empty normalised entries, without duplicates, in first-occurrence order |
| Options.SiteListMembers | options.js:353-367 | every kept site is a non-empty normalised input, and every such input is kept |
| Options.NoSitesIffAllBlank | options.js:353-367 | the list is empty iff every entry normalises to "" |
| Options.SelectedDays | options.js:557-565 | strictly ascending; exactly the checked days below n |
| Options.GetSelectedDays | options.js:557-565 | the loop collects exactly the checked boxes in order |
| Options.FullWeek | options.js:557-565 | an ascending day list has at most 7 entries, and 7 iff it holds every day |
| Options.DayName | options.js:794 | three-letter names for 0..6 |
| Options.FormatDays | options.js:793-798 | "No days selected" for none, "Every day" for 7, else the joined names |
| Options.FormatSelectedDays | options.js:557-565 | "Every day" iff every box is checked; "No days selected" iff none is |
| Options.DayNamesStart | options.js:797 | a joined list starts with its first day's name and is neither fixed text |
| Options.FormOutcome | options.js:574-601 | saved iff name, start, end, days and sites are all given and no PIN refusal applies |
| Options.Placed | options.js:613-621 | replaces exactly the index, or appends past the end |
| Options.OptionsManager.constructor | options.js:4-8 | not editing, form hidden |
| Options.OptionsManager.ShowScheduleForm | options.js:259-272 | toggles the form; hiding it ends the edit; showing it keeps the edit index |
| Options.OptionsManager.CancelEdit | options.js:675-680 | the edit index becomes -1 |
| Options.OptionsManager.EditSchedule | options.js:633-673 | a wrong PIN in strict mode refuses; otherwise it edits that index with the form shown |
| Options.OptionsManager.CreateOrUpdateSchedule | options.js:567-631 | the ordered checks; on success an active schedule replaces the edited index or is appended; otherwise nothing changes |
| Options.OptionsManager.SaveForm | options.js:574-625 | the same on the values read from the form |
| Options.OptionsManager.CreateOrUpdateScheduleAndReset | options.js:567-631 | the corrected save, which also ends the edit |
| Options.OptionsManager.SaveFormAndReset | options.js:574-625 | the corrected save on plain values |
| Options.OptionsManager.ToggleSchedule | options.js:694-711 | only the indexed schedule flips; deactivating in strict mode needs the PIN |
| Options.OptionsManager.DeleteSchedule | options.js:713-732 | removes exactly the index after the PIN and the confirmation; otherwise nothing changes |
| Options.OptionsManager.SaveStrictMode | options.js:495-530 | disabling needs the stored PIN; first enabling needs 4 digits; the PIN is "" whenever strict mode is off |
| Options.OptionsManager.ChangePIN | options.js:532-555 | current PIN, then 4-digit new PIN, then a matching confirmation; only success changes the PIN |
| Options.FilledFormSaves | options.js:574-601 | a name, both times, one day and one real site pass every check |
| Options.CreateAfterEditOverwrites | options.js:567-631 | as written: edit, save, "Create New Schedule", save leaves 2 schedules, the first overwritten |
| Options.CreateAfterEditAppends | options.js:567-631 | corrected: the same steps leave 3 schedules, the new one appended |
| Onboarding.DefaultSchedules | onboarding.js:146-159 | one all-week active schedule of the sites iff there are sites, else none |
| Onboarding.DefaultScheduleAlwaysOn | onboarding.js:150-158 | 00:00-23:59 on every day covers every minute of the week |
| Onboarding.OnboardingManager.constructor | onboarding.js:4-13 | no sites; the button is disabled unless privacy is accepted and a birth date is given |
| Onboarding.OnboardingManager.AddSite | onboarding.js:51-65 | appends the normalised entry iff it is non-empty and new, then clears the input; keeps the list duplicate-free |
| Onboarding.OnboardingManager.QuickAdd | onboarding.js:35-41 | appends only a site not yet listed |
| Onboarding.OnboardingManager.RemoveSite | onboarding.js:67-69 | removes every copy of the site and keeps the order of the rest |
| Onboarding.OnboardingManager.UpdateCompleteButton | onboarding.js:104-114 | enabled iff privacy is accepted and the birth date is non-empty |
| Onboarding.OnboardingManager.CompleteSetup | onboarding.js:116-182 | the completed years as age, the default schedules, strict mode off, no PIN, privacy accepted, wasted time 0 |
| Stats.Sum | stats.js:146-148 | the sum of a legacy object's values |
| Stats.AddValues | stats.js:146-148 | the loop adds exactly the sum of the values |
| Stats.ScreenMinutesNonNegative | stats.js:132-153 | today's screen time is never negative when the stored counts are not |
| Stats.WeekLabelsDistinct | stats.js:256-303 | seven consecutive days carry seven different labels |
| Stats.TodayBarIsScreenTime | stats.js:263-300 | today's bar is the screen time, with no blocked-count fallback |
| Stats.AddDaySites | stats.js:334-337 | each site of the day's site map gains its seconds |
| Stats.AggregateSiteTimes | stats.js:313-340 | the per-site sums over exactly the recorded days of the range; a day without a site map adds nothing |
| Stats.SortByMinutes | stats.js:343-345 | descending by minutes and a permutation of the entries |
| Stats.SiteEntries | stats.js:342-343 | one entry per site, no site twice, with floor(seconds / 60) |
| Stats.PermutationKeepsDistinct | stats.js:343-345 | sorting a list with no site twice keeps it so |
| Stats.RelevantDates | stats.js:313-323 | the 1, 7 or 30 most recent date keys |
| Stats.RangeLength | stats.js:313-323 | 1 for "today", 7 for "week", else 30 |
| Stats.RankSites | stats.js:342-346 | at most ten entries, no site twice, the sites' true minutes, descending, none left out above a kept one |
| Stats.TopSites | stats.js:305-346 | that ranking of the range's per-site sums |
| Stats.DaysRemainingDisplay | stats.js:101-111 | infinity iff age 0; borrowed time iff age >= lifespan; otherwise the positive day count |
| Stats.CleanedGoals | stats.js:80-89 | exactly the goals that are not completed-on-another-day, in order |
| Stats.CleanupShortensIffStale | stats.js:80-89 | the list shrinks iff some goal is stale; otherwise it is unchanged |
| Stats.CleanupIdempotent | stats.js:80-89 | cleaning twice is cleaning once |
| Stats.StatsManager.constructor | stats.js:4-15 | the loaded fields |
| Stats.StatsManager.GetTodayScreenTime | stats.js:132-153 | floor(totalTime / 60) plus the legacy minutes |
| Stats.StatsManager.GenerateWeeklyData | stats.js:256-303 | seven bars, oldest first, each the day's value and never negative |
| Stats.StatsManager.GetDayMinutes | stats.js:269-285 | a day's screen minutes |
| Stats.StatsManager.CleanupOldGoals | stats.js:75-94 | removes the stale goals; the flag is set iff some goal was removed |
| Stats.StatsManager.DaysRemaining | stats.js:155-166 | infinity iff age 0; borrowed time iff age >= lifespan |
| Popup.SecondsToMinutes | popup.js:83-85 | floor(seconds / 60) |
| Popup.FirstMinutesToken | popup.js:233 | the leftmost match of `\b(\d+)m\b`, or none |
| Popup.NoMinutesToken | popup.js:233 | a text without "m" is left alone |
| Popup.TrailingMinutes | popup.js:233 | a final "Nm" becomes "N min" |
| Popup.PopupMinutes | popup.js:230-234 | below an hour "N min" |
| Popup.PopupHoursMinutes | popup.js:230-234 | "Hh M min" below a day with minutes |
| Popup.PopupWithoutMinutes | popup.js:230-234 | whole hours and day counts are unchanged |
| Popup.TagFor | popup.js:282-297 | OVERDUE iff < 0; DUE TODAY iff 0; DUE TOMORROW iff 1; "N days left" otherwise, highlighted iff N <= 7 |
| Popup.DeadlineTagBands | popup.js:274-297 | in instants: overdue from a full day after the deadline; due today in the day up to it; due tomorrow in the day before |
| Popup.KeptDeadline | popup.js:382-388 | the deadline is kept iff asked for, given, valid and in the future |
| Popup.SpliceStart | popup.js:327 | JavaScript's splice start: counted from the end when negative, clamped at 0 |
| Popup.SpliceOne | popup.js:327 | removes exactly that one goal; past the end nothing |
| Popup.PopupPage.constructor | popup.js:4-29 | the loaded goals, zero minutes |
| Popup.PopupPage.LoadTodayMinutes | popup.js:82-85 | floor of today's screen and saved seconds / 60, zero without a record |
| Popup.PopupPage.ToggleGoal | popup.js:452-457 | flips only an existing goal; out of range nothing |
| Popup.PopupPage.DeleteGoal | popup.js:324-338 | removes the goal only after confirmation |
| Popup.PopupPage.SaveGoalFromForm | popup.js:367-410 | a blank trimmed text is refused; otherwise one open goal is appended with its kept deadline |
| Popup.PopupPage.AddGoal | popup.js:412-450 | the prompt path: a cancelled or blank answer is refused; otherwise the same append |
| Popup.ToggleTwiceRestores | popup.js:452-457 | toggling twice restores the list |
| Focus.TimerText | focus.js:113-116 | five characters "MM:SS" of digits |
| Focus.TimerTextReadsBack | focus.js:114-116 | the two fields read back as the seconds left |
| Focus.FocusMode.constructor | focus.js:2-16 | 1500 s stopped, the display set, the saved task shown if non-empty |
| Focus.FocusMode.UpdateTimerDisplay | focus.js:113-120 | display and title follow the seconds left |
| Focus.FocusMode.StartTimer | focus.js:61-76 | running afterwards; nothing changes when already running, so at most one interval |
| Focus.FocusMode.PauseTimer | focus.js:78-85 | stopped afterwards; the interval is gone |
| Focus.FocusMode.ResetTimer | focus.js:87-91 | stopped with 1500 s; display and title show it |
| Focus.FocusMode.TimerFinished | focus.js:93-96 | stopped at 0; display and title show it |
| Focus.FocusMode.Tick | focus.js:68-75 | one second less while above 1; else finished at 0 and stopped; never negative; display and title show the time left |
| Focus.FocusMode.SetTask | focus.js:122-130 | a non-blank trimmed entry becomes the saved task, and the input is cleared; blank does nothing |
| Focus.FocusMode.ClearTask | focus.js:132-136 | no task and nothing saved |
| Focus.FullSession | focus.js:61-96 | from a reset, a started session ends after exactly 1500 ticks, stopped at 0 |
| Focus.TaskSurvivesReload | focus.js:53-59 | a set task is found again by the next page |

## Left out

- Browser APIs (`chrome.storage`, alarms, notifications, tabs, runtime messages, keep-alive ports) are represented by fields, parameters and return values. Redirect and reload retries, heartbeats and the popup pushes are not modelled.
- Asynchronous interleaving: each handler is one atomic step. A handler that reads storage sees the model's current fields.
- `Date`:
  - date keys, weekdays, minutes of the day, instants and the time-zone offset are inputs;
  - daylight-saving changes are not modelled;
  - `new Date(birthdate)` is a calendar date given by the caller.
- `new URL(...)` is a parser outside this model: its hostname is an `Option<string>` input.
- Lower-casing is ASCII only: Unicode case mapping is not modelled. Trimming uses JavaScript's white-space and line-terminator characters.
- `toLocaleString` number formatting, quotes and their randomness, the candle sizing and `calculateProductivityScore` (floating point) are not modelled.
- DOM rendering is not modelled: YouTube CSS injection and observers, `sanitizeInput`, `isValidDate`, `alert`, `prompt`, and the strict-mode checks of the service worker.
- `createdAt` ISO stamps: a goal holds its creation day as a date key; a schedule's `createdAt` is not stored.
- Options.Placed: assigning past the end of a JavaScript array leaves holes when the index is more than one past the end; the model appends instead.
- Options in-memory settings: the page reloads its settings on every storage change, so the model keeps one copy.
- Stats.TopSites: the order among sites with equal minutes follows `Object.entries` insertion order in the source; the model proves descending order, distinct sites and their true minutes, but not the tie order (`Stats.SortByMinutes` alone is proved a permutation).
- Stats.StatsManager.GetTodayScreenTime: `time || 0` on a non-numeric legacy value is not modelled; values are integers.
- Popup: a deadline that does not parse renders as NaN days in the source; the model takes the parsed instant as `Option<int>`.
- Popup.DeadlineTagBands covers the three named bands; the "N days left" text itself is in `Popup.TagFor`.
- Focus: the notification and `alert` of `timerFinished`, the back and menu buttons, and the short-lived "-1:-1" text in the tick that starts at 0 (it is overwritten in the same callback) are not modelled.
- `trackWastedTime` is modelled although the live worker never calls it; its record's `productive` field is not modelled, since nothing reads it.
- Onboarding settings that are constant empty values (`youtubeSettings`, `allowedSites`, `goals`, `dailyStats`, `weeklyStats`, `dailyTimeSpent`) are not part of `Settings`.
- The life-expectancy lookup `lifeExpectancy[continent] || 79` also finds inherited object keys such as "toString"; the model treats every unlisted name as 79.
- `Number()` accepts surrounding white space and signs; the model reads only digit strings, and anything else is NaN.
- `backup/` files and the Python test files are not part of this model.

## Findings

| source | as written | input that shows it | evidently intended | confidence | as-written member | corrected member |
|---|---|---|---|---|---|---|
| options.js:567-631 | a successful save hides the form but never resets `editingScheduleIndex`, and "Create New Schedule" (options.js:259-272) keeps it | edit schedule 0, save, press "Create New Schedule", fill the form, save: schedule 0 is overwritten again and nothing is added | a save ends the edit, so the next create appends | not executed | Options.CreateAfterEditOverwrites | Options.CreateAfterEditAppends |
