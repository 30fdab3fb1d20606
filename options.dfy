/**
 * The options page (options.js): the schedule form's site and day inputs, the
 * edits to the schedule list with the strict-mode PIN gate, and the strict
 * mode and PIN settings. Browser prompts and confirmations are parameters: a
 * prompt's answer is `None` when the user cancels it.
 */
module Options {
  import opened Wrappers
  import opened Strings
  import opened Sequences
  import opened Sites
  import opened Helpers
  import opened Schedules

  // ------------------------------------------------------------ site inputs

  /** Every entry normalised (`trim`, lower-case, the three cuts), in input order. */
  function NormalizeAll(inputs: seq<string>): (r: seq<string>)
    ensures |r| == |inputs| && forall i :: 0 <= i < |inputs| ==> r[i] == NormalizeSite(inputs[i])
  {
    seq(|inputs|, i requires 0 <= i < |inputs| => NormalizeSite(inputs[i]))
  }

  /** The entries the loop pushes: the non-empty normalised ones, in input order. */
  function CleanedSites(inputs: seq<string>): seq<string>
  {
    Without(NormalizeAll(inputs), "")
  }

  /** The blocked sites the form yields: the pushed entries without repeats (`[...new Set(sites)]`). */
  function SiteList(inputs: seq<string>): seq<string>
  {
    Dedup(CleanedSites(inputs))
  }

  /** `getSiteInputs`. */
  method GetSiteInputs(inputs: seq<string>) returns (sites: seq<string>)
    ensures sites == SiteList(inputs)
    ensures NoDup(sites) && ByFirstOccurrence(CleanedSites(inputs), sites)
  {
    var pushed: seq<string> := [];
    var i := 0;
    while i < |inputs|
      invariant 0 <= i <= |inputs|
      invariant pushed == CleanedSites(inputs[..i])
    {
      var value := inputs[i];
      CleanedSitesStep(inputs, i);
      if Trim(value) != "" {
        var site := NormalizeSite(value);
        if site != "" {
          pushed := pushed + [site];
        }
      } else {
        BlankEntryIsDropped(value);
      }
      i := i + 1;
    }
    assert inputs[..|inputs|] == inputs;
    sites := Dedup(pushed);
    DedupKeepsFirstOccurrenceOrder(pushed);
  }

  /** One more entry adds its normalised form to the pushed list, unless that is empty. */
  lemma CleanedSitesStep(inputs: seq<string>, i: nat)
    requires i < |inputs|
    ensures var site := NormalizeSite(inputs[i]);
      CleanedSites(inputs[..i + 1]) == CleanedSites(inputs[..i]) + (if site != "" then [site] else [])
  {
    var site := NormalizeSite(inputs[i]);
    assert NormalizeAll(inputs[..i + 1]) == NormalizeAll(inputs[..i]) + [site];
    WithoutConcat(NormalizeAll(inputs[..i]), [site], "");
    assert Without([site], "") == if site != "" then [site] else [];
  }

  /** Every stored site came from an entry, and every entry that normalises to a site is stored. */
  lemma SiteListMembers(inputs: seq<string>)
    ensures forall k :: 0 <= k < |SiteList(inputs)| ==>
      SiteList(inputs)[k] != "" && SiteList(inputs)[k] in NormalizeAll(inputs)
    ensures forall i :: 0 <= i < |inputs| && NormalizeSite(inputs[i]) != "" ==>
      NormalizeSite(inputs[i]) in SiteList(inputs)
  {
    var m := NormalizeAll(inputs);
    var c := CleanedSites(inputs);
    forall i | 0 <= i < |inputs| && NormalizeSite(inputs[i]) != ""
      ensures NormalizeSite(inputs[i]) in SiteList(inputs)
    {
      assert m[i] in c;
    }
  }

  /** The site list is empty exactly when every entry normalises to nothing. */
  lemma NoSitesIffAllBlank(inputs: seq<string>)
    ensures SiteList(inputs) == [] <==> forall i :: 0 <= i < |inputs| ==> NormalizeSite(inputs[i]) == ""
  {
    SiteListMembers(inputs);
    var l, m := SiteList(inputs), NormalizeAll(inputs);
    if l != [] {
      assert l[0] != "" && l[0] in m;
      var k :| 0 <= k < |m| && m[k] == l[0];
      assert NormalizeSite(inputs[k]) != "";
    }
  }

  // ------------------------------------------------------------ day inputs

  predicate StrictlyAscending(days: seq<int>)
  {
    forall k, l :: 0 <= k < l < |days| ==> days[k] < days[l]
  }

  /** The days `0 <= d < n` whose checkbox is ticked, in increasing order. */
  function SelectedDays(checked: seq<bool>, n: nat): (r: seq<int>)
    requires n <= |checked|
    ensures StrictlyAscending(r)
    ensures forall k :: 0 <= k < |r| ==> 0 <= r[k] < n && checked[r[k]]
    ensures forall d :: 0 <= d < n && checked[d] ==> d in r
  {
    if n == 0 then []
    else SelectedDays(checked, n - 1) + (if checked[n - 1] then [n - 1] else [])
  }

  /** `getSelectedDays`, over the seven checkboxes `day0` (Sunday) to `day6`. */
  method GetSelectedDays(checked: seq<bool>) returns (days: seq<int>)
    requires |checked| == 7
    ensures days == SelectedDays(checked, 7)
  {
    days := [];
    for i := 0 to 7
      invariant days == SelectedDays(checked, i)
    {
      if checked[i] {
        days := days + [i];
      }
    }
  }

  /** An ascending list of weekdays has seven entries exactly when it holds every day. */
  lemma FullWeek(days: seq<int>)
    requires StrictlyAscending(days)
    requires forall k :: 0 <= k < |days| ==> 0 <= days[k] < 7
    ensures |days| <= 7
    ensures |days| == 7 <==> forall d :: 0 <= d < 7 ==> d in days
  {
    AscendingBounds(days, |days|);
    if |days| > 0 {
      assert |days| - 1 <= days[|days| - 1] < 7;
    }
    if forall d :: 0 <= d < 7 ==> d in days {
      AllDaysInPlace(days, 7);
    }
    if |days| == 7 {
      forall d | 0 <= d < 7
        ensures d in days
      {
        AscendingGap(days, d, 6);
        assert days[d] == d;
      }
    }
  }

  /** Entry `k` of a strictly ascending list of naturals is at least `k`. */
  lemma {:induction false} AscendingBounds(days: seq<int>, n: nat)
    requires n <= |days| && StrictlyAscending(days)
    requires forall k :: 0 <= k < |days| ==> 0 <= days[k]
    ensures forall k :: 0 <= k < n ==> days[k] >= k
  {
    if n > 0 {
      AscendingBounds(days, n - 1);
      if n >= 2 {
        assert days[n - 2] < days[n - 1];
      }
    }
  }

  /** When every day below `n` occurs, the first `n` entries are exactly `0 .. n-1`. */
  lemma {:induction false} AllDaysInPlace(days: seq<int>, n: nat)
    requires n <= 7 && StrictlyAscending(days)
    requires forall k :: 0 <= k < |days| ==> 0 <= days[k] < 7
    requires forall d :: 0 <= d < n ==> d in days
    ensures n <= |days| && forall k :: 0 <= k < n ==> days[k] == k
  {
    if n > 0 {
      AllDaysInPlace(days, n - 1);
      AscendingBounds(days, |days|);
      assert n - 1 in days;
      var k :| 0 <= k < |days| && days[k] == n - 1;
      assert k == n - 1;
    }
  }

  /** In a strictly ascending list, entries `i <= j` are at least `j - i` apart. */
  lemma {:induction false} AscendingGap(days: seq<int>, i: nat, j: nat)
    requires i <= j < |days| && StrictlyAscending(days)
    ensures days[j] >= days[i] + (j - i)
    decreases j - i
  {
    if i < j {
      AscendingGap(days, i, j - 1);
      assert days[j - 1] < days[j];
    }
  }

  // ------------------------------------------------------------- formatDays

  /** `dayNames[day]`, which `join` renders as "" for a day outside 0..6. */
  function DayName(d: int): (r: string)
    ensures 0 <= d < 7 ==> |r| == 3
  {
    if 0 <= d < 7 then ["Sun", "Mon", "Tue", "Wed", "Thu", "Fri", "Sat"][d] else ""
  }

  /** `days.map(day => dayNames[day]).join(', ')`. */
  function DayNames(days: seq<int>): (r: string)
  {
    if |days| == 0 then ""
    else if |days| == 1 then DayName(days[0])
    else DayName(days[0]) + ", " + DayNames(days[1..])
  }

  /** `formatDays`. */
  function FormatDays(days: seq<int>): (r: string)
    ensures |days| == 0 ==> r == "No days selected"
    ensures |days| == 7 ==> r == "Every day"
    ensures |days| != 0 && |days| != 7 ==> r == DayNames(days)
  {
    if |days| == 0 then "No days selected"
    else if |days| == 7 then "Every day"
    else DayNames(days)
  }

  /** For the form's own day list, "Every day" means every box is ticked and "No days selected" means none is. */
  lemma FormatSelectedDays(checked: seq<bool>)
    requires |checked| == 7
    ensures var days := SelectedDays(checked, 7);
      (FormatDays(days) == "Every day" <==> forall d :: 0 <= d < 7 ==> checked[d])
      && (FormatDays(days) == "No days selected" <==> forall d :: 0 <= d < 7 ==> !checked[d])
  {
    var days := SelectedDays(checked, 7);
    FullWeek(days);
    if |days| != 0 && |days| != 7 {
      assert DayName(days[0]) == DayNames(days)[..3] || |DayNames(days)| == 3;
      DayNamesStart(days);
    }
    if forall d :: 0 <= d < 7 ==> checked[d] {
      assert forall d :: 0 <= d < 7 ==> d in days;
    }
    if |days| == 7 {
      forall d | 0 <= d < 7
        ensures checked[d]
      {
        assert d in days;
      }
    }
    if |days| > 0 {
      assert checked[days[0]];
    }
  }

  /** A list of valid days is spelt with its first day's name first, never as one of the two phrases. */
  lemma DayNamesStart(days: seq<int>)
    requires |days| > 0 && 0 <= days[0] < 7
    ensures DayNames(days)[..3] == DayName(days[0])
    ensures DayNames(days) != "Every day" && DayNames(days) != "No days selected"
  {
    var n := DayNames(days);
    assert |DayName(days[0])| == 3;
    assert n[..3] == DayName(days[0]);
    assert "Every day"[..3] == "Eve" && "No days selected"[..3] == "No ";
  }

  // ------------------------------------------------------ the settings class

  datatype Outcome =
    | Saved
    | MissingName
    | MissingTimes
    | NoDays
    | NoSites
    | WrongPin
    | InvalidPin
    | PinMismatch
    | NotConfirmed

  /**
   * The checks of `createOrUpdateSchedule` in their order; `pinRefused` is a
   * locked update whose PIN prompt was not answered with the PIN.
   */
  function FormOutcome(name: string, startTime: string, endTime: string,
                       days: seq<int>, sites: seq<string>, pinRefused: bool): (r: Outcome)
    ensures r == Saved <==>
      name != "" && startTime != "" && endTime != "" && days != [] && sites != [] && !pinRefused
    ensures r in {Saved, MissingName, MissingTimes, NoDays, NoSites, WrongPin}
  {
    if name == "" then MissingName
    else if startTime == "" || endTime == "" then MissingTimes
    else if days == [] then NoDays
    else if sites == [] then NoSites
    else if pinRefused then WrongPin
    else Saved
  }

  /**
   * `list[index] = s` for an index inside the list, `push` otherwise. The two
   * agree at `index == |list|`; beyond it JavaScript leaves holes, which this
   * model does not keep.
   */
  function Placed(list: seq<Schedule>, index: int, s: Schedule): (r: seq<Schedule>)
    requires index >= 0
    ensures index < |list| ==>
      (|r| == |list| && r[index] == s && forall k :: 0 <= k < |list| && k != index ==> r[k] == list[k])
    ensures index >= |list| ==> r == list + [s]
  {
    if index < |list| then list[index := s] else list + [s]
  }

  /** The state of the options page that the schedule and strict-mode handlers read and write. */
  class OptionsManager {
    var schedules: seq<Schedule>
    var strictMode: bool
    var strictModePin: string
    /** The schedule the form edits, or -1 while it creates a new one. */
    var editingScheduleIndex: int
    /** Whether the schedule form is shown (the `hidden` class absent). */
    var formVisible: bool

    /** Strict mode with a PIN set: schedule changes ask for the PIN. */
    predicate Locked()
      reads this
    {
      strictMode && strictModePin != ""
    }

    predicate Unlocks(entered: Option<string>)
      reads this
    {
      entered == Some(strictModePin)
    }

    /** What every writer of the settings keeps: no PIN is stored while strict mode is off. */
    predicate PinCleared()
      reads this
    {
      !strictMode ==> strictModePin == ""
    }

    constructor(schedules: seq<Schedule>, strictMode: bool, strictModePin: string)
      ensures this.schedules == schedules && this.strictMode == strictMode
      ensures this.strictModePin == strictModePin
      ensures editingScheduleIndex == -1 && !formVisible
    {
      this.schedules := schedules;
      this.strictMode := strictMode;
      this.strictModePin := strictModePin;
      editingScheduleIndex := -1;
      formVisible := false;
    }

    /** `showScheduleForm`: opens a cleared form, or closes the form and cancels the edit. */
    method ShowScheduleForm()
      modifies this`formVisible, this`editingScheduleIndex
      ensures formVisible == !old(formVisible)
      ensures editingScheduleIndex == if old(formVisible) then -1 else old(editingScheduleIndex)
    {
      if !formVisible {
        formVisible := true;
      } else {
        formVisible := false;
        CancelEdit();
      }
    }

    /** `cancelEdit`. */
    method CancelEdit()
      modifies this`editingScheduleIndex
      ensures editingScheduleIndex == -1
    {
      editingScheduleIndex := -1;
    }

    /** `editSchedule`: behind the PIN gate, the form opens on schedule `index`. */
    method EditSchedule(index: int, entered: Option<string>) returns (outcome: Outcome)
      requires 0 <= index < |schedules|
      modifies this`editingScheduleIndex, this`formVisible
      ensures outcome == if Locked() && !Unlocks(entered) then WrongPin else Saved
      ensures outcome == Saved ==> editingScheduleIndex == index && formVisible
      ensures outcome != Saved ==> editingScheduleIndex == old(editingScheduleIndex) && formVisible == old(formVisible)
    {
      if Locked() && !Unlocks(entered) {
        return WrongPin;
      }
      editingScheduleIndex := index;
      formVisible := true;
      outcome := Saved;
    }

    /**
     * `createOrUpdateSchedule` as written: it checks the name, both times, the
     * days and the sites in that order, asks for the PIN when it updates a
     * locked list, then replaces the edited schedule or appends a new one and
     * closes the form. The editing index is left as it was.
     */
    method CreateOrUpdateSchedule(nameInput: string, startTime: string, endTime: string,
                                  dayChecks: seq<bool>, siteInputs: seq<string>,
                                  entered: Option<string>) returns (outcome: Outcome)
      requires |dayChecks| == 7
      requires editingScheduleIndex >= -1
      modifies this`schedules, this`formVisible
      ensures outcome == FormOutcome(Trim(nameInput), startTime, endTime, SelectedDays(dayChecks, 7),
                                     SiteList(siteInputs), editingScheduleIndex >= 0 && Locked() && !Unlocks(entered))
      ensures outcome == Saved ==>
        var s := Schedule(Trim(nameInput), startTime, endTime, SelectedDays(dayChecks, 7), SiteList(siteInputs), true);
        !formVisible
        && schedules == if editingScheduleIndex >= 0 then Placed(old(schedules), editingScheduleIndex, s) else old(schedules) + [s]
      ensures outcome != Saved ==> schedules == old(schedules) && formVisible == old(formVisible)
    {
      var name := Trim(nameInput);
      var days := GetSelectedDays(dayChecks);
      var blockedSites := GetSiteInputs(siteInputs);
      outcome := SaveForm(name, startTime, endTime, days, blockedSites, entered);
    }

    /** The checks and the save of `createOrUpdateSchedule`, on the values read from the form. */
    method SaveForm(name: string, startTime: string, endTime: string,
                    days: seq<int>, blockedSites: seq<string>,
                    entered: Option<string>) returns (outcome: Outcome)
      requires editingScheduleIndex >= -1
      modifies this`schedules, this`formVisible
      ensures outcome == FormOutcome(name, startTime, endTime, days, blockedSites,
                                     editingScheduleIndex >= 0 && Locked() && !Unlocks(entered))
      ensures outcome == Saved ==>
        var s := Schedule(name, startTime, endTime, days, blockedSites, true);
        !formVisible
        && schedules == if editingScheduleIndex >= 0 then Placed(old(schedules), editingScheduleIndex, s) else old(schedules) + [s]
      ensures outcome != Saved ==> schedules == old(schedules) && formVisible == old(formVisible)
    {
      if name == "" {
        return MissingName;
      }
      if startTime == "" || endTime == "" {
        return MissingTimes;
      }
      if |days| == 0 {
        return NoDays;
      }
      if |blockedSites| == 0 {
        return NoSites;
      }
      if editingScheduleIndex >= 0 && Locked() && !Unlocks(entered) {
        return WrongPin;
      }
      var scheduleData := Schedule(name, startTime, endTime, days, blockedSites, true);
      if editingScheduleIndex >= 0 {
        schedules := Placed(schedules, editingScheduleIndex, scheduleData);
      } else {
        schedules := schedules + [scheduleData];
      }
      formVisible := false;
      outcome := Saved;
    }

    /** `createOrUpdateSchedule` followed by what `cancelEdit` does, so the next form creates a schedule. */
    method CreateOrUpdateScheduleAndReset(nameInput: string, startTime: string, endTime: string,
                                          dayChecks: seq<bool>, siteInputs: seq<string>,
                                          entered: Option<string>) returns (outcome: Outcome)
      requires |dayChecks| == 7
      requires editingScheduleIndex >= -1
      modifies this`schedules, this`formVisible, this`editingScheduleIndex
      ensures outcome == FormOutcome(Trim(nameInput), startTime, endTime, SelectedDays(dayChecks, 7),
                                     SiteList(siteInputs), old(editingScheduleIndex) >= 0 && Locked() && !Unlocks(entered))
      ensures outcome == Saved ==>
        var s := Schedule(Trim(nameInput), startTime, endTime, SelectedDays(dayChecks, 7), SiteList(siteInputs), true);
        !formVisible && editingScheduleIndex == -1
        && schedules == if old(editingScheduleIndex) >= 0 then Placed(old(schedules), old(editingScheduleIndex), s) else old(schedules) + [s]
      ensures outcome != Saved ==>
        schedules == old(schedules) && formVisible == old(formVisible)
        && editingScheduleIndex == old(editingScheduleIndex)
    {
      var name := Trim(nameInput);
      var days := GetSelectedDays(dayChecks);
      var blockedSites := GetSiteInputs(siteInputs);
      outcome := SaveFormAndReset(name, startTime, endTime, days, blockedSites, entered);
    }

    /** `SaveForm`, then the edit is cancelled once the schedule is saved. */
    method SaveFormAndReset(name: string, startTime: string, endTime: string,
                            days: seq<int>, blockedSites: seq<string>,
                            entered: Option<string>) returns (outcome: Outcome)
      requires editingScheduleIndex >= -1
      modifies this`schedules, this`formVisible, this`editingScheduleIndex
      ensures outcome == FormOutcome(name, startTime, endTime, days, blockedSites,
                                     old(editingScheduleIndex) >= 0 && Locked() && !Unlocks(entered))
      ensures outcome == Saved ==>
        var s := Schedule(name, startTime, endTime, days, blockedSites, true);
        !formVisible && editingScheduleIndex == -1
        && schedules == if old(editingScheduleIndex) >= 0 then Placed(old(schedules), old(editingScheduleIndex), s) else old(schedules) + [s]
      ensures outcome != Saved ==>
        schedules == old(schedules) && formVisible == old(formVisible)
        && editingScheduleIndex == old(editingScheduleIndex)
    {
      outcome := SaveForm(name, startTime, endTime, days, blockedSites, entered);
      if outcome == Saved {
        CancelEdit();
      }
    }

    /** `toggleSchedule`: flips `active` of schedule `index`; deactivating a locked list needs the PIN. */
    method ToggleSchedule(index: int, entered: Option<string>) returns (outcome: Outcome)
      requires 0 <= index < |schedules|
      modifies this`schedules
      ensures var s := old(schedules)[index];
        outcome == if s.active && Locked() && !Unlocks(entered) then WrongPin else Saved
      ensures outcome == Saved ==>
        var s := old(schedules)[index];
        schedules == old(schedules)[index := s.(active := !s.active)]
      ensures outcome != Saved ==> schedules == old(schedules)
    {
      var schedule := schedules[index];
      if schedule.active && Locked() && !Unlocks(entered) {
        return WrongPin;
      }
      schedules := schedules[index := schedule.(active := !schedule.active)];
      outcome := Saved;
    }

    /** `deleteSchedule`: behind the PIN gate and the confirmation, removes schedule `index`. */
    method DeleteSchedule(index: int, entered: Option<string>, confirmed: bool) returns (outcome: Outcome)
      requires 0 <= index < |schedules|
      modifies this`schedules
      ensures outcome ==
        if Locked() && !Unlocks(entered) then WrongPin
        else if !confirmed then NotConfirmed
        else Saved
      ensures outcome == Saved ==> schedules == old(schedules)[..index] + old(schedules)[index + 1..]
      ensures outcome != Saved ==> schedules == old(schedules)
    {
      if Locked() && !Unlocks(entered) {
        return WrongPin;
      }
      if !confirmed {
        return NotConfirmed;
      }
      schedules := schedules[..index] + schedules[index + 1..];
      outcome := Saved;
    }

    /**
     * `saveStrictMode` with the stored values: turning strict mode off needs
     * the PIN, turning it on for the first time needs a valid new PIN, and the
     * stored PIN is kept while strict mode stays on and cleared when it goes off.
     */
    method SaveStrictMode(checked: bool, pinInput: string, entered: Option<string>) returns (outcome: Outcome)
      modifies this`strictMode, this`strictModePin
      ensures outcome ==
        if !checked && old(Locked()) && !old(Unlocks(entered)) then WrongPin
        else if checked && old(strictModePin) == "" && !IsValidPIN(pinInput) then InvalidPin
        else Saved
      ensures outcome == Saved ==>
        strictMode == checked && PinCleared()
        && (checked ==> strictModePin == if old(strictModePin) != "" then old(strictModePin) else pinInput)
      ensures outcome == Saved && checked ==> strictModePin == old(strictModePin) || IsValidPIN(strictModePin)
      ensures outcome != Saved ==> strictMode == old(strictMode) && strictModePin == old(strictModePin)
    {
      if !checked && strictMode && strictModePin != "" {
        if entered != Some(strictModePin) {
          return WrongPin;
        }
      }
      if checked && strictModePin == "" {
        if !IsValidPIN(pinInput) {
          return InvalidPin;
        }
      }
      strictModePin := if checked then (if strictModePin != "" then strictModePin else pinInput) else "";
      strictMode := checked;
      outcome := Saved;
    }

    /** `changePIN`: the current PIN, then a valid new PIN, then the same PIN again. */
    method ChangePIN(current: Option<string>, newPin: Option<string>, confirmPin: Option<string>)
      returns (outcome: Outcome)
      modifies this`strictModePin
      ensures outcome ==
        if current == None || current == Some("") || current != Some(old(strictModePin)) then WrongPin
        else if newPin == None || !IsValidPIN(newPin.value) then InvalidPin
        else if confirmPin != newPin then PinMismatch
        else Saved
      ensures outcome == Saved ==> strictModePin == newPin.value && IsValidPIN(strictModePin)
      ensures outcome != Saved ==> strictModePin == old(strictModePin)
      ensures old(PinCleared()) ==> PinCleared()
    {
      if current == None || current.value == "" || current.value != strictModePin {
        return WrongPin;
      }
      if newPin == None || !IsValidPIN(newPin.value) {
        return InvalidPin;
      }
      if confirmPin != newPin {
        return PinMismatch;
      }
      strictModePin := newPin.value;
      outcome := Saved;
    }
  }

  // ----------------------------------------------- editing index left behind

  /** A filled-in form that names a day and a site passes every check of an unlocked save. */
  lemma FilledFormSaves(name: string, start: string, end: string, dayChecks: seq<bool>, site: string)
    requires |dayChecks| == 7 && dayChecks[1]
    requires Trim(name) != "" && start != "" && end != "" && NormalizeSite(site) != ""
    ensures FormOutcome(Trim(name), start, end, SelectedDays(dayChecks, 7), SiteList([site]), false) == Saved
  {
    assert 1 in SelectedDays(dayChecks, 7);
    NoSitesIffAllBlank([site]);
  }

  /**
   * Editing schedule 0, saving it, then opening "Create New Schedule" and
   * saving a new schedule: the second save overwrites schedule 0 again and the
   * list does not grow.
   */
  method CreateAfterEditOverwrites(first: Schedule, second: Schedule, name: string, start: string, end: string,
                                   days: seq<int>, sites: seq<string>)
    returns (count: nat, overwritten: bool)
    requires name != "" && start != "" && end != "" && days != [] && sites != []
    ensures count == 2 && overwritten
  {
    var created := Schedule(name, start, end, days, sites, true);
    var o := new OptionsManager([first, second], false, "");
    var r := o.EditSchedule(0, None);
    r := o.SaveForm(name, start, end, days, sites, None);
    o.ShowScheduleForm();
    r := o.SaveForm(name, start, end, days, sites, None);
    count := |o.schedules|;
    overwritten := o.schedules[0] == created && o.schedules[1] == second;
  }

  /** The same steps with the editing index reset on saving: the new schedule is appended. */
  method CreateAfterEditAppends(first: Schedule, second: Schedule, name: string, start: string, end: string,
                                days: seq<int>, sites: seq<string>)
    returns (count: nat, appended: bool)
    requires name != "" && start != "" && end != "" && days != [] && sites != []
    ensures count == 3 && appended
  {
    var created := Schedule(name, start, end, days, sites, true);
    var o := new OptionsManager([first, second], false, "");
    var r := o.EditSchedule(0, None);
    r := o.SaveFormAndReset(name, start, end, days, sites, None);
    o.ShowScheduleForm();
    r := o.SaveFormAndReset(name, start, end, days, sites, None);
    count := |o.schedules|;
    appended := o.schedules[0] == created && o.schedules[1] == second && o.schedules[2] == created;
  }
}
