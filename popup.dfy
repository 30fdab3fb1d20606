/**
 * The toolbar popup (popup.js): the goal list and its add, toggle and delete
 * handlers, the deadline tag shown beside a goal, the popup's spelling of a
 * duration, and the conversion of today's stored seconds to minutes. Prompts
 * and confirmations are parameters; `new Date(text)` arrives as the instant
 * it parses to, or none.
 */
module Popup {
  import opened Wrappers
  import opened Strings
  import opened Goals
  import opened Helpers
  import opened DailyStats

  // ------------------------------------------------------------ durations

  /** `Math.floor(seconds / 60)`. */
  function SecondsToMinutes(seconds: int): (m: int)
    ensures 60 * m <= seconds < 60 * m + 60
  {
    seconds / 60
  }

  /** A character `\w` matches. */
  predicate IsWordChar(c: char)
  {
    'a' <= c <= 'z' || 'A' <= c <= 'Z' || IsDigit(c) || c == '_'
  }

  /** The end of the run of digits that starts at `i`. */
  function DigitRunEnd(s: string, i: nat): (j: nat)
    requires i <= |s|
    ensures i <= j <= |s|
    ensures forall k :: i <= k < j ==> IsDigit(s[k])
    ensures j == |s| || !IsDigit(s[j])
    decreases |s| - i
  {
    if i == |s| || !IsDigit(s[i]) then i else DigitRunEnd(s, i + 1)
  }

  /** `/\b(\d+)m\b/` matches at `i`: a word starts there with digits followed by a lone `m`. */
  predicate MinutesTokenAt(s: string, i: nat)
    requires i <= |s|
  {
    i < |s| && IsDigit(s[i]) && (i == 0 || !IsWordChar(s[i - 1]))
    && var j := DigitRunEnd(s, i);
    j < |s| && s[j] == 'm' && (j + 1 == |s| || !IsWordChar(s[j + 1]))
  }

  /** The leftmost match at or after `i`. */
  function FirstMinutesToken(s: string, i: nat): (r: Option<nat>)
    requires i <= |s|
    ensures r.Some? ==> i <= r.value < |s| && MinutesTokenAt(s, r.value)
    ensures r.Some? ==> forall k :: i <= k < r.value ==> !MinutesTokenAt(s, k)
    ensures r.None? ==> forall k :: i <= k <= |s| ==> !MinutesTokenAt(s, k)
    decreases |s| - i
  {
    if i == |s| then None
    else if MinutesTokenAt(s, i) then Some(i)
    else FirstMinutesToken(s, i + 1)
  }

  /** `s.replace(/\b(\d+)m\b/, '$1 min')`: the first such token gets " min" in place of its `m`. */
  function ReplaceMinutes(s: string): string
  {
    match FirstMinutesToken(s, 0)
    case None => s
    case Some(i) =>
      var j := DigitRunEnd(s, i);
      s[..j] + " min" + s[j + 1..]
  }

  /** The popup's `formatTime`. */
  function PopupFormatTime(minutes: nat): string
  {
    ReplaceMinutes(FormatTime(minutes))
  }

  /** Without an `m` there is nothing to replace. */
  lemma NoMinutesToken(s: string)
    requires forall k :: 0 <= k < |s| ==> s[k] != 'm'
    ensures ReplaceMinutes(s) == s
  {
  }

  /** A number followed by `m` that ends the string, after a non-word character or at the start. */
  lemma TrailingMinutes(p: string, n: nat)
    requires p == [] || !IsWordChar(p[|p| - 1])
    requires forall k :: 0 <= k < |p| ==> !MinutesTokenAt(p + NatToString(n) + "m", k)
    ensures ReplaceMinutes(p + NatToString(n) + "m") == p + NatToString(n) + " min"
  {
    var d := NatToString(n);
    var s := p + d + "m";
    assert forall k :: |p| <= k < |p| + |d| ==> s[k] == d[k - |p|];
    assert s[|p| + |d|] == 'm';
    assert DigitRunEnd(s, |p|) == |p| + |d| by {
      DigitRunIn(s, |p|, |p| + |d|);
    }
    assert MinutesTokenAt(s, |p|);
    var r := FirstMinutesToken(s, 0);
    assert r == Some(|p|);
    assert s[..|p| + |d|] == p + d;
    assert s[|p| + |d| + 1..] == [];
  }

  /** A run of digits that stops at `j` ends there. */
  lemma {:induction false} DigitRunIn(s: string, i: nat, j: nat)
    requires i <= j <= |s| && (forall k :: i <= k < j ==> IsDigit(s[k])) && (j == |s| || !IsDigit(s[j]))
    ensures DigitRunEnd(s, i) == j
    decreases j - i
  {
    if i < j {
      DigitRunIn(s, i + 1, j);
    }
  }

  /** Minutes under an hour read "N min". */
  lemma PopupMinutes(m: nat)
    requires m < 60
    ensures PopupFormatTime(m) == NatToString(m) + " min"
  {
    assert FormatTime(m) == [] + NatToString(m) + "m";
    TrailingMinutes([], m);
  }

  /** Hours with leftover minutes read "Hh M min". */
  lemma PopupHoursMinutes(m: nat)
    requires 60 <= m < 1440 && m % 60 > 0
    ensures PopupFormatTime(m) == NatToString(m / 60) + "h " + NatToString(m % 60) + " min"
  {
    var h := NatToString(m / 60);
    var p := h + "h ";
    var s := p + NatToString(m % 60) + "m";
    assert FormatTime(m) == s;
    assert s[|h|] == 'h' && s[|h| + 1] == ' ';
    forall k | 0 <= k < |p|
      ensures !MinutesTokenAt(s, k)
    {
      if k < |h| {
        assert IsDigit(s[k]);
        if k == 0 {
          DigitRunIn(s, 0, |h|);
        }
      }
    }
    TrailingMinutes(p, m % 60);
  }

  /** Whole hours and day counts contain no `m` and are left as they are. */
  lemma PopupWithoutMinutes(m: nat)
    requires m >= 60 && (m < 1440 ==> m % 60 == 0)
    ensures PopupFormatTime(m) == FormatTime(m)
  {
    var f := FormatTime(m);
    if m < 1440 {
      assert f == NatToString(m / 60) + "h";
    } else if m % 1440 / 60 > 0 {
      assert f == NatToString(m / 1440) + "d " + NatToString(m % 1440 / 60) + "h";
    } else {
      assert f == NatToString(m / 1440) + "d";
    }
    forall k | 0 <= k < |f|
      ensures f[k] != 'm'
    {
    }
    NoMinutesToken(f);
  }

  // ------------------------------------------------------------ deadlines

  /** The tag `loadGoals` puts beside a goal with a deadline. */
  datatype DeadlineTag = Overdue | DueToday | DueTomorrow | DaysLeft(days: int, soon: bool)

  /** The tag for `daysUntil` whole days (rounded up); a near deadline (within a week) is shown in orange. */
  function TagFor(daysUntil: int): (r: DeadlineTag)
    ensures r == Overdue <==> daysUntil < 0
    ensures r == DueToday <==> daysUntil == 0
    ensures r == DueTomorrow <==> daysUntil == 1
    ensures r.DaysLeft? <==> daysUntil >= 2
    ensures r.DaysLeft? ==> r.days == daysUntil && (r.soon <==> daysUntil <= 7)
  {
    if daysUntil < 0 then Overdue
    else if daysUntil == 0 then DueToday
    else if daysUntil == 1 then DueTomorrow
    else if daysUntil <= 7 then DaysLeft(daysUntil, true)
    else DaysLeft(daysUntil, false)
  }

  /** The text of a tag. */
  function TagText(t: DeadlineTag): string
  {
    match t
    case Overdue => " (OVERDUE)"
    case DueToday => " (DUE TODAY)"
    case DueTomorrow => " (DUE TOMORROW)"
    case DaysLeft(n, _) => " (" + (if n >= 0 then NatToString(n) else "-" + NatToString(-n)) + " days left)"
  }

  /** The tag of a deadline at instant `deadline` seen at `now`. */
  function DeadlineTagAt(deadline: int, now: int): DeadlineTag
  {
    TagFor(DaysUntil(deadline, now))
  }

  /**
   * In instants: overdue once a whole day has passed since the deadline, due
   * today from then until the deadline itself, due tomorrow within the next day.
   */
  lemma DeadlineTagBands(deadline: int, now: int)
    ensures DeadlineTagAt(deadline, now) == Overdue <==> deadline + DayMs <= now
    ensures DeadlineTagAt(deadline, now) == DueToday <==> deadline <= now < deadline + DayMs
    ensures DeadlineTagAt(deadline, now) == DueTomorrow <==> now < deadline <= now + DayMs
  {
    var d := DaysUntil(deadline, now);
    if d < 0 {
      assert d * DayMs <= (-1) * DayMs;
    } else if d >= 2 {
      assert (d - 1) * DayMs >= DayMs;
    }
  }

  // ------------------------------------------------------------ goals

  /** The deadline a goal keeps: a ticked, non-empty entry that parses to a future instant. */
  function KeptDeadline(hasDeadline: bool, deadlineInput: string, parsed: Option<int>, now: int): (r: Option<int>)
    ensures r.Some? <==> hasDeadline && deadlineInput != "" && parsed.Some? && parsed.value > now
    ensures r.Some? ==> r == parsed
  {
    if hasDeadline && deadlineInput != "" && parsed.Some? && parsed.value > now then parsed else None
  }

  /** The position `splice(index, 1)` starts from: a negative index counts from the end, clamped at 0. */
  function SpliceStart(len: nat, index: int): (k: nat)
    ensures index >= 0 ==> k == index
    ensures index < 0 ==> k == if index + len < 0 then 0 else index + len
  {
    if index < 0 then (if index + len < 0 then 0 else index + len) else index
  }

  /** `splice(index, 1)`: the goal at the start position goes, the rest keep their order; past the end nothing goes. */
  function SpliceOne(goals: seq<Goal>, index: int): (r: seq<Goal>)
    ensures var k := SpliceStart(|goals|, index);
      k < |goals| ==>
        |r| == |goals| - 1
        && (forall i :: 0 <= i < k ==> r[i] == goals[i])
        && (forall i :: k <= i < |r| ==> r[i] == goals[i + 1])
    ensures SpliceStart(|goals|, index) >= |goals| ==> r == goals
  {
    var k := SpliceStart(|goals|, index);
    if k < |goals| then goals[..k] + goals[k + 1..] else goals
  }

  class PopupPage {
    var goals: seq<Goal>
    var totalScreenTime: int
    var savedTime: int

    constructor(goals: seq<Goal>)
      ensures this.goals == goals && totalScreenTime == 0 && savedTime == 0
    {
      this.goals := goals;
      totalScreenTime := 0;
      savedTime := 0;
    }

    /** The minute figures `loadUserData` takes from today's record. */
    method LoadTodayMinutes(stats: Stats, today: string)
      modifies this`totalScreenTime, this`savedTime
      ensures totalScreenTime == SecondsToMinutes(DayOf(stats, today).totalTime)
      ensures savedTime == SecondsToMinutes(DayOf(stats, today).savedTime)
    {
      var todaysStats := if today in stats then stats[today] else DayStats(0, None, 0, Absent);
      totalScreenTime := todaysStats.totalTime / 60;
      savedTime := todaysStats.savedTime / 60;
    }

    /** `toggleGoal(index)`: flips `completed` of an existing goal; any other index does nothing. */
    method ToggleGoal(index: int)
      modifies this`goals
      ensures 0 <= index < |old(goals)| ==>
        goals == old(goals)[index := old(goals)[index].(completed := !old(goals)[index].completed)]
      ensures !(0 <= index < |old(goals)|) ==> goals == old(goals)
    {
      if 0 <= index < |goals| {
        goals := goals[index := goals[index].(completed := !goals[index].completed)];
      }
    }

    /** `deleteGoal(index)`: after confirmation, `splice(index, 1)`. */
    method DeleteGoal(index: int, confirmed: bool)
      modifies this`goals
      ensures goals == if confirmed then SpliceOne(old(goals), index) else old(goals)
    {
      if confirmed {
        goals := SpliceOne(goals, index);
      }
    }

    /**
     * `saveGoalFromForm`: a blank trimmed text is refused; otherwise a new,
     * uncompleted goal created today is appended, with the deadline kept only
     * when it parses to a future instant. `notify` is whether the deadline
     * reminders are refreshed.
     */
    method SaveGoalFromForm(goalInput: string, hasDeadline: bool, deadlineInput: string,
                            parsedDeadline: Option<int>, now: int, today: string)
      returns (saved: bool, notify: bool)
      modifies this`goals
      ensures saved <==> Trim(goalInput) != ""
      ensures saved ==>
        goals == old(goals) + [Goal(Trim(goalInput), false, Some(today), KeptDeadline(hasDeadline, deadlineInput, parsedDeadline, now))]
      ensures !saved ==> goals == old(goals)
      ensures notify <==> saved && KeptDeadline(hasDeadline, deadlineInput, parsedDeadline, now).Some?
    {
      var goalText := Trim(goalInput);
      if goalText == "" {
        return false, false;
      }
      var deadline: Option<int> := None;
      if hasDeadline && deadlineInput != "" {
        if parsedDeadline.Some? && parsedDeadline.value > now {
          deadline := parsedDeadline;
        }
      }
      goals := goals + [Goal(goalText, false, Some(today), deadline)];
      saved := true;
      notify := deadline.Some?;
    }

    /**
     * `addGoal`, the prompt-driven variant: a cancelled or blank prompt adds
     * nothing; the deadline prompt is offered after a confirmation.
     */
    method AddGoal(answer: Option<string>, wantsDeadline: bool, deadlineAnswer: Option<string>,
                   parsedDeadline: Option<int>, now: int, today: string)
      returns (saved: bool)
      modifies this`goals
      ensures saved <==> answer.Some? && Trim(answer.value) != ""
      ensures saved ==>
        var input := if deadlineAnswer.Some? then deadlineAnswer.value else "";
        goals == old(goals) + [Goal(Trim(answer.value), false, Some(today), KeptDeadline(wantsDeadline, input, parsedDeadline, now))]
      ensures !saved ==> goals == old(goals)
    {
      if answer == None || Trim(answer.value) == "" {
        return false;
      }
      var deadline: Option<int> := None;
      if wantsDeadline {
        if deadlineAnswer.Some? && deadlineAnswer.value != "" {
          if parsedDeadline.Some? && parsedDeadline.value > now {
            deadline := parsedDeadline;
          }
        }
      }
      goals := goals + [Goal(Trim(answer.value), false, Some(today), deadline)];
      saved := true;
    }
  }

  /** Toggling the same goal twice restores the list. */
  method ToggleTwiceRestores(goals: seq<Goal>, index: int) returns (restored: bool)
    ensures restored
  {
    var page := new PopupPage(goals);
    page.ToggleGoal(index);
    page.ToggleGoal(index);
    restored := page.goals == goals;
  }
}
