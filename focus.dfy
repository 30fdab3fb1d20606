/**
 * The focus page (focus.js): a 25-minute countdown with start, pause, reset
 * and the one-second tick, its "MM:SS" display, and the current task kept in
 * the page's local storage. The interval timer is a flag; each call of `Tick`
 * is one firing of its callback.
 */
module Focus {
  import opened Wrappers
  import opened Strings

  /** `25 * 60` seconds. */
  const SessionSeconds: nat := 1500

  /** The timer text: zero-padded minutes and seconds. */
  function TimerText(timeLeft: nat): (r: string)
    ensures timeLeft < 6000 ==> |r| == 5 && r[2] == ':' && AllDigits(r[..2]) && AllDigits(r[3..])
  {
    Pad2(timeLeft / 60) + ":" + Pad2(timeLeft % 60)
  }

  /** The text reads back as the seconds left. */
  lemma TimerTextReadsBack(timeLeft: nat)
    requires timeLeft < 6000
    ensures var r := TimerText(timeLeft);
      DigitsValue(r[..2]) * 60 + DigitsValue(r[3..]) == timeLeft
  {
    var r := TimerText(timeLeft);
    assert r[..2] == Pad2(timeLeft / 60);
    assert r[3..] == Pad2(timeLeft % 60);
    Pad2Value(timeLeft / 60);
    Pad2Value(timeLeft % 60);
  }

  /** The document title: unpadded minutes, padded seconds. */
  function TitleText(timeLeft: nat): string
  {
    NatToString(timeLeft / 60) + ":" + Pad2(timeLeft % 60) + " - Focus Mode"
  }

  class FocusMode {
    var timeLeft: int
    var isRunning: bool
    /** Whether the one-second interval is installed. */
    var intervalActive: bool
    var currentTask: string
    /** The task input box. */
    var taskInput: string
    /** `localStorage.focusTask`. */
    var storedTask: Option<string>
    /** Whether the task is shown in place of the input. */
    var taskShown: bool
    var display: string
    var title: string

    /** What every handler keeps: a non-negative count, the interval installed exactly while running. */
    predicate Valid()
      reads this
    {
      timeLeft >= 0 && intervalActive == isRunning
    }

    /** The constructor with `init`: a full session on the display, and the task saved earlier, if any. */
    constructor(saved: Option<string>)
      ensures Valid() && timeLeft == SessionSeconds && !isRunning
      ensures display == TimerText(SessionSeconds) && title == TitleText(SessionSeconds)
      ensures storedTask == saved && taskInput == ""
      ensures if saved.Some? && saved.value != "" then currentTask == saved.value && taskShown
              else currentTask == "" && !taskShown
    {
      timeLeft := SessionSeconds;
      isRunning := false;
      intervalActive := false;
      currentTask := "";
      taskInput := "";
      storedTask := saved;
      taskShown := false;
      display := TimerText(SessionSeconds);
      title := TitleText(SessionSeconds);
      if saved.Some? && saved.value != "" {
        currentTask := saved.value;
        taskShown := true;
      }
    }

    method UpdateTimerDisplay()
      requires timeLeft >= 0
      modifies this`display, this`title
      ensures display == TimerText(timeLeft) && title == TitleText(timeLeft)
    {
      display := TimerText(timeLeft);
      title := TitleText(timeLeft);
    }

    /** `startTimer`: nothing while running (so one interval at most); otherwise runs and installs the interval. */
    method StartTimer()
      requires Valid()
      modifies this`isRunning, this`intervalActive
      ensures Valid() && isRunning
      ensures old(isRunning) ==> intervalActive == old(intervalActive)
    {
      if isRunning {
        return;
      }
      isRunning := true;
      intervalActive := true;
    }

    /** `pauseTimer`: nothing while stopped; otherwise stops and clears the interval. */
    method PauseTimer()
      requires Valid()
      modifies this`isRunning, this`intervalActive
      ensures Valid() && !isRunning
    {
      if !isRunning {
        return;
      }
      isRunning := false;
      intervalActive := false;
    }

    /** `resetTimer`: stopped, with a full session. */
    method ResetTimer()
      requires Valid()
      modifies this`isRunning, this`intervalActive, this`timeLeft, this`display, this`title
      ensures Valid() && !isRunning && timeLeft == SessionSeconds
      ensures display == TimerText(SessionSeconds) && title == TitleText(SessionSeconds)
    {
      PauseTimer();
      timeLeft := SessionSeconds;
      UpdateTimerDisplay();
    }

    /** `timerFinished`: stops and shows zero. */
    method TimerFinished()
      requires intervalActive == isRunning
      modifies this`isRunning, this`intervalActive, this`timeLeft, this`display, this`title
      ensures Valid() && !isRunning && timeLeft == 0
      ensures display == TimerText(0) && title == TitleText(0)
    {
      timeLeft := 0;
      PauseTimer();
      UpdateTimerDisplay();
    }

    /**
     * One firing of the interval: one second less; at zero (or below) the
     * session finishes, so the count never stays negative.
     */
    method Tick()
      requires Valid() && intervalActive
      modifies this`isRunning, this`intervalActive, this`timeLeft, this`display, this`title
      ensures Valid()
      ensures old(timeLeft) > 1 ==> timeLeft == old(timeLeft) - 1 && isRunning
      ensures old(timeLeft) <= 1 ==> timeLeft == 0 && !isRunning
      ensures display == TimerText(timeLeft) && title == TitleText(timeLeft)
    {
      timeLeft := timeLeft - 1;
      if timeLeft <= 0 {
        TimerFinished();
      } else {
        UpdateTimerDisplay();
      }
    }

    /** `setTask`: a non-blank trimmed entry becomes the task, is saved, and the input is cleared. */
    method SetTask()
      modifies this`currentTask, this`storedTask, this`taskShown, this`taskInput
      ensures Trim(old(taskInput)) != "" ==>
        currentTask == Trim(old(taskInput)) && storedTask == Some(currentTask) && taskShown && taskInput == ""
      ensures Trim(old(taskInput)) == "" ==>
        currentTask == old(currentTask) && storedTask == old(storedTask)
        && taskShown == old(taskShown) && taskInput == old(taskInput)
    {
      var task := Trim(taskInput);
      if task != "" {
        currentTask := task;
        storedTask := Some(task);
        taskShown := true;
        taskInput := "";
      }
    }

    /** `clearTask`: no task, nothing saved, the input shown again. */
    method ClearTask()
      modifies this`currentTask, this`storedTask, this`taskShown
      ensures currentTask == "" && storedTask == None && !taskShown
    {
      currentTask := "";
      storedTask := None;
      taskShown := false;
    }
  }

  /** A session started after a reset runs for exactly 1500 ticks and ends stopped at zero. */
  method FullSession() returns (ticks: nat, finalTime: int, running: bool)
    ensures ticks == SessionSeconds && finalTime == 0 && !running
  {
    var f := new FocusMode(None);
    f.ResetTimer();
    f.StartTimer();
    ticks := 0;
    while f.isRunning
      invariant f.Valid()
      invariant f.isRunning ==> f.timeLeft == SessionSeconds - ticks && f.timeLeft >= 1
      invariant !f.isRunning ==> ticks == SessionSeconds && f.timeLeft == 0
      decreases f.timeLeft + (if f.isRunning then 1 else 0)
    {
      f.Tick();
      ticks := ticks + 1;
    }
    finalTime := f.timeLeft;
    running := f.isRunning;
  }

  /** A session set up with a task saves it; a later page finds it again. */
  method TaskSurvivesReload(entry: string) returns (sameTask: bool)
    requires Trim(entry) != ""
    ensures sameTask
  {
    var f := new FocusMode(None);
    f.taskInput := entry;
    f.SetTask();
    var g := new FocusMode(f.storedTask);
    sameTask := g.currentTask == f.currentTask && g.taskShown;
  }
}
