/**
 * The logger object and the `calculateDaysLeft` variant of utils.js. Its
 * other helpers are the same text as utils/helpers.js (module Helpers).
 */
module Utils {
  import opened Wrappers
  import Helpers
  import Logging

  /**
   * `calculateDaysLeft(age, continent, birthdate)`. With a birth date, the
   * expected death date is the birth date moved forward by the expected
   * lifespan; `anniversaryAt(years)` is the instant (ms) the host's calendar
   * gives for that. Without one, the age-based fallback.
   */
  function CalculateDaysLeft(age: int, continent: string, anniversaryAt: Option<nat -> int>, now: int): (days: int)
    ensures anniversaryAt.Some? ==>
      var diff := anniversaryAt.value(Helpers.ExpectedLifespan(continent)) - now;
      (diff < 0 ==> days == -1)
      && (diff >= 0 ==> days >= 0 && (days - 1) * Helpers.DayMs < diff <= days * Helpers.DayMs)
  {
    var expected := Helpers.ExpectedLifespan(continent);
    match anniversaryAt
    case Some(at) =>
      var diffTime := at(expected) - now;
      if diffTime < 0 then -1 else Helpers.DaysUntil(at(expected), now)
    case None =>
      if age == 0 then 0
      else if age >= expected then -1
      else Helpers.YearsToDays(Helpers.Max(0, expected - age))
  }

  /** Without a birth date the utils.js variant agrees with utils/helpers.js. */
  lemma AgeFallbackAgrees(age: int, continent: string, now: int)
    ensures CalculateDaysLeft(age, continent, None, now) == Helpers.CalculateDaysLeft(age, continent)
  {}

  /** The death date exactly now is 0 days left; one ms past it is borrowed time. */
  lemma BirthdatePathEdges(continent: string, now: int)
    ensures CalculateDaysLeft(30, continent, Some((y: nat) => now), now) == 0
    ensures CalculateDaysLeft(30, continent, Some((y: nat) => now - 1), now) == -1
  {}

  /**
   * The `Logger` object of utils.js: unlike the class in utils/logger.js,
   * `setLevel` stores any name, and an unknown name silences every message.
   */
  class UtilsLogger {
    var level: string

    constructor ()
      ensures level == "info"
    {
      level := "info";
    }

    method SetLevel(level: string)
      modifies this
      ensures this.level == level
    {
      this.level := level;
    }

    function ShouldLog(level: string): bool
      reads this
    {
      Logging.ShouldLogAt(this.level, level)
    }

    /** Whether `error(...)` reaches the console: only while the stored name is known. */
    method Error(message: string) returns (emitted: bool)
      ensures emitted <==> Logging.LevelRank(level).Some?
    {
      emitted := ShouldLog("error");
    }

    /** Whether `debug(...)` reaches the console. */
    method Debug(message: string) returns (emitted: bool)
      ensures emitted <==> level == "debug"
    {
      emitted := ShouldLog("debug");
    }
  }

  /** A misspelt level silences even errors in this logger, but not in utils/logger.js. */
  method MisspeltLevelScenario() returns (utilsEmits: bool, classEmits: bool)
    ensures !utilsEmits && classEmits
  {
    var u := new UtilsLogger();
    u.SetLevel("warning");
    utilsEmits := u.Error("disk full");
    var c := new Logging.Logger("MementoMori", None);
    c.SetLevel("warning");
    classEmits := c.Error("disk full");
  }
}
