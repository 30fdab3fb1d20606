/** The level-filtered logger class of utils/logger.js. */
module Logging {
  import opened Wrappers
  import opened Strings

  /** The rank table `{ debug: 0, info: 1, warn: 2, error: 3 }`; other names have no rank. */
  function LevelRank(level: string): (r: Option<nat>)
    ensures r.Some? ==> r.value <= 3
    ensures r.Some? <==> level in {"debug", "info", "warn", "error"}
  {
    if level == "debug" then Some(0)
    else if level == "info" then Some(1)
    else if level == "warn" then Some(2)
    else if level == "error" then Some(3)
    else None
  }

  /**
   * `levels[level] >= levels[threshold]`: a comparison with an unknown name
   * on either side is a comparison with `undefined`, which is false.
   */
  predicate ShouldLogAt(threshold: string, level: string)
  {
    LevelRank(level).Some? && LevelRank(threshold).Some?
    && LevelRank(level).value >= LevelRank(threshold).value
  }

  /** Raising the threshold only ever silences messages. */
  lemma RaisingThresholdSilences(low: string, high: string, level: string)
    requires LevelRank(low).Some? && LevelRank(high).Some?
    requires LevelRank(low).value <= LevelRank(high).value
    ensures ShouldLogAt(high, level) ==> ShouldLogAt(low, level)
  {}

  /** Under a known threshold, errors always pass and debug passes only at "debug". */
  lemma KnownThresholdBounds(threshold: string)
    requires LevelRank(threshold).Some?
    ensures ShouldLogAt(threshold, "error")
    ensures ShouldLogAt(threshold, "debug") <==> threshold == "debug"
  {}

  /** An unknown threshold silences every level. */
  lemma UnknownThresholdSilences(threshold: string, level: string)
    requires LevelRank(threshold).None?
    ensures !ShouldLogAt(threshold, level)
  {}

  /**
   * `detectProduction()`: production unless the manifest version mentions
   * "dev"; a manifest that cannot be read counts as production.
   */
  function DetectProduction(manifestVersion: Option<string>): (production: bool)
    ensures production <==> !(manifestVersion.Some? && Contains(manifestVersion.value, "dev"))
  {
    match manifestVersion
    case None => true
    case Some(v) => !Contains(v, "dev")
  }

  class Logger {
    const context: string
    const isProduction: bool
    var logLevel: string

    /** The threshold is always one of the four known names. */
    ghost predicate Valid()
      reads this
    {
      LevelRank(logLevel).Some?
    }

    constructor (context: string, manifestVersion: Option<string>)
      ensures Valid()
      ensures this.context == context
      ensures isProduction == DetectProduction(manifestVersion)
      ensures logLevel == if isProduction then "info" else "debug"
    {
      this.context := context;
      isProduction := DetectProduction(manifestVersion);
      logLevel := if DetectProduction(manifestVersion) then "info" else "debug";
    }

    /** `setLevel(level)`: an unknown name is ignored. */
    method SetLevel(level: string)
      requires Valid()
      modifies this
      ensures Valid()
      ensures LevelRank(level).Some? ==> logLevel == level
      ensures LevelRank(level).None? ==> logLevel == old(logLevel)
    {
      if LevelRank(level).Some? {
        logLevel := level;
      }
    }

    function ShouldLog(level: string): bool
      reads this
    {
      ShouldLogAt(logLevel, level)
    }

    /** Whether `debug(...)` reaches the console. */
    method Debug(message: string) returns (emitted: bool)
      requires Valid()
      ensures emitted <==> logLevel == "debug"
    {
      emitted := ShouldLog("debug");
    }

    /** Whether `info(...)` reaches the console. */
    method Info(message: string) returns (emitted: bool)
      requires Valid()
      ensures emitted <==> logLevel in {"debug", "info"}
    {
      emitted := ShouldLog("info");
    }

    /** Whether `warn(...)` reaches the console. */
    method Warn(message: string) returns (emitted: bool)
      requires Valid()
      ensures emitted <==> logLevel != "error"
    {
      emitted := ShouldLog("warn");
    }

    /** Whether `error(...)` reaches the console: always, whatever `setLevel` was given. */
    method Error(message: string) returns (emitted: bool)
      requires Valid()
      ensures emitted
    {
      emitted := ShouldLog("error");
    }
  }
}
