/** Levelled logging (src/logger.go): the level chosen from the LOG_LEVEL
    environment value, and the filter that decides whether a message is
    printed.  The process-wide current level is a field of `Logger`. */
module Logging {
  import opened Wrappers
  import opened GoStrings

  datatype LogLevel = Debug | Info | Warning | Error

  /** The numeric order of the levels, as their `iota` values. */
  function Ord(level: LogLevel): nat
  {
    match level
    case Debug => 0
    case Info => 1
    case Warning => 2
    case Error => 3
  }

  /** The name printed before a message. */
  function LevelName(level: LogLevel): (name: string)
    ensures ParseLevel(name) == level
  {
    var name := match level
      case Debug => "DEBUG"
      case Info => "INFO"
      case Warning => "WARN"
      case Error => "ERROR";
    assert ToUpper(name) == name;
    name
  }

  /** The level `initLogging` picks for an environment value: the upper-cased
      value is matched against the level names, "WARNING" and "WARN" both
      meaning Warning, and anything else (the empty value included) also
      giving Warning. */
  function ParseLevel(value: string): (level: LogLevel)
    ensures level == Debug <==> ToUpper(value) == "DEBUG"
    ensures level == Info <==> ToUpper(value) == "INFO"
    ensures level == Error <==> ToUpper(value) == "ERROR"
    ensures level == Warning <==> ToUpper(value) !in {"DEBUG", "INFO", "ERROR"}
  {
    match ToUpper(value)
    case "DEBUG" => Debug
    case "INFO" => Info
    case "WARNING" => Warning
    case "WARN" => Warning
    case "ERROR" => Error
    case _ => Warning
  }

  /** The printed name of every level reads back as that level, in upper or
      lower case. */
  lemma ParseLevelName(level: LogLevel)
    ensures ParseLevel(LevelName(level)) == level
    ensures ParseLevel(LowerName(level)) == level
  {
    assert ToUpper(LowerName(level)) == LevelName(level);
  }

  /** The level parser ignores letter case: an upper-cased value gives the
      same level as the value itself. */
  lemma ParseLevelIgnoresCase(value: string)
    ensures ParseLevel(ToUpper(value)) == ParseLevel(value)
  {
    ToUpperIdempotent(value);
  }

  function LowerName(level: LogLevel): string
  {
    match level
    case Debug => "debug"
    case Info => "info"
    case Warning => "warn"
    case Error => "error"
  }

  lemma ParseLevelExamples()
    ensures LevelName(Debug) == "DEBUG" && LevelName(Info) == "INFO"
    ensures LevelName(Warning) == "WARN" && LevelName(Error) == "ERROR"
    ensures ParseLevel("WARNING") == Warning && ParseLevel("warning") == Warning
    ensures ParseLevel("") == Warning
    ensures ParseLevel("INVALID") == Warning
  {
    assert ToUpper("warning") == "WARNING";
    assert ToUpper("INVALID") == "INVALID";
  }

  /** The filter of `logMessage`: a message is printed iff its level is at
      least the current one. */
  predicate Emits(level: LogLevel, current: LogLevel)
    ensures level == current ==> Emits(level, current)
    ensures level == Error || current == Debug ==> Emits(level, current)
    ensures level == Debug && current != Debug ==> !Emits(level, current)
  {
    Ord(level) >= Ord(current)
  }

  /** Error messages always pass, Debug messages only at Debug, and a level
      that passes lets every higher level pass. */
  lemma EmitsMonotone(level: LogLevel, higher: LogLevel, current: LogLevel)
    ensures Emits(Error, current)
    ensures Emits(Debug, current) <==> current == Debug
    ensures Emits(level, current) && Ord(level) <= Ord(higher) ==> Emits(higher, current)
  {
  }

  class Logger {
    var current: LogLevel

    /** Before `initLogging` runs the level is the zero value, Debug. */
    constructor()
      ensures current == Debug
    {
      current := Debug;
    }

    /** `initLogging`. */
    method InitLogging(env: string)
      modifies this
      ensures current == ParseLevel(env)
    {
      var levelStr := ToUpper(env);
      match levelStr {
        case "DEBUG" => current := Debug;
        case "INFO" => current := Info;
        case "WARNING" => current := Warning;
        case "WARN" => current := Warning;
        case "ERROR" => current := Error;
        case _ => current := Warning;
      }
    }

    /** `logMessage` without its timestamp: the line printed, if any. */
    method LogMessage(level: LogLevel, message: string) returns (line: Option<string>)
      ensures line.Some? <==> Emits(level, current)
      ensures line.Some? ==> line.value == LevelName(level) + ": " + message
    {
      if Ord(level) < Ord(current) {
        return None;
      }
      return Some(LevelName(level) + ": " + message);
    }
  }
}
