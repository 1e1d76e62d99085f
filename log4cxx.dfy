/**
 * The bridge from log4cxx: an appender that re-emits every log4cxx event as
 * a record of this library, plus the call that attaches it to log4cxx's root
 * logger. log4cxx itself is represented only by its predefined levels, the
 * fields of an event that the appender reads, and the root logger's list of
 * appenders.
 */
module Log4cxx {
  import opened Levels
  import opened Core

  /** log4cxx's predefined levels, from the least to the most severe. */
  datatype Log4cxxLevel = All | Trace | Debug | Info | Warn | Error | Fatal | Off {

    /** The position in log4cxx's order (`Level::toInt` grows the same way). */
    function Rank(): (r: nat)
      ensures r < 8
    {
      match this
      case All => 0
      case Trace => 1
      case Debug => 2
      case Info => 3
      case Warn => 4
      case Error => 5
      case Fatal => 6
      case Off => 7
    }
  }

  /** The level of a log4cxx event as a level of this library; anything without a case is `info`. */
  function FromLog4Cxx(level: Log4cxxLevel): (r: LogLevel)
    ensures IsDeclared(r)
    ensures r != Levels.Success
    ensures r == Levels.Debug <==> level == Log4cxxLevel.Trace || level == Log4cxxLevel.Debug
    ensures r == Levels.Info <==> level in {Log4cxxLevel.All, Log4cxxLevel.Info, Log4cxxLevel.Off}
  {
    match level
    case Debug => Levels.Debug
    case Trace => Levels.Debug
    case Info => Levels.Info
    case Warn => Levels.Warning
    case Error => Levels.Error
    case Fatal => Levels.Fatal
    case _ => Levels.Info
  }

  /**
   * Between the catch-all levels `ALL` and `OFF` the mapping keeps log4cxx's
   * order: a more severe log4cxx level never becomes a less severe level here.
   */
  lemma FromLog4CxxMonotone(a: Log4cxxLevel, b: Log4cxxLevel)
    requires a != Log4cxxLevel.All && a != Log4cxxLevel.Off
    requires b != Log4cxxLevel.All && b != Log4cxxLevel.Off
    requires a.Rank() <= b.Rank()
    ensures FromLog4Cxx(a) <= FromLog4Cxx(b)
  {
  }

  /** What the appender reads from a log4cxx event. */
  datatype Log4cxxEvent = Log4cxxEvent(level: Log4cxxLevel, fileName: string, lineNumber: int, message: string)

  const MigrationWarning: string :=
    "Message received via log4cxx. Did you forget to switch to DR logging macros?"

  /**
   * The records `append` logs for one event: the event itself at its mapped
   * level, then, when `warn` is set, a migration warning at the same location.
   */
  function Bridged(warn: bool, event: Log4cxxEvent): (records: seq<LogEvent>)
    ensures |records| == if warn then 2 else 1
    ensures records[0].severity == FromLog4Cxx(event.level)
    ensures records[0].message == event.message
    ensures forall r :: r in records ==> r.location == Location(event.fileName, event.lineNumber)
    ensures warn ==> records[1].severity == Levels.Warning && records[1].message == MigrationWarning
  {
    var location := Location(event.fileName, event.lineNumber);
    var first := LogEvent(FromLog4Cxx(event.level), location, event.message);
    if warn then [first, LogEvent(Levels.Warning, location, MigrationWarning)] else [first]
  }

  /** The appender that pipes log4cxx events into the logging core. */
  class Log4cxxAppender {
    /** Whether to add a warning for every event captured. */
    const warn: bool

    constructor (warn: bool)
      ensures this.warn == warn
    {
      this.warn := warn;
    }

    /** Logs the event through `core`, and the migration warning after it when `warn` is set. */
    method Append(event: Log4cxxEvent, core: LoggingCore)
      modifies core`emitted
      ensures core.emitted == old(core.emitted) + RoutedTo(Bridged(warn, event), core.sinks)
    {
      var location := Location(event.fileName, event.lineNumber);
      core.Emit(LogEvent(FromLog4Cxx(event.level), location, event.message));
      if warn {
        core.Emit(LogEvent(Levels.Warning, location, MigrationWarning));
      }
    }
  }

  /** log4cxx's root logger, as far as its list of appenders goes. */
  class RootLogger {
    var appenders: seq<Log4cxxAppender>

    constructor ()
      ensures appenders == []
    {
      appenders := [];
    }

    /** log4cxx does not attach an appender that is already attached. */
    method AddAppender(a: Log4cxxAppender)
      modifies this
      ensures appenders == if a in old(appenders) then old(appenders) else old(appenders) + [a]
    {
      if a !in appenders {
        appenders := appenders + [a];
      }
    }
  }

  /** Attaches one new appender, with the migration warning on, to the root logger. */
  method RegisterLog4cxxAppenders(root: RootLogger)
    modifies root
    ensures |root.appenders| == |old(root.appenders)| + 1
    ensures root.appenders[..|old(root.appenders)|] == old(root.appenders)
    ensures var a := root.appenders[|old(root.appenders)|]; fresh(a) && a.warn
  {
    var appender := new Log4cxxAppender(true);
    root.AddAppender(appender);
  }
}
