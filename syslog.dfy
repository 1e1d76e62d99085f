/**
 * The severity mapping of the syslog sink: an explicit table from `LogLevel`
 * to the syslog priority scale, filled entry by entry and looked up with a
 * default for values that have no entry.
 */
module Syslog {
  import opened Levels

  /** The eight syslog severities, in the order of their numeric codes. */
  datatype SyslogLevel = Emergency | Alert | Critical | Error | Warning | Notice | Info | Debug {

    /** Numeric severity of section 6.2.1 of RFC 5424: 0 is the most severe, 7 the least. */
    function Code(): (c: nat)
      ensures c < 8
    {
      match this
      case Emergency => 0
      case Alert => 1
      case Critical => 2
      case Error => 3
      case Warning => 4
      case Notice => 5
      case Info => 6
      case Debug => 7
    }
  }

  /** Boost.Log's `custom_severity_mapping` answers `info` for a level it has no entry for. */
  const DefaultLevel: SyslogLevel := SyslogLevel.Info

  /** The table that `severityMapping` fills: one entry per enumerator. */
  function SeverityMapping(): (m: map<LogLevel, SyslogLevel>)
    ensures forall l :: l in m <==> IsDeclared(l)
  {
    map[Levels.Debug := SyslogLevel.Debug]
      [Levels.Info := SyslogLevel.Info]
      [Levels.Success := SyslogLevel.Info]
      [Levels.Warning := SyslogLevel.Warning]
      [Levels.Error := SyslogLevel.Error]
      [Levels.Fatal := SyslogLevel.Critical]
  }

  /** The syslog priority a record of severity `l` is written with. */
  function Priority(l: LogLevel): (p: SyslogLevel)
    ensures IsDeclared(l) ==> p == SeverityMapping()[l]
    ensures !IsDeclared(l) ==> p == DefaultLevel
  {
    var m := SeverityMapping();
    if l in m then m[l] else DefaultLevel
  }

  /**
   * The mapping is total over the six levels and keeps their order: a more
   * severe level never gets a less severe syslog priority.
   */
  lemma PriorityMonotone(a: LogLevel, b: LogLevel)
    requires IsDeclared(a) && IsDeclared(b) && a <= b
    ensures Priority(b).Code() <= Priority(a).Code()
  {
    DeclaredRange(a);
    DeclaredRange(b);
  }

  /**
   * `success` has no syslog counterpart and shares `info`'s priority; `fatal` is
   * written as `critical`, the most severe priority the table uses; `error` and
   * `fatal` stay distinct.
   */
  lemma PriorityDistinctions(l: LogLevel)
    requires IsDeclared(l)
    ensures Priority(Levels.Success) == Priority(Levels.Info) == SyslogLevel.Info
    ensures Priority(Levels.Fatal) == SyslogLevel.Critical
    ensures Priority(Levels.Fatal).Code() <= Priority(l).Code()
    ensures Priority(Levels.Error) != Priority(Levels.Fatal)
  {
    DeclaredRange(l);
  }
}
