/** The part of the `log` facade's contract the adapter consumes: its five record
    levels and its level filters, ordered from the most to the least severe. */
module Facade {

  /** `log::Level`; Error is the most severe. */
  datatype Level = Error | Warn | Info | Debug | Trace
  {
    /** The facade's numbering (Error = 1 .. Trace = 5), which its comparisons use. */
    function Rank(): nat
    {
      match this
      case Error => 1
      case Warn => 2
      case Info => 3
      case Debug => 4
      case Trace => 5
    }
  }

  /** `log::LevelFilter`: Off admits nothing, Trace admits every level. */
  datatype LevelFilter = Off | Error | Warn | Info | Debug | Trace
  {
    function Rank(): nat
    {
      match this
      case Off => 0
      case Error => 1
      case Warn => 2
      case Info => 3
      case Debug => 4
      case Trace => 5
    }
  }

  /** `level <= filter`, the facade's comparison between a level and a filter. */
  predicate AtMost(level: Level, filter: LevelFilter)
  {
    level.Rank() <= filter.Rank()
  }

  /** The levels a filter lets through, listed one by one. */
  function Admitted(filter: LevelFilter): set<Level>
  {
    match filter
    case Off => {}
    case Error => {Level.Error}
    case Warn => {Level.Error, Level.Warn}
    case Info => {Level.Error, Level.Warn, Level.Info}
    case Debug => {Level.Error, Level.Warn, Level.Info, Level.Debug}
    case Trace => {Level.Error, Level.Warn, Level.Info, Level.Debug, Level.Trace}
  }
}

/** `BasicLogger` (src/lib.rs:217-252): the adapter that serves the `log` facade
    with a `Logger` over a `LoggerBackend` and the RFC 3164 formatter. */
module Adapter {
  import opened Types
  import opened Transport
  import opened Format
  import opened Logging
  import Facade

  /** A facade record: its level and its arguments already rendered to text
      (`format!("{}", record.args())`). */
  datatype Record = Record(level: Facade.Level, text: string)

  /** The severity `BasicLogger::log` dispatches a record of level `level` to. */
  function SeverityOf(level: Facade.Level): (s: Severity)
    ensures s in {Severity.Error, Severity.Warning, Informational, Severity.Debug}
    ensures s == Severity.Error <==> level == Facade.Level.Error
    ensures s == Severity.Warning <==> level == Facade.Level.Warn
    ensures s == Informational <==> level == Facade.Level.Info
    ensures s == Severity.Debug <==> level == Facade.Level.Debug || level == Facade.Level.Trace
  {
    match level
    case Error => Severity.Error
    case Warn => Severity.Warning
    case Info => Informational
    case Debug => Severity.Debug
    case Trace => Severity.Debug
  }

  /** Only Debug and Trace share a severity: every other level keeps its own. */
  lemma SeverityOfCollapsesOnlyTrace(a: Facade.Level, b: Facade.Level)
    requires a != b && SeverityOf(a) == SeverityOf(b)
    ensures {a, b} == {Facade.Level.Debug, Facade.Level.Trace}
  {
  }

  /** `BasicLogger::enabled`: the level passes both the run-time maximum level
      (`log::max_level()`) and the build-time ceiling (`log::STATIC_MAX_LEVEL`). */
  function Enabled(level: Facade.Level, maxLevel: Facade.LevelFilter, staticMax: Facade.LevelFilter): (r: bool)
    ensures r <==> level in Facade.Admitted(maxLevel) && level in Facade.Admitted(staticMax)
  {
    Facade.AtMost(level, maxLevel) && Facade.AtMost(level, staticMax)
  }

  /** Whatever passes the filter, every more severe level passes too; Off passes nothing. */
  lemma EnabledIsDownwardClosed(a: Facade.Level, b: Facade.Level, maxLevel: Facade.LevelFilter, staticMax: Facade.LevelFilter)
    requires a.Rank() <= b.Rank() && Enabled(b, maxLevel, staticMax)
    ensures Enabled(a, maxLevel, staticMax)
    ensures maxLevel != Facade.LevelFilter.Off && staticMax != Facade.LevelFilter.Off
  {
  }

  class BasicLogger {
    /** Shared behind `Arc<Mutex<..>>` in the source; a plain reference here. */
    const logger: Logger<Formatter3164>

    /** `BasicLogger::new` */
    constructor (logger: Logger<Formatter3164>)
      ensures this.logger == logger
    {
      this.logger := logger;
    }

    /** `Log::log`: dispatch by level and drop the outcome. The filter is not consulted. */
    method Log(record: Record, render: (Formatter3164, Severity, string) -> Bytes, ans: IoAnswer)
      requires logger.backend.Valid()
      modifies logger.backend
      ensures logger.backend.Valid()
      ensures logger.backend.State() ==
                FormatStep(old(logger.backend.State()), render(logger.formatter, SeverityOf(record.level), record.text), ans).0
      ensures logger.backend.written ==
                old(logger.backend.written)
                + logger.backend.StreamBytes(WriteFmtCall(render(logger.formatter, SeverityOf(record.level), record.text), ans))
    {
      var message := record.text;
      var discarded: Outcome<SyslogError>;
      match record.level
      case Error => discarded := logger.Err(message, render, ans);
      case Warn => discarded := logger.Warning(message, render, ans);
      case Info => discarded := logger.Info(message, render, ans);
      case Debug => discarded := logger.Debug(message, render, ans);
      case Trace => discarded := logger.Debug(message, render, ans);
    }

    /** `Log::flush`: flush the backend and drop the outcome. */
    method Flush(ans: IoAnswer)
      requires logger.backend.Valid()
      modifies logger.backend
      ensures logger.backend.Valid() && logger.backend.written == old(logger.backend.written)
      ensures logger.backend.State() == FlushStep(old(logger.backend.State()), ans).0
    {
      var discarded := logger.backend.Flush(ans);
    }
  }
}
