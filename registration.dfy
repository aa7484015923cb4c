/** `init_udp` and `init_tcp` (src/lib.rs:254-300): build a logger, install it in the
    facade's process-wide slot, and only then set the facade's maximum level. */
module Registration {
  import opened Types
  import opened Transport
  import opened Format
  import opened Logging
  import opened Adapter
  import Facade

  /** The facade's process-wide state: the installed logger, if any, and its maximum level. */
  datatype Slot<L> = Slot(logger: Option<L>, maxLevel: Facade.LevelFilter)

  /** The state the process starts in: no logger, everything filtered out. */
  function Unset<L>(): Slot<L>
  {
    Slot(None, Facade.LevelFilter.Off)
  }

  const AlreadySet := SyslogError(Initialization, LoggerAlreadySet)

  /** One registration: `set_logger` (refused once a logger is installed) and, only if
      it succeeded, `set_max_level`. */
  function Register<L>(s: Slot<L>, candidate: L, level: Facade.LevelFilter): (r: (Slot<L>, Outcome<SyslogError>))
    ensures r.1.Pass? <==> s.logger.None?
    ensures r.1.Pass? ==> r.0 == Slot(Some(candidate), level)
    ensures r.1.Fail? ==> r.0 == s && r.1.error == AlreadySet
  {
    if s.logger.Some? then (s, Fail(AlreadySet)) else (Slot(Some(candidate), level), Pass)
  }

  datatype Attempt<L> = Attempt(candidate: L, level: Facade.LevelFilter)

  /** Registrations one after the other: the final state and each call's outcome. */
  function RegisterAll<L>(s: Slot<L>, attempts: seq<Attempt<L>>): (Slot<L>, seq<Outcome<SyslogError>>)
    decreases |attempts|
  {
    if attempts == [] then (s, [])
    else
      var (next, outcome) := Register(s, attempts[0].candidate, attempts[0].level);
      var (last, outcomes) := RegisterAll(next, attempts[1..]);
      (last, [outcome] + outcomes)
  }

  /** Once a logger is installed, no later registration changes the logger or the
      maximum level, and each one fails with `Initialization`. */
  lemma {:induction false} InstalledSlotIsFrozen<L>(s: Slot<L>, attempts: seq<Attempt<L>>)
    requires s.logger.Some?
    ensures RegisterAll(s, attempts).0 == s
    ensures |RegisterAll(s, attempts).1| == |attempts|
    ensures forall i :: 0 <= i < |attempts| ==> RegisterAll(s, attempts).1[i] == Fail(AlreadySet)
    decreases |attempts|
  {
    if attempts != [] {
      InstalledSlotIsFrozen(s, attempts[1..]);
      var tail := RegisterAll(s, attempts[1..]).1;
      assert RegisterAll(s, attempts).1 == [Fail(AlreadySet)] + tail;
    }
  }

  /** From a fresh process, the first registration wins: its logger and its level
      stay in place, and every later registration fails. */
  lemma FirstRegistrationWins<L>(attempts: seq<Attempt<L>>)
    requires |attempts| > 0
    ensures RegisterAll(Unset(), attempts).0 == Slot(Some(attempts[0].candidate), attempts[0].level)
    ensures |RegisterAll(Unset(), attempts).1| == |attempts|
    ensures RegisterAll(Unset(), attempts).1[0] == Pass
    ensures forall i :: 1 <= i < |attempts| ==> RegisterAll(Unset(), attempts).1[i] == Fail(AlreadySet)
  {
    var first := Slot(Some(attempts[0].candidate), attempts[0].level);
    InstalledSlotIsFrozen(first, attempts[1..]);
    var tail := RegisterAll(first, attempts[1..]).1;
    assert RegisterAll(Unset(), attempts).1 == [Pass] + tail;
  }

  /** The refusal `log::set_logger` returns when a logger is already installed. */
  datatype SetLoggerError = SetLoggerError

  /** The facade's process-wide slot, as state. */
  class Registry {
    var logger: Option<BasicLogger>
    var maxLevel: Facade.LevelFilter

    function State(): Slot<BasicLogger>
      reads this
    {
      Slot(logger, maxLevel)
    }

    constructor ()
      ensures State() == Unset()
    {
      logger, maxLevel := None, Facade.LevelFilter.Off;
    }

    /** `log::set_logger` */
    method SetLogger(candidate: BasicLogger) returns (r: Result<(), SetLoggerError>)
      modifies this
      ensures r.Ok? <==> old(logger).None?
      ensures logger == (if r.Ok? then Some(candidate) else old(logger))
      ensures maxLevel == old(maxLevel)
    {
      if logger.Some? {
        return Err(SetLoggerError);
      }
      logger := Some(candidate);
      r := Ok(());
    }

    /** `log::set_max_level` */
    method SetMaxLevel(level: Facade.LevelFilter)
      modifies this
      ensures maxLevel == level && logger == old(logger)
    {
      maxLevel := level;
    }
  }

  /** Install `logger` (already built) and set the level: the steps `init_udp` and
      `init_tcp` share after construction. */
  method Install(registry: Registry, logger: Logger<Formatter3164>, logLevel: Facade.LevelFilter)
      returns (r: Outcome<SyslogError>)
    modifies registry
    ensures registry.logger.Some?
    ensures (registry.State(), r) == Register(old(registry.State()), registry.logger.value, logLevel)
    ensures old(registry.logger).None? ==> fresh(registry.logger.value) && registry.logger.value.logger == logger
  {
    var basicLogger := new BasicLogger(logger);
    var installed := registry.SetLogger(basicLogger);
    if installed.Err? {
      return Fail(AlreadySet);
    }
    registry.SetMaxLevel(logLevel);
    r := Pass;
  }

  /** `init_udp`: the logger is built with `unwrap`, so construction must succeed. */
  method InitUdp(registry: Registry, serverAddrs: Result<seq<SocketAddr>, IoError>, bound: Result<UdpSocket, IoError>,
                 hostname: string, facility: Facility, logLevel: Facade.LevelFilter, process: string, pid: u32)
      returns (r: Outcome<SyslogError>)
    requires UdpBackend(serverAddrs, bound).Ok?
    modifies registry
    ensures registry.logger.Some?
    ensures (registry.State(), r) == Register(old(registry.State()), registry.logger.value, logLevel)
    ensures old(registry.logger).None? ==>
              && fresh(registry.logger.value) && fresh(registry.logger.value.logger)
              && fresh(registry.logger.value.logger.backend)
              && registry.logger.value.logger.formatter == Formatter3164(facility, Some(hostname), process, pid)
              && registry.logger.value.logger.backend.Valid()
              && registry.logger.value.logger.backend.State() == Opened(UdpBackend(serverAddrs, bound).value)
  {
    var formatter := Formatter3164(facility, Some(hostname), process, pid);
    var built := Logging.Udp(formatter, serverAddrs, bound);
    var logger := built.value;
    r := Install(registry, logger, logLevel);
  }

  /** `init_tcp`: the logger is built with `unwrap`, so the connection must succeed. */
  method InitTcp(registry: Registry, connected: Result<TcpStream, IoError>,
                 hostname: string, facility: Facility, logLevel: Facade.LevelFilter, process: string, pid: u32)
      returns (r: Outcome<SyslogError>)
    requires connected.Ok?
    modifies registry
    ensures registry.logger.Some?
    ensures (registry.State(), r) == Register(old(registry.State()), registry.logger.value, logLevel)
    ensures old(registry.logger).None? ==>
              && fresh(registry.logger.value) && fresh(registry.logger.value.logger)
              && fresh(registry.logger.value.logger.backend)
              && registry.logger.value.logger.formatter == Formatter3164(facility, Some(hostname), process, pid)
              && registry.logger.value.logger.backend.Valid()
              && registry.logger.value.logger.backend.State() == TcpState(connected.value, [], [])
  {
    var formatter := Formatter3164(facility, Some(hostname), process, pid);
    var built := Logging.Tcp(formatter, connected);
    var logger := built.value;
    r := Install(registry, logger, logLevel);
  }
}
