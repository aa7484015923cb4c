/** `Logger<Backend, Formatter>` (src/lib.rs:83-149) and its constructors `udp`
    and `tcp` (src/lib.rs:183-215). */
module Logging {
  import opened Types
  import opened Transport
  import opened Format

  /** The dispatcher: a formatter and the backend it owns. Each severity-named method
      runs the formatter's operation of that severity on the backend and returns its
      outcome; the formatter is only read. */
  class Logger<F> {
    var formatter: F
    const backend: LoggerBackend

    /** `Logger::new` */
    constructor (backend: LoggerBackend, formatter: F)
      ensures this.backend == backend && this.formatter == formatter
    {
      this.backend := backend;
      this.formatter := formatter;
    }

    method Emerg<T>(message: T, render: (F, Severity, T) -> Bytes, ans: IoAnswer) returns (r: Outcome<SyslogError>)
      requires backend.Valid()
      modifies backend
      ensures backend.Valid() && formatter == old(formatter)
      ensures (backend.State(), r) == FormatStep(old(backend.State()), render(formatter, Emergency, message), ans)
      ensures backend.written == old(backend.written) + backend.StreamBytes(WriteFmtCall(render(formatter, Emergency, message), ans))
    {
      r := FormatTo(render, formatter, backend, Emergency, message, ans);
    }

    method Alert<T>(message: T, render: (F, Severity, T) -> Bytes, ans: IoAnswer) returns (r: Outcome<SyslogError>)
      requires backend.Valid()
      modifies backend
      ensures backend.Valid() && formatter == old(formatter)
      ensures (backend.State(), r) == FormatStep(old(backend.State()), render(formatter, Severity.Alert, message), ans)
      ensures backend.written == old(backend.written) + backend.StreamBytes(WriteFmtCall(render(formatter, Severity.Alert, message), ans))
    {
      r := FormatTo(render, formatter, backend, Severity.Alert, message, ans);
    }

    method Crit<T>(message: T, render: (F, Severity, T) -> Bytes, ans: IoAnswer) returns (r: Outcome<SyslogError>)
      requires backend.Valid()
      modifies backend
      ensures backend.Valid() && formatter == old(formatter)
      ensures (backend.State(), r) == FormatStep(old(backend.State()), render(formatter, Critical, message), ans)
      ensures backend.written == old(backend.written) + backend.StreamBytes(WriteFmtCall(render(formatter, Critical, message), ans))
    {
      r := FormatTo(render, formatter, backend, Critical, message, ans);
    }

    method Err<T>(message: T, render: (F, Severity, T) -> Bytes, ans: IoAnswer) returns (r: Outcome<SyslogError>)
      requires backend.Valid()
      modifies backend
      ensures backend.Valid() && formatter == old(formatter)
      ensures (backend.State(), r) == FormatStep(old(backend.State()), render(formatter, Severity.Error, message), ans)
      ensures backend.written == old(backend.written) + backend.StreamBytes(WriteFmtCall(render(formatter, Severity.Error, message), ans))
    {
      r := FormatTo(render, formatter, backend, Severity.Error, message, ans);
    }

    method Warning<T>(message: T, render: (F, Severity, T) -> Bytes, ans: IoAnswer) returns (r: Outcome<SyslogError>)
      requires backend.Valid()
      modifies backend
      ensures backend.Valid() && formatter == old(formatter)
      ensures (backend.State(), r) == FormatStep(old(backend.State()), render(formatter, Severity.Warning, message), ans)
      ensures backend.written == old(backend.written) + backend.StreamBytes(WriteFmtCall(render(formatter, Severity.Warning, message), ans))
    {
      r := FormatTo(render, formatter, backend, Severity.Warning, message, ans);
    }

    method Notice<T>(message: T, render: (F, Severity, T) -> Bytes, ans: IoAnswer) returns (r: Outcome<SyslogError>)
      requires backend.Valid()
      modifies backend
      ensures backend.Valid() && formatter == old(formatter)
      ensures (backend.State(), r) == FormatStep(old(backend.State()), render(formatter, Severity.Notice, message), ans)
      ensures backend.written == old(backend.written) + backend.StreamBytes(WriteFmtCall(render(formatter, Severity.Notice, message), ans))
    {
      r := FormatTo(render, formatter, backend, Severity.Notice, message, ans);
    }

    method Info<T>(message: T, render: (F, Severity, T) -> Bytes, ans: IoAnswer) returns (r: Outcome<SyslogError>)
      requires backend.Valid()
      modifies backend
      ensures backend.Valid() && formatter == old(formatter)
      ensures (backend.State(), r) == FormatStep(old(backend.State()), render(formatter, Informational, message), ans)
      ensures backend.written == old(backend.written) + backend.StreamBytes(WriteFmtCall(render(formatter, Informational, message), ans))
    {
      r := FormatTo(render, formatter, backend, Informational, message, ans);
    }

    method Debug<T>(message: T, render: (F, Severity, T) -> Bytes, ans: IoAnswer) returns (r: Outcome<SyslogError>)
      requires backend.Valid()
      modifies backend
      ensures backend.Valid() && formatter == old(formatter)
      ensures (backend.State(), r) == FormatStep(old(backend.State()), render(formatter, Severity.Debug, message), ans)
      ensures backend.written == old(backend.written) + backend.StreamBytes(WriteFmtCall(render(formatter, Severity.Debug, message), ans))
    {
      r := FormatTo(render, formatter, backend, Severity.Debug, message, ans);
    }
  }

  /** The value chain of `udp`: resolve the server (the outcome of `to_socket_addrs`),
      take its first address, then bind the local socket (the outcome of
      `UdpSocket::bind`); every failure becomes an `Initialization` error. */
  function UdpBackend(serverAddrs: Result<seq<SocketAddr>, IoError>, bound: Result<UdpSocket, IoError>)
      : (r: Result<Link, SyslogError>)
    ensures r.Ok? <==> serverAddrs.Ok? && serverAddrs.value != [] && bound.Ok?
    ensures r.Ok? ==> r.value == Link.Udp(bound.value, serverAddrs.value[0])
    ensures r.Err? ==> r.error.kind == Initialization
    ensures serverAddrs.Err? ==> r.error.cause == Io(serverAddrs.error)
    ensures serverAddrs.Ok? && serverAddrs.value == [] ==> r.error.cause == NoCause
    ensures serverAddrs.Ok? && serverAddrs.value != [] && bound.Err? ==> r.error.cause == Io(bound.error)
  {
    match serverAddrs
    case Err(e) => Err(SyslogError(Initialization, Io(e)))
    case Ok(addrs) =>
      if addrs == [] then Err(SyslogError(Initialization, NoCause))
      else
        match bound
        case Err(e) => Err(SyslogError(Initialization, Io(e)))
        case Ok(socket) => Ok(Link.Udp(socket, addrs[0]))
  }

  /** When resolution fails or finds no address, bind is never reached: its outcome
      cannot change what `udp` returns. */
  lemma UdpBindsOnlyAfterResolution(serverAddrs: Result<seq<SocketAddr>, IoError>,
                                    bound1: Result<UdpSocket, IoError>, bound2: Result<UdpSocket, IoError>)
    requires serverAddrs.Err? || serverAddrs.value == []
    ensures UdpBackend(serverAddrs, bound1) == UdpBackend(serverAddrs, bound2)
  {
  }

  /** The value chain of `tcp`: the outcome of `TcpStream::connect`, a failure
      becoming an `Initialization` error. */
  function TcpBackend(connected: Result<TcpStream, IoError>): (r: Result<Link, SyslogError>)
    ensures r.Ok? <==> connected.Ok?
    ensures r.Ok? ==> r.value == Link.Tcp(connected.value)
    ensures r.Err? ==> r.error == SyslogError(Initialization, Io(connected.error))
  {
    match connected
    case Err(e) => Err(SyslogError(Initialization, Io(e)))
    case Ok(stream) => Ok(Link.Tcp(stream))
  }

  /** `udp(formatter, local, server)`: a logger over a fresh datagram backend. */
  method Udp<F>(formatter: F, serverAddrs: Result<seq<SocketAddr>, IoError>, bound: Result<UdpSocket, IoError>)
      returns (r: Result<Logger<F>, SyslogError>)
    ensures r.Err? <==> UdpBackend(serverAddrs, bound).Err?
    ensures r.Err? ==> r.error == UdpBackend(serverAddrs, bound).error
    ensures r.Ok? ==> fresh(r.value) && fresh(r.value.backend) && r.value.formatter == formatter
    ensures r.Ok? ==> r.value.backend.Valid() && r.value.backend.written == []
    ensures r.Ok? ==> r.value.backend.State() == Opened(UdpBackend(serverAddrs, bound).value)
  {
    var link := UdpBackend(serverAddrs, bound);
    if link.Err? {
      return Err(link.error);
    }
    var backend := new LoggerBackend(link.value);
    var logger := new Logger(backend, formatter);
    r := Ok(logger);
  }

  /** `tcp(formatter, server)`: a logger over a fresh stream backend with an empty buffer. */
  method Tcp<F>(formatter: F, connected: Result<TcpStream, IoError>) returns (r: Result<Logger<F>, SyslogError>)
    ensures r.Err? <==> connected.Err?
    ensures r.Err? ==> r.error == SyslogError(Initialization, Io(connected.error))
    ensures r.Ok? ==> fresh(r.value) && fresh(r.value.backend) && r.value.formatter == formatter
    ensures r.Ok? ==> r.value.backend.Valid() && r.value.backend.written == []
    ensures r.Ok? ==> r.value.backend.State() == TcpState(connected.value, [], [])
  {
    var link := TcpBackend(connected);
    if link.Err? {
      return Err(link.error);
    }
    var backend := new LoggerBackend(link.value);
    var logger := new Logger(backend, formatter);
    r := Ok(logger);
  }

  /** The crate's own usage example, in the one reading under which it is a program:
      an RFC 3164 formatter for host "esp32-mydeviceid" and "myprogram" with pid 0, a
      TCP logger and one `err("hello world")`. As written, the example connects on its
      own and hands the connected backend to `tcp`, which takes an address; here `tcp`
      makes the one `TcpStream::connect` and maps its outcome. The example `expect`s
      the `err` outcome; here it is returned. The example never flushes: its bytes leave
      when the `BufWriter` is dropped at the end of the `Ok` arm, and that drop is stood
      in for by an explicit flush whose outcome, like the drop's, is ignored. When the
      connection, the write and that flush succeed, the peer has received exactly the
      message the formatter rendered for severity `Error`. */
  method HelloWorldOverTcp(render: (Formatter3164, Severity, string) -> Bytes, facility: Facility,
                           connected: Result<TcpStream, IoError>, writeAns: IoAnswer, flushAns: IoAnswer)
      returns (r: Result<Bytes, SyslogError>)
    ensures connected.Err? ==> r == Err(SyslogError(Initialization, Io(connected.error)))
    ensures connected.Ok? && writeAns.failure.Some? ==> r == Err(SyslogError(Write, Io(writeAns.failure.value)))
    ensures connected.Ok? && writeAns.failure.None? && flushAns.failure.None? ==>
              r == Ok(render(Formatter3164(facility, Some("esp32-mydeviceid"), "myprogram", 0), Severity.Error, "hello world"))
  {
    var formatter := Formatter3164(facility, Some("esp32-mydeviceid"), "myprogram", 0);
    var built := Tcp(formatter, connected);
    if built.Err? {
      return Err(built.error);
    }
    var writer := built.value;
    var written := writer.Err("hello world", render, writeAns);
    if written.Fail? {
      return Err(written.error);
    }
    ghost var rendered := render(formatter, Severity.Error, "hello world");
    assert Flat(writer.backend.State()) == rendered by {
      assert Flat(Opened(Link.Tcp(connected.value))) == [];
    }
    var ignored := writer.backend.Flush(flushAns);
    assert flushAns.failure.None? ==> writer.backend.State().delivered == rendered;
    r := Ok(writer.backend.delivered);
  }
}
