/** What the dispatcher needs of a formatter. The formatters themselves (their
    byte layouts, timestamps, priority encoding) are in src/format.rs, which is
    not part of this model: a formatter for message type `T` is a rendering
    function `(formatter, severity, message) -> bytes`, passed to each call the way
    Rust passes the `LogFormat<T>` implementation, and its operation for a severity
    renders the message and hands it to the backend with one `write_fmt`. */
module Format {
  import opened Types
  import opened Transport

  /** The eight syslog severities, one per dispatcher method. */
  datatype Severity = Emergency | Alert | Critical | Error | Warning | Notice | Informational | Debug

  /** Facility codes live in src/facility.rs; a facility is an opaque value here. */
  type Facility = nat

  /** The configuration record of the RFC 3164 formatter, as lib.rs builds it. */
  datatype Formatter3164 = Formatter3164(facility: Facility, hostname: Option<string>, process: string, pid: u32)

  /** The formatter's operation for one severity, on a backend in state `st`:
      the rendered bytes go out through `write_fmt`, and a failed write becomes
      the crate's `Write` error with the I/O error as its cause. */
  function FormatStep(st: BackendState, rendered: Bytes, ans: IoAnswer): (r: (BackendState, Outcome<SyslogError>))
    ensures r.0 == WriteFmtStep(st, rendered, ans).0
    ensures r.1.Pass? <==> ans.failure.None?
    ensures r.1.Fail? ==> r.1.error == SyslogError(Write, Io(ans.failure.value))
  {
    var (next, written) := WriteFmtStep(st, rendered, ans);
    (next, if written.Ok? then Pass else Fail(SyslogError(Write, Io(written.error))))
  }

  /** `LogFormat::format` applied to `backend`, for severity `severity`. */
  method FormatTo<F, T>(render: (F, Severity, T) -> Bytes, formatter: F, backend: LoggerBackend,
                        severity: Severity, message: T, ans: IoAnswer)
      returns (r: Outcome<SyslogError>)
    requires backend.Valid()
    modifies backend
    ensures backend.Valid()
    ensures (backend.State(), r) == FormatStep(old(backend.State()), render(formatter, severity, message), ans)
    ensures backend.written == old(backend.written) + backend.StreamBytes(WriteFmtCall(render(formatter, severity, message), ans))
  {
    var written := backend.WriteFmt(render(formatter, severity, message), ans);
    r := if written.Ok? then Pass else Fail(SyslogError(Write, Io(written.error)));
  }
}
