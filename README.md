# Syslog routing and transport model

A Dafny model of the routing core of an embedded fork of the Rust `syslog` crate
(src/lib.rs): the `Logger` dispatcher with its eight severity-named methods, the
`LoggerBackend` transport (a UDP socket tied to one peer address, or a TCP stream
behind a `BufWriter`) with its write/flush contract, the `udp` and `tcp`
constructors, the `BasicLogger` adapter for the `log` facade, and the process-wide
registration done by `init_udp` and `init_tcp`.

Layout, one module per component:

- `types.dfy` — `Types`: machine integers, `Result`/`Outcome`/`Option`, opaque
  socket handles and addresses, the crate's error (`SyslogError(kind, cause)`, the
  cause being what `chain_err` wraps).
- `transport.dfy` — `Transport`: the backend as a class `LoggerBackend` (fields
  `datagrams`, `pending`, `delivered`, a ghost `written`), specified by pure step
  functions over `BackendState`, and lemmas over any sequence of calls (`Run`).
- `format.dfy` — `Format`: the eight severities, the RFC 3164 formatter's
  configuration record, and the formatter operation as "render, then one
  `write_fmt`". The formatter's rendering is a function passed in by the caller
  (the way Rust passes the `LogFormat<T>` implementation), so it stays abstract.
- `logger.dfy` — `Logging`: `Logger<F>`, `udp`/`tcp` as value chains
  (`UdpBackend`, `TcpBackend`) and methods that allocate the logger, and the crate's
  own TCP usage example as a proved scenario.
- `adapter.dfy` — `Facade` (the `log` crate's levels, filters and their order) and
  `Adapter` (`BasicLogger`, the level-to-severity map and `enabled`).
- `registration.dfy` — `Registration`: the facade's global slot as a class
  `Registry`, specified by `Register`, with `init_udp`/`init_tcp`.

What the environment decides during a call (whether a send, write or flush
fails, how many bytes a stream takes in, how many buffered bytes `BufWriter`
pushes to the connection) is an `IoAnswer` argument. The outcomes of address
resolution, `UdpSocket::bind` and `TcpStream::connect` are `Result` arguments.

`tcp` hands its address to `TcpStream::connect`, which tries each resolved
address in turn, so the model takes only the connect outcome; `enabled` is the
conjunction of two comparisons, against the run-time maximum level and the
build-time ceiling (src/lib.rs:233).

## Model

| member | source | states |
|---|---|---|
| `Transport.Opened` | src/lib.rs:151-154 | a freshly built backend keeps the link it was built from; a UDP backend has sent no datagram, a TCP backend has nothing pending and nothing delivered |
| `Transport.WriteStep` | src/lib.rs:158-163 | UDP: on success exactly one datagram, the whole message addressed to the stored peer, is appended and its length returned; on failure nothing changes. TCP: the stream's bytes (delivered then pending) grow by exactly the accepted prefix of the message, delivered bytes are never taken back, and the returned count is that prefix's length. The link never changes and every datagram goes to the peer |
| `Transport.WriteFmtStep` | src/lib.rs:165-173 | UDP: the whole rendered message is sent as one datagram to the stored peer and the byte count is dropped. TCP: on success the stream grows by the whole message, on failure by a prefix of it; delivered bytes are never taken back |
| `Transport.FlushStep` | src/lib.rs:175-180 | UDP: always `Ok` and the state is unchanged. TCP: the error is the stream's; the stream's bytes are unchanged; a successful flush leaves nothing pending and everything delivered |
| `Transport.StreamKeepsWriteOrder` | src/lib.rs:158-180 | for any sequence of writes, formatted writes and flushes on a TCP backend, delivered followed by pending is exactly the bytes accepted so far, in write order, and the delivered bytes only grow |
| `Transport.FlushDeliversEverything` | src/lib.rs:178 | after any calls, a successful flush leaves nothing pending: the peer has every byte written, in order |
| `Transport.DatagramLog` | src/lib.rs:160-170 | for any sequence of calls on a UDP backend, the peer is unchanged and the datagram log grows by one datagram per successful write or formatted write, in call order; flushes send nothing |
| `Transport.RunKeepsAllToPeer` | src/lib.rs:160-170 | for any sequence of calls on a UDP backend whose datagrams all went to its peer, every datagram in the log afterwards is still addressed to that peer, the address fixed at construction |
| `Transport.LoggerBackend.constructor` | src/lib.rs:151-154 | a backend over the given link, in its opened state, with nothing written |
| `Transport.LoggerBackend.Write` | src/lib.rs:158-163 | the new state and result are those of `WriteStep`; the ghost record of written bytes grows by what the stream accepted; the invariant (delivered followed by pending equals everything written, every datagram to the peer) is kept |
| `Transport.LoggerBackend.WriteFmt` | src/lib.rs:165-173 | the new state and result are those of `WriteFmtStep`, keeping the same invariant |
| `Transport.LoggerBackend.Flush` | src/lib.rs:175-180 | the new state and result are those of `FlushStep`; nothing is added to the written bytes |
| `Format.FormatStep` | src/lib.rs:165-173 | the formatter's operation (called at src/lib.rs:98 and its seven siblings) is taken to be one `write_fmt` of its rendering, the backend operation cited here; src/format.rs, where that shape lives, is not part of this model. It succeeds iff that write does, and a failed write surfaces as a `Write` error carrying the I/O error |
| `Format.FormatTo` | src/lib.rs:98 | running the formatter on a backend changes only that backend, as `FormatStep` says |
| `Logging.Logger.constructor` | src/lib.rs:90-92 | the logger holds exactly the given backend and formatter |
| `Logging.Logger.Emerg` | src/lib.rs:94-99 | renders with severity Emergency, writes through the owned backend, returns the formatter's outcome unchanged, and leaves the formatter untouched |
| `Logging.Logger.Alert` | src/lib.rs:101-106 | the same with severity Alert |
| `Logging.Logger.Crit` | src/lib.rs:108-113 | the same with severity Critical |
| `Logging.Logger.Err` | src/lib.rs:115-120 | the same with severity Error |
| `Logging.Logger.Warning` | src/lib.rs:122-127 | the same with severity Warning |
| `Logging.Logger.Notice` | src/lib.rs:129-134 | the same with severity Notice |
| `Logging.Logger.Info` | src/lib.rs:136-141 | the same with severity Informational |
| `Logging.Logger.Debug` | src/lib.rs:143-148 | the same with severity Debug |
| `Logging.UdpBackend` | src/lib.rs:189-204 | succeeds iff resolution succeeds with at least one address and bind succeeds; then the link is the bound socket with the first resolved address; every failure is an `Initialization` error whose cause is the resolution error, nothing (no address), or the bind error |
| `Logging.UdpBindsOnlyAfterResolution` | src/lib.rs:189-197 | when resolution fails or yields no address, the outcome of bind cannot influence the result |
| `Logging.TcpBackend` | src/lib.rs:209-214 | succeeds iff connect succeeds, giving a stream link; a connect failure is an `Initialization` error carrying the I/O error |
| `Logging.Udp` | src/lib.rs:184-205 | fails exactly as `UdpBackend` does; on success a fresh logger with the given formatter over a fresh UDP backend that has sent nothing |
| `Logging.Tcp` | src/lib.rs:208-215 | fails iff connect fails, with `Initialization`; on success a fresh logger over a fresh buffered stream with nothing pending or delivered |
| `Logging.HelloWorldOverTcp` | src/lib.rs:15-29 | the crate's usage example, for host "esp32-mydeviceid", "myprogram" and pid 0, read as `tcp` making the one connect and mapping its outcome (the example as written passes an already-connected backend where `tcp` takes an address); the `err` outcome the example `expect`s is returned, and an explicit flush stands in for the `BufWriter` drop at the end of the `Ok` arm (the example itself never flushes): if connect, the `err` write and that flush succeed, the peer has received exactly the formatter's rendering of "hello world" at severity Error; connect and write failures come back as `Initialization` and `Write` errors |
| `Adapter.SeverityOf` | src/lib.rs:240-246 | Error maps to Error, Warn to Warning, Info to Informational, Debug and Trace to Debug (both directions); Emergency, Alert, Critical and Notice are never produced |
| `Adapter.SeverityOfCollapsesOnlyTrace` | src/lib.rs:244-245 | the only two levels that share a severity are Debug and Trace |
| `Adapter.Enabled` | src/lib.rs:232-234 | a level is enabled iff both the run-time maximum level and the build-time ceiling admit it, against an explicit list of the levels each filter admits |
| `Adapter.EnabledIsDownwardClosed` | src/lib.rs:233 | if a level is enabled, every more severe level is too, and neither filter is Off |
| `Adapter.BasicLogger.constructor` | src/lib.rs:222-227 | the adapter wraps exactly the given logger |
| `Adapter.BasicLogger.Log` | src/lib.rs:236-247 | the backend changes exactly as the formatter's operation for the record's mapped severity says, on the record's text; the outcome is dropped and no filter is consulted |
| `Adapter.BasicLogger.Flush` | src/lib.rs:249-251 | the backend is flushed (its new state is `FlushStep`'s) and the outcome dropped |
| `Registration.Register` | src/lib.rs:272-274 | registration succeeds iff no logger is installed; then the candidate is installed and the maximum level set; otherwise nothing changes (the level included) and the error is `Initialization` |
| `Registration.InstalledSlotIsFrozen` | src/lib.rs:272-274 | once a logger is installed, any number of further registrations leave the logger and level unchanged and each fails with `Initialization` |
| `Registration.FirstRegistrationWins` | src/lib.rs:270-275 | from a fresh process, after any non-empty sequence of registrations the first one's logger and level are in place, it passed, and all later ones failed |
| `Registration.Registry.SetLogger` | src/lib.rs:272 | the facade's `set_logger`: succeeds iff no logger is installed, installs the candidate only then, and leaves the maximum level alone |
| `Registration.Registry.SetMaxLevel` | src/lib.rs:274 | the facade's `set_max_level`: sets the level, leaves the installed logger alone |
| `Registration.Install` | src/lib.rs:271-275 | wraps the logger in a fresh adapter and changes the registry exactly as `Register` says |
| `Registration.InitUdp` | src/lib.rs:255-276 | given a UDP construction that succeeds (the code unwraps it), the registry changes exactly as `Register` says; a newly installed adapter holds a fresh RFC 3164 formatter with `Some(hostname)`, the process and pid, over a fresh UDP backend to the first resolved address |
| `Registration.InitTcp` | src/lib.rs:279-300 | the same for a successful connect, over a fresh stream with nothing buffered |

## Left out

- The formatters of src/format.rs, src/facility.rs and src/errors.rs are not part of this model: the byte layouts of RFC 3164 and RFC 5424, timestamps, the priority value and structured-data escaping are inside the caller-supplied rendering function, which may differ from call to call (that is where a clock reading would enter).
- Severity and facility codes: severities are the eight names only, a facility is an opaque number.
- Format.FormatStep: the formatter's operation is assumed to be a single `write!` of its rendering, since src/format.rs is not part of this model; a formatter that writes more than once (and so would send several datagrams over UDP for one log call) is not covered.
- The formatter's exact error mapping: a failed write surfaces as kind `Write` with the I/O error as its cause; the real mapping lives in src/format.rs.
- Real socket I/O, address resolution (`ToSocketAddrs`, including the resolution of `local` inside bind), bind and connect: outcomes are arguments.
- `BufWriter`'s capacity and spill policy: any prefix of the buffer may reach the connection during a call, which admits more behaviours than `BufWriter` has; partial writes are a bound in `IoAnswer`.
- `UdpSocket::send_to` sending fewer bytes than asked: a datagram is sent whole or the call fails.
- The retry of interrupted writes inside `write_all`/`write_fmt`: only the net effect is modelled.
- `Arc<Mutex<…>>` sharing, locking and lock poisoning: the adapter is single-threaded and holds a plain reference; a poisoned lock is an `unwrap` panic in the source.
- Exclusive ownership of the backend by its logger is not enforced (Dafny references may alias), and the backend field is fixed after construction although the Rust field is public.
- `format!("{}", record.args())`: the record carries its text already rendered.
- The facade's own dispatch (its macros, which check the level against `max_level()` and `STATIC_MAX_LEVEL` before calling `log`) and the concurrent in-progress state of `set_logger`; `STATIC_MAX_LEVEL` is an argument of `enabled`, since it is a build-time setting of the facade.
- Logging.HelloWorldOverTcp: the example as written connects by itself and passes the connected backend to `tcp`, which takes an address, so it does not type-check; the scenario reads it as `tcp` making the one connect. It returns the `err` outcome where the example panics through `expect`, and keeps the facility (`LOG_USER`) a parameter because facility codes are opaque here.
- Flushing a `BufWriter` when it is dropped (the usage example's scenario flushes explicitly in its place).
- Logging.Logger: the backend type is fixed to `LoggerBackend`, the only backend `udp`, `tcp` and `BasicLogger` build; a `Logger` over any other writer (a plain `TcpStream`, whose default `write_fmt` may split one message over several `write` calls) is not covered.
- error_chain plumbing beyond an error kind and its direct cause.
- examples/write.rs, examples/log.rs and examples/rfc5424.rs: programs doing network setup that pass a connected backend where an address is expected.
