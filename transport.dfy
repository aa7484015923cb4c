/** `LoggerBackend`: a datagram socket tied to one peer address, or a buffered
    stream, behind one write/flush contract (src/lib.rs:151-181).

    The operating system and `BufWriter`'s buffering policy are not modelled;
    what they decide during a call is an `IoAnswer` the caller passes in. */
module Transport {
  import opened Types

  /** What a backend was built from: `Udp(socket, addr)` or `Tcp(BufWriter<TcpStream>)`. */
  datatype Link = Udp(socket: UdpSocket, peer: SocketAddr) | Tcp(stream: TcpStream)

  /** One datagram handed to `send_to`. */
  datatype Datagram = Datagram(dest: SocketAddr, payload: Bytes)

  /** What the environment does during one call: `failure` is the I/O error the call
      meets, if any; `accepted` bounds how many message bytes a stream takes in (a
      partial write); `drained` bounds how many buffered bytes reach the peer. */
  datatype IoAnswer = IoAnswer(accepted: nat, drained: nat, failure: Option<IoError>)

  /** The observable state of a backend. For a stream, `delivered` holds the bytes
      that reached the connection and `pending` those still in the write buffer. */
  datatype BackendState =
    | UdpState(socket: UdpSocket, peer: SocketAddr, datagrams: seq<Datagram>)
    | TcpState(stream: TcpStream, pending: Bytes, delivered: Bytes)
  {
    function LinkOf(): Link
    {
      if UdpState? then Udp(socket, peer) else Tcp(stream)
    }
  }

  /** The state of a backend right after construction: no datagram sent, an empty buffer. */
  function Opened(link: Link): (st: BackendState)
    ensures st.LinkOf() == link
    ensures st.UdpState? ==> st.datagrams == []
    ensures st.TcpState? ==> st.pending == [] && st.delivered == []
  {
    match link
    case Udp(s, p) => UdpState(s, p, [])
    case Tcp(s) => TcpState(s, [], [])
  }

  /** Every datagram sent so far went to the peer address. */
  ghost predicate AllToPeer(st: BackendState)
  {
    st.UdpState? ==> forall i :: 0 <= i < |st.datagrams| ==> st.datagrams[i].dest == st.peer
  }

  /** Every byte a stream has accepted, in order: what reached the peer, then what is buffered. */
  function Flat(st: BackendState): Bytes
    requires st.TcpState?
  {
    st.delivered + st.pending
  }

  /** The buffer moves its first `k` bytes (or all of them) to the connection. */
  function Drain(st: BackendState, k: nat): (r: BackendState)
    requires st.TcpState?
    ensures r.TcpState? && r.stream == st.stream
    ensures Flat(r) == Flat(st) && st.delivered <= r.delivered
    ensures |r.pending| == |st.pending| - Min(k, |st.pending|)
  {
    var d := Min(k, |st.pending|);
    assert st.pending[..d] + st.pending[d..] == st.pending;
    TcpState(st.stream, st.pending[d..], st.delivered + st.pending[..d])
  }

  /** The bytes of `message` that `BufWriter::write` takes in. */
  function WriteAccepted(message: Bytes, ans: IoAnswer): Bytes
  {
    if ans.failure.Some? then [] else message[..Min(ans.accepted, |message|)]
  }

  /** The bytes of `message` that `write_fmt` on a `BufWriter` takes in: all of them,
      unless a write fails part-way. */
  function WriteFmtAccepted(message: Bytes, ans: IoAnswer): Bytes
  {
    if ans.failure.None? then message else message[..Min(ans.accepted, |message|)]
  }

  /** `LoggerBackend::write` (src/lib.rs:158-163). */
  function WriteStep(st: BackendState, message: Bytes, ans: IoAnswer): (r: (BackendState, Result<nat, IoError>))
    ensures r.0.LinkOf() == st.LinkOf() && r.0.UdpState? == st.UdpState?
    ensures r.1.Err? <==> ans.failure.Some?
    ensures r.1.Err? ==> r.1.error == ans.failure.value
    ensures st.UdpState? ==>
              r.0.datagrams == st.datagrams + (if r.1.Ok? then [Datagram(st.peer, message)] else [])
    ensures st.UdpState? && r.1.Ok? ==> r.1.value == |message|
    ensures st.TcpState? ==> Flat(r.0) == Flat(st) + WriteAccepted(message, ans) && st.delivered <= r.0.delivered
    ensures st.TcpState? && r.1.Ok? ==> r.1.value <= |message| && WriteAccepted(message, ans) == message[..r.1.value]
    ensures AllToPeer(st) ==> AllToPeer(r.0)
  {
    match st
    case UdpState(s, p, ds) =>
      if ans.failure.Some? then (st, Err(ans.failure.value))
      else (UdpState(s, p, ds + [Datagram(p, message)]), Ok(|message|))
    case TcpState(s, pend, del) =>
      if ans.failure.Some? then (Drain(st, ans.drained), Err(ans.failure.value))
      else
        var n := Min(ans.accepted, |message|);
        (Drain(TcpState(s, pend + message[..n], del), ans.drained), Ok(n))
  }

  /** `LoggerBackend::write_fmt` (src/lib.rs:165-173): a datagram socket renders the
      whole message and sends it as one datagram, dropping the byte count; a stream
      passes it to the buffered writer. */
  function WriteFmtStep(st: BackendState, message: Bytes, ans: IoAnswer): (r: (BackendState, Result<(), IoError>))
    ensures r.0.LinkOf() == st.LinkOf() && r.0.UdpState? == st.UdpState?
    ensures r.1.Err? <==> ans.failure.Some?
    ensures r.1.Err? ==> r.1.error == ans.failure.value
    ensures st.UdpState? ==>
              r.0.datagrams == st.datagrams + (if r.1.Ok? then [Datagram(st.peer, message)] else [])
    ensures st.TcpState? ==> Flat(r.0) == Flat(st) + WriteFmtAccepted(message, ans) && st.delivered <= r.0.delivered
    ensures st.TcpState? && r.1.Ok? ==> Flat(r.0) == Flat(st) + message
    ensures AllToPeer(st) ==> AllToPeer(r.0)
  {
    match st
    case UdpState(s, p, ds) =>
      if ans.failure.Some? then (st, Err(ans.failure.value))
      else (UdpState(s, p, ds + [Datagram(p, message)]), Ok(()))
    case TcpState(s, pend, del) =>
      var taken := WriteFmtAccepted(message, ans);
      (Drain(TcpState(s, pend + taken, del), ans.drained),
       if ans.failure.Some? then Err(ans.failure.value) else Ok(()))
  }

  /** `LoggerBackend::flush` (src/lib.rs:175-180): nothing to do for a datagram socket;
      a stream pushes its buffer to the connection. */
  function FlushStep(st: BackendState, ans: IoAnswer): (r: (BackendState, Result<(), IoError>))
    ensures r.0.LinkOf() == st.LinkOf() && r.0.UdpState? == st.UdpState?
    ensures st.UdpState? ==> r == (st, Ok(()))
    ensures st.TcpState? ==> (r.1.Err? <==> ans.failure.Some?)
    ensures st.TcpState? && r.1.Err? ==> r.1.error == ans.failure.value
    ensures st.TcpState? ==> Flat(r.0) == Flat(st) && st.delivered <= r.0.delivered
    ensures st.TcpState? && r.1.Ok? ==> r.0.pending == [] && r.0.delivered == Flat(st)
  {
    match st
    case UdpState(_, _, _) => (st, Ok(()))
    case TcpState(_, pend, _) =>
      if ans.failure.Some? then (Drain(st, ans.drained), Err(ans.failure.value))
      else (Drain(st, |pend|), Ok(()))
  }

  /** One call on a backend, with the environment's answer to it. */
  datatype Call =
    | WriteCall(message: Bytes, ans: IoAnswer)
    | WriteFmtCall(message: Bytes, ans: IoAnswer)
    | FlushCall(ans: IoAnswer)

  function Step(st: BackendState, c: Call): BackendState
  {
    match c
    case WriteCall(m, a) => WriteStep(st, m, a).0
    case WriteFmtCall(m, a) => WriteFmtStep(st, m, a).0
    case FlushCall(a) => FlushStep(st, a).0
  }

  /** The state after a sequence of calls, in order. */
  function Run(st: BackendState, calls: seq<Call>): BackendState
    decreases |calls|
  {
    if calls == [] then st else Run(Step(st, calls[0]), calls[1..])
  }

  /** The bytes one call hands to a stream. */
  function Accepted(c: Call): Bytes
  {
    match c
    case WriteCall(m, a) => WriteAccepted(m, a)
    case WriteFmtCall(m, a) => WriteFmtAccepted(m, a)
    case FlushCall(_) => []
  }

  function AcceptedAll(calls: seq<Call>): Bytes
    decreases |calls|
  {
    if calls == [] then [] else Accepted(calls[0]) + AcceptedAll(calls[1..])
  }

  /** The datagrams one call sends through a socket whose peer is `peer`. */
  function Sent(peer: SocketAddr, c: Call): seq<Datagram>
  {
    match c
    case WriteCall(m, a) => if a.failure.None? then [Datagram(peer, m)] else []
    case WriteFmtCall(m, a) => if a.failure.None? then [Datagram(peer, m)] else []
    case FlushCall(_) => []
  }

  function SentAll(peer: SocketAddr, calls: seq<Call>): seq<Datagram>
    decreases |calls|
  {
    if calls == [] then [] else Sent(peer, calls[0]) + SentAll(peer, calls[1..])
  }

  /** Whatever the calls and the environment's answers, a stream keeps its connection,
      never takes back a delivered byte, and holds (delivered, then pending) exactly the
      bytes written to it, in write order. */
  lemma {:induction false} StreamKeepsWriteOrder(st: BackendState, calls: seq<Call>)
    requires st.TcpState?
    ensures Run(st, calls).TcpState? && Run(st, calls).stream == st.stream
    ensures Flat(Run(st, calls)) == Flat(st) + AcceptedAll(calls)
    ensures st.delivered <= Run(st, calls).delivered
    decreases |calls|
  {
    if calls != [] {
      var next := Step(st, calls[0]);
      assert next.TcpState? && next.stream == st.stream;
      assert Flat(next) == Flat(st) + Accepted(calls[0]) && st.delivered <= next.delivered by {
        match calls[0]
        case WriteCall(m, a) =>
        case WriteFmtCall(m, a) =>
        case FlushCall(a) =>
      }
      StreamKeepsWriteOrder(next, calls[1..]);
      assert Flat(st) + Accepted(calls[0]) + AcceptedAll(calls[1..])
          == Flat(st) + (Accepted(calls[0]) + AcceptedAll(calls[1..]));
    }
  }

  lemma {:induction false} RunAppend(st: BackendState, calls: seq<Call>, c: Call)
    ensures Run(st, calls + [c]) == Step(Run(st, calls), c)
    decreases |calls|
  {
    if calls == [] {
      assert [c][1..] == [];
    } else {
      assert (calls + [c])[0] == calls[0];
      assert (calls + [c])[1..] == calls[1..] + [c];
      RunAppend(Step(st, calls[0]), calls[1..], c);
    }
  }

  /** A successful flush after any calls leaves nothing buffered: the peer has
      received every byte written since the stream was in state `st`, in order. */
  lemma FlushDeliversEverything(st: BackendState, calls: seq<Call>, ans: IoAnswer)
    requires st.TcpState? && ans.failure.None?
    ensures Run(st, calls + [FlushCall(ans)]).TcpState?
    ensures Run(st, calls + [FlushCall(ans)]).pending == []
    ensures Run(st, calls + [FlushCall(ans)]).delivered == Flat(st) + AcceptedAll(calls)
  {
    RunAppend(st, calls, FlushCall(ans));
    StreamKeepsWriteOrder(st, calls);
  }

  /** Whatever the calls, a datagram socket keeps its peer and its log is the old log
      followed by one datagram, addressed to that peer, per successful write. */
  lemma {:induction false} DatagramLog(st: BackendState, calls: seq<Call>)
    requires st.UdpState?
    ensures Run(st, calls).UdpState? && Run(st, calls).LinkOf() == st.LinkOf()
    ensures Run(st, calls).datagrams == st.datagrams + SentAll(st.peer, calls)
    decreases |calls|
  {
    if calls != [] {
      var next := Step(st, calls[0]);
      assert next.UdpState? && next.LinkOf() == st.LinkOf();
      assert next.datagrams == st.datagrams + Sent(st.peer, calls[0]) by {
        match calls[0]
        case WriteCall(m, a) =>
        case WriteFmtCall(m, a) =>
        case FlushCall(a) =>
      }
      DatagramLog(next, calls[1..]);
      assert st.datagrams + Sent(st.peer, calls[0]) + SentAll(st.peer, calls[1..])
          == st.datagrams + (Sent(st.peer, calls[0]) + SentAll(st.peer, calls[1..]));
    }
  }

  /** Every datagram a socket sends goes to the address fixed at construction. */
  lemma {:induction false} SentAllToPeer(peer: SocketAddr, calls: seq<Call>)
    ensures forall i :: 0 <= i < |SentAll(peer, calls)| ==> SentAll(peer, calls)[i].dest == peer
    decreases |calls|
  {
    if calls != [] {
      SentAllToPeer(peer, calls[1..]);
      var head: seq<Datagram> := Sent(peer, calls[0]);
      var tail: seq<Datagram> := SentAll(peer, calls[1..]);
      var all: seq<Datagram> := head + tail;
      assert SentAll(peer, calls) == all;
      forall i | 0 <= i < |all| ensures all[i].dest == peer {
        if i >= |head| { assert all[i] == tail[i - |head|]; }
      }
    }
  }

  /** Whatever the calls, a datagram socket whose datagrams all went to its peer
      keeps it that way. */
  lemma RunKeepsAllToPeer(st: BackendState, calls: seq<Call>)
    requires st.UdpState? && AllToPeer(st)
    ensures AllToPeer(Run(st, calls))
  {
    DatagramLog(st, calls);
    SentAllToPeer(st.peer, calls);
    var r := Run(st, calls);
    var sent := SentAll(st.peer, calls);
    assert r.datagrams == st.datagrams + sent && r.peer == st.peer;
    forall i | 0 <= i < |r.datagrams| ensures r.datagrams[i].dest == r.peer {
      if i >= |st.datagrams| { assert r.datagrams[i] == sent[i - |st.datagrams|]; }
    }
  }

  /** A backend: the link it was built from, and what each kind of link has done. */
  class LoggerBackend {
    const link: Link
    var datagrams: seq<Datagram>
    var pending: Bytes
    var delivered: Bytes
    /** Every byte a stream has accepted. */
    ghost var written: Bytes

    function State(): BackendState
      reads this
    {
      match link
      case Udp(s, p) => UdpState(s, p, datagrams)
      case Tcp(s) => TcpState(s, pending, delivered)
    }

    /** The bytes a call adds to this backend's stream (none for a datagram socket). */
    function StreamBytes(c: Call): Bytes
    {
      if link.Tcp? then Accepted(c) else []
    }

    ghost predicate Valid()
      reads this
    {
      && AllToPeer(State())
      && delivered + pending == written
      && (link.Udp? ==> pending == [] && delivered == [])
      && (link.Tcp? ==> datagrams == [])
    }

    /** `LoggerBackend::Udp(socket, addr)` or `LoggerBackend::Tcp(BufWriter::new(stream))`. */
    constructor (link: Link)
      ensures Valid() && this.link == link
      ensures State() == Opened(link) && written == []
    {
      this.link := link;
      datagrams, pending, delivered := [], [], [];
      written := [];
    }

    /** `BufWriter` moves buffered bytes to the connection. */
    method Spill(k: nat)
      requires Valid() && link.Tcp?
      modifies this
      ensures Valid() && written == old(written)
      ensures State() == Drain(old(State()), k)
    {
      var d := Min(k, |pending|);
      assert pending[..d] + pending[d..] == pending;
      delivered, pending := delivered + pending[..d], pending[d..];
    }

    method Write(message: Bytes, ans: IoAnswer) returns (r: Result<nat, IoError>)
      requires Valid()
      modifies this
      ensures Valid()
      ensures (State(), r) == WriteStep(old(State()), message, ans)
      ensures written == old(written) + StreamBytes(WriteCall(message, ans))
    {
      match link
      case Udp(_, peer) =>
        if ans.failure.Some? {
          r := Err(ans.failure.value);
        } else {
          datagrams := datagrams + [Datagram(peer, message)];
          r := Ok(|message|);
        }
      case Tcp(_) =>
        if ans.failure.Some? {
          Spill(ans.drained);
          r := Err(ans.failure.value);
        } else {
          var n := Min(ans.accepted, |message|);
          pending := pending + message[..n];
          written := written + message[..n];
          Spill(ans.drained);
          r := Ok(n);
        }
    }

    method WriteFmt(message: Bytes, ans: IoAnswer) returns (r: Result<(), IoError>)
      requires Valid()
      modifies this
      ensures Valid()
      ensures (State(), r) == WriteFmtStep(old(State()), message, ans)
      ensures written == old(written) + StreamBytes(WriteFmtCall(message, ans))
    {
      match link
      case Udp(_, peer) =>
        if ans.failure.Some? {
          r := Err(ans.failure.value);
        } else {
          datagrams := datagrams + [Datagram(peer, message)];
          r := Ok(());
        }
      case Tcp(_) =>
        var taken := WriteFmtAccepted(message, ans);
        pending := pending + taken;
        written := written + taken;
        Spill(ans.drained);
        r := if ans.failure.Some? then Err(ans.failure.value) else Ok(());
    }

    method Flush(ans: IoAnswer) returns (r: Result<(), IoError>)
      requires Valid()
      modifies this
      ensures Valid() && written == old(written)
      ensures (State(), r) == FlushStep(old(State()), ans)
    {
      match link
      case Udp(_, _) =>
        r := Ok(());
      case Tcp(_) =>
        if ans.failure.Some? {
          Spill(ans.drained);
          r := Err(ans.failure.value);
        } else {
          Spill(|pending|);
          r := Ok(());
        }
    }
  }
}
