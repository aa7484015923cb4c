/** Values shared by every part of the model: machine integers, results, the
    opaque handles of the networking stack and the crate's error type. */
module Types {

  newtype byte = x: int | 0 <= x < 0x100
  newtype u16 = x: int | 0 <= x < 0x1_0000
  newtype u32 = x: int | 0 <= x < 0x1_0000_0000

  type Bytes = seq<byte>

  datatype Option<+T> = None | Some(value: T)

  /** `std::io::Result` and the crate's own `Result`. */
  datatype Result<+T, +E> = Ok(value: T) | Err(error: E)

  /** A `Result<()>` whose success carries nothing. */
  datatype Outcome<+E> = Pass | Fail(error: E)

  /** An operating-system level I/O failure; its meaning is left abstract. */
  datatype IoError = IoError(code: int)

  /** A resolved socket address (IPv4 or IPv6 octets and a port). */
  datatype SocketAddr = SocketAddr(ip: Bytes, port: u16)

  /** A bound datagram socket and a connected stream, as opaque handles. */
  datatype UdpSocket = UdpSocket(handle: nat)
  datatype TcpStream = TcpStream(handle: nat)

  /** The error kinds of the crate: a failed setup, and a failed formatted write. */
  datatype ErrorKind = Initialization | Write

  /** What `chain_err` keeps as the cause of an error: the I/O error it wrapped,
      nothing (an empty `Option`), or the facade's refusal to register a second logger. */
  datatype Cause = NoCause | Io(io: IoError) | LoggerAlreadySet

  datatype SyslogError = SyslogError(kind: ErrorKind, cause: Cause)

  function Min(a: nat, b: nat): nat
  {
    if a <= b then a else b
  }
}
