/** Types shared by every layer of the model. */
module Common {
  datatype Option<+T> = None | Some(value: T)

  newtype byte = x: int | 0 <= x < 256

  type Bytes = seq<byte>

  /** The state of a TcpConnection. */
  datatype ConnState = Disconnected | Connecting | Connected | Disconnecting

  datatype Errno = EWOULDBLOCK | EPIPE | ECONNRESET | OtherErrno

  /** What the kernel answers to a write: how many bytes it took, or an error. */
  datatype WriteResult = Wrote(n: nat) | WriteFailed(errno: Errno) {
    predicate Fits(len: nat) {
      Wrote? ==> n <= len
    }
  }

  /** And to a read; no bytes received means that the peer has closed. */
  datatype ReadResult = Received(data: Bytes) | ReadFailed(errno: Errno)

  function Min(a: nat, b: nat): nat {
    if a <= b then a else b
  }
}
