/**
 * The accepted TCP connection both socket readers use, seen from `recv`.
 *
 * What the peer sends is a sequence of arrivals: segments of bytes, then
 * possibly an orderly close or a reset. `recv(size)` returns at most `size`
 * bytes of the segment at the head and leaves the rest for the next call;
 * after a close it returns `b""` every time, after a reset it raises every
 * time. An empty segment reads as `b""` too. When the arrivals run out with
 * neither, the real `recv` waits forever; the model reports that as `Starved`.
 * Socket creation, `bind`, `listen`, `accept` and `close` are not modelled.
 */
module Sockets {

  /** What the peer has sent, in order. */
  datatype Arrival = Segment(bytes: seq<bv8>) | Close | Reset

  /** The outcome of one `recv` call. */
  datatype RecvResult = Data(bytes: seq<bv8>) | Raised | Starved

  /** One `recv(size)` on the pending arrivals: the result and what is left. */
  function RecvStep(pending: seq<Arrival>, size: int): (r: (RecvResult, seq<Arrival>))
    ensures r.0.Data? ==> |r.0.bytes| <= size
    ensures size > 0 && r.0.Data? && r.0.bytes != [] ==> StreamBytes(pending) == r.0.bytes + StreamBytes(r.1)
    ensures size > 0 && r.0.Data? && r.0.bytes != [] ==> Ending(r.1) == Ending(pending)
    ensures size > 0 && r.0.Data? && r.0.bytes == [] ==> StreamBytes(pending) == [] && Ending(pending) == PeerClosed
    ensures size > 0 && r.0.Raised? ==> StreamBytes(pending) == [] && Ending(pending) == PeerReset
    ensures size > 0 && r.0.Starved? ==> StreamBytes(pending) == [] && Ending(pending) == Silent
  {
    if size < 0 then (Raised, pending)          // `recv` refuses a negative size
    else if size == 0 then (Data([]), pending)
    else if pending == [] then (Starved, pending)
    else match pending[0]
      case Close => (Data([]), pending)
      case Reset => (Raised, pending)
      case Segment(bytes) =>
        if bytes == [] then (Data([]), pending)
        else if |bytes| <= size then (Data(bytes), pending[1..])
        else
          assert bytes == bytes[..size] + bytes[size..];
          (Data(bytes[..size]), [Segment(bytes[size..])] + pending[1..])
  }

  /** The bytes the peer sends before the stream ends. */
  function StreamBytes(pending: seq<Arrival>): seq<bv8>
  {
    if pending == [] then []
    else match pending[0]
      case Segment(bytes) => if bytes == [] then [] else bytes + StreamBytes(pending[1..])
      case Close => []
      case Reset => []
  }

  /** How the stream ends. */
  datatype StreamEnd = PeerClosed | PeerReset | Silent

  /** How the stream ends once its bytes are read. */
  function Ending(pending: seq<Arrival>): StreamEnd
  {
    if pending == [] then Silent
    else match pending[0]
      case Segment(bytes) => if bytes == [] then PeerClosed else Ending(pending[1..])
      case Close => PeerClosed
      case Reset => PeerReset
  }

  /** The accepted connection `conn`. */
  class Connection {
    var pending: seq<Arrival>

    constructor(pending: seq<Arrival>)
      ensures this.pending == pending
    {
      this.pending := pending;
    }

    /** `conn.recv(size)`. */
    method Recv(size: int) returns (r: RecvResult)
      modifies this
      ensures (r, pending) == RecvStep(old(pending), size)
    {
      var step := RecvStep(pending, size);
      r := step.0;
      pending := step.1;
    }
  }
}
