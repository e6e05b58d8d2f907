/**
 * The TCP input stage (`SocketReceiver`): it reads the client's audio in
 * chunks of exactly `chunk_size` bytes and puts each one on `queue_out`; when
 * the client closes the connection it puts the `None` sentinel and stops.
 *
 * The stop event is an input as in the handler loop: `stopAt` is the number of
 * loop-head checks that find it clear.
 */
module Receiver {
  import opened Wrappers
  import opened Sockets

  /** What `receive_full_chunk` does: return `n` bytes, return `None` because
      the peer closed first, raise, or wait forever in `recv`. */
  datatype ChunkResult = Chunk(bytes: seq<bv8>) | Closed | Failed | Stuck

  /** The accumulation loop from a state holding `data`. */
  function FullChunkFrom(pending: seq<Arrival>, n: int, data: seq<bv8>): (seq<Arrival>, ChunkResult)
    decreases n - |data|
  {
    if |data| >= n then (pending, Chunk(data))
    else
      var step := RecvStep(pending, n - |data|);
      match step.0
      case Raised => (step.1, Failed)
      case Starved => (step.1, Stuck)
      case Data(pkt) => if pkt == [] then (step.1, Closed) else FullChunkFrom(step.1, n, data + pkt)
  }

  /** `receive_full_chunk(conn, n)` on the pending arrivals. */
  function FullChunk(pending: seq<Arrival>, n: int): (seq<Arrival>, ChunkResult)
  {
    FullChunkFrom(pending, n, [])
  }

  /** What a failed chunk read reports, by how the stream ended. */
  function FailureOf(e: StreamEnd): ChunkResult
  {
    match e
    case PeerClosed => Closed
    case PeerReset => Failed
    case Silent => Stuck
  }

  /** From a state holding `data` (short of `n`), the loop completes exactly when
      the stream still has the missing bytes; it then returns `data` followed by
      exactly those bytes and leaves the rest of the stream unread. */
  lemma {:induction false} FullChunkFromReads(pending: seq<Arrival>, n: int, data: seq<bv8>)
    requires |data| <= n
    ensures var need := n - |data|;
      var r := FullChunkFrom(pending, n, data);
      && (r.1.Chunk? <==> |StreamBytes(pending)| >= need)
      && (r.1.Chunk? ==> r.1.bytes == data + StreamBytes(pending)[..need])
      && (r.1.Chunk? ==> StreamBytes(r.0) == StreamBytes(pending)[need..] && Ending(r.0) == Ending(pending))
      && (!r.1.Chunk? ==> r.1 == FailureOf(Ending(pending)))
    decreases n - |data|
  {
    if |data| < n {
      var step := RecvStep(pending, n - |data|);
      if step.0.Data? && step.0.bytes != [] {
        var pkt := step.0.bytes;
        var s := StreamBytes(pending);
        var need := n - |data|;
        FullChunkFromReads(step.1, n, data + pkt);
        assert s == pkt + StreamBytes(step.1);
        if |s| >= need {
          assert s[..need] == pkt + StreamBytes(step.1)[..need - |pkt|];
          assert s[need..] == StreamBytes(step.1)[need - |pkt|..];
        }
      }
    }
  }

  /** `receive_full_chunk(conn, n)`: with `n <= 0` it returns `b""` at once
      without calling `recv`; otherwise it returns exactly the next `n` bytes of
      the stream, in order, and reads nothing beyond them; when the stream ends
      first it returns `None` (closed) or raises (reset), and the partial data is
      dropped. */
  lemma ReceiveFullChunkReads(pending: seq<Arrival>, n: int)
    ensures n <= 0 ==> FullChunk(pending, n) == (pending, Chunk([]))
    ensures n > 0 ==> (FullChunk(pending, n).1.Chunk? <==> |StreamBytes(pending)| >= n)
    ensures n > 0 && FullChunk(pending, n).1.Chunk? ==>
      && FullChunk(pending, n).1.bytes == StreamBytes(pending)[..n]
      && StreamBytes(FullChunk(pending, n).0) == StreamBytes(pending)[n..]
      && Ending(FullChunk(pending, n).0) == Ending(pending)
    ensures n > 0 && !FullChunk(pending, n).1.Chunk? ==> FullChunk(pending, n).1 == FailureOf(Ending(pending))
  {
    if n > 0 {
      FullChunkFromReads(pending, n, []);
    }
  }

  /** The stream cut into full chunks of `n` bytes; a short remainder is not a chunk. */
  function Chunks(s: seq<bv8>, n: nat): (cs: seq<seq<bv8>>)
    requires n > 0
    ensures forall i :: 0 <= i < |cs| ==> |cs[i]| == n
    decreases |s|
  {
    if |s| < n then [] else [s[..n]] + Chunks(s[n..], n)
  }

  /** How the receiving loop ended. */
  datatype ReceiverEnd = SentinelPut | StopObserved | Crashed | Waiting

  /** The loop of `run` from pending arrivals and queue contents, after
      `stopAt` more checks find the stop event clear. */
  function ReceiverFrom(pending: seq<Arrival>, queueOut: seq<Option<seq<bv8>>>, stopAt: nat, n: int)
    : (seq<Arrival>, seq<Option<seq<bv8>>>, ReceiverEnd)
    decreases stopAt
  {
    if stopAt == 0 then (pending, queueOut, StopObserved)
    else
      var r := FullChunk(pending, n);
      match r.1
      case Chunk(bytes) => ReceiverFrom(r.0, queueOut + [Some(bytes)], stopAt - 1, n)
      case Closed => (r.0, queueOut + [None], SentinelPut)
      case Failed => (r.0, queueOut, Crashed)
      case Stuck => (r.0, queueOut, Waiting)
  }

  /** The sentinel the loop puts when the stream ends: one `None` after an
      orderly close, nothing after a reset or while the peer is silent. */
  function SentinelFor(e: StreamEnd): seq<Option<seq<bv8>>>
  {
    if e == PeerClosed then [None] else []
  }

  /** What the loop ends with once the stream has no full chunk left. */
  function EndOf(e: StreamEnd): ReceiverEnd
  {
    match e
    case PeerClosed => SentinelPut
    case PeerReset => Crashed
    case Silent => Waiting
  }

  /** One turn of the loop that gets a full chunk: the chunk is the stream's
      first `n` bytes and the loop carries on with the rest. */
  lemma ReceiverStep(pending: seq<Arrival>, queueOut: seq<Option<seq<bv8>>>, stopAt: nat, n: nat)
    requires n > 0 && stopAt > 0 && |StreamBytes(pending)| >= n
    ensures var step := FullChunk(pending, n);
      && step.1 == Chunk(StreamBytes(pending)[..n])
      && StreamBytes(step.0) == StreamBytes(pending)[n..]
      && Ending(step.0) == Ending(pending)
      && Chunks(StreamBytes(pending), n) == [StreamBytes(pending)[..n]] + Chunks(StreamBytes(step.0), n)
      && ReceiverFrom(pending, queueOut, stopAt, n)
         == ReceiverFrom(step.0, queueOut + [Some(StreamBytes(pending)[..n])], stopAt - 1, n)
  {
    ReceiveFullChunkReads(pending, n);
  }

  /** If the stop event is set before the stream's full chunks run out, the
      receiver has put exactly the first `stopAt` chunks, in arrival order, and
      no sentinel. */
  lemma {:induction false} ReceiverStopsEarly(pending: seq<Arrival>, queueOut: seq<Option<seq<bv8>>>, stopAt: nat, n: nat)
    requires n > 0 && stopAt <= |Chunks(StreamBytes(pending), n)|
    ensures ReceiverFrom(pending, queueOut, stopAt, n).1 == queueOut + Somes(Chunks(StreamBytes(pending), n)[..stopAt])
    ensures ReceiverFrom(pending, queueOut, stopAt, n).2 == StopObserved
    decreases stopAt
  {
    if stopAt > 0 {
      var s := StreamBytes(pending);
      var step := FullChunk(pending, n);
      var c := s[..n];
      var rest := Chunks(StreamBytes(step.0), n);
      ReceiverStep(pending, queueOut, stopAt, n);
      ReceiverStopsEarly(step.0, queueOut + [Some(c)], stopAt - 1, n);
      assert Chunks(s, n)[..stopAt] == [c] + rest[..stopAt - 1];
      SomesAppend([c], rest[..stopAt - 1]);
      assert queueOut + [Some(c)] + Somes(rest[..stopAt - 1]) == queueOut + ([Some(c)] + Somes(rest[..stopAt - 1]));
    } else {
      assert Chunks(StreamBytes(pending), n)[..0] == [];
    }
  }

  /** If the stop event stays clear until the stream's full chunks run out, the
      receiver puts all of them in arrival order, then exactly one `None` when
      the peer closed the connection; when the connection was reset the thread
      dies, and when the peer went silent it waits, with no sentinel. The
      partial chunk at the end is dropped. */
  lemma {:induction false} ReceiverDrains(pending: seq<Arrival>, queueOut: seq<Option<seq<bv8>>>, stopAt: nat, n: nat)
    requires n > 0 && stopAt > |Chunks(StreamBytes(pending), n)|
    ensures ReceiverFrom(pending, queueOut, stopAt, n).1
            == queueOut + Somes(Chunks(StreamBytes(pending), n)) + SentinelFor(Ending(pending))
    ensures ReceiverFrom(pending, queueOut, stopAt, n).2 == EndOf(Ending(pending))
    decreases stopAt
  {
    var s := StreamBytes(pending);
    if |s| >= n {
      var step := FullChunk(pending, n);
      var c := s[..n];
      var rest := Chunks(StreamBytes(step.0), n);
      var last := SentinelFor(Ending(pending));
      ReceiverStep(pending, queueOut, stopAt, n);
      var r := ReceiverFrom(step.0, queueOut + [Some(c)], stopAt - 1, n);
      assert ReceiverFrom(pending, queueOut, stopAt, n) == r;
      ReceiverDrains(step.0, queueOut + [Some(c)], stopAt - 1, n);
      assert r.1 == queueOut + [Some(c)] + Somes(rest) + last;
      assert Somes(Chunks(s, n)) == [Some(c)] + Somes(rest) by {
        SomesAppend([c], rest);
      }
      Regroup(queueOut, [Some(c)], Somes(rest), last);
    } else {
      ReceiverEndsAtShortStream(pending, queueOut, stopAt, n);
    }
  }

  lemma Regroup<T>(a: seq<T>, b: seq<T>, c: seq<T>, d: seq<T>)
    ensures a + b + c + d == a + (b + c) + d
  {
  }

  /** With fewer than `n` bytes left, the next chunk read ends the loop the way
      the stream ends. */
  lemma ReceiverEndsAtShortStream(pending: seq<Arrival>, queueOut: seq<Option<seq<bv8>>>, stopAt: nat, n: nat)
    requires n > 0 && stopAt > 0 && |StreamBytes(pending)| < n
    ensures Chunks(StreamBytes(pending), n) == []
    ensures ReceiverFrom(pending, queueOut, stopAt, n).1
            == queueOut + Somes([]) + SentinelFor(Ending(pending))
    ensures ReceiverFrom(pending, queueOut, stopAt, n).2 == EndOf(Ending(pending))
  {
    ReceiveFullChunkReads(pending, n);
    assert queueOut + Somes([]) == queueOut;
  }

  /** The `__init__` defaults for the address and the chunk size. */
  const DefaultHost: string := "0.0.0.0"
  const DefaultPort: int := 12345
  const DefaultChunkSize: int := 1024

  /** The receiving stage. `conn` stands for the connection `accept` returns. */
  class SocketReceiver {
    var queueOut: seq<Option<seq<bv8>>>
    const host: string
    const port: int
    const chunkSize: int
    const conn: Connection

    constructor(queueOut: seq<Option<seq<bv8>>>, host: string, port: int, chunkSize: int, conn: Connection)
      ensures this.queueOut == queueOut && this.host == host && this.port == port
      ensures this.chunkSize == chunkSize && this.conn == conn
    {
      this.queueOut := queueOut;
      this.host := host;
      this.port := port;
      this.chunkSize := chunkSize;
      this.conn := conn;
    }

    /** `SocketReceiver(stop_event, queue_out)`: `__init__` with every default. */
    constructor WithDefaults(queueOut: seq<Option<seq<bv8>>>, conn: Connection)
      ensures this.queueOut == queueOut && this.conn == conn
      ensures host == DefaultHost && port == DefaultPort && chunkSize == DefaultChunkSize
    {
      this.queueOut := queueOut;
      host := DefaultHost;
      port := DefaultPort;
      chunkSize := DefaultChunkSize;
      this.conn := conn;
    }

    /** `receive_full_chunk(conn, n)`: call `recv` for the bytes still missing
        until `n` are held. */
    method ReceiveFullChunk(n: int) returns (r: ChunkResult)
      modifies conn
      ensures (conn.pending, r) == FullChunk(old(conn.pending), n)
    {
      var data: seq<bv8> := [];
      while |data| < n
        invariant FullChunkFrom(conn.pending, n, data) == FullChunk(old(conn.pending), n)
        decreases n - |data|
      {
        var pkt := conn.Recv(n - |data|);
        match pkt
        case Raised => return Failed;
        case Starved => return Stuck;
        case Data(bytes) =>
          if bytes == [] {
            return Closed;
          }
          data := data + bytes;
      }
      r := Chunk(data);
    }

    /** The loop of `run`. */
    method Run(stopAt: nat) returns (end: ReceiverEnd)
      modifies this`queueOut, conn
      ensures (conn.pending, queueOut, end) == ReceiverFrom(old(conn.pending), old(queueOut), stopAt, chunkSize)
    {
      var checks: nat := 0;
      while checks < stopAt
        invariant checks <= stopAt
        invariant ReceiverFrom(conn.pending, queueOut, stopAt - checks, chunkSize)
                  == ReceiverFrom(old(conn.pending), old(queueOut), stopAt, chunkSize)
        decreases stopAt - checks
      {
        var chunk := ReceiveFullChunk(chunkSize);
        match chunk
        case Closed =>
          queueOut := queueOut + [None];
          return SentinelPut;
        case Failed => return Crashed;
        case Stuck => return Waiting;
        case Chunk(bytes) =>
          queueOut := queueOut + [Some(bytes)];
        checks := checks + 1;
      }
      end := StopObserved;
    }
  }
}
