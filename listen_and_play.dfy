/**
 * The client (`listen_and_play`): the microphone callback queues raw audio
 * for a sender thread that writes it to the server, and a receiver thread
 * queues what the server sends back for the speaker callback, which copies one
 * queued item into each fixed-size output buffer.
 *
 * Audio devices and threads are not modelled; each callback and each thread
 * loop is a method on the shared state. Both streams are int16 mono with
 * `blocksize=chunk_size`, so every buffer holds `chunk_size * 2` bytes. The
 * stop event is the field `stopSet`, which the threads set, together with the
 * input `stopAt` (how many more loop-head checks find it clear before another
 * thread sets it). `sendall` failing is the input `breaksAfter`: the number of
 * further calls that succeed before one raises (`None`: none raises).
 */
module ListenAndPlay {
  import opened Wrappers
  import opened Sockets

  /** `ListenAndPlayArguments`. */
  datatype ListenAndPlayArguments = ListenAndPlayArguments(
    sendRate: int, recvRate: int, chunkSize: int, host: string, sendPort: int, recvPort: int)

  /** The dataclass defaults. */
  const DefaultArguments: ListenAndPlayArguments :=
    ListenAndPlayArguments(16000, 16000, 1024, "localhost", 12345, 12346)

  /** Bytes in one audio buffer of `frames` int16 mono frames. */
  function BufferBytes(frames: int): int
  {
    frames * 2
  }

  /** The receiver's read size, `chunk_size*2`. */
  function ReadSize(args: ListenAndPlayArguments): int
  {
    args.chunkSize * 2
  }

  /** What `cb_recv` leaves in an output buffer of `len` bytes, given the item it
      took from `recv_q` (`None`: the queue was empty). `None` as the result: the
      slice assignment raised because the item is longer than the buffer. */
  function PlaybackFill(next: Option<seq<bv8>>, len: nat): Option<seq<bv8>>
  {
    match next
    case None => Some(seq(len, i => 0))
    case Some(data) => if |data| <= len then Some(data + seq(len - |data|, i => 0)) else None
  }

  /** The buffer keeps its length; with an empty queue it is all zeros; with an
      item that fits it starts with the item and the rest is zeros; an item
      longer than the buffer makes the callback raise. */
  lemma PlaybackFillContents(next: Option<seq<bv8>>, len: nat)
    ensures PlaybackFill(next, len).Some? <==> next.None? || |next.value| <= len
    ensures PlaybackFill(next, len).Some? ==> |PlaybackFill(next, len).value| == len
    ensures next.None? ==> forall i :: 0 <= i < len ==> PlaybackFill(next, len).value[i] == 0
    ensures next.Some? && |next.value| <= len ==>
      && PlaybackFill(next, len).value[..|next.value|] == next.value
      && forall i :: |next.value| <= i < len ==> PlaybackFill(next, len).value[i] == 0
  {
    if next.Some? && |next.value| <= len {
      var data := next.value;
      assert (data + seq(len - |data|, i => 0))[..|data|] == data;
    }
  }

  /** Every queued item is non-empty and at most `size` bytes long. */
  predicate Fits(items: seq<seq<bv8>>, size: int)
  {
    forall i :: 0 <= i < |items| ==> 0 < |items[i]| <= size
  }

  /** How a thread loop ended. */
  datatype LoopEnd =
    | StopObserved   // the loop head found the stop event set
    | SentinelTaken  // the sender took `None`
    | ServerClosed   // the receiver read `b""`
    | Failed         // `sendall` or `recv` raised
    | Blocked        // `get()` or `recv()` waits forever

  /** The state the sender thread works on. */
  datatype SenderState = SenderState(sendQ: seq<Option<seq<bv8>>>, sent: seq<seq<bv8>>, stopSet: bool)

  /** The `sender` loop from state `s`. */
  function SenderFrom(s: SenderState, stopAt: nat, breaksAfter: Option<nat>): (SenderState, LoopEnd)
    decreases stopAt
  {
    if s.stopSet || stopAt == 0 then (s, StopObserved)
    else if s.sendQ == [] then (s, Blocked)
    else if s.sendQ[0].None? then (SenderState(s.sendQ[1..], s.sent, false), SentinelTaken)
    else if breaksAfter == Some(0) then (SenderState(s.sendQ[1..], s.sent, true), Failed)
    else SenderFrom(SenderState(s.sendQ[1..], s.sent + [s.sendQ[0].value], false), stopAt - 1, Later(breaksAfter))
  }

  /** One successful `sendall` later. */
  function Later(breaksAfter: Option<nat>): Option<nat>
    requires breaksAfter != Some(0)
  {
    if breaksAfter.Some? then Some(breaksAfter.value - 1) else None
  }

  /** One turn of the sender loop that sends an item. */
  lemma SenderStep(sendQ: seq<Option<seq<bv8>>>, sent: seq<seq<bv8>>, stopAt: nat, breaksAfter: Option<nat>)
    requires stopAt > 0 && sendQ != [] && sendQ[0].Some? && breaksAfter != Some(0)
    ensures SenderFrom(SenderState(sendQ, sent, false), stopAt, breaksAfter)
            == SenderFrom(SenderState(sendQ[1..], sent + [sendQ[0].value], false), stopAt - 1, Later(breaksAfter))
  {
  }

  /** The values of a run of `Some`s. */
  function Values<T>(items: seq<Option<T>>): (vs: seq<T>)
    requires forall i :: 0 <= i < |items| ==> items[i].Some?
    ensures |vs| == |items|
    ensures forall i :: 0 <= i < |items| ==> items[i] == Some(vs[i])
  {
    if items == [] then [] else [items[0].value] + Values(items[1..])
  }

  /** What the sender loop does, counted: how many items it sent and how it
      ended. */
  datatype SendTrace = SendTrace(sentCount: nat, end: LoopEnd)

  /** The sender loop's trace with the stop event clear at the start. */
  function SendTraceOf(sendQ: seq<Option<seq<bv8>>>, stopAt: nat, breaksAfter: Option<nat>): (t: SendTrace)
    ensures t.sentCount <= |sendQ|
    decreases stopAt
  {
    if stopAt == 0 then SendTrace(0, StopObserved)
    else if sendQ == [] then SendTrace(0, Blocked)
    else if sendQ[0].None? then SendTrace(0, SentinelTaken)
    else if breaksAfter == Some(0) then SendTrace(0, Failed)
    else
      var rest := SendTraceOf(sendQ[1..], stopAt - 1, Later(breaksAfter));
      SendTrace(1 + rest.sentCount, rest.end)
  }

  /** How many items the loop took from `send_q`: those it sent, and the `None`
      or the item whose `sendall` failed. */
  function Taken(t: SendTrace): nat
  {
    t.sentCount + if t.end == SentinelTaken || t.end == Failed then 1 else 0
  }

  /** The loop stops exactly at the first `None` or at the failing `sendall`:
      every item before it is a value, the `None` is never sent, and the failing
      send is the one the connection breaks on. */
  lemma {:induction false} SenderStopsOnSentinelOrFailure(sendQ: seq<Option<seq<bv8>>>, stopAt: nat, breaksAfter: Option<nat>)
    ensures var t := SendTraceOf(sendQ, stopAt, breaksAfter);
      && Taken(t) <= |sendQ|
      && (forall i :: 0 <= i < t.sentCount ==> sendQ[i].Some?)
      && (t.end == SentinelTaken ==> sendQ[t.sentCount].None?)
      && (t.end == Failed ==> sendQ[t.sentCount].Some? && breaksAfter == Some(t.sentCount))
      && (t.end == StopObserved ==> t.sentCount == stopAt)
      && (t.end == Blocked ==> t.sentCount == |sendQ|)
    decreases stopAt
  {
    if stopAt > 0 && sendQ != [] && sendQ[0].Some? && breaksAfter != Some(0) {
      SenderStopsOnSentinelOrFailure(sendQ[1..], stopAt - 1, Later(breaksAfter));
    }
  }

  /** The sender loop in full: it has sent the values of the items before where
      it stopped, in queue order; it has taken exactly those items plus the
      `None` or the failed item; and it has set the stop event exactly when a
      `sendall` failed. */
  lemma SenderFromIsTrace(sendQ: seq<Option<seq<bv8>>>, sent: seq<seq<bv8>>, stopAt: nat, breaksAfter: Option<nat>)
    ensures var t := SendTraceOf(sendQ, stopAt, breaksAfter);
      && Taken(t) <= |sendQ|
      && (forall i :: 0 <= i < t.sentCount ==> sendQ[i].Some?)
      && var r := SenderFrom(SenderState(sendQ, sent, false), stopAt, breaksAfter);
      && r.0.sendQ == sendQ[Taken(t)..]
      && r.0.sent == sent + Values(sendQ[..t.sentCount])
      && r.0.stopSet == (t.end == Failed)
      && r.1 == t.end
  {
    SenderTakes(sendQ, sent, stopAt, breaksAfter);
    SenderSends(sendQ, sent, stopAt, breaksAfter);
  }

  /** What the sender loop leaves in `send_q`, and how it ends. */
  lemma {:induction false} SenderTakes(sendQ: seq<Option<seq<bv8>>>, sent: seq<seq<bv8>>, stopAt: nat,
                                       breaksAfter: Option<nat>)
    ensures var t := SendTraceOf(sendQ, stopAt, breaksAfter);
      && Taken(t) <= |sendQ|
      && var r := SenderFrom(SenderState(sendQ, sent, false), stopAt, breaksAfter);
      && r.0.sendQ == sendQ[Taken(t)..]
      && r.0.stopSet == (t.end == Failed)
      && r.1 == t.end
    decreases stopAt
  {
    var t := SendTraceOf(sendQ, stopAt, breaksAfter);
    SenderStopsOnSentinelOrFailure(sendQ, stopAt, breaksAfter);
    if stopAt > 0 && sendQ != [] && sendQ[0].Some? && breaksAfter != Some(0) {
      var rest := SendTraceOf(sendQ[1..], stopAt - 1, Later(breaksAfter));
      SenderStep(sendQ, sent, stopAt, breaksAfter);
      SenderTakes(sendQ[1..], sent + [sendQ[0].value], stopAt - 1, Later(breaksAfter));
      assert t == SendTrace(1 + rest.sentCount, rest.end);
      DropAfterHead(sendQ, Taken(rest));
    } else {
      assert t.sentCount == 0;
    }
  }

  /** What the sender loop has sent: the values before where it stopped. */
  lemma {:induction false} SenderSends(sendQ: seq<Option<seq<bv8>>>, sent: seq<seq<bv8>>, stopAt: nat,
                                       breaksAfter: Option<nat>)
    ensures var t := SendTraceOf(sendQ, stopAt, breaksAfter);
      && (forall i :: 0 <= i < t.sentCount ==> sendQ[i].Some?)
      && SenderFrom(SenderState(sendQ, sent, false), stopAt, breaksAfter).0.sent
         == sent + Values(sendQ[..t.sentCount])
    decreases stopAt
  {
    var t := SendTraceOf(sendQ, stopAt, breaksAfter);
    SenderStopsOnSentinelOrFailure(sendQ, stopAt, breaksAfter);
    if stopAt > 0 && sendQ != [] && sendQ[0].Some? && breaksAfter != Some(0) {
      var rest := SendTraceOf(sendQ[1..], stopAt - 1, Later(breaksAfter));
      SenderStep(sendQ, sent, stopAt, breaksAfter);
      SenderSends(sendQ[1..], sent + [sendQ[0].value], stopAt - 1, Later(breaksAfter));
      assert t.sentCount == 1 + rest.sentCount;
      SentGrows(sent, sendQ, rest.sentCount);
    } else {
      assert t.sentCount == 0;
      assert sendQ[..0] == [];
      assert sent + Values(sendQ[..0]) == sent;
    }
  }

  /** The values of the first `n + 1` items are the head's value followed by
      the values of the next `n`. */
  lemma ValuesCons<T>(items: seq<Option<T>>, n: nat)
    requires n < |items| && forall i :: 0 <= i <= n ==> items[i].Some?
    ensures Values(items[..n + 1]) == [items[0].value] + Values(items[1..][..n])
  {
    assert items[..n + 1][1..] == items[1..][..n];
  }

  /** Sending the head and then `n` more items adds the values of the first
      `n + 1` items. */
  lemma SentGrows<T>(sent: seq<T>, items: seq<Option<T>>, n: nat)
    requires n < |items| && forall i :: 0 <= i <= n ==> items[i].Some?
    ensures sent + [items[0].value] + Values(items[1..][..n]) == sent + Values(items[..n + 1])
  {
    ValuesCons(items, n);
  }

  /** The state the receiver thread works on. */
  datatype ReceiverState = ReceiverState(pending: seq<Arrival>, recvQ: seq<seq<bv8>>, stopSet: bool)

  /** The `receiver` loop from state `s`, reading with `recv(size)`. */
  function ReceiverFrom(s: ReceiverState, stopAt: nat, size: int): (ReceiverState, LoopEnd)
    decreases stopAt
  {
    if s.stopSet || stopAt == 0 then (s, StopObserved)
    else
      var step := RecvStep(s.pending, size);
      match step.0
      case Starved => (s, Blocked)
      case Raised => (ReceiverState(step.1, s.recvQ, true), Failed)
      case Data(bytes) =>
        if bytes == [] then (ReceiverState(step.1, s.recvQ, true), ServerClosed)
        else ReceiverFrom(ReceiverState(step.1, s.recvQ + [bytes], false), stopAt - 1, size)
  }

  /** One turn of the receiver loop that queues what `recv` returned. */
  lemma ReceiverStep(s: ReceiverState, stopAt: nat, size: int)
    requires !s.stopSet && stopAt > 0
    requires RecvStep(s.pending, size).0.Data? && RecvStep(s.pending, size).0.bytes != []
    ensures var step := RecvStep(s.pending, size);
      ReceiverFrom(s, stopAt, size) == ReceiverFrom(ReceiverState(step.1, s.recvQ + [step.0.bytes], false), stopAt - 1, size)
  {
  }

  /** The receiver only appends to `recv_q`, and only non-empty items of at
      most `size` bytes; it sets the stop event exactly when the server closed
      the connection or `recv` raised. */
  lemma {:induction false} ReceiverKeepsFit(s: ReceiverState, stopAt: nat, size: int)
    requires Fits(s.recvQ, size) && !s.stopSet
    ensures var r := ReceiverFrom(s, stopAt, size);
      && |s.recvQ| <= |r.0.recvQ| && r.0.recvQ[..|s.recvQ|] == s.recvQ
      && Fits(r.0.recvQ, size)
      && (r.0.stopSet <==> r.1 == ServerClosed || r.1 == Failed)
    decreases stopAt
  {
    var step := RecvStep(s.pending, size);
    if stopAt > 0 && step.0.Data? && step.0.bytes != [] {
      var next := ReceiverState(step.1, s.recvQ + [step.0.bytes], false);
      ReceiverStep(s, stopAt, size);
      ReceiverKeepsFit(next, stopAt - 1, size);
      QueuedExtends(s.recvQ, step.0.bytes, ReceiverFrom(next, stopAt - 1, size).0.recvQ);
    }
  }

  /** What the receiver queues, laid end to end, is the start of the server's
      byte stream, with nothing skipped or repeated, and the rest of the stream
      is still unread. */
  lemma {:induction false} ReceiverQueuesStream(s: ReceiverState, stopAt: nat, size: int)
    ensures var r := ReceiverFrom(s, stopAt, size);
      && |s.recvQ| <= |r.0.recvQ|
      && StreamBytes(s.pending) == Flatten(r.0.recvQ[|s.recvQ|..]) + StreamBytes(r.0.pending)
    decreases stopAt
  {
    var step := RecvStep(s.pending, size);
    if !s.stopSet && stopAt > 0 && step.0.Data? && step.0.bytes != [] {
      var bytes := step.0.bytes;
      assert size > 0;
      var next := ReceiverState(step.1, s.recvQ + [bytes], false);
      ReceiverStep(s, stopAt, size);
      var r := ReceiverFrom(next, stopAt - 1, size);
      ReceiverQueuesStream(next, stopAt - 1, size);
      ReceiverPrefix(next, stopAt - 1, size);
      StreamSplit(StreamBytes(s.pending), bytes, StreamBytes(step.1), s.recvQ, r.0.recvQ, StreamBytes(r.0.pending));
    } else {
      var r := ReceiverFrom(s, stopAt, size);
      assert r.0.recvQ[|s.recvQ|..] == [];
    }
  }

  /** One queued item accounts for the bytes at the head of the stream. */
  lemma StreamSplit(all: seq<bv8>, bytes: seq<bv8>, rest: seq<bv8>, q: seq<seq<bv8>>, q': seq<seq<bv8>>, tail: seq<bv8>)
    requires all == bytes + rest
    requires |q + [bytes]| <= |q'| && q'[..|q + [bytes]|] == q + [bytes]
    requires rest == Flatten(q'[|q + [bytes]|..]) + tail
    ensures all == Flatten(q'[|q|..]) + tail
  {
    QueuedExtends(q, bytes, q');
  }

  /** The receiver never removes from `recv_q`. */
  lemma {:induction false} ReceiverPrefix(s: ReceiverState, stopAt: nat, size: int)
    ensures var r := ReceiverFrom(s, stopAt, size);
      |s.recvQ| <= |r.0.recvQ| && r.0.recvQ[..|s.recvQ|] == s.recvQ
    decreases stopAt
  {
    var step := RecvStep(s.pending, size);
    if !s.stopSet && stopAt > 0 && step.0.Data? && step.0.bytes != [] {
      var next := ReceiverState(step.1, s.recvQ + [step.0.bytes], false);
      ReceiverStep(s, stopAt, size);
      ReceiverPrefix(next, stopAt - 1, size);
      var q := ReceiverFrom(next, stopAt - 1, size).0.recvQ;
      assert q[..|s.recvQ|] == q[..|next.recvQ|][..|s.recvQ|];
    }
  }

  /** A queue that extends `q + [b]` extends `q`, and its new part starts with `b`. */
  lemma QueuedExtends(q: seq<seq<bv8>>, b: seq<bv8>, q': seq<seq<bv8>>)
    requires |q| + 1 <= |q'| && q'[..|q| + 1] == q + [b]
    ensures q'[..|q|] == q
    ensures q'[|q|..] == [b] + q'[|q| + 1..]
    ensures Flatten(q'[|q|..]) == b + Flatten(q'[|q| + 1..])
  {
    assert q'[..|q|] == q'[..|q| + 1][..|q|];
    assert q'[|q|..] == [q'[|q|]] + q'[|q| + 1..];
  }

  /** With the client's read size, whatever the receiver queues fits in a
      speaker buffer, so `cb_recv` never raises: every item it takes is copied
      whole and padded with zeros. The read size `chunk_size*2` is the byte
      size of a speaker buffer of `chunk_size` int16 frames, 2048 bytes with
      the defaults. */
  lemma PlaybackNeverOverflows(args: ListenAndPlayArguments, pending: seq<Arrival>, stopAt: nat)
    ensures var r := ReceiverFrom(ReceiverState(pending, [], false), stopAt, ReadSize(args));
      forall i :: 0 <= i < |r.0.recvQ| ==>
        && PlaybackFill(Some(r.0.recvQ[i]), BufferBytes(args.chunkSize)).Some?
        && PlaybackFill(Some(r.0.recvQ[i]), BufferBytes(args.chunkSize)).value[..|r.0.recvQ[i]|] == r.0.recvQ[i]
  {
    var r := ReceiverFrom(ReceiverState(pending, [], false), stopAt, ReadSize(args));
    ReceiverKeepsFit(ReceiverState(pending, [], false), stopAt, ReadSize(args));
    forall i | 0 <= i < |r.0.recvQ|
      ensures PlaybackFill(Some(r.0.recvQ[i]), BufferBytes(args.chunkSize)).Some?
      ensures PlaybackFill(Some(r.0.recvQ[i]), BufferBytes(args.chunkSize)).value[..|r.0.recvQ[i]|] == r.0.recvQ[i]
    {
      PlaybackFillContents(Some(r.0.recvQ[i]), BufferBytes(args.chunkSize));
    }
  }

  /** The client's shared state: both queues, the stop event, what has been
      written to the server, and the two sockets' peers. */
  class Client {
    var sendQ: seq<Option<seq<bv8>>>
    var recvQ: seq<seq<bv8>>
    var stopSet: bool
    var sent: seq<seq<bv8>>
    const chunkSize: int
    const recvConn: Connection

    constructor(chunkSize: int, recvConn: Connection)
      ensures sendQ == [] && recvQ == [] && !stopSet && sent == []
      ensures this.chunkSize == chunkSize && this.recvConn == recvConn
    {
      sendQ := [];
      recvQ := [];
      stopSet := false;
      sent := [];
      this.chunkSize := chunkSize;
      this.recvConn := recvConn;
    }

    /** `cb_send`: queue a byte copy of the microphone buffer. */
    method CbSend(indata: array<bv8>)
      modifies this`sendQ
      ensures sendQ == old(sendQ) + [Some(indata[..])]
    {
      sendQ := sendQ + [Some(indata[..])];
    }

    /** `cb_recv`: take at most one item without blocking and fill the speaker
        buffer from it. `ok` is false when the slice assignment raised. */
    method CbRecv(outdata: array<bv8>) returns (ok: bool)
      modifies this`recvQ, outdata
      ensures recvQ == if old(recvQ) == [] then [] else old(recvQ)[1..]
      ensures ok <==> PlaybackFill(if old(recvQ) == [] then None else Some(old(recvQ)[0]), outdata.Length).Some?
      ensures ok ==> outdata[..] == PlaybackFill(if old(recvQ) == [] then None else Some(old(recvQ)[0]), outdata.Length).value
      ensures !ok ==> outdata[..] == old(outdata[..])
    {
      var start := 0;
      if recvQ != [] {
        var data := recvQ[0];
        recvQ := recvQ[1..];
        if |data| > outdata.Length {
          return false;
        }
        var i := 0;
        while i < |data|
          modifies outdata
          invariant 0 <= i <= |data|
          invariant outdata[..i] == data[..i]
        {
          outdata[i] := data[i];
          i := i + 1;
        }
        start := |data|;
      }
      var j := start;
      while j < outdata.Length
        modifies outdata
        invariant start <= j <= outdata.Length
        invariant forall k :: start <= k < j ==> outdata[k] == 0
        invariant old(recvQ) != [] ==> outdata[..start] == old(recvQ)[0]
      {
        outdata[j] := 0;
        j := j + 1;
      }
      ok := true;
    }

    /** The sender thread's state. */
    ghost function SenderView(): SenderState
      reads this
    {
      SenderState(sendQ, sent, stopSet)
    }

    /** `sender`: write queued items to the server until `None`, a failure or
        the stop event. */
    method Sender(stopAt: nat, breaksAfter: Option<nat>) returns (end: LoopEnd)
      modifies this`sendQ, this`sent, this`stopSet
      ensures (SenderView(), end) == SenderFrom(old(SenderView()), stopAt, breaksAfter)
    {
      var checks: nat := 0;
      var budget := breaksAfter;
      while !stopSet && checks < stopAt
        invariant checks <= stopAt
        invariant SenderFrom(SenderView(), stopAt - checks, budget) == SenderFrom(old(SenderView()), stopAt, breaksAfter)
        decreases stopAt - checks
      {
        if sendQ == [] {
          return Blocked;
        }
        var data := sendQ[0];
        sendQ := sendQ[1..];
        if data.None? {
          return SentinelTaken;
        }
        if budget == Some(0) {
          stopSet := true;
          return Failed;
        }
        sent := sent + [data.value];
        budget := Later(budget);
        checks := checks + 1;
      }
      end := StopObserved;
    }

    /** The receiver thread's state. */
    ghost function ReceiverView(): ReceiverState
      reads this, recvConn
    {
      ReceiverState(recvConn.pending, recvQ, stopSet)
    }

    /** `receiver`: read up to `chunk_size*2` bytes at a time and queue them until
        the server closes, `recv` raises, or the stop event is set. */
    method Receiver(stopAt: nat) returns (end: LoopEnd)
      modifies this`recvQ, this`stopSet, recvConn
      ensures (ReceiverView(), end) == ReceiverFrom(old(ReceiverView()), stopAt, chunkSize * 2)
    {
      var size := chunkSize * 2;
      var checks: nat := 0;
      while !stopSet && checks < stopAt
        invariant checks <= stopAt
        invariant ReceiverFrom(ReceiverView(), stopAt - checks, size) == ReceiverFrom(old(ReceiverView()), stopAt, size)
        decreases stopAt - checks
      {
        var r := recvConn.Recv(size);
        match r
        case Starved => return Blocked;
        case Raised =>
          stopSet := true;
          return Failed;
        case Data(bytes) =>
          if bytes == [] {
            stopSet := true;
            return ServerClosed;
          }
          recvQ := recvQ + [bytes];
        checks := checks + 1;
      }
      end := StopObserved;
    }
  }
}
