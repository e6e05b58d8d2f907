/**
 * The handler thread that every pipeline stage is built on (`BaseHandler`).
 *
 * A stage takes items from `queue_in` until it takes the `None` sentinel,
 * pushes the non-`None` values its `process` generator yields to
 * `queue_out`, logs and survives an exception raised while one item is
 * processed, and on leaving its loop puts exactly one `None` downstream.
 *
 * Queues are sequences of `Option`s (`None` is the sentinel). The stop event is
 * an input: `stopAt` is the number of loop-head checks that find it clear, so
 * `stopAt == 0` means it was set before the thread started. The input queue is
 * everything that will ever be put into it; when it runs out before a sentinel
 * the real thread waits in `get()` forever, which the model reports as `Blocked`.
 */
module BaseHandler {
  import opened Wrappers
  import opened PyValues

  /** What one call `process(item)` does: the values the generator yielded, in
      order, and whether it raised after yielding them. */
  datatype Emission<O> = Emission(yielded: seq<Option<O>>, raised: bool)

  /** How the loop of `run` ended. */
  datatype RunEnd =
    | SentinelTaken   // `get()` returned `None`
    | StopObserved    // the loop head found the stop event set
    | Blocked         // `get()` on an empty queue: the thread never leaves the loop

  /** The whole effect of `run`: how many items it took from `queue_in`, what it
      put on `queue_out`, the items whose processing raised (each logged), and how
      it ended. */
  datatype Trace<I, O> = Trace(taken: nat, put: seq<Option<O>>, failed: seq<I>, end: RunEnd)

  /** The values of `outs` that are not `None`, in yield order: what the inner
      `for` loop forwards. */
  function Forwarded<O>(outs: seq<Option<O>>): seq<Option<O>>
  {
    if outs == [] then []
    else
      var last := outs[|outs| - 1];
      Forwarded(outs[..|outs| - 1]) + (if last.None? then [] else [last])
  }

  /** Forwarding distributes over concatenation of the yielded stream. */
  lemma {:induction false} ForwardedAppend<O>(a: seq<Option<O>>, b: seq<Option<O>>)
    ensures Forwarded(a + b) == Forwarded(a) + Forwarded(b)
    decreases |b|
  {
    if b == [] {
      assert a + b == a;
    } else {
      var b' := b[..|b| - 1];
      assert (a + b)[..|a + b| - 1] == a + b';
      ForwardedAppend(a, b');
    }
  }

  /** `None` outputs are dropped and every other output is kept, in order: the
      forwarded values are exactly the `Some` entries of the yielded stream. */
  lemma {:induction false} ForwardedKeepsValues<O>(outs: seq<Option<O>>)
    ensures None !in Forwarded(outs)
    ensures |Forwarded(outs)| == |outs| - Nones(outs)
    ensures (forall i :: 0 <= i < |outs| ==> outs[i].Some?) ==> Forwarded(outs) == outs
    decreases |outs|
  {
    if outs != [] {
      var init := outs[..|outs| - 1];
      ForwardedKeepsValues(init);
      if forall i :: 0 <= i < |outs| ==> outs[i].Some? {
        assert forall i :: 0 <= i < |init| ==> init[i].Some? by {
          forall i | 0 <= i < |init| ensures init[i].Some? { assert init[i] == outs[i]; }
        }
        assert outs == init + [outs[|outs| - 1]];
      }
    }
  }

  /** The number of `None` values in a yielded stream. */
  function Nones<O>(outs: seq<Option<O>>): nat
  {
    if outs == [] then 0
    else Nones(outs[..|outs| - 1]) + (if outs[|outs| - 1].None? then 1 else 0)
  }

  /** The reference meaning of `run`, one loop iteration per step. */
  function RunTrace<I, O>(queueIn: seq<Option<I>>, stopAt: nat, process: I -> Emission<O>): Trace<I, O>
    decreases |queueIn|
  {
    if stopAt == 0 then Trace(0, [None], [], StopObserved)
    else if queueIn == [] then Trace(0, [], [], Blocked)
    else if queueIn[0].None? then Trace(1, [None], [], SentinelTaken)
    else
      var item := queueIn[0].value;
      var e := process(item);
      var rest := RunTrace(queueIn[1..], stopAt - 1, process);
      Trace(1 + rest.taken, Forwarded(e.yielded) + rest.put,
            (if e.raised then [item] else []) + rest.failed, rest.end)
  }

  /** One iteration of the loop on a real item. */
  lemma RunTraceStep<I, O>(queueIn: seq<Option<I>>, stopAt: nat, process: I -> Emission<O>)
    requires stopAt > 0 && queueIn != [] && queueIn[0].Some?
    ensures RunTrace(queueIn, stopAt, process).taken == 1 + RunTrace(queueIn[1..], stopAt - 1, process).taken
    ensures RunTrace(queueIn, stopAt, process).put
         == Forwarded(process(queueIn[0].value).yielded) + RunTrace(queueIn[1..], stopAt - 1, process).put
    ensures RunTrace(queueIn, stopAt, process).failed
         == (if process(queueIn[0].value).raised then [queueIn[0].value] else [])
            + RunTrace(queueIn[1..], stopAt - 1, process).failed
    ensures RunTrace(queueIn, stopAt, process).end == RunTrace(queueIn[1..], stopAt - 1, process).end
  {
  }

  /** The three pieces of state `run` changes: what is left in `queue_in`,
      everything on `queue_out`, and the error log. */
  datatype Queues<I, O> = Queues(queueIn: seq<Option<I>>, queueOut: seq<Option<O>>, errorLog: seq<I>)

  /** `run` as a state transition, one loop iteration per step: the state it
      leaves behind and how it ended. */
  function RunFrom<I, O>(s: Queues<I, O>, stopAt: nat, process: I -> Emission<O>): (Queues<I, O>, RunEnd)
    decreases |s.queueIn|
  {
    if stopAt == 0 then (s.(queueOut := s.queueOut + [None]), StopObserved)
    else if s.queueIn == [] then (s, Blocked)
    else if s.queueIn[0].None? then (s.(queueIn := s.queueIn[1..], queueOut := s.queueOut + [None]), SentinelTaken)
    else
      var item := s.queueIn[0].value;
      var e := process(item);
      RunFrom(Queues(s.queueIn[1..], s.queueOut + Forwarded(e.yielded),
                     s.errorLog + (if e.raised then [item] else [])), stopAt - 1, process)
  }

  /** The transition and the trace agree: `run` removes the items it took from
      `queue_in`, appends what it put to `queue_out` and appends the failed items
      to the log. */
  lemma {:induction false} RunFromIsTrace<I, O>(s: Queues<I, O>, stopAt: nat, process: I -> Emission<O>)
    ensures RunTrace(s.queueIn, stopAt, process).taken <= |s.queueIn|
    ensures var t := RunTrace(s.queueIn, stopAt, process);
      RunFrom(s, stopAt, process)
        == (Queues(s.queueIn[t.taken..], s.queueOut + t.put, s.errorLog + t.failed), t.end)
    decreases |s.queueIn|
  {
    var q := s.queueIn;
    if stopAt == 0 || q == [] || q[0].None? {
      assert s.errorLog + [] == s.errorLog;
      assert q == [] ==> s.queueOut + [] == s.queueOut && q[0..] == q;
      assert stopAt == 0 ==> q[0..] == q;
    } else {
      var item := q[0].value;
      var e := process(item);
      var f := Forwarded(e.yielded);
      var l := if e.raised then [item] else [];
      var next := Queues(q[1..], s.queueOut + f, s.errorLog + l);
      var rest := RunTrace(q[1..], stopAt - 1, process);
      RunTraceStep(q, stopAt, process);
      RunFromStep(s, stopAt, process);
      RunFromIsTrace(next, stopAt - 1, process);
      DropAfterHead(q, rest.taken);
      AppendAssoc(s.queueOut, f, rest.put);
      AppendAssoc(s.errorLog, l, rest.failed);
    }
  }

  /** One turn of `run` that processes an item. */
  lemma RunFromStep<I, O>(s: Queues<I, O>, stopAt: nat, process: I -> Emission<O>)
    requires stopAt > 0 && s.queueIn != [] && s.queueIn[0].Some?
    ensures var item := s.queueIn[0].value;
      RunFrom(s, stopAt, process)
        == RunFrom(Queues(s.queueIn[1..], s.queueOut + Forwarded(process(item).yielded),
                          s.errorLog + (if process(item).raised then [item] else [])), stopAt - 1, process)
  {
  }

  /** The final sentinel `run` puts when it leaves its loop. */
  function Final<O>(end: RunEnd): seq<Option<O>>
  {
    if end == Blocked then [] else [None]
  }

  /** How many of the taken items were real items (the sentinel excluded). */
  function Processed<I, O>(t: Trace<I, O>): nat
  {
    if t.end == SentinelTaken && t.taken > 0 then t.taken - 1 else t.taken
  }

  /** Concatenation of what `process` forwards for each item, in queue order. */
  function Outputs<I, O>(items: seq<Option<I>>, process: I -> Emission<O>): seq<Option<O>>
  {
    if items == [] then []
    else (if items[0].Some? then Forwarded(process(items[0].value).yielded) else []) + Outputs(items[1..], process)
  }

  /** The items whose processing raised, in queue order. */
  function Failures<I, O>(items: seq<Option<I>>, process: I -> Emission<O>): seq<I>
  {
    if items == [] then []
    else (if items[0].Some? && process(items[0].value).raised then [items[0].value] else []) + Failures(items[1..], process)
  }

  /** On a real item the trace has one more processed item than its rest. */
  lemma ProcessedStep<I, O>(queueIn: seq<Option<I>>, stopAt: nat, process: I -> Emission<O>)
    requires stopAt > 0 && queueIn != [] && queueIn[0].Some?
    ensures Processed(RunTrace(queueIn, stopAt, process)) == 1 + Processed(RunTrace(queueIn[1..], stopAt - 1, process))
  {
    RunTraceStep(queueIn, stopAt, process);
  }

  /** `run` consumes items only up to the first `None`: every item before the
      last one it took is a real item, and when it ended on the sentinel the
      last item it took is that sentinel. It never takes more than the queue
      holds, nor more items than loop-head checks found the stop event clear. */
  lemma {:induction false} RunStopsAtFirstSentinel<I, O>(queueIn: seq<Option<I>>, stopAt: nat, process: I -> Emission<O>)
    ensures var t := RunTrace(queueIn, stopAt, process);
      && t.taken <= |queueIn|
      && t.taken <= stopAt
      && (forall i :: 0 <= i < Processed(t) ==> queueIn[i].Some?)
      && (t.end == SentinelTaken <==> t.taken > 0 && queueIn[t.taken - 1].None?)
      && (t.end == StopObserved ==> t.taken == stopAt)
      && (t.end == Blocked ==> t.taken == |queueIn|)
    decreases |queueIn|
  {
    if stopAt > 0 && queueIn != [] && queueIn[0].Some? {
      var rest := RunTrace(queueIn[1..], stopAt - 1, process);
      RunStopsAtFirstSentinel(queueIn[1..], stopAt - 1, process);
      var t := RunTrace(queueIn, stopAt, process);
      assert Processed(t) == 1 + Processed(rest);
      forall i | 0 <= i < Processed(t) ensures queueIn[i].Some? {
        if i > 0 { assert queueIn[i] == queueIn[1..][i - 1]; }
      }
      if rest.taken > 0 { assert queueIn[t.taken - 1] == queueIn[1..][rest.taken - 1]; }
    }
  }

  /** When the queue holds a sentinel at `k`, with only real items before it, and the
      stop event stays clear for the `k + 1` checks it takes to reach it, `run`
      takes exactly the items through that sentinel and nothing after it. */
  lemma {:induction false} RunTakesThroughSentinel<I, O>(queueIn: seq<Option<I>>, k: nat, stopAt: nat, process: I -> Emission<O>)
    requires k < |queueIn| && queueIn[k].None?
    requires forall i :: 0 <= i < k ==> queueIn[i].Some?
    requires k < stopAt
    ensures RunTrace(queueIn, stopAt, process).taken == k + 1
    ensures RunTrace(queueIn, stopAt, process).end == SentinelTaken
    decreases k
  {
    if k > 0 {
      forall i | 0 <= i < k - 1 ensures queueIn[1..][i].Some? { assert queueIn[1..][i] == queueIn[i + 1]; }
      RunTakesThroughSentinel(queueIn[1..], k - 1, stopAt - 1, process);
    }
  }

  /** What `run` puts is what `process` forwarded for each real item it took, in
      queue order, followed by the one final sentinel unless the thread blocked;
      and it logs exactly the items whose processing raised. */
  lemma {:induction false} RunOutputsInOrder<I, O>(queueIn: seq<Option<I>>, stopAt: nat, process: I -> Emission<O>)
    ensures Processed(RunTrace(queueIn, stopAt, process)) <= |queueIn|
    ensures var t := RunTrace(queueIn, stopAt, process);
      t.put == Outputs(queueIn[..Processed(t)], process) + Final(t.end)
    ensures var t := RunTrace(queueIn, stopAt, process);
      t.failed == Failures(queueIn[..Processed(t)], process)
    decreases |queueIn|
  {
    var t := RunTrace(queueIn, stopAt, process);
    if stopAt > 0 && queueIn != [] && queueIn[0].Some? {
      var rest := RunTrace(queueIn[1..], stopAt - 1, process);
      RunTraceStep(queueIn, stopAt, process);
      ProcessedStep(queueIn, stopAt, process);
      RunOutputsInOrder(queueIn[1..], stopAt - 1, process);
      var n := Processed(rest);
      TakeAfterHead(queueIn, n);
      AppendAssoc(Forwarded(process(queueIn[0].value).yielded), Outputs(queueIn[1..][..n], process), Final<O>(rest.end));
    } else {
      assert queueIn[..Processed(t)] == [];
    }
  }

  /** Exactly one sentinel is put, after every real output, on every path that
      leaves the loop; a blocked thread has put no sentinel. */
  lemma {:induction false} RunPutsOneFinalSentinel<I, O>(queueIn: seq<Option<I>>, stopAt: nat, process: I -> Emission<O>)
    ensures var t := RunTrace(queueIn, stopAt, process);
      t.end != Blocked ==> OneFinalSentinel(t.put)
    ensures var t := RunTrace(queueIn, stopAt, process);
      t.end == Blocked ==> None !in t.put
    decreases |queueIn|
  {
    var t := RunTrace(queueIn, stopAt, process);
    if stopAt > 0 && queueIn != [] && queueIn[0].Some? {
      var yielded := process(queueIn[0].value).yielded;
      var rest := RunTrace(queueIn[1..], stopAt - 1, process);
      RunTraceStep(queueIn, stopAt, process);
      RunPutsOneFinalSentinel(queueIn[1..], stopAt - 1, process);
      ForwardedKeepsValues(yielded);
      SentinelStaysLast(Forwarded(yielded), rest.put);
    } else if stopAt > 0 && queueIn == [] {
      assert t.put == [] && t.end == Blocked;
    } else {
      assert t.put == [None] && t.end != Blocked;
    }
  }

  /** `p` ends with a `None` and holds no other. */
  ghost predicate OneFinalSentinel<O>(p: seq<Option<O>>)
  {
    |p| > 0 && p[|p| - 1] == None && None !in p[..|p| - 1]
  }

  /** Putting values in front of a stream keeps its sentinels where they were. */
  lemma SentinelStaysLast<O>(f: seq<Option<O>>, rp: seq<Option<O>>)
    requires None !in f
    ensures None !in rp ==> None !in f + rp
    ensures OneFinalSentinel(rp) ==> OneFinalSentinel(f + rp)
  {
    if |rp| > 0 {
      assert (f + rp)[..|f| + |rp| - 1] == f + rp[..|rp| - 1];
    }
  }

  /** An exception raised while processing one item does not end the loop:
      `run` takes, puts and ends exactly as it would had `process` yielded the
      same values without raising. Only the error log differs. */
  lemma {:induction false} RunSurvivesExceptions<I, O>(queueIn: seq<Option<I>>, stopAt: nat, process: I -> Emission<O>, quiet: I -> Emission<O>)
    requires forall x :: process(x).yielded == quiet(x).yielded
    ensures RunTrace(queueIn, stopAt, process).taken == RunTrace(queueIn, stopAt, quiet).taken
    ensures RunTrace(queueIn, stopAt, process).put == RunTrace(queueIn, stopAt, quiet).put
    ensures RunTrace(queueIn, stopAt, process).end == RunTrace(queueIn, stopAt, quiet).end
    decreases |queueIn|
  {
    if stopAt > 0 && queueIn != [] && queueIn[0].Some? {
      assert process(queueIn[0].value).yielded == quiet(queueIn[0].value).yielded;
      RunSurvivesExceptions(queueIn[1..], stopAt - 1, process, quiet);
    }
  }

  /** A stage whose output stream is closed by a sentinel feeds a next stage that
      stops exactly there: given the first stage's output (and whatever is put
      after it) and a stop event that stays clear, the second stage takes exactly
      that output and then itself puts one sentinel. Sentinels so propagate down
      a chain of stages. */
  lemma RunPropagatesSentinel<I, M, O>(
    queueIn: seq<Option<I>>, stopAt: nat, first: I -> Emission<M>,
    later: seq<Option<M>>, nextStopAt: nat, second: M -> Emission<O>)
    requires RunTrace(queueIn, stopAt, first).end != Blocked
    requires nextStopAt >= |RunTrace(queueIn, stopAt, first).put|
    ensures var up := RunTrace(queueIn, stopAt, first).put;
      var down := RunTrace(up + later, nextStopAt, second);
      && down.taken == |up|
      && down.end == SentinelTaken
      && |down.put| > 0 && down.put[|down.put| - 1] == None
  {
    var up := RunTrace(queueIn, stopAt, first).put;
    RunPutsOneFinalSentinel(queueIn, stopAt, first);
    var k := |up| - 1;
    forall i | 0 <= i < k ensures (up + later)[i].Some? {
      assert (up + later)[i] == up[..k][i];
    }
    RunTakesThroughSentinel(up + later, k, nextStopAt, second);
    RunPutsOneFinalSentinel(up + later, nextStopAt, second);
  }

  /** `BaseHandler.process` itself raises `NotImplementedError` on every item. */
  function NotImplemented<I, O>(item: I): Emission<O>
  {
    Emission([], true)
  }

  /** A bare `BaseHandler` forwards nothing but the final sentinel, and logs one
      error for every real item it takes. */
  lemma {:induction false} BareHandlerForwardsOnlySentinel<I, O>(queueIn: seq<Option<I>>, stopAt: nat)
    ensures var t := RunTrace(queueIn, stopAt, NotImplemented<I, O>);
      && t.put == Final(t.end)
      && |t.failed| == Processed(t)
    decreases |queueIn|
  {
    if stopAt > 0 && queueIn != [] && queueIn[0].Some? {
      BareHandlerForwardsOnlySentinel<I, O>(queueIn[1..], stopAt - 1);
    }
  }

  /** `setup_kwargs or {}`: a missing dictionary becomes the empty one. */
  function SetupKwargs(setupKwargs: Option<Kwargs>): (kw: Kwargs)
    ensures setupKwargs.None? ==> kw == map[]
    ensures setupKwargs.Some? ==> kw == setupKwargs.value
  {
    match setupKwargs
    case None => map[]
    case Some(m) => m
  }

  /** Why constructing a handler failed. */
  datatype InitError = SetupRejected(kwargs: Kwargs)

  /** A running stage: its two queues, the keyword arguments `setup` was called
      with, its `process` generator and the log of items whose processing raised. */
  class Handler<I, O> {
    var queueIn: seq<Option<I>>
    var queueOut: seq<Option<O>>
    var errorLog: seq<I>
    const setupKwargs: Kwargs
    const process: I -> Emission<O>
    /** The keyword dictionaries `setup` has been called with. */
    ghost var setupCalls: seq<Kwargs>

    /** The body of `__init__` once `setup(**setup_kwargs)` has returned. */
    constructor(queueIn: seq<Option<I>>, queueOut: seq<Option<O>>, setupKwargs: Option<Kwargs>,
                process: I -> Emission<O>)
      ensures this.queueIn == queueIn && this.queueOut == queueOut && errorLog == []
      ensures this.setupKwargs == SetupKwargs(setupKwargs) && this.process == process
      ensures setupCalls == [SetupKwargs(setupKwargs)]
    {
      this.queueIn := queueIn;
      this.queueOut := queueOut;
      this.errorLog := [];
      this.setupKwargs := SetupKwargs(setupKwargs);
      this.process := process;
      this.setupCalls := [SetupKwargs(setupKwargs)];
    }

    /** The inner `for out in self.process(item)` loop: put every yielded value
        that is not `None`, in yield order. */
    method PutForwarded(outs: seq<Option<O>>)
      modifies this`queueOut
      ensures queueOut == old(queueOut) + Forwarded(outs)
    {
      var j := 0;
      while j < |outs|
        invariant 0 <= j <= |outs|
        invariant queueOut == old(queueOut) + Forwarded(outs[..j])
      {
        assert outs[..j + 1][..j] == outs[..j];
        if outs[j].Some? {
          queueOut := queueOut + [outs[j]];
        }
        j := j + 1;
      }
      assert outs[..j] == outs;
    }

    /** The `try` block for one item: forward what `process(item)` yields and,
        when it raises, log the item and carry on. */
    method Handle(item: I)
      modifies this`queueOut, this`errorLog
      ensures queueOut == old(queueOut) + Forwarded(process(item).yielded)
      ensures errorLog == old(errorLog) + (if process(item).raised then [item] else [])
    {
      var e := process(item);
      PutForwarded(e.yielded);
      if e.raised {
        errorLog := errorLog + [item];
      }
    }

    /** The state `run` works on. */
    ghost function State(): Queues<I, O>
      reads this
    {
      Queues(queueIn, queueOut, errorLog)
    }

    /** The thread body: the sentinel-driven loop. */
    method Run(stopAt: nat) returns (end: RunEnd)
      modifies this`queueIn, this`queueOut, this`errorLog
      ensures (State(), end) == RunFrom(old(State()), stopAt, process)
    {
      ghost var whole := RunFrom(State(), stopAt, process);
      var checks: nat := 0;
      while checks < stopAt && queueIn != [] && queueIn[0].Some?
        invariant checks <= stopAt
        invariant RunFrom(State(), stopAt - checks, process) == whole
        decreases |queueIn|
      {
        var item := queueIn[0].value;
        queueIn := queueIn[1..];
        Handle(item);
        checks := checks + 1;
      }
      if checks == stopAt {
        end := StopObserved;
      } else if queueIn == [] {
        return Blocked;
      } else {
        queueIn := queueIn[1..];
        end := SentinelTaken;
      }
      queueOut := queueOut + [None];
    }
  }

  /** `__init__`: store the queues and call `setup(**setup_kwargs)` once. A
      `setup` that rejects its keyword arguments raises out of the constructor. */
  method New<I, O>(queueIn: seq<Option<I>>, queueOut: seq<Option<O>>, setupKwargs: Option<Kwargs>,
                   setupAccepts: Kwargs -> bool, process: I -> Emission<O>)
    returns (r: Result<Handler<I, O>, InitError>)
    ensures r.Err? <==> !setupAccepts(SetupKwargs(setupKwargs))
    ensures r.Err? ==> r.error == SetupRejected(SetupKwargs(setupKwargs))
    ensures r.Ok? ==> (fresh(r.value) && r.value.queueIn == queueIn && r.value.queueOut == queueOut
                       && r.value.errorLog == [] && r.value.process == process
                       && r.value.setupCalls == [SetupKwargs(setupKwargs)])
  {
    if !setupAccepts(SetupKwargs(setupKwargs)) {
      return Err(SetupRejected(SetupKwargs(setupKwargs)));
    }
    var h := new Handler(queueIn, queueOut, setupKwargs, process);
    r := Ok(h);
  }

  /** `BaseHandler.setup(**kwargs)` accepts any keyword arguments. */
  function BaseSetupAccepts(kwargs: Kwargs): bool
  {
    true
  }
}
