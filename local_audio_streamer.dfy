/**
 * The in-process loopback stage (`LocalAudioStreamer`): a handler whose
 * `process` yields each chunk unchanged and whose `setup` takes no keyword
 * arguments.
 */
module LocalAudioStreamer {
  import opened Wrappers
  import opened PyValues
  import opened BaseHandler

  /** `process(chunk)`: a generator yielding its argument once. */
  function Loopback<T>(chunk: T): Emission<T>
  {
    Emission([Some(chunk)], false)
  }

  /** `setup(self)` declares no parameters, so it accepts only an empty `**kwargs`. */
  function LoopbackSetupAccepts(kwargs: Kwargs): bool
  {
    kwargs == map[]
  }

  /** Each input yields exactly one output, the input itself, and never raises. */
  lemma LoopbackIsIdentity<T>(chunk: T)
    ensures |Loopback(chunk).yielded| == 1
    ensures Loopback(chunk).yielded[0] == Some(chunk)
    ensures Forwarded(Loopback(chunk).yielded) == [Some(chunk)]
    ensures !Loopback(chunk).raised
  {
    assert Loopback(chunk).yielded[..0] == [];
  }

  /** Run through the handler loop, the loopback puts exactly the real items it
      took, unchanged and in order, then the final sentinel; it logs nothing. */
  lemma {:induction false} LoopbackRunForwardsItems<T>(queueIn: seq<Option<T>>, stopAt: nat)
    ensures Processed(RunTrace(queueIn, stopAt, Loopback<T>)) <= |queueIn|
    ensures var t := RunTrace(queueIn, stopAt, Loopback<T>);
      t.put == queueIn[..Processed(t)] + Final(t.end)
    ensures RunTrace(queueIn, stopAt, Loopback<T>).failed == []
    decreases |queueIn|
  {
    if stopAt > 0 && queueIn != [] && queueIn[0].Some? {
      var rest := RunTrace(queueIn[1..], stopAt - 1, Loopback<T>);
      RunTraceStep(queueIn, stopAt, Loopback<T>);
      ProcessedStep(queueIn, stopAt, Loopback<T>);
      LoopbackIsIdentity(queueIn[0].value);
      LoopbackRunForwardsItems(queueIn[1..], stopAt - 1);
      var n := Processed(rest);
      TakeAfterHead(queueIn, n);
      AppendAssoc([queueIn[0]], queueIn[1..][..n], Final<T>(rest.end));
    } else {
      var t := RunTrace(queueIn, stopAt, Loopback<T>);
      assert queueIn[..Processed(t)] == [];
    }
  }

  /** With the stop event clear, the loopback's output stream is its input stream
      up to the first `None`, followed by one `None`. */
  lemma LoopbackEchoesUpToSentinel<T>(queueIn: seq<Option<T>>, k: nat, stopAt: nat)
    requires k < |queueIn| && queueIn[k].None?
    requires forall i :: 0 <= i < k ==> queueIn[i].Some?
    requires k < stopAt
    ensures RunTrace(queueIn, stopAt, Loopback<T>).put == queueIn[..k] + [None]
  {
    RunTakesThroughSentinel(queueIn, k, stopAt, Loopback<T>);
    LoopbackRunForwardsItems(queueIn, stopAt);
  }

  /** Constructing the loopback: `__init__` calls `setup(**setup_kwargs)`,
      which raises unless the dictionary is empty or missing. */
  method NewLoopback<T>(queueIn: seq<Option<T>>, queueOut: seq<Option<T>>, setupKwargs: Option<Kwargs>)
    returns (r: Result<Handler<T, T>, InitError>)
    ensures r.Err? <==> setupKwargs.Some? && setupKwargs.value != map[]
    ensures r.Ok? ==> (fresh(r.value) && r.value.queueIn == queueIn && r.value.queueOut == queueOut
                       && r.value.process == Loopback<T>)
  {
    r := New(queueIn, queueOut, setupKwargs, LoopbackSetupAccepts, Loopback<T>);
  }
}
