/**
 * The Parler-TTS stage (`ParlerTTSHandler`): `process` streams audio arrays
 * from the model and cuts each one into `blocksize` blocks.
 *
 * The module never imports numpy, so the `np.pad` call for a short last block
 * raises a `NameError` instead of padding: the array's full blocks are yielded,
 * then `process` raises and `run` logs the item. `ParlerProcess` models that;
 * `ParlerProcessPadded` is the evidently intended padding behaviour, the same
 * chunking loop as the MeloTTS stage.
 *
 * The model's audio stream is the parameter `stream` (already int16 samples).
 */
module ParlerTts {
  import opened Wrappers
  import opened PyValues
  import opened BaseHandler
  import opened PcmBlocks

  /** The keyword parameters `setup` declares. */
  const SetupParameters: set<string> := {"model_name", "gen_kwargs", "blocksize"}

  /** `**(gen_kwargs or {})`: a false value (by default `None`) passes no extra
      arguments, a dictionary passes its entries, and any other true value
      makes `**` raise a `TypeError`. */
  function ModelKwargs(genKwargs: Value): (r: Option<Kwargs>)
    ensures !Truthy(genKwargs) ==> r == Some(map[])
    ensures genKwargs.Dict? ==> r == Some(genKwargs.entries)
    ensures r.None? <==> Truthy(genKwargs) && !genKwargs.Dict?
  {
    if !Truthy(genKwargs) then Some(map[])
    else if genKwargs.Dict? then Some(genKwargs.entries)
    else None
  }

  /** `setup(**kwargs)` raises for an undeclared keyword, for a `gen_kwargs`
      that `**` cannot unpack, and for one with a `model` entry, which the
      call passes a second time beside `model=model_name`. */
  predicate ParlerSetupAccepts(kwargs: Kwargs)
  {
    && kwargs.Keys <= SetupParameters
    && var extra := ModelKwargs(if "gen_kwargs" in kwargs then kwargs["gen_kwargs"] else NoneValue);
       extra.Some? && "model" !in extra.value
  }

  /** What `setup` stores: the model name and extra arguments the model is
      built with, and the block size. */
  datatype ParlerConfig = ParlerConfig(modelName: Value, modelKwargs: Kwargs, blocksize: Value)

  /** The configuration `setup` stores; the defaults are `model_name="tts-parler"`,
      `gen_kwargs=None` and `blocksize=512`. */
  function ParlerConfigOf(kwargs: Kwargs): (c: ParlerConfig)
    requires ParlerSetupAccepts(kwargs)
    ensures c.modelName == if "model_name" in kwargs then kwargs["model_name"] else Str("tts-parler")
    ensures c.blocksize == if "blocksize" in kwargs then kwargs["blocksize"] else Int(512)
    ensures "gen_kwargs" !in kwargs ==> c.modelKwargs == map[]
    ensures "gen_kwargs" in kwargs && kwargs["gen_kwargs"].Dict? ==> c.modelKwargs == kwargs["gen_kwargs"].entries
    ensures c.modelKwargs == ModelKwargs(if "gen_kwargs" in kwargs then kwargs["gen_kwargs"] else NoneValue).value
  {
    var genKwargs := if "gen_kwargs" in kwargs then kwargs["gen_kwargs"] else NoneValue;
    ParlerConfig(
      if "model_name" in kwargs then kwargs["model_name"] else Str("tts-parler"),
      ModelKwargs(genKwargs).value,
      if "blocksize" in kwargs then kwargs["blocksize"] else Int(512))
  }

  /** The inner loop over one array with a positive block size, as written:
      each full block is yielded, and a short last block reaches `np.pad`,
      which raises. */
  function UnpaddedBlocks(pcm: seq<int>, b: nat): Emission<seq<int>>
    requires b > 0
    decreases |pcm|
  {
    if pcm == [] then Emission([], false)
    else if |pcm| < b then Emission([], true)
    else
      var rest := UnpaddedBlocks(pcm[b..], b);
      Emission([Some(pcm[..b])] + rest.yielded, rest.raised)
  }

  /** The inner loop over one array, as written: `range` raises for a zero or
      non-integer step and is empty for a negative one. */
  function ChunkLoopAsWritten(pcm: seq<int>, blocksize: Value): Emission<seq<int>>
  {
    match RangeStep(blocksize)
    case None => Emission([], true)
    case Some(b) =>
      if b > 0 then UnpaddedBlocks(pcm, b)
      else if b == 0 then Emission([], true)
      else Emission([], false)
  }

  /** The outer loop: the arrays in stream order, each chunked on its own; the
      first array whose chunking raises ends the generator. */
  function OverArrays(arrays: seq<seq<int>>, chunk: seq<int> -> Emission<seq<int>>): Emission<seq<int>>
    decreases |arrays|
  {
    if arrays == [] then Emission([], false)
    else
      var e := chunk(arrays[0]);
      if e.raised then e
      else
        var rest := OverArrays(arrays[1..], chunk);
        Emission(e.yielded + rest.yielded, rest.raised)
  }

  /** What `self.model.stream(text_chunk)` produces: the arrays it yields, in
      order, and whether it raised after them. */
  datatype AudioStream = AudioStream(arrays: seq<seq<int>>, raised: bool)

  /** The `for audio in self.model.stream(...)` loop: the arrays are chunked
      in order until one raises; a stream that raises after its arrays ends
      the generator with that exception. */
  function OverStream(s: AudioStream, chunk: seq<int> -> Emission<seq<int>>): Emission<seq<int>>
  {
    var e := OverArrays(s.arrays, chunk);
    if e.raised then e else Emission(e.yielded, s.raised)
  }

  /** `process(text_chunk)` as written. */
  function ParlerProcess<T>(config: ParlerConfig, stream: T -> AudioStream, textChunk: T): Emission<seq<int>>
  {
    OverStream(stream(textChunk), pcm => ChunkLoopAsWritten(pcm, config.blocksize))
  }

  /** `process(text_chunk)` with `np.pad` available: every short block padded. */
  function ParlerProcessPadded<T>(config: ParlerConfig, stream: T -> AudioStream, textChunk: T): Emission<seq<int>>
  {
    OverStream(stream(textChunk), pcm => ChunkLoop(pcm, config.blocksize))
  }

  /** The array's length is not a whole number of blocks: its last block is short. */
  predicate ShortTail(pcm: seq<int>, b: nat)
    requires b > 0
  {
    |pcm| < |Blocks(pcm, b)| * b
  }

  /** All arrays' padded blocks, array after array. */
  function AllBlocks(arrays: seq<seq<int>>, b: nat): seq<seq<int>>
    requires b > 0
    decreases |arrays|
  {
    if arrays == [] then [] else Blocks(arrays[0], b) + AllBlocks(arrays[1..], b)
  }

  /** As written, one array yields the padded loop's blocks except the last one
      when that one is short, and raises exactly when it is. */
  lemma {:induction false} UnpaddedDropsShortTail(pcm: seq<int>, b: nat)
    requires b > 0
    ensures UnpaddedBlocks(pcm, b).raised <==> ShortTail(pcm, b)
    ensures !ShortTail(pcm, b) ==> UnpaddedBlocks(pcm, b).yielded == Somes(Blocks(pcm, b))
    ensures ShortTail(pcm, b) ==> UnpaddedBlocks(pcm, b).yielded == Somes(Blocks(pcm, b)[..|Blocks(pcm, b)| - 1])
    decreases |pcm|
  {
    BlocksShape(pcm, b);
    if pcm != [] && |pcm| >= b {
      var blocks := Blocks(pcm, b);
      var rest := Blocks(pcm[b..], b);
      UnpaddedDropsShortTail(pcm[b..], b);
      BlocksShape(pcm[b..], b);
      assert |blocks| * b == b + |rest| * b;
      assert blocks == [pcm[..b]] + rest;
      if ShortTail(pcm, b) {
        assert rest != [];
        assert blocks[..|blocks| - 1] == [pcm[..b]] + rest[..|rest| - 1];
        SomesAppend([pcm[..b]], rest[..|rest| - 1]);
      } else {
        SomesAppend([pcm[..b]], rest);
      }
    }
  }

  /** With `np.pad` available and a positive block size, chunking the arrays
      the stream yields never raises and yields, in stream order and position
      order within each array, every array's padded blocks: no sample is
      carried from one array to the next. */
  lemma {:induction false} PaddedYieldsAllBlocks(arrays: seq<seq<int>>, blocksize: Value, b: nat)
    requires b > 0 && RangeStep(blocksize) == Some(b)
    ensures !OverArrays(arrays, pcm => ChunkLoop(pcm, blocksize)).raised
    ensures OverArrays(arrays, pcm => ChunkLoop(pcm, blocksize)).yielded == Somes(AllBlocks(arrays, b))
    decreases |arrays|
  {
    if arrays != [] {
      PaddedYieldsAllBlocks(arrays[1..], blocksize, b);
      SomesAppend(Blocks(arrays[0], b), AllBlocks(arrays[1..], b));
    }
  }

  /** As written, with a positive block size, chunking the arrays the stream
      yields raises exactly when one of them has a short last block. */
  lemma {:induction false} AsWrittenRaisesIffShortTail(arrays: seq<seq<int>>, blocksize: Value, b: nat)
    requires b > 0 && RangeStep(blocksize) == Some(b)
    ensures OverArrays(arrays, pcm => ChunkLoopAsWritten(pcm, blocksize)).raised
            <==> exists i :: 0 <= i < |arrays| && ShortTail(arrays[i], b)
    decreases |arrays|
  {
    if arrays != [] {
      UnpaddedDropsShortTail(arrays[0], b);
      AsWrittenRaisesIffShortTail(arrays[1..], blocksize, b);
      if exists i :: 0 <= i < |arrays| && ShortTail(arrays[i], b) {
        var i :| 0 <= i < |arrays| && ShortTail(arrays[i], b);
        if i > 0 {
          assert ShortTail(arrays[1..][i - 1], b);
        }
      }
      if exists i :: 0 <= i < |arrays[1..]| && ShortTail(arrays[1..][i], b) {
        var i :| 0 <= i < |arrays[1..]| && ShortTail(arrays[1..][i], b);
        assert ShortTail(arrays[i + 1], b);
      }
    }
  }

  /** As written, with a positive block size, what `process` yields is a prefix
      of what the padded version yields; when it does not raise the two agree. */
  lemma {:induction false} AsWrittenIsPrefixOfPadded(arrays: seq<seq<int>>, blocksize: Value, b: nat)
    requires b > 0 && RangeStep(blocksize) == Some(b)
    ensures var e := OverArrays(arrays, pcm => ChunkLoopAsWritten(pcm, blocksize));
      var p := OverArrays(arrays, pcm => ChunkLoop(pcm, blocksize));
      && |e.yielded| <= |p.yielded|
      && e.yielded == p.yielded[..|e.yielded|]
      && (!e.raised ==> e == p)
    decreases |arrays|
  {
    if arrays != [] {
      var a := arrays[0];
      UnpaddedDropsShortTail(a, b);
      var pa := Somes(Blocks(a, b));
      var pr := OverArrays(arrays[1..], pcm => ChunkLoop(pcm, blocksize)).yielded;
      assert OverArrays(arrays, pcm => ChunkLoop(pcm, blocksize)).yielded == pa + pr;
      if !ShortTail(a, b) {
        AsWrittenIsPrefixOfPadded(arrays[1..], blocksize, b);
        var er := OverArrays(arrays[1..], pcm => ChunkLoopAsWritten(pcm, blocksize)).yielded;
        assert (pa + pr)[..|pa| + |er|] == pa + pr[..|er|];
      }
    }
  }

  /** As written, with a positive block size, when array `j` is the first
      with a short last block, chunking yields the padded blocks of the arrays
      before it, then that array's full blocks, and raises. */
  lemma {:induction false} AsWrittenStopsAtFirstShortTail(arrays: seq<seq<int>>, blocksize: Value, b: nat, j: nat)
    requires b > 0 && RangeStep(blocksize) == Some(b)
    requires j < |arrays| && ShortTail(arrays[j], b)
    requires forall i :: 0 <= i < j ==> !ShortTail(arrays[i], b)
    ensures var bl := Blocks(arrays[j], b);
      OverArrays(arrays, pcm => ChunkLoopAsWritten(pcm, blocksize))
        == Emission(Somes(AllBlocks(arrays[..j], b) + bl[..|bl| - 1]), true)
    decreases j
  {
    var bl := Blocks(arrays[j], b);
    if j == 0 {
      AsWrittenShortFirst(arrays, blocksize, b);
      assert AllBlocks(arrays[..0], b) + bl[..|bl| - 1] == bl[..|bl| - 1];
    } else {
      var tail := bl[..|bl| - 1];
      var first := Blocks(arrays[0], b);
      var between := AllBlocks(arrays[1..][..j - 1], b);
      var rest := OverArrays(arrays[1..], pcm => ChunkLoopAsWritten(pcm, blocksize));
      assert rest == Emission(Somes(between + tail), true) by {
        forall i | 0 <= i < j - 1 ensures !ShortTail(arrays[1..][i], b) {
          assert arrays[1..][i] == arrays[i + 1];
        }
        AsWrittenStopsAtFirstShortTail(arrays[1..], blocksize, b, j - 1);
        assert arrays[1..][j - 1] == arrays[j];
      }
      AllBlocksPrefix(arrays, b, j, tail);
      AsWrittenFullFirst(arrays, blocksize, b);
    }
  }

  /** As written, a first array with a short tail yields its full blocks and
      raises. */
  lemma AsWrittenShortFirst(arrays: seq<seq<int>>, blocksize: Value, b: nat)
    requires b > 0 && RangeStep(blocksize) == Some(b)
    requires arrays != [] && ShortTail(arrays[0], b)
    ensures var bl := Blocks(arrays[0], b);
      OverArrays(arrays, pcm => ChunkLoopAsWritten(pcm, blocksize)) == Emission(Somes(bl[..|bl| - 1]), true)
  {
    UnpaddedDropsShortTail(arrays[0], b);
  }

  /** As written, a first array without a short tail yields all its blocks
      and chunking goes on with the rest. */
  lemma AsWrittenFullFirst(arrays: seq<seq<int>>, blocksize: Value, b: nat)
    requires b > 0 && RangeStep(blocksize) == Some(b)
    requires arrays != [] && !ShortTail(arrays[0], b)
    ensures var rest := OverArrays(arrays[1..], pcm => ChunkLoopAsWritten(pcm, blocksize));
      OverArrays(arrays, pcm => ChunkLoopAsWritten(pcm, blocksize))
        == Emission(Somes(Blocks(arrays[0], b)) + rest.yielded, rest.raised)
  {
    UnpaddedDropsShortTail(arrays[0], b);
  }

  /** The padded blocks of the first `j` arrays, followed by `tail`: the
      first array's blocks, then those of the next `j - 1` and `tail`. */
  lemma AllBlocksPrefix(arrays: seq<seq<int>>, b: nat, j: nat, tail: seq<seq<int>>)
    requires b > 0 && 0 < j <= |arrays|
    ensures Somes(Blocks(arrays[0], b)) + Somes(AllBlocks(arrays[1..][..j - 1], b) + tail)
         == Somes(AllBlocks(arrays[..j], b) + tail)
  {
    var first := Blocks(arrays[0], b);
    var between := AllBlocks(arrays[1..][..j - 1], b);
    var whole := arrays[..j];
    assert whole[0] == arrays[0] && whole[1..] == arrays[1..][..j - 1];
    assert AllBlocks(whole, b) == first + between;
    assert first + (between + tail) == AllBlocks(whole, b) + tail;
    SomesAppend(first, between + tail);
  }

  /** Every block `process` yields, as written or padded, has exactly
      `blocksize` samples. */
  lemma AsWrittenBlocksAreFull(arrays: seq<seq<int>>, blocksize: Value, b: nat)
    requires b > 0 && RangeStep(blocksize) == Some(b)
    ensures var e := OverArrays(arrays, pcm => ChunkLoopAsWritten(pcm, blocksize));
      forall i :: 0 <= i < |e.yielded| ==> e.yielded[i].Some? && |e.yielded[i].value| == b
  {
    AsWrittenIsPrefixOfPadded(arrays, blocksize, b);
    PaddedYieldsAllBlocks(arrays, blocksize, b);
    AllBlocksFull(arrays, b);
  }

  /** Every padded block has `b` samples. */
  lemma {:induction false} AllBlocksFull(arrays: seq<seq<int>>, b: nat)
    requires b > 0
    ensures forall i :: 0 <= i < |AllBlocks(arrays, b)| ==> |AllBlocks(arrays, b)[i]| == b
    decreases |arrays|
  {
    if arrays != [] {
      BlocksShape(arrays[0], b);
      AllBlocksFull(arrays[1..], b);
    }
  }

  /** As written, with a positive block size, `process` raises exactly when an
      array the stream yields has a short last block or the stream itself
      raises. Without a short tail it yields every padded block of those
      arrays, whether or not the stream then raises. */
  lemma ParlerProcessRaises<T>(config: ParlerConfig, stream: T -> AudioStream, textChunk: T, b: nat)
    requires b > 0 && RangeStep(config.blocksize) == Some(b)
    ensures var s := stream(textChunk);
      ParlerProcess(config, stream, textChunk).raised <==>
        (exists i :: 0 <= i < |s.arrays| && ShortTail(s.arrays[i], b)) || s.raised
    ensures var y := ParlerProcess(config, stream, textChunk).yielded;
      var all := Somes(AllBlocks(stream(textChunk).arrays, b));
      |y| <= |all| && y == all[..|y|]
    ensures !ParlerProcess(config, stream, textChunk).raised ==>
      ParlerProcess(config, stream, textChunk).yielded == Somes(AllBlocks(stream(textChunk).arrays, b))
    ensures var s := stream(textChunk);
      (forall i :: 0 <= i < |s.arrays| ==> !ShortTail(s.arrays[i], b)) ==>
        ParlerProcess(config, stream, textChunk).yielded == Somes(AllBlocks(s.arrays, b))
  {
    var arrays := stream(textChunk).arrays;
    AsWrittenRaisesIffShortTail(arrays, config.blocksize, b);
    AsWrittenIsPrefixOfPadded(arrays, config.blocksize, b);
    PaddedYieldsAllBlocks(arrays, config.blocksize, b);
  }

  /** As written, with a positive block size, when array `j` is the first the
      stream yields with a short last block, `process` yields the padded
      blocks of the arrays before it, then that array's full blocks, and
      raises: the short block and everything after it are lost. */
  lemma ParlerStopsAtShortTail<T>(config: ParlerConfig, stream: T -> AudioStream, textChunk: T, b: nat, j: nat)
    requires b > 0 && RangeStep(config.blocksize) == Some(b)
    requires j < |stream(textChunk).arrays| && ShortTail(stream(textChunk).arrays[j], b)
    requires forall i :: 0 <= i < j ==> !ShortTail(stream(textChunk).arrays[i], b)
    ensures var arrays := stream(textChunk).arrays;
      var bl := Blocks(arrays[j], b);
      ParlerProcess(config, stream, textChunk) == Emission(Somes(AllBlocks(arrays[..j], b) + bl[..|bl| - 1]), true)
  {
    AsWrittenStopsAtFirstShortTail(stream(textChunk).arrays, config.blocksize, b, j);
  }

  /** With `np.pad` available and a positive block size, `process` raises
      exactly when the stream raises, and yields the padded blocks of every
      array the stream yielded before that, in order. */
  lemma ParlerPaddedProcess<T>(config: ParlerConfig, stream: T -> AudioStream, textChunk: T, b: nat)
    requires b > 0 && RangeStep(config.blocksize) == Some(b)
    ensures ParlerProcessPadded(config, stream, textChunk).raised <==> stream(textChunk).raised
    ensures ParlerProcessPadded(config, stream, textChunk).yielded == Somes(AllBlocks(stream(textChunk).arrays, b))
  {
    PaddedYieldsAllBlocks(stream(textChunk).arrays, config.blocksize, b);
  }

  /** The three-sample array `[1, 2, 3]` with `blocksize=2`: as written the
      stage yields `[1, 2]` and then raises, so the sample `3` never reaches
      `queue_out`; with padding it yields `[1, 2]` and `[3, 0]`. */
  lemma ShortTailCounterexample()
    ensures ParlerProcess(ParlerConfig(NoneValue, map[], Int(2)), (t: int) => AudioStream([[1, 2, 3]], false), 0)
              == Emission([Some([1, 2])], true)
    ensures ParlerProcessPadded(ParlerConfig(NoneValue, map[], Int(2)), (t: int) => AudioStream([[1, 2, 3]], false), 0)
              == Emission([Some([1, 2]), Some([3, 0])], false)
  {
    var pcm := [1, 2, 3];
    assert pcm[..2] == [1, 2] && pcm[2..] == [3];
    assert UnpaddedBlocks([3], 2) == Emission([], true);
    assert Blocks([3], 2) == [PadTo([3], 2)];
    assert PadTo([3], 2) == [3, 0];
    assert Blocks(pcm, 2) == [[1, 2], [3, 0]];
    assert Somes([[1, 2], [3, 0]]) == [Some([1, 2]), Some([3, 0])];
  }

  /** Constructing the stage as written. */
  method NewParler<T>(queueIn: seq<Option<T>>, queueOut: seq<Option<seq<int>>>, setupKwargs: Option<Kwargs>,
                      stream: T -> AudioStream)
    returns (r: Result<Handler<T, seq<int>>, InitError>)
    ensures r.Err? <==> !ParlerSetupAccepts(SetupKwargs(setupKwargs))
    ensures r.Ok? ==> (fresh(r.value) && r.value.queueIn == queueIn && r.value.queueOut == queueOut
                       && r.value.process == (t => ParlerProcess(ParlerConfigOf(SetupKwargs(setupKwargs)), stream, t)))
  {
    var kwargs := SetupKwargs(setupKwargs);
    if !ParlerSetupAccepts(kwargs) {
      return Err(SetupRejected(kwargs));
    }
    var config := ParlerConfigOf(kwargs);
    r := New(queueIn, queueOut, setupKwargs, ParlerSetupAccepts, t => ParlerProcess(config, stream, t));
  }
}
