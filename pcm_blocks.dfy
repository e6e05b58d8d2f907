/**
 * Cutting a PCM sample stream into fixed-size playback blocks, as the TTS
 * handlers do before yielding audio: `pcm[i:i+blocksize]` for every `i` in
 * `range(0, len(pcm), blocksize)`, with a short last block padded with zeros
 * on the right (`np.pad(chunk, (0, blocksize - len(chunk)))`).
 * Samples are integers; the float-to-int16 scaling before this step is not
 * modelled.
 */
module PcmBlocks {
  import opened Wrappers
  import opened PyValues
  import opened BaseHandler

  /** `n` zero samples. */
  function Zeros(n: nat): (z: seq<int>)
    ensures |z| == n
    ensures forall i :: 0 <= i < n ==> z[i] == 0
  {
    seq(n, i => 0)
  }

  /** A short chunk padded with zeros on the right up to `size` samples. */
  function PadTo(chunk: seq<int>, size: nat): seq<int>
    requires |chunk| <= size
  {
    chunk + Zeros(size - |chunk|)
  }

  /** The blocks the chunking loop yields, in order. */
  function Blocks(pcm: seq<int>, size: nat): seq<seq<int>>
    requires size > 0
    decreases |pcm|
  {
    if pcm == [] then []
    else if |pcm| < size then [PadTo(pcm, size)]
    else [pcm[..size]] + Blocks(pcm[size..], size)
  }

  /** Every block has exactly `size` samples, and there are `ceil(len(pcm) / size)`
      of them: the fewest blocks that hold every sample. An empty stream yields no
      block. */
  lemma {:induction false} BlocksShape(pcm: seq<int>, size: nat)
    requires size > 0
    ensures forall k :: 0 <= k < |Blocks(pcm, size)| ==> |Blocks(pcm, size)[k]| == size
    ensures (|Blocks(pcm, size)| - 1) * size < |pcm| <= |Blocks(pcm, size)| * size
    ensures pcm == [] <==> Blocks(pcm, size) == []
    decreases |pcm|
  {
    var blocks := Blocks(pcm, size);
    if pcm != [] && |pcm| >= size {
      var rest := Blocks(pcm[size..], size);
      BlocksShape(pcm[size..], size);
      assert |blocks| == 1 + |rest|;
      assert |blocks| * size == size + |rest| * size;
      forall k | 0 <= k < |blocks| ensures |blocks[k]| == size {
        if k > 0 { assert blocks[k] == rest[k - 1]; }
      }
    }
  }

  /** Laid end to end, the blocks are the stream followed by zeros up to the
      next multiple of `size`: no sample is lost, reordered or invented. */
  lemma {:induction false} BlocksConcatenate(pcm: seq<int>, size: nat)
    requires size > 0
    ensures |pcm| <= |Blocks(pcm, size)| * size
    ensures Flatten(Blocks(pcm, size)) == pcm + Zeros(|Blocks(pcm, size)| * size - |pcm|)
    decreases |pcm|
  {
    BlocksShape(pcm, size);
    if pcm == [] {
      assert pcm + Zeros(0) == [];
    } else if |pcm| < size {
      assert Flatten([PadTo(pcm, size)]) == PadTo(pcm, size) + Flatten([]);
    } else {
      var tail := pcm[size..];
      var rest := Blocks(tail, size);
      BlocksConcatenate(tail, size);
      assert |Blocks(pcm, size)| * size - |pcm| == |rest| * size - |tail| by {
        assert |Blocks(pcm, size)| * size == size + |rest| * size;
      }
      assert pcm[..size] + tail == pcm;
    }
  }

  /** A stream of `k` whole blocks is cut into exactly `k` blocks and reproduced
      exactly: no padding is added. */
  lemma {:induction false} BlocksExactWhenDivisible(pcm: seq<int>, size: nat, k: nat)
    requires size > 0 && |pcm| == k * size
    ensures |Blocks(pcm, size)| == k
    ensures Flatten(Blocks(pcm, size)) == pcm
    decreases k
  {
    if k > 0 {
      assert |pcm| == size + (k - 1) * size;
      BlocksExactWhenDivisible(pcm[size..], size, k - 1);
      assert pcm[..size] + pcm[size..] == pcm;
    }
  }

  /** The step value Python's `range` accepts: an `int`, or a `bool` (an `int`
      subclass); anything else makes `range` raise a `TypeError`. */
  function RangeStep(v: Value): (step: Option<int>)
    ensures v.Int? ==> step == Some(v.i)
    ensures v.Bool? ==> step == Some(if v.b then 1 else 0)
    ensures !v.Int? && !v.Bool? ==> step == None
  {
    match v
    case Int(i) => Some(i)
    case Bool(b) => Some(if b then 1 else 0)
    case _ => None
  }

  /** The chunking loop over the synthesised samples: the padded blocks for a
      positive step, nothing for a negative one (`range` is empty), and a
      `ValueError` / `TypeError` from `range` for a zero or non-integer step. */
  function ChunkLoop(pcm: seq<int>, blocksize: Value): Emission<seq<int>>
  {
    match RangeStep(blocksize)
    case None => Emission([], true)
    case Some(b) =>
      if b > 0 then Emission(Somes(Blocks(pcm, b)), false)
      else if b == 0 then Emission([], true)
      else Emission([], false)
  }

  /** The block stream raises exactly when the step is zero or not an integer,
      and yields nothing when it is negative. */
  lemma ChunkLoopRaises(pcm: seq<int>, blocksize: Value)
    ensures ChunkLoop(pcm, blocksize).raised <==> RangeStep(blocksize).None? || RangeStep(blocksize) == Some(0)
    ensures RangeStep(blocksize).Some? && RangeStep(blocksize).value < 0 ==> ChunkLoop(pcm, blocksize).yielded == []
  {
  }
}
