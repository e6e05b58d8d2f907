/**
 * The MeloTTS stage (`MeloTTSHandler`): `setup` picks a Melo language and
 * speaker from `LANG2MELO`, and `process` turns one text chunk into
 * fixed-size PCM blocks.
 *
 * Everything the handler borrows from libraries is a parameter here: UTF-8
 * decoding (`utf8`, `None` when the bytes do not decode), `str()` of an
 * object (`show`), and the whole synthesis step — `tts_to_file`, the temporary
 * file, `librosa.load`, resampling to 16 kHz and the int16 scaling — as
 * `synth`, which gives the integer PCM samples or `None` when any of it raised.
 */
module MeloTts {
  import opened Wrappers
  import opened PyValues
  import opened BaseHandler
  import opened PcmBlocks

  /** A Melo language code and the speaker name looked up in the model. */
  datatype Voice = Voice(language: string, speaker: string)

  /** `LANG2MELO`. */
  const Lang2Melo: map<string, Voice> := map[
    "en" := Voice("EN", "EN-BR"),
    "fr" := Voice("FR", "FR"),
    "es" := Voice("ES", "ES"),
    "zh" := Voice("ZH", "ZH"),
    "ja" := Voice("JP", "JP"),
    "ko" := Voice("KR", "KR")
  ]

  /** `LANG2MELO.get(language, LANG2MELO["en"])`: a known language gets its own
      pair, anything else (including a non-string value) the English one. */
  function LookupVoice(language: Value): (v: Voice)
    ensures language.Str? && language.s in Lang2Melo ==> v == Lang2Melo[language.s]
    ensures !(language.Str? && language.s in Lang2Melo) ==> v == Voice("EN", "EN-BR")
    ensures v in Lang2Melo.Values
  {
    assert Lang2Melo["en"] == Voice("EN", "EN-BR");
    if language.Str? && language.s in Lang2Melo then Lang2Melo[language.s] else Lang2Melo["en"]
  }

  /** The keyword parameters `setup` declares. */
  const SetupParameters: set<string> := {"device", "language", "speaker_to_id", "gen_kwargs", "blocksize"}

  /** `setup(**kwargs)` raises a `TypeError` for a keyword it does not declare,
      and `LANG2MELO.get` raises one for an unhashable (dictionary) language. */
  predicate MeloSetupAccepts(kwargs: Kwargs)
  {
    && kwargs.Keys <= SetupParameters
    && !("language" in kwargs && kwargs["language"].Dict?)
  }

  /** What `setup` stores and `process` reads. */
  datatype MeloConfig = MeloConfig(voice: Voice, blocksize: Value)

  /** The configuration `setup` stores: the defaults are `language="en"` and
      `blocksize=512`. */
  function MeloConfigOf(kwargs: Kwargs): (c: MeloConfig)
    ensures "blocksize" !in kwargs ==> c.blocksize == Int(512)
    ensures "blocksize" in kwargs ==> c.blocksize == kwargs["blocksize"]
    ensures "language" !in kwargs ==> c.voice == Voice("EN", "EN-BR")
    ensures "language" in kwargs ==> c.voice == LookupVoice(kwargs["language"])
  {
    var language := if "language" in kwargs then kwargs["language"] else Str("en");
    var blocksize := if "blocksize" in kwargs then kwargs["blocksize"] else Int(512);
    assert LookupVoice(Str("en")) == Voice("EN", "EN-BR");
    MeloConfig(LookupVoice(language), blocksize)
  }

  /** A value passed to `process`: a `str`, something with a `decode` method
      (bytes), or any other object. */
  datatype TextChunk = Text(s: string) | Encoded(bytes: seq<bv8>) | Opaque(id: nat)

  /** The text `process` synthesises: a `str` as it is, otherwise its UTF-8
      decoding, otherwise (decoding failed, or the object has no `decode`)
      `str()` of it. */
  function Normalise(chunk: TextChunk, utf8: seq<bv8> -> Option<string>, show: TextChunk -> string): (text: string)
    ensures chunk.Text? ==> text == chunk.s
    ensures chunk.Encoded? && utf8(chunk.bytes).Some? ==> text == utf8(chunk.bytes).value
    ensures chunk.Encoded? && utf8(chunk.bytes).None? ==> text == show(chunk)
    ensures chunk.Opaque? ==> text == show(chunk)
  {
    match chunk
    case Text(s) => s
    case Encoded(bytes) => if utf8(bytes).Some? then utf8(bytes).value else show(chunk)
    case Opaque(_) => show(chunk)
  }

  /** `process(text_chunk)`. */
  function MeloProcess(config: MeloConfig, utf8: seq<bv8> -> Option<string>, show: TextChunk -> string,
                       synth: (Voice, string) -> Option<seq<int>>, chunk: TextChunk): Emission<seq<int>>
  {
    var text := Normalise(chunk, utf8, show);
    if text == [] then Emission([], false)
    else match synth(config.voice, text)
      case None => Emission([], false)
      case Some(pcm) => ChunkLoop(pcm, config.blocksize)
  }

  /** Empty text, and any failure of synthesis or loading, yield nothing and
      raise nothing: the error is logged inside `process` itself. */
  lemma MeloSilentWithoutAudio(config: MeloConfig, utf8: seq<bv8> -> Option<string>, show: TextChunk -> string,
                                synth: (Voice, string) -> Option<seq<int>>, chunk: TextChunk)
    requires Normalise(chunk, utf8, show) == [] || synth(config.voice, Normalise(chunk, utf8, show)).None?
    ensures MeloProcess(config, utf8, show, synth, chunk) == Emission([], false)
  {
  }

  /** With a positive block size, the stage yields blocks of exactly that size,
      the fewest that hold all samples, which laid end to end are the samples
      followed by zero padding; it never raises and never yields `None`. */
  lemma {:induction false} MeloYieldsPaddedBlocks(config: MeloConfig, utf8: seq<bv8> -> Option<string>,
                                 show: TextChunk -> string, synth: (Voice, string) -> Option<seq<int>>,
                                 chunk: TextChunk, b: int)
    requires RangeStep(config.blocksize) == Some(b) && b > 0
    requires Normalise(chunk, utf8, show) != []
    requires synth(config.voice, Normalise(chunk, utf8, show)).Some?
    ensures var pcm := synth(config.voice, Normalise(chunk, utf8, show)).value;
      var e := MeloProcess(config, utf8, show, synth, chunk);
      && !e.raised
      && e.yielded == Somes(Blocks(pcm, b))
      && (forall i :: 0 <= i < |e.yielded| ==> e.yielded[i].Some? && |e.yielded[i].value| == b)
      && (|e.yielded| - 1) * b < |pcm| <= |e.yielded| * b
      && Flatten(Blocks(pcm, b)) == pcm + Zeros(|e.yielded| * b - |pcm|)
  {
    var pcm := synth(config.voice, Normalise(chunk, utf8, show)).value;
    BlocksShape(pcm, b);
    BlocksConcatenate(pcm, b);
  }

  /** With a positive block size, one call of `process` never raises, and all it
      yields (and so all the loop forwards) are blocks of that size. */
  lemma MeloEmitsOnlyBlocks(config: MeloConfig, utf8: seq<bv8> -> Option<string>, show: TextChunk -> string,
                            synth: (Voice, string) -> Option<seq<int>>, chunk: TextChunk, b: int)
    requires RangeStep(config.blocksize) == Some(b) && b > 0
    ensures var e := MeloProcess(config, utf8, show, synth, chunk);
      && !e.raised
      && (forall i :: 0 <= i < |e.yielded| ==> e.yielded[i].Some? && |e.yielded[i].value| == b)
      && Forwarded(e.yielded) == e.yielded
  {
    var e := MeloProcess(config, utf8, show, synth, chunk);
    var text := Normalise(chunk, utf8, show);
    if text != [] && synth(config.voice, text).Some? {
      MeloYieldsPaddedBlocks(config, utf8, show, synth, chunk, b);
    }
    ForwardedKeepsValues(e.yielded);
  }

  /** Run as a pipeline stage with a positive block size, the TTS handler never
      logs an error, and everything it puts on `queue_out` before the final
      sentinel is a block of that size. */
  lemma {:induction false} MeloRunPutsOnlyBlocks(queueIn: seq<Option<TextChunk>>, stopAt: nat, config: MeloConfig,
                               utf8: seq<bv8> -> Option<string>, show: TextChunk -> string,
                               synth: (Voice, string) -> Option<seq<int>>, b: int)
    requires RangeStep(config.blocksize) == Some(b) && b > 0
    ensures RunTrace(queueIn, stopAt, c => MeloProcess(config, utf8, show, synth, c)).failed == []
    ensures var put := RunTrace(queueIn, stopAt, c => MeloProcess(config, utf8, show, synth, c)).put;
      forall i :: 0 <= i < |put| ==> put[i].None? || |put[i].value| == b
    decreases |queueIn|
  {
    var process := c => MeloProcess(config, utf8, show, synth, c);
    if stopAt > 0 && queueIn != [] && queueIn[0].Some? {
      var chunk := queueIn[0].value;
      RunTraceStep(queueIn, stopAt, process);
      MeloRunPutsOnlyBlocks(queueIn[1..], stopAt - 1, config, utf8, show, synth, b);
      MeloEmitsOnlyBlocks(config, utf8, show, synth, chunk, b);
    }
  }

  /** Constructing the stage: `setup` runs with `setup_kwargs` (or `{}`); on
      success `process` uses the stored configuration. */
  method NewMelo(queueIn: seq<Option<TextChunk>>, queueOut: seq<Option<seq<int>>>, setupKwargs: Option<Kwargs>,
                 utf8: seq<bv8> -> Option<string>, show: TextChunk -> string,
                 synth: (Voice, string) -> Option<seq<int>>)
    returns (r: Result<Handler<TextChunk, seq<int>>, InitError>)
    ensures r.Err? <==> !MeloSetupAccepts(SetupKwargs(setupKwargs))
    ensures r.Ok? ==> (fresh(r.value) && r.value.queueIn == queueIn && r.value.queueOut == queueOut
                       && r.value.process == (c => MeloProcess(MeloConfigOf(SetupKwargs(setupKwargs)), utf8, show, synth, c)))
  {
    var config := MeloConfigOf(SetupKwargs(setupKwargs));
    r := New(queueIn, queueOut, setupKwargs, MeloSetupAccepts, c => MeloProcess(config, utf8, show, synth, c));
  }
}
