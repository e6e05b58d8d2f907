# Speech-to-speech pipeline: handler loop, stage wiring, chunking and socket reads

This project models the sequential core of a full-duplex speech-to-speech
server and its client. The server is a chain of threads. A socket receiver
feeds `recv_q`, then VAD, STT, a language model and TTS pass items along
`spoken_q`, `text_q` and `lm_q` to `send_q`, and a socket sender drains it.
Every stage except the sockets is a `BaseHandler`. The client is
`listen_and_play`, which streams the microphone to the server and plays what
comes back.

The model covers:

- **The handler loop** (`BaseHandler.run`): take items until the `None`
  sentinel, forward every non-`None` value `process` yields, survive and log
  an exception raised while one item is processed, and put one `None`
  downstream on leaving. `__init__` defaults `setup_kwargs` and calls
  `setup` once.
- **Argument rewriting** (`rename_args`): prefixed keys are stripped of the
  prefix and one separator, `gen_` names are collected into `gen_kwargs`, and
  the loop runs over a snapshot of the keys.
- **Pipeline assembly**: the JSON-file or command-line choice, the shared
  stop event and five queues, and the stages `build_pipeline` builds and how
  they are wired.
- **TTS block chunking**: MeloTTS and Parler-TTS cut PCM samples into
  `blocksize` blocks and pad a short last block with zeros. The model also
  covers MeloTTS's input normalisation, voice lookup and error path.
- **`SocketReceiver`**: exact-length reads and a chunk-then-sentinel loop.
- **The loopback stage** (`LocalAudioStreamer`).
- **The client**: the playback callback's buffer fill, the microphone
  callback, and the sender and receiver loops with their stop rules.

Modelling conventions:

- Queues are sequences of `Option` values, with `None` as the sentinel.
- A `process` generator is a function from an item to an `Emission`: the
  values it yielded, and whether it raised after them.
- The stop event, as a thread sees it, is a number `stopAt`. It counts how
  many loop-head checks find the event clear.
- An input that runs out before its sentinel, or a socket that goes silent,
  stands for a thread waiting forever. The model reports that as an ending of
  its own (`Blocked`, `Stuck`, `Waiting`, `Starved`).
- A socket's peer is a sequence of arrivals: segments of bytes, then perhaps
  an orderly close or a reset. `recv(size)` returns at most `size` bytes of
  the segment at the head.
- Each imperative piece is a class whose methods are proved against a
  function of the old state: `Handler.Run`, `Namespace.RenameArgs`,
  `SocketReceiver.Run` and `ReceiveFullChunk`, and `Client.CbRecv`,
  `Sender` and `Receiver`. The properties are lemmas about those functions.

## Model

| member | source | states |
|---|---|---|
| BaseHandler.Handler.Run | baseHandler.py:31-45 | The loop leaves queues, error log and ending exactly as the transition function `RunFrom` does from the old state. |
| BaseHandler.Handler.Handle | baseHandler.py:37-43 | One item: every non-`None` yielded value is appended to `queue_out` in yield order, even when `process` then raises, and the item is logged exactly when it raised. |
| BaseHandler.Handler.PutForwarded | baseHandler.py:38-41 | The inner loop appends exactly the non-`None` outputs, in order. |
| BaseHandler.Handler.constructor | baseHandler.py:12-18 | The queues are stored, the error log is empty, and `setup` has been called exactly once with `setup_kwargs or {}`. |
| BaseHandler.New | baseHandler.py:12-18 | Construction fails exactly when `setup` rejects `setup_kwargs or {}`; otherwise it yields a fresh handler on the given queues after one `setup` call. |
| BaseHandler.SetupKwargs | baseHandler.py:17 | A missing dictionary becomes `{}`; a given one is kept. |
| BaseHandler.ForwardedAppend | baseHandler.py:38-41 | Forwarding distributes over concatenation of the yielded stream. |
| BaseHandler.ForwardedKeepsValues | baseHandler.py:38-41 | No `None` is forwarded, exactly the `None`s are dropped, and a stream without `None` is forwarded whole. |
| BaseHandler.RunFromIsTrace | baseHandler.py:31-45 | `run` removes the taken items from `queue_in`, appends what it puts to `queue_out` and appends the failed items to the log. |
| BaseHandler.RunStopsAtFirstSentinel | baseHandler.py:32-36 | Everything taken before the last item is real. The run ends on the sentinel exactly when the last item taken is `None`. It takes no more than the queue holds, nor more than the clear stop-event checks allow. |
| BaseHandler.RunTakesThroughSentinel | baseHandler.py:32-36 | With the stop event clear long enough, `run` takes exactly the items through the first `None` and none after it. |
| BaseHandler.RunOutputsInOrder | baseHandler.py:37-45 | `queue_out` gets the forwarded outputs of each processed item in queue order, then the final sentinel. The log holds exactly the items whose processing raised. |
| BaseHandler.RunPutsOneFinalSentinel | baseHandler.py:45 | On every path that leaves the loop, exactly one `None` is put, and it comes last. A thread still blocked in `get` has put none. |
| BaseHandler.RunSurvivesExceptions | baseHandler.py:37-43 | An exception changes neither what is taken nor what is put nor how the loop ends, only the log. |
| BaseHandler.RunPropagatesSentinel | baseHandler.py:31-45 | A downstream stage fed an upstream stage's closed output takes exactly that output and itself ends with a sentinel. |
| BaseHandler.BareHandlerForwardsOnlySentinel | baseHandler.py:24-29 | A bare `BaseHandler` puts only the final sentinel and logs one error per real item. |
| LocalAudioStreamer.LoopbackIsIdentity | connections/local_audio_streamer.py:12-14 | `process` yields exactly one output, the input unchanged, and never raises. |
| LocalAudioStreamer.LoopbackRunForwardsItems | connections/local_audio_streamer.py:12-14 | Run as a handler, the loopback puts exactly the real items it took, in order, then the sentinel, and logs nothing. |
| LocalAudioStreamer.LoopbackEchoesUpToSentinel | connections/local_audio_streamer.py:12-14 | The output stream is the input stream up to its first `None`, followed by one `None`. |
| LocalAudioStreamer.NewLoopback | connections/local_audio_streamer.py:9-10 | Construction fails exactly when `setup_kwargs` is a non-empty dictionary. |
| PcmBlocks.Zeros | TTS/melo_handler.py:41-43 | `n` samples, all zero. |
| PcmBlocks.BlocksShape | TTS/melo_handler.py:40-43 | Every block has exactly `blocksize` samples, and there are `ceil(len(pcm)/blocksize)` of them. Empty PCM yields no block. |
| PcmBlocks.BlocksConcatenate | TTS/melo_handler.py:40-43 | The blocks laid end to end are the PCM followed by zeros up to the next multiple of `blocksize`. |
| PcmBlocks.BlocksExactWhenDivisible | TTS/melo_handler.py:40-43 | When the length is a multiple of `blocksize`, the blocks reproduce the PCM exactly. |
| PcmBlocks.RangeStep | TTS/melo_handler.py:40 | The step `range` accepts: an int, or a bool as 0/1; anything else is refused. |
| PcmBlocks.ChunkLoopRaises | TTS/melo_handler.py:40 | The chunking loop raises exactly for a zero or non-integer block size, and yields nothing for a negative one. |
| MeloTts.LookupVoice | TTS/melo_handler.py:7-10 | A known language gets its own pair; anything else gets `("EN", "EN-BR")`. |
| MeloTts.MeloConfigOf | TTS/melo_handler.py:13-19 | `blocksize` defaults to 512, and the voice is the looked-up pair for `language`, defaulting to English. |
| MeloTts.Normalise | TTS/melo_handler.py:22-24 | A `str` is kept. Bytes are UTF-8 decoded, and when decoding fails the text is `str()` of the input, as it is for any other object. |
| MeloTts.MeloSilentWithoutAudio | TTS/melo_handler.py:25-36 | Empty text, or a failed synthesis or load, yields nothing and raises nothing. |
| MeloTts.MeloYieldsPaddedBlocks | TTS/melo_handler.py:40-44 | With a positive block size, `process` yields the padded blocks of the synthesised PCM: each of `blocksize` samples, the fewest that hold every sample, and laid end to end the PCM plus zeros. |
| MeloTts.MeloEmitsOnlyBlocks | TTS/melo_handler.py:21-44 | With a positive block size, `process` never raises, and everything it yields is a full block that the loop forwards. |
| MeloTts.MeloRunPutsOnlyBlocks | TTS/melo_handler.py:21-44 | Run as a handler, the TTS stage logs no error, and everything it puts before the sentinel is a full block. |
| MeloTts.NewMelo | TTS/melo_handler.py:13-19 | Construction fails exactly when `setup` rejects its keywords; otherwise `process` uses the stored configuration. |
| ParlerTts.ModelKwargs | TTS/parler_handler.py:16 | `gen_kwargs or {}` unpacked: a false value passes nothing, a dictionary passes its entries, and any other true value raises. |
| ParlerTts.ParlerConfigOf | TTS/parler_handler.py:14-16 | Defaults are `"tts-parler"` and 512. The model arguments are `gen_kwargs or {}` unpacked, so a missing or `None` `gen_kwargs` passes none. |
| ParlerTts.UnpaddedDropsShortTail | TTS/parler_handler.py:22-26 | As written, one array yields its full blocks and raises exactly when its last block is short, never yielding that block. |
| ParlerTts.PaddedYieldsAllBlocks | TTS/parler_handler.py:20-26 | With padding, chunking the arrays the stream yields never raises. It yields every array's padded blocks in stream order, then position order, with no sample carried across arrays. |
| ParlerTts.AsWrittenRaisesIffShortTail | TTS/parler_handler.py:1-3 | As written, chunking the arrays the stream yields raises exactly when one of them has a short last block. |
| ParlerTts.ParlerProcessRaises | TTS/parler_handler.py:18-26 | As written, `process` raises exactly when an array the stream yields has a short last block or `self.model.stream` itself raises. Without a short tail it yields every padded block of those arrays, even when the stream then raises. |
| ParlerTts.ParlerStopsAtShortTail | TTS/parler_handler.py:18-26 | As written, when array `j` is the first the stream yields with a short last block, `process` yields the padded blocks of the arrays before it and that array's full blocks, then raises. |
| ParlerTts.AsWrittenStopsAtFirstShortTail | TTS/parler_handler.py:20-26 | As written, chunking stops at the first array with a short last block: the padded blocks of the arrays before it, that array's full blocks, then a raise. |
| ParlerTts.ParlerPaddedProcess | TTS/parler_handler.py:18-26 | With padding, `process` raises exactly when `self.model.stream` raises. It yields the padded blocks of every array the stream yielded before that, in order. |
| ParlerTts.AsWrittenIsPrefixOfPadded | TTS/parler_handler.py:20-26 | As written, the output is a prefix of the padded output, and the two agree when nothing raises. |
| ParlerTts.AsWrittenBlocksAreFull | TTS/parler_handler.py:22-26 | Every block emitted as written has exactly `blocksize` samples. |
| ParlerTts.AllBlocksFull | TTS/parler_handler.py:22-26 | Every padded block has exactly `blocksize` samples. |
| ParlerTts.ShortTailCounterexample | TTS/parler_handler.py:25 | `[1, 2, 3]` with block size 2: as written the stage yields `[1, 2]` and raises; padded, it yields `[1, 2]` and `[3, 0]`. |
| ParlerTts.NewParler | TTS/parler_handler.py:14-16 | Construction fails exactly when `setup` rejects its keywords: an undeclared one, a `gen_kwargs` that `**` cannot unpack, or one with a `model` entry that repeats `model=`; otherwise `process` is the as-written generator on the stored configuration. |
| Sockets.RecvStep | connections/socket_receiver.py:22 | `recv(size)` returns at most `size` bytes, and they are the head of the stream. For a positive size, an empty result means an orderly close, a raise means a reset, and nothing otherwise changes the stream's end. |
| Sockets.Connection.Recv | connections/socket_receiver.py:22 | The connection's pending arrivals advance exactly as `RecvStep` says. |
| Receiver.SocketReceiver.constructor | connections/socket_receiver.py:12-17 | The queue, host, port and chunk size are stored. |
| Receiver.SocketReceiver.WithDefaults | connections/socket_receiver.py:12-17 | Left to its defaults, the receiver listens on `0.0.0.0` port 12345 with 1024-byte chunks. |
| Receiver.SocketReceiver.ReceiveFullChunk | connections/socket_receiver.py:19-26 | The accumulation loop ends with the result and stream position the function `FullChunk` gives. |
| Receiver.FullChunkFromReads | connections/socket_receiver.py:21-25 | From partial data, the loop completes exactly when the stream still holds the missing bytes. It then returns the data followed by exactly those bytes and leaves the rest unread. |
| Receiver.ReceiveFullChunkReads | connections/socket_receiver.py:19-26 | `n <= 0` returns `b""` without a `recv`. Otherwise the result is exactly the next `n` bytes, in order, with nothing over-read. A close first returns `None` and drops the partial data; a reset raises. |
| Receiver.Chunks | connections/socket_receiver.py:37-42 | Every chunk of the stream has exactly `n` bytes. |
| Receiver.SocketReceiver.Run | connections/socket_receiver.py:37-42 | The loop leaves the connection, `queue_out` and the ending exactly as `ReceiverFrom` does from the old state. |
| Receiver.ReceiverStep | connections/socket_receiver.py:38-42 | A successful turn queues the stream's first `n` bytes and carries on with the rest. |
| Receiver.ReceiverStopsEarly | connections/socket_receiver.py:37-42 | When the stop event is set first, exactly the first `stopAt` chunks are queued, in arrival order, and no sentinel. |
| Receiver.ReceiverDrains | connections/socket_receiver.py:37-42 | Otherwise every full chunk is queued in arrival order. One `None` follows exactly when the peer closed; a reset kills the thread without a sentinel. |
| Receiver.ReceiverEndsAtShortStream | connections/socket_receiver.py:38-41 | With less than a chunk left, the loop ends the way the stream ends. |
| ListenAndPlay.PlaybackFillContents | listen_and_play.py:42-47 | The buffer keeps its length and is all zeros when the queue is empty. An item that fits is copied to the front, with zeros after it. An item longer than the buffer raises. |
| ListenAndPlay.Client.constructor | listen_and_play.py:30-31 | The queues start empty and the stop event clear. |
| ListenAndPlay.Client.CbSend | listen_and_play.py:33-36 | Exactly one unchanged copy of the microphone buffer is enqueued. |
| ListenAndPlay.Client.CbRecv | listen_and_play.py:38-47 | At most one item is taken, without blocking. The buffer ends up as `PlaybackFill` of that item, or unchanged when the copy raises. |
| ListenAndPlay.Client.Sender | listen_and_play.py:49-58 | The sender loop changes queue, sent data and stop event exactly as `SenderFrom` does. |
| ListenAndPlay.Client.Receiver | listen_and_play.py:60-71 | The receiver loop changes connection, queue and stop event exactly as `ReceiverFrom` does, with read size `chunk_size*2`. |
| ListenAndPlay.Values | listen_and_play.py:55 | The values of a run of non-`None` items, one per item. |
| ListenAndPlay.SendTraceOf | listen_and_play.py:49-58 | The sender never counts more sends than queued items. |
| ListenAndPlay.SenderStopsOnSentinelOrFailure | listen_and_play.py:50-58 | The sender stops exactly at the first `None`, which it never sends, or at the failing `sendall`. Everything before is sent. |
| ListenAndPlay.SenderFromIsTrace | listen_and_play.py:49-58 | The sender has sent the values before its stop point, in queue order, and taken those items plus the `None` or failed item. It set the stop event exactly when a send failed. |
| ListenAndPlay.SenderTakes | listen_and_play.py:49-58 | What the sender leaves in `send_q`, whether it set the stop event, and how it ended. |
| ListenAndPlay.SenderSends | listen_and_play.py:55 | What the sender has sent: the values before where it stopped. |
| ListenAndPlay.ReceiverKeepsFit | listen_and_play.py:60-71 | The receiver only appends to `recv_q`, only non-empty items of at most the read size. It sets the stop event exactly when the server closed or `recv` raised. |
| ListenAndPlay.ReceiverQueuesStream | listen_and_play.py:62-68 | The queued items laid end to end are the start of the server's byte stream, with nothing skipped or repeated. |
| ListenAndPlay.ReceiverPrefix | listen_and_play.py:68 | The receiver never removes from `recv_q`. |
| ListenAndPlay.PlaybackNeverOverflows | listen_and_play.py:61 | With the client's read size, every queued item fits a speaker buffer, so `cb_recv` copies it whole and never raises. |
| S2sPipeline.Stripped | s2s_pipeline.py:59 | `key[len(prefix)+1:]`: the key minus its first `len(prefix)+1` characters, or `""` when it is too short. |
| S2sPipeline.Remove | s2s_pipeline.py:58 | Popping removes exactly that key and keeps the others distinct. |
| S2sPipeline.RenameStepFacts | s2s_pipeline.py:57-63 | One turn pops a prefixed key and writes only its stripped name or its `gen_kwargs` entry. Every other name is left alone. |
| S2sPipeline.RenameAll | s2s_pipeline.py:56-63 | The loop keeps the dictionary well formed: each key listed once, and exactly the keys present. |
| S2sPipeline.Renamed | s2s_pipeline.py:54-64 | Afterwards `gen_kwargs` is always present and is a dictionary. |
| S2sPipeline.Namespace.RenameArgs | s2s_pipeline.py:54-64 | The in-place loop over a snapshot of the keys leaves the namespace equal to `Renamed` of the old one. |
| S2sPipeline.Namespace.RenameKey | s2s_pipeline.py:57-63 | One turn pops a prefixed key and puts its value under the stripped name or into `gen_kwargs`, as `RenameStep` says, keeping the dictionary well formed. |
| S2sPipeline.Namespace.constructor | s2s_pipeline.py:54 | The namespace holds the given keys and values. |
| S2sPipeline.RenameAllKeeps | s2s_pipeline.py:56-63 | A name no visited key pops or moves onto keeps its presence and value. |
| S2sPipeline.RenameAllGen | s2s_pipeline.py:60-61 | `gen_kwargs` gains exactly one entry per routed key visited. |
| S2sPipeline.RenameAllRemoves | s2s_pipeline.py:58 | A visited prefixed key is gone unless a stripped name recreates it. |
| S2sPipeline.RenameAllMoves | s2s_pipeline.py:62-63 | A moved key's value reaches its stripped name. |
| S2sPipeline.RenameAllRoutes | s2s_pipeline.py:60-61 | A routed key's value reaches its `gen_kwargs` entry. |
| S2sPipeline.RenameArgsGenKwargs | s2s_pipeline.py:55-64 | `gen_kwargs` holds an entry exactly for the `gen_` names of the original prefixed keys. Any earlier value is replaced, and it is empty when there were none. |
| S2sPipeline.RenameArgsRoutesGen | s2s_pipeline.py:60-61 | A `gen_` key's value is filed under its name minus `gen_`. |
| S2sPipeline.RenameArgsPopsPrefixed | s2s_pipeline.py:57-58 | Every original prefixed key is popped. |
| S2sPipeline.RenameArgsMovesValue | s2s_pipeline.py:59-63 | A prefixed key's value reappears under its stripped name. A new key is never visited again, because the loop runs over a snapshot. |
| S2sPipeline.RenameArgsKeepsOthers | s2s_pipeline.py:56-63 | A key without the prefix keeps its value unless a stripped name collides with it. |
| S2sPipeline.ParseArguments | s2s_pipeline.py:84-86 | A JSON file (by absolute path) is read exactly when there is one argument and it ends in `.json`. Otherwise the flags after the program name are parsed. |
| S2sPipeline.Event.constructor | s2s_pipeline.py:100 | A new event is clear. |
| S2sPipeline.Queue.constructor | s2s_pipeline.py:101-105 | A new queue is empty. |
| S2sPipeline.InitializeQueuesAndEvents | s2s_pipeline.py:98-106 | One clear stop event and five fresh, empty, pairwise distinct queues. |
| S2sPipeline.Handlers | s2s_pipeline.py:148-157 | Built exactly when the TTS `setup` accepts its keywords. The result is the comms followed by four handlers, all on the shared stop event. |
| S2sPipeline.BuildPipeline | s2s_pipeline.py:109-157 | `"local"` mode fails at construction. Any other mode builds six stages on the shared stop event exactly when the TTS `setup` accepts its keywords. |
| S2sPipeline.BuildPipelineIntended | s2s_pipeline.py:134-135 | With the loopback given its stop event, every mode builds exactly when the TTS `setup` accepts, all stages on the shared stop event. |
| S2sPipeline.PipelineWiring | s2s_pipeline.py:136-157 | Receiver, sender, VAD, STT, LM and TTS, in that order, chained `recv_q` → VAD → `spoken_q` → STT → `text_q` → LM → `lm_q` → TTS → `send_q`. The seven unused argument groups make no difference. |
| S2sPipeline.OneProducerOneConsumer | s2s_pipeline.py:136-157 | Every queue has exactly one stage putting to it and exactly one taking from it. |
| S2sPipeline.IntendedLocalModeBuilds | s2s_pipeline.py:134-135 | As written, local mode fails. As intended, it builds a loopback from `recv_q` to `send_q` ahead of the four handlers, and the other modes are unchanged. |

## Left out

- Socket plumbing is not modelled: creation, `bind`, `listen`, `accept`, `close` and `connect`. The connection is a sequence of arrivals.
- `sendall`'s partial sends are not modelled. Each send is whole, and whether it fails is the parameter `breaksAfter`.
- The sounddevice streams and their `status` printing are not modelled. Only the two callbacks are.
- Threads, daemon flags and the thread manager are not modelled. `ThreadManager` is not part of this model.
- The timing of the stop event is reduced to `stopAt`, the number of loop-head checks that find it clear.
- `connections/socket_sender.py` is not part of this model. It is a forward-until-sentinel loop, and the handler loop lemmas already state that shape.
- The VAD, Whisper STT and language-model handlers are not modelled: `build_pipeline` is modelled as if their `setup` calls always succeed. They wrap libraries that are not part of this model, and the pipeline stages record only their keyword arguments.
- Float arithmetic is not modelled: the `* 32767` int16 scaling, the `librosa` load and resample, and the temporary WAV file. PCM is already an integer sequence, and a failed synthesis or load is the `None` result of the parameter `synth`.
- MeloTTSHandler.setup's model loading and its `spk2id` speaker lookup are not modelled. They depend on the Melo model, so only the accepted keywords and the stored voice and block size are modelled.
- ParlerTts.ParlerSetupAccepts does not model the Parler model's own constructor rejecting an unknown `gen_kwargs` entry, because that constructor is not part of this model. A duplicate `model` entry, which the call itself rejects, is modelled.
- The Parler model's `stream` is the parameter `stream`: for each text chunk, the arrays it yields and whether it raised after them. UTF-8 decoding and `str()` are the parameters `utf8` and `show`, and `os.path.abspath` is the parameter `abspath`.
- `HfArgumentParser` parsing itself, NLTK downloads, environment variables and logging configuration are not modelled. Only the JSON-or-flags choice is.
- Logging is recorded only as the handler's error log of failed items. Message text is not modelled.
- Queue payloads are modelled as bytes, samples or text.
- The `queue.Queue` objects in the pipeline record only their identity and contents. The handler loop's queues are the `Handler` class's sequence fields.
- S2sPipeline.RenameAllMoves, S2sPipeline.RenameAllRoutes, S2sPipeline.RenameArgsMovesValue, S2sPipeline.RenameArgsRoutesGen, S2sPipeline.RenameArgsPopsPrefixed and S2sPipeline.RenameArgsKeepsOthers hold only for non-colliding names. Each requires that no other key writes the same name. The source's last write wins on collisions, and those cases are not stated.

## Findings

| source | as written | input that shows it | evidently intended | confidence | as-written member | corrected member |
|---|---|---|---|---|---|---|
| TTS/parler_handler.py:25 | `np.pad` is called, but the module never imports numpy (lines 1-3). A short last block raises `NameError`, so its samples are lost and the item is logged as failed. | one streamed array `[1, 2, 3]` with `blocksize=2` | The short block is padded with zeros and yielded, as MeloTTS does. | not executed | ParlerTts.ShortTailCounterexample | ParlerTts.ParlerPaddedProcess |
| s2s_pipeline.py:135 | `LocalAudioStreamer(recv_q, send_q)` passes two arguments to a constructor that needs `stop_event`, `queue_in` and `queue_out` (baseHandler.py:12), so local mode raises `TypeError`. | `mode="local"` | `LocalAudioStreamer(stop_event, recv_q, send_q)`: a loopback from `recv_q` to `send_q`. | not executed | S2sPipeline.BuildPipeline | S2sPipeline.IntendedLocalModeBuilds |
