# Dual-stream audio capture, transcript filter and build script: a Dafny model

This project models the logic at the centre of a meeting recorder written in Rust. The recorder captures system audio and microphone audio, mixes them into one mono 16-bit stream, transcribes it and summarises the transcript. Five Dafny modules cover:

- **`Capture`** (`src/audio/capture.rs`), the ScreenCaptureKit path:
  - `extract_samples`, which turns a sample buffer into interleaved stereo.
  - The WAV writer thread. It polls a system channel and a microphone channel once per round. It folds system chunks from stereo to mono with `chunks_exact(2)` and appends microphone chunks unchanged. It writes every complete pair of buffered samples as soon as both sides have one, and drains them. After the round in which either channel yields `Stop` or reads as disconnected, it flushes the rest padded with silence, finalises the writer and sends `Finished`.
  - Quantisation: `clamp(-1, 1)`, `* 32767`, then `as i16`.
  - The `MacOSAudioCapture` object with its optional stream and writer-thread handle.
- **`Recorder`** (`src/audio/macos.rs`), the older loopback-device recorder:
  - A thread that concatenates `AudioSamples` payloads until `Stop`, then folds them to mono with `chunks(2)`.
  - The recorder object, whose command receiver can be taken only once.
- **`Transcript`** (`src/whisper.rs`), the filter over recognised segments:
  - Trims each segment.
  - Drops empty segments, repeats of the last *kept* segment and segments that contain a known hallucination phrase.
- **`BuildScript`** (`build.rs`), the `cargo:rustc-link-arg` lines the build script prints on macOS to put the Swift runtime directories on the binary's search path. This includes deriving the toolchain directory from the path of the `swift` binary.
- **`RustStd`**, the parts of Rust's standard library the code relies on:
  - `Option` and `Result`;
  - `str::trim` over Unicode White_Space;
  - `str::find` and `str::contains`.

## How the model is built

- **Channels.** A channel is the sequence of results its `try_recv` (or `recv`) calls will give, in order. Once that sequence is used up the channel reads as disconnected, so the end of a script stands for the moment its last sender was dropped.
- **Writer thread.** `Capture.WriterThread` keeps the source's local buffers, counters and `running` flag. It returns:
  - what it did to the WAV writer and the event channel, as a sequence of `Effect`s;
  - the unread rest of both channels;
  - the two counters.
- **Proof of the writer thread.** Its contract ties the result to the reference function `Capture.MixerOutput`. That function is the positional mix of the whole mono system stream and the whole microphone stream read before the loop stopped, padded with silence to the longer stream, then `Finalize`, then one `Finished`.
- **Audio samples.** Samples are mathematical reals.
- **Objects.** The two capture objects are classes whose `Option` fields play the role of the source's `Option` fields. The outcomes of their calls into ScreenCaptureKit, hound and cpal are parameters, and so are the replies on the event channel. Spawning a thread is modelled as storing its handle in the handle field, and joining it as taking and clearing that field. The capture object also has a ghost flag saying whether a writer thread was ever spawned, since only a writer thread is handed a sender of the event channel.
- **Transcript segments.** The recogniser's success flag and its segments are inputs of `Transcript.Transcribe`. A segment is `None` when `get_segment` yields nothing.
- **Build queries.** The two `xcrun` queries are inputs of `BuildScript.BuildLines`. Each is `Some(stdout)` when the command ran and succeeded, `None` otherwise.

### Behaviour of the code worth knowing

- **Odd system chunks.**
  - A system chunk with an odd number of samples loses its last sample (`chunks_exact(2)`).
  - So system chunks `[1.0, 1.0]` and `[0.0]` with the microphone chunk `[0.0, 0.0, 1.0]` mix to `[0.5, 0.0, 0.5]`, written as `16383, 0, 16383` (`Capture.OddSystemChunkDropped`).
  - A lone system sample `[0.5]` with no microphone data writes nothing at all (`Capture.LoneSystemSampleWritesNothing`).
  - The recorder's `chunks(2)` keeps that sample instead, halved (`Recorder.DownmixExtendsStereoToMono`).
- **No `Stop` from `stop_record`.** `MacOSAudioCapture::stop_record` never sends `Stop`. The writer loop ends only because dropping the stream drops the senders, so the channels read as disconnected.
- **`stop_record` always succeeds.** It returns `Ok(())` even without a prior `start_record`, stopping no stream, joining no thread and reporting nothing saved, since no writer thread ever held a sender of the event channel (`Capture.StopBeforeStart`). There is no misuse error.
- **Disconnecting ends the loop at once.** Both channels are polled in every round, and a round in which either reads as disconnected or yields `Stop` is the last. Chunks still queued on the other channel are then never read. For example, with the system channel already disconnected and two microphone chunks `[1.0]` queued, the first chunk is read and mixed with silence, and the second is dropped: the file holds the single sample `16383` (`Capture.DisconnectDiscardsQueuedChunk`).
- **WAV creation failure.** If the WAV file cannot be created, `start_record` returns an error but keeps the started stream (`Capture.StartWithoutWavFile`).
- **Failed build.** In the recorder, a `start_record` whose input stream fails to build has already taken the command receiver. A second attempt then panics with "Recording alredy started!" (`Recorder.RetryAfterFailedBuildPanics`).

## Model

| member | source | states |
|---|---|---|
| `RustStd.TrimMatches` | src/whisper.rs:45 | the result is the slice of the input after its leading run and before its trailing run of the given characters, begins and ends outside them, and is empty exactly when every character of the input is one of them |
| `RustStd.Trim` | src/whisper.rs:45 | the trimmed text is the slice of the input between its leading and trailing runs of Unicode white space; it neither starts nor ends with white space, and it is empty exactly when the whole input is white space |
| `RustStd.TrimOfTrimmed` | src/whisper.rs:45 | a text that neither starts nor ends with white space is its own trim, so trimming twice is trimming once |
| `RustStd.Find` | build.rs:35-36 | `find` returns the first index where the pattern occurs, and `None` exactly when it occurs nowhere |
| `RustStd.FindInSuffix` | build.rs:36 | searching the suffix from `t` fails exactly when the pattern does not occur at or after `t`; otherwise it finds the first occurrence at or after `t`, offset by `t` |
| `Transcript.AnyContainedMeaning` | src/whisper.rs:75 | the `any` over a marker list holds exactly when some marker occurs somewhere in the text |
| `Transcript.IsHallucination` | src/whisper.rs:61-76 | holds exactly when one of the ten listed phrases is a substring of the text |
| `Transcript.Transcribe` | src/whisper.rs:31-57 | a failed recognition run gives no segments; otherwise the result is the reference filter over the segments in index order; every returned text is non-empty, trimmed and free of hallucination phrases, and no two adjacent texts are equal |
| `Transcript.FilteredClean` | src/whisper.rs:45-49 | every kept text is non-empty, trimmed and contains none of the markers, for any marker list |
| `Transcript.FilteredNoAdjacentRepeats` | src/whisper.rs:48-53 | no kept text equals the one kept just before it |
| `Transcript.KeptIndicesIncrease` | src/whisper.rs:43-55 | the indices of the kept segments are valid and strictly increasing |
| `Transcript.FilteredIsSubsequence` | src/whisper.rs:43-55 | the k-th kept text is the trim of the segment at the k-th kept index, so the result is a subsequence of the trimmed segments in index order |
| `Transcript.DroppedSegmentIsTransparent` | src/whisper.rs:48-53 | a dropped segment leaves no trace, because `prev_text` changes only when a segment is kept: whatever follows is filtered as if it were absent |
| `Transcript.RepeatAfterDroppedIsDropped` | src/whisper.rs:48-53 | a segment that trims to the last kept text is dropped even when dropped segments lie between the two |
| `BuildScript.RpathLines` | build.rs:22-24 | one printed line per path, in order, each the rpath linker argument for that path |
| `BuildScript.ToolchainLibDefined` | build.rs:35-36 | a toolchain line is derived exactly when `Toolchains` occurs and `/usr/bin` occurs at or after its first occurrence |
| `BuildScript.ToolchainLibValue` | build.rs:36-40 | the derived path is the input up to index `u + 4` followed by `/lib/swift/macosx`, where `u` is the absolute index of the first `/usr/bin` at or after the first `Toolchains` |
| `BuildScript.CutAtUsrBin` | build.rs:39 | cutting a path four characters after an occurrence of `/usr/bin` and appending `/lib/swift/macosx` gives a path ending in `/usr/lib/swift/macosx` |
| `BuildScript.ToolchainLibSuffix` | build.rs:37-40 | the derived toolchain path always ends in `/usr/lib/swift/macosx` |
| `BuildScript.RpathLinesAreRpathArgs` | build.rs:53-55 | every line of a path loop starts with `cargo:rustc-link-arg=-Wl,-rpath,` |
| `BuildScript.BuildLines` | build.rs:3-8 | nothing is printed off macOS; on macOS the lines are those of `add_swift_runtime_paths` (so the four fixed lines end them, by `BuildScript.SwiftRuntimeLinesOrder`), and every printed line is an rpath linker argument |
| `BuildScript.SwiftRuntimeLines` | build.rs:10-60 | the SDK lines, the toolchain line and four fixed lines are printed, and every line is an rpath linker argument; the order is `BuildScript.SwiftRuntimeLinesOrder` |
| `BuildScript.SdkLines` | build.rs:12-25 | two rpath lines when the SDK query succeeds and none otherwise; the first is the trimmed SDK path followed by `/usr/lib/swift`, the second `/usr/lib/swift` (`BuildScript.SwiftRuntimeLinesOrder`) |
| `BuildScript.ToolchainLines` | build.rs:29-45 | one rpath line exactly when the swift query succeeds and a toolchain path can be derived from its trimmed output, none otherwise; the line is the rpath argument of the derived path (`BuildScript.SwiftRuntimeLinesOrder`) |
| `BuildScript.ToolchainLib` | build.rs:35-40 | a toolchain path is derived only when `Toolchains` occurs, and it always ends in `/lib/swift/macosx`; the exact condition and value are `BuildScript.ToolchainLibDefined` and `BuildScript.ToolchainLibValue` |
| `BuildScript.SwiftRuntimeLinesOrder` | build.rs:10-60 | the two SDK lines come first when the SDK query succeeds (the SDK path first), then the toolchain line when one can be derived, then always the two fallback paths and the two `@executable_path` paths in fixed order |
| `Capture.RoundsFrom` | src/audio/capture.rs:229-257 | the writer loop runs until the first round in which either channel yields `Stop` or reads as disconnected, and no earlier round ends it; the round count is at most one more than the length of the system script |
| `Capture.StereoToMono` | src/audio/capture.rs:236-239 | a system chunk of length L gives L/2 samples (rounded down), the k-th being `(data[2k] + data[2k+1]) * 0.5`; an odd trailing sample is dropped |
| `Capture.Clamp` | src/audio/capture.rs:264 | the clamped value lies in [-1, 1], equals the input inside that range and the nearer bound outside it |
| `Capture.TruncTowardZero` | src/audio/capture.rs:264 | the result is the integer toward zero from the value, less than one away |
| `Capture.AsI16` | src/audio/capture.rs:264 | the float-to-i16 cast truncates toward zero within the i16 range and saturates outside it |
| `Capture.Quantize` | src/audio/capture.rs:264 | every written sample is the truncation of `clamp(mixed, -1, 1) * 32767`; the cast never saturates, and the sample lies in [-32767, 32767] |
| `Capture.MixerOutputShape` | src/audio/capture.rs:278-289 | the thread writes `max` of the two stream lengths, every effect before the last two is a sample write in [-32767, 32767], and then comes `Finalize` followed by exactly one `Finished` event |
| `Capture.PushStereoAsMono` | src/audio/capture.rs:236-239 | the buffer is extended by exactly the mono fold of the chunk |
| `Capture.Receive` | src/audio/capture.rs:231-257 | a message of the channel's own variant is counted and its samples appended (system audio folded to mono, microphone audio as is); `Stop` and disconnection end the loop; the other variant and `Empty` change nothing |
| `Capture.WritePairs` | src/audio/capture.rs:262-266 | writes the quantised mixes of the first `min` positions, in order |
| `Capture.MixAvailable` | src/audio/capture.rs:259-275 | a mixing pass writes exactly `min(len)` samples, the i-th the mix of the i-th samples of both buffers, drains exactly those prefixes, and leaves at least one buffer empty |
| `Capture.WritePadded` | src/audio/capture.rs:279-286 | the flush writes `max(len)` samples, the missing side read as `0.0` |
| `Capture.WriterRound` | src/audio/capture.rs:229-275 | one round polls each channel once; afterwards the buffers hold exactly what is left of the streams read so far beyond their common length, the writes so far are the mixes of that common length, the counters count the accepted messages, and the round is the last exactly when one of its polls ends the loop |
| `Capture.WriterLoop` | src/audio/capture.rs:229-276 | the loop runs exactly the number of rounds until the first end-of-loop poll, and leaves the buffers, the writes and the counters as one round at a time keeps them |
| `Capture.WriterThread` | src/audio/capture.rs:223-289 | the effects are `MixerOutput`: all samples written are the padded positional mix of the whole mono streams read before the loop stopped, in arrival order; the messages of either channel still unread when the loop exits are returned untouched; the counters count the messages of each channel's own variant that were read |
| `Capture.MixPairsExtend` | src/audio/capture.rs:260-268 | when both streams grow, the pairs already written remain a prefix and the new pairs come from the grown buffers |
| `Capture.MixRoundStep` | src/audio/capture.rs:259-268 | after each round the buffers hold exactly what is left of the two streams beyond their common length, and everything written so far is the positional mix of the two streams up to their common length |
| `Capture.PadMixAfterPairs` | src/audio/capture.rs:279-286 | the pairs written during the loop followed by the padded flush are the padded mix of the two whole streams |
| `Capture.MixerOutputPairsFirst` | src/audio/capture.rs:259-286 | the first `min` written samples are the positional mix of the two whole streams read before the loop stopped |
| `Capture.FlushCompletesMix` | src/audio/capture.rs:259-286 | the writes of the loop followed by the writes of the flush are the writes of the padded mix of the two whole streams |
| `Capture.StreamAppend` | src/audio/capture.rs:232-251 | buffers grow in arrival order: the stream of two runs of polls is the stream of the first followed by that of the second |
| `Capture.StreamIgnores` | src/audio/capture.rs:244 | a poll result that contributes no samples may as well have been `Empty` |
| `Capture.RoundsSameEnds` | src/audio/capture.rs:241-256 | the number of rounds depends only on which polls yield `Stop` or disconnection |
| `Capture.TakeIgnores` | src/audio/capture.rs:256 | an ignored message changes nothing in the part of the stream read within a given number of polls, nor the message counter when it is not counted |
| `Capture.MicrophoneOnSystemChannelIgnored` | src/audio/capture.rs:231-245 | a `MicrophoneAudio` message on the system channel leaves the thread's whole output as if that poll had found the channel empty |
| `Capture.SystemOnMicrophoneChannelIgnored` | src/audio/capture.rs:247-257 | a `SystemAudio` message on the microphone channel is likewise ignored |
| `Capture.SilentStream` | src/audio/capture.rs:248-252 | a channel that delivers no message of its own variant contributes no samples |
| `Capture.SilentMicrophoneHalves` | src/audio/capture.rs:279-286 | when the microphone delivers nothing, every written sample is the quantised half of the system sample at its position |
| `Capture.OddSystemChunkDropped` | src/audio/capture.rs:236-239 | system chunks `[1,1]`, `[0]` and microphone chunk `[0,0,1]` produce writes `16383, 0, 16383`, then `Finalize` and `Finished` |
| `Capture.LoneSystemSampleWritesNothing` | src/audio/capture.rs:279-289 | a lone system sample with no microphone data produces no sample write, only `Finalize` and `Finished` |
| `Capture.ExtractSamples` | src/audio/capture.rs:80-125 | no buffer list gives `None`; with two buffers the result is the interleaving `[L0,R0,L1,R1,...]` of their common length, or `None` when either buffer cannot be read or the common length is zero; otherwise it is the concatenation of the readable buffers, or `None` when that is empty |
| `Capture.ConcatEmpty` | src/audio/capture.rs:103-124 | the concatenation is empty exactly when every readable buffer is empty |
| `Capture.ConcatSingle` | src/audio/capture.rs:104-117 | a single readable (mono) buffer passes through unchanged |
| `Capture.MacOSAudioCapture.constructor` | src/audio/capture.rs:154-163 | a new capture object has neither a stream nor a writer thread |
| `Capture.MacOSAudioCapture.StartRecord` | src/audio/capture.rs:167-294 | content, display and capture-start failures return a ScreenCapture error and change nothing; once the capture has started the stream is stored; a WAV creation failure then returns an error with the stream kept; on success the writer thread's handle is stored too, and a writer thread counts as spawned exactly after a successful start |
| `Capture.MacOSAudioCapture.StopRecord` | src/audio/capture.rs:296-317 | takes and stops the stream if there is one, reports the file saved exactly when `Finished` arrived in time, which it admits only once a writer thread was ever spawned, takes and joins the writer thread if there is one, and always returns `Ok(())` |
| `Capture.StopBeforeStart` | src/audio/capture.rs:296-317 | stopping a capture that was never started succeeds, stopping no stream, joining no thread and reporting nothing saved |
| `Capture.DisconnectDiscardsQueuedChunk` | src/audio/capture.rs:229-289 | when one channel is disconnected from the start the loop runs one round, so of two queued microphone chunks only the first is written, padded with silence, before `Finalize` and `Finished` |
| `Capture.StartWithoutWavFile` | src/audio/capture.rs:202-216 | when the WAV file cannot be created the start fails, yet a later stop still finds the stream and stops it, with no writer thread to join |
| `Recorder.StopIndex` | src/audio/macos.rs:62-67 | the thread stops at the first `Stop`; every message before it is an `AudioSamples` payload |
| `Recorder.DownmixChunks` | src/audio/macos.rs:70-73 | a buffer of length L gives L/2 samples rounded up, the k-th `(b[2k] + b[2k+1]) / 2` with a missing partner read as `0.0`, so a lone trailing sample is halved |
| `Recorder.RecordThread` | src/audio/macos.rs:59-76 | the thread sends `Finished` with the mono fold of the concatenation in receipt order of every payload before the first `Stop`; the messages after that `Stop` are never read |
| `Recorder.PayloadsAppend` | src/audio/macos.rs:64 | the buffer grows in receipt order: the payloads of two runs of messages are those of the first followed by those of the second |
| `Recorder.SessionResult` | src/audio/macos.rs:62-67 | if the stream delivers some chunks and then the `Stop` from `stop_record` arrives, the thread collects exactly those chunks in order, whatever is sent after the `Stop` |
| `Recorder.DownmixExtendsStereoToMono` | src/audio/macos.rs:70-73 | on even-length buffers the recorder's fold equals the writer thread's `chunks_exact` fold; on odd-length buffers it also keeps the halved last sample |
| `Recorder.MacosAudioCapture.constructor` | src/audio/macos.rs:30-39 | a new recorder holds the command receiver and has neither a stream nor a recording thread |
| `Recorder.MacosAudioCapture.TryNew` | src/audio/macos.rs:21-40 | fails with `BlackHoleNotFound` when there is no loopback device, and otherwise gives a fresh recorder holding the command receiver |
| `Recorder.MacosAudioCapture.StartRecord` | src/audio/macos.rs:44-81 | the command receiver is always taken first; with none left the call panics with "Recording alredy started!" and changes nothing else; a failed build returns its error; a successful one stores the stream and the recording thread |
| `Recorder.MacosAudioCapture.StopRecord` | src/audio/macos.rs:82-94 | `Finished(v)` returns exactly `v` and joins and clears the thread handle; `Error(e)` returns `Err(e)` without joining; the stream and the receiver are left as they were |
| `Recorder.RestartPanics` | src/audio/macos.rs:45 | on a fresh recorder the first start returns the build's result and the second start panics |
| `Recorder.RetryAfterFailedBuildPanics` | src/audio/macos.rs:44-50 | after a start whose build failed, a retry panics as if a recording were running |
| `Recorder.RecordSession` | src/audio/macos.rs:44-94 | start, the recording thread and stop together return the mono fold of the payloads received before the first `Stop` |

## Left out

- Threads, `sleep`, `recv_timeout` and `join` are not modelled as concurrency. Channels are the sequences of results their receive calls give. The writer thread and the recording thread are methods run on those sequences. The capture objects take the events they receive as parameters.
- ScreenCaptureKit, hound (`WavWriter`) and cpal are foreign libraries. The outcomes of these calls become parameters: the content query, the stream start, the WAV creation and the stream build. The WAV writer is the sequence of effects the thread performs. Its write and finalise errors are ignored by the code (`let _`) and are not modelled.
- The capture callback `did_output_sample_buffer` is not modelled. The channels' scripts stand for what it sends.
- The unsafe reinterpretation of buffer bytes as `f32` is not modelled. Each buffer is given as its sequence of samples.
- IEEE-754 arithmetic is not modelled. Samples are reals, so NaN and rounding are out of scope. The float-to-`i16` cast is modelled as saturating truncation toward zero.
- `to_str().unwrap()` on a segment is not modelled. A segment that is not valid UTF-8 would panic; segments are given as strings.
- `String::from_utf8_lossy` in the build script is not modelled. The `xcrun` output is given as a string.
- Rust's `find` returns a byte index. The model searches by character index, which cuts the same prefix of the path.
- The `println!`/`eprintln!` messages other than the build script's output lines are not modelled. The stream-play failure in the recorder only prints, so it is not a parameter.
- `Capture.MacOSAudioCapture.StopRecord` does not model the two-second timeout or a late `Finished` from an earlier session: both only affect the "saved" message, which is the `finishedInTime` parameter. Once a writer thread has been spawned the model leaves that flag free. Before any writer thread has been spawned it must be false.
- `Recorder.RecordThread` receives a script that may run out without any `Stop`, where `recv` then fails. The object keeps `cmd_tx` for as long as it lives, so such a script stands for the object having been dropped along with its stream.
- `Recorder.MacosAudioCapture.StopRecord` does not model the case where no recording thread exists. There `recv` would block for ever, since the object keeps a sender of its own event channel. The reply is always a parameter.
- The recorder's command channel is not a field of the object. The `Stop` that `stop_record` sends is the `Stop` in the thread's script (`Recorder.SessionResult`).
- The Linux `cpal` half of `src/audio/capture.rs` is not part of this model. It refers to message variants and a mixing function that the file does not define.
- `src/audio/linux.rs` is not part of this model. It is a stub returning empty results.
- `src/resample.rs` is not part of this model. It is a wrapper around an FFT resampling library.
- The summarisers are not part of this model. They are LLM inference and an HTTP client.
- `src/main.rs` is not part of this model. It holds the command line and signal wiring.
- `load_model` and `create_params` in `src/whisper.rs` are not modelled. They are configuration calls into the recogniser.
