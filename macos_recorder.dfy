/** The alternative recorder over a loopback input device: a recording thread collects the
    sample payloads that the input stream's callback sends on a command channel until it
    receives `Stop`, folds them to mono and hands them back through an event channel; the
    recorder object owns the receiving end of the command channel exactly once. The input
    stream and its callback are outside the model: their outcomes are parameters. */
module Recorder {
  import opened RustStd
  import Capture

  datatype RecMsg = AudioSamples(data: seq<real>) | Stop

  /** The error the audio library reports when it cannot build the input stream. */
  datatype BuildStreamError = BuildStreamError(description: string)

  datatype Event = Finished(samples: seq<real>) | Error(err: BuildStreamError)

  datatype InitError = BlackHoleNotFound

  /** The outcome of a call that may panic: the value it returns, or the panic message. */
  datatype Outcome<T> = Returned(value: T) | Panicked(message: string)

  // ---------------------------------------------------------------------------
  // The recording thread

  /** The index of the first `Stop`, or the length when there is none. */
  function StopIndex(msgs: seq<RecMsg>): (s: nat)
    ensures s <= |msgs|
    ensures s < |msgs| ==> msgs[s].Stop?
    ensures forall j :: 0 <= j < s ==> msgs[j].AudioSamples?
  {
    if msgs == [] || msgs[0].Stop? then 0 else 1 + StopIndex(msgs[1..])
  }

  /** The payloads of a run of `AudioSamples` messages, concatenated in receipt order. */
  function Payloads(msgs: seq<RecMsg>): seq<real>
    decreases |msgs|
  {
    if msgs == [] then []
    else
      var last := msgs[|msgs| - 1];
      Payloads(msgs[..|msgs| - 1]) + if last.AudioSamples? then last.data else []
  }

  /** The samples the recording thread collects from the messages `msgs`: the payloads
      of every message before the first `Stop`. */
  function Accumulated(msgs: seq<RecMsg>): seq<real> {
    Payloads(msgs[..StopIndex(msgs)])
  }

  /** The stereo-to-mono fold `chunks(2).map(|ch| (ch[0] + ch.get(1).unwrap_or(0.0)) / 2.0)`:
      one sample per pair, a lone trailing sample averaged with silence. */
  function DownmixChunks(buffer: seq<real>): (mono: seq<real>)
    ensures |mono| == (|buffer| + 1) / 2
    ensures forall k :: 0 <= k < |mono| ==>
              mono[k] == (buffer[2 * k] + (if 2 * k + 1 < |buffer| then buffer[2 * k + 1] else 0.0)) / 2.0
  {
    if buffer == [] then []
    else if |buffer| == 1 then [(buffer[0] + 0.0) / 2.0]
    else [(buffer[0] + buffer[1]) / 2.0] + DownmixChunks(buffer[2..])
  }

  /** The recording thread: receives on the command channel (the messages `cmdRx` will
      deliver, in order; once they are used up `recv` fails, which stands for the object
      that holds `cmd_tx` having been dropped),
      extends the buffer with every `AudioSamples` payload, stops at the first `Stop`, and
      sends the mono fold of the buffer. Returns the event it sends and the messages it
      never reads. */
  method RecordThread(cmdRx: seq<RecMsg>) returns (event: Event, unread: seq<RecMsg>)
    ensures event == Finished(DownmixChunks(Accumulated(cmdRx)))
    ensures unread == cmdRx[Min(StopIndex(cmdRx) + 1, |cmdRx|)..]
  {
    var buffer: seq<real> := [];
    var i: nat := 0;
    while i < |cmdRx|
      invariant i <= StopIndex(cmdRx)
      invariant buffer == Payloads(cmdRx[..i])
    {
      match cmdRx[i] {
        case AudioSamples(samples) =>
          assert cmdRx[..i + 1][..i] == cmdRx[..i];
          buffer := buffer + samples;
          i := i + 1;
        case Stop =>
          assert i == StopIndex(cmdRx);
          break;
      }
    }
    assert i == StopIndex(cmdRx);
    var mono := DownmixChunks(buffer);
    event := Finished(mono);
    // The loop left early exactly when it read a `Stop` at index `i`.
    unread := if i < |cmdRx| then cmdRx[i + 1..] else [];
  }

  // ---------------------------------------------------------------------------
  // Lemmas

  lemma {:induction false} PayloadsAppend(a: seq<RecMsg>, b: seq<RecMsg>)
    ensures Payloads(a + b) == Payloads(a) + Payloads(b)
    decreases |b|
  {
    if b == [] {
      assert a + b == a;
    } else {
      var init := b[..|b| - 1];
      PayloadsAppend(a, init);
      assert (a + b)[..|a + b| - 1] == a + init;
      assert (a + b)[|a + b| - 1] == b[|b| - 1];
    }
  }

  /** A session in which the input stream delivers the chunks `delivered` before the `Stop`
      that `stop_record` sends: the thread collects exactly those chunks, in order, and
      whatever is sent after the `Stop` is never read. */
  lemma SessionResult(delivered: seq<seq<real>>, later: seq<RecMsg>)
    ensures var msgs := seq(|delivered|, k requires 0 <= k < |delivered| => AudioSamples(delivered[k]));
            Accumulated(msgs + [Stop] + later) == Flatten(delivered)
  {
    var msgs := seq(|delivered|, k requires 0 <= k < |delivered| => AudioSamples(delivered[k]));
    var all := msgs + [Stop] + later;
    StopIndexAfterRun(msgs, [Stop] + later);
    assert all == msgs + ([Stop] + later);
    assert all[..|msgs|] == msgs;
    PayloadsOfRun(delivered);
  }

  /** The concatenation of a sequence of chunks. */
  function Flatten(chunks: seq<seq<real>>): seq<real>
    decreases |chunks|
  {
    if chunks == [] then [] else Flatten(chunks[..|chunks| - 1]) + chunks[|chunks| - 1]
  }

  lemma {:induction false} PayloadsOfRun(delivered: seq<seq<real>>)
    ensures Payloads(seq(|delivered|, k requires 0 <= k < |delivered| => AudioSamples(delivered[k])))
            == Flatten(delivered)
    decreases |delivered|
  {
    if delivered != [] {
      var n := |delivered| - 1;
      var msgs := seq(|delivered|, k requires 0 <= k < |delivered| => AudioSamples(delivered[k]));
      var init := seq(n, k requires 0 <= k < n => AudioSamples(delivered[..n][k]));
      assert msgs[..n] == init;
      PayloadsOfRun(delivered[..n]);
    }
  }

  lemma {:induction false} StopIndexAfterRun(run: seq<RecMsg>, rest: seq<RecMsg>)
    requires forall j :: 0 <= j < |run| ==> run[j].AudioSamples?
    requires rest != [] && rest[0].Stop?
    ensures StopIndex(run + rest) == |run|
    decreases |run|
  {
    if run == [] {
      assert run + rest == rest;
    } else {
      assert (run + rest)[1..] == run[1..] + rest;
      StopIndexAfterRun(run[1..], rest);
    }
  }

  /** The fold of the recorder and the fold of the capture writer thread agree on complete
      stereo frames; on an odd-length buffer the recorder also keeps the halved last sample,
      where the writer thread drops it. */
  lemma DownmixExtendsStereoToMono(buffer: seq<real>)
    ensures |buffer| % 2 == 0 ==> DownmixChunks(buffer) == Capture.StereoToMono(buffer)
    ensures |buffer| % 2 == 1 ==>
              DownmixChunks(buffer) == Capture.StereoToMono(buffer) + [buffer[|buffer| - 1] / 2.0]
  {
    if |buffer| % 2 == 0 {
      DownmixEven(buffer);
    } else {
      DownmixOdd(buffer);
    }
  }

  lemma {:induction false} DownmixEven(buffer: seq<real>)
    requires |buffer| % 2 == 0
    ensures DownmixChunks(buffer) == Capture.StereoToMono(buffer)
    decreases |buffer|
  {
    if buffer != [] {
      DownmixEven(buffer[2..]);
      assert (buffer[0] + buffer[1]) / 2.0 == (buffer[0] + buffer[1]) * 0.5;
    }
  }

  lemma {:induction false} DownmixOdd(buffer: seq<real>)
    requires |buffer| % 2 == 1
    ensures DownmixChunks(buffer) == Capture.StereoToMono(buffer) + [buffer[|buffer| - 1] / 2.0]
    decreases |buffer|
  {
    if |buffer| == 1 {
      assert Capture.StereoToMono(buffer) == [];
    } else {
      var rest := buffer[2..];
      DownmixOdd(rest);
      assert rest[|rest| - 1] == buffer[|buffer| - 1];
      var head := [(buffer[0] + buffer[1]) * 0.5];
      assert (buffer[0] + buffer[1]) / 2.0 == (buffer[0] + buffer[1]) * 0.5;
      assert head + (Capture.StereoToMono(rest) + [rest[|rest| - 1] / 2.0])
             == (head + Capture.StereoToMono(rest)) + [buffer[|buffer| - 1] / 2.0];
    }
  }

  // ---------------------------------------------------------------------------
  // The recorder object

  /** The receiving end of the command channel. */
  datatype CommandReceiver = CommandReceiver

  /** The loopback input stream. */
  datatype InputStream = InputStream

  /** The join handle of the recording thread. */
  datatype RecordHandle = RecordHandle

  const ALREADY_STARTED: string := "Recording alredy started!"

  /** `MacosAudioCapture`: the command receiver until a recording takes it, the input stream
      and the recording thread. */
  class MacosAudioCapture {
    var cmdRx: Option<CommandReceiver>
    var stream: Option<InputStream>
    var recordHandle: Option<RecordHandle>

    constructor ()
      ensures cmdRx == Some(CommandReceiver) && stream == None && recordHandle == None
    {
      cmdRx := Some(CommandReceiver);
      stream := None;
      recordHandle := None;
    }

    /** `try_new`: fails when there is no loopback ("BlackHole") input device. */
    static method TryNew(blackHoleFound: bool) returns (r: Result<MacosAudioCapture, InitError>)
      ensures !blackHoleFound ==> r == Err(BlackHoleNotFound)
      ensures blackHoleFound ==>
                r.Ok? && fresh(r.value)
                && r.value.cmdRx == Some(CommandReceiver) && r.value.stream == None && r.value.recordHandle == None
    {
      if !blackHoleFound {
        return Err(BlackHoleNotFound);
      }
      var capture := new MacosAudioCapture();
      r := Ok(capture);
    }

    /** `start_record`, given the outcome of building the input stream. The command receiver
        is taken first, so a second call panics, and so does any call after a failed build;
        on success the stream and the recording thread are stored (whether or not the stream
        starts playing). */
    method StartRecord(build: Result<(), BuildStreamError>) returns (r: Outcome<Result<(), BuildStreamError>>)
      modifies this
      ensures cmdRx == None
      ensures old(cmdRx).None? ==>
                r == Panicked(ALREADY_STARTED) && stream == old(stream) && recordHandle == old(recordHandle)
      ensures old(cmdRx).Some? && build.Err? ==>
                r == Returned(Err(build.error)) && stream == old(stream) && recordHandle == old(recordHandle)
      ensures old(cmdRx).Some? && build.Ok? ==>
                r == Returned(Ok(())) && stream == Some(InputStream) && recordHandle == Some(RecordHandle)
    {
      if cmdRx.None? {
        return Panicked(ALREADY_STARTED);
      }
      cmdRx := None;
      if build.Err? {
        return Returned(Err(build.error));
      }
      stream := Some(InputStream);
      recordHandle := Some(RecordHandle);
      r := Returned(Ok(()));
    }

    /** `stop_record`, given the event the recording thread sends after the `Stop` this call
        sends: `Finished` returns exactly its samples and joins the thread; `Error` returns
        the error without joining. The stream is never dropped here. */
    method StopRecord(reply: Event) returns (r: Result<seq<real>, BuildStreamError>)
      modifies this
      ensures reply.Finished? ==> r == Ok(reply.samples) && recordHandle == None
      ensures reply.Error? ==> r == Err(reply.err) && recordHandle == old(recordHandle)
      ensures cmdRx == old(cmdRx) && stream == old(stream)
    {
      match reply {
        case Finished(v) =>
          recordHandle := None;
          r := Ok(v);
        case Error(err) =>
          r := Err(err);
      }
    }
  }

  /** Starting a recorder twice panics on the second start, whatever either build yields. */
  method RestartPanics(first: Result<(), BuildStreamError>, second: Result<(), BuildStreamError>)
    returns (r1: Outcome<Result<(), BuildStreamError>>, r2: Outcome<Result<(), BuildStreamError>>)
    ensures r1 == Returned(first)
    ensures r2 == Panicked(ALREADY_STARTED)
  {
    var recorder := new MacosAudioCapture();
    r1 := recorder.StartRecord(first);
    if first.Ok? {
      assert first.value == ();
    }
    r2 := recorder.StartRecord(second);
  }

  /** A start whose input stream cannot be built has already taken the command receiver, so
      retrying the start panics as if a recording were running, although none is. */
  method RetryAfterFailedBuildPanics(err: BuildStreamError)
    returns (r1: Outcome<Result<(), BuildStreamError>>, r2: Outcome<Result<(), BuildStreamError>>)
    ensures r1 == Returned(Err(err))
    ensures r2 == Panicked(ALREADY_STARTED)
  {
    var recorder := new MacosAudioCapture();
    r1 := recorder.StartRecord(Err(err));
    r2 := recorder.StartRecord(Ok(()));
  }

  /** A whole recording: start, the thread collecting the command channel's messages, stop
      with the event the thread sends. The recorder returns the mono fold of the payloads
      received before the first `Stop`. */
  method RecordSession(cmdRx: seq<RecMsg>) returns (r: Result<seq<real>, BuildStreamError>)
    ensures r == Ok(DownmixChunks(Accumulated(cmdRx)))
  {
    var recorder := new MacosAudioCapture();
    var started := recorder.StartRecord(Ok(()));
    var event, unread := RecordThread(cmdRx);
    r := recorder.StopRecord(event);
  }
}
