/** The ScreenCaptureKit capture path: the sample extraction in the output handler, the
    writer thread that folds the system stream to mono, mixes it with the microphone stream
    and quantises the result to 16-bit samples, and the capture object that owns the
    stream and the thread. Channels are scripts of `try_recv` results; the WAV writer is
    the sequence of effects the thread performs on it. */
module Capture {
  import opened RustStd

  datatype ProcMsg = SystemAudio(data: seq<real>) | MicrophoneAudio(data: seq<real>) | Stop

  datatype Event = Finished

  /** The result of one `try_recv` on a channel. */
  datatype TryRecv = Received(msg: ProcMsg) | Empty | Disconnected

  /** What the writer thread does outside itself, in order: samples written to the WAV
      writer, the writer's finalisation, and the event sent to the capture object. */
  datatype Effect = WriteSample(sample: int) | Finalize | SendEvent(event: Event)

  /** The two channels: `sys_rx` carries system audio, `mic_rx` microphone audio. */
  datatype Source = System | Microphone

  // ---------------------------------------------------------------------------
  // Channels as scripts

  /** The result of the (i+1)-th `try_recv` on a channel whose successive results are
      `script`; once the script is used up every sender is gone and the channel reads as
      disconnected. */
  function Poll(script: seq<TryRecv>, i: nat): TryRecv {
    if i < |script| then script[i] else Disconnected
  }

  /** The part of a script read by the first `n` polls, and the part left unread. */
  function Take(script: seq<TryRecv>, n: nat): seq<TryRecv> {
    script[..Min(n, |script|)]
  }

  function Drop(script: seq<TryRecv>, n: nat): seq<TryRecv> {
    script[Min(n, |script|)..]
  }

  /** A poll result that clears the `running` flag. */
  predicate EndsLoop(r: TryRecv) {
    r.Disconnected? || (r.Received? && r.msg.Stop?)
  }

  /** The round (counting from 1) in which the writer loop stops, looking from round
      `i + 1` on: the first round in which either channel yields `Stop` or reads as
      disconnected. Both channels are polled in every round, the stopping one included. */
  function RoundsFrom(sys: seq<TryRecv>, mic: seq<TryRecv>, i: nat): (k: nat)
    ensures i < k <= Max(|sys|, i) + 1
    ensures EndsLoop(Poll(sys, k - 1)) || EndsLoop(Poll(mic, k - 1))
    ensures forall j :: i <= j < k - 1 ==> !EndsLoop(Poll(sys, j)) && !EndsLoop(Poll(mic, j))
    decreases |sys| - i
  {
    if EndsLoop(Poll(sys, i)) || EndsLoop(Poll(mic, i)) then i + 1
    else RoundsFrom(sys, mic, i + 1)
  }

  /** The number of rounds the writer loop runs for. */
  function Rounds(sys: seq<TryRecv>, mic: seq<TryRecv>): nat {
    RoundsFrom(sys, mic, 0)
  }

  // ---------------------------------------------------------------------------
  // Sample streams

  /** `chunks_exact(2)` folded to mono: one sample per complete stereo frame, the mean of
      its two channels; an odd trailing sample is dropped. */
  function StereoToMono(data: seq<real>): (mono: seq<real>)
    ensures |mono| == |data| / 2
    ensures forall k :: 0 <= k < |mono| ==> mono[k] == (data[2 * k] + data[2 * k + 1]) * 0.5
  {
    if |data| < 2 then [] else [(data[0] + data[1]) * 0.5] + StereoToMono(data[2..])
  }

  /** The samples one poll result adds to the buffer of `src`: system audio is folded to
      mono, microphone audio is taken as it is, and a message of the other variant adds
      nothing. */
  function Payload(src: Source, r: TryRecv): seq<real> {
    match r
    case Received(SystemAudio(data)) => if src == System then StereoToMono(data) else []
    case Received(MicrophoneAudio(data)) => if src == Microphone then data else []
    case _ => []
  }

  /** A poll result that bumps the channel's message counter. */
  predicate Accepted(src: Source, r: TryRecv) {
    r.Received? && (if src == System then r.msg.SystemAudio? else r.msg.MicrophoneAudio?)
  }

  /** The mono samples that the poll results `polls` of channel `src` contribute, in order. */
  function Stream(src: Source, polls: seq<TryRecv>): seq<real>
    decreases |polls|
  {
    if polls == [] then [] else Stream(src, polls[..|polls| - 1]) + Payload(src, polls[|polls| - 1])
  }

  /** The number of accepted messages among `polls`. */
  function Count(src: Source, polls: seq<TryRecv>): nat
    decreases |polls|
  {
    if polls == [] then 0
    else Count(src, polls[..|polls| - 1]) + if Accepted(src, polls[|polls| - 1]) then 1 else 0
  }

  // ---------------------------------------------------------------------------
  // Mixing and quantisation

  function MixSample(sys: real, mic: real): real {
    (sys + mic) * 0.5
  }

  /** `f32::clamp(-1.0, 1.0)`. */
  function Clamp(x: real): (r: real)
    ensures -1.0 <= r <= 1.0
    ensures -1.0 <= x <= 1.0 ==> r == x
    ensures x < -1.0 ==> r == -1.0
    ensures 1.0 < x ==> r == 1.0
  {
    if x < -1.0 then -1.0 else if 1.0 < x then 1.0 else x
  }

  /** Rounding toward zero, the rule of Rust's float-to-integer `as`. */
  function TruncTowardZero(v: real): (n: int)
    ensures 0.0 <= v ==> n as real <= v < n as real + 1.0
    ensures v < 0.0 ==> n as real - 1.0 < v <= n as real
  {
    if 0.0 <= v then v.Floor else -((-v).Floor)
  }

  /** `as i16` on a float: truncation toward zero, saturating at the bounds of i16. */
  function AsI16(v: real): (n: int)
    ensures -32768 <= n <= 32767
    ensures -32768.0 <= v <= 32767.0 ==> n == TruncTowardZero(v)
    ensures 32767.0 <= v ==> n == 32767
    ensures v <= -32768.0 ==> n == -32768
  {
    if 32767.0 <= v then 32767 else if v <= -32768.0 then -32768 else TruncTowardZero(v)
  }

  /** `(mixed.clamp(-1.0, 1.0) * 32767.0) as i16`: never saturates, and lies in
      [-32767, 32767]. */
  function Quantize(mixed: real): (n: int)
    ensures -32767 <= n <= 32767
    ensures n == TruncTowardZero(Clamp(mixed) * 32767.0)
  {
    AsI16(Clamp(mixed) * 32767.0)
  }

  /** The positional mix of the first `min(|sys|, |mic|)` samples of both buffers. */
  function MixPairs(sys: seq<real>, mic: seq<real>): seq<real> {
    seq(Min(|sys|, |mic|), k requires 0 <= k < Min(|sys|, |mic|) => MixSample(sys[k], mic[k]))
  }

  /** `buffer.get(k).copied().unwrap_or(0.0)`. */
  function At(buffer: seq<real>, k: nat): real {
    if k < |buffer| then buffer[k] else 0.0
  }

  /** The positional mix over the longer buffer, the missing side taken as silence. */
  function PadMix(sys: seq<real>, mic: seq<real>): seq<real> {
    seq(Max(|sys|, |mic|), k requires 0 <= k < Max(|sys|, |mic|) => MixSample(At(sys, k), At(mic, k)))
  }

  /** The WAV writes for a sequence of mixed samples. */
  function Writes(mixed: seq<real>): seq<Effect> {
    seq(|mixed|, k requires 0 <= k < |mixed| => WriteSample(Quantize(mixed[k])))
  }

  /** The whole effect of the writer thread on scripts `sys` and `mic`: the positional mix of
      the two mono streams read before the loop stopped, padded with silence to the longer
      one, then the finalisation, then one `Finished` event. */
  function MixerOutput(sys: seq<TryRecv>, mic: seq<TryRecv>): seq<Effect> {
    var k := Rounds(sys, mic);
    Writes(PadMix(Stream(System, Take(sys, k)), Stream(Microphone, Take(mic, k)))) + [Finalize, SendEvent(Finished)]
  }

  /** The thread writes as many samples as the longer stream holds, each within
      [-32767, 32767], then finalises the writer, then sends exactly one `Finished`. */
  lemma MixerOutputShape(sys: seq<TryRecv>, mic: seq<TryRecv>)
    ensures var effects, k := MixerOutput(sys, mic), Rounds(sys, mic);
            && |effects| == Max(|Stream(System, Take(sys, k))|, |Stream(Microphone, Take(mic, k))|) + 2
            && effects[|effects| - 2] == Finalize && effects[|effects| - 1] == SendEvent(Finished)
            && forall j :: 0 <= j < |effects| - 2 ==>
                 effects[j].WriteSample? && -32767 <= effects[j].sample <= 32767
  {
    var k := Rounds(sys, mic);
    var writes := Writes(PadMix(Stream(System, Take(sys, k)), Stream(Microphone, Take(mic, k))));
    assert MixerOutput(sys, mic) == writes + [Finalize, SendEvent(Finished)];
    assert forall j :: 0 <= j < |writes| ==> MixerOutput(sys, mic)[j] == writes[j];
  }

  // ---------------------------------------------------------------------------
  // The writer thread

  /** `for chunk in data.chunks_exact(2) { sys_buffer.push((chunk[0] + chunk[1]) * 0.5) }` */
  method PushStereoAsMono(buffer: seq<real>, data: seq<real>) returns (b: seq<real>)
    ensures b == buffer + StereoToMono(data)
  {
    b := buffer;
    var mono := StereoToMono(data);
    for c := 0 to |data| / 2
      invariant b == buffer + mono[..c]
    {
      assert mono[..c + 1] == mono[..c] + [mono[c]];
      b := b + [(data[2 * c] + data[2 * c + 1]) * 0.5];
    }
    assert mono[..|data| / 2] == mono;
  }

  /** The mixing pass of one round: writes the pairs of the first `min` samples. */
  method WritePairs(sysBuffer: seq<real>, micBuffer: seq<real>) returns (out: seq<Effect>)
    ensures out == Writes(MixPairs(sysBuffer, micBuffer))
  {
    out := [];
    var mixLen := Min(|sysBuffer|, |micBuffer|);
    for i := 0 to mixLen
      invariant out == Writes(MixPairs(sysBuffer, micBuffer))[..i]
    {
      var mixed := (sysBuffer[i] + micBuffer[i]) * 0.5;
      out := out + [WriteSample(AsI16(Clamp(mixed) * 32767.0))];
    }
  }

  /** The flush after the loop: writes the padded mix of what is left in both buffers. */
  method WritePadded(sysBuffer: seq<real>, micBuffer: seq<real>) returns (out: seq<Effect>)
    ensures out == Writes(PadMix(sysBuffer, micBuffer))
  {
    out := [];
    var remaining := Max(|sysBuffer|, |micBuffer|);
    for i := 0 to remaining
      invariant out == Writes(PadMix(sysBuffer, micBuffer))[..i]
    {
      var sys := if i < |sysBuffer| then sysBuffer[i] else 0.0;
      var mic := if i < |micBuffer| then micBuffer[i] else 0.0;
      var mixed := (sys + mic) * 0.5;
      out := out + [WriteSample(AsI16(Clamp(mixed) * 32767.0))];
    }
  }

  /** The handling of one `try_recv` result of channel `src`: a message of the channel's own
      variant is counted and its samples appended to the buffer (system audio folded to mono),
      `Stop` or a disconnected channel clears `running`, anything else is ignored. */
  method Receive(src: Source, r: TryRecv, buffer: seq<real>, count: nat)
    returns (buffer': seq<real>, count': nat, stop: bool)
    ensures buffer' == buffer + Payload(src, r)
    ensures count' == count + if Accepted(src, r) then 1 else 0
    ensures stop == EndsLoop(r)
  {
    buffer', count', stop := buffer, count, false;
    match r {
      case Received(SystemAudio(data)) =>
        if src == System {
          count' := count + 1;
          buffer' := PushStereoAsMono(buffer, data);
        }
      case Received(MicrophoneAudio(data)) =>
        if src == Microphone {
          count' := count + 1;
          buffer' := buffer + data;
        }
      case Received(Stop) => stop := true;
      case Empty =>
      case Disconnected => stop := true;
    }
  }

  /** The mixing pass of one round: when both buffers hold samples, the first `min` of
      them are paired, written and drained from the front of both buffers; otherwise the
      thread only sleeps. */
  method MixAvailable(sysBuffer: seq<real>, micBuffer: seq<real>)
    returns (out: seq<Effect>, sysRest: seq<real>, micRest: seq<real>)
    ensures out == Writes(MixPairs(sysBuffer, micBuffer))
    ensures var n := Min(|sysBuffer|, |micBuffer|);
            |out| == n && sysRest == sysBuffer[n..] && micRest == micBuffer[n..]
    ensures sysRest == [] || micRest == []
  {
    out, sysRest, micRest := [], sysBuffer, micBuffer;
    var mixLen := Min(|sysBuffer|, |micBuffer|);
    if mixLen > 0 {
      out := WritePairs(sysBuffer, micBuffer);
      sysRest := sysBuffer[mixLen..];
      micRest := micBuffer[mixLen..];
    }
  }

  /** One round of the writer loop, from the state after `i` rounds: both channels are
      polled once, what they deliver is buffered, and every complete pair is written and
      drained. `stop` says whether `running` is cleared. */
  method WriterRound(sysRx: seq<TryRecv>, micRx: seq<TryRecv>, i: nat, effects: seq<Effect>,
                     sysBuffer: seq<real>, micBuffer: seq<real>, sysCount: nat, micCount: nat)
    returns (effects': seq<Effect>, sysBuffer': seq<real>, micBuffer': seq<real>, sysCount': nat, micCount': nat,
             stop: bool)
    requires i < Rounds(sysRx, micRx)
    requires var sysStream, micStream := Stream(System, Take(sysRx, i)), Stream(Microphone, Take(micRx, i));
             var n := Min(|sysStream|, |micStream|);
             && sysBuffer == sysStream[n..] && micBuffer == micStream[n..]
             && effects == Writes(MixPairs(sysStream, micStream))
    requires sysCount == Count(System, Take(sysRx, i)) && micCount == Count(Microphone, Take(micRx, i))
    ensures var sysStream, micStream := Stream(System, Take(sysRx, i + 1)), Stream(Microphone, Take(micRx, i + 1));
            var n := Min(|sysStream|, |micStream|);
            && sysBuffer' == sysStream[n..] && micBuffer' == micStream[n..]
            && effects' == Writes(MixPairs(sysStream, micStream))
    ensures sysCount' == Count(System, Take(sysRx, i + 1)) && micCount' == Count(Microphone, Take(micRx, i + 1))
    ensures stop <==> i + 1 == Rounds(sysRx, micRx)
  {
    var sysNext, micNext, sysStop, micStop;
    sysNext := Poll(sysRx, i);
    sysBuffer', sysCount', sysStop := Receive(System, sysNext, sysBuffer, sysCount);
    micNext := Poll(micRx, i);
    micBuffer', micCount', micStop := Receive(Microphone, micNext, micBuffer, micCount);
    stop := sysStop || micStop;
    StreamStep(System, sysRx, i);
    StreamStep(Microphone, micRx, i);
    MixRoundStep(Stream(System, Take(sysRx, i)), Stream(Microphone, Take(micRx, i)),
                 Payload(System, sysNext), Payload(Microphone, micNext));
    var out;
    out, sysBuffer', micBuffer' := MixAvailable(sysBuffer', micBuffer');
    effects' := effects + out;
    RoundsStep(sysRx, micRx, i);
  }

  /** The `while running` loop of the writer thread: polls both channels once per round,
      buffers what they deliver and writes every complete pair at once, until the round in
      which either channel yields `Stop` or is disconnected. Returns the number of rounds,
      what was written, what is left in both buffers and the two message counters. */
  method WriterLoop(sysRx: seq<TryRecv>, micRx: seq<TryRecv>)
    returns (i: nat, effects: seq<Effect>, sysBuffer: seq<real>, micBuffer: seq<real>, sysCount: nat, micCount: nat)
    ensures i == Rounds(sysRx, micRx)
    ensures var sysStream, micStream := Stream(System, Take(sysRx, i)), Stream(Microphone, Take(micRx, i));
            var n := Min(|sysStream|, |micStream|);
            && sysBuffer == sysStream[n..] && micBuffer == micStream[n..]
            && effects == Writes(MixPairs(sysStream, micStream))
    ensures sysCount == Count(System, Take(sysRx, i)) && micCount == Count(Microphone, Take(micRx, i))
  {
    sysBuffer, micBuffer := [], [];
    var running := true;
    sysCount, micCount := 0, 0;
    effects := [];
    ghost var rounds := Rounds(sysRx, micRx);
    i := 0;
    while running
      invariant i <= rounds && running == (i < rounds)
      invariant var sysStream, micStream := Stream(System, Take(sysRx, i)), Stream(Microphone, Take(micRx, i));
                var n := Min(|sysStream|, |micStream|);
                && sysBuffer == sysStream[n..] && micBuffer == micStream[n..]
                && effects == Writes(MixPairs(sysStream, micStream))
      invariant sysCount == Count(System, Take(sysRx, i)) && micCount == Count(Microphone, Take(micRx, i))
      decreases rounds - i
    {
      var stop;
      effects, sysBuffer, micBuffer, sysCount, micCount, stop :=
        WriterRound(sysRx, micRx, i, effects, sysBuffer, micBuffer, sysCount, micCount);
      if stop {
        running := false;
      }
      i := i + 1;
    }
  }

  /** The writer thread: runs the loop, then flushes the buffers, finalises the writer and
      sends `Finished`. Returns what it did, the unread rest of each channel and the two
      message counters. */
  method WriterThread(sysRx: seq<TryRecv>, micRx: seq<TryRecv>)
    returns (effects: seq<Effect>, sysLeft: seq<TryRecv>, micLeft: seq<TryRecv>, sysCount: nat, micCount: nat)
    ensures effects == MixerOutput(sysRx, micRx)
    ensures sysLeft == Drop(sysRx, Rounds(sysRx, micRx)) && micLeft == Drop(micRx, Rounds(sysRx, micRx))
    ensures sysCount == Count(System, Take(sysRx, Rounds(sysRx, micRx)))
    ensures micCount == Count(Microphone, Take(micRx, Rounds(sysRx, micRx)))
  {
    var i, sysBuffer, micBuffer;
    i, effects, sysBuffer, micBuffer, sysCount, micCount := WriterLoop(sysRx, micRx);
    var out := WritePadded(sysBuffer, micBuffer);
    FlushCompletesMix(Stream(System, Take(sysRx, i)), Stream(Microphone, Take(micRx, i)));
    effects := effects + out + [Finalize, SendEvent(Finished)];
    sysLeft, micLeft := Drop(sysRx, i), Drop(micRx, i);
  }

  // ---------------------------------------------------------------------------
  // Lemmas

  /** One more poll grows the stream and the counter of a channel by what that poll delivers. */
  lemma StreamStep(src: Source, script: seq<TryRecv>, i: nat)
    ensures Stream(src, Take(script, i + 1)) == Stream(src, Take(script, i)) + Payload(src, Poll(script, i))
    ensures Count(src, Take(script, i + 1)) == Count(src, Take(script, i)) + if Accepted(src, Poll(script, i)) then 1 else 0
  {
    if i < |script| {
      var t := Take(script, i + 1);
      assert t[..|t| - 1] == Take(script, i);
      assert t[|t| - 1] == Poll(script, i);
    } else {
      assert Take(script, i + 1) == Take(script, i);
    }
  }

  /** Round `i + 1` is the last one exactly when one of its two polls ends the loop. */
  lemma RoundsStep(sys: seq<TryRecv>, mic: seq<TryRecv>, i: nat)
    requires i < Rounds(sys, mic)
    ensures (EndsLoop(Poll(sys, i)) || EndsLoop(Poll(mic, i))) <==> i + 1 == Rounds(sys, mic)
  {
  }

  lemma WritesAppend(a: seq<real>, b: seq<real>)
    ensures Writes(a + b) == Writes(a) + Writes(b)
  {
  }

  /** When both streams grow, the pairs already written stay a prefix of the pairs of the
      grown streams, and the new pairs are those of the grown buffers. */
  lemma MixPairsExtend(sys: seq<real>, mic: seq<real>, sys2: seq<real>, mic2: seq<real>)
    requires sys <= sys2 && mic <= mic2
    ensures var n := Min(|sys|, |mic|);
            MixPairs(sys2, mic2) == MixPairs(sys, mic) + MixPairs(sys2[n..], mic2[n..])
  {
    var n := Min(|sys|, |mic|);
    var whole, head, tail := MixPairs(sys2, mic2), MixPairs(sys, mic), MixPairs(sys2[n..], mic2[n..]);
    assert |whole| == |head| + |tail|;
    forall k | 0 <= k < |whole| ensures whole[k] == (head + tail)[k] {
      if k < n {
        assert sys2[k] == sys[k] && mic2[k] == mic[k];
      } else {
        assert tail[k - n] == MixSample(sys2[k], mic2[k]);
      }
    }
  }

  /** One round of the writer loop on the buffer contents: if the buffers held what is left
      of streams `sys` and `mic` after all complete pairs were written, then after `sysNew`
      and `micNew` arrive and the round's pairs are written and drained, the buffers again
      hold what is left of the grown streams, and everything written is the pairs of the
      grown streams. */
  lemma MixRoundStep(sys: seq<real>, mic: seq<real>, sysNew: seq<real>, micNew: seq<real>)
    ensures var n, n' := Min(|sys|, |mic|), Min(|sys + sysNew|, |mic + micNew|);
            var sysBuffer, micBuffer := sys[n..] + sysNew, mic[n..] + micNew;
            var m := Min(|sysBuffer|, |micBuffer|);
            && sysBuffer[m..] == (sys + sysNew)[n'..]
            && micBuffer[m..] == (mic + micNew)[n'..]
            && Writes(MixPairs(sys, mic)) + Writes(MixPairs(sysBuffer, micBuffer))
               == Writes(MixPairs(sys + sysNew, mic + micNew))
  {
    var n, n' := Min(|sys|, |mic|), Min(|sys + sysNew|, |mic + micNew|);
    var m := Min(|sys[n..] + sysNew|, |mic[n..] + micNew|);
    assert m == n' - n;
    DrainAfterAppend(sys, sysNew, n, m);
    DrainAfterAppend(mic, micNew, n, m);
    MixPairsExtend(sys, mic, sys + sysNew, mic + micNew);
    WritesAppend(MixPairs(sys, mic), MixPairs((sys + sysNew)[n..], (mic + micNew)[n..]));
  }

  /** Samples that arrive after `n` were drained come after what was left of the buffer. */
  lemma DrainAfterAppend(a: seq<real>, extra: seq<real>, n: nat, m: nat)
    requires n <= |a| && n + m <= |a| + |extra|
    ensures a[n..] + extra == (a + extra)[n..]
    ensures (a[n..] + extra)[m..] == (a + extra)[n + m..]
  {
    assert a[n..] + extra == (a + extra)[n..];
  }

  /** The pairs written during the loop followed by the padded flush of what is left are
      the padded mix of the two whole streams. */
  lemma PadMixAfterPairs(sys: seq<real>, mic: seq<real>)
    ensures var n := Min(|sys|, |mic|);
            MixPairs(sys, mic) + PadMix(sys[n..], mic[n..]) == PadMix(sys, mic)
  {
    var n := Min(|sys|, |mic|);
    var head, tail, whole := MixPairs(sys, mic), PadMix(sys[n..], mic[n..]), PadMix(sys, mic);
    assert |head| + |tail| == |whole|;
    forall k | 0 <= k < |whole| ensures (head + tail)[k] == whole[k] {
      if n <= k {
        assert tail[k - n] == MixSample(At(sys[n..], k - n), At(mic[n..], k - n));
        assert At(sys[n..], k - n) == At(sys, k) && At(mic[n..], k - n) == At(mic, k);
      }
    }
  }

  /** The pairs written in the loop followed by the flush of what is left are the writes
      of the padded mix of the two whole streams. */
  lemma FlushCompletesMix(sys: seq<real>, mic: seq<real>)
    ensures var n := Min(|sys|, |mic|);
            Writes(MixPairs(sys, mic)) + Writes(PadMix(sys[n..], mic[n..])) == Writes(PadMix(sys, mic))
  {
    var n := Min(|sys|, |mic|);
    PadMixAfterPairs(sys, mic);
    WritesAppend(MixPairs(sys, mic), PadMix(sys[n..], mic[n..]));
  }

  /** Streams preserve arrival order: the stream of two runs of polls is the stream of the
      first followed by the stream of the second. */
  lemma {:induction false} StreamAppend(src: Source, a: seq<TryRecv>, b: seq<TryRecv>)
    ensures Stream(src, a + b) == Stream(src, a) + Stream(src, b)
    decreases |b|
  {
    if b != [] {
      var init := b[..|b| - 1];
      StreamAppend(src, a, init);
      assert (a + b)[..|a + b| - 1] == a + init;
      assert (a + b)[|a + b| - 1] == b[|b| - 1];
    } else {
      assert a + b == a;
    }
  }

  /** A poll result that contributes nothing may as well have been `Empty`. */
  lemma StreamIgnores(src: Source, s: seq<TryRecv>, j: nat)
    requires j < |s| && Payload(src, s[j]) == []
    ensures Stream(src, s[j := Empty]) == Stream(src, s)
  {
    var pre, post := s[..j], s[j + 1..];
    assert s == pre + [s[j]] + post;
    assert s[j := Empty] == pre + [Empty] + post;
    StreamAppend(src, pre + [s[j]], post);
    StreamAppend(src, pre, [s[j]]);
    StreamAppend(src, pre + [Empty], post);
    StreamAppend(src, pre, [Empty]);
    StreamSingle(src, s[j]);
    StreamSingle(src, Empty);
  }

  /** Counters add up over runs of polls, like streams. */
  lemma {:induction false} CountAppend(src: Source, a: seq<TryRecv>, b: seq<TryRecv>)
    ensures Count(src, a + b) == Count(src, a) + Count(src, b)
    decreases |b|
  {
    if b != [] {
      var init := b[..|b| - 1];
      CountAppend(src, a, init);
      assert (a + b)[..|a + b| - 1] == a + init;
      assert (a + b)[|a + b| - 1] == b[|b| - 1];
    } else {
      assert a + b == a;
    }
  }

  /** A poll result that is not counted may as well have been `Empty` for the counter. */
  lemma CountIgnores(src: Source, s: seq<TryRecv>, j: nat)
    requires j < |s| && !Accepted(src, s[j])
    ensures Count(src, s[j := Empty]) == Count(src, s)
  {
    var pre, post := s[..j], s[j + 1..];
    assert s == pre + [s[j]] + post;
    assert s[j := Empty] == pre + [Empty] + post;
    CountAppend(src, pre + [s[j]], post);
    CountAppend(src, pre, [s[j]]);
    CountAppend(src, pre + [Empty], post);
    CountAppend(src, pre, [Empty]);
    assert [s[j]][..0] == [] && [Empty][..0] == [];
  }

  lemma StreamSingle(src: Source, r: TryRecv)
    ensures Stream(src, [r]) == Payload(src, r)
  {
    assert [r][..0] == [];
  }

  /** The number of rounds depends only on which polls end the loop. */
  lemma RoundsSameEnds(sys: seq<TryRecv>, mic: seq<TryRecv>, sys2: seq<TryRecv>, mic2: seq<TryRecv>)
    requires forall j: nat :: EndsLoop(Poll(sys, j)) == EndsLoop(Poll(sys2, j))
    requires forall j: nat :: EndsLoop(Poll(mic, j)) == EndsLoop(Poll(mic2, j))
    ensures Rounds(sys, mic) == Rounds(sys2, mic2)
  {
    var k, k2 := Rounds(sys, mic), Rounds(sys2, mic2);
    assert EndsLoop(Poll(sys2, k - 1)) || EndsLoop(Poll(mic2, k - 1));
    assert EndsLoop(Poll(sys, k2 - 1)) || EndsLoop(Poll(mic, k2 - 1));
  }

  /** Replacing one poll result that contributes nothing by `Empty` changes neither the part
      of the stream read within `n` polls nor its counter when the message is not counted. */
  lemma TakeIgnores(src: Source, s: seq<TryRecv>, j: nat, n: nat)
    requires j < |s| && Payload(src, s[j]) == [] && !Accepted(src, s[j])
    ensures Stream(src, Take(s[j := Empty], n)) == Stream(src, Take(s, n))
    ensures Count(src, Take(s[j := Empty], n)) == Count(src, Take(s, n))
  {
    if j < Min(n, |s|) {
      assert Take(s[j := Empty], n) == Take(s, n)[j := Empty];
      StreamIgnores(src, Take(s, n), j);
      CountIgnores(src, Take(s, n), j);
    } else {
      assert Take(s[j := Empty], n) == Take(s, n);
    }
  }

  /** A `MicrophoneAudio` message on the system channel is ignored: the writer thread does
      exactly what it does when that poll finds the channel empty. */
  lemma MicrophoneOnSystemChannelIgnored(sys: seq<TryRecv>, mic: seq<TryRecv>, j: nat)
    requires j < |sys| && sys[j].Received? && sys[j].msg.MicrophoneAudio?
    ensures MixerOutput(sys[j := Empty], mic) == MixerOutput(sys, mic)
  {
    forall x: nat ensures EndsLoop(Poll(sys[j := Empty], x)) == EndsLoop(Poll(sys, x)) {}
    RoundsSameEnds(sys[j := Empty], mic, sys, mic);
    TakeIgnores(System, sys, j, Rounds(sys, mic));
  }

  /** And a `SystemAudio` message on the microphone channel likewise. */
  lemma SystemOnMicrophoneChannelIgnored(sys: seq<TryRecv>, mic: seq<TryRecv>, j: nat)
    requires j < |mic| && mic[j].Received? && mic[j].msg.SystemAudio?
    ensures MixerOutput(sys, mic[j := Empty]) == MixerOutput(sys, mic)
  {
    forall x: nat ensures EndsLoop(Poll(mic[j := Empty], x)) == EndsLoop(Poll(mic, x)) {}
    RoundsSameEnds(sys, mic[j := Empty], sys, mic);
    TakeIgnores(Microphone, mic, j, Rounds(sys, mic));
  }

  /** A channel that delivers no message of its own variant contributes no samples. */
  lemma {:induction false} SilentStream(src: Source, s: seq<TryRecv>)
    requires forall j :: 0 <= j < |s| ==> !Accepted(src, s[j])
    ensures Stream(src, s) == []
    decreases |s|
  {
    if s != [] {
      SilentStream(src, s[..|s| - 1]);
    }
  }

  /** When the microphone delivers nothing, the flush pads it entirely with silence, so every
      written sample is the quantised half of the system sample at its position. */
  lemma SilentMicrophoneHalves(sys: seq<TryRecv>, mic: seq<TryRecv>)
    requires forall j :: 0 <= j < |mic| ==> !Accepted(Microphone, mic[j])
    ensures var sysStream := Stream(System, Take(sys, Rounds(sys, mic)));
            MixerOutput(sys, mic)
            == Writes(seq(|sysStream|, k requires 0 <= k < |sysStream| => sysStream[k] * 0.5))
               + [Finalize, SendEvent(Finished)]
  {
    var take := Take(mic, Rounds(sys, mic));
    assert forall j :: 0 <= j < |take| ==> take[j] == mic[j];
    SilentStream(Microphone, take);
    PadMixSilent(Stream(System, Take(sys, Rounds(sys, mic))));
  }

  /** Mixing with silence halves every sample. */
  lemma PadMixSilent(a: seq<real>)
    ensures PadMix(a, []) == seq(|a|, k requires 0 <= k < |a| => a[k] * 0.5)
  {
  }

  /** Before the flush the thread has written exactly the pairs of the two whole streams:
      `min` of their lengths; the flush then writes up to `max`. */
  lemma MixerOutputPairsFirst(sys: seq<TryRecv>, mic: seq<TryRecv>)
    ensures var k := Rounds(sys, mic);
            var sysStream, micStream := Stream(System, Take(sys, k)), Stream(Microphone, Take(mic, k));
            var n := Min(|sysStream|, |micStream|);
            MixerOutput(sys, mic)[..n] == Writes(MixPairs(sysStream, micStream))
  {
    var k := Rounds(sys, mic);
    var sysStream, micStream := Stream(System, Take(sys, k)), Stream(Microphone, Take(mic, k));
    var n := Min(|sysStream|, |micStream|);
    PadMixAfterPairs(sysStream, micStream);
    WritesAppend(MixPairs(sysStream, micStream), PadMix(sysStream[n..], micStream[n..]));
  }

  /** System chunks `[1.0, 1.0]` and `[0.0]` and the microphone chunk `[0.0, 0.0, 1.0]`: the
      one-sample system chunk has no complete stereo frame and adds nothing, so the system
      stream is `[1.0]` and the output is the mix `[0.5, 0.0, 0.5]`. */
  lemma OddSystemChunkDropped()
    ensures MixerOutput([Received(SystemAudio([1.0, 1.0])), Received(SystemAudio([0.0]))],
                        [Received(MicrophoneAudio([0.0, 0.0, 1.0]))])
            == [WriteSample(16383), WriteSample(0), WriteSample(16383), Finalize, SendEvent(Finished)]
  {
    var sys := [Received(SystemAudio([1.0, 1.0])), Received(SystemAudio([0.0]))];
    var mic := [Received(MicrophoneAudio([0.0, 0.0, 1.0]))];
    assert !EndsLoop(Poll(sys, 0)) && !EndsLoop(Poll(mic, 0)) && EndsLoop(Poll(mic, 1));
    assert Rounds(sys, mic) == 2;
    assert Take(sys, 2) == sys && Take(mic, 2) == mic;
    ScenarioSystemStream();
    ScenarioMicrophoneStream();
    ScenarioMix();
    assert MixerOutput(sys, mic) == Writes(PadMix([1.0], [0.0, 0.0, 1.0])) + [Finalize, SendEvent(Finished)];
  }

  lemma ScenarioSystemStream()
    ensures Stream(System, [Received(SystemAudio([1.0, 1.0])), Received(SystemAudio([0.0]))]) == [1.0]
  {
    var polls := [Received(SystemAudio([1.0, 1.0])), Received(SystemAudio([0.0]))];
    var first := [Received(SystemAudio([1.0, 1.0]))];
    assert polls[..1] == first;
    assert first[..0] == [];
    ScenarioMono();
    assert Payload(System, first[0]) == [1.0];
    assert Stream(System, first) == [1.0];
    assert Payload(System, polls[1]) == [];
  }

  lemma ScenarioMicrophoneStream()
    ensures Stream(Microphone, [Received(MicrophoneAudio([0.0, 0.0, 1.0]))]) == [0.0, 0.0, 1.0]
  {
    var polls := [Received(MicrophoneAudio([0.0, 0.0, 1.0]))];
    assert polls[..0] == [];
  }

  lemma ScenarioMono()
    ensures StereoToMono([1.0, 1.0]) == [1.0] && StereoToMono([0.0]) == []
  {
    assert [1.0, 1.0][2..] == [];
  }

  lemma ScenarioMix()
    ensures Writes(PadMix([1.0], [0.0, 0.0, 1.0])) + [Finalize, SendEvent(Finished)]
            == [WriteSample(16383), WriteSample(0), WriteSample(16383), Finalize, SendEvent(Finished)]
  {
    var mixed := PadMix([1.0], [0.0, 0.0, 1.0]);
    assert mixed == [0.5, 0.0, 0.5];
    assert Quantize(0.5) == 16383;
    assert Quantize(0.0) == 0;
    FinishWrites(Writes(mixed), [16383, 0, 16383]);
  }

  lemma FinishWrites(writes: seq<Effect>, samples: seq<int>)
    requires |writes| == |samples| == 3
    requires forall k :: 0 <= k < 3 ==> writes[k] == WriteSample(samples[k])
    ensures writes + [Finalize, SendEvent(Finished)]
            == [WriteSample(samples[0]), WriteSample(samples[1]), WriteSample(samples[2]), Finalize, SendEvent(Finished)]
  {
  }

  /** A lone system sample with no microphone data is no complete stereo frame: nothing is
      written. */
  lemma LoneSystemSampleWritesNothing()
    ensures MixerOutput([Received(SystemAudio([0.5]))], []) == [Finalize, SendEvent(Finished)]
  {
    var sys := [Received(SystemAudio([0.5]))];
    assert EndsLoop(Poll([], 0));
    assert Rounds(sys, []) == 1;
    assert Take(sys, 1) == sys && Take([], 1) == [];
    LoneSystemStream();
    assert Stream(Microphone, []) == [];
    assert PadMix([], []) == [];
  }

  lemma LoneSystemStream()
    ensures Stream(System, [Received(SystemAudio([0.5]))]) == []
  {
    var polls := [Received(SystemAudio([0.5]))];
    assert polls[..0] == [];
    assert StereoToMono([0.5]) == [];
  }

  /** Both channels disconnect together when the stream is dropped, and the loop ends in the
      first round in which either one reads as disconnected: of two microphone chunks still
      queued, only the one read in that round is written; the other is discarded. */
  lemma DisconnectDiscardsQueuedChunk()
    ensures MixerOutput([], [Received(MicrophoneAudio([1.0])), Received(MicrophoneAudio([1.0]))])
            == [WriteSample(16383), Finalize, SendEvent(Finished)]
  {
    var mic := [Received(MicrophoneAudio([1.0])), Received(MicrophoneAudio([1.0]))];
    assert EndsLoop(Poll([], 0));
    assert Rounds([], mic) == 1;
    assert Take([], 1) == [] && Take(mic, 1) == [mic[0]];
    StreamSingle(Microphone, mic[0]);
    assert Stream(Microphone, [mic[0]]) == [1.0];
    assert Stream(System, []) == [];
    assert PadMix([], [1.0]) == [0.5];
    assert Quantize(0.5) == 16383;
    assert Writes([0.5]) == [WriteSample(16383)];
  }

  // ---------------------------------------------------------------------------
  // Sample extraction in the output handler

  /** `samples` is the stereo interleaving `[L0, R0, L1, R1, ...]` of the common length of
      `left` and `right`. */
  predicate IsInterleaving(samples: seq<real>, left: seq<real>, right: seq<real>) {
    && |samples| == 2 * Min(|left|, |right|)
    && (forall k :: 0 <= k < Min(|left|, |right|) ==> samples[2 * k] == left[k] && samples[2 * k + 1] == right[k])
  }

  /** The samples of the buffers that can be read (a `None` is a buffer `get` does not
      return), concatenated in buffer order. */
  function Concat(buffers: seq<Option<seq<real>>>): seq<real>
    decreases |buffers|
  {
    if buffers == [] then []
    else
      var last := buffers[|buffers| - 1];
      Concat(buffers[..|buffers| - 1]) + if last.Some? then last.value else []
  }

  /** `extract_samples`: `None` when the sample buffer has no buffer list; with exactly two
      buffers (planar stereo) their interleaving, `None` when either buffer cannot be read;
      with any other number of buffers the concatenation of those that can be read; and
      `None` whenever the result would be empty. */
  method ExtractSamples(bufferList: Option<seq<Option<seq<real>>>>) returns (r: Option<seq<real>>)
    ensures bufferList.None? ==> r.None?
    ensures bufferList.Some? && |bufferList.value| == 2 ==>
              var buffers := bufferList.value;
              && (buffers[0].None? || buffers[1].None? ==> r.None?)
              && (buffers[0].Some? && buffers[1].Some? ==>
                    var left, right := buffers[0].value, buffers[1].value;
                    && (r.None? <==> Min(|left|, |right|) == 0)
                    && (r.Some? ==> IsInterleaving(r.value, left, right)))
    ensures bufferList.Some? && |bufferList.value| != 2 ==>
              r == (if Concat(bufferList.value) == [] then None else Some(Concat(bufferList.value)))
  {
    if bufferList.None? {
      return None;
    }
    var buffers := bufferList.value;
    var samples: seq<real>;
    if |buffers| == 2 {
      if buffers[0].None? || buffers[1].None? {
        return None;
      }
      var left, right := buffers[0].value, buffers[1].value;
      var interleaved: seq<real> := [];
      for i := 0 to Min(|left|, |right|)
        invariant |interleaved| == 2 * i
        invariant forall k :: 0 <= k < i ==> interleaved[2 * k] == left[k] && interleaved[2 * k + 1] == right[k]
      {
        interleaved := interleaved + [left[i]];
        interleaved := interleaved + [right[i]];
      }
      samples := interleaved;
    } else {
      var all: seq<real> := [];
      for i := 0 to |buffers|
        invariant all == Concat(buffers[..i])
      {
        assert buffers[..i + 1][..i] == buffers[..i];
        if buffers[i].Some? {
          var data := buffers[i].value;
          if data != [] {
            all := all + data;
          }
        }
      }
      assert buffers[..|buffers|] == buffers;
      samples := all;
    }
    if samples == [] {
      r := None;
    } else {
      r := Some(samples);
    }
  }

  /** The concatenation is empty exactly when every buffer that can be read is empty. */
  lemma {:induction false} ConcatEmpty(buffers: seq<Option<seq<real>>>)
    ensures Concat(buffers) == [] <==> forall i :: 0 <= i < |buffers| && buffers[i].Some? ==> buffers[i].value == []
    decreases |buffers|
  {
    if buffers != [] {
      var init := buffers[..|buffers| - 1];
      ConcatEmpty(init);
      assert forall i :: 0 <= i < |init| ==> init[i] == buffers[i];
    }
  }

  /** A single readable buffer (mono) passes through unchanged. */
  lemma ConcatSingle(data: seq<real>)
    ensures Concat([Some(data)]) == data
  {
    assert [Some(data)][..0] == [];
  }

  // ---------------------------------------------------------------------------
  // The capture object

  /** A started ScreenCaptureKit stream; it owns the two handlers and so the two senders. */
  datatype CaptureStream = CaptureStream

  /** The join handle of the writer thread. */
  datatype WriterHandle = WriterHandle

  /** The errors `start_record` returns: a ScreenCaptureKit failure with its message, or the
      failure to create the WAV file. */
  datatype StartError = ScreenCapture(message: string) | WavCreate

  /** What a `stop_record` call did besides returning. */
  datatype StopReport = StopReport(stoppedCapture: bool, saved: bool, joined: bool)

  /** `MacOSAudioCapture`: the optional stream and writer thread of the current recording. */
  class MacOSAudioCapture {
    var scStream: Option<CaptureStream>
    var writerHandle: Option<WriterHandle>
    /** Whether a writer thread was ever spawned. The object keeps `event_tx` and clones it
        only for a writer thread, so `Finished` can only ever arrive once this holds. */
    ghost var writerSpawned: bool

    /** `MacOSAudioCapture::new`: nothing started yet. */
    constructor ()
      ensures scStream == None && writerHandle == None && !writerSpawned
    {
      scStream := None;
      writerHandle := None;
      writerSpawned := false;
    }

    /** `start_record`. The outcomes of the outside calls are parameters: the shareable
        content query (`Ok` with the number of displays, or the error's text), the start of
        the capture, and the creation of the WAV file. The stream is stored as soon as it has
        started, before the WAV file is created, so a failure there returns an error with the
        stream kept; the writer thread's handle is stored only on success. */
    method StartRecord(content: Result<nat, string>, captureStart: Result<(), string>, wavCreated: bool)
      returns (r: Result<(), StartError>)
      modifies this
      ensures content.Err? ==> r == Err(ScreenCapture(content.error))
      ensures content == Ok(0) ==> r == Err(ScreenCapture("No displays found"))
      ensures content.Ok? && content.value > 0 && captureStart.Err? ==> r == Err(ScreenCapture(captureStart.error))
      ensures content.Err? || content == Ok(0) || captureStart.Err? ==>
                scStream == old(scStream) && writerHandle == old(writerHandle)
      ensures content.Ok? && content.value > 0 && captureStart.Ok? ==>
                && scStream == Some(CaptureStream)
                && (wavCreated ==> r == Ok(()) && writerHandle == Some(WriterHandle))
                && (!wavCreated ==> r == Err(WavCreate) && writerHandle == old(writerHandle))
    ensures writerSpawned == (old(writerSpawned) || r == Ok(()))
    {
      if content.Err? {
        return Err(ScreenCapture(content.error));
      }
      if content.value == 0 {
        return Err(ScreenCapture("No displays found"));
      }
      if captureStart.Err? {
        return Err(ScreenCapture(captureStart.error));
      }
      scStream := Some(CaptureStream);
      if !wavCreated {
        return Err(WavCreate);
      }
      writerHandle := Some(WriterHandle);
      writerSpawned := true;
      r := Ok(());
    }

    /** `stop_record`: stops and drops the stream if there is one (which disconnects both
        channels and so ends the writer loop; no `Stop` is sent), reports the file saved if
        `Finished` arrives within the timeout, joins the writer thread if there is one, and
        always succeeds. `Finished` can arrive in time only if a writer thread was ever spawned. */
    method StopRecord(finishedInTime: bool) returns (r: Result<(), StartError>, report: StopReport)
      requires finishedInTime ==> writerSpawned
      modifies this
      ensures r == Ok(())
      ensures report == StopReport(old(scStream).Some?, finishedInTime, old(writerHandle).Some?)
      ensures scStream == None && writerHandle == None && writerSpawned == old(writerSpawned)
    {
      var stopped, joined := false, false;
      if scStream.Some? {
        scStream := None;
        stopped := true;
      }
      if writerHandle.Some? {
        writerHandle := None;
        joined := true;
      }
      report := StopReport(stopped, finishedInTime, joined);
      r := Ok(());
    }
  }

  /** Stopping a capture that was never started is not an error: it succeeds, stops no
      stream and joins no thread. No writer thread was ever spawned, so no sender of the
      event channel was handed out: `StopRecord` admits only a timed-out wait, and nothing
      is reported saved. */
  method StopBeforeStart() returns (r: Result<(), StartError>, report: StopReport)
    ensures r == Ok(()) && !report.stoppedCapture && !report.saved && !report.joined
  {
    var capture := new MacOSAudioCapture();
    r, report := capture.StopRecord(false);
  }

  /** A start whose WAV file cannot be created leaves the stream running: a later stop still
      finds and stops it, but finds no writer thread to join. */
  method StartWithoutWavFile(displays: nat) returns (started: Result<(), StartError>, report: StopReport)
    requires displays > 0
    ensures started == Err(WavCreate)
    ensures report.stoppedCapture && !report.joined
  {
    var capture := new MacOSAudioCapture();
    started := capture.StartRecord(Ok(displays), Ok(()), false);
    var stopped;
    stopped, report := capture.StopRecord(false);
  }
}
