/** Recording bookkeeping and the level-meter data of
    src-tauri/src/modules/audio/recorder.rs. The capture stream and its
    thread are outside the model; the channel is seen through what each
    `try_recv` poll returns, and amplitudes are real numbers. */
module Recorder {
  import opened Wrappers
  import opened Seqs

  const DefaultSampleRate: nat := 44100
  /** `collect_audio_chunk` stops taking chunks at this many values. */
  const ChunkTarget: nat := 2048
  /** Number of bars in the level meter. */
  const Bars: nat := 12
  /** The error `start_global_recording` reports without an audio sender. */
  const SenderUnavailable := "Audio sender unavailable"

  /** The global recorder state behind `AUDIO_STATE`. */
  class AudioState {
    /** Whether the channel's sending side is present. */
    const hasSender: bool
    var isRecording: bool
    var sampleRate: nat
    /** Capture threads started so far. */
    ghost var workersSpawned: nat

    /** `AudioState::new`: a fresh channel, not recording, 44100 Hz. */
    constructor ()
      ensures hasSender && !isRecording && sampleRate == DefaultSampleRate && workersSpawned == 0
    {
      hasSender := true;
      isRecording := false;
      sampleRate := DefaultSampleRate;
      workersSpawned := 0;
    }

    /** `start_global_recording`: a second start while recording changes
        nothing and starts no second capture thread. */
    method StartGlobalRecording() returns (r: Result<Unit>)
      modifies this
      ensures sampleRate == old(sampleRate)
      ensures old(isRecording) ==> r.Ok? && isRecording && workersSpawned == old(workersSpawned)
      ensures !old(isRecording) && !hasSender ==> r == Err(SenderUnavailable) && !isRecording && workersSpawned == old(workersSpawned)
      ensures !old(isRecording) && hasSender ==> r.Ok? && isRecording && workersSpawned == old(workersSpawned) + 1
    {
      if isRecording {
        return Ok(Unit);
      }
      if !hasSender {
        return Err(SenderUnavailable);
      }
      workersSpawned := workersSpawned + 1;
      isRecording := true;
      r := Ok(Unit);
    }

    /** `stop_global_recording`: afterwards nothing is recording, whether
        or not something was. */
    method StopGlobalRecording()
      modifies this
      ensures !isRecording
      ensures sampleRate == old(sampleRate) && workersSpawned == old(workersSpawned)
    {
      if !isRecording {
        return;
      }
      isRecording := false;
    }
  }

  /** The values received by a run of `try_recv` polls, in order; `None` is
      a poll that found the channel empty. */
  function Received(polls: seq<Option<seq<real>>>): seq<real>
  {
    if polls == [] then []
    else
      var last := polls[|polls| - 1];
      Received(polls[..|polls| - 1]) + if last.Some? then last.value else []
  }

  /** `collect_audio_chunk`: `polls` are the results of the polls that fit
      in the time window. Returns the collected values and how many polls
      were used. */
  method CollectAudioChunk(polls: seq<Option<seq<real>>>) returns (buffer: seq<real>, used: nat)
    ensures used <= |polls| && buffer == Received(polls[..used])
    ensures used < |polls| ==> |buffer| >= ChunkTarget
    ensures forall k :: 0 <= k < used ==> |Received(polls[..k])| < ChunkTarget
  {
    buffer := [];
    used := 0;
    while used < |polls|
      invariant used <= |polls| && buffer == Received(polls[..used])
      invariant forall k :: 0 <= k < used ==> |Received(polls[..k])| < ChunkTarget
      invariant |buffer| < ChunkTarget
    {
      assert polls[..used + 1][..used] == polls[..used];
      var poll := polls[used];
      if poll.Some? {
        buffer := buffer + poll.value;
        used := used + 1;
        if |buffer| >= ChunkTarget {
          break;
        }
      } else {
        used := used + 1;
      }
    }
  }

  function Abs(x: real): real
  {
    if x < 0.0 then -x else x
  }

  /** Rust's `Iterator::step_by(k)`: the elements at 0, k, 2k, ... */
  function StepBy<T>(s: seq<T>, k: nat): seq<T>
    requires k >= 1
    decreases |s|
  {
    if s == [] then []
    else if |s| <= k then [s[0]]
    else [s[0]] + StepBy(s[k..], k)
  }

  /** `step_by(k)` yields `ceil(len / k)` elements. */
  lemma {:induction false} StepByLength<T>(s: seq<T>, k: nat)
    requires k >= 1
    ensures |s| <= |StepBy(s, k)| * k < |s| + k
    decreases |s|
  {
    if |s| > k {
      StepByLength(s[k..], k);
      var c := |StepBy(s[k..], k)|;
      assert (c + 1) * k == c * k + k;
    }
  }

  /** Element `i` of `step_by(k)` is element `i * k` of the input. */
  lemma {:induction false} StepByIndex<T>(s: seq<T>, k: nat, i: nat)
    requires k >= 1 && i < |StepBy(s, k)|
    ensures i * k < |s| && StepBy(s, k)[i] == s[i * k]
    decreases |s|
  {
    if i > 0 {
      assert |s| > k && StepBy(s, k) == [s[0]] + StepBy(s[k..], k);
      StepByIndex(s[k..], k, i - 1);
      var j := (i - 1) * k;
      MulSucc(i, k);
      assert StepBy(s, k)[i] == s[k..][j] == s[j + k];
    }
  }

  /** Gap between the sampled values: `(len / 12).max(1)`. */
  function Stride(n: nat): (k: nat)
    ensures k >= 1
  {
    if n / Bars >= 1 then n / Bars else 1
  }

  /** One bar: the amplitude boosted ten times and clipped at 1. */
  function Bar(x: real): (v: real)
    ensures 0.0 <= v <= 1.0
  {
    if Abs(x) * 10.0 < 1.0 then Abs(x) * 10.0 else 1.0
  }

  function Take<T>(s: seq<T>, n: nat): (r: seq<T>)
    ensures |r| == Min(|s|, n) && r == s[..|r|]
  {
    if |s| <= n then s else s[..n]
  }

  /** The bars before the idle boost: `step_by(step).take(12).map(bar)`. */
  function Bars12(data: seq<real>): seq<real>
  {
    var picked := Take(StepBy(data, Stride(|data|)), Bars);
    seq(|picked|, i requires 0 <= i < |picked| => Bar(picked[i]))
  }

  /** Every bar is below 0.02. */
  predicate Quiet(samples: seq<real>)
  {
    forall i :: 0 <= i < |samples| ==> samples[i] < 0.02
  }

  /** The level-meter payload of the `audio-data` event. */
  datatype AudioFrame = AudioFrame(samples: seq<real>, volume: real)

  function SumAbs(data: seq<real>): (s: real)
    ensures s >= 0.0
  {
    if data == [] then 0.0 else SumAbs(data[..|data| - 1]) + Abs(data[|data| - 1])
  }

  /** The bars hold `min(len, 12)` values, sampled at multiples of the
      stride and each in [0, 1]. */
  lemma BarsShape(data: seq<real>)
    ensures |Bars12(data)| == Min(|data|, Bars)
    ensures forall i :: 0 <= i < |Bars12(data)| ==>
      i * Stride(|data|) < |data| && Bars12(data)[i] == Bar(data[i * Stride(|data|)])
    ensures forall i :: 0 <= i < |Bars12(data)| ==> 0.0 <= Bars12(data)[i] <= 1.0
  {
    StepByLength(data, Stride(|data|));
    var n := |data|;
    var k := Stride(n);
    PickedLength(n, |StepBy(data, k)|);
    forall i | 0 <= i < Min(|StepBy(data, k)|, Bars) ensures i * k < n && StepBy(data, k)[i] == data[i * k] {
      StepByIndex(data, k, i);
    }
  }

  /** `step_by(stride)` over `n` values yields at least 12 of them when
      `n >= 12`, and all `n` otherwise. */
  lemma PickedLength(n: nat, c: nat)
    requires n <= c * Stride(n) < n + Stride(n)
    ensures Min(c, Bars) == Min(n, Bars)
  {
    var k := Stride(n);
    if n >= Bars {
      assert Bars * k <= n;
      MulCancel(Bars, c, k);
    } else {
      assert k == 1;
    }
  }

  lemma MulSucc(i: nat, k: nat)
    requires i >= 1
    ensures i * k == (i - 1) * k + k
  {
  }

  lemma MulCancel(a: int, b: int, k: int)
    requires k >= 1 && a * k <= b * k
    ensures a <= b
  {
    assert (b - a) * k == b * k - a * k;
  }

  /** The quiet-room boost keeps every bar non-negative and below 0.04. */
  lemma BoostedStaysLow(samples: seq<real>)
    requires Quiet(samples)
    requires forall i :: 0 <= i < |samples| ==> 0.0 <= samples[i]
    ensures forall i :: 0 <= i < |samples| ==> 0.0 <= samples[i] * 2.0 < 0.04
  {
  }

  /** `send_audio_visualization`: no event for empty input; otherwise the
      bars (doubled in place when all are quiet) and the mean amplitude
      times ten. */
  method SendAudioVisualization(data: seq<real>) returns (frame: Option<AudioFrame>)
    ensures data == [] <==> frame.None?
    ensures frame.Some? ==> |frame.value.samples| == |Bars12(data)|
    ensures frame.Some? ==> forall i :: 0 <= i < |Bars12(data)| ==>
      frame.value.samples[i] == if Quiet(Bars12(data)) then 2.0 * Bars12(data)[i] else Bars12(data)[i]
    ensures frame.Some? ==> frame.value.volume == SumAbs(data) / |data| as real * 10.0
  {
    if data == [] {
      return None;
    }
    var bars := Bars12(data);
    var samples := new real[|bars|](i requires 0 <= i < |bars| => bars[i]);
    if Quiet(bars) {
      var i := 0;
      while i < samples.Length
        invariant 0 <= i <= samples.Length
        invariant forall j :: 0 <= j < i ==> samples[j] == 2.0 * bars[j]
        invariant forall j :: i <= j < samples.Length ==> samples[j] == bars[j]
      {
        samples[i] := samples[i] * 2.0;
        i := i + 1;
      }
    }
    frame := Some(AudioFrame(samples[..], SumAbs(data) / |data| as real * 10.0));
  }
}
