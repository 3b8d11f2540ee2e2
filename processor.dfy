/** The processing side of a dictation session
    (src-tauri/src/modules/audio/processor.rs): the start/stop guard, the
    cancel flag, the mono downmix of the capture loop, what happens once
    recording ends, and the bookkeeping of a finished session. The
    transcription service is replaced by its result, and the waits between
    steps are left out. */
module Processor {
  import opened Wrappers
  import opened Seqs
  import opened Strings
  import opened Events
  import Usage
  import Analytics

  class AudioProcessor {
    var isProcessing: bool
    /** Processing threads started so far. */
    ghost var threadsStarted: nat

    constructor ()
      ensures !isProcessing && threadsStarted == 0
    {
      isProcessing := false;
      threadsStarted := 0;
    }

    /** `start_processing`: does nothing while a session is being
        processed; otherwise marks processing and starts one thread. */
    method StartProcessing()
      modifies this
      ensures isProcessing
      ensures old(isProcessing) ==> threadsStarted == old(threadsStarted)
      ensures !old(isProcessing) ==> threadsStarted == old(threadsStarted) + 1
    {
      if isProcessing {
        return;
      }
      isProcessing := true;
      threadsStarted := threadsStarted + 1;
    }

    /** `stop_processing`, the only way the flag is cleared. */
    method StopProcessing()
      modifies this
      ensures !isProcessing && threadsStarted == old(threadsStarted)
    {
      isProcessing := false;
    }
  }

  /** `CANCEL_PROCESSING`. */
  class CancelFlag {
    var requested: bool

    constructor ()
      ensures !requested
    {
      requested := false;
    }

    /** `request_cancel_processing`. */
    method Request()
      modifies this
      ensures requested
    {
      requested := true;
    }

    /** `swap(false)`: reads and clears the flag in one step. */
    method Take() returns (was: bool)
      modifies this
      ensures was == old(requested) && !requested
    {
      was := requested;
      requested := false;
    }
  }

  /** `chunk.chunks(2).map(...)`: the mean of each pair of values, and a
      trailing odd value as it is. */
  function Downmix(chunk: seq<real>): seq<real>
  {
    if |chunk| == 0 then []
    else if |chunk| == 1 then [chunk[0]]
    else [0.5 * (chunk[0] + chunk[1])] + Downmix(chunk[2..])
  }

  lemma {:induction false} DownmixShape(chunk: seq<real>)
    ensures |Downmix(chunk)| == (|chunk| + 1) / 2
    ensures forall i :: 0 <= i < |Downmix(chunk)| ==>
      if 2 * i + 1 < |chunk| then Downmix(chunk)[i] == 0.5 * (chunk[2 * i] + chunk[2 * i + 1])
      else 2 * i == |chunk| - 1 && Downmix(chunk)[i] == chunk[2 * i]
  {
    if |chunk| >= 2 {
      var rest := chunk[2..];
      DownmixShape(rest);
      var m := Downmix(chunk);
      forall i | 1 <= i < |m|
        ensures if 2 * i + 1 < |chunk| then m[i] == 0.5 * (chunk[2 * i] + chunk[2 * i + 1])
          else 2 * i == |chunk| - 1 && m[i] == chunk[2 * i]
      {
        assert m[i] == Downmix(rest)[i - 1];
        assert rest[2 * (i - 1)] == chunk[2 * i];
        if 2 * i + 1 < |chunk| {
          assert rest[2 * (i - 1) + 1] == chunk[2 * i + 1];
        }
      }
    }
  }

  /** The session's mono audio: the downmix of every captured chunk, in order. */
  function MonoOf(chunks: seq<seq<real>>): seq<real>
  {
    if chunks == [] then [] else MonoOf(chunks[..|chunks| - 1]) + Downmix(chunks[|chunks| - 1])
  }

  /** The number of non-empty chunks. */
  function NonEmptyCount(chunks: seq<seq<real>>): (n: nat)
    ensures n <= |chunks|
    ensures n == 0 <==> forall i :: 0 <= i < |chunks| ==> chunks[i] == []
  {
    if chunks == [] then 0
    else NonEmptyCount(chunks[..|chunks| - 1]) + if chunks[|chunks| - 1] == [] then 0 else 1
  }

  /** The capture loop of the processing thread: `chunks` are what
      `collect_audio_chunk` returned on each pass while recording was on;
      empty ones are skipped, the others downmixed and appended, each with
      one level-meter update. Returns the mono audio and the number of
      level-meter updates sent. */
  method CaptureSession(chunks: seq<seq<real>>) returns (mono: seq<real>, meterUpdates: nat)
    ensures mono == MonoOf(chunks)
    ensures meterUpdates == NonEmptyCount(chunks)
    ensures meterUpdates <= |chunks|
    ensures meterUpdates == 0 <==> forall i :: 0 <= i < |chunks| ==> chunks[i] == []
  {
    mono := [];
    meterUpdates := 0;
    var i := 0;
    while i < |chunks|
      invariant 0 <= i <= |chunks| && mono == MonoOf(chunks[..i])
      invariant meterUpdates == NonEmptyCount(chunks[..i])
    {
      assert chunks[..i + 1][..i] == chunks[..i];
      var chunk := chunks[i];
      i := i + 1;
      if chunk == [] {
        continue;
      }
      meterUpdates := meterUpdates + 1;
      mono := mono + Downmix(chunk);
    }
    assert chunks[..|chunks|] == chunks;
  }

  datatype Sound = EndingSound | ErrorSound

  /** One step of the end of a session, in the order the thread takes it. */
  datatype Effect =
    | Emit(event: Event)
    | Record(success: bool, transcriptionLength: nat, errorMessage: Option<string>)
    | Resize(width: nat, height: nat)
    | HideWave
    | ResetCounter
    | Inject(text: string)
    | Play(sound: Sound)

  const EmptyTranscription: string := "Empty transcription"

  /** Collapsing the wave window, when it exists: reset the pill, shrink
      it to 200 by 80, hide it. */
  function Collapse(windowExists: bool): (r: seq<Effect>)
    ensures forall e :: e in r ==> !e.Record? && !e.ResetCounter? && (e.Emit? ==> e.event == WaveReset)
  {
    if windowExists then [Emit(WaveReset), Resize(WaveWidthCompact, WaveHeight), HideWave] else []
  }

  /** What the processing thread does once recording has stopped, in
      order. `cancelled` is the value taken from the cancel flag, `mono` the
      captured audio, `result` what the transcription service returned (it
      is only asked when there is audio) and `injectOk` whether typing the
      text succeeded. Every path reports its outcome, collapses the window
      and resets the counter; only a transcript is typed afterwards. */
  function Finish(cancelled: bool, mono: seq<real>, result: Result<string>, windowExists: bool, injectOk: bool): seq<Effect>
  {
    Outcome(cancelled, mono, result) + Collapse(windowExists) + AfterCollapse(cancelled, mono, result, injectOk)
  }

  /** A transcript that is to be typed. */
  predicate Transcribed(cancelled: bool, mono: seq<real>, result: Result<string>)
  {
    !cancelled && mono != [] && result.Ok? && !IsBlank(result.value)
  }

  /** The steps before the window collapses: the outcome events and the
      session record. */
  function Outcome(cancelled: bool, mono: seq<real>, result: Result<string>): seq<Effect>
  {
    if cancelled then [Emit(TranscriptionCancelled)]
    else if mono == [] then [Emit(TranscriptionCompleted(""))]
    else
      match result
      case Ok(text) =>
        if !IsBlank(text) then
          [Emit(TranscriptionStarted), Record(true, Utf8Length(text), None), Emit(TranscriptionCompleted(text))]
        else
          [Emit(TranscriptionStarted), Record(true, 0, Some(EmptyTranscription)), Emit(TranscriptionCompleted(""))]
      case Err(message) =>
        [Emit(TranscriptionStarted), Record(false, 0, Some(message)), Play(ErrorSound), Emit(TranscriptionError(message))]
  }

  /** The steps after the collapse: the counter reset, then, for a
      transcript, typing it and the sound that tells how that went. */
  function AfterCollapse(cancelled: bool, mono: seq<real>, result: Result<string>, injectOk: bool): seq<Effect>
  {
    if Transcribed(cancelled, mono, result) then
      [ResetCounter, Inject(result.value), Play(if injectOk then EndingSound else ErrorSound)]
    else [ResetCounter]
  }

  /** How many effects of `effects` satisfy `p`. */
  function CountOf(effects: seq<Effect>, p: Effect -> bool): nat
  {
    if effects == [] then 0 else (if p(effects[0]) then 1 else 0) + CountOf(effects[1..], p)
  }

  lemma {:induction false} CountOfAppend(a: seq<Effect>, b: seq<Effect>, p: Effect -> bool)
    ensures CountOf(a + b, p) == CountOf(a, p) + CountOf(b, p)
  {
    if a == [] {
      assert a + b == b;
    } else {
      assert (a + b)[1..] == a[1..] + b;
      CountOfAppend(a[1..], b, p);
    }
  }

  /** `CountOf` written out for a sequence of at most four effects. */
  lemma CountOfShort(a: seq<Effect>, p: Effect -> bool)
    requires |a| <= 4
    ensures CountOf(a, p) ==
      (if |a| > 0 && p(a[0]) then 1 else 0) + (if |a| > 1 && p(a[1]) then 1 else 0)
      + (if |a| > 2 && p(a[2]) then 1 else 0) + (if |a| > 3 && p(a[3]) then 1 else 0)
  {
    if a != [] {
      var b := a[1..];
      if b != [] {
        var c := b[1..];
        if c != [] {
          assert c[1..] == [] || c[1..][1..] == [];
        }
      }
    }
  }

  lemma {:induction false} CountOfNone(a: seq<Effect>, p: Effect -> bool)
    requires forall e :: e in a ==> !p(e)
    ensures CountOf(a, p) == 0
  {
    if a != [] {
      assert forall e :: e in a[1..] ==> e in a;
      CountOfNone(a[1..], p);
    }
  }

  predicate IsOutcomeEvent(e: Effect) { e.Emit? && e.event.IsOutcome() }
  predicate IsRecord(e: Effect) { e.Record? }
  predicate IsReset(e: Effect) { e.ResetCounter? }

  lemma CountThrough(head: seq<Effect>, c: seq<Effect>, rest: seq<Effect>, p: Effect -> bool)
    requires forall e :: e in c ==> !p(e)
    requires forall e :: e in rest ==> !p(e)
    ensures CountOf(head + c + ([ResetCounter] + rest), p) == CountOf(head, p) + if p(ResetCounter) then 1 else 0
  {
    CountOfNone(c, p);
    CountOfNone(rest, p);
    CountOfAppend(head, c, p);
    CountOfAppend(head + c, [ResetCounter] + rest, p);
    CountOfAppend([ResetCounter], rest, p);
    assert [ResetCounter][1..] == [];
  }

  lemma OutcomeCounts(cancelled: bool, mono: seq<real>, result: Result<string>)
    ensures var head := Outcome(cancelled, mono, result);
      && CountOf(head, IsOutcomeEvent) == 1
      && CountOf(head, IsReset) == 0
      && CountOf(head, IsRecord) == if !cancelled && mono != [] then 1 else 0
  {
    var head := Outcome(cancelled, mono, result);
    CountOfShort(head, IsOutcomeEvent);
    CountOfShort(head, IsReset);
    CountOfShort(head, IsRecord);
  }

  lemma AfterCollapseShape(cancelled: bool, mono: seq<real>, result: Result<string>, injectOk: bool)
    ensures var tail := AfterCollapse(cancelled, mono, result, injectOk);
      && tail == [ResetCounter] + tail[1..]
      && forall e :: e in tail[1..] ==> !e.Emit? && !e.ResetCounter? && !e.Record?
  {
  }

  /** Every path reports exactly one outcome (completed, error or
      cancelled), records at most one session and resets the window
      counter exactly once. */
  lemma FinishCounts(cancelled: bool, mono: seq<real>, result: Result<string>, windowExists: bool, injectOk: bool)
    ensures var fx := Finish(cancelled, mono, result, windowExists, injectOk);
      && CountOf(fx, IsOutcomeEvent) == 1
      && CountOf(fx, IsReset) == 1
      && CountOf(fx, IsRecord) == (if !cancelled && mono != [] then 1 else 0)
  {
    var head := Outcome(cancelled, mono, result);
    var tail := AfterCollapse(cancelled, mono, result, injectOk);
    var c := Collapse(windowExists);
    OutcomeCounts(cancelled, mono, result);
    AfterCollapseShape(cancelled, mono, result, injectOk);
    CountThrough(head, c, tail[1..], IsOutcomeEvent);
    CountThrough(head, c, tail[1..], IsReset);
    CountThrough(head, c, tail[1..], IsRecord);
  }

  /** The counter is reset only after every event of the session has been
      emitted. */
  lemma FinishResetsAfterEvents(cancelled: bool, mono: seq<real>, result: Result<string>, windowExists: bool, injectOk: bool)
    ensures var fx := Finish(cancelled, mono, result, windowExists, injectOk);
      exists k :: 0 <= k < |fx| && fx[k] == ResetCounter && forall j :: k < j < |fx| ==> !fx[j].Emit?
  {
    var fx := Finish(cancelled, mono, result, windowExists, injectOk);
    var head := Outcome(cancelled, mono, result);
    var tail := AfterCollapse(cancelled, mono, result, injectOk);
    var c := Collapse(windowExists);
    AfterCollapseShape(cancelled, mono, result, injectOk);
    var k := |head + c|;
    assert fx[k] == ResetCounter;
    forall j | k < j < |fx| ensures !fx[j].Emit? {
      assert fx[j] == tail[1..][j - k - 1];
    }
  }

  /** A cancelled session only reports the cancellation, collapses the
      window and resets the counter: nothing is transcribed, recorded,
      typed or played. */
  lemma FinishCancelled(mono: seq<real>, result: Result<string>, windowExists: bool, injectOk: bool)
    ensures var fx := Finish(true, mono, result, windowExists, injectOk);
      && fx[0] == Emit(TranscriptionCancelled)
      && (windowExists ==> fx[1] == Emit(WaveReset))
      && fx[|fx| - 1] == ResetCounter
      && forall e :: e in fx ==> !e.Record? && !e.Inject? && !e.Play? && e != Emit(TranscriptionStarted)
  {
  }

  /** "transcription-started" is emitted exactly when the session was not
      cancelled and captured some audio; without audio the outcome is an
      empty completion and nothing is recorded. */
  lemma FinishStartedIffAudio(cancelled: bool, mono: seq<real>, result: Result<string>, windowExists: bool, injectOk: bool)
    ensures var fx := Finish(cancelled, mono, result, windowExists, injectOk);
      (Emit(TranscriptionStarted) in fx <==> !cancelled && mono != [])
    ensures !cancelled && mono == [] ==>
      var fx := Finish(cancelled, mono, result, windowExists, injectOk);
      fx[0] == Emit(TranscriptionCompleted("")) && forall e :: e in fx ==> !e.Record?
  {
  }

  /** A non-blank transcript is recorded as a success with its UTF-8
      length, reported, and then typed; the ending sound follows a
      successful injection and the error sound a failed one. */
  lemma FinishTranscribed(mono: seq<real>, text: string, windowExists: bool, injectOk: bool)
    requires mono != [] && !IsBlank(text)
    ensures var fx := Finish(false, mono, Ok(text), windowExists, injectOk);
      && fx[..3] == [Emit(TranscriptionStarted), Record(true, Utf8Length(text), None), Emit(TranscriptionCompleted(text))]
      && fx[|fx| - 3..] == [ResetCounter, Inject(text), Play(if injectOk then EndingSound else ErrorSound)]
  {
  }

  /** A blank transcript counts as a successful session marked "Empty
      transcription"; a failed one is recorded as a failure, sounds the
      error and reports the message. */
  lemma FinishBlankOrFailed(mono: seq<real>, result: Result<string>, windowExists: bool, injectOk: bool)
    requires mono != [] && (result.Err? || IsBlank(result.value))
    ensures var fx := Finish(false, mono, result, windowExists, injectOk);
      && fx[|fx| - 1] == ResetCounter
      && (result.Ok? ==> fx[..3] == [Emit(TranscriptionStarted), Record(true, 0, Some(EmptyTranscription)), Emit(TranscriptionCompleted(""))])
      && (result.Err? ==> fx[..4] == [Emit(TranscriptionStarted), Record(false, 0, Some(result.error)), Play(ErrorSound), Emit(TranscriptionError(result.error))])
      && forall e :: e in fx ==> !e.Inject?
  {
    var head := Outcome(false, mono, result);
    var c := Collapse(windowExists);
    assert !Transcribed(false, mono, result);
    assert AfterCollapse(false, mono, result, injectOk) == [ResetCounter];
    var fx := head + c + [ResetCounter];
    assert (head + c + [ResetCounter])[..|head|] == head;
  }

  /** The session `record_session` builds. Its transcription length is
      the byte length of the text. */
  function SessionOf(id: string, now: int, audioDurationMs: nat, processingDurationMs: nat,
                     transcription: string, success: bool, errorMessage: Option<string>): Usage.RecordingSession
  {
    Usage.RecordingSession(id, now, processingDurationMs, audioDurationMs,
      Utf8Length(transcription), transcription, processingDurationMs, success, errorMessage)
  }

  /** `record_session` as written: the usage statistics are loaded into a
      local copy, which `add_recording` updates and nothing saves, so the
      stored statistics `stored` keep no trace of the session; the analytics
      update saves itself. `local` is the discarded copy. The session id,
      the clock and today's date are passed in. */
  method RecordSession(stored: Usage.UsageStats, analytics: Analytics.AnalyticsData,
                       id: string, now: int, today: string,
                       audioDurationMs: nat, processingDurationMs: nat,
                       transcription: string, success: bool, errorMessage: Option<string>)
    returns (local: Usage.UsageStats)
    modifies analytics
    ensures fresh(local)
    ensures var session := SessionOf(id, now, audioDurationMs, processingDurationMs, transcription, success, errorMessage);
      && local.sessions == Usage.SessionsAfter(stored.sessions, session)
      && local.totalRecordings == stored.totalRecordings + 1
    ensures stored.totalRecordings == old(stored.totalRecordings) && stored.sessions == old(stored.sessions)
    ensures analytics.dailyStats == Analytics.Updated(old(analytics.dailyStats), today, audioDurationMs, Utf8Length(transcription))
  {
    var length := Utf8Length(transcription);
    var session := SessionOf(id, now, audioDurationMs, processingDurationMs, transcription, success, errorMessage);
    local := new Usage.UsageStats.Load(stored);
    local.AddRecording(session);
    analytics.UpdateWithRecording(today, audioDurationMs, length);
  }

  /** One session recorded by `RecordSession` into empty stores: the
      analytics then hold one day, while the stored usage statistics still
      count no recording and only the discarded copy counts one. */
  method RecordSessionLosesUsage() returns (storedRecordings: nat, copyRecordings: nat, analyticsDays: nat)
    ensures storedRecordings == 0 && copyRecordings == 1 && analyticsDays == 1
  {
    var stored := new Usage.UsageStats.Default(0);
    var analytics := new Analytics.AnalyticsData();
    var local := RecordSession(stored, analytics, "s", 0, "2025-01-01", 1000, 200, "hi", true, None);
    Analytics.UpsertNewDay([], "2025-01-01", 1000, Utf8Length("hi"));
    storedRecordings, copyRecordings, analyticsDays := stored.totalRecordings, local.totalRecordings, |analytics.dailyStats|;
  }

  /** `record_session` as evidently intended: the session reaches the
      stored usage statistics as well as today's analytics. */
  method RecordSessionSaved(stats: Usage.UsageStats, analytics: Analytics.AnalyticsData,
                            id: string, now: int, today: string,
                            audioDurationMs: nat, processingDurationMs: nat,
                            transcription: string, success: bool, errorMessage: Option<string>)
    modifies stats, analytics
    ensures var session := SessionOf(id, now, audioDurationMs, processingDurationMs, transcription, success, errorMessage);
      && stats.sessions == Usage.SessionsAfter(old(stats.sessions), session)
      && stats.totalRecordings == old(stats.totalRecordings) + 1
      && stats.totalCharactersTranscribed == old(stats.totalCharactersTranscribed) + Utf8Length(transcription)
      && stats.lastUse == now
      && (old(stats.Valid()) ==> stats.Valid())
    ensures analytics.dailyStats == Analytics.Updated(old(analytics.dailyStats), today, audioDurationMs, Utf8Length(transcription))
  {
    var length := Utf8Length(transcription);
    var session := SessionOf(id, now, audioDurationMs, processingDurationMs, transcription, success, errorMessage);
    stats.AddRecording(session);
    analytics.UpdateWithRecording(today, audioDurationMs, length);
  }
}
