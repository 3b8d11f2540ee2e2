/** The wave-window gate and the recording commands of
    src-tauri/src/modules/ui/commands.rs, with the end of the processing
    thread that feeds back into them. Window-system calls whose failure
    changes the course of a command (creating, showing, closing the window)
    are passed in as booleans; resizing and hiding are taken to succeed, as
    the commands ignore their results. */
module Commands {
  import opened Wrappers
  import opened Strings
  import opened Events
  import opened Recorder
  import opened Processor

  /** A snapshot of everything the commands read and change: the
      `WAVE_WINDOW_COUNT` counter, the wave window, the `WINDOW_VISIBLE`
      flag, the recorder and processor flags, the cancel flag, and the
      events emitted so far. */
  datatype Ui = Ui(
    count: nat,
    windowExists: bool,
    visible: bool,
    width: nat,
    height: nat,
    visibleFlag: bool,
    hasSender: bool,
    recording: bool,
    processing: bool,
    cancelRequested: bool,
    events: seq<Event>)

  /** The state after a command and what the command returned. */
  datatype After = After(ui: Ui, result: Result<Unit>)

  /** What the commands keep true: at most one wave window is counted, a
      window that does not exist is not visible, and the processor runs
      exactly while the recorder records. */
  predicate Inv(u: Ui)
  {
    u.count <= 1 && (!u.windowExists ==> !u.visible) && u.processing == u.recording
  }

  /** `create_wave_window`, reached only when the window is missing: an
      invisible 80 by 80 window. */
  function Created(u: Ui): Ui
  {
    u.(windowExists := true, visible := false, width := BubbleSize, height := BubbleSize)
  }

  /** `show_wave_window`. */
  function Show(u: Ui, createOk: bool, showOk: bool): After
  {
    if u.count > 0 then After(u, Ok(Unit))
    else if !u.windowExists && !createOk then After(u, Err("wave window could not be created"))
    else
      var w := if u.windowExists then u else Created(u);
      if w.visible then
        After(w.(width := BubbleSize, height := BubbleSize, events := w.events + [WaveReset]), Ok(Unit))
      else if showOk then
        After(w.(count := w.count + 1, width := BubbleSize, height := BubbleSize, visible := true,
                 visibleFlag := true, events := w.events + [WaveReset]), Ok(Unit))
      else
        After(w.(width := BubbleSize, height := BubbleSize), Err("wave window could not be shown"))
  }

  /** `hide_wave_window`: closes the window and gives back its count. */
  function Hide(u: Ui, createOk: bool, closeOk: bool): After
  {
    if !u.windowExists && !createOk then After(u, Err("wave window could not be created"))
    else
      var w := if u.windowExists then u else Created(u);
      var closed := if closeOk then w.(windowExists := false, visible := false) else w;
      After(closed.(visibleFlag := false, count := if closed.count > 0 then closed.count - 1 else 0), Ok(Unit))
  }

  /** `toggle_wave_window`; `minimized` is what the window reports. */
  function ToggleWindow(u: Ui, minimized: bool, createOk: bool, showOk: bool, closeOk: bool): After
  {
    if !u.windowExists then After(u, Ok(Unit))
    else if minimized || !u.visible then Show(u, createOk, showOk)
    else Hide(u, createOk, closeOk)
  }

  /** `start_recording`, through `start_speech_to_text_session`. */
  function Start(u: Ui): After
  {
    if u.recording then After(u, Ok(Unit))
    else if !u.hasSender then After(u, Err(SenderUnavailable))
    else After(u.(recording := true, processing := true, events := u.events + [RecordingStarted]), Ok(Unit))
  }

  /** `stop_recording`, through `stop_speech_to_text_session`. */
  function Stop(u: Ui): After
  {
    if !u.recording then After(u, Ok(Unit))
    else After(u.(recording := false, processing := false, events := u.events + [RecordingStopped]), Ok(Unit))
  }

  function ToggleRecording(u: Ui): After
  {
    if u.recording then Stop(u) else Start(u)
  }

  /** Runs `next` after `a` unless `a` failed (Rust's `?`). */
  function AndThen(a: After, next: Ui -> After): After
  {
    if a.result.Err? then a else next(a.ui)
  }

  /** `toggle_wave_window_and_recording`. */
  function ToggleBoth(u: Ui, createOk: bool, showOk: bool, closeOk: bool): After
  {
    if !u.windowExists then After(u, Ok(Unit))
    else if u.visible && u.recording then AndThen(Stop(u), v => Hide(v, createOk, closeOk))
    else if u.visible then Start(u)
    else AndThen(Show(u, createOk, showOk), Start)
  }

  /** `show_wave_window_and_start_recording`. */
  function ShowAndStart(u: Ui, createOk: bool, showOk: bool): After
  {
    AndThen(Show(u, createOk, showOk), Start)
  }

  /** `stop_recording_and_process`: widens the window for the processing
      view and asks the front-end to expand, whether or not a recording
      was stopped. */
  function StopAndProcess(u: Ui): After
  {
    var v := Stop(u).ui;
    var w := if v.windowExists then v.(width := WaveWidthCompact, height := WaveHeight) else v;
    After(w.(events := w.events + [ExpandForProcessing]), Ok(Unit))
  }

  /** `cancel_processing`. */
  function Cancel(u: Ui): After
  {
    var v := u.(cancelRequested := true);
    var s := if v.recording then Stop(v).ui else v;
    var h := if s.windowExists then s.(width := BubbleSize, height := BubbleSize, visible := false) else s;
    After(h.(count := 0), Ok(Unit))
  }

  /** `reset_wave_window_counter` and its internal twin. */
  function Reset(u: Ui): Ui
  {
    u.(count := 0)
  }

  /** The window-side effect of one step of the processing thread's end. */
  function Effected(u: Ui, e: Effect): Ui
  {
    match e
    case Emit(event) => u.(events := u.events + [event])
    case Resize(w, h) => u.(width := w, height := h)
    case HideWave => u.(visible := false)
    case ResetCounter => u.(count := 0)
    case _ => u
  }

  function Effects(u: Ui, fx: seq<Effect>): Ui
  {
    if fx == [] then u else Effected(Effects(u, fx[..|fx| - 1]), fx[|fx| - 1])
  }

  /** The processing thread once recording has stopped: it takes the
      cancel flag and goes through `Finish`. */
  function FinishSession(u: Ui, mono: seq<real>, result: Result<string>, injectOk: bool): Ui
  {
    Effects(u.(cancelRequested := false), Finish(u.cancelRequested, mono, result, u.windowExists, injectOk))
  }

  // ---------------------------------------------------------------------
  // Properties of the commands

  /** `show_wave_window` with a window already counted does nothing; with
      the window already on screen it only shrinks it to 80 by 80 and
      resets the pill, leaving the counter alone. */
  lemma ShowWhenCountedOrVisible(u: Ui, createOk: bool, showOk: bool)
    ensures u.count > 0 ==> Show(u, createOk, showOk) == After(u, Ok(Unit))
    ensures u.count == 0 && u.windowExists && u.visible ==>
      Show(u, createOk, showOk) == After(u.(width := BubbleSize, height := BubbleSize, events := u.events + [WaveReset]), Ok(Unit))
  {
  }

  /** The counter goes from 0 to 1 only when the window is actually shown;
      a failed show leaves it at 0 and reports an error. */
  lemma ShowCounts(u: Ui, createOk: bool, showOk: bool)
    ensures var a := Show(u, createOk, showOk);
      (a.ui.count == u.count + 1 <==> u.count == 0 && (u.windowExists || createOk) && !(u.windowExists && u.visible) && showOk)
    ensures var a := Show(u, createOk, showOk);
      a.ui.count != u.count + 1 ==> a.ui.count == u.count
    ensures var a := Show(u, createOk, showOk);
      a.ui.count == u.count + 1 ==> a.result.Ok? && a.ui.visible && a.ui.visibleFlag
  {
  }

  /** `show_wave_window` fails only on an uncounted window that could not be
      created, or that was hidden and could not be shown. */
  lemma ShowFails(u: Ui, createOk: bool, showOk: bool)
    ensures Show(u, createOk, showOk).result.Err? <==>
      u.count == 0 && (!(u.windowExists || createOk) || (!(u.windowExists && u.visible) && !showOk))
  {
  }

  /** `hide_wave_window` clears the visible flag and takes one off a
      positive counter, never going below 0. */
  lemma HideCounts(u: Ui, createOk: bool, closeOk: bool)
    ensures var a := Hide(u, createOk, closeOk);
      a.result.Ok? ==> !a.ui.visibleFlag && a.ui.count == (if u.count > 0 then u.count - 1 else 0)
    ensures var a := Hide(u, createOk, closeOk);
      a.result.Ok? && closeOk ==> !a.ui.windowExists && !a.ui.visible
    ensures Hide(u, createOk, closeOk).result.Err? <==> !u.windowExists && !createOk
  {
  }

  /** Starting while recording emits nothing; otherwise "recording-started"
      comes only after the session started, and a failed start emits
      nothing. */
  lemma StartRecordingEvents(u: Ui)
    ensures u.recording ==> Start(u) == After(u, Ok(Unit))
    ensures !u.recording && Start(u).result.Ok? ==>
      Start(u).ui.recording && Start(u).ui.processing && Start(u).ui.events == u.events + [RecordingStarted]
    ensures !u.recording && Start(u).result.Err? ==> Start(u).ui == u
    ensures Start(u).result.Err? <==> !u.recording && !u.hasSender
  {
  }

  /** Stopping when idle emits nothing; otherwise it stops both the
      recorder and the processor and emits "recording-stopped". */
  lemma StopRecordingEvents(u: Ui)
    ensures !u.recording ==> Stop(u) == After(u, Ok(Unit))
    ensures u.recording ==>
      !Stop(u).ui.recording && !Stop(u).ui.processing && Stop(u).ui.events == u.events + [RecordingStopped]
    ensures Stop(u).result.Ok? && !Stop(u).ui.recording
  {
  }

  /** The decision table of `toggle_wave_window_and_recording`. */
  lemma ToggleBothTable(u: Ui, createOk: bool, showOk: bool, closeOk: bool)
    ensures !u.windowExists ==> ToggleBoth(u, createOk, showOk, closeOk) == After(u, Ok(Unit))
    ensures u.windowExists && u.visible && u.recording ==>
      ToggleBoth(u, createOk, showOk, closeOk) == Hide(Stop(u).ui, createOk, closeOk)
    ensures u.windowExists && u.visible && !u.recording ==>
      ToggleBoth(u, createOk, showOk, closeOk) == Start(u)
    ensures u.windowExists && !u.visible ==>
      ToggleBoth(u, createOk, showOk, closeOk) == ShowAndStart(u, createOk, showOk)
  {
  }

  /** `stop_recording_and_process` always ends with "expand-for-processing"
      and, when the window exists, a 200 by 80 window, even when nothing
      was recording. */
  lemma StopAndProcessExpands(u: Ui)
    ensures var v := StopAndProcess(u).ui;
      && v.events[|v.events| - 1] == ExpandForProcessing
      && !v.recording
      && (u.windowExists ==> v.width == WaveWidthCompact && v.height == WaveHeight)
      && v.count == u.count
    ensures !u.recording ==> StopAndProcess(u).ui.events == u.events + [ExpandForProcessing]
  {
  }

  /** `cancel_processing` leaves the counter at 0, recording off, the cancel
      flag raised and the window, if any, hidden at 80 by 80. */
  lemma CancelEndsIdle(u: Ui)
    ensures var v := Cancel(u).ui;
      && v.count == 0 && !v.recording && (v.processing <==> u.processing && !u.recording)
      && v.cancelRequested && v.windowExists == u.windowExists
      && (u.windowExists ==> !v.visible && v.width == BubbleSize && v.height == BubbleSize)
  {
  }

  lemma {:induction false} EffectsAppend(u: Ui, a: seq<Effect>, b: seq<Effect>)
    ensures Effects(u, a + b) == Effects(Effects(u, a), b)
    decreases |b|
  {
    if b == [] {
      assert a + b == a;
    } else {
      assert (a + b)[..|a + b| - 1] == a + b[..|b| - 1];
      EffectsAppend(u, a, b[..|b| - 1]);
    }
  }

  lemma EffectedFrame(u: Ui, e: Effect)
    ensures var v := Effected(u, e);
      && v.recording == u.recording && v.processing == u.processing
      && v.windowExists == u.windowExists && v.cancelRequested == u.cancelRequested
      && (v.count == u.count || v.count == 0)
      && (v.visible ==> u.visible)
  {
    match e {
      case Emit(_) =>
      case Resize(_, _) =>
      case HideWave =>
      case ResetCounter =>
      case _ =>
    }
  }

  /** The window-side steps only ever reset the counter and hide the
      window; they leave the recorder, the cancel flag and the window's
      existence alone. */
  lemma {:induction false} EffectsFrame(u: Ui, fx: seq<Effect>)
    ensures var v := Effects(u, fx);
      && v.recording == u.recording && v.processing == u.processing
      && v.windowExists == u.windowExists && v.cancelRequested == u.cancelRequested
      && (v.count == u.count || v.count == 0)
      && (v.visible ==> u.visible)
    decreases |fx|
  {
    if fx != [] {
      EffectsFrame(u, fx[..|fx| - 1]);
      EffectedFrame(Effects(u, fx[..|fx| - 1]), fx[|fx| - 1]);
    }
  }

  /** Collapsing the window resets the pill, widens the window to 200 by
      80 and hides it; with no window there is nothing to do. */
  lemma CollapseEffects(v: Ui, windowExists: bool)
    ensures windowExists ==> (Effects(v, Collapse(windowExists)) ==
      v.(events := v.events + [WaveReset], width := WaveWidthCompact, height := WaveHeight, visible := false))
    ensures !windowExists ==> Effects(v, Collapse(windowExists)) == v
  {
    if windowExists {
      var c := Collapse(windowExists);
      assert Effects(v, c[..1]) == Effected(v, c[0]) by {
        assert c[..1][..0] == [];
      }
      assert Effects(v, c[..2]) == Effected(Effects(v, c[..1]), c[1]) by {
        assert c[..2][..1] == c[..1];
      }
      assert c[..2] == c[..|c| - 1];
    }
  }

  /** After the collapse, only the counter reset touches the window state. */
  lemma AfterCollapseEffects(v: Ui, cancelled: bool, mono: seq<real>, result: Result<string>, injectOk: bool)
    ensures Effects(v, AfterCollapse(cancelled, mono, result, injectOk)) == v.(count := 0)
  {
    var t := AfterCollapse(cancelled, mono, result, injectOk);
    assert Effects(v, t[..1]) == v.(count := 0) by {
      assert t[..1][..0] == [];
    }
    if |t| == 3 {
      assert Effects(v, t[..2]) == v.(count := 0) by {
        assert t[..2][..1] == t[..1];
      }
      assert t[..2] == t[..|t| - 1];
    } else {
      assert t[..1] == t;
    }
  }

  /** Whatever the outcome, the processing thread leaves the counter at 0,
      clears the cancel flag, keeps the recorder as it was and, when the
      window exists, leaves it hidden at 200 by 80. */
  lemma FinishSessionResets(u: Ui, mono: seq<real>, result: Result<string>, injectOk: bool)
    ensures var v := FinishSession(u, mono, result, injectOk);
      && v.count == 0 && !v.cancelRequested
      && v.recording == u.recording && v.processing == u.processing && v.windowExists == u.windowExists
      && (v.visible ==> u.visible)
      && (u.windowExists ==> !v.visible && v.width == WaveWidthCompact && v.height == WaveHeight)
  {
    var u0 := u.(cancelRequested := false);
    var head := Outcome(u.cancelRequested, mono, result);
    var c := Collapse(u.windowExists);
    var tail := AfterCollapse(u.cancelRequested, mono, result, injectOk);
    EffectsAppend(u0, head + c, tail);
    EffectsAppend(u0, head, c);
    EffectsFrame(u0, head);
    var v1 := Effects(u0, head);
    CollapseEffects(v1, u.windowExists);
    AfterCollapseEffects(Effects(v1, c), u.cancelRequested, mono, result, injectOk);
  }

  /** Every command keeps the invariant, so the counter never exceeds 1. */
  lemma ShowKeepsInv(u: Ui, createOk: bool, showOk: bool)
    requires Inv(u)
    ensures Inv(Show(u, createOk, showOk).ui)
  {
  }

  lemma HideKeepsInv(u: Ui, createOk: bool, closeOk: bool)
    requires Inv(u)
    ensures Inv(Hide(u, createOk, closeOk).ui)
  {
  }

  lemma ToggleWindowKeepsInv(u: Ui, minimized: bool, createOk: bool, showOk: bool, closeOk: bool)
    requires Inv(u)
    ensures Inv(ToggleWindow(u, minimized, createOk, showOk, closeOk).ui)
  {
    ShowKeepsInv(u, createOk, showOk);
    HideKeepsInv(u, createOk, closeOk);
  }

  lemma RecordingCommandsKeepInv(u: Ui)
    requires Inv(u)
    ensures Inv(Start(u).ui) && Inv(Stop(u).ui) && Inv(ToggleRecording(u).ui)
    ensures Inv(StopAndProcess(u).ui) && Inv(Cancel(u).ui) && Inv(Reset(u))
  {
  }

  lemma CombinedCommandsKeepInv(u: Ui, createOk: bool, showOk: bool, closeOk: bool)
    requires Inv(u)
    ensures Inv(ToggleBoth(u, createOk, showOk, closeOk).ui)
    ensures Inv(ShowAndStart(u, createOk, showOk).ui)
  {
    RecordingCommandsKeepInv(u);
    ShowKeepsInv(u, createOk, showOk);
    var s := Stop(u).ui;
    RecordingCommandsKeepInv(s);
    HideKeepsInv(s, createOk, closeOk);
    var w := Show(u, createOk, showOk).ui;
    RecordingCommandsKeepInv(w);
  }

  lemma FinishSessionKeepsInv(u: Ui, mono: seq<real>, result: Result<string>, injectOk: bool)
    requires Inv(u)
    ensures Inv(FinishSession(u, mono, result, injectOk))
  {
    FinishSessionResets(u, mono, result, injectOk);
  }

  /** A session that ends with the cancel flag raised only adds
      "transcription-cancelled" and, with a window, the collapse's
      "wave-reset" to the events. */
  lemma CancelledSessionEvents(v: Ui, mono: seq<real>, result: Result<string>, injectOk: bool)
    requires v.cancelRequested
    ensures FinishSession(v, mono, result, injectOk).events
      == v.events + [TranscriptionCancelled] + (if v.windowExists then [WaveReset] else [])
  {
    var v0 := v.(cancelRequested := false);
    var head := Outcome(true, mono, result);
    var c := Collapse(v.windowExists);
    var tail := AfterCollapse(true, mono, result, injectOk);
    EffectsAppend(v0, head + c, tail);
    EffectsAppend(v0, head, c);
    assert head[..0] == [];
    var v1 := Effects(v0, head);
    assert v1 == v0.(events := v.events + [TranscriptionCancelled]);
    CollapseEffects(v1, v.windowExists);
    AfterCollapseEffects(Effects(v1, c), true, mono, result, injectOk);
  }

  /** The cancel flag is cleared only when the processing thread takes it,
      so a cancel issued while nothing is recording carries over: after
      cancel, start and stop, the next session ends as cancelled, with no
      transcription and nothing recorded, even when audio was captured. */
  lemma CancelCarriesOver(u: Ui, mono: seq<real>, result: Result<string>, injectOk: bool)
    requires !u.recording && u.hasSender
    ensures var v := Stop(Start(Cancel(u).ui).ui).ui;
      var fx := Finish(v.cancelRequested, mono, result, v.windowExists, injectOk);
      && v.cancelRequested
      && fx[0] == Emit(TranscriptionCancelled)
      && Emit(TranscriptionStarted) !in fx
      && forall e :: e in fx ==> !e.Record? && !e.Inject?
    ensures var v := Stop(Start(Cancel(u).ui).ui).ui;
      FinishSession(v, mono, result, injectOk).events
        == v.events + [TranscriptionCancelled] + (if v.windowExists then [WaveReset] else [])
  {
    var v := Stop(Start(Cancel(u).ui).ui).ui;
    assert v.cancelRequested;
    FinishCancelled(mono, result, v.windowExists, injectOk);
    CancelledSessionEvents(v, mono, result, injectOk);
  }

  // ---------------------------------------------------------------------
  // The global state and the commands on it

  class AppState {
    var count: nat
    var windowExists: bool
    var visible: bool
    var width: nat
    var height: nat
    var visibleFlag: bool
    var events: seq<Event>
    const audio: AudioState
    const processor: AudioProcessor
    const cancel: CancelFlag

    ghost function Snapshot(): Ui
      reads this, audio, processor, cancel
    {
      Ui(count, windowExists, visible, width, height, visibleFlag,
         audio.hasSender, audio.isRecording, processor.isProcessing, cancel.requested, events)
    }

    ghost predicate Valid()
      reads this, audio, processor, cancel
    {
      Inv(Snapshot())
    }

    /** The state at start-up: no wave window yet, counter 0, nothing
        recording. */
    constructor ()
      ensures Valid() && fresh(audio) && fresh(processor) && fresh(cancel)
      ensures Snapshot() == Ui(0, false, false, BubbleSize, BubbleSize, false, true, false, false, false, [])
    {
      count := 0;
      windowExists := false;
      visible := false;
      width, height := BubbleSize, BubbleSize;
      visibleFlag := false;
      events := [];
      audio := new AudioState();
      processor := new AudioProcessor();
      cancel := new CancelFlag();
    }

    method CreateWaveWindow()
      modifies this
      ensures Snapshot() == Created(old(Snapshot()))
    {
      windowExists := true;
      visible := false;
      width, height := BubbleSize, BubbleSize;
    }

    method ShowWaveWindow(createOk: bool, showOk: bool) returns (r: Result<Unit>)
      requires Valid()
      modifies this
      ensures Valid()
      ensures After(Snapshot(), r) == Show(old(Snapshot()), createOk, showOk)
    {
      if count > 0 {
        return Ok(Unit);
      }
      if !windowExists {
        if !createOk {
          return Err("wave window could not be created");
        }
        CreateWaveWindow();
      }
      if visible {
        width, height := BubbleSize, BubbleSize;
        events := events + [WaveReset];
        return Ok(Unit);
      }
      count := count + 1;
      width, height := BubbleSize, BubbleSize;
      if showOk {
        visible := true;
        visibleFlag := true;
        events := events + [WaveReset];
      } else {
        count := count - 1;
        return Err("wave window could not be shown");
      }
      r := Ok(Unit);
    }

    method HideWaveWindow(createOk: bool, closeOk: bool) returns (r: Result<Unit>)
      requires Valid()
      modifies this
      ensures Valid()
      ensures After(Snapshot(), r) == Hide(old(Snapshot()), createOk, closeOk)
    {
      if !windowExists {
        if !createOk {
          return Err("wave window could not be created");
        }
        CreateWaveWindow();
      }
      if closeOk {
        windowExists := false;
        visible := false;
      }
      visibleFlag := false;
      if count > 0 {
        count := count - 1;
      }
      r := Ok(Unit);
    }

    method ToggleWaveWindow(minimized: bool, createOk: bool, showOk: bool, closeOk: bool) returns (r: Result<Unit>)
      requires Valid()
      modifies this
      ensures Valid()
      ensures After(Snapshot(), r) == ToggleWindow(old(Snapshot()), minimized, createOk, showOk, closeOk)
    {
      if windowExists {
        if minimized || !visible {
          r := ShowWaveWindow(createOk, showOk);
          return;
        } else {
          r := HideWaveWindow(createOk, closeOk);
          return;
        }
      }
      r := Ok(Unit);
    }

    /** `reset_wave_window_counter`: reports the value it replaced. */
    method ResetWaveWindowCounter() returns (message: string)
      requires Valid()
      modifies this
      ensures Valid()
      ensures Snapshot() == Reset(old(Snapshot()))
      ensures message == "Reset counter from " + NatToDecimal(old(count)) + " to 0"
    {
      var oldCount := count;
      count := 0;
      message := "Reset counter from " + NatToDecimal(oldCount) + " to 0";
    }

    method StartRecording() returns (r: Result<Unit>)
      requires Valid()
      modifies this, audio, processor
      ensures Valid()
      ensures After(Snapshot(), r) == Start(old(Snapshot()))
    {
      if audio.isRecording {
        return Ok(Unit);
      }
      var started := audio.StartGlobalRecording();
      if started.Err? {
        return Err(started.error);
      }
      processor.StartProcessing();
      events := events + [RecordingStarted];
      r := Ok(Unit);
    }

    method StopRecording() returns (r: Result<Unit>)
      requires Valid()
      modifies this, audio, processor
      ensures Valid()
      ensures After(Snapshot(), r) == Stop(old(Snapshot()))
    {
      if !audio.isRecording {
        return Ok(Unit);
      }
      audio.StopGlobalRecording();
      processor.StopProcessing();
      events := events + [RecordingStopped];
      r := Ok(Unit);
    }

    method ToggleRecordingCommand() returns (r: Result<Unit>)
      requires Valid()
      modifies this, audio, processor
      ensures Valid()
      ensures After(Snapshot(), r) == ToggleRecording(old(Snapshot()))
    {
      if audio.isRecording {
        r := StopRecording();
      } else {
        r := StartRecording();
      }
    }

    method ToggleWaveWindowAndRecording(createOk: bool, showOk: bool, closeOk: bool) returns (r: Result<Unit>)
      requires Valid()
      modifies this, audio, processor
      ensures Valid()
      ensures After(Snapshot(), r) == ToggleBoth(old(Snapshot()), createOk, showOk, closeOk)
    {
      if !windowExists {
        return Ok(Unit);
      }
      var isVisible := visible;
      var isRecording := audio.isRecording;
      if isVisible && isRecording {
        r := StopRecording();
        if r.Err? {
          return;
        }
        r := HideWaveWindow(createOk, closeOk);
      } else if isVisible && !isRecording {
        r := StartRecording();
      } else {
        r := ShowWaveWindow(createOk, showOk);
        if r.Err? {
          return;
        }
        r := StartRecording();
      }
    }

    method ShowWaveWindowAndStartRecording(createOk: bool, showOk: bool) returns (r: Result<Unit>)
      requires Valid()
      modifies this, audio, processor
      ensures Valid()
      ensures After(Snapshot(), r) == ShowAndStart(old(Snapshot()), createOk, showOk)
    {
      r := ShowWaveWindow(createOk, showOk);
      if r.Err? {
        return;
      }
      r := StartRecording();
    }

    method StopRecordingAndProcess() returns (r: Result<Unit>)
      requires Valid()
      modifies this, audio, processor
      ensures Valid()
      ensures After(Snapshot(), r) == StopAndProcess(old(Snapshot()))
    {
      r := StopRecording();
      if windowExists {
        width, height := WaveWidthCompact, WaveHeight;
      }
      events := events + [ExpandForProcessing];
      r := Ok(Unit);
    }

    method CancelProcessing() returns (r: Result<Unit>)
      requires Valid()
      modifies this, audio, processor, cancel
      ensures Valid()
      ensures After(Snapshot(), r) == Cancel(old(Snapshot()))
    {
      cancel.Request();
      if audio.isRecording {
        var _ := StopRecording();
      }
      if windowExists {
        width, height := BubbleSize, BubbleSize;
        visible := false;
      }
      count := 0;
      r := Ok(Unit);
    }

    /** One window-side step of the processing thread. */
    method Perform(e: Effect)
      modifies this
      ensures Snapshot() == Effected(old(Snapshot()), e)
    {
      match e {
        case Emit(event) => events := events + [event];
        case Resize(w, h) => width, height := w, h;
        case HideWave => visible := false;
        case ResetCounter => count := 0;
        case _ =>
      }
    }

    /** The window-side steps of `fx`, in order. */
    method PerformAll(fx: seq<Effect>)
      modifies this
      ensures Snapshot() == Effects(old(Snapshot()), fx)
    {
      var i := 0;
      while i < |fx|
        invariant 0 <= i <= |fx|
        invariant Snapshot() == Effects(old(Snapshot()), fx[..i])
      {
        assert fx[..i + 1][..i] == fx[..i];
        Perform(fx[i]);
        i := i + 1;
      }
      assert fx[..|fx|] == fx;
    }

    /** The end of the processing thread: takes the cancel flag, works out
        the outcome and applies its window-side steps in order. Returns all
        steps, so that the caller can record, type and play. */
    method FinishProcessing(mono: seq<real>, result: Result<string>, injectOk: bool) returns (fx: seq<Effect>)
      requires Valid()
      modifies this, cancel
      ensures Valid()
      ensures fx == Finish(old(cancel.requested), mono, result, old(windowExists), injectOk)
      ensures Snapshot() == FinishSession(old(Snapshot()), mono, result, injectOk)
    {
      FinishSessionKeepsInv(Snapshot(), mono, result, injectOk);
      var cancelled := cancel.Take();
      fx := Finish(cancelled, mono, result, windowExists, injectOk);
      PerformAll(fx);
    }
  }
}
