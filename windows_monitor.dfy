/** The Windows key monitor of src-tauri/src/platform/windows.rs: the
    callback run for every global input event, with a 25 ms debounce and
    the hold-time report. What the stop-recording workflow itself does is
    not part of this model; only what the callback and its worker emit. */
module WindowsMonitor {
  import opened Wrappers
  import opened Hotkeys

  const Debounce25: nat := 25

  /** A global input event as the listener reports it. */
  datatype InputEvent = KeyPress(key: Key) | KeyRelease(key: Key) | OtherInput

  /** What the callback and its worker do that the rest of the app sees. */
  datatype Output =
    | ShowMain                 // the main window is shown
    | Pill(state: string)      // a "pill-state" event
    | StartRecordingEvent      // a "start-recording" event
    | StartRecordingCall       // `audio::start_recording()`, which no file of the repository defines
    | StopRecordingEvent       // a "stop-recording" event
    | SpawnWorker              // the stop-recording worker thread is started
    | HoldTime(ms: nat)        // a "hold-time" event
    | HideMain                 // the main window is hidden

  predicate IsControl(k: Key)
  {
    k == LControl || k == RControl
  }

  /** The static `CONTROL_PRESSED` after `e`. */
  function ControlAfter(pressed: bool, e: InputEvent): bool
  {
    match e
    case KeyPress(k) => if IsControl(k) then true else pressed
    case KeyRelease(k) => if IsControl(k) then false else pressed
    case OtherInput => pressed
  }

  /** `CONTROL_PRESSED`, the captured `last_control_state` and
      `last_action_time`, and `hold_start_time`. */
  datatype State = State(control: bool, gate: Gate, holdStart: Option<nat>)

  /** What the callback does for one event at time `now`; `mainExists`
      says whether the main window can be found. */
  function Step(s: State, e: InputEvent, now: nat, mainExists: bool): (State, seq<Output>)
  {
    var c := ControlAfter(s.control, e);
    var (g, fired) := Debounce(s.gate, c, now, Debounce25);
    match fired
    case None => (State(c, g, s.holdStart), [])
    case Some(Rising) =>
      (State(c, g, Some(now)),
       (if mainExists then [ShowMain] else []) + [Pill("listening"), StartRecordingEvent, StartRecordingCall])
    case Some(Falling) =>
      (State(c, g, s.holdStart),
       [Pill("loading"), StopRecordingEvent, SpawnWorker]
       + (if s.holdStart.Some? then [HoldTime(Elapsed(now, s.holdStart.value))] else []))
  }

  /** What the worker thread emits once the stop workflow returns `ok`; that
      workflow, `handle_stop_recording_workflow`, is defined nowhere in the
      repository, so only its success is modelled. */
  function Worker(ok: bool, mainExists: bool): seq<Output>
  {
    [Pill(if ok then "success" else "error"), Pill("idle")] + (if mainExists then [HideMain] else [])
  }

  /** A press of either Control key sets the flag, a release clears it,
      any other event leaves it; the remembered state is the flag. */
  lemma StepTracksControl(s: State, e: InputEvent, now: nat, mainExists: bool)
    ensures var t := Step(s, e, now, mainExists).0;
      && (e.KeyPress? && (e.key == LControl || e.key == RControl) ==> t.control)
      && (e.KeyRelease? && (e.key == LControl || e.key == RControl) ==> !t.control)
      && (e.OtherInput? || (!e.OtherInput? && e.key.OtherKey?) ==> t.control == s.control)
      && t.gate.last == t.control
  {
  }

  /** The callback does something exactly when the debounce accepts an
      edge of the flag, so its actions are spaced as the debounce's are. */
  lemma StepIsDebounced(s: State, e: InputEvent, now: nat, mainExists: bool)
    ensures var (t, out) := Step(s, e, now, mainExists);
      var (g, fired) := Debounce(s.gate, ControlAfter(s.control, e), now, Debounce25);
      t.gate == g && (out != [] <==> fired.Some?)
  {
  }

  /** An accepted press records the press time, shows the main window if
      there is one, and emits "listening" before "start-recording". */
  lemma PressOutputs(s: State, e: InputEvent, now: nat, mainExists: bool)
    requires ControlAfter(s.control, e) && !s.gate.last && now > s.gate.lastAction + Debounce25
    ensures var (t, out) := Step(s, e, now, mainExists);
      && t.gate.lastAction == now && t.holdStart == Some(now)
      && out[|out| - 3..] == [Pill("listening"), StartRecordingEvent, StartRecordingCall]
      && (ShowMain in out <==> mainExists)
  {
  }

  /** An accepted release emits "loading" then "stop-recording", starts the
      worker, and reports a hold time exactly when a press was recorded. */
  lemma ReleaseOutputs(s: State, e: InputEvent, now: nat, mainExists: bool)
    requires !ControlAfter(s.control, e) && s.gate.last && now > s.gate.lastAction + Debounce25
    ensures var (t, out) := Step(s, e, now, mainExists);
      && t.gate.lastAction == now && t.holdStart == s.holdStart
      && out[..3] == [Pill("loading"), StopRecordingEvent, SpawnWorker]
      && (|out| == 4 <==> s.holdStart.Some?)
      && (s.holdStart.Some? ==> out[3] == HoldTime(Elapsed(now, s.holdStart.value)))
  {
  }

  /** `hold_start_time` is never cleared: once set it stays set, and it
      only ever changes to the time of an accepted press. */
  lemma HoldStartKept(s: State, e: InputEvent, now: nat, mainExists: bool)
    ensures var t := Step(s, e, now, mainExists).0;
      && (s.holdStart.Some? ==> t.holdStart.Some?)
      && (t.holdStart != s.holdStart ==> t.holdStart == Some(now) && t.gate.lastAction == now)
  {
  }

  /** The worker reports the result, then always "idle", then hides the
      main window if there is one. */
  lemma WorkerOutputs(ok: bool, mainExists: bool)
    ensures var out := Worker(ok, mainExists);
      && out[0] == Pill(if ok then "success" else "error")
      && out[1] == Pill("idle")
      && (|out| == 3 <==> mainExists)
      && (mainExists ==> out[2] == HideMain)
  {
  }

  /** The static flag and the callback's captured variables, with the
      outputs produced so far. */
  class Monitor {
    var control: bool
    var lastControl: bool
    var lastAction: nat
    var holdStart: Option<nat>
    var outputs: seq<Output>

    function Current(): State
      reads this
    {
      State(control, Gate(lastControl, lastAction), holdStart)
    }

    constructor (start: nat)
      ensures Current() == State(false, Gate(false, start), None) && outputs == []
    {
      control := false;
      lastControl := false;
      lastAction := start;
      holdStart := None;
      outputs := [];
    }

    /** The listener callback for one event. */
    method OnEvent(e: InputEvent, now: nat, mainExists: bool)
      modifies this
      ensures Current() == Step(old(Current()), e, now, mainExists).0
      ensures outputs == old(outputs) + Step(old(Current()), e, now, mainExists).1
    {
      ghost var before := Current();
      match e {
        case KeyPress(k) => if IsControl(k) { control := true; }
        case KeyRelease(k) => if IsControl(k) { control := false; }
        case OtherInput =>
      }
      var pressed := control;
      assert pressed == ControlAfter(before.control, e);
      var emitted: seq<Output> := [];
      if pressed && !lastControl && Elapsed(now, lastAction) > Debounce25 {
        lastAction := now;
        holdStart := Some(now);
        if mainExists {
          emitted := [ShowMain];
        }
        emitted := emitted + [Pill("listening"), StartRecordingEvent, StartRecordingCall];
      }
      if !pressed && lastControl && Elapsed(now, lastAction) > Debounce25 {
        lastAction := now;
        emitted := [Pill("loading"), StopRecordingEvent, SpawnWorker];
        if holdStart.Some? {
          emitted := emitted + [HoldTime(Elapsed(now, holdStart.value))];
        }
      }
      outputs := outputs + emitted;
      lastControl := pressed;
    }
  }
}
