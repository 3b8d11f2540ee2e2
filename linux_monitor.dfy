/** The Linux key monitor of src-tauri/src/platform/linux.rs: one pass of
    its polling loop, with a 200 ms debounce and a limit on consecutive
    failures of the show-and-record command. */
module LinuxMonitor {
  import opened Wrappers
  import opened Hotkeys

  const Debounce200: nat := 200
  /** After this many failures in a row the next accepted press is skipped. */
  const MaxErrors: nat := 3

  /** Only the Right Control key counts. */
  predicate Pressed(keys: seq<Key>)
  {
    RControl in keys
  }

  datatype State = State(gate: Gate, errors: nat)

  /** One pass: `callOk` is what the show-and-record command would return,
      and is looked at only when that command is called. */
  function Step(s: State, keys: seq<Key>, now: nat, callOk: bool): (State, Option<Call>)
  {
    var (g, fired) := Debounce(s.gate, Pressed(keys), now, Debounce200);
    match fired
    case None => (State(g, s.errors), None)
    case Some(Falling) => (State(g, s.errors), Some(StopAndProcess))
    case Some(Rising) =>
      if s.errors < MaxErrors then (State(g, if callOk then 0 else s.errors + 1), Some(ShowAndStart))
      else (State(g, 0), None)
  }

  /** The remembered state is always the Right Control state just seen,
      whether or not anything was called. */
  lemma StepRemembersKey(s: State, keys: seq<Key>, now: nat, callOk: bool)
    ensures Step(s, keys, now, callOk).0.gate.last == (RControl in keys)
  {
  }

  /** A command is called only on a change of the Right Control state and
      only after more than 200 ms since the last accepted change; the
      action time then becomes `now`. */
  lemma StepCallsOnEdges(s: State, keys: seq<Key>, now: nat, callOk: bool)
    ensures var (t, call) := Step(s, keys, now, callOk);
      && (call == Some(ShowAndStart) ==> Pressed(keys) && !s.gate.last)
      && (call == Some(StopAndProcess) ==> !Pressed(keys) && s.gate.last)
      && (call.Some? ==> now > s.gate.lastAction + Debounce200 && t.gate.lastAction == now)
      && (t.gate.lastAction != s.gate.lastAction ==> now > s.gate.lastAction + Debounce200 && t.gate.lastAction == now)
  {
  }

  /** A release past the window always calls stop-and-process; a press past
      the window calls show-and-record unless three failures preceded it. */
  lemma StepAcceptedEdges(s: State, keys: seq<Key>, now: nat, callOk: bool)
    requires now > s.gate.lastAction + Debounce200
    ensures !Pressed(keys) && s.gate.last ==> Step(s, keys, now, callOk).1 == Some(StopAndProcess)
    ensures Pressed(keys) && !s.gate.last ==>
      (Step(s, keys, now, callOk).1 == Some(ShowAndStart) <==> s.errors < MaxErrors)
  {
  }

  /** A failed show raises the error count, a successful one clears it, and
      a skipped press clears it too, so it never exceeds 3. */
  lemma StepCountsErrors(s: State, keys: seq<Key>, now: nat, callOk: bool)
    requires s.errors <= MaxErrors
    ensures var (t, call) := Step(s, keys, now, callOk);
      && t.errors <= MaxErrors
      && (call == Some(ShowAndStart) ==> t.errors == (if callOk then 0 else s.errors + 1))
      && (call != Some(ShowAndStart) && t.errors != s.errors ==> t.errors == 0 && s.errors == MaxErrors)
  {
  }

  /** A press of the Left Control key alone, from a released state, does
      nothing. */
  lemma LeftControlIgnored(s: State, now: nat, callOk: bool)
    requires !s.gate.last
    ensures Step(s, [LControl], now, callOk) == (s, None)
  {
  }

  /** The times of the calls over a run of passes; each pass is the keys
      held, the clock and the command's result. */
  function CallTimes(s: State, ticks: seq<(seq<Key>, nat, bool)>): seq<nat>
    decreases |ticks|
  {
    if ticks == [] then []
    else
      var (t, call) := Step(s, ticks[0].0, ticks[0].1, ticks[0].2);
      (if call.Some? then [ticks[0].1] else []) + CallTimes(t, ticks[1..])
  }

  /** The first call is more than 200 ms after the last accepted change,
      and each later one more than 200 ms after the one before. */
  lemma {:induction false} CallTimesSpaced(s: State, ticks: seq<(seq<Key>, nat, bool)>)
    ensures Spaced(s.gate.lastAction, CallTimes(s, ticks), Debounce200)
    decreases |ticks|
  {
    if ticks != [] {
      var (t, call) := Step(s, ticks[0].0, ticks[0].1, ticks[0].2);
      StepCallsOnEdges(s, ticks[0].0, ticks[0].1, ticks[0].2);
      CallTimesSpaced(t, ticks[1..]);
      var rest := CallTimes(t, ticks[1..]);
      if call.Some? {
        assert ([ticks[0].1] + rest)[1..] == rest;
      } else {
        assert [] + rest == rest;
        SpacedFromEarlier(s.gate.lastAction, t.gate.lastAction, rest, Debounce200);
      }
    }
  }

  /** Hence any two calls are more than 200 ms apart. */
  lemma CallTimesApart(s: State, ticks: seq<(seq<Key>, nat, bool)>)
    ensures forall i, j :: 0 <= i < j < |CallTimes(s, ticks)| ==>
      CallTimes(s, ticks)[j] > CallTimes(s, ticks)[i] + Debounce200
  {
    CallTimesSpaced(s, ticks);
    SpacedPairwise(s.gate.lastAction, CallTimes(s, ticks), Debounce200);
  }

  /** The loop's variables. */
  class Monitor {
    var lastControl: bool
    var lastAction: nat
    var errors: nat

    function Current(): State
      reads this
    {
      State(Gate(lastControl, lastAction), errors)
    }

    /** The loop starts released, with the clock at `start` and no errors. */
    constructor (start: nat)
      ensures Current() == State(Gate(false, start), 0)
    {
      lastControl := false;
      lastAction := start;
      errors := 0;
    }

    /** One pass of the polling loop; returns the command it called. */
    method Tick(keys: seq<Key>, now: nat, callOk: bool) returns (call: Option<Call>)
      modifies this
      ensures (Current(), call) == Step(old(Current()), keys, now, callOk)
    {
      var pressed := RControl in keys;
      call := None;
      if pressed && !lastControl {
        if Elapsed(now, lastAction) > Debounce200 {
          lastAction := now;
          if errors < MaxErrors {
            call := Some(ShowAndStart);
            if !callOk {
              errors := errors + 1;
            } else {
              errors := 0;
            }
          } else {
            errors := 0;
          }
        }
      }
      if !pressed && lastControl {
        if Elapsed(now, lastAction) > Debounce200 {
          lastAction := now;
          call := Some(StopAndProcess);
        }
      }
      lastControl := pressed;
    }
  }
}
