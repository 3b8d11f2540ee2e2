/** The macOS key monitor of src-tauri/src/platform/macos.rs and the
    non-macOS fallback in the same file: one pass of the polling loop with
    a 25 ms debounce. Command results are ignored. */
module MacMonitor {
  import opened Wrappers
  import opened Hotkeys

  const Debounce25: nat := 25

  /** Either Control key counts. */
  predicate Pressed(keys: seq<Key>)
  {
    LControl in keys || RControl in keys
  }

  /** The fallback's test, written with the keys the other way round. */
  predicate FallbackPressed(keys: seq<Key>)
  {
    RControl in keys || LControl in keys
  }

  function CallOf(e: Edge): Call
  {
    match e
    case Rising => ShowAndStart
    case Falling => StopAndProcess
  }

  /** One pass of the loop. */
  function Step(g: Gate, keys: seq<Key>, now: nat): (Gate, Option<Call>)
  {
    var (h, fired) := Debounce(g, Pressed(keys), now, Debounce25);
    (h, if fired.Some? then Some(CallOf(fired.value)) else None)
  }

  /** The same pass as the `not(target_os = "macos")` fallback writes it.
      That fallback is never compiled: the platform module includes this
      file only on macOS. */
  function FallbackStep(g: Gate, keys: seq<Key>, now: nat): (Gate, Option<Call>)
  {
    var (h, fired) := Debounce(g, FallbackPressed(keys), now, Debounce25);
    (h, if fired.Some? then Some(CallOf(fired.value)) else None)
  }

  /** The two variants behave identically on every pass. */
  lemma FallbackIsSame(g: Gate, keys: seq<Key>, now: nat)
    ensures FallbackStep(g, keys, now) == Step(g, keys, now)
  {
  }

  /** The pass remembers the Control state it saw; show-and-record is called
      only on a press, stop-and-process only on a release, each only more
      than 25 ms after the last call, which then moves to `now`. */
  lemma StepCallsOnEdges(g: Gate, keys: seq<Key>, now: nat)
    ensures var (h, call) := Step(g, keys, now);
      && h.last == (LControl in keys || RControl in keys)
      && (call == Some(ShowAndStart) <==> h.last && !g.last && now > g.lastAction + Debounce25)
      && (call == Some(StopAndProcess) <==> !h.last && g.last && now > g.lastAction + Debounce25)
      && (call.Some? ==> h.lastAction == now)
      && (call.None? ==> h.lastAction == g.lastAction)
  {
    DebounceStep(g, Pressed(keys), now, Debounce25);
  }

  /** The times of the calls over a run of passes. */
  function CallTimes(g: Gate, ticks: seq<(seq<Key>, nat)>): seq<nat>
    decreases |ticks|
  {
    if ticks == [] then []
    else
      var (h, call) := Step(g, ticks[0].0, ticks[0].1);
      (if call.Some? then [ticks[0].1] else []) + CallTimes(h, ticks[1..])
  }

  /** What the debounce sees of a run of passes: the Control state and the
      clock of each. */
  function Observed(ticks: seq<(seq<Key>, nat)>): (r: seq<(bool, nat)>)
    ensures |r| == |ticks|
    ensures forall i :: 0 <= i < |ticks| ==> r[i] == (Pressed(ticks[i].0), ticks[i].1)
    decreases |ticks|
  {
    if ticks == [] then [] else [(Pressed(ticks[0].0), ticks[0].1)] + Observed(ticks[1..])
  }

  /** The calls are exactly the edges the debounce accepts. */
  lemma {:induction false} CallTimesAccepted(g: Gate, ticks: seq<(seq<Key>, nat)>)
    ensures CallTimes(g, ticks) == AcceptedTimes(g, Observed(ticks), Debounce25)
    decreases |ticks|
  {
    if ticks != [] {
      var (h, call) := Step(g, ticks[0].0, ticks[0].1);
      CallTimesAccepted(h, ticks[1..]);
    }
  }

  /** Hence any two calls are more than 25 ms apart. */
  lemma CallTimesSpaced(g: Gate, ticks: seq<(seq<Key>, nat)>)
    ensures forall i, j :: 0 <= i < j < |CallTimes(g, ticks)| ==>
      CallTimes(g, ticks)[j] > CallTimes(g, ticks)[i] + Debounce25
  {
    CallTimesAccepted(g, ticks);
    AcceptedTimesSpaced(g, Observed(ticks), Debounce25);
    SpacedPairwise(g.lastAction, CallTimes(g, ticks), Debounce25);
  }

  /** The loop's variables. */
  class Monitor {
    var lastControl: bool
    var lastAction: nat

    function Current(): Gate
      reads this
    {
      Gate(lastControl, lastAction)
    }

    constructor (start: nat)
      ensures Current() == Gate(false, start)
    {
      lastControl := false;
      lastAction := start;
    }

    /** One pass of the macOS loop; returns the command it called. */
    method Tick(keys: seq<Key>, now: nat) returns (call: Option<Call>)
      modifies this
      ensures (Current(), call) == Step(old(Current()), keys, now)
    {
      var pressed := LControl in keys || RControl in keys;
      call := None;
      if pressed && !lastControl {
        if Elapsed(now, lastAction) > Debounce25 {
          lastAction := now;
          call := Some(ShowAndStart);
        }
      }
      if !pressed && lastControl {
        if Elapsed(now, lastAction) > Debounce25 {
          lastAction := now;
          call := Some(StopAndProcess);
        }
      }
      lastControl := pressed;
    }

    /** One pass of the fallback loop, which is never compiled. */
    method FallbackTick(keys: seq<Key>, now: nat) returns (call: Option<Call>)
      modifies this
      ensures (Current(), call) == FallbackStep(old(Current()), keys, now)
    {
      var pressed := RControl in keys || LControl in keys;
      call := None;
      if pressed && !lastControl {
        if Elapsed(now, lastAction) > Debounce25 {
          lastAction := now;
          call := Some(ShowAndStart);
        }
      }
      if !pressed && lastControl {
        if Elapsed(now, lastAction) > Debounce25 {
          lastAction := now;
          call := Some(StopAndProcess);
        }
      }
      lastControl := pressed;
    }
  }
}
