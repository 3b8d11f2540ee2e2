/** What the three platform key monitors share: the keys they look at, a
    saturating clock and the edge detector with its debounce window. Time
    is a number of milliseconds passed in by the caller. */
module Hotkeys {
  import opened Wrappers

  /** The keys the monitors distinguish; every other key is `OtherKey`. */
  datatype Key = LControl | RControl | OtherKey(code: nat)

  /** `Instant::duration_since`, which saturates at zero when `since` is
      later than `now`. */
  function Elapsed(now: nat, since: nat): (d: nat)
    ensures now >= since ==> since + d == now
    ensures now < since ==> d == 0
  {
    if now >= since then now - since else 0
  }

  datatype Edge = Rising | Falling

  /** The command a polling monitor calls: show-and-record on a press,
      stop-and-process on a release. */
  datatype Call = ShowAndStart | StopAndProcess

  /** A change of the Control state between two observations. */
  function EdgeOf(last: bool, pressed: bool): (e: Option<Edge>)
    ensures e == Some(Rising) <==> pressed && !last
    ensures e == Some(Falling) <==> !pressed && last
    ensures e == None <==> pressed == last
  {
    if pressed && !last then Some(Rising)
    else if !pressed && last then Some(Falling)
    else None
  }

  /** `last_control_state` and `last_action_time`. */
  datatype Gate = Gate(last: bool, lastAction: nat)

  /** One observation: an edge is accepted only when more than `window`
      milliseconds have passed since the last accepted one; the observed
      state is remembered either way. */
  function Debounce(g: Gate, pressed: bool, now: nat, window: nat): (Gate, Option<Edge>)
  {
    var e := EdgeOf(g.last, pressed);
    if e.Some? && Elapsed(now, g.lastAction) > window then (Gate(pressed, now), e)
    else (Gate(pressed, g.lastAction), None)
  }

  /** After every observation the gate holds the observed state; an edge
      fires exactly when the state changed and the window has passed, and
      then the action time becomes `now`. */
  lemma DebounceStep(g: Gate, pressed: bool, now: nat, window: nat)
    ensures var (h, fired) := Debounce(g, pressed, now, window);
      && h.last == pressed
      && (fired.Some? <==> pressed != g.last && now > g.lastAction + window)
      && (fired.Some? ==> fired == EdgeOf(g.last, pressed) && h.lastAction == now)
      && (fired.None? ==> h.lastAction == g.lastAction)
  {
  }

  /** An edge refused by the window is not retried: the next observation of
      the same state sees no change. */
  lemma DroppedEdgeNotRetried(g: Gate, pressed: bool, t1: nat, t2: nat, window: nat)
    requires Debounce(g, pressed, t1, window).1.None?
    ensures Debounce(Debounce(g, pressed, t1, window).0, pressed, t2, window).1.None?
  {
  }

  /** Every accepted time is more than `window` after the one before it,
      the first one more than `window` after `start`. */
  predicate Spaced(start: nat, times: seq<nat>, window: nat)
    decreases |times|
  {
    times == [] || (times[0] > start + window && Spaced(times[0], times[1..], window))
  }

  lemma {:induction false} SpacedFromEarlier(start: nat, later: nat, times: seq<nat>, window: nat)
    requires start <= later && Spaced(later, times, window)
    ensures Spaced(start, times, window)
  {
    if times != [] {
      assert Spaced(times[0], times[1..], window);
    }
  }

  lemma {:induction false} SpacedPairwise(start: nat, times: seq<nat>, window: nat)
    requires Spaced(start, times, window)
    ensures forall i :: 0 <= i < |times| ==> times[i] > start + window
    ensures forall i, j :: 0 <= i < j < |times| ==> times[j] > times[i] + window
    decreases |times|
  {
    if times != [] {
      SpacedPairwise(times[0], times[1..], window);
      assert forall i :: 1 <= i < |times| ==> times[i] == times[1..][i - 1];
    }
  }

  /** The times at which edges were accepted over a run of observations,
      each a pair of the Control state and the clock. */
  function AcceptedTimes(g: Gate, ticks: seq<(bool, nat)>, window: nat): seq<nat>
    decreases |ticks|
  {
    if ticks == [] then []
    else
      var (h, fired) := Debounce(g, ticks[0].0, ticks[0].1, window);
      (if fired.Some? then [ticks[0].1] else []) + AcceptedTimes(h, ticks[1..], window)
  }

  /** Whatever the clock does, even going backwards, any two accepted
      edges are more than `window` milliseconds apart. */
  lemma {:induction false} AcceptedTimesSpaced(g: Gate, ticks: seq<(bool, nat)>, window: nat)
    ensures Spaced(g.lastAction, AcceptedTimes(g, ticks, window), window)
    decreases |ticks|
  {
    if ticks != [] {
      var (h, fired) := Debounce(g, ticks[0].0, ticks[0].1, window);
      AcceptedTimesSpaced(h, ticks[1..], window);
      var rest := AcceptedTimes(h, ticks[1..], window);
      if fired.Some? {
        assert ([ticks[0].1] + rest)[1..] == rest;
      } else {
        assert [] + rest == rest;
      }
    }
  }
}
