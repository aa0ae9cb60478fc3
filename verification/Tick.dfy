// One scheduler pass at a time, and no wake-up lost: the `running` and `rerun`
// flags of `tick`, apps/hub/src/services/scheduler.ts.

module Tick {
  /** `soon` counts the ticks that `setImmediate` holds. */
  datatype State = State(running: bool, rerun: bool, soon: nat)

  /** A tick asked for by the timer or by a nudge, one that `setImmediate` runs, or the end of a pass. */
  datatype Event = Asked | Immediate | PassEnds

  predicate Enabled(s: State, e: Event) {
    match e
    case Asked => true
    case Immediate => s.soon > 0
    case PassEnds => s.running
  }

  /** `tick`, up to its first await. */
  function Ticked(s: State): State {
    if s.running then s.(rerun := true) else s.(running := true)
  }

  /** The `finally`, which runs whether or not the pass failed. */
  function Ended(s: State): State {
    State(false, false, if s.rerun then s.soon + 1 else s.soon)
  }

  function Apply(s: State, e: Event): State
    requires Enabled(s, e)
  {
    match e
    case Asked => Ticked(s)
    case Immediate => Ticked(s.(soon := s.soon - 1))
    case PassEnds => Ended(s)
  }

  class Scheduler {
    var running: bool
    var rerun: bool
    var soon: nat

    ghost function View(): State
      reads this
    {
      State(running, rerun, soon)
    }

    constructor ()
      ensures View() == State(false, false, 0)
    {
      running, rerun, soon := false, false, 0;
    }

    /** Whether a pass begins. */
    method Begin() returns (begins: bool)
      modifies this
      ensures View() == Ticked(old(View())) && begins == !old(running)
    {
      if running {
        rerun := true;
        return false;
      }
      running := true;
      return true;
    }

    method End()
      requires running
      modifies this
      ensures View() == Ended(old(View()))
    {
      running := false;
      if rerun {
        rerun := false;
        soon := soon + 1;
      }
    }
  }

  /** The event begins a pass. */
  predicate Begins(s: State, e: Event) {
    Enabled(s, e) && !s.running && !e.PassEnds?
  }

  /** Events as they come; one that cannot happen does not. */
  function After(events: seq<Event>): State {
    if events == [] then State(false, false, 0)
    else
      var s, e := After(events[..|events| - 1]), events[|events| - 1];
      if Enabled(s, e) then Apply(s, e) else s
  }

  /** Passes begun, less passes ended. */
  function InFlight(events: seq<Event>): int {
    if events == [] then 0
    else
      var before, e := events[..|events| - 1], events[|events| - 1];
      InFlight(before) + (if Begins(After(before), e) then 1 else 0)
        - (if e.PassEnds? && Enabled(After(before), e) then 1 else 0)
  }

  lemma {:induction false} OnePassAtATime(events: seq<Event>)
    ensures InFlight(events) == if After(events).running then 1 else 0
    ensures After(events).rerun ==> After(events).running
  {
    if events != [] { OnePassAtATime(events[..|events| - 1]); }
  }

  /** From `s`, the events lead to `end` without a pass beginning. */
  ghost predicate NoneBegins(s: State, events: seq<Event>, end: State)
    decreases |events|
  {
    if events == [] then end == s
    else Enabled(s, events[0]) && !Begins(s, events[0]) && NoneBegins(Apply(s, events[0]), events[1..], end)
  }

  /** A tick is due: it runs again when this pass ends, or is already on its way. */
  predicate Due(s: State) {
    (s.running && s.rerun) || s.soon > 0
  }

  lemma {:induction false} DueUntilBegun(s: State, events: seq<Event>, end: State)
    requires Due(s) && NoneBegins(s, events, end)
    ensures Due(end)
    decreases |events|
  {
    if events != [] { DueUntilBegun(Apply(s, events[0]), events[1..], end); }
  }

  /**
   * A tick asked for either begins a pass at once or, whatever happens
   * meanwhile, stays due until one begins: the scheduler never comes to rest
   * on a request it has not acted on.
   */
  lemma NoWakeUpIsLost(s: State, events: seq<Event>, end: State)
    requires !Begins(s, Asked) && NoneBegins(Apply(s, Asked), events, end)
    ensures Due(end) && (end.running || end.soon > 0)
  {
    DueUntilBegun(Apply(s, Asked), events, end);
  }
}
