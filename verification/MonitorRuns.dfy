// Whole runs of the monitor: any number of passes, one after another, over an
// event table that is appended to and pruned.

module MonitorRuns {
  import opened Options
  import opened MonitorModel
  import opened MonitorPass

  /** The readings were taken in order, between `from` and `until`. */
  ghost predicate Ordered(from: Time, visits: seq<Visit>, until: Time)
    decreases |visits|
  {
    if visits == [] then from <= until
    else
      var last := |visits| - 1;
      var look := visits[last].look;
      look.checkedAt <= look.actedAt <= until && Ordered(from, visits[..last], look.checkedAt)
  }

  ghost predicate Follows(w: World, p: Pass) {
    w.clock <= p.startedAt && Ordered(p.startedAt, p.visits, p.prunedAt)
  }

  function Start(): World {
    World([], map[], 0, [], [], -DAY, 0)
  }

  function After(passes: seq<Pass>, settings: Settings): World
    decreases |passes|
  {
    if passes == [] then Start()
    else RunPass(After(passes[..|passes| - 1], settings), passes[|passes| - 1], settings)
  }

  /**
   * Passes do not overlap, and time does not go backwards. The scheduler's
   * flag sees to the first, but "Run now" calls `evaluate` past it: such a
   * pass, begun a heartbeat or more after one that is still going on, is not
   * in these runs.
   */
  ghost predicate IsRun(passes: seq<Pass>, settings: Settings)
    decreases |passes|
  {
    passes == [] ||
      (&& IsRun(passes[..|passes| - 1], settings)
       && Follows(After(passes[..|passes| - 1], settings), passes[|passes| - 1]))
  }

  // --- The event table is the recent part of the history -------------------------------

  ghost predicate Recent(w: World) {
    && w.events == Since(w.history, w.horizon)
    && w.horizon <= w.clock - DAY
  }

  lemma {:induction false} SinceSince(events: seq<Event>, a: int, b: int)
    requires a <= b
    ensures Since(Since(events, a), b) == Since(events, b)
    decreases |events|
  {
    if events != [] {
      var last := |events| - 1;
      SinceSince(events[..last], a, b);
      if a <= events[last].at {
        var kept := Since(events[..last], a);
        assert (kept + [events[last]])[..|kept|] == kept;
      }
    }
  }

  lemma {:induction false} SinceLater(events: seq<Event>, a: int, b: int)
    requires b <= a
    ensures Since(Since(events, a), b) == Since(events, a)
    decreases |events|
  {
    if events != [] {
      var last := |events| - 1;
      SinceLater(events[..last], a, b);
      if a <= events[last].at {
        var kept := Since(events[..last], a);
        assert (kept + [events[last]])[..|kept|] == kept;
      }
    }
  }

  lemma SinceAppend(events: seq<Event>, e: Event, from: int)
    ensures Since(events + [e], from) == if from <= e.at then Since(events, from) + [e] else Since(events, from)
  {
    assert (events + [e])[..|events|] == events;
  }

  lemma SpentAppend(events: seq<Event>, e: Event, d: DeviceId, from: int, hard: bool)
    ensures Spent(events + [e], d, from, hard)
         == Spent(events, d, from, hard)
            + (if e.device == d && from <= e.at && e.action.Some? && (hard ==> HardEvent(e)) then 1 else 0)
  {
    assert (events + [e])[..|events|] == events;
  }

  /** Pruning loses nothing a budget counts: no count reaches back past the horizon. */
  lemma {:induction false} PrunedCountsSame(history: seq<Event>, horizon: int, d: DeviceId, from: int, hard: bool)
    requires horizon <= from
    ensures Spent(Since(history, horizon), d, from, hard) == Spent(history, d, from, hard)
    decreases |history|
  {
    if history != [] {
      var last := |history| - 1;
      PrunedCountsSame(history[..last], horizon, d, from, hard);
      if horizon <= history[last].at {
        SpentAppend(Since(history[..last], horizon), history[last], d, from, hard);
      }
    }
  }

  // --- Circuit breakers -------------------------------------------------------------------

  /** Executed actions on the box since `from`; only the hard ones when `hard`. */
  function ExecutedSince(events: seq<Event>, d: DeviceId, from: int, hard: bool): nat
    decreases |events|
  {
    if events == [] then 0
    else
      var e := events[|events| - 1];
      ExecutedSince(events[..|events| - 1], d, from, hard)
      + (if e.device == d && from <= e.at && Executed(e) && (hard ==> HardEvent(e)) then 1 else 0)
  }

  lemma ExecutedAppend(events: seq<Event>, e: Event, d: DeviceId, from: int, hard: bool)
    ensures ExecutedSince(events + [e], d, from, hard)
         == ExecutedSince(events, d, from, hard)
            + (if e.device == d && from <= e.at && Executed(e) && (hard ==> HardEvent(e)) then 1 else 0)
  {
    assert (events + [e])[..|events|] == events;
  }

  /** Announcements since `from` of an action that quiet hours held back. */
  function HeldBackSince(events: seq<Event>, d: DeviceId, from: int, hard: bool): nat
    decreases |events|
  {
    if events == [] then 0
    else
      var e := events[|events| - 1];
      HeldBackSince(events[..|events| - 1], d, from, hard)
      + (if e.device == d && from <= e.at && e.action.Some? && e.ok.None? && (hard ==> HardEvent(e)) then 1 else 0)
  }

  /** Held-back events name their action, so a budget counts them on top of what was done, and nothing else. */
  lemma {:induction false} SpentOvercounts(events: seq<Event>, d: DeviceId, from: int, hard: bool)
    ensures Spent(events, d, from, hard) == ExecutedSince(events, d, from, hard) + HeldBackSince(events, d, from, hard)
    decreases |events|
  {
    if events != [] {
      SpentOvercounts(events[..|events| - 1], d, from, hard);
    }
  }

  lemma {:induction false} ExecutedShrinks(events: seq<Event>, d: DeviceId, from: int, later: int, hard: bool)
    requires from <= later
    ensures ExecutedSince(events, d, later, hard) <= ExecutedSince(events, d, from, hard)
    decreases |events|
  {
    if events != [] {
      ExecutedShrinks(events[..|events| - 1], d, from, later, hard);
    }
  }

  /** Each executed action, when it was executed, left the box within both ceilings. */
  ghost predicate WithinCeilings(history: seq<Event>, settings: Settings)
    decreases |history|
  {
    history == [] ||
      var last := |history| - 1;
      var e := history[last];
      && WithinCeilings(history[..last], settings)
      && (Executed(e) ==>
            && ExecutedSince(history, e.device, e.at - HOUR, false) <= settings.maxActionsPerDeviceHour
            && (HardEvent(e) ==>
                  ExecutedSince(history, e.device, e.at - DAY, true) <= settings.maxRebootsPerDeviceDay))
  }

  /** The budgets of a pass that began at `start` cover everything executed in its two windows. */
  ghost predicate Covers(b: Budgets, history: seq<Event>, start: Time, d: DeviceId) {
    && ExecutedSince(history, d, start - HOUR, false) <= Used(b.actions, d)
    && ExecutedSince(history, d, start - DAY, true) <= Used(b.reboots, d)
  }

  ghost predicate Safe(turn: Turn, settings: Settings, start: Time) {
    && Recent(turn.w) && start <= turn.w.clock
    && WithinCeilings(turn.w.history, settings)
    && (forall d: DeviceId :: Covers(turn.b, turn.w.history, start, d))
  }

  lemma BudgetsCover(w: World, now: Time, d: DeviceId)
    requires Recent(w) && w.clock <= now
    ensures Covers(SpentBudgets(w.events, now), w.history, now, d)
  {
    PrunedCountsSame(w.history, w.horizon, d, now - HOUR, false);
    PrunedCountsSame(w.history, w.horizon, d, now - DAY, true);
    SpentOvercounts(w.history, d, now - HOUR, false);
    SpentOvercounts(w.history, d, now - DAY, true);
    if d !in Devices(w.events) {
      NothingSpent(w.events, d, now - HOUR, false);
      NothingSpent(w.events, d, now - DAY, true);
    }
  }

  lemma {:induction false} NothingSpent(events: seq<Event>, d: DeviceId, from: int, hard: bool)
    requires d !in Devices(events)
    ensures Spent(events, d, from, hard) == 0
    decreases |events|
  {
    if events != [] {
      var last := |events| - 1;
      assert events[last] in events;
      assert forall e | e in events[..last] :: e in events;
      NothingSpent(events[..last], d, from, hard);
    }
  }

  /** An event of an action the budgets allowed, or of none, and what it leaves of them. */
  ghost predicate Paid(b: Budgets, after: Budgets, settings: Settings, e: Event) {
    if Executed(e)
    then !Tripped(b, settings, e.device, e.action.value) && after == Spend(b, e.device, e.action.value)
    else after == b
  }

  lemma NoteKeepsCover(w: World, b: Budgets, after: Budgets, settings: Settings, start: Time, e: Event, d: DeviceId)
    requires Covers(b, w.history, start, d) && Paid(b, after, settings, e)
    ensures Covers(after, Note(w, e).history, start, d)
  {
    ExecutedAppend(w.history, e, d, start - HOUR, false);
    ExecutedAppend(w.history, e, d, start - DAY, true);
  }

  lemma NoteKeepsCeilings(w: World, b: Budgets, after: Budgets, settings: Settings, start: Time, e: Event)
    requires WithinCeilings(w.history, settings) && Covers(b, w.history, start, e.device)
    requires start <= e.at && Paid(b, after, settings, e)
    ensures WithinCeilings(Note(w, e).history, settings)
  {
    var history := Note(w, e).history;
    assert history[..|history| - 1] == w.history;
    ExecutedAppend(w.history, e, e.device, start - HOUR, false);
    ExecutedAppend(w.history, e, e.device, start - DAY, true);
    ExecutedShrinks(history, e.device, start - HOUR, e.at - HOUR, false);
    ExecutedShrinks(history, e.device, start - DAY, e.at - DAY, true);
  }

  lemma NoteKeepsSafe(turn: Turn, b: Budgets, settings: Settings, start: Time, e: Event)
    requires Safe(turn, settings, start) && e.at == turn.w.clock && Paid(turn.b, b, settings, e)
    ensures Safe(Turn(Note(turn.w, e), b), settings, start)
  {
    assert Covers(turn.b, turn.w.history, start, e.device);
    NoteKeepsCeilings(turn.w, turn.b, b, settings, start, e);
    SinceAppend(turn.w.history, e, turn.w.horizon);
    forall d: DeviceId ensures Covers(b, Note(turn.w, e).history, start, d) {
      assert Covers(turn.b, turn.w.history, start, d);
      NoteKeepsCover(turn.w, turn.b, b, settings, start, e, d);
    }
  }

  lemma EvaluateKeepsSafe(turn: Turn, v: Visit, settings: Settings, start: Time)
    requires Safe(turn, settings, start) && turn.w.clock <= v.look.actedAt
    ensures Safe(Evaluate(turn.w, turn.b, v, settings), settings, start)
    ensures Evaluate(turn.w, turn.b, v, settings).w.clock == v.look.actedAt
  {
    var now := Turn(turn.w.(clock := v.look.actedAt), turn.b);
    assert Safe(now, settings, start);
    match v.look.bad {
      case None =>
      case Some(false) =>
        if Pair(v) in now.w.ladders && now.w.ladders[Pair(v)].failures != 0 {
          var cleared := now.w.ladders[Pair(v)].(failures := 0, firstFailedAt := None, lastStepFired := None);
          var w := now.w.(ladders := now.w.ladders[Pair(v) := cleared],
                          marks := now.w.marks + [Mark.Recovered(v.device, v.rule.id)]);
          assert Safe(Turn(w, now.b), settings, start);
          NoteKeepsSafe(Turn(w, now.b), now.b, settings, start, EventOf(v, None, None, Message.Recovery));
        }
      case Some(true) =>
        var counted := Turn(Failed(now.w, v), now.b);
        assert Safe(counted, settings, start);
        EscalateKeepsSafe(counted, v, LadderOf(now.w, v), settings, start);
    }
  }

  lemma EscalateKeepsSafe(turn: Turn, v: Visit, was: Ladder, settings: Settings, start: Time)
    requires Safe(turn, settings, start) && turn.w.clock == v.look.actedAt && Pair(v) in turn.w.ladders
    ensures Safe(Escalate(turn.w, turn.b, v, was, settings), settings, start)
    ensures Escalate(turn.w, turn.b, v, was, settings).w.clock == v.look.actedAt
  {
    match Decide(v.rule, was, turn.w.ladders[Pair(v)].failures, v.look, v.device, turn.b, settings)
    case Wait =>
    case Refuse =>
    case HoldBack(action) =>
      FireKeepsSafe(turn, turn.b, v, None, settings, start, EventOf(v, action, None, Fault));
    case Stop =>
      FireKeepsSafe(turn, turn.b, v, None, settings, start, EventOf(v, None, None, Breaker));
    case Act(rung) =>
      FireKeepsSafe(turn, Spend(turn.b, v.device, rung.action), v, Some(rung.atFailure), settings, start,
                    EventOf(v, Some(rung.action), Some(v.look.ok), Fault));
  }

  lemma FireKeepsSafe(
    turn: Turn, b: Budgets, v: Visit, rung: Option<nat>, settings: Settings, start: Time, e: Event)
    requires Safe(turn, settings, start) && turn.w.clock == v.look.actedAt && Pair(v) in turn.w.ladders
    requires e.at == v.look.actedAt && (Executed(e) <==> rung.Some?)
    ensures Paid(turn.b, b, settings, e) ==> Safe(Turn(Fire(turn.w, v, rung, e), b), settings, start)
  {
    var ladder := turn.w.ladders[Pair(v)];
    var stamped := ladder.(lastActionAt := Some(v.look.actedAt),
                           lastStepFired := if rung == None then ladder.lastStepFired else rung);
    var marked := turn.w.(
      ladders := turn.w.ladders[Pair(v) := stamped],
      marks := turn.w.marks + [Fired(v.device, v.rule.id, v.look.actedAt, rung, ladder.failures)]);
    assert Safe(Turn(marked, turn.b), settings, start);
    if Paid(turn.b, b, settings, e) { NoteKeepsSafe(Turn(marked, turn.b), b, settings, start, e); }
  }

  lemma {:induction false} VisitsKeepSafe(
      w: World, b: Budgets, visits: seq<Visit>, settings: Settings, start: Time, until: Time)
    requires Safe(Turn(w, b), settings, start) && w.clock == start && Ordered(start, visits, until)
    ensures Safe(Visits(w, b, visits, settings), settings, start)
    ensures Visits(w, b, visits, settings).w.clock <= until
    decreases |visits|
  {
    if visits != [] {
      var last := |visits| - 1;
      VisitsKeepSafe(w, b, visits[..last], settings, start, visits[last].look.checkedAt);
      EvaluateKeepsSafe(Visits(w, b, visits[..last], settings), visits[last], settings, start);
    }
  }

  lemma PruneKeepsRecent(w: World, settings: Settings, now: Time)
    requires Recent(w) && w.clock <= now
    ensures Recent(Prune(w, settings, now)) && Prune(w, settings, now).history == w.history
  {
    var cutoff := now - settings.eventRetentionDays * DAY;
    if settings.eventRetentionDays > 0 {
      assert settings.eventRetentionDays * DAY >= DAY;
      if cutoff > w.horizon {
        SinceSince(w.history, w.horizon, cutoff);
      } else {
        SinceLater(w.history, w.horizon, cutoff);
      }
    }
  }

  lemma {:induction false} RunsAreSafe(passes: seq<Pass>, settings: Settings)
    requires IsRun(passes, settings)
    ensures Recent(After(passes, settings)) && WithinCeilings(After(passes, settings).history, settings)
    decreases |passes|
  {
    if passes != [] {
      var p := passes[|passes| - 1];
      var w := After(passes[..|passes| - 1], settings);
      RunsAreSafe(passes[..|passes| - 1], settings);
      var begun, budgets := w.(clock := p.startedAt), SpentBudgets(w.events, p.startedAt);
      forall d: DeviceId ensures Covers(budgets, begun.history, p.startedAt, d) {
        BudgetsCover(w, p.startedAt, d);
      }
      VisitsKeepSafe(begun, budgets, p.visits, settings, p.startedAt, p.prunedAt);
      PruneKeepsRecent(Visits(begun, budgets, p.visits, settings).w, settings, p.prunedAt);
    }
  }

  /** Executed actions on the box in the closed window from `lo` to `hi`. */
  function ExecutedBetween(events: seq<Event>, d: DeviceId, lo: int, hi: int, hard: bool): nat
    decreases |events|
  {
    if events == [] then 0
    else
      var e := events[|events| - 1];
      ExecutedBetween(events[..|events| - 1], d, lo, hi, hard)
      + (if e.device == d && lo <= e.at <= hi && Executed(e) && (hard ==> HardEvent(e)) then 1 else 0)
  }

  lemma {:induction false} BetweenIsSince(events: seq<Event>, d: DeviceId, lo: int, hi: int, hard: bool)
    ensures ExecutedBetween(events, d, lo, hi, hard) <= ExecutedSince(events, d, lo, hard)
    decreases |events|
  {
    if events != [] {
      BetweenIsSince(events[..|events| - 1], d, lo, hi, hard);
    }
  }

  lemma {:induction false} WindowsWithinCeilings(history: seq<Event>, settings: Settings, d: DeviceId, t: int)
    requires WithinCeilings(history, settings)
    ensures ExecutedBetween(history, d, t - HOUR, t, false) <= settings.maxActionsPerDeviceHour
    ensures ExecutedBetween(history, d, t - DAY, t, true) <= settings.maxRebootsPerDeviceDay
    decreases |history|
  {
    if history != [] {
      var last := |history| - 1;
      var e := history[last];
      WindowsWithinCeilings(history[..last], settings, d, t);
      if e.device == d && Executed(e) && e.at <= t {
        if t - HOUR <= e.at {
          BetweenIsSince(history, d, t - HOUR, t, false);
          ExecutedShrinks(history, d, e.at - HOUR, t - HOUR, false);
        }
        if HardEvent(e) && t - DAY <= e.at {
          BetweenIsSince(history, d, t - DAY, t, true);
          ExecutedShrinks(history, d, e.at - DAY, t - DAY, true);
        }
      }
    }
  }

  /**
   * The circuit breaker. In every run, in every window of one hour no box has
   * more than `maxActionsPerDeviceHour` actions executed on it, and in every
   * window of one day no more than `maxRebootsPerDeviceDay` of them cost it a
   * boot; whatever was pruned in between.
   */
  lemma BreakersHold(passes: seq<Pass>, settings: Settings, d: DeviceId, t: int)
    requires IsRun(passes, settings)
    ensures var history := After(passes, settings).history;
      && ExecutedBetween(history, d, t - 3_600_000, t, false) <= settings.maxActionsPerDeviceHour
      && ExecutedBetween(history, d, t - 86_400_000, t, true) <= settings.maxRebootsPerDeviceDay
  {
    RunsAreSafe(passes, settings);
    WindowsWithinCeilings(After(passes, settings).history, settings, d, t);
  }

  /** And pruning is invisible to the breakers: the next pass counts what the whole history would give. */
  lemma PruningChangesNoBudget(passes: seq<Pass>, settings: Settings, next: Pass, d: DeviceId)
    requires IsRun(passes, settings) && Follows(After(passes, settings), next)
    ensures var w := After(passes, settings); var now := next.startedAt;
      && Spent(w.events, d, now - HOUR, false) == Spent(w.history, d, now - HOUR, false)
      && Spent(w.events, d, now - DAY, true) == Spent(w.history, d, now - DAY, true)
  {
    var w := After(passes, settings);
    RunsAreSafe(passes, settings);
    PrunedCountsSame(w.history, w.horizon, d, next.startedAt - HOUR, false);
    PrunedCountsSame(w.history, w.horizon, d, next.startedAt - DAY, true);
  }
}
