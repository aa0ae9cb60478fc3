// The escalation ladder of one box and one rule over whole runs, and the grace
// a rebooted box is given.

module MonitorLadders {
  import opened Options
  import opened MonitorModel
  import opened MonitorPass
  import opened MonitorRuns

  predicate Concerns(m: Mark, d: DeviceId, r: RuleId) {
    m.device == d && m.rule == r
  }

  /** The last rung executed since the last all-clear. */
  function LastRung(marks: seq<Mark>, d: DeviceId, r: RuleId): Option<nat>
    decreases |marks|
  {
    if marks == [] then None
    else
      var m, earlier := marks[|marks| - 1], LastRung(marks[..|marks| - 1], d, r);
      if !Concerns(m, d, r) then earlier
      else if m.Recovered? then None
      else if m.rung.Some? then m.rung
      else earlier
  }

  /** When the pair last fired anything, all-clears notwithstanding. */
  function LastFire(marks: seq<Mark>, d: DeviceId, r: RuleId): Option<Time>
    decreases |marks|
  {
    if marks == [] then None
    else
      var m := marks[|marks| - 1];
      if Concerns(m, d, r) && m.Fired? then Some(m.at) else LastFire(marks[..|marks| - 1], d, r)
  }

  /** A fire that is allowed after `earlier`. */
  ghost predicate Earned(earlier: seq<Mark>, m: Mark, d: DeviceId, rule: Rule)
    requires m.Fired?
  {
    var fired, rung := LastFire(earlier, d, rule.id), LastRung(earlier, d, rule.id);
    && (fired.Some? ==> fired.value + rule.cooldownSeconds * 1000 <= m.at)
    && (m.rung.Some? ==>
          && Highest(rule.steps, m.failures).Some?
          && m.rung.value == Highest(rule.steps, m.failures).value.atFailure
          && (rung.Some? ==>
                || rung.value < m.rung.value
                || (rung.value == m.rung.value && IsTop(rule.steps, m.rung.value))))
  }

  ghost predicate Climbs(marks: seq<Mark>, d: DeviceId, rule: Rule)
    decreases |marks|
  {
    marks == [] ||
      var m, earlier := marks[|marks| - 1], marks[..|marks| - 1];
      Climbs(earlier, d, rule) && (m.Fired? && Concerns(m, d, rule.id) ==> Earned(earlier, m, d, rule))
  }

  function StoredLadder(w: World, d: DeviceId, r: RuleId): Ladder {
    if (d, r) in w.ladders then w.ladders[(d, r)] else FRESH
  }

  /** The stored row agrees with the history of the pair, which climbed as it should. */
  ghost predicate OnLadder(w: World, d: DeviceId, rule: Rule) {
    var ladder := StoredLadder(w, d, rule.id);
    && ladder.lastStepFired == LastRung(w.marks, d, rule.id)
    && ladder.lastActionAt == LastFire(w.marks, d, rule.id)
    && Climbs(w.marks, d, rule)
    && (ladder.lastStepFired.Some? ==> exists s | s in rule.steps :: s.atFailure == ladder.lastStepFired.value)
  }

  lemma OneMark(marks: seq<Mark>, m: Mark)
    ensures (marks + [m])[..|marks + [m]| - 1] == marks && (marks + [m])[|marks + [m]| - 1] == m
  {
  }

  /** A stamp of the pair itself. */
  lemma FireClimbs(w: World, v: Visit, rung: Option<nat>, e: Event, was: Ladder)
    requires Pair(v) in w.ladders
    requires OnLadder(w, v.device, v.rule)
    requires was.lastActionAt == w.ladders[Pair(v)].lastActionAt && was.lastStepFired == w.ladders[Pair(v)].lastStepFired
    requires v.look.checkedAt <= v.look.actedAt && !Cooling(v.rule, was, v.look.checkedAt)
    requires rung.Some? ==>
      var step := Highest(v.rule.steps, w.ladders[Pair(v)].failures);
      && step.Some? && rung.value == step.value.atFailure
      && (was.lastStepFired.Some? ==> rung.value > was.lastStepFired.value || IsTop(v.rule.steps, rung.value))
    ensures OnLadder(Fire(w, v, rung, e), v.device, v.rule)
  {
    var m := Fired(v.device, v.rule.id, v.look.actedAt, rung, w.ladders[Pair(v)].failures);
    OneMark(w.marks, m);
    assert Earned(w.marks, m, v.device, v.rule);
    assert Fire(w, v, rung, e).marks == w.marks + [m];
  }

  lemma EscalateClimbs(w: World, b: Budgets, v: Visit, was: Ladder, settings: Settings)
    requires Pair(v) in w.ladders && OnLadder(w, v.device, v.rule)
    requires was.lastActionAt == w.ladders[Pair(v)].lastActionAt && was.lastStepFired == w.ladders[Pair(v)].lastStepFired
    requires v.look.checkedAt <= v.look.actedAt
    ensures OnLadder(Escalate(w, b, v, was, settings).w, v.device, v.rule)
  {
    match Decide(v.rule, was, w.ladders[Pair(v)].failures, v.look, v.device, b, settings)
    case Wait =>
    case Refuse =>
    case HoldBack(action) => FireClimbs(w, v, None, EventOf(v, action, None, Fault), was);
    case Stop => FireClimbs(w, v, None, EventOf(v, None, None, Breaker), was);
    case Act(rung) =>
      FireClimbs(w, v, Some(rung.atFailure), EventOf(v, Some(rung.action), Some(v.look.ok), Fault), was);
  }

  /** A reading of the pair itself. */
  lemma OwnVisitClimbs(w0: World, b: Budgets, v: Visit, settings: Settings)
    requires OnLadder(w0, v.device, v.rule) && v.look.checkedAt <= v.look.actedAt
    ensures OnLadder(Evaluate(w0, b, v, settings).w, v.device, v.rule)
  {
    var w := w0.(clock := v.look.actedAt);
    match v.look.bad
    case None =>
    case Some(false) =>
      OneMark(w.marks, Mark.Recovered(v.device, v.rule.id));
    case Some(true) =>
      var counted := Failed(w, v);
      assert OnLadder(counted, v.device, v.rule);
      if LadderOf(counted, v).failures >= v.rule.threshold {
        EscalateClimbs(counted, b, v, LadderOf(w, v), settings);
      }
  }

  /** A reading touches the row of its own pair and adds at most one mark, of its own pair. */
  lemma EvaluateIsLocal(w0: World, b: Budgets, v: Visit, settings: Settings)
    ensures var w := Evaluate(w0, b, v, settings).w;
      && (forall pair | pair != Pair(v) ::
            (pair in w.ladders <==> pair in w0.ladders) && (pair in w.ladders ==> w.ladders[pair] == w0.ladders[pair]))
      && (w.marks == w0.marks || exists m :: Concerns(m, v.device, v.rule.id) && w.marks == w0.marks + [m])
  {
    var w := w0.(clock := v.look.actedAt);
    if v.look.bad == Some(false) {
      var m := Mark.Recovered(v.device, v.rule.id);
      assert Concerns(m, v.device, v.rule.id);
      assert Recover(w, v).marks == w0.marks || Recover(w, v).marks == w0.marks + [m];
    } else if v.look.bad == Some(true) {
      var counted := Failed(w, v);
      EscalateIsLocal(counted, b, v, LadderOf(w, v), settings);
    }
  }

  lemma EscalateIsLocal(w0: World, b: Budgets, v: Visit, was: Ladder, settings: Settings)
    requires Pair(v) in w0.ladders
    ensures var w := Escalate(w0, b, v, was, settings).w;
      && w.ladders.Keys == w0.ladders.Keys
      && (forall pair | pair in w.ladders && pair != Pair(v) :: w.ladders[pair] == w0.ladders[pair])
      && (w.marks == w0.marks || exists m :: Concerns(m, v.device, v.rule.id) && w.marks == w0.marks + [m])
  {
    var verdict := Decide(v.rule, was, w0.ladders[Pair(v)].failures, v.look, v.device, b, settings);
    var rung := if verdict.Act? then Some(verdict.rung.atFailure) else None;
    var m := Fired(v.device, v.rule.id, v.look.actedAt, rung, w0.ladders[Pair(v)].failures);
    assert Concerns(m, v.device, v.rule.id);
    var w := Escalate(w0, b, v, was, settings).w;
    assert w.marks == w0.marks || w.marks == w0.marks + [m];
  }

  /** A reading of any other pair leaves this one's row and history alone. */
  lemma OtherVisitClimbs(w0: World, b: Budgets, v: Visit, settings: Settings, d: DeviceId, rule: Rule)
    requires OnLadder(w0, d, rule) && Pair(v) != (d, rule.id)
    ensures OnLadder(Evaluate(w0, b, v, settings).w, d, rule)
  {
    var w := Evaluate(w0, b, v, settings).w;
    EvaluateIsLocal(w0, b, v, settings);
    if w.marks != w0.marks {
      var m :| Concerns(m, v.device, v.rule.id) && w.marks == w0.marks + [m];
      OneMark(w0.marks, m);
    }
  }

  /** The rule keeps its settings: every reading under its id is a reading of this rule. */
  ghost predicate Fixed(visits: seq<Visit>, rule: Rule) {
    forall v | v in visits :: v.rule.id == rule.id ==> v.rule == rule
  }

  lemma {:induction false} VisitsClimb(
    w: World, b: Budgets, visits: seq<Visit>, settings: Settings, from: Time, until: Time, d: DeviceId, rule: Rule)
    requires OnLadder(w, d, rule) && Ordered(from, visits, until) && Fixed(visits, rule)
    ensures OnLadder(Visits(w, b, visits, settings).w, d, rule)
    decreases |visits|
  {
    if visits != [] {
      var last := |visits| - 1;
      var v := visits[last];
      VisitsClimb(w, b, visits[..last], settings, from, v.look.checkedAt, d, rule);
      var turn := Visits(w, b, visits[..last], settings);
      if Pair(v) == (d, rule.id) {
        assert v in visits;
        OwnVisitClimbs(turn.w, turn.b, v, settings);
      } else {
        OtherVisitClimbs(turn.w, turn.b, v, settings, d, rule);
      }
    }
  }

  lemma {:induction false} RunsClimb(passes: seq<Pass>, settings: Settings, d: DeviceId, rule: Rule)
    requires IsRun(passes, settings) && forall p | p in passes :: Fixed(p.visits, rule)
    ensures OnLadder(After(passes, settings), d, rule)
    decreases |passes|
  {
    if passes != [] {
      var p := passes[|passes| - 1];
      assert p in passes;
      var w := After(passes[..|passes| - 1], settings);
      RunsClimb(passes[..|passes| - 1], settings, d, rule);
      VisitsClimb(w.(clock := p.startedAt), SpentBudgets(w.events, p.startedAt), p.visits, settings,
                  p.startedAt, p.prunedAt, d, rule);
    }
  }

  // --- What that says about any two marks ------------------------------------------------

  lemma {:induction false} ClimbsBefore(marks: seq<Mark>, d: DeviceId, rule: Rule, j: nat)
    requires Climbs(marks, d, rule) && j < |marks|
    ensures Climbs(marks[..j], d, rule)
    ensures marks[j].Fired? && Concerns(marks[j], d, rule.id) ==> Earned(marks[..j], marks[j], d, rule)
    decreases |marks|
  {
    var last := |marks| - 1;
    if j < last {
      ClimbsBefore(marks[..last], d, rule, j);
      assert marks[..last][..j] == marks[..j];
    }
  }

  /** The last fire before `j` is no earlier than any fire `i` before it. */
  lemma {:induction false} LaterFire(marks: seq<Mark>, d: DeviceId, rule: Rule, i: nat, j: nat)
    requires Climbs(marks, d, rule) && i < j <= |marks|
    requires marks[i].Fired? && Concerns(marks[i], d, rule.id)
    ensures LastFire(marks[..j], d, rule.id).Some? && marks[i].at <= LastFire(marks[..j], d, rule.id).value
    decreases j
  {
    assert marks[..j][..j - 1] == marks[..j - 1];
    if i < j - 1 {
      LaterFire(marks, d, rule, i, j - 1);
      ClimbsBefore(marks, d, rule, j - 1);
    }
  }

  /** Within one episode the last executed rung before `j` is no lower than any rung `i` before it. */
  lemma {:induction false} HigherRung(marks: seq<Mark>, d: DeviceId, rule: Rule, i: nat, j: nat)
    requires Climbs(marks, d, rule) && i < j <= |marks|
    requires marks[i].Fired? && Concerns(marks[i], d, rule.id) && marks[i].rung.Some?
    requires forall k | i < k < j :: marks[k] != Mark.Recovered(d, rule.id)
    ensures LastRung(marks[..j], d, rule.id).Some? && marks[i].rung.value <= LastRung(marks[..j], d, rule.id).value
    decreases j
  {
    assert marks[..j][..j - 1] == marks[..j - 1];
    if i < j - 1 {
      HigherRung(marks, d, rule, i, j - 1);
      ClimbsBefore(marks, d, rule, j - 1);
    }
  }

  /**
   * Any two fires of one box and rule, announcements included, are at least
   * the cooldown apart, even with a recovery in between.
   */
  lemma CooldownHolds(passes: seq<Pass>, settings: Settings, d: DeviceId, rule: Rule, i: nat, j: nat)
    requires IsRun(passes, settings) && forall p | p in passes :: Fixed(p.visits, rule)
    requires var marks := After(passes, settings).marks;
      && i < j < |marks|
      && marks[i].Fired? && Concerns(marks[i], d, rule.id)
      && marks[j].Fired? && Concerns(marks[j], d, rule.id)
    ensures var marks := After(passes, settings).marks;
      marks[j].at >= marks[i].at + rule.cooldownSeconds * 1000
  {
    RunsClimb(passes, settings, d, rule);
    LaterFire(After(passes, settings).marks, d, rule, i, j);
    ClimbsBefore(After(passes, settings).marks, d, rule, j);
  }

  /**
   * Within one failure episode the executed rungs never go down, only the top
   * of the ladder is executed twice, and each is the highest rung its failure
   * count had earned.
   */
  lemma RungsOnlyClimb(passes: seq<Pass>, settings: Settings, d: DeviceId, rule: Rule, i: nat, j: nat)
    requires IsRun(passes, settings) && forall p | p in passes :: Fixed(p.visits, rule)
    requires var marks := After(passes, settings).marks;
      && i < j < |marks|
      && marks[i].Fired? && Concerns(marks[i], d, rule.id) && marks[i].rung.Some?
      && marks[j].Fired? && Concerns(marks[j], d, rule.id) && marks[j].rung.Some?
      && (forall k | i < k < j :: marks[k] != Mark.Recovered(d, rule.id))
    ensures var marks := After(passes, settings).marks;
      && marks[i].rung.value <= marks[j].rung.value <= marks[j].failures
      && (marks[i].rung == marks[j].rung ==> IsTop(rule.steps, marks[j].rung.value))
      && (forall s | s in rule.steps && s.atFailure <= marks[j].failures :: s.atFailure <= marks[j].rung.value)
  {
    RunsClimb(passes, settings, d, rule);
    HigherRung(After(passes, settings).marks, d, rule, i, j);
    ClimbsBefore(After(passes, settings).marks, d, rule, j);
  }

  /** A bad reading that counts is an escalation on the ladder with one failure more. */
  lemma FailureCounted(w: World, b: Budgets, v: Visit, settings: Settings) returns (counted: World)
    requires v.look.bad == Some(true) && LadderOf(w, v).failures + 1 >= v.rule.threshold
    ensures Pair(v) in counted.ladders && counted.history == w.history && counted.marks == w.marks
    ensures counted.ladders == w.ladders[Pair(v) := counted.ladders[Pair(v)]]
    ensures counted.ladders[Pair(v)].failures == LadderOf(w, v).failures + 1
    ensures counted.ladders[Pair(v)].lastStepFired == LadderOf(w, v).lastStepFired
    ensures Evaluate(w, b, v, settings) == Escalate(counted, b, v, LadderOf(w, v), settings)
  {
    var begun := w.(clock := v.look.actedAt);
    counted := Failed(begun, v);
    assert LadderOf(begun, v) == LadderOf(w, v);
  }

  /** A verdict to act fires the rung and spends for it. */
  lemma ActIsFire(w: World, b: Budgets, v: Visit, was: Ladder, rung: Rung, settings: Settings)
    requires Pair(v) in w.ladders
    requires Decide(v.rule, was, w.ladders[Pair(v)].failures, v.look, v.device, b, settings) == Act(rung)
    ensures Escalate(w, b, v, was, settings)
         == Turn(Fire(w, v, Some(rung.atFailure), EventOf(v, Some(rung.action), Some(v.look.ok), Fault)),
                 Spend(b, v.device, rung.action))
  {
  }

  lemma FireExecutes(w: World, v: Visit, rung: nat, e: Event)
    requires Pair(v) in w.ladders
    ensures var fired := Fire(w, v, Some(rung), e);
      && fired.history == w.history + [e]
      && Pair(v) in fired.ladders && fired.ladders[Pair(v)].lastStepFired == Some(rung)
      && fired.ladders == w.ladders[Pair(v) := fired.ladders[Pair(v)]]
      && fired.marks == w.marks
           + [Fired(v.device, v.rule.id, v.look.actedAt, Some(rung), w.ladders[Pair(v)].failures)]
  {
  }

  /** A verdict that does not act leaves budgets, rungs and executions as they were. */
  lemma HeldUp(w: World, b: Budgets, v: Visit, was: Ladder, settings: Settings)
    requires Pair(v) in w.ladders
    requires !Decide(v.rule, was, w.ladders[Pair(v)].failures, v.look, v.device, b, settings).Act?
    ensures var after := Escalate(w, b, v, was, settings);
      && LadderOf(after.w, v).lastStepFired == w.ladders[Pair(v)].lastStepFired
      && LadderOf(after.w, v).failures == w.ladders[Pair(v)].failures
      && after.b == b
      && (after.w.history == w.history
          || exists e :: after.w.history == w.history + [e] && !Executed(e))
  {
    hide Decide;
  }

  /**
   * A rung that quiet hours, a missing socket or a tripped breaker holds up is
   * deferred, not spent: the ladder keeps its place and nothing is executed.
   */
  lemma DeferredIsNotSpent(w: World, b: Budgets, v: Visit, settings: Settings, rung: Rung)
    requires v.look.bad == Some(true)
    requires Highest(v.rule.steps, LadderOf(w, v).failures + 1) == Some(rung)
    requires !v.look.inWindow || (NeedsSocket(rung.action) && !v.look.online)
             || Tripped(b, settings, v.device, rung.action)
    ensures var after := Evaluate(w, b, v, settings);
      && LadderOf(after.w, v).lastStepFired == LadderOf(w, v).lastStepFired
      && LadderOf(after.w, v).failures == LadderOf(w, v).failures + 1
      && after.b == b
      && (after.w.history == w.history
          || exists e :: after.w.history == w.history + [e] && !Executed(e))
  {
    if LadderOf(w, v).failures + 1 < v.rule.threshold {
      FailureIgnored(w, b, v, settings);
    } else {
      hide Evaluate, Escalate, Tripped, NeedsSocket;
      var counted := FailureCounted(w, b, v, settings);
      HeldUp(counted, b, v, LadderOf(w, v), settings);
    }
  }

  lemma FailureIgnored(w: World, b: Budgets, v: Visit, settings: Settings)
    requires v.look.bad == Some(true) && LadderOf(w, v).failures + 1 < v.rule.threshold
    ensures var after := Evaluate(w, b, v, settings);
      && LadderOf(after.w, v).lastStepFired == LadderOf(w, v).lastStepFired
      && LadderOf(after.w, v).failures == LadderOf(w, v).failures + 1
      && after.b == b && after.w.history == w.history
  {
    hide Escalate;
  }

  // --- Reboot grace -----------------------------------------------------------------------

  lemma {:induction false} RecentSurvives(history: seq<Event>, e: Event, from: int)
    requires e in history && from <= e.at
    ensures e in Since(history, from)
    decreases |history|
  {
    var last := |history| - 1;
    if e != history[last] {
      assert e in history[..last];
      RecentSurvives(history[..last], e, from);
    }
  }

  lemma {:induction false} OrderedSpan(from: Time, visits: seq<Visit>, until: Time)
    requires Ordered(from, visits, until)
    ensures from <= until
    decreases |visits|
  {
    if visits != [] { OrderedSpan(from, visits[..|visits| - 1], visits[|visits| - 1].look.checkedAt); }
  }

  lemma {:induction false} VisitsKeepHorizon(w: World, b: Budgets, visits: seq<Visit>, settings: Settings)
    ensures Visits(w, b, visits, settings).w.horizon == w.horizon
    decreases |visits|
  {
    if visits != [] { VisitsKeepHorizon(w, b, visits[..|visits| - 1], settings); }
  }

  /** Nothing younger than the retention was ever pruned, and without one nothing at all. */
  lemma {:induction false} HorizonBehind(passes: seq<Pass>, settings: Settings)
    requires IsRun(passes, settings)
    ensures var w := After(passes, settings);
      w.horizon < 0 || (settings.eventRetentionDays > 0 && w.horizon <= w.clock - settings.eventRetentionDays * DAY)
    decreases |passes|
  {
    if passes != [] {
      var p, w := passes[|passes| - 1], After(passes[..|passes| - 1], settings);
      HorizonBehind(passes[..|passes| - 1], settings);
      OrderedSpan(p.startedAt, p.visits, p.prunedAt);
      VisitsKeepHorizon(w.(clock := p.startedAt), SpentBudgets(w.events, p.startedAt), p.visits, settings);
    }
  }

  /** The grace is no longer than events are kept. */
  predicate GraceIsKept(settings: Settings) {
    settings.eventRetentionDays == 0 || settings.rebootGraceSeconds * 1000 <= settings.eventRetentionDays * DAY
  }

  /**
   * No later pass that begins within the grace looks at a box whose reboot
   * went through, so its own reboot is never held against it. The pass spares
   * the boxes it finds in the event table, so the grace must not outlast it.
   */
  lemma RebootGraceHolds(passes: seq<Pass>, settings: Settings, next: Pass, e: Event)
    requires IsRun(passes, settings) && Follows(After(passes, settings), next)
    requires GraceIsKept(settings)
    requires forall v, x | v in next.visits && x in After(passes, settings).events && x.device == v.device
                           && x.action in {Some(Reboot), Some(RotomReboot)} && x.ok == Some(true) ::
      x.at < next.startedAt - settings.rebootGraceSeconds * 1000
    requires e in After(passes, settings).history && e.action in {Some(Reboot), Some(RotomReboot)} && e.ok == Some(true)
    requires next.startedAt <= e.at + settings.rebootGraceSeconds * 1000
    ensures forall v | v in next.visits :: v.device != e.device
  {
    var w := After(passes, settings);
    RunsAreSafe(passes, settings);
    HorizonBehind(passes, settings);
    RecentSurvives(w.history, e, w.horizon);
  }

  /** A box's first failure under a rule whose only rung is a reboot. */
  lemma FirstFailureReboots(w: World, b: Budgets, v: Visit, settings: Settings)
    requires v.rule.steps == [Rung(1, Reboot)] && v.rule.threshold <= 1 && Pair(v) !in w.ladders
    requires v.look.bad == Some(true) && v.look.online && v.look.inWindow
    requires !Tripped(b, settings, v.device, Reboot)
    ensures var after := Evaluate(w, b, v, settings);
      && after.w.history == w.history + [EventOf(v, Some(Reboot), Some(v.look.ok), Fault)]
      && after.b == Spend(b, v.device, Reboot)
      && after.w.ladders.Keys == w.ladders.Keys + {Pair(v)}
  {
    assert Highest(v.rule.steps, 1) == Some(Rung(1, Reboot));
  }

  function RebootRule(id: RuleId, signal: Signal): Rule {
    Rule(id, signal, "", None, 1, 300, [Rung(1, Reboot)])
  }

  /** The box found faulty at `at`, online, inside its window. */
  function FaultOf(id: RuleId, signal: Signal, at: Time): Visit {
    Visit(7, RebootRule(id, signal), Look(Some(true), true, true, at, at, true))
  }

  lemma OneMorePass(passes: seq<Pass>, p: Pass, settings: Settings)
    requires IsRun(passes, settings) && Follows(After(passes, settings), p)
    ensures IsRun(passes + [p], settings)
    ensures After(passes + [p], settings) == RunPass(After(passes, settings), p, settings)
  {
    assert (passes + [p])[..|passes|] == passes;
  }

  lemma AtOnce(v: Visit)
    requires v.look.checkedAt == v.look.actedAt
    ensures Ordered(v.look.actedAt, [v], v.look.actedAt)
  {
    assert [v][..0] == [];
    assert Ordered(v.look.actedAt, [], v.look.actedAt);
  }

  /** A first pass, at any time, that reboots box 7. */
  lemma RebootPass(settings: Settings, at: Time) returns (passes: seq<Pass>, e: Event)
    requires settings.maxActionsPerDeviceHour >= 1 && settings.maxRebootsPerDeviceDay >= 1
    ensures IsRun(passes, settings)
    ensures var w := After(passes, settings);
      w.clock == at && w.lastPruneAt <= at && w.history == [e] && w.events == [e]
    ensures e.device == 7 && e.at == at && HardEvent(e) && e.ok == Some(true)
  {
    var v, none := FaultOf(1, RotomDisconnected, at), Budgets(map[], map[]);
    var start := Start().(clock := at);
    assert SpentBudgets([], at) == none by { assert Devices([]) == {}; }
    FirstFailureReboots(start, none, v, settings);
    e := EventOf(v, Some(Reboot), Some(true), Fault);
    assert [v][..0] == [];
    assert Visits(start, none, [v], settings) == Evaluate(start, none, v, settings);
    assert settings.eventRetentionDays * DAY >= 0;
    assert Since([e], at - settings.eventRetentionDays * DAY) == [e];
    AtOnce(v);
    OneMorePass([], Pass(at, [v], at), settings);
    passes := [] + [Pass(at, [v], at)];
  }

  /** And a later one that looks at nothing, and prunes. */
  lemma RebootThenPrune(settings: Settings, at: Time, later: Time) returns (passes: seq<Pass>, e: Event)
    requires settings.maxActionsPerDeviceHour >= 1 && settings.maxRebootsPerDeviceDay >= 1
    requires settings.eventRetentionDays > 0 && later == at + settings.eventRetentionDays * DAY + 1
    ensures IsRun(passes, settings) && After(passes, settings).clock == later
    ensures After(passes, settings).history == [e] && After(passes, settings).events == []
    ensures e.device == 7 && e.at == at && HardEvent(e) && e.ok == Some(true)
  {
    passes, e := RebootPass(settings, at);
    assert settings.eventRetentionDays * DAY >= DAY;
    assert Since([e], at + 1) == [];
    OneMorePass(passes, Pass(later, [], later), settings);
    passes := passes + [Pass(later, [], later)];
  }

  /** With a longer grace than retention, a rebooted box is looked at again within its grace. */
  lemma LongGraceIsForgotten(settings: Settings, at: Time) returns (passes: seq<Pass>, next: Pass, e: Event)
    requires settings.maxActionsPerDeviceHour >= 1 && settings.maxRebootsPerDeviceDay >= 1
    requires !GraceIsKept(settings)
    ensures IsRun(passes, settings) && Follows(After(passes, settings), next)
    ensures forall v | v in next.visits ::
      !JustRebooted(After(passes, settings).events, v.device, settings, next.startedAt)
    ensures e in After(passes, settings).history && e.at == at && HardEvent(e) && e.ok == Some(true)
    ensures next.startedAt <= e.at + settings.rebootGraceSeconds * 1000
    ensures exists v | v in next.visits :: v.device == e.device
  {
    var later := at + settings.eventRetentionDays * DAY + 1;
    passes, e := RebootThenPrune(settings, at, later);
    var v := FaultOf(1, RotomDisconnected, later);
    next := Pass(later, [v], later);
    AtOnce(v);
    assert v in next.visits;
  }

  lemma TwoVisits(w: World, b: Budgets, one: Visit, two: Visit, settings: Settings)
    ensures var first := Evaluate(w, b, one, settings);
      Visits(w, b, [one, two], settings) == Evaluate(first.w, first.b, two, settings)
  {
    assert [one, two][..1] == [one] && [one][..0] == [];
    assert Visits(w, b, [one], settings) == Evaluate(w, b, one, settings);
  }

  lemma TwoAtOnce(one: Visit, two: Visit, at: Time)
    requires one.look.checkedAt == one.look.actedAt == at && two.look.checkedAt == two.look.actedAt == at
    ensures Ordered(at, [one, two], at)
  {
    AtOnce(one);
    assert [one, two][..1] == [one];
  }

  /**
   * The grace is looked up once, when a pass begins, so within one pass two
   * rules can both reboot the same box: both of these readings act.
   * `MonitorBoots.dfy` says for which rules and settings that can be.
   */
  lemma OnePassCanRebootTwice(w: World, settings: Settings, at: Time)
    requires w.ladders == map[] && settings.maxActionsPerDeviceHour >= 2 && settings.maxRebootsPerDeviceDay >= 2
    ensures var visits := [FaultOf(1, RotomDisconnected, at), FaultOf(2, LoopStalled, at)];
      var after := Visits(w, Budgets(map[], map[]), visits, settings).w;
      && Ordered(at, visits, at)
      && after.history == w.history
           + [EventOf(visits[0], Some(Reboot), Some(true), Fault)]
           + [EventOf(visits[1], Some(Reboot), Some(true), Fault)]
  {
    hide Evaluate, Visits, Ordered, EventOf;
    var one, two := FaultOf(1, RotomDisconnected, at), FaultOf(2, LoopStalled, at);
    var b := Budgets(map[], map[]);
    FirstFailureReboots(w, b, one, settings);
    var first := Evaluate(w, b, one, settings);
    FirstFailureReboots(first.w, first.b, two, settings);
    TwoVisits(w, b, one, two, settings);
    TwoAtOnce(one, two, at);
  }
}
