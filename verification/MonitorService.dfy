// The monitor as it runs: module variables, stored rows and budget maps
// changed in nested loops. Each method is proved to do what the function of
// the same name in Monitor.dfy or MonitorPass.dfy says.

module MonitorService {
  import opened Options
  import opened MonitorModel
  import opened MonitorPass

  /** One approved box and the group it is in. */
  datatype Box = Box(id: DeviceId, group: Option<GroupId>)

  /** The readings of one box, rule by rule. */
  function BoxVisits(d: DeviceId, rules: seq<Rule>, look: (DeviceId, RuleId) -> Look): seq<Visit> {
    seq(|rules|, i requires 0 <= i < |rules| => Visit(d, rules[i], look(d, rules[i].id)))
  }

  /** All readings of a pass: box by box, skipping the busy ones. */
  function PassVisits(boxes: seq<Box>, rules: seq<Rule>, busy: set<DeviceId>, look: (DeviceId, RuleId) -> Look): seq<Visit>
    decreases |boxes|
  {
    if boxes == [] then []
    else
      var box := boxes[|boxes| - 1];
      var earlier := PassVisits(boxes[..|boxes| - 1], rules, busy, look);
      if box.id in busy then earlier else earlier + BoxVisits(box.id, RulesFor(rules, box.group), look)
  }

  /** `busyDeviceIds`: boxes with an install running, and boxes just rebooted. */
  function BusyBoxes(events: seq<Event>, installing: set<DeviceId>, settings: Settings, now: Time): set<DeviceId> {
    installing + set d | d in Devices(events) && JustRebooted(events, d, settings, now)
  }

  /** A reboot of its box that went through, within the grace. */
  predicate IsFreshReboot(e: Event, settings: Settings, now: Time) {
    && e.action in {Some(Reboot), Some(RotomReboot)} && e.ok == Some(true)
    && now - settings.rebootGraceSeconds * 1000 <= e.at
  }

  /** Nothing was written about the box: no event, no stamp, no count. */
  ghost predicate Spares(before: World, after: World, d: DeviceId) {
    && before.history <= after.history && before.marks <= after.marks
    && (forall i | |before.history| <= i < |after.history| :: after.history[i].device != d)
    && (forall i | |before.marks| <= i < |after.marks| :: after.marks[i].device != d)
    && (forall r: RuleId :: (d, r) in after.ladders <==> (d, r) in before.ladders)
    && (forall r: RuleId | (d, r) in before.ladders :: after.ladders[(d, r)] == before.ladders[(d, r)])
  }

  method ChooseRules(rules: seq<Rule>, group: Option<GroupId>) returns (chosen: seq<Rule>)
    ensures chosen == RulesFor(rules, group)
  {
    chosen := [];
    for i := 0 to |rules|
      invariant chosen == RulesFor(rules[..i], group)
    {
      var rule := rules[i];
      assert rules[..i + 1][..i] == rules[..i];
      if rule.group != None && rule.group != group { continue; }
      var slot := Slot(chosen, rule);
      if slot == |chosen| {
        chosen := chosen + [rule];
      } else if chosen[slot].group == None && rule.group != None {
        chosen := chosen[slot := rule];
      }
    }
    assert rules[..|rules|] == rules;
  }

  class Monitor {
    var events: seq<Event>
    var ladders: map<(DeviceId, RuleId), Ladder>
    var budgets: Budgets
    var startedAt: Time
    var lastTickAt: Time
    var lastPruneAt: Time

    ghost var history: seq<Event>
    ghost var marks: seq<Mark>
    ghost var horizon: int
    ghost var clock: Time

    ghost function View(): World
      reads this
    {
      World(events, ladders, lastPruneAt, history, marks, horizon, clock)
    }

    method Fire(v: Visit, rung: Option<nat>, e: Event)
      requires Pair(v) in ladders
      modifies `ladders, `events, `history, `marks
      ensures View() == MonitorPass.Fire(old(View()), v, rung, e)
    {
      var row := ladders[Pair(v)];
      marks := marks + [Fired(v.device, v.rule.id, v.look.actedAt, rung, row.failures)];
      row := row.(lastActionAt := Some(v.look.actedAt));
      if rung != None {
        row := row.(lastStepFired := rung);
      }
      ladders := ladders[Pair(v) := row];
      if rung == None && AlreadySaid(events, v.device, v.rule.id, e.message) { return; }
      events := events + [e];
      history := history + [e];
    }

    method Recover(v: Visit)
      modifies `ladders, `events, `history, `marks
      ensures View() == MonitorPass.Recover(old(View()), v)
    {
      if Pair(v) !in ladders || ladders[Pair(v)].failures == 0 { return; }
      ladders := ladders[Pair(v) := ladders[Pair(v)].(failures := 0, firstFailedAt := None, lastStepFired := None)];
      marks := marks + [Mark.Recovered(v.device, v.rule.id)];
      var e := EventOf(v, None, None, Message.Recovery);
      events := events + [e];
      history := history + [e];
    }

    method Escalate(v: Visit, was: Ladder, settings: Settings)
      requires Pair(v) in ladders
      modifies `ladders, `events, `budgets, `history, `marks
      ensures Turn(View(), budgets) == MonitorPass.Escalate(old(View()), old(budgets), v, was, settings)
    {
      var step := Highest(v.rule.steps, ladders[Pair(v)].failures);
      if step == None { return; }
      var rung := step.value;
      if was.lastActionAt.Some? {
        var since := v.look.checkedAt - was.lastActionAt.value;
        if since < v.rule.cooldownSeconds * 1000 { return; }
      }
      var isTop := IsTop(v.rule.steps, rung.atFailure);
      if was.lastStepFired.Some? && rung.atFailure <= was.lastStepFired.value && !isTop { return; }
      var acting := v.look.inWindow && rung.action != NotifyOnly;
      if !acting {
        Fire(v, None, EventOf(v, if rung.action == NotifyOnly then None else Some(rung.action), None, Fault));
        return;
      }
      if NeedsSocket(rung.action) && !v.look.online { return; }
      if Tripped(budgets, settings, v.device, rung.action) {
        Fire(v, None, EventOf(v, None, None, Breaker));
        return;
      }
      budgets := Spend(budgets, v.device, rung.action);
      Fire(v, Some(rung.atFailure), EventOf(v, Some(rung.action), Some(v.look.ok), Fault));
    }

    /** The body of the rule loop. */
    method Read(v: Visit, settings: Settings)
      modifies `ladders, `events, `budgets, `history, `marks, `clock
      ensures Turn(View(), budgets) == Evaluate(old(View()), old(budgets), v, settings)
    {
      clock := v.look.actedAt;
      if v.look.bad == None { return; }
      var was := if Pair(v) in ladders then ladders[Pair(v)] else FRESH;
      if !v.look.bad.value {
        Recover(v);
        return;
      }
      var failures := was.failures + 1;
      var firstFailedAt := if was.firstFailedAt == None then Some(v.look.checkedAt) else was.firstFailedAt;
      ladders := ladders[Pair(v) := was.(failures := failures, firstFailedAt := firstFailedAt)];
      if failures < v.rule.threshold { return; }
      Escalate(v, was, settings);
    }

    method EvaluateDevice(box: Box, rules: seq<Rule>, settings: Settings, look: (DeviceId, RuleId) -> Look)
      modifies `ladders, `events, `budgets, `history, `marks, `clock
      ensures Turn(View(), budgets)
        == Visits(old(View()), old(budgets), BoxVisits(box.id, RulesFor(rules, box.group), look), settings)
    {
      ghost var w, b := View(), budgets;
      var chosen := ChooseRules(rules, box.group);
      ghost var visits := BoxVisits(box.id, chosen, look);
      for i := 0 to |chosen|
        invariant Turn(View(), budgets) == Visits(w, b, visits[..i], settings)
      {
        Read(Visit(box.id, chosen[i], look(box.id, chosen[i].id)), settings);
        assert visits[..i + 1][..i] == visits[..i];
      }
      assert visits[..|chosen|] == visits;
    }

    /** `pruneEvents`, on its own hourly clock. */
    method PruneEvents(settings: Settings, now: Time)
      modifies `events, `lastPruneAt, `horizon, `clock
      ensures View() == Prune(old(View()), settings, now)
    {
      clock := now;
      if settings.eventRetentionDays == 0 { return; }
      if now - lastPruneAt < HOUR { return; }
      lastPruneAt := now;
      var cutoff := now - settings.eventRetentionDays * DAY;
      events := Since(events, cutoff);
      horizon := if cutoff > horizon then cutoff else horizon;
    }

    /**
     * `evaluate`: one pass per heartbeat, none while the monitor is off or in
     * the startup grace, and nothing at all without rules or boxes.
     */
    method EvaluateFleet(
      boxes: seq<Box>, rules: seq<Rule>, installing: set<DeviceId>, look: (DeviceId, RuleId) -> Look,
      enabled: bool, settings: Settings, heartbeatSeconds: nat, startupGraceSeconds: nat, now: Time, prunedAt: Time
    ) returns (ran: bool)
      modifies `ladders, `events, `budgets, `lastTickAt, `lastPruneAt, `history, `marks, `horizon, `clock
      ensures ran ==
        (enabled && now - startedAt >= startupGraceSeconds * 1000 && now - old(lastTickAt) >= heartbeatSeconds * 1000
         && rules != [] && boxes != [])
      ensures !ran ==> View() == old(View())
      ensures ran ==>
        var visits := PassVisits(boxes, rules, BusyBoxes(old(events), installing, settings, now), look);
        View() == RunPass(old(View()), Pass(now, visits, prunedAt), settings)
      ensures forall d | d in installing :: Spares(old(View()), View(), d)
      ensures forall e | e in old(events) && IsFreshReboot(e, settings, now) :: Spares(old(View()), View(), e.device)
    {
      hide Spares, IsFreshReboot, Evaluate, Prune;
      forall d { NothingSpares(View(), d); }
      if !enabled { return false; }
      if now - startedAt < startupGraceSeconds * 1000 { return false; }
      if now - lastTickAt < heartbeatSeconds * 1000 { return false; }
      lastTickAt := now;
      if rules == [] || boxes == [] { return false; }
      var busy := BusyBoxes(events, installing, settings, now);
      budgets := SpentBudgets(events, now);
      clock := now;
      ghost var w, b := View(), budgets;
      for i := 0 to |boxes|
        invariant Turn(View(), budgets) == Visits(w, b, PassVisits(boxes[..i], rules, busy, look), settings)
      {
        var box := boxes[i];
        assert boxes[..i + 1][..i] == boxes[..i];
        if box.id in busy { continue; }
        ghost var done := PassVisits(boxes[..i], rules, busy, look);
        VisitsCompose(w, b, done, BoxVisits(box.id, RulesFor(rules, box.group), look), settings);
        EvaluateDevice(box, rules, settings, look);
      }
      assert boxes[..|boxes|] == boxes;
      PruneEvents(settings, prunedAt);
      BusyAreSpared(old(View()), boxes, rules, installing, look, settings, now, prunedAt);
      return true;
    }
  }

  lemma {:induction false} VisitsCompose(w: World, b: Budgets, first: seq<Visit>, then': seq<Visit>, settings: Settings)
    ensures var mid := Visits(w, b, first, settings);
      Visits(w, b, first + then', settings) == Visits(mid.w, mid.b, then', settings)
    decreases |then'|
  {
    if then' == [] {
      assert first + then' == first;
    } else {
      var last := |then'| - 1;
      VisitsCompose(w, b, first, then'[..last], settings);
      assert (first + then')[..|first + then'| - 1] == first + then'[..last];
    }
  }

  // --- Whom a pass reads, and whom it leaves alone ----------------------------------------------

  /** A box is left alone exactly when an install runs on it or a reboot of it that went through is in the grace. */
  lemma BusyIff(events: seq<Event>, installing: set<DeviceId>, settings: Settings, now: Time, d: DeviceId)
    ensures d in BusyBoxes(events, installing, settings, now) <==>
      d in installing || exists e | e in events :: e.device == d && IsFreshReboot(e, settings, now)
  {
    if e :| e in events && e.device == d && IsFreshReboot(e, settings, now) {
      assert JustRebooted(events, d, settings, now);
    }
  }

  lemma SparedOn(a: World, b: World, c: World, d: DeviceId)
    requires Spares(a, b, d) && Spares(b, c, d)
    ensures Spares(a, c, d)
  {
  }

  lemma ReadingSpares(w: World, b: Budgets, v: Visit, settings: Settings, d: DeviceId)
    requires v.device != d
    ensures Spares(w, Evaluate(w, b, v, settings).w, d)
  {
    hide Decide, AlreadySaid, Tripped, Spend, Spares, Fire, Recover, Escalate;
    var start := w.(clock := v.look.actedAt);
    StartSpares(w, v, d);
    RecoverSpares(start, v, d);
    if v.look.bad == Some(true) {
      FailedSpares(start, v, d);
      EscalateSpares(Failed(start, v), b, v, LadderOf(start, v), settings, d);
      SparedOn(start, Failed(start, v), Escalate(Failed(start, v), b, v, LadderOf(start, v), settings).w, d);
    }
    SparedOn(w, start, Evaluate(w, b, v, settings).w, d);
  }

  lemma StartSpares(w: World, v: Visit, d: DeviceId)
    ensures Spares(w, w.(clock := v.look.actedAt), d)
  {
  }

  lemma RecoverSpares(w: World, v: Visit, d: DeviceId)
    requires v.device != d
    ensures Spares(w, MonitorPass.Recover(w, v), d)
  {
  }

  lemma FailedSpares(w: World, v: Visit, d: DeviceId)
    requires v.device != d
    ensures Spares(w, Failed(w, v), d)
  {
  }

  lemma EscalateSpares(w: World, b: Budgets, v: Visit, was: Ladder, settings: Settings, d: DeviceId)
    requires Pair(v) in w.ladders && v.device != d
    ensures Spares(w, MonitorPass.Escalate(w, b, v, was, settings).w, d)
  {
    hide Decide, AlreadySaid;
  }

  lemma {:induction false} ReadingsSpare(w: World, b: Budgets, visits: seq<Visit>, settings: Settings, d: DeviceId)
    requires forall v | v in visits :: v.device != d
    ensures Spares(w, Visits(w, b, visits, settings).w, d)
    decreases |visits|
  {
    hide Spares, Evaluate;
    if visits == [] {
      NothingSpares(w, d);
    } else {
      var last := |visits| - 1;
      var turn := Visits(w, b, visits[..last], settings);
      ReadingsSpare(w, b, visits[..last], settings, d);
      ReadingSpares(turn.w, turn.b, visits[last], settings, d);
      SparedOn(w, turn.w, Visits(w, b, visits, settings).w, d);
    }
  }

  lemma NothingSpares(w: World, d: DeviceId)
    ensures Spares(w, w, d)
  {
  }

  /** Whatever a pass reads, it writes nothing about the boxes it does not read. */
  lemma PassSpares(w: World, p: Pass, settings: Settings, d: DeviceId)
    requires forall v | v in p.visits :: v.device != d
    ensures Spares(w, RunPass(w, p, settings), d)
  {
    hide Evaluate;
    ReadingsSpare(w.(clock := p.startedAt), SpentBudgets(w.events, p.startedAt), p.visits, settings, d);
  }

  /**
   * Whom a pass reads: every listed box on which no install runs and of which
   * no reboot that went through is still in the grace, under each rule chosen
   * for its group, and nothing else.
   */
  lemma FleetIsRead(
      boxes: seq<Box>, rules: seq<Rule>, events: seq<Event>, installing: set<DeviceId>, settings: Settings, now: Time,
      look: (DeviceId, RuleId) -> Look, v: Visit)
    ensures v in PassVisits(boxes, rules, BusyBoxes(events, installing, settings, now), look) <==>
      && (exists box | box in boxes :: box.id == v.device && v.rule in RulesFor(rules, box.group))
      && v.look == look(v.device, v.rule.id)
      && v.device !in installing
      && forall e | e in events && e.device == v.device && e.action in {Some(Reboot), Some(RotomReboot)}
                    && e.ok == Some(true) :: e.at < now - settings.rebootGraceSeconds * 1000
  {
    var busy := BusyBoxes(events, installing, settings, now);
    BusyIff(events, installing, settings, now, v.device);
    VisitedIff(boxes, rules, busy, look, v);
    if v.device !in busy {
      forall e | e in events && e.device == v.device && e.action in {Some(Reboot), Some(RotomReboot)}
                 && e.ok == Some(true)
        ensures e.at < now - settings.rebootGraceSeconds * 1000
      {
        assert !IsFreshReboot(e, settings, now);
      }
    }
  }

  lemma {:induction false} VisitedIff(
      boxes: seq<Box>, rules: seq<Rule>, busy: set<DeviceId>, look: (DeviceId, RuleId) -> Look, v: Visit)
    ensures v in PassVisits(boxes, rules, busy, look) <==>
      && v.device !in busy && v.look == look(v.device, v.rule.id)
      && exists box | box in boxes :: box.id == v.device && v.rule in RulesFor(rules, box.group)
    decreases |boxes|
  {
    if boxes != [] {
      var before, box := boxes[..|boxes| - 1], boxes[|boxes| - 1];
      VisitedIff(before, rules, busy, look, v);
      InBoxVisits(box.id, RulesFor(rules, box.group), look, v);
      assert boxes == before + [box];
      assert forall x :: x in boxes <==> x in before || x == box;
    }
  }

  lemma InBoxVisits(d: DeviceId, rules: seq<Rule>, look: (DeviceId, RuleId) -> Look, v: Visit)
    ensures v in BoxVisits(d, rules, look) <==> v.device == d && v.rule in rules && v.look == look(d, v.rule.id)
  {
    var visits := BoxVisits(d, rules, look);
    if v.device == d && v.rule in rules && v.look == look(d, v.rule.id) {
      var i :| 0 <= i < |rules| && rules[i] == v.rule;
      assert visits[i] == v;
    }
  }

  ghost predicate Once(visits: seq<Visit>) {
    forall i, j | 0 <= i < j < |visits| :: visits[i].device != visits[j].device || visits[i].rule != visits[j].rule
  }

  lemma OnceAppended(earlier: seq<Visit>, own: seq<Visit>, d: DeviceId)
    requires Once(earlier) && Once(own) && (forall v | v in earlier :: v.device != d) && forall v | v in own :: v.device == d
    ensures Once(earlier + own)
  {
    assert forall i | 0 <= i < |earlier| :: earlier[i] in earlier;
    assert forall i | 0 <= i < |own| :: own[i] in own;
  }

  lemma OwnOnce(d: DeviceId, rules: seq<Rule>, group: Option<GroupId>, look: (DeviceId, RuleId) -> Look)
    ensures var own := BoxVisits(d, RulesFor(rules, group), look);
      Once(own) && forall v | v in own :: v.device == d
  {
    ChosenOnce(rules, group);
    var chosen := RulesFor(rules, group);
    var own := BoxVisits(d, chosen, look);
    assert forall i | 0 <= i < |own| :: own[i].rule == chosen[i];
  }

  lemma {:induction false} VisitsOnce(
      boxes: seq<Box>, rules: seq<Rule>, busy: set<DeviceId>, look: (DeviceId, RuleId) -> Look)
    requires forall i, j | 0 <= i < j < |boxes| :: boxes[i].id != boxes[j].id
    ensures Once(PassVisits(boxes, rules, busy, look))
    decreases |boxes|
  {
    hide Once;
    if boxes == [] {
      OnceOfNone();
    } else {
      var before, box := boxes[..|boxes| - 1], boxes[|boxes| - 1];
      VisitsOnce(before, rules, busy, look);
      var earlier, own := PassVisits(before, rules, busy, look), BoxVisits(box.id, RulesFor(rules, box.group), look);
      forall v | v in earlier ensures v.device != box.id {
        VisitedIff(before, rules, busy, look, v);
      }
      OwnOnce(box.id, rules, box.group, look);
      OnceAppended(earlier, own, box.id);
    }
  }

  lemma OnceOfNone()
    ensures Once([])
  {
  }

  /** And each of them once: no box is read twice under one rule. */
  lemma ReadOnce(boxes: seq<Box>, rules: seq<Rule>, busy: set<DeviceId>, look: (DeviceId, RuleId) -> Look)
    requires forall i, j | 0 <= i < j < |boxes| :: boxes[i].id != boxes[j].id
    ensures var visits := PassVisits(boxes, rules, busy, look);
      forall i, j | 0 <= i < j < |visits| :: visits[i].device != visits[j].device || visits[i].rule != visits[j].rule
  {
    VisitsOnce(boxes, rules, busy, look);
  }

  lemma ChosenOnce(rules: seq<Rule>, group: Option<GroupId>)
    ensures var chosen := RulesFor(rules, group); forall i, j | 0 <= i < j < |chosen| :: chosen[i] != chosen[j]
  {
    var chosen := RulesFor(rules, group);
    if i, j :| 0 <= i < j < |chosen| && chosen[i] == chosen[j] {
      OneRulePerFault(rules, group, chosen[i]);
    }
  }

  /** So a pass writes nothing about a box with an install running or a reboot in the grace. */
  lemma BusyAreSpared(
      w: World, boxes: seq<Box>, rules: seq<Rule>, installing: set<DeviceId>, look: (DeviceId, RuleId) -> Look,
      settings: Settings, now: Time, prunedAt: Time)
    ensures var visits := PassVisits(boxes, rules, BusyBoxes(w.events, installing, settings, now), look);
      var after := RunPass(w, Pass(now, visits, prunedAt), settings);
      && (forall d | d in installing :: Spares(w, after, d))
      && (forall e | e in w.events && IsFreshReboot(e, settings, now) :: Spares(w, after, e.device))
  {
    hide RunPass, Spares, IsFreshReboot, RulesFor;
    var busy := BusyBoxes(w.events, installing, settings, now);
    var p := Pass(now, PassVisits(boxes, rules, busy, look), prunedAt);
    forall d | d in busy ensures Spares(w, RunPass(w, p, settings), d) {
      forall v | v in p.visits ensures v.device != d {
        VisitedIff(boxes, rules, busy, look, v);
      }
      PassSpares(w, p, settings, d);
    }
    forall e | e in w.events && IsFreshReboot(e, settings, now) ensures e.device in busy {
      BusyIff(w.events, installing, settings, now, e.device);
    }
  }
}
