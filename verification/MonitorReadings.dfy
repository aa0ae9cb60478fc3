// What one reading of one rule does, in terms of the reading, the stored
// ladder and the budgets: when an action goes out, and what is counted.

module MonitorReadings {
  import opened Options
  import opened MonitorModel
  import opened MonitorPass

  /** The rung is the highest the box has earned with this many failures; of equal ones, the first listed. */
  ghost predicate Earned(steps: seq<Rung>, failures: nat, rung: Rung) {
    exists i :: EarnedAt(steps, failures, rung, i)
  }

  ghost predicate EarnedAt(steps: seq<Rung>, failures: nat, rung: Rung, i: int) {
    && 0 <= i < |steps| && steps[i] == rung && rung.atFailure <= failures
    && (forall j | 0 <= j < |steps| && steps[j].atFailure <= failures :: steps[j].atFailure <= rung.atFailure)
    && (forall j | 0 <= j < i :: steps[j].atFailure != rung.atFailure)
  }

  lemma {:induction false} HighestIsEarned(steps: seq<Rung>, failures: nat)
    ensures forall rung :: Highest(steps, failures) == Some(rung) ==> Earned(steps, failures, rung)
  {
    if steps != [] {
      HighestIsEarned(steps[1..], failures);
      var rest, all := Highest(steps[1..], failures), Highest(steps, failures);
      if all.Some? {
        if all == rest {
          var i :| EarnedAt(steps[1..], failures, rest.value, i);
          assert forall j | 0 < j < |steps| :: steps[j] == steps[1..][j - 1];
          assert steps[0].atFailure > failures || steps[0].atFailure <= rest.value.atFailure;
          if steps[0].atFailure == rest.value.atFailure {
            assert steps[0] == all.value;
            assert EarnedAt(steps, failures, all.value, 0);
          } else {
            assert EarnedAt(steps, failures, all.value, i + 1);
          }
        } else {
          assert forall j | 0 < j < |steps| :: steps[j] == steps[1..][j - 1];
          assert EarnedAt(steps, failures, all.value, 0);
        }
      }
    }
  }

  lemma EarnedIsHighest(steps: seq<Rung>, failures: nat, rung: Rung)
    requires Earned(steps, failures, rung)
    ensures Highest(steps, failures) == Some(rung)
  {
    HighestIsEarned(steps, failures);
    var i :| EarnedAt(steps, failures, rung, i);
    assert steps[i] in steps;
    var highest := Highest(steps, failures).value;
    var k :| EarnedAt(steps, failures, highest, k);
  }

  /** A bad reading that gets as far as this rung: earned, past the cooldown, and not spent or the top. */
  ghost predicate GetsTo(v: Visit, was: Ladder, rung: Rung) {
    && v.look.bad == Some(true)
    && was.failures + 1 >= v.rule.threshold
    && Earned(v.rule.steps, was.failures + 1, rung)
    && (was.lastActionAt.Some? ==> v.look.checkedAt - was.lastActionAt.value >= v.rule.cooldownSeconds * 1000)
    && (was.lastStepFired.Some? ==>
          rung.atFailure > was.lastStepFired.value || forall s | s in v.rule.steps :: s.atFailure <= rung.atFailure)
  }

  /** Every condition under which a bad reading lets this rung's action go out. */
  ghost predicate LetsGo(v: Visit, was: Ladder, rung: Rung, b: Budgets, settings: Settings) {
    && GetsTo(v, was, rung)
    && v.look.inWindow && rung.action != NotifyOnly
    && (rung.action in {RotomRestart, RotomDisconnect, RotomReboot} || v.look.online)
    && Used(b.actions, v.device) < settings.maxActionsPerDeviceHour
    && (rung.action in {Reboot, RotomReboot} ==> Used(b.reboots, v.device) < settings.maxRebootsPerDeviceDay)
  }

  ghost predicate SomeGoes(v: Visit, was: Ladder, b: Budgets, settings: Settings) {
    exists rung :: LetsGo(v, was, rung, b, settings)
  }

  lemma GetsDecided(v: Visit, was: Ladder, rung: Rung, b: Budgets, settings: Settings)
    requires GetsTo(v, was, rung)
    ensures Decide(v.rule, was, was.failures + 1, v.look, v.device, b, settings) ==
      if !v.look.inWindow || rung.action == NotifyOnly
      then HoldBack(if rung.action == NotifyOnly then None else Some(rung.action))
      else if rung.action !in {RotomRestart, RotomDisconnect, RotomReboot} && !v.look.online then Refuse
      else if Used(b.actions, v.device) >= settings.maxActionsPerDeviceHour
              || (rung.action in {Reboot, RotomReboot} && Used(b.reboots, v.device) >= settings.maxRebootsPerDeviceDay)
      then Stop
      else Act(rung)
  {
    EarnedIsHighest(v.rule.steps, was.failures + 1, rung);
  }

  lemma OnlyWhenItGetsThere(v: Visit, was: Ladder, rung: Rung, b: Budgets, settings: Settings)
    requires v.look.bad == Some(true) && was.failures + 1 >= v.rule.threshold
    requires Decide(v.rule, was, was.failures + 1, v.look, v.device, b, settings) == Act(rung)
    ensures GetsTo(v, was, rung)
  {
    hide Tripped, NeedsSocket, Earned;
    HighestIsEarned(v.rule.steps, was.failures + 1);
  }

  lemma DecidesToAct(v: Visit, was: Ladder, b: Budgets, settings: Settings, rung: Rung)
    requires v.look.bad == Some(true) && was.failures + 1 >= v.rule.threshold
    ensures Decide(v.rule, was, was.failures + 1, v.look, v.device, b, settings) == Act(rung)
       <==> LetsGo(v, was, rung, b, settings)
  {
    hide Decide, GetsTo;
    if Decide(v.rule, was, was.failures + 1, v.look, v.device, b, settings) == Act(rung) {
      OnlyWhenItGetsThere(v, was, rung, b, settings);
    }
    if GetsTo(v, was, rung) {
      GetsDecided(v, was, rung, b, settings);
    }
  }

  /**
   * When an action goes out. A reading executes this rung's action exactly
   * when the signal is bad for the threshold or longer, the rung is the
   * highest earned, the cooldown is over, the rung is not spent or is the top,
   * it is inside the window and no mere notice, the box is online or the
   * action travels Rotom's own socket, and neither ceiling is reached. It is
   * then recorded with its outcome and paid for, a boot twice over.
   */
  lemma ActsIff(w: World, b: Budgets, v: Visit, settings: Settings, rung: Rung)
    ensures var was, after := LadderOf(w, v), Evaluate(w, b, v, settings);
      && (LetsGo(v, was, rung, b, settings) ==>
            && after.w.history
                 == w.history + [Event(v.device, v.rule.id, v.look.actedAt, Some(rung.action), Some(v.look.ok), Fault)]
            && after.b.actions == b.actions[v.device := Used(b.actions, v.device) + 1]
            && after.b.reboots ==
                 if rung.action in {Reboot, RotomReboot}
                 then b.reboots[v.device := Used(b.reboots, v.device) + 1] else b.reboots)
      && (!SomeGoes(v, was, b, settings) ==>
            && after.b == b
            && forall i | |w.history| <= i < |after.w.history| :: after.w.history[i].ok == None)
  {
    hide Decide, Highest, AlreadySaid, LetsGo, Evaluate;
    var was := LadderOf(w, v);
    if LetsGo(v, was, rung, b, settings) {
      GoesWhenBad(v, was, rung, b, settings);
      DecidesToAct(v, was, b, settings, rung);
      ActGoesOut(w, b, v, settings, rung);
    } else if !SomeGoes(v, was, b, settings) {
      if v.look.bad == Some(true) && was.failures + 1 >= v.rule.threshold {
        forall x: Rung ensures Decide(v.rule, was, was.failures + 1, v.look, v.device, b, settings) != Act(x) {
          DecidesToAct(v, was, b, settings, x);
        }
      }
      NothingGoesOut(w, b, v, settings);
    }
  }

  lemma ActGoesOut(w: World, b: Budgets, v: Visit, settings: Settings, rung: Rung)
    requires v.look.bad == Some(true) && LadderOf(w, v).failures + 1 >= v.rule.threshold
    requires Decide(v.rule, LadderOf(w, v), LadderOf(w, v).failures + 1, v.look, v.device, b, settings) == Act(rung)
    ensures var after := Evaluate(w, b, v, settings);
      && after.w.history
           == w.history + [Event(v.device, v.rule.id, v.look.actedAt, Some(rung.action), Some(v.look.ok), Fault)]
      && after.b.actions == b.actions[v.device := Used(b.actions, v.device) + 1]
      && after.b.reboots ==
           if rung.action in {Reboot, RotomReboot}
           then b.reboots[v.device := Used(b.reboots, v.device) + 1] else b.reboots
  {
    hide Decide, AlreadySaid;
  }

  lemma NothingGoesOut(w: World, b: Budgets, v: Visit, settings: Settings)
    requires v.look.bad == Some(true) && LadderOf(w, v).failures + 1 >= v.rule.threshold ==>
      !Decide(v.rule, LadderOf(w, v), LadderOf(w, v).failures + 1, v.look, v.device, b, settings).Act?
    ensures var after := Evaluate(w, b, v, settings);
      after.b == b && forall i | |w.history| <= i < |after.w.history| :: after.w.history[i].ok == None
  {
    hide Decide, AlreadySaid;
  }

  lemma GoesWhenBad(v: Visit, was: Ladder, rung: Rung, b: Budgets, settings: Settings)
    requires LetsGo(v, was, rung, b, settings)
    ensures v.look.bad == Some(true) && was.failures + 1 >= v.rule.threshold
  {
  }

  /**
   * What is counted. A bad reading counts one failure; a good one forgets them
   * all, and the rungs they had used up; an unknown one leaves the ladder
   * alone. Nothing is written before the threshold is reached.
   */
  lemma ReadingCounts(w: World, b: Budgets, v: Visit, settings: Settings)
    ensures var was, after := LadderOf(w, v), Evaluate(w, b, v, settings);
      var ladder := LadderOf(after.w, v);
      && (v.look.bad == None ==> after.w.ladders == w.ladders && after.w.history == w.history && after.b == b)
      && (v.look.bad == Some(true) ==>
            && ladder.failures == was.failures + 1
            && ladder.firstFailedAt == (if was.firstFailedAt.Some? then was.firstFailedAt else Some(v.look.checkedAt))
            && (was.failures + 1 < v.rule.threshold ==>
                  && ladder == was.(failures := ladder.failures, firstFailedAt := ladder.firstFailedAt)
                  && after.w.history == w.history && after.b == b))
      && (v.look.bad == Some(false) ==> ladder.failures == 0 && ladder.lastActionAt == was.lastActionAt && after.b == b)
      && (v.look.bad == Some(false) && was.failures > 0 ==>
            && ladder.lastStepFired == None && ladder.firstFailedAt == None
            && after.w.history
                 == w.history + [Event(v.device, v.rule.id, v.look.actedAt, None, None, Message.Recovery)])
  {
    hide Decide, AlreadySaid;
  }

  // --- What is announced ------------------------------------------------------------------------------

  /** The newest event of the pair. */
  predicate IsNewest(events: seq<Event>, d: DeviceId, r: RuleId, i: int) {
    && 0 <= i < |events| && events[i].device == d && events[i].rule == r
    && forall j | i < j < |events| :: events[j].device != d || events[j].rule != r
  }

  /** It announced just this, without an action. */
  predicate IsSame(events: seq<Event>, v: Visit, message: Message, i: int) {
    IsNewest(events, v.device, v.rule.id, i) && events[i].action == None && events[i].message == message
  }

  lemma {:induction false} SaidIff(events: seq<Event>, v: Visit, message: Message)
    ensures AlreadySaid(events, v.device, v.rule.id, message) <==> exists i :: IsSame(events, v, message, i)
    decreases |events|
  {
    if events != [] {
      var last := |events| - 1;
      SaidIff(events[..last], v, message);
      if events[last].device == v.device && events[last].rule == v.rule.id {
        assert IsNewest(events, v.device, v.rule.id, last);
        assert forall i | IsNewest(events, v.device, v.rule.id, i) :: i == last;
        if AlreadySaid(events, v.device, v.rule.id, message) { assert IsSame(events, v, message, last); }
      } else {
        assert forall i :: IsSame(events, v, message, i) <==> IsSame(events[..last], v, message, i);
      }
    }
  }

  /** The event, unless the newest of the pair announced the same without an action. */
  ghost predicate Announces(w: World, after: World, v: Visit, e: Event) {
    && after.history == (if exists i :: IsSame(w.events, v, e.message, i) then w.history else w.history + [e])
    && LadderOf(after, v).lastActionAt == Some(v.look.actedAt)
    && LadderOf(after, v).lastStepFired == LadderOf(w, v).lastStepFired
  }

  /**
   * What a rung that is reached does when it may not act. Outside the window,
   * and for a mere notice, it is announced, a held-back action by its name; a
   * box without its socket is left for later and nothing is written; past a
   * ceiling the breaker is announced. An announcement takes the cooldown and
   * no rung, and is not repeated while nothing else has been said.
   */
  lemma AnnouncesIff(w: World, b: Budgets, v: Visit, settings: Settings, rung: Rung)
    requires GetsTo(v, LadderOf(w, v), rung)
    ensures var after := Evaluate(w, b, v, settings);
      && (!v.look.inWindow || rung.action == NotifyOnly ==>
            after.b == b && Announces(w, after.w, v, Event(v.device, v.rule.id, v.look.actedAt,
              if rung.action == NotifyOnly then None else Some(rung.action), None, Fault)))
      && (v.look.inWindow && rung.action != NotifyOnly ==>
            if rung.action !in {RotomRestart, RotomDisconnect, RotomReboot} && !v.look.online then
              after.b == b && after.w.history == w.history
              && LadderOf(after.w, v).lastActionAt == LadderOf(w, v).lastActionAt
            else if Used(b.actions, v.device) >= settings.maxActionsPerDeviceHour
                    || (rung.action in {Reboot, RotomReboot}
                        && Used(b.reboots, v.device) >= settings.maxRebootsPerDeviceDay) then
              after.b == b && Announces(w, after.w, v, Event(v.device, v.rule.id, v.look.actedAt, None, None, Breaker))
            else
              LadderOf(after.w, v).lastStepFired == Some(rung.atFailure))
  {
    hide Decide, AlreadySaid, Earned, Highest, IsSame;
    SaidIff(w.events, v, Fault);
    SaidIff(w.events, v, Breaker);
    GetsDecided(v, LadderOf(w, v), rung, b, settings);
  }

  /**
   * So a held-back action, unlike a tripped breaker, is announced again at
   * every cooldown for as long as it is held back: its own announcement names
   * the action, and does not count as having said it.
   */
  lemma HeldBackIsRepeated(w: World, b: Budgets, v: Visit, settings: Settings, rung: Rung, i: nat)
    requires GetsTo(v, LadderOf(w, v), rung) && !v.look.inWindow && rung.action != NotifyOnly
    requires IsNewest(w.events, v.device, v.rule.id, i)
    requires w.events[i] == Event(v.device, v.rule.id, w.events[i].at, Some(rung.action), None, Fault)
    ensures Evaluate(w, b, v, settings).w.history
         == w.history + [Event(v.device, v.rule.id, v.look.actedAt, Some(rung.action), None, Fault)]
  {
    AnnouncesIff(w, b, v, settings, rung);
    assert forall j | IsNewest(w.events, v.device, v.rule.id, j) :: j == i;
  }

  // --- What is pruned -----------------------------------------------------------------------------------

  lemma {:induction false} SinceIff(events: seq<Event>, from: int, e: Event)
    ensures e in Since(events, from) <==> e in events && from <= e.at
    decreases |events|
  {
    if events != [] {
      SinceIff(events[..|events| - 1], from, e);
      assert events == events[..|events| - 1] + [events[|events| - 1]];
    }
  }

  /** At most hourly, and never with a retention of nothing, the events older than the retention go, and only they. */
  lemma PrunedIff(w: World, settings: Settings, now: Time, e: Event)
    ensures var after := Prune(w, settings, now);
      var due := settings.eventRetentionDays > 0 && now - w.lastPruneAt >= 3_600_000;
      && (e in after.events <==> e in w.events && (due ==> now - settings.eventRetentionDays * 86_400_000 <= e.at))
      && after.lastPruneAt == (if due then now else w.lastPruneAt)
      && after.history == w.history && after.ladders == w.ladders
  {
    SinceIff(w.events, now - settings.eventRetentionDays * DAY, e);
  }
}
