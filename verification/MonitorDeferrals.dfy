// What becomes of a rung that was held up: it is owed until it is executed or
// the fault goes away, and the first reading that may act executes it.

module MonitorDeferrals {
  import opened Options
  import opened MonitorModel
  import opened MonitorPass
  import opened MonitorRuns
  import opened MonitorLadders

  /** The failures so far have earned a rung that the ladder has not spent. */
  predicate Owed(rule: Rule, ladder: Ladder) {
    && ladder.failures >= rule.threshold
    && var rung := Highest(rule.steps, ladder.failures);
    && rung.Some?
    && (|| ladder.lastStepFired.None?
        || ladder.lastStepFired.value < rung.value.atFailure
        || IsTop(rule.steps, rung.value.atFailure))
  }

  /** More failures earn no less. */
  lemma OwedWithMore(rule: Rule, ladder: Ladder, more: Ladder)
    requires Owed(rule, ladder)
    requires more.failures >= ladder.failures && more.lastStepFired == ladder.lastStepFired
    ensures Owed(rule, more)
  {
    var low, high := Highest(rule.steps, ladder.failures).value, Highest(rule.steps, more.failures);
    assert low in rule.steps && low.atFailure <= more.failures;
    assert high.value in rule.steps && low.atFailure <= high.value.atFailure;
  }

  lemma EscalationActs(w: World, b: Budgets, v: Visit, was: Ladder, rung: Rung, settings: Settings)
    requires Pair(v) in w.ladders
    requires Decide(v.rule, was, w.ladders[Pair(v)].failures, v.look, v.device, b, settings) == Act(rung)
    ensures var after := Escalate(w, b, v, was, settings);
      && after.w.history == w.history + [EventOf(v, Some(rung.action), Some(v.look.ok), Fault)]
      && after.b == Spend(b, v.device, rung.action)
      && LadderOf(after.w, v).lastStepFired == Some(rung.atFailure)
      && ActedSince(after.w.marks, |w.marks|, v.device, v.rule)
  {
    ActIsFire(w, b, v, was, rung, settings);
    FireExecutes(w, v, rung.atFailure, EventOf(v, Some(rung.action), Some(v.look.ok), Fault));
    assert Acted(Escalate(w, b, v, was, settings).w.marks[|w.marks|], v.device, v.rule);
  }

  /** Without the verdict to act, what is written, if anything, is no execution, and no rung is spent. */
  lemma EscalationHolds(w: World, b: Budgets, v: Visit, was: Ladder, executed: Event, settings: Settings)
    requires Pair(v) in w.ladders && executed.ok.Some?
    requires !Decide(v.rule, was, w.ladders[Pair(v)].failures, v.look, v.device, b, settings).Act?
    ensures var after := Escalate(w, b, v, was, settings);
      && after.w.history != w.history + [executed]
      && LadderOf(after.w, v).failures == w.ladders[Pair(v)].failures
      && LadderOf(after.w, v).lastStepFired == w.ladders[Pair(v)].lastStepFired
  {
    var after := Escalate(w, b, v, was, settings).w;
    if after.history != w.history { assert after.history[|w.history|].ok == None; }
  }

  /** Held up by quiet hours, a missing socket or a tripped breaker, past the cooldown. */
  predicate Deferred(w: World, b: Budgets, v: Visit, settings: Settings) {
    && v.look.bad == Some(true)
    && LadderOf(w, v).failures + 1 >= v.rule.threshold
    && match Decide(v.rule, LadderOf(w, v), LadderOf(w, v).failures + 1, v.look, v.device, b, settings) {
         case HoldBack(action) => action.Some?
         case Refuse => true
         case Stop => true
         case _ => false
       }
  }

  lemma DeferredIsOwed(w: World, b: Budgets, v: Visit, settings: Settings)
    requires Deferred(w, b, v, settings)
    ensures Owed(v.rule, LadderOf(Evaluate(w, b, v, settings).w, v))
  {
    hide Evaluate, Escalate, Decide;
    var counted := FailureCounted(w, b, v, settings);
    DeferredAfterGuards(v.rule, LadderOf(w, v), v, b, settings);
    EscalationHolds(counted, b, v, LadderOf(w, v), EventOf(v, None, Some(true), Fault), settings);
    OwedWithMore(v.rule, LadderOf(w, v).(failures := LadderOf(w, v).failures + 1),
                 LadderOf(Evaluate(w, b, v, settings).w, v));
  }

  /** A verdict that defers comes after the test that the rung is not spent. */
  lemma DeferredAfterGuards(rule: Rule, ladder: Ladder, v: Visit, b: Budgets, settings: Settings)
    requires v.rule == rule && ladder.failures + 1 >= rule.threshold
    requires var verdict := Decide(rule, ladder, ladder.failures + 1, v.look, v.device, b, settings);
      verdict.HoldBack? || verdict.Refuse? || verdict.Stop?
    ensures Owed(rule, ladder.(failures := ladder.failures + 1))
  {
  }

  /** The pair executed a rung. */
  predicate Acted(m: Mark, d: DeviceId, rule: Rule) {
    m.Fired? && Concerns(m, d, rule.id) && m.rung.Some?
  }

  predicate ActedSince(marks: seq<Mark>, from: nat, d: DeviceId, rule: Rule) {
    exists k | from <= k < |marks| :: Acted(marks[k], d, rule)
  }

  /** A reading of another pair, or one of this pair that does not find the fault gone. */
  predicate KeepsFault(v: Visit, d: DeviceId, rule: Rule) {
    Pair(v) == (d, rule.id) ==> v.rule == rule && v.look.bad != Some(false)
  }

  lemma OwedElsewhere(w: World, b: Budgets, v: Visit, settings: Settings, d: DeviceId, rule: Rule)
    requires Pair(v) != (d, rule.id)
    ensures var after := Evaluate(w, b, v, settings).w;
      StoredLadder(after, d, rule.id) == StoredLadder(w, d, rule.id) && w.marks <= after.marks
  {
    hide Decide, AlreadySaid, EventOf;
  }

  lemma OwedHere(w: World, b: Budgets, v: Visit, settings: Settings)
    requires Owed(v.rule, LadderOf(w, v)) && v.look.bad == Some(true)
    ensures var after := Evaluate(w, b, v, settings).w;
      && w.marks <= after.marks
      && (Owed(v.rule, LadderOf(after, v)) || ActedSince(after.marks, |w.marks|, v.device, v.rule))
  {
    hide Evaluate, Escalate, Decide;
    var ladder := LadderOf(w, v);
    var counted := FailureCounted(w, b, v, settings);
    MarksGrow(w, b, v, settings);
    var verdict := Decide(v.rule, ladder, ladder.failures + 1, v.look, v.device, b, settings);
    if verdict.Act? {
      EscalationActs(counted, b, v, ladder, verdict.rung, settings);
    } else {
      EscalationHolds(counted, b, v, ladder, EventOf(v, None, Some(true), Fault), settings);
      OwedWithMore(v.rule, ladder, LadderOf(Evaluate(w, b, v, settings).w, v));
    }
  }

  lemma {:induction false} OwedThroughVisits(
      w: World, b: Budgets, visits: seq<Visit>, settings: Settings, d: DeviceId, rule: Rule)
    requires Owed(rule, StoredLadder(w, d, rule.id))
    requires forall v | v in visits :: KeepsFault(v, d, rule)
    ensures var after := Visits(w, b, visits, settings).w;
      && w.marks <= after.marks
      && (Owed(rule, StoredLadder(after, d, rule.id)) || ActedSince(after.marks, |w.marks|, d, rule))
    decreases |visits|
  {
    if visits != [] {
      var before, v := visits[..|visits| - 1], visits[|visits| - 1];
      assert v in visits && forall x | x in before :: x in visits;
      OwedThroughVisits(w, b, before, settings, d, rule);
      OneMoreVisit(w, Visits(w, b, before, settings), v, settings, d, rule);
    }
  }

  lemma OneMoreVisit(w: World, mid: Turn, v: Visit, settings: Settings, d: DeviceId, rule: Rule)
    requires w.marks <= mid.w.marks && KeepsFault(v, d, rule)
    requires Owed(rule, StoredLadder(mid.w, d, rule.id)) || ActedSince(mid.w.marks, |w.marks|, d, rule)
    ensures var after := Evaluate(mid.w, mid.b, v, settings).w;
      && w.marks <= after.marks
      && (Owed(rule, StoredLadder(after, d, rule.id)) || ActedSince(after.marks, |w.marks|, d, rule))
  {
    var after := Evaluate(mid.w, mid.b, v, settings).w;
    MarksGrow(mid.w, mid.b, v, settings);
    if ActedSince(mid.w.marks, |w.marks|, d, rule) {
      ActedStays(mid.w.marks, after.marks, |w.marks|, d, rule);
    } else if Pair(v) != (d, rule.id) {
      OwedElsewhere(mid.w, mid.b, v, settings, d, rule);
    } else if v.look.bad == Some(true) {
      OwedHere(mid.w, mid.b, v, settings);
      if ActedSince(after.marks, |mid.w.marks|, d, rule) { ActedEarlier(after.marks, |w.marks|, |mid.w.marks|, d, rule); }
    }
  }

  lemma MarksGrow(w: World, b: Budgets, v: Visit, settings: Settings)
    ensures w.marks <= Evaluate(w, b, v, settings).w.marks
  {
  }

  lemma ActedStays(marks: seq<Mark>, more: seq<Mark>, from: nat, d: DeviceId, rule: Rule)
    requires marks <= more && ActedSince(marks, from, d, rule)
    ensures ActedSince(more, from, d, rule)
  {
    var k :| from <= k < |marks| && Acted(marks[k], d, rule);
    assert Acted(more[k], d, rule);
  }

  lemma ActedEarlier(marks: seq<Mark>, from: nat, later: nat, d: DeviceId, rule: Rule)
    requires from <= later && ActedSince(marks, later, d, rule)
    ensures ActedSince(marks, from, d, rule)
  {
    var k :| later <= k < |marks| && Acted(marks[k], d, rule);
  }

  ghost predicate FaultLasts(p: Pass, d: DeviceId, rule: Rule) {
    forall v | v in p.visits :: KeepsFault(v, d, rule)
  }

  lemma {:induction false} MarksGrowThrough(w: World, b: Budgets, visits: seq<Visit>, settings: Settings)
    ensures w.marks <= Visits(w, b, visits, settings).w.marks
    decreases |visits|
  {
    if visits != [] {
      var last := |visits| - 1;
      MarksGrowThrough(w, b, visits[..last], settings);
      var mid := Visits(w, b, visits[..last], settings);
      MarksGrow(mid.w, mid.b, visits[last], settings);
    }
  }

  lemma OwedThroughPass(w: World, p: Pass, settings: Settings, d: DeviceId, rule: Rule, from: nat)
    requires FaultLasts(p, d, rule) && from <= |w.marks|
    requires Owed(rule, StoredLadder(w, d, rule.id)) || ActedSince(w.marks, from, d, rule)
    ensures var after := RunPass(w, p, settings);
      && w.marks <= after.marks
      && (Owed(rule, StoredLadder(after, d, rule.id)) || ActedSince(after.marks, from, d, rule))
  {
    var begun, b := w.(clock := p.startedAt), SpentBudgets(w.events, p.startedAt);
    var seen := Visits(begun, b, p.visits, settings).w;
    MarksGrowThrough(begun, b, p.visits, settings);
    if ActedSince(w.marks, from, d, rule) {
      ActedStays(w.marks, seen.marks, from, d, rule);
    } else {
      OwedThroughVisits(begun, b, p.visits, settings, d, rule);
      if ActedSince(seen.marks, |w.marks|, d, rule) { ActedEarlier(seen.marks, from, |w.marks|, d, rule); }
    }
  }

  /**
   * Owed is owed: through any passes in which no reading finds the fault
   * gone, and however often it is held up again, the rung stays owed until
   * one is executed. Nothing else forgets it, pruning included.
   */
  lemma {:induction false} OwedUntilActed(
      passes: seq<Pass>, i: nat, k: nat, settings: Settings, d: DeviceId, rule: Rule)
    requires i <= k <= |passes| && Owed(rule, StoredLadder(After(passes[..i], settings), d, rule.id))
    requires forall j | i <= j < k :: FaultLasts(passes[j], d, rule)
    ensures After(passes[..i], settings).marks <= After(passes[..k], settings).marks
    ensures
      || Owed(rule, StoredLadder(After(passes[..k], settings), d, rule.id))
      || ActedSince(After(passes[..k], settings).marks, |After(passes[..i], settings).marks|, d, rule)
    decreases k
  {
    hide RunPass, Owed, ActedSince, FaultLasts, StoredLadder;
    if i < k {
      OwedUntilActed(passes, i, k - 1, settings, d, rule);
      assert passes[..k][..k - 1] == passes[..k - 1];
      OwedThroughPass(After(passes[..k - 1], settings), passes[k - 1], settings, d, rule,
                      |After(passes[..i], settings).marks|);
    }
  }

  /** Nothing of what the code asks for before it acts is missing. */
  predicate MayAct(v: Visit, rung: Rung, b: Budgets, settings: Settings) {
    && v.look.inWindow
    && (NeedsSocket(rung.action) ==> v.look.online)
    && !Tripped(b, settings, v.device, rung.action)
  }

  /**
   * And it is paid: a bad reading past the cooldown executes the highest rung
   * earned by then, and spends for it, if and only if it falls in the window,
   * the box can be reached and both ceilings have room.
   */
  lemma OwedRungRuns(w: World, b: Budgets, v: Visit, settings: Settings)
    requires Owed(v.rule, LadderOf(w, v)) && v.look.bad == Some(true)
    requires !Cooling(v.rule, LadderOf(w, v), v.look.checkedAt)
    ensures Highest(v.rule.steps, LadderOf(w, v).failures + 1).Some?
    ensures var rung := Highest(v.rule.steps, LadderOf(w, v).failures + 1).value;
      var after := Evaluate(w, b, v, settings);
      rung.action != NotifyOnly ==>
        && (after.w.history == w.history + [EventOf(v, Some(rung.action), Some(v.look.ok), Fault)]
            <==> MayAct(v, rung, b, settings))
        && (MayAct(v, rung, b, settings) ==>
              && after.b == Spend(b, v.device, rung.action)
              && LadderOf(after.w, v).lastStepFired == Some(rung.atFailure))
  {
    hide Evaluate, Escalate;
    var ladder := LadderOf(w, v);
    var counted := FailureCounted(w, b, v, settings);
    OwedWithMore(v.rule, ladder, ladder.(failures := ladder.failures + 1));
    var rung := Highest(v.rule.steps, ladder.failures + 1).value;
    if rung.action != NotifyOnly {
      OwedVerdict(ladder, v, rung, b, settings);
      if MayAct(v, rung, b, settings) {
        EscalationActs(counted, b, v, ladder, rung, settings);
      } else {
        EscalationHolds(counted, b, v, ladder, EventOf(v, Some(rung.action), Some(v.look.ok), Fault), settings);
      }
    }
  }

  lemma OwedVerdict(ladder: Ladder, v: Visit, rung: Rung, b: Budgets, settings: Settings)
    requires Owed(v.rule, ladder.(failures := ladder.failures + 1))
    requires Highest(v.rule.steps, ladder.failures + 1) == Some(rung) && rung.action != NotifyOnly
    requires !Cooling(v.rule, ladder, v.look.checkedAt)
    ensures var verdict := Decide(v.rule, ladder, ladder.failures + 1, v.look, v.device, b, settings);
      if MayAct(v, rung, b, settings) then verdict == Act(rung) else !verdict.Act?
  {
  }
}
