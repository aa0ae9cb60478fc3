// How many boots one pass can cost a box, and how an operator can tell from
// the rules and the settings.

module MonitorBoots {
  import opened Numbers
  import opened Options
  import opened MonitorModel
  import opened MonitorPass
  import opened MonitorRuns
  import opened MonitorLadders
  import opened MonitorService

  // --- What can reboot a box --------------------------------------------------------------

  /** The first count of failures at which a rung can be looked at. */
  function FirstCount(rule: Rule, rung: Rung): nat {
    Max(rung.atFailure, Max(1, rule.threshold))
  }

  /** Some rung that costs a boot is the one its own count earns. */
  predicate CanBoot(rule: Rule) {
    exists s <- rule.steps :: EarnsBoot(rule, s)
  }

  predicate EarnsBoot(rule: Rule, s: Rung) {
    IsHard(s.action) && Highest(rule.steps, FirstCount(rule, s)) == Some(s)
  }

  /** Rungs earned in between two counts at which the same is the highest. */
  lemma {:induction false} HighestBetween(steps: seq<Rung>, low: nat, high: nat)
    requires Highest(steps, high).Some? && Highest(steps, high).value.atFailure <= low <= high
    ensures Highest(steps, low) == Highest(steps, high)
  {
    var rest := Highest(steps[1..], high);
    if rest.Some? {
      assert rest.value in steps;
      HighestBetween(steps[1..], low, high);
    }
  }

  /** So a rule can boot a box exactly when some count that acts earns a rung that does. */
  lemma CanBootMeans(rule: Rule)
    ensures CanBoot(rule) <==>
      exists n: nat ::
        n >= Max(1, rule.threshold) && Highest(rule.steps, n).Some? && IsHard(Highest(rule.steps, n).value.action)
  {
    if n: nat :| n >= Max(1, rule.threshold) && Highest(rule.steps, n).Some?
                 && IsHard(Highest(rule.steps, n).value.action) {
      BootIsEarned(rule, n);
    }
  }

  lemma BootIsEarned(rule: Rule, n: nat)
    requires n >= Max(1, rule.threshold) && Highest(rule.steps, n).Some? && IsHard(Highest(rule.steps, n).value.action)
    ensures CanBoot(rule)
  {
    var s := Highest(rule.steps, n).value;
    HighestBetween(rule.steps, FirstCount(rule, s), n);
    assert EarnsBoot(rule, s);
  }

  // --- Boots of a pass -----------------------------------------------------------------------

  predicate Boots(e: Event, d: DeviceId) {
    e.device == d && Executed(e) && HardEvent(e)
  }

  /** Boots executed on the box, in all of the history. */
  function BootsIn(events: seq<Event>, d: DeviceId): nat {
    if events == [] then 0
    else BootsIn(events[..|events| - 1], d) + (if Boots(events[|events| - 1], d) then 1 else 0)
  }

  lemma OneMoreEvent(events: seq<Event>, e: Event, d: DeviceId)
    ensures BootsIn(events + [e], d) == BootsIn(events, d) + (if Boots(e, d) then 1 else 0)
  {
    assert (events + [e])[..|events|] == events;
  }

  /** From one turn to the next: at most one boot of the box, only by a rule that can, and only under both ceilings. */
  ghost predicate OneBoot(w: World, b: Budgets, after: Turn, v: Visit, settings: Settings) {
    var d := v.device;
    && BootsIn(w.history, d) <= BootsIn(after.w.history, d) <= BootsIn(w.history, d) + 1
    && Used(after.b.actions, d) >= Used(b.actions, d)
    && Used(after.b.reboots, d) >= Used(b.reboots, d)
    && (BootsIn(after.w.history, d) > BootsIn(w.history, d) ==>
          && CanBoot(v.rule)
          && Used(b.actions, d) < settings.maxActionsPerDeviceHour && Used(after.b.actions, d) >= 1
          && Used(b.reboots, d) < settings.maxRebootsPerDeviceDay && Used(after.b.reboots, d) >= 1)
  }

  lemma FiredHistory(w: World, v: Visit, rung: Option<nat>, e: Event)
    requires Pair(v) in w.ladders && e.device == v.device
    ensures var after := Fire(w, v, rung, e);
      && BootsIn(w.history, v.device) <= BootsIn(after.history, v.device)
      && BootsIn(after.history, v.device) <= BootsIn(w.history, v.device) + (if Boots(e, v.device) then 1 else 0)
  {
    OneMoreEvent(w.history, e, v.device);
  }

  lemma OneEscalation(w: World, b: Budgets, v: Visit, was: Ladder, settings: Settings)
    requires Pair(v) in w.ladders && w.ladders[Pair(v)].failures >= Max(1, v.rule.threshold)
    ensures OneBoot(w, b, Escalate(w, b, v, was, settings), v, settings)
  {
    var n := w.ladders[Pair(v)].failures;
    match Decide(v.rule, was, n, v.look, v.device, b, settings)
    case Wait =>
    case Refuse =>
    case HoldBack(action) => FiredHistory(w, v, None, EventOf(v, action, None, Fault));
    case Stop => FiredHistory(w, v, None, EventOf(v, None, None, Breaker));
    case Act(rung) =>
      FiredHistory(w, v, Some(rung.atFailure), EventOf(v, Some(rung.action), Some(v.look.ok), Fault));
      if IsHard(rung.action) { BootIsEarned(v.rule, n); }
  }

  lemma OneReading(w: World, b: Budgets, v: Visit, settings: Settings)
    ensures OneBoot(w, b, Evaluate(w, b, v, settings), v, settings)
  {
    var now := w.(clock := v.look.actedAt);
    OneMoreEvent(w.history, EventOf(v, None, None, Message.Recovery), v.device);
    if v.look.bad == Some(true) {
      var counted := Failed(now, v);
      if counted.ladders[Pair(v)].failures >= v.rule.threshold {
        OneEscalation(counted, b, v, LadderOf(now, v), settings);
      }
    }
  }

  // --- At most one ------------------------------------------------------------------------------

  /** The readings of one box under its rules, in a pass that begins at `now`. */
  ghost function Seen(
      w: World, d: DeviceId, rules: seq<Rule>, look: (DeviceId, RuleId) -> Look, settings: Settings, now: Time): Turn
  {
    Visits(w, SpentBudgets(w.events, now), BoxVisits(d, rules, look), settings)
  }

  /** Whatever the state of the monitor and whatever is read, the box's rules boot it at most once in one pass. */
  ghost predicate BootsOnceAPass(d: DeviceId, rules: seq<Rule>, settings: Settings) {
    forall w: World, now: Time, look: (DeviceId, RuleId) -> Look ::
      BootsIn(Seen(w, d, rules, look, settings, now).w.history, d) <= BootsIn(w.history, d) + 1
  }

  /** At most one of the rules can. */
  predicate OneCanBoot(rules: seq<Rule>) {
    forall i, j | 0 <= i < j < |rules| :: !CanBoot(rules[i]) || !CanBoot(rules[j])
  }

  /** What the operator can look at. */
  predicate BootsBounded(rules: seq<Rule>, settings: Settings) {
    Min(settings.maxActionsPerDeviceHour, settings.maxRebootsPerDeviceDay) <= 1 || OneCanBoot(rules)
  }

  /** No boot since `w`, or one, and then a rule that can boot has been read and both budgets say so. */
  ghost predicate AtMostOne(w: World, after: Turn, d: DeviceId, rules: seq<Rule>) {
    && BootsIn(w.history, d) <= BootsIn(after.w.history, d) <= BootsIn(w.history, d) + 1
    && (BootsIn(after.w.history, d) > BootsIn(w.history, d) ==>
          && (exists i | 0 <= i < |rules| :: CanBoot(rules[i]))
          && Used(after.b.actions, d) >= 1 && Used(after.b.reboots, d) >= 1)
  }

  lemma OneMoreReading(w: World, mid: Turn, after: Turn, v: Visit, rules: seq<Rule>, settings: Settings)
    requires AtMostOne(w, mid, v.device, rules) && OneBoot(mid.w, mid.b, after, v, settings)
    requires BootsBounded(rules + [v.rule], settings)
    ensures AtMostOne(w, after, v.device, rules + [v.rule])
  {
    var more := rules + [v.rule];
    assert more[|rules|] == v.rule && forall i | 0 <= i < |rules| :: more[i] == rules[i];
    if BootsIn(mid.w.history, v.device) > BootsIn(w.history, v.device) {
      var i :| 0 <= i < |rules| && CanBoot(rules[i]);
      assert CanBoot(more[i]);
    }
  }

  lemma {:induction false} BoundedPass(
      w: World, b: Budgets, d: DeviceId, rules: seq<Rule>, look: (DeviceId, RuleId) -> Look, settings: Settings)
    requires BootsBounded(rules, settings)
    ensures AtMostOne(w, Visits(w, b, BoxVisits(d, rules, look), settings), d, rules)
    decreases |rules|
  {
    if rules != [] {
      var last, visits := |rules| - 1, BoxVisits(d, rules, look);
      assert rules == rules[..last] + [rules[last]];
      assert visits[..last] == BoxVisits(d, rules[..last], look);
      assert BootsBounded(rules[..last], settings);
      BoundedPass(w, b, d, rules[..last], look, settings);
      var mid := Visits(w, b, visits[..last], settings);
      OneReading(mid.w, mid.b, visits[last], settings);
      OneMoreReading(w, mid, Evaluate(mid.w, mid.b, visits[last], settings), visits[last], rules[..last], settings);
    }
  }

  // --- Two that can, do -----------------------------------------------------------------------------

  /** A reading that finds the fault, with nothing in the way of acting on it. */
  function Faulty(at: Time): Look { Look(Some(true), true, true, at, at, true) }

  /** The same, in quiet hours. */
  function Quiet(at: Time): Look { Look(Some(true), true, false, at, at, true) }

  function Unknown(at: Time): Look { Look(None, true, true, at, at, true) }

  /** A box one failure short of a boot, its rule's cooldown over, nothing spent. */
  ghost predicate Ready(w: World, v: Visit, s: Rung) {
    var ladder := LadderOf(w, v);
    && EarnsBoot(v.rule, s)
    && ladder.failures + 1 == FirstCount(v.rule, s)
    && ladder.lastStepFired == None
    && !Cooling(v.rule, ladder, v.look.checkedAt)
  }

  /** No ladder but this one moves. */
  ghost predicate OthersStay(w: World, after: World, p: (DeviceId, RuleId)) {
    w.ladders - {p} == after.ladders - {p}
  }

  lemma OtherLadder(w: World, after: World, p: (DeviceId, RuleId), v: Visit)
    requires OthersStay(w, after, p) && Pair(v) != p
    ensures LadderOf(after, v) == LadderOf(w, v)
  {
    assert Pair(v) in w.ladders <==> Pair(v) in w.ladders - {p};
    assert Pair(v) in after.ladders <==> Pair(v) in after.ladders - {p};
    if Pair(v) in w.ladders { assert (w.ladders - {p})[Pair(v)] == (after.ladders - {p})[Pair(v)]; }
  }

  /** With an action decided, the event is written, both budgets pay and no other ladder moves. */
  lemma ActedOn(w: World, b: Budgets, v: Visit, was: Ladder, rung: Rung, settings: Settings)
    requires Pair(v) in w.ladders
    requires Decide(v.rule, was, w.ladders[Pair(v)].failures, v.look, v.device, b, settings) == Act(rung)
    ensures var after := Escalate(w, b, v, was, settings);
      && after.b == Spend(b, v.device, rung.action)
      && BootsIn(after.w.history, v.device) == BootsIn(w.history, v.device) + (if IsHard(rung.action) then 1 else 0)
      && OthersStay(w, after.w, Pair(v))
  {
    ActIsFire(w, b, v, was, rung, settings);
    FireExecutes(w, v, rung.atFailure, EventOf(v, Some(rung.action), Some(v.look.ok), Fault));
    OneMoreEvent(w.history, EventOf(v, Some(rung.action), Some(v.look.ok), Fault), v.device);
  }

  lemma BootDecided(w: World, b: Budgets, v: Visit, s: Rung, settings: Settings)
    requires Ready(w, v, s) && v.look == Faulty(v.look.actedAt)
    requires Used(b.actions, v.device) < settings.maxActionsPerDeviceHour
    requires Used(b.reboots, v.device) < settings.maxRebootsPerDeviceDay
    ensures Decide(v.rule, LadderOf(w, v), FirstCount(v.rule, s), v.look, v.device, b, settings) == Act(s)
  {
  }

  /** A first boot under any rule that can boot: the rung is executed and both budgets pay. */
  lemma ReadyBoots(w: World, b: Budgets, v: Visit, s: Rung, settings: Settings)
    requires Ready(w, v, s) && v.look == Faulty(v.look.actedAt)
    requires Used(b.actions, v.device) < settings.maxActionsPerDeviceHour
    requires Used(b.reboots, v.device) < settings.maxRebootsPerDeviceDay
    ensures var after := Evaluate(w, b, v, settings);
      && BootsIn(after.w.history, v.device) == BootsIn(w.history, v.device) + 1
      && after.b == Spend(b, v.device, s.action)
      && OthersStay(w, after.w, Pair(v))
  {
    hide Evaluate, Escalate, Decide, BootsIn, Cooling;
    var counted := FailureCounted(w, b, v, settings);
    BootDecided(w, b, v, s, settings);
    ActedOn(counted, b, v, LadderOf(w, v), s, settings);
  }

  /** Readings that say nothing do nothing. */
  lemma {:induction false} UnknownDoesNothing(w: World, b: Budgets, visits: seq<Visit>, settings: Settings)
    requires forall v | v in visits :: v.look.bad == None
    ensures var after := Visits(w, b, visits, settings);
      after.b == b && after.w.history == w.history && after.w.ladders == w.ladders
    decreases |visits|
  {
    if visits != [] {
      assert visits[|visits| - 1] in visits;
      assert forall v | v in visits[..|visits| - 1] :: v in visits;
      UnknownDoesNothing(w, b, visits[..|visits| - 1], settings);
    }
  }

  lemma {:induction false} BootsStay(w: World, b: Budgets, visits: seq<Visit>, d: DeviceId, settings: Settings)
    requires forall v | v in visits :: v.device == d
    ensures BootsIn(w.history, d) <= BootsIn(Visits(w, b, visits, settings).w.history, d)
    decreases |visits|
  {
    if visits != [] {
      var last := |visits| - 1;
      assert visits[last] in visits;
      assert forall v | v in visits[..last] :: v in visits;
      BootsStay(w, b, visits[..last], d, settings);
      var mid := Visits(w, b, visits[..last], settings);
      OneReading(mid.w, mid.b, visits[last], settings);
    }
  }

  // --- A run that leads there -----------------------------------------------------------------------

  function LadderAt(w: World, d: DeviceId, r: RuleId): Ladder {
    if (d, r) in w.ladders then w.ladders[(d, r)] else FRESH
  }

  predicate HasFailed(ladder: Ladder, n: nat, at: Time) {
    && ladder.failures == n && ladder.lastStepFired == None
    && (ladder.lastActionAt.Some? ==> ladder.lastActionAt.value <= at)
  }

  /** By `at` two rules have found the box faulty so often, and nothing was done about it. */
  ghost predicate Waiting(w: World, d: DeviceId, r1: RuleId, n1: nat, r2: RuleId, n2: nat, at: Time) {
    && w.clock <= at
    && HasFailed(LadderAt(w, d, r1), n1, at) && HasFailed(LadderAt(w, d, r2), n2, at)
    && forall e | e in w.events :: e.at <= at
  }

  /** A fault found in quiet hours is counted, and at most announced. */
  lemma QuietReading(w: World, b: Budgets, v: Visit, settings: Settings)
    requires v.look == Quiet(v.look.actedAt)
    ensures var after := Evaluate(w, b, v, settings).w; var was, now := LadderOf(w, v), LadderOf(after, v);
      && Pair(v) in after.ladders
      && now.failures == was.failures + 1 && now.lastStepFired == was.lastStepFired
      && (now.lastActionAt == was.lastActionAt || now.lastActionAt == Some(v.look.actedAt))
      && (forall p | p != Pair(v) :: p in after.ladders <==> p in w.ladders)
      && (forall p | p != Pair(v) && p in w.ladders :: after.ladders[p] == w.ladders[p])
      && (forall e | e in after.events :: e in w.events || e.at == v.look.actedAt)
  {
    var now := w.(clock := v.look.actedAt);
    var counted := Failed(now, v);
    var verdict := Decide(v.rule, LadderOf(now, v), LadderOf(counted, v).failures, v.look, v.device, b, settings);
    assert verdict.Wait? || verdict.HoldBack?;
  }

  lemma {:induction false} SinceKeeps(events: seq<Event>, from: int, e: Event)
    requires e in Since(events, from)
    ensures e in events
  {
    var before, last := events[..|events| - 1], events[|events| - 1];
    if e in Since(before, from) { SinceKeeps(before, from, e); }
  }

  lemma QuietPass(
      passes: seq<Pass>, v: Visit, r1: RuleId, n1: nat, r2: RuleId, n2: nat, settings: Settings)
    requires IsRun(passes, settings) && v.look == Quiet(v.look.actedAt)
    requires Waiting(After(passes, settings), v.device, r1, n1, r2, n2, v.look.actedAt)
    ensures var p := Pass(v.look.actedAt, [v], v.look.actedAt); var longer := passes + [p];
      && IsRun(longer, settings)
      && Waiting(After(longer, settings), v.device, r1, if v.rule.id == r1 then n1 + 1 else n1,
                 r2, if v.rule.id == r2 then n2 + 1 else n2, v.look.actedAt)
  {
    hide Evaluate, SpentBudgets, IsRun;
    var at, w := v.look.actedAt, After(passes, settings);
    var p := Pass(at, [v], at);
    var begun, b := w.(clock := at), SpentBudgets(w.events, at);
    AtOnce(v);
    OneMorePass(passes, p, settings);
    assert [v][..0] == [];
    var seen := Evaluate(begun, b, v, settings).w;
    assert Visits(begun, b, [v], settings) == Evaluate(begun, b, v, settings);
    QuietReading(begun, b, v, settings);
    var after := RunPass(w, p, settings);
    assert after.ladders == seen.ladders && after.clock == at;
    forall e | e in after.events ensures e.at <= at {
      if e !in seen.events { SinceKeeps(seen.events, at - settings.eventRetentionDays * DAY, e); }
    }
  }

  /** Two rules can be brought to any two counts, in any settings, at any time. */
  lemma {:induction false} QuietRun(
      d: DeviceId, r1: Rule, n1: nat, r2: Rule, n2: nat, at: Time, settings: Settings) returns (passes: seq<Pass>)
    requires r1.id != r2.id
    ensures IsRun(passes, settings) && Waiting(After(passes, settings), d, r1.id, n1, r2.id, n2, at)
    decreases n1 + n2
  {
    if n1 > 0 {
      passes := QuietRun(d, r1, n1 - 1, r2, n2, at, settings);
      QuietPass(passes, Visit(d, r1, Quiet(at)), r1.id, n1 - 1, r2.id, n2, settings);
      passes := passes + [Pass(at, [Visit(d, r1, Quiet(at))], at)];
    } else if n2 > 0 {
      passes := QuietRun(d, r1, n1, r2, n2 - 1, at, settings);
      QuietPass(passes, Visit(d, r2, Quiet(at)), r1.id, n1, r2.id, n2 - 1, settings);
      passes := passes + [Pass(at, [Visit(d, r2, Quiet(at))], at)];
    } else {
      passes := [];
    }
  }

  lemma {:induction false} OldIsNotSpent(events: seq<Event>, d: DeviceId, from: int, hard: bool)
    requires forall e | e in events :: e.at < from
    ensures Spent(events, d, from, hard) == 0
    decreases |events|
  {
    if events != [] {
      var last := |events| - 1;
      assert events[last] in events;
      assert forall e | e in events[..last] :: e in events;
      OldIsNotSpent(events[..last], d, from, hard);
    }
  }

  lemma NothingSpentNow(w: World, d: DeviceId, now: Time)
    requires forall e | e in w.events :: e.at < now - DAY
    ensures Used(SpentBudgets(w.events, now).actions, d) == 0 && Used(SpentBudgets(w.events, now).reboots, d) == 0
  {
    OldIsNotSpent(w.events, d, now - HOUR, false);
    OldIsNotSpent(w.events, d, now - DAY, true);
  }

  // --- When a pass can cost two boots -------------------------------------------------------------------

  ghost predicate DistinctIds(rules: seq<Rule>) {
    forall i, j | 0 <= i < j < |rules| :: rules[i].id != rules[j].id
  }

  function Both(r1: RuleId, r2: RuleId, now: Time): (DeviceId, RuleId) -> Look {
    (d: DeviceId, r: RuleId) => if r == r1 || r == r2 then Faulty(now) else Unknown(now)
  }

  ghost predicate AllOf(visits: seq<Visit>, d: DeviceId) {
    forall v | v in visits :: v.device == d
  }

  ghost predicate SilentBut(visits: seq<Visit>, i: nat, j: nat) {
    forall k | 0 <= k < j && k < |visits| && k != i :: visits[k].look.bad == None
  }

  /** The readings of a box up to one that boots it, the ones before it saying nothing. */
  lemma FirstBoot(w: World, b: Budgets, visits: seq<Visit>, i: nat, s: Rung, settings: Settings)
    requires i < |visits| && SilentBut(visits, i, i)
    requires Ready(w, visits[i], s) && visits[i].look == Faulty(visits[i].look.actedAt)
    requires Used(b.actions, visits[i].device) < settings.maxActionsPerDeviceHour
    requires Used(b.reboots, visits[i].device) < settings.maxRebootsPerDeviceDay
    ensures var d := visits[i].device; var one := Visits(w, b, visits[..i + 1], settings);
      && BootsIn(one.w.history, d) == BootsIn(w.history, d) + 1
      && one.b == Spend(b, d, s.action)
      && OthersStay(w, one.w, Pair(visits[i]))
  {
    UnknownDoesNothing(w, b, visits[..i], settings);
    var zero := Visits(w, b, visits[..i], settings);
    assert visits[..i + 1][..i] == visits[..i];
    ReadyBoots(zero.w, zero.b, visits[i], s, settings);
  }

  /** And whatever comes after. */
  lemma BootsByTheEnd(w: World, b: Budgets, visits: seq<Visit>, i: nat, d: DeviceId, settings: Settings)
    requires i <= |visits| && AllOf(visits, d)
    ensures var some := Visits(w, b, visits[..i], settings);
      BootsIn(Visits(w, b, visits, settings).w.history, d) >= BootsIn(some.w.history, d)
  {
    var some, rest := Visits(w, b, visits[..i], settings), visits[i..];
    assert visits[..i] + rest == visits;
    VisitsCompose(w, b, visits[..i], rest, settings);
    BootsStay(some.w, some.b, rest, d, settings);
  }

  lemma BothVisits(
      w: World, b: Budgets, d: DeviceId, first: seq<Visit>, i: nat, rest: seq<Visit>, j: nat, s1: Rung, s2: Rung,
      settings: Settings)
    requires |first| == i + 1 && j < |rest| && AllOf(first, d) && AllOf(rest, d) && Pair(first[i]) != Pair(rest[j])
    requires SilentBut(first, i, i) && SilentBut(rest, j, j)
    requires first[i].look == Faulty(first[i].look.actedAt) && rest[j].look == Faulty(rest[j].look.actedAt)
    requires Ready(w, first[i], s1) && Ready(w, rest[j], s2)
    requires Used(b.actions, d) + 1 < settings.maxActionsPerDeviceHour
    requires Used(b.reboots, d) + 1 < settings.maxRebootsPerDeviceDay
    ensures BootsIn(Visits(w, b, first + rest, settings).w.history, d) >= BootsIn(w.history, d) + 2
  {
    assert first[i] in first && rest[j] in rest && first[..i + 1] == first;
    FirstBoot(w, b, first, i, s1, settings);
    var one := Visits(w, b, first, settings);
    VisitsCompose(w, b, first, rest, settings);
    OtherLadder(w, one.w, Pair(first[i]), rest[j]);
    FirstBoot(one.w, one.b, rest, j, s2, settings);
    BootsByTheEnd(one.w, one.b, rest, j + 1, d, settings);
  }

  /** The readings of a box under which two of its rules are read as faulty. */
  lemma BothRead(d: DeviceId, rules: seq<Rule>, i: nat, j: nat, now: Time)
    requires i < j < |rules| && DistinctIds(rules)
    ensures var visits := BoxVisits(d, rules, Both(rules[i].id, rules[j].id, now));
      && visits[i] == Visit(d, rules[i], Faulty(now)) && visits[j] == Visit(d, rules[j], Faulty(now))
      && SilentBut(visits, i, j)
  {
    var look := Both(rules[i].id, rules[j].id, now);
    var visits := BoxVisits(d, rules, look);
    forall k | 0 <= k < j && k < |visits| && k != i ensures visits[k].look.bad == None {
      assert rules[k].id != rules[j].id;
      assert rules[k].id != rules[i].id by {
        if k < i { assert rules[k].id != rules[i].id; } else { assert rules[i].id != rules[k].id; }
      }
      assert visits[k] == Visit(d, rules[k], look(d, rules[k].id));
      assert look(d, rules[k].id) == Unknown(now);
    }
  }

  /** The two boots of one pass, from a world in which both rules are one failure short. */
  lemma BothBoot(
      w: World, d: DeviceId, rules: seq<Rule>, i: nat, j: nat, s1: Rung, s2: Rung, now: Time, settings: Settings)
    requires i < j < |rules| && DistinctIds(rules)
    requires settings.maxActionsPerDeviceHour >= 2 && settings.maxRebootsPerDeviceDay >= 2
    requires forall e | e in w.events :: e.at < now - DAY
    requires Ready(w, Visit(d, rules[i], Faulty(now)), s1) && Ready(w, Visit(d, rules[j], Faulty(now)), s2)
    ensures BootsIn(Seen(w, d, rules, Both(rules[i].id, rules[j].id, now), settings, now).w.history, d)
         >= BootsIn(w.history, d) + 2
  {
    var visits := BoxVisits(d, rules, Both(rules[i].id, rules[j].id, now));
    NothingSpentNow(w, d, now);
    BothRead(d, rules, i, j, now);
    var first, rest := visits[..i + 1], visits[i + 1..];
    assert first + rest == visits;
    assert rules[i].id != rules[j].id;
    assert rest[j - i - 1] == visits[j];
    assert SilentBut(rest, j - i - 1, j - i - 1) by {
      forall k | 0 <= k < j - i - 1 ensures rest[k].look.bad == None { assert rest[k] == visits[k + i + 1]; }
    }
    BothVisits(w, SpentBudgets(w.events, now), d, first, i, rest, j - i - 1, s1, s2, settings);
  }

  /** The longest of the two cooldowns, and a day, after everything that happened. */
  function Later(at: Time, r1: Rule, r2: Rule): Time {
    at + DAY + 1 + (r1.cooldownSeconds + r2.cooldownSeconds) * 1000
  }

  lemma WaitingIsReady(w: World, d: DeviceId, r1: Rule, s1: Rung, r2: Rule, s2: Rung, at: Time)
    requires EarnsBoot(r1, s1) && EarnsBoot(r2, s2)
    requires Waiting(w, d, r1.id, FirstCount(r1, s1) - 1, r2.id, FirstCount(r2, s2) - 1, at)
    ensures var now := Later(at, r1, r2);
      && w.clock <= now && (forall e | e in w.events :: e.at < now - DAY)
      && Ready(w, Visit(d, r1, Faulty(now)), s1) && Ready(w, Visit(d, r2, Faulty(now)), s2)
  {
  }

  /** From any time on, a run leads to a pass in which two rules that can boot the box both do. */
  lemma TwoBootsInOnePass(
      d: DeviceId, rules: seq<Rule>, i: nat, j: nat, s1: Rung, s2: Rung, settings: Settings, at: Time)
    returns (passes: seq<Pass>, look: (DeviceId, RuleId) -> Look, now: Time)
    requires DistinctIds(rules) && i < j < |rules| && EarnsBoot(rules[i], s1) && EarnsBoot(rules[j], s2)
    requires settings.maxActionsPerDeviceHour >= 2 && settings.maxRebootsPerDeviceDay >= 2
    ensures at <= now && IsRun(passes, settings) && After(passes, settings).clock <= now
    ensures BootsIn(Seen(After(passes, settings), d, rules, look, settings, now).w.history, d)
         >= BootsIn(After(passes, settings).history, d) + 2
  {
    var r1, r2 := rules[i], rules[j];
    passes := QuietRun(d, r1, FirstCount(r1, s1) - 1, r2, FirstCount(r2, s2) - 1, at, settings);
    var w := After(passes, settings);
    WaitingIsReady(w, d, r1, s1, r2, s2, at);
    now, look := Later(at, r1, r2), Both(r1.id, r2.id, Later(at, r1, r2));
    BothBoot(w, d, rules, i, j, s1, s2, now, settings);
  }

  /** The same, of the states that runs lead to. */
  ghost predicate BootsOnceInRuns(d: DeviceId, rules: seq<Rule>, settings: Settings) {
    forall passes: seq<Pass>, now: Time, look: (DeviceId, RuleId) -> Look
      | IsRun(passes, settings) && After(passes, settings).clock <= now ::
      var w := After(passes, settings);
      BootsIn(Seen(w, d, rules, look, settings, now).w.history, d) <= BootsIn(w.history, d) + 1
  }

  lemma {:induction false} ChosenFrom(rules: seq<Rule>, group: Option<GroupId>, rule: Rule)
    requires rule in RulesFor(rules, group)
    ensures rule in rules
    decreases |rules|
  {
    var before := rules[..|rules| - 1];
    if rule in RulesFor(before, group) { ChosenFrom(before, group, rule); }
  }

  lemma {:induction false} ChosenDistinct(rules: seq<Rule>, group: Option<GroupId>)
    requires DistinctIds(rules)
    ensures DistinctIds(RulesFor(rules, group))
    decreases |rules|
  {
    if rules != [] {
      var before, last := rules[..|rules| - 1], rules[|rules| - 1];
      ChosenDistinct(before, group);
      forall rule | rule in RulesFor(before, group) ensures rule.id != last.id {
        ChosenFrom(before, group, rule);
      }
    }
  }

  lemma BoundedRulesBootOnce(d: DeviceId, rules: seq<Rule>, settings: Settings)
    requires BootsBounded(rules, settings)
    ensures BootsOnceAPass(d, rules, settings)
  {
    forall w: World, now: Time, look: (DeviceId, RuleId) -> Look
      ensures BootsIn(Seen(w, d, rules, look, settings, now).w.history, d) <= BootsIn(w.history, d) + 1
    {
      BoundedPass(w, SpentBudgets(w.events, now), d, rules, look, settings);
    }
  }

  lemma OthersCanBootTwice(d: DeviceId, rules: seq<Rule>, settings: Settings)
    requires DistinctIds(rules) && !BootsBounded(rules, settings)
    ensures !BootsOnceInRuns(d, rules, settings)
  {
    hide IsRun, After, BootsIn, EarnsBoot;
    var i, j :| 0 <= i < j < |rules| && CanBoot(rules[i]) && CanBoot(rules[j]);
    var s1 :| s1 in rules[i].steps && EarnsBoot(rules[i], s1);
    var s2 :| s2 in rules[j].steps && EarnsBoot(rules[j], s2);
    var passes, look, now := TwoBootsInOnePass(d, rules, i, j, s1, s2, settings, 0);
  }

  lemma RunsAreWorlds(d: DeviceId, rules: seq<Rule>, settings: Settings)
    ensures BootsOnceAPass(d, rules, settings) ==> BootsOnceInRuns(d, rules, settings)
  {
  }

  /**
   * When a pass costs a box at most one boot. Whatever state the monitor is
   * in and whatever the readings say, and equally in every state a run leads
   * to: if and only if a ceiling is one or less, or at most one of the rules
   * chosen for the box has a rung that boots it. An operator can tell before
   * any pass.
   */
  lemma OneBootAPassIff(d: DeviceId, rules: seq<Rule>, group: Option<GroupId>, settings: Settings)
    requires DistinctIds(rules)
    ensures BootsOnceAPass(d, RulesFor(rules, group), settings) <==> BootsBounded(RulesFor(rules, group), settings)
    ensures BootsOnceInRuns(d, RulesFor(rules, group), settings) <==> BootsBounded(RulesFor(rules, group), settings)
  {
    var chosen := RulesFor(rules, group);
    ChosenDistinct(rules, group);
    RunsAreWorlds(d, chosen, settings);
    if BootsBounded(chosen, settings) {
      BoundedRulesBootOnce(d, chosen, settings);
    } else {
      OthersCanBootTwice(d, chosen, settings);
    }
  }
}
