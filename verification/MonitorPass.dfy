// One evaluation pass of apps/hub/src/services/monitor.ts on values: the
// budgets it counts, the ladder it climbs, and the events it writes.

module MonitorPass {
  import opened Options
  import opened MonitorModel

  datatype Settings = Settings(
    maxActionsPerDeviceHour: nat,
    maxRebootsPerDeviceDay: nat,
    rebootGraceSeconds: nat,
    eventRetentionDays: nat)

  // --- Events and budgets ---------------------------------------------------------

  /** The three texts an event of a rule can carry: its name, its recovery, a tripped breaker. */
  datatype Message = Fault | Recovery | Breaker

  datatype Event = Event(
    device: DeviceId, rule: RuleId, at: Time, action: Option<Action>, ok: Option<bool>, message: Message)

  /** An action that really went out, whether or not it worked. */
  predicate Executed(e: Event) {
    e.action.Some? && e.ok.Some?
  }

  predicate HardEvent(e: Event) {
    e.action.Some? && IsHard(e.action.value)
  }

  /** Events of the box since `from` that name an action: what `spentBudgets` counts. */
  function Spent(events: seq<Event>, d: DeviceId, from: int, hard: bool): nat
    decreases |events|
  {
    if events == [] then 0
    else
      var e := events[|events| - 1];
      Spent(events[..|events| - 1], d, from, hard)
      + (if e.device == d && from <= e.at && e.action.Some? && (hard ==> HardEvent(e)) then 1 else 0)
  }

  datatype Budgets = Budgets(actions: map<DeviceId, nat>, reboots: map<DeviceId, nat>)

  function Devices(events: seq<Event>): set<DeviceId> {
    set e | e in events :: e.device
  }

  function SpentBudgets(events: seq<Event>, now: Time): Budgets {
    Budgets(map d | d in Devices(events) :: Spent(events, d, now - HOUR, false),
            map d | d in Devices(events) :: Spent(events, d, now - DAY, true))
  }

  function Used(m: map<DeviceId, nat>, d: DeviceId): nat {
    if d in m then m[d] else 0
  }

  predicate Tripped(b: Budgets, settings: Settings, d: DeviceId, a: Action) {
    || Used(b.actions, d) >= settings.maxActionsPerDeviceHour
    || (IsHard(a) && Used(b.reboots, d) >= settings.maxRebootsPerDeviceDay)
  }

  function Spend(b: Budgets, d: DeviceId, a: Action): Budgets {
    Budgets(b.actions[d := Used(b.actions, d) + 1],
            if IsHard(a) then b.reboots[d := Used(b.reboots, d) + 1] else b.reboots)
  }

  // --- The ladder --------------------------------------------------------------------

  datatype Ladder = Ladder(
    failures: nat,
    firstFailedAt: Option<Time>,
    lastActionAt: Option<Time>,
    lastStepFired: Option<nat>)

  const FRESH := Ladder(0, None, None, None)

  /** The highest rung at or below the count; of equal rungs the first listed. */
  function Highest(steps: seq<Rung>, bound: nat): (r: Option<Rung>)
    ensures r.Some? ==> r.value in steps && r.value.atFailure <= bound
    ensures forall s | s in steps && s.atFailure <= bound :: r.Some? && s.atFailure <= r.value.atFailure
  {
    if steps == [] then None
    else
      var rest := Highest(steps[1..], bound);
      if steps[0].atFailure <= bound && (rest.Some? ==> rest.value.atFailure <= steps[0].atFailure)
      then Some(steps[0]) else rest
  }

  predicate IsTop(steps: seq<Rung>, atFailure: nat) {
    forall s | s in steps :: s.atFailure <= atFailure
  }

  /** What the box's latest reading says about one rule, and the moments the pass looked and acted. */
  datatype Look = Look(bad: Option<bool>, online: bool, inWindow: bool, checkedAt: Time, actedAt: Time, ok: bool)

  /** What `escalate` decides. */
  datatype Verdict = Wait | HoldBack(action: Option<Action>) | Refuse | Stop | Act(rung: Rung)

  predicate Cooling(rule: Rule, ladder: Ladder, now: Time) {
    ladder.lastActionAt.Some? && now - ladder.lastActionAt.value < rule.cooldownSeconds * 1000
  }

  function Decide(
    rule: Rule, ladder: Ladder, failures: nat, look: Look, d: DeviceId, b: Budgets, settings: Settings
  ): Verdict {
    var step := Highest(rule.steps, failures);
    if step == None || Cooling(rule, ladder, look.checkedAt) then Wait
    else
      var rung := step.value;
      if ladder.lastStepFired.Some? && rung.atFailure <= ladder.lastStepFired.value && !IsTop(rule.steps, rung.atFailure)
      then Wait
      else if !(look.inWindow && rung.action != NotifyOnly)
      then HoldBack(if rung.action == NotifyOnly then None else Some(rung.action))
      else if NeedsSocket(rung.action) && !look.online then Refuse
      else if Tripped(b, settings, d, rung.action) then Stop
      else Act(rung)
  }

  // --- One reading of one rule ---------------------------------------------------------

  datatype Visit = Visit(device: DeviceId, rule: Rule, look: Look)

  /** History of the ladders: every stamp of a cooldown, and every all-clear. */
  datatype Mark =
    | Fired(device: DeviceId, rule: RuleId, at: Time, rung: Option<nat>, failures: nat)
    | Recovered(device: DeviceId, rule: RuleId)

  /**
   * The stored tables, and beside them what only the statements need:
   * `history`, the event table had nothing ever been pruned, everything before
   * `horizon` being gone from the real one; `marks`; and the `clock`.
   */
  datatype World = World(
    events: seq<Event>,
    ladders: map<(DeviceId, RuleId), Ladder>,
    lastPruneAt: Time,
    history: seq<Event>,
    marks: seq<Mark>,
    horizon: int,
    clock: Time)

  function Pair(v: Visit): (DeviceId, RuleId) {
    (v.device, v.rule.id)
  }

  function LadderOf(w: World, v: Visit): Ladder {
    if Pair(v) in w.ladders then w.ladders[Pair(v)] else FRESH
  }

  function Note(w: World, e: Event): World {
    w.(events := w.events + [e], history := w.history + [e])
  }

  /** Whether the newest event of the pair is this same announcement. */
  predicate AlreadySaid(events: seq<Event>, d: DeviceId, r: RuleId, message: Message)
    decreases |events|
  {
    events != [] &&
      var e := events[|events| - 1];
      if e.device == d && e.rule == r then e.action == None && e.message == message
      else AlreadySaid(events[..|events| - 1], d, r, message)
  }

  /** `fire`: stamp the ladder, then write the event unless it only repeats the last one. */
  function Fire(w: World, v: Visit, rung: Option<nat>, e: Event): World
    requires Pair(v) in w.ladders
  {
    var ladder := w.ladders[Pair(v)];
    var stamped := ladder.(
      lastActionAt := Some(v.look.actedAt),
      lastStepFired := if rung == None then ladder.lastStepFired else rung);
    var marked := w.(
      ladders := w.ladders[Pair(v) := stamped],
      marks := w.marks + [Fired(v.device, v.rule.id, v.look.actedAt, rung, ladder.failures)]);
    if rung == None && AlreadySaid(w.events, v.device, v.rule.id, e.message) then marked else Note(marked, e)
  }

  function EventOf(v: Visit, action: Option<Action>, ok: Option<bool>, message: Message): Event {
    Event(v.device, v.rule.id, v.look.actedAt, action, ok, message)
  }

  datatype Turn = Turn(w: World, b: Budgets)

  /** `escalate`, on the ladder as it was read before the failure was counted. */
  function Escalate(w: World, b: Budgets, v: Visit, was: Ladder, settings: Settings): Turn
    requires Pair(v) in w.ladders
  {
    match Decide(v.rule, was, w.ladders[Pair(v)].failures, v.look, v.device, b, settings)
    case Wait => Turn(w, b)
    case Refuse => Turn(w, b)
    case HoldBack(action) => Turn(Fire(w, v, None, EventOf(v, action, None, Fault)), b)
    case Stop => Turn(Fire(w, v, None, EventOf(v, None, None, Breaker)), b)
    case Act(rung) =>
      Turn(Fire(w, v, Some(rung.atFailure), EventOf(v, Some(rung.action), Some(v.look.ok), Fault)),
           Spend(b, v.device, rung.action))
  }

  /** `recover`. */
  function Recover(w: World, v: Visit): World {
    if Pair(v) !in w.ladders || w.ladders[Pair(v)].failures == 0 then w
    else
      var cleared := w.ladders[Pair(v)].(failures := 0, firstFailedAt := None, lastStepFired := None);
      Note(w.(ladders := w.ladders[Pair(v) := cleared], marks := w.marks + [Mark.Recovered(v.device, v.rule.id)]),
           EventOf(v, None, None, Message.Recovery))
  }

  /** The failure counted, before anything is done about it. */
  function Failed(w: World, v: Visit): World {
    var was := LadderOf(w, v);
    var counted := was.(
      failures := was.failures + 1,
      firstFailedAt := if was.firstFailedAt == None then Some(v.look.checkedAt) else was.firstFailedAt);
    w.(ladders := w.ladders[Pair(v) := counted])
  }

  /** The body of the rule loop of `evaluateDevice`. */
  function Evaluate(w0: World, b: Budgets, v: Visit, settings: Settings): Turn {
    var w := w0.(clock := v.look.actedAt);
    match v.look.bad
    case None => Turn(w, b)
    case Some(false) => Turn(Recover(w, v), b)
    case Some(true) =>
      var counted := Failed(w, v);
      if LadderOf(counted, v).failures < v.rule.threshold then Turn(counted, b)
      else Escalate(counted, b, v, LadderOf(w, v), settings)
  }

  // --- A pass -----------------------------------------------------------------------------

  /** The readings of one pass in the order the two loops take them. */
  function Visits(w: World, b: Budgets, visits: seq<Visit>, settings: Settings): Turn
    decreases |visits|
  {
    if visits == [] then Turn(w, b)
    else
      var last := |visits| - 1;
      var turn := Visits(w, b, visits[..last], settings);
      Evaluate(turn.w, turn.b, visits[last], settings)
  }

  function Since(events: seq<Event>, from: int): (r: seq<Event>)
    ensures |r| <= |events|
    decreases |events|
  {
    if events == [] then []
    else
      var e := events[|events| - 1];
      var earlier := Since(events[..|events| - 1], from);
      if from <= e.at then earlier + [e] else earlier
  }

  /** `pruneEvents`: at most hourly, and never when the retention is zero. */
  function Prune(w: World, settings: Settings, now: Time): World {
    if settings.eventRetentionDays == 0 || now - w.lastPruneAt < HOUR then w.(clock := now)
    else
      var cutoff := now - settings.eventRetentionDays * DAY;
      w.(events := Since(w.events, cutoff), lastPruneAt := now, clock := now,
         horizon := if cutoff > w.horizon then cutoff else w.horizon)
  }

  /** One pass: when it began, what it read, and when it pruned. */
  datatype Pass = Pass(startedAt: Time, visits: seq<Visit>, prunedAt: Time)

  function RunPass(w: World, p: Pass, settings: Settings): World {
    var turn := Visits(w.(clock := p.startedAt), SpentBudgets(w.events, p.startedAt), p.visits, settings);
    Prune(turn.w, settings, p.prunedAt)
  }

  /** Boxes a pass leaves alone because it has just rebooted them. */
  predicate JustRebooted(events: seq<Event>, d: DeviceId, settings: Settings, now: Time) {
    exists e | e in events ::
      e.device == d && HardEvent(e) && e.ok == Some(true) && now - settings.rebootGraceSeconds * 1000 <= e.at
  }
}
