// The escalation engine of apps/hub/src/services/monitor.ts, on values: which
// rules apply to a box, what one reading of one rule does to its ladder, and
// what one pass over the fleet does to the event table.

module MonitorModel {
  import opened Options

  type DeviceId = nat
  type RuleId = nat
  type GroupId = nat

  /** Milliseconds. */
  type Time = nat

  const HOUR: int := 3_600_000
  const DAY: int := 86_400_000

  datatype Action =
    | RestartApp | KillApp | ClearCacheRestart | SendKeyevent | StartService | Shell
    | Reboot | RotomRestart | RotomDisconnect | RotomReboot
    | NotifyOnly

  /** Actions that ride the device socket. */
  predicate NeedsSocket(a: Action) {
    a in {RestartApp, KillApp, ClearCacheRestart, SendKeyevent, StartService, Shell, Reboot}
  }

  /** The box restarts, asked over the hub's own socket or through Rotom. */
  predicate IsHard(a: Action) {
    a in {Reboot, RotomReboot}
  }

  datatype Rung = Rung(atFailure: nat, action: Action)

  datatype Signal =
    | AgentOffline | RotomDisconnected | RotomNotScanning | RotomIdle | ServiceDown
    | AppNotForeground | AppAnr | HealthCheckFailed | LoopStalled

  datatype Rule = Rule(
    id: RuleId,
    signal: Signal,
    packageName: string,
    group: Option<GroupId>,
    threshold: nat,
    cooldownSeconds: nat,
    steps: seq<Rung>)

  // --- The rules that apply to one box ------------------------------------------

  predicate SameFault(a: Rule, b: Rule) {
    a.signal == b.signal && a.packageName == b.packageName
  }

  predicate Applies(rule: Rule, group: Option<GroupId>) {
    rule.group == None || rule.group == group
  }

  /** Where the rule for this fault sits in `chosen`, or its length if it is the first. */
  function Slot(chosen: seq<Rule>, rule: Rule): (i: nat)
    ensures i <= |chosen|
    ensures i < |chosen| ==> SameFault(chosen[i], rule)
    ensures forall j | 0 <= j < i :: !SameFault(chosen[j], rule)
  {
    if chosen == [] || SameFault(chosen[0], rule) then 0 else 1 + Slot(chosen[1..], rule)
  }

  /** A rule of the box's own group replaces a fleet-wide one in place; otherwise the first stays. */
  function Consider(chosen: seq<Rule>, rule: Rule, group: Option<GroupId>): seq<Rule> {
    if !Applies(rule, group) then chosen
    else
      var i := Slot(chosen, rule);
      if i == |chosen| then chosen + [rule]
      else if chosen[i].group == None && rule.group != None then chosen[i := rule]
      else chosen
  }

  /** `rulesFor`: the values of its map, in insertion order. */
  function RulesFor(rules: seq<Rule>, group: Option<GroupId>): seq<Rule>
    decreases |rules|
  {
    if rules == [] then []
    else Consider(RulesFor(rules[..|rules| - 1], group), rules[|rules| - 1], group)
  }

  predicate Matches(rule: Rule, group: Option<GroupId>, own: bool, fault: Rule) {
    Applies(rule, group) && SameFault(rule, fault) && (own <==> rule.group != None)
  }

  /** The first rule for the fault that is the group's own, or that is fleet-wide. */
  function First(rules: seq<Rule>, group: Option<GroupId>, own: bool, fault: Rule): (r: Option<Rule>)
    ensures r.Some? ==> r.value in rules && Matches(r.value, group, own, fault)
    decreases |rules|
  {
    if rules == [] then None
    else
      var earlier := First(rules[..|rules| - 1], group, own, fault);
      if earlier.Some? then earlier
      else if Matches(rules[|rules| - 1], group, own, fault) then Some(rules[|rules| - 1])
      else None
  }

  /** The rule that should watch a fault: specific beats general, then the first listed. */
  function Best(rules: seq<Rule>, group: Option<GroupId>, fault: Rule): Option<Rule> {
    var own := First(rules, group, true, fault);
    if own.Some? then own else First(rules, group, false, fault)
  }

  /** What `chosen` has for the fault. */
  function Chosen(chosen: seq<Rule>, fault: Rule): Option<Rule> {
    var i := Slot(chosen, fault);
    if i < |chosen| then Some(chosen[i]) else None
  }

  lemma SlotIs(chosen: seq<Rule>, fault: Rule, i: nat)
    requires i <= |chosen| && (i < |chosen| ==> SameFault(chosen[i], fault))
    requires forall j | 0 <= j < i :: !SameFault(chosen[j], fault)
    ensures Slot(chosen, fault) == i
  {
  }

  lemma ConsiderChosen(chosen: seq<Rule>, rule: Rule, group: Option<GroupId>, fault: Rule)
    ensures Chosen(Consider(chosen, rule, group), fault)
         == var was := Chosen(chosen, fault);
            if Applies(rule, group) && SameFault(rule, fault)
               && (was == None || (was.value.group == None && rule.group != None))
            then Some(rule) else was
  {
    var after := Consider(chosen, rule, group);
    var i, slot := Slot(chosen, fault), Slot(chosen, rule);
    if after != chosen {
      if SameFault(rule, fault) {
        SlotIs(chosen, fault, slot);
        SlotIs(after, fault, slot);
      } else if slot < |chosen| {
        SlotIs(after, fault, i);
      } else {
        SlotIs(after, fault, if i < |chosen| then i else i + 1);
      }
    }
  }

  ghost predicate OneEach(chosen: seq<Rule>) {
    forall i, j | 0 <= i < j < |chosen| :: !SameFault(chosen[i], chosen[j])
  }

  lemma ConsiderOneEach(chosen: seq<Rule>, rule: Rule, group: Option<GroupId>)
    requires OneEach(chosen)
    ensures OneEach(Consider(chosen, rule, group))
  {
  }

  /**
   * The rules chosen for a box: for every fault, the one that should watch it
   * or none when no rule applies; and never two for one fault.
   */
  lemma {:induction false} OneRulePerFault(rules: seq<Rule>, group: Option<GroupId>, fault: Rule)
    ensures Chosen(RulesFor(rules, group), fault) == Best(rules, group, fault)
    ensures var chosen := RulesFor(rules, group);
      forall i, j | 0 <= i < j < |chosen| :: !SameFault(chosen[i], chosen[j])
    decreases |rules|
  {
    hide Consider, SameFault;
    if rules != [] {
      var before, rule := rules[..|rules| - 1], rules[|rules| - 1];
      OneRulePerFault(before, group, fault);
      ConsiderChosen(RulesFor(before, group), rule, group, fault);
      ConsiderOneEach(RulesFor(before, group), rule, group);
      assert OneEach(RulesFor(rules, group));
    }
  }

  // --- Rule by rule -------------------------------------------------------------------------------------

  /** Of two rules for one fault this one goes first: a group's own before the fleet's, then as listed. */
  predicate GoesBefore(rules: seq<Rule>, i: nat, j: nat)
    requires i < |rules| && j < |rules|
  {
    if (rules[i].group == None) == (rules[j].group == None) then i < j else rules[j].group == None
  }

  lemma {:induction false} FirstAt(rules: seq<Rule>, group: Option<GroupId>, own: bool, fault: Rule, i: nat)
    requires i < |rules| && Matches(rules[i], group, own, fault)
    requires forall j | 0 <= j < i :: !Matches(rules[j], group, own, fault)
    ensures First(rules, group, own, fault) == Some(rules[i])
    decreases |rules|
  {
    var last := |rules| - 1;
    if i < last {
      FirstAt(rules[..last], group, own, fault, i);
    } else {
      FirstNone(rules[..last], group, own, fault);
    }
  }

  lemma {:induction false} FirstNone(rules: seq<Rule>, group: Option<GroupId>, own: bool, fault: Rule)
    requires forall j | 0 <= j < |rules| :: !Matches(rules[j], group, own, fault)
    ensures First(rules, group, own, fault) == None
    decreases |rules|
  {
    if rules != [] { FirstNone(rules[..|rules| - 1], group, own, fault); }
  }

  lemma ChosenIs(chosen: seq<Rule>, rule: Rule)
    requires OneEach(chosen)
    ensures rule in chosen <==> Chosen(chosen, rule) == Some(rule)
  {
    if i :| 0 <= i < |chosen| && chosen[i] == rule { SlotIs(chosen, rule, i); }
  }

  /** The rule is fleet-wide or of the group, and none such for its signal and package stands before it. */
  predicate StandsFirst(rules: seq<Rule>, group: Option<GroupId>, i: nat)
    requires i < |rules|
  {
    && (rules[i].group == None || rules[i].group == group)
    && forall j | 0 <= j < |rules| && j != i && (rules[j].group == None || rules[j].group == group)
                  && rules[j].signal == rules[i].signal && rules[j].packageName == rules[i].packageName ::
         GoesBefore(rules, i, j)
  }

  lemma BestWhenFirst(rules: seq<Rule>, group: Option<GroupId>, i: nat)
    requires i < |rules| && StandsFirst(rules, group, i)
    ensures Best(rules, group, rules[i]) == Some(rules[i])
  {
    var own := rules[i].group != None;
    FirstAt(rules, group, own, rules[i], i);
    if !own {
      FirstNone(rules, group, true, rules[i]);
    }
  }

  /**
   * Which rules watch a box: of distinct rules, this one does exactly when it
   * is fleet-wide or of the box's group and stands before every other such
   * rule for the same signal and package, one of the group before one of the
   * fleet and then in the order they are listed.
   */
  lemma WatchesIff(rules: seq<Rule>, group: Option<GroupId>, i: nat)
    requires i < |rules| && forall j, k | 0 <= j < k < |rules| :: rules[j] != rules[k]
    ensures rules[i] in RulesFor(rules, group) <==> StandsFirst(rules, group, i)
  {
    OneRulePerFault(rules, group, rules[i]);
    ChosenIs(RulesFor(rules, group), rules[i]);
    if StandsFirst(rules, group, i) {
      BestWhenFirst(rules, group, i);
    } else if Best(rules, group, rules[i]) == Some(rules[i]) {
      BestStandsFirst(rules, group, i);
    }
  }

  lemma {:induction false} FirstComesFirst(rules: seq<Rule>, group: Option<GroupId>, own: bool, fault: Rule, k: nat, j: nat)
    requires k < |rules| && j < |rules| && First(rules, group, own, fault) == Some(rules[k])
    requires Matches(rules[j], group, own, fault)
    requires forall a, b | 0 <= a < b < |rules| :: rules[a] != rules[b]
    ensures k <= j
    decreases |rules|
  {
    var last := |rules| - 1;
    var earlier := First(rules[..last], group, own, fault);
    if earlier.Some? {
      assert earlier.value in rules[..last];
      assert k < last;
      if j < last { FirstComesFirst(rules[..last], group, own, fault, k, j); }
    } else if j < last {
      SomeMatch(rules[..last], group, own, fault, j);
    }
  }

  lemma {:induction false} SomeMatch(rules: seq<Rule>, group: Option<GroupId>, own: bool, fault: Rule, j: nat)
    requires j < |rules| && Matches(rules[j], group, own, fault)
    ensures First(rules, group, own, fault).Some?
    decreases |rules|
  {
    if j < |rules| - 1 { SomeMatch(rules[..|rules| - 1], group, own, fault, j); }
  }

  lemma BestStandsFirst(rules: seq<Rule>, group: Option<GroupId>, i: nat)
    requires i < |rules| && Best(rules, group, rules[i]) == Some(rules[i])
    requires forall a, b | 0 <= a < b < |rules| :: rules[a] != rules[b]
    ensures StandsFirst(rules, group, i)
  {
    var own := First(rules, group, true, rules[i]);
    forall j | 0 <= j < |rules| && j != i && (rules[j].group == None || rules[j].group == group)
               && rules[j].signal == rules[i].signal && rules[j].packageName == rules[i].packageName
      ensures GoesBefore(rules, i, j)
    {
      if rules[j].group != None {
        SomeMatch(rules, group, true, rules[i], j);
        FirstComesFirst(rules, group, true, rules[i], i, j);
      } else if own.None? {
        FirstComesFirst(rules, group, false, rules[i], i, j);
      }
    }
  }
}
