// Keeping one heartbeat a slot of the clock: the gate of `recordSample` and
// the prune of its rate-limit map, apps/hub/src/services/metrics.ts.

module Sampler {
  type Id = string

  const PRUNE_INTERVAL_MS: int := 3_600_000

  datatype Settings = Settings(retentionDays: int, sampleSeconds: int, heartbeatSeconds: int)

  datatype Sample = Sample(device: Id, at: nat)

  datatype State = State(lastSampleAt: map<Id, nat>, lastPruneAt: int, stored: seq<Sample>)

  function IntervalMs(settings: Settings): (ms: nat)
    ensures ms > 0
  {
    if settings.sampleSeconds > 1 then settings.sampleSeconds * 1000 else 1000
  }

  /** `Math.floor(at / every)`, by counting. */
  function Slot(at: nat, every: nat): nat
    requires every > 0
  {
    if at < every then 0 else Slot(at - every, every) + 1
  }

  lemma {:induction false} SlotIsFloor(at: nat, every: nat)
    requires every > 0
    ensures Slot(at, every) * every <= at < Slot(at, every) * every + every
  {
    if at >= every {
      SlotIsFloor(at - every, every);
      assert Slot(at, every) * every == Slot(at - every, every) * every + every;
    }
  }

  /** A sample interval no longer than the beat takes the gate off. */
  predicate Gated(settings: Settings) {
    settings.sampleSeconds > settings.heartbeatSeconds
  }

  // --- The steps ------------------------------------------------------------------------

  /**
   * How the two inserts of a beat go, the device's row and then its
   * processes': both stored, only the first, or none.
   */
  datatype Outcome = Both | First | Neither

  /** A heartbeat, and how its inserts would go, or a prune. */
  datatype Event = Beat(device: Id, at: nat, outcome: Outcome) | Prune(at: nat, force: bool)

  predicate TurnedAway(last: map<Id, nat>, device: Id, now: nat, settings: Settings) {
    && Gated(settings)
    && device in last
    && Slot(now, IntervalMs(settings)) == Slot(last[device], IntervalMs(settings))
  }

  /** An insert that throws takes the claim back, though the device's row may be stored by then. */
  function Beaten(s: State, device: Id, now: nat, outcome: Outcome, settings: Settings): State {
    if settings.retentionDays <= 0 || TurnedAway(s.lastSampleAt, device, now, settings) then s
    else
      s.(lastSampleAt := if outcome.Both? then s.lastSampleAt[device := now] else s.lastSampleAt - {device},
         stored := if outcome.Neither? then s.stored else s.stored + [Sample(device, now)])
  }

  /** What a prune leaves of the map: a device that has been silent for an hour has no claim. */
  function Recent(last: map<Id, nat>, now: nat): map<Id, nat> {
    map d | d in last && now - last[d] <= PRUNE_INTERVAL_MS :: last[d]
  }

  function Pruned(s: State, now: nat, force: bool): State {
    if !force && now - s.lastPruneAt < PRUNE_INTERVAL_MS then s
    else s.(lastPruneAt := now, lastSampleAt := Recent(s.lastSampleAt, now))
  }

  function OutcomeOf(sampleStored: bool, processesStored: bool): Outcome {
    if !sampleStored then Neither else if processesStored then Both else First
  }

  function Apply(s: State, e: Event, settings: Settings): State {
    match e
    case Beat(device, at, outcome) => Beaten(s, device, at, outcome, settings)
    case Prune(at, force) => Pruned(s, at, force)
  }

  function After(events: seq<Event>, settings: Settings): State {
    if events == [] then State(map[], 0, [])
    else Apply(After(events[..|events| - 1], settings), events[|events| - 1], settings)
  }

  class Metrics {
    var lastSampleAt: map<Id, nat>
    var lastPruneAt: int
    ghost var stored: seq<Sample>

    ghost function View(): State
      reads this
    {
      State(lastSampleAt, lastPruneAt, stored)
    }

    constructor ()
      ensures View() == After([], Settings(0, 0, 0))
    {
      lastSampleAt, lastPruneAt, stored := map[], 0, [];
    }

    /** Whether each insert would succeed, if it comes to that. */
    method RecordSample(device: Id, now: nat, sampleStored: bool, processesStored: bool, settings: Settings)
      modifies this
      ensures View() == Apply(old(View()), Beat(device, now, OutcomeOf(sampleStored, processesStored)), settings)
    {
      if settings.retentionDays <= 0 { return; }
      var every := IntervalMs(settings);
      if settings.sampleSeconds > settings.heartbeatSeconds {
        if device in lastSampleAt && Slot(now, every) == Slot(lastSampleAt[device], every) { return; }
      }
      lastSampleAt := lastSampleAt[device := now];
      if !sampleStored {
        lastSampleAt := lastSampleAt - {device};
        return;
      }
      stored := stored + [Sample(device, now)];
      if !processesStored {
        lastSampleAt := lastSampleAt - {device};
      }
    }

    method PruneMetrics(now: nat, force: bool)
      modifies this
      ensures View() == Apply(old(View()), Prune(now, force), Settings(0, 0, 0))
    {
      if !force && now - lastPruneAt < PRUNE_INTERVAL_MS { return; }
      lastPruneAt := now;
      var unseen := lastSampleAt.Keys;
      while unseen != {}
        invariant lastPruneAt == now && stored == old(stored)
        invariant forall d :: d in lastSampleAt <==>
          d in old(lastSampleAt) && (d in unseen || now - old(lastSampleAt)[d] <= PRUNE_INTERVAL_MS)
        invariant forall d | d in lastSampleAt :: lastSampleAt[d] == old(lastSampleAt)[d]
        decreases |unseen|
      {
        var device :| device in unseen;
        unseen := unseen - {device};
        if device in lastSampleAt && now - lastSampleAt[device] > PRUNE_INTERVAL_MS {
          lastSampleAt := lastSampleAt - {device};
        }
      }
      assert lastSampleAt == Recent(old(lastSampleAt), now);
    }
  }

  // --- The first beat of each slot --------------------------------------------------------

  predicate Ordered(events: seq<Event>) {
    forall i, j | 0 <= i < j < |events| :: events[i].at <= events[j].at
  }

  /** A beat of this device in this slot whose row is stored, if it is let through. */
  predicate LandsIn(e: Event, device: Id, slot: nat, every: nat)
    requires every > 0
  {
    e.Beat? && !e.outcome.Neither? && e.device == device && Slot(e.at, every) == slot
  }

  /** One whose inserts both succeed, so that the slot stays claimed. */
  predicate ClaimsIn(e: Event, device: Id, slot: nat, every: nat)
    requires every > 0
  {
    e.Beat? && e.outcome.Both? && e.device == device && Slot(e.at, every) == slot
  }

  predicate Landed(events: seq<Event>, device: Id, slot: nat, every: nat)
    requires every > 0
  {
    exists e <- events :: LandsIn(e, device, slot, every)
  }

  predicate Claimed(events: seq<Event>, device: Id, slot: nat, every: nat)
    requires every > 0
  {
    exists e <- events :: ClaimsIn(e, device, slot, every)
  }

  /** The beats that come first in their device's slot. */
  function FirstBeats(events: seq<Event>, every: nat): seq<Sample>
    requires every > 0
  {
    if events == [] then []
    else
      var before, last := events[..|events| - 1], events[|events| - 1];
      if last.Beat? && !last.outcome.Neither? && !Landed(before, last.device, Slot(last.at, every), every)
      then FirstBeats(before, every) + [Sample(last.device, last.at)]
      else FirstBeats(before, every)
  }

  /** The beats that come before their slot is claimed for good. */
  function UnclaimedBeats(events: seq<Event>, every: nat): seq<Sample>
    requires every > 0
  {
    if events == [] then []
    else
      var before, last := events[..|events| - 1], events[|events| - 1];
      if last.Beat? && !last.outcome.Neither? && !Claimed(before, last.device, Slot(last.at, every), every)
      then UnclaimedBeats(before, every) + [Sample(last.device, last.at)]
      else UnclaimedBeats(before, every)
  }

  function End(events: seq<Event>): nat {
    if events == [] then 0 else events[|events| - 1].at
  }

  lemma {:induction false} SlotsInOrder(a: nat, b: nat, every: nat)
    requires a <= b && every > 0
    ensures Slot(a, every) <= Slot(b, every)
  {
    if a >= every { SlotsInOrder(a - every, b - every, every); }
  }

  /** What was pruned, an hour old, is of an earlier slot. */
  lemma PrunedIsEarlier(at: nat, now: nat, every: nat)
    requires now - at > PRUNE_INTERVAL_MS >= every > 0
    ensures Slot(at, every) < Slot(now, every)
  {
    SlotsInOrder(at, now - every, every);
  }

  /**
   * What the map remembers of a device: if it claimed the slot of any moment
   * still to come, a time in that slot; and never a slot it did not claim.
   */
  ghost predicate Remembers(s: State, events: seq<Event>, every: nat, device: Id)
    requires every > 0
  {
    && (device in s.lastSampleAt ==>
          s.lastSampleAt[device] <= End(events) && Claimed(events, device, Slot(s.lastSampleAt[device], every), every))
    && (Claimed(events, device, Slot(End(events), every), every) ==>
          device in s.lastSampleAt && Slot(s.lastSampleAt[device], every) == Slot(End(events), every))
  }

  ghost predicate RemembersAll(s: State, events: seq<Event>, every: nat)
    requires every > 0
  {
    forall device: Id :: Remembers(s, events, every, device)
  }

  /** No beat is in a slot later than the last event's. */
  lemma BeatsAreBefore(events: seq<Event>, device: Id, slot: nat, every: nat)
    requires Ordered(events) && every > 0 && Claimed(events, device, slot, every)
    ensures slot <= Slot(End(events), every)
  {
    var e :| e in events && ClaimsIn(e, device, slot, every);
    SlotsInOrder(e.at, End(events), every);
  }

  lemma ClaimedLonger(events: seq<Event>, last: Event, device: Id, slot: nat, every: nat)
    requires every > 0
    ensures Claimed(events + [last], device, slot, every)
       <==> Claimed(events, device, slot, every) || ClaimsIn(last, device, slot, every)
  {
    if ClaimsIn(last, device, slot, every) { assert last in events + [last]; }
    if Claimed(events, device, slot, every) {
      var e :| e in events && ClaimsIn(e, device, slot, every);
      assert e in events + [last];
    }
  }

  /** A slot reached after `events`, in which the device beat, is the slot of their end. */
  lemma SameSlotStill(events: seq<Event>, device: Id, now: nat, every: nat)
    requires Ordered(events) && every > 0 && End(events) <= now
    requires Claimed(events, device, Slot(now, every), every)
    ensures Slot(now, every) == Slot(End(events), every)
  {
    BeatsAreBefore(events, device, Slot(now, every), every);
    SlotsInOrder(End(events), now, every);
  }

  lemma OrderedBefore(events: seq<Event>, e: Event)
    requires Ordered(events + [e])
    ensures Ordered(events) && End(events) <= e.at
  {
    var all := events + [e];
    forall i, j | 0 <= i < j < |events| ensures events[i].at <= events[j].at {
      assert all[i].at <= all[j].at;
    }
    if events != [] { assert all[|events| - 1].at <= all[|events|].at; }
  }

  lemma BeatKeeps(s: State, events: seq<Event>, e: Event, settings: Settings, device: Id)
    requires settings.retentionDays > 0 && Gated(settings) && e.Beat?
    requires Ordered(events + [e]) && Remembers(s, events, IntervalMs(settings), device)
    ensures Remembers(Apply(s, e, settings), events + [e], IntervalMs(settings), device)
    ensures e.device == device ==>
      (TurnedAway(s.lastSampleAt, device, e.at, settings)
       <==> Claimed(events, device, Slot(e.at, IntervalMs(settings)), IntervalMs(settings)))
  {
    var every, slot := IntervalMs(settings), Slot(e.at, IntervalMs(settings));
    OrderedBefore(events, e);
    ClaimedLonger(events, e, device, slot, every);
    if Claimed(events, device, slot, every) { SameSlotStill(events, device, e.at, every); }
    if device in s.lastSampleAt {
      ClaimedLonger(events, e, device, Slot(s.lastSampleAt[device], every), every);
    }
  }

  lemma PruneKeeps(s: State, events: seq<Event>, e: Event, settings: Settings, device: Id)
    requires e.Prune? && IntervalMs(settings) <= PRUNE_INTERVAL_MS
    requires Ordered(events + [e]) && Remembers(s, events, IntervalMs(settings), device)
    ensures Remembers(Apply(s, e, settings), events + [e], IntervalMs(settings), device)
  {
    var every, slot := IntervalMs(settings), Slot(e.at, IntervalMs(settings));
    OrderedBefore(events, e);
    ClaimedLonger(events, e, device, slot, every);
    if Claimed(events, device, slot, every) {
      SameSlotStill(events, device, e.at, every);
      if e.at - s.lastSampleAt[device] > PRUNE_INTERVAL_MS { PrunedIsEarlier(s.lastSampleAt[device], e.at, every); }
    }
    if device in s.lastSampleAt {
      ClaimedLonger(events, e, device, Slot(s.lastSampleAt[device], every), every);
    }
  }

  /**
   * However the beats fall and whenever the map is pruned, what is stored is
   * each beat whose slot no beat of the device has claimed for good; and the
   * map knows which slots those are.
   */
  lemma {:induction false} UnclaimedAreStored(events: seq<Event>, settings: Settings)
    requires Ordered(events) && settings.retentionDays > 0 && Gated(settings)
    requires IntervalMs(settings) <= PRUNE_INTERVAL_MS
    ensures After(events, settings).stored == UnclaimedBeats(events, IntervalMs(settings))
    ensures RemembersAll(After(events, settings), events, IntervalMs(settings))
  {
    if events != [] {
      var before, last := events[..|events| - 1], events[|events| - 1];
      assert events == before + [last];
      UnclaimedAreStored(before, settings);
      var s := After(before, settings);
      forall device: Id ensures Remembers(After(events, settings), events, IntervalMs(settings), device) {
        assert Remembers(s, before, IntervalMs(settings), device);
        if last.Beat? {
          BeatKeeps(s, before, last, settings, device);
        } else {
          PruneKeeps(s, before, last, settings, device);
        }
      }
      if last.Beat? {
        assert Remembers(s, before, IntervalMs(settings), last.device);
        BeatKeeps(s, before, last, settings, last.device);
      }
    }
  }

  // --- Half-stored beats ------------------------------------------------------------------

  /** A beat whose row was stored and whose claim was then taken back. */
  predicate HalfStored(events: seq<Event>, i: nat, every: nat)
    requires i < |events| && every > 0
  {
    && events[i].Beat?
    && events[i].outcome.First?
    && !Claimed(events[..i], events[i].device, Slot(events[i].at, every), every)
  }

  /** A later beat falls in the slot of a half-stored one. */
  predicate FallsAgain(events: seq<Event>, i: nat, j: nat, every: nat)
    requires i < |events| && j < |events| && every > 0
  {
    i < j && HalfStored(events, i, every) && LandsIn(events[j], events[i].device, Slot(events[i].at, every), every)
  }

  predicate Unrepeated(events: seq<Event>, every: nat)
    requires every > 0
  {
    forall i: nat, j: nat | i < |events| && j < |events| :: !FallsAgain(events, i, j, every)
  }

  /** The last event falls in the slot of a half-stored one before it. */
  predicate LastFallsAgain(before: seq<Event>, last: Event, every: nat)
    requires every > 0
  {
    exists i: nat | i < |before| :: FallsAgain(before + [last], i, |before|, every)
  }

  lemma FallsAgainSame(before: seq<Event>, last: Event, i: nat, j: nat, every: nat)
    requires i < |before| && j < |before| && every > 0
    ensures FallsAgain(before + [last], i, j, every) <==> FallsAgain(before, i, j, every)
  {
    assert (before + [last])[..i] == before[..i];
  }

  lemma UnrepeatedLonger(before: seq<Event>, last: Event, every: nat)
    requires every > 0
    ensures Unrepeated(before + [last], every) <==> Unrepeated(before, every) && !LastFallsAgain(before, last, every)
  {
    var events := before + [last];
    if Unrepeated(events, every) {
      forall i: nat, j: nat | i < |before| && j < |before| ensures !FallsAgain(before, i, j, every) {
        FallsAgainSame(before, last, i, j, every);
        assert !FallsAgain(events, i, j, every);
      }
    }
    if Unrepeated(before, every) && !LastFallsAgain(before, last, every) {
      forall i: nat, j: nat | i < |events| && j < |events| ensures !FallsAgain(events, i, j, every) {
        if i < j && j < |before| {
          FallsAgainSame(before, last, i, j, every);
        }
      }
    }
  }

  /** A slot that has a stored row and no claim is that of a half-stored beat, and the other way round. */
  lemma LandedUnclaimed(before: seq<Event>, last: Event, every: nat)
    requires every > 0 && Unrepeated(before, every) && last.Beat? && !last.outcome.Neither?
    ensures LastFallsAgain(before, last, every)
       <==> (&& Landed(before, last.device, Slot(last.at, every), every)
             && !Claimed(before, last.device, Slot(last.at, every), every))
  {
    var slot, events := Slot(last.at, every), before + [last];
    if Landed(before, last.device, slot, every) && !Claimed(before, last.device, slot, every) {
      var e :| e in before && LandsIn(e, last.device, slot, every);
      var i: nat :| i < |before| && before[i] == e;
      assert events[..i] == before[..i] && events[i] == e;
      assert !ClaimsIn(e, last.device, slot, every);
      assert FallsAgain(events, i, |before|, every);
    }
    if LastFallsAgain(before, last, every) {
      var i: nat :| i < |before| && FallsAgain(events, i, |before|, every);
      assert events[..i] == before[..i];
      assert LandsIn(before[i], last.device, slot, every);
      forall m: nat | m < |before| ensures !ClaimsIn(before[m], last.device, slot, every) {
        if m < i {
          assert before[m] in before[..i];
        } else {
          assert !FallsAgain(before, i, m, every);
        }
      }
    }
  }

  lemma ClaimedLanded(events: seq<Event>, device: Id, slot: nat, every: nat)
    requires every > 0 && Claimed(events, device, slot, every)
    ensures Landed(events, device, slot, every)
  {
    var e :| e in events && ClaimsIn(e, device, slot, every);
    assert LandsIn(e, device, slot, every);
  }

  /** Half-stored beats only add, and add nothing exactly when none has a later beat in its slot. */
  lemma {:induction false} UnclaimedOrFirst(events: seq<Event>, every: nat)
    requires every > 0
    ensures Unrepeated(events, every) ==> UnclaimedBeats(events, every) == FirstBeats(events, every)
    ensures !Unrepeated(events, every) ==> |UnclaimedBeats(events, every)| > |FirstBeats(events, every)|
  {
    if events != [] {
      var before, last := events[..|events| - 1], events[|events| - 1];
      assert events == before + [last];
      UnclaimedOrFirst(before, every);
      UnrepeatedLonger(before, last, every);
      if last.Beat? && !last.outcome.Neither? {
        if Claimed(before, last.device, Slot(last.at, every), every) {
          ClaimedLanded(before, last.device, Slot(last.at, every), every);
        }
        if Unrepeated(before, every) { LandedUnclaimed(before, last, every); }
      } else {
        assert !LastFallsAgain(before, last, every);
      }
    }
  }

  /**
   * What is stored is the first beat of each device in each slot that has
   * one, exactly when no beat falls in the slot of a half-stored one before
   * it. A beat stored in neither part counts for nothing, and the next in its
   * slot takes its place.
   */
  lemma FirstOfEachSlot(events: seq<Event>, settings: Settings, every: nat)
    requires Ordered(events) && settings.retentionDays > 0
    requires settings.heartbeatSeconds < settings.sampleSeconds <= 3600
    requires every == (if settings.sampleSeconds >= 1 then settings.sampleSeconds * 1000 else 1000)
    ensures After(events, settings).stored == FirstBeats(events, every) <==> Unrepeated(events, every)
  {
    UnclaimedAreStored(events, settings);
    UnclaimedOrFirst(events, IntervalMs(settings));
  }

  /** With a retention of nothing, nothing is stored, nor any slot claimed. */
  lemma {:induction false} NothingKept(events: seq<Event>, settings: Settings)
    requires settings.retentionDays <= 0
    ensures After(events, settings).stored == [] && After(events, settings).lastSampleAt == map[]
  {
    if events != [] { NothingKept(events[..|events| - 1], settings); }
  }

  /** Any two beats of a slot are both stored when the first is stored by half. */
  lemma HalfStoredTwice(settings: Settings, device: Id, at: nat, later: nat, outcome: Outcome)
    requires settings.retentionDays > 0 && Gated(settings) && !outcome.Neither?
    requires at <= later && Slot(at, IntervalMs(settings)) == Slot(later, IntervalMs(settings))
    ensures After([Beat(device, at, First), Beat(device, later, outcome)], settings).stored
         == [Sample(device, at), Sample(device, later)]
    ensures FirstBeats([Beat(device, at, First), Beat(device, later, outcome)], IntervalMs(settings))
         == [Sample(device, at)]
  {
    HalfThenAgainStored(settings, device, at, later, outcome);
    HalfThenAgainFirst(IntervalMs(settings), device, at, later, outcome);
  }

  lemma HalfThenAgainStored(settings: Settings, device: Id, at: nat, later: nat, outcome: Outcome)
    requires settings.retentionDays > 0 && !outcome.Neither?
    ensures After([Beat(device, at, First), Beat(device, later, outcome)], settings).stored
         == [Sample(device, at), Sample(device, later)]
  {
    hide Slot, IntervalMs;
    var half, again := Beat(device, at, First), Beat(device, later, outcome);
    assert [half][..0] == [] && [half, again][..1] == [half];
    assert After([half], settings) == State(map[], 0, [Sample(device, at)]);
    assert After([half, again], settings) == Beaten(After([half], settings), device, later, outcome, settings);
  }

  lemma HalfThenAgainFirst(every: nat, device: Id, at: nat, later: nat, outcome: Outcome)
    requires every > 0 && Slot(at, every) == Slot(later, every)
    ensures FirstBeats([Beat(device, at, First), Beat(device, later, outcome)], every) == [Sample(device, at)]
  {
    hide Slot;
    var half, again := Beat(device, at, First), Beat(device, later, outcome);
    assert [half][..0] == [] && [half, again][..1] == [half];
    assert LandsIn(half, device, Slot(later, every), every) && half in [half];
    assert FirstBeats([half], every) == [Sample(device, at)];
  }

  // --- Slots longer than an hour ----------------------------------------------------------

  lemma {:induction false} SlotOf(k: nat, rest: nat, every: nat)
    requires rest < every
    ensures k * every + rest >= 0 && Slot(k * every + rest, every) == k
  {
    if k > 0 {
      assert k * every == (k - 1) * every + every;
      SlotOf(k - 1, rest, every);
    }
  }

  /** A beat, a prune a moment more than an hour later, and another beat at once. */
  function AcrossPrune(device: Id, start: nat): seq<Event> {
    [Beat(device, start, Both), Prune(start + 3_600_001, false), Beat(device, start + 3_600_001, Both)]
  }

  /** The prune forgets a slot that is still open, and the second beat of it is stored. */
  lemma ForgottenSlot(settings: Settings, device: Id, start: nat)
    requires settings.retentionDays > 0 && Gated(settings)
    requires Slot(start, IntervalMs(settings)) == Slot(start + 3_600_001, IntervalMs(settings))
    ensures FirstBeats(AcrossPrune(device, start), IntervalMs(settings)) == [Sample(device, start)]
    ensures After(AcrossPrune(device, start), settings).stored
         == [Sample(device, start), Sample(device, start + 3_600_001)]
  {
    var every, events := IntervalMs(settings), AcrossPrune(device, start);
    var one, two := events[..1], events[..2];
    assert one[..0] == [] && two[..1] == one;
    assert After(one, settings) == State(map[device := start], 0, [Sample(device, start)]);
    assert After(two, settings).lastSampleAt == map[];
    assert LandsIn(events[0], device, Slot(events[2].at, every), every) && events[0] in two;
    assert FirstBeats(one, every) == [Sample(device, start)];
  }

  /** Beyond an hour every slot is forgotten while it is open. */
  lemma LongSlotStoresTwice(settings: Settings, device: Id, k: nat) returns (start: nat)
    requires settings.retentionDays > 0 && Gated(settings) && IntervalMs(settings) > PRUNE_INTERVAL_MS
    ensures Slot(start, IntervalMs(settings)) == k && Ordered(AcrossPrune(device, start))
    ensures FirstBeats(AcrossPrune(device, start), IntervalMs(settings)) == [Sample(device, start)]
    ensures After(AcrossPrune(device, start), settings).stored
         == [Sample(device, start), Sample(device, start + 3_600_001)]
  {
    var every := IntervalMs(settings);
    assert every >= 3_601_000;
    SlotOf(k, 0, every);
    SlotOf(k, 3_600_001, every);
    start := k * every;
    ForgottenSlot(settings, device, start);
  }

  lemma WholeIsUnrepeated(events: seq<Event>, every: nat)
    requires every > 0 && forall e <- events :: e.Beat? ==> e.outcome.Both?
    ensures Unrepeated(events, every)
  {
    forall i: nat, j: nat | i < |events| && j < |events| ensures !FallsAgain(events, i, j, every) {
      assert events[i] in events;
    }
  }

  /**
   * So, half-stored beats aside, the sampler keeps its promise for every run
   * exactly when the interval is at most an hour.
   */
  lemma ExactIffWithinAnHour(settings: Settings, every: nat)
    requires settings.retentionDays > 0 && settings.sampleSeconds > settings.heartbeatSeconds
    requires every == (if settings.sampleSeconds >= 1 then settings.sampleSeconds * 1000 else 1000)
    ensures (forall events | Ordered(events) && Unrepeated(events, every) ::
               After(events, settings).stored == FirstBeats(events, every))
       <==> settings.sampleSeconds <= 3600
  {
    assert every == IntervalMs(settings);
    if settings.sampleSeconds <= 3600 {
      forall events | Ordered(events) && Unrepeated(events, every)
        ensures After(events, settings).stored == FirstBeats(events, every)
      {
        FirstOfEachSlot(events, settings, every);
      }
    } else {
      var start := LongSlotStoresTwice(settings, "", 0);
      var events := AcrossPrune("", start);
      WholeIsUnrepeated(events, IntervalMs(settings));
      assert |After(events, settings).stored| != |FirstBeats(events, IntervalMs(settings))|;
    }
  }

  /** With the gate off every beat is stored, whatever the slots. */
  function GoodBeats(events: seq<Event>): seq<Sample> {
    if events == [] then []
    else
      var before, last := GoodBeats(events[..|events| - 1]), events[|events| - 1];
      if last.Beat? && !last.outcome.Neither? then before + [Sample(last.device, last.at)] else before
  }

  lemma {:induction false} UngatedKeepsAll(events: seq<Event>, settings: Settings)
    requires settings.retentionDays > 0 && settings.sampleSeconds <= settings.heartbeatSeconds
    ensures After(events, settings).stored == GoodBeats(events)
  {
    if events != [] { UngatedKeepsAll(events[..|events| - 1], settings); }
  }
}
