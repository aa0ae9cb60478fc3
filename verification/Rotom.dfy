// The Rotom sync: `syncDevices`, `write`, `sweep` and `record` of
// apps/hub/src/services/rotom.ts. Which of our devices a listed box is comes
// with the list, and so do the readings summarised from its workers.

module Rotom {
  import opened Options

  type Id = string

  const MISSES_BEFORE_OFFLINE: nat := 2

  /**
   * What the hub believes of a device, rates and durations in hundredths.
   * `rest` is the origin, the version and when Rotom last heard of it.
   */
  datatype Belief = Belief(
    rotomId: Option<string>, connected: bool, enabled: bool, canBeUsed: bool, inUse: bool,
    workerCount: Option<int>, workersInUse: Option<int>,
    requestRate: Option<int>, requestMs: Option<int>, statWorkers: Option<int>, rest: string)

  datatype Box = Box(device: Option<Id>, state: Belief)

  datatype Poll = Off | Failed | Listed(boxes: seq<Box>)

  /** The settings and the clock as `record` reads them. */
  datatype Moment = Moment(now: nat, retentionDays: int, sampleSeconds: int)

  /** A history row. */
  datatype Reading = Reading(
    connected: bool, enabled: bool, canBeUsed: bool, inUse: bool,
    workerCount: Option<int>, workersInUse: Option<int>, requestRate: Option<int>, requestMs: Option<int>)

  datatype State = State(
    rows: map<Id, Belief>, misses: map<Id, nat>, lastRecordedSlot: int,
    history: seq<map<Id, Reading>>)   // the rows of each insert

  // --- One sync ------------------------------------------------------------------------

  function Matched(boxes: seq<Box>): set<Id> {
    set b | b in boxes && b.device.Some? :: b.device.value
  }

  /** An empty list, of a fleet that has ever been matched, is treated as silence. */
  predicate Effective(rows: map<Id, Belief>, poll: Poll) {
    poll.Listed? && !(poll.boxes == [] && exists id <- rows :: rows[id].rotomId.Some?)
  }

  /** `write`, box by box: skipped when the row read at the start already says so. */
  function Written(ours: map<Id, Belief>, boxes: seq<Box>): (rows: map<Id, Belief>)
    ensures rows.Keys == ours.Keys
  {
    if boxes == [] then ours
    else
      var rows, b := Written(ours, boxes[..|boxes| - 1]), boxes[|boxes| - 1];
      if b.device.Some? && b.device.value in ours && ours[b.device.value] != b.state
      then rows[b.device.value := b.state]
      else rows
  }

  /** What each matched box now looks like: the last the list says of it. */
  function Believed(boxes: seq<Box>): (believed: map<Id, Belief>)
    ensures believed.Keys == Matched(boxes)
  {
    if boxes == [] then map[]
    else
      var before, b := boxes[..|boxes| - 1], boxes[|boxes| - 1];
      assert boxes == before + [b];
      if b.device.Some? then Believed(before)[b.device.value := b.state] else Believed(before)
  }

  function MissCount(misses: map<Id, nat>, id: Id): nat {
    if id in misses then misses[id] else 0
  }

  predicate Present(ours: map<Id, Belief>, matched: set<Id>, id: Id) {
    id in ours && (id in matched || !ours[id].connected)
  }

  predicate Flips(ours: map<Id, Belief>, misses: map<Id, nat>, matched: set<Id>, id: Id) {
    && id in ours && !Present(ours, matched, id)
    && MissCount(misses, id) + 1 >= MISSES_BEFORE_OFFLINE
  }

  function Offline(b: Belief): Belief {
    b.(connected := false, canBeUsed := false, inUse := false, workersInUse := None,
       requestRate := None, requestMs := None, statWorkers := None)
  }

  function Flipped(ours: map<Id, Belief>, misses: map<Id, nat>, matched: set<Id>): set<Id> {
    set id | id in ours && Flips(ours, misses, matched, id)
  }

  /** `sweep`: a device missing from this list is counted, and at the second time in a row is offline. */
  function SweptMisses(ours: map<Id, Belief>, misses: map<Id, nat>, matched: set<Id>): map<Id, nat> {
    map id | id in misses.Keys + ours.Keys
      && (id !in ours || (!Present(ours, matched, id) && !Flips(ours, misses, matched, id)))
      :: if id in ours then MissCount(misses, id) + 1 else misses[id]
  }

  function SweptRows(rows: map<Id, Belief>, flipped: set<Id>): map<Id, Belief> {
    map id | id in rows :: if id in flipped then Offline(rows[id]) else rows[id]
  }

  /** What `record` says of a device. */
  function ReadingOf(id: Id, ours: map<Id, Belief>, believed: map<Id, Belief>, flipped: set<Id>): Reading
    requires id in ours
  {
    var state := if id in believed then believed[id] else ours[id];
    var connected := id !in flipped && state.connected;
    Reading(connected, state.enabled, connected && state.canBeUsed, connected && state.inUse,
            if connected then state.workerCount else None, if connected then state.workersInUse else None,
            if connected then state.requestRate else None, if connected then state.requestMs else None)
  }

  function Slot(m: Moment): int {
    m.now / ((if m.sampleSeconds > 1 then m.sampleSeconds else 1) * 1000)
  }

  predicate Records(s: State, m: Moment) {
    m.retentionDays > 0 && Slot(m) != s.lastRecordedSlot
  }

  /** One row for every device that was ever matched. */
  function Readings(ours: map<Id, Belief>, believed: map<Id, Belief>, flipped: set<Id>): map<Id, Reading> {
    map id | id in ours && ours[id].rotomId.Some? :: ReadingOf(id, ours, believed, flipped)
  }

  function Recorded(s: State, m: Moment, batch: map<Id, Reading>): State {
    if !Records(s, m) then s
    else s.(lastRecordedSlot := Slot(m), history := if batch == map[] then s.history else s.history + [batch])
  }

  function Synced(s: State, poll: Poll, m: Moment): State {
    if !Effective(s.rows, poll) then s
    else
      var matched := Matched(poll.boxes);
      var flipped := Flipped(s.rows, s.misses, matched);
      var swept := s.(
        rows := SweptRows(Written(s.rows, poll.boxes), flipped),
        misses := SweptMisses(s.rows, s.misses, matched));
      Recorded(swept, m, Readings(s.rows, Believed(poll.boxes), flipped))
  }

  // --- The sweep, device by device --------------------------------------------------------

  datatype Sweeping = Sweeping(rows: map<Id, Belief>, misses: map<Id, nat>, flipped: set<Id>)

  /** One turn of the sweep's loop. */
  function Turn(ours: map<Id, Belief>, matched: set<Id>, s: Sweeping, id: Id): Sweeping {
    if Present(ours, matched, id) then s.(misses := s.misses - {id})
    else if MissCount(s.misses, id) + 1 < MISSES_BEFORE_OFFLINE then
      s.(misses := s.misses[id := MissCount(s.misses, id) + 1])
    else
      Sweeping(if id in s.rows then s.rows[id := Offline(s.rows[id])] else s.rows, s.misses - {id}, s.flipped + {id})
  }

  function Turns(ours: map<Id, Belief>, matched: set<Id>, order: seq<Id>, s: Sweeping): Sweeping {
    if order == [] then s
    else Turn(ours, matched, Turns(ours, matched, order[..|order| - 1], s), order[|order| - 1])
  }

  lemma OneMoreTurn(ours: map<Id, Belief>, matched: set<Id>, order: seq<Id>, i: nat, s: Sweeping)
    requires i < |order|
    ensures Turns(ours, matched, order[..i + 1], s) == Turn(ours, matched, Turns(ours, matched, order[..i], s), order[i])
  {
    assert order[..i + 1][..i] == order[..i];
  }

  /** One turn, seen from one device: nothing, unless it is its own. */
  lemma TurnOne(ours: map<Id, Belief>, matched: set<Id>, s: Sweeping, x: Id, id: Id)
    requires x in ours
    ensures var n := Turn(ours, matched, s, x);
      && (id in n.rows <==> id in s.rows)
      && (id != x ==> (id in n.flipped <==> id in s.flipped) && (id in n.misses <==> id in s.misses)
                      && MissCount(n.misses, id) == MissCount(s.misses, id)
                      && (id in s.rows ==> n.rows[id] == s.rows[id]))
      && (id == x && Flips(ours, s.misses, matched, id) ==>
            id in n.flipped && id !in n.misses && (id in s.rows ==> n.rows[id] == Offline(s.rows[id])))
      && (id == x && !Flips(ours, s.misses, matched, id) ==>
            (id in n.flipped <==> id in s.flipped) && n.rows == s.rows
            && (id in n.misses <==> !Present(ours, matched, id))
            && (id in n.misses ==> n.misses[id] == MissCount(s.misses, id) + 1))
  {
  }

  /** What the turns make of one device: nothing, until its own. */
  lemma {:induction false} TurnsOne(
      ours: map<Id, Belief>, matched: set<Id>, order: seq<Id>, rows: map<Id, Belief>, misses: map<Id, nat>, id: Id)
    requires forall x | x in order :: x in ours
    requires forall i, j | 0 <= i < j < |order| :: order[i] != order[j]
    ensures var s := Turns(ours, matched, order, Sweeping(rows, misses, {}));
      && (id in s.rows <==> id in rows)
      && (id in rows ==> s.rows[id] == if id in s.flipped then Offline(rows[id]) else rows[id])
      && (id in s.flipped <==> id in order && Flips(ours, misses, matched, id))
      && (id !in order ==> (id in s.misses <==> id in misses) && MissCount(s.misses, id) == MissCount(misses, id))
      && (id in order ==>
           && (id in s.misses <==> !Present(ours, matched, id) && !Flips(ours, misses, matched, id))
           && (id in s.misses ==> s.misses[id] == MissCount(misses, id) + 1))
  {
    if order != [] {
      var last := |order| - 1;
      TurnsOne(ours, matched, order[..last], rows, misses, id);
      assert order == order[..last] + [order[last]];
      assert order[last] in order && order[last] !in order[..last];
      TurnOne(ours, matched, Turns(ours, matched, order[..last], Sweeping(rows, misses, {})), order[last], id);
    }
  }

  /** And so of all, in whatever order. */
  lemma TurnsSweep(
      ours: map<Id, Belief>, matched: set<Id>, order: seq<Id>, rows: map<Id, Belief>, misses: map<Id, nat>)
    requires IsOrder(order, ours.Keys)
    ensures var flipped := Flipped(ours, misses, matched);
      Turns(ours, matched, order, Sweeping(rows, misses, {}))
        == Sweeping(SweptRows(rows, flipped), SweptMisses(ours, misses, matched), flipped)
  {
    var s, flipped := Turns(ours, matched, order, Sweeping(rows, misses, {})), Flipped(ours, misses, matched);
    forall id ensures id in s.flipped <==> id in flipped { TurnsOne(ours, matched, order, rows, misses, id); }
    assert s.flipped == flipped;
    SameRows(ours, matched, order, rows, misses, s);
    SameMisses(ours, matched, order, rows, misses, s);
  }

  lemma SameRows(
      ours: map<Id, Belief>, matched: set<Id>, order: seq<Id>, rows: map<Id, Belief>, misses: map<Id, nat>, s: Sweeping)
    requires IsOrder(order, ours.Keys) && s == Turns(ours, matched, order, Sweeping(rows, misses, {}))
    ensures s.rows == SweptRows(rows, s.flipped)
  {
    var swept := SweptRows(rows, s.flipped);
    forall id ensures (id in s.rows <==> id in swept) && (id in s.rows ==> s.rows[id] == swept[id]) {
      TurnsOne(ours, matched, order, rows, misses, id);
    }
  }

  lemma SameMisses(
      ours: map<Id, Belief>, matched: set<Id>, order: seq<Id>, rows: map<Id, Belief>, misses: map<Id, nat>, s: Sweeping)
    requires IsOrder(order, ours.Keys) && s == Turns(ours, matched, order, Sweeping(rows, misses, {}))
    ensures s.misses == SweptMisses(ours, misses, matched)
  {
    var swept := SweptMisses(ours, misses, matched);
    forall id ensures (id in s.misses <==> id in swept) && (id in s.misses ==> s.misses[id] == swept[id]) {
      TurnsOne(ours, matched, order, rows, misses, id);
    }
  }

  /** The match finds devices among ours only. */
  predicate AreOurs(boxes: seq<Box>, ids: set<Id>) {
    forall i | 0 <= i < |boxes| :: boxes[i].device.Some? ==> boxes[i].device.value in ids
  }

  lemma OneMoreBox(ours: map<Id, Belief>, boxes: seq<Box>, b: Box)
    ensures b.device.None? ==>
      && Matched(boxes + [b]) == Matched(boxes)
      && Believed(boxes + [b]) == Believed(boxes)
      && Written(ours, boxes + [b]) == Written(ours, boxes)
    ensures b.device.Some? ==>
      && Matched(boxes + [b]) == Matched(boxes) + {b.device.value}
      && Believed(boxes + [b]) == Believed(boxes)[b.device.value := b.state]
      && (b.device.value in ours && ours[b.device.value] == b.state ==>
            Written(ours, boxes + [b]) == Written(ours, boxes))
      && (b.device.value in ours && ours[b.device.value] != b.state ==>
            Written(ours, boxes + [b]) == Written(ours, boxes)[b.device.value := b.state])
  {
    assert (boxes + [b])[..|boxes|] == boxes;
    if b.device.Some? { assert b in boxes + [b]; }
  }

  // --- The service ----------------------------------------------------------------------

  class Service {
    var rows: map<Id, Belief>
    var misses: map<Id, nat>
    var lastRecordedSlot: int
    var history: seq<map<Id, Reading>>

    ghost function View(): State
      reads this
    {
      State(rows, misses, lastRecordedSlot, history)
    }

    /** A hub that has just started: it remembers no misses. */
    constructor (rows: map<Id, Belief>)
      ensures View() == State(rows, map[], -1, [])
    {
      this.rows, misses, lastRecordedSlot, history := rows, map[], -1, [];
    }

    method Write(ours: map<Id, Belief>, id: Id, next: Belief)
      requires id in ours
      modifies `rows
      ensures rows == if ours[id] == next then old(rows) else old(rows)[id := next]
    {
      if ours[id] != next { rows := rows[id := next]; }
    }

    /** One turn of the sweep's loop. */
    method SweepOne(ours: map<Id, Belief>, id: Id, matched: set<Id>, flipped: set<Id>) returns (now: set<Id>)
      requires id in ours && id in rows
      modifies `rows, `misses
      ensures Sweeping(rows, misses, now) == Turn(ours, matched, Sweeping(old(rows), old(misses), flipped), id)
    {
      if id in matched || !ours[id].connected {
        misses := misses - {id};
        return flipped;
      }
      var count := MissCount(misses, id) + 1;
      if count < MISSES_BEFORE_OFFLINE {
        misses := misses[id := count];
        return flipped;
      }
      misses := misses - {id};
      rows := rows[id := Offline(rows[id])];
      return flipped + {id};
    }

    /** The devices in `order` are ours, each once. */
    method Sweep(ours: map<Id, Belief>, order: seq<Id>, matched: set<Id>) returns (flipped: set<Id>)
      requires IsOrder(order, ours.Keys) && rows.Keys == ours.Keys
      modifies `rows, `misses
      ensures flipped == Flipped(ours, old(misses), matched)
      ensures misses == SweptMisses(ours, old(misses), matched)
      ensures rows == SweptRows(old(rows), flipped)
    {
      flipped := {};
      ghost var start := Sweeping(rows, misses, {});
      for i := 0 to |order|
        invariant rows.Keys == ours.Keys
        invariant Sweeping(rows, misses, flipped) == Turns(ours, matched, order[..i], start)
      {
        OneMoreTurn(ours, matched, order, i, start);
        flipped := SweepOne(ours, order[i], matched, flipped);
      }
      assert order[..|order|] == order;
      TurnsSweep(ours, matched, order, old(rows), old(misses));
    }

    method Record(
        ours: map<Id, Belief>, order: seq<Id>, believed: map<Id, Belief>, flipped: set<Id>, m: Moment)
      requires IsOrder(order, ours.Keys)
      modifies `lastRecordedSlot, `history
      ensures View() == Recorded(old(View()), m, Readings(ours, believed, flipped))
    {
      hide ReadingOf;
      if m.retentionDays <= 0 { return; }
      var slot := Slot(m);
      if slot == lastRecordedSlot { return; }
      lastRecordedSlot := slot;
      var batch: map<Id, Reading> := map[];
      for i := 0 to |order|
        invariant forall id :: id in batch <==> id in order[..i] && id in ours && ours[id].rotomId.Some?
        invariant forall id | id in batch :: batch[id] == ReadingOf(id, ours, believed, flipped)
      {
        var id := order[i];
        assert order[..i + 1] == order[..i] + [id];
        if ours[id].rotomId.Some? { batch := batch[id := ReadingOf(id, ours, believed, flipped)]; }
      }
      assert order[..|order|] == order;
      assert batch == Readings(ours, believed, flipped);
      if batch != map[] { history := history + [batch]; }
    }

    /** The boxes the list matched, as it says they are. */
    method WriteAll(ours: map<Id, Belief>, boxes: seq<Box>) returns (matched: set<Id>, believed: map<Id, Belief>)
      requires rows == ours && AreOurs(boxes, ours.Keys)
      modifies `rows
      ensures matched == Matched(boxes) && believed == Believed(boxes)
      ensures rows == Written(ours, boxes)
    {
      matched, believed := {}, map[];
      for i := 0 to |boxes|
        invariant matched == Matched(boxes[..i]) && believed == Believed(boxes[..i])
        invariant rows == Written(ours, boxes[..i])
      {
        var b := boxes[i];
        assert boxes[..i + 1] == boxes[..i] + [b];
        OneMoreBox(ours, boxes[..i], b);
        if b.device.Some? {
          matched := matched + {b.device.value};
          believed := believed[b.device.value := b.state];
          Write(ours, b.device.value, b.state);
        }
      }
      assert boxes[..|boxes|] == boxes;
    }

    method SyncDevices(poll: Poll, order: seq<Id>, m: Moment)
      requires IsOrder(order, rows.Keys)
      requires poll.Listed? ==> AreOurs(poll.boxes, rows.Keys)
      modifies this
      ensures View() == Synced(old(View()), poll, m)
    {
      if !poll.Listed? { return; }
      var ours, boxes := rows, poll.boxes;
      if |boxes| == 0 && exists id <- ours :: ours[id].rotomId.Some? { return; }
      var matched, believed := WriteAll(ours, boxes);
      var flipped := Sweep(ours, order, matched);
      Record(ours, order, believed, flipped, m);
    }
  }

  ghost predicate IsOrder(order: seq<Id>, ids: set<Id>) {
    && (forall id :: id in order <==> id in ids)
    && forall i, j | 0 <= i < j < |order| :: order[i] != order[j]
  }
}
