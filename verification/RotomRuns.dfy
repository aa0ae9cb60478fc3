// What the Rotom sync guarantees over whole runs: when a device's connected
// flag drops, and that the history says what the device row says.

module RotomRuns {
  import opened Options
  import opened Rotom

  /** A sync, or a restart of the hub, which forgets the misses and the slot. */
  datatype Call = Sync(poll: Poll, at: Moment) | Restart

  function Apply(s: State, call: Call): State {
    match call
    case Sync(poll, at) => Synced(s, poll, at)
    case Restart => s.(misses := map[], lastRecordedSlot := -1)
  }

  /** A run from whatever the device rows said at the start. */
  function After(rows: map<Id, Belief>, calls: seq<Call>): State {
    if calls == [] then State(rows, map[], -1, [])
    else Apply(After(rows, calls[..|calls| - 1]), calls[|calls| - 1])
  }

  // --- What a list writes to one row -------------------------------------------------------

  /** The last the list says of a device that is not what its row said at the start. */
  function LastOther(was: Belief, boxes: seq<Box>, id: Id): Option<Belief> {
    if boxes == [] then None
    else
      var last := boxes[|boxes| - 1];
      if last.device == Some(id) && last.state != was then Some(last.state)
      else LastOther(was, boxes[..|boxes| - 1], id)
  }

  function RowAfter(was: Belief, boxes: seq<Box>, id: Id): Belief {
    match LastOther(was, boxes, id)
    case Some(state) => state
    case None => was
  }

  lemma {:induction false} WrittenRow(ours: map<Id, Belief>, boxes: seq<Box>, id: Id)
    requires id in ours
    ensures Written(ours, boxes)[id] == RowAfter(ours[id], boxes, id)
    ensures LastOther(ours[id], boxes, id).Some? ==> id in Matched(boxes)
  {
    if boxes != [] {
      var before, last := boxes[..|boxes| - 1], boxes[|boxes| - 1];
      assert boxes == before + [last];
      WrittenRow(ours, before, id);
      assert id in Matched(before) ==> id in Matched(boxes);
    }
  }

  lemma {:induction false} LastSaid(boxes: seq<Box>, id: Id)
    requires id in Matched(boxes)
    ensures exists b <- boxes :: b.device == Some(id) && b.state == Believed(boxes)[id]
  {
    var before, last := boxes[..|boxes| - 1], boxes[|boxes| - 1];
    assert boxes == before + [last];
    if last.device != Some(id) { LastSaid(before, id); }
  }

  lemma {:induction false} OtherWasSaid(was: Belief, boxes: seq<Box>, id: Id)
    requires LastOther(was, boxes, id).Some?
    ensures exists b <- boxes :: b.device == Some(id) && b.state == LastOther(was, boxes, id).value
  {
    var last := boxes[|boxes| - 1];
    if last.device == Some(id) && last.state != was {
      assert last in boxes;
    } else {
      OtherWasSaid(was, boxes[..|boxes| - 1], id);
    }
  }

  // --- The debounce -----------------------------------------------------------------------

  /** The last sync to take effect, if there was one since the hub started, did not match the device. */
  predicate MissedLast(rows: map<Id, Belief>, calls: seq<Call>, id: Id) {
    if calls == [] then false
    else
      var before, last := calls[..|calls| - 1], calls[|calls| - 1];
      match last
      case Restart => false
      case Sync(poll, _) =>
        if Effective(After(rows, before).rows, poll) then id !in Matched(poll.boxes) else MissedLast(rows, before, id)
  }

  /** A poll that takes effect: it came with a list, and not an empty one for a fleet that was ever matched. */
  ghost predicate Heard(rows: map<Id, Belief>, poll: Poll) {
    poll.Listed? && (poll.boxes != [] || forall id | id in rows :: rows[id].rotomId == None)
  }

  lemma HeardIsEffective(rows: map<Id, Belief>, poll: Poll)
    ensures Effective(rows, poll) <==> Heard(rows, poll)
  {
  }

  /** A device no longer heard of keeps what does not depend on it: its identity, its workers and whether it may run. */
  function Gone(b: Belief): Belief {
    Belief(b.rotomId, false, b.enabled, false, false, b.workerCount, None, None, None, None, b.rest)
  }

  /**
   * One effective sync, one device: matched, it is what the list last says
   * anew; missed, it is left as it was at the first miss and gone at the
   * second.
   */
  lemma SyncedOne(s: State, poll: Poll, at: Moment, id: Id)
    requires Heard(s.rows, poll) && id in s.rows
    ensures var n, matched := Synced(s, poll, at), Matched(poll.boxes);
      && id in n.rows
      && (id in matched ==> n.rows[id] == RowAfter(s.rows[id], poll.boxes, id) && id !in n.misses)
      && (id !in matched && !s.rows[id].connected ==> n.rows[id] == s.rows[id] && id !in n.misses)
      && (id !in matched && s.rows[id].connected && MissCount(s.misses, id) == 0 ==>
            n.rows[id] == s.rows[id] && id in n.misses && n.misses[id] == 1)
      && (id !in matched && s.rows[id].connected && MissCount(s.misses, id) > 0 ==>
            n.rows[id] == Gone(s.rows[id]) && id !in n.misses)
  {
    HeardIsEffective(s.rows, poll);
    WrittenRow(s.rows, poll.boxes, id);
  }

  lemma {:induction false} RowsStay(rows: map<Id, Belief>, calls: seq<Call>)
    ensures After(rows, calls).rows.Keys == rows.Keys
  {
    if calls != [] { RowsStay(rows, calls[..|calls| - 1]); }
  }

  /** A miss is remembered exactly for the connected devices that the last effective sync did not match. */
  lemma {:induction false} MissesMean(rows: map<Id, Belief>, calls: seq<Call>, id: Id)
    requires id in rows
    ensures var s := After(rows, calls);
      && id in s.rows
      && (id in s.misses <==> s.rows[id].connected && MissedLast(rows, calls, id))
      && (id in s.misses ==> s.misses[id] == 1)
  {
    if calls != [] {
      var before, last := calls[..|calls| - 1], calls[|calls| - 1];
      MissesMean(rows, before, id);
      var s := After(rows, before);
      if last.Sync? { HeardIsEffective(s.rows, last.poll); }
      if last.Sync? && Heard(s.rows, last.poll) { SyncedOne(s, last.poll, last.at, id); }
    }
  }

  /**
   * A connected flag drops exactly in an effective sync whose list leaves the
   * row disconnected, or that, right after another effective sync that did
   * not match the device, does not match it either.
   */
  lemma FlagDropsIff(rows: map<Id, Belief>, calls: seq<Call>, poll: Poll, at: Moment, id: Id)
    requires id in rows && id in After(rows, calls).rows && After(rows, calls).rows[id].connected
    ensures var s, n := After(rows, calls), After(rows, calls + [Sync(poll, at)]);
      && id in n.rows
      && (!n.rows[id].connected <==>
            && Heard(s.rows, poll)
            && (if id in Matched(poll.boxes) then !RowAfter(s.rows[id], poll.boxes, id).connected
                else MissedLast(rows, calls, id)))
  {
    assert (calls + [Sync(poll, at)])[..|calls|] == calls;
    MissesMean(rows, calls, id);
    HeardIsEffective(After(rows, calls).rows, poll);
    if Heard(After(rows, calls).rows, poll) { SyncedOne(After(rows, calls), poll, at, id); }
  }

  /** And when it was matched, some listed box said it was disconnected. */
  lemma DroppedBecauseListed(was: Belief, boxes: seq<Box>, id: Id)
    requires was.connected && !RowAfter(was, boxes, id).connected
    ensures exists b <- boxes :: b.device == Some(id) && !b.state.connected
  {
    OtherWasSaid(was, boxes, id);
  }

  /** A poll that failed or found Rotom off, or an empty list for a fleet that was ever matched. */
  ghost predicate Silent(rows: map<Id, Belief>, poll: Poll) {
    poll.Listed? ==> poll.boxes == [] && exists id :: id in rows && rows[id].rotomId.Some?
  }

  lemma SilentIsNothing(s: State, poll: Poll, at: Moment)
    requires Silent(s.rows, poll)
    ensures Synced(s, poll, at) == s
  {
  }

  /**
   * A silent sync leaves no trace in the run: what every later call does and
   * leaves is as if it had not been, misses, slots and history included. So
   * two misses with only silence between them are two in a row.
   */
  lemma {:induction false} SilenceLeavesNoTrace(
      rows: map<Id, Belief>, calls: seq<Call>, poll: Poll, at: Moment, more: seq<Call>)
    requires Silent(After(rows, calls).rows, poll)
    ensures After(rows, calls + [Sync(poll, at)] + more) == After(rows, calls + more)
    decreases |more|
  {
    hide Synced, Silent;
    var with, without := calls + [Sync(poll, at)] + more, calls + more;
    if more == [] {
      assert with[..|calls|] == calls && without == calls;
      SilentIsNothing(After(rows, calls), poll, at);
    } else {
      var last := |more| - 1;
      SilenceLeavesNoTrace(rows, calls, poll, at, more[..last]);
      assert with[..|with| - 1] == calls + [Sync(poll, at)] + more[..last];
      assert without[..|without| - 1] == calls + more[..last];
    }
  }

  // --- The history -------------------------------------------------------------------------

  /** What a row says, as the history would have it. */
  function Seen(row: Belief): Reading {
    Reading(row.connected, row.enabled, row.connected && row.canBeUsed, row.connected && row.inUse,
            if row.connected then row.workerCount else None, if row.connected then row.workersInUse else None,
            if row.connected then row.requestRate else None, if row.connected then row.requestMs else None)
  }

  /** The list ends by repeating what the row said at the start, having said otherwise before. */
  predicate Contradicted(was: Belief, boxes: seq<Box>, id: Id) {
    && id in Matched(boxes)
    && Believed(boxes)[id] == was
    && LastOther(was, boxes, id).Some?
    && Seen(LastOther(was, boxes, id).value) != Seen(was)
  }

  lemma {:induction false} LastWins(was: Belief, boxes: seq<Box>, id: Id)
    requires id in Matched(boxes) && Believed(boxes)[id] != was
    ensures LastOther(was, boxes, id) == Some(Believed(boxes)[id])
  {
    var before, last := boxes[..|boxes| - 1], boxes[|boxes| - 1];
    assert boxes == before + [last];
    if last.device != Some(id) { LastWins(was, before, id); }
  }

  /** The slot a moment falls in: a second at least, in whole slots since the epoch. */
  function SlotOf(at: Moment): int {
    at.now / (if at.sampleSeconds >= 1 then at.sampleSeconds * 1000 else 1000)
  }

  /** History is kept at all, and nothing was written in this slot since the hub started. */
  predicate IsDue(s: State, at: Moment) {
    at.retentionDays >= 1 && SlotOf(at) != s.lastRecordedSlot
  }

  lemma DueIsRecorded(s: State, at: Moment)
    ensures IsDue(s, at) <==> Records(s, at)
    ensures SlotOf(at) == Slot(at)
  {
  }

  /**
   * A sync writes history exactly when it takes effect, history is kept and
   * the slot is new: one row for each device that was ever matched, and for
   * no other. It then holds the slot, so no later sync of the slot writes.
   */
  lemma RecordsIff(s: State, poll: Poll, at: Moment)
    ensures var n := Synced(s, poll, at);
      if Heard(s.rows, poll) && IsDue(s, at) then
        && n.lastRecordedSlot == SlotOf(at) && !IsDue(n, at)
        && (if exists id :: id in s.rows && s.rows[id].rotomId.Some? then
              && |n.history| == |s.history| + 1 && n.history[..|s.history|] == s.history
              && forall id :: id in n.history[|s.history|] <==> id in s.rows && s.rows[id].rotomId.Some?
            else n.history == s.history)
      else n.lastRecordedSlot == s.lastRecordedSlot && n.history == s.history
  {
    hide Written, SweptMisses, SweptRows, ReadingOf, Believed, Flipped, Slot, SlotOf;
    HeardIsEffective(s.rows, poll);
    DueIsRecorded(s, at);
    if Heard(s.rows, poll) && IsDue(s, at) {
      var batch := Readings(s.rows, Believed(poll.boxes), Flipped(s.rows, s.misses, Matched(poll.boxes)));
      if id :| id in s.rows && s.rows[id].rotomId.Some? { assert id in batch; }
      if batch != map[] {
        var id :| id in batch;
        assert id in s.rows && s.rows[id].rotomId.Some?;
      }
    }
  }

  lemma RecordedRow(s: State, poll: Poll, at: Moment, id: Id)
    requires Heard(s.rows, poll) && IsDue(s, at) && id in s.rows && s.rows[id].rotomId.Some?
    ensures var n := Synced(s, poll, at); var matched := Matched(poll.boxes);
      && n.history != [] && id in n.history[|n.history| - 1]
      && n.history[|n.history| - 1][id]
           == ReadingOf(id, s.rows, Believed(poll.boxes), Flipped(s.rows, s.misses, matched))
  {
    hide Written, SweptMisses, SweptRows, ReadingOf, Believed;
    HeardIsEffective(s.rows, poll);
    DueIsRecorded(s, at);
    assert id in Readings(s.rows, Believed(poll.boxes), Flipped(s.rows, s.misses, Matched(poll.boxes)));
  }

  /**
   * The history row written by a sync says in every field what the device row
   * says after it, unless the list contradicts itself about the device.
   */
  lemma HistoryAgreesIff(s: State, poll: Poll, at: Moment, id: Id)
    requires Heard(s.rows, poll) && IsDue(s, at) && id in s.rows && s.rows[id].rotomId.Some?
    ensures var n := Synced(s, poll, at);
      && n.history != [] && id in n.history[|n.history| - 1] && id in n.rows
      && (n.history[|n.history| - 1][id] == Seen(n.rows[id]) <==> !Contradicted(s.rows[id], poll.boxes, id))
  {
    hide Synced, Written, SweptMisses, SweptRows, Readings;
    RecordedRow(s, poll, at, id);
    SyncedOne(s, poll, at, id);
    if id in Matched(poll.boxes) && Believed(poll.boxes)[id] != s.rows[id] { LastWins(s.rows[id], poll.boxes, id); }
  }

  predicate ListedOnce(boxes: seq<Box>, id: Id) {
    forall i, j | 0 <= i < j < |boxes| :: boxes[i].device != Some(id) || boxes[j].device != Some(id)
  }

  /** A device that one box alone is matched to is never contradicted. */
  lemma OnceIsNotContradicted(was: Belief, boxes: seq<Box>, id: Id)
    requires ListedOnce(boxes, id)
    ensures !Contradicted(was, boxes, id)
  {
    if id in Matched(boxes) && LastOther(was, boxes, id).Some? {
      LastSaid(boxes, id);
      OtherWasSaid(was, boxes, id);
    }
  }

  /**
   * Two boxes that match one device, say one by its id and one by its address:
   * the row keeps what the first says and the history what the second does.
   */
  lemma HistoryMayDisagree(s: State, at: Moment, id: Id, was: Belief, other: Belief)
    requires IsDue(s, at) && s.rows == map[id := was] && was.rotomId.Some? && Seen(other) != Seen(was)
    ensures var n := Synced(s, Listed([Box(Some(id), other), Box(Some(id), was)]), at);
      && n.history != [] && id in n.history[|n.history| - 1] && id in n.rows
      && n.history[|n.history| - 1][id] == Seen(was) && n.rows[id] == other
  {
    var first, second := Box(Some(id), other), Box(Some(id), was);
    var boxes := [first, second];
    assert boxes[..1] == [first] && [first][..0] == [];
    DueIsRecorded(s, at);
    HeardIsEffective(s.rows, Listed(boxes));
    assert second in boxes && id in Matched(boxes);
    assert LastOther(was, [first], id) == Some(other);
    assert LastOther(was, boxes, id) == LastOther(was, [first], id);
    assert Believed(boxes)[id] == was;
    SyncedOne(s, Listed(boxes), at, id);
    assert id in Readings(s.rows, Believed(boxes), Flipped(s.rows, s.misses, Matched(boxes)));
  }
}
