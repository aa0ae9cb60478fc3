// The hub's service functions as they run: rows read, rewritten one at a time
// in loops, and written back. Each method is proved to leave the tables exactly
// as the step of the same name in RolloutModel.dfy or Dispatch.dfy says.

module HubService {
  import opened Numbers
  import opened Options
  import opened RolloutModel
  import opened DispatchModel

  class Hub {
    var jobs: map<JobId, Job>
    var rollouts: map<RolloutId, Rollout>

    ghost function View(): Db
      reads this
    {
      Db(jobs, rollouts)
    }

    constructor ()
      ensures View() == Db(map[], map[])
    {
      jobs, rollouts := map[], map[];
    }

    // --- jobs.ts ---------------------------------------------------------------

    method RecomputeRollout(r: RolloutId, now: Time)
      modifies `rollouts
      ensures View() == Recompute(old(View()), r, now)
    {
      if r !in rollouts || IsClosed(rollouts[r].status) { return; }
      var db := Db(jobs, rollouts);
      var rollout := rollouts[r];
      var status, passedAt, finishedAt := rollout.status, rollout.canaryPassedAt, rollout.finishedAt;
      if rollout.status == Canary && HasCanary(db, r) {
        if CanaryDone(db, r) {
          if CanaryIn(db, r, Failed) {
            status := Paused;
          } else if CanaryIn(db, r, Success) {
            passedAt := Some(now);
            status := if rollout.soakMinutes > 0 then Soaking else Running;
          }
        }
      }
      if AllDone(db, r) && status != Paused {
        status := Completed;
        finishedAt := Some(now);
      }
      rollouts := rollouts[r := rollout.(status := status, canaryPassedAt := passedAt, finishedAt := finishedAt)];
    }

    method ApplyProgress(id: JobId, state: JobState, percent: int, now: Time)
      modifies `jobs
      ensures View() == RolloutModel.ApplyProgress(old(View()), id, state, percent, now)
    {
      if id !in jobs { return; }
      var job := jobs[id];
      if IsTerminal(job.state) { return; }
      var startedAt := if job.startedAt == None then Some(now) else job.startedAt;
      jobs := jobs[id := job.(state := state, progress := Max(0, Min(100, percent)),
                              heartbeatAt := Some(now), startedAt := startedAt)];
    }

    method Heartbeat(id: JobId, now: Time)
      modifies `jobs
      ensures View() == RolloutModel.Heartbeat(old(View()), id, now)
    {
      if id in jobs && IsActive(jobs[id].state) {
        jobs := jobs[id := jobs[id].(heartbeatAt := Some(now))];
      }
    }

    method CompleteJob(id: JobId, ok: bool, now: Time)
      requires Valid(View())
      modifies this
      ensures View() == RolloutModel.CompleteJob(old(View()), id, ok, now)
    {
      if id !in jobs { return; }
      var job := jobs[id];
      if IsTerminal(job.state) { return; }
      if ok {
        jobs := jobs[id := job.(state := Success, progress := 100, finishedAt := Some(now))];
      } else {
        var rollout := rollouts[job.rollout];
        var canRetry := job.attempt < rollout.maxAttempts;
        var retryAt := if canRetry then NextAttemptAt(rollout.retryBackoffSeconds, job.attempt, now) else None;
        jobs := jobs[id := job.(state := if canRetry then Queued else Failed, progress := 0,
                                nextAttemptAt := retryAt, finishedAt := if canRetry then None else Some(now))];
      }
      RecomputeRollout(job.rollout, now);
    }

    method RetryJob(id: JobId, now: Time)
      modifies this
      ensures View() == RolloutModel.RetryJob(old(View()), id, now)
    {
      if id !in jobs { return; }
      var job := jobs[id];
      if !IsTerminal(job.state) && job.state != Queued { return; }
      jobs := jobs[id := job.(
        state := Queued, progress := 0, attempt := 0, nextAttemptAt := None, queuedAt := now,
        dispatchedAt := None, startedAt := None, heartbeatAt := None, finishedAt := None)];
      RecomputeRollout(job.rollout, now);
    }

    method CancelJob(id: JobId, now: Time)
      modifies this
      ensures View() == RolloutModel.CancelJob(old(View()), id, now)
    {
      if id !in jobs || IsTerminal(jobs[id].state) { return; }
      var job := jobs[id];
      jobs := jobs[id := job.(state := JobState.Cancelled, finishedAt := Some(now))];
      RecomputeRollout(job.rollout, now);
    }

    /** One turn of the loop below: back to the queue, or failed for good. */
    method RequeueOne(id: JobId, now: Time)
      requires Valid(View()) && id in jobs
      modifies this
      ensures View() == RolloutModel.RequeueOne(old(View()), id, now)
    {
      var job := jobs[id];
      var rollout := rollouts[job.rollout];
      var canRetry := job.attempt < rollout.maxAttempts;
      jobs := jobs[id := job.(
        state := if canRetry then Queued else Failed, progress := 0,
        nextAttemptAt := if canRetry then NextAttemptAt(rollout.retryBackoffSeconds, job.attempt, now) else None,
        finishedAt := if canRetry then None else Some(now))];
      RecomputeRollout(job.rollout, now);
    }

    /** `stalled` is what the query returned, in the order it returned it. */
    method RequeueStalled(stalled: seq<JobId>, ghost timeoutSeconds: nat, now: Time) returns (count: nat)
      requires Valid(View()) && Lists(stalled, Stalled(View(), timeoutSeconds, now))
      modifies this
      ensures View() == RolloutModel.RequeueStalled(old(View()), stalled, now)
      ensures count == |Stalled(old(View()), timeoutSeconds, now)|
    {
      ghost var before := View();
      assert forall id :: id in stalled ==> id in before.jobs;
      for i := 0 to |stalled|
        invariant View() == RolloutModel.RequeueStalled(before, stalled[..i], now)
      {
        RequeueOne(stalled[i], now);
        assert stalled[..i + 1][..i] == stalled[..i];
      }
      assert stalled[..|stalled|] == stalled;
      count := |stalled|;
      ListingCounts(stalled, Stalled(before, timeoutSeconds, now));
    }

    // --- deviceSocket.ts ----------------------------------------------------------

    /** Returns the job the agent should be told to drop, if any. */
    method ReconcileJobs(device: DeviceId, current: Option<JobId>) returns (drop: Option<JobId>)
      modifies `jobs
      ensures View() == Reconcile(old(View()), device, current)
      ensures drop == match current
        case None => None
        case Some(id) =>
          if id in old(jobs) && old(jobs)[id].device == device && IsActive(old(jobs)[id].state) then None else current
    {
      ghost var before := View();
      var active := set id | id in jobs && jobs[id].device == device && IsActive(jobs[id].state);
      var rest := active;
      while rest != {}
        invariant rest <= active && jobs.Keys == before.jobs.Keys
        invariant forall id | id in jobs ::
          jobs[id] == if id in Forgotten(before, device, current) && id !in rest
                      then Unclaimed(before.jobs[id]) else before.jobs[id]
        decreases rest
      {
        var id :| id in rest;
        rest := rest - {id};
        if Some(id) != current {
          jobs := jobs[id := Unclaimed(jobs[id])];
        }
      }
      assert jobs == Reconcile(before, device, current).jobs;
      drop := if current.Some? && current.value !in active then current else None;
    }

    // --- rollouts.ts ------------------------------------------------------------------

    /** `ids` are what the database gives the new rows, one for each target. */
    method CreateRollout(
        r: RolloutId, ids: seq<JobId>, version: Option<Version>, targets: seq<Target>, plan: Plan, now: Time)
      returns (outcome: Creation)
      requires |ids| == |targets| && Distinct(ids)
      modifies this
      ensures View() == RolloutModel.CreateRollout(old(View()), r, ids, version, targets, plan, now)
      ensures outcome == CreationOf(version, targets)
    {
      if version.None? { return NoVersion; }
      var v := version.value;
      if !v.isReady || !v.hasArtifact || !v.hasDigest { return NotCached; }
      if |targets| == 0 { return NoDevices; }
      var canaries := Canaries(targets, plan);
      jobs := jobs + NewJobs(r, ids, targets, plan, canaries, now);
      rollouts := rollouts[r := NewRollout(plan, canaries)];
      RecomputeRollout(r, now);
      return Created;
    }

    method CancelRollout(r: RolloutId, now: Time) returns (found: bool)
      modifies this
      ensures View() == RolloutModel.CancelRollout(old(View()), r, now)
      ensures found == (r in old(rollouts))
    {
      jobs := map id | id in jobs ::
        if jobs[id].rollout == r && !IsTerminal(jobs[id].state)
        then jobs[id].(state := JobState.Cancelled, finishedAt := Some(now)) else jobs[id];
      found := r in rollouts;
      if found {
        rollouts := rollouts[r := rollouts[r].(status := Status.Cancelled, finishedAt := Some(now))];
      }
    }

    method ResumeRollout(r: RolloutId, now: Time) returns (resumed: bool)
      modifies `rollouts
      ensures View() == RolloutModel.ResumeRollout(old(View()), r, now)
      ensures resumed == (r in old(rollouts) && old(rollouts)[r].status in {Paused, Soaking})
    {
      if r !in rollouts { return false; }
      var rollout := rollouts[r];
      if rollout.status != Paused && rollout.status != Soaking { return false; }
      rollouts := rollouts[r := rollout.(
        status := Running,
        canaryPassedAt := if rollout.canaryPassedAt == None then Some(now) else rollout.canaryPassedAt)];
      return true;
    }

    // --- scheduler.ts -----------------------------------------------------------------

    method PromoteSoakingRollouts(now: Time)
      modifies `rollouts
      ensures View() == PromoteSoaking(old(View()), now)
    {
      ghost var before := View();
      var soaking := set r | r in rollouts && rollouts[r].status == Soaking && rollouts[r].canaryPassedAt.Some?;
      var rest := soaking;
      while rest != {}
        invariant rest <= soaking && rollouts.Keys == before.rollouts.Keys
        invariant forall r | r in rollouts ::
          rollouts[r] == if r in soaking && r !in rest && SoakOver(before.rollouts[r], now)
                         then before.rollouts[r].(status := Running) else before.rollouts[r]
        decreases rest
      {
        var r :| r in rest;
        rest := rest - {r};
        var readyAt := rollouts[r].canaryPassedAt.value + rollouts[r].soakMinutes * 60_000;
        if readyAt <= now {
          rollouts := rollouts[r := rollouts[r].(status := Running)];
        }
      }
      assert rollouts == PromoteSoaking(before, now).rollouts;
    }

    /** The count of jobs in flight per group, taken before the loop. */
    method CountGroups(fleet: Fleet) returns (groupActive: map<GroupId, nat>)
      ensures groupActive == GroupCounts(View(), fleet)
    {
      var active := set id | id in jobs && IsActive(jobs[id].state);
      var seen: set<JobId> := {};
      groupActive := map[];
      while active - seen != {}
        invariant seen <= active
        invariant forall g :: g in groupActive <==> exists id :: id in seen && InGroup(fleet, jobs[id], g)
        invariant forall g | g in groupActive :: groupActive[g] == |SeenIn(seen, fleet, g)|
        decreases active - seen
      {
        var id :| id in active - seen;
        ghost var was, counted := seen, groupActive;
        seen := seen + {id};
        if jobs[id].device in fleet.group {
          var g := fleet.group[jobs[id].device];
          groupActive := groupActive[g := Get(groupActive, g) + 1];
        }
        forall g | g in groupActive ensures groupActive[g] == |SeenIn(seen, fleet, g)| {
          SeenOneMore(was, id, fleet, g);
          assert g !in counted ==> SeenIn(was, fleet, g) == {};
        }
      }
      assert active <= seen + (active - seen);
      assert seen == active && active == Active(View());
      CountsComplete(fleet, groupActive);
    }

    lemma CountsComplete(fleet: Fleet, groupActive: map<GroupId, nat>)
      requires Active(View()) <= jobs.Keys
      requires forall g :: g in groupActive <==> exists id :: id in Active(View()) && InGroup(fleet, jobs[id], g)
      requires forall g | g in groupActive :: groupActive[g] == |SeenIn(Active(View()), fleet, g)|
      ensures groupActive == GroupCounts(View(), fleet)
    {
      var active := Active(View());
      forall g | g in groupActive ensures groupActive[g] == |ActiveInGroup(View(), fleet, g)| {
        assert forall id :: id in SeenIn(active, fleet, g) <==> id in ActiveInGroup(View(), fleet, g);
        assert SeenIn(active, fleet, g) == ActiveInGroup(View(), fleet, g);
      }
      forall g ensures g in groupActive <==> g in Groups(View(), fleet) {
        if g in Groups(View(), fleet) {
          var id :| id in active && jobs[id].device in fleet.group && fleet.group[jobs[id].device] == g;
          assert InGroup(fleet, jobs[id], g);
        }
      }
    }

    lemma SeenOneMore(seen: set<JobId>, id: JobId, fleet: Fleet, g: GroupId)
      requires seen <= jobs.Keys && id in jobs && id !in seen
      ensures |SeenIn(seen + {id}, fleet, g)| == |SeenIn(seen, fleet, g)| + (if InGroup(fleet, jobs[id], g) then 1 else 0)
    {
      if InGroup(fleet, jobs[id], g) {
        assert SeenIn(seen + {id}, fleet, g) == SeenIn(seen, fleet, g) + {id};
      } else {
        assert SeenIn(seen + {id}, fleet, g) == SeenIn(seen, fleet, g);
      }
    }

    ghost function SeenIn(seen: set<JobId>, fleet: Fleet, g: GroupId): set<JobId>
      requires seen <= jobs.Keys
      reads this
    {
      set id | id in seen && InGroup(fleet, jobs[id], g)
    }

    /** Write the row as dispatched, send, and put it back if the socket died in between. */
    method Send(id: JobId, job: Job, fleet: Fleet, now: Time) returns (sent: bool)
      requires id in jobs
      modifies `jobs
      ensures sent == (id in fleet.accepts)
      ensures jobs == old(jobs)[id :=
        var row := Sent(old(jobs)[id], now).(attempt := job.attempt + 1); if sent then row else Unsent(row, job)]
    {
      jobs := jobs[id := jobs[id].(state := Dispatched, attempt := job.attempt + 1, progress := 0,
                                   dispatchedAt := Some(now), heartbeatAt := Some(now))];
      sent := id in fleet.accepts;
      if !sent {
        jobs := jobs[id := jobs[id].(state := Queued, attempt := job.attempt,
                                     dispatchedAt := None, heartbeatAt := None)];
      }
    }

    /** The tests at the head of the loop below, in its order. */
    method MayGo(
      job: Job, rollout: Rollout, fleet: Fleet, groupActive: map<GroupId, nat>, rolloutActive: map<RolloutId, nat>,
      ghost p: Pass
    ) returns (go: bool)
      requires (p.groupActive, p.rolloutActive) == (groupActive, rolloutActive)
      ensures go == (Reachable(fleet, job, rollout) && !GroupFull(p, fleet, job) && !RolloutFull(p, job, rollout))
    {
      if job.device !in fleet.online { return false; }
      if rollout.status == Canary && !job.isCanary { return false; }
      if rollout.mode == Auto && job.rollout !in fleet.windowOpen { return false; }
      var group := GroupOf(fleet, job);
      if group.Some? && group.value in fleet.groupLimit
         && Get(groupActive, group.value) >= fleet.groupLimit[group.value] { return false; }
      if rollout.maxConcurrency.Some? && Get(rolloutActive, job.rollout) >= rollout.maxConcurrency.value {
        return false;
      }
      return job.rollout in fleet.cached;
    }

    /**
     * The body of the loop below, for one candidate while there is capacity.
     * `p` is the same state as the specification holds it.
     */
    method Offer(
      id: JobId, snap: Db, fleet: Fleet, now: Time, ghost p: Pass,
      capacity: int, groupActive: map<GroupId, nat>, rolloutActive: map<RolloutId, nat>
    ) returns (capacity': int, groupActive': map<GroupId, nat>, rolloutActive': map<RolloutId, nat>)
      requires Valid(snap) && id in snap.jobs && id in jobs && capacity > 0
      requires p.db == View() && (p.capacity, p.groupActive, p.rolloutActive) == (capacity, groupActive, rolloutActive)
      modifies this
      ensures var q := Visit(p, snap, fleet, id, now);
        q.db == View() && (q.capacity, q.groupActive, q.rolloutActive) == (capacity', groupActive', rolloutActive')
    {
      capacity', groupActive', rolloutActive' := capacity, groupActive, rolloutActive;
      var job := snap.jobs[id];
      var go := MayGo(job, snap.rollouts[job.rollout], fleet, groupActive, rolloutActive, p);
      if !go { return; }
      var sent := Send(id, job, fleet, now);
      if !sent { return; }
      capacity' := capacity - 1;
      var group := GroupOf(fleet, job);
      if group.Some? {
        groupActive' := groupActive[group.value := Get(groupActive, group.value) + 1];
      }
      rolloutActive' := rolloutActive[job.rollout := Get(rolloutActive, job.rollout) + 1];
      assert View() == p.db.(jobs := jobs);
      RecomputeRollout(job.rollout, now);
    }

    /** `candidates` is what the candidate query returned. */
    method DispatchQueued(fleet: Fleet, cap: nat, candidates: seq<JobId>, now: Time)
      requires Valid(View()) && IsCandidateList(View(), fleet, now, candidates)
      modifies this
      ensures View() == DispatchModel.DispatchQueued(old(View()), fleet, cap, candidates, now)
    {
      var snap := Db(jobs, rollouts);
      var capacity := cap - |Active(snap)|;
      assert forall id :: id in candidates ==> id in snap.jobs;
      if capacity <= 0 || candidates == [] {
        NothingSent(snap, fleet, cap, candidates, now);
        return;
      }
      var groupActive: map<GroupId, nat> := CountGroups(fleet);
      var rolloutActive: map<RolloutId, nat> := map[];
      ghost var p := StartPass(snap, fleet, cap);
      var i := 0;
      while i < |candidates| && capacity > 0
        invariant i <= |candidates|
        invariant forall id :: id in candidates ==> id in snap.jobs
        invariant p == Visits(snap, fleet, cap, candidates[..i], now)
        invariant p.db == View() && (p.capacity, p.groupActive, p.rolloutActive) == (capacity, groupActive, rolloutActive)
      {
        NextVisit(snap, fleet, cap, candidates, i, now);
        capacity, groupActive, rolloutActive :=
          Offer(candidates[i], snap, fleet, now, p, capacity, groupActive, rolloutActive);
        p := Visit(p, snap, fleet, candidates[i], now);
        i := i + 1;
      }
      ExhaustedPassIsDone(snap, fleet, cap, candidates, i, now);
    }
  }

  lemma NextVisit(db: Db, fleet: Fleet, cap: nat, ids: seq<JobId>, i: nat, now: Time)
    requires Valid(db) && (forall id :: id in ids ==> id in db.jobs) && i < |ids|
    ensures Visits(db, fleet, cap, ids[..i + 1], now)
         == Visit(Visits(db, fleet, cap, ids[..i], now), db, fleet, ids[i], now)
  {
    assert ids[..i + 1][..i] == ids[..i];
  }

  lemma {:induction false} ListingCounts(order: seq<JobId>, rows: set<JobId>)
    requires Lists(order, rows)
    ensures |order| == |rows|
  {
    if order != [] {
      var last := |order| - 1;
      assert order[last] in rows;
      forall id ensures id in order[..last] <==> id in rows - {order[last]} {
        if id in rows - {order[last]} {
          assert id in order;
        }
      }
      ListingCounts(order[..last], rows - {order[last]});
    } else {
      assert rows == {};
    }
  }

  /** Once capacity is gone the remaining candidates change nothing, so the loop may stop. */
  lemma {:induction false} ExhaustedPassIsDone(db: Db, fleet: Fleet, cap: nat, ids: seq<JobId>, i: nat, now: Time)
    requires Valid(db) && (forall id :: id in ids ==> id in db.jobs) && i <= |ids|
    requires i == |ids| || Visits(db, fleet, cap, ids[..i], now).capacity <= 0
    ensures Visits(db, fleet, cap, ids, now) == Visits(db, fleet, cap, ids[..i], now)
    decreases |ids|
  {
    if i < |ids| {
      var last := |ids| - 1;
      assert ids[..last][..i] == ids[..i];
      ExhaustedPassIsDone(db, fleet, cap, ids[..last], i, now);
    } else {
      assert ids[..i] == ids;
    }
  }

  lemma NothingSent(db: Db, fleet: Fleet, cap: nat, ids: seq<JobId>, now: Time)
    requires Valid(db) && forall id :: id in ids ==> id in db.jobs
    requires cap <= |Active(db)| || ids == []
    ensures DispatchModel.DispatchQueued(db, fleet, cap, ids, now) == db
  {
    ExhaustedPassIsDone(db, fleet, cap, ids, 0, now);
  }
}
