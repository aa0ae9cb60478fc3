// The candidate query of a dispatch pass takes 500 rows, canaries first and
// then the oldest. Which jobs it leaves out, and that they may wait for ever.

module CandidateQuery {
  import opened Options
  import opened RolloutModel
  import opened DispatchModel
  import opened RolloutSteps
  import opened RolloutRuns
  import opened RolloutProgress

  // --- Who is listed ----------------------------------------------------------------------

  /** The other candidates that the query may put before the job. */
  ghost function Ahead(db: Db, fleet: Fleet, now: Time, id: JobId): set<JobId>
    requires Valid(db) && id in db.jobs
  {
    set x | x in db.jobs && x != id && IsCandidate(db, fleet, now, x) && NotAfter(db.jobs[x], db.jobs[id])
  }

  /** The candidates that it must put before the job. */
  ghost function StrictlyAhead(db: Db, fleet: Fleet, now: Time, id: JobId): set<JobId>
    requires Valid(db) && id in db.jobs
  {
    set x | x in db.jobs && IsCandidate(db, fleet, now, x) && !NotAfter(db.jobs[id], db.jobs[x])
  }

  function Elements(ids: seq<JobId>): set<JobId> {
    set id | id in ids
  }

  /** The keys 0 to n - 1. */
  function Ids(n: nat): seq<JobId> {
    seq(n, i requires 0 <= i < n => i)
  }

  lemma {:induction false} DistinctSize(ids: seq<JobId>)
    requires Distinct(ids)
    ensures |Elements(ids)| == |ids|
  {
    if ids != [] {
      var before, last := ids[..|ids| - 1], ids[|ids| - 1];
      assert forall i, j :: 0 <= i < j < |before| ==> ids[i] != ids[j];
      DistinctSize(before);
      assert last !in before;
      assert Elements(ids) == Elements(before) + {last};
    }
  }

  /** A candidate with fewer than 500 others that may come before it is listed. */
  lemma ListedIfRoom(db: Db, fleet: Fleet, now: Time, ids: seq<JobId>, id: JobId)
    requires Valid(db) && IsCandidateList(db, fleet, now, ids) && IsCandidate(db, fleet, now, id)
    requires |Ahead(db, fleet, now, id)| < CANDIDATES
    ensures id in ids
  {
    if id !in ids {
      forall x | x in ids ensures x in Ahead(db, fleet, now, id) {
        var i :| 0 <= i < |ids| && ids[i] == x;
        assert i < CANDIDATES - 1 ==> NotAfter(db.jobs[ids[i]], db.jobs[ids[CANDIDATES - 1]]);
      }
      DistinctSize(ids);
      SubsetSize(Elements(ids), Ahead(db, fleet, now, id));
    }
  }

  /** One with 500 strictly before it is not. */
  lemma HiddenIfCrowded(db: Db, fleet: Fleet, now: Time, ids: seq<JobId>, id: JobId)
    requires Valid(db) && IsCandidateList(db, fleet, now, ids) && id in db.jobs
    requires |StrictlyAhead(db, fleet, now, id)| >= CANDIDATES
    ensures id !in ids
  {
    if id in ids {
      var i :| 0 <= i < |ids| && ids[i] == id;
      forall x | x in StrictlyAhead(db, fleet, now, id) ensures x in Elements(ids) - {id} {
        assert i < CANDIDATES - 1 && |ids| == CANDIDATES ==>
          NotAfter(db.jobs[ids[i]], db.jobs[ids[CANDIDATES - 1]]);
      }
      DistinctSize(ids);
      SubsetSize(StrictlyAhead(db, fleet, now, id), Elements(ids) - {id});
    }
  }

  /** So in no run does a pass dispatch a job that 500 candidates stand strictly before. */
  lemma DispatchedIsNotCrowded(run: seq<Moment>, k: nat, id: JobId)
    requires IsRun(run) && k < |run| && RolloutRuns.Dispatched(run[k], id)
    ensures Valid(run[k].before)
    ensures |StrictlyAhead(run[k].before, run[k].call.fleet, run[k].at, id)| < 500
  {
    var m := run[k];
    StepAt(run, k);
    assert JobStep(m.before, m.call, m.at, id, m.after.jobs[id]);
    assert Follows(run, k) && id in m.call.ids;
    if |StrictlyAhead(m.before, m.call.fleet, m.at, id)| >= CANDIDATES {
      HiddenIfCrowded(m.before, m.call.fleet, m.at, m.call.ids, id);
    }
  }

  /**
   * And a queued job of an approved box, its wait over and its rollout in
   * CANARY or RUNNING, with fewer than 500 that may come before it and nothing
   * else in its way, is dispatched by every pass.
   */
  lemma ReadyWithRoomIsSent(run: seq<Moment>, k: nat, id: JobId)
    requires IsRun(run) && k < |run| && run[k].call.Dispatch? && Valid(run[k].before)
    requires id in run[k].before.jobs && id in run[k].call.fleet.accepts
    requires var m := run[k]; var job := m.before.jobs[id];
      && job.state == Queued && job.device in m.call.fleet.approved
      && m.before.rollouts[job.rollout].status in {Canary, Running}
      && (job.nextAttemptAt.Some? ==> job.nextAttemptAt.value <= m.at)
    requires |Ahead(run[k].before, run[k].call.fleet, run[k].at, id)| < 500
    requires var m := run[k]; var job := m.before.jobs[id]; var rollout := m.before.rollouts[job.rollout];
      && job.device in m.call.fleet.online && job.rollout in m.call.fleet.cached
      && (rollout.status == Canary ==> job.isCanary)
      && (rollout.mode == Auto ==> job.rollout in m.call.fleet.windowOpen)
      && |Active(m.after)| < m.call.cap
      && HasRoomInGroup(m.after, m.call.fleet, job)
      && (rollout.maxConcurrency.Some? ==>
            |ActiveInRollout(m.after, job.rollout)|
              < |ActiveInRollout(m.before, job.rollout)| + rollout.maxConcurrency.value)
    ensures RolloutRuns.Dispatched(run[k], id)
  {
    var m := run[k];
    assert Follows(run, k);
    assert IsCandidate(m.before, m.call.fleet, m.at, id);
    ListedIfRoom(m.before, m.call.fleet, m.at, m.call.ids, id);
    ReadyIsSent(run, k, id);
  }

  // --- A job that is never listed -----------------------------------------------------------

  /**
   * Rollout 0 waits on its canary, box 0, with the boxes 1 to n behind it; the
   * job of box n + 1, alone in rollout 1, was queued a moment later.
   */
  ghost predicate Waiting(db: Db, n: nat, at: Time) {
    && Valid(db)
    && (forall i: JobId :: i in db.jobs <==> i <= n + 1)
    && (forall i: JobId | i <= n :: IsWaiting(db.jobs[i], 0, i, i == 0, at))
    && IsWaiting(db.jobs[n + 1], 1, n + 1, false, at + 1)
    && db.rollouts.Keys == {0, 1}
    && db.rollouts[0].status == Canary && db.rollouts[1].status == Running
  }

  predicate IsWaiting(job: Job, r: RolloutId, device: DeviceId, canary: bool, at: Time) {
    && job.rollout == r && job.device == device && job.isCanary == canary
    && job.state == Queued && job.queuedAt == at && job.nextAttemptAt == None
  }

  ghost predicate ApprovesAll(fleet: Fleet, n: nat) {
    forall d: DeviceId | d <= n + 1 :: d in fleet.approved
  }

  lemma LastIsCrowded(db: Db, n: nat, at: Time, fleet: Fleet, now: Time)
    requires Waiting(db, n, at) && ApprovesAll(fleet, n) && n + 1 >= CANDIDATES
    ensures |StrictlyAhead(db, fleet, now, n + 1)| >= CANDIDATES
  {
    var first, ahead := Elements(Ids(n + 1)), StrictlyAhead(db, fleet, now, n + 1);
    forall i | i in first ensures i in ahead {
      assert IsWaiting(db.jobs[i], 0, i, i == 0, at);
    }
    DistinctSize(Ids(n + 1));
    SubsetSize(first, ahead);
  }

  lemma {:induction false} NothingReached(db: Db, fleet: Fleet, cap: nat, ids: seq<JobId>, now: Time)
    requires Valid(db) && forall id | id in ids :: id in db.jobs
    requires forall id | id in ids :: !Reachable(fleet, db.jobs[id], db.rollouts[db.jobs[id].rollout])
    ensures Visits(db, fleet, cap, ids, now) == StartPass(db, fleet, cap)
    decreases |ids|
  {
    if ids != [] { NothingReached(db, fleet, cap, ids[..|ids| - 1], now); }
  }

  /** While the canary's box is offline, a pass moves nothing at all, whoever else is online. */
  lemma PassMovesNothing(db: Db, n: nat, at: Time, fleet: Fleet, cap: nat, ids: seq<JobId>, now: Time)
    requires Waiting(db, n, at) && ApprovesAll(fleet, n) && n + 1 >= CANDIDATES && 0 !in fleet.online
    requires IsCandidateList(db, fleet, now, ids)
    ensures DispatchQueued(db, fleet, cap, ids, now) == db
  {
    LastIsCrowded(db, n, at, fleet, now);
    HiddenIfCrowded(db, fleet, now, ids, n + 1);
    forall id | id in ids ensures !Reachable(fleet, db.jobs[id], db.rollouts[db.jobs[id].rollout]) {
      assert IsWaiting(db.jobs[id], 0, id, id == 0, at);
    }
    NothingReached(db, fleet, cap, ids, now);
  }

  // --- And a run that leads there ----------------------------------------------------------------

  function Boxes(n: nat): seq<Target> {
    seq(n, i requires 0 <= i < n => Target(i, false, false))
  }

  lemma {:induction false} AllEligible(targets: seq<Target>, plan: Plan)
    requires forall t | t in targets :: Eligible(t, plan)
    ensures EligibleOnly(targets, plan) == targets
  {
    if targets != [] {
      assert targets[0] in targets;
      AllEligible(targets[1..], plan);
    }
  }

  lemma {:induction false} AllOffline(targets: seq<Target>)
    requires forall t | t in targets :: !t.online
    ensures WithOnline(targets, true) == [] && WithOnline(targets, false) == targets
  {
    if targets != [] {
      assert targets[0] in targets;
      AllOffline(targets[1..]);
    }
  }

  function PlanOf(canaryCount: nat): Plan {
    Plan(Manual, canaryCount, 0, None, 1, 0, false)
  }

  lemma FirstIsCanary(n: nat)
    ensures Canaries(Boxes(n + 1), PlanOf(1)) == [Target(0, false, false)]
  {
    AllEligible(Boxes(n + 1), PlanOf(1));
    AllOffline(Boxes(n + 1));
    assert OnlineFirst(Boxes(n + 1)) == Boxes(n + 1);
    assert Boxes(n + 1)[..1] == [Target(0, false, false)];
  }

  const READY := Some(Version(true, true, true))

  /** The rows of the first rollout. */
  ghost predicate IsFirst(jobs: map<JobId, Job>, n: nat, at: Time) {
    && (forall i: JobId :: i in jobs <==> i <= n)
    && (forall i: JobId | i <= n :: IsWaiting(jobs[i], 0, i, i == 0, at))
  }

  lemma FirstJobs(n: nat, at: Time)
    ensures IsFirst(NewJobs(0, Ids(n + 1), Boxes(n + 1), PlanOf(1), [Target(0, false, false)], at), n, at)
  {
    var canaries := [Target(0, false, false)];
    var jobs := NewJobs(0, Ids(n + 1), Boxes(n + 1), PlanOf(1), canaries, at);
    forall i: JobId ensures i in jobs <==> i <= n {
      if i <= n { assert Ids(n + 1)[i] == i; }
    }
    forall i: JobId | i <= n ensures IsWaiting(jobs[i], 0, i, i == 0, at) {
      assert jobs[Ids(n + 1)[i]] == NewJob(0, Boxes(n + 1)[i], PlanOf(1), canaries, at);
    }
  }

  lemma FirstRollout(n: nat, at: Time) returns (db: Db)
    ensures db == CreateRollout(Empty(), 0, Ids(n + 1), READY, Boxes(n + 1), PlanOf(1), at)
    ensures Valid(db) && IsFirst(db.jobs, n, at)
    ensures db.rollouts.Keys == {0} && db.rollouts[0].status == Canary
  {
    hide Canaries, NewJobs;
    var canaries := [Target(0, false, false)];
    var jobs := NewJobs(0, Ids(n + 1), Boxes(n + 1), PlanOf(1), canaries, at);
    FirstIsCanary(n);
    FirstJobs(n, at);
    db := Db(jobs, map[0 := NewRollout(PlanOf(1), canaries)]);
    assert Empty().jobs + jobs == jobs && Empty().rollouts[0 := NewRollout(PlanOf(1), canaries)] == db.rollouts;
    assert IsWaiting(jobs[0], 0, 0, true, at);
    RecomputeIdle(db, 0, 0, at);
  }

  lemma SecondRollout(db: Db, n: nat, at: Time) returns (after: Db)
    requires Valid(db) && IsFirst(db.jobs, n, at)
    requires db.rollouts.Keys == {0} && db.rollouts[0].status == Canary
    ensures after == CreateRollout(db, 1, [n + 1], READY, [Target(n + 1, true, false)], PlanOf(0), at + 1)
    ensures Waiting(after, n, at)
  {
    var job := NewJob(1, Target(n + 1, true, false), PlanOf(0), [], at + 1);
    after := Db(db.jobs[n + 1 := job], db.rollouts[1 := NewRollout(PlanOf(0), [])]);
    assert Canaries([Target(n + 1, true, false)], PlanOf(0)) == [];
    OneJob(db.jobs, n + 1, Target(n + 1, true, false), at + 1);
    assert IsWaiting(job, 1, n + 1, false, at + 1);
    SecondWaits(db, after, n, at);
    RecomputeIdle(after, 1, n + 1, at + 1);
  }

  lemma OneJob(jobs: map<JobId, Job>, id: JobId, t: Target, now: Time)
    ensures jobs + NewJobs(1, [id], [t], PlanOf(0), [], now) == jobs[id := NewJob(1, t, PlanOf(0), [], now)]
  {
    assert NewJobs(1, [id], [t], PlanOf(0), [], now)[[id][0]] == NewJob(1, t, PlanOf(0), [], now);
  }

  lemma SecondWaits(db: Db, after: Db, n: nat, at: Time)
    requires Valid(db) && IsFirst(db.jobs, n, at)
    requires db.rollouts.Keys == {0} && db.rollouts[0].status == Canary
    requires after.rollouts == db.rollouts[1 := NewRollout(PlanOf(0), [])]
    requires n + 1 in after.jobs && after.jobs == db.jobs[n + 1 := after.jobs[n + 1]]
    requires IsWaiting(after.jobs[n + 1], 1, n + 1, false, at + 1)
    ensures Waiting(after, n, at)
  {
    forall i: JobId | i <= n ensures IsWaiting(after.jobs[i], 0, i, i == 0, at) {
      assert after.jobs[i] == db.jobs[i];
    }
  }

  lemma FirstStep(n: nat, at: Time) returns (first: Db)
    ensures Leads(Empty(), at, first) && Valid(first) && IsFirst(first.jobs, n, at)
    ensures first.rollouts.Keys == {0} && first.rollouts[0].status == Canary
  {
    hide CreateRollout, IsFirst, Leads;
    first := FirstRollout(n, at);
    LeadsNext(Empty(), Create(0, Ids(n + 1), READY, Boxes(n + 1), PlanOf(1)), at);
  }

  lemma SecondStep(first: Db, n: nat, at: Time) returns (last: Db)
    requires Valid(first) && IsFirst(first.jobs, n, at)
    requires first.rollouts.Keys == {0} && first.rollouts[0].status == Canary
    ensures Leads(first, at + 1, last) && Waiting(last, n, at)
  {
    last := SecondRollout(first, n, at);
    LeadsNext(first, Create(1, [n + 1], READY, [Target(n + 1, true, false)], PlanOf(0)), at + 1);
  }

  lemma TimePasses(db: Db, now: Time, later: Time)
    requires now <= later
    ensures AllContinue(Runs(db, now), Runs(db, later))
  {
    forall run | run in Runs(db, now) ensures Continues(run, Runs(db, later)) {
      assert run + [] == run && run in Runs(db, later);
    }
  }

  lemma CrowdedRun(n: nat, at: Time) returns (run: seq<Moment>, last: Db)
    ensures run in Runs(last, at + 1) && Waiting(last, n, at)
  {
    var first := FirstStep(n, at);
    last := SecondStep(first, n, at);
    TimePasses(first, at, at + 1);
    AllContinueOn(Runs(Empty(), at), Runs(first, at), Runs(first, at + 1));
    AllContinueOn(Runs(Empty(), at), Runs(first, at + 1), Runs(last, at + 1));
    assert [] in Runs(Empty(), at) && Continues([], Runs(last, at + 1));
    var more: seq<Moment> :| [] + more in Runs(last, at + 1);
    run := [] + more;
  }

  /** No pass over such tables, with the canary's box offline, changes anything. */
  ghost predicate Starves(db: Db, n: nat)
    requires Valid(db)
  {
    forall fleet: Fleet, cap: nat, ids: seq<JobId>, now: Time
      | ApprovesAll(fleet, n) && 0 !in fleet.online && IsCandidateList(db, fleet, now, ids) ::
      DispatchQueued(db, fleet, cap, ids, now) == db
  }

  /**
   * For every n of 499 or more: two rollouts created one after the other, and
   * the only job of the second, RUNNING and unlimited, is never dispatched
   * while the canary of the first is offline: no pass, under any cap, at any
   * time, with its own box online and its message taken, changes anything.
   */
  lemma OnlineBoxStarves(n: nat, at: Time) returns (run: seq<Moment>)
    requires n + 1 >= CANDIDATES
    ensures IsRun(run) && Waiting(At(run, |run|), n, at) && Starves(At(run, |run|), n)
  {
    var last: Db;
    run, last := CrowdedRun(n, at);
    forall fleet: Fleet, cap: nat, ids: seq<JobId>, now: Time
      | ApprovesAll(fleet, n) && 0 !in fleet.online && IsCandidateList(last, fleet, now, ids)
      ensures DispatchQueued(last, fleet, cap, ids, now) == last
    {
      PassMovesNothing(last, n, at, fleet, cap, ids, now);
    }
    assert Starves(last, n);
  }
}
