// The service calls as steps of one system, and what any single step may do to
// a job and to a rollout. The step lemma at the end is what the theorems about
// whole runs, in RolloutRuns.dfy, are built on.

module RolloutSteps {
  import opened Options
  import opened RolloutModel
  import opened DispatchModel

  datatype Call =
    | Progress(job: JobId, state: JobState, percent: int)
    | Heartbeat(job: JobId)
    | Result(job: JobId, ok: bool)
    | Retry(job: JobId)
    | CancelJob(job: JobId)
    | RequeueStalled(timeoutSeconds: nat, stalled: seq<JobId>)
    | Reconcile(device: DeviceId, current: Option<JobId>)
    | Create(rollout: RolloutId, ids: seq<JobId>, version: Option<Version>, targets: seq<Target>, plan: Plan)
    | CancelRollout(rollout: RolloutId)
    | Resume(rollout: RolloutId)
    | Promote
    | Dispatch(fleet: Fleet, cap: nat, ids: seq<JobId>)

  /**
   * What the environment may ask for. Agents report on any job at any time,
   * late or twice; a progress report carries one of the four phases the
   * installer sends. New rows get new keys, and a query lists its rows once.
   */
  ghost predicate Enabled(db: Db, l: Call, now: Time)
    requires Valid(db)
  {
    match l
    case Progress(_, state, _) => state in {Downloading, Extracting, Installing, Verifying}
    case RequeueStalled(timeout, stalled) => Lists(stalled, Stalled(db, timeout, now))
    case Create(r, ids, _, targets, plan) =>
      && r !in db.rollouts && plan.maxAttempts >= 1
      && |ids| == |targets| && Distinct(ids) && (forall id | id in ids :: id !in db.jobs)
    case Dispatch(fleet, _, ids) => IsCandidateList(db, fleet, now, ids)
    case _ => true
  }

  ghost function Apply(db: Db, l: Call, now: Time): Db
    requires Valid(db) && Enabled(db, l, now)
  {
    match l
    case Progress(id, state, percent) => ApplyProgress(db, id, state, percent, now)
    case Heartbeat(id) => RolloutModel.Heartbeat(db, id, now)
    case Result(id, ok) => CompleteJob(db, id, ok, now)
    case Retry(id) => RetryJob(db, id, now)
    case CancelJob(id) => RolloutModel.CancelJob(db, id, now)
    case RequeueStalled(_, stalled) => RolloutModel.RequeueStalled(db, stalled, now)
    case Reconcile(device, current) => RolloutModel.Reconcile(db, device, current)
    case Create(r, ids, version, targets, plan) => CreateRollout(db, r, ids, version, targets, plan, now)
    case CancelRollout(r) => RolloutModel.CancelRollout(db, r, now)
    case Resume(r) => ResumeRollout(db, r, now)
    case Promote => PromoteSoaking(db, now)
    case Dispatch(fleet, cap, ids) => DispatchQueued(db, fleet, cap, ids, now)
  }

  // --- What a step may do ------------------------------------------------------

  /** The settings of a rollout, fixed when it is created. */
  predicate SameTerms(a: Rollout, b: Rollout) {
    && a.mode == b.mode && a.soakMinutes == b.soakMinutes && a.maxConcurrency == b.maxConcurrency
    && a.maxAttempts == b.maxAttempts && a.retryBackoffSeconds == b.retryBackoffSeconds
  }

  predicate SameOwner(a: Job, b: Job) {
    a.rollout == b.rollout && a.device == b.device && a.isCanary == b.isCanary
  }

  /** Every way the row of one job may change in one step. */
  ghost predicate JobStep(db: Db, l: Call, now: Time, id: JobId, b: Job)
    requires Valid(db) && id in db.jobs
  {
    var a := db.jobs[id];
    var rollout := db.rollouts[a.rollout];
    && SameOwner(a, b)
    && (l == Retry(id) && CanRetry(db, id) ==> b.state == Queued && b.attempt == 0 && b.nextAttemptAt == None)
    && (b == a || match l {
      case Progress(j, state, _) =>
        j == id && !IsTerminal(a.state)
        && b.state == state && IsActive(state) && b.attempt == a.attempt && b.nextAttemptAt == a.nextAttemptAt
      case Heartbeat(j) => j == id && IsActive(a.state) && b == a.(heartbeatAt := Some(now))
      case Result(j, ok) =>
        j == id && !IsTerminal(a.state)
        && if ok then b.state == Success && b.attempt == a.attempt else b == Setback(a, rollout, now)
      case Retry(j) =>
        j == id && CanRetry(db, id)
      case CancelJob(j) =>
        j == id && !IsTerminal(a.state) && b.state == JobState.Cancelled && b.attempt == a.attempt
      case RequeueStalled(_, stalled) => id in stalled && IsActive(a.state) && b == Setback(a, rollout, now)
      case Reconcile(_, _) => IsActive(a.state) && b == Unclaimed(a)
      case CancelRollout(r) =>
        a.rollout == r && !IsTerminal(a.state) && b.state == JobState.Cancelled && b.attempt == a.attempt
      case Dispatch(fleet, _, ids) =>
        && id in ids && a.state == Queued
        && (|| Untouched(a, b)
            || (&& b == Sent(a, now) && Reachable(fleet, a, rollout) && rollout.status in {Canary, Running}
                && (a.nextAttemptAt == None || a.nextAttemptAt.value <= now)))
      case _ => false
    })
  }

  /** Every way the row of one rollout may change in one step; `after` is the state the step leaves. */
  ghost predicate RolloutStep(l: Call, now: Time, r: RolloutId, a: Rollout, after: Db)
    requires r in after.rollouts
  {
    var b := after.rollouts[r];
    && SameTerms(a, b)
    && (|| (b.status == a.status && b.canaryPassedAt == a.canaryPassedAt)
        || (!IsClosed(a.status) && a.status != Paused && b.status == Completed && AllDone(after, r))
        || (a.status == Canary && b.status == Paused && CanaryDone(after, r) && CanaryIn(after, r, Failed))
        || (&& a.status == Canary && CanariesPassed(after, r) && b.canaryPassedAt == Some(now)
            && b.status == (if a.soakMinutes > 0 then Soaking else Running))
        || (l == Promote && SoakOver(a, now) && b.status == Running && b.canaryPassedAt == a.canaryPassedAt)
        || (l == Resume(r) && a.status in {Paused, Soaking} && b.status == Running)
        || (l == CancelRollout(r) && b.status == Status.Cancelled))
  }

  /** A job of the new rollout: fresh, and a canary only behind a closed gate. */
  ghost predicate NewRow(db: Db, after: Db, id: JobId)
    requires Valid(after) && id in after.jobs
  {
    var b := after.jobs[id];
    var rollout := after.rollouts[b.rollout];
    && b.rollout !in db.rollouts && rollout.maxAttempts >= 1
    && b.attempt == 0 && b.state in {Queued, Skipped}
    && (b.isCanary ==> b.state == Queued && rollout.status == Canary)
  }

  ghost predicate StepOk(db: Db, l: Call, now: Time, after: Db)
    requires Valid(db)
  {
    && Valid(after)
    && db.jobs.Keys <= after.jobs.Keys && db.rollouts.Keys <= after.rollouts.Keys
    && (forall id | id in db.jobs :: JobStep(db, l, now, id, after.jobs[id]))
    && (forall r | r in db.rollouts :: RolloutStep(l, now, r, db.rollouts[r], after))
    && (forall id | id in after.jobs && id !in db.jobs :: NewRow(db, after, id))
    && (!l.Create? ==> after.jobs.Keys == db.jobs.Keys && after.rollouts.Keys == db.rollouts.Keys)
  }

  // --- The proof, one kind of step at a time --------------------------------------

  /** Recomputing a rollout obeys `RolloutStep` under any call. */
  lemma RecomputeStep(db: Db, r: RolloutId, now: Time, l: Call, x: RolloutId)
    requires x in db.rollouts
    ensures RolloutStep(l, now, x, db.rollouts[x], Recompute(db, r, now))
  {
    var after := Recompute(db, r, now);
    if x == r && !IsClosed(db.rollouts[r].status) {
      assert AllDone(after, r) == AllDone(db, r);
      assert CanaryDone(after, r) == CanaryDone(db, r);
      assert CanaryIn(after, r, Failed) == CanaryIn(db, r, Failed);
      assert CanaryIn(after, r, Success) == CanaryIn(db, r, Success);
    }
  }

  /** Steps that rewrite one row and recompute its rollout. */
  lemma OneRowStep(db: Db, l: Call, now: Time, id: JobId, row: Job)
    requires Valid(db) && id in db.jobs && !l.Create?
    requires JobStep(db, l, now, id, row)
    requires forall x | x in db.jobs && x != id :: JobStep(db, l, now, x, db.jobs[x])
    ensures StepOk(db, l, now, Recompute(db.(jobs := db.jobs[id := row]), row.rollout, now))
  {
    hide RolloutStep;
    var mid := db.(jobs := db.jobs[id := row]);
    forall x | x in db.rollouts ensures RolloutStep(l, now, x, db.rollouts[x], Recompute(mid, row.rollout, now)) {
      RecomputeStep(mid, row.rollout, now, l, x);
    }
  }

  /** The judgement of a rollout whose own jobs did not change. */
  lemma SameJobsSameJudgement(a: Db, b: Db, r: RolloutId)
    requires a.jobs.Keys == b.jobs.Keys
    requires forall id | id in a.jobs && (a.jobs[id].rollout == r || b.jobs[id].rollout == r) :: a.jobs[id] == b.jobs[id]
    ensures AllDone(a, r) == AllDone(b, r) && CanaryDone(a, r) == CanaryDone(b, r)
    ensures CanaryIn(a, r, Failed) == CanaryIn(b, r, Failed)
    ensures CanaryIn(a, r, Success) == CanaryIn(b, r, Success)
  {
    SameJobsOneWay(a, b, r);
    SameJobsOneWay(b, a, r);
  }

  lemma SameJobsOneWay(a: Db, b: Db, r: RolloutId)
    requires a.jobs.Keys == b.jobs.Keys
    requires forall id | id in a.jobs && (a.jobs[id].rollout == r || b.jobs[id].rollout == r) :: a.jobs[id] == b.jobs[id]
    ensures AllDone(a, r) ==> AllDone(b, r)
    ensures CanaryDone(a, r) ==> CanaryDone(b, r)
    ensures CanaryIn(a, r, Failed) ==> CanaryIn(b, r, Failed)
    ensures CanaryIn(a, r, Success) ==> CanaryIn(b, r, Success)
  {
    forall s | s in {Failed, Success} && CanaryIn(a, r, s) ensures CanaryIn(b, r, s) {
      var id :| id in a.jobs && IsCanaryOf(a.jobs[id], r) && a.jobs[id].state == s;
      assert IsCanaryOf(b.jobs[id], r);
    }
  }

  /** The same for the canaries alone. */
  lemma SameCanaries(a: Db, b: Db, r: RolloutId)
    requires a.jobs.Keys == b.jobs.Keys
    requires forall id | id in a.jobs && (IsCanaryOf(a.jobs[id], r) || IsCanaryOf(b.jobs[id], r)) :: a.jobs[id] == b.jobs[id]
    ensures CanaryDone(a, r) ==> CanaryDone(b, r)
    ensures CanaryIn(a, r, Failed) ==> CanaryIn(b, r, Failed)
    ensures CanaryIn(a, r, Success) ==> CanaryIn(b, r, Success)
  {
    forall s | s in {Failed, Success} && CanaryIn(a, r, s) ensures CanaryIn(b, r, s) {
      var id :| id in a.jobs && IsCanaryOf(a.jobs[id], r) && a.jobs[id].state == s;
      assert IsCanaryOf(b.jobs[id], r);
    }
  }

  /** One more turn of the stall loop, on a job of another rollout. */
  lemma StallTurnElsewhere(db: Db, mid: Db, l: Call, id: JobId, now: Time, r: RolloutId)
    requires Valid(mid) && id in mid.jobs && mid.jobs[id].rollout != r
    requires r in db.rollouts && r in mid.rollouts
    requires RolloutStep(l, now, r, db.rollouts[r], mid)
    ensures RolloutStep(l, now, r, db.rollouts[r], RequeueOne(mid, id, now))
  {
    SameJobsSameJudgement(mid, RequeueOne(mid, id, now), r);
  }

  /** One more turn of the stall loop, on a job of this rollout: it was not done before. */
  lemma StallTurnHere(db: Db, mid: Db, l: Call, id: JobId, now: Time, r: RolloutId)
    requires Valid(mid) && id in mid.jobs && IsActive(mid.jobs[id].state) && mid.jobs[id].rollout == r
    requires r in db.rollouts && r in mid.rollouts
    requires l.RequeueStalled? && RolloutStep(l, now, r, db.rollouts[r], mid)
    ensures RolloutStep(l, now, r, db.rollouts[r], RequeueOne(mid, id, now))
  {
    var job := mid.jobs[id];
    var after := RequeueOne(mid, id, now);
    assert RolloutStep(l, now, r, mid.rollouts[r], after) by {
      RecomputeStep(mid.(jobs := mid.jobs[id := Setback(job, mid.rollouts[r], now)]), r, now, l, r);
    }
    assert !AllDone(mid, r);
    if job.isCanary {
      assert IsCanaryOf(job, r);
      assert !CanaryDone(mid, r);
    } else {
      SameCanaries(mid, after, r);
      SameCanaries(after, mid, r);
    }
  }

  /** One turn: the row `id` alone, decided by settings that never change. */
  lemma TurnRows(db: Db, mid: Db, id: JobId, now: Time)
    requires Valid(db) && Valid(mid) && id in db.jobs && id in mid.jobs && mid.jobs[id] == db.jobs[id]
    requires mid.rollouts.Keys == db.rollouts.Keys
    requires forall r | r in db.rollouts :: SameTerms(db.rollouts[r], mid.rollouts[r])
    ensures var after := RequeueOne(mid, id, now);
      && after.jobs == mid.jobs[id := Setback(db.jobs[id], db.rollouts[db.jobs[id].rollout], now)]
      && after.rollouts.Keys == db.rollouts.Keys
      && (forall r | r in db.rollouts :: SameTerms(db.rollouts[r], after.rollouts[r]))
  {
    var job := mid.jobs[id];
    var written := mid.(jobs := mid.jobs[id := Setback(job, mid.rollouts[job.rollout], now)]);
    assert SameTerms(db.rollouts[job.rollout], mid.rollouts[job.rollout]);
    forall r | r in db.rollouts ensures SameTerms(db.rollouts[r], RequeueOne(mid, id, now).rollouts[r]) {
      assert SameTerms(db.rollouts[r], mid.rollouts[r]);
      RecomputeStep(written, job.rollout, now, Promote, r);
    }
  }

  /** Which rows the stall loop rewrites: each listed one, from what was read before the loop. */
  lemma {:induction false} StallRows(db: Db, now: Time, stalled: seq<JobId>)
    requires Valid(db) && Distinct(stalled) && forall id :: id in stalled ==> id in db.jobs
    ensures var after := RolloutModel.RequeueStalled(db, stalled, now);
      && after.rollouts.Keys == db.rollouts.Keys
      && (forall r | r in db.rollouts :: SameTerms(db.rollouts[r], after.rollouts[r]))
      && (forall id | id in db.jobs :: after.jobs[id]
            == if id in stalled then Setback(db.jobs[id], db.rollouts[db.jobs[id].rollout], now) else db.jobs[id])
    decreases |stalled|
  {
    if stalled != [] {
      var last := |stalled| - 1;
      var mid := RolloutModel.RequeueStalled(db, stalled[..last], now);
      StallRows(db, now, stalled[..last]);
      assert stalled[last] !in stalled[..last];
      TurnRows(db, mid, stalled[last], now);
      forall id | id in db.jobs
        ensures RequeueOne(mid, stalled[last], now).jobs[id]
          == if id in stalled then Setback(db.jobs[id], db.rollouts[db.jobs[id].rollout], now) else db.jobs[id]
      {
        assert id in stalled <==> id in stalled[..last] || id == stalled[last];
      }
    }
  }

  /** A row the loop has not come to yet is as it was read. */
  lemma RowWaits(db: Db, now: Time, stalled: seq<JobId>, id: JobId)
    requires Valid(db) && Distinct(stalled) && forall x :: x in stalled ==> x in db.jobs
    requires id in db.jobs && id !in stalled
    ensures var mid := RolloutModel.RequeueStalled(db, stalled, now);
      id in mid.jobs && mid.jobs[id] == db.jobs[id] && mid.rollouts.Keys == db.rollouts.Keys
  {
    StallRows(db, now, stalled);
  }

  lemma StallTurn(db: Db, mid: Db, l: Call, id: JobId, now: Time, r: RolloutId)
    requires Valid(mid) && id in mid.jobs && IsActive(mid.jobs[id].state)
    requires r in db.rollouts && r in mid.rollouts && l.RequeueStalled?
    requires RolloutStep(l, now, r, db.rollouts[r], mid)
    ensures RolloutStep(l, now, r, db.rollouts[r], RequeueOne(mid, id, now))
  {
    if mid.jobs[id].rollout == r {
      StallTurnHere(db, mid, l, id, now, r);
    } else {
      StallTurnElsewhere(db, mid, l, id, now, r);
    }
  }

  lemma SameRolloutStep(db: Db, l: Call, now: Time, r: RolloutId)
    requires r in db.rollouts
    ensures RolloutStep(l, now, r, db.rollouts[r], db)
  {
  }

  lemma {:induction false} StallRollouts(db: Db, l: Call, now: Time, stalled: seq<JobId>, r: RolloutId)
    requires Valid(db) && l.RequeueStalled? && Distinct(stalled) && r in db.rollouts
    requires forall id :: id in stalled ==> id in db.jobs && IsActive(db.jobs[id].state)
    ensures r in RolloutModel.RequeueStalled(db, stalled, now).rollouts
    ensures RolloutStep(l, now, r, db.rollouts[r], RolloutModel.RequeueStalled(db, stalled, now))
    decreases |stalled|
  {
    hide RolloutStep, Recompute, Setback, IsActive, SameTerms;
    if stalled == [] {
      SameRolloutStep(db, l, now, r);
    } else {
      var last := |stalled| - 1;
      StallRollouts(db, l, now, stalled[..last], r);
      RowWaits(db, now, stalled[..last], stalled[last]);
      StallTurn(db, RolloutModel.RequeueStalled(db, stalled[..last], now), l, stalled[last], now, r);
    }
  }

  lemma StallStepFrom(db: Db, l: Call, now: Time, after: Db)
    requires Valid(db) && Valid(after) && l.RequeueStalled?
    requires forall id | id in l.stalled :: id in db.jobs && IsActive(db.jobs[id].state)
    requires after.jobs.Keys == db.jobs.Keys && after.rollouts.Keys == db.rollouts.Keys
    requires forall id | id in db.jobs && id !in l.stalled :: after.jobs[id] == db.jobs[id]
    requires forall id | id in l.stalled ::
      after.jobs[id] == Setback(db.jobs[id], db.rollouts[db.jobs[id].rollout], now)
    requires forall r | r in db.rollouts :: RolloutStep(l, now, r, db.rollouts[r], after)
    ensures StepOk(db, l, now, after)
  {
    hide RolloutStep, NextAttemptAt;
  }

  lemma StallStep(db: Db, l: Call, now: Time)
    requires Valid(db) && l.RequeueStalled? && Lists(l.stalled, Stalled(db, l.timeoutSeconds, now))
    ensures StepOk(db, l, now, RolloutModel.RequeueStalled(db, l.stalled, now))
  {
    var after := RolloutModel.RequeueStalled(db, l.stalled, now);
    assert forall id | id in l.stalled :: id in Stalled(db, l.timeoutSeconds, now);
    StallRows(db, now, l.stalled);
    forall r | r in db.rollouts ensures RolloutStep(l, now, r, db.rollouts[r], after) {
      StallRollouts(db, l, now, l.stalled, r);
    }
    StallStepFrom(db, l, now, after);
  }

  /** Adding a rollout and its jobs leaves every older row alone. */
  lemma AddedStep(db: Db, l: Call, now: Time, jobs: map<JobId, Job>, r: RolloutId, rollout: Rollout)
    requires Valid(db) && l.Create? && r !in db.rollouts && jobs.Keys !! db.jobs.Keys
    requires rollout.maxAttempts >= 1
    requires forall id | id in jobs ::
      && jobs[id].rollout == r && jobs[id].attempt == 0 && jobs[id].state in {Queued, Skipped}
      && (jobs[id].isCanary ==> jobs[id].state == Queued && rollout.status == Canary)
    ensures StepOk(db, l, now, Recompute(Db(db.jobs + jobs, db.rollouts[r := rollout]), r, now))
  {
    var mid := Db(db.jobs + jobs, db.rollouts[r := rollout]);
    var after := Recompute(mid, r, now);
    forall x | x in db.rollouts ensures RolloutStep(l, now, x, db.rollouts[x], after) {
      RecomputeStep(mid, r, now, l, x);
    }
    forall id | id in after.jobs && id !in db.jobs ensures NewRow(db, after, id) {
      if jobs[id].isCanary {
        RecomputeIdle(mid, r, id, now);
      }
    }
  }

  lemma NewJobsAreFresh(
    r: RolloutId, ids: seq<JobId>, targets: seq<Target>, plan: Plan, canaries: seq<Target>, now: Time)
    requires |ids| == |targets| && Distinct(ids)
    requires forall t :: t in canaries ==> Eligible(t, plan)
    ensures var jobs := NewJobs(r, ids, targets, plan, canaries, now);
      forall id | id in jobs ::
        && jobs[id].rollout == r && jobs[id].attempt == 0 && jobs[id].state in {Queued, Skipped}
        && (jobs[id].isCanary ==> jobs[id].state == Queued && NewRollout(plan, canaries).status == Canary)
  {
    var jobs := NewJobs(r, ids, targets, plan, canaries, now);
    forall id | id in jobs
      ensures jobs[id].rollout == r && jobs[id].attempt == 0 && jobs[id].state in {Queued, Skipped}
      ensures jobs[id].isCanary ==> jobs[id].state == Queued && NewRollout(plan, canaries).status == Canary
    {
      var i :| 0 <= i < |ids| && ids[i] == id;
      assert jobs[id] == NewJob(r, targets[i], plan, canaries, now);
    }
  }

  lemma CreateStep(db: Db, l: Call, now: Time)
    requires Valid(db) && l.Create? && l.rollout !in db.rollouts && l.plan.maxAttempts >= 1
    requires |l.ids| == |l.targets| && Distinct(l.ids) && (forall id | id in l.ids :: id !in db.jobs)
    ensures StepOk(db, l, now, CreateRollout(db, l.rollout, l.ids, l.version, l.targets, l.plan, now))
  {
    if CreationOf(l.version, l.targets) == Created {
      var canaries := Canaries(l.targets, l.plan);
      var jobs := NewJobs(l.rollout, l.ids, l.targets, l.plan, canaries, now);
      NewJobsAreFresh(l.rollout, l.ids, l.targets, l.plan, canaries, now);
      AddedStep(db, l, now, jobs, l.rollout, NewRollout(l.plan, canaries));
    }
  }

  lemma DispatchStep(db: Db, l: Call, now: Time)
    requires Valid(db) && l.Dispatch? && IsCandidateList(db, l.fleet, now, l.ids)
    ensures StepOk(db, l, now, DispatchQueued(db, l.fleet, l.cap, l.ids, now))
  {
    hide Visits, Counted;
    VisitsKeep(db, l.fleet, l.cap, l.ids, now);
    var p := Visits(db, l.fleet, l.cap, l.ids, now);
    forall id | id in db.jobs ensures JobStep(db, l, now, id, p.db.jobs[id]) {
      if id in l.ids {
        assert IsCandidate(db, l.fleet, now, id);
      }
    }
  }

  /** Calls that write one job row and recompute its rollout. */
  lemma SettleStep(db: Db, l: Call, now: Time)
    requires Valid(db) && (l.Result? || l.Retry? || l.CancelJob?)
    ensures StepOk(db, l, now, Apply(db, l, now))
  {
    var id := l.job;
    if id in db.jobs {
      var job := db.jobs[id];
      match l {
        case Result(_, ok) =>
          if !IsTerminal(job.state) {
            OneRowStep(db, l, now, id,
              if ok then job.(state := Success, progress := 100, finishedAt := Some(now))
              else Setback(job, db.rollouts[job.rollout], now));
          }
        case Retry(_) =>
          if CanRetry(db, id) {
            OneRowStep(db, l, now, id, job.(
              state := Queued, progress := 0, attempt := 0, nextAttemptAt := None, queuedAt := now,
              dispatchedAt := None, startedAt := None, heartbeatAt := None, finishedAt := None));
          }
        case CancelJob(_) =>
          if !IsTerminal(job.state) {
            OneRowStep(db, l, now, id, job.(state := JobState.Cancelled, finishedAt := Some(now)));
          }
      }
    }
  }

  /** Calls that touch only jobs, and recompute nothing. */
  lemma JobsOnlyStep(db: Db, l: Call, now: Time)
    requires Valid(db) && Enabled(db, l, now) && (l.Progress? || l.Heartbeat? || l.Reconcile?)
    ensures StepOk(db, l, now, Apply(db, l, now))
  {
    match l
    case Progress(_, _, _) => ProgressStep(db, l, now);
    case Heartbeat(_) => HeartbeatStep(db, l, now);
    case Reconcile(_, _) => ReconcileStep(db, l, now);
  }

  lemma ProgressStep(db: Db, l: Call, now: Time)
    requires Valid(db) && Enabled(db, l, now) && l.Progress?
    ensures StepOk(db, l, now, Apply(db, l, now))
  {
  }

  lemma HeartbeatStep(db: Db, l: Call, now: Time)
    requires Valid(db) && l.Heartbeat?
    ensures StepOk(db, l, now, Apply(db, l, now))
  {
  }

  lemma ReconcileStep(db: Db, l: Call, now: Time)
    requires Valid(db) && l.Reconcile?
    ensures StepOk(db, l, now, Apply(db, l, now))
  {
  }

  /** Calls that set a rollout's status themselves. */
  lemma StatusStep(db: Db, l: Call, now: Time)
    requires Valid(db) && (l.CancelRollout? || l.Resume? || l.Promote?)
    ensures StepOk(db, l, now, Apply(db, l, now))
  {
    match l
    case CancelRollout(_) => CancelStep(db, l, now);
    case Resume(_) => ResumeStep(db, l, now);
    case Promote => PromoteStep(db, l, now);
  }

  lemma CancelStep(db: Db, l: Call, now: Time)
    requires Valid(db) && l.CancelRollout?
    ensures StepOk(db, l, now, Apply(db, l, now))
  {
  }

  lemma ResumeStep(db: Db, l: Call, now: Time)
    requires Valid(db) && l.Resume?
    ensures StepOk(db, l, now, Apply(db, l, now))
  {
  }

  lemma PromoteStep(db: Db, l: Call, now: Time)
    requires Valid(db) && l.Promote?
    ensures StepOk(db, l, now, Apply(db, l, now))
  {
  }

  lemma StepFacts(db: Db, l: Call, now: Time)
    requires Valid(db) && Enabled(db, l, now)
    ensures StepOk(db, l, now, Apply(db, l, now))
  {
    match l
    case Progress(_, _, _) => JobsOnlyStep(db, l, now);
    case Heartbeat(_) => JobsOnlyStep(db, l, now);
    case Reconcile(_, _) => JobsOnlyStep(db, l, now);
    case Result(_, _) => SettleStep(db, l, now);
    case Retry(_) => SettleStep(db, l, now);
    case CancelJob(_) => SettleStep(db, l, now);
    case RequeueStalled(_, _) => StallStep(db, l, now);
    case Create(_, _, _, _, _) => CreateStep(db, l, now);
    case CancelRollout(_) => StatusStep(db, l, now);
    case Resume(_) => StatusStep(db, l, now);
    case Promote => StatusStep(db, l, now);
    case Dispatch(_, _, _) => DispatchStep(db, l, now);
  }
}
