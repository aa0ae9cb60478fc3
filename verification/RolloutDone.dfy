// When a rollout is finished and when it is judged: at once, by the call that
// ends its last job or its last canary. The one way round it is a resume.

module RolloutDone {
  import opened Options
  import opened RolloutModel
  import opened DispatchModel
  import opened RolloutSteps
  import opened RolloutRuns
  import opened RolloutProgress

  // --- The call that ends a job recomputes its rollout ------------------------------------------

  /** The call wrote a job of the rollout, or made one. */
  ghost predicate Touches(m: Moment, r: RolloutId) {
    exists id :: TouchesJob(m, r, id)
  }

  predicate TouchesJob(m: Moment, r: RolloutId, id: JobId) {
    && id in m.after.jobs && m.after.jobs[id].rollout == r
    && (id in m.before.jobs ==> m.after.jobs[id] != m.before.jobs[id])
  }

  /** The calls that can leave a job they wrote terminal. */
  lemma EndsOneOf(m: Moment, r: RolloutId, y: JobId)
    requires Valid(m.before) && StepOk(m.before, m.call, m.at, m.after)
    requires y in m.before.jobs && TouchesJob(m, r, y) && IsTerminal(m.after.jobs[y].state)
    ensures m.before.jobs[y].rollout == r
    ensures (exists ok :: m.call == Result(y, ok)) || m.call == Call.CancelJob(y)
            || (m.call.RequeueStalled? && y in m.call.stalled) || m.call == Call.CancelRollout(r)
  {
    hide RolloutStep, NewRow, Reachable;
    assert JobStep(m.before, m.call, m.at, y, m.after.jobs[y]);
  }

  /** One job written, and then its rollout recomputed. */
  lemma EndsByRecompute(m: Moment, r: RolloutId, y: JobId) returns (written: Db)
    requires IsStep(m) && y in m.before.jobs && m.before.jobs[y].rollout == r && TouchesJob(m, r, y)
    requires (exists ok :: m.call == Result(y, ok)) || m.call == Call.CancelJob(y)
    ensures written.rollouts == m.before.rollouts && written.jobs == m.after.jobs
    ensures m.after == Recompute(written, r, m.at)
  {
    hide Recompute, Setback;
    written := Db(m.after.jobs, m.before.rollouts);
    var job := m.before.jobs[y];
    var row :=
      if m.call.CancelJob? then job.(state := JobState.Cancelled, finishedAt := Some(m.at))
      else if m.call.ok then job.(state := Success, progress := 100, finishedAt := Some(m.at))
      else Setback(job, m.before.rollouts[r], m.at);
    var mid := m.before.(jobs := m.before.jobs[y := row]);
    assert m.after == Recompute(mid, r, m.at);
    assert mid == written;
  }

  // --- Done at once --------------------------------------------------------------------------------

  /** What the end of the last job does to the rollout. */
  predicate Finished(before: Rollout, after: Db, r: RolloutId, now: Time)
    requires r in after.rollouts
  {
    if before.status == Canary && CanaryIn(after, r, Failed) then
      after.rollouts[r].status == Paused
    else
      after.rollouts[r].status == Completed && after.rollouts[r].finishedAt == Some(now)
  }

  lemma RecomputeFinishes(written: Db, r: RolloutId, now: Time)
    requires r in written.rollouts && written.rollouts[r].status !in {Completed, Status.Cancelled, Paused}
    requires AllDone(written, r)
    ensures Finished(written.rollouts[r], Recompute(written, r, now), r, now)
  {
    var after := Recompute(written, r, now);
    assert CanaryIn(after, r, Failed) == CanaryIn(written, r, Failed);
    if written.rollouts[r].status == Canary && CanaryIn(written, r, Failed) {
      var id :| id in written.jobs && IsCanaryOf(written.jobs[id], r) && written.jobs[id].state == Failed;
      assert HasCanary(written, r) && CanaryDone(written, r);
    }
  }

  /** The last of the stalled jobs of a rollout: before its turn the rollout was not done. */
  lemma LastTurnFinishes(db: Db, mid: Db, l: Call, id: JobId, now: Time, r: RolloutId)
    requires Valid(mid) && id in mid.jobs && IsActive(mid.jobs[id].state) && mid.jobs[id].rollout == r
    requires r in db.rollouts && r in mid.rollouts && l.RequeueStalled?
    requires db.rollouts[r].status !in {Completed, Status.Cancelled, Paused}
    requires RolloutStep(l, now, r, db.rollouts[r], mid)
    requires AllDone(RequeueOne(mid, id, now), r)
    ensures r in RequeueOne(mid, id, now).rollouts && Finished(db.rollouts[r], RequeueOne(mid, id, now), r, now)
  {
    var job := mid.jobs[id];
    var written := mid.(jobs := mid.jobs[id := Setback(job, mid.rollouts[r], now)]);
    var after := RequeueOne(mid, id, now);
    assert after == Recompute(written, r, now) && AllDone(written, r) == AllDone(after, r);
    assert !AllDone(mid, r);
    assert mid.rollouts[r].status == db.rollouts[r].status || CanaryDone(mid, r);
    if mid.rollouts[r].status == db.rollouts[r].status {
      RecomputeFinishes(written, r, now);
    } else {
      assert !IsCanaryOf(job, r);
      SameCanaries(mid, after, r);
      SameCanaries(after, mid, r);
      if mid.rollouts[r].status != Paused {
        RecomputeFinishes(written, r, now);
      }
    }
  }

  /** A turn on a job of another rollout leaves this one as it was. */
  lemma TurnElsewhere(mid: Db, id: JobId, now: Time, r: RolloutId)
    requires Valid(mid) && id in mid.jobs && mid.jobs[id].rollout != r
    ensures AllDone(RequeueOne(mid, id, now), r) == AllDone(mid, r)
    ensures CanaryIn(RequeueOne(mid, id, now), r, Failed) == CanaryIn(mid, r, Failed)
    ensures r in mid.rollouts ==>
      r in RequeueOne(mid, id, now).rollouts && RequeueOne(mid, id, now).rollouts[r] == mid.rollouts[r]
  {
    SameJobsSameJudgement(mid, RequeueOne(mid, id, now), r);
  }

  lemma FinishedElsewhere(before: Rollout, mid: Db, id: JobId, now: Time, r: RolloutId)
    requires Valid(mid) && id in mid.jobs && mid.jobs[id].rollout != r && r in mid.rollouts
    requires Finished(before, mid, r, now)
    ensures r in RequeueOne(mid, id, now).rollouts && Finished(before, RequeueOne(mid, id, now), r, now)
  {
    hide RequeueOne;
    TurnElsewhere(mid, id, now, r);
  }

  lemma TurnKeepsRollout(mid: Db, id: JobId, now: Time, r: RolloutId)
    requires Valid(mid) && id in mid.jobs && r in mid.rollouts
    ensures r in RequeueOne(mid, id, now).rollouts
  {
  }

  /** A turn that leaves the rollout done finished it, or it was finished before. */
  lemma TurnFinishes(db: Db, mid: Db, l: Call, id: JobId, now: Time, r: RolloutId)
    requires Valid(mid) && id in mid.jobs && IsActive(mid.jobs[id].state) && l.RequeueStalled?
    requires r in db.rollouts && r in mid.rollouts
    requires db.rollouts[r].status !in {Completed, Status.Cancelled, Paused}
    requires RolloutStep(l, now, r, db.rollouts[r], mid)
    requires mid.jobs[id].rollout != r && AllDone(mid, r) ==> Finished(db.rollouts[r], mid, r, now)
    ensures r in RequeueOne(mid, id, now).rollouts
    ensures AllDone(RequeueOne(mid, id, now), r) ==> Finished(db.rollouts[r], RequeueOne(mid, id, now), r, now)
  {
    hide RequeueOne, AllDone, Finished, RolloutStep;
    TurnKeepsRollout(mid, id, now, r);
    if !AllDone(RequeueOne(mid, id, now), r) {
    } else if mid.jobs[id].rollout == r {
      LastTurnFinishes(db, mid, l, id, now, r);
    } else {
      TurnElsewhere(mid, id, now, r);
      FinishedElsewhere(db.rollouts[r], mid, id, now, r);
    }
  }

  lemma AllButLast(stalled: seq<JobId>)
    requires Distinct(stalled) && stalled != []
    ensures var last := |stalled| - 1;
      && Distinct(stalled[..last]) && stalled[last] !in stalled[..last]
      && forall id :: id in stalled <==> id in stalled[..last] || id == stalled[last]
  {
  }

  lemma {:induction false} StallFinishes(db: Db, l: Call, now: Time, stalled: seq<JobId>, r: RolloutId, x: JobId)
    requires Valid(db) && l.RequeueStalled? && Distinct(stalled) && r in db.rollouts
    requires forall id :: id in stalled ==> id in db.jobs && IsActive(db.jobs[id].state)
    requires db.rollouts[r].status !in {Completed, Status.Cancelled, Paused}
    requires x in stalled && db.jobs[x].rollout == r
    ensures r in RolloutModel.RequeueStalled(db, stalled, now).rollouts
    ensures AllDone(RolloutModel.RequeueStalled(db, stalled, now), r) ==>
      Finished(db.rollouts[r], RolloutModel.RequeueStalled(db, stalled, now), r, now)
    decreases |stalled|
  {
    hide RolloutStep, RequeueOne, IsActive, AllDone, Finished, Distinct;
    var last := |stalled| - 1;
    AllButLast(stalled);
    var mid := RolloutModel.RequeueStalled(db, stalled[..last], now);
    StallRollouts(db, l, now, stalled[..last], r);
    RowWaits(db, now, stalled[..last], stalled[last]);
    if db.jobs[stalled[last]].rollout != r {
      StallFinishes(db, l, now, stalled[..last], r, x);
    }
    TurnFinishes(db, mid, l, stalled[last], now, r);
  }

  /** The rows a call makes for a new rollout, before they are recomputed. */
  lemma MadeBy(m: Moment, r: RolloutId) returns (made: Db)
    requires IsStep(m) && r !in m.before.rollouts && r in m.after.rollouts
    ensures m.call.Create? && m.call.rollout == r && CreationOf(m.call.version, m.call.targets) == Created
    ensures |m.call.ids| == |m.call.targets| && Distinct(m.call.ids)
    ensures var l := m.call; var canaries := Canaries(l.targets, l.plan);
      made == Db(m.before.jobs + NewJobs(r, l.ids, l.targets, l.plan, canaries, m.at),
                 m.before.rollouts[r := NewRollout(l.plan, canaries)])
    ensures m.after == Recompute(made, r, m.at)
  {
    hide Canaries, NewJobs, Visits, Setback, NextAttemptAt, IsCandidateList;
    IsCreation(m, r);
    var l := m.call;
    var canaries := Canaries(l.targets, l.plan);
    made := Db(m.before.jobs + NewJobs(r, l.ids, l.targets, l.plan, canaries, m.at),
               m.before.rollouts[r := NewRollout(l.plan, canaries)]);
  }

  lemma IsCreation(m: Moment, r: RolloutId)
    requires IsStep(m) && r !in m.before.rollouts && r in m.after.rollouts
    ensures m.call.Create? && m.call.rollout == r && CreationOf(m.call.version, m.call.targets) == Created
  {
    hide Canaries, NewJobs, JobStep, RolloutStep, NewRow;
    StepFacts(m.before, m.call, m.at);
  }

  /** A canary of a new rollout waits in the queue. */
  lemma NewCanaryWaits(made: Db, m: Moment, r: RolloutId) returns (id: JobId)
    requires m.call.Create? && |m.call.ids| == |m.call.targets| && Distinct(m.call.ids)
    requires var l := m.call; var canaries := Canaries(l.targets, l.plan);
      made.jobs == m.before.jobs + NewJobs(r, l.ids, l.targets, l.plan, canaries, m.at)
    requires Canaries(m.call.targets, m.call.plan) != []
    ensures id in made.jobs && IsCanaryOf(made.jobs[id], r) && made.jobs[id].state == Queued
  {
    var l := m.call;
    var canaries := Canaries(l.targets, l.plan);
    assert canaries[0] in canaries;
    id := NewCanary(r, l.ids, l.targets, l.plan, canaries, m.at);
    NewJobsAreFresh(r, l.ids, l.targets, l.plan, canaries, m.at);
    assert made.jobs[id] == NewJobs(r, l.ids, l.targets, l.plan, canaries, m.at)[id];
  }

  /** A new rollout with nothing to do is over as soon as it is made. */
  lemma NewFinishes(m: Moment, r: RolloutId)
    requires IsStep(m) && r !in m.before.rollouts && r in m.after.rollouts && AllDone(m.after, r)
    ensures m.after.rollouts[r].status == Completed && m.after.rollouts[r].finishedAt == Some(m.at)
  {
    hide NewJobs, Canaries;
    var made := MadeBy(m, r);
    assert AllDone(made, r) == AllDone(m.after, r);
    if Canaries(m.call.targets, m.call.plan) != [] {
      var id := NewCanaryWaits(made, m, r);
    }
  }

  /**
   * In every run: the call that writes a job of an open rollout, new or not,
   * and leaves all its jobs terminal completes it there and then. Only a
   * rollout in CANARY with a FAILED canary is parked instead.
   */
  lemma LastJobCompletes(run: seq<Moment>, k: nat, r: RolloutId)
    requires IsRun(run) && k < |run| && Touches(run[k], r) && AllDone(run[k].after, r)
    requires run[k].call != Call.CancelRollout(r)
    requires r in run[k].before.rollouts ==>
      run[k].before.rollouts[r].status !in {Completed, Status.Cancelled, Paused}
    ensures r in run[k].after.rollouts
    ensures
      var after := run[k].after;
      if r in run[k].before.rollouts && run[k].before.rollouts[r].status == Canary && CanaryIn(after, r, Failed)
      then after.rollouts[r].status == Paused
      else after.rollouts[r].status == Completed && after.rollouts[r].finishedAt == Some(run[k].at)
  {
    hide RolloutStep, JobStep, NewRow, Recompute;
    var m := run[k];
    StepAt(run, k);
    assert Follows(run, k);
    var y :| TouchesJob(m, r, y);
    if r !in m.before.rollouts {
      NewFinishes(m, r);
    } else {
      WasTouched(m, r, y);
      EndsOneOf(m, r, y);
      if m.call.RequeueStalled? {
        StalledActive(m);
        StallFinishes(m.before, m.call, m.at, m.call.stalled, r, y);
      } else {
        var written := EndsByRecompute(m, r, y);
        RecomputeFinishes(written, r, m.at);
      }
    }
  }

  lemma StalledActive(m: Moment)
    requires IsStep(m) && m.call.RequeueStalled?
    ensures Distinct(m.call.stalled)
    ensures forall id :: id in m.call.stalled ==> id in m.before.jobs && IsActive(m.before.jobs[id].state)
  {
    assert forall id | id in m.call.stalled :: id in Stalled(m.before, m.call.timeoutSeconds, m.at);
  }

  /** A job of a rollout that was there was there too. */
  lemma WasTouched(m: Moment, r: RolloutId, y: JobId)
    requires Valid(m.before) && StepOk(m.before, m.call, m.at, m.after)
    requires TouchesJob(m, r, y) && r in m.before.rollouts
    ensures y in m.before.jobs && m.before.jobs[y].rollout == r
  {
    if y in m.before.jobs {
      assert JobStep(m.before, m.call, m.at, y, m.after.jobs[y]);
    }
  }

  // --- Done and still open -----------------------------------------------------------------------

  lemma UntouchedDone(m: Moment, r: RolloutId)
    requires Valid(m.before) && StepOk(m.before, m.call, m.at, m.after) && !Touches(m, r)
    ensures AllDone(m.before, r) == AllDone(m.after, r)
    ensures CanaryDone(m.before, r) == CanaryDone(m.after, r)
    ensures forall s :: CanaryIn(m.before, r, s) ==> CanaryIn(m.after, r, s)
    ensures forall s :: CanaryIn(m.after, r, s) ==> CanaryIn(m.before, r, s)
  {
    hide RolloutStep, NewRow, IsTerminal;
    forall id | id in m.before.jobs && m.before.jobs[id].rollout == r ensures m.after.jobs[id] == m.before.jobs[id] {
      assert JobStep(m.before, m.call, m.at, id, m.after.jobs[id]);
      assert !TouchesJob(m, r, id);
    }
    forall id | id in m.after.jobs && m.after.jobs[id].rollout == r
      ensures id in m.before.jobs && m.after.jobs[id] == m.before.jobs[id]
    {
      assert !TouchesJob(m, r, id);
    }
    forall s, id | id in m.before.jobs && IsCanaryOf(m.before.jobs[id], r) && m.before.jobs[id].state == s
      ensures CanaryIn(m.after, r, s)
    {
      assert IsCanaryOf(m.after.jobs[id], r);
    }
    forall s, id | id in m.after.jobs && IsCanaryOf(m.after.jobs[id], r) && m.after.jobs[id].state == s
      ensures CanaryIn(m.before, r, s)
    {
      assert IsCanaryOf(m.before.jobs[id], r);
    }
  }

  /** An operator resumed the rollout from PAUSED when it had nothing left to do. */
  predicate ResumedDone(run: seq<Moment>, i: nat, r: RolloutId)
    requires i < |run|
  {
    && run[i].call == Resume(r) && r in run[i].before.rollouts
    && run[i].before.rollouts[r].status == Paused && AllDone(run[i].before, r)
  }

  predicate ResumedDoneBefore(run: seq<Moment>, k: nat, r: RolloutId)
    requires k <= |run|
  {
    exists i | 0 <= i < k :: ResumedDone(run, i, r)
  }

  /** Not left open, unless by such a resume. */
  ghost predicate Over(run: seq<Moment>, k: nat, r: RolloutId)
    requires k <= |run|
  {
    r in At(run, k).rollouts && AllDone(At(run, k), r) ==>
      || IsClosed(At(run, k).rollouts[r].status) || At(run, k).rollouts[r].status == Paused
      || (At(run, k).rollouts[r].status == Running && ResumedDoneBefore(run, k, r))
  }

  lemma OverStep(run: seq<Moment>, k: nat, r: RolloutId)
    requires IsRun(run) && k < |run| && r in run[k].before.rollouts && !Touches(run[k], r) && Over(run, k, r)
    ensures Over(run, k + 1, r)
  {
    var m := run[k];
    StepAt(run, k);
    UntouchedDone(m, r);
    assert RolloutStep(m.call, m.at, r, m.before.rollouts[r], m.after);
    if r in m.after.rollouts && AllDone(m.after, r) && m.after.rollouts[r].status == Running {
      if m.before.rollouts[r].status == Running {
        var i :| 0 <= i < k && ResumedDone(run, i, r);
        assert ResumedDone(run, i, r);
      } else {
        assert ResumedDone(run, k, r);
      }
    }
  }

  lemma OverWhenTouched(run: seq<Moment>, k: nat, r: RolloutId)
    requires IsRun(run) && k < |run| && r in run[k].after.rollouts
    requires r in run[k].before.rollouts ==> Touches(run[k], r)
    ensures Over(run, k + 1, r)
  {
    hide JobStep, NewRow;
    var m := run[k];
    StepAt(run, k);
    assert Follows(run, k);
    if AllDone(m.after, r) {
      if r !in m.before.rollouts {
        NewFinishes(m, r);
      } else if m.call == Call.CancelRollout(r) {
      } else if m.before.rollouts[r].status in {Completed, Status.Cancelled, Paused} {
        TouchedClosed(m, r);
      } else {
        LastJobCompletes(run, k, r);
      }
    }
  }

  /** A call that writes a job of a rollout does not open it. */
  lemma TouchedClosed(m: Moment, r: RolloutId)
    requires Valid(m.before) && StepOk(m.before, m.call, m.at, m.after) && Touches(m, r)
    requires r in m.before.rollouts && r in m.after.rollouts
    requires m.before.rollouts[r].status in {Completed, Status.Cancelled, Paused}
    ensures m.after.rollouts[r].status in {Completed, Status.Cancelled, Paused}
  {
    var y :| TouchesJob(m, r, y);
    WasTouched(m, r, y);
    assert JobStep(m.before, m.call, m.at, y, m.after.jobs[y]);
    assert RolloutStep(m.call, m.at, r, m.before.rollouts[r], m.after);
  }

  /**
   * In every reachable state, a rollout whose jobs are all terminal is
   * COMPLETED, CANCELLED or PAUSED; the one exception is RUNNING after an
   * operator resumed it from PAUSED with nothing left to do.
   */
  lemma {:induction false} DoneIsNotOpen(run: seq<Moment>, k: nat, r: RolloutId)
    requires IsRun(run) && k <= |run| && r in At(run, k).rollouts && AllDone(At(run, k), r)
    ensures At(run, k).rollouts[r].status in {Completed, Status.Cancelled, Paused}
            || (At(run, k).rollouts[r].status == Running && exists i | 0 <= i < k :: ResumedDone(run, i, r))
  {
    OverAt(run, k, r);
  }

  lemma {:induction false} OverAt(run: seq<Moment>, k: nat, r: RolloutId)
    requires IsRun(run) && k <= |run|
    ensures Over(run, k, r)
    decreases k
  {
    hide Over, Touches;
    if k == 0 {
      NothingAtFirst(run, r);
    } else {
      StepAt(run, k - 1);
      OverAt(run, k - 1, r);
      if r !in run[k - 1].after.rollouts {
        NotThere(run, k, r);
      } else if r in run[k - 1].before.rollouts && !Touches(run[k - 1], r) {
        OverStep(run, k - 1, r);
      } else {
        OverWhenTouched(run, k - 1, r);
      }
    }
  }

  lemma NothingAtFirst(run: seq<Moment>, r: RolloutId)
    ensures Over(run, 0, r)
  {
  }

  lemma NotThere(run: seq<Moment>, k: nat, r: RolloutId)
    requires k <= |run| && r !in At(run, k).rollouts
    ensures Over(run, k, r)
  {
  }

  /** An operator retries a job of the rollout or cancels it. */
  ghost predicate Reopens(m: Moment, r: RolloutId) {
    || m.call == Call.CancelRollout(r)
    || (m.call.Retry? && m.call.job in m.before.jobs && m.before.jobs[m.call.job].rollout == r)
  }

  ghost predicate RunningDone(db: Db, r: RolloutId) {
    r in db.rollouts && db.rollouts[r].status == Running && AllDone(db, r)
  }

  lemma Stays(m: Moment, id: JobId)
    requires Valid(m.before) && StepOk(m.before, m.call, m.at, m.after) && id in m.before.jobs
    requires IsTerminal(m.before.jobs[id].state) && m.call != Retry(id)
    ensures id in m.after.jobs && m.after.jobs[id] == m.before.jobs[id]
  {
    assert JobStep(m.before, m.call, m.at, id, m.after.jobs[id]);
  }

  /** Terminal jobs stay as they are unless one is retried. */
  lemma DoneUntouched(m: Moment, r: RolloutId)
    requires Valid(m.before) && StepOk(m.before, m.call, m.at, m.after)
    requires RunningDone(m.before, r) && !Reopens(m, r)
    ensures !Touches(m, r)
  {
    forall id ensures !TouchesJob(m, r, id) {
      if TouchesJob(m, r, id) {
        WasTouched(m, r, id);
        Stays(m, id);
      }
    }
  }

  lemma {:induction false} StallElsewhere(db: Db, stalled: seq<JobId>, now: Time, r: RolloutId)
    requires Valid(db) && Distinct(stalled) && r in db.rollouts
    requires forall id :: id in stalled ==> id in db.jobs && db.jobs[id].rollout != r
    ensures var after := RolloutModel.RequeueStalled(db, stalled, now);
      r in after.rollouts && after.rollouts[r] == db.rollouts[r]
    decreases |stalled|
  {
    hide RequeueOne;
    if stalled != [] {
      var last := |stalled| - 1;
      StallElsewhere(db, stalled[..last], now, r);
      RowWaits(db, now, stalled[..last], stalled[last]);
      TurnElsewhere(RolloutModel.RequeueStalled(db, stalled[..last], now), stalled[last], now, r);
    }
  }

  /** With every job over, only the calls that name the rollout's status move it. */
  lemma DoneUnmoved(m: Moment, r: RolloutId)
    requires IsStep(m) && RunningDone(m.before, r) && !Reopens(m, r)
    ensures r in m.after.rollouts && m.after.rollouts[r] == m.before.rollouts[r]
  {
    match m.call
    case RequeueStalled(_, stalled) =>
      StalledActive(m);
      StallElsewhere(m.before, stalled, m.at, r);
    case Dispatch(fleet, cap, ids) =>
      PassLeavesRollouts(m);
    case Create(_, _, _, _, _) =>
      CreateLeavesOthers(m, r);
    case Result(_, _) => SettleLeavesDone(m, r);
    case Retry(_) => SettleLeavesDone(m, r);
    case CancelJob(_) => SettleLeavesDone(m, r);
    case _ => OtherLeavesDone(m, r);
  }

  lemma PassLeavesRollouts(m: Moment)
    requires IsStep(m) && m.call.Dispatch?
    ensures m.after.rollouts == m.before.rollouts
  {
    hide Visits, Counted;
    VisitsKeep(m.before, m.call.fleet, m.call.cap, m.call.ids, m.at);
  }

  lemma CreateLeavesOthers(m: Moment, r: RolloutId)
    requires IsStep(m) && m.call.Create? && r in m.before.rollouts
    ensures r in m.after.rollouts && m.after.rollouts[r] == m.before.rollouts[r]
  {
    hide Canaries, NewJobs;
  }

  lemma SettleLeavesDone(m: Moment, r: RolloutId)
    requires IsStep(m) && RunningDone(m.before, r) && !Reopens(m, r)
    requires m.call.Result? || m.call.Retry? || m.call.CancelJob?
    ensures r in m.after.rollouts && m.after.rollouts[r] == m.before.rollouts[r]
  {
    hide Setback;
  }

  lemma OtherLeavesDone(m: Moment, r: RolloutId)
    requires IsStep(m) && RunningDone(m.before, r) && !Reopens(m, r)
    requires m.call.Progress? || m.call.Heartbeat? || m.call.Reconcile? || m.call.CancelRollout? || m.call.Resume?
             || m.call.Promote?
    ensures r in m.after.rollouts && m.after.rollouts[r] == m.before.rollouts[r]
  {
  }

  lemma RunningDoneStep(m: Moment, r: RolloutId)
    requires IsStep(m) && StepOk(m.before, m.call, m.at, m.after)
    requires RunningDone(m.before, r) && !Reopens(m, r)
    ensures RunningDone(m.after, r)
  {
    hide StepOk, Touches, Apply, Enabled;
    DoneUntouched(m, r);
    UntouchedDone(m, r);
    DoneUnmoved(m, r);
  }

  /**
   * So that exception lasts: RUNNING with nothing left to do, a rollout stays
   * so through every call, at any time, until an operator retries one of its
   * jobs or cancels it. It is never completed.
   */
  lemma {:induction false} ResumedDoneStaysOpen(run: seq<Moment>, i: nat, k: nat, r: RolloutId)
    requires IsRun(run) && i < k <= |run| && ResumedDone(run, i, r)
    requires forall j | i < j < k :: !Reopens(run[j], r)
    ensures r in At(run, k).rollouts && At(run, k).rollouts[r].status == Running && AllDone(At(run, k), r)
    decreases k
  {
    hide StepOk, AllDone, Apply, Enabled;
    StepAt(run, k - 1);
    assert Follows(run, k - 1);
    var m := run[k - 1];
    if i + 1 == k {
      ResumeOpens(m, r);
    } else {
      ResumedDoneStaysOpen(run, i, k - 1, r);
      RunningDoneStep(m, r);
    }
  }

  lemma ResumeOpens(m: Moment, r: RolloutId)
    requires IsStep(m) && m.call == Resume(r) && r in m.before.rollouts && m.before.rollouts[r].status == Paused
    ensures r in m.after.rollouts && m.after.rollouts[r].status == Running
    ensures AllDone(m.before, r) ==> AllDone(m.after, r)
  {
  }

  // --- Judged at once --------------------------------------------------------------------------------

  /** A rollout in CANARY still waits for its verdict. */
  ghost predicate Unjudged(db: Db, r: RolloutId) {
    r in db.rollouts && db.rollouts[r].status == Canary && CanaryDone(db, r) ==>
      !CanaryIn(db, r, Failed) && !CanaryIn(db, r, Success)
  }

  lemma RecomputeJudges(db: Db, r: RolloutId, now: Time)
    ensures Unjudged(Recompute(db, r, now), r)
  {
    var after := Recompute(db, r, now);
    assert CanaryDone(after, r) == CanaryDone(db, r) && AllDone(after, r) == AllDone(db, r);
    forall s | CanaryIn(after, r, s) ensures CanaryIn(db, r, s) && HasCanary(db, r) {
      var id :| id in after.jobs && IsCanaryOf(after.jobs[id], r) && after.jobs[id].state == s;
      assert IsCanaryOf(db.jobs[id], r);
    }
  }

  lemma TurnJudges(db: Db, id: JobId, now: Time, r: RolloutId)
    requires Valid(db) && id in db.jobs && Unjudged(db, r)
    ensures Unjudged(RequeueOne(db, id, now), r)
  {
    var job := db.jobs[id];
    if job.rollout == r {
      RecomputeJudges(db.(jobs := db.jobs[id := Setback(job, db.rollouts[job.rollout], now)]), r, now);
    } else {
      SameJobsSameJudgement(db, RequeueOne(db, id, now), r);
    }
  }

  lemma {:induction false} StallJudges(db: Db, stalled: seq<JobId>, now: Time, r: RolloutId)
    requires Valid(db) && (forall id :: id in stalled ==> id in db.jobs) && Unjudged(db, r)
    ensures Unjudged(RolloutModel.RequeueStalled(db, stalled, now), r)
    decreases |stalled|
  {
    hide Unjudged, RequeueOne;
    if stalled != [] {
      var last := |stalled| - 1;
      StallJudges(db, stalled[..last], now, r);
      TurnJudges(RolloutModel.RequeueStalled(db, stalled[..last], now), stalled[last], now, r);
    }
  }

  /** A call that leaves every canary over and wrote one of them judges them. */
  lemma WrittenJudges(m: Moment, r: RolloutId, y: JobId)
    requires IsStep(m) && StepOk(m.before, m.call, m.at, m.after) && Unjudged(m.before, r)
    requires r in m.before.rollouts && TouchesJob(m, r, y) && IsCanaryOf(m.after.jobs[y], r) && CanaryDone(m.after, r)
    ensures Unjudged(m.after, r)
  {
    hide JobStep, RolloutStep, NewRow, Recompute;
    WasTouched(m, r, y);
    EndsOneOf(m, r, y);
    if m.call.RequeueStalled? {
      StalledActive(m);
      StallJudges(m.before, m.call.stalled, m.at, r);
    } else if m.call != Call.CancelRollout(r) {
      var written := EndsByRecompute(m, r, y);
      RecomputeJudges(written, r, m.at);
    }
  }

  /** One that wrote none of them has them judged as before. */
  lemma UnwrittenJudges(m: Moment, r: RolloutId)
    requires Valid(m.before) && StepOk(m.before, m.call, m.at, m.after) && Unjudged(m.before, r)
    requires r in m.before.rollouts
    requires forall y | TouchesJob(m, r, y) :: !IsCanaryOf(m.after.jobs[y], r)
    ensures Unjudged(m.after, r)
  {
    forall id | id in m.before.jobs && IsCanaryOf(m.before.jobs[id], r)
      ensures m.after.jobs[id] == m.before.jobs[id]
    {
      assert JobStep(m.before, m.call, m.at, id, m.after.jobs[id]);
      assert !TouchesJob(m, r, id);
    }
    forall s | CanaryIn(m.after, r, s) ensures CanaryIn(m.before, r, s) {
      var id :| id in m.after.jobs && IsCanaryOf(m.after.jobs[id], r) && m.after.jobs[id].state == s;
      assert !TouchesJob(m, r, id);
      assert IsCanaryOf(m.before.jobs[id], r);
    }
    assert CanaryDone(m.after, r) ==> CanaryDone(m.before, r);
    assert RolloutStep(m.call, m.at, r, m.before.rollouts[r], m.after);
  }

  lemma JudgedStep(m: Moment, r: RolloutId)
    requires IsStep(m) && StepOk(m.before, m.call, m.at, m.after) && Unjudged(m.before, r)
    requires r in m.before.rollouts
    ensures Unjudged(m.after, r)
  {
    hide StepOk, Apply;
    if !CanaryDone(m.after, r) {
    } else if y :| TouchesJob(m, r, y) && IsCanaryOf(m.after.jobs[y], r) {
      WrittenJudges(m, r, y);
    } else {
      UnwrittenJudges(m, r);
    }
  }

  /**
   * In every reachable state, a rollout in CANARY whose canaries are all
   * terminal has none FAILED and none SUCCESS: with a verdict it has left
   * CANARY by the very call that brought it.
   */
  lemma {:induction false} JudgedAtOnce(run: seq<Moment>, k: nat, r: RolloutId)
    requires IsRun(run) && k <= |run| && r in At(run, k).rollouts && At(run, k).rollouts[r].status == Canary
    requires CanaryDone(At(run, k), r)
    ensures !CanaryIn(At(run, k), r, Failed) && !CanaryIn(At(run, k), r, Success)
  {
    UnjudgedAt(run, k, r);
  }

  lemma {:induction false} UnjudgedAt(run: seq<Moment>, k: nat, r: RolloutId)
    requires IsRun(run) && k <= |run|
    ensures Unjudged(At(run, k), r)
    decreases k
  {
    hide StepOk, Recompute;
    if k > 0 {
      UnjudgedAt(run, k - 1, r);
      StepAt(run, k - 1);
      assert Follows(run, k - 1);
      if r in run[k - 1].before.rollouts {
        JudgedStep(run[k - 1], r);
      } else if r in run[k - 1].after.rollouts {
        var made := MadeBy(run[k - 1], r);
        RecomputeJudges(made, r, run[k - 1].at);
      }
    }
  }

  // --- The status after any call --------------------------------------------------------------------

  /** A rollout that a call judges, completes or leaves alone: neither closed nor parked, and not named by the call. */
  predicate Moved(m: Moment, r: RolloutId)
    requires r in m.before.rollouts
  {
    && m.before.rollouts[r].status !in {Completed, Status.Cancelled, Paused}
    && m.call != Call.CancelRollout(r)
    && !(m.before.rollouts[r].status == Soaking && m.call == Resume(r))
    && !(m.call == Promote && SoakOver(m.before.rollouts[r], m.at))
  }

  /** Where such a rollout goes, by what has become of its jobs. */
  ghost function Verdict(m: Moment, r: RolloutId): Status
    requires r in m.before.rollouts
  {
    var a := m.before.rollouts[r];
    if a.status == Canary && CanaryDone(m.after, r) && CanaryIn(m.after, r, Failed) then Paused
    else if AllDone(m.after, r) && Touches(m, r) then Completed
    else if a.status == Canary && CanariesPassed(m.after, r) then (if a.soakMinutes > 0 then Soaking else Running)
    else a.status
  }

  /** A retry would leave its job in the queue. */
  lemma NotReopened(m: Moment, r: RolloutId)
    requires IsStep(m) && RunningDone(m.before, r) && AllDone(m.after, r) && m.call != Call.CancelRollout(r)
    ensures !Reopens(m, r)
  {
    hide Recompute;
    assert forall id | m.call == Retry(id) && id in m.before.jobs && m.before.jobs[id].rollout == r ::
      id in m.after.jobs && m.after.jobs[id].rollout == r && !IsTerminal(m.after.jobs[id].state);
  }

  /** With nothing left to do before the call either, it runs since a resume, and goes on. */
  lemma DoneAndUntouched(run: seq<Moment>, k: nat, r: RolloutId)
    requires IsRun(run) && k < |run| && r in run[k].before.rollouts && Moved(run[k], r)
    requires AllDone(run[k].after, r) && !Touches(run[k], r)
    ensures run[k].before.rollouts[r].status == Running
    ensures r in run[k].after.rollouts && run[k].after.rollouts[r].status == Running
  {
    hide StepOk, Touches, Apply, AllDone, Enabled;
    var m := run[k];
    StepAt(run, k);
    assert Follows(run, k);
    UntouchedDone(m, r);
    DoneIsNotOpen(run, k, r);
    NotReopened(m, r);
    DoneUnmoved(m, r);
  }

  lemma VerdictHolds(run: seq<Moment>, k: nat, r: RolloutId)
    requires IsRun(run) && k < |run| && r in run[k].before.rollouts && Moved(run[k], r)
    ensures r in run[k].after.rollouts && run[k].after.rollouts[r].status == Verdict(run[k], r)
  {
    hide JobStep, NewRow, Touches;
    var m := run[k];
    StepAt(run, k);
    var a, b := m.before.rollouts[r], m.after.rollouts[r];
    assert RolloutStep(m.call, m.at, r, a, m.after);
    if AllDone(m.after, r) && Touches(m, r) {
      LastJobCompletes(run, k, r);
    } else if AllDone(m.after, r) {
      DoneAndUntouched(run, k, r);
    } else if b.status == Canary && CanaryDone(m.after, r) {
      JudgedAtOnce(run, k + 1, r);
    }
  }

  lemma NamedMoves(m: Moment, r: RolloutId)
    requires IsStep(m) && StepOk(m.before, m.call, m.at, m.after) && r in m.before.rollouts && !Moved(m, r)
    ensures r in m.after.rollouts
    ensures var a, b := m.before.rollouts[r], m.after.rollouts[r];
      b.status ==
        if m.call == Call.CancelRollout(r) then Status.Cancelled
        else if m.call == Resume(r) && a.status in {Paused, Soaking} then Running
        else if m.call == Promote && a.status == Soaking && SoakOver(a, m.at) then Running
        else a.status
  {
    hide JobStep, NewRow, Visits, Setback, Canaries, NewJobs;
    assert RolloutStep(m.call, m.at, r, m.before.rollouts[r], m.after);
  }

  /**
   * The status of a rollout after any call of any run. An operator's cancel
   * and resume and the end of a soak are obeyed; COMPLETED, CANCELLED and
   * PAUSED hold against everything else; and otherwise the jobs decide, at
   * once: a FAILED canary parks it, the end of its last job completes it, and
   * canaries that passed send it to soak or let it run.
   */
  lemma StatusAfter(run: seq<Moment>, k: nat, r: RolloutId)
    requires IsRun(run) && k < |run| && r in run[k].before.rollouts
    ensures r in run[k].after.rollouts
    ensures var m := run[k]; var a := m.before.rollouts[r];
      m.after.rollouts[r].status ==
        if m.call == Call.CancelRollout(r) then Status.Cancelled
        else if m.call == Resume(r) && a.status in {Paused, Soaking} then Running
        else if a.status in {Paused, Completed, Status.Cancelled} then a.status
        else if m.call == Promote && a.status == Soaking && a.canaryPassedAt.Some?
                && a.canaryPassedAt.value + a.soakMinutes * 60_000 <= m.at then Running
        else if a.status == Canary && CanaryDone(m.after, r) && CanaryIn(m.after, r, Failed) then Paused
        else if AllDone(m.after, r) && Touches(m, r) then Completed
        else if a.status == Canary && CanaryDone(m.after, r) && CanaryIn(m.after, r, Success) then
          (if a.soakMinutes > 0 then Soaking else Running)
        else a.status
  {
    hide JobStep, NewRow, Touches, AllDone, CanaryDone, CanaryIn, RolloutStep, Apply;
    var m := run[k];
    if Moved(m, r) {
      VerdictHolds(run, k, r);
    } else {
      StepAt(run, k);
      assert Follows(run, k);
      NamedMoves(m, r);
    }
  }
}
