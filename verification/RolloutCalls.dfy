// What each service call of the hub asks for and leaves behind, field by
// field, in every run: who is dispatched, who counts as stalled or given back,
// which boxes a rollout skips, and when it moves.

module RolloutCalls {
  import opened Numbers
  import opened Options
  import opened RolloutModel
  import opened DispatchModel
  import opened RolloutSteps
  import opened RolloutRuns
  import opened RolloutDone

  // --- Who is dispatched ---------------------------------------------------------------------

  /** The row a dispatch found, and the candidate list it was on. */
  lemma DispatchedFrom(run: seq<Moment>, k: nat, id: JobId)
    requires IsRun(run) && k < |run| && RolloutRuns.Dispatched(run[k], id)
    ensures Valid(run[k].before) && IsCandidateList(run[k].before, run[k].call.fleet, run[k].at, run[k].call.ids)
    ensures run[k].after == DispatchQueued(run[k].before, run[k].call.fleet, run[k].call.cap, run[k].call.ids, run[k].at)
    ensures id in Visits(run[k].before, run[k].call.fleet, run[k].call.cap, run[k].call.ids, run[k].at).sent
  {
    hide Visits, Counted, Reachable;
    var m := run[k];
    assert Follows(run, k);
    VisitsKeep(m.before, m.call.fleet, m.call.cap, m.call.ids, m.at);
  }

  /**
   * In every run, a job is dispatched only to an online and approved box, for
   * a rollout whose artifact is cached and, in AUTO, whose window is open, and
   * only when its message was taken.
   */
  lemma DispatchedIsReady(run: seq<Moment>, k: nat, id: JobId)
    requires IsRun(run) && k < |run| && RolloutRuns.Dispatched(run[k], id)
    ensures run[k].before.jobs[id].rollout in run[k].before.rollouts
    ensures var m := run[k]; var job := m.before.jobs[id]; var rollout := m.before.rollouts[job.rollout];
      && job.device in m.call.fleet.online
      && job.device in m.call.fleet.approved
      && job.rollout in m.call.fleet.cached
      && (rollout.mode == Auto ==> job.rollout in m.call.fleet.windowOpen)
      && (rollout.status == Running || (rollout.status == Canary && job.isCanary))
      && (job.nextAttemptAt.Some? ==> job.nextAttemptAt.value <= m.at)
      && id in m.call.fleet.accepts
  {
    hide Visits, Counted;
    var m := run[k];
    DispatchedFrom(run, k, id);
    VisitsKeep(m.before, m.call.fleet, m.call.cap, m.call.ids, m.at);
    assert IsCandidate(m.before, m.call.fleet, m.at, id);
  }

  /**
   * A pass that dispatches anything ends within the cap, and within the limit
   * of the group it sent to.
   */
  lemma DispatchEndsWithin(run: seq<Moment>, k: nat, id: JobId)
    requires IsRun(run) && k < |run| && RolloutRuns.Dispatched(run[k], id)
    ensures |Active(run[k].after)| <= run[k].call.cap
    ensures var fleet := run[k].call.fleet; var device := run[k].before.jobs[id].device;
      device in fleet.group && fleet.group[device] in fleet.groupLimit ==>
        |ActiveInGroup(run[k].after, fleet, fleet.group[device])| <= fleet.groupLimit[fleet.group[device]]
  {
    hide Visits, Counted, IsActive, Untouched;
    var m := run[k];
    var fleet, device := m.call.fleet, m.before.jobs[id].device;
    DispatchedFrom(run, k, id);
    DispatchRespectsLimits(m.before, fleet, m.call.cap, m.call.ids, m.at);
    NoneLeaveFlight(m, id);
    FewerThan(Active(m.before), Active(m.after), id);
    if device in fleet.group {
      var g := fleet.group[device];
      FewerThan(ActiveInGroup(m.before, fleet, g), ActiveInGroup(m.after, fleet, g), id);
    }
  }

  /** A pass takes no job out of flight. */
  lemma NoneLeaveFlight(m: Moment, id: JobId)
    requires Valid(m.before) && m.call.Dispatch? && IsCandidateList(m.before, m.call.fleet, m.at, m.call.ids)
    requires m.after == DispatchQueued(m.before, m.call.fleet, m.call.cap, m.call.ids, m.at)
    requires RolloutRuns.Dispatched(m, id)
    ensures id !in Active(m.before) && id in Active(m.after)
    ensures m.after.jobs[id].device == m.before.jobs[id].device
    ensures forall x | x in m.before.jobs && IsActive(m.before.jobs[x].state) ::
      x in m.after.jobs && m.after.jobs[x] == m.before.jobs[x]
  {
    hide Visits, Counted;
    VisitsKeep(m.before, m.call.fleet, m.call.cap, m.call.ids, m.at);
  }

  lemma FewerThan(a: set<JobId>, b: set<JobId>, id: JobId)
    requires a <= b && id in b && id !in a
    ensures |a| < |b|
  {
    SubsetSize(a + {id}, b);
  }

  /**
   * What a pass writes: rows of queued candidates alone, and each as sent, one
   * attempt up and stamped with the moment, or as its socket refused it, still
   * queued with its attempt and without the stamps. No rollout moves.
   */
  lemma PassWrites(m: Moment, id: JobId)
    requires IsStep(m) && m.call.Dispatch? && id in m.before.jobs
    ensures m.after.rollouts == m.before.rollouts && m.after.jobs.Keys == m.before.jobs.Keys
    ensures var a, b := m.before.jobs[id], m.after.jobs[id];
      b != a ==>
        && a.state == Queued && id in m.call.ids
        && (|| (&& id in m.call.fleet.accepts
                && b == a.(state := JobState.Dispatched, attempt := a.attempt + 1, progress := 0,
                           dispatchedAt := Some(m.at), heartbeatAt := Some(m.at)))
            || b == a.(progress := 0, dispatchedAt := None, heartbeatAt := None))
  {
    hide Visits, Counted, Reachable;
    VisitsKeep(m.before, m.call.fleet, m.call.cap, m.call.ids, m.at);
  }

  // --- How a job ends -------------------------------------------------------------------------

  /** A job of a rollout sees its rollout's settings. */
  function MaxAttempts(db: Db, id: JobId): nat
    requires id in db.jobs && db.jobs[id].rollout in db.rollouts
  {
    db.rollouts[db.jobs[id].rollout].maxAttempts
  }

  /**
   * How a job ends, in every run: SUCCESS by a good result, FAILED by a bad one
   * or a stall with no attempts left, CANCELLED by its own cancellation or its
   * rollout's, never SKIPPED; and it is stamped as finished at that moment.
   */
  lemma EndsIff(run: seq<Moment>, k: nat, id: JobId)
    requires IsRun(run) && k < |run| && id in run[k].before.jobs
    requires run[k].before.jobs[id].state !in {Success, Failed, JobState.Cancelled, Skipped}
    ensures id in run[k].after.jobs && run[k].before.jobs[id].rollout in run[k].before.rollouts
    ensures var m := run[k]; var job, after := m.before.jobs[id], m.after.jobs[id];
      && (after.state == Success <==> m.call == Result(id, true))
      && (after.state == Failed <==>
            && job.attempt >= MaxAttempts(m.before, id)
            && (m.call == Result(id, false) || (m.call.RequeueStalled? && id in m.call.stalled)))
      && (after.state == JobState.Cancelled <==>
            m.call == Call.CancelJob(id) || m.call == Call.CancelRollout(job.rollout))
      && after.state != Skipped
      && (after.state in {Success, Failed, JobState.Cancelled} ==> after.finishedAt == Some(m.at))
  {
    hide RolloutStep, NewRow, Reachable, Apply;
    var m := run[k];
    StepAt(run, k);
    assert Follows(run, k);
    assert JobStep(m.before, m.call, m.at, id, m.after.jobs[id]);
    Ends(m, id);
  }

  /** The calls that must end the job do. */
  lemma Ends(m: Moment, id: JobId)
    requires IsStep(m) && id in m.before.jobs && !IsTerminal(m.before.jobs[id].state)
    ensures m.before.jobs[id].rollout in m.before.rollouts
    ensures m.call == Result(id, true) ==>
      && id in m.after.jobs && m.after.jobs[id].state == Success && m.after.jobs[id].finishedAt == Some(m.at)
    ensures m.call == Result(id, false) || (m.call.RequeueStalled? && id in m.call.stalled) ==>
      && id in m.after.jobs
      && m.after.jobs[id] == Setback(m.before.jobs[id], m.before.rollouts[m.before.jobs[id].rollout], m.at)
    ensures m.call == Call.CancelJob(id) || m.call == Call.CancelRollout(m.before.jobs[id].rollout) ==>
      && id in m.after.jobs && m.after.jobs[id].state == JobState.Cancelled && m.after.jobs[id].finishedAt == Some(m.at)
  {
    hide Recompute, Setback, IsTerminal;
    if m.call.RequeueStalled? {
      assert forall x | x in m.call.stalled :: x in Stalled(m.before, m.call.timeoutSeconds, m.at);
      StallRows(m.before, m.at, m.call.stalled);
    }
  }

  /**
   * What a failure or a stall with attempts left does: the row goes back to
   * the queue with its attempt, held for exactly the backoff of that attempt,
   * and not at all when the rollout has none.
   */
  lemma SetBackExactly(m: Moment, id: JobId)
    requires IsStep(m) && id in m.before.jobs && m.before.jobs[id].state !in {Success, Failed, JobState.Cancelled, Skipped}
    requires m.call == Result(id, false) || (m.call.RequeueStalled? && id in m.call.stalled)
    requires m.before.jobs[id].attempt < MaxAttempts(m.before, id)
    ensures id in m.after.jobs
    ensures var job := m.before.jobs[id]; var base := m.before.rollouts[job.rollout].retryBackoffSeconds;
      m.after.jobs[id] == job.(
        state := Queued, progress := 0, finishedAt := None,
        nextAttemptAt := if base == 0 then None else Some(m.at + BackoffSeconds(base, job.attempt) * 1000))
  {
    hide IsStep, IsTerminal, NextAttemptAt;
    NotTerminal(m.before.jobs[id].state);
    Ends(m, id);
    HoldOf(m.before.jobs[id], m.before.rollouts[m.before.jobs[id].rollout], m.at);
  }

  lemma HoldOf(job: Job, rollout: Rollout, now: Time)
    requires job.attempt < rollout.maxAttempts
    ensures var base := rollout.retryBackoffSeconds;
      Setback(job, rollout, now) == job.(
        state := Queued, progress := 0, finishedAt := None,
        nextAttemptAt := if base == 0 then None else Some(now + BackoffSeconds(base, job.attempt) * 1000))
  {
  }

  lemma NotTerminal(s: JobState)
    ensures IsTerminal(s) <==> s in {Success, Failed, JobState.Cancelled, Skipped}
    ensures IsActive(s) <==> s in {JobState.Dispatched, Downloading, Extracting, Installing, Verifying}
  {
  }

  // --- Silence and reconnects --------------------------------------------------------------------

  /** The box last said something about the job, or was handed it, before this time. */
  predicate SilentSince(job: Job, cutoff: int) {
    match job.heartbeatAt
    case Some(beat) => beat < cutoff
    case None => job.dispatchedAt.Some? && job.dispatchedAt.value < cutoff
  }

  /** The row the stall loop leaves. */
  lemma StalledRow(m: Moment, id: JobId)
    requires IsStep(m) && m.call.RequeueStalled? && id in m.before.jobs
    ensures m.before.jobs[id].rollout in m.before.rollouts && id in m.after.jobs
    ensures m.after.jobs[id] ==
      if IsStalled(m.before.jobs[id], m.at - m.call.timeoutSeconds * 1000)
      then Setback(m.before.jobs[id], m.before.rollouts[m.before.jobs[id].rollout], m.at) else m.before.jobs[id]
  {
    hide Setback, Recompute, IsStalled, RequeueOne, SameTerms, Distinct;
    assert forall x | x in m.call.stalled :: x in Stalled(m.before, m.call.timeoutSeconds, m.at);
    assert Distinct(m.call.stalled) && (id in m.call.stalled <==> id in Stalled(m.before, m.call.timeoutSeconds, m.at));
    StallRows(m.before, m.at, m.call.stalled);
  }

  /** The stall loop writes a job if and only if it is in flight and silent for longer than the timeout. */
  lemma StalledIff(m: Moment, id: JobId)
    requires IsStep(m) && m.call.RequeueStalled? && id in m.before.jobs
    ensures id in m.after.jobs
    ensures m.after.jobs[id] != m.before.jobs[id] <==>
      && m.before.jobs[id].state in {JobState.Dispatched, Downloading, Extracting, Installing, Verifying}
      && SilentSince(m.before.jobs[id], m.at - m.call.timeoutSeconds * 1000)
  {
    hide IsStep, NextAttemptAt;
    StalledRow(m, id);
  }

  /**
   * A reconnect gives back exactly the jobs its own box has in flight, but for
   * the one it says it is on; they keep their attempt, and wait for nothing.
   */
  lemma GivenBackIff(m: Moment, id: JobId)
    requires IsStep(m) && m.call.Reconcile? && id in m.before.jobs
    ensures id in m.after.jobs
    ensures m.after.jobs[id] != m.before.jobs[id] <==>
      && m.before.jobs[id].device == m.call.device && m.call.current != Some(id)
      && m.before.jobs[id].state in {JobState.Dispatched, Downloading, Extracting, Installing, Verifying}
    ensures m.after.jobs[id] != m.before.jobs[id] ==>
      m.after.jobs[id] == m.before.jobs[id].(
        state := Queued, progress := 0, nextAttemptAt := None, dispatchedAt := None, heartbeatAt := None)
  {
  }

  /** An operator's retry is refused for exactly the jobs in flight; any other job starts over. */
  lemma RetriedIff(m: Moment, id: JobId)
    requires IsStep(m) && m.call == Retry(id) && id in m.before.jobs
    ensures m.before.jobs[id].state in {JobState.Dispatched, Downloading, Extracting, Installing, Verifying} ==>
      m.after == m.before
    ensures m.before.jobs[id].state !in {JobState.Dispatched, Downloading, Extracting, Installing, Verifying} ==>
      && m.after.jobs.Keys == m.before.jobs.Keys
      && m.after.jobs[id] == Job(
           m.before.jobs[id].rollout, m.before.jobs[id].device, m.before.jobs[id].isCanary,
           Queued, 0, 0, m.at, None, None, None, None, None)
  {
    hide Recompute;
  }

  // --- Creation ----------------------------------------------------------------------------------------

  /** A rollout is made exactly from a cached version and at least one box; otherwise nothing is written. */
  lemma MadeIff(m: Moment)
    requires IsStep(m) && m.call.Create?
    ensures m.call.rollout in m.after.rollouts <==>
      && m.call.targets != [] && m.call.version.Some?
      && m.call.version.value.isReady && m.call.version.value.hasArtifact && m.call.version.value.hasDigest
    ensures m.call.rollout !in m.after.rollouts ==> m.after == m.before
  {
    hide Canaries, NewJobs, NewRollout;
  }

  /**
   * Which boxes it skips: those that have the version already, if it was asked
   * to. They are done at once, and none of them is a canary; every other box
   * waits in the queue from that moment.
   */
  lemma SkippedIff(m: Moment, i: nat)
    requires IsStep(m) && m.call.Create? && m.call.rollout in m.after.rollouts && i < |m.call.targets|
    ensures |m.call.ids| == |m.call.targets| && m.call.ids[i] in m.after.jobs
    ensures var job, t := m.after.jobs[m.call.ids[i]], m.call.targets[i]; var skipped := m.call.plan.skipUpToDate && t.upToDate;
      && job.rollout == m.call.rollout && job.device == t.device
      && (job.isCanary <==> t in Canaries(m.call.targets, m.call.plan))
      && (job.isCanary ==> !skipped)
      && job.state == (if skipped then Skipped else Queued)
      && job.finishedAt == (if skipped then Some(m.at) else None)
      && job.queuedAt == m.at && job.progress == 0 && job.attempt == 0 && job.nextAttemptAt == None
  {
    hide Canaries, Recompute;
    var l := m.call;
    var canaries := Canaries(l.targets, l.plan);
    assert l.targets[i] in canaries ==> Eligible(l.targets[i], l.plan);
    assert NewJobs(l.rollout, l.ids, l.targets, l.plan, canaries, m.at)[l.ids[i]]
      == NewJob(l.rollout, l.targets[i], l.plan, canaries, m.at);
  }

  /** A new rollout has the settings it was asked for and waits for its canaries, if it has any. */
  lemma MadeAsAsked(m: Moment)
    requires IsStep(m) && m.call.Create? && m.call.rollout in m.after.rollouts
    ensures var rollout, plan := m.after.rollouts[m.call.rollout], m.call.plan;
      && (rollout.mode, rollout.soakMinutes, rollout.maxConcurrency, rollout.maxAttempts, rollout.retryBackoffSeconds)
           == (plan.mode, plan.soakMinutes, plan.maxConcurrency, plan.maxAttempts, plan.retryBackoffSeconds)
      && rollout.canaryPassedAt == None
      && (rollout.status == Canary <==> Canaries(m.call.targets, plan) != [])
      && rollout.status in {Canary, Running, Completed}
  {
    hide Canaries, NewJobs;
    var made := MadeBy(m, m.call.rollout);
    if Canaries(m.call.targets, m.call.plan) != [] {
      var id := NewCanaryWaits(made, m, m.call.rollout);
      RecomputeIdle(made, m.call.rollout, id, m.at);
    }
  }

  // --- What a box reports ---------------------------------------------------------------------------

  /**
   * A report on an unfinished job writes its phase, its percentage cut to what
   * a percentage can be, the moment, and the start if it is the first; one on
   * a finished job writes nothing. A beat writes its moment, in flight only.
   */
  lemma ReportWrites(m: Moment, id: JobId)
    requires IsStep(m) && id in m.before.jobs && (m.call == Call.Heartbeat(id) || (m.call.Progress? && m.call.job == id))
    ensures m.after.rollouts == m.before.rollouts && m.after.jobs.Keys == m.before.jobs.Keys
    ensures forall x | x in m.before.jobs && x != id :: m.after.jobs[x] == m.before.jobs[x]
    ensures m.call.Progress? ==>
      var a, percent := m.before.jobs[id], m.call.percent;
      m.after.jobs[id] ==
        if a.state in {Success, Failed, JobState.Cancelled, Skipped} then a
        else a.(state := m.call.state,
                progress := if percent <= 0 then 0 else if percent >= 100 then 100 else percent,
                heartbeatAt := Some(m.at),
                startedAt := if a.startedAt.Some? then a.startedAt else Some(m.at))
    ensures m.call.Heartbeat? ==>
      var a := m.before.jobs[id];
      m.after.jobs[id] ==
        if a.state in {JobState.Dispatched, Downloading, Extracting, Installing, Verifying}
        then a.(heartbeatAt := Some(m.at)) else a
  {
  }

  // --- What an operator's calls write to a rollout ---------------------------------------------------

  /** A resume that is obeyed keeps the moment the canaries passed, or makes one; a refused one writes nothing. */
  lemma ResumeWrites(m: Moment, r: RolloutId)
    requires IsStep(m) && m.call == Resume(r)
    ensures m.after.jobs == m.before.jobs && m.after.rollouts.Keys == m.before.rollouts.Keys
    ensures forall x | x in m.before.rollouts && x != r :: m.after.rollouts[x] == m.before.rollouts[x]
    ensures r in m.before.rollouts ==>
      var a := m.before.rollouts[r];
      m.after.rollouts[r] ==
        if a.status in {Paused, Soaking}
        then a.(status := Running, canaryPassedAt := if a.canaryPassedAt.Some? then a.canaryPassedAt else Some(m.at))
        else a
  {
  }

  /** A cancel closes the rollout now and ends its unfinished jobs, and no others. */
  lemma CancelWrites(m: Moment, r: RolloutId)
    requires IsStep(m) && m.call == Call.CancelRollout(r)
    ensures m.after.rollouts.Keys == m.before.rollouts.Keys && m.after.jobs.Keys == m.before.jobs.Keys
    ensures forall x | x in m.before.rollouts ::
      m.after.rollouts[x] ==
        if x == r then m.before.rollouts[x].(status := Status.Cancelled, finishedAt := Some(m.at)) else m.before.rollouts[x]
    ensures forall id | id in m.before.jobs && m.after.jobs[id] != m.before.jobs[id] :: m.before.jobs[id].rollout == r
    ensures AllDone(m.after, r)
  {
  }

  // --- Every row, in every run ------------------------------------------------------------------------

  /**
   * A job is stamped as finished exactly when it is over, its progress is a
   * percentage, full on success and none in the queue, and in flight its box
   * has been heard of since this time.
   */
  predicate Coherent(job: Job, since: Time) {
    && (job.finishedAt.Some? <==> job.state in {Success, Failed, JobState.Cancelled, Skipped})
    && job.progress <= 100
    && (job.state == Success ==> job.progress == 100)
    && (job.state == Queued ==> job.progress == 0)
    && (job.state in {JobState.Dispatched, Downloading, Extracting, Installing, Verifying} ==>
          job.heartbeatAt.Some? && job.heartbeatAt.value >= since)
  }

  lemma PassCoherent(m: Moment, id: JobId, since: Time)
    requires since <= m.at && IsStep(m) && m.call.Dispatch? && id in m.before.jobs && Coherent(m.before.jobs[id], since)
    ensures id in m.after.jobs && Coherent(m.after.jobs[id], since)
  {
    hide Visits, Counted, Reachable;
    VisitsKeep(m.before, m.call.fleet, m.call.cap, m.call.ids, m.at);
  }

  lemma StallCoherent(m: Moment, id: JobId, since: Time)
    requires since <= m.at && IsStep(m) && m.call.RequeueStalled? && id in m.before.jobs && Coherent(m.before.jobs[id], since)
    ensures id in m.after.jobs && Coherent(m.after.jobs[id], since)
  {
    hide IsStep, NextAttemptAt;
    StalledRow(m, id);
  }

  lemma OneRowCoherent(m: Moment, id: JobId, since: Time)
    requires since <= m.at && IsStep(m) && id in m.before.jobs && Coherent(m.before.jobs[id], since)
    requires m.call.Progress? || m.call.Heartbeat? || m.call.Result? || m.call.Retry? || m.call.CancelJob?
    ensures id in m.after.jobs && Coherent(m.after.jobs[id], since)
  {
    hide Recompute, NextAttemptAt;
  }

  lemma OtherCoherent(m: Moment, id: JobId, since: Time)
    requires since <= m.at && IsStep(m) && id in m.before.jobs && Coherent(m.before.jobs[id], since)
    requires m.call.Reconcile? || m.call.Create? || m.call.CancelRollout? || m.call.Resume? || m.call.Promote?
    ensures id in m.after.jobs && Coherent(m.after.jobs[id], since)
  {
    hide Recompute, Canaries;
  }

  lemma CoherentStep(m: Moment, id: JobId, since: Time)
    requires since <= m.at && IsStep(m) && id in m.before.jobs && Coherent(m.before.jobs[id], since)
    ensures id in m.after.jobs && Coherent(m.after.jobs[id], since)
  {
    hide IsStep, Coherent;
    match m.call
    case Dispatch(_, _, _) => PassCoherent(m, id, since);
    case RequeueStalled(_, _) => StallCoherent(m, id, since);
    case Progress(_, _, _) => OneRowCoherent(m, id, since);
    case Heartbeat(_) => OneRowCoherent(m, id, since);
    case Result(_, _) => OneRowCoherent(m, id, since);
    case Retry(_) => OneRowCoherent(m, id, since);
    case CancelJob(_) => OneRowCoherent(m, id, since);
    case _ => OtherCoherent(m, id, since);
  }

  lemma NewCoherent(m: Moment, id: JobId, since: Time)
    requires IsStep(m) && id in m.after.jobs && id !in m.before.jobs
    ensures Coherent(m.after.jobs[id], since)
  {
    hide IsStep, Canaries;
    var i := NewFrom(m, id);
    SkippedIff(m, i);
  }

  /** A job that was not there is of one of the boxes of a new rollout. */
  lemma NewFrom(m: Moment, id: JobId) returns (i: nat)
    requires IsStep(m) && id in m.after.jobs && id !in m.before.jobs
    ensures m.call.Create? && m.call.rollout in m.after.rollouts && i < |m.call.targets| == |m.call.ids|
    ensures m.call.ids[i] == id
  {
    hide Recompute, Canaries, JobStep, RolloutStep, NewRow;
    StepFacts(m.before, m.call, m.at);
    assert CreationOf(m.call.version, m.call.targets) == Created && id in m.call.ids;
    i :| 0 <= i < |m.call.ids| && m.call.ids[i] == id;
  }

  lemma StepOf(run: seq<Moment>, k: nat)
    requires IsRun(run) && k < |run|
    ensures IsStep(run[k]) && run[k].before == At(run, k) && run[k].after == At(run, k + 1)
  {
    assert Follows(run, k);
  }

  /** Every row of every reachable state is coherent. */
  lemma {:induction false} RowsCoherent(run: seq<Moment>, k: nat, id: JobId)
    requires IsRun(run) && k <= |run| && id in At(run, k).jobs
    ensures Coherent(At(run, k).jobs[id], 0)
    decreases k
  {
    hide Coherent, IsRun, IsStep;
    StepOf(run, k - 1);
    if id in run[k - 1].before.jobs {
      RowsCoherent(run, k - 1, id);
      CoherentStep(run[k - 1], id, 0);
    } else {
      NewCoherent(run[k - 1], id, 0);
    }
  }

  /** Some word of the box about the job, a beat or a report. */
  predicate Heard(m: Moment, id: JobId) {
    (m.call == Call.Heartbeat(id) || (m.call.Progress? && m.call.job == id)) && id in m.before.jobs
  }

  lemma HeardNow(m: Moment, id: JobId)
    requires IsStep(m) && Heard(m, id) && Coherent(m.before.jobs[id], 0)
    ensures id in m.after.jobs && Coherent(m.after.jobs[id], m.at)
  {
  }

  lemma {:induction false} HeardSince(run: seq<Moment>, i: nat, k: nat, id: JobId)
    requires IsRun(run) && i < k <= |run| && Heard(run[i], id)
    ensures id in At(run, k).jobs && Coherent(At(run, k).jobs[id], run[i].at)
    decreases k
  {
    hide Coherent, IsRun, IsStep;
    StepOf(run, k - 1);
    if i + 1 == k {
      RowsCoherent(run, i, id);
      HeardNow(run[i], id);
    } else {
      HeardSince(run, i, k - 1, id);
      TimesOrdered(run, i, k - 1);
      CoherentStep(run[k - 1], id, run[i].at);
    }
  }

  /**
   * A box that is heard of keeps its job: no stall loop takes a job about
   * which its box said anything within the timeout, whatever happened between.
   */
  lemma HeardIsNotStalled(run: seq<Moment>, i: nat, k: nat, id: JobId)
    requires IsRun(run) && i < k < |run| && Heard(run[i], id) && run[k].call.RequeueStalled?
    requires run[k].at - run[k].call.timeoutSeconds * 1000 <= run[i].at
    ensures id !in run[k].call.stalled
  {
    hide IsRun;
    var m := run[k];
    StepOf(run, k);
    HeardSince(run, i, k, id);
    assert id in m.call.stalled <==> id in Stalled(m.before, m.call.timeoutSeconds, m.at);
  }

  /**
   * So the second half of the stall query, jobs in flight never heard of,
   * finds none in any run: a job is taken for stalled if and only if it is in
   * flight and its last beat is older than the timeout.
   */
  lemma StalledIsOldBeat(run: seq<Moment>, k: nat, id: JobId)
    requires IsRun(run) && k < |run| && run[k].call.RequeueStalled? && id in run[k].before.jobs
    ensures id in run[k].call.stalled <==>
      && run[k].before.jobs[id].state in {JobState.Dispatched, Downloading, Extracting, Installing, Verifying}
      && run[k].before.jobs[id].heartbeatAt.Some?
      && run[k].before.jobs[id].heartbeatAt.value < run[k].at - run[k].call.timeoutSeconds * 1000
  {
    hide IsRun;
    var m := run[k];
    StepOf(run, k);
    RowsCoherent(run, k, id);
    assert id in m.call.stalled <==> id in Stalled(m.before, m.call.timeoutSeconds, m.at);
  }
}
