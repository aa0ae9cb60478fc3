// Whole runs of the rollout and job protocol: any sequence of service calls,
// starting from empty tables, with a clock that does not go backwards.

module RolloutRuns {
  import opened Numbers
  import opened Options
  import opened RolloutModel
  import opened DispatchModel
  import opened RolloutSteps

  /** One service call, taken atomically. */
  datatype Moment = Moment(call: Call, at: Time, before: Db, after: Db)

  function Empty(): Db { Db(map[], map[]) }

  ghost predicate IsStep(m: Moment) {
    && Valid(m.before) && Enabled(m.before, m.call, m.at)
    && m.after == Apply(m.before, m.call, m.at)
  }

  /** The tables after the first `k` calls. */
  function At(run: seq<Moment>, k: nat): Db
    requires k <= |run|
  {
    if k == 0 then Empty() else run[k - 1].after
  }

  /** The call `i` of the run starts where the one before left off, no earlier. */
  ghost predicate Follows(run: seq<Moment>, i: nat)
    requires i < |run|
  {
    && IsStep(run[i])
    && run[i].before == At(run, i)
    && (i > 0 ==> run[i - 1].at <= run[i].at)
  }

  ghost predicate IsRun(run: seq<Moment>) {
    forall i | 0 <= i < |run| :: Follows(run, i)
  }

  lemma StepAt(run: seq<Moment>, k: nat)
    requires IsRun(run) && k < |run|
    ensures run[k].before == At(run, k) && run[k].after == At(run, k + 1)
    ensures k > 0 ==> run[k - 1].at <= run[k].at
    ensures Valid(run[k].before) && StepOk(run[k].before, run[k].call, run[k].at, run[k].after)
  {
    assert Follows(run, k);
    StepFacts(run[k].before, run[k].call, run[k].at);
  }

  /** The job went from the queue onto a box in this call. */
  predicate Dispatched(m: Moment, id: JobId) {
    && m.call.Dispatch? && id in m.before.jobs && id in m.after.jobs
    && m.before.jobs[id].state == Queued && m.after.jobs[id].state == JobState.Dispatched
  }

  predicate Retried(m: Moment, id: JobId) {
    m.call == Retry(id) && CanRetry(m.before, id)
  }

  predicate Reconnected(m: Moment, id: JobId) {
    && m.call.Reconcile? && id in m.before.jobs && id in m.after.jobs
    && IsActive(m.before.jobs[id].state) && m.after.jobs[id].state == Queued
  }

  lemma {:induction false} TimesOrdered(run: seq<Moment>, i: nat, k: nat)
    requires IsRun(run) && i <= k < |run|
    ensures run[i].at <= run[k].at
    decreases k
  {
    if i < k {
      StepAt(run, k);
      TimesOrdered(run, i, k - 1);
    }
  }

  /** Rows are never deleted and never change hands. */
  lemma {:induction false} RowsStay(run: seq<Moment>, i: nat, k: nat)
    requires IsRun(run) && i <= k <= |run|
    ensures Valid(At(run, k))
    ensures forall id | id in At(run, i).jobs :: id in At(run, k).jobs && SameOwner(At(run, i).jobs[id], At(run, k).jobs[id])
    ensures forall r | r in At(run, i).rollouts ::
      r in At(run, k).rollouts && SameTerms(At(run, i).rollouts[r], At(run, k).rollouts[r])
    decreases k
  {
    if k > 0 {
      StepAt(run, k - 1);
      if i < k {
        RowsStay(run, i, k - 1);
      }
    }
  }

  // --- Terminal jobs and closed rollouts --------------------------------------

  /** Only an operator's retry takes a job out of a terminal state. */
  lemma TerminalUntilRetried(run: seq<Moment>, k: nat, id: JobId)
    requires IsRun(run) && k < |run| && id in run[k].before.jobs
    requires IsTerminal(run[k].before.jobs[id].state) && !Retried(run[k], id)
    ensures id in run[k].after.jobs && run[k].after.jobs[id] == run[k].before.jobs[id]
  {
    hide RolloutStep, NewRow, Setback, Reachable;
    StepAt(run, k);
    assert JobStep(run[k].before, run[k].call, run[k].at, id, run[k].after.jobs[id]);
  }

  /** The call that completes a rollout leaves every one of its jobs terminal. */
  lemma CompletedMeansDone(run: seq<Moment>, k: nat, r: RolloutId)
    requires IsRun(run) && k < |run| && r in run[k].before.rollouts
    requires r in run[k].after.rollouts
    requires run[k].before.rollouts[r].status != Completed && run[k].after.rollouts[r].status == Completed
    ensures AllDone(run[k].after, r)
  {
    StepAt(run, k);
  }

  /** A paused rollout moves only when an operator resumes or cancels it. */
  lemma PausedUntilOperator(run: seq<Moment>, k: nat, r: RolloutId)
    requires IsRun(run) && k < |run| && r in run[k].before.rollouts
    requires r in run[k].after.rollouts
    requires run[k].before.rollouts[r].status == Paused && run[k].after.rollouts[r].status != Paused
    ensures run[k].call == Resume(r) || run[k].call == Call.CancelRollout(r)
  {
    StepAt(run, k);
  }

  /** A job is dispatched only for a rollout that is in CANARY or RUNNING, and in CANARY only a canary. */
  lemma DispatchNeedsOpenRollout(run: seq<Moment>, k: nat, id: JobId)
    requires IsRun(run) && k < |run| && Dispatched(run[k], id)
    ensures var job := run[k].before.jobs[id]; job.rollout in run[k].before.rollouts
    ensures var job := run[k].before.jobs[id]; var status := run[k].before.rollouts[job.rollout].status;
      status == Running || (status == Canary && job.isCanary)
    ensures var job := run[k].before.jobs[id];
      && (job.nextAttemptAt.Some? ==> job.nextAttemptAt.value <= run[k].at)
      && run[k].after.jobs[id] == Sent(job, run[k].at)
  {
    StepAt(run, k);
    assert JobStep(run[k].before, run[k].call, run[k].at, id, run[k].after.jobs[id]);
  }

  lemma {:induction false} ClosedStays(run: seq<Moment>, i: nat, k: nat, r: RolloutId)
    requires IsRun(run) && i <= k <= |run|
    requires r in At(run, i).rollouts && IsClosed(At(run, i).rollouts[r].status)
    ensures r in At(run, k).rollouts && IsClosed(At(run, k).rollouts[r].status)
    decreases k
  {
    if i < k {
      ClosedStays(run, i, k - 1, r);
      StepAt(run, k - 1);
    }
  }

  /** Once COMPLETED or CANCELLED, no job of the rollout is ever dispatched again. */
  lemma ClosedNeverDispatches(run: seq<Moment>, i: nat, k: nat, r: RolloutId, id: JobId)
    requires IsRun(run) && i <= k < |run|
    requires r in At(run, i).rollouts && IsClosed(At(run, i).rollouts[r].status)
    requires id in run[k].before.jobs && run[k].before.jobs[id].rollout == r
    ensures !Dispatched(run[k], id)
  {
    StepAt(run, k);
    if Dispatched(run[k], id) {
      ClosedStays(run, i, k, r);
      DispatchNeedsOpenRollout(run, k, id);
    }
  }

  /** So a retry in a closed rollout puts the job in the queue and leaves it there. */
  lemma RetryInClosedRolloutIsStranded(run: seq<Moment>, i: nat, k: nat, id: JobId)
    requires IsRun(run) && i < k < |run| && Retried(run[i], id)
    requires var r := run[i].before.jobs[id].rollout;
      r in run[i].before.rollouts && IsClosed(run[i].before.rollouts[r].status)
    ensures id in run[i].after.jobs && run[i].after.jobs[id].state == Queued
    ensures !Dispatched(run[k], id)
  {
    StepAt(run, i);
    StepAt(run, k);
    RowsStay(run, i, k);
    ClosedNeverDispatches(run, i, k, run[i].before.jobs[id].rollout, id);
  }

  // --- Jobs in flight ------------------------------------------------------------

  /** The one way a job enters flight outside a dispatch pass: a late report on a job back in the queue. */
  predicate LateReport(m: Moment, id: JobId) {
    m.call.Progress? && m.call.job == id && id in m.before.jobs && m.before.jobs[id].state == Queued
  }

  /** Any other job in flight after the call was in flight before it. */
  lemma FlightEntries(run: seq<Moment>, k: nat, id: JobId)
    requires IsRun(run) && k < |run| && id in Active(run[k].after)
    ensures id in Active(run[k].before) || Dispatched(run[k], id) || LateReport(run[k], id)
  {
    hide RolloutStep, Reachable;
    StepAt(run, k);
    if id in run[k].before.jobs {
      assert JobStep(run[k].before, run[k].call, run[k].at, id, run[k].after.jobs[id]);
    }
  }

  /**
   * "Active is at most the cap" is therefore kept by every call except a late
   * report, which no limit is checked against: it adds one to the jobs in
   * flight exactly when its job is back in the queue.
   */
  lemma LateReportAddsOne(db: Db, id: JobId, state: JobState, percent: int, now: Time)
    requires id in db.jobs && IsActive(state)
    ensures |Active(ApplyProgress(db, id, state, percent, now))|
         == |Active(db)| + (if db.jobs[id].state == Queued then 1 else 0)
  {
    var after := ApplyProgress(db, id, state, percent, now);
    if IsActive(db.jobs[id].state) || IsTerminal(db.jobs[id].state) {
      assert Active(after) == Active(db);
    } else {
      ActiveMoves(db, after, id);
    }
  }

  lemma CapKeptWithoutLateReports(run: seq<Moment>, k: nat, cap: nat)
    requires IsRun(run) && k < |run| && |Active(run[k].before)| <= cap
    requires run[k].call.Dispatch? ==> run[k].call.cap <= cap
    requires forall id :: !LateReport(run[k], id)
    ensures |Active(run[k].after)| <= cap
  {
    var m := run[k];
    assert Follows(run, k);
    if m.call.Dispatch? {
      DispatchRespectsLimits(m.before, m.call.fleet, m.call.cap, m.call.ids, m.at);
    } else {
      forall id | id in Active(m.after) ensures id in Active(m.before) {
        FlightEntries(run, k, id);
      }
      SubsetSize(Active(m.after), Active(m.before));
    }
  }

  lemma SubsetSize(a: set<JobId>, b: set<JobId>)
    requires a <= b
    ensures |a| <= |b|
  {
    assert b == a + (b - a);
  }

  // --- The canary gate ------------------------------------------------------------

  /** An operator's resume that the code did not refuse. */
  predicate ResumedIn(run: seq<Moment>, i: nat, r: RolloutId)
    requires i < |run|
  {
    && run[i].call == Resume(r)
    && r in run[i].before.rollouts && run[i].before.rollouts[r].status in {Paused, Soaking}
  }

  predicate ResumedBefore(run: seq<Moment>, k: nat, r: RolloutId)
    requires k <= |run|
  {
    exists i | 0 <= i < k :: ResumedIn(run, i, r)
  }

  /** The canaries had passed in the tables the call `i` left. */
  predicate PassedIn(run: seq<Moment>, i: nat, r: RolloutId)
    requires i < |run|
  {
    CanariesPassed(run[i].after, r)
  }

  predicate Soaked(run: seq<Moment>, i: nat, soakMinutes: nat, now: Time)
    requires i < |run|
  {
    soakMinutes > 0 ==> run[i].at + soakMinutes * 60_000 <= now
  }

  /** What must have happened before the fleet behind the canaries is let go. */
  predicate Released(run: seq<Moment>, k: nat, r: RolloutId, soakMinutes: nat, now: Time)
    requires k <= |run|
  {
    || ResumedBefore(run, k, r)
    || exists i | 0 <= i < k :: PassedIn(run, i, r) && Soaked(run, i, soakMinutes, now)
  }

  ghost predicate Gate(run: seq<Moment>, k: nat, r: RolloutId)
    requires k <= |run| && r in At(run, k).rollouts
  {
    var rollout := At(run, k).rollouts[r];
    && rollout.status != Pending
    && (rollout.status == Soaking ==>
          && rollout.canaryPassedAt.Some?
          && exists i | 0 <= i < k :: PassedIn(run, i, r) && run[i].at == rollout.canaryPassedAt.value)
    && (rollout.status == Running ==> k > 0 && Released(run, k, r, rollout.soakMinutes, run[k - 1].at))
  }

  lemma CreatedGate(run: seq<Moment>, k: nat, r: RolloutId)
    requires IsRun(run) && k < |run|
    requires r in run[k].after.rollouts && r !in run[k].before.rollouts && HasCanary(run[k].after, r)
    ensures Gate(run, k + 1, r)
  {
    StepAt(run, k);
    var id :| id in run[k].after.jobs && IsCanaryOf(run[k].after.jobs[id], r);
    assert NewRow(run[k].before, run[k].after, id);
  }

  lemma GateStep(run: seq<Moment>, k: nat, r: RolloutId)
    requires IsRun(run) && k < |run| && r in At(run, k).rollouts && r in At(run, k + 1).rollouts
    requires Gate(run, k, r)
    ensures Gate(run, k + 1, r)
  {
    StepAt(run, k);
    var m := run[k];
    var a, b := m.before.rollouts[r], m.after.rollouts[r];
    assert RolloutStep(m.call, m.at, r, a, m.after);
    if b.status == Soaking {
      if a.status == Soaking && b.canaryPassedAt == a.canaryPassedAt {
      } else {
        assert PassedIn(run, k, r) && run[k].at == b.canaryPassedAt.value;
      }
    } else if b.status == Running {
      if a.status == Running {
        assert run[k - 1].at <= run[k].at;
      } else if m.call == Resume(r) && a.status in {Paused, Soaking} {
        assert ResumedIn(run, k, r);
      } else if m.call == Promote && SoakOver(a, m.at) {
        var i :| 0 <= i < k && PassedIn(run, i, r) && run[i].at == a.canaryPassedAt.value;
        assert Soaked(run, i, b.soakMinutes, m.at);
      } else {
        assert PassedIn(run, k, r) && Soaked(run, k, b.soakMinutes, m.at);
      }
    }
  }

  /** A canary belongs to its rollout from the call that made them both. */
  lemma CanaryWasThere(run: seq<Moment>, k: nat, r: RolloutId)
    requires IsRun(run) && k < |run| && r in run[k].before.rollouts && HasCanary(run[k].after, r)
    ensures HasCanary(run[k].before, r)
  {
    StepAt(run, k);
    var id :| id in run[k].after.jobs && IsCanaryOf(run[k].after.jobs[id], r);
    assert IsCanaryOf(run[k].before.jobs[id], r);
  }

  lemma {:induction false} GateHolds(run: seq<Moment>, k: nat, r: RolloutId)
    requires IsRun(run) && k <= |run| && r in At(run, k).rollouts && HasCanary(At(run, k), r)
    ensures Gate(run, k, r)
    decreases k
  {
    hide Gate, RolloutStep, JobStep;
    StepAt(run, k - 1);
    if r in run[k - 1].before.rollouts {
      CanaryWasThere(run, k - 1, r);
      GateHolds(run, k - 1, r);
      GateStep(run, k - 1, r);
    } else {
      CreatedGate(run, k - 1, r);
    }
  }

  /**
   * The canary gate. In a rollout with canaries, no other job is dispatched
   * until an operator has resumed the rollout, or its canaries were all
   * terminal at one moment with none FAILED and at least one SUCCESS and, when
   * it soaks, `soakMinutes` have gone by since.
   */
  lemma FleetWaitsForCanaries(run: seq<Moment>, k: nat, id: JobId)
    requires IsRun(run) && k < |run| && Dispatched(run[k], id)
    requires !run[k].before.jobs[id].isCanary && HasCanary(run[k].before, run[k].before.jobs[id].rollout)
    ensures var r := run[k].before.jobs[id].rollout;
      r in run[k].before.rollouts && Released(run, k, r, run[k].before.rollouts[r].soakMinutes, run[k].at)
  {
    var r := run[k].before.jobs[id].rollout;
    StepAt(run, k);
    DispatchNeedsOpenRollout(run, k, id);
    GateHolds(run, k, r);
    if !ResumedBefore(run, k, r) {
      var soak := run[k].before.rollouts[r].soakMinutes;
      var i :| 0 <= i < k && PassedIn(run, i, r) && Soaked(run, i, soak, run[k - 1].at);
      assert Soaked(run, i, soak, run[k].at);
    }
  }

  // --- Attempts ---------------------------------------------------------------------

  /** Successful dispatches of the job since its last operator retry. */
  function Dispatches(run: seq<Moment>, k: nat, id: JobId): nat
    requires k <= |run|
  {
    if k == 0 || Retried(run[k - 1], id) then 0
    else Dispatches(run, k - 1, id) + (if Dispatched(run[k - 1], id) then 1 else 0)
  }

  /** Times a reconnecting box gave the job back, since its last operator retry. */
  function Reconnects(run: seq<Moment>, k: nat, id: JobId): nat
    requires k <= |run|
  {
    if k == 0 || Retried(run[k - 1], id) then 0
    else Reconnects(run, k - 1, id) + (if Reconnected(run[k - 1], id) then 1 else 0)
  }

  /** `retries` bounds the attempt of a job, strictly while it waits in the queue. */
  predicate Bounded(job: Job, retries: nat) {
    job.attempt <= retries && (job.state == Queued ==> job.attempt < retries)
  }

  lemma {:induction false} NeverSeenNeverCounted(run: seq<Moment>, k: nat, id: JobId)
    requires IsRun(run) && k <= |run| && id !in At(run, k).jobs
    ensures Dispatches(run, k, id) == 0 && Reconnects(run, k, id) == 0
    decreases k
  {
    if k > 0 {
      StepAt(run, k - 1);
      NeverSeenNeverCounted(run, k - 1, id);
    }
  }

  lemma AttemptStep(m: Moment, id: JobId, dispatches: nat, reconnects: nat)
    requires Valid(m.before) && id in m.before.jobs && id in m.after.jobs
    requires JobStep(m.before, m.call, m.at, id, m.after.jobs[id])
    requires var job := m.before.jobs[id]; var max := m.before.rollouts[job.rollout].maxAttempts;
      max >= 1 && job.attempt == dispatches && Bounded(job, max + reconnects)
    ensures var job := m.after.jobs[id]; var max := m.before.rollouts[job.rollout].maxAttempts;
      if Retried(m, id) then job.attempt == 0 && Bounded(job, max)
      else
        && job.attempt == dispatches + (if Dispatched(m, id) then 1 else 0)
        && Bounded(job, max + reconnects + (if Reconnected(m, id) then 1 else 0))
  {
  }

  /**
   * The attempt bound. A job's `attempt` is the number of times it was really
   * dispatched since the last operator retry, at most `maxAttempts` plus the
   * reconnect re-queues since then, and strictly less while it is QUEUED.
   */
  lemma {:induction false} AttemptsBounded(run: seq<Moment>, k: nat, id: JobId)
    requires IsRun(run) && k <= |run| && id in At(run, k).jobs
    ensures At(run, k).jobs[id].rollout in At(run, k).rollouts
    ensures var job := At(run, k).jobs[id]; var max := At(run, k).rollouts[job.rollout].maxAttempts;
      && max >= 1
      && job.attempt == Dispatches(run, k, id)
      && Bounded(job, max + Reconnects(run, k, id))
    decreases k
  {
    hide RolloutStep, JobStep, IsRun;
    var m := run[k - 1];
    StepAt(run, k - 1);
    if id in m.before.jobs {
      AttemptsBounded(run, k - 1, id);
      RowsStay(run, k - 1, k);
      AttemptStep(m, id, Dispatches(run, k - 1, id), Reconnects(run, k - 1, id));
    } else {
      FreshAttempts(run, k, id);
    }
  }

  lemma FreshAttempts(run: seq<Moment>, k: nat, id: JobId)
    requires IsRun(run) && 0 < k <= |run| && id in At(run, k).jobs && id !in run[k - 1].before.jobs
    ensures At(run, k).jobs[id].rollout in At(run, k).rollouts
    ensures At(run, k).rollouts[At(run, k).jobs[id].rollout].maxAttempts >= 1
    ensures At(run, k).jobs[id].attempt == 0 == Dispatches(run, k, id)
  {
    hide RolloutStep, JobStep;
    StepAt(run, k - 1);
    NeverSeenNeverCounted(run, k - 1, id);
    assert NewRow(run[k - 1].before, run[k - 1].after, id);
  }

  /**
   * So a job that no operator retries and no reconnect gives back is
   * dispatched at most `maxAttempts` times, however long the run.
   */
  lemma DispatchesAreFinite(run: seq<Moment>, id: JobId)
    requires IsRun(run) && id in At(run, |run|).jobs
    ensures At(run, |run|).jobs[id].rollout in At(run, |run|).rollouts
    ensures Dispatches(run, |run|, id)
      <= At(run, |run|).rollouts[At(run, |run|).jobs[id].rollout].maxAttempts + Reconnects(run, |run|, id)
  {
    AttemptsBounded(run, |run|, id);
  }

  // --- Backoff -------------------------------------------------------------------------

  lemma {:induction false} Pow2Grows(n: nat, m: nat)
    requires n <= m
    ensures Pow2(n) <= Pow2(m)
    decreases m
  {
    if n < m {
      Pow2Grows(n, m - 1);
    }
  }

  lemma MulGrows(base: nat, low: nat, high: nat)
    requires low <= high
    ensures base * low <= base * high
  {
    assert base * high == base * low + base * (high - low);
  }

  /**
   * The wait starts at the base, doubles with each failed attempt, and stops
   * at half an hour; so it never shrinks as attempts go up.
   */
  lemma BackoffDoublesToCeiling(base: nat, n: nat, m: nat)
    requires 1 <= n <= m
    ensures BackoffSeconds(base, 1) == Min(base, 1800)
    ensures BackoffSeconds(base, n + 1) == Min(2 * BackoffSeconds(base, n), 1800)
    ensures BackoffSeconds(base, n) <= BackoffSeconds(base, m) <= 1800
  {
    var low, high := Pow2(n - 1), Pow2(m - 1);
    Pow2Grows(n - 1, m - 1);
    assert base * low <= base * high by { MulGrows(base, low, high); }
    assert Pow2(n) == 2 * low;
    assert base * (2 * low) == 2 * (base * low);
  }

  /** The job was put back by a failure or a stall, to wait out its rollout's backoff. */
  ghost predicate HeldBack(m: Moment, id: JobId) {
    && Valid(m.before) && id in m.before.jobs && id in m.after.jobs
    && (m.call == Result(id, false) || (m.call.RequeueStalled? && id in m.call.stalled))
    && var rollout := m.before.rollouts[m.before.jobs[id].rollout];
    && rollout.retryBackoffSeconds > 0
    && m.after.jobs[id] == Setback(m.before.jobs[id], rollout, m.at)
    && m.after.jobs[id].state == Queued
  }

  ghost function HeldUntil(m: Moment, id: JobId): Time
    requires HeldBack(m, id)
  {
    m.at + BackoffSeconds(m.before.rollouts[m.before.jobs[id].rollout].retryBackoffSeconds, m.before.jobs[id].attempt) * 1000
  }

  /** Either the wait is over, or the job is terminal, or its row still says to wait. */
  predicate StillHeld(job: Job, attempt: nat, until: Time, now: Time) {
    || until <= now
    || IsTerminal(job.state)
    || (job.attempt == attempt && job.nextAttemptAt.Some? && until <= job.nextAttemptAt.value)
  }

  lemma HoldStep(m: Moment, id: JobId, attempt: nat, until: Time, base: nat, since: Time, prior: Time)
    requires Valid(m.before) && id in m.before.jobs && id in m.after.jobs
    requires JobStep(m.before, m.call, m.at, id, m.after.jobs[id])
    requires !Retried(m, id) && !Reconnected(m, id)
    requires base > 0 && base == m.before.rollouts[m.before.jobs[id].rollout].retryBackoffSeconds
    requires until == since + BackoffSeconds(base, attempt) * 1000 && since <= m.at && prior <= m.at
    requires StillHeld(m.before.jobs[id], attempt, until, prior)
    ensures StillHeld(m.after.jobs[id], attempt, until, m.at)
  {
  }

  /** What `HoldStep` needs to know of the call `k`, some time after the call `i`. */
  lemma HeldStepAt(run: seq<Moment>, i: nat, k: nat, id: JobId)
    requires IsRun(run) && i < k < |run|
    requires Valid(run[i].before) && id in run[i].before.jobs && id in At(run, k).jobs
    ensures var m := run[k];
      && m.before == At(run, k) && m.after == At(run, k + 1)
      && Valid(m.before) && id in m.before.jobs && id in m.after.jobs
      && JobStep(m.before, m.call, m.at, id, m.after.jobs[id])
      && run[i].at <= m.at && run[k - 1].at <= m.at
      && run[i].before.rollouts[run[i].before.jobs[id].rollout].retryBackoffSeconds
           == m.before.rollouts[m.before.jobs[id].rollout].retryBackoffSeconds
  {
    StepAt(run, i);
    StepAt(run, k);
    TimesOrdered(run, i, k);
    RowsStay(run, i, k);
    var a, b := run[i].before.jobs[id], run[k].before.jobs[id];
    assert SameOwner(a, b) && SameTerms(run[i].before.rollouts[a.rollout], run[k].before.rollouts[b.rollout]);
  }

  lemma HoldBegins(m: Moment, id: JobId)
    requires HeldBack(m, id)
    ensures StillHeld(m.after.jobs[id], m.before.jobs[id].attempt, HeldUntil(m, id), m.at)
  {
  }

  lemma {:induction false} HoldLasts(run: seq<Moment>, i: nat, k: nat, id: JobId)
    requires IsRun(run) && i < k <= |run| && HeldBack(run[i], id)
    requires forall j | i < j < k :: !Retried(run[j], id) && !Reconnected(run[j], id)
    ensures id in At(run, k).jobs
    ensures StillHeld(At(run, k).jobs[id], run[i].before.jobs[id].attempt, HeldUntil(run[i], id), run[k - 1].at)
    decreases k
  {
    hide JobStep, StillHeld, IsRun, StepOk, Retried, Reconnected, BackoffSeconds;
    if i + 1 == k {
      StepAt(run, i);
      HoldBegins(run[i], id);
    } else {
      HoldLasts(run, i, k - 1, id);
      HeldStepAt(run, i, k - 1, id);
      var job := run[i].before.jobs[id];
      HoldStep(run[k - 1], id, job.attempt, HeldUntil(run[i], id),
        run[i].before.rollouts[job.rollout].retryBackoffSeconds, run[i].at, run[k - 2].at);
    }
  }

  /**
   * A job put back by a failure or a stall is not dispatched again before its
   * backoff is over, unless an operator retried it or a reconnect cleared it.
   */
  lemma BackoffIsHonoured(run: seq<Moment>, i: nat, k: nat, id: JobId)
    requires IsRun(run) && i < k < |run| && HeldBack(run[i], id) && Dispatched(run[k], id)
    requires forall j | i < j < k :: !Retried(run[j], id) && !Reconnected(run[j], id)
    ensures run[k].at >= HeldUntil(run[i], id)
  {
    HoldLasts(run, i, k, id);
    StepAt(run, k);
    DispatchNeedsOpenRollout(run, k, id);
  }
}
