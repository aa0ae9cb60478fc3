// The rollout and job tables of the hub and what one service call does to
// them: apps/hub/src/services/jobs.ts, rollouts.ts, scheduler.ts and
// `reconcileJobs` of apps/hub/src/ws/deviceSocket.ts.
//
// Every function here is one atomic step on a `Db` value. `Hub.dfy` holds the
// row-updating code that is proved to compute exactly these steps, and
// `RolloutRuns.dfy` what follows for whole runs.

module RolloutModel {
  import opened Numbers
  import opened Options

  // Keys of the tables. Only their equality matters.
  type JobId = nat
  type RolloutId = nat
  type DeviceId = nat
  type GroupId = nat

  /** Milliseconds, as `Date.now()` counts them. */
  type Time = nat

  datatype JobState =
    | Queued | Dispatched | Downloading | Extracting | Installing | Verifying
    | Success | Failed | Cancelled | Skipped

  datatype Status = Pending | Canary | Soaking | Running | Paused | Completed | Cancelled

  datatype Mode = Manual | Auto

  datatype Job = Job(
    rollout: RolloutId,
    device: DeviceId,
    isCanary: bool,
    state: JobState,
    progress: nat,
    attempt: nat,
    queuedAt: Time,
    nextAttemptAt: Option<Time>,
    dispatchedAt: Option<Time>,
    startedAt: Option<Time>,
    heartbeatAt: Option<Time>,
    finishedAt: Option<Time>)

  datatype Rollout = Rollout(
    status: Status,
    mode: Mode,
    soakMinutes: nat,
    maxConcurrency: Option<nat>,
    maxAttempts: nat,
    retryBackoffSeconds: nat,
    canaryPassedAt: Option<Time>,
    finishedAt: Option<Time>)

  datatype Db = Db(jobs: map<JobId, Job>, rollouts: map<RolloutId, Rollout>)

  predicate IsTerminal(s: JobState) {
    s in {Success, Failed, JobState.Cancelled, Skipped}
  }

  predicate IsActive(s: JobState) {
    s in {Dispatched, Downloading, Extracting, Installing, Verifying}
  }

  /** COMPLETED and CANCELLED: the statuses `recomputeRollout` never touches. */
  predicate IsClosed(s: Status) {
    s == Completed || s == Status.Cancelled
  }

  /** The foreign key from a job to its rollout. */
  ghost predicate Valid(db: Db) {
    forall id :: id in db.jobs ==> db.jobs[id].rollout in db.rollouts
  }

  // --- Rolling job states up into the rollout -------------------------------

  predicate AllDone(db: Db, r: RolloutId) {
    forall id | id in db.jobs :: db.jobs[id].rollout == r ==> IsTerminal(db.jobs[id].state)
  }

  predicate IsCanaryOf(job: Job, r: RolloutId) {
    job.rollout == r && job.isCanary
  }

  predicate HasCanary(db: Db, r: RolloutId) {
    exists id | id in db.jobs :: IsCanaryOf(db.jobs[id], r)
  }

  predicate CanaryDone(db: Db, r: RolloutId) {
    forall id | id in db.jobs :: IsCanaryOf(db.jobs[id], r) ==> IsTerminal(db.jobs[id].state)
  }

  predicate CanaryIn(db: Db, r: RolloutId, s: JobState) {
    exists id | id in db.jobs :: IsCanaryOf(db.jobs[id], r) && db.jobs[id].state == s
  }

  /** Every canary terminal, none FAILED, at least one SUCCESS. */
  predicate CanariesPassed(db: Db, r: RolloutId) {
    CanaryDone(db, r) && !CanaryIn(db, r, Failed) && CanaryIn(db, r, Success)
  }

  /** `recomputeRollout`: canary finishes, then soak, then the fleet, then done. */
  function Recompute(db: Db, r: RolloutId, now: Time): (after: Db)
    ensures after.jobs == db.jobs
    ensures after.rollouts.Keys == db.rollouts.Keys
  {
    if r !in db.rollouts || IsClosed(db.rollouts[r].status) then db
    else
      var rollout := db.rollouts[r];
      var judged := rollout.status == Canary && HasCanary(db, r) && CanaryDone(db, r);
      var passed := judged && !CanaryIn(db, r, Failed) && CanaryIn(db, r, Success);
      var status :=
        if judged && CanaryIn(db, r, Failed) then Paused
        else if passed then (if rollout.soakMinutes > 0 then Soaking else Running)
        else rollout.status;
      var done := AllDone(db, r) && status != Paused;
      var updated := rollout.(
        status := if done then Completed else status,
        canaryPassedAt := if passed then Some(now) else rollout.canaryPassedAt,
        finishedAt := if done then Some(now) else rollout.finishedAt);
      db.(rollouts := db.rollouts[r := updated])
  }

  // --- Backoff ---------------------------------------------------------------

  const BACKOFF_CEILING_SECONDS: nat := 30 * 60

  function Pow2(n: nat): (p: nat)
    ensures p >= 1
  {
    if n == 0 then 1 else 2 * Pow2(n - 1)
  }

  /** Seconds a job that just failed attempt `attempt` is held for. */
  function BackoffSeconds(base: nat, attempt: nat): (s: nat) {
    Min(base * Pow2(Max(0, attempt - 1)), BACKOFF_CEILING_SECONDS)
  }

  function NextAttemptAt(base: nat, attempt: nat, now: Time): Option<Time> {
    if base == 0 then None else Some(now + BackoffSeconds(base, attempt) * 1000)
  }

  // --- One job ----------------------------------------------------------------

  function ApplyProgress(db: Db, id: JobId, state: JobState, progress: int, now: Time): Db {
    if id !in db.jobs || IsTerminal(db.jobs[id].state) then db
    else
      var job := db.jobs[id];
      db.(jobs := db.jobs[id := job.(
        state := state,
        progress := Max(0, Min(100, progress)),
        heartbeatAt := Some(now),
        startedAt := if job.startedAt == None then Some(now) else job.startedAt)])
  }

  /** A heartbeat names the job the box is on. */
  function Heartbeat(db: Db, id: JobId, now: Time): Db {
    if id !in db.jobs || !IsActive(db.jobs[id].state) then db
    else db.(jobs := db.jobs[id := db.jobs[id].(heartbeatAt := Some(now))])
  }

  /** A job that failed or stalled: back to the queue while attempts are left. */
  function Setback(job: Job, rollout: Rollout, now: Time): Job {
    if job.attempt < rollout.maxAttempts then
      job.(state := Queued, progress := 0, finishedAt := None,
           nextAttemptAt := NextAttemptAt(rollout.retryBackoffSeconds, job.attempt, now))
    else
      job.(state := Failed, progress := 0, finishedAt := Some(now), nextAttemptAt := None)
  }

  function CompleteJob(db: Db, id: JobId, ok: bool, now: Time): Db
    requires Valid(db)
  {
    if id !in db.jobs || IsTerminal(db.jobs[id].state) then db
    else
      var job := db.jobs[id];
      var settled :=
        if ok then job.(state := Success, progress := 100, finishedAt := Some(now))
        else Setback(job, db.rollouts[job.rollout], now);
      Recompute(db.(jobs := db.jobs[id := settled]), job.rollout, now)
  }

  predicate CanRetry(db: Db, id: JobId) {
    id in db.jobs && (IsTerminal(db.jobs[id].state) || db.jobs[id].state == Queued)
  }

  function RetryJob(db: Db, id: JobId, now: Time): Db {
    if !CanRetry(db, id) then db
    else
      var job := db.jobs[id];
      var fresh' := job.(
        state := Queued, progress := 0, attempt := 0, nextAttemptAt := None, queuedAt := now,
        dispatchedAt := None, startedAt := None, heartbeatAt := None, finishedAt := None);
      Recompute(db.(jobs := db.jobs[id := fresh']), job.rollout, now)
  }

  function CancelJob(db: Db, id: JobId, now: Time): Db {
    if id !in db.jobs || IsTerminal(db.jobs[id].state) then db
    else
      var job := db.jobs[id];
      Recompute(
        db.(jobs := db.jobs[id := job.(state := JobState.Cancelled, finishedAt := Some(now))]),
        job.rollout, now)
  }

  // --- Many jobs ----------------------------------------------------------------

  ghost predicate Distinct(order: seq<JobId>) {
    forall i, j :: 0 <= i < j < |order| ==> order[i] != order[j]
  }

  /** A query result: every row of `rows` once, in whatever order it came. */
  ghost predicate Lists(order: seq<JobId>, rows: set<JobId>) {
    && Distinct(order)
    && (forall id :: id in order <==> id in rows)
  }

  predicate IsStalled(job: Job, cutoff: int) {
    && IsActive(job.state)
    && match job.heartbeatAt {
         case Some(beat) => beat < cutoff
         case None => job.dispatchedAt.Some? && job.dispatchedAt.value < cutoff
       }
  }

  function Stalled(db: Db, timeoutSeconds: nat, now: Time): set<JobId> {
    set id | id in db.jobs && IsStalled(db.jobs[id], now - timeoutSeconds * 1000)
  }

  /** One turn of the `requeueStalled` loop, on a row read before the loop began. */
  function RequeueOne(db: Db, id: JobId, now: Time): (after: Db)
    requires Valid(db) && id in db.jobs
    ensures Valid(after) && after.jobs.Keys == db.jobs.Keys
  {
    var job := db.jobs[id];
    Recompute(db.(jobs := db.jobs[id := Setback(job, db.rollouts[job.rollout], now)]), job.rollout, now)
  }

  function RequeueStalled(db: Db, stalled: seq<JobId>, now: Time): (after: Db)
    requires Valid(db) && forall id :: id in stalled ==> id in db.jobs
    ensures Valid(after) && after.jobs.Keys == db.jobs.Keys
    decreases |stalled|
  {
    if stalled == [] then db
    else
      var last := |stalled| - 1;
      RequeueOne(RequeueStalled(db, stalled[..last], now), stalled[last], now)
  }

  /** `reconcileJobs`: every active job of the box except the one it is on. */
  function Forgotten(db: Db, device: DeviceId, current: Option<JobId>): set<JobId> {
    set id | id in db.jobs && db.jobs[id].device == device && IsActive(db.jobs[id].state) && current != Some(id)
  }

  function Unclaimed(job: Job): Job {
    job.(state := Queued, progress := 0, nextAttemptAt := None, dispatchedAt := None, heartbeatAt := None)
  }

  function Reconcile(db: Db, device: DeviceId, current: Option<JobId>): Db {
    db.(jobs := map id | id in db.jobs ::
      if id in Forgotten(db, device, current) then Unclaimed(db.jobs[id]) else db.jobs[id])
  }

  // --- Rollouts -------------------------------------------------------------------

  /** One box of the selection, as `createRollout` read it. */
  datatype Target = Target(device: DeviceId, online: bool, upToDate: bool)

  /** The settings of a new rollout. */
  datatype Plan = Plan(
    mode: Mode,
    canaryCount: nat,
    soakMinutes: nat,
    maxConcurrency: Option<nat>,
    maxAttempts: nat,
    retryBackoffSeconds: nat,
    skipUpToDate: bool)

  /** What `createRollout` asks of the version. */
  datatype Version = Version(isReady: bool, hasArtifact: bool, hasDigest: bool)

  /** Its outcome: made, or one of the errors it throws before it writes anything. */
  datatype Creation = Created | NoVersion | NotCached | NoDevices

  function CreationOf(version: Option<Version>, targets: seq<Target>): Creation {
    match version
    case None => NoVersion
    case Some(v) =>
      if !v.isReady || !v.hasArtifact || !v.hasDigest then NotCached
      else if targets == [] then NoDevices
      else Created
  }

  predicate Eligible(t: Target, plan: Plan) {
    !plan.skipUpToDate || !t.upToDate
  }

  /** The boxes that need the version at all. */
  function EligibleOnly(targets: seq<Target>, plan: Plan): (r: seq<Target>)
    ensures forall t :: t in r <==> t in targets && Eligible(t, plan)
  {
    if targets == [] then []
    else (if Eligible(targets[0], plan) then [targets[0]] else []) + EligibleOnly(targets[1..], plan)
  }

  function WithOnline(targets: seq<Target>, online: bool): (r: seq<Target>)
    ensures forall t :: t in r <==> t in targets && t.online == online
  {
    if targets == [] then []
    else (if targets[0].online == online then [targets[0]] else []) + WithOnline(targets[1..], online)
  }

  /** Online boxes first, each half still by name: `targets` comes sorted by name. */
  function OnlineFirst(targets: seq<Target>): (r: seq<Target>)
    ensures forall t :: t in r <==> t in targets
  {
    WithOnline(targets, true) + WithOnline(targets, false)
  }

  /** The canaries: the first of the eligible boxes, those that are online first. */
  function Canaries(targets: seq<Target>, plan: Plan): (chosen: seq<Target>)
    ensures forall t :: t in chosen ==> t in targets && Eligible(t, plan)
  {
    var ordered := OnlineFirst(EligibleOnly(targets, plan));
    var count := Min(plan.canaryCount, |ordered|);
    assert ordered == ordered[..count] + ordered[count..];
    ordered[..count]
  }

  lemma {:induction false} OnlineFirstKeepsAll(targets: seq<Target>)
    ensures |OnlineFirst(targets)| == |targets|
    ensures |OnlineFirst(targets)| == |WithOnline(targets, true)| + |WithOnline(targets, false)|
  {
    if targets != [] {
      OnlineFirstKeepsAll(targets[1..]);
    }
  }

  /**
   * Canaries are boxes that can start now: as many as were asked for or need
   * the version, and an offline one only when every online box that needs it
   * is one too.
   */
  lemma CanariesPreferOnline(targets: seq<Target>, plan: Plan, t: Target, u: Target)
    ensures |Canaries(targets, plan)| <= plan.canaryCount
    ensures t in Canaries(targets, plan) ==> t in targets && !(plan.skipUpToDate && t.upToDate)
    ensures |Canaries(targets, plan)| < plan.canaryCount && u in targets && !(plan.skipUpToDate && u.upToDate)
      ==> u in Canaries(targets, plan)
    ensures t in Canaries(targets, plan) && !t.online && u in targets && !(plan.skipUpToDate && u.upToDate) && u.online
      ==> u in Canaries(targets, plan)
  {
    var eligible, chosen := EligibleOnly(targets, plan), Canaries(targets, plan);
    OnlineFirstKeepsAll(eligible);
    assert Eligible(t, plan) == !(plan.skipUpToDate && t.upToDate);
    assert Eligible(u, plan) == !(plan.skipUpToDate && u.upToDate);
    if |chosen| < plan.canaryCount {
      assert OnlineFirst(eligible)[..|eligible|] == OnlineFirst(eligible);
    }
    if t in chosen && !t.online && u in eligible && u.online {
      OnlineCutFirst(WithOnline(eligible, true), WithOnline(eligible, false), |chosen|, t, u);
    }
  }

  /** A cut that reaches the offline half has taken the whole online half. */
  lemma OnlineCutFirst(online: seq<Target>, offline: seq<Target>, n: nat, t: Target, u: Target)
    requires n <= |online| + |offline| && t in (online + offline)[..n] && t !in online && u in online
    ensures u in (online + offline)[..n]
  {
    var chosen := (online + offline)[..n];
    var i :| 0 <= i < n && chosen[i] == t;
    assert forall k | 0 <= k < n && k < |online| :: chosen[k] == online[k] && online[k] in online;
    var j :| 0 <= j < |online| && online[j] == u;
    assert chosen[j] == u;
  }

  function NewJob(r: RolloutId, t: Target, plan: Plan, canaries: seq<Target>, now: Time): Job {
    var skipped := plan.skipUpToDate && t.upToDate;
    Job(r, t.device, t in canaries, if skipped then Skipped else Queued, 0, 0, now,
        None, None, None, None, if skipped then Some(now) else None)
  }

  function NewRollout(plan: Plan, canaries: seq<Target>): Rollout {
    Rollout(if canaries != [] then Canary else Running, plan.mode, plan.soakMinutes,
            plan.maxConcurrency, plan.maxAttempts, plan.retryBackoffSeconds, None, None)
  }

  function NewJobs(
    r: RolloutId, ids: seq<JobId>, targets: seq<Target>, plan: Plan, canaries: seq<Target>, now: Time
  ): (jobs: map<JobId, Job>)
    requires |ids| == |targets| && Distinct(ids)
    ensures forall id :: id in jobs <==> id in ids
    ensures forall i | 0 <= i < |ids| :: jobs[ids[i]] == NewJob(r, targets[i], plan, canaries, now)
  {
    map i | 0 <= i < |ids| :: ids[i] := NewJob(r, targets[i], plan, canaries, now)
  }

  /** `createRollout`, given the ids the database hands out. */
  function CreateRollout(
    db: Db, r: RolloutId, ids: seq<JobId>, version: Option<Version>, targets: seq<Target>, plan: Plan, now: Time
  ): Db
    requires |ids| == |targets| && Distinct(ids)
  {
    if CreationOf(version, targets) != Created then db
    else
      var canaries := Canaries(targets, plan);
      var added := NewJobs(r, ids, targets, plan, canaries, now);
      Recompute(Db(db.jobs + added, db.rollouts[r := NewRollout(plan, canaries)]), r, now)
  }

  function CancelRollout(db: Db, r: RolloutId, now: Time): Db {
    var jobs := map id | id in db.jobs ::
      if db.jobs[id].rollout == r && !IsTerminal(db.jobs[id].state)
      then db.jobs[id].(state := JobState.Cancelled, finishedAt := Some(now))
      else db.jobs[id];
    Db(jobs,
       if r in db.rollouts
       then db.rollouts[r := db.rollouts[r].(status := Status.Cancelled, finishedAt := Some(now))]
       else db.rollouts)
  }

  /** Throws, changing nothing, unless the rollout is PAUSED or SOAKING. */
  function ResumeRollout(db: Db, r: RolloutId, now: Time): Db {
    if r !in db.rollouts || db.rollouts[r].status !in {Paused, Soaking} then db
    else
      var rollout := db.rollouts[r];
      db.(rollouts := db.rollouts[r := rollout.(
        status := Running,
        canaryPassedAt := if rollout.canaryPassedAt == None then Some(now) else rollout.canaryPassedAt)])
  }

  predicate SoakOver(rollout: Rollout, now: Time) {
    && rollout.status == Soaking
    && rollout.canaryPassedAt.Some?
    && rollout.canaryPassedAt.value + rollout.soakMinutes * 60_000 <= now
  }

  function PromoteSoaking(db: Db, now: Time): Db {
    db.(rollouts := map r | r in db.rollouts ::
      if SoakOver(db.rollouts[r], now) then db.rollouts[r].(status := Running) else db.rollouts[r])
  }
}
