// What can still happen to a job that waits in the queue: exactly when it can
// still be dispatched, and that the bound on attempts is reached.

module RolloutProgress {
  import opened Numbers
  import opened Options
  import opened RolloutModel
  import opened DispatchModel
  import opened RolloutSteps
  import opened RolloutRuns

  // --- Status ---------------------------------------------------------------------------

  /** No rollout is PENDING, and one in CANARY has a canary. */
  ghost predicate Sound(db: Db, r: RolloutId)
    requires r in db.rollouts
  {
    && db.rollouts[r].status != Pending
    && (db.rollouts[r].status == Canary ==> HasCanary(db, r))
  }

  /** The first of the canaries is one of the selection, and its job says so. */
  lemma NewCanary(
      r: RolloutId, ids: seq<JobId>, targets: seq<Target>, plan: Plan, canaries: seq<Target>, now: Time)
      returns (id: JobId)
    requires |ids| == |targets| && Distinct(ids) && canaries != [] && canaries[0] in targets
    ensures id in ids && IsCanaryOf(NewJobs(r, ids, targets, plan, canaries, now)[id], r)
  {
    var i :| 0 <= i < |targets| && targets[i] == canaries[0];
    id := ids[i];
    assert NewJobs(r, ids, targets, plan, canaries, now)[ids[i]] == NewJob(r, targets[i], plan, canaries, now);
  }

  lemma SoundRecomputed(db: Db, r: RolloutId, now: Time)
    requires r in db.rollouts && Sound(db, r)
    ensures Sound(Recompute(db, r, now), r)
  {
    var after := Recompute(db, r, now);
    if after.rollouts[r].status == Canary {
      var id :| id in db.jobs && IsCanaryOf(db.jobs[id], r);
      assert id in after.jobs && IsCanaryOf(after.jobs[id], r);
    }
  }

  lemma CreatedSound(db: Db, l: Call, now: Time)
    requires Valid(db) && l.Create? && Enabled(db, l, now) && CreationOf(l.version, l.targets) == Created
    ensures l.rollout in Apply(db, l, now).rollouts && Sound(Apply(db, l, now), l.rollout)
  {
    var r, canaries := l.rollout, Canaries(l.targets, l.plan);
    var jobs := NewJobs(r, l.ids, l.targets, l.plan, canaries, now);
    var created := Db(db.jobs + jobs, db.rollouts[r := NewRollout(l.plan, canaries)]);
    if canaries != [] {
      assert canaries[0] in l.targets;
      var id := NewCanary(r, l.ids, l.targets, l.plan, canaries, now);
      assert id in created.jobs && created.jobs[id] == jobs[id];
    }
    SoundRecomputed(created, r, now);
  }

  lemma SoundStep(run: seq<Moment>, k: nat, r: RolloutId)
    requires IsRun(run) && k < |run| && r in run[k].before.rollouts && Sound(run[k].before, r)
    ensures r in run[k].after.rollouts && Sound(run[k].after, r)
  {
    StepAt(run, k);
    var m := run[k];
    assert RolloutStep(m.call, m.at, r, m.before.rollouts[r], m.after);
    if m.after.rollouts[r].status == Canary {
      var id :| id in m.before.jobs && IsCanaryOf(m.before.jobs[id], r);
      assert IsCanaryOf(m.after.jobs[id], r);
    }
  }

  lemma {:induction false} StatusSound(run: seq<Moment>, k: nat, r: RolloutId)
    requires IsRun(run) && k <= |run| && r in At(run, k).rollouts
    ensures Sound(At(run, k), r)
    decreases k
  {
    StepAt(run, k - 1);
    if r in run[k - 1].before.rollouts {
      StatusSound(run, k - 1, r);
      SoundStep(run, k - 1, r);
    } else {
      assert Follows(run, k - 1);
      CreatedSound(run[k - 1].before, run[k - 1].call, run[k - 1].at);
    }
  }

  // --- Going on ---------------------------------------------------------------------------

  ghost predicate RunTo(run: seq<Moment>, db: Db, now: Time) {
    IsRun(run) && At(run, |run|) == db && (run != [] ==> run[|run| - 1].at <= now)
  }

  /** The runs that end in this state by this time. */
  ghost function Runs(db: Db, now: Time): iset<seq<Moment>> {
    iset run | RunTo(run, db, now)
  }

  ghost predicate Continues(run: seq<Moment>, ends: iset<seq<Moment>>) {
    exists more: seq<Moment> :: run + more in ends
  }

  ghost predicate AllContinue(runs: iset<seq<Moment>>, ends: iset<seq<Moment>>) {
    forall run | run in runs :: Continues(run, ends)
  }

  /** Every run to the one state can be continued, at this time, to the other. */
  ghost predicate Leads(db: Db, now: Time, after: Db) {
    AllContinue(Runs(db, now), Runs(after, now))
  }

  lemma OneMoreCall(run: seq<Moment>, db: Db, call: Call, now: Time)
    requires RunTo(run, db, now) && Valid(db) && Enabled(db, call, now)
    ensures RunTo(run + [Moment(call, now, db, Apply(db, call, now))], Apply(db, call, now), now)
  {
    var longer := run + [Moment(call, now, db, Apply(db, call, now))];
    forall i | 0 <= i < |longer| ensures Follows(longer, i) {
      if i < |run| { assert Follows(run, i); }
    }
  }

  lemma LeadsNext(db: Db, call: Call, now: Time)
    requires Valid(db) && Enabled(db, call, now)
    ensures Leads(db, now, Apply(db, call, now))
  {
    var m := Moment(call, now, db, Apply(db, call, now));
    forall run | run in Runs(db, now) ensures Continues(run, Runs(Apply(db, call, now), now)) {
      OneMoreCall(run, db, call, now);
      assert run + [m] in Runs(Apply(db, call, now), now);
    }
  }

  lemma ContinuesOn(run: seq<Moment>, middle: iset<seq<Moment>>, ends: iset<seq<Moment>>)
    requires Continues(run, middle) && AllContinue(middle, ends)
    ensures Continues(run, ends)
  {
    var more: seq<Moment> :| run + more in middle;
    assert Continues(run + more, ends);
    var rest: seq<Moment> :| run + more + rest in ends;
    assert run + more + rest == run + (more + rest);
  }

  lemma AllContinueOn(runs: iset<seq<Moment>>, middle: iset<seq<Moment>>, ends: iset<seq<Moment>>)
    requires AllContinue(runs, middle) && AllContinue(middle, ends)
    ensures AllContinue(runs, ends)
  {
    forall run | run in runs ensures Continues(run, ends) {
      ContinuesOn(run, middle, ends);
    }
  }

  lemma LeadsOn(a: Db, b: Db, c: Db, now: Time)
    requires Leads(a, now, b) && Leads(b, now, c)
    ensures Leads(a, now, c)
  {
    AllContinueOn(Runs(a, now), Runs(b, now), Runs(c, now));
  }

  lemma LeadsNowhere(db: Db, now: Time)
    ensures Leads(db, now, db)
  {
    forall run | run in Runs(db, now) ensures Continues(run, Runs(db, now)) {
      assert run + [] == run;
    }
  }

  // --- Clearing the way ---------------------------------------------------------------------

  /** Only the rows in `xs` may differ, not in whose they are; and the rollout `r` is as it was. */
  ghost predicate Keeps(db: Db, after: Db, r: RolloutId, xs: set<JobId>) {
    && Valid(after)
    && after.jobs.Keys == db.jobs.Keys
    && (forall id | id in db.jobs ::
          if id in xs then SameOwner(db.jobs[id], after.jobs[id]) else after.jobs[id] == db.jobs[id])
    && r in db.rollouts && r in after.rollouts && after.rollouts[r] == db.rollouts[r]
  }

  /** A job that keeps its rollout from being judged or done. */
  predicate Holds(db: Db, w: JobId, r: RolloutId) {
    && w in db.jobs && r in db.rollouts
    && db.jobs[w].rollout == r && !IsTerminal(db.jobs[w].state)
    && (db.rollouts[r].status == Canary ==> db.jobs[w].isCanary)
  }

  lemma CancelOther(db: Db, x: JobId, w: JobId, r: RolloutId, now: Time)
    requires Valid(db) && x in db.jobs && x != w && Holds(db, w, r)
    ensures Keeps(db, RolloutModel.CancelJob(db, x, now), r, {x})
    ensures IsTerminal(RolloutModel.CancelJob(db, x, now).jobs[x].state)
  {
    var job := db.jobs[x];
    if !IsTerminal(job.state) && job.rollout == r {
      RecomputeIdle(db.(jobs := db.jobs[x := job.(state := JobState.Cancelled, finishedAt := Some(now))]), r, w, now);
    }
  }

  lemma KeepsOn(db: Db, mid: Db, after: Db, r: RolloutId, x: JobId, rest: set<JobId>)
    requires Keeps(db, mid, r, {x}) && Keeps(mid, after, r, rest)
    ensures Keeps(db, after, r, {x} + rest)
  {
  }

  lemma {:induction false} CancelAll(db: Db, xs: set<JobId>, w: JobId, r: RolloutId, now: Time) returns (after: Db)
    requires Valid(db) && xs <= db.jobs.Keys && w !in xs && Holds(db, w, r)
    ensures Leads(db, now, after) && Keeps(db, after, r, xs)
    ensures forall x | x in xs :: IsTerminal(after.jobs[x].state)
    decreases |xs|
  {
    hide Leads, IsTerminal;
    if xs == {} {
      after := db;
      LeadsNowhere(db, now);
    } else {
      var x :| x in xs;
      CancelOther(db, x, w, r, now);
      LeadsNext(db, Call.CancelJob(x), now);
      var mid := RolloutModel.CancelJob(db, x, now);
      after := CancelAll(mid, xs - {x}, w, r, now);
      KeepsOn(db, mid, after, r, x, xs - {x});
      assert {x} + (xs - {x}) == xs;
      LeadsOn(db, mid, after, now);
    }
  }

  // --- Sending one job --------------------------------------------------------------------

  predicate WaitOver(job: Job, now: Time) {
    job.nextAttemptAt == None || job.nextAttemptAt.value <= now
  }

  ghost predicate Sendable(db: Db, id: JobId, now: Time) {
    && Valid(db) && id in db.jobs
    && var job := db.jobs[id];
    && job.state == Queued && WaitOver(job, now)
    && Lets(db.rollouts[job.rollout], job)
  }

  /** The rollout's status lets the job go, and its limit is not to send nothing. */
  predicate Lets(rollout: Rollout, job: Job) {
    && (rollout.status == Running || (rollout.status == Canary && job.isCanary))
    && rollout.maxConcurrency != Some(0)
  }

  /** Nothing but this job's box is online, and nothing but this job goes through. */
  function OnlyTo(job: Job, id: JobId): Fleet {
    Fleet({job.device}, {job.device}, map[], map[], {job.rollout}, {job.rollout}, {id})
  }

  lemma {:induction false} FirstIsSent(db: Db, cap: nat, ids: seq<JobId>, now: Time)
    requires Valid(db) && ids != [] && (forall id :: id in ids ==> id in db.jobs)
    requires cap > |Active(db)| && Sendable(db, ids[0], now)
    ensures ids[0] in Visits(db, OnlyTo(db.jobs[ids[0]], ids[0]), cap, ids, now).sent
    decreases |ids|
  {
    var id, fleet := ids[0], OnlyTo(db.jobs[ids[0]], ids[0]);
    var job := db.jobs[id];
    if |ids| == 1 {
      var p := StartPass(db, fleet, cap);
      assert ids[..0] == [];
      assert Reachable(fleet, job, db.rollouts[job.rollout]) && !GroupFull(p, fleet, job);
      assert !RolloutFull(p, job, db.rollouts[job.rollout]);
    } else {
      FirstIsSent(db, cap, ids[..|ids| - 1], now);
    }
  }

  function SendCall(db: Db, ids: seq<JobId>): Call
    requires ids != [] && ids[0] in db.jobs
  {
    Call.Dispatch(OnlyTo(db.jobs[ids[0]], ids[0]), |Active(db)| + 1, ids)
  }

  /** Such a pass sends the first of its candidates and no other. */
  lemma SendsFirst(db: Db, ids: seq<JobId>, now: Time)
    requires ids != [] && Sendable(db, ids[0], now)
    requires IsCandidateList(db, OnlyTo(db.jobs[ids[0]], ids[0]), now, ids)
    ensures Enabled(db, SendCall(db, ids), now)
    ensures var after := Apply(db, SendCall(db, ids), now);
      && after.rollouts == db.rollouts && after.jobs.Keys == db.jobs.Keys
      && after.jobs[ids[0]] == Sent(db.jobs[ids[0]], now)
      && forall id | id in db.jobs && id != ids[0] :: Untouched(db.jobs[id], after.jobs[id])
  {
    hide Visits, Counted, Reachable;
    var fleet, cap := OnlyTo(db.jobs[ids[0]], ids[0]), |Active(db)| + 1;
    VisitsKeep(db, fleet, cap, ids, now);
    FirstIsSent(db, cap, ids, now);
  }

  /** The jobs queued for the job's box, but for those in `but`. */
  function Rivals(db: Db, id: JobId, but: set<JobId>): set<JobId>
    requires id in db.jobs
  {
    set x | x in db.jobs && x !in but && db.jobs[x].device == db.jobs[id].device && db.jobs[x].state == Queued
  }

  lemma ListsAlone(db: Db, id: JobId, now: Time)
    requires Sendable(db, id, now) && Rivals(db, id, {id}) == {}
    ensures IsCandidateList(db, OnlyTo(db.jobs[id], id), now, [id])
  {
    forall x | x in db.jobs && x != id ensures !IsCandidate(db, OnlyTo(db.jobs[id], id), now, x) {
      assert x !in Rivals(db, id, {id});
    }
  }

  /** A canary is listed before a job of the fleet for the same box. */
  lemma ListsBefore(db: Db, c: JobId, j: JobId, now: Time)
    requires Sendable(db, c, now) && db.jobs[c].isCanary && Rivals(db, c, {c, j}) == {}
    requires j in db.jobs && db.jobs[j].rollout == db.jobs[c].rollout && db.jobs[j].device == db.jobs[c].device
    requires !db.jobs[j].isCanary && db.jobs[j].state == Queued && WaitOver(db.jobs[j], now)
    ensures IsCandidateList(db, OnlyTo(db.jobs[c], c), now, [c, j])
  {
    forall x | x in db.jobs && x != c && x != j ensures !IsCandidate(db, OnlyTo(db.jobs[c], c), now, x) {
      assert x !in Rivals(db, c, {c, j});
    }
  }

  // --- Out of CANARY ------------------------------------------------------------------------

  /** The job waits, ready to go, in a rollout with these settings. */
  ghost predicate Waits(db: Db, j: JobId, r: RolloutId, canary: bool, now: Time) {
    && Valid(db) && j in db.jobs
    && db.jobs[j].rollout == r && db.jobs[j].isCanary == canary
    && db.jobs[j].state == Queued && WaitOver(db.jobs[j], now)
    && db.rollouts[r].maxConcurrency != Some(0)
  }

  ghost predicate WaitsInCanary(db: Db, j: JobId, r: RolloutId, c: JobId, now: Time) {
    && Waits(db, j, r, false, now)
    && db.rollouts[r].status == Canary
    && c in db.jobs && IsCanaryOf(db.jobs[c], r)
  }

  /** A canary that is terminal or waiting, back in the queue at once. */
  lemma RequeueCanary(db: Db, j: JobId, r: RolloutId, c: JobId, now: Time) returns (after: Db)
    requires WaitsInCanary(db, j, r, c, now) && CanRetry(db, c)
    ensures Leads(db, now, after) && WaitsInCanary(after, j, r, c, now) && Sendable(after, c, now)
  {
    var fresh' := db.jobs[c].(
      state := Queued, progress := 0, attempt := 0, nextAttemptAt := None, queuedAt := now,
      dispatchedAt := None, startedAt := None, heartbeatAt := None, finishedAt := None);
    RecomputeIdle(db.(jobs := db.jobs[c := fresh']), r, c, now);
    LeadsNext(db, Retry(c), now);
    after := RetryJob(db, c, now);
  }

  /** The candidates when only `j` and the canary may be queued for its box. */
  function CanaryList(db: Db, j: JobId, c: JobId): seq<JobId>
    requires j in db.jobs && c in db.jobs
  {
    if db.jobs[j].device == db.jobs[c].device then [c, j] else [c]
  }

  lemma CanarySent(db: Db, after: Db, j: JobId, r: RolloutId, c: JobId, now: Time)
    requires WaitsInCanary(db, j, r, c, now) && c != j
    requires after.rollouts == db.rollouts && after.jobs.Keys == db.jobs.Keys
    requires after.jobs[c] == Sent(db.jobs[c], now)
    requires forall id | id in db.jobs && id != c :: Untouched(db.jobs[id], after.jobs[id])
    ensures WaitsInCanary(after, j, r, c, now) && IsActive(after.jobs[c].state)
  {
  }

  /** Its box cleared of every other job, the canary is sent. */
  lemma SendCanaryAlone(db: Db, j: JobId, r: RolloutId, c: JobId, now: Time) returns (after: Db)
    requires WaitsInCanary(db, j, r, c, now) && Sendable(db, c, now) && Rivals(db, c, {c, j}) == {}
    ensures Leads(db, now, after) && WaitsInCanary(after, j, r, c, now) && IsActive(after.jobs[c].state)
  {
    hide Leads, IsCandidateList, Untouched, Sent;
    var ids := CanaryList(db, j, c);
    if |ids| == 2 {
      ListsBefore(db, c, j, now);
    } else {
      assert Rivals(db, c, {c}) == {};
      ListsAlone(db, c, now);
    }
    SendsFirst(db, ids, now);
    LeadsNext(db, SendCall(db, ids), now);
    after := Apply(db, SendCall(db, ids), now);
    CanarySent(db, after, j, r, c, now);
  }

  lemma SendCanary(db: Db, j: JobId, r: RolloutId, c: JobId, now: Time) returns (after: Db)
    requires WaitsInCanary(db, j, r, c, now) && Sendable(db, c, now)
    ensures Leads(db, now, after) && WaitsInCanary(after, j, r, c, now) && IsActive(after.jobs[c].state)
  {
    var mid := CancelAll(db, Rivals(db, c, {c, j}), c, r, now);
    NoRivals(db, mid, c, {c, j}, r);
    assert WaitsInCanary(mid, j, r, c, now) && Sendable(mid, c, now) by {
      assert j !in Rivals(db, c, {c, j}) && c !in Rivals(db, c, {c, j});
    }
    after := SendCanaryAlone(mid, j, r, c, now);
    LeadsOn(db, mid, after, now);
  }

  lemma NoRivals(db: Db, after: Db, id: JobId, but: set<JobId>, r: RolloutId)
    requires id in db.jobs && id in but && Keeps(db, after, r, Rivals(db, id, but))
    requires forall x | x in Rivals(db, id, but) :: IsTerminal(after.jobs[x].state)
    ensures id in after.jobs && Rivals(after, id, but) == {}
  {
    assert id !in Rivals(db, id, but);
    forall x | x in after.jobs && x !in but && after.jobs[x].device == after.jobs[id].device
      ensures after.jobs[x].state != Queued
    {
      if x in Rivals(db, id, but) { assert IsTerminal(after.jobs[x].state); }
    }
  }

  /** The other canaries cancelled, the canary's success is judged at once. */
  lemma JudgeCanary(db: Db, j: JobId, r: RolloutId, c: JobId, now: Time) returns (after: Db)
    requires WaitsInCanary(db, j, r, c, now) && IsActive(db.jobs[c].state)
    ensures Leads(db, now, after) && Waits(after, j, r, false, now)
    ensures after.rollouts[r].status in {Running, Soaking, Paused}
  {
    var others := set x | x in db.jobs && x != c && IsCanaryOf(db.jobs[x], r);
    var mid := CancelAll(db, others, c, r, now);
    assert j !in others && c !in others;
    var settled := mid.(jobs := mid.jobs[c := mid.jobs[c].(state := Success, progress := 100, finishedAt := Some(now))]);
    forall x | x in settled.jobs && IsCanaryOf(settled.jobs[x], r) ensures IsTerminal(settled.jobs[x].state) {
      if x != c { assert x in others; }
    }
    assert IsCanaryOf(settled.jobs[c], r) && settled.jobs[c].state == Success;
    assert !AllDone(settled, r) by { assert settled.jobs[j].rollout == r && !IsTerminal(settled.jobs[j].state); }
    assert HasCanary(settled, r) && CanaryDone(settled, r) && CanaryIn(settled, r, Success);
    LeadsNext(mid, Result(c, true), now);
    after := CompleteJob(mid, c, true, now);
    assert after == Recompute(settled, r, now);
    LeadsOn(db, mid, after, now);
  }

  /** So the fleet behind a canary can be let go. */
  lemma LeaveCanary(db: Db, j: JobId, r: RolloutId, now: Time) returns (after: Db)
    requires Waits(db, j, r, false, now) && db.rollouts[r].status == Canary && HasCanary(db, r)
    ensures Leads(db, now, after) && Waits(after, j, r, false, now)
    ensures after.rollouts[r].status in {Running, Soaking, Paused}
  {
    var c :| c in db.jobs && IsCanaryOf(db.jobs[c], r);
    var mid := db;
    LeadsNowhere(db, now);
    if !IsActive(db.jobs[c].state) {
      var queued := RequeueCanary(db, j, r, c, now);
      mid := SendCanary(queued, j, r, c, now);
      LeadsOn(db, queued, mid, now);
    }
    after := JudgeCanary(mid, j, r, c, now);
    LeadsOn(db, mid, after, now);
  }

  lemma ResumeIt(db: Db, j: JobId, r: RolloutId, canary: bool, now: Time) returns (after: Db)
    requires Waits(db, j, r, canary, now) && db.rollouts[r].status in {Soaking, Paused}
    ensures Leads(db, now, after) && Waits(after, j, r, canary, now) && after.rollouts[r].status == Running
  {
    LeadsNext(db, Resume(r), now);
    after := ResumeRollout(db, r, now);
  }

  /** The rollout brought to a status that lets the job go. */
  lemma OpenUp(db: Db, j: JobId, r: RolloutId, canary: bool, now: Time) returns (after: Db)
    requires Waits(db, j, r, canary, now) && Sound(db, r) && !IsClosed(db.rollouts[r].status)
    ensures Leads(db, now, after) && Waits(after, j, r, canary, now) && Sendable(after, j, now)
  {
    after := db;
    LeadsNowhere(db, now);
    if db.rollouts[r].status == Canary && !canary {
      after := LeaveCanary(db, j, r, now);
    }
    if after.rollouts[r].status in {Soaking, Paused} {
      var mid := after;
      after := ResumeIt(mid, j, r, canary, now);
      LeadsOn(db, mid, after, now);
    }
  }

  /** And the job is the only one for its box. */
  lemma SendIt(db: Db, j: JobId, now: Time) returns (last: Db)
    requires Sendable(db, j, now)
    ensures Leads(db, now, last) && j in last.jobs && last.jobs[j].state == Queued
    ensures Valid(last) && Enabled(last, SendCall(last, [j]), now)
    ensures var after := Apply(last, SendCall(last, [j]), now);
      j in after.jobs && after.jobs[j].state == JobState.Dispatched
  {
    var r := db.jobs[j].rollout;
    last := CancelAll(db, Rivals(db, j, {j}), j, r, now);
    NoRivals(db, last, j, {j}, r);
    assert j !in Rivals(db, j, {j});
    ListsAlone(last, j, now);
    SendsFirst(last, [j], now);
  }

  // --- When a queued job can still go ---------------------------------------------------------

  /** Some run that goes on from this one dispatches the job. */
  ghost predicate CanGo(run: seq<Moment>, id: JobId) {
    exists more: seq<Moment>, k: nat ::
      && IsRun(run + more) && |run| <= k < |run + more|
      && RolloutRuns.Dispatched((run + more)[k], id)
  }

  /** A limit of nothing sends nothing. */
  lemma {:induction false} NoneAtZero(db: Db, fleet: Fleet, cap: nat, ids: seq<JobId>, now: Time, id: JobId)
    requires Valid(db) && (forall x :: x in ids ==> x in db.jobs)
    requires id in db.jobs
    ensures db.rollouts[db.jobs[id].rollout].maxConcurrency == Some(0) ==> id !in Visits(db, fleet, cap, ids, now).sent
    decreases |ids|
  {
    if ids != [] {
      NoneAtZero(db, fleet, cap, ids[..|ids| - 1], now, id);
    }
  }

  lemma DispatchedUnderLimit(run: seq<Moment>, k: nat, id: JobId)
    requires IsRun(run) && k < |run| && RolloutRuns.Dispatched(run[k], id)
    ensures run[k].before.jobs[id].rollout in run[k].before.rollouts
    ensures run[k].before.rollouts[run[k].before.jobs[id].rollout].maxConcurrency != Some(0)
  {
    hide Visits, Counted;
    var m := run[k];
    assert Follows(run, k);
    VisitsKeep(m.before, m.call.fleet, m.call.cap, m.call.ids, m.at);
    NoneAtZero(m.before, m.call.fleet, m.call.cap, m.call.ids, m.at, id);
    assert id in Visits(m.before, m.call.fleet, m.call.cap, m.call.ids, m.at).sent;
  }

  lemma Extended(run: seq<Moment>, more: seq<Moment>)
    requires IsRun(run + more)
    ensures IsRun(run) && At(run + more, |run|) == At(run, |run|)
  {
    forall i | 0 <= i < |run| ensures Follows(run, i) {
      assert Follows(run + more, i) && (run + more)[i] == run[i];
      assert At(run + more, i) == At(run, i);
    }
  }

  lemma GoesOnlyIfOpen(run: seq<Moment>, id: JobId)
    requires IsRun(run) && id in At(run, |run|).jobs && CanGo(run, id)
    ensures var db := At(run, |run|); db.jobs[id].rollout in db.rollouts
    ensures var db := At(run, |run|); var rollout := db.rollouts[db.jobs[id].rollout];
      !IsClosed(rollout.status) && rollout.maxConcurrency != Some(0)
  {
    var more: seq<Moment>, k: nat :|
      IsRun(run + more) && |run| <= k < |run + more| && RolloutRuns.Dispatched((run + more)[k], id);
    var all, db := run + more, At(run, |run|);
    Extended(run, more);
    RowsStay(run, |run|, |run|);
    RowsStay(all, |run|, k);
    StepAt(all, k);
    var r := db.jobs[id].rollout;
    assert r in db.rollouts && all[k].before.jobs[id].rollout == r;
    DispatchedUnderLimit(all, k, id);
    if IsClosed(db.rollouts[r].status) { ClosedNeverDispatches(all, |run|, k, r, id); }
  }

  function Latest(run: seq<Moment>, job: Job): Time {
    Max(if run == [] then 0 else run[|run| - 1].at, if job.nextAttemptAt.Some? then job.nextAttemptAt.value else 0)
  }

  /** With one call more. */
  lemma GoesLast(run: seq<Moment>, last: Db, id: JobId, now: Time)
    requires Continues(run, Runs(last, now)) && id in last.jobs && last.jobs[id].state == Queued
    requires Valid(last) && Enabled(last, SendCall(last, [id]), now)
    requires var after := Apply(last, SendCall(last, [id]), now);
      id in after.jobs && after.jobs[id].state == JobState.Dispatched
    ensures CanGo(run, id)
  {
    var more: seq<Moment> :| run + more in Runs(last, now);
    var m := Moment(SendCall(last, [id]), now, last, Apply(last, SendCall(last, [id]), now));
    OneMoreCall(run + more, last, m.call, now);
    assert run + more + [m] == run + (more + [m]);
    assert IsRun(run + (more + [m])) && (run + (more + [m]))[|run + more|] == m && RolloutRuns.Dispatched(m, id);
  }

  lemma GoesIfOpen(run: seq<Moment>, id: JobId)
    requires IsRun(run) && id in At(run, |run|).jobs && At(run, |run|).jobs[id].state == Queued
    requires var db := At(run, |run|); db.jobs[id].rollout in db.rollouts
    requires var db := At(run, |run|); var rollout := db.rollouts[db.jobs[id].rollout];
      !IsClosed(rollout.status) && rollout.maxConcurrency != Some(0)
    ensures CanGo(run, id)
  {
    var db := At(run, |run|);
    var job := db.jobs[id];
    var now := Latest(run, job);
    RowsStay(run, |run|, |run|);
    StatusSound(run, |run|, job.rollout);
    var free := OpenUp(db, id, job.rollout, job.isCanary, now);
    var last := SendIt(free, id, now);
    LeadsOn(db, free, last, now);
    assert run in Runs(db, now) && Continues(run, Runs(last, now));
    GoesLast(run, last, id, now);
  }

  /**
   * A job in the queue, retried or not, can still be dispatched if and only
   * if its rollout is neither COMPLETED nor CANCELLED and not limited to
   * nothing: whatever its status otherwise, whatever became of its canaries
   * and however long the job has to wait.
   */
  lemma QueuedCanGoIff(run: seq<Moment>, id: JobId)
    requires IsRun(run) && id in At(run, |run|).jobs && At(run, |run|).jobs[id].state == Queued
    ensures var db := At(run, |run|); db.jobs[id].rollout in db.rollouts
    ensures var db := At(run, |run|); var rollout := db.rollouts[db.jobs[id].rollout];
      CanGo(run, id) <==> !IsClosed(rollout.status) && rollout.maxConcurrency != Some(0)
  {
    RowsStay(run, |run|, |run|);
    if CanGo(run, id) {
      GoesOnlyIfOpen(run, id);
    } else {
      var db := At(run, |run|);
      var rollout := db.rollouts[db.jobs[id].rollout];
      if !IsClosed(rollout.status) && rollout.maxConcurrency != Some(0) { GoesIfOpen(run, id); }
    }
  }

  /**
   * And it does not take luck: a candidate whose box is reached and whose
   * message is taken is dispatched by the very pass that lists it, if the
   * pass ends with room under each of its limits.
   */
  lemma ReadyIsSent(run: seq<Moment>, k: nat, id: JobId)
    requires IsRun(run) && k < |run| && run[k].call.Dispatch? && id in run[k].call.ids
    requires id in run[k].before.jobs && id in run[k].call.fleet.accepts
    requires run[k].before.jobs[id].rollout in run[k].before.rollouts
    requires var m := run[k]; var job := m.before.jobs[id]; var rollout := m.before.rollouts[job.rollout];
      && job.device in m.call.fleet.online && job.rollout in m.call.fleet.cached
      && (rollout.status == Canary ==> job.isCanary)
      && (rollout.mode == Auto ==> job.rollout in m.call.fleet.windowOpen)
      && |Active(m.after)| < m.call.cap
      && HasRoomInGroup(m.after, m.call.fleet, job)
      && (rollout.maxConcurrency.Some? ==>
            |ActiveInRollout(m.after, job.rollout)|
              < |ActiveInRollout(m.before, job.rollout)| + rollout.maxConcurrency.value)
    ensures RolloutRuns.Dispatched(run[k], id)
  {
    hide Visits, Counted, Reachable, ActiveInGroup, ActiveInRollout, Active;
    var m := run[k];
    assert Follows(run, k);
    assert IsCandidate(m.before, m.call.fleet, m.at, id);
    VisitsKeep(m.before, m.call.fleet, m.call.cap, m.call.ids, m.at);
    if m.after.jobs[id].state == Queued {
      DispatchIsGreedy(m.before, m.call.fleet, m.call.cap, m.call.ids, m.at, id);
    }
  }

  predicate HasRoomInGroup(db: Db, fleet: Fleet, job: Job) {
    job.device in fleet.group && fleet.group[job.device] in fleet.groupLimit ==>
      |ActiveInGroup(db, fleet, fleet.group[job.device])| < fleet.groupLimit[fleet.group[job.device]]
  }

  // --- The bound on attempts is reached --------------------------------------------------------

  /** A rollout that holds back nothing. */
  function LoneRollout(max: nat): Rollout {
    Rollout(Running, Manual, 0, None, max, 0, None, None)
  }

  /** One job, alone in such a rollout. */
  function LoneDb(job: Job, max: nat): Db {
    Db(map[0 := job], map[0 := LoneRollout(max)])
  }

  predicate IsLone(job: Job, attempt: nat, state: JobState) {
    && job.rollout == 0 && job.device == 0 && !job.isCanary && job.nextAttemptAt == None
    && job.attempt == attempt && job.state == state
  }

  ghost function LoneRuns(db: Db, reconnects: nat): iset<seq<Moment>> {
    iset run | RunTo(run, db, 0) && Reconnects(run, |run|, 0) == reconnects
  }

  /** Every run to the one state, with `n` reconnects, can be continued to the other, with `m`. */
  ghost predicate Wears(db: Db, n: nat, after: Db, m: nat) {
    AllContinue(LoneRuns(db, n), LoneRuns(after, m))
  }

  lemma {:induction false} ReconnectsBefore(run: seq<Moment>, more: seq<Moment>, k: nat, id: JobId)
    requires k <= |run|
    ensures Reconnects(run + more, k, id) == Reconnects(run, k, id)
    decreases k
  {
    if k > 0 { ReconnectsBefore(run, more, k - 1, id); }
  }

  lemma Wear(db: Db, call: Call, n: nat, after: Db, next: nat)
    requires Valid(db) && Enabled(db, call, 0) && !call.Retry? && after == Apply(db, call, 0)
    requires next == n + (if Reconnected(Moment(call, 0, db, after), 0) then 1 else 0)
    ensures Wears(db, n, after, next)
  {
    var m := Moment(call, 0, db, after);
    forall run | run in LoneRuns(db, n) ensures Continues(run, LoneRuns(after, next)) {
      OneMoreCall(run, db, call, 0);
      ReconnectsBefore(run, [m], |run|, 0);
      assert run + [m] in LoneRuns(after, next);
    }
  }

  lemma CreateLone(max: nat) returns (job: Job)
    requires max >= 1
    ensures Wears(Empty(), 0, LoneDb(job, max), 0) && IsLone(job, 0, Queued)
  {
    var targets, version := [Target(0, true, false)], Some(Version(true, true, true));
    var plan := Plan(Manual, 0, 0, None, max, 0, false);
    var call := Create(0, [0], version, targets, plan);
    var jobs := NewJobs(0, [0], targets, plan, [], 0);
    assert Canaries(targets, plan) == [];
    assert jobs[[0][0]] == NewJob(0, targets[0], plan, [], 0);
    job := jobs[0];
    assert jobs == map[0 := job];
    RecomputeIdle(LoneDb(job, max), 0, 0, 0);
    assert Apply(Empty(), call, 0) == LoneDb(job, max);
    Wear(Empty(), call, 0, LoneDb(job, max), 0);
  }

  lemma LoneIsSent(job: Job, max: nat, attempt: nat)
    requires IsLone(job, attempt, Queued)
    ensures var db := LoneDb(job, max);
      && Valid(db) && Enabled(db, SendCall(db, [0]), 0)
      && Apply(db, SendCall(db, [0]), 0) == LoneDb(Sent(job, 0), max)
  {
    var db := LoneDb(job, max);
    assert Rivals(db, 0, {0}) == {};
    ListsAlone(db, 0, 0);
    SendsFirst(db, [0], 0);
    assert Apply(db, SendCall(db, [0]), 0).jobs == map[0 := Sent(job, 0)];
  }

  lemma SendLone(job: Job, max: nat, attempt: nat, n: nat) returns (sent: Job)
    requires IsLone(job, attempt, Queued)
    ensures Wears(LoneDb(job, max), n, LoneDb(sent, max), n) && IsLone(sent, attempt + 1, JobState.Dispatched)
  {
    LoneIsSent(job, max, attempt);
    sent := Sent(job, 0);
    Wear(LoneDb(job, max), SendCall(LoneDb(job, max), [0]), n, LoneDb(sent, max), n);
  }

  lemma FailLone(job: Job, max: nat, attempt: nat, n: nat) returns (failed: Job)
    requires IsLone(job, attempt, JobState.Dispatched) && attempt < max
    ensures Wears(LoneDb(job, max), n, LoneDb(failed, max), n) && IsLone(failed, attempt, Queued)
  {
    failed := Setback(job, LoneRollout(max), 0);
    RecomputeIdle(LoneDb(failed, max), 0, 0, 0);
    assert LoneDb(job, max).jobs[0 := failed] == LoneDb(failed, max).jobs;
    Wear(LoneDb(job, max), Result(0, false), n, LoneDb(failed, max), n);
  }

  /** The box reconnects without the job. */
  lemma ReconnectLone(job: Job, max: nat, attempt: nat, n: nat) returns (given: Job)
    requires IsLone(job, attempt, JobState.Dispatched)
    ensures Wears(LoneDb(job, max), n, LoneDb(given, max), n + 1) && IsLone(given, attempt, Queued)
  {
    given := Unclaimed(job);
    assert RolloutModel.Reconcile(LoneDb(job, max), 0, None).jobs == map[0 := given];
    Wear(LoneDb(job, max), Call.Reconcile(0, None), n, LoneDb(given, max), n + 1);
  }

  lemma WearsOn(a: Db, i: nat, b: Db, j: nat, c: Db, k: nat)
    requires Wears(a, i, b, j) && Wears(b, j, c, k)
    ensures Wears(a, i, c, k)
  {
    AllContinueOn(LoneRuns(a, i), LoneRuns(b, j), LoneRuns(c, k));
  }

  /** To a box that holds the job for the last time its rollout allows, and then `n` times more. */
  lemma {:induction false} WearOut(max: nat, attempt: nat, n: nat) returns (job: Job)
    requires 1 <= attempt <= max
    ensures Wears(Empty(), 0, LoneDb(job, max), n) && IsLone(job, attempt + n, JobState.Dispatched)
    decreases n, attempt
  {
    hide Wears, LoneDb, IsLone, Empty;
    var given: Job;
    if n > 0 {
      var held := WearOut(max, attempt, n - 1);
      given := ReconnectLone(held, max, attempt + n - 1, n - 1);
      WearsOn(Empty(), 0, LoneDb(held, max), n - 1, LoneDb(given, max), n);
    } else if attempt > 1 {
      var held := WearOut(max, attempt - 1, 0);
      given := FailLone(held, max, attempt - 1, 0);
      WearsOn(Empty(), 0, LoneDb(held, max), 0, LoneDb(given, max), 0);
    } else {
      given := CreateLone(max);
    }
    job := SendLone(given, max, attempt + n - 1, n);
    WearsOn(Empty(), 0, LoneDb(given, max), n, LoneDb(job, max), n);
  }

  /**
   * The bound of `AttemptsBounded` is reached, for every limit and every
   * number of reconnects: a job that used up its attempts is given back and
   * dispatched again as often as its box reconnects without it.
   */
  lemma AttemptBoundIsReached(max: nat, n: nat) returns (run: seq<Moment>, id: JobId)
    requires max >= 1
    ensures IsRun(run) && id in At(run, |run|).jobs
    ensures var db := At(run, |run|);
      && db.jobs[id].rollout in db.rollouts && db.rollouts[db.jobs[id].rollout].maxAttempts == max
      && Reconnects(run, |run|, id) == n
      && Dispatches(run, |run|, id) == db.jobs[id].attempt == max + n
  {
    var job := WearOut(max, max, n);
    assert [] in LoneRuns(Empty(), 0) && Continues([], LoneRuns(LoneDb(job, max), n));
    var more: seq<Moment> :| [] + more in LoneRuns(LoneDb(job, max), n);
    run, id := [] + more, 0;
    AttemptsBounded(run, |run|, 0);
  }
}
