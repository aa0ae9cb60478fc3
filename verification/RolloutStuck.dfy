// How a rollout gets stuck behind its canaries, and what gets it out.

module RolloutStuck {
  import opened Options
  import opened RolloutModel
  import opened DispatchModel
  import opened RolloutSteps
  import opened RolloutRuns
  import opened RolloutProgress
  import opened RolloutDone

  // --- Stuck ------------------------------------------------------------------------------

  /** In CANARY with every canary over and nothing to judge them by, and with other jobs waiting. */
  ghost predicate Stuck(db: Db, r: RolloutId) {
    && r in db.rollouts && db.rollouts[r].status == Canary
    && CanaryDone(db, r) && !CanaryIn(db, r, Failed) && !CanaryIn(db, r, Success)
    && !AllDone(db, r)
  }

  /** A canary of the rollout is retried, the rollout is cancelled, or its last jobs end. */
  ghost predicate GetsUnstuck(m: Moment, r: RolloutId) {
    || (m.call.Retry? && m.call.job in m.before.jobs && IsCanaryOf(m.before.jobs[m.call.job], r))
    || m.call == Call.CancelRollout(r)
    || AllDone(m.after, r)
  }

  ghost predicate SendsNoneOf(m: Moment, r: RolloutId) {
    forall id | RolloutRuns.Dispatched(m, id) :: m.before.jobs[id].rollout != r
  }

  /** A job of a rollout that was there was there too. */
  lemma NotNew(m: Moment, id: JobId)
    requires Valid(m.before) && StepOk(m.before, m.call, m.at, m.after)
    requires id in m.after.jobs && m.after.jobs[id].rollout in m.before.rollouts
    ensures id in m.before.jobs
  {
  }

  /** An untouched canary that is over stays as it is, and no new one comes. */
  lemma CanaryStays(m: Moment, r: RolloutId, id: JobId)
    requires Valid(m.before) && StepOk(m.before, m.call, m.at, m.after)
    requires Stuck(m.before, r) && !GetsUnstuck(m, r)
    requires id in m.after.jobs && IsCanaryOf(m.after.jobs[id], r)
    ensures id in m.before.jobs && m.after.jobs[id] == m.before.jobs[id] && IsTerminal(m.after.jobs[id].state)
  {
    NotNew(m, id);
    assert JobStep(m.before, m.call, m.at, id, m.after.jobs[id]);
    assert IsCanaryOf(m.before.jobs[id], r);
  }

  lemma StuckStays(m: Moment, r: RolloutId)
    requires Valid(m.before) && StepOk(m.before, m.call, m.at, m.after)
    requires Stuck(m.before, r) && !GetsUnstuck(m, r)
    ensures Stuck(m.after, r)
  {
    forall id | id in m.after.jobs && IsCanaryOf(m.after.jobs[id], r)
      ensures id in m.before.jobs && m.after.jobs[id] == m.before.jobs[id] && IsTerminal(m.after.jobs[id].state)
    {
      CanaryStays(m, r, id);
    }
    assert CanaryDone(m.after, r) && !CanaryIn(m.after, r, Failed) && !CanaryIn(m.after, r, Success);
    assert RolloutStep(m.call, m.at, r, m.before.rollouts[r], m.after);
  }

  lemma StuckStep(run: seq<Moment>, k: nat, r: RolloutId)
    requires IsRun(run) && k < |run| && Stuck(At(run, k), r) && !GetsUnstuck(run[k], r)
    ensures Stuck(At(run, k + 1), r) && SendsNoneOf(run[k], r)
  {
    StepAt(run, k);
    StuckStays(run[k], r);
    forall id | RolloutRuns.Dispatched(run[k], id) ensures run[k].before.jobs[id].rollout != r {
      DispatchNeedsOpenRollout(run, k, id);
      assert !IsCanaryOf(run[k].before.jobs[id], r);
    }
  }

  /**
   * A rollout stuck behind its canaries stays so, and dispatches nothing,
   * until a canary is retried, the rollout is cancelled or its last jobs end.
   * No pass, no time, no report and no `resumeRollout` moves it.
   */
  lemma {:induction false} StuckUntilUnstuck(run: seq<Moment>, i: nat, k: nat, r: RolloutId)
    requires IsRun(run) && i <= k <= |run| && Stuck(At(run, i), r)
    requires forall j | i <= j < k :: !GetsUnstuck(run[j], r)
    ensures Stuck(At(run, k), r)
    ensures forall j | i <= j < k :: SendsNoneOf(run[j], r)
    decreases k
  {
    if i < k {
      StuckUntilUnstuck(run, i, k - 1, r);
      StuckStep(run, k - 1, r);
    }
  }

  // --- The way in ---------------------------------------------------------------------------

  /**
   * Cancelling the last canary in progress gets it there exactly when no
   * canary has a verdict and another job is unfinished.
   */
  lemma CancelGetsStuckIff(db: Db, c: JobId, r: RolloutId, now: Time)
    requires Valid(db) && c in db.jobs && IsCanaryOf(db.jobs[c], r) && !IsTerminal(db.jobs[c].state)
    requires db.rollouts[r].status == Canary
    requires forall x | x in db.jobs && x != c && IsCanaryOf(db.jobs[x], r) :: IsTerminal(db.jobs[x].state)
    ensures Stuck(RolloutModel.CancelJob(db, c, now), r)
       <==> (&& !CanaryIn(db, r, Failed) && !CanaryIn(db, r, Success)
             && exists x :: x in db.jobs && db.jobs[x].rollout == r && !IsTerminal(db.jobs[x].state) && x != c)
  {
    var after := RolloutModel.CancelJob(db, c, now);
    var written := db.(jobs := db.jobs[c := db.jobs[c].(state := JobState.Cancelled, finishedAt := Some(now))]);
    assert after.jobs == written.jobs && CanaryDone(written, r);
    assert IsCanaryOf(written.jobs[c], r);
    forall s | s in {Failed, Success} ensures CanaryIn(written, r, s) <==> CanaryIn(db, r, s) {
      if CanaryIn(db, r, s) {
        var x :| x in db.jobs && IsCanaryOf(db.jobs[x], r) && db.jobs[x].state == s;
        assert written.jobs[x] == db.jobs[x];
      }
      if CanaryIn(written, r, s) {
        var x :| x in written.jobs && IsCanaryOf(written.jobs[x], r) && written.jobs[x].state == s;
        assert written.jobs[x] == db.jobs[x];
      }
    }
    forall x | x in db.jobs && db.jobs[x].rollout == r && x != c ensures written.jobs[x] == db.jobs[x] {}
    assert AllDone(written, r) <==>
      forall x | x in db.jobs && db.jobs[x].rollout == r && x != c :: IsTerminal(db.jobs[x].state);
    assert AllDone(after, r) == AllDone(written, r);
  }

  /** A rollout in CANARY has a job that is not over. */
  predicate Unfinished(db: Db, r: RolloutId) {
    r in db.rollouts && db.rollouts[r].status == Canary ==> !AllDone(db, r)
  }

  /** In every run: a rollout in CANARY has a job that is not over. */
  lemma CanaryIsUnfinished(run: seq<Moment>, k: nat, r: RolloutId)
    requires IsRun(run) && k <= |run|
    ensures Unfinished(At(run, k), r)
  {
    if r in At(run, k).rollouts && AllDone(At(run, k), r) {
      DoneIsNotOpen(run, k, r);
    }
  }

  /** A verdict that is gone was retried away, which leaves a canary unfinished. */
  lemma VerdictStays(m: Moment, r: RolloutId, x: JobId)
    requires Valid(m.before) && StepOk(m.before, m.call, m.at, m.after) && CanaryDone(m.after, r)
    requires x in m.before.jobs && IsCanaryOf(m.before.jobs[x], r) && IsTerminal(m.before.jobs[x].state)
    ensures x in m.after.jobs && m.after.jobs[x] == m.before.jobs[x]
  {
    assert JobStep(m.before, m.call, m.at, x, m.after.jobs[x]);
    assert IsCanaryOf(m.after.jobs[x], r);
  }

  /** A canary that ends with no verdict was cancelled, by itself or with its rollout. */
  lemma EndsWithoutVerdict(m: Moment, r: RolloutId, c: JobId)
    requires Valid(m.before) && StepOk(m.before, m.call, m.at, m.after)
    requires c in m.before.jobs && IsCanaryOf(m.before.jobs[c], r) && !IsTerminal(m.before.jobs[c].state)
    requires c in m.after.jobs && IsTerminal(m.after.jobs[c].state) && m.after.jobs[c].state !in {Failed, Success}
    ensures m.call == Call.CancelJob(c) || m.call == Call.CancelRollout(r)
  {
    hide RolloutStep, Reachable, NewRow;
    assert JobStep(m.before, m.call, m.at, c, m.after.jobs[c]);
  }

  lemma NewIsNotStuck(run: seq<Moment>, k: nat, r: RolloutId)
    requires IsRun(run) && k < |run| && r !in At(run, k).rollouts
    ensures !Stuck(At(run, k + 1), r)
  {
    StepAt(run, k);
    var after := At(run, k + 1);
    if r in after.rollouts && after.rollouts[r].status == Canary {
      StatusSound(run, k + 1, r);
      var id :| id in after.jobs && IsCanaryOf(after.jobs[id], r);
      assert id in run[k].before.jobs || NewRow(run[k].before, after, id);
    }
  }

  lemma NoVerdictBefore(m: Moment, r: RolloutId)
    requires Valid(m.before) && StepOk(m.before, m.call, m.at, m.after) && Stuck(m.after, r)
    ensures !CanaryIn(m.before, r, Failed) && !CanaryIn(m.before, r, Success)
  {
    forall x | x in m.before.jobs && IsCanaryOf(m.before.jobs[x], r)
      ensures m.before.jobs[x].state !in {Failed, Success}
    {
      if IsTerminal(m.before.jobs[x].state) { VerdictStays(m, r, x); }
    }
  }

  lemma CancelCloses(m: Moment, r: RolloutId)
    requires IsStep(m) && m.call == Call.CancelRollout(r) && r in m.before.rollouts
    ensures r in m.after.rollouts && m.after.rollouts[r].status == Status.Cancelled
  {
  }

  /** Before the step that gets it stuck, some canary was in progress. */
  lemma CanaryInProgress(m: Moment, r: RolloutId) returns (c: JobId)
    requires Valid(m.before) && StepOk(m.before, m.call, m.at, m.after)
    requires r in m.before.rollouts && Unfinished(m.before, r) && !Stuck(m.before, r) && Stuck(m.after, r)
    ensures c in m.before.jobs && IsCanaryOf(m.before.jobs[c], r) && !IsTerminal(m.before.jobs[c].state)
  {
    assert RolloutStep(m.call, m.at, r, m.before.rollouts[r], m.after);
    NoVerdictBefore(m, r);
    c :| c in m.before.jobs && IsCanaryOf(m.before.jobs[c], r) && !IsTerminal(m.before.jobs[c].state);
  }

  lemma EntersByCancel(m: Moment, r: RolloutId) returns (c: JobId)
    requires IsStep(m) && StepOk(m.before, m.call, m.at, m.after)
    requires r in m.before.rollouts && Unfinished(m.before, r) && !Stuck(m.before, r) && Stuck(m.after, r)
    ensures m.call == Call.CancelJob(c)
    ensures c in m.before.jobs && IsCanaryOf(m.before.jobs[c], r) && !IsTerminal(m.before.jobs[c].state)
  {
    c := CanaryInProgress(m, r);
    SameCanaryAfter(m, r, c);
    EndsWithoutVerdict(m, r, c);
    if m.call == Call.CancelRollout(r) { CancelCloses(m, r); }
  }

  lemma SameCanaryAfter(m: Moment, r: RolloutId, c: JobId)
    requires Valid(m.before) && StepOk(m.before, m.call, m.at, m.after) && Stuck(m.after, r)
    requires c in m.before.jobs && IsCanaryOf(m.before.jobs[c], r)
    ensures c in m.after.jobs && IsTerminal(m.after.jobs[c].state) && m.after.jobs[c].state !in {Failed, Success}
  {
    assert JobStep(m.before, m.call, m.at, c, m.after.jobs[c]);
    assert IsCanaryOf(m.after.jobs[c], r);
  }

  /**
   * There is one way in: an operator cancels a canary in progress. With
   * `CancelGetsStuckIff` that says of every run when it gets stuck.
   */
  lemma OnlyCancelGetsStuck(run: seq<Moment>, k: nat, r: RolloutId) returns (c: JobId)
    requires IsRun(run) && k < |run| && !Stuck(At(run, k), r) && Stuck(At(run, k + 1), r)
    ensures run[k].call == Call.CancelJob(c)
    ensures var before := At(run, k);
      c in before.jobs && IsCanaryOf(before.jobs[c], r) && !IsTerminal(before.jobs[c].state)
  {
    WasThere(run, k, r);
    CanaryIsUnfinished(run, k, r);
    StepAt(run, k);
    assert Follows(run, k);
    c := EntersByCancel(run[k], r);
  }

  lemma WasThere(run: seq<Moment>, k: nat, r: RolloutId)
    requires IsRun(run) && k < |run| && Stuck(At(run, k + 1), r)
    ensures r in At(run, k).rollouts
  {
    if r !in At(run, k).rollouts { NewIsNotStuck(run, k, r); }
  }
}
