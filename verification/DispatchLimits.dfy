// When a rollout's own limit bounds what is in flight, and what a socket that
// refuses costs a dispatch pass.

module DispatchLimits {
  import opened Numbers
  import opened Options
  import opened RolloutModel
  import opened DispatchModel

  // --- A rollout's limit ------------------------------------------------------------------

  /** In CANARY only canaries go; otherwise every candidate may. */
  predicate MayGo(db: Db, id: JobId)
    requires Valid(db) && id in db.jobs
  {
    db.rollouts[db.jobs[id].rollout].status == Canary ==> db.jobs[id].isCanary
  }

  /** How many of the candidates are jobs of the rollout that may go. */
  function Going(db: Db, ids: seq<JobId>, r: RolloutId): nat
    requires Valid(db) && forall id :: id in ids ==> id in db.jobs
    decreases |ids|
  {
    if ids == [] then 0
    else
      var last := ids[|ids| - 1];
      Going(db, ids[..|ids| - 1], r) + (if db.jobs[last].rollout == r && MayGo(db, last) then 1 else 0)
  }

  /** Nothing in the way: every box online in no group, every window open, every artifact cached, every send taken. */
  function AllClear(db: Db, approved: set<DeviceId>): Fleet {
    Fleet(set id | id in db.jobs :: db.jobs[id].device, approved, map[], map[],
          db.rollouts.Keys, db.rollouts.Keys, db.jobs.Keys)
  }

  lemma {:induction false} GainIsOfThoseGoing(db: Db, fleet: Fleet, cap: nat, ids: seq<JobId>, now: Time, r: RolloutId)
    requires Valid(db) && forall id :: id in ids ==> id in db.jobs
    ensures Get(Visits(db, fleet, cap, ids, now).rolloutActive, r) <= Going(db, ids, r)
    decreases |ids|
  {
    if ids != [] {
      GainIsOfThoseGoing(db, fleet, cap, ids[..|ids| - 1], now, r);
    }
  }

  /** With nothing in the way a pass sends as many of a rollout as may go, up to its limit. */
  lemma {:induction false} ClearPassFills(
      db: Db, approved: set<DeviceId>, cap: nat, ids: seq<JobId>, now: Time, r: RolloutId, limit: nat)
    requires Valid(db) && forall id :: id in ids ==> id in db.jobs
    requires cap >= |Active(db)| + |ids|
    requires r in db.rollouts && db.rollouts[r].maxConcurrency == Some(limit)
    ensures var p := Visits(db, AllClear(db, approved), cap, ids, now);
      && p.capacity >= cap - |Active(db)| - |ids|
      && Get(p.rolloutActive, r) == Min(limit, Going(db, ids, r))
    decreases |ids|
  {
    if ids != [] {
      var last := |ids| - 1;
      ClearPassFills(db, approved, cap, ids[..last], now, r, limit);
      ClearVisit(Visits(db, AllClear(db, approved), cap, ids[..last], now), db, approved, ids[last], now, r, limit);
    }
  }

  lemma ClearVisit(p: Pass, db: Db, approved: set<DeviceId>, id: JobId, now: Time, r: RolloutId, limit: nat)
    requires Valid(db) && id in db.jobs && id in p.db.jobs && p.capacity > 0
    requires r in db.rollouts && db.rollouts[r].maxConcurrency == Some(limit)
    ensures var q := Visit(p, db, AllClear(db, approved), id, now);
      && q.capacity >= p.capacity - 1
      && Get(q.rolloutActive, r) == Get(p.rolloutActive, r)
           + (if db.jobs[id].rollout == r && MayGo(db, id) && Get(p.rolloutActive, r) < limit then 1 else 0)
  {
    var fleet, job := AllClear(db, approved), db.jobs[id];
    assert job.device in fleet.online;
    assert Reachable(fleet, job, db.rollouts[job.rollout]) == MayGo(db, id);
    assert !GroupFull(p, fleet, job);
  }

  ghost predicate KeepsLimit(
      db: Db, approved: set<DeviceId>, ids: seq<JobId>, now: Time, r: RolloutId, limit: nat)
    requires Valid(db) && forall id :: id in ids ==> id in db.jobs
  {
    forall fleet: Fleet, cap: nat | fleet.approved == approved ::
      |ActiveInRollout(DispatchQueued(db, fleet, cap, ids, now), r)| <= limit
  }

  /**
   * When a rollout's limit does bound what is in flight. Whatever boxes are
   * online, whatever they accept and whatever the cap, a pass over these
   * candidates leaves no more than the limit in flight, if and only if what
   * is in flight already leaves room for all that a pass may add.
   */
  lemma LimitHoldsIff(
      db: Db, approved: set<DeviceId>, ids: seq<JobId>, now: Time, r: RolloutId, limit: nat)
    requires Valid(db) && IsCandidateList(db, AllClear(db, approved), now, ids)
    requires r in db.rollouts && db.rollouts[r].maxConcurrency == Some(limit)
    ensures KeepsLimit(db, approved, ids, now, r, limit)
       <==> |ActiveInRollout(db, r)| + Min(limit, Going(db, ids, r)) <= limit
  {
    var started := |ActiveInRollout(db, r)|;
    forall fleet: Fleet, cap: nat | fleet.approved == approved
      ensures |ActiveInRollout(DispatchQueued(db, fleet, cap, ids, now), r)| <= started + Min(limit, Going(db, ids, r))
    {
      VisitsKeep(db, fleet, cap, ids, now);
      assert RolloutCounted(Visits(db, fleet, cap, ids, now), db, r);
      GainIsOfThoseGoing(db, fleet, cap, ids, now, r);
    }
    var fleet, cap := AllClear(db, approved), |Active(db)| + |ids|;
    VisitsKeep(db, fleet, cap, ids, now);
    assert RolloutCounted(Visits(db, fleet, cap, ids, now), db, r);
    ClearPassFills(db, approved, cap, ids, now, r, limit);
    assert |ActiveInRollout(DispatchQueued(db, fleet, cap, ids, now), r)| == started + Min(limit, Going(db, ids, r));
  }

  // --- A socket that refuses -----------------------------------------------------------------

  function Without(ids: seq<JobId>, x: JobId): (rest: seq<JobId>)
    ensures forall id :: id in rest <==> id in ids && id != x
  {
    if ids == [] then []
    else
      var earlier, last := Without(ids[..|ids| - 1], x), ids[|ids| - 1];
      assert ids == ids[..|ids| - 1] + [last];
      if last == x then earlier else earlier + [last]
  }

  /** The two passes agree on everything but the row of `x`, which neither sent. */
  ghost predicate Alike(p: Pass, q: Pass, x: JobId, row: Job) {
    && (p.capacity, p.groupActive, p.rolloutActive, p.sent) == (q.capacity, q.groupActive, q.rolloutActive, q.sent)
    && p.db.rollouts == q.db.rollouts
    && AlikeRows(p.db.jobs, q.db.jobs, x, row)
  }

  ghost predicate AlikeRows(p: map<JobId, Job>, q: map<JobId, Job>, x: JobId, row: Job) {
    && x in p && x in q && q[x] == row && Untouched(row, p[x])
    && p == q[x := p[x]]
  }

  lemma AlikeRowsGoOn(p: map<JobId, Job>, q: map<JobId, Job>, x: JobId, row: Job, id: JobId, job: Job)
    requires AlikeRows(p, q, x, row) && id != x
    ensures AlikeRows(p[id := job], q[id := job], x, row)
  {
    assert p[id := job] == q[id := job][x := p[x]];
  }

  lemma AlikeGoesOn(p: Pass, q: Pass, snap: Db, fleet: Fleet, x: JobId, row: Job, id: JobId, now: Time)
    requires Valid(snap) && id in snap.jobs && id != x && Alike(p, q, x, row)
    requires id in p.db.jobs && id in q.db.jobs && p.db.jobs[id] == snap.jobs[id]
    requires snap.jobs[id].state == Queued && p.db.rollouts == snap.rollouts
    ensures Alike(Visit(p, snap, fleet, id, now), Visit(q, snap, fleet, id, now), x, row)
  {
    var job := snap.jobs[id];
    assert q.db.jobs[id] == job;
    AlikeRowsGoOn(p.db.jobs, q.db.jobs, x, row, id, Sent(job, now));
    AlikeRowsGoOn(p.db.jobs, q.db.jobs, x, row, id, Unsent(job.(progress := 0), job));
    VisitCases(p, snap, fleet, id, now);
    VisitCases(q, snap, fleet, id, now);
  }

  /** The visit of a candidate that is refused, or not offered at all. */
  lemma RefusedVisit(p: Pass, q: Pass, snap: Db, fleet: Fleet, x: JobId, now: Time)
    requires Valid(snap) && x in snap.jobs && x !in fleet.accepts && Alike(p, q, x, snap.jobs[x])
    requires p.db.jobs[x] == snap.jobs[x] && snap.jobs[x].state == Queued && p.db.rollouts == snap.rollouts
    ensures Alike(Visit(p, snap, fleet, x, now), q, x, snap.jobs[x])
  {
    VisitCases(p, snap, fleet, x, now);
  }

  /**
   * A candidate whose socket refuses costs the pass nothing: without it the
   * same jobs are sent in the same order, every counter ends the same and
   * every other row is the same, and its own row keeps its place in the queue.
   */
  lemma {:induction false} RefusalIsFree(db: Db, fleet: Fleet, cap: nat, ids: seq<JobId>, x: JobId, now: Time)
    requires Valid(db) && Distinct(ids) && x in db.jobs && x !in fleet.accepts
    requires forall id :: id in ids ==> id in db.jobs && db.jobs[id].state == Queued
    ensures Alike(Visits(db, fleet, cap, ids, now), Visits(db, fleet, cap, Without(ids, x), now), x, db.jobs[x])
    decreases |ids|
  {
    if ids != [] {
      var before, last := ids[..|ids| - 1], ids[|ids| - 1];
      RefusalIsFree(db, fleet, cap, before, x, now);
      VisitsKeep(db, fleet, cap, before, now);
      assert last !in before;
      var p, q := Visits(db, fleet, cap, before, now), Visits(db, fleet, cap, Without(before, x), now);
      if last == x {
        RefusedVisit(p, q, db, fleet, x, now);
      } else {
        AlikeGoesOn(p, q, db, fleet, x, db.jobs[x], last, now);
        assert (Without(before, x) + [last])[..|Without(before, x)|] == Without(before, x);
      }
    }
  }
}
