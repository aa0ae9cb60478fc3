// `dispatchQueued` of apps/hub/src/services/scheduler.ts: the greedy pass that
// hands queued jobs to boxes under a fleet cap, a cap per group and a cap per
// rollout, and what it guarantees about all three at once.

module DispatchModel {
  import opened Numbers
  import opened Options
  import opened RolloutModel

  /** What the pass reads besides the two tables, fixed while it runs. */
  datatype Fleet = Fleet(
    online: set<DeviceId>,
    approved: set<DeviceId>,
    group: map<DeviceId, GroupId>,
    groupLimit: map<GroupId, nat>,
    // AUTO rollouts whose target is inside its install window now.
    windowOpen: set<RolloutId>,
    // Rollouts whose artifact is cached on the hub.
    cached: set<RolloutId>,
    // Jobs whose message the socket takes when it is sent.
    accepts: set<JobId>)

  const CANDIDATES: nat := 500

  // --- Counting jobs in flight ------------------------------------------------

  function Active(db: Db): set<JobId> {
    set id | id in db.jobs && IsActive(db.jobs[id].state)
  }

  function GroupOf(fleet: Fleet, job: Job): Option<GroupId> {
    if job.device in fleet.group then Some(fleet.group[job.device]) else None
  }

  predicate InGroup(fleet: Fleet, job: Job, g: GroupId) {
    job.device in fleet.group && fleet.group[job.device] == g
  }

  function ActiveInGroup(db: Db, fleet: Fleet, g: GroupId): set<JobId> {
    set id | id in db.jobs && IsActive(db.jobs[id].state) && InGroup(fleet, db.jobs[id], g)
  }

  function ActiveInRollout(db: Db, r: RolloutId): set<JobId> {
    set id | id in db.jobs && IsActive(db.jobs[id].state) && db.jobs[id].rollout == r
  }

  // --- The candidate query ------------------------------------------------------

  ghost predicate IsCandidate(db: Db, fleet: Fleet, now: Time, id: JobId)
    requires Valid(db)
  {
    && id in db.jobs
    && var job := db.jobs[id];
    && job.state == Queued
    && db.rollouts[job.rollout].status in {Canary, Running}
    && job.device in fleet.approved
    && (job.nextAttemptAt == None || job.nextAttemptAt.value <= now)
  }

  /** Canaries first, then the job queued longest. */
  predicate NotAfter(a: Job, b: Job) {
    (a.isCanary && !b.isCanary) || (a.isCanary == b.isCanary && a.queuedAt <= b.queuedAt)
  }

  /** What the candidate query may return: the first 500 matching rows. */
  ghost predicate IsCandidateList(db: Db, fleet: Fleet, now: Time, ids: seq<JobId>)
    requires Valid(db)
  {
    && Distinct(ids)
    && |ids| <= CANDIDATES
    && (forall id :: id in ids ==> IsCandidate(db, fleet, now, id))
    && (forall i | 0 <= i < |ids| :: ids[i] in db.jobs)
    && (forall i, j | 0 <= i < j < |ids| :: NotAfter(db.jobs[ids[i]], db.jobs[ids[j]]))
    && (forall id | id in db.jobs && id !in ids && IsCandidate(db, fleet, now, id) ::
          |ids| == CANDIDATES && NotAfter(db.jobs[ids[CANDIDATES - 1]], db.jobs[id]))
  }

  // --- The pass -------------------------------------------------------------------

  /** The variables of the loop. `sent` is history: what went out, in order. */
  datatype Pass = Pass(
    db: Db,
    capacity: int,
    groupActive: map<GroupId, nat>,
    rolloutActive: map<RolloutId, nat>,
    sent: seq<JobId>)

  function Get<K>(m: map<K, nat>, k: K): nat {
    if k in m then m[k] else 0
  }

  function Groups(db: Db, fleet: Fleet): set<GroupId> {
    set id | id in Active(db) && db.jobs[id].device in fleet.group :: fleet.group[db.jobs[id].device]
  }

  function GroupCounts(db: Db, fleet: Fleet): map<GroupId, nat> {
    map g | g in Groups(db, fleet) :: |ActiveInGroup(db, fleet, g)|
  }

  /** The three caps, as the loop tests them. */
  predicate GroupFull(p: Pass, fleet: Fleet, job: Job) {
    match GroupOf(fleet, job)
    case None => false
    case Some(g) => g in fleet.groupLimit && Get(p.groupActive, g) >= fleet.groupLimit[g]
  }

  predicate RolloutFull(p: Pass, job: Job, rollout: Rollout) {
    rollout.maxConcurrency.Some? && Get(p.rolloutActive, job.rollout) >= rollout.maxConcurrency.value
  }

  /** Conditions that depend only on what was read before the loop. */
  predicate Reachable(fleet: Fleet, job: Job, rollout: Rollout) {
    && job.device in fleet.online
    && (rollout.status == Canary ==> job.isCanary)
    && (rollout.mode == Auto ==> job.rollout in fleet.windowOpen)
    && job.rollout in fleet.cached
  }

  function Sent(job: Job, now: Time): Job {
    job.(state := Dispatched, attempt := job.attempt + 1, progress := 0,
         dispatchedAt := Some(now), heartbeatAt := Some(now))
  }

  /** The row after a send that failed: written as dispatched, then put back. */
  function Unsent(row: Job, job: Job): Job {
    row.(state := Queued, attempt := job.attempt, dispatchedAt := None, heartbeatAt := None)
  }

  function BumpGroup(m: map<GroupId, nat>, group: Option<GroupId>): map<GroupId, nat> {
    match group
    case None => m
    case Some(g) => m[g := Get(m, g) + 1]
  }

  /** One turn of the loop, for the job `id` as it was read into `snap`. */
  function Visit(p: Pass, snap: Db, fleet: Fleet, id: JobId, now: Time): (q: Pass)
    requires Valid(snap) && id in snap.jobs && id in p.db.jobs
    ensures q.db.jobs.Keys == p.db.jobs.Keys
  {
    var job := snap.jobs[id];
    var rollout := snap.rollouts[job.rollout];
    if p.capacity <= 0 || !Reachable(fleet, job, rollout) || GroupFull(p, fleet, job) || RolloutFull(p, job, rollout)
    then p
    else
      var row := Sent(p.db.jobs[id], now).(attempt := job.attempt + 1);
      if id !in fleet.accepts then
        p.(db := p.db.(jobs := p.db.jobs[id := Unsent(row, job)]))
      else
        Pass(Recompute(p.db.(jobs := p.db.jobs[id := row]), job.rollout, now),
             p.capacity - 1,
             BumpGroup(p.groupActive, GroupOf(fleet, job)),
             p.rolloutActive[job.rollout := Get(p.rolloutActive, job.rollout) + 1],
             p.sent + [id])
  }

  function StartPass(db: Db, fleet: Fleet, cap: nat): Pass {
    Pass(db, cap - |Active(db)|, GroupCounts(db, fleet), map[], [])
  }

  function Visits(db: Db, fleet: Fleet, cap: nat, ids: seq<JobId>, now: Time): (p: Pass)
    requires Valid(db) && forall id :: id in ids ==> id in db.jobs
    ensures p.db.jobs.Keys == db.jobs.Keys
    decreases |ids|
  {
    if ids == [] then StartPass(db, fleet, cap)
    else
      var last := |ids| - 1;
      Visit(Visits(db, fleet, cap, ids[..last], now), db, fleet, ids[last], now)
  }

  /** `dispatchQueued`. */
  function DispatchQueued(db: Db, fleet: Fleet, cap: nat, ids: seq<JobId>, now: Time): Db
    requires Valid(db) && forall id :: id in ids ==> id in db.jobs
  {
    Visits(db, fleet, cap, ids, now).db
  }

  // --- What a pass keeps ------------------------------------------------------------

  ghost predicate GroupCounted(p: Pass, snap: Db, fleet: Fleet, g: GroupId) {
    && Get(p.groupActive, g) == |ActiveInGroup(p.db, fleet, g)|
    && (g in fleet.groupLimit ==>
          |ActiveInGroup(p.db, fleet, g)| <= Max(|ActiveInGroup(snap, fleet, g)|, fleet.groupLimit[g]))
  }

  ghost predicate RolloutCounted(p: Pass, snap: Db, r: RolloutId) {
    && Get(p.rolloutActive, r) == |ActiveInRollout(p.db, r)| - |ActiveInRollout(snap, r)|
    && (r in snap.rollouts && snap.rollouts[r].maxConcurrency.Some? ==>
          |ActiveInRollout(p.db, r)| <= |ActiveInRollout(snap, r)| + snap.rollouts[r].maxConcurrency.value)
  }

  /** The loop's own counters are the true counts, and each cap holds. */
  ghost predicate Counted(p: Pass, snap: Db, fleet: Fleet, cap: nat) {
    && p.capacity == cap - |Active(p.db)|
    && |Active(p.db)| <= Max(|Active(snap)|, cap)
    && (forall g: GroupId :: GroupCounted(p, snap, fleet, g))
    && (forall r: RolloutId :: RolloutCounted(p, snap, r))
  }

  /** A job the pass did not send keeps everything but its progress bar and send stamps. */
  ghost predicate Untouched(before: Job, after: Job) {
    after == before || after == Unsent(before.(progress := 0), before)
  }

  /** Exactly which rows a pass over `ids` may have changed, and how. */
  ghost predicate Effect(p: Pass, snap: Db, fleet: Fleet, ids: seq<JobId>, now: Time)
    requires Valid(snap)
  {
    && p.db.rollouts == snap.rollouts
    && p.db.jobs.Keys == snap.jobs.Keys
    && Distinct(p.sent)
    && (forall id | id in p.sent :: id in ids && id in snap.jobs && id in fleet.accepts)
    && (forall id | id in p.sent :: Reachable(fleet, snap.jobs[id], snap.rollouts[snap.jobs[id].rollout]))
    && (forall id | id in p.sent :: p.db.jobs[id] == Sent(snap.jobs[id], now))
    && (forall id | id in snap.jobs && id !in p.sent :: Untouched(snap.jobs[id], p.db.jobs[id]))
    && (forall id | id in snap.jobs && id !in ids :: p.db.jobs[id] == snap.jobs[id])
  }

  /** While some job of the rollout is still running, and no canary step is due, nothing moves. */
  lemma RecomputeIdle(db: Db, r: RolloutId, id: JobId, now: Time)
    requires id in db.jobs && db.jobs[id].rollout == r && !IsTerminal(db.jobs[id].state)
    requires r in db.rollouts && (db.rollouts[r].status == Canary ==> db.jobs[id].isCanary)
    ensures Recompute(db, r, now) == db
  {
    assert !AllDone(db, r);
    if db.rollouts[r].status == Canary {
      assert IsCanaryOf(db.jobs[id], r);
      assert !CanaryDone(db, r);
    }
    var rollout := db.rollouts[r];
    assert db.rollouts[r := rollout] == db.rollouts;
  }

  /** `after` is `db` with the row `id`, not in flight before, rewritten. */
  ghost predicate Rewritten(db: Db, after: Db, id: JobId) {
    && id in db.jobs && !IsActive(db.jobs[id].state)
    && id in after.jobs
    && after.jobs[id].rollout == db.jobs[id].rollout && after.jobs[id].device == db.jobs[id].device
    && after.jobs.Keys == db.jobs.Keys
    && (forall x | x in db.jobs && x != id :: after.jobs[x] == db.jobs[x])
  }

  /** The count of jobs in flight, and each count per group or rollout, moves by this much. */
  function Entered(after: Db, id: JobId, applies: bool): set<JobId>
    requires id in after.jobs
  {
    if applies && IsActive(after.jobs[id].state) then {id} else {}
  }

  lemma ActiveMoves(db: Db, after: Db, id: JobId)
    requires Rewritten(db, after, id)
    ensures Active(after) == Active(db) + Entered(after, id, true)
    ensures |Active(after)| == |Active(db)| + |Entered(after, id, true)|
  {
    assert Active(after) == Active(db) + Entered(after, id, true);
  }

  lemma GroupMoves(db: Db, after: Db, fleet: Fleet, id: JobId, g: GroupId)
    requires Rewritten(db, after, id)
    ensures |ActiveInGroup(after, fleet, g)|
         == |ActiveInGroup(db, fleet, g)| + |Entered(after, id, InGroup(fleet, db.jobs[id], g))|
  {
    var entered := Entered(after, id, InGroup(fleet, db.jobs[id], g));
    var a, b := ActiveInGroup(after, fleet, g), ActiveInGroup(db, fleet, g);
    forall x | x in db.jobs ensures x in a <==> x in b + entered {
      assert x != id ==> after.jobs[x] == db.jobs[x];
    }
    assert a == b + entered && b !! entered;
  }

  lemma RolloutMoves(db: Db, after: Db, id: JobId, r: RolloutId)
    requires Rewritten(db, after, id)
    ensures |ActiveInRollout(after, r)|
         == |ActiveInRollout(db, r)| + |Entered(after, id, db.jobs[id].rollout == r)|
  {
    var entered := Entered(after, id, db.jobs[id].rollout == r);
    assert ActiveInRollout(after, r) == ActiveInRollout(db, r) + entered;
    assert ActiveInRollout(db, r) !! entered;
  }

  lemma StartCounted(db: Db, fleet: Fleet, cap: nat)
    ensures Counted(StartPass(db, fleet, cap), db, fleet, cap)
  {
    var p := StartPass(db, fleet, cap);
    forall g: GroupId ensures GroupCounted(p, db, fleet, g) {
      if g !in p.groupActive {
        assert ActiveInGroup(db, fleet, g) == {};
      }
    }
  }

  /** What one turn does, in one of three ways. */
  lemma VisitCases(p: Pass, snap: Db, fleet: Fleet, id: JobId, now: Time)
    requires Valid(snap) && id in snap.jobs && id in p.db.jobs && p.db.jobs[id] == snap.jobs[id]
    requires snap.jobs[id].state == Queued && p.db.rollouts == snap.rollouts
    ensures var q := Visit(p, snap, fleet, id, now); var job := snap.jobs[id];
      || q == p
      || q == p.(db := p.db.(jobs := p.db.jobs[id := Unsent(job.(progress := 0), job)]))
      || (&& p.capacity > 0 && !GroupFull(p, fleet, job) && !RolloutFull(p, job, snap.rollouts[job.rollout])
          && Reachable(fleet, job, snap.rollouts[job.rollout]) && id in fleet.accepts
          && q == Pass(p.db.(jobs := p.db.jobs[id := Sent(job, now)]), p.capacity - 1,
                       BumpGroup(p.groupActive, GroupOf(fleet, job)),
                       p.rolloutActive[job.rollout := Get(p.rolloutActive, job.rollout) + 1], p.sent + [id]))
  {
    var job := snap.jobs[id];
    var rollout := snap.rollouts[job.rollout];
    if p.capacity > 0 && Reachable(fleet, job, rollout) && id in fleet.accepts {
      RecomputeIdle(p.db.(jobs := p.db.jobs[id := Sent(job, now)]), job.rollout, id, now);
    }
  }

  lemma VisitCounted(p: Pass, snap: Db, fleet: Fleet, cap: nat, id: JobId, now: Time)
    requires Valid(snap) && id in snap.jobs && id in p.db.jobs && p.db.jobs[id] == snap.jobs[id]
    requires snap.jobs[id].state == Queued && p.db.rollouts == snap.rollouts
    requires Counted(p, snap, fleet, cap)
    ensures Counted(Visit(p, snap, fleet, id, now), snap, fleet, cap)
  {
    hide Visit, Active, ActiveInGroup, ActiveInRollout;
    var q := Visit(p, snap, fleet, id, now);
    VisitCases(p, snap, fleet, id, now);
    if q != p {
      ActiveMoves(p.db, q.db, id);
      forall g: GroupId ensures GroupCounted(q, snap, fleet, g) {
        assert GroupCounted(p, snap, fleet, g);
        GroupMoves(p.db, q.db, fleet, id, g);
      }
      forall r: RolloutId ensures RolloutCounted(q, snap, r) {
        assert RolloutCounted(p, snap, r);
        RolloutMoves(p.db, q.db, id, r);
      }
    }
  }

  lemma VisitEffect(p: Pass, snap: Db, fleet: Fleet, ids: seq<JobId>, id: JobId, now: Time)
    requires Valid(snap) && id in snap.jobs && id in p.db.jobs && id !in ids
    requires snap.jobs[id].state == Queued
    requires Effect(p, snap, fleet, ids, now)
    ensures Effect(Visit(p, snap, fleet, id, now), snap, fleet, ids + [id], now)
  {
    hide Visit, Recompute, Reachable, GroupFull, RolloutFull;
    VisitCases(p, snap, fleet, id, now);
  }

  lemma VisitKeeps(p: Pass, snap: Db, fleet: Fleet, cap: nat, ids: seq<JobId>, id: JobId, now: Time)
    requires Valid(snap) && id in snap.jobs && id !in ids && snap.jobs[id].state == Queued
    requires Counted(p, snap, fleet, cap) && Effect(p, snap, fleet, ids, now)
    ensures id in p.db.jobs
    ensures Counted(Visit(p, snap, fleet, id, now), snap, fleet, cap)
    ensures Effect(Visit(p, snap, fleet, id, now), snap, fleet, ids + [id], now)
  {
    hide Visit, Counted, Untouched, Sent;
    VisitCounted(p, snap, fleet, cap, id, now);
    VisitEffect(p, snap, fleet, ids, id, now);
  }

  lemma StartEffect(db: Db, fleet: Fleet, cap: nat, now: Time)
    requires Valid(db)
    ensures Effect(StartPass(db, fleet, cap), db, fleet, [], now)
  {
  }

  lemma {:induction false} VisitsKeep(db: Db, fleet: Fleet, cap: nat, ids: seq<JobId>, now: Time)
    requires Valid(db) && Distinct(ids)
    requires forall id :: id in ids ==> id in db.jobs && db.jobs[id].state == Queued
    ensures Counted(Visits(db, fleet, cap, ids, now), db, fleet, cap)
    ensures Effect(Visits(db, fleet, cap, ids, now), db, fleet, ids, now)
    decreases |ids|
  {
    hide Counted, Effect, Visit;
    if ids == [] {
      StartCounted(db, fleet, cap);
      StartEffect(db, fleet, cap, now);
    } else {
      var last := |ids| - 1;
      var p := Visits(db, fleet, cap, ids[..last], now);
      VisitsKeep(db, fleet, cap, ids[..last], now);
      assert ids[last] !in ids[..last];
      VisitKeeps(p, db, fleet, cap, ids[..last], ids[last], now);
      assert ids[..last] + [ids[last]] == ids;
    }
  }

  /**
   * All limits at once. From A jobs in flight and a cap C a pass ends with at
   * most max(A, C); each group with a limit L with at most max(its own start,
   * L); each rollout with a limit gains at most that many.
   */
  lemma DispatchRespectsLimits(db: Db, fleet: Fleet, cap: nat, ids: seq<JobId>, now: Time)
    requires Valid(db) && IsCandidateList(db, fleet, now, ids)
    ensures var after := DispatchQueued(db, fleet, cap, ids, now);
      && |Active(after)| <= Max(|Active(db)|, cap)
      && (forall g | g in fleet.groupLimit ::
            |ActiveInGroup(after, fleet, g)| <= Max(|ActiveInGroup(db, fleet, g)|, fleet.groupLimit[g]))
      && (forall r | r in db.rollouts && db.rollouts[r].maxConcurrency.Some? ::
            |ActiveInRollout(after, r)| <= |ActiveInRollout(db, r)| + db.rollouts[r].maxConcurrency.value)
  {
    VisitsKeep(db, fleet, cap, ids, now);
    var p := Visits(db, fleet, cap, ids, now);
    forall g | g in fleet.groupLimit
      ensures |ActiveInGroup(p.db, fleet, g)| <= Max(|ActiveInGroup(db, fleet, g)|, fleet.groupLimit[g])
    {
      assert GroupCounted(p, db, fleet, g);
    }
    forall r | r in db.rollouts && db.rollouts[r].maxConcurrency.Some?
      ensures |ActiveInRollout(p.db, r)| <= |ActiveInRollout(db, r)| + db.rollouts[r].maxConcurrency.value
    {
      assert RolloutCounted(p, db, r);
    }
  }

  // --- What a pass does not leave behind ----------------------------------------------

  /** Why the job was passed over, in terms of the loop's counters. */
  predicate Refused(p: Pass, snap: Db, fleet: Fleet, id: JobId)
    requires Valid(snap) && id in snap.jobs
  {
    var job := snap.jobs[id];
    var rollout := snap.rollouts[job.rollout];
    || p.capacity <= 0 || !Reachable(fleet, job, rollout) || id !in fleet.accepts
    || GroupFull(p, fleet, job) || RolloutFull(p, job, rollout)
  }

  /** Counters only ever tighten, so a refusal stands to the end of the pass. */
  lemma RefusalStands(p: Pass, snap: Db, fleet: Fleet, id: JobId, other: JobId, now: Time)
    requires Valid(snap) && id in snap.jobs && id in p.db.jobs && other in snap.jobs
    requires Refused(p, snap, fleet, other)
    ensures Refused(Visit(p, snap, fleet, id, now), snap, fleet, other)
  {
  }

  lemma {:induction false} UnsentWereRefused(db: Db, fleet: Fleet, cap: nat, ids: seq<JobId>, now: Time, other: JobId)
    requires Valid(db) && (forall id :: id in ids ==> id in db.jobs)
    requires other in ids && other !in Visits(db, fleet, cap, ids, now).sent
    ensures Refused(Visits(db, fleet, cap, ids, now), db, fleet, other)
    decreases |ids|
  {
    var last := |ids| - 1;
    var p := Visits(db, fleet, cap, ids[..last], now);
    if other in ids[..last] && other !in p.sent {
      UnsentWereRefused(db, fleet, cap, ids[..last], now, other);
      RefusalStands(p, db, fleet, ids[last], other, now);
    } else {
      assert other == ids[last];
    }
  }

  /**
   * The pass is greedy: a candidate it did not send is of an offline box, of
   * the fleet behind a canary, of an AUTO rollout outside its window or of one
   * without a cached artifact, or was refused by its socket, or stands behind
   * a limit that is still used up when the pass ends.
   */
  lemma DispatchIsGreedy(db: Db, fleet: Fleet, cap: nat, ids: seq<JobId>, now: Time, id: JobId)
    requires Valid(db) && IsCandidateList(db, fleet, now, ids)
    requires id in ids && DispatchQueued(db, fleet, cap, ids, now).jobs[id].state == Queued
    ensures var after := DispatchQueued(db, fleet, cap, ids, now);
      var job := db.jobs[id];
      var rollout := db.rollouts[job.rollout];
      || |Active(after)| >= cap
      || job.device !in fleet.online
      || (rollout.status == Canary && !job.isCanary)
      || (rollout.mode == Auto && job.rollout !in fleet.windowOpen)
      || job.rollout !in fleet.cached
      || id !in fleet.accepts
      || (&& job.device in fleet.group
          && fleet.group[job.device] in fleet.groupLimit
          && |ActiveInGroup(after, fleet, fleet.group[job.device])| >= fleet.groupLimit[fleet.group[job.device]])
      || (&& rollout.maxConcurrency.Some?
          && |ActiveInRollout(after, job.rollout)|
               >= |ActiveInRollout(db, job.rollout)| + rollout.maxConcurrency.value)
  {
    VisitsKeep(db, fleet, cap, ids, now);
    var p := Visits(db, fleet, cap, ids, now);
    UnsentWereRefused(db, fleet, cap, ids, now, id);
    var job := db.jobs[id];
    assert RolloutCounted(p, db, job.rollout);
    if job.device in fleet.group {
      assert GroupCounted(p, db, fleet, fleet.group[job.device]);
    }
  }

  /** A rollout limited to one job at a time, with one installing and one waiting. */
  function LimitedToOne(): Db {
    Db(map[0 := Job(0, 0, false, Installing, 0, 1, 0, None, Some(0), Some(0), Some(0), None),
           1 := Job(0, 1, false, Queued, 0, 0, 0, None, None, None, None, None)],
       map[0 := Rollout(Running, Manual, 0, Some(1), 3, 60, None, None)])
  }

  function OneBoxOnline(): Fleet {
    Fleet({1}, {0, 1}, map[], map[], {}, {0}, {1})
  }

  /** A pass over one job that nothing holds back sends it. */
  lemma PassOverOne(db: Db, fleet: Fleet, cap: nat, id: JobId, now: Time)
    requires Valid(db) && id in db.jobs && db.jobs[id].state == Queued && cap > |Active(db)|
    requires fleet.groupLimit == map[] && id in fleet.accepts
    requires Reachable(fleet, db.jobs[id], db.rollouts[db.jobs[id].rollout])
    requires db.rollouts[db.jobs[id].rollout].maxConcurrency != Some(0)
    ensures DispatchQueued(db, fleet, cap, [id], now).jobs == db.jobs[id := Sent(db.jobs[id], now)]
  {
    var start, job := StartPass(db, fleet, cap), db.jobs[id];
    assert [id][..0] == [];
    VisitCases(start, db, fleet, id, now);
    assert !GroupFull(start, fleet, job) && !RolloutFull(start, job, db.rollouts[job.rollout]);
    assert Visits(db, fleet, cap, [id], now) == Visit(start, db, fleet, id, now);
  }

  lemma LimitedPass()
    ensures IsCandidateList(LimitedToOne(), OneBoxOnline(), 0, [1])
    ensures DispatchQueued(LimitedToOne(), OneBoxOnline(), 10, [1], 0).jobs
         == LimitedToOne().jobs[1 := Sent(LimitedToOne().jobs[1], 0)]
  {
    assert Active(LimitedToOne()) == {0};
    PassOverOne(LimitedToOne(), OneBoxOnline(), 10, 1, 0);
  }

  /**
   * `rolloutActive` starts empty on every pass, so a rollout's limit bounds
   * what one pass sends, not what is in flight: this rollout, limited to one
   * job, has two in flight after the pass. `DispatchLimits.dfy` says when the
   * limit does bound it.
   */
  lemma RolloutLimitIsPerPass()
    ensures Valid(LimitedToOne()) && IsCandidateList(LimitedToOne(), OneBoxOnline(), 0, [1])
    ensures ActiveInRollout(LimitedToOne(), 0) == {0}
    ensures ActiveInRollout(DispatchQueued(LimitedToOne(), OneBoxOnline(), 10, [1], 0), 0) == {0, 1}
  {
    hide DispatchQueued, IsCandidateList;
    LimitedPass();
    assert ActiveInRollout(LimitedToOne(), 0) == {0};
    assert ActiveInRollout(DispatchQueued(LimitedToOne(), OneBoxOnline(), 10, [1], 0), 0) == {0, 1};
  }
}
