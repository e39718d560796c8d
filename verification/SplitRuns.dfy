/** Control of a split over every run, for every spec: phases, the one routing change, the
write-block, and what may remove a row of the source. */
module SplitRuns {
  import opened Basics
  import opened KeyRanges
  import opened SplitPlan
  import opened SplitJob
  import opened SplitWorld
  import opened SplitSafety
  import opened SplitOnline

  // ---------------------------------------------------------------------------
  // Jobs that never run.

  /** Nothing but the job's own status has changed. */
  ghost predicate Idle(c: Setting, k: Cluster) {
    && k == Cluster(k.phase, k.cleaned, c.before, false, map[], 0)
    && (k.phase.NoPhase? || k.phase.Pending? || Terminal(k.phase))
  }

  lemma IdleStays(c: Setting, k: Cluster, e: Env)
    requires !Runs(c) && Idle(c, k)
    ensures Idle(c, Reconcile(c.spec, k, e))
  {
    SearchFacts(CdcPairs(c.spec), k.jobs, e.fails, 1);
    if c.spec.targets == [] {
      assert FlattenTargets(c.spec.targets) == [];
      assert !PendingGate(c.spec.targets);
    }
  }

  // ---------------------------------------------------------------------------
  // The control invariant over runs.

  /** Past Pending the target plan has passed the gate. */
  ghost predicate GateInv(c: Setting, k: Cluster) {
    (Live(k) && Rank(k.phase) >= 2) || k.flips > 0 ==> PendingGate(c.spec.targets)
  }

  ghost predicate BaseInv(c: Setting, w: World) {
    if Runs(c) then
      && ControlInv(c, w.k8s) && GateInv(c, w.k8s)
      && (forall t :: SubOf(w, t).Sub? ==> IsTarget(c, t))
    else
      Idle(c, w.k8s) && forall t :: SubOf(w, t).NoSub?
  }

  lemma GateStays(c: Setting, k: Cluster, e: Env)
    requires Runs(c) && GateInv(c, k)
    ensures GateInv(c, Reconcile(c.spec, k, e))
  {
    ReconcileFrame(c, k, e);
    PhaseMoves(c.spec, k, e);
  }

  /** One reconcile leaves the phase, moves it to its successor, or fails the job; a held
      new job first records Pending. */
  lemma PhaseMoves(s: Spec, k: Cluster, e: Env)
    ensures var p := Reconcile(s, k, e).phase;
      || p == k.phase || p == NextPhase(s, k.phase)
      || (p == Failed && !Terminal(k.phase) && !k.phase.Completed?)
      || (p == Pending && k.phase.NoPhase? && e.hold)
  {
    var a := PhaseAction(s, k, e, 1);
    assert a.cluster.phase == k.phase;
  }

  lemma CopyFrame(c: Setting, w: World, id: JobId, pc: Pc, batch: set<Key>)
    requires id in w.k8s.jobs
    ensures var w' := CopyStep(c, w, id, pc, batch);
      && OwnJobOnly(w, w', id) && w'.log == w.log && w'.subs == w.subs
      && forall s :: s != id.shard ==> Store(w', s) == Store(w, s)
  {
    NoJobMove(w, id);
    match pc
    case Scan(i) => CopyScanFrame(c, w, id, i);
    case Truncated(i) => CopyReadFrame(c, w, id, i);
    case Work(i, rows, resolved) => CopyWorkFrame(w, id, i, rows, resolved, batch);
    case _ =>
  }

  lemma CopyScanFrame(c: Setting, w: World, id: JobId, i: nat)
    ensures var w' := CopyScan(c, w, id, i);
      && OwnJobOnly(w, w', id) && w'.log == w.log && w'.subs == w.subs
      && forall s :: s != id.shard ==> Store(w', s) == Store(w, s)
  {
  }

  lemma CopyReadFrame(c: Setting, w: World, id: JobId, i: nat)
    ensures var w' := CopyRead(c, w, id, i);
      OwnJobOnly(w, w', id) && w'.log == w.log && w'.subs == w.subs && w'.stores == w.stores
  {
  }

  lemma CopyWorkFrame(w: World, id: JobId, i: nat, rows: Rows, resolved: bool, batch: set<Key>)
    requires id in w.k8s.jobs
    ensures var w' := CopyWork(w, id, i, rows, resolved, batch);
      && OwnJobOnly(w, w', id) && w'.log == w.log && w'.subs == w.subs
      && forall s :: s != id.shard ==> Store(w', s) == Store(w, s)
  {
    NoJobMove(w, id);
  }

  /** A pod moves its own Job, and creates a subscription only for its own target. */
  lemma PodControl(c: Setting, w: World, id: JobId, batch: set<Key>)
    requires id in w.k8s.jobs && w.k8s.jobs[id].Running?
    ensures var w' := Pod(c, w, id, batch);
      OwnJobOnly(w, w', id) && forall s :: s != id.shard && SubOf(w', s).Sub? ==> SubOf(w, s).Sub?
  {
    var pc := w.k8s.jobs[id].pc;
    match id.mode
    case CdcSetup => SetupFrame(c, w, id, pc);
    case CdcFinalize => FinalizeFrame(c, w, id, pc, batch);
    case Copy => CopyFrame(c, w, id, pc, batch);
    case Delete => DeleteFrame(c, w, id, pc, batch);
    case CdcAbort => AbortFrame(w, id, pc, batch);
  }

  lemma BaseNext(c: Setting, w: World, e: Event)
    requires BaseInv(c, w)
    ensures BaseInv(c, Next(c, w, e))
  {
    if Runs(c) {
      BaseNextRuns(c, w, e);
    } else {
      match e
      case ReconcileJob(env) =>
        IdleStays(c, w.k8s, env);
        assert forall t :: SubOf(Next(c, w, e), t) == SubOf(w, t);
      case _ => assert forall t :: SubOf(Next(c, w, e), t) == SubOf(w, t);
    }
  }

  lemma BaseNextRuns(c: Setting, w: World, e: Event)
    requires Runs(c) && BaseInv(c, w)
    ensures BaseInv(c, Next(c, w, e))
  {
    match e
    case ReconcileJob(env) => BaseReconcile(c, w, env);
    case ClientWrite(k, row) => BaseSame(c, w, Write(c, w, k, row));
    case PodStep(id, batch) => BasePod(c, w, id, batch);
    case PodRestart(id) =>
      if id in w.k8s.jobs && w.k8s.jobs[id].Running? { BaseReset(c, w, id, Running(Begin)); }
    case JobGivesUp(id) =>
      if id in w.k8s.jobs && w.k8s.jobs[id].Running? { BaseReset(c, w, id, JobFailed); }
    case TableSync(t, table) =>
      SyncFrame(c, w, t, table);
      BaseSame(c, w, Sync(c, w, t, table));
    case ApplyChange(t) =>
      ApplyFrame(c, w, t);
      BaseSame(c, w, Apply(c, w, t));
    case OperatorAbort => BaseAbort(c, w);
  }

  lemma BaseSame(c: Setting, w: World, w': World)
    requires BaseInv(c, w) && w'.k8s == w.k8s && forall s :: SubOf(w', s).Sub? ==> SubOf(w, s).Sub?
    ensures BaseInv(c, w')
  {
  }

  lemma BaseReconcile(c: Setting, w: World, env: Env)
    requires Runs(c) && BaseInv(c, w)
    ensures BaseInv(c, Next(c, w, ReconcileJob(env)))
  {
    ReconcileKeeps(c, w.k8s, env);
    GateStays(c, w.k8s, env);
    assert forall s :: SubOf(Next(c, w, ReconcileJob(env)), s) == SubOf(w, s);
  }

  lemma BaseReset(c: Setting, w: World, id: JobId, job: Job)
    requires Runs(c) && BaseInv(c, w) && id in w.k8s.jobs && w.k8s.jobs[id].Running?
    ensures BaseInv(c, WithJob(w, id, job))
  {
    JobMoves(c, w.k8s, id, job);
    assert forall s :: SubOf(WithJob(w, id, job), s) == SubOf(w, s);
  }

  lemma BaseAbort(c: Setting, w: World)
    requires Runs(c) && BaseInv(c, w)
    ensures BaseInv(c, Next(c, w, OperatorAbort))
  {
    OperatorMayAbort(c, w.k8s);
    assert forall s :: SubOf(Next(c, w, OperatorAbort), s) == SubOf(w, s);
  }

  lemma BasePod(c: Setting, w: World, id: JobId, batch: set<Key>)
    requires Runs(c) && BaseInv(c, w)
    ensures BaseInv(c, Pod(c, w, id, batch))
  {
    if id in w.k8s.jobs && w.k8s.jobs[id].Running? {
      PodControl(c, w, id, batch);
      JobMoves(c, w.k8s, id, Pod(c, w, id, batch).k8s.jobs[id]);
    }
  }

  lemma SyncFrame(c: Setting, w: World, t: ShardId, table: nat)
    ensures Sync(c, w, t, table).k8s == w.k8s
    ensures forall s :: SubOf(Sync(c, w, t, table), s).Sub? ==> SubOf(w, s).Sub?
  {
  }

  /** A cluster before the split, with any spec and any ranges. */
  ghost predicate Fresh(c: Setting, w: World) {
    w.k8s == Cluster(NoPhase, false, c.before, false, map[], 0) && w.subs == map[]
  }

  lemma {:induction false} BaseRun(c: Setting, w: World, events: seq<Event>)
    requires Fresh(c, w)
    ensures BaseInv(c, Run(c, w, events))
  {
    if events == [] {
      assert c.before == Replayed(c.before, c.spec.sources, c.spec.targets, 0);
    } else {
      BaseRun(c, w, events[..|events| - 1]);
      BaseNext(c, Run(c, w, events[..|events| - 1]), events[|events| - 1]);
    }
  }

  // ---------------------------------------------------------------------------
  // The routing changes once.

  function StateAt(c: Setting, w: World, events: seq<Event>, n: nat): World
    requires n <= |events|
  {
    Run(c, w, events[..n])
  }

  lemma StateStep(c: Setting, w: World, events: seq<Event>, n: nat)
    requires n < |events|
    ensures StateAt(c, w, events, n + 1) == Next(c, StateAt(c, w, events, n), events[n])
  {
    assert events[..n + 1][..n] == events[..n];
  }

  /** One event merges the routing at most once and never unmerges it; only a reconcile in
      RoutingUpdate does it. */
  lemma FlipStep(c: Setting, w: World, e: Event)
    requires BaseInv(c, w)
    ensures var w' := Next(c, w, e);
      || (w'.k8s.flips == w.k8s.flips && w'.k8s.ranges == w.k8s.ranges)
      || (&& w'.k8s.flips == w.k8s.flips + 1 && e.ReconcileJob? && Runs(c) && Live(w.k8s)
          && w.k8s.phase.RoutingUpdate? && !c.spec.allowForwardOnly && !w'.k8s.blocked
          && (w.k8s.flips == 0 ==> w.k8s.blocked))
  {
    if e.ReconcileJob? { FlipReconcile(c, w, e.env); } else { OthersKeepRouting(c, w, e); }
  }

  lemma OthersKeepRouting(c: Setting, w: World, e: Event)
    requires !e.ReconcileJob?
    ensures Next(c, w, e).k8s.flips == w.k8s.flips && Next(c, w, e).k8s.ranges == w.k8s.ranges
  {
    match e
    case PodStep(id, batch) =>
      if id in w.k8s.jobs && w.k8s.jobs[id].Running? { PodControl(c, w, id, batch); }
    case ApplyChange(t) => ApplyFrame(c, w, t);
    case TableSync(t, table) => SyncFrame(c, w, t, table);
    case _ =>
  }

  lemma FlipReconcile(c: Setting, w: World, env: Env)
    requires BaseInv(c, w)
    ensures var k, k' := w.k8s, Reconcile(c.spec, w.k8s, env);
      || (k'.flips == k.flips && k'.ranges == k.ranges)
      || (&& k'.flips == k.flips + 1 && Runs(c) && Live(k) && k.phase.RoutingUpdate? && !c.spec.allowForwardOnly
          && !k'.blocked && (k.flips == 0 ==> k.blocked))
  {
    if Runs(c) {
      ReconcileFrame(c, w.k8s, env);
      ReconcileKeeps(c, w.k8s, env);
    } else {
      IdleStays(c, w.k8s, env);
    }
  }

  lemma {:induction false} FlipsGrow(c: Setting, w: World, events: seq<Event>, i: nat, j: nat)
    requires Fresh(c, w) && i <= j <= |events|
    ensures StateAt(c, w, events, i).k8s.flips <= StateAt(c, w, events, j).k8s.flips
  {
    if i < j {
      FlipsGrow(c, w, events, i, j - 1);
      BaseRun(c, w, events[..j - 1]);
      StateStep(c, w, events, j - 1);
      FlipsStep(c, StateAt(c, w, events, j - 1), events[j - 1]);
    }
  }

  lemma FlipsStep(c: Setting, w: World, e: Event)
    requires BaseInv(c, w)
    ensures w.k8s.flips <= Next(c, w, e).k8s.flips
  {
    FlipStep(c, w, e);
  }

  /** A state of a run whose routing has been merged. */
  lemma MergedState(c: Setting, w: World, events: seq<Event>, n: nat)
    requires Fresh(c, w) && n <= |events| && StateAt(c, w, events, n).k8s.flips > 0
    ensures var k := StateAt(c, w, events, n).k8s; Runs(c) && Routed(c, k) && GateInv(c, k)
  {
    BaseRun(c, w, events[..n]);
  }

  /** After the first merge every further one is a replay with the same relation. */
  lemma MergedAlike(c: Setting, k: Cluster, k': Cluster)
    requires Runs(c) && Routed(c, k) && Routed(c, k') && GateInv(c, k) && 0 < k.flips && 0 < k'.flips
    ensures SameRelation(k.ranges, k'.ranges)
  {
    PendingGateAccepts(c.spec.targets);
    ReplaysRouteAlike(c.before, c.spec.sources, c.spec.targets, k.flips);
    ReplaysRouteAlike(c.before, c.spec.sources, c.spec.targets, k'.flips);
  }

  /** The step that changes the key-to-shard relation: one reconcile, of a single-source
      split that is not forward-only, taking writes from blocked to unblocked and the old
      ranges to the merged ones in the same update. */
  lemma RoutingChange(c: Setting, w: World, events: seq<Event>, i: nat)
    requires Fresh(c, w) && i < |events|
    requires !SameRelation(StateAt(c, w, events, i).k8s.ranges, StateAt(c, w, events, i + 1).k8s.ranges)
    ensures var k, k' := StateAt(c, w, events, i).k8s, StateAt(c, w, events, i + 1).k8s;
      && events[i].ReconcileJob? && k.phase.RoutingUpdate? && k.blocked && !k'.blocked
      && k.ranges == c.before && k'.ranges == Merged(c.before, c.spec.sources, c.spec.targets)
      && k.flips == 0 && k'.flips == 1
      && !c.spec.isMerge && |c.spec.sources| == 1 && !c.spec.allowForwardOnly
      && PartitionsSomeInterval(FlattenTargets(c.spec.targets))
  {
    var s, s' := StateAt(c, w, events, i), StateAt(c, w, events, i + 1);
    BaseRun(c, w, events[..i]);
    StateStep(c, w, events, i);
    FlipStep(c, s, events[i]);
    assert s.k8s.ranges != s'.k8s.ranges;
    MergedState(c, w, events, i + 1);
    if s.k8s.flips > 0 {
      MergedState(c, w, events, i);
      MergedAlike(c, s.k8s, s'.k8s);
    }
    FirstMerge(c, s'.k8s);
    PendingGateAccepts(c.spec.targets);
  }

  lemma FirstMerge(c: Setting, k: Cluster)
    requires Routed(c, k) && k.flips == 1
    ensures k.ranges == Merged(c.before, c.spec.sources, c.spec.targets)
  {
    assert Replayed(c.before, c.spec.sources, c.spec.targets, 0) == c.before;
  }

  /** Over any run the relation changes in at most one step. */
  lemma RoutingChangesOnce(c: Setting, w: World, events: seq<Event>, i: nat, j: nat)
    requires Fresh(c, w) && i < j < |events|
    requires !SameRelation(StateAt(c, w, events, i).k8s.ranges, StateAt(c, w, events, i + 1).k8s.ranges)
    ensures SameRelation(StateAt(c, w, events, j).k8s.ranges, StateAt(c, w, events, j + 1).k8s.ranges)
  {
    RoutingChange(c, w, events, i);
    FlipsGrow(c, w, events, i + 1, j);
    FlipsGrow(c, w, events, j, j + 1);
    MergedState(c, w, events, j);
    MergedState(c, w, events, j + 1);
    MergedAlike(c, StateAt(c, w, events, j).k8s, StateAt(c, w, events, j + 1).k8s);
  }

  /** A merge, a multi-source split, a split without targets or with a plan the gate
      refuses, and a forward-only split never change the ranges; of these only the last
      ever starts a Job or blocks writes. */
  lemma RefusedJobsTouchNothing(c: Setting, w: World, events: seq<Event>)
    requires Fresh(c, w)
    ensures var k := Run(c, w, events).k8s;
      && (!Runs(c) ==> k.ranges == c.before && !k.blocked && k.jobs == map[])
      && (!PendingGate(c.spec.targets) || c.spec.allowForwardOnly ==> k.ranges == c.before)
      && (c.spec.allowForwardOnly && !c.spec.online ==> !k.blocked)
  {
    BaseRun(c, w, events);
    assert Replayed(c.before, c.spec.sources, c.spec.targets, 0) == c.before;
  }

  /** A job that reports its abort cleanup complete has writes unblocked. */
  lemma CleanedIsUnblocked(c: Setting, w: World, events: seq<Event>)
    requires Fresh(c, w)
    ensures Run(c, w, events).k8s.cleaned ==> !Run(c, w, events).k8s.blocked
  {
    BaseRun(c, w, events);
  }

  /** Phases only go forward. */
  lemma {:induction false} PhasesGrow(c: Setting, w: World, events: seq<Event>, i: nat, j: nat)
    requires i <= j <= |events|
    ensures Rank(StateAt(c, w, events, i).k8s.phase) <= Rank(StateAt(c, w, events, j).k8s.phase)
  {
    if i < j {
      PhasesGrow(c, w, events, i, j - 1);
      StateStep(c, w, events, j - 1);
      PhaseGrows(c, StateAt(c, w, events, j - 1), events[j - 1]);
    }
  }

  lemma PhaseGrows(c: Setting, s: World, e: Event)
    ensures Rank(s.k8s.phase) <= Rank(Next(c, s, e).k8s.phase)
  {
    match e
    case ReconcileJob(env) => PhaseMoves(c.spec, s.k8s, env);
    case PodStep(id, batch) =>
      if id in s.k8s.jobs && s.k8s.jobs[id].Running? { PodControl(c, s, id, batch); }
    case ApplyChange(t) => ApplyFrame(c, s, t);
    case TableSync(t, table) => SyncFrame(c, s, t, table);
    case _ =>
  }

  // ---------------------------------------------------------------------------
  // The write-block of a failed job.

  /** An offline job that has failed or been aborted keeps the write-block it has, for ever. */
  lemma {:induction false} OfflineStaysBlocked(c: Setting, w: World, events: seq<Event>)
    requires !c.spec.online && Terminal(w.k8s.phase)
    ensures var k := Run(c, w, events).k8s; k.blocked == w.k8s.blocked && Terminal(k.phase)
  {
    if events != [] {
      var n := |events| - 1;
      OfflineStaysBlocked(c, w, events[..n]);
      var s := Run(c, w, events[..n]);
      match events[n]
      case PodStep(id, batch) =>
        if id in s.k8s.jobs && s.k8s.jobs[id].Running? { PodControl(c, s, id, batch); }
      case ApplyChange(t) => ApplyFrame(c, s, t);
      case _ =>
    }
  }

  lemma {:induction false} AllSucceededIsDone(targets: seq<Target>, mode: Mode, jobs: map<JobId, Job>, calls: nat)
    requires AllDoneFor(targets, jobs, mode)
    ensures ModeJobsFrom(targets, mode, jobs, true, {}, calls).outcome == Done
  {
    if targets != [] {
      assert targets[0] in targets;
      assert forall t :: t in targets[1..] ==> t in targets;
      AllSucceededIsDone(targets[1..], mode, jobs, calls + 1);
    }
  }

  /** Once its abort Jobs have succeeded, a failed job is unblocked by the next undisturbed
      reconcile if and only if it is online. */
  lemma CleanupUnblocks(c: Setting, k: Cluster, e: Env)
    requires Runs(c) && ControlInv(c, k) && !Live(k) && k.blocked && e.fails == {}
    requires c.spec.sourceOrdinal && (c.spec.online ==> AllDone(c.spec, k.jobs, CdcAbort))
    ensures !Reconcile(c.spec, k, e).blocked <==> c.spec.online
    ensures Reconcile(c.spec, k, e).cleaned <==> c.spec.online
  {
    if c.spec.online {
      BlockedIsFound(c, k, e.fails, 1);
      SearchFacts(CdcPairs(c.spec), k.jobs, e.fails, 1);
      CdcSearchNoError(CdcPairs(c.spec), k.jobs, 1);
      AllSucceededIsDone(c.spec.targets, CdcAbort, k.jobs, CdcJobsStarted(CdcPairs(c.spec), k.jobs, {}, 1).1 + 1);
      RunJobsFacts(c, k, CdcAbort, e.fails, CdcJobsStarted(CdcPairs(c.spec), k.jobs, {}, 1).1);
    }
  }

  /** Whatever fails, an ended job's write-block is lifted only after every abort Job has succeeded,
      and its cleanup is recorded only then, or if no CDC Job was ever created. */
  lemma UnblockedOnlyAfterAbort(c: Setting, k: Cluster, e: Env)
    requires Runs(c) && ControlInv(c, k) && !Live(k) && !k.cleaned
    ensures var k' := Reconcile(c.spec, k, e);
      && (k.blocked && !k'.blocked ==> c.spec.online && AllDone(c.spec, k.jobs, CdcAbort))
      && (k'.cleaned ==>
            && c.spec.online
            && (AllDone(c.spec, k.jobs, CdcAbort) || forall id :: id in CdcPairs(c.spec) ==> id !in k.jobs))
  {
    if c.spec.online {
      SearchFacts(CdcPairs(c.spec), k.jobs, e.fails, 1);
      RunJobsFacts(c, k, CdcAbort, e.fails, CdcJobsStarted(CdcPairs(c.spec), k.jobs, e.fails, 1).1);
    }
  }

  lemma {:induction false} CdcSearchNoError(pairs: seq<JobId>, jobs: map<JobId, Job>, calls: nat)
    ensures !CdcJobsStarted(pairs, jobs, {}, calls).0.Error?
  {
    if pairs != [] { CdcSearchNoError(pairs[1..], jobs, calls + 1); }
  }

  // ---------------------------------------------------------------------------
  // Progress.

  /** What the current phase waits for is there. */
  ghost predicate PhaseReady(c: Setting, k: Cluster) {
    && (k.phase.NoPhase? || k.phase.Pending? ==> PendingGate(c.spec.targets))
    && (k.phase.InitialCopy? && !c.spec.online ==> AllDone(c.spec, k.jobs, Copy))
    && (k.phase.CDCCatchup? && c.spec.online ==>
          AllDone(c.spec, k.jobs, CdcSetup) && AllDone(c.spec, k.jobs, CdcFinalize))
    && (k.phase.Cutover? ==> !c.spec.allowForwardOnly)
    && (k.phase.Cleanup? ==> AllDone(c.spec, k.jobs, Delete))
    && (k.phase.Promote? ==> Promotable(c, k))
  }

  /** The routing has no entry of a source and an entry of every target. */
  ghost predicate Promotable(c: Setting, k: Cluster) {
    && (forall e :: e in k.ranges ==> e.shard !in c.spec.sources)
    && (forall t :: t in c.spec.targets ==> exists e :: e in k.ranges && e.shard == t.shardId)
  }

  lemma PromotableIsReady(c: Setting, k: Cluster)
    ensures PromoteRangesReady(c.spec, k.ranges) <==> Promotable(c, k)
  {
    if PromoteRangesReady(c.spec, k.ranges) {
      forall t | t in c.spec.targets ensures exists e :: e in k.ranges && e.shard == t.shardId {
        assert Active(k.ranges, t.shardId);
      }
      forall e | e in k.ranges ensures e.shard !in c.spec.sources {
        assert Active(k.ranges, e.shard);
      }
    }
    if Promotable(c, k) {
      forall i | 0 <= i < |c.spec.targets| ensures Active(k.ranges, c.spec.targets[i].shardId) {
        assert c.spec.targets[i] in c.spec.targets;
      }
    }
  }

  predicate Undisturbed(e: Env) {
    e.fails == {} && !e.hold && e.bootstrap.TargetsReady? && e.promote.PromoteDone?
  }

  lemma JobsDone(c: Setting, k: Cluster, mode: Mode, calls: nat)
    requires Runs(c) && c.spec.sourceOrdinal && AllDone(c.spec, k.jobs, mode)
    ensures RunJobs(c.spec, k, mode, {}, calls).outcome == Done && RunJobs(c.spec, k, mode, {}, calls).cluster == k
  {
    AllSucceededIsDone(c.spec.targets, mode, k.jobs, calls + 1);
    RunJobsFacts(c, k, mode, {}, calls);
  }

  /** An undisturbed reconcile of a phase that has what it waits for moves to the next of the
      ten phases; entering Cleanup it has merged the routing once and lifted the block, and
      entering RoutingUpdate it has set it. */
  lemma UndisturbedAdvances(c: Setting, k: Cluster, e: Env)
    requires Runs(c) && c.spec.sourceOrdinal && Undisturbed(e) && Live(k) && !k.phase.Completed? && PhaseReady(c, k)
    ensures var k' := Reconcile(c.spec, k, e);
      && Rank(k'.phase) == (if k.phase.NoPhase? then 2 else Rank(k.phase) + 1)
      && k'.flips == k.flips + (if k.phase.RoutingUpdate? then 1 else 0)
      && (k.phase.RoutingUpdate? ==> k'.ranges == Merged(k.ranges, c.spec.sources, c.spec.targets) && !k'.blocked)
      && (k.phase.Cutover? || (k.phase.CDCCatchup? && c.spec.online) ==> k'.blocked)
      && k'.jobs == k.jobs
  {
    match k.phase
    case InitialCopy => if !c.spec.online { JobsDone(c, k, Copy, 1); }
    case CDCCatchup =>
      if c.spec.online {
        JobsDone(c, k, CdcSetup, 1);
        var block := SetWriteBlock(k, true, {}, RunJobs(c.spec, k, CdcSetup, {}, 1).calls);
        JobsDone(c, block.cluster, CdcFinalize, block.calls);
      }
    case Cleanup => JobsDone(c, k, Delete, 1);
    case Promote => PromotableIsReady(c, k);
    case _ =>
  }

  ghost predicate AnyFailed(targets: seq<Target>, jobs: map<JobId, Job>, mode: Mode) {
    exists t :: t in targets && JobId(mode, t.shardId) in jobs && jobs[JobId(mode, t.shardId)].JobFailed?
  }

  /** What an undisturbed pass over the Jobs of one mode answers: that it failed exactly if some
      Job has, that it is done exactly if every Job has succeeded, and otherwise to wait. */
  lemma {:induction false} JobsVerdict(targets: seq<Target>, mode: Mode, jobs: map<JobId, Job>, allDone: bool,
                                       calls: nat)
    ensures var r := ModeJobsFrom(targets, mode, jobs, allDone, {}, calls);
      && (r.outcome.Fail? <==> AnyFailed(targets, jobs, mode))
      && (r.outcome.Done? <==> allDone && AllDoneFor(targets, jobs, mode))
      && !r.outcome.Error?
  {
    if targets != [] {
      var id, rest := JobId(mode, targets[0].shardId), targets[1..];
      assert targets[0] in targets && forall t :: t in targets <==> t == targets[0] || t in rest;
      if id !in jobs {
        var more := jobs[id := Running(Begin)];
        JobsVerdict(rest, mode, more, false, calls + 2);
        assert AnyFailed(rest, more, mode) <==> AnyFailed(rest, jobs, mode);
      } else {
        JobsVerdict(rest, mode, jobs, allDone && jobs[id].Succeeded?, calls + 1);
      }
      assert AnyFailed(targets, jobs, mode) <==> (id in jobs && jobs[id].JobFailed?) || AnyFailed(rest, jobs, mode);
    }
  }

  lemma RunJobsVerdict(c: Setting, k: Cluster, mode: Mode, calls: nat)
    requires Runs(c)
    ensures var a := RunJobs(c.spec, k, mode, {}, calls);
      && (a.outcome.Fail? <==> !c.spec.sourceOrdinal || AnyFailed(c.spec.targets, k.jobs, mode))
      && (a.outcome.Done? <==> c.spec.sourceOrdinal && AllDone(c.spec, k.jobs, mode))
      && !a.outcome.Error? && a.cluster == k.(jobs := a.cluster.jobs) && (a.outcome.Done? ==> a.cluster == k)
  {
    JobsVerdict(c.spec.targets, mode, k.jobs, true, calls + 1);
    RunJobsFacts(c, k, mode, {}, calls);
  }

  /** The reasons for which a phase ends the job as failed. */
  ghost predicate FailsNow(c: Setting, k: Cluster, e: Env) {
    match k.phase
    case NoPhase => !PendingGate(c.spec.targets)
    case Pending => !PendingGate(c.spec.targets)
    case Bootstrap => e.bootstrap.BootstrapFailed?
    case InitialCopy => !c.spec.online && (!c.spec.sourceOrdinal || AnyFailed(c.spec.targets, k.jobs, Copy))
    case CDCCatchup =>
      c.spec.online &&
      (|| !c.spec.sourceOrdinal || AnyFailed(c.spec.targets, k.jobs, CdcSetup)
       || (AllDone(c.spec, k.jobs, CdcSetup) && AnyFailed(c.spec.targets, k.jobs, CdcFinalize)))
    case Cutover => c.spec.allowForwardOnly
    case Cleanup => !c.spec.sourceOrdinal || AnyFailed(c.spec.targets, k.jobs, Delete)
    case Promote => e.promote.PromoteFailed? && Promotable(c, k)
    case _ => false
  }

  /** The current phase has what it waits for, and finds it. */
  ghost predicate MovesNow(c: Setting, k: Cluster, e: Env) {
    && PhaseReady(c, k)
    && (k.phase.Bootstrap? ==> e.bootstrap.TargetsReady?)
    && (k.phase.Promote? ==> e.promote.PromoteDone?)
    && (k.phase.Cleanup? || (k.phase.InitialCopy? && !c.spec.online) || (k.phase.CDCCatchup? && c.spec.online) ==>
          c.spec.sourceOrdinal)
  }

  lemma CatchUpVerdict(c: Setting, k: Cluster)
    requires Runs(c)
    ensures var a := ReconcileCDC(c.spec, k, {}, 1);
      && (a.outcome.Fail? <==>
            || !c.spec.sourceOrdinal || AnyFailed(c.spec.targets, k.jobs, CdcSetup)
            || (AllDone(c.spec, k.jobs, CdcSetup) && AnyFailed(c.spec.targets, k.jobs, CdcFinalize)))
      && (a.outcome.Done? <==>
            c.spec.sourceOrdinal && AllDone(c.spec, k.jobs, CdcSetup) && AllDone(c.spec, k.jobs, CdcFinalize))
      && !a.outcome.Error? && a.cluster.phase == k.phase
  {
    RunJobsVerdict(c, k, CdcSetup, 1);
    var setup := RunJobs(c.spec, k, CdcSetup, {}, 1);
    if setup.outcome.Done? {
      var block := SetWriteBlock(k, true, {}, setup.calls);
      RunJobsVerdict(c, block.cluster, CdcFinalize, block.calls);
    } else if AllDone(c.spec, k.jobs, CdcSetup) {
      assert !AnyFailed(c.spec.targets, k.jobs, CdcSetup);
    }
  }

  ghost predicate Decided(c: Setting, k: Cluster, e: Env, p: Phase) {
    && (p == Failed <==> FailsNow(c, k, e))
    && (p != Failed && p != k.phase <==> MovesNow(c, k, e))
    && (MovesNow(c, k, e) ==> Rank(p) == (if k.phase.NoPhase? then 2 else Rank(k.phase) + 1))
  }

  lemma JobPhaseVerdict(c: Setting, k: Cluster, e: Env)
    requires Runs(c) && Live(k) && e.fails == {} && (k.phase.InitialCopy? || k.phase.CDCCatchup? || k.phase.Cleanup?)
    ensures Decided(c, k, e, Reconcile(c.spec, k, e).phase)
  {
    match k.phase
    case InitialCopy => RunJobsVerdict(c, k, Copy, 1);
    case CDCCatchup => CatchUpVerdict(c, k);
    case Cleanup => RunJobsVerdict(c, k, Delete, 1);
    case _ =>
  }

  /** The phase after a reconcile without API failures, in every phase: a held job waits in
      Pending; otherwise the job fails exactly for the reasons above, moves on exactly if it has
      what it waits for, and stays where it is in all other cases. */
  lemma PhaseVerdict(c: Setting, k: Cluster, e: Env)
    requires Runs(c) && Live(k) && !k.phase.Completed? && e.fails == {}
    ensures var p := Reconcile(c.spec, k, e).phase;
      if e.hold && (k.phase.NoPhase? || k.phase.Pending?) then p == Pending else Decided(c, k, e, p)
  {
    if k.phase.InitialCopy? || k.phase.CDCCatchup? || k.phase.Cleanup? {
      JobPhaseVerdict(c, k, e);
    } else if k.phase.Promote? {
      PromotableIsReady(c, k);
    }
  }

  /** Whatever fails, a held job that has not started records Pending at most. */
  lemma HeldWaits(c: Setting, k: Cluster, e: Env)
    requires Runs(c) && e.hold && (k.phase.NoPhase? || k.phase.Pending?)
    ensures Reconcile(c.spec, k, e) == k || Reconcile(c.spec, k, e) == k.(phase := Pending)
  {
  }

  /** Where Jobs are still missing and none has failed, an undisturbed pass has started a Job
      for every target. */
  lemma {:induction false} MissingJobsStart(targets: seq<Target>, mode: Mode, jobs: map<JobId, Job>, allDone: bool,
                                            calls: nat)
    requires forall t :: t in targets && JobId(mode, t.shardId) in jobs ==> !jobs[JobId(mode, t.shardId)].JobFailed?
    ensures var r := ModeJobsFrom(targets, mode, jobs, allDone, {}, calls);
      && (r.outcome.Done? || r.outcome.Wait?)
      && forall t :: t in targets ==> JobId(mode, t.shardId) in r.jobs
  {
    if targets != [] {
      var id := JobId(mode, targets[0].shardId);
      assert targets[0] in targets && forall t :: t in targets <==> t == targets[0] || t in targets[1..];
      if id !in jobs {
        MissingJobsStart(targets[1..], mode, jobs[id := Running(Begin)], false, calls + 2);
        ModeJobsFacts(targets[1..], mode, jobs[id := Running(Begin)], false, {}, calls + 2);
      } else {
        var done := allDone && jobs[id].Succeeded?;
        MissingJobsStart(targets[1..], mode, jobs, done, calls + 1);
        ModeJobsFacts(targets[1..], mode, jobs, done, {}, calls + 1);
      }
    }
  }

  /** After the merge the precondition of Promote holds, if every target has a range: no
      source is active and every target is. */
  lemma PromoteIsReady(c: Setting, k: Cluster)
    requires ValidSetting(c) && Routed(c, k) && k.flips > 0
    requires forall t :: t in c.spec.targets ==> t.ranges != []
    ensures PromoteRangesReady(c.spec, k.ranges)
  {
    var before := Replayed(c.before, c.spec.sources, c.spec.targets, k.flips - 1);
    KeepOthersMembers(before, c.spec.sources);
    FlattenMembers(c.spec.targets);
    assert c.spec.sources == [Source(c)];
    assert forall e :: e in k.ranges <==> (e in before && e.shard != Source(c)) || e in Plan(c);
    forall i | 0 <= i < |c.spec.targets| ensures Active(k.ranges, c.spec.targets[i].shardId) {
      var t := c.spec.targets[i];
      assert t in c.spec.targets && t.ranges[0] in t.ranges;
      assert t.ranges[0] in k.ranges && t.ranges[0].shard == t.shardId;
    }
  }

  // ---------------------------------------------------------------------------
  // Source rows.

  /** A row leaves the source only by a client's delete of a key the source serves, or by a
      clean-up pod, after the flip, of a key the source no longer serves. */
  lemma SourceRowsKept(c: Setting, w: World, events: seq<Event>, e: Event, k: Key)
    requires ValidSetting(c) && Fresh(c, w)
    requires k in Store(Run(c, w, events), Source(c)) && k !in Store(Next(c, Run(c, w, events), e), Source(c))
    ensures var s := Run(c, w, events);
      || (e == ClientWrite(k, None) && Route(c, s, k) == Some(Source(c)) && !s.k8s.blocked)
      || (e.PodStep? && e.id.mode.Delete? && s.k8s.flips > 0 && Route(c, s, k) != Some(Source(c)))
  {
    BaseRun(c, w, events);
    SourceRowStep(c, Run(c, w, events), e, k);
  }

  lemma SourceRowStep(c: Setting, s: World, e: Event, k: Key)
    requires ValidSetting(c) && BaseInv(c, s)
    requires k in Store(s, Source(c)) && k !in Store(Next(c, s, e), Source(c))
    ensures || (e == ClientWrite(k, None) && Route(c, s, k) == Some(Source(c)) && !s.k8s.blocked)
      || (e.PodStep? && e.id.mode.Delete? && s.k8s.flips > 0 && Route(c, s, k) != Some(Source(c)))
  {
    match e
    case PodStep(id, batch) =>
      PodSourceRows(c, s, id, batch);
      if Route(c, s, k).Some? { WhoServes(c, s, k); }
    case ApplyChange(t) => ApplyFrame(c, s, t);
    case TableSync(t, table) => SyncStores(c, s, t, table);
    case ClientWrite(j, row) => WriteSourceRows(c, s, j, row, k);
    case _ =>
  }

  lemma SyncStores(c: Setting, w: World, t: ShardId, table: nat)
    ensures forall s :: s != t || SubOf(w, t).NoSub? ==> Store(Sync(c, w, t, table), s) == Store(w, s)
  {
  }

  /** Every pod but a clean-up pod leaves the source's rows alone. */
  lemma PodSourceRows(c: Setting, w: World, id: JobId, batch: set<Key>)
    requires id in w.k8s.jobs ==> id.shard != Source(c)
    ensures id.mode.Delete? || Store(Pod(c, w, id, batch), Source(c)) == Store(w, Source(c))
    ensures Pod(c, w, id, batch) != w ==> id in w.k8s.jobs
  {
    if id in w.k8s.jobs && w.k8s.jobs[id].Running? {
      var pc := w.k8s.jobs[id].pc;
      match id.mode
      case CdcSetup => SetupFrame(c, w, id, pc);
      case CdcFinalize => FinalizeFrame(c, w, id, pc, batch);
      case Copy => CopyFrame(c, w, id, pc, batch);
      case Delete =>
      case CdcAbort => AbortFrame(w, id, pc, batch);
    }
  }

  lemma WriteSourceRows(c: Setting, w: World, j: Key, row: Option<Val>, k: Key)
    requires k in Store(w, Source(c)) && k !in Store(Write(c, w, j, row), Source(c))
    ensures j == k && row.None? && Route(c, w, k) == Some(Source(c)) && !w.k8s.blocked
  {
  }

  // ---------------------------------------------------------------------------
  // The clean-up leaves no moved row on the source.

  /** No row of the first `n` tables belongs to target `t`. */
  ghost predicate RidBelow(c: Setting, src: Rows, t: ShardId, n: nat) {
    forall k :: k in src && c.tableOf(k) < n ==> Home(c, k) != Some(t)
  }

  ghost predicate Rid(c: Setting, src: Rows, t: ShardId) {
    forall k :: k in src ==> Home(c, k) != Some(t)
  }

  /** What the clean-up pod of `t` has achieved at each point of its program. */
  ghost predicate RidOk(c: Setting, src: Rows, t: ShardId, job: Job) {
    match job
    case Succeeded => Rid(c, src, t)
    case JobFailed => true
    case Running(pc) =>
      match pc
      case Begin => true
      case Scan(i) => RidBelow(c, src, t, i)
      case Work(i, rows, _) =>
        RidBelow(c, src, t, i) && forall k :: k in src && c.tableOf(k) == i && Home(c, k) == Some(t) ==> k in rows
      case Finish => Rid(c, src, t)
      case _ => false
  }

  ghost predicate RidsOk(c: Setting, w: World) {
    forall id :: id in w.k8s.jobs && id.mode.Delete? ==> RidOk(c, Store(w, Source(c)), id.shard, w.k8s.jobs[id])
  }

  /** Past Cleanup every clean-up Job has succeeded. */
  ghost predicate CleanedUp(c: Setting, k: Cluster) {
    k.phase.Promote? || k.phase.Completed? ==> AllDone(c.spec, k.jobs, Delete)
  }

  lemma RidFewer(c: Setting, src: Rows, fewer: Rows, t: ShardId, job: Job)
    requires RidOk(c, src, t, job) && forall k :: k in fewer ==> k in src
    ensures RidOk(c, fewer, t, job)
  {
  }

  /** A step of the clean-up pod keeps what it has achieved. */
  lemma RidStep(c: Setting, w: World, id: JobId, pc: Pc, batch: set<Key>)
    requires TablesKnown(c) && id.mode.Delete? && id in w.k8s.jobs && w.k8s.jobs[id] == Running(pc)
    requires RidOk(c, Store(w, Source(c)), id.shard, Running(pc))
    ensures var w' := DeleteStep(c, w, id, pc, batch);
      && id in w'.k8s.jobs && RidOk(c, Store(w', Source(c)), id.shard, w'.k8s.jobs[id])
      && forall k :: k in Store(w', Source(c)) ==> k in Store(w, Source(c))
  {
    match pc
    case Scan(i) => RidScan(c, w, id, i);
    case Work(i, rows, _) => RidWork(c, w, id, i, rows, batch);
    case _ =>
  }

  lemma RidScan(c: Setting, w: World, id: JobId, i: nat)
    requires TablesKnown(c) && id in w.k8s.jobs && w.k8s.jobs[id] == Running(Scan(i))
    requires RidBelow(c, Store(w, Source(c)), id.shard, i)
    ensures var w' := DeleteScan(c, w, id, i);
      && id in w'.k8s.jobs && Store(w', Source(c)) == Store(w, Source(c))
      && RidOk(c, Store(w', Source(c)), id.shard, w'.k8s.jobs[id])
  {
    ScannedRid(c, Store(w, Source(c)), id.shard, i);
    ScanReads(c, w, id, i);
  }

  lemma ScanReads(c: Setting, w: World, id: JobId, i: nat)
    requires id in w.k8s.jobs && w.k8s.jobs[id] == Running(Scan(i))
    ensures var w', src := DeleteScan(c, w, id, i), Store(w, Source(c));
      && Store(w', Source(c)) == src && id in w'.k8s.jobs
      && (w'.k8s.jobs[id] == Running(
            if i >= c.tables then Finish else Work(i, Homed(c, TableRows(c, src, i), id.shard), true))
          || w'.k8s.jobs[id] == Running(Scan(i)))
  {
  }

  lemma ScannedRid(c: Setting, src: Rows, t: ShardId, i: nat)
    requires TablesKnown(c) && RidBelow(c, src, t, i)
    ensures i >= c.tables ==> RidOk(c, src, t, Running(Finish))
    ensures RidOk(c, src, t, Running(Work(i, Homed(c, TableRows(c, src, i), t), true)))
  {
  }

  lemma RidWork(c: Setting, w: World, id: JobId, i: nat, rows: Rows, batch: set<Key>)
    requires id in w.k8s.jobs && w.k8s.jobs[id].Running?
    requires w.k8s.jobs[id].pc.Work? && w.k8s.jobs[id].pc.table == i && w.k8s.jobs[id].pc.rows == rows
    requires RidOk(c, Store(w, Source(c)), id.shard, w.k8s.jobs[id])
    ensures var w' := DeleteWork(c, w, id, i, rows, batch);
      && id in w'.k8s.jobs && RidOk(c, Store(w', Source(c)), id.shard, w'.k8s.jobs[id])
      && forall k :: k in Store(w', Source(c)) ==> k in Store(w, Source(c))
  {
    if rows == map[] {
      assert RidBelow(c, Store(w, Source(c)), id.shard, i + 1);
    }
  }

  /** A step that adds no row to the source and changes no clean-up Job but by adding fresh ones. */
  lemma RidKept(c: Setting, w: World, w': World)
    requires RidsOk(c, w)
    requires forall k :: k in Store(w', Source(c)) ==> k in Store(w, Source(c))
    requires forall id :: id in w'.k8s.jobs && id.mode.Delete? ==>
      || (id in w.k8s.jobs && w'.k8s.jobs[id] == w.k8s.jobs[id])
      || w'.k8s.jobs[id] == Running(Begin) || w'.k8s.jobs[id].JobFailed?
    ensures RidsOk(c, w')
  {
    forall id | id in w'.k8s.jobs && id.mode.Delete?
      ensures RidOk(c, Store(w', Source(c)), id.shard, w'.k8s.jobs[id])
    {
      if id in w.k8s.jobs && w'.k8s.jobs[id] == w.k8s.jobs[id] {
        RidFewer(c, Store(w, Source(c)), Store(w', Source(c)), id.shard, w.k8s.jobs[id]);
      }
    }
  }

  lemma RidPod(c: Setting, w: World, id: JobId, batch: set<Key>)
    requires ValidSetting(c) && BaseInv(c, w) && RidsOk(c, w)
    ensures RidsOk(c, Pod(c, w, id, batch))
  {
    if id in w.k8s.jobs && w.k8s.jobs[id].Running? {
      var w' := Pod(c, w, id, batch);
      PodControl(c, w, id, batch);
      PodSourceRows(c, w, id, batch);
      if id.mode.Delete? {
        RidStep(c, w, id, w.k8s.jobs[id].pc, batch);
        forall j | j in w'.k8s.jobs && j.mode.Delete?
          ensures RidOk(c, Store(w', Source(c)), j.shard, w'.k8s.jobs[j])
        {
          if j != id { RidFewer(c, Store(w, Source(c)), Store(w', Source(c)), j.shard, w.k8s.jobs[j]); }
        }
      } else {
        RidKept(c, w, w');
      }
    }
  }

  /** After the flip no write goes to the source; before it there is no clean-up Job. */
  lemma RidWrite(c: Setting, w: World, k: Key, row: Option<Val>)
    requires ValidSetting(c) && BaseInv(c, w) && RidsOk(c, w)
    ensures RidsOk(c, Write(c, w, k, row))
  {
    if w.k8s.flips == 0 {
      assert forall id :: id in w.k8s.jobs ==> !id.mode.Delete?;
    } else {
      if Route(c, w, k).Some? { WhoServes(c, w, k); }
      RidKept(c, w, Write(c, w, k, row));
    }
  }

  lemma RidNext(c: Setting, w: World, e: Event)
    requires ValidSetting(c) && BaseInv(c, w) && RidsOk(c, w)
    ensures RidsOk(c, Next(c, w, e))
  {
    match e
    case ReconcileJob(env) => RidReconcile(c, w, env);
    case ClientWrite(k, row) => RidWrite(c, w, k, row);
    case PodStep(id, batch) => RidPod(c, w, id, batch);
    case TableSync(t, table) => RidReplicates(c, w, t, table);
    case ApplyChange(t) => RidReplicates(c, w, t, 0);
    case PodRestart(id) => RidReset(c, w, id, Running(Begin));
    case JobGivesUp(id) => RidReset(c, w, id, JobFailed);
    case OperatorAbort => RidKept(c, w, Next(c, w, e));
  }

  lemma RidReset(c: Setting, w: World, id: JobId, job: Job)
    requires RidsOk(c, w) && (job == Running(Begin) || job.JobFailed?)
    ensures RidsOk(c, WithJob(w, id, job))
  {
    RidKept(c, w, WithJob(w, id, job));
  }

  lemma RidReconcile(c: Setting, w: World, env: Env)
    requires Runs(c) && RidsOk(c, w)
    ensures RidsOk(c, Next(c, w, ReconcileJob(env)))
  {
    ReconcileFrame(c, w.k8s, env);
    RidKept(c, w, Next(c, w, ReconcileJob(env)));
  }

  lemma RidReplicates(c: Setting, w: World, t: ShardId, table: nat)
    requires ValidSetting(c) && RidsOk(c, w) && (SubOf(w, t).Sub? ==> IsTarget(c, t))
    ensures RidsOk(c, Sync(c, w, t, table)) && RidsOk(c, Apply(c, w, t))
  {
    SyncFrame(c, w, t, table);
    SyncStores(c, w, t, table);
    ApplyFrame(c, w, t);
    assert SubOf(w, t).NoSub? ==> Apply(c, w, t) == w;
    RidKept(c, w, Sync(c, w, t, table));
    RidKept(c, w, Apply(c, w, t));
  }

  lemma CleanedUpPod(c: Setting, w: World, id: JobId, batch: set<Key>)
    requires CleanedUp(c, w.k8s)
    ensures CleanedUp(c, Pod(c, w, id, batch).k8s)
  {
    if id in w.k8s.jobs && w.k8s.jobs[id].Running? { PodControl(c, w, id, batch); }
  }

  lemma CleanedUpReconcile(c: Setting, k: Cluster, e: Env)
    requires Runs(c) && CleanedUp(c, k)
    ensures CleanedUp(c, Reconcile(c.spec, k, e))
  {
    PhaseMoves(c.spec, k, e);
    ReconcileFrame(c, k, e);
    if k.phase.Cleanup? { RunJobsFacts(c, k, Delete, e.fails, 1); }
  }

  /** A reconcile enters Promote only with every clean-up Job succeeded, and no event undoes that. */
  lemma CleanedUpNext(c: Setting, w: World, e: Event)
    requires ValidSetting(c) && BaseInv(c, w) && CleanedUp(c, w.k8s)
    ensures CleanedUp(c, Next(c, w, e).k8s)
  {
    match e
    case ReconcileJob(env) => CleanedUpReconcile(c, w.k8s, env);
    case PodStep(id, batch) => CleanedUpPod(c, w, id, batch);
    case ApplyChange(t) => ApplyFrame(c, w, t);
    case TableSync(t, table) => SyncFrame(c, w, t, table);
    case _ =>
  }

  lemma {:induction false} RidRun(c: Setting, w: World, events: seq<Event>)
    requires ValidSetting(c) && Fresh(c, w)
    ensures RidsOk(c, Run(c, w, events)) && CleanedUp(c, Run(c, w, events).k8s)
  {
    if events != [] {
      var n := |events| - 1;
      RidRun(c, w, events[..n]);
      BaseRun(c, w, events[..n]);
      RidNext(c, Run(c, w, events[..n]), events[n]);
      CleanedUpNext(c, Run(c, w, events[..n]), events[n]);
    }
  }

  /** Over every run, online or offline: where the clean-up Job of a target has succeeded the source
      has no row of that target, and once the job is past Cleanup it has none of any. */
  lemma CleanUpIsComplete(c: Setting, w: World, events: seq<Event>, k: Key)
    requires ValidSetting(c) && Fresh(c, w) && k in Store(Run(c, w, events), Source(c)) && Home(c, k).Some?
    ensures var s, id := Run(c, w, events).k8s, JobId(Delete, Home(c, k).value);
      !(id in s.jobs && s.jobs[id].Succeeded?) && !s.phase.Promote? && !s.phase.Completed?
  {
    RidRun(c, w, events);
    HomeIsTarget(c, k);
    var s, id := Run(c, w, events), JobId(Delete, Home(c, k).value);
    if id in s.k8s.jobs { assert RidOk(c, Store(s, Source(c)), id.shard, s.k8s.jobs[id]); }
  }
}
