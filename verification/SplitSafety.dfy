/** Safety of a split over every run: who routes where, when writes are blocked, and that
no accepted write is lost. */
module SplitSafety {
  import opened KeyRanges
  import opened SplitPlan
  import opened SplitJob
  import opened SplitWorld

  ghost predicate IsTarget(c: Setting, s: ShardId) {
    exists t :: t in c.spec.targets && t.shardId == s
  }

  /** One source and some target: a job of any other shape never leaves Pending. */
  predicate Runs(c: Setting) {
    !Unsupported(c.spec) && c.spec.targets != []
  }

  /** What the data theorems assume of a split: one source, a plan that tiles the source's
      ranges, target names that are new, and rows that live in known tables. */
  ghost predicate ValidSetting(c: Setting) {
    && Runs(c)
    && OneOwner(c.before)
    && Tiles(c.before, Source(c), c.spec.targets)
    && (forall t :: t in c.spec.targets ==> t.shardId != Source(c) && !Active(c.before, t.shardId))
    && (forall t, e :: t in c.spec.targets && e in t.ranges ==> e.shard == t.shardId)
    && TablesKnown(c)
  }

  ghost predicate TablesKnown(c: Setting) {
    forall k :: c.tableOf(k) < c.tables
  }

  /** The shard that now serves `k` holds its last accepted write. */
  predicate HoldsFor(c: Setting, w: World, k: Key) {
    Route(c, w, k).Some? ==> Get(Store(w, Route(c, w, k).value), k) == Get(w.last, k)
  }

  /** Before the split: no Jobs, no replication, empty targets, nothing lost so far. */
  ghost predicate Init(c: Setting, w: World) {
    && w.k8s == Cluster(NoPhase, false, c.before, false, map[], 0)
    && w.subs == map[] && w.pubs == {} && w.copiedAt == map[]
    && (forall t :: IsTarget(c, t) ==> Store(w, t) == map[])
    && Store(w, Source(c)) == At(w.log, |w.log|)
    && (forall k :: HoldsFor(c, w, k))
  }

  // ---------------------------------------------------------------------------
  // The control invariant: phases, Jobs, routing and write-block.

  function Rank(p: Phase): nat {
    match p
    case NoPhase => 0
    case Pending => 1
    case SnapshotWAL => 2
    case Bootstrap => 3
    case InitialCopy => 4
    case CDCCatchup => 5
    case Cutover => 6
    case RoutingUpdate => 7
    case Cleanup => 8
    case Promote => 9
    case Completed => 10
    case Failed => 11
    case Aborted => 11
  }

  predicate Live(k: Cluster) {
    !Terminal(k.phase)
  }

  ghost predicate AllDoneFor(targets: seq<Target>, jobs: map<JobId, Job>, mode: Mode) {
    forall t :: t in targets ==> JobId(mode, t.shardId) in jobs && jobs[JobId(mode, t.shardId)].Succeeded?
  }

  ghost predicate AllDone(s: Spec, jobs: map<JobId, Job>, mode: Mode) {
    AllDoneFor(s.targets, jobs, mode)
  }

  ghost predicate Any(jobs: map<JobId, Job>, mode: Mode) {
    exists id :: id in jobs && id.mode == mode
  }

  /** The Jobs that move the data of this kind of split. */
  function MoveMode(s: Spec): Mode {
    if s.online then CdcFinalize else Copy
  }

  ghost predicate JobsInv(c: Setting, k: Cluster) {
    && (forall id :: id in k.jobs ==> IsTarget(c, id.shard))
    && (forall id :: id in k.jobs && id.mode.Copy? ==> !c.spec.online)
    && (forall id :: id in k.jobs && id.mode in CDC_MODES ==> c.spec.online)
    && (forall id :: id in k.jobs && id.mode.Delete? ==> k.flips > 0)
    && (forall id :: id in k.jobs && id.mode.CdcAbort? ==> !Live(k))
    && (Any(k.jobs, CdcFinalize) ==> AllDone(c.spec, k.jobs, CdcSetup))
  }

  ghost predicate PhaseInv(c: Setting, k: Cluster) {
    && (Live(k) && Rank(k.phase) > (if c.spec.online then 5 else 4) ==> AllDone(c.spec, k.jobs, MoveMode(c.spec)))
    && (Live(k) && Rank(k.phase) > 7 ==> k.flips > 0)
    && (k.flips > 0 ==> (Live(k) ==> Rank(k.phase) >= 7))
    && (k.flips > 0 ==> AllDone(c.spec, k.jobs, MoveMode(c.spec)))
  }

  ghost predicate BlockInv(c: Setting, k: Cluster) {
    && (k.flips > 0 ==> !k.blocked)
    && (c.spec.allowForwardOnly ==> k.flips == 0 && (Live(k) ==> Rank(k.phase) < 7))
    && (Live(k) && k.flips == 0 && Any(k.jobs, CdcFinalize) ==> k.blocked)
    && (Live(k) && k.flips == 0 && k.phase.RoutingUpdate? ==> k.blocked)
    && (c.spec.online && k.blocked ==> AllDone(c.spec, k.jobs, CdcSetup))
    && (k.cleaned ==> !Live(k) && !k.blocked)
    && (c.spec.allowForwardOnly && !c.spec.online ==> !k.blocked)
  }

  ghost predicate Routed(c: Setting, k: Cluster) {
    k.ranges == Replayed(c.before, c.spec.sources, c.spec.targets, k.flips)
  }

  ghost predicate ControlInv(c: Setting, k: Cluster) {
    && Routed(c, k)
    && JobsInv(c, k) && PhaseInv(c, k) && BlockInv(c, k)
  }

  /** Creating Jobs adds fresh ones of the given mode and touches no other; a finished
      mode has all its Jobs succeeded and adds none. */
  lemma {:induction false} ModeJobsFacts(targets: seq<Target>, mode: Mode, jobs: map<JobId, Job>, allDone: bool,
                                         fails: set<nat>, calls: nat)
    ensures var r := ModeJobsFrom(targets, mode, jobs, allDone, fails, calls);
      && (forall id :: id in jobs ==> id in r.jobs && r.jobs[id] == jobs[id])
      && (forall id :: id in r.jobs && id !in jobs ==>
            id.mode == mode && r.jobs[id] == Running(Begin) && exists t :: t in targets && t.shardId == id.shard)
      && (r.outcome.Done? ==> allDone && r.jobs == jobs && AllDoneFor(targets, jobs, mode))
  {
    if targets != [] && calls !in fails {
      var id := JobId(mode, targets[0].shardId);
      assert forall t :: t in targets <==> t == targets[0] || t in targets[1..];
      if id !in jobs {
        if calls + 1 !in fails {
          ModeJobsFacts(targets[1..], mode, jobs[id := Running(Begin)], false, fails, calls + 2);
          assert targets[0] in targets && targets[0].shardId == id.shard;
        }
      } else if jobs[id].Succeeded? {
        ModeJobsFacts(targets[1..], mode, jobs, allDone, fails, calls + 1);
      } else if jobs[id].Running? {
        ModeJobsFacts(targets[1..], mode, jobs, false, fails, calls + 1);
      }
    }
  }

  lemma RunJobsFacts(c: Setting, k: Cluster, mode: Mode, fails: set<nat>, calls: nat)
    ensures var a := RunJobs(c.spec, k, mode, fails, calls);
      && a.cluster == k.(jobs := a.cluster.jobs)
      && (forall id :: id in k.jobs ==> id in a.cluster.jobs && a.cluster.jobs[id] == k.jobs[id])
      && (forall id :: id in a.cluster.jobs && id !in k.jobs ==>
            id.mode == mode && a.cluster.jobs[id] == Running(Begin) && IsTarget(c, id.shard))
      && (a.outcome.Done? ==> a.cluster == k && AllDone(c.spec, k.jobs, mode))
  {
    ModeJobsFacts(c.spec.targets, mode, k.jobs, true, fails, calls + 1);
  }

  /** Adding fresh Jobs of one mode keeps the invariant when that mode may exist now. */
  lemma JobsMayStart(c: Setting, k: Cluster, mode: Mode, fails: set<nat>, calls: nat)
    requires Runs(c) && ControlInv(c, k)
    requires mode.Copy? ==> !c.spec.online
    requires mode in CDC_MODES ==> c.spec.online
    requires mode.Delete? ==> k.flips > 0
    requires mode.CdcAbort? ==> !Live(k)
    requires mode.CdcFinalize? ==> AllDone(c.spec, k.jobs, CdcSetup) && (k.blocked || k.flips > 0 || !Live(k))
    ensures ControlInv(c, RunJobs(c.spec, k, mode, fails, calls).cluster)
  {
    RunJobsFacts(c, k, mode, fails, calls);
    var k' := RunJobs(c.spec, k, mode, fails, calls).cluster;
    forall m | AllDone(c.spec, k.jobs, m) ensures AllDone(c.spec, k'.jobs, m) { }
    assert Any(k'.jobs, CdcFinalize) ==> Any(k.jobs, CdcFinalize) || mode.CdcFinalize?;
  }

  /** A live job may move on once what its phase owes is there. */
  lemma MayAdvance(c: Setting, k: Cluster)
    requires Runs(c) && ControlInv(c, k) && Live(k)
    requires k.phase.InitialCopy? && !c.spec.online ==> AllDone(c.spec, k.jobs, Copy)
    requires k.phase.CDCCatchup? && c.spec.online ==> AllDone(c.spec, k.jobs, CdcFinalize)
    requires k.phase.Cutover? && !c.spec.allowForwardOnly ==> k.blocked
    requires k.phase.RoutingUpdate? ==> k.flips > 0
    ensures ControlInv(c, k.(phase := NextPhase(c.spec, k.phase)))
  {
    var k' := k.(phase := NextPhase(c.spec, k.phase));
    assert Rank(k'.phase) > 5 && Live(k') && !k.phase.Completed? ==> Rank(k.phase) >= 5;
    assert k.phase.Cutover? ==> k.flips == 0;
  }

  lemma MayFail(c: Setting, k: Cluster)
    requires ControlInv(c, k) && Live(k)
    ensures ControlInv(c, k.(phase := Failed))
  {
  }

  lemma MayBlock(c: Setting, k: Cluster, on: bool)
    requires ControlInv(c, k)
    requires on ==> Live(k) && k.flips == 0 && (c.spec.online ==> AllDone(c.spec, k.jobs, CdcSetup))
    requires on ==> c.spec.online || !c.spec.allowForwardOnly
    requires !on ==> !Live(k)
    ensures ControlInv(c, k.(blocked := on))
  {
  }

  lemma MayRoute(c: Setting, k: Cluster)
    requires Runs(c) && ControlInv(c, k) && k.phase.RoutingUpdate? && !c.spec.allowForwardOnly
    ensures ControlInv(c, k.(ranges := Merged(k.ranges, c.spec.sources, c.spec.targets), blocked := false,
                             flips := k.flips + 1))
  {
  }

  /** Finalize Jobs exist only after all setup Jobs succeeded. */
  lemma FinalizedWereSetUp(c: Setting, k: Cluster)
    requires Runs(c) && ControlInv(c, k) && AllDone(c.spec, k.jobs, CdcFinalize)
    ensures AllDone(c.spec, k.jobs, CdcSetup)
  {
    var id := JobId(CdcFinalize, c.spec.targets[0].shardId);
    assert id in k.jobs && id.mode == CdcFinalize;
  }

  /** The CDC phase keeps the invariant, and finishes only with every target finalized
      and writes blocked. */
  lemma CdcKeeps(c: Setting, k: Cluster, fails: set<nat>, calls: nat)
    requires Runs(c) && ControlInv(c, k) && c.spec.online && k.phase.CDCCatchup?
    ensures var a := ReconcileCDC(c.spec, k, fails, calls);
      ControlInv(c, a.cluster) && a.cluster.phase == k.phase
      && (a.outcome.Done? ==> AllDone(c.spec, a.cluster.jobs, CdcFinalize))
  {
    JobsMayStart(c, k, CdcSetup, fails, calls);
    RunJobsFacts(c, k, CdcSetup, fails, calls);
    var setup := RunJobs(c.spec, k, CdcSetup, fails, calls);
    if setup.outcome.Done? { BlockAndFinalize(c, setup.cluster, fails, setup.calls); }
  }

  lemma BlockAndFinalize(c: Setting, k: Cluster, fails: set<nat>, calls: nat)
    requires Runs(c) && ControlInv(c, k) && c.spec.online && k.phase.CDCCatchup? && AllDone(c.spec, k.jobs, CdcSetup)
    ensures var block := SetWriteBlock(k, true, fails, calls);
      && ControlInv(c, block.cluster) && block.cluster.phase == k.phase
      && (block.outcome.Done? ==>
            var a := RunJobs(c.spec, block.cluster, CdcFinalize, fails, block.calls);
            && ControlInv(c, a.cluster) && a.cluster.phase == k.phase
            && (a.outcome.Done? ==> AllDone(c.spec, a.cluster.jobs, CdcFinalize)))
  {
    MayBlock(c, k, true);
    var block := SetWriteBlock(k, true, fails, calls);
    assert block.cluster == k || block.cluster == k.(blocked := true);
    if block.outcome.Done? {
      assert block.cluster == k.(blocked := true);
      FinalizeKeeps(c, k.(blocked := true), fails, block.calls);
    }
  }

  lemma FinalizeKeeps(c: Setting, k: Cluster, fails: set<nat>, calls: nat)
    requires Runs(c) && ControlInv(c, k) && c.spec.online && k.blocked && AllDone(c.spec, k.jobs, CdcSetup)
    ensures var a := RunJobs(c.spec, k, CdcFinalize, fails, calls);
      && ControlInv(c, a.cluster) && a.cluster.phase == k.phase
      && (a.outcome.Done? ==> AllDone(c.spec, a.cluster.jobs, CdcFinalize))
  {
    JobsMayStart(c, k, CdcFinalize, fails, calls);
    RunJobsFacts(c, k, CdcFinalize, fails, calls);
  }

  /** The invariant, and what `MayAdvance` asks of a phase whose action is done. */
  ghost predicate ActionOk(c: Setting, k: Cluster, a: Acted) {
    && ControlInv(c, a.cluster) && a.cluster.phase == k.phase
    && (a.outcome.Done? && k.phase.InitialCopy? && !c.spec.online ==> AllDone(c.spec, a.cluster.jobs, Copy))
    && (a.outcome.Done? && k.phase.CDCCatchup? && c.spec.online ==> AllDone(c.spec, a.cluster.jobs, CdcFinalize))
    && (a.outcome.Done? && k.phase.Cutover? && !c.spec.allowForwardOnly ==> a.cluster.blocked)
    && (a.outcome.Done? && k.phase.RoutingUpdate? ==> a.cluster.flips > 0)
  }

  lemma CopyKeeps(c: Setting, k: Cluster, fails: set<nat>, calls: nat)
    requires Runs(c) && ControlInv(c, k) && k.phase.InitialCopy? && !c.spec.online
    ensures ActionOk(c, k, RunJobs(c.spec, k, Copy, fails, calls))
  {
    JobsMayStart(c, k, Copy, fails, calls);
    RunJobsFacts(c, k, Copy, fails, calls);
  }

  lemma DeleteKeeps(c: Setting, k: Cluster, fails: set<nat>, calls: nat)
    requires Runs(c) && ControlInv(c, k) && k.phase.Cleanup?
    ensures ActionOk(c, k, RunJobs(c.spec, k, Delete, fails, calls))
  {
    JobsMayStart(c, k, Delete, fails, calls);
    RunJobsFacts(c, k, Delete, fails, calls);
  }

  lemma CutoverKeeps(c: Setting, k: Cluster, fails: set<nat>, calls: nat)
    requires Runs(c) && ControlInv(c, k) && k.phase.Cutover? && !c.spec.allowForwardOnly
    ensures ActionOk(c, k, SetWriteBlock(k, true, fails, calls))
  {
    if c.spec.online { FinalizedWereSetUp(c, k); }
    MayBlock(c, k, true);
  }

  lemma RouteKeeps(c: Setting, k: Cluster, fails: set<nat>, calls: nat)
    requires Runs(c) && ControlInv(c, k) && k.phase.RoutingUpdate?
    ensures ActionOk(c, k, ApplyRouting(c.spec, k, fails, calls))
  {
    MayRoute(c, k);
  }

  /** The action of any live phase keeps the invariant. */
  lemma ActionKeeps(c: Setting, k: Cluster, e: Env)
    requires Runs(c) && ControlInv(c, k) && Live(k)
    ensures ActionOk(c, k, PhaseAction(c.spec, k, e, 1))
  {
    match k.phase
    case InitialCopy =>
      if !c.spec.online { CopyKeeps(c, k, e.fails, 1); }
    case CDCCatchup =>
      if c.spec.online { CdcKeeps(c, k, e.fails, 1); }
    case Cutover =>
      if !c.spec.allowForwardOnly { CutoverKeeps(c, k, e.fails, 1); }
    case RoutingUpdate => RouteKeeps(c, k, e.fails, 1);
    case Cleanup => DeleteKeeps(c, k, e.fails, 1);
    case _ =>
  }

  /** Searching for a CDC Job without an error finds one exactly when there is one. */
  lemma {:induction false} SearchFacts(pairs: seq<JobId>, jobs: map<JobId, Job>, fails: set<nat>, calls: nat)
    ensures !CdcJobsStarted(pairs, jobs, fails, calls).0.Fail?
    ensures CdcJobsStarted(pairs, jobs, fails, calls).0.Wait? ==> forall id :: id in pairs ==> id !in jobs
    ensures CdcJobsStarted(pairs, jobs, fails, calls).0.Done? ==> exists id :: id in pairs && id in jobs
  {
    if pairs != [] && calls !in fails {
      if pairs[0] in jobs {
        assert pairs[0] in pairs;
      } else {
        SearchFacts(pairs[1..], jobs, fails, calls + 1);
        assert forall id :: id in pairs <==> id == pairs[0] || id in pairs[1..];
      }
    }
  }

  lemma {:induction false} ModePairsMembers(mode: Mode, targets: seq<Target>)
    ensures forall t :: t in targets ==> JobId(mode, t.shardId) in ModePairs(mode, targets)
  {
    if targets != [] {
      ModePairsMembers(mode, targets[1..]);
      assert forall t :: t in targets <==> t == targets[0] || t in targets[1..];
    }
  }

  /** A blocked online job has its CDC setup Jobs, so the cleanup search finds one. */
  lemma BlockedIsFound(c: Setting, k: Cluster, fails: set<nat>, calls: nat)
    requires Runs(c) && ControlInv(c, k) && c.spec.online && k.blocked
    ensures !CdcJobsStarted(CdcPairs(c.spec), k.jobs, fails, calls).0.Wait?
  {
    SearchFacts(CdcPairs(c.spec), k.jobs, fails, calls);
    ModePairsMembers(CdcSetup, c.spec.targets);
    var id := JobId(CdcSetup, c.spec.targets[0].shardId);
    assert id in ModePairs(CdcSetup, c.spec.targets) && id in CdcPairs(c.spec) && id in k.jobs;
  }

  /** A cleanup that reports completion has lifted the write-block. */
  lemma AbortCleanupKeeps(c: Setting, k: Cluster, fails: set<nat>, calls: nat)
    requires Runs(c) && ControlInv(c, k) && !Live(k) && !k.cleaned && c.spec.online
    ensures var a := AbortCleanup(c.spec, k, fails, calls);
      ControlInv(c, a.cluster) && a.cluster == k.(jobs := a.cluster.jobs, blocked := a.cluster.blocked)
      && (a.outcome.Done? ==> !a.cluster.blocked)
  {
    if k.blocked { BlockedIsFound(c, k, fails, calls); }
    var started := CdcJobsStarted(CdcPairs(c.spec), k.jobs, fails, calls);
    if !started.0.Wait? && !started.0.Error? {
      JobsMayStart(c, k, CdcAbort, fails, started.1);
      RunJobsFacts(c, k, CdcAbort, fails, started.1);
      MayBlock(c, RunJobs(c.spec, k, CdcAbort, fails, started.1).cluster, false);
    }
  }

  lemma CleanupKeeps(c: Setting, k: Cluster, e: Env)
    requires Runs(c) && ControlInv(c, k) && !Live(k) && c.spec.online
    ensures ControlInv(c, TerminalCleanup(c.spec, k, e))
  {
    if !k.cleaned {
      AbortCleanupKeeps(c, k, e.fails, 1);
      var k' := AbortCleanup(c.spec, k, e.fails, 1).cluster;
      if !k'.blocked { MayRecordCleanup(c, k'); }
    }
  }

  lemma MayRecordCleanup(c: Setting, k: Cluster)
    requires ControlInv(c, k) && !Live(k) && !k.blocked
    ensures ControlInv(c, k.(cleaned := true))
  {
  }

  lemma PhaseStepKeeps(c: Setting, k: Cluster, e: Env)
    requires Runs(c) && ControlInv(c, k) && Live(k)
    ensures ControlInv(c, PhaseStep(c.spec, k, e))
  {
    ActionKeeps(c, k, e);
    var a := PhaseAction(c.spec, k, e, 1);
    MayFail(c, a.cluster);
    if a.outcome.Done? { MayAdvance(c, a.cluster); }
  }

  lemma MayWait(c: Setting, k: Cluster)
    requires ControlInv(c, k) && Live(k)
    ensures k.phase.NoPhase? ==> ControlInv(c, k.(phase := Pending))
  {
  }

  lemma ReconcileKeeps(c: Setting, k: Cluster, e: Env)
    requires Runs(c) && ControlInv(c, k)
    ensures ControlInv(c, Reconcile(c.spec, k, e))
  {
    if Live(k) {
      PhaseStepKeeps(c, k, e);
      MayWait(c, k);
    } else if c.spec.online {
      CleanupKeeps(c, k, e);
    }
  }

  /** `k2` has every Job of `k1` unchanged and otherwise only fresh ones. */
  ghost predicate OnlyFreshJobs(k1: Cluster, k2: Cluster) {
    && (forall id :: id in k1.jobs ==> id in k2.jobs && k2.jobs[id] == k1.jobs[id])
    && (forall id :: id in k2.jobs && id !in k1.jobs ==> k2.jobs[id] == Running(Begin))
  }

  /** What one reconcile may do to the objects: keep every existing Job as it is, add fresh
      ones, and merge the routing once, only in RoutingUpdate. */
  lemma ReconcileFrame(c: Setting, k: Cluster, e: Env)
    requires Runs(c)
    ensures var k' := Reconcile(c.spec, k, e);
      && OnlyFreshJobs(k, k')
      && (Live(k') ==> Live(k))
      && (k'.flips == k.flips || (k'.flips == k.flips + 1 && Live(k) && k.phase.RoutingUpdate?))
  {
    if Live(k) {
      ActionFrame(c, k, e);
    } else {
      CleanupFrame(c, k, e);
    }
  }

  lemma CleanupFrame(c: Setting, k: Cluster, e: Env)
    requires !Live(k)
    ensures OnlyFreshJobs(k, TerminalCleanup(c.spec, k, e))
    ensures TerminalCleanup(c.spec, k, e).flips == k.flips && !Live(TerminalCleanup(c.spec, k, e))
  {
    var started := CdcJobsStarted(CdcPairs(c.spec), k.jobs, e.fails, 1);
    RunJobsFacts(c, k, CdcAbort, e.fails, started.1);
  }

  lemma ActionFrame(c: Setting, k: Cluster, e: Env)
    ensures var k' := PhaseAction(c.spec, k, e, 1).cluster;
      && OnlyFreshJobs(k, k')
      && (k'.flips == k.flips || (k'.flips == k.flips + 1 && k.phase.RoutingUpdate?))
  {
    match k.phase
    case InitialCopy => RunJobsFacts(c, k, Copy, e.fails, 1);
    case CDCCatchup => CdcFrame(c, k, e.fails);
    case Cleanup => RunJobsFacts(c, k, Delete, e.fails, 1);
    case _ =>
  }

  lemma CdcFrame(c: Setting, k: Cluster, fails: set<nat>)
    ensures var k' := ReconcileCDC(c.spec, k, fails, 1).cluster; OnlyFreshJobs(k, k') && k'.flips == k.flips
  {
    RunJobsFacts(c, k, CdcSetup, fails, 1);
    var setup := RunJobs(c.spec, k, CdcSetup, fails, 1);
    var block := SetWriteBlock(setup.cluster, true, fails, setup.calls);
    RunJobsFacts(c, block.cluster, CdcFinalize, fails, block.calls);
  }

  /** A pod's Job may move from running to any state. */
  lemma JobMoves(c: Setting, k: Cluster, id: JobId, job: Job)
    requires ControlInv(c, k) && id in k.jobs && k.jobs[id].Running?
    ensures ControlInv(c, k.(jobs := k.jobs[id := job]))
  {
    var k' := k.(jobs := k.jobs[id := job]);
    forall m | AllDone(c.spec, k.jobs, m) ensures AllDone(c.spec, k'.jobs, m) { }
    assert Any(k'.jobs, CdcFinalize) ==> Any(k.jobs, CdcFinalize);
  }

  lemma OperatorMayAbort(c: Setting, k: Cluster)
    requires ControlInv(c, k)
    ensures ControlInv(c, k.(phase := Aborted))
  {
  }
}
