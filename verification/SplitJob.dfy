/** The ShardSplitJob controller: one reconcile as a function of the Kubernetes objects it
reads and of the API calls that fail, and the same reconcile as the code that updates
those objects step by step. */
module SplitJob {
  import opened KeyRanges
  import opened SplitPlan

  type Key = string
  type Val = string

  datatype Phase =
    | NoPhase | Pending | SnapshotWAL | Bootstrap | InitialCopy | CDCCatchup | Cutover
    | RoutingUpdate | Cleanup | Promote | Completed | Failed | Aborted

  /** The data-movement Job of one target; the name of a Job is its mode and its target. */
  datatype Mode = Copy | Delete | CdcSetup | CdcFinalize | CdcAbort
  datatype JobId = JobId(mode: Mode, shard: ShardId)

  /** Where the pod of a running Job stands in its program. */
  datatype Pc =
    | Begin                       // attempt started
    | Published                   // cdc-setup: schema and publication ensured
    | Subscribed                  // cdc-setup: subscription ensured
    | Synced                      // cdc-setup: initial table copies seen complete
    | Drained                     // cdc-finalize: replication lag seen at zero
    | Scan(table: nat)            // about to read a table
    | Truncated(table: nat)       // copy: target table emptied, source not yet read
    | Work(table: nat, rows: map<Key, Val>, resolved: bool) // rows still to write or delete
    | Finish                      // all tables done

  datatype Job = Running(pc: Pc) | Succeeded | JobFailed

  /** The immutable spec of a ShardSplitJob. `sourceOrdinal` says whether the source is
      named shard-N, which the Job builder needs to address its pod. */
  datatype Spec = Spec(
    isMerge: bool, sources: seq<ShardId>, targets: seq<Target>,
    online: bool, allowForwardOnly: bool, sourceOrdinal: bool)

  /** The Kubernetes objects: job phase, AbortCleanup condition, ShardRange ranges and
      write-block, data-movement Jobs; `flips` counts the routing merges applied. */
  datatype Cluster = Cluster(
    phase: Phase, cleaned: bool, ranges: seq<Entry>, blocked: bool,
    jobs: map<JobId, Job>, flips: nat)

  datatype BootstrapOutcome = BootstrapFailed | ReadinessError | TargetsNotReady | TargetsReady
  datatype PromoteOutcome = PromoteError | PromoteWait | PromoteFailed | PromoteDone

  /** What one reconcile meets: the numbers of the API calls that fail, and what it
      observes of objects outside the model. */
  datatype Env = Env(fails: set<nat>, hold: bool, bootstrap: BootstrapOutcome, promote: PromoteOutcome)

  /** Outcome of a phase action: done, still waiting, failed for good, or a call error. */
  datatype Outcome = Done | Wait | Fail | Error

  datatype ModeResult = ModeResult(jobs: map<JobId, Job>, outcome: Outcome, calls: nat)
  datatype Acted = Acted(cluster: Cluster, outcome: Outcome, calls: nat)

  predicate Terminal(p: Phase) {
    p.Failed? || p.Aborted?
  }

  predicate Unsupported(s: Spec) {
    s.isMerge || |s.sources| != 1
  }

  function NextPhase(s: Spec, p: Phase): Phase {
    match p
    case NoPhase => if !Unsupported(s) && PendingGate(s.targets) then SnapshotWAL else Failed
    case Pending => if !Unsupported(s) && PendingGate(s.targets) then SnapshotWAL else Failed
    case SnapshotWAL => Bootstrap
    case Bootstrap => InitialCopy
    case InitialCopy => CDCCatchup
    case CDCCatchup => Cutover
    case Cutover => if s.allowForwardOnly then Failed else RoutingUpdate
    case RoutingUpdate => Cleanup
    case Cleanup => Promote
    case Promote => Completed
    case _ => p
  }

  /** A status update that may be lost. */
  function Status(k: Cluster, p: Phase, fails: set<nat>, call: nat): Cluster {
    if call in fails then k else k.(phase := p)
  }

  function Advance(s: Spec, k: Cluster, fails: set<nat>, call: nat): Cluster {
    Status(k, NextPhase(s, k.phase), fails, call)
  }

  // ---------------------------------------------------------------------------
  // Jobs of one mode, one per target.

  function ModeJobsFrom(targets: seq<Target>, mode: Mode, jobs: map<JobId, Job>, allDone: bool,
                        fails: set<nat>, calls: nat): ModeResult
  {
    if targets == [] then ModeResult(jobs, if allDone then Done else Wait, calls)
    else
      var id := JobId(mode, targets[0].shardId);
      if calls in fails then ModeResult(jobs, Error, calls + 1)
      else if id !in jobs then
        if calls + 1 in fails then ModeResult(jobs, Error, calls + 2)
        else ModeJobsFrom(targets[1..], mode, jobs[id := Running(Begin)], false, fails, calls + 2)
      else
        match jobs[id]
        case Succeeded => ModeJobsFrom(targets[1..], mode, jobs, allDone, fails, calls + 1)
        case JobFailed => ModeResult(jobs, Fail, calls + 1)
        case Running(_) => ModeJobsFrom(targets[1..], mode, jobs, false, fails, calls + 1)
  }

  function ModeJobs(s: Spec, jobs: map<JobId, Job>, mode: Mode, fails: set<nat>, calls: nat): ModeResult {
    if |s.sources| == 0 then ModeResult(jobs, Fail, calls)
    else if calls in fails then ModeResult(jobs, Error, calls + 1)
    else if !s.sourceOrdinal then ModeResult(jobs, Fail, calls + 1)
    else ModeJobsFrom(s.targets, mode, jobs, true, fails, calls + 1)
  }

  function RunJobs(s: Spec, k: Cluster, mode: Mode, fails: set<nat>, calls: nat): Acted {
    var r := ModeJobs(s, k.jobs, mode, fails, calls);
    Acted(k.(jobs := r.jobs), r.outcome, r.calls)
  }

  /** Sets or clears the write-block of the ShardRange; a no-op when already as wanted. */
  function SetWriteBlock(k: Cluster, on: bool, fails: set<nat>, calls: nat): Acted {
    if calls in fails then Acted(k, Error, calls + 1)
    else if k.blocked == on then Acted(k, Done, calls + 1)
    else if calls + 1 in fails then Acted(k, Error, calls + 2)
    else Acted(k.(blocked := on), Done, calls + 2)
  }

  /** Merges the target ranges in and lifts the write-block, in one update. */
  function ApplyRouting(s: Spec, k: Cluster, fails: set<nat>, calls: nat): Acted {
    if calls in fails then Acted(k, Error, calls + 1)
    else if calls + 1 in fails then Acted(k, Error, calls + 2)
    else Acted(k.(ranges := Merged(k.ranges, s.sources, s.targets), blocked := false, flips := k.flips + 1),
               Done, calls + 2)
  }

  function ReconcileCDC(s: Spec, k: Cluster, fails: set<nat>, calls: nat): Acted {
    var setup := RunJobs(s, k, CdcSetup, fails, calls);
    if !setup.outcome.Done? then setup
    else
      var block := SetWriteBlock(setup.cluster, true, fails, setup.calls);
      if !block.outcome.Done? then block
      else RunJobs(s, block.cluster, CdcFinalize, fails, block.calls)
  }

  predicate Active(ranges: seq<Entry>, s: ShardId) {
    exists e :: e in ranges && e.shard == s
  }

  /** No source is active any more and every target is. */
  predicate PromoteRangesReady(s: Spec, ranges: seq<Entry>) {
    && (forall i :: 0 <= i < |s.sources| ==> !Active(ranges, s.sources[i]))
    && (forall i :: 0 <= i < |s.targets| ==> Active(ranges, s.targets[i].shardId))
  }

  /** What the current phase does before its transition. */
  function PhaseAction(s: Spec, k: Cluster, e: Env, calls: nat): Acted {
    match k.phase
    case Bootstrap =>
      (match e.bootstrap
       case BootstrapFailed => Acted(k, Fail, calls)
       case ReadinessError => Acted(k, Error, calls)
       case TargetsNotReady => Acted(k, Wait, calls)
       case TargetsReady => Acted(k, Done, calls))
    case InitialCopy => if s.online then Acted(k, Done, calls) else RunJobs(s, k, Copy, e.fails, calls)
    case CDCCatchup => if s.online then ReconcileCDC(s, k, e.fails, calls) else Acted(k, Done, calls)
    case Cutover => if s.allowForwardOnly then Acted(k, Done, calls) else SetWriteBlock(k, true, e.fails, calls)
    case RoutingUpdate =>
      var r := ApplyRouting(s, k, e.fails, calls);
      if r.outcome.Error? then r.(outcome := Fail) else r
    case Cleanup => RunJobs(s, k, Delete, e.fails, calls)
    case Promote =>
      (match e.promote
       case PromoteError => Acted(k, Error, calls)
       case PromoteWait => Acted(k, Wait, calls)
       case PromoteFailed => Acted(k, if PromoteRangesReady(s, k.ranges) then Fail else Wait, calls)
       case PromoteDone => Acted(k, if PromoteRangesReady(s, k.ranges) then Done else Wait, calls))
    case _ => Acted(k, Done, calls)
  }

  function PhaseStep(s: Spec, k: Cluster, e: Env): Cluster {
    var a := PhaseAction(s, k, e, 1);
    match a.outcome
    case Done => Advance(s, a.cluster, e.fails, a.calls)
    case Fail => Status(a.cluster, Failed, e.fails, a.calls)
    case _ => a.cluster
  }

  // ---------------------------------------------------------------------------
  // Cleanup of a failed or aborted online job.

  const CDC_MODES: seq<Mode> := [CdcSetup, CdcFinalize, CdcAbort]

  /** The search for any CDC job, in mode order and then target order. */
  function CdcJobsStarted(pairs: seq<JobId>, jobs: map<JobId, Job>, fails: set<nat>, calls: nat): (Outcome, nat) {
    if pairs == [] then (Wait, calls)
    else if calls in fails then (Error, calls + 1)
    else if pairs[0] in jobs then (Done, calls + 1)
    else CdcJobsStarted(pairs[1..], jobs, fails, calls + 1)
  }

  function ModePairs(mode: Mode, targets: seq<Target>): seq<JobId> {
    if targets == [] then [] else [JobId(mode, targets[0].shardId)] + ModePairs(mode, targets[1..])
  }

  function CdcPairs(s: Spec): seq<JobId> {
    ModePairs(CdcSetup, s.targets) + ModePairs(CdcFinalize, s.targets) + ModePairs(CdcAbort, s.targets)
  }

  function AbortCleanup(s: Spec, k: Cluster, fails: set<nat>, calls: nat): Acted {
    if !s.online then Acted(k, Done, calls)
    else
      var (started, next) := CdcJobsStarted(CdcPairs(s), k.jobs, fails, calls);
      if started.Error? then Acted(k, Error, next)
      else if started.Wait? then Acted(k, Done, next)
      else
        var abort := RunJobs(s, k, CdcAbort, fails, next);
        if !abort.outcome.Done? then abort
        else
          var release := SetWriteBlock(abort.cluster, false, fails, abort.calls);
          if release.outcome.Error? then release.(outcome := Fail) else release
  }

  /** Only a completed cleanup is recorded as such; every other verdict leaves it open. */
  function TerminalCleanup(s: Spec, k: Cluster, e: Env): Cluster {
    if k.cleaned then k
    else
      var a := AbortCleanup(s, k, e.fails, 1);
      if a.outcome.Done? && a.calls !in e.fails then a.cluster.(cleaned := true) else a.cluster
  }

  /** One reconcile of a ShardSplitJob. */
  function Reconcile(s: Spec, k: Cluster, e: Env): Cluster {
    if 0 in e.fails then k
    else if k.phase.Completed? then k
    else if Terminal(k.phase) then (if s.online then TerminalCleanup(s, k, e) else k)
    else if Unsupported(s) then Status(k, Failed, e.fails, 1)
    else if (k.phase.NoPhase? || k.phase.Pending?) && e.hold then
      (if k.phase.NoPhase? then Status(k, Pending, e.fails, 1) else k)
    else PhaseStep(s, k, e)
  }

  // ---------------------------------------------------------------------------
  // The same reconcile as imperative code.

  /** The controller's view of the API server; `calls` numbers the API calls of the
      reconcile in progress. */
  class Controller {
    var phase: Phase
    var cleaned: bool
    var ranges: seq<Entry>
    var blocked: bool
    var jobs: map<JobId, Job>
    ghost var flips: nat
    var calls: nat

    ghost function View(): Cluster
      reads this
    {
      Cluster(phase, cleaned, ranges, blocked, jobs, flips)
    }

    /** Counts one API call and says whether it went through. */
    method Call(fails: set<nat>) returns (ok: bool)
      modifies this`calls
      ensures ok <==> old(calls) !in fails
      ensures calls == old(calls) + 1
    {
      ok := calls !in fails;
      calls := calls + 1;
    }

    method UpdateStatus(p: Phase, fails: set<nat>)
      modifies this`phase, this`calls
      ensures View() == Status(old(View()), p, fails, old(calls))
    {
      var ok := Call(fails);
      if ok { phase := p; }
    }

    method ReconcileModeJobs(s: Spec, mode: Mode, fails: set<nat>) returns (outcome: Outcome)
      modifies this`jobs, this`calls
      ensures Acted(View(), outcome, calls) == RunJobs(s, old(View()), mode, fails, old(calls))
    {
      if |s.sources| == 0 { return Fail; }
      var ok := Call(fails);
      if !ok { return Error; }
      if !s.sourceOrdinal { return Fail; }
      var allDone := true;
      ghost var whole := ModeJobsFrom(s.targets, mode, jobs, true, fails, calls);
      for i := 0 to |s.targets|
        invariant ModeJobsFrom(s.targets[i..], mode, jobs, allDone, fails, calls) == whole
      {
        assert s.targets[i..][1..] == s.targets[i + 1..];
        var id := JobId(mode, s.targets[i].shardId);
        ok := Call(fails);
        if !ok { return Error; }
        if id !in jobs {
          ok := Call(fails);
          if !ok { return Error; }
          jobs := jobs[id := Running(Begin)];
          allDone := false;
        } else if jobs[id].Succeeded? {
        } else if jobs[id].JobFailed? {
          return Fail;
        } else {
          allDone := false;
        }
      }
      outcome := if allDone then Done else Wait;
    }

    method WriteBlock(on: bool, fails: set<nat>) returns (outcome: Outcome)
      modifies this`blocked, this`calls
      ensures Acted(View(), outcome, calls) == SetWriteBlock(old(View()), on, fails, old(calls))
    {
      var ok := Call(fails);
      if !ok { return Error; }
      if blocked == on { return Done; }
      ok := Call(fails);
      if !ok { return Error; }
      blocked := on;
      outcome := Done;
    }

    method Route(s: Spec, fails: set<nat>) returns (outcome: Outcome)
      modifies this`ranges, this`blocked, this`flips, this`calls
      ensures Acted(View(), outcome, calls) == ApplyRouting(s, old(View()), fails, old(calls))
    {
      var ok := Call(fails);
      if !ok { return Error; }
      var merged := MergeSplitRanges(ranges, s.sources, s.targets);
      ok := Call(fails);
      if !ok { return Error; }
      ranges, blocked, flips := merged, false, flips + 1;
      outcome := Done;
    }

    method CatchUp(s: Spec, fails: set<nat>) returns (outcome: Outcome)
      modifies this`jobs, this`blocked, this`calls
      ensures Acted(View(), outcome, calls) == ReconcileCDC(s, old(View()), fails, old(calls))
    {
      outcome := ReconcileModeJobs(s, CdcSetup, fails);
      if !outcome.Done? { return; }
      outcome := WriteBlock(true, fails);
      if !outcome.Done? { return; }
      outcome := ReconcileModeJobs(s, CdcFinalize, fails);
    }

    method FindCdcJob(s: Spec, fails: set<nat>) returns (outcome: Outcome)
      modifies this`calls
      ensures (outcome, calls) == CdcJobsStarted(CdcPairs(s), jobs, fails, old(calls))
    {
      ghost var whole := CdcJobsStarted(CdcPairs(s), jobs, fails, calls);
      var m := 0;
      ghost var after := [CdcPairs(s), ModePairs(CdcFinalize, s.targets) + ModePairs(CdcAbort, s.targets),
                          ModePairs(CdcAbort, s.targets), []];
      while m < 3
        invariant 0 <= m <= 3
        invariant CdcJobsStarted(after[m], jobs, fails, calls) == whole
      {
        var mode := CDC_MODES[m];
        assert after[m] == ModePairs(mode, s.targets) + after[m + 1];
        for i := 0 to |s.targets|
          invariant CdcJobsStarted(ModePairs(mode, s.targets[i..]) + after[m + 1], jobs, fails, calls) == whole
        {
          ghost var rest := ModePairs(mode, s.targets[i..]) + after[m + 1];
          assert s.targets[i..][1..] == s.targets[i + 1..];
          assert rest[1..] == ModePairs(mode, s.targets[i + 1..]) + after[m + 1];
          var ok := Call(fails);
          if !ok { return Error; }
          if JobId(mode, s.targets[i].shardId) in jobs { return Done; }
        }
        assert ModePairs(mode, s.targets[|s.targets|..]) + after[m + 1] == after[m + 1];
        m := m + 1;
      }
      outcome := Wait;
    }

    method CleanUpAborted(s: Spec, fails: set<nat>) returns (outcome: Outcome)
      modifies this`jobs, this`blocked, this`calls
      ensures Acted(View(), outcome, calls) == AbortCleanup(s, old(View()), fails, old(calls))
    {
      if !s.online { return Done; }
      var started := FindCdcJob(s, fails);
      if started.Error? { return Error; }
      if started.Wait? { return Done; }
      outcome := ReconcileModeJobs(s, CdcAbort, fails);
      if !outcome.Done? { return; }
      outcome := WriteBlock(false, fails);
      if outcome.Error? { return Fail; }
    }

    method RunPhase(s: Spec, e: Env) returns (outcome: Outcome)
      modifies this`jobs, this`blocked, this`ranges, this`flips, this`calls
      ensures Acted(View(), outcome, calls) == PhaseAction(s, old(View()), e, old(calls))
    {
      match phase {
        case Bootstrap =>
          outcome := match e.bootstrap
            case BootstrapFailed => Fail
            case ReadinessError => Error
            case TargetsNotReady => Wait
            case TargetsReady => Done;
        case InitialCopy =>
          outcome := Done;
          if !s.online { outcome := ReconcileModeJobs(s, Copy, e.fails); }
        case CDCCatchup =>
          outcome := Done;
          if s.online { outcome := CatchUp(s, e.fails); }
        case Cutover =>
          outcome := Done;
          if !s.allowForwardOnly { outcome := WriteBlock(true, e.fails); }
        case RoutingUpdate =>
          outcome := Route(s, e.fails);
          if outcome.Error? { outcome := Fail; }
        case Cleanup =>
          outcome := ReconcileModeJobs(s, Delete, e.fails);
        case Promote =>
          if e.promote.PromoteError? { return Error; }
          if e.promote.PromoteWait? || !PromoteRangesReady(s, ranges) { return Wait; }
          outcome := if e.promote.PromoteFailed? then Fail else Done;
        case _ =>
          outcome := Done;
      }
    }

    method ReconcileOnce(s: Spec, e: Env)
      modifies this
      ensures View() == Reconcile(s, old(View()), e)
    {
      calls := 0;
      var ok := Call(e.fails);
      if !ok || phase.Completed? { return; }
      if Terminal(phase) {
        if !s.online || cleaned { return; }
        var verdict := CleanUpAborted(s, e.fails);
        if verdict.Error? { return; }
        ok := Call(e.fails);
        if ok && verdict.Done? { cleaned := true; }
        return;
      }
      if Unsupported(s) {
        UpdateStatus(Failed, e.fails);
        return;
      }
      if (phase.NoPhase? || phase.Pending?) && e.hold {
        if phase.NoPhase? { UpdateStatus(Pending, e.fails); }
        return;
      }
      var outcome := RunPhase(s, e);
      match outcome {
        case Done => UpdateStatus(NextPhase(s, phase), e.fails);
        case Fail => UpdateStatus(Failed, e.fails);
        case _ =>
      }
    }
  }
}
