/** Offline restore: the restore runner and the shard's pods share one data volume, and an
annotation on the cluster decides whose it is. Backup-job reconciles, cluster reconciles,
the StatefulSet controller and the runner's end interleave freely. */
module Restore {

  datatype Phase = NoPhase | Pending | Running | Succeeded | Failed

  /** A restore job's status: its phase and whether it has recorded its runner. */
  datatype RestoreJob = RestoreJob(phase: Phase, hasRunner: bool)

  datatype Runner = Active | Complete | RunnerFailed

  /** `owner` is the annotation, empty when absent; `replicas` and `pods` are shard 0's;
      `seen` is what a cluster reconcile in progress read: whether pods are to be stopped. */
  datatype World = World(
    owner: string, replicas: nat, pods: nat, members: nat, hibernating: bool,
    jobs: map<string, RestoreJob>, runners: map<string, Runner>, seen: bool)

  datatype Health = Ready | Crashed | Starting | TimedOut

  /** What one reconcile meets: the numbers of the API calls that fail, whether the job is
      accepted (its cluster is found, its spec is valid, its plugin is registered and can
      restore), whether the StatefulSet exists, whether a restore command can be built, and
      the pods' health. */
  datatype Env = Env(fails: set<nat>, accepted: bool, setExists: bool, commandOk: bool, health: Health)

  function SetStatus(w: World, n: string, job: RestoreJob, fails: set<nat>, call: nat): World {
    if call in fails then w else w.(jobs := w.jobs[n := job])
  }

  /** The runner is done: give the annotation back, then judge the restarted database. */
  function Finalize(w: World, n: string, job: RestoreJob, e: Env, call: nat): World {
    if w.owner == n && call in e.fails then w
    else
      var w1 := if w.owner == n then w.(owner := "") else w;
      var next := if w.owner == n then call + 1 else call;
      if next in e.fails then w1
      else match e.health
        case Ready => SetStatus(w1, n, job.(phase := Succeeded), e.fails, next + 1)
        case Crashed => SetStatus(w1, n, job.(phase := Failed), e.fails, next + 1)
        case TimedOut => SetStatus(w1, n, job.(phase := Failed), e.fails, next + 1)
        case Starting => w1
  }

  /** The annotation is held: stop the shard, wait for its pods, run the restore. */
  function Restoring(w: World, n: string, job: RestoreJob, e: Env, call: nat): World {
    if job.hasRunner && call !in e.fails && n in w.runners && w.runners[n].Complete? then
      Finalize(w, n, job, e, call + 1)
    else
      var c := if job.hasRunner then call + 1 else call;
      if c in e.fails then w
      else if !e.setExists then SetStatus(w, n, job.(phase := Failed), e.fails, c + 1)
      else if w.replicas != 0 then (if c + 1 in e.fails then w else w.(replicas := 0))
      else if c + 1 in e.fails then w
      else if w.pods != 0 then w
      else if !job.hasRunner then
        if !e.commandOk then SetStatus(w, n, job.(phase := Failed), e.fails, c + 2)
        else if c + 2 in e.fails then w
        else
          var runner := if n in w.runners then w.runners[n] else Active;
          SetStatus(w.(runners := w.runners[n := runner]), n, job.(hasRunner := true), e.fails, c + 3)
      else if c + 2 in e.fails then w
      else if n !in w.runners then SetStatus(w, n, job.(phase := Failed), e.fails, c + 3)
      else match w.runners[n]
        case Complete => Finalize(w, n, job, e, c + 3)
        case RunnerFailed => SetStatus(w, n, job.(phase := Failed), e.fails, c + 3)
        case Active => w
  }

  /** One reconcile of a restore job. */
  function ReconcileJob(w: World, n: string, e: Env): World {
    if n !in w.jobs || 0 in e.fails then w
    else
      var job := w.jobs[n];
      if job.phase.Succeeded? || job.phase.Failed? || 1 in e.fails then w
      else if !e.accepted then SetStatus(w, n, job.(phase := Failed), e.fails, 2)
      else if job.phase.NoPhase? then SetStatus(w, n, job.(phase := Pending), e.fails, 2)
      else if job.phase.Pending? then SetStatus(w, n, job.(phase := Running), e.fails, 2)
      else if w.owner == n then Restoring(w, n, job, e, 2)
      else if w.owner != "" then SetStatus(w, n, job.(phase := Failed), e.fails, 2)
      else if 2 in e.fails then w
      else Restoring(w.(owner := n), n, job, e, 3)
  }

  // ---------------------------------------------------------------------------
  // The reconcile as imperative code.

  class Controller {
    var w: World
    var calls: nat

    method Call(fails: set<nat>) returns (ok: bool)
      modifies this`calls
      ensures ok <==> old(calls) !in fails
      ensures calls == old(calls) + 1
    {
      ok := calls !in fails;
      calls := calls + 1;
    }

    method UpdateStatus(n: string, job: RestoreJob, fails: set<nat>)
      modifies this
      ensures w == SetStatus(old(w), n, job, fails, old(calls))
    {
      var ok := Call(fails);
      if ok { w := w.(jobs := w.jobs[n := job]); }
    }

    method FinalizeRestore(n: string, job: RestoreJob, e: Env)
      modifies this
      ensures w == Finalize(old(w), n, job, e, old(calls))
    {
      if w.owner == n {
        var ok := Call(e.fails);
        if !ok { return; }
        w := w.(owner := "");
      }
      var listed := Call(e.fails);
      if !listed { return; }
      if e.health.Ready? {
        UpdateStatus(n, job.(phase := Succeeded), e.fails);
      } else if e.health.Crashed? || e.health.TimedOut? {
        UpdateStatus(n, job.(phase := Failed), e.fails);
      }
    }

    method RunRestore(n: string, job: RestoreJob, e: Env)
      modifies this
      ensures w == Restoring(old(w), n, job, e, old(calls))
    {
      var ok: bool;
      if job.hasRunner {
        ok := Call(e.fails);
        if ok && n in w.runners && w.runners[n].Complete? {
          FinalizeRestore(n, job, e);
          return;
        }
      }
      ok := Call(e.fails);
      if !ok { return; }
      if !e.setExists {
        UpdateStatus(n, job.(phase := Failed), e.fails);
        return;
      }
      ok := Call(e.fails);
      if w.replicas != 0 {
        if ok { w := w.(replicas := 0); }
        return;
      }
      if !ok || w.pods != 0 { return; }
      if !job.hasRunner {
        if !e.commandOk {
          UpdateStatus(n, job.(phase := Failed), e.fails);
          return;
        }
        ok := Call(e.fails);
        if !ok { return; }
        if n !in w.runners { w := w.(runners := w.runners[n := Active]); }
        assert w.runners == w.runners[n := w.runners[n]];
        UpdateStatus(n, job.(hasRunner := true), e.fails);
        return;
      }
      ok := Call(e.fails);
      if !ok { return; }
      if n !in w.runners || w.runners[n].RunnerFailed? {
        UpdateStatus(n, job.(phase := Failed), e.fails);
      } else if w.runners[n].Complete? {
        FinalizeRestore(n, job, e);
      }
    }

    method Reconcile(n: string, e: Env)
      requires calls == 0
      modifies this
      ensures w == ReconcileJob(old(w), n, e)
    {
      if n !in w.jobs { return; }
      var ok := Call(e.fails);
      if !ok { return; }
      var job := w.jobs[n];
      if job.phase.Succeeded? || job.phase.Failed? { return; }
      ok := Call(e.fails);
      if !ok { return; }
      if !e.accepted {
        UpdateStatus(n, job.(phase := Failed), e.fails);
      } else if job.phase.NoPhase? {
        UpdateStatus(n, job.(phase := Pending), e.fails);
      } else if job.phase.Pending? {
        UpdateStatus(n, job.(phase := Running), e.fails);
      } else if w.owner == n {
        RunRestore(n, job, e);
      } else if w.owner != "" {
        UpdateStatus(n, job.(phase := Failed), e.fails);
      } else {
        ok := Call(e.fails);
        if !ok { return; }
        w := w.(owner := n);
        RunRestore(n, job, e);
      }
    }
  }

  // ---------------------------------------------------------------------------
  // Everything that can happen.

  datatype Event =
    | NewJob(name: string)
    | DeleteJob(name: string)
    | Backup(name: string, env: Env)
    | ClusterRead
    | ClusterWrite
    | PodStarts
    | PodGoes
    | RunnerEnds(name: string, ok: bool)
    | RunnerVanishes(name: string)
    | Hibernate(on: bool)

  predicate MustStop(w: World) {
    w.hibernating || w.owner != ""
  }

  function Next(w: World, ev: Event): World {
    match ev
    case NewJob(n) =>
      if n == "" || n in w.jobs || n in w.runners then w
      else w.(jobs := w.jobs[n := RestoreJob(NoPhase, false)])
    case DeleteJob(n) => w.(jobs := w.jobs - {n}, runners := w.runners - {n})
    case Backup(n, env) => ReconcileJob(w, n, env)
    case ClusterRead => w.(seen := MustStop(w))
    case ClusterWrite => w.(replicas := if w.seen then 0 else w.members)
    case PodStarts => if w.pods < w.replicas then w.(pods := w.pods + 1) else w
    case PodGoes => if w.pods > 0 then w.(pods := w.pods - 1) else w
    case RunnerEnds(n, ok) =>
      if n in w.runners && w.runners[n].Active? then
        w.(runners := w.runners[n := if ok then Complete else RunnerFailed])
      else w
    case RunnerVanishes(n) => w.(runners := w.runners - {n})
    case Hibernate(on) => w.(hibernating := on)
  }

  function Run(w: World, evs: seq<Event>): World {
    if evs == [] then w else Next(Run(w, evs[..|evs| - 1]), evs[|evs| - 1])
  }

  /** A cluster that no restore has touched. */
  predicate Fresh(w: World) {
    w.owner == "" && w.jobs == map[] && w.runners == map[]
  }

  /** A cluster write now starts no pod beside a runner: its reconcile saw that the shard must
      stop, or there is nothing to start, or no runner is active. */
  ghost predicate WriteIsSafe(w: World) {
    w.seen || w.members == 0 || forall n :: n in w.runners ==> !w.runners[n].Active?
  }

  ghost predicate WritesAreSafe(w: World, evs: seq<Event>) {
    forall i :: 0 <= i < |evs| && evs[i].ClusterWrite? ==> WriteIsSafe(Run(w, evs[..i]))
  }

  // ---------------------------------------------------------------------------
  // The runner has the volume to itself.

  /** While a runner is active its job holds the annotation, the shard is scaled to zero and
      has no pod. */
  ghost predicate Exclusive(w: World) {
    forall n :: n in w.runners && w.runners[n].Active? ==> w.owner == n && w.replicas == 0 && w.pods == 0
  }

  ghost predicate Named(w: World) {
    && (forall n :: n in w.jobs || n in w.runners ==> n != "")
    && (forall n :: n in w.jobs && w.jobs[n].phase.Succeeded? ==> w.owner != n)
  }

  lemma FinalizeKeeps(w: World, n: string, job: RestoreJob, e: Env, call: nat)
    requires Exclusive(w) && n in w.jobs && n in w.runners && w.runners[n].Complete?
    ensures var w' := Finalize(w, n, job, e, call);
      && Exclusive(w') && w'.replicas == w.replicas && w'.runners == w.runners
      && (w'.owner == w.owner || (w.owner == n && w'.owner == ""))
  {
  }

  lemma RestoringKeeps(w: World, n: string, job: RestoreJob, e: Env, call: nat)
    requires Exclusive(w) && n in w.jobs && w.owner == n
    ensures Exclusive(Restoring(w, n, job, e, call))
  {
    var c := if job.hasRunner then call + 1 else call;
    if n in w.runners && w.runners[n].Complete? {
      FinalizeKeeps(w, n, job, e, call + 1);
      FinalizeKeeps(w, n, job, e, c + 3);
    }
    StatusKeeps(w, n, job.(phase := Failed), e.fails);
    if w.replicas == 0 && w.pods == 0 {
      RunnerMayStart(w, n);
      var runner := if n in w.runners then w.runners[n] else Active;
      StatusKeeps(w.(runners := w.runners[n := runner]), n, job.(hasRunner := true), e.fails);
    }
  }

  lemma StatusKeeps(w: World, n: string, job: RestoreJob, fails: set<nat>)
    requires Exclusive(w)
    ensures forall call :: Exclusive(SetStatus(w, n, job, fails, call))
  {
  }

  lemma RunnerMayStart(w: World, n: string)
    requires Exclusive(w) && w.owner == n && w.replicas == 0 && w.pods == 0
    ensures var runner := if n in w.runners then w.runners[n] else Active;
      Exclusive(w.(runners := w.runners[n := runner]))
  {
  }

  lemma BackupKeeps(w: World, n: string, e: Env)
    requires Exclusive(w) && Named(w)
    ensures Exclusive(ReconcileJob(w, n, e))
  {
    if n in w.jobs && w.jobs[n].phase.Running? {
      var job := w.jobs[n];
      if w.owner == n {
        RestoringKeeps(w, n, job, e, 2);
      } else if w.owner == "" {
        RestoringKeeps(w.(owner := n), n, job, e, 3);
      }
    }
  }

  /** A cluster write keeps the runner alone exactly when there is no active runner, it read
      that pods are to be stopped, or the cluster has no members. */
  lemma ClusterWriteIsSafe(w: World)
    requires Exclusive(w)
    ensures Exclusive(Next(w, ClusterWrite)) <==> WriteIsSafe(w)
  {
  }

  lemma NextKeeps(w: World, ev: Event)
    requires Exclusive(w) && Named(w)
    requires ev.ClusterWrite? ==> WriteIsSafe(w)
    ensures Exclusive(Next(w, ev))
  {
    match ev
    case Backup(n, env) => BackupKeeps(w, n, env);
    case ClusterWrite => ClusterWriteIsSafe(w);
    case _ =>
  }

  lemma {:induction false} RunKeeps(w: World, evs: seq<Event>)
    requires Fresh(w) && WritesAreSafe(w, evs)
    ensures Exclusive(Run(w, evs))
  {
    if evs != [] {
      var before := evs[..|evs| - 1];
      SafePrefix(w, evs, |before|);
      RunKeeps(w, before);
      NamedRun(w, before);
      NextKeeps(Run(w, before), evs[|evs| - 1]);
    }
  }

  lemma SafePrefix(w: World, evs: seq<Event>, n: nat)
    requires WritesAreSafe(w, evs) && n <= |evs|
    ensures WritesAreSafe(w, evs[..n])
  {
    assert forall i :: 0 <= i < n ==> evs[..n][i] == evs[i] && evs[..n][..i] == evs[..i];
  }

  /** A run keeps the runner alone in all its states exactly when all its cluster writes are
      safe. */
  lemma ExclusiveRuns(w: World, evs: seq<Event>)
    requires Fresh(w)
    ensures (forall i :: 0 <= i <= |evs| ==> Exclusive(Run(w, evs[..i]))) <==> WritesAreSafe(w, evs)
  {
    if WritesAreSafe(w, evs) {
      forall i | 0 <= i <= |evs| ensures Exclusive(Run(w, evs[..i])) {
        SafePrefix(w, evs, i);
        RunKeeps(w, evs[..i]);
      }
    } else {
      var i :| 0 <= i < |evs| && evs[i].ClusterWrite? && !WriteIsSafe(Run(w, evs[..i]));
      UnsafeWrite(w, evs, i);
    }
  }

  lemma UnsafeWrite(w: World, evs: seq<Event>, i: nat)
    requires i < |evs| && evs[i].ClusterWrite? && !WriteIsSafe(Run(w, evs[..i]))
    ensures !Exclusive(Run(w, evs[..i])) || !Exclusive(Run(w, evs[..i + 1]))
  {
    assert evs[..i + 1][..i] == evs[..i];
    if Exclusive(Run(w, evs[..i])) { ClusterWriteIsSafe(Run(w, evs[..i])); }
  }

  /** In every state of every run: at most one restore runner is active, and while it is, its
      job holds the annotation, shard 0 has zero replicas and no pod. */
  lemma RunnerIsAlone(w: World, evs: seq<Event>, m: string, n: string)
    requires Fresh(w) && WritesAreSafe(w, evs)
    requires m in Run(w, evs).runners && Run(w, evs).runners[m].Active?
    requires n in Run(w, evs).runners && Run(w, evs).runners[n].Active?
    ensures m == n && Run(w, evs).owner == n && Run(w, evs).replicas == 0 && Run(w, evs).pods == 0
  {
    RunKeeps(w, evs);
  }

  // ---------------------------------------------------------------------------
  // Reconciles that act on what they have just read.

  /** A cluster write at `i` belongs to the read at `j`. */
  ghost predicate ReadAt(evs: seq<Event>, j: nat, i: nat) {
    j < i <= |evs| && evs[j].ClusterRead? && forall k :: j < k < i ==> !evs[k].ClusterRead?
  }

  /** At every cluster write, what its reconcile read is what it would read now. */
  ghost predicate CurrentReads(w: World, evs: seq<Event>) {
    forall i :: 0 <= i < |evs| && evs[i].ClusterWrite? ==>
      exists j :: 0 <= j < i && ReadAt(evs, j, i) && MustStop(Run(w, evs[..j])) == MustStop(Run(w, evs[..i]))
  }

  /** No backup-job reconcile and no hibernation between a cluster write and its read: so are
      the runs whose cluster reconciles are atomic. */
  ghost predicate QuietReads(evs: seq<Event>) {
    forall i :: 0 <= i < |evs| && evs[i].ClusterWrite? ==>
      exists j :: 0 <= j < i && QuietAt(evs, j, i)
  }

  ghost predicate QuietAt(evs: seq<Event>, j: nat, i: nat) {
    ReadAt(evs, j, i) && forall k :: j < k < i ==> !evs[k].Backup? && !evs[k].Hibernate?
  }

  ghost predicate AtomicReconciles(evs: seq<Event>) {
    forall i :: 0 <= i < |evs| && evs[i].ClusterWrite? ==> i > 0 && evs[i - 1].ClusterRead?
  }

  lemma NextKeepsSeen(w: World, ev: Event)
    requires !ev.ClusterRead?
    ensures Next(w, ev).seen == w.seen
  {
  }

  lemma {:induction false} SeenStays(w: World, evs: seq<Event>, j: nat, i: nat)
    requires ReadAt(evs, j, i)
    ensures Run(w, evs[..i]).seen == MustStop(Run(w, evs[..j]))
    decreases i
  {
    RunOne(w, evs, i - 1);
    if j < i - 1 {
      SeenStays(w, evs, j, i - 1);
      NextKeepsSeen(Run(w, evs[..i - 1]), evs[i - 1]);
    }
  }

  lemma RunOne(w: World, evs: seq<Event>, i: nat)
    requires i < |evs|
    ensures Run(w, evs[..i + 1]) == Next(Run(w, evs[..i]), evs[i])
  {
    assert evs[..i + 1][..i] == evs[..i];
  }

  /** A write on a current read is safe. */
  lemma CurrentWriteIsSafe(w: World, evs: seq<Event>, i: nat)
    requires Fresh(w) && i < |evs| && evs[i].ClusterWrite? && CurrentReads(w, evs) && Exclusive(Run(w, evs[..i]))
    ensures WriteIsSafe(Run(w, evs[..i]))
  {
    var j :| 0 <= j < i && ReadAt(evs, j, i) && MustStop(Run(w, evs[..j])) == MustStop(Run(w, evs[..i]));
    SeenStays(w, evs, j, i);
    NamedRun(w, evs[..i]);
  }

  lemma {:induction false} CurrentIsSafe(w: World, evs: seq<Event>, n: nat)
    requires Fresh(w) && CurrentReads(w, evs) && n <= |evs|
    ensures WritesAreSafe(w, evs[..n])
  {
    if n > 0 {
      CurrentIsSafe(w, evs, n - 1);
      RunKeeps(w, evs[..n - 1]);
      if evs[n - 1].ClusterWrite? { CurrentWriteIsSafe(w, evs, n - 1); }
      SafeLonger(w, evs, n);
    }
  }

  lemma SafeLonger(w: World, evs: seq<Event>, n: nat)
    requires 0 < n <= |evs| && WritesAreSafe(w, evs[..n - 1])
    requires evs[n - 1].ClusterWrite? ==> WriteIsSafe(Run(w, evs[..n - 1]))
    ensures WritesAreSafe(w, evs[..n])
  {
    forall i | 0 <= i < n && evs[..n][i].ClusterWrite? ensures WriteIsSafe(Run(w, evs[..n][..i])) {
      assert evs[..n][..i] == evs[..i];
      if i < n - 1 { assert evs[..n - 1][..i] == evs[..i] && evs[..n - 1][i] == evs[i]; }
    }
  }

  lemma {:induction false} QuietStays(w: World, evs: seq<Event>, j: nat, i: nat)
    requires QuietAt(evs, j, i)
    ensures MustStop(Run(w, evs[..i])) == MustStop(Run(w, evs[..j]))
    decreases i
  {
    RunOne(w, evs, i - 1);
    if j < i - 1 { QuietStays(w, evs, j, i - 1); }
  }

  lemma QuietIsCurrent(w: World, evs: seq<Event>)
    requires QuietReads(evs)
    ensures CurrentReads(w, evs)
  {
    forall i | 0 <= i < |evs| && evs[i].ClusterWrite?
      ensures exists j :: 0 <= j < i && ReadAt(evs, j, i) && MustStop(Run(w, evs[..j])) == MustStop(Run(w, evs[..i]))
    {
      var j :| 0 <= j < i && QuietAt(evs, j, i);
      QuietStays(w, evs, j, i);
    }
  }

  /** With every cluster reconcile atomic, or only undisturbed by backup-job reconciles and
      hibernation, the runner is alone in every state of every run. */
  lemma QuietRunnerIsAlone(w: World, evs: seq<Event>, m: string, n: string)
    requires Fresh(w) && (QuietReads(evs) || AtomicReconciles(evs))
    requires m in Run(w, evs).runners && Run(w, evs).runners[m].Active?
    requires n in Run(w, evs).runners && Run(w, evs).runners[n].Active?
    ensures m == n && Run(w, evs).owner == n && Run(w, evs).replicas == 0 && Run(w, evs).pods == 0
  {
    if AtomicReconciles(evs) { AtomicIsQuiet(evs); }
    QuietIsCurrent(w, evs);
    CurrentIsSafe(w, evs, |evs|);
    assert evs[..|evs|] == evs;
    RunnerIsAlone(w, evs, m, n);
  }

  lemma AtomicIsQuiet(evs: seq<Event>)
    requires AtomicReconciles(evs)
    ensures QuietReads(evs)
  {
    forall i | 0 <= i < |evs| && evs[i].ClusterWrite? ensures exists j :: 0 <= j < i && QuietAt(evs, j, i) {
      assert QuietAt(evs, i - 1, i);
    }
  }

  // ---------------------------------------------------------------------------
  // When the annotation is given back.

  /** A job that succeeded no longer holds the annotation. */
  lemma SucceededHasReleased(w: World, evs: seq<Event>, n: string)
    requires Fresh(w) && n in Run(w, evs).jobs && Run(w, evs).jobs[n].phase.Succeeded?
    ensures Run(w, evs).owner != n
  {
    NamedRun(w, evs);
  }

  lemma {:induction false} NamedRun(w: World, evs: seq<Event>)
    requires Fresh(w)
    ensures Named(Run(w, evs))
  {
    if evs != [] {
      NamedRun(w, evs[..|evs| - 1]);
      NamedNext(Run(w, evs[..|evs| - 1]), evs[|evs| - 1]);
    }
  }

  lemma NamedNext(w: World, ev: Event)
    requires Named(w)
    ensures Named(Next(w, ev))
  {
    if ev.Backup? { NamedBackup(w, ev.name, ev.env); }
  }

  lemma NamedBackup(w: World, n: string, e: Env)
    requires Named(w)
    ensures Named(ReconcileJob(w, n, e))
  {
    if n in w.jobs {
      var job := w.jobs[n];
      NamedStatus(w, n, job.(phase := Pending), e.fails);
      NamedStatus(w, n, job.(phase := Running), e.fails);
      NamedStatus(w, n, job.(phase := Failed), e.fails);
      if job.phase.Running? {
        if w.owner == n { NamedRestoring(w, n, job, e, 2); }
        if w.owner == "" { NamedRestoring(w.(owner := n), n, job, e, 3); }
      }
    }
  }

  lemma NamedStatus(w: World, n: string, job: RestoreJob, fails: set<nat>)
    requires Named(w) && n in w.jobs && (job.phase.Succeeded? ==> w.owner != n)
    ensures forall call :: Named(SetStatus(w, n, job, fails, call))
  {
  }

  lemma NamedFinalize(w: World, n: string, job: RestoreJob, e: Env, call: nat)
    requires Named(w) && n in w.jobs
    ensures Named(Finalize(w, n, job, e, call))
  {
    var w1 := if w.owner == n then w.(owner := "") else w;
    NamedStatus(w1, n, job.(phase := Succeeded), e.fails);
    NamedStatus(w1, n, job.(phase := Failed), e.fails);
  }

  lemma NamedRestoring(w: World, n: string, job: RestoreJob, e: Env, call: nat)
    requires Named(w) && n in w.jobs && job.phase.Running?
    ensures Named(Restoring(w, n, job, e, call))
  {
    var c := if job.hasRunner then call + 1 else call;
    var runner := if n in w.runners then w.runners[n] else Active;
    var started := w.(runners := w.runners[n := runner]);
    NamedFinalize(w, n, job, e, call + 1);
    NamedFinalize(w, n, job, e, c + 3);
    NamedStatus(w, n, job.(phase := Failed), e.fails);
    NamedStatus(started, n, job.(hasRunner := true), e.fails);
  }

  /** An undisturbed reconcile of a job whose runner is complete gives the annotation back and judges
      the restarted database: the job succeeds if it is ready, goes on if it is starting, and fails
      if it crashes or does not start in time. */
  lemma RestoreVerdict(w: World, n: string, e: Env)
    requires n != "" && n in w.jobs && w.jobs[n] == RestoreJob(Running, true) && (w.owner == n || w.owner == "")
    requires n in w.runners && w.runners[n].Complete? && e.fails == {} && e.accepted
    ensures var phase := ReconcileJob(w, n, e).jobs[n].phase;
      && ReconcileJob(w, n, e) == w.(owner := "", jobs := w.jobs[n := RestoreJob(phase, true)])
      && (phase.Succeeded? <==> e.health.Ready?) && (phase.Running? <==> e.health.Starting?)
      && (phase.Failed? <==> e.health.Crashed? || e.health.TimedOut?)
  {
    if e.health.Starting? { assert w.jobs == w.jobs[n := w.jobs[n]]; }
  }

  /** Whatever fails, a job succeeds only with a complete runner and a ready database. */
  lemma SucceedsOnlyIfReady(w: World, n: string, e: Env)
    requires n in w.jobs && !w.jobs[n].phase.Succeeded?
    ensures ReconcileJob(w, n, e).jobs[n].phase.Succeeded? ==>
      && w.jobs[n] == RestoreJob(Running, true) && n in w.runners && w.runners[n].Complete?
      && e.accepted && e.health.Ready?
  {
  }

  /** The job may hold the annotation and its shard's state is looked at. */
  predicate Proceeds(w: World, n: string, e: Env) {
    && n in w.jobs && w.jobs[n].phase.Running? && e.accepted && (w.owner == n || w.owner == "")
    && !(w.jobs[n].hasRunner && n in w.runners && w.runners[n].Complete?)
  }

  lemma RestoringFails(w: World, n: string, job: RestoreJob, e: Env, call: nat)
    requires n in w.jobs && w.jobs[n] == job && job.phase.Running? && e.fails == {}
    requires !(job.hasRunner && n in w.runners && w.runners[n].Complete?)
    ensures Restoring(w, n, job, e, call).jobs[n].phase.Failed? <==>
      || !e.setExists
      || (w.replicas == 0 && w.pods == 0 &&
          if job.hasRunner then n !in w.runners || w.runners[n].RunnerFailed? else !e.commandOk)
  {
  }

  lemma ProceedingFails(w: World, n: string, e: Env)
    requires n != "" && Proceeds(w, n, e) && e.fails == {}
    ensures ReconcileJob(w, n, e).jobs[n].phase.Failed? <==>
      || !e.setExists
      || (w.replicas == 0 && w.pods == 0 &&
          if w.jobs[n].hasRunner then n !in w.runners || w.runners[n].RunnerFailed? else !e.commandOk)
  {
    RestoringFails(w.(owner := n), n, w.jobs[n], e, if w.owner == n then 2 else 3);
    if w.owner == n { assert w.(owner := n) == w; }
  }

  /** An undisturbed reconcile fails an unfinished job exactly if it is refused, another job holds
      the annotation, its StatefulSet is missing, its runner failed, vanished or cannot be built
      once the shard is down, or the restored database does not come up. */
  lemma RestoreFailsExactlyIf(w: World, n: string, e: Env)
    requires n != "" && n in w.jobs && !w.jobs[n].phase.Failed? && !w.jobs[n].phase.Succeeded? && e.fails == {}
    ensures ReconcileJob(w, n, e).jobs[n].phase.Failed? <==>
      var job := w.jobs[n];
      || !e.accepted
      || (job.phase.Running? && w.owner != "" && w.owner != n)
      || (Proceeds(w, n, e) && !e.setExists)
      || (Proceeds(w, n, e) && w.replicas == 0 && w.pods == 0 &&
          if job.hasRunner then n !in w.runners || w.runners[n].RunnerFailed? else !e.commandOk)
      || (job.phase.Running? && (w.owner == n || w.owner == "") && !Proceeds(w, n, e)
          && (e.health.Crashed? || e.health.TimedOut?))
  {
    var job := w.jobs[n];
    if Proceeds(w, n, e) {
      ProceedingFails(w, n, e);
    } else if job.phase.Running? && e.accepted && (w.owner == n || w.owner == "") {
      RestoreVerdict(w, n, e);
    }
  }

  lemma RestoringProceeds(w: World, n: string, job: RestoreJob, e: Env, call: nat)
    requires n in w.jobs && w.jobs[n] == job && e.fails == {}
    requires !(job.hasRunner && n in w.runners && w.runners[n].Complete?)
    ensures var w' := Restoring(w, n, job, e, call);
      && w'.owner == w.owner && w'.pods == w.pods && (e.setExists ==> w'.replicas == 0) && n in w'.jobs
      && w'.jobs[n].hasRunner == (job.hasRunner || (e.setExists && w.replicas == 0 && w.pods == 0 && e.commandOk))
      && (n !in w.runners ==> (n in w'.runners <==> !job.hasRunner && w'.jobs[n].hasRunner))
      && (n in w'.runners ==> w'.runners[n] == if n in w.runners then w.runners[n] else Active)
  {
  }

  /** An undisturbed reconcile of a job that may go on takes the annotation; it scales the shard
      down, and starts a runner exactly when the shard is down, has no pod, and the job has none
      and can build one. */
  lemma RestoreProceeds(w: World, n: string, e: Env)
    requires n != "" && Proceeds(w, n, e) && e.fails == {}
    ensures var w' := ReconcileJob(w, n, e);
      && w'.owner == n && w'.pods == w.pods && (e.setExists ==> w'.replicas == 0)
      && w'.jobs[n].hasRunner ==
         (w.jobs[n].hasRunner || (e.setExists && w.replicas == 0 && w.pods == 0 && e.commandOk))
      && (n !in w.runners ==> (n in w'.runners <==> !w.jobs[n].hasRunner && w'.jobs[n].hasRunner))
      && (n in w'.runners ==> w'.runners[n] == if n in w.runners then w.runners[n] else Active)
  {
    RestoringProceeds(w.(owner := n), n, w.jobs[n], e, if w.owner == n then 2 else 3);
    if w.owner == n { assert w.(owner := n) == w; }
  }

  /** The pods of a shard that is scaled down go one after the other. */
  function Drained(n: nat): seq<Event> {
    seq(n, i => PodGoes)
  }

  lemma {:induction false} DrainedRun(w: World, n: nat)
    requires n <= w.pods
    ensures Run(w, Drained(n)) == w.(pods := w.pods - n)
  {
    if n > 0 {
      DrainedRun(w, n - 1);
      assert Drained(n)[..n - 1] == Drained(n - 1);
    }
  }

  lemma {:induction false} RunConcat(w: World, a: seq<Event>, b: seq<Event>)
    ensures Run(w, a + b) == Run(Run(w, a), b)
  {
    if b == [] {
      assert a + b == a;
    } else {
      RunConcat(w, a, b[..|b| - 1]);
      assert (a + b)[..|a + b| - 1] == a + b[..|b| - 1];
    }
  }

  /** The events of a restore in which nothing goes wrong, from a running job on. */
  function Course(n: string, pods: nat, e: Env): seq<Event> {
    [Backup(n, e)] + Drained(pods) + [Backup(n, e), RunnerEnds(n, true), Backup(n, e)]
  }

  lemma RunSingle(w: World, ev: Event)
    ensures Run(w, [ev]) == Next(w, ev)
  {
    assert [ev][..0] == [] && Run(w, []) == w;
  }

  lemma RunTriple(w: World, a: Event, b: Event, c: Event)
    ensures Run(w, [a, b, c]) == Next(Next(Next(w, a), b), c)
  {
    RunSingle(w, a);
    assert [a, b][..1] == [a] && [a, b, c][..2] == [a, b];
    assert Run(w, [a, b]) == Next(Next(w, a), b);
  }

  /** The first reconcile takes the annotation and scales the shard down. */
  lemma ScalesDown(w: World, n: string, e: Env)
    requires n != "" && Proceeds(w, n, e) && e.fails == {} && e.setExists && w.replicas > 0
    ensures ReconcileJob(w, n, e) == w.(owner := n, replicas := 0)
  {
  }

  /** With the shard down, the next one starts the runner. */
  lemma StartsRunner(w: World, n: string, e: Env)
    requires n != "" && n in w.jobs && w.jobs[n] == RestoreJob(Running, false) && n !in w.runners && w.owner == n
    requires w.replicas == 0 && w.pods == 0 && e.fails == {} && e.accepted && e.setExists && e.commandOk
    ensures ReconcileJob(w, n, e) ==
      w.(jobs := w.jobs[n := RestoreJob(Running, true)], runners := w.runners[n := Active])
  {
  }

  lemma RestoreEnds(w: World, n: string, e: Env)
    requires n != "" && n in w.jobs && w.jobs[n] == RestoreJob(Running, false) && n !in w.runners && w.owner == n
    requires w.replicas == 0 && w.pods == 0
    requires e.fails == {} && e.accepted && e.setExists && e.commandOk && e.health.Ready?
    ensures Run(w, [Backup(n, e), RunnerEnds(n, true), Backup(n, e)]) ==
      w.(owner := "", jobs := w.jobs[n := RestoreJob(Succeeded, true)], runners := w.runners[n := Complete])
  {
    StartsRunner(w, n, e);
    var w1 := w.(jobs := w.jobs[n := RestoreJob(Running, true)], runners := w.runners[n := Active]);
    var w2 := w1.(runners := w.runners[n := Complete]);
    assert w1.runners[n := Complete] == w.runners[n := Complete];
    assert Next(w1, RunnerEnds(n, true)) == w2;
    RestoreVerdict(w2, n, e);
    assert w1.jobs[n := RestoreJob(Succeeded, true)] == w.jobs[n := RestoreJob(Succeeded, true)];
    RunTriple(w, Backup(n, e), RunnerEnds(n, true), Backup(n, e));
  }

  /** The shard is brought down: the first reconcile, and then the pods. */
  lemma ComesDown(w: World, n: string, e: Env)
    requires n != "" && Proceeds(w, n, e) && e.fails == {} && e.setExists && w.replicas > 0
    ensures Run(w, [Backup(n, e)] + Drained(w.pods)) == w.(owner := n, replicas := 0, pods := 0)
  {
    ScalesDown(w, n, e);
    RunSingle(w, Backup(n, e));
    RunConcat(w, [Backup(n, e)], Drained(w.pods));
    DrainedRun(w.(owner := n, replicas := 0), w.pods);
  }

  /** From any state in which a running job may take the annotation and has no runner, the course of
      events leads to success: the annotation is given back and the shard is down and empty, as the
      next cluster reconcile finds it. */
  lemma RestoreCompletes(w: World, n: string, e: Env)
    requires n != "" && n in w.jobs && w.jobs[n] == RestoreJob(Running, false) && n !in w.runners
    requires (w.owner == "" || w.owner == n) && w.replicas > 0
    requires e.fails == {} && e.accepted && e.setExists && e.commandOk && e.health.Ready?
    ensures Run(w, Course(n, w.pods, e)) == w.(owner := "", replicas := 0, pods := 0,
      jobs := w.jobs[n := RestoreJob(Succeeded, true)], runners := w.runners[n := Complete])
  {
    var down, rest := [Backup(n, e)] + Drained(w.pods), [Backup(n, e), RunnerEnds(n, true), Backup(n, e)];
    ComesDown(w, n, e);
    RestoreEnds(w.(owner := n, replicas := 0, pods := 0), n, e);
    RunConcat(w, down, rest);
  }

  /** A new job is recorded Pending, then Running, in two undisturbed reconciles. */
  lemma RestoreStarts(w: World, n: string, e: Env)
    requires n in w.jobs && w.jobs[n].phase.NoPhase? && e.fails == {} && e.accepted
    ensures var w' := ReconcileJob(w, n, e);
      && w' == w.(jobs := w.jobs[n := w.jobs[n].(phase := Pending)])
      && ReconcileJob(w', n, e) == w.(jobs := w.jobs[n := w.jobs[n].(phase := Running)])
  {
    assert w.jobs[n := w.jobs[n].(phase := Pending)][n := w.jobs[n].(phase := Running)]
      == w.jobs[n := w.jobs[n].(phase := Running)];
  }

  /** The runner is found complete: at once, or after the shard is found stopped. */
  predicate RunnerSeenComplete(w: World, n: string, e: Env)
    requires n in w.jobs
  {
    && n in w.runners && w.runners[n].Complete? && w.jobs[n].hasRunner
    && (e.setExists || (if w.owner == n then 2 else 3) !in e.fails)
  }

  /** A reconcile that fails the job leaves it holding the annotation exactly when: the job was
      refused and held it before; or it was accepted, held or could take the annotation, and
      did not find the runner complete. */
  lemma FailedKeepsAnnotation(w: World, n: string, e: Env)
    requires n in w.jobs && !w.jobs[n].phase.Failed? && n != ""
    requires n in ReconcileJob(w, n, e).jobs && ReconcileJob(w, n, e).jobs[n].phase.Failed?
    ensures ReconcileJob(w, n, e).owner == n <==>
      if e.accepted then (w.owner == n || w.owner == "") && !RunnerSeenComplete(w, n, e) else w.owner == n
  {
  }

  /** The annotation is held by a job that failed or is gone. */
  predicate Stuck(w: World, n: string) {
    n != "" && w.owner == n && (n in w.jobs ==> w.jobs[n].phase.Failed?)
  }

  /** A failed job that holds the annotation holds it for ever, deleting the job included,
      unless a job of the same name is created again. */
  lemma {:induction false} StuckForEver(w: World, evs: seq<Event>, n: string)
    requires Stuck(w, n) && forall i :: 0 <= i < |evs| ==> evs[i] != NewJob(n)
    ensures Stuck(Run(w, evs), n)
  {
    if evs != [] {
      StuckForEver(w, evs[..|evs| - 1], n);
      StuckStep(Run(w, evs[..|evs| - 1]), evs[|evs| - 1], n);
    }
  }

  lemma StuckStep(w: World, ev: Event, n: string)
    requires Stuck(w, n) && ev != NewJob(n)
    ensures Stuck(Next(w, ev), n)
  {
  }

  /** While it is stuck, a cluster reconcile stops the shard and another restore job fails. */
  lemma StuckBlocksOthers(w: World, n: string, m: string, e: Env)
    requires n != "" && w.owner == n && m in w.jobs && m != n && w.jobs[m].phase.Running? && e.fails == {}
    ensures ReconcileJob(w, m, e).jobs[m].phase.Failed? && ReconcileJob(w, m, e).owner == n
    ensures Next(Next(w, ClusterRead), ClusterWrite).replicas == 0
  {
  }

  // ---------------------------------------------------------------------------
  // A stale cluster write breaks the exclusion.

  const OK := Env({}, true, true, true, Starting)

  /** One job "r" that holds the annotation of a stopped cluster, in a given state. */
  function Held(replicas: nat, pods: nat, runners: map<string, Runner>): World {
    World("r", replicas, pods, 1, false, map["r" := RestoreJob(Running, runners != map[])], runners, false)
  }

  ghost predicate Reaches(w: World, w': World) {
    exists evs :: Run(w, evs) == w'
  }

  lemma Then(w: World, s: World, ev: Event, s': World)
    requires Reaches(w, s) && s' == Next(s, ev)
    ensures Reaches(w, s')
  {
    var evs :| Run(w, evs) == s;
    assert (evs + [ev])[..|evs|] == evs;
    assert Run(w, evs + [ev]) == s';
  }

  const BEFORE := World("", 1, 1, 1, false, map[], map[], false)

  lemma RestoreBegins()
    ensures Reaches(BEFORE, Held(0, 0, map[]))
  {
    var w := BEFORE;
    assert Run(w, []) == w;
    Then(w, w, NewJob("r"), w.(jobs := map["r" := RestoreJob(NoPhase, false)]));
    Then(w, w.(jobs := map["r" := RestoreJob(NoPhase, false)]), Backup("r", OK),
         w.(jobs := map["r" := RestoreJob(Pending, false)]));
    Then(w, w.(jobs := map["r" := RestoreJob(Pending, false)]), Backup("r", OK),
         w.(jobs := map["r" := RestoreJob(Running, false)]));
    var ready := w.(jobs := map["r" := RestoreJob(Running, false)]);
    Then(w, ready, ClusterRead, ready);
    Then(w, ready, Backup("r", OK), Held(0, 1, map[]));
    Then(w, Held(0, 1, map[]), PodGoes, Held(0, 0, map[]));
  }

  /** A cluster reconcile reads the cluster before a restore begins and writes after its
      runner has started: the shard is scaled up, and a pod comes up, beside the runner. */
  lemma StaleWriteBreaksExclusion()
    ensures exists s: World :: Reaches(BEFORE, s) && "r" in s.runners && s.runners["r"].Active? && s.pods == 1
  {
    RestoreBegins();
    var running := Held(0, 0, map["r" := Active]);
    Then(BEFORE, Held(0, 0, map[]), Backup("r", OK), running);
    Then(BEFORE, running, ClusterWrite, running.(replicas := 1));
    Then(BEFORE, running.(replicas := 1), PodStarts, running.(replicas := 1, pods := 1));
  }

  /** A restore whose runner fails ends failed and holding the annotation, without any API
      failure. */
  lemma FailedRestoreIsStuck()
    ensures exists s: World :: Reaches(BEFORE, s) && "r" in s.jobs && s.jobs["r"].phase.Failed? && Stuck(s, "r")
  {
    RestoreBegins();
    var running, broken := Held(0, 0, map["r" := Active]), Held(0, 0, map["r" := RunnerFailed]);
    Then(BEFORE, Held(0, 0, map[]), Backup("r", OK), running);
    Then(BEFORE, running, RunnerEnds("r", false), broken);
    Then(BEFORE, broken, Backup("r", OK), broken.(jobs := map["r" := RestoreJob(Failed, true)]));
  }
}
