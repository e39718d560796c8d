/** An offline split copies each table once and blocks writes only at cutover: which keys
keep their last write, exactly. */
module SplitOffline {
  import opened Basics
  import opened KeyRanges
  import opened SplitPlan
  import opened SplitJob
  import opened SplitWorld
  import opened SplitSafety
  import opened SplitOnline
  import opened SplitRuns

  function Marks(w: World, t: ShardId): map<nat, nat> {
    if t in w.copiedAt then w.copiedAt[t] else map[]
  }

  /** The row a copy read at log position `n` gives target `t` for key `k`. */
  function Snapshot(c: Setting, log: seq<Change>, t: ShardId, n: nat, k: Key): Option<Val>
    requires n <= |log|
  {
    if Home(c, k) == Some(t) then Get(At(log, n), k) else None
  }

  /** The first `n` tables of `t` are complete copies, each at its mark. */
  ghost predicate Copied(c: Setting, log: seq<Change>, t: ShardId, st: Rows, marks: map<nat, nat>, n: nat) {
    && (forall i :: 0 <= i < n ==> i in marks && marks[i] <= |log|)
    && (forall k :: c.tableOf(k) < n ==> Get(st, k) == Snapshot(c, log, t, marks[c.tableOf(k)], k))
  }

  /** With `rows` still to be written, table `i` of `t` is a copy at its mark. */
  ghost predicate Copying(c: Setting, log: seq<Change>, t: ShardId, st: Rows, marks: map<nat, nat>, i: nat,
                          rows: Rows) {
    && i in marks && marks[i] <= |log|
    && (forall k :: k in rows ==> c.tableOf(k) == i)
    && (forall k :: c.tableOf(k) == i ==> Get(st + rows, k) == Snapshot(c, log, t, marks[i], k))
  }

  ghost predicate CopyOk(c: Setting, log: seq<Change>, t: ShardId, st: Rows, marks: map<nat, nat>, job: Option<Job>) {
    match job
    case None => true
    case Some(j) =>
      match j
      case Succeeded => Copied(c, log, t, st, marks, c.tables)
      case JobFailed => true
      case Running(pc) =>
        match pc
        case Begin => true
        case Scan(i) => Copied(c, log, t, st, marks, i)
        case Truncated(i) => Copied(c, log, t, st, marks, i) && forall k :: c.tableOf(k) == i ==> k !in st
        case Work(i, rows, _) => Copied(c, log, t, st, marks, i) && Copying(c, log, t, st, marks, i, rows)
        case Finish => Copied(c, log, t, st, marks, c.tables)
        case _ => false
  }

  ghost predicate CopyAt(c: Setting, w: World, t: ShardId) {
    CopyOk(c, w.log, t, Store(w, t), Marks(w, t), JobOf(w.k8s, Copy, t))
  }

  ghost predicate CopiesOk(c: Setting, w: World) {
    forall t :: IsTarget(c, t) ==> CopyAt(c, w, t)
  }

  ghost predicate CopyInv(c: Setting, w: World) {
    && Store(w, Source(c)) == At(w.log, |w.log|)
    && (forall t :: SubOf(w, t).NoSub?)
    && (w.k8s.flips == 0 ==> AllHold(c, w))
    && (w.k8s.flips == 0 && Live(w.k8s) ==> CopiesOk(c, w))
  }

  // ---------------------------------------------------------------------------
  // Copy pods.

  lemma WriteCopied(c: Setting, log: seq<Change>, ch: Change, t: ShardId, st: Rows, marks: map<nat, nat>, n: nat)
    requires Copied(c, log, t, st, marks, n)
    ensures Copied(c, log + [ch], t, st, marks, n)
  {
    forall k | c.tableOf(k) < n
      ensures Snapshot(c, log + [ch], t, marks[c.tableOf(k)], k) == Snapshot(c, log, t, marks[c.tableOf(k)], k)
    {
      AtPrefix(log, [ch], marks[c.tableOf(k)]);
    }
  }

  lemma WriteCopyOk(c: Setting, log: seq<Change>, ch: Change, t: ShardId, st: Rows, marks: map<nat, nat>,
                    job: Option<Job>)
    requires CopyOk(c, log, t, st, marks, job)
    ensures CopyOk(c, log + [ch], t, st, marks, job)
  {
    if job.Some? && job.value.Succeeded? {
      WriteCopied(c, log, ch, t, st, marks, c.tables);
    } else if job.Some? && job.value.Running? {
      match job.value.pc
      case Scan(i) => WriteCopied(c, log, ch, t, st, marks, i);
      case Truncated(i) => WriteCopied(c, log, ch, t, st, marks, i);
      case Work(i, rows, _) =>
        WriteCopied(c, log, ch, t, st, marks, i);
        AtPrefix(log, [ch], marks[i]);
      case Finish => WriteCopied(c, log, ch, t, st, marks, c.tables);
      case _ =>
    }
  }

  /** Emptying table `i` keeps the copies of the tables before it. */
  lemma TruncateOk(c: Setting, log: seq<Change>, t: ShardId, st: Rows, marks: map<nat, nat>, i: nat)
    requires Copied(c, log, t, st, marks, i)
    ensures Copied(c, log, t, Without(c, st, i), marks, i)
  {
    forall k | c.tableOf(k) < i ensures Get(Without(c, st, i), k) == Get(st, k) { }
  }

  /** Reading the source table now makes the log's end the mark of the copy. */
  lemma ReadOk(c: Setting, log: seq<Change>, t: ShardId, st: Rows, marks: map<nat, nat>, i: nat, src: Rows)
    requires Copied(c, log, t, st, marks, i) && src == At(log, |log|)
    requires forall k :: c.tableOf(k) == i ==> k !in st
    ensures Copied(c, log, t, st, marks[i := |log|], i)
    ensures Copying(c, log, t, st, marks[i := |log|], i, Homed(c, TableRows(c, src, i), t))
  {
    var rows := Homed(c, TableRows(c, src, i), t);
    forall k | c.tableOf(k) == i ensures Get(st + rows, k) == Snapshot(c, log, t, |log|, k) {
      ReadRow(c, st, t, i, src, k);
    }
    CopiedRemarked(c, log, t, st, marks, i, |log|);
  }

  /** The mark of table `i` is none of the tables before it. */
  lemma CopiedRemarked(c: Setting, log: seq<Change>, t: ShardId, st: Rows, marks: map<nat, nat>, i: nat, n: nat)
    requires Copied(c, log, t, st, marks, i)
    ensures Copied(c, log, t, st, marks[i := n], i)
  {
  }

  lemma ReadRow(c: Setting, st: Rows, t: ShardId, i: nat, src: Rows, k: Key)
    requires c.tableOf(k) == i && k !in st
    ensures Get(st + Homed(c, TableRows(c, src, i), t), k) == if Home(c, k) == Some(t) then Get(src, k) else None
  {
  }

  lemma CopyBatchOk(c: Setting, log: seq<Change>, t: ShardId, st: Rows, marks: map<nat, nat>, i: nat, rows: Rows,
                    batch: set<Key>)
    requires Copied(c, log, t, st, marks, i) && Copying(c, log, t, st, marks, i, rows)
    ensures var st' := st + (map k | k in rows && k in batch :: rows[k]);
      Copied(c, log, t, st', marks, i) && Copying(c, log, t, st', marks, i, rows - batch)
    ensures rows == map[] ==> Copied(c, log, t, st, marks, i + 1)
  {
    var part := map k | k in rows && k in batch :: rows[k];
    var st' := st + part;
    forall k | c.tableOf(k) < i ensures Get(st', k) == Get(st, k) {
      assert k !in part;
    }
    forall k ensures Get(st' + (rows - batch), k) == Get(st + rows, k) { }
    if rows == map[] {
      assert st + rows == st;
    }
  }

  lemma ScanPod(c: Setting, w: World, id: JobId, i: nat)
    requires CopyAt(c, w, id.shard) && id.mode.Copy? && id in w.k8s.jobs && w.k8s.jobs[id] == Running(Scan(i))
    ensures CopyAt(c, CopyScan(c, w, id, i), id.shard)
  {
    var t := id.shard;
    var w' := CopyScan(c, w, id, i);
    var st := if i >= c.tables then Store(w, t) else Without(c, Store(w, t), i);
    var pc := if i >= c.tables then Finish else Truncated(i);
    assert Copied(c, w.log, t, Store(w, t), Marks(w, t), i);
    ScanCopies(c, w.log, t, Store(w, t), Marks(w, t), i);
    assert Store(w', t) == st && Marks(w', t) == Marks(w, t) && w'.log == w.log;
    assert JobOf(w'.k8s, Copy, t) == Some(Running(pc));
  }

  lemma ScanCopies(c: Setting, log: seq<Change>, t: ShardId, st: Rows, marks: map<nat, nat>, i: nat)
    requires Copied(c, log, t, st, marks, i)
    ensures i >= c.tables ==> CopyOk(c, log, t, st, marks, Some(Running(Finish)))
    ensures CopyOk(c, log, t, Without(c, st, i), marks, Some(Running(Truncated(i))))
  {
    TruncateOk(c, log, t, st, marks, i);
  }

  lemma ReadPod(c: Setting, w: World, id: JobId, i: nat)
    requires CopyAt(c, w, id.shard) && Store(w, Source(c)) == At(w.log, |w.log|)
    requires id.mode.Copy? && id in w.k8s.jobs && w.k8s.jobs[id] == Running(Truncated(i))
    ensures CopyAt(c, CopyRead(c, w, id, i), id.shard)
  {
    var t := id.shard;
    assert CopyOk(c, w.log, t, Store(w, t), Marks(w, t), Some(Running(Truncated(i))));
    ReadOk(c, w.log, t, Store(w, t), Marks(w, t), i, Store(w, Source(c)));
    assert Marks(CopyRead(c, w, id, i), t) == Marks(w, t)[i := |w.log|];
  }

  lemma WorkPod(c: Setting, w: World, id: JobId, i: nat, rows: Rows, resolved: bool, batch: set<Key>)
    requires CopyAt(c, w, id.shard) && id.mode.Copy? && id in w.k8s.jobs
    requires w.k8s.jobs[id] == Running(Work(i, rows, resolved))
    ensures CopyAt(c, CopyWork(w, id, i, rows, resolved, batch), id.shard)
  {
    var t := id.shard;
    assert CopyOk(c, w.log, t, Store(w, t), Marks(w, t), Some(Running(Work(i, rows, resolved))));
    CopyBatchOk(c, w.log, t, Store(w, t), Marks(w, t), i, rows, batch);
  }

  lemma CopyPod(c: Setting, w: World, id: JobId, pc: Pc, batch: set<Key>)
    requires CopyAt(c, w, id.shard) && Store(w, Source(c)) == At(w.log, |w.log|)
    requires id.mode.Copy? && id in w.k8s.jobs && w.k8s.jobs[id] == Running(pc)
    ensures CopyAt(c, CopyStep(c, w, id, pc, batch), id.shard)
  {
    match pc
    case Begin =>
    case Scan(i) => ScanPod(c, w, id, i);
    case Truncated(i) => ReadPod(c, w, id, i);
    case Work(i, rows, resolved) => WorkPod(c, w, id, i, rows, resolved, batch);
    case Finish =>
    case _ =>
  }

  /** A copy pod touches only its own target. */
  lemma CopyMarks(c: Setting, w: World, id: JobId, pc: Pc, batch: set<Key>)
    ensures forall s :: s != id.shard ==> Marks(CopyStep(c, w, id, pc, batch), s) == Marks(w, s)
  {
  }

  // ---------------------------------------------------------------------------
  // Every event.

  ghost predicate OffInv(c: Setting, w: World) {
    ControlInv(c, w.k8s) && CopyInv(c, w)
  }

  /** Before the flip, a step that touches one target only. */
  lemma CopyTargetStep(c: Setting, w: World, w': World, t: ShardId)
    requires ValidSetting(c) && CopyInv(c, w) && Routed(c, w.k8s) && w.k8s.flips == 0 && IsTarget(c, t)
    requires w'.k8s == w.k8s.(jobs := w'.k8s.jobs) && w'.last == w.last && w'.log == w.log && w'.subs == w.subs
    requires forall m, s :: s != t ==> JobOf(w'.k8s, m, s) == JobOf(w.k8s, m, s)
    requires forall s :: s != t ==> Store(w', s) == Store(w, s) && Marks(w', s) == Marks(w, s)
    requires Live(w.k8s) ==> CopyAt(c, w', t)
    ensures CopyInv(c, w')
  {
    assert forall s :: SubOf(w', s) == SubOf(w, s);
    forall k ensures HoldsFor(c, w', k) {
      assert HoldsFor(c, w, k);
      if Route(c, w, k).Some? { WhoServes(c, w, k); }
    }
    if Live(w.k8s) {
      forall u | IsTarget(c, u) ensures CopyAt(c, w', u) {
        assert CopyAt(c, w, u);
      }
    }
  }

  lemma CopyReconcile(c: Setting, w: World, k': Cluster)
    requires ValidSetting(c) && CopyInv(c, w) && Routed(c, w.k8s) && Routed(c, k') && OnlyFreshJobs(w.k8s, k')
    requires w.k8s.flips <= k'.flips && (Live(k') ==> Live(w.k8s))
    ensures CopyInv(c, w.(k8s := k'))
  {
    var w' := w.(k8s := k');
    assert forall t :: SubOf(w', t) == SubOf(w, t) && Store(w', t) == Store(w, t) && Marks(w', t) == Marks(w, t);
    if k'.flips == 0 {
      forall k ensures HoldsFor(c, w', k) {
        assert HoldsFor(c, w, k);
        Routes(c, w, k);
        Routes(c, w', k);
      }
      if Live(k') {
        forall t | IsTarget(c, t) ensures CopyAt(c, w', t) {
          assert CopyAt(c, w, t);
        }
      }
    }
  }

  lemma CopyWrite(c: Setting, w: World, k: Key, row: Option<Val>)
    requires ValidSetting(c) && CopyInv(c, w) && Routed(c, w.k8s)
    ensures CopyInv(c, Write(c, w, k, row))
  {
    if !w.k8s.blocked && Route(c, w, k).Some? {
      var w' := Write(c, w, k, row);
      if Route(c, w, k).value == Source(c) { AtPrefix(w.log, [Change(k, row)], |w.log|); }
      assert forall t :: SubOf(w', t) == SubOf(w, t);
      if w.k8s.flips == 0 {
        WriteAllHold(c, w, k, row);
        if Live(w.k8s) {
          forall t | IsTarget(c, t) ensures CopyAt(c, w', t) {
            assert CopyAt(c, w, t);
            CopyWriteAt(c, w, k, row, t);
          }
        }
      }
    }
  }

  lemma CopyWriteAt(c: Setting, w: World, k: Key, row: Option<Val>, t: ShardId)
    requires ValidSetting(c) && Routed(c, w.k8s) && w.k8s.flips == 0 && IsTarget(c, t) && CopyAt(c, w, t)
    requires !w.k8s.blocked && Route(c, w, k).Some?
    ensures CopyAt(c, Write(c, w, k, row), t)
  {
    WhoServes(c, w, k);
    WriteCopyOk(c, w.log, Change(k, row), t, Store(w, t), Marks(w, t), JobOf(w.k8s, Copy, t));
  }

  lemma CopyPodData(c: Setting, w: World, id: JobId, pc: Pc, batch: set<Key>)
    requires ValidSetting(c) && CopyInv(c, w) && Routed(c, w.k8s) && w.k8s.flips == 0 && IsTarget(c, id.shard)
    requires id.mode.Copy? && id in w.k8s.jobs && w.k8s.jobs[id] == Running(pc)
    ensures CopyInv(c, CopyStep(c, w, id, pc, batch))
  {
    CopyFrame(c, w, id, pc, batch);
    CopyMarks(c, w, id, pc, batch);
    if Live(w.k8s) {
      assert CopyAt(c, w, id.shard);
      CopyPod(c, w, id, pc, batch);
    }
    CopyTargetStep(c, w, CopyStep(c, w, id, pc, batch), id.shard);
  }

  lemma DeletePodCopies(c: Setting, w: World, id: JobId, pc: Pc, batch: set<Key>)
    requires CopyInv(c, w) && w.k8s.flips > 0 && id in w.k8s.jobs
    ensures CopyInv(c, DeleteStep(c, w, id, pc, batch))
  {
    DeleteFrame(c, w, id, pc, batch);
    DeleteLogs(c, w, id, pc, batch);
    assert forall s :: SubOf(DeleteStep(c, w, id, pc, batch), s) == SubOf(w, s);
  }

  lemma CopyJobReset(c: Setting, w: World, id: JobId, job: Job)
    requires ValidSetting(c) && CopyInv(c, w) && Routed(c, w.k8s) && IsTarget(c, id.shard)
    requires id in w.k8s.jobs && (job == Running(Begin) || job.JobFailed?)
    ensures CopyInv(c, WithJob(w, id, job))
  {
    var w' := WithJob(w, id, job);
    assert forall s :: Store(w', s) == Store(w, s) && SubOf(w', s) == SubOf(w, s) && Marks(w', s) == Marks(w, s);
    if w.k8s.flips == 0 {
      if Live(w.k8s) { assert CopyAt(c, w, id.shard); }
      CopyTargetStep(c, w, w', id.shard);
    }
  }

  lemma OfflinePods(c: Setting, k: Cluster, id: JobId)
    requires ValidSetting(c) && !c.spec.online && ControlInv(c, k) && id in k.jobs && k.jobs[id].Running?
    ensures IsTarget(c, id.shard)
    ensures (id.mode.Copy? && k.flips == 0) || (id.mode.Delete? && k.flips > 0)
  {
  }

  lemma OffPod(c: Setting, w: World, id: JobId, batch: set<Key>)
    requires ValidSetting(c) && !c.spec.online && OffInv(c, w)
    ensures OffInv(c, Pod(c, w, id, batch))
  {
    if id in w.k8s.jobs && w.k8s.jobs[id].Running? {
      var pc := w.k8s.jobs[id].pc;
      OfflinePods(c, w.k8s, id);
      if id.mode.Copy? {
        CopyFrame(c, w, id, pc, batch);
        CopyPodData(c, w, id, pc, batch);
      } else {
        DeleteFrame(c, w, id, pc, batch);
        DeletePodCopies(c, w, id, pc, batch);
      }
      JobMoves(c, w.k8s, id, Pod(c, w, id, batch).k8s.jobs[id]);
    }
  }

  lemma OffNext(c: Setting, w: World, e: Event)
    requires ValidSetting(c) && !c.spec.online && OffInv(c, w)
    ensures OffInv(c, Next(c, w, e))
  {
    match e
    case ReconcileJob(env) => OffReconcile(c, w, env);
    case ClientWrite(k, row) => OffWrite(c, w, k, row);
    case PodStep(id, batch) => OffPod(c, w, id, batch);
    case PodRestart(id) => OffResets(c, w, id);
    case JobGivesUp(id) => OffResets(c, w, id);
    case TableSync(t, table) => OffQuiet(c, w, t, table);
    case ApplyChange(t) => OffQuiet(c, w, t, 0);
    case OperatorAbort => OffOperator(c, w);
  }

  lemma OffResets(c: Setting, w: World, id: JobId)
    requires ValidSetting(c) && OffInv(c, w)
    ensures OffInv(c, Next(c, w, PodRestart(id))) && OffInv(c, Next(c, w, JobGivesUp(id)))
  {
    if id in w.k8s.jobs && w.k8s.jobs[id].Running? {
      OffReset(c, w, id, Running(Begin));
      OffReset(c, w, id, JobFailed);
    }
  }

  lemma OffOperator(c: Setting, w: World)
    requires ValidSetting(c) && OffInv(c, w)
    ensures OffInv(c, Next(c, w, OperatorAbort))
  {
    if !w.k8s.phase.Completed? {
      OffAbort(c, w);
    } else {
      assert Next(c, w, OperatorAbort) == w;
    }
  }

  lemma OffQuiet(c: Setting, w: World, t: ShardId, table: nat)
    requires forall s :: SubOf(w, s).NoSub?
    ensures Sync(c, w, t, table) == w && Apply(c, w, t) == w
  {
    assert SubOf(w, t).NoSub?;
  }

  lemma OffWrite(c: Setting, w: World, k: Key, row: Option<Val>)
    requires ValidSetting(c) && OffInv(c, w)
    ensures OffInv(c, Write(c, w, k, row))
  {
    CopyWrite(c, w, k, row);
  }

  lemma OffReconcile(c: Setting, w: World, env: Env)
    requires ValidSetting(c) && !c.spec.online && OffInv(c, w)
    ensures OffInv(c, Next(c, w, ReconcileJob(env)))
  {
    ReconcileKeeps(c, w.k8s, env);
    ReconcileFrame(c, w.k8s, env);
    CopyReconcile(c, w, Reconcile(c.spec, w.k8s, env));
  }

  lemma OffReset(c: Setting, w: World, id: JobId, job: Job)
    requires ValidSetting(c) && OffInv(c, w) && id in w.k8s.jobs && w.k8s.jobs[id].Running?
    requires job == Running(Begin) || job.JobFailed?
    ensures OffInv(c, WithJob(w, id, job))
  {
    JobMoves(c, w.k8s, id, job);
    CopyJobReset(c, w, id, job);
  }

  lemma OffAbort(c: Setting, w: World)
    requires ValidSetting(c) && OffInv(c, w)
    ensures OffInv(c, w.(k8s := w.k8s.(phase := Aborted)))
  {
    OperatorMayAbort(c, w.k8s);
    CopyReconcile(c, w, w.k8s.(phase := Aborted));
  }

  lemma {:induction false} OffRun(c: Setting, w: World, events: seq<Event>)
    requires ValidSetting(c) && !c.spec.online && Init(c, w)
    ensures OffInv(c, Run(c, w, events))
  {
    if events == [] {
      assert c.before == Replayed(c.before, c.spec.sources, c.spec.targets, 0);
    } else {
      OffRun(c, w, events[..|events| - 1]);
      OffNext(c, Run(c, w, events[..|events| - 1]), events[|events| - 1]);
    }
  }

  // ---------------------------------------------------------------------------
  // Which keys keep their last write.

  /** The flip of an offline split keeps the last write of a source key exactly when that
      write is in the snapshot its target's table was copied from. */
  lemma OfflineFlip(c: Setting, s: World, env: Env, k: Key)
    requires ValidSetting(c) && !c.spec.online && OffInv(c, s) && s.k8s.flips == 0
    requires Next(c, s, ReconcileJob(env)).k8s.flips > 0
    ensures Home(c, k).None? ==> HoldsFor(c, Next(c, s, ReconcileJob(env)), k)
    ensures Home(c, k).Some? ==>
      var marks := Marks(s, Home(c, k).value);
      && c.tableOf(k) in marks && marks[c.tableOf(k)] <= |s.log|
      && (HoldsFor(c, Next(c, s, ReconcileJob(env)), k) <==>
          Get(At(s.log, marks[c.tableOf(k)]), k) == Get(s.last, k))
  {
    var k' := Reconcile(c.spec, s.k8s, env);
    FlipWasCopied(c, s.k8s, env);
    assert HoldsFor(c, s, k);
    FlipVerdict(c, s, k', k);
  }

  /** An offline flip happens only with every copy complete. */
  lemma FlipWasCopied(c: Setting, k: Cluster, env: Env)
    requires ValidSetting(c) && !c.spec.online && ControlInv(c, k) && k.flips == 0
    requires Reconcile(c.spec, k, env).flips > 0
    ensures Live(k) && AllDone(c.spec, k.jobs, Copy) && Routed(c, Reconcile(c.spec, k, env))
  {
    ReconcileFrame(c, k, env);
    ReconcileKeeps(c, k, env);
  }

  lemma FlipVerdict(c: Setting, s: World, k': Cluster, k: Key)
    requires ValidSetting(c) && Routed(c, s.k8s) && Routed(c, k') && s.k8s.flips == 0 < k'.flips
    requires CopiesOk(c, s) && AllDone(c.spec, s.k8s.jobs, Copy) && HoldsFor(c, s, k)
    ensures Home(c, k).None? ==> HoldsFor(c, s.(k8s := k'), k)
    ensures Home(c, k).Some? ==>
      var marks := Marks(s, Home(c, k).value);
      && c.tableOf(k) in marks && marks[c.tableOf(k)] <= |s.log|
      && (HoldsFor(c, s.(k8s := k'), k) <==> Get(At(s.log, marks[c.tableOf(k)]), k) == Get(s.last, k))
  {
    Routes(c, s, k);
    Routes(c, s.(k8s := k'), k);
    HomeIsTarget(c, k);
    if Home(c, k).Some? {
      CopiedTarget(c, s, Home(c, k).value);
      assert c.tableOf(k) < c.tables;
    }
  }

  lemma CopiedTarget(c: Setting, s: World, t: ShardId)
    requires CopiesOk(c, s) && AllDone(c.spec, s.k8s.jobs, Copy) && IsTarget(c, t)
    ensures Copied(c, s.log, t, Store(s, t), Marks(s, t), c.tables)
  {
    assert CopyAt(c, s, t);
    assert JobOf(s.k8s, Copy, t) == Some(Succeeded);
  }

  lemma WriteElsewhere(c: Setting, w: World, j: Key, row: Option<Val>, k: Key)
    requires j != k
    ensures HoldsFor(c, Write(c, w, j, row), k) <==> HoldsFor(c, w, k)
  {
    if !w.k8s.blocked && Route(c, w, j).Some? { WrittenRow(c, w, j, row, k); }
  }

  lemma WriteHere(c: Setting, w: World, k: Key, row: Option<Val>)
    requires !w.k8s.blocked
    ensures HoldsFor(c, Write(c, w, k, row), k)
  {
    if Route(c, w, k).Some? { WrittenRow(c, w, k, row, k); }
  }

  /** A step that moves no served row and no route leaves every verdict as it is. */
  lemma SameVerdict(c: Setting, w: World, w': World, k: Key)
    requires Route(c, w', k) == Route(c, w, k) && w'.last == w.last
    requires Route(c, w, k).Some? ==> Store(w', Route(c, w, k).value) == Store(w, Route(c, w, k).value)
    ensures HoldsFor(c, w', k) <==> HoldsFor(c, w, k)
  {
  }

  /** After the flip only a new write of the key changes whether its last write is held. */
  lemma AfterFlip(c: Setting, w: World, e: Event, k: Key)
    requires ValidSetting(c) && !c.spec.online && OffInv(c, w) && w.k8s.flips > 0
    ensures OffInv(c, Next(c, w, e)) && Next(c, w, e).k8s.flips > 0
    ensures HoldsFor(c, Next(c, w, e), k) <==> HoldsFor(c, w, k) || (e.ClientWrite? && e.key == k)
  {
    OffNext(c, w, e);
    AfterFlipStep(c, w, e, k);
  }

  lemma AfterFlipStep(c: Setting, w: World, e: Event, k: Key)
    requires ValidSetting(c) && !c.spec.online && OffInv(c, w) && w.k8s.flips > 0
    ensures Next(c, w, e).k8s.flips > 0
    ensures HoldsFor(c, Next(c, w, e), k) <==> HoldsFor(c, w, k) || (e.ClientWrite? && e.key == k)
  {
    match e
    case ReconcileJob(env) => AfterFlipReconcile(c, w, env, k);
    case ClientWrite(j, row) => AfterFlipWrite(c, w, j, row, k);
    case PodStep(id, batch) => AfterFlipPod(c, w, id, batch, k);
    case _ =>
      QuietEvent(c, w, e);
      SameVerdict(c, w, Next(c, w, e), k);
  }

  lemma AfterFlipWrite(c: Setting, w: World, j: Key, row: Option<Val>, k: Key)
    requires !w.k8s.blocked
    ensures Write(c, w, j, row).k8s == w.k8s
    ensures HoldsFor(c, Write(c, w, j, row), k) <==> HoldsFor(c, w, k) || j == k
  {
    if j == k { WriteHere(c, w, k, row); } else { WriteElsewhere(c, w, j, row, k); }
  }

  lemma QuietEvent(c: Setting, w: World, e: Event)
    requires forall t :: SubOf(w, t).NoSub?
    requires !e.ReconcileJob? && !e.ClientWrite? && !e.PodStep?
    ensures var w' := Next(c, w, e);
      w'.stores == w.stores && w'.last == w.last && w'.k8s.ranges == w.k8s.ranges && w'.k8s.flips == w.k8s.flips
  {
  }

  lemma AfterFlipReconcile(c: Setting, w: World, env: Env, k: Key)
    requires ValidSetting(c) && ControlInv(c, w.k8s) && w.k8s.flips > 0
    ensures Next(c, w, ReconcileJob(env)).k8s.flips > 0
    ensures HoldsFor(c, Next(c, w, ReconcileJob(env)), k) <==> HoldsFor(c, w, k)
  {
    var w' := Next(c, w, ReconcileJob(env));
    ReconcileKeeps(c, w.k8s, env);
    ReconcileFrame(c, w.k8s, env);
    Routes(c, w, k);
    Routes(c, w', k);
    SameVerdict(c, w, w', k);
  }

  lemma AfterFlipPod(c: Setting, w: World, id: JobId, batch: set<Key>, k: Key)
    requires ValidSetting(c) && !c.spec.online && OffInv(c, w) && w.k8s.flips > 0
    ensures Pod(c, w, id, batch).k8s.flips > 0
    ensures HoldsFor(c, Pod(c, w, id, batch), k) <==> HoldsFor(c, w, k)
  {
    if id in w.k8s.jobs && w.k8s.jobs[id].Running? {
      OfflinePods(c, w.k8s, id);
      DeleteFrame(c, w, id, w.k8s.jobs[id].pc, batch);
      if Route(c, w, k).Some? { WhoServes(c, w, k); }
      SameVerdict(c, w, Pod(c, w, id, batch), k);
    }
  }

  ghost predicate Rewritten(events: seq<Event>, k: Key) {
    exists e :: e in events && e.ClientWrite? && e.key == k
  }

  lemma {:induction false} AfterFlipRun(c: Setting, w: World, events: seq<Event>, k: Key)
    requires ValidSetting(c) && !c.spec.online && OffInv(c, w) && w.k8s.flips > 0
    ensures OffInv(c, Run(c, w, events)) && Run(c, w, events).k8s.flips > 0
    ensures HoldsFor(c, Run(c, w, events), k) <==> HoldsFor(c, w, k) || Rewritten(events, k)
  {
    if events != [] {
      var n := |events| - 1;
      AfterFlipRun(c, w, events[..n], k);
      AfterFlip(c, Run(c, w, events[..n]), events[n], k);
      assert forall e :: e in events <==> e in events[..n] || e == events[n];
    }
  }

  /** The verdict on an offline split, over every run through its flip: a source key's last
      accepted write is held exactly when it was in the copied snapshot or the key has been
      written again since the flip. */
  lemma OfflineVerdict(c: Setting, w: World, early: seq<Event>, env: Env, late: seq<Event>, k: Key)
    requires ValidSetting(c) && !c.spec.online && Init(c, w) && Home(c, k).Some?
    requires Run(c, w, early).k8s.flips == 0
    requires Next(c, Run(c, w, early), ReconcileJob(env)).k8s.flips > 0
    ensures var s := Run(c, w, early);
      var marks := Marks(s, Home(c, k).value);
      && c.tableOf(k) in marks && marks[c.tableOf(k)] <= |s.log|
      && (HoldsFor(c, Run(c, Next(c, s, ReconcileJob(env)), late), k) <==>
          Get(At(s.log, marks[c.tableOf(k)]), k) == Get(s.last, k) || Rewritten(late, k))
  {
    OffRun(c, w, early);
    var s := Run(c, w, early);
    OfflineFlip(c, s, env, k);
    OffNext(c, s, ReconcileJob(env));
    AfterFlipRun(c, Next(c, s, ReconcileJob(env)), late, k);
  }

  /** In particular a key that was not written between its table's snapshot and the flip is
      never lost. */
  lemma QuietKeysAreKept(c: Setting, w: World, early: seq<Event>, env: Env, late: seq<Event>, k: Key)
    requires ValidSetting(c) && !c.spec.online && Init(c, w) && Home(c, k).Some?
    requires Run(c, w, early).k8s.flips == 0
    requires Next(c, Run(c, w, early), ReconcileJob(env)).k8s.flips > 0
    requires var s := Run(c, w, early);
      var marks := Marks(s, Home(c, k).value);
      c.tableOf(k) in marks ==> forall i :: marks[c.tableOf(k)] <= i < |s.log| ==> s.log[i].key != k
    ensures HoldsFor(c, Run(c, Next(c, Run(c, w, early), ReconcileJob(env)), late), k)
  {
    var s := Run(c, w, early);
    OfflineVerdict(c, w, early, env, late, k);
    OffRun(c, w, early);
    Routes(c, s, k);
    HomeIsTarget(c, k);
    assert HoldsFor(c, s, k);
    UnchangedSince(s.log, Marks(s, Home(c, k).value)[c.tableOf(k)], k);
  }

  lemma {:induction false} UnchangedSince(log: seq<Change>, n: nat, k: Key)
    requires n <= |log| && forall i :: n <= i < |log| ==> log[i].key != k
    ensures Get(At(log, n), k) == Get(At(log, |log|), k)
    decreases |log| - n
  {
    if n < |log| {
      UnchangedSince(log, n + 1, k);
      assert At(log, n + 1) == Put(At(log, n), log[n].key, log[n].row);
    }
  }

  // ---------------------------------------------------------------------------
  // A run that loses a write.

  const COPY_A := JobId(Copy, "a")

  function Tick(): Event {
    ReconcileJob(Env({}, false, TargetsReady, PromoteDone))
  }

  /** One table, one source, one target taking over all of it, split offline. */
  function Shop(): Setting {
    Setting(Spec(false, ["shard-0"], [Target("a", [Entry(0, 9, "a")])], false, false, true),
            [Entry(0, 9, "shard-0")], (k: Key) => 0, (k: Key) => 0, 1, 0)
  }

  function Empty(phase: Phase, jobs: map<JobId, Job>, stores: map<ShardId, Rows>,
                 marks: map<ShardId, map<nat, nat>>): World
  {
    World(Cluster(phase, false, [Entry(0, 9, "shard-0")], false, jobs, 0), stores, [], map[], {}, map[], marks)
  }

  lemma ShopIsValid()
    ensures ValidSetting(Shop()) && Init(Shop(), Empty(NoPhase, map[], map[], map[]))
    ensures PendingGate(Shop().spec.targets) && Plan(Shop()) == [Entry(0, 9, "a")]
  {
    var flat := [Entry(0, 9, "a")];
    assert FlattenTargets(Shop().spec.targets[1..]) == [];
    assert Plan(Shop()) == flat;
    forall p ensures Resolve(Shop().before, p) == Some("shard-0") <==> Resolve(flat, p).Some? {
    }
    assert SortByLo(flat[1..]) == [];
    assert SortByLo(flat) == flat;
  }

  ghost predicate Reaches(c: Setting, w: World, w': World) {
    exists events :: Run(c, w, events) == w'
  }

  lemma Then(c: Setting, w: World, s: World, e: Event)
    requires Reaches(c, w, s)
    ensures Reaches(c, w, Next(c, s, e))
  {
    var events :| Run(c, w, events) == s;
    assert (events + [e])[..|events|] == events;
    assert Run(c, w, events + [e]) == Next(c, s, e);
  }

  lemma ShopBoots()
    ensures Reaches(Shop(), Empty(NoPhase, map[], map[], map[]), Empty(Bootstrap, map[], map[], map[]))
  {
    var c := Shop();
    ShopIsValid();
    var w := Empty(NoPhase, map[], map[], map[]);
    assert Run(c, w, []) == w;
    assert Next(c, w, Tick()) == Empty(SnapshotWAL, map[], map[], map[]);
    Then(c, w, w, Tick());
    assert Next(c, Empty(SnapshotWAL, map[], map[], map[]), Tick()) == Empty(Bootstrap, map[], map[], map[]);
    Then(c, w, Empty(SnapshotWAL, map[], map[], map[]), Tick());
  }

  lemma ShopStarts()
    ensures Reaches(Shop(), Empty(NoPhase, map[], map[], map[]),
                    Empty(InitialCopy, map[COPY_A := Running(Begin)], map[], map[]))
  {
    var c := Shop();
    var w := Empty(NoPhase, map[], map[], map[]);
    ShopBoots();
    assert Next(c, Empty(Bootstrap, map[], map[], map[]), Tick()) == Empty(InitialCopy, map[], map[], map[]);
    Then(c, w, Empty(Bootstrap, map[], map[], map[]), Tick());
    assert c.spec.targets[1..] == [];
    Then(c, w, Empty(InitialCopy, map[], map[], map[]), Tick());
  }

  function Copying0(pc: Pc, marks: map<ShardId, map<nat, nat>>): World {
    Empty(InitialCopy, map[COPY_A := Running(pc)], map["a" := map[]], marks)
  }

  /** The copy pod of an empty table, up to its snapshot and then to its end. */
  lemma ShopReads()
    ensures Reaches(Shop(), Empty(NoPhase, map[], map[], map[]),
                    Copying0(Work(0, map[], true), map["a" := map[0 := 0]]))
  {
    var c, w, p := Shop(), Empty(NoPhase, map[], map[], map[]), PodStep(COPY_A, {});
    ShopStarts();
    var s0 := Empty(InitialCopy, map[COPY_A := Running(Begin)], map[], map[]);
    var s1 := Empty(InitialCopy, map[COPY_A := Running(Scan(0))], map[], map[]);
    assert Next(c, s0, p) == s1;
    Then(c, w, s0, p);
    assert Next(c, s1, p) == Copying0(Truncated(0), map[]);
    Then(c, w, s1, p);
    assert Next(c, Copying0(Truncated(0), map[]), p) == Copying0(Work(0, map[], true), map["a" := map[0 := 0]]);
    Then(c, w, Copying0(Truncated(0), map[]), p);
  }

  lemma ShopCopies()
    ensures Reaches(Shop(), Empty(NoPhase, map[], map[], map[]),
                    Empty(InitialCopy, map[COPY_A := Succeeded], map["a" := map[]], map["a" := map[0 := 0]]))
  {
    var c, w, p := Shop(), Empty(NoPhase, map[], map[], map[]), PodStep(COPY_A, {});
    var marks := map["a" := map[0 := 0]];
    ShopReads();
    assert Next(c, Copying0(Work(0, map[], true), marks), p) == Copying0(Scan(1), marks);
    Then(c, w, Copying0(Work(0, map[], true), marks), p);
    assert Next(c, Copying0(Scan(1), marks), p) == Copying0(Finish, marks);
    Then(c, w, Copying0(Scan(1), marks), p);
    assert Next(c, Copying0(Finish, marks), p)
      == Empty(InitialCopy, map[COPY_A := Succeeded], map["a" := map[]], marks);
    Then(c, w, Copying0(Finish, marks), p);
  }

  /** The shop after its table was copied and then one order was written. */
  function Sold(phase: Phase, blocked: bool): World {
    World(Cluster(phase, false, [Entry(0, 9, "shard-0")], blocked, map[COPY_A := Succeeded], 0),
          map["a" := map[], "shard-0" := map["order" := "paid"]], [Change("order", Some("paid"))], map[], {},
          map["order" := "paid"], map["a" := map[0 := 0]])
  }

  lemma ShopSells()
    ensures Reaches(Shop(), Empty(NoPhase, map[], map[], map[]), Sold(CDCCatchup, false))
  {
    var c, w := Shop(), Empty(NoPhase, map[], map[], map[]);
    ShopCopies();
    var s := Empty(InitialCopy, map[COPY_A := Succeeded], map["a" := map[]], map["a" := map[0 := 0]]);
    assert Next(c, s, ClientWrite("order", Some("paid"))) == Sold(InitialCopy, false);
    Then(c, w, s, ClientWrite("order", Some("paid")));
    assert c.spec.targets[1..] == [];
    assert Next(c, Sold(InitialCopy, false), Tick()) == Sold(CDCCatchup, false);
    Then(c, w, Sold(InitialCopy, false), Tick());
  }

  lemma ShopCutsOver()
    ensures Reaches(Shop(), Empty(NoPhase, map[], map[], map[]), Sold(RoutingUpdate, true))
  {
    var c, w := Shop(), Empty(NoPhase, map[], map[], map[]);
    ShopSells();
    assert Next(c, Sold(CDCCatchup, false), Tick()) == Sold(Cutover, false);
    Then(c, w, Sold(CDCCatchup, false), Tick());
    assert Next(c, Sold(Cutover, false), Tick()) == Sold(RoutingUpdate, true);
    Then(c, w, Sold(Cutover, false), Tick());
  }

  /** An offline split can lose an accepted write: no failure, no retry, one write between
      the copy and the cutover. */
  lemma OfflineLosesAWrite()
    ensures exists c, w, events: seq<Event>, k ::
      && ValidSetting(c) && !c.spec.online && Init(c, w)
      && k in Run(c, w, events).last && !HoldsFor(c, Run(c, w, events), k)
  {
    var c, w := Shop(), Empty(NoPhase, map[], map[], map[]);
    ShopIsValid();
    ShopCutsOver();
    Then(c, w, Sold(RoutingUpdate, true), Tick());
    var s := Next(c, Sold(RoutingUpdate, true), Tick());
    assert KeepOthers([Entry(0, 9, "shard-0")][1..], ["shard-0"]) == [];
    assert s.k8s.ranges == [Entry(0, 9, "a")];
    assert Route(c, s, "order") == Some("a") && Store(s, "a") == map[] && s.last == map["order" := "paid"];
    var events :| Run(c, w, events) == s;
    assert !HoldsFor(c, Run(c, w, events), "order");
  }

  /** A failed call at the flip ends the shop's split with writes blocked, and so they stay in
      every continuation. */
  lemma OfflineEndsBlocked()
    ensures exists c, w, s ::
      && ValidSetting(c) && !c.spec.online && Init(c, w) && Reaches(c, w, s)
      && Terminal(s.k8s.phase) && forall more :: Run(c, s, more).k8s.blocked
  {
    var c, w := Shop(), Empty(NoPhase, map[], map[], map[]);
    ShopIsValid();
    ShopCutsOver();
    var failing := ReconcileJob(Env({1}, false, TargetsReady, PromoteDone));
    var s := Next(c, Sold(RoutingUpdate, true), failing);
    Then(c, w, Sold(RoutingUpdate, true), failing);
    assert s.k8s.phase == Failed && s.k8s.blocked;
    forall more ensures Run(c, s, more).k8s.blocked { OfflineStaysBlocked(c, s, more); }
  }
}
