/** The programs of the data-movement Jobs, each run by itself: when a pod comes to its end, and
what it has then done, as one function of the rows it started from. */
module SplitPods {
  import opened Basics
  import opened KeyRanges
  import opened SplitPlan
  import opened SplitJob
  import opened SplitWorld
  import opened SplitSafety
  import opened SplitOnline
  import opened SplitRuns
  import SplitOffline

  /** The pod of `id` takes one step for each batch. */
  function PodRun(c: Setting, w: World, id: JobId, batches: seq<set<Key>>): World {
    if batches == [] then w
    else Pod(c, PodRun(c, w, id, batches[..|batches| - 1]), id, batches[|batches| - 1])
  }

  ghost predicate PodReaches(c: Setting, w: World, id: JobId, s: World) {
    exists batches :: PodRun(c, w, id, batches) == s
  }

  lemma PodStays(c: Setting, w: World, id: JobId)
    ensures PodReaches(c, w, id, w)
  {
    assert PodRun(c, w, id, []) == w;
  }

  lemma PodThen(c: Setting, w: World, id: JobId, s: World, batch: set<Key>)
    requires PodReaches(c, w, id, s)
    ensures PodReaches(c, w, id, Pod(c, s, id, batch))
  {
    var batches :| PodRun(c, w, id, batches) == s;
    assert (batches + [batch])[..|batches|] == batches;
    assert PodRun(c, w, id, batches + [batch]) == Pod(c, s, id, batch);
  }

  /** The Job may come to success by steps of its own pod. */
  ghost predicate CanSucceed(c: Setting, w: World, id: JobId) {
    exists s :: PodReaches(c, w, id, s) && id in s.k8s.jobs && s.k8s.jobs[id].Succeeded?
  }

  /** Compared with `w` only the Job `id` and the rows of shard `at` differ. */
  ghost predicate Stands(w: World, s: World, id: JobId, job: Job, at: ShardId, rows: Rows) {
    && s.k8s == w.k8s.(jobs := w.k8s.jobs[id := job])
    && Store(s, at) == rows && (forall u :: u != at ==> Store(s, u) == Store(w, u))
    && s.last == w.last
  }

  // ---------------------------------------------------------------------------
  // cdc-finalize.

  /** The rows without the first `n` tables' rows of other targets. */
  function Own(c: Setting, rows: Rows, t: ShardId, n: nat): Rows {
    map k | k in rows && (c.tableOf(k) >= n || Home(c, k) == Some(t)) :: rows[k]
  }

  lemma OwnTable(c: Setting, rows: Rows, t: ShardId, i: nat)
    ensures Own(c, rows, t, i) - Foreign(c, TableRows(c, Own(c, rows, t, i), i), t).Keys == Own(c, rows, t, i + 1)
    ensures AllResolve(c, rows) ==> AllResolve(c, Own(c, rows, t, i))
  {
  }

  /** What cdc-finalize has done at each point, whatever its batches: it has found the subscription
      drained, has dropped it, and has rid the tables it is past of other targets' rows, all of
      which resolve. */
  ghost predicate FinalizeDone(c: Setting, w: World, s: World, id: JobId) {
    && id in s.k8s.jobs && Stands(w, s, id, s.k8s.jobs[id], id.shard, Store(s, id.shard)) && s.log == w.log
    && SubOf(s, id.shard) ==
       (if s.k8s.jobs[id] in [Running(Begin), Running(Drained)] then SubOf(w, id.shard) else NoSub)
    && s.pubs == (if s.k8s.jobs[id].Succeeded? then w.pubs - {id.shard} else w.pubs)
    && (forall u :: u != id.shard ==> SubOf(s, u) == SubOf(w, u))
    && FinalizeRows(c, Store(w, id.shard), Store(s, id.shard), id.shard, WasDrained(w, id.shard), s.k8s.jobs[id])
  }

  ghost predicate FinalizeRows(c: Setting, rows: Rows, st: Rows, t: ShardId, drained: bool, job: Job) {
    match job
    case Succeeded => drained && st == Own(c, rows, t, c.tables) && Resolved(c, rows, c.tables)
    case JobFailed => false
    case Running(pc) =>
      match pc
      case Begin => st == rows
      case Drained => st == rows && drained
      case Scan(i) => drained && FinalizedRows(c, rows, st, t, i)
      case Work(i, part, _) => drained && FinalizingRows(c, rows, st, t, i, part)
      case Finish => drained && st == Own(c, rows, t, c.tables) && Resolved(c, rows, c.tables)
      case _ => false
  }

  predicate WasDrained(w: World, t: ShardId) {
    SubOf(w, t).Sub? && SubOf(w, t).applied == |w.log|
  }

  /** Every row of the first `n` tables has a target. */
  ghost predicate Resolved(c: Setting, rows: Rows, n: nat) {
    forall k :: k in rows && c.tableOf(k) < n ==> Home(c, k).Some?
  }

  ghost predicate FinalizedRows(c: Setting, rows: Rows, st: Rows, t: ShardId, i: nat) {
    i <= c.tables && st == Own(c, rows, t, i) && Resolved(c, rows, i)
  }

  ghost predicate FinalizingRows(c: Setting, rows: Rows, st: Rows, t: ShardId, i: nat, part: Rows) {
    && i < c.tables && st - part.Keys == Own(c, rows, t, i + 1) && Resolved(c, rows, i + 1)
    && forall k :: k in part ==> c.tableOf(k) == i && Home(c, k) != Some(t)
  }

  lemma FinalizeScanned(c: Setting, rows: Rows, st: Rows, t: ShardId, i: nat)
    requires FinalizedRows(c, rows, st, t, i) && i < c.tables && AllResolve(c, TableRows(c, st, i))
    ensures FinalizingRows(c, rows, st, t, i, Foreign(c, TableRows(c, st, i), t))
  {
    OwnTable(c, rows, t, i);
    forall k | k in rows && c.tableOf(k) < i + 1 ensures Home(c, k).Some? {
      if c.tableOf(k) == i { assert k in TableRows(c, st, i); }
    }
  }

  lemma FinalizeWorked(c: Setting, rows: Rows, st: Rows, t: ShardId, i: nat, part: Rows, batch: set<Key>)
    requires FinalizingRows(c, rows, st, t, i, part)
    ensures FinalizingRows(c, rows, st - (part.Keys * batch), t, i, part - batch)
    ensures part == map[] ==> FinalizedRows(c, rows, st, t, i + 1)
  {
    assert (st - (part.Keys * batch)) - (part - batch).Keys == st - part.Keys;
    if part == map[] { assert st - part.Keys == st; }
  }

  lemma FinalizeStepDone(c: Setting, w: World, s: World, id: JobId, batch: set<Key>)
    requires id.mode.CdcFinalize? && id in w.k8s.jobs && FinalizeDone(c, w, s, id)
    ensures FinalizeDone(c, w, Pod(c, s, id, batch), id)
  {
    if s.k8s.jobs[id].Running? {
      var s', pc, t := Pod(c, s, id, batch), s.k8s.jobs[id].pc, id.shard;
      FinalizeFrame(c, s, id, pc, batch);
      SameFrame(w, s, s', id, t);
      FinalizeMoves(c, s, id, pc, batch);
      FinalizeUnsubscribes(c, s, id, pc, batch);
      FinalizeRowsMove(c, Store(w, t), Store(s, t), t, WasDrained(w, t), pc, batch);
    }
  }

  /** A step that keeps all shards but one keeps the comparison with the start. */
  lemma SameFrame(w: World, s: World, s': World, id: JobId, at: ShardId)
    requires id in s.k8s.jobs && Stands(w, s, id, s.k8s.jobs[id], at, Store(s, at)) && OwnJobOnly(s, s', id)
    requires forall u :: u != at ==> Store(s', u) == Store(s, u)
    ensures Stands(w, s', id, s'.k8s.jobs[id], at, Store(s', at))
  {
    assert w.k8s.jobs[id := s.k8s.jobs[id]][id := s'.k8s.jobs[id]] == w.k8s.jobs[id := s'.k8s.jobs[id]];
  }

  /** The rows and the Job after a step of cdc-finalize. */
  function FinalizeTo(c: Setting, st: Rows, t: ShardId, pc: Pc, batch: set<Key>): (Rows, Job) {
    match pc
    case Drained => (st, Running(Scan(0)))
    case Scan(i) => (st, Running(AfterScan(c, st, t, i)))
    case Work(i, part, _) =>
      if part == map[] then (st, Running(Scan(i + 1)))
      else (st - (part.Keys * batch), Running(Work(i, part - batch, true)))
    case Finish => (st, Succeeded)
    case _ => (st, Running(pc))
  }

  lemma FinalizeWorkMoves(c: Setting, s: World, id: JobId, i: nat, part: Rows, batch: set<Key>)
    ensures var s' := FinalizeWork(s, id, i, part, batch);
      && id in s'.k8s.jobs
      && (Store(s', id.shard), s'.k8s.jobs[id])
         == FinalizeTo(c, Store(s, id.shard), id.shard, Work(i, part, true), batch)
  {
  }

  lemma FinalizeMoves(c: Setting, s: World, id: JobId, pc: Pc, batch: set<Key>)
    requires id.mode.CdcFinalize? && id in s.k8s.jobs && s.k8s.jobs[id] == Running(pc)
    ensures var s' := FinalizeStep(c, s, id, pc, batch);
      && id in s'.k8s.jobs
      && (if pc.Begin? && WasDrained(s, id.shard) then
            Store(s', id.shard) == Store(s, id.shard) && s'.k8s.jobs[id] == Running(Drained)
          else (Store(s', id.shard), s'.k8s.jobs[id]) == FinalizeTo(c, Store(s, id.shard), id.shard, pc, batch))
  {
    match pc
    case Scan(i) => ScanFacts(c, s, id, i);
    case Work(i, part, _) => FinalizeWorkMoves(c, s, id, i, part, batch);
    case _ =>
  }

  lemma FinalizeUnsubscribes(c: Setting, s: World, id: JobId, pc: Pc, batch: set<Key>)
    ensures var s' := FinalizeStep(c, s, id, pc, batch);
      && SubOf(s', id.shard) == (if pc.Drained? then NoSub else SubOf(s, id.shard))
      && s'.pubs == if pc.Finish? then s.pubs - {id.shard} else s.pubs
  {
  }

  lemma FinalizeRowsMove(c: Setting, rows: Rows, st: Rows, t: ShardId, drained: bool, pc: Pc, batch: set<Key>)
    requires FinalizeRows(c, rows, st, t, drained, Running(pc))
    ensures var (st', job) := FinalizeTo(c, st, t, pc, batch); FinalizeRows(c, rows, st', t, drained, job)
  {
    match pc
    case Drained => assert Own(c, rows, t, 0) == rows;
    case Scan(i) =>
      if i < c.tables && AllResolve(c, TableRows(c, st, i)) { FinalizeScanned(c, rows, st, t, i); }
    case Work(i, part, _) => FinalizeWorked(c, rows, st, t, i, part, batch);
    case _ =>
  }

  lemma {:induction false} FinalizeRunDone(c: Setting, w: World, id: JobId, batches: seq<set<Key>>)
    requires id.mode.CdcFinalize? && id in w.k8s.jobs && w.k8s.jobs[id] == Running(Begin)
    ensures FinalizeDone(c, w, PodRun(c, w, id, batches), id)
  {
    if batches == [] {
      assert w.k8s.jobs[id := Running(Begin)] == w.k8s.jobs;
    } else {
      var n := |batches| - 1;
      FinalizeRunDone(c, w, id, batches[..n]);
      FinalizeStepDone(c, w, PodRun(c, w, id, batches[..n]), id, batches[n]);
    }
  }

  /** One step of cdc-finalize, by which it reaches a point further on. */
  lemma FinalizeGoes(c: Setting, w: World, s: World, id: JobId, batch: set<Key>) returns (s': World)
    requires id.mode.CdcFinalize? && id in w.k8s.jobs && PodReaches(c, w, id, s) && FinalizeDone(c, w, s, id)
    requires s.k8s.jobs[id].Running?
    ensures PodReaches(c, w, id, s') && FinalizeDone(c, w, s', id)
    ensures if s.k8s.jobs[id].pc.Begin? && WasDrained(s, id.shard) then s'.k8s.jobs[id] == Running(Drained)
            else s'.k8s.jobs[id] == FinalizeTo(c, Store(s, id.shard), id.shard, s.k8s.jobs[id].pc, batch).1
  {
    s' := Pod(c, s, id, batch);
    PodThen(c, w, id, s, batch);
    FinalizeMoves(c, s, id, s.k8s.jobs[id].pc, batch);
    FinalizeStepDone(c, w, s, id, batch);
  }

  lemma FinalizeTable(c: Setting, w: World, s: World, id: JobId, i: nat, part: Rows) returns (s': World)
    requires id.mode.CdcFinalize? && id in w.k8s.jobs && PodReaches(c, w, id, s) && FinalizeDone(c, w, s, id)
    requires s.k8s.jobs[id] == Running(Work(i, part, true))
    ensures PodReaches(c, w, id, s') && FinalizeDone(c, w, s', id) && s'.k8s.jobs[id] == Running(Scan(i + 1))
  {
    s' := s;
    if part != map[] {
      assert part - part.Keys == map[];
      s' := FinalizeGoes(c, w, s, id, part.Keys);
    }
    s' := FinalizeGoes(c, w, s', id, {});
  }

  /** The tables one after the other: the rows of other targets are read and deleted. */
  lemma {:induction false} FinalizeTables(c: Setting, w: World, s: World, id: JobId, i: nat) returns (s': World)
    requires id.mode.CdcFinalize? && id in w.k8s.jobs && PodReaches(c, w, id, s) && FinalizeDone(c, w, s, id)
    requires s.k8s.jobs[id] == Running(Scan(i)) && AllResolve(c, Store(w, id.shard))
    ensures PodReaches(c, w, id, s') && FinalizeDone(c, w, s', id) && s'.k8s.jobs[id].Succeeded?
    decreases c.tables - i
  {
    OwnTable(c, Store(w, id.shard), id.shard, i);
    s' := FinalizeGoes(c, w, s, id, {});
    if i < c.tables {
      assert AllResolve(c, TableRows(c, Store(s, id.shard), i));
      s' := FinalizeTable(c, w, s', id, i, s'.k8s.jobs[id].pc.rows);
      s' := FinalizeTables(c, w, s', id, i + 1);
    } else {
      s' := FinalizeGoes(c, w, s', id, {});
    }
  }

  /** cdc-finalize by itself: it can come to its end exactly if its target has applied the source's
      whole log and every row of the target has a target in the plan; and however it is batched it
      has then left the target exactly the rows of its own keys. */
  lemma FinalizeExactly(c: Setting, w: World, id: JobId)
    requires TablesKnown(c) && id.mode.CdcFinalize? && id in w.k8s.jobs && w.k8s.jobs[id] == Running(Begin)
    ensures var rows := Store(w, id.shard);
      CanSucceed(c, w, id) <==>
        SubOf(w, id.shard).Sub? && SubOf(w, id.shard).applied == |w.log| && forall k :: k in rows ==> Home(c, k).Some?
    ensures forall batches :: var s := PodRun(c, w, id, batches);
      id in s.k8s.jobs && s.k8s.jobs[id].Succeeded? ==>
        && Stands(w, s, id, Succeeded, id.shard, Homed(c, Store(w, id.shard), id.shard))
        && SubOf(s, id.shard).NoSub? && s.pubs == w.pubs - {id.shard} && s.log == w.log
  {
    var rows := Store(w, id.shard);
    assert Own(c, rows, id.shard, c.tables) == Homed(c, rows, id.shard);
    forall batches ensures FinalizeDone(c, w, PodRun(c, w, id, batches), id) { FinalizeRunDone(c, w, id, batches); }
    if WasDrained(w, id.shard) && AllResolve(c, rows) {
      PodStays(c, w, id);
      FinalizeRunDone(c, w, id, []);
      var s := FinalizeGoes(c, w, w, id, {});
      s := FinalizeGoes(c, w, s, id, {});
      s := FinalizeTables(c, w, s, id, 0);
    }
  }

  // ---------------------------------------------------------------------------
  // The clean-up.

  /** The rows without the first `n` tables' rows of target `t`. */
  function Rest(c: Setting, rows: Rows, t: ShardId, n: nat): Rows {
    map k | k in rows && (c.tableOf(k) >= n || Home(c, k) != Some(t)) :: rows[k]
  }

  ghost predicate DeletingRows(c: Setting, rows: Rows, st: Rows, t: ShardId, i: nat, part: Rows) {
    && i < c.tables && st - part.Keys == Rest(c, rows, t, i + 1) && Resolved(c, rows, i + 1)
    && (forall k :: k in part ==> k in st && c.tableOf(k) == i && Home(c, k) == Some(t))
  }

  /** What the clean-up has made of the source's rows at each point. */
  ghost predicate DeleteRows(c: Setting, rows: Rows, st: Rows, t: ShardId, job: Job) {
    match job
    case Succeeded => st == Rest(c, rows, t, c.tables) && Resolved(c, rows, c.tables)
    case JobFailed => false
    case Running(pc) =>
      match pc
      case Begin => st == rows
      case Scan(i) => i <= c.tables && st == Rest(c, rows, t, i) && Resolved(c, rows, i)
      case Work(i, part, _) => DeletingRows(c, rows, st, t, i, part)
      case Finish => st == Rest(c, rows, t, c.tables) && Resolved(c, rows, c.tables)
      case _ => false
  }

  ghost predicate DeleteDone(c: Setting, w: World, s: World, id: JobId) {
    && id in s.k8s.jobs && Stands(w, s, id, s.k8s.jobs[id], Source(c), Store(s, Source(c))) && s.subs == w.subs
    && DeleteRows(c, Store(w, Source(c)), Store(s, Source(c)), id.shard, s.k8s.jobs[id])
  }

  lemma DeleteScanned(c: Setting, rows: Rows, st: Rows, t: ShardId, i: nat)
    requires i < c.tables && st == Rest(c, rows, t, i) && Resolved(c, rows, i) && AllResolve(c, TableRows(c, st, i))
    ensures DeletingRows(c, rows, st, t, i, Homed(c, TableRows(c, st, i), t))
  {
    var part := Homed(c, TableRows(c, st, i), t);
    assert st - part.Keys == Rest(c, rows, t, i + 1);
    forall k | k in rows && c.tableOf(k) < i + 1 ensures Home(c, k).Some? {
      if c.tableOf(k) == i { assert k in TableRows(c, st, i); }
    }
  }

  lemma DeleteWorked(c: Setting, rows: Rows, st: Rows, t: ShardId, i: nat, part: Rows, k: Key)
    requires DeletingRows(c, rows, st, t, i, part)
    ensures k in part ==> DeletingRows(c, rows, st - {k}, t, i, part - {k})
    ensures part == map[] ==> st == Rest(c, rows, t, i + 1)
  {
    if k in part { assert (st - {k}) - (part - {k}).Keys == st - part.Keys; }
    if part == map[] { assert st - part.Keys == st; }
  }

  lemma DeleteScanMoves(c: Setting, w: World, s: World, id: JobId, i: nat)
    requires id in s.k8s.jobs && s.k8s.jobs[id] == Running(Scan(i))
    requires DeleteRows(c, Store(w, Source(c)), Store(s, Source(c)), id.shard, Running(Scan(i)))
    ensures var s' := DeleteScan(c, s, id, i);
      && id in s'.k8s.jobs
      && DeleteRows(c, Store(w, Source(c)), Store(s', Source(c)), id.shard, s'.k8s.jobs[id])
  {
    var rows, st := Store(w, Source(c)), Store(s, Source(c));
    ScanReads(c, s, id, i);
    if i < c.tables && AllResolve(c, TableRows(c, st, i)) { DeleteScanned(c, rows, st, id.shard, i); }
  }

  lemma DeletedRow(c: Setting, s: World, id: JobId, i: nat, part: Rows, k: Key)
    requires k in part
    ensures var s' := DeleteWork(c, s, id, i, part, {k});
      && Store(s', Source(c)) == Store(s, Source(c)) - {k}
      && id in s'.k8s.jobs && s'.k8s.jobs[id] == Running(Work(i, part - {k}, true))
  {
    assert exists j :: j in part && {k} == {j};
  }

  lemma DeleteWorkMoves(c: Setting, w: World, s: World, id: JobId, i: nat, part: Rows, batch: set<Key>)
    requires id in s.k8s.jobs && s.k8s.jobs[id].Running? && s.k8s.jobs[id].pc.Work?
    requires s.k8s.jobs[id].pc.table == i && s.k8s.jobs[id].pc.rows == part
    requires DeletingRows(c, Store(w, Source(c)), Store(s, Source(c)), id.shard, i, part)
    ensures var s' := DeleteWork(c, s, id, i, part, batch);
      && id in s'.k8s.jobs
      && DeleteRows(c, Store(w, Source(c)), Store(s', Source(c)), id.shard, s'.k8s.jobs[id])
  {
    var rows, st := Store(w, Source(c)), Store(s, Source(c));
    if part == map[] {
      DeleteWorked(c, rows, st, id.shard, i, part, "");
      assert DeleteWork(c, s, id, i, part, batch) == WithJob(s, id, Running(Scan(i + 1)));
    } else if exists k :: k in part && batch == {k} {
      var k :| k in part && batch == {k};
      DeleteWorked(c, rows, st, id.shard, i, part, k);
      DeletedRow(c, s, id, i, part, k);
    }
  }

  lemma DeleteMoves(c: Setting, w: World, s: World, id: JobId, pc: Pc, batch: set<Key>)
    requires id in s.k8s.jobs && s.k8s.jobs[id] == Running(pc)
    requires DeleteRows(c, Store(w, Source(c)), Store(s, Source(c)), id.shard, Running(pc))
    ensures var s' := DeleteStep(c, s, id, pc, batch);
      && id in s'.k8s.jobs
      && DeleteRows(c, Store(w, Source(c)), Store(s', Source(c)), id.shard, s'.k8s.jobs[id])
  {
    match pc
    case Begin => assert Rest(c, Store(w, Source(c)), id.shard, 0) == Store(w, Source(c));
    case Scan(i) => DeleteScanMoves(c, w, s, id, i);
    case Work(i, part, _) => DeleteWorkMoves(c, w, s, id, i, part, batch);
    case _ =>
  }

  lemma DeleteStepDone(c: Setting, w: World, s: World, id: JobId, batch: set<Key>)
    requires id.mode.Delete? && id in w.k8s.jobs && DeleteDone(c, w, s, id)
    ensures DeleteDone(c, w, Pod(c, s, id, batch), id)
  {
    if s.k8s.jobs[id].Running? {
      var s', pc := Pod(c, s, id, batch), s.k8s.jobs[id].pc;
      DeleteFrame(c, s, id, pc, batch);
      SameFrame(w, s, s', id, Source(c));
      DeleteMoves(c, w, s, id, pc, batch);
    }
  }

  lemma {:induction false} DeleteRunDone(c: Setting, w: World, id: JobId, batches: seq<set<Key>>)
    requires id.mode.Delete? && id in w.k8s.jobs && w.k8s.jobs[id] == Running(Begin)
    ensures DeleteDone(c, w, PodRun(c, w, id, batches), id)
  {
    if batches == [] {
      assert w.k8s.jobs[id := Running(Begin)] == w.k8s.jobs;
    } else {
      var n := |batches| - 1;
      DeleteRunDone(c, w, id, batches[..n]);
      DeleteStepDone(c, w, PodRun(c, w, id, batches[..n]), id, batches[n]);
    }
  }

  lemma DeletesOne(c: Setting, s: World, id: JobId, i: nat, part: Rows, k: Key)
    requires id.mode.Delete? && id in s.k8s.jobs && s.k8s.jobs[id].Running? && s.k8s.jobs[id].pc.Work?
    requires s.k8s.jobs[id].pc.table == i && s.k8s.jobs[id].pc.rows == part && k in part
    ensures var s' := Pod(c, s, id, {k}); id in s'.k8s.jobs && s'.k8s.jobs[id] == Running(Work(i, part - {k}, true))
  {
    assert exists j :: j in part && {k} == {j};
  }

  lemma FewerRows(part: Rows, k: Key)
    requires k in part
    ensures |part - {k}| < |part|
  {
    assert part.Keys == (part - {k}).Keys + {k};
  }

  /** From a point in the middle of a table the clean-up comes to the next one. */
  lemma {:induction false} DeleteTable(c: Setting, w: World, s: World, id: JobId, i: nat, part: Rows)
    returns (s': World)
    requires id.mode.Delete? && id in w.k8s.jobs && PodReaches(c, w, id, s) && DeleteDone(c, w, s, id)
    requires s.k8s.jobs[id].Running? && s.k8s.jobs[id].pc.Work?
    requires s.k8s.jobs[id].pc.table == i && s.k8s.jobs[id].pc.rows == part
    ensures PodReaches(c, w, id, s') && DeleteDone(c, w, s', id) && s'.k8s.jobs[id] == Running(Scan(i + 1))
    decreases |part|
  {
    if part == map[] {
      s' := Pod(c, s, id, {});
      PodThen(c, w, id, s, {});
      DeleteStepDone(c, w, s, id, {});
    } else {
      var k :| k in part;
      PodThen(c, w, id, s, {k});
      DeleteStepDone(c, w, s, id, {k});
      DeletesOne(c, s, id, i, part, k);
      FewerRows(part, k);
      s' := DeleteTable(c, w, Pod(c, s, id, {k}), id, i, part - {k});
    }
  }

  lemma {:induction false} DeleteTables(c: Setting, w: World, s: World, id: JobId, i: nat) returns (s': World)
    requires id.mode.Delete? && id in w.k8s.jobs && PodReaches(c, w, id, s) && DeleteDone(c, w, s, id)
    requires s.k8s.jobs[id] == Running(Scan(i)) && AllResolve(c, Store(w, Source(c)))
    ensures PodReaches(c, w, id, s') && DeleteDone(c, w, s', id) && s'.k8s.jobs[id].Succeeded?
    decreases c.tables - i
  {
    s' := Pod(c, s, id, {});
    PodThen(c, w, id, s, {});
    DeleteStepDone(c, w, s, id, {});
    if i < c.tables {
      assert AllResolve(c, TableRows(c, Store(s, Source(c)), i));
      s' := DeleteTable(c, w, s', id, i, s'.k8s.jobs[id].pc.rows);
      s' := DeleteTables(c, w, s', id, i + 1);
    } else {
      DeleteStepDone(c, w, s', id, {});
      PodThen(c, w, id, s', {});
      s' := Pod(c, s', id, {});
    }
  }

  /** The clean-up by itself: it can come to its end exactly if every row of the source has a target
      in the plan; and in whatever order it has then deleted exactly its own target's rows. */
  lemma DeleteExactly(c: Setting, w: World, id: JobId)
    requires TablesKnown(c) && id.mode.Delete? && id in w.k8s.jobs && w.k8s.jobs[id] == Running(Begin)
    ensures CanSucceed(c, w, id) <==> forall k :: k in Store(w, Source(c)) ==> Home(c, k).Some?
    ensures forall batches :: var s := PodRun(c, w, id, batches);
      id in s.k8s.jobs && s.k8s.jobs[id].Succeeded? ==>
        Stands(w, s, id, Succeeded, Source(c), Foreign(c, Store(w, Source(c)), id.shard)) && s.subs == w.subs
  {
    var rows := Store(w, Source(c));
    assert Rest(c, rows, id.shard, c.tables) == Foreign(c, rows, id.shard);
    forall batches ensures DeleteDone(c, w, PodRun(c, w, id, batches), id) { DeleteRunDone(c, w, id, batches); }
    if AllResolve(c, rows) {
      PodStays(c, w, id);
      PodThen(c, w, id, w, {});
      DeleteRunDone(c, w, id, []);
      DeleteStepDone(c, w, w, id, {});
      var s := DeleteTables(c, w, Pod(c, w, id, {}), id, 0);
    }
  }

  // ---------------------------------------------------------------------------
  // The offline copy.

  /** The first `n` tables are the source's rows of target `t`, the others as they were. */
  function CopiedTo(c: Setting, src: Rows, rows: Rows, t: ShardId, n: nat): Rows {
    (map k | k in rows && c.tableOf(k) >= n :: rows[k])
      + (map k | k in src && c.tableOf(k) < n && Home(c, k) == Some(t) :: src[k])
  }

  ghost predicate CopyingRows(c: Setting, src: Rows, rows: Rows, st: Rows, t: ShardId, i: nat, part: Rows, all: bool) {
    && i < c.tables && Resolved(c, src, i) && (all <==> AllResolve(c, TableRows(c, src, i)))
    && st + part == CopiedTo(c, src, rows, t, i + 1)
  }

  /** What the copy has made of its target's rows at each point. */
  ghost predicate CopyRows(c: Setting, src: Rows, rows: Rows, st: Rows, t: ShardId, job: Job) {
    match job
    case Succeeded => st == CopiedTo(c, src, rows, t, c.tables) && Resolved(c, src, c.tables)
    case JobFailed => false
    case Running(pc) =>
      match pc
      case Begin => st == rows
      case Scan(i) => i <= c.tables && st == CopiedTo(c, src, rows, t, i) && Resolved(c, src, i)
      case Truncated(i) =>
        i < c.tables && st == Without(c, CopiedTo(c, src, rows, t, i), i) && Resolved(c, src, i)
      case Work(i, part, all) => CopyingRows(c, src, rows, st, t, i, part, all)
      case Finish => st == CopiedTo(c, src, rows, t, c.tables) && Resolved(c, src, c.tables)
      case _ => false
  }

  ghost predicate CopyReached(c: Setting, src: Rows, rows: Rows, t: ShardId, to: (Rows, Job)) {
    CopyRows(c, src, rows, to.0, t, to.1)
  }

  ghost predicate CopyDone(c: Setting, w: World, s: World, id: JobId) {
    && id in s.k8s.jobs && Stands(w, s, id, s.k8s.jobs[id], id.shard, Store(s, id.shard))
    && s.log == w.log && s.subs == w.subs
    && CopyRows(c, Store(w, Source(c)), Store(w, id.shard), Store(s, id.shard), id.shard, s.k8s.jobs[id])
  }

  function Taken(part: Rows, batch: set<Key>): Rows {
    map k | k in part && k in batch :: part[k]
  }

  /** The rows and the Job after a step of the copy. */
  function CopyTo(c: Setting, src: Rows, st: Rows, t: ShardId, pc: Pc, batch: set<Key>): (Rows, Job) {
    match pc
    case Begin => (st, Running(Scan(0)))
    case Scan(i) =>
      if i >= c.tables then (st, Running(Finish)) else (Without(c, st, i), Running(Truncated(i)))
    case Truncated(i) =>
      (st, Running(Work(i, Homed(c, TableRows(c, src, i), t), AllResolve(c, TableRows(c, src, i)))))
    case Work(i, part, all) =>
      if part == map[] then (st, Running(if all then Scan(i + 1) else Work(i, part, all)))
      else (st + Taken(part, batch), Running(Work(i, part - batch, all)))
    case Finish => (st, Succeeded)
    case _ => (st, Running(pc))
  }

  lemma CopyMoves(c: Setting, s: World, id: JobId, pc: Pc, batch: set<Key>)
    requires id.mode.Copy? && id in s.k8s.jobs && s.k8s.jobs[id] == Running(pc)
    ensures var s' := CopyStep(c, s, id, pc, batch);
      && id in s'.k8s.jobs
      && (Store(s', id.shard), s'.k8s.jobs[id])
         == CopyTo(c, Store(s, Source(c)), Store(s, id.shard), id.shard, pc, batch)
  {
    match pc
    case Scan(i) => CopyScanMoves(c, s, id, i);
    case Work(i, part, all) => CopyWorkMoves(c, s, id, i, part, all, batch);
    case _ =>
  }

  lemma CopyScanMoves(c: Setting, s: World, id: JobId, i: nat)
    ensures var s' := CopyScan(c, s, id, i);
      && id in s'.k8s.jobs
      && (Store(s', id.shard), s'.k8s.jobs[id])
         == CopyTo(c, Store(s, Source(c)), Store(s, id.shard), id.shard, Scan(i), {})
  {
  }

  lemma CopyWorkMoves(c: Setting, s: World, id: JobId, i: nat, part: Rows, all: bool, batch: set<Key>)
    requires id in s.k8s.jobs && s.k8s.jobs[id] == Running(Work(i, part, all))
    ensures var s' := CopyWork(s, id, i, part, all, batch);
      && id in s'.k8s.jobs
      && (Store(s', id.shard), s'.k8s.jobs[id])
         == CopyTo(c, Store(s, Source(c)), Store(s, id.shard), id.shard, Work(i, part, all), batch)
  {
    assert Taken(part, batch) == map k | k in part && k in batch :: part[k];
  }

  lemma CopyReadsAll(c: Setting, src: Rows, rows: Rows, t: ShardId, i: nat)
    ensures Without(c, CopiedTo(c, src, rows, t, i), i) + Homed(c, TableRows(c, src, i), t)
      == CopiedTo(c, src, rows, t, i + 1)
  {
    var done := CopiedTo(c, src, rows, t, i);
    var read := Without(c, done, i) + Homed(c, TableRows(c, src, i), t);
    forall k ensures Get(read, k) == Get(CopiedTo(c, src, rows, t, i + 1), k) {
      CopiedRow(c, src, rows, t, i, k);
      CopiedRow(c, src, rows, t, i + 1, k);
      WithRead(c, done, src, t, i, k);
    }
    SameRows(read, CopiedTo(c, src, rows, t, i + 1));
  }

  lemma WithRead(c: Setting, st: Rows, src: Rows, t: ShardId, i: nat, k: Key)
    ensures Get(Without(c, st, i) + Homed(c, TableRows(c, src, i), t), k) ==
      if c.tableOf(k) != i then Get(st, k) else if Home(c, k) == Some(t) then Get(src, k) else None
  {
  }

  lemma CopiedRow(c: Setting, src: Rows, rows: Rows, t: ShardId, n: nat, k: Key)
    ensures Get(CopiedTo(c, src, rows, t, n), k) ==
      if c.tableOf(k) >= n then Get(rows, k) else if Home(c, k) == Some(t) then Get(src, k) else None
  {
  }

  lemma SameRows(a: Rows, b: Rows)
    requires forall k :: Get(a, k) == Get(b, k)
    ensures a == b
  {
    forall k ensures k in a <==> k in b { assert Get(a, k) == Get(b, k); }
    forall k | k in a ensures a[k] == b[k] { assert Get(a, k) == Get(b, k); }
  }

  lemma CopiedNone(c: Setting, src: Rows, rows: Rows, t: ShardId)
    ensures CopiedTo(c, src, rows, t, 0) == rows
  {
    forall k ensures Get(CopiedTo(c, src, rows, t, 0), k) == Get(rows, k) { CopiedRow(c, src, rows, t, 0, k); }
    SameRows(CopiedTo(c, src, rows, t, 0), rows);
  }

  lemma TakenAdds(st: Rows, part: Rows, batch: set<Key>)
    ensures (st + Taken(part, batch)) + (part - batch) == st + part
  {
  }

  lemma CopyWorked(c: Setting, src: Rows, rows: Rows, st: Rows, t: ShardId, i: nat, part: Rows, all: bool,
                   batch: set<Key>)
    requires CopyingRows(c, src, rows, st, t, i, part, all)
    ensures CopyingRows(c, src, rows, st + Taken(part, batch), t, i, part - batch, all)
    ensures part == map[] && all ==> st == CopiedTo(c, src, rows, t, i + 1) && Resolved(c, src, i + 1)
  {
    TakenAdds(st, part, batch);
    if part == map[] { assert st + part == st; }
    if all {
      forall k | k in src && c.tableOf(k) < i + 1 ensures Home(c, k).Some? {
        if c.tableOf(k) == i { assert k in TableRows(c, src, i); }
      }
    }
  }

  lemma CopyTruncated(c: Setting, src: Rows, rows: Rows, st: Rows, t: ShardId, i: nat)
    requires i < c.tables && st == CopiedTo(c, src, rows, t, i) && Resolved(c, src, i)
    ensures CopyReached(c, src, rows, t, (Without(c, st, i), Running(Truncated(i))))
  {
  }

  lemma CopyTruncates(c: Setting, src: Rows, rows: Rows, st: Rows, t: ShardId, i: nat, batch: set<Key>)
    requires CopyRows(c, src, rows, st, t, Running(Scan(i)))
    ensures CopyReached(c, src, rows, t, CopyTo(c, src, st, t, Scan(i), batch))
  {
    if i < c.tables { CopyTruncated(c, src, rows, st, t, i); }
  }

  lemma CopyReads(c: Setting, src: Rows, rows: Rows, st: Rows, t: ShardId, i: nat, batch: set<Key>)
    requires CopyRows(c, src, rows, st, t, Running(Truncated(i)))
    ensures CopyReached(c, src, rows, t, CopyTo(c, src, st, t, Truncated(i), batch))
  {
    var part, all := Homed(c, TableRows(c, src, i), t), AllResolve(c, TableRows(c, src, i));
    CopyReadsAll(c, src, rows, t, i);
    assert CopyTo(c, src, st, t, Truncated(i), batch) == (st, Running(Work(i, part, all)));
  }

  lemma CopyBatchMoves(c: Setting, src: Rows, rows: Rows, st: Rows, t: ShardId, i: nat, part: Rows, all: bool,
                       batch: set<Key>)
    requires CopyingRows(c, src, rows, st, t, i, part, all)
    ensures CopyReached(c, src, rows, t, CopyTo(c, src, st, t, Work(i, part, all), batch))
  {
    CopyWorked(c, src, rows, st, t, i, part, all, batch);
    var pc := Work(i, part, all);
    if part != map[] {
      assert CopyTo(c, src, st, t, pc, batch) == (st + Taken(part, batch), Running(Work(i, part - batch, all)));
    } else if all {
      assert CopyTo(c, src, st, t, pc, batch) == (st, Running(Scan(i + 1)));
    }
  }

  lemma CopyRowsMove(c: Setting, src: Rows, rows: Rows, st: Rows, t: ShardId, pc: Pc, batch: set<Key>)
    requires CopyRows(c, src, rows, st, t, Running(pc))
    ensures CopyReached(c, src, rows, t, CopyTo(c, src, st, t, pc, batch))
  {
    match pc
    case Begin => CopiedNone(c, src, rows, t);
    case Scan(i) => CopyTruncates(c, src, rows, st, t, i, batch);
    case Truncated(i) => CopyReads(c, src, rows, st, t, i, batch);
    case Work(i, part, all) => CopyBatchMoves(c, src, rows, st, t, i, part, all, batch);
    case _ =>
  }

  lemma CopyStepDone(c: Setting, w: World, s: World, id: JobId, batch: set<Key>)
    requires id.mode.Copy? && id in w.k8s.jobs && id.shard != Source(c) && CopyDone(c, w, s, id)
    ensures CopyDone(c, w, Pod(c, s, id, batch), id)
  {
    if s.k8s.jobs[id].Running? {
      var s', pc, t := Pod(c, s, id, batch), s.k8s.jobs[id].pc, id.shard;
      CopyFrame(c, s, id, pc, batch);
      SameFrame(w, s, s', id, t);
      CopyMoves(c, s, id, pc, batch);
      CopyRowsMove(c, Store(w, Source(c)), Store(w, t), Store(s, t), t, pc, batch);
    }
  }

  lemma {:induction false} CopyRunDone(c: Setting, w: World, id: JobId, batches: seq<set<Key>>)
    requires id.mode.Copy? && id in w.k8s.jobs && w.k8s.jobs[id] == Running(Begin) && id.shard != Source(c)
    ensures CopyDone(c, w, PodRun(c, w, id, batches), id)
  {
    if batches == [] {
      assert w.k8s.jobs[id := Running(Begin)] == w.k8s.jobs;
    } else {
      var n := |batches| - 1;
      CopyRunDone(c, w, id, batches[..n]);
      CopyStepDone(c, w, PodRun(c, w, id, batches[..n]), id, batches[n]);
    }
  }

  lemma CopyGoes(c: Setting, w: World, s: World, id: JobId, batch: set<Key>) returns (s': World)
    requires id.mode.Copy? && id in w.k8s.jobs && id.shard != Source(c)
    requires PodReaches(c, w, id, s) && CopyDone(c, w, s, id) && s.k8s.jobs[id].Running?
    ensures PodReaches(c, w, id, s') && CopyDone(c, w, s', id)
    ensures s'.k8s.jobs[id] == CopyTo(c, Store(w, Source(c)), Store(s, id.shard), id.shard, s.k8s.jobs[id].pc, batch).1
  {
    s' := Pod(c, s, id, batch);
    PodThen(c, w, id, s, batch);
    CopyMoves(c, s, id, s.k8s.jobs[id].pc, batch);
    CopyStepDone(c, w, s, id, batch);
  }

  lemma TakenAll(c: Setting, src: Rows, st: Rows, t: ShardId, i: nat, part: Rows)
    ensures CopyTo(c, src, st, t, Work(i, part, true), part.Keys).1 ==
      if part == map[] then Running(Scan(i + 1)) else Running(Work(i, map[], true))
  {
    assert part - part.Keys == map[];
  }

  lemma CopyInserts(c: Setting, w: World, s: World, id: JobId, i: nat, part: Rows) returns (s': World)
    requires id.mode.Copy? && id in w.k8s.jobs && id.shard != Source(c)
    requires PodReaches(c, w, id, s) && CopyDone(c, w, s, id) && s.k8s.jobs[id] == Running(Work(i, part, true))
    ensures PodReaches(c, w, id, s') && CopyDone(c, w, s', id)
    ensures s'.k8s.jobs[id] == if part == map[] then Running(Scan(i + 1)) else Running(Work(i, map[], true))
  {
    TakenAll(c, Store(w, Source(c)), Store(s, id.shard), id.shard, i, part);
    s' := CopyGoes(c, w, s, id, part.Keys);
  }

  lemma CopyTable(c: Setting, w: World, s: World, id: JobId, i: nat, part: Rows) returns (s': World)
    requires id.mode.Copy? && id in w.k8s.jobs && id.shard != Source(c)
    requires PodReaches(c, w, id, s) && CopyDone(c, w, s, id) && s.k8s.jobs[id] == Running(Work(i, part, true))
    ensures PodReaches(c, w, id, s') && CopyDone(c, w, s', id) && s'.k8s.jobs[id] == Running(Scan(i + 1))
  {
    s' := CopyInserts(c, w, s, id, i, part);
    if part != map[] { s' := CopyInserts(c, w, s', id, i, map[]); }
  }

  lemma {:induction false} CopyTables(c: Setting, w: World, s: World, id: JobId, i: nat) returns (s': World)
    requires id.mode.Copy? && id in w.k8s.jobs && id.shard != Source(c)
    requires PodReaches(c, w, id, s) && CopyDone(c, w, s, id)
    requires s.k8s.jobs[id] == Running(Scan(i)) && AllResolve(c, Store(w, Source(c)))
    ensures PodReaches(c, w, id, s') && CopyDone(c, w, s', id) && s'.k8s.jobs[id].Succeeded?
    decreases c.tables - i
  {
    s' := CopyGoes(c, w, s, id, {});
    if i < c.tables {
      assert AllResolve(c, TableRows(c, Store(w, Source(c)), i));
      s' := CopyGoes(c, w, s', id, {});
      s' := CopyTable(c, w, s', id, i, s'.k8s.jobs[id].pc.rows);
      s' := CopyTables(c, w, s', id, i + 1);
    } else {
      s' := CopyGoes(c, w, s', id, {});
    }
  }

  /** The offline copy by itself: it can come to its end exactly if every row of the source has a
      target in the plan; and however it is batched, and whatever its target held before, the target
      then holds exactly the source's rows of its own keys. */
  lemma CopyExactly(c: Setting, w: World, id: JobId)
    requires TablesKnown(c) && id.mode.Copy? && id in w.k8s.jobs && w.k8s.jobs[id] == Running(Begin)
    requires id.shard != Source(c)
    ensures CanSucceed(c, w, id) <==> forall k :: k in Store(w, Source(c)) ==> Home(c, k).Some?
    ensures forall batches :: var s := PodRun(c, w, id, batches);
      id in s.k8s.jobs && s.k8s.jobs[id].Succeeded? ==>
        && Stands(w, s, id, Succeeded, id.shard, Homed(c, Store(w, Source(c)), id.shard))
        && s.log == w.log && s.subs == w.subs
  {
    var src := Store(w, Source(c));
    assert CopiedTo(c, src, Store(w, id.shard), id.shard, c.tables) == Homed(c, src, id.shard);
    forall batches ensures CopyDone(c, w, PodRun(c, w, id, batches), id) { CopyRunDone(c, w, id, batches); }
    if AllResolve(c, src) {
      PodStays(c, w, id);
      CopyRunDone(c, w, id, []);
      var s := CopyGoes(c, w, w, id, {});
      s := CopyTables(c, w, s, id, 0);
    }
  }

  // ---------------------------------------------------------------------------
  // cdc-setup and replication.

  /** The source's rows of the first `n` tables. */
  function Below(c: Setting, rows: Rows, n: nat): Rows {
    map k | k in rows && c.tableOf(k) < n :: rows[k]
  }

  /** The first `n` tables have been copied at position `at`, up to which all has been applied. */
  ghost predicate SyncedTo(sub: Subscription, at: nat, n: nat) {
    && sub.Sub? && sub.applied == at && (forall i :: 0 <= i < n ==> i in sub.syncedAt)
    && (forall i :: i in sub.syncedAt ==> i < n && sub.syncedAt[i] == at)
  }

  /** Subscribed at the log's end, with the first `n` tables copied. */
  ghost predicate SetupAt(c: Setting, w: World, s: World, id: JobId, job: Job, n: nat) {
    && Stands(w, s, id, job, id.shard, Store(w, id.shard) + Below(c, Store(w, Source(c)), n))
    && SyncedTo(SubOf(s, id.shard), |w.log|, n)
    && s.log == w.log && s.pubs == w.pubs + {id.shard}
  }

  lemma SetupBegins(c: Setting, w: World, id: JobId) returns (s: World)
    requires id.mode.CdcSetup? && id in w.k8s.jobs && w.k8s.jobs[id] == Running(Begin) && SubOf(w, id.shard).NoSub?
    ensures SplitOffline.Reaches(c, w, s) && SetupAt(c, w, s, id, Running(Subscribed), 0)
  {
    assert Run(c, w, []) == w;
    SplitOffline.Then(c, w, w, PodStep(id, {}));
    var published := WithJob(w.(pubs := w.pubs + {id.shard}), id, Running(Published));
    assert Pod(c, w, id, {}) == published;
    SplitOffline.Then(c, w, published, PodStep(id, {}));
    SetupSubscribes(c, w, published, id);
    s := Pod(c, published, id, {});
  }

  lemma SetupSubscribes(c: Setting, w: World, published: World, id: JobId)
    requires id.mode.CdcSetup? && id in w.k8s.jobs && SubOf(w, id.shard).NoSub?
    requires published == WithJob(w.(pubs := w.pubs + {id.shard}), id, Running(Published))
    ensures SetupAt(c, w, Pod(c, published, id, {}), id, Running(Subscribed), 0)
  {
    var s := WithJob(WithSub(published, id.shard, Sub(|w.log|, map[])), id, Running(Subscribed));
    assert Pod(c, published, id, {}) == s;
    assert w.k8s.jobs[id := Running(Published)][id := Running(Subscribed)] == w.k8s.jobs[id := Running(Subscribed)];
    assert Store(w, id.shard) + Below(c, Store(w, Source(c)), 0) == Store(w, id.shard);
    assert forall u :: Store(s, u) == Store(w, u);
  }

  lemma BelowGrows(c: Setting, st: Rows, src: Rows, n: nat)
    ensures (st + Below(c, src, n)) + TableRows(c, src, n) == st + Below(c, src, n + 1)
  {
  }

  lemma SetupSyncs(c: Setting, w: World, s: World, id: JobId, n: nat)
    requires SetupAt(c, w, s, id, Running(Subscribed), n) && n < c.tables && id.shard != Source(c)
    ensures SetupAt(c, w, Sync(c, s, id.shard, n), id, Running(Subscribed), n + 1)
  {
    BelowGrows(c, Store(w, id.shard), Store(w, Source(c)), n);
  }

  lemma {:induction false} SetupSyncsAll(c: Setting, w: World, s: World, id: JobId, n: nat) returns (s': World)
    requires SplitOffline.Reaches(c, w, s) && SetupAt(c, w, s, id, Running(Subscribed), n)
    requires n <= c.tables && id.shard != Source(c)
    ensures SplitOffline.Reaches(c, w, s') && SetupAt(c, w, s', id, Running(Subscribed), c.tables)
    decreases c.tables - n
  {
    s' := s;
    if n < c.tables {
      SetupSyncs(c, w, s, id, n);
      SplitOffline.Then(c, w, s, TableSync(id.shard, n));
      s' := SetupSyncsAll(c, w, Sync(c, s, id.shard, n), id, n + 1);
    }
  }

  lemma SetupSeesSynced(c: Setting, w: World, s: World, id: JobId)
    requires id.mode.CdcSetup? && SetupAt(c, w, s, id, Running(Subscribed), c.tables)
    ensures SetupAt(c, w, Pod(c, s, id, {}), id, Running(Synced), c.tables)
  {
    assert Pod(c, s, id, {}) == WithJob(s, id, Running(Synced));
    assert w.k8s.jobs[id := Running(Subscribed)][id := Running(Synced)] == w.k8s.jobs[id := Running(Synced)];
  }

  lemma SetupSucceeds(c: Setting, w: World, s: World, id: JobId)
    requires id.mode.CdcSetup? && SetupAt(c, w, s, id, Running(Synced), c.tables)
    ensures SetupAt(c, w, Pod(c, s, id, {}), id, Succeeded, c.tables)
  {
    assert Pod(c, s, id, {}) == WithJob(s, id, Succeeded);
    assert w.k8s.jobs[id := Running(Synced)][id := Succeeded] == w.k8s.jobs[id := Succeeded];
  }

  /** cdc-setup, with the source at rest, comes to its end with its target subscribed at the log's
      end and holding a copy of the source. */
  lemma SetupCompletes(c: Setting, w: World, id: JobId)
    requires TablesKnown(c) && id.mode.CdcSetup? && id in w.k8s.jobs && w.k8s.jobs[id] == Running(Begin)
    requires SubOf(w, id.shard).NoSub? && id.shard != Source(c)
    ensures exists s ::
      && SplitOffline.Reaches(c, w, s) && s.log == w.log && s.pubs == w.pubs + {id.shard}
      && Stands(w, s, id, Succeeded, id.shard, Store(w, id.shard) + Store(w, Source(c)))
      && SyncedTo(SubOf(s, id.shard), |w.log|, c.tables)
  {
    var s := SetupBegins(c, w, id);
    s := SetupSyncsAll(c, w, s, id, 0);
    SetupSeesSynced(c, w, s, id);
    SplitOffline.Then(c, w, s, PodStep(id, {}));
    s := Pod(c, s, id, {});
    SetupSucceeds(c, w, s, id);
    SplitOffline.Then(c, w, s, PodStep(id, {}));
    s := Pod(c, s, id, {});
    assert Below(c, Store(w, Source(c)), c.tables) == Store(w, Source(c));
  }

  lemma SetupJob(c: Setting, s: World, id: JobId, pc: Pc)
    requires id.mode.CdcSetup? && id in s.k8s.jobs && s.k8s.jobs[id] == Running(pc)
    ensures var s', sub := SetupStep(c, s, id, pc), SubOf(s, id.shard);
      && id in s'.k8s.jobs
      && (s'.k8s.jobs[id].Succeeded? <==> pc.Synced? && sub.Sub? && |s.log| - sub.applied <= c.maxLag)
  {
  }

  /** cdc-setup comes to its end exactly when it has seen all tables copied and its target is behind
      by no more changes than allowed. */
  lemma SetupEndsExactlyIf(c: Setting, s: World, id: JobId, batch: set<Key>)
    requires id.mode.CdcSetup? && id in s.k8s.jobs && s.k8s.jobs[id].Running?
    ensures id in Pod(c, s, id, batch).k8s.jobs
    ensures Pod(c, s, id, batch).k8s.jobs[id].Succeeded? <==>
      && s.k8s.jobs[id] == Running(Synced)
      && SubOf(s, id.shard).Sub? && |s.log| - SubOf(s, id.shard).applied <= c.maxLag
  {
    SetupJob(c, s, id, s.k8s.jobs[id].pc);
  }

  lemma LinkIsSynced(c: Setting, s: World, t: ShardId)
    requires LinksOk(c, s) && IsTarget(c, t) && JobOf(s.k8s, CdcSetup, t) == Some(Running(Synced)) && SubOf(s, t).Sub?
    ensures AllSynced(c, SubOf(s, t))
  {
    assert LinkOk(c, s, t);
  }

  lemma InvIsSynced(c: Setting, s: World, id: JobId)
    requires ValidSetting(c) && c.spec.online && Inv(c, s) && Live(s.k8s)
    requires id.mode.CdcSetup? && id in s.k8s.jobs && s.k8s.jobs[id] == Running(Synced) && SubOf(s, id.shard).Sub?
    ensures AllSynced(c, SubOf(s, id.shard))
  {
    RunningPod(c, s.k8s, id);
    LinkIsSynced(c, s, id.shard);
  }

  /** And over every run of a live online split what it has seen is still so: every table of its
      target has been copied. */
  lemma SyncedIsCopied(c: Setting, w: World, events: seq<Event>, id: JobId)
    requires ValidSetting(c) && c.spec.online && Init(c, w) && Live(Run(c, w, events).k8s)
    requires var s := Run(c, w, events);
      id.mode.CdcSetup? && id in s.k8s.jobs && s.k8s.jobs[id] == Running(Synced) && SubOf(s, id.shard).Sub?
    ensures AllSynced(c, SubOf(Run(c, w, events), id.shard))
  {
    RunHolds(c, w, events);
    InvIsSynced(c, Run(c, w, events), id);
  }

  /** A subscribed target whose tables are all copied comes to hold exactly the source's rows, once
      the source is at rest. */
  lemma CatchesUp(c: Setting, w: World, t: ShardId)
    requires TablesKnown(c) && t in w.pubs && AllSynced(c, SubOf(w, t)) && Content(c, w.log, Store(w, t), SubOf(w, t))
    ensures exists s ::
      && SplitOffline.Reaches(c, w, s) && s.k8s == w.k8s && s.log == w.log && WasDrained(s, t)
      && Store(s, t) == At(w.log, |w.log|) && forall u :: u != t ==> Store(s, u) == Store(w, u)
  {
    assert Run(c, w, []) == w;
    var s := ApplyAll(c, w, w, t);
    forall k ensures Get(Store(s, t), k) == Get(At(w.log, |w.log|), k) {
      assert c.tableOf(k) in SubOf(s, t).syncedAt;
    }
    SameRows(Store(s, t), At(w.log, |w.log|));
  }

  lemma {:induction false} ApplyAll(c: Setting, w: World, s: World, t: ShardId) returns (s': World)
    requires SplitOffline.Reaches(c, w, s) && s.k8s == w.k8s && s.log == w.log && t in s.pubs
    requires (forall u :: u != t ==> Store(s, u) == Store(w, u)) && AllSynced(c, SubOf(s, t))
    requires Content(c, w.log, Store(s, t), SubOf(s, t))
    ensures SplitOffline.Reaches(c, w, s') && s'.k8s == w.k8s && s'.log == w.log
    ensures (forall u :: u != t ==> Store(s', u) == Store(w, u)) && AllSynced(c, SubOf(s', t))
    ensures Content(c, w.log, Store(s', t), SubOf(s', t)) && SubOf(s', t).applied == |w.log|
    decreases |w.log| - SubOf(s, t).applied
  {
    s' := s;
    if SubOf(s, t).applied < |w.log| {
      s' := Apply(c, s, t);
      ApplyChanges(c, s, t);
      ApplyFacts(c, s, t);
      ApplyFrame(c, s, t);
      ApplyContent(c, s.log, Store(s, t), SubOf(s, t));
      SplitOffline.Then(c, w, s, ApplyChange(t));
      s' := ApplyAll(c, w, s', t);
    }
  }

  lemma ApplyChanges(c: Setting, s: World, t: ShardId)
    requires SubOf(s, t).Sub? && t in s.pubs && SubOf(s, t).applied < |s.log|
    ensures Apply(c, s, t) != s && Apply(c, s, t).pubs == s.pubs
  {
    assert SubOf(Apply(c, s, t), t).applied == SubOf(s, t).applied + 1;
  }

  // ---------------------------------------------------------------------------
  // cdc-abort.

  ghost predicate AbortDone(c: Setting, w: World, s: World, id: JobId) {
    && id in s.k8s.jobs && Stands(w, s, id, s.k8s.jobs[id], id.shard, Store(w, id.shard)) && s.log == w.log
    && (forall u :: u != id.shard ==> SubOf(s, u) == SubOf(w, u))
    && match s.k8s.jobs[id]
       case Running(pc) =>
         s.pubs == w.pubs && (pc.Begin? || (pc.Finish? && SubOf(s, id.shard).NoSub?))
       case Succeeded => SubOf(s, id.shard).NoSub? && w.pubs - {id.shard} <= s.pubs <= w.pubs
       case JobFailed => false
  }

  lemma AbortStepDone(c: Setting, w: World, s: World, id: JobId, batch: set<Key>)
    requires id.mode.CdcAbort? && id in w.k8s.jobs && AbortDone(c, w, s, id)
    ensures AbortDone(c, w, Pod(c, s, id, batch), id)
  {
    if s.k8s.jobs[id].Running? {
      AbortFrame(s, id, s.k8s.jobs[id].pc, batch);
      SameFrame(w, s, Pod(c, s, id, batch), id, id.shard);
    }
  }

  lemma {:induction false} AbortRunDone(c: Setting, w: World, id: JobId, batches: seq<set<Key>>)
    requires id.mode.CdcAbort? && id in w.k8s.jobs && w.k8s.jobs[id] == Running(Begin)
    ensures AbortDone(c, w, PodRun(c, w, id, batches), id)
  {
    if batches == [] {
      assert w.k8s.jobs[id := Running(Begin)] == w.k8s.jobs;
    } else {
      var n := |batches| - 1;
      AbortRunDone(c, w, id, batches[..n]);
      AbortStepDone(c, w, PodRun(c, w, id, batches[..n]), id, batches[n]);
    }
  }

  /** cdc-abort by itself comes to its end in two steps, whatever the source answers, and has then
      dropped the subscription, and the publication if the source answers, and nothing else. */
  lemma AbortExactly(c: Setting, w: World, id: JobId, first: set<Key>, second: set<Key>)
    requires id.mode.CdcAbort? && id in w.k8s.jobs && w.k8s.jobs[id] == Running(Begin)
    ensures var s := PodRun(c, w, id, [first, second]);
      && Stands(w, s, id, Succeeded, id.shard, Store(w, id.shard)) && SubOf(s, id.shard).NoSub? && s.log == w.log
      && (forall u :: u != id.shard ==> SubOf(s, u) == SubOf(w, u))
      && s.pubs == if second == {} then w.pubs else w.pubs - {id.shard}
  {
    assert [first, second][..1] == [first] && [first][..0] == [];
    assert PodRun(c, w, id, []) == w;
    assert PodRun(c, w, id, [first]) == WithJob(WithSub(w, id.shard, NoSub), id, Running(Finish));
    AbortRunDone(c, w, id, [first, second]);
  }
}
