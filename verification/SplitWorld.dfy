/** The world a split runs in: shard databases, the source's change log, logical
replication to the targets, the pods of the data-movement Jobs, and clients writing
through the router. `Next` performs one event; an event that is not enabled changes
nothing, so a run is any sequence of events. */
module SplitWorld {
  import opened Basics
  import opened KeyRanges
  import opened SplitPlan
  import opened SplitJob

  /** One committed change of the source shard. */
  datatype Change = Change(key: Key, row: Option<Val>)

  type Rows = map<Key, Val>

  /** A target's subscription: how far the source's log has been applied, and for each
      table whose initial copy is complete the log position of that copy's snapshot. */
  datatype Subscription = NoSub | Sub(applied: nat, syncedAt: map<nat, nat>)

  /** What is fixed during a split: its spec, the ShardRange before it, the vindex as an
      arbitrary function from keys to positions, and the table each key lives in. */
  datatype Setting = Setting(spec: Spec, before: seq<Entry>, pos: Key -> int, tableOf: Key -> nat, tables: nat,
                             maxLag: nat)

  /** `last` is the last accepted write of each key, and `copiedAt` the log position an
      offline copy of a table was read at: both are history, not read by any step. */
  datatype World = World(
    k8s: Cluster,
    stores: map<ShardId, Rows>,
    log: seq<Change>,
    subs: map<ShardId, Subscription>,
    pubs: set<ShardId>,
    last: Rows,
    copiedAt: map<ShardId, map<nat, nat>>)

  datatype Event =
    | ReconcileJob(env: Env)
    | ClientWrite(key: Key, row: Option<Val>)
    | PodStep(id: JobId, batch: set<Key>)
    | PodRestart(id: JobId)
    | JobGivesUp(id: JobId)
    | TableSync(target: ShardId, table: nat)
    | ApplyChange(target: ShardId)
    | OperatorAbort

  function Source(c: Setting): ShardId {
    if |c.spec.sources| == 1 then c.spec.sources[0] else ""
  }

  function Plan(c: Setting): seq<Entry> {
    FlattenTargets(c.spec.targets)
  }

  function Route(c: Setting, w: World, k: Key): Option<ShardId> {
    Resolve(w.k8s.ranges, c.pos(k))
  }

  /** The target that the split's plan gives key `k` to. */
  function Home(c: Setting, k: Key): Option<ShardId> {
    Resolve(Plan(c), c.pos(k))
  }

  function Store(w: World, s: ShardId): Rows {
    if s in w.stores then w.stores[s] else map[]
  }

  function SubOf(w: World, t: ShardId): Subscription {
    if t in w.subs then w.subs[t] else NoSub
  }

  function Get<T>(m: map<Key, T>, k: Key): Option<T> {
    if k in m then Some(m[k]) else None
  }

  function Put(m: Rows, k: Key, row: Option<Val>): Rows {
    if row.Some? then m[k := row.value] else m - {k}
  }

  /** The source's rows after the first `n` changes of its log. */
  function At(log: seq<Change>, n: nat): Rows
    requires n <= |log|
  {
    if n == 0 then map[] else Put(At(log, n - 1), log[n - 1].key, log[n - 1].row)
  }

  function TableRows(c: Setting, rows: Rows, table: nat): Rows {
    map k | k in rows && c.tableOf(k) == table :: rows[k]
  }

  function Without(c: Setting, rows: Rows, table: nat): Rows {
    map k | k in rows && c.tableOf(k) != table :: rows[k]
  }

  function Homed(c: Setting, rows: Rows, t: ShardId): Rows {
    map k | k in rows && Home(c, k) == Some(t) :: rows[k]
  }

  function Foreign(c: Setting, rows: Rows, t: ShardId): Rows {
    map k | k in rows && Home(c, k) != Some(t) :: rows[k]
  }

  /** Every row's key resolves under the plan; the row scans fail otherwise. */
  predicate AllResolve(c: Setting, rows: Rows) {
    forall k :: k in rows ==> Home(c, k).Some?
  }

  function WithStore(w: World, s: ShardId, rows: Rows): World {
    w.(stores := w.stores[s := rows])
  }

  function WithJob(w: World, id: JobId, job: Job): World {
    w.(k8s := w.k8s.(jobs := w.k8s.jobs[id := job]))
  }

  function WithSub(w: World, t: ShardId, sub: Subscription): World {
    w.(subs := w.subs[t := sub])
  }

  // ---------------------------------------------------------------------------
  // Clients.

  /** A write is refused while writes are blocked or when its key has no shard; otherwise
      the key's current shard commits it. */
  function Write(c: Setting, w: World, k: Key, row: Option<Val>): World {
    if w.k8s.blocked then w
    else match Route(c, w, k)
      case None => w
      case Some(s) =>
        var w1 := WithStore(w, s, Put(Store(w, s), k, row)).(last := Put(w.last, k, row));
        if s == Source(c) then w1.(log := w1.log + [Change(k, row)]) else w1
  }

  // ---------------------------------------------------------------------------
  // Logical replication.

  /** The initial copy of one table: the source's current rows of it, at the log's end. */
  function Sync(c: Setting, w: World, t: ShardId, table: nat): World {
    match SubOf(w, t)
    case NoSub => w
    case Sub(applied, syncedAt) =>
      if t !in w.pubs || table in syncedAt || table >= c.tables then w
      else
        var rows := Store(w, t) + TableRows(c, Store(w, Source(c)), table);
        WithSub(WithStore(w, t, rows), t, Sub(applied, syncedAt[table := |w.log|]))
  }

  /** The apply worker takes the next change; it skips changes of a table whose copy is
      not complete or already contains them. */
  function Apply(c: Setting, w: World, t: ShardId): World {
    match SubOf(w, t)
    case NoSub => w
    case Sub(applied, syncedAt) =>
      if t !in w.pubs || applied >= |w.log| then w
      else
        var ch := w.log[applied];
        var table := c.tableOf(ch.key);
        var w1 := WithSub(w, t, Sub(applied + 1, syncedAt));
        if table in syncedAt && syncedAt[table] <= applied then
          WithStore(w1, t, Put(Store(w1, t), ch.key, ch.row))
        else w1
  }

  predicate AllSynced(c: Setting, sub: Subscription) {
    sub.Sub? && forall i :: 0 <= i < c.tables ==> i in sub.syncedAt
  }

  // ---------------------------------------------------------------------------
  // Pods of the data-movement Jobs: one step of one pod.

  function SetupStep(c: Setting, w: World, id: JobId, pc: Pc): World {
    var t := id.shard;
    match pc
    case Begin => WithJob(w.(pubs := w.pubs + {t}), id, Running(Published))
    case Published =>
      var sub := if SubOf(w, t).Sub? then SubOf(w, t) else Sub(|w.log|, map[]);
      WithJob(WithSub(w, t, sub), id, Running(Subscribed))
    case Subscribed => if AllSynced(c, SubOf(w, t)) then WithJob(w, id, Running(Synced)) else w
    case Synced =>
      if SubOf(w, t).Sub? && |w.log| - SubOf(w, t).applied <= c.maxLag then WithJob(w, id, Succeeded) else w
    case _ => w
  }

  /** Reads the foreign rows of one table; a row that resolves nowhere stops the scan. */
  function FinalizeScan(c: Setting, w: World, id: JobId, i: nat): World {
    WithJob(w, id, Running(AfterScan(c, Store(w, id.shard), id.shard, i)))
  }

  function AfterScan(c: Setting, st: Rows, t: ShardId, i: nat): Pc {
    if i >= c.tables then Finish
    else if AllResolve(c, TableRows(c, st, i)) then Work(i, Foreign(c, TableRows(c, st, i), t), true)
    else Scan(i)
  }

  /** Deletes a batch of the foreign rows read. */
  function FinalizeWork(w: World, id: JobId, i: nat, rows: Rows, batch: set<Key>): World {
    if rows == map[] then WithJob(w, id, Running(Scan(i + 1)))
    else
      WithJob(WithStore(w, id.shard, Store(w, id.shard) - (rows.Keys * batch)), id,
              Running(Work(i, rows - batch, true)))
  }

  function FinalizeStep(c: Setting, w: World, id: JobId, pc: Pc, batch: set<Key>): World {
    var t := id.shard;
    match pc
    case Begin =>
      if SubOf(w, t).Sub? && SubOf(w, t).applied == |w.log| then WithJob(w, id, Running(Drained)) else w
    case Drained => WithJob(WithSub(w, t, NoSub), id, Running(Scan(0)))
    case Scan(i) => FinalizeScan(c, w, id, i)
    case Work(i, rows, _) => FinalizeWork(w, id, i, rows, batch)
    case Finish => WithJob(w.(pubs := w.pubs - {t}), id, Succeeded)
    case _ => w
  }

  /** Empties one table of the target. */
  function CopyScan(c: Setting, w: World, id: JobId, i: nat): World {
    if i >= c.tables then WithJob(w, id, Running(Finish))
    else WithJob(WithStore(w, id.shard, Without(c, Store(w, id.shard), i)), id, Running(Truncated(i)))
  }

  /** Reads the source's table and keeps the target's own rows; `copiedAt` records when. */
  function CopyRead(c: Setting, w: World, id: JobId, i: nat): World {
    var marks := if id.shard in w.copiedAt then w.copiedAt[id.shard] else map[];
    var rows := TableRows(c, Store(w, Source(c)), i);
    WithJob(w.(copiedAt := w.copiedAt[id.shard := marks[i := |w.log|]]), id,
            Running(Work(i, Homed(c, rows, id.shard), AllResolve(c, rows))))
  }

  /** Inserts a batch of the rows read; a key that resolves nowhere stops the copy. */
  function CopyWork(w: World, id: JobId, i: nat, rows: Rows, resolved: bool, batch: set<Key>): World {
    if rows == map[] then (if resolved then WithJob(w, id, Running(Scan(i + 1))) else w)
    else
      var part := map k | k in rows && k in batch :: rows[k];
      WithJob(WithStore(w, id.shard, Store(w, id.shard) + part), id, Running(Work(i, rows - batch, resolved)))
  }

  function CopyStep(c: Setting, w: World, id: JobId, pc: Pc, batch: set<Key>): World {
    match pc
    case Begin => WithJob(w, id, Running(Scan(0)))
    case Scan(i) => CopyScan(c, w, id, i)
    case Truncated(i) => CopyRead(c, w, id, i)
    case Work(i, rows, resolved) => CopyWork(w, id, i, rows, resolved, batch)
    case Finish => WithJob(w, id, Succeeded)
    case _ => w
  }

  function DeleteScan(c: Setting, w: World, id: JobId, i: nat): World {
    if i >= c.tables then WithJob(w, id, Running(Finish))
    else
      var rows := TableRows(c, Store(w, Source(c)), i);
      if AllResolve(c, rows) then WithJob(w, id, Running(Work(i, Homed(c, rows, id.shard), true))) else w
  }

  /** Deletes one row of the source. */
  function DeleteRow(c: Setting, w: World, k: Key): World {
    WithStore(w, Source(c), Store(w, Source(c)) - {k}).(log := w.log + [Change(k, None)])
  }

  function DeleteWork(c: Setting, w: World, id: JobId, i: nat, rows: Rows, batch: set<Key>): World {
    if rows == map[] then WithJob(w, id, Running(Scan(i + 1)))
    else if exists k :: k in rows && batch == {k} then
      var k :| k in rows && batch == {k};
      WithJob(DeleteRow(c, w, k), id, Running(Work(i, rows - {k}, true)))
    else w
  }

  /** The clean-up pod deletes the rows of its target from the source, one at a time. */
  function DeleteStep(c: Setting, w: World, id: JobId, pc: Pc, batch: set<Key>): World {
    match pc
    case Begin => WithJob(w, id, Running(Scan(0)))
    case Scan(i) => DeleteScan(c, w, id, i)
    case Work(i, rows, _) => DeleteWork(c, w, id, i, rows, batch)
    case Finish => WithJob(w, id, Succeeded)
    case _ => w
  }

  /** cdc-abort drops the subscription, and then the publication if the source answers
      (`batch` non-empty). */
  function AbortStep(w: World, id: JobId, pc: Pc, batch: set<Key>): World {
    match pc
    case Begin => WithJob(WithSub(w, id.shard, NoSub), id, Running(Finish))
    case Finish => WithJob(if batch == {} then w else w.(pubs := w.pubs - {id.shard}), id, Succeeded)
    case _ => w
  }

  function Pod(c: Setting, w: World, id: JobId, batch: set<Key>): World {
    if id !in w.k8s.jobs || !w.k8s.jobs[id].Running? then w
    else
      var pc := w.k8s.jobs[id].pc;
      match id.mode
      case CdcSetup => SetupStep(c, w, id, pc)
      case CdcFinalize => FinalizeStep(c, w, id, pc, batch)
      case Copy => CopyStep(c, w, id, pc, batch)
      case Delete => DeleteStep(c, w, id, pc, batch)
      case CdcAbort => AbortStep(w, id, pc, batch)
  }

  // ---------------------------------------------------------------------------
  // One event, and runs.

  function Next(c: Setting, w: World, e: Event): World {
    match e
    case ReconcileJob(env) => w.(k8s := Reconcile(c.spec, w.k8s, env))
    case ClientWrite(k, row) => Write(c, w, k, row)
    case PodStep(id, batch) => Pod(c, w, id, batch)
    case PodRestart(id) =>
      if id in w.k8s.jobs && w.k8s.jobs[id].Running? then WithJob(w, id, Running(Begin)) else w
    case JobGivesUp(id) =>
      if id in w.k8s.jobs && w.k8s.jobs[id].Running? then WithJob(w, id, JobFailed) else w
    case TableSync(t, table) => Sync(c, w, t, table)
    case ApplyChange(t) => Apply(c, w, t)
    case OperatorAbort => w.(k8s := w.k8s.(phase := if w.k8s.phase.Completed? then Completed else Aborted))
  }

  function Run(c: Setting, w: World, events: seq<Event>): World {
    if events == [] then w else Next(c, Run(c, w, events[..|events| - 1]), events[|events| - 1])
  }
}
