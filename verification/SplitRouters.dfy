/** An online split under routers that know the ShardRange as of their last refresh: that no
write is lost if every router reads the write-block before a finalize pod finds its target
drained, which rows are served otherwise, and when a cutover is safe, exactly. */
module SplitRouters {
  import opened Basics
  import opened KeyRanges
  import opened SplitPlan
  import opened SplitJob
  import opened SplitWorld
  import opened SplitSafety
  import opened SplitOnline
  import opened SplitRuns
  import opened SplitOffline

  /** The ShardRange a router has read; `flips` is history, how many routing flips it saw. */
  datatype View = View(ranges: seq<Entry>, blocked: bool, flips: nat)

  /** `dropped` is history: the log position a target had applied when cdc-finalize dropped its
      subscription. */
  datatype Fleet = Fleet(w: World, views: map<nat, View>, dropped: map<ShardId, nat>)

  /** Any event but a client's write, a router's refresh, or a write through a router. */
  datatype Action =
    | Acts(e: Event)
    | Reads(r: nat)
    | Sends(r: nat, key: Key, row: Option<Val>)

  function Seen(k: Cluster): View {
    View(k.ranges, k.blocked, k.flips)
  }

  /** A write decided by what the router has read. */
  function Through(c: Setting, w: World, v: View, k: Key, row: Option<Val>): World {
    Write(c, w.(k8s := w.k8s.(ranges := v.ranges, blocked := v.blocked)), k, row).(k8s := w.k8s)
  }

  /** The step is of a cdc-finalize pod at `pc`. */
  predicate FinalizesAt(w: World, e: Event, pc: Pc) {
    e.PodStep? && e.id.mode.CdcFinalize? && e.id in w.k8s.jobs && w.k8s.jobs[e.id] == Running(pc)
  }

  predicate Drops(w: World, e: Event) {
    FinalizesAt(w, e, Drained) && SubOf(w, e.id.shard).Sub?
  }

  /** The step is one in which cdc-finalize finds its target drained. */
  predicate Drains(w: World, e: Event) {
    FinalizesAt(w, e, Begin) && SubOf(w, e.id.shard).Sub? && SubOf(w, e.id.shard).applied == |w.log|
  }

  function DropsAt(w: World, dropped: map<ShardId, nat>, e: Event): map<ShardId, nat> {
    if Drops(w, e) then dropped[e.id.shard := SubOf(w, e.id.shard).applied] else dropped
  }

  function Step(c: Setting, f: Fleet, a: Action): Fleet {
    match a
    case Acts(e) =>
      if e.ClientWrite? then f
      else f.(w := Next(c, f.w, e), dropped := DropsAt(f.w, f.dropped, e))
    case Reads(r) => f.(views := f.views[r := Seen(f.w.k8s)])
    case Sends(r, k, row) => if r in f.views then f.(w := Through(c, f.w, f.views[r], k, row)) else f
  }

  function FleetRun(c: Setting, f: Fleet, actions: seq<Action>): Fleet {
    if actions == [] then f else Step(c, FleetRun(c, f, actions[..|actions| - 1]), actions[|actions| - 1])
  }

  /** Before the split every router that is there has read the ShardRange as it is. */
  ghost predicate FleetInit(c: Setting, f: Fleet) {
    Init(c, f.w) && f.dropped == map[] && forall r :: r in f.views ==> f.views[r] == Seen(f.w.k8s)
  }

  ghost predicate AllBlocked(f: Fleet) {
    forall r :: r in f.views ==> f.views[r].blocked
  }

  /** Whenever a finalize pod finds its target drained, every router has read the write-block. */
  ghost predicate Informed(c: Setting, f: Fleet, actions: seq<Action>) {
    actions == [] ||
    var n := |actions| - 1;
    var f', a := FleetRun(c, f, actions[..n]), actions[n];
    Informed(c, f, actions[..n]) && (a.Acts? && Drains(f'.w, a.e) ==> AllBlocked(f'))
  }

  // ---------------------------------------------------------------------------
  // Informed routers.

  /** A router that would accept writes has seen the flip if there was one, and before it no
      target has been found drained. */
  ghost predicate ViewSafe(c: Setting, k: Cluster, v: View) {
    && v.ranges == Replayed(c.before, c.spec.sources, c.spec.targets, v.flips) && v.flips <= k.flips
    && (!v.blocked ==> (k.flips > 0 ==> v.flips > 0) && (k.flips == 0 && Live(k) ==> NoneDrained(k)))
  }

  ghost predicate FleetInv(c: Setting, f: Fleet) {
    Inv(c, f.w) && forall r :: r in f.views ==> ViewSafe(c, f.w.k8s, f.views[r])
  }

  /** A key's shard in a view, before the flip and after it. */
  lemma ViewRoutes(c: Setting, w: World, v: View, k: Key)
    requires ValidSetting(c) && Routed(c, w.k8s)
    requires v.ranges == Replayed(c.before, c.spec.sources, c.spec.targets, v.flips)
    ensures v.flips == 0 ==> Resolve(v.ranges, c.pos(k)) == Resolve(c.before, c.pos(k))
    ensures (v.flips > 0 <==> w.k8s.flips > 0) ==> Resolve(v.ranges, c.pos(k)) == Route(c, w, k)
  {
    Routes(c, w, k);
    Routes(c, w.(k8s := w.k8s.(ranges := v.ranges, flips := v.flips)), k);
  }

  function Unblocked(w: World): World {
    w.(k8s := w.k8s.(blocked := false))
  }

  lemma SendHolds(c: Setting, w: World, v: View, k: Key, row: Option<Val>)
    requires ValidSetting(c) && Inv(c, w) && ViewSafe(c, w.k8s, v)
    ensures Inv(c, Through(c, w, v, k, row))
  {
    ThroughIsWrite(c, w, v, k, row);
    if !v.blocked && Route(c, w, k).Some? { UnblockedWriteHolds(c, w, k, row); }
  }

  /** A write through a view that agrees with the current routing is a write that ignores the
      block. */
  lemma ThroughIsWrite(c: Setting, w: World, v: View, k: Key, row: Option<Val>)
    requires ValidSetting(c) && Routed(c, w.k8s)
    requires v.ranges == Replayed(c.before, c.spec.sources, c.spec.targets, v.flips)
    requires !v.blocked ==> (v.flips > 0 <==> w.k8s.flips > 0)
    ensures v.blocked || Route(c, w, k).None? ==> Through(c, w, v, k, row) == w
    ensures !v.blocked && Route(c, w, k).Some? ==>
      Through(c, w, v, k, row) == Write(c, Unblocked(w), k, row).(k8s := w.k8s)
  {
    ViewRoutes(c, w, v, k);
    SameRouteSameWrite(c, w, v, k, row);
  }

  lemma SameRouteSameWrite(c: Setting, w: World, v: View, k: Key, row: Option<Val>)
    requires v.blocked || Resolve(v.ranges, c.pos(k)) == Route(c, w, k)
    ensures v.blocked || Route(c, w, k).None? ==> Through(c, w, v, k, row) == w
    ensures !v.blocked && Route(c, w, k).Some? ==>
      Through(c, w, v, k, row) == Write(c, Unblocked(w), k, row).(k8s := w.k8s)
  {
  }

  lemma UnblockedWriteHolds(c: Setting, w: World, k: Key, row: Option<Val>)
    requires ValidSetting(c) && Inv(c, w) && Route(c, w, k).Some?
    requires w.k8s.flips == 0 && Live(w.k8s) ==> NoneDrained(w.k8s)
    ensures Inv(c, Write(c, Unblocked(w), k, row).(k8s := w.k8s))
  {
    var u := Unblocked(w);
    ReconcileData(c, w, u.k8s);
    FreshIsUndrained(w.k8s, u.k8s);
    WriteData(c, u, k, row);
    WriteLogs(c, u, k, row);
    ReconcileData(c, Write(c, u, k, row), w.k8s);
  }

  lemma ReadIsSafe(c: Setting, k: Cluster)
    requires ControlInv(c, k)
    ensures ViewSafe(c, k, Seen(k))
  {
    if !k.blocked && k.flips == 0 && Live(k) { UnblockedIsUndrained(c, k); }
  }

  /** Unless a target is found drained, a view stays safe; and when one is, a blocked view. */
  lemma ViewStaysSafe(c: Setting, w: World, e: Event, v: View)
    requires ValidSetting(c) && c.spec.online && Inv(c, w) && !e.ClientWrite?
    requires ViewSafe(c, w.k8s, v) && (Drains(w, e) ==> v.blocked)
    ensures ViewSafe(c, Next(c, w, e).k8s, v)
  {
    match e
    case ReconcileJob(env) => ReconcileSafe(c, w.k8s, env, v);
    case PodStep(id, batch) => PodSafe(c, w, id, batch, v);
    case _ => OtherSafe(c, w, e, v);
  }

  lemma ReconcileSafe(c: Setting, k: Cluster, env: Env, v: View)
    requires ValidSetting(c) && c.spec.online && ControlInv(c, k) && ViewSafe(c, k, v)
    ensures ViewSafe(c, Reconcile(c.spec, k, env), v)
  {
    var k' := Reconcile(c.spec, k, env);
    ReconcileFrame(c, k, env);
    assert NoneDrained(k) ==> NoneDrained(k') by { FreshIsUndrained(k, k'); }
    if k.flips == 0 < k'.flips { DoneIsDrained(c, k); }
  }

  lemma DoneIsDrained(c: Setting, k: Cluster)
    requires Runs(c) && AllDone(c.spec, k.jobs, CdcFinalize)
    ensures !NoneDrained(k)
  {
    var t := c.spec.targets[0].shardId;
    assert !Undrained(JobOf(k, CdcFinalize, t));
  }

  lemma FreshIsUndrained(k: Cluster, k': Cluster)
    requires OnlyFreshJobs(k, k')
    ensures NoneDrained(k) ==> NoneDrained(k')
  {
    if NoneDrained(k) {
      forall t ensures Undrained(JobOf(k', CdcFinalize, t)) {
        assert Undrained(JobOf(k, CdcFinalize, t));
      }
    }
  }

  lemma PodSafe(c: Setting, w: World, id: JobId, batch: set<Key>, v: View)
    requires ValidSetting(c) && c.spec.online && Inv(c, w) && ViewSafe(c, w.k8s, v)
    requires Drains(w, PodStep(id, batch)) ==> v.blocked
    ensures ViewSafe(c, Pod(c, w, id, batch).k8s, v)
  {
    var w' := Pod(c, w, id, batch);
    if id in w.k8s.jobs && w.k8s.jobs[id].Running? {
      PodJob(c, w, id, batch);
      if !v.blocked && w.k8s.flips == 0 && Live(w.k8s) {
        forall t ensures Undrained(JobOf(w'.k8s, CdcFinalize, t)) {
          assert Undrained(JobOf(w.k8s, CdcFinalize, t));
        }
      }
    }
  }

  /** A pod step changes its own Job only, and at the start of cdc-finalize only by draining. */
  lemma PodJob(c: Setting, w: World, id: JobId, batch: set<Key>)
    requires ValidSetting(c) && c.spec.online && ControlInv(c, w.k8s) && id in w.k8s.jobs && w.k8s.jobs[id].Running?
    ensures OwnJobOnly(w, Pod(c, w, id, batch), id)
    ensures FinalizesAt(w, PodStep(id, batch), Begin) && !Drains(w, PodStep(id, batch)) ==> Pod(c, w, id, batch) == w
  {
    var pc := w.k8s.jobs[id].pc;
    RunningPod(c, w.k8s, id);
    match id.mode
    case Delete => DeleteFrame(c, w, id, pc, batch);
    case CdcAbort => AbortFrame(w, id, pc, batch);
    case CdcSetup => SetupFrame(c, w, id, pc);
    case CdcFinalize => FinalizeFrame(c, w, id, pc, batch);
    case _ =>
  }

  lemma OtherSafe(c: Setting, w: World, e: Event, v: View)
    requires ViewSafe(c, w.k8s, v) && !e.ReconcileJob? && !e.ClientWrite? && !e.PodStep?
    ensures ViewSafe(c, Next(c, w, e).k8s, v)
  {
    var k' := Next(c, w, e).k8s;
    if !v.blocked && w.k8s.flips == 0 && Live(w.k8s) {
      forall t ensures Undrained(JobOf(k', CdcFinalize, t)) {
        assert Undrained(JobOf(w.k8s, CdcFinalize, t));
      }
    }
  }

  lemma StepHolds(c: Setting, f: Fleet, a: Action)
    requires ValidSetting(c) && c.spec.online && FleetInv(c, f) && (a.Acts? && Drains(f.w, a.e) ==> AllBlocked(f))
    ensures FleetInv(c, Step(c, f, a))
  {
    match a
    case Acts(e) =>
      if !e.ClientWrite? {
        NextHolds(c, f.w, e);
        forall r | r in f.views ensures ViewSafe(c, Next(c, f.w, e).k8s, f.views[r]) {
          ViewStaysSafe(c, f.w, e, f.views[r]);
        }
      }
    case Reads(r) => ReadIsSafe(c, f.w.k8s);
    case Sends(r, k, row) => if r in f.views { SendHolds(c, f.w, f.views[r], k, row); }
  }

  lemma {:induction false} InformedRunHolds(c: Setting, f: Fleet, actions: seq<Action>)
    requires ValidSetting(c) && c.spec.online && FleetInit(c, f) && Informed(c, f, actions)
    ensures FleetInv(c, FleetRun(c, f, actions))
  {
    if actions == [] {
      InitHolds(c, f.w);
      ReadIsSafe(c, f.w.k8s);
    } else {
      var n := |actions| - 1;
      InformedRunHolds(c, f, actions[..n]);
      StepHolds(c, FleetRun(c, f, actions[..n]), actions[n]);
    }
  }

  /** If every router has read the write-block by the time a finalize pod finds its target
      drained, no accepted write is lost, however stale the routers are otherwise. */
  lemma InformedLosesNothing(c: Setting, f: Fleet, actions: seq<Action>, k: Key)
    requires ValidSetting(c) && c.spec.online && FleetInit(c, f) && Informed(c, f, actions)
    ensures HoldsFor(c, FleetRun(c, f, actions).w, k)
  {
    InformedRunHolds(c, f, actions);
    assert AllHold(c, FleetRun(c, f, actions).w);
  }

  // ---------------------------------------------------------------------------
  // Any routers: what a target holds.

  /** Every table is copied, and no copy is ahead of the applied position. */
  ghost predicate CaughtUp(c: Setting, sub: Subscription) {
    AllSynced(c, sub) && forall i :: i in sub.syncedAt ==> sub.syncedAt[i] <= sub.applied
  }

  /** One target before the flip: once its subscription is dropped, at log position `at`, its rows
      are those of the log up to there. */
  ghost predicate Cut(c: Setting, log: seq<Change>, t: ShardId, st: Rows, sub: Subscription,
                      setup: Option<Job>, fin: Option<Job>, at: Option<nat>)
  {
    if Undrained(fin) then Link(c, log, t, st, sub, setup, fin)
    else if fin == Some(Running(Drained)) then Content(c, log, st, sub) && CaughtUp(c, sub)
    else at.Some? && at.value <= |log| && Link(c, log[..at.value], t, st, sub, setup, fin)
  }

  function DroppedAt(dropped: map<ShardId, nat>, t: ShardId): Option<nat> {
    if t in dropped then Some(dropped[t]) else None
  }

  ghost predicate CutOk(c: Setting, w: World, dropped: map<ShardId, nat>, t: ShardId) {
    Cut(c, w.log, t, Store(w, t), SubOf(w, t), JobOf(w.k8s, CdcSetup, t), JobOf(w.k8s, CdcFinalize, t),
        DroppedAt(dropped, t))
  }

  lemma CutGrows(c: Setting, log: seq<Change>, ch: Change, t: ShardId, st: Rows, sub: Subscription,
                 setup: Option<Job>, fin: Option<Job>, at: Option<nat>)
    requires Cut(c, log, t, st, sub, setup, fin, at)
    ensures Cut(c, log + [ch], t, st, sub, setup, fin, at)
  {
    if Undrained(fin) {
      LinkGrows(c, log, ch, t, st, sub, setup, fin);
    } else if fin == Some(Running(Drained)) {
      ContentGrows(c, log, ch, st, sub);
    } else {
      assert (log + [ch])[..at.value] == log[..at.value];
    }
  }

  /** Dropping the subscription leaves the target with the source's rows at the applied position. */
  lemma CutDrops(c: Setting, log: seq<Change>, t: ShardId, st: Rows, sub: Subscription, setup: Option<Job>)
    requires TablesKnown(c) && Content(c, log, st, sub) && CaughtUp(c, sub)
    ensures Cut(c, log, t, st, NoSub, setup, Some(Running(Scan(0))), Some(sub.applied))
  {
    var part := log[..sub.applied];
    assert part + log[sub.applied..] == log;
    forall k | c.tableOf(k) in sub.syncedAt
      ensures Get(st, k) == Get(At(part, Max(sub.applied, sub.syncedAt[c.tableOf(k)])), k)
    {
      AtPrefix(part, log[sub.applied..], sub.applied);
    }
    DrainedAgrees(c, part, st, sub, t);
  }

  lemma CutApplies(c: Setting, w: World, dropped: map<ShardId, nat>, t: ShardId)
    requires CutOk(c, w, dropped, t) && SubOf(w, t).Sub? && Apply(c, w, t) != w
    ensures CutOk(c, Apply(c, w, t), dropped, t)
  {
    ApplyFacts(c, w, t);
    if Undrained(JobOf(w.k8s, CdcFinalize, t)) {
      ApplyLink(c, w, t);
    } else {
      ApplyContent(c, w.log, Store(w, t), SubOf(w, t));
    }
  }

  /** Once cdc-finalize has found its target drained nothing is left to copy. */
  lemma CutSyncs(c: Setting, w: World, dropped: map<ShardId, nat>, t: ShardId, table: nat)
    requires ValidSetting(c) && CutOk(c, w, dropped, t) && Store(w, Source(c)) == At(w.log, |w.log|)
    requires SubOf(w, t).Sub? && Sync(c, w, t, table) != w && t != Source(c)
    ensures CutOk(c, Sync(c, w, t, table), dropped, t)
  {
    assert Undrained(JobOf(w.k8s, CdcFinalize, t));
    SyncLink(c, w, t, table);
  }

  /** From dropping the subscription on, cdc-finalize does not look at the log. */
  lemma FinalizeIgnoresLog(c: Setting, w: World, id: JobId, pc: Pc, batch: set<Key>, log: seq<Change>)
    requires !pc.Begin?
    ensures FinalizeStep(c, w.(log := log), id, pc, batch) == FinalizeStep(c, w, id, pc, batch).(log := log)
  {
    match pc
    case Scan(i) => ScanIgnoresLog(c, w, id, i, log);
    case Work(i, rows, _) => WorkIgnoresLog(w, id, i, rows, batch, log);
    case _ =>
  }

  lemma ScanIgnoresLog(c: Setting, w: World, id: JobId, i: nat, log: seq<Change>)
    ensures FinalizeScan(c, w.(log := log), id, i) == FinalizeScan(c, w, id, i).(log := log)
  {
  }

  lemma WorkIgnoresLog(w: World, id: JobId, i: nat, rows: Rows, batch: set<Key>, log: seq<Change>)
    ensures FinalizeWork(w.(log := log), id, i, rows, batch) == FinalizeWork(w, id, i, rows, batch).(log := log)
  {
  }

  lemma CutFinalizes(c: Setting, w: World, dropped: map<ShardId, nat>, id: JobId, pc: Pc, batch: set<Key>)
    requires TablesKnown(c) && CutOk(c, w, dropped, id.shard)
    requires id.mode.CdcFinalize? && id in w.k8s.jobs && w.k8s.jobs[id] == Running(pc)
    requires JobOf(w.k8s, CdcSetup, id.shard) == Some(Succeeded)
    ensures CutOk(c, FinalizeStep(c, w, id, pc, batch), DropsAt(w, dropped, PodStep(id, batch)), id.shard)
  {
    match pc
    case Begin => CutDrains(c, w, dropped, id, batch);
    case Drained => CutDropped(c, w, dropped, id, batch);
    case _ => CutCleans(c, w, dropped, id, pc, batch);
  }

  lemma CutDrains(c: Setting, w: World, dropped: map<ShardId, nat>, id: JobId, batch: set<Key>)
    requires CutOk(c, w, dropped, id.shard)
    requires id.mode.CdcFinalize? && id in w.k8s.jobs && w.k8s.jobs[id] == Running(Begin)
    requires JobOf(w.k8s, CdcSetup, id.shard) == Some(Succeeded)
    ensures CutOk(c, FinalizeStep(c, w, id, Begin, batch), dropped, id.shard)
  {
    var t, w' := id.shard, FinalizeStep(c, w, id, Begin, batch);
    assert Link(c, w.log, t, Store(w, t), SubOf(w, t), Some(Succeeded), Some(Running(Begin)));
    if w' != w {
      assert CaughtUp(c, SubOf(w, t));
      assert JobOf(w'.k8s, CdcFinalize, t) == Some(Running(Drained));
    }
  }

  lemma CutDropped(c: Setting, w: World, dropped: map<ShardId, nat>, id: JobId, batch: set<Key>)
    requires TablesKnown(c) && CutOk(c, w, dropped, id.shard)
    requires id.mode.CdcFinalize? && id in w.k8s.jobs && w.k8s.jobs[id] == Running(Drained)
    ensures CutOk(c, FinalizeStep(c, w, id, Drained, batch), DropsAt(w, dropped, PodStep(id, batch)), id.shard)
  {
    var t := id.shard;
    assert JobOf(w.k8s, CdcFinalize, t) == Some(Running(Drained));
    CutDrops(c, w.log, t, Store(w, t), SubOf(w, t), JobOf(w.k8s, CdcSetup, t));
  }

  lemma CutCleans(c: Setting, w: World, dropped: map<ShardId, nat>, id: JobId, pc: Pc, batch: set<Key>)
    requires TablesKnown(c) && CutOk(c, w, dropped, id.shard) && !pc.Begin? && !pc.Drained?
    requires id.mode.CdcFinalize? && id in w.k8s.jobs && w.k8s.jobs[id] == Running(pc)
    requires JobOf(w.k8s, CdcSetup, id.shard) == Some(Succeeded)
    ensures CutOk(c, FinalizeStep(c, w, id, pc, batch), dropped, id.shard)
  {
    var t := id.shard;
    assert JobOf(w.k8s, CdcFinalize, t) == Some(Running(pc));
    var part := w.log[..DroppedAt(dropped, t).value];
    assert LinkOk(c, w.(log := part), t);
    FinalizeLink(c, w.(log := part), id, pc, batch);
    FinalizeIgnoresLog(c, w, id, pc, batch, part);
    CleanedOn(c, w, id, pc, batch);
  }

  /** After the drop cdc-finalize never returns to its start, and writes no log. */
  lemma CleanedOn(c: Setting, w: World, id: JobId, pc: Pc, batch: set<Key>)
    requires !pc.Begin? && !pc.Drained?
    requires id.mode.CdcFinalize? && id in w.k8s.jobs && w.k8s.jobs[id] == Running(pc)
    ensures var w' := FinalizeStep(c, w, id, pc, batch); var fin := JobOf(w'.k8s, CdcFinalize, id.shard);
      !Undrained(fin) && fin != Some(Running(Drained)) && w'.log == w.log
  {
    FinalizeFrame(c, w, id, pc, batch);
  }

  // ---------------------------------------------------------------------------
  // Any routers: every action.

  ghost predicate CutsOk(c: Setting, w: World, dropped: map<ShardId, nat>) {
    forall t :: IsTarget(c, t) ==> CutOk(c, w, dropped, t)
  }

  /** Keys that do not move always hold their last write, and before the flip all keys do. */
  ghost predicate StayersHold(c: Setting, w: World) {
    forall k :: w.k8s.flips == 0 || Home(c, k).None? ==> HoldsFor(c, w, k)
  }

  ghost predicate CutData(c: Setting, w: World, dropped: map<ShardId, nat>) {
    && Store(w, Source(c)) == At(w.log, |w.log|)
    && StayersHold(c, w)
    && (forall t :: SubOf(w, t).Sub? ==> IsTarget(c, t))
    && (w.k8s.flips > 0 ==> Moved(c, w))
    && (w.k8s.flips == 0 && Live(w.k8s) ==> CutsOk(c, w, dropped))
  }

  ghost predicate CutInv(c: Setting, w: World, dropped: map<ShardId, nat>) {
    ControlInv(c, w.k8s) && CutData(c, w, dropped)
  }

  ghost predicate ViewRouted(c: Setting, k: Cluster, v: View) {
    v.ranges == Replayed(c.before, c.spec.sources, c.spec.targets, v.flips) && v.flips <= k.flips
  }

  ghost predicate ViewsRouted(c: Setting, f: Fleet) {
    forall r :: r in f.views ==> ViewRouted(c, f.w.k8s, f.views[r])
  }

  lemma CutReconcile(c: Setting, w: World, dropped: map<ShardId, nat>, k': Cluster)
    requires ValidSetting(c) && CutData(c, w, dropped)
    requires Routed(c, w.k8s) && Routed(c, k') && OnlyFreshJobs(w.k8s, k')
    requires w.k8s.flips <= k'.flips && (Live(k') ==> Live(w.k8s))
    requires w.k8s.flips == 0 < k'.flips ==> Live(w.k8s) && AllDone(c.spec, w.k8s.jobs, CdcFinalize)
    ensures CutData(c, w.(k8s := k'), dropped)
  {
    var w' := w.(k8s := k');
    assert forall t :: SubOf(w', t) == SubOf(w, t) && Store(w', t) == Store(w, t);
    forall k | k'.flips == 0 || Home(c, k).None? ensures HoldsFor(c, w', k) {
      assert HoldsFor(c, w, k);
      Routes(c, w, k);
      Routes(c, w', k);
      HomeIsTarget(c, k);
    }
    if w.k8s.flips == 0 < k'.flips {
      forall t | IsTarget(c, t) ensures SubOf(w, t).NoSub? && OnlyHomed(c, Store(w, t), t) {
        CutAtFlip(c, w, dropped, t);
      }
    }
    if k'.flips == 0 && Live(k') {
      forall t | IsTarget(c, t) ensures CutOk(c, w', dropped, t) {
        assert CutOk(c, w, dropped, t);
        FreshCut(c, w, dropped, k', t);
      }
    }
  }

  lemma FreshCut(c: Setting, w: World, dropped: map<ShardId, nat>, k': Cluster, t: ShardId)
    requires CutOk(c, w, dropped, t) && OnlyFreshJobs(w.k8s, k')
    ensures CutOk(c, w.(k8s := k'), dropped, t)
  {
    var w' := w.(k8s := k');
    assert SubOf(w', t) == SubOf(w, t) && Store(w', t) == Store(w, t);
    if Undrained(JobOf(w.k8s, CdcFinalize, t)) {
      assert Undrained(JobOf(k', CdcFinalize, t));
    } else {
      assert JobOf(k', CdcFinalize, t) == JobOf(w.k8s, CdcFinalize, t);
    }
  }

  /** At the flip a target has no subscription and, of its keys and no others, the source's rows
      at the position where the subscription was dropped. */
  lemma CutAtFlip(c: Setting, w: World, dropped: map<ShardId, nat>, t: ShardId)
    requires CutsOk(c, w, dropped) && AllDone(c.spec, w.k8s.jobs, CdcFinalize) && IsTarget(c, t)
    ensures SubOf(w, t).NoSub? && OnlyHomed(c, Store(w, t), t) && t in dropped && dropped[t] <= |w.log|
    ensures forall k :: Home(c, k) == Some(t) ==> Get(Store(w, t), k) == Get(At(w.log, dropped[t]), k)
  {
    assert CutOk(c, w, dropped, t);
    assert JobOf(w.k8s, CdcFinalize, t) == Some(Succeeded);
    var part := w.log[..dropped[t]];
    assert part + w.log[dropped[t]..] == w.log;
    AtPrefix(part, w.log[dropped[t]..], dropped[t]);
    assert Agrees(c, part, Store(w, t), t);
  }

  /** Before the flip, a step that touches one target only. */
  lemma CutStep(c: Setting, w: World, dropped: map<ShardId, nat>, w': World, dropped': map<ShardId, nat>, t: ShardId)
    requires ValidSetting(c) && CutData(c, w, dropped) && Routed(c, w.k8s) && w.k8s.flips == 0 && IsTarget(c, t)
    requires w'.k8s == w.k8s.(jobs := w'.k8s.jobs) && w'.last == w.last && w'.log == w.log
    requires forall m, s :: s != t ==> JobOf(w'.k8s, m, s) == JobOf(w.k8s, m, s)
    requires forall s :: s != t ==> Store(w', s) == Store(w, s) && SubOf(w', s) == SubOf(w, s)
    requires forall s :: s != t ==> DroppedAt(dropped', s) == DroppedAt(dropped, s)
    requires Live(w.k8s) ==> CutOk(c, w', dropped', t)
    ensures CutData(c, w', dropped')
  {
    forall k ensures HoldsFor(c, w', k) {
      assert HoldsFor(c, w, k);
      if Route(c, w, k).Some? { WhoServes(c, w, k); }
    }
    if Live(w.k8s) {
      forall u | IsTarget(c, u) ensures CutOk(c, w', dropped', u) {
        assert CutOk(c, w, dropped, u);
      }
    }
  }

  lemma CutReplicates(c: Setting, w: World, dropped: map<ShardId, nat>, t: ShardId, table: nat)
    requires ValidSetting(c) && CutInv(c, w, dropped)
    ensures CutInv(c, Sync(c, w, t, table), dropped) && CutInv(c, Apply(c, w, t), dropped)
  {
    if SubOf(w, t).Sub? {
      if Sync(c, w, t, table) != w { CutSyncHolds(c, w, dropped, t, table); }
      if Apply(c, w, t) != w { CutApplyHolds(c, w, dropped, t); }
    }
  }

  lemma CutSyncHolds(c: Setting, w: World, dropped: map<ShardId, nat>, t: ShardId, table: nat)
    requires ValidSetting(c) && CutInv(c, w, dropped) && SubOf(w, t).Sub? && Sync(c, w, t, table) != w
    ensures CutInv(c, Sync(c, w, t, table), dropped)
  {
    if Live(w.k8s) { CutSyncs(c, w, dropped, t, table); }
    CutStep(c, w, dropped, Sync(c, w, t, table), dropped, t);
  }

  lemma CutApplyHolds(c: Setting, w: World, dropped: map<ShardId, nat>, t: ShardId)
    requires ValidSetting(c) && CutInv(c, w, dropped) && SubOf(w, t).Sub? && Apply(c, w, t) != w
    ensures CutInv(c, Apply(c, w, t), dropped)
  {
    if Live(w.k8s) { CutApplies(c, w, dropped, t); }
    ApplyFrame(c, w, t);
    CutStep(c, w, dropped, Apply(c, w, t), dropped, t);
  }

  lemma CutSetupPod(c: Setting, w: World, dropped: map<ShardId, nat>, id: JobId, pc: Pc)
    requires ValidSetting(c) && CutData(c, w, dropped) && Routed(c, w.k8s) && w.k8s.flips == 0 && IsTarget(c, id.shard)
    requires id.mode.CdcSetup? && id in w.k8s.jobs && w.k8s.jobs[id] == Running(pc)
    requires Any(w.k8s.jobs, CdcFinalize) ==> AllDone(c.spec, w.k8s.jobs, CdcSetup)
    ensures CutData(c, SetupStep(c, w, id, pc), dropped)
  {
    var w' := SetupStep(c, w, id, pc);
    SetupFrame(c, w, id, pc);
    OtherJobsStay(w, w', id);
    assert JobId(CdcFinalize, id.shard) in w.k8s.jobs ==> Any(w.k8s.jobs, CdcFinalize);
    if Live(w.k8s) {
      assert CutOk(c, w, dropped, id.shard);
      SetupLink(c, w, id, pc);
      SetupFacts(c, w, id, pc);
    }
    CutStep(c, w, dropped, w', dropped, id.shard);
  }

  lemma CutFinalizePod(c: Setting, w: World, dropped: map<ShardId, nat>, id: JobId, pc: Pc, batch: set<Key>)
    requires ValidSetting(c) && CutData(c, w, dropped) && Routed(c, w.k8s) && w.k8s.flips == 0 && IsTarget(c, id.shard)
    requires id.mode.CdcFinalize? && id in w.k8s.jobs && w.k8s.jobs[id] == Running(pc)
    requires AllDone(c.spec, w.k8s.jobs, CdcSetup)
    ensures CutData(c, FinalizeStep(c, w, id, pc, batch), DropsAt(w, dropped, PodStep(id, batch)))
  {
    var w' := FinalizeStep(c, w, id, pc, batch);
    FinalizeFrame(c, w, id, pc, batch);
    OtherJobsStay(w, w', id);
    if Live(w.k8s) {
      assert CutOk(c, w, dropped, id.shard);
      CutFinalizes(c, w, dropped, id, pc, batch);
    }
    CutStep(c, w, dropped, w', DropsAt(w, dropped, PodStep(id, batch)), id.shard);
  }

  lemma CutDeletePod(c: Setting, w: World, dropped: map<ShardId, nat>, id: JobId, pc: Pc, batch: set<Key>)
    requires ValidSetting(c) && CutData(c, w, dropped) && Routed(c, w.k8s) && w.k8s.flips > 0 && id in w.k8s.jobs
    ensures CutData(c, DeleteStep(c, w, id, pc, batch), dropped)
  {
    var w' := DeleteStep(c, w, id, pc, batch);
    DeleteFrame(c, w, id, pc, batch);
    DeleteLogs(c, w, id, pc, batch);
    assert forall s :: SubOf(w', s) == SubOf(w, s);
    forall k | Home(c, k).None? ensures HoldsFor(c, w', k) {
      assert HoldsFor(c, w, k);
      if Route(c, w, k).Some? { WhoServes(c, w, k); }
    }
  }

  lemma CutAbortPod(c: Setting, w: World, dropped: map<ShardId, nat>, id: JobId, pc: Pc, batch: set<Key>)
    requires CutData(c, w, dropped) && !Live(w.k8s) && id in w.k8s.jobs
    ensures CutData(c, AbortStep(w, id, pc, batch), dropped)
  {
    var w' := AbortStep(w, id, pc, batch);
    AbortFrame(w, id, pc, batch);
    forall k | w.k8s.flips == 0 || Home(c, k).None? ensures HoldsFor(c, w', k) {
      assert HoldsFor(c, w, k);
    }
  }

  lemma CutPod(c: Setting, w: World, dropped: map<ShardId, nat>, id: JobId, batch: set<Key>)
    requires ValidSetting(c) && c.spec.online && CutInv(c, w, dropped)
    ensures CutInv(c, Pod(c, w, id, batch), DropsAt(w, dropped, PodStep(id, batch)))
  {
    if id in w.k8s.jobs && w.k8s.jobs[id].Running? {
      CutPodData(c, w, dropped, id, batch);
      PodJob(c, w, id, batch);
      JobMoves(c, w.k8s, id, Pod(c, w, id, batch).k8s.jobs[id]);
    }
  }

  lemma CutPodData(c: Setting, w: World, dropped: map<ShardId, nat>, id: JobId, batch: set<Key>)
    requires ValidSetting(c) && c.spec.online && CutInv(c, w, dropped) && id in w.k8s.jobs && w.k8s.jobs[id].Running?
    ensures CutData(c, Pod(c, w, id, batch), DropsAt(w, dropped, PodStep(id, batch)))
  {
    var pc := w.k8s.jobs[id].pc;
    RunningPod(c, w.k8s, id);
    if id.mode.Delete? {
      CutDeletePod(c, w, dropped, id, pc, batch);
    } else if id.mode.CdcAbort? {
      CutAbortPod(c, w, dropped, id, pc, batch);
    } else if id.mode.CdcSetup? {
      CutSetupPod(c, w, dropped, id, pc);
    } else {
      CutFinalizePod(c, w, dropped, id, pc, batch);
    }
  }

  lemma CutReset(c: Setting, w: World, dropped: map<ShardId, nat>, id: JobId, job: Job)
    requires ValidSetting(c) && CutInv(c, w, dropped)
    requires id in w.k8s.jobs && w.k8s.jobs[id].Running? && (job == Running(Begin) || job.JobFailed?)
    ensures CutInv(c, WithJob(w, id, job), dropped)
  {
    JobMoves(c, w.k8s, id, job);
    CutResetData(c, w, dropped, id, job);
  }

  lemma CutResetData(c: Setting, w: World, dropped: map<ShardId, nat>, id: JobId, job: Job)
    requires ValidSetting(c) && CutData(c, w, dropped) && Routed(c, w.k8s) && IsTarget(c, id.shard)
    requires id in w.k8s.jobs && (job == Running(Begin) || job.JobFailed?)
    ensures CutData(c, WithJob(w, id, job), dropped)
  {
    var w' := WithJob(w, id, job);
    assert forall s :: Store(w', s) == Store(w, s) && SubOf(w', s) == SubOf(w, s);
    if w.k8s.flips == 0 {
      if Live(w.k8s) {
        assert CutOk(c, w, dropped, id.shard);
        ResetCut(c, w, dropped, id, job);
      }
      CutStep(c, w, dropped, w', dropped, id.shard);
    } else {
      forall k | Home(c, k).None? ensures HoldsFor(c, w', k) {
        assert HoldsFor(c, w, k);
      }
    }
  }

  lemma ResetCut(c: Setting, w: World, dropped: map<ShardId, nat>, id: JobId, job: Job)
    requires CutOk(c, w, dropped, id.shard) && (job == Running(Begin) || job.JobFailed?)
    ensures CutOk(c, WithJob(w, id, job), dropped, id.shard)
  {
    var t, w' := id.shard, WithJob(w, id, job);
    var setup, fin := JobOf(w.k8s, CdcSetup, t), JobOf(w.k8s, CdcFinalize, t);
    assert Store(w', t) == Store(w, t) && SubOf(w', t) == SubOf(w, t);
    match id.mode
    case CdcSetup => assert JobOf(w'.k8s, CdcFinalize, t) == fin && !SetupSynced(JobOf(w'.k8s, CdcSetup, t));
    case CdcFinalize => assert JobOf(w'.k8s, CdcSetup, t) == setup && Undrained(JobOf(w'.k8s, CdcFinalize, t));
    case _ => assert JobOf(w'.k8s, CdcSetup, t) == setup && JobOf(w'.k8s, CdcFinalize, t) == fin;
  }

  lemma CutController(c: Setting, w: World, dropped: map<ShardId, nat>, env: Env)
    requires ValidSetting(c) && c.spec.online && CutInv(c, w, dropped)
    ensures CutInv(c, Next(c, w, ReconcileJob(env)), dropped)
  {
    ReconcileKeeps(c, w.k8s, env);
    ReconcileFrame(c, w.k8s, env);
    CutReconcile(c, w, dropped, Reconcile(c.spec, w.k8s, env));
  }

  lemma CutOperator(c: Setting, w: World, dropped: map<ShardId, nat>)
    requires ValidSetting(c) && CutInv(c, w, dropped)
    ensures CutInv(c, Next(c, w, OperatorAbort), dropped)
  {
    if !w.k8s.phase.Completed? {
      OperatorMayAbort(c, w.k8s);
      CutReconcile(c, w, dropped, w.k8s.(phase := Aborted));
    } else {
      assert Next(c, w, OperatorAbort) == w;
    }
  }

  lemma CutResets(c: Setting, w: World, dropped: map<ShardId, nat>, id: JobId)
    requires ValidSetting(c) && CutInv(c, w, dropped)
    ensures CutInv(c, Next(c, w, PodRestart(id)), dropped) && CutInv(c, Next(c, w, JobGivesUp(id)), dropped)
  {
    if id in w.k8s.jobs && w.k8s.jobs[id].Running? {
      CutReset(c, w, dropped, id, Running(Begin));
      CutReset(c, w, dropped, id, JobFailed);
    }
  }

  lemma CutNext(c: Setting, w: World, dropped: map<ShardId, nat>, e: Event)
    requires ValidSetting(c) && c.spec.online && CutInv(c, w, dropped) && !e.ClientWrite?
    ensures CutInv(c, Next(c, w, e), DropsAt(w, dropped, e))
  {
    if e.PodStep? { CutPod(c, w, dropped, e.id, e.batch); } else { CutOther(c, w, dropped, e); }
  }

  lemma CutOther(c: Setting, w: World, dropped: map<ShardId, nat>, e: Event)
    requires ValidSetting(c) && c.spec.online && CutInv(c, w, dropped) && !e.ClientWrite? && !e.PodStep?
    ensures CutInv(c, Next(c, w, e), dropped)
  {
    match e
    case ReconcileJob(env) => CutController(c, w, dropped, env);
    case PodRestart(id) => CutResets(c, w, dropped, id);
    case JobGivesUp(id) => CutResets(c, w, dropped, id);
    case TableSync(t, table) => CutReplicates(c, w, dropped, t, table);
    case ApplyChange(t) => CutReplicates(c, w, dropped, t, 0);
    case OperatorAbort => CutOperator(c, w, dropped);
  }

  lemma FlipsOnlyGrow(c: Setting, w: World, e: Event)
    requires ValidSetting(c) && c.spec.online && ControlInv(c, w.k8s) && !e.ClientWrite?
    ensures w.k8s.flips <= Next(c, w, e).k8s.flips
  {
    match e
    case ReconcileJob(env) => ReconcileFrame(c, w.k8s, env);
    case PodStep(id, batch) => if id in w.k8s.jobs && w.k8s.jobs[id].Running? { PodJob(c, w, id, batch); }
    case ApplyChange(t) => ApplyFrame(c, w, t);
    case _ =>
  }

  lemma CutWriteAt(c: Setting, w: World, dropped: map<ShardId, nat>, k: Key, row: Option<Val>, t: ShardId)
    requires ValidSetting(c) && Routed(c, w.k8s) && w.k8s.flips == 0 && IsTarget(c, t) && CutOk(c, w, dropped, t)
    requires !w.k8s.blocked && Route(c, w, k).Some?
    ensures CutOk(c, Write(c, w, k, row), dropped, t)
  {
    WhoServes(c, w, k);
    var w' := Write(c, w, k, row);
    assert Store(w', t) == Store(w, t) && SubOf(w', t) == SubOf(w, t) && w'.k8s == w.k8s;
    CutGrows(c, w.log, Change(k, row), t, Store(w, t), SubOf(w, t), JobOf(w.k8s, CdcSetup, t),
             JobOf(w.k8s, CdcFinalize, t), DroppedAt(dropped, t));
  }

  lemma CutWrite(c: Setting, w: World, dropped: map<ShardId, nat>, k: Key, row: Option<Val>)
    requires ValidSetting(c) && CutData(c, w, dropped) && Routed(c, w.k8s) && !w.k8s.blocked && Route(c, w, k).Some?
    ensures CutData(c, Write(c, w, k, row), dropped)
  {
    var w' := Write(c, w, k, row);
    WriteLogs(c, w, k, row);
    forall j | w.k8s.flips == 0 || Home(c, j).None? ensures HoldsFor(c, w', j) {
      assert HoldsFor(c, w, j);
      WriteHoldsFor(c, w, k, row, j);
    }
    if w.k8s.flips > 0 {
      WriteMoved(c, w, k, row);
    } else if Live(w.k8s) {
      forall t | IsTarget(c, t) ensures CutOk(c, w', dropped, t) {
        CutWriteAt(c, w, dropped, k, row, t);
      }
    }
  }

  /** A write that goes where the current routing says, block or no block. */
  lemma CurrentWriteCuts(c: Setting, w: World, dropped: map<ShardId, nat>, k: Key, row: Option<Val>)
    requires ValidSetting(c) && CutInv(c, w, dropped) && Route(c, w, k).Some?
    ensures CutInv(c, Write(c, Unblocked(w), k, row).(k8s := w.k8s), dropped)
  {
    var u := Unblocked(w);
    CutReconcile(c, w, dropped, u.k8s);
    CutWrite(c, u, dropped, k, row);
    WriteLogs(c, u, k, row);
    CutReconcile(c, Write(c, u, k, row), dropped, w.k8s);
  }

  /** What a router that has not seen the flip does to a key that moved. */
  lemma StaleFacts(c: Setting, w: World, v: View, k: Key, row: Option<Val>)
    requires !v.blocked && Resolve(v.ranges, c.pos(k)) == Some(Source(c))
    ensures var w' := Through(c, w, v, k, row);
      && w'.k8s == w.k8s && w'.subs == w.subs && w'.log == w.log + [Change(k, row)] && w'.last == Put(w.last, k, row)
      && Store(w', Source(c)) == Put(Store(w, Source(c)), k, row)
      && forall s :: s != Source(c) ==> Store(w', s) == Store(w, s)
  {
  }

  lemma StaleWriteCuts(c: Setting, w: World, dropped: map<ShardId, nat>, v: View, k: Key, row: Option<Val>)
    requires ValidSetting(c) && CutInv(c, w, dropped) && w.k8s.flips > 0 && Home(c, k).Some?
    requires !v.blocked && Resolve(v.ranges, c.pos(k)) == Some(Source(c))
    ensures CutInv(c, Through(c, w, v, k, row), dropped)
  {
    var w' := Through(c, w, v, k, row);
    StaleFacts(c, w, v, k, row);
    AppendAt(w.log, Change(k, row));
    assert forall t :: SubOf(w', t) == SubOf(w, t);
    forall j | Home(c, j).None? ensures HoldsFor(c, w', j) {
      assert HoldsFor(c, w, j);
      PutGet(w.last, k, row, j);
      if Route(c, w, j).Some? { WhoServes(c, w, j); }
    }
  }

  lemma SendCuts(c: Setting, w: World, dropped: map<ShardId, nat>, v: View, k: Key, row: Option<Val>)
    requires ValidSetting(c) && CutInv(c, w, dropped) && ViewRouted(c, w.k8s, v)
    ensures CutInv(c, Through(c, w, v, k, row), dropped) && Through(c, w, v, k, row).k8s == w.k8s
  {
    SameOrStale(c, w, v, k);
    if v.blocked || Resolve(v.ranges, c.pos(k)) == Route(c, w, k) {
      SameRouteSameWrite(c, w, v, k, row);
      if !v.blocked && Route(c, w, k).Some? { CurrentWriteCuts(c, w, dropped, k, row); }
    } else {
      StaleWriteCuts(c, w, dropped, v, k, row);
    }
  }

  /** A view differs from the current routing only in not having seen the flip, and then only on
      the keys that moved. */
  lemma SameOrStale(c: Setting, w: World, v: View, k: Key)
    requires ValidSetting(c) && Routed(c, w.k8s) && ViewRouted(c, w.k8s, v)
    ensures v.flips > 0 || w.k8s.flips == 0 || Home(c, k).None? ==> Resolve(v.ranges, c.pos(k)) == Route(c, w, k)
    ensures v.flips == 0 < w.k8s.flips && Home(c, k).Some? ==> Resolve(v.ranges, c.pos(k)) == Some(Source(c))
    ensures w.k8s.flips > 0 && Home(c, k).Some? ==> Route(c, w, k) == Home(c, k) && Home(c, k) != Some(Source(c))
  {
    ViewRoutes(c, w, v, k);
    Routes(c, w, k);
    HomeIsTarget(c, k);
  }

  ghost predicate RouterInv(c: Setting, f: Fleet) {
    CutInv(c, f.w, f.dropped) && ViewsRouted(c, f)
  }

  lemma RouterStep(c: Setting, f: Fleet, a: Action)
    requires ValidSetting(c) && c.spec.online && RouterInv(c, f)
    ensures RouterInv(c, Step(c, f, a)) && f.w.k8s.flips <= Step(c, f, a).w.k8s.flips
  {
    match a
    case Acts(e) =>
      if !e.ClientWrite? {
        CutNext(c, f.w, f.dropped, e);
        FlipsOnlyGrow(c, f.w, e);
      }
    case Reads(r) =>
    case Sends(r, k, row) => if r in f.views { SendCuts(c, f.w, f.dropped, f.views[r], k, row); }
  }

  lemma RouterInit(c: Setting, f: Fleet)
    requires ValidSetting(c) && c.spec.online && FleetInit(c, f)
    ensures RouterInv(c, f)
  {
    InitHolds(c, f.w);
    forall t | IsTarget(c, t) ensures CutOk(c, f.w, f.dropped, t) {
      assert LinkOk(c, f.w, t);
    }
  }

  lemma {:induction false} RouterRun(c: Setting, f: Fleet, actions: seq<Action>)
    requires ValidSetting(c) && c.spec.online && RouterInv(c, f)
    ensures RouterInv(c, FleetRun(c, f, actions)) && f.w.k8s.flips <= FleetRun(c, f, actions).w.k8s.flips
  {
    if actions != [] {
      var n := |actions| - 1;
      RouterRun(c, f, actions[..n]);
      RouterStep(c, FleetRun(c, f, actions[..n]), actions[n]);
    }
  }

  // ---------------------------------------------------------------------------
  // Any routers: the verdict.

  /** The action writes `k` through a router that has seen the flip. */
  predicate SendsNew(f: Fleet, a: Action, k: Key) {
    a.Sends? && a.key == k && a.r in f.views && !f.views[a.r].blocked && f.views[a.r].flips > 0
  }

  /** The last write of `k` through a router that has seen the flip, or else `row`. */
  function Renewed(c: Setting, f: Fleet, actions: seq<Action>, k: Key, row: Option<Val>): Option<Val> {
    if actions == [] then row
    else
      var n := |actions| - 1;
      var f', a := FleetRun(c, f, actions[..n]), actions[n];
      if SendsNew(f', a, k) then a.row else Renewed(c, f, actions[..n], k, row)
  }

  /** After the flip the row a target serves is changed only by a router that has seen it. */
  lemma ServedStep(c: Setting, f: Fleet, a: Action, k: Key)
    requires ValidSetting(c) && c.spec.online && RouterInv(c, f) && f.w.k8s.flips > 0 && Home(c, k).Some?
    ensures var t := Home(c, k).value;
      Get(Store(Step(c, f, a).w, t), k) == if SendsNew(f, a, k) then a.row else Get(Store(f.w, t), k)
  {
    match a
    case Acts(e) => if !e.ClientWrite? { ServedEvent(c, f.w, f.dropped, e, k); }
    case Reads(r) =>
    case Sends(r, j, row) =>
      if r in f.views { ServedSend(c, f.w, f.dropped, f.views[r], j, row, k); }
  }

  lemma ServedEvent(c: Setting, w: World, dropped: map<ShardId, nat>, e: Event, k: Key)
    requires ValidSetting(c) && c.spec.online && CutInv(c, w, dropped) && w.k8s.flips > 0 && Home(c, k).Some?
    requires !e.ClientWrite?
    ensures Store(Next(c, w, e), Home(c, k).value) == Store(w, Home(c, k).value)
  {
    if e.PodStep? {
      if e.id in w.k8s.jobs && w.k8s.jobs[e.id].Running? { ServedPod(c, w, e.id, e.batch, k); }
    } else if !e.ReconcileJob? {
      QuietEvent(c, w, e);
    }
  }

  lemma ServedPod(c: Setting, w: World, id: JobId, batch: set<Key>, k: Key)
    requires ValidSetting(c) && c.spec.online && ControlInv(c, w.k8s) && w.k8s.flips > 0 && Home(c, k).Some?
    requires id in w.k8s.jobs && w.k8s.jobs[id].Running?
    ensures Store(Pod(c, w, id, batch), Home(c, k).value) == Store(w, Home(c, k).value)
  {
    HomeIsTarget(c, k);
    RunningPod(c, w.k8s, id);
    if id.mode.Delete? {
      DeleteFrame(c, w, id, w.k8s.jobs[id].pc, batch);
    } else {
      AbortFrame(w, id, w.k8s.jobs[id].pc, batch);
    }
  }

  lemma ServedCurrent(c: Setting, w: World, v: View, j: Key, row: Option<Val>, k: Key)
    requires v.blocked || Resolve(v.ranges, c.pos(j)) == Route(c, w, j)
    requires Route(c, w, k).Some? && (!v.blocked && j == k ==> v.flips > 0)
    ensures var t := Route(c, w, k).value;
      Get(Store(Through(c, w, v, j, row), t), k) ==
      if j == k && !v.blocked && v.flips > 0 then row else Get(Store(w, t), k)
  {
    SameRouteSameWrite(c, w, v, j, row);
    if !v.blocked && Route(c, w, j).Some? { WrittenRow(c, Unblocked(w), j, row, k); }
  }

  lemma ServedSend(c: Setting, w: World, dropped: map<ShardId, nat>, v: View, j: Key, row: Option<Val>, k: Key)
    requires ValidSetting(c) && CutInv(c, w, dropped) && ViewRouted(c, w.k8s, v)
    requires w.k8s.flips > 0 && Home(c, k).Some?
    ensures var t := Home(c, k).value;
      Get(Store(Through(c, w, v, j, row), t), k) ==
      if j == k && !v.blocked && v.flips > 0 then row else Get(Store(w, t), k)
  {
    SameOrStale(c, w, v, j);
    SameOrStale(c, w, v, k);
    if v.blocked || Resolve(v.ranges, c.pos(j)) == Route(c, w, j) {
      ServedCurrent(c, w, v, j, row, k);
    } else {
      StaleFacts(c, w, v, j, row);
    }
  }

  lemma {:induction false} ServedRun(c: Setting, f: Fleet, actions: seq<Action>, k: Key)
    requires ValidSetting(c) && c.spec.online && RouterInv(c, f) && f.w.k8s.flips > 0 && Home(c, k).Some?
    ensures var t := Home(c, k).value;
      Get(Store(FleetRun(c, f, actions).w, t), k) == Renewed(c, f, actions, k, Get(Store(f.w, t), k))
  {
    if actions != [] {
      var n := |actions| - 1;
      ServedRun(c, f, actions[..n], k);
      RouterRun(c, f, actions[..n]);
      ServedStep(c, FleetRun(c, f, actions[..n]), actions[n], k);
    }
  }

  /** The verdict under stale routers, over every run through the flip. Before the flip, and
      always for a key that does not move, the last accepted write is held. A key that moved is
      served with the row it had at the log position where cdc-finalize dropped its target's
      subscription, or with its last write since the flip by a router that has seen it; its last
      accepted write is held exactly if that is the same row. */
  lemma StaleVerdict(c: Setting, f: Fleet, early: seq<Action>, env: Env, late: seq<Action>, k: Key)
    requires ValidSetting(c) && c.spec.online && FleetInit(c, f)
    requires FleetRun(c, f, early).w.k8s.flips == 0
    requires Step(c, FleetRun(c, f, early), Acts(ReconcileJob(env))).w.k8s.flips > 0
    ensures var s := FleetRun(c, f, early);
      var flipped := Step(c, s, Acts(ReconcileJob(env)));
      var end := FleetRun(c, flipped, late);
      && HoldsFor(c, s.w, k) && (Home(c, k).None? ==> HoldsFor(c, end.w, k))
      && (Home(c, k).Some? ==>
            var t := Home(c, k).value;
            && t in s.dropped && s.dropped[t] <= |s.w.log| && Route(c, end.w, k) == Some(t)
            && var served := Renewed(c, flipped, late, k, Get(At(s.w.log, s.dropped[t]), k));
               Get(Store(end.w, t), k) == served && (HoldsFor(c, end.w, k) <==> served == Get(end.w.last, k)))
  {
    RouterInit(c, f);
    RouterRun(c, f, early);
    var s := FleetRun(c, f, early);
    var flipped := Step(c, s, Acts(ReconcileJob(env)));
    RouterStep(c, s, Acts(ReconcileJob(env)));
    RouterRun(c, flipped, late);
    var end := FleetRun(c, flipped, late);
    assert HoldsFor(c, s.w, k);
    assert Home(c, k).None? ==> HoldsFor(c, end.w, k);
    if Home(c, k).Some? {
      FlipCut(c, s.w, s.dropped, env, k);
      ServedRun(c, flipped, late, k);
      SameOrStale(c, end.w, Seen(end.w.k8s), k);
    }
  }

  /** An online flip happens only with every target finalized. */
  lemma FlipWasFinalized(c: Setting, k: Cluster, env: Env)
    requires ValidSetting(c) && c.spec.online && ControlInv(c, k) && k.flips == 0
    requires Reconcile(c.spec, k, env).flips > 0
    ensures Live(k) && AllDone(c.spec, k.jobs, CdcFinalize)
  {
    ReconcileFrame(c, k, env);
  }

  lemma FlipCut(c: Setting, w: World, dropped: map<ShardId, nat>, env: Env, k: Key)
    requires ValidSetting(c) && c.spec.online && CutInv(c, w, dropped) && w.k8s.flips == 0 && Home(c, k).Some?
    requires Reconcile(c.spec, w.k8s, env).flips > 0
    ensures var t := Home(c, k).value;
      && t in dropped && dropped[t] <= |w.log|
      && Get(Store(Next(c, w, ReconcileJob(env)), t), k) == Get(At(w.log, dropped[t]), k)
  {
    FlipWasFinalized(c, w.k8s, env);
    HomeIsTarget(c, k);
    CutAtFlip(c, w, dropped, Home(c, k).value);
  }

  // ---------------------------------------------------------------------------
  // When the cutover of a finalized split is safe.

  /** Every target is finalized and the routing flip is still to come. */
  ghost predicate Finalized(c: Setting, k: Cluster) {
    k.flips == 0 && Live(k) && 5 <= Rank(k.phase) <= 7 && AllDone(c.spec, k.jobs, CdcFinalize)
  }

  ghost predicate TargetsHold(c: Setting, w: World) {
    forall k :: Home(c, k).Some? ==> Get(Store(w, Home(c, k).value), k) == Get(w.last, k)
  }

  ghost predicate FleetReaches(c: Setting, f: Fleet, f': Fleet) {
    exists actions :: FleetRun(c, f, actions) == f'
  }

  lemma FleetThen(c: Setting, f: Fleet, s: Fleet, a: Action)
    requires FleetReaches(c, f, s)
    ensures FleetReaches(c, f, Step(c, s, a))
  {
    var actions :| FleetRun(c, f, actions) == s;
    assert (actions + [a])[..|actions|] == actions;
    assert FleetRun(c, f, actions + [a]) == Step(c, s, a);
  }

  lemma FinalizedTick(c: Setting, k: Cluster)
    requires Runs(c) && c.spec.online && c.spec.sourceOrdinal && !c.spec.allowForwardOnly
    requires ControlInv(c, k) && Finalized(c, k)
    ensures var k' := Reconcile(c.spec, k, Tick().env);
      if k.phase.RoutingUpdate? then k'.flips > 0 else Finalized(c, k') && Rank(k'.phase) == Rank(k.phase) + 1
  {
    FinalizedWereSetUp(c, k);
    UndisturbedAdvances(c, k, Tick().env);
  }

  /** Undisturbed reconciles bring a finalized split to its flip. */
  lemma {:induction false} CanFlip(c: Setting, f: Fleet, s: Fleet) returns (end: Fleet)
    requires ValidSetting(c) && c.spec.online && c.spec.sourceOrdinal && !c.spec.allowForwardOnly
    requires RouterInv(c, s) && Finalized(c, s.w.k8s) && FleetReaches(c, f, s)
    ensures FleetReaches(c, f, end) && RouterInv(c, end) && end.w.k8s.flips > 0
    ensures end.w.stores == s.w.stores && end.w.last == s.w.last
    decreases 8 - Rank(s.w.k8s.phase)
  {
    end := Step(c, s, Acts(Tick()));
    FleetThen(c, f, s, Acts(Tick()));
    RouterStep(c, s, Acts(Tick()));
    FinalizedTick(c, s.w.k8s);
    if !s.w.k8s.phase.RoutingUpdate? { end := CanFlip(c, f, end); }
  }

  /** A moved key that its target does not hold is lost at the flip. */
  lemma UnheldIsLost(c: Setting, f: Fleet, s: Fleet, k: Key)
    requires ValidSetting(c) && c.spec.online && c.spec.sourceOrdinal && !c.spec.allowForwardOnly
    requires RouterInv(c, s) && Finalized(c, s.w.k8s) && FleetReaches(c, f, s)
    requires Home(c, k).Some? && Get(Store(s.w, Home(c, k).value), k) != Get(s.w.last, k)
    ensures exists actions :: !HoldsFor(c, FleetRun(c, f, actions).w, k)
  {
    var end := CanFlip(c, f, s);
    SameOrStale(c, end.w, Seen(end.w.k8s), k);
    var actions :| FleetRun(c, f, actions) == end;
    assert !HoldsFor(c, FleetRun(c, f, actions).w, k);
  }

  lemma StaleBeforeFlip(c: Setting, w: World, v: View, k: Key, row: Option<Val>)
    requires ValidSetting(c) && Routed(c, w.k8s) && w.k8s.flips == 0 && ViewRouted(c, w.k8s, v)
    requires !v.blocked && Home(c, k).Some?
    ensures var w', t := Through(c, w, v, k, row), Home(c, k).value;
      w'.k8s == w.k8s && Get(w'.last, k) == row && Store(w', t) == Store(w, t)
  {
    HomeIsTarget(c, k);
    ViewRoutes(c, w, v, k);
    StaleFacts(c, w, v, k, row);
    PutGet(w.last, k, row, k);
  }

  lemma StaleSend(c: Setting, f: Fleet, r: nat, k: Key, row: Option<Val>)
    requires ValidSetting(c) && c.spec.online && RouterInv(c, f) && Finalized(c, f.w.k8s)
    requires Home(c, k).Some? && r in f.views && !f.views[r].blocked
    ensures var s, t := Step(c, f, Sends(r, k, row)), Home(c, k).value;
      && RouterInv(c, s) && Finalized(c, s.w.k8s)
      && Get(s.w.last, k) == row && Get(Store(s.w, t), k) == Get(Store(f.w, t), k)
  {
    StaleBeforeFlip(c, f.w, f.views[r], k, row);
    RouterStep(c, f, Sends(r, k, row));
  }

  /** A router that has not read the block can write a moved key and lose it. */
  lemma UninformedCanLose(c: Setting, f: Fleet, r: nat, k: Key)
    requires ValidSetting(c) && c.spec.online && c.spec.sourceOrdinal && !c.spec.allowForwardOnly
    requires RouterInv(c, f) && Finalized(c, f.w.k8s) && Home(c, k).Some? && r in f.views && !f.views[r].blocked
    ensures exists actions :: !HoldsFor(c, FleetRun(c, f, actions).w, k)
  {
    var row := if Get(Store(f.w, Home(c, k).value), k).Some? then None else Some("");
    StaleSend(c, f, r, k, row);
    assert FleetRun(c, f, []) == f;
    FleetThen(c, f, f, Sends(r, k, row));
    UnheldIsLost(c, f, Step(c, f, Sends(r, k, row)), k);
  }

  /** Targets that hold every last write agree with the source's whole log. */
  lemma HeldIsLinked(c: Setting, f: Fleet)
    requires ValidSetting(c) && RouterInv(c, f) && Finalized(c, f.w.k8s) && TargetsHold(c, f.w)
    ensures Inv(c, f.w)
  {
    forall t | IsTarget(c, t) ensures LinkOk(c, f.w, t) {
      CutAtFlip(c, f.w, f.dropped, t);
      HeldAgrees(c, f.w, t);
      assert JobOf(f.w.k8s, CdcFinalize, t) == Some(Succeeded);
    }
  }

  lemma HeldAgrees(c: Setting, w: World, t: ShardId)
    requires ValidSetting(c) && Routed(c, w.k8s) && w.k8s.flips == 0 && StayersHold(c, w) && TargetsHold(c, w)
    requires Store(w, Source(c)) == At(w.log, |w.log|)
    ensures Agrees(c, w.log, Store(w, t), t)
  {
    forall k | Home(c, k) == Some(t) ensures Get(Store(w, t), k) == Get(At(w.log, |w.log|), k) {
      Routes(c, w, k);
      HomeIsTarget(c, k);
      assert HoldsFor(c, w, k);
    }
  }

  lemma DoneStays(c: Setting, w: World, e: Event)
    requires ValidSetting(c) && c.spec.online && ControlInv(c, w.k8s) && AllDone(c.spec, w.k8s.jobs, CdcFinalize)
    requires !e.ClientWrite?
    ensures AllDone(c.spec, Next(c, w, e).k8s.jobs, CdcFinalize) && !Drains(w, e)
  {
    if e.ReconcileJob? {
      ReconcileFrame(c, w.k8s, e.env);
    } else if e.PodStep? {
      PodDoneStays(c, w, e.id, e.batch);
    } else if e.ApplyChange? {
      ApplyFrame(c, w, e.target);
    }
  }

  lemma PodDoneStays(c: Setting, w: World, id: JobId, batch: set<Key>)
    requires ValidSetting(c) && c.spec.online && ControlInv(c, w.k8s) && AllDone(c.spec, w.k8s.jobs, CdcFinalize)
    ensures AllDone(c.spec, Pod(c, w, id, batch).k8s.jobs, CdcFinalize) && !Drains(w, PodStep(id, batch))
  {
    if id in w.k8s.jobs && w.k8s.jobs[id].Running? { PodJob(c, w, id, batch); }
  }

  lemma {:induction false} FinalizedRunHolds(c: Setting, f: Fleet, actions: seq<Action>)
    requires ValidSetting(c) && c.spec.online && FleetInv(c, f) && AllDone(c.spec, f.w.k8s.jobs, CdcFinalize)
    ensures var s := FleetRun(c, f, actions); FleetInv(c, s) && AllDone(c.spec, s.w.k8s.jobs, CdcFinalize)
  {
    if actions != [] {
      var n := |actions| - 1;
      FinalizedRunHolds(c, f, actions[..n]);
      var s, a := FleetRun(c, f, actions[..n]), actions[n];
      if a.Acts? && !a.e.ClientWrite? { DoneStays(c, s.w, a.e); }
      StepHolds(c, s, a);
      if a.Sends? && a.r in s.views { SendKeepsObjects(c, s.w, s.views[a.r], a.key, a.row); }
    }
  }

  lemma SendKeepsObjects(c: Setting, w: World, v: View, k: Key, row: Option<Val>)
    ensures Through(c, w, v, k, row).k8s == w.k8s
  {
  }

  ghost predicate NeverLoses(c: Setting, f: Fleet) {
    forall actions: seq<Action>, k :: HoldsFor(c, FleetRun(c, f, actions).w, k)
  }

  /** The cutover of a finalized split, reached by any run, loses nothing in any continuation
      exactly if the targets hold every last write and, unless no key moves at all, every router
      has read the write-block. */
  lemma SafeExactlyIfInformed(c: Setting, f0: Fleet, early: seq<Action>)
    requires ValidSetting(c) && c.spec.online && c.spec.sourceOrdinal && !c.spec.allowForwardOnly && FleetInit(c, f0)
    requires Finalized(c, FleetRun(c, f0, early).w.k8s)
    ensures var f := FleetRun(c, f0, early);
      NeverLoses(c, f) <==> TargetsHold(c, f.w) && (AllBlocked(f) || forall k :: Home(c, k).None?)
  {
    RouterInit(c, f0);
    RouterRun(c, f0, early);
    var f := FleetRun(c, f0, early);
    if NeverLoses(c, f) {
      SafeIsInformed(c, f);
    }
    if TargetsHold(c, f.w) && AllBlocked(f) {
      InformedIsSafe(c, f);
    }
    if forall k :: Home(c, k).None? {
      forall actions: seq<Action>, k ensures HoldsFor(c, FleetRun(c, f, actions).w, k) {
        RouterRun(c, f, actions);
      }
    }
  }

  lemma SafeIsInformed(c: Setting, f: Fleet)
    requires ValidSetting(c) && c.spec.online && c.spec.sourceOrdinal && !c.spec.allowForwardOnly
    requires RouterInv(c, f) && Finalized(c, f.w.k8s) && NeverLoses(c, f)
    ensures TargetsHold(c, f.w) && (AllBlocked(f) || forall k :: Home(c, k).None?)
  {
    assert FleetRun(c, f, []) == f;
    forall k | Home(c, k).Some? ensures Get(Store(f.w, Home(c, k).value), k) == Get(f.w.last, k) && AllBlocked(f) {
      if Get(Store(f.w, Home(c, k).value), k) != Get(f.w.last, k) {
        UnheldIsLost(c, f, f, k);
      } else if !AllBlocked(f) {
        var r :| r in f.views && !f.views[r].blocked;
        UninformedCanLose(c, f, r, k);
      }
    }
  }

  lemma InformedIsSafe(c: Setting, f: Fleet)
    requires ValidSetting(c) && c.spec.online && RouterInv(c, f) && Finalized(c, f.w.k8s)
    requires TargetsHold(c, f.w) && AllBlocked(f)
    ensures NeverLoses(c, f)
  {
    HeldIsLinked(c, f);
    forall actions: seq<Action>, k ensures HoldsFor(c, FleetRun(c, f, actions).w, k) {
      FinalizedRunHolds(c, f, actions);
      assert AllHold(c, FleetRun(c, f, actions).w);
    }
  }

  // ---------------------------------------------------------------------------
  // A run in which a stale router loses a write.

  const SETUP_A := JobId(CdcSetup, "a")
  const FINALIZE_A := JobId(CdcFinalize, "a")

  /** The shop split online. */
  function OnlineShop(): Setting {
    Shop().(spec := Shop().spec.(online := true))
  }

  /** The shop before its first order, with one router that has read the ShardRange at the start. */
  function Stage(phase: Phase, blocked: bool, jobs: map<JobId, Job>, subs: map<ShardId, Subscription>,
                 pubs: set<ShardId>, stores: map<ShardId, Rows>, dropped: map<ShardId, nat>): Fleet
  {
    var ranges := [Entry(0, 9, "shard-0")];
    Fleet(World(Cluster(phase, false, ranges, blocked, jobs, 0), stores, [], subs, pubs, map[], map[]),
          map[0 := View(ranges, false, 0)], dropped)
  }

  function Opening(phase: Phase, jobs: map<JobId, Job>): Fleet {
    Stage(phase, false, jobs, map[], {}, map[], map[])
  }

  function Subscribing(setup: Job, syncedAt: map<nat, nat>, stores: map<ShardId, Rows>): Fleet {
    Stage(CDCCatchup, false, map[SETUP_A := setup], map["a" := Sub(0, syncedAt)], {"a"}, stores, map[])
  }

  function Finalizing(fin: Job, sub: Subscription, pubs: set<ShardId>, dropped: map<ShardId, nat>): Fleet {
    Stage(CDCCatchup, true, map[SETUP_A := Succeeded, FINALIZE_A := fin], map["a" := sub], pubs, map["a" := map[]],
          dropped)
  }

  lemma OnlineShopIsValid()
    ensures ValidSetting(OnlineShop()) && FleetInit(OnlineShop(), Opening(NoPhase, map[]))
    ensures PendingGate(OnlineShop().spec.targets) && Plan(OnlineShop()) == [Entry(0, 9, "a")]
  {
    ShopIsValid();
    assert Init(Shop(), Opening(NoPhase, map[]).w);
  }

  /** Before catch-up each reconcile moves the shop on by a phase. */
  lemma OpeningTick(p: Phase, next: Phase)
    requires || (p == NoPhase && next == SnapshotWAL) || (p == SnapshotWAL && next == Bootstrap)
             || (p == Bootstrap && next == InitialCopy) || (p == InitialCopy && next == CDCCatchup)
    ensures Step(OnlineShop(), Opening(p, map[]), Acts(Tick())) == Opening(next, map[])
  {
    if p == NoPhase { OnlineShopIsValid(); }
  }

  lemma ShopCatchesUp()
    ensures FleetReaches(OnlineShop(), Opening(NoPhase, map[]), Opening(CDCCatchup, map[]))
  {
    var c, f, tick := OnlineShop(), Opening(NoPhase, map[]), Acts(Tick());
    assert FleetRun(c, f, []) == f;
    OpeningTick(NoPhase, SnapshotWAL);
    FleetThen(c, f, f, tick);
    OpeningTick(SnapshotWAL, Bootstrap);
    FleetThen(c, f, Opening(SnapshotWAL, map[]), tick);
    OpeningTick(Bootstrap, InitialCopy);
    FleetThen(c, f, Opening(Bootstrap, map[]), tick);
    OpeningTick(InitialCopy, CDCCatchup);
    FleetThen(c, f, Opening(InitialCopy, map[]), tick);
  }

  lemma SetupSteps()
    ensures var c, pod := OnlineShop(), Acts(PodStep(SETUP_A, {}));
      Step(c, Step(c, Opening(CDCCatchup, map[SETUP_A := Running(Begin)]), pod), pod)
      == Subscribing(Running(Subscribed), map[], map[])
  {
    var c, pod := OnlineShop(), Acts(PodStep(SETUP_A, {}));
    assert Step(c, Opening(CDCCatchup, map[SETUP_A := Running(Begin)]), pod)
      == Stage(CDCCatchup, false, map[SETUP_A := Running(Published)], map[], {"a"}, map[], map[]);
  }

  lemma SetupStarts()
    ensures Step(OnlineShop(), Opening(CDCCatchup, map[]), Acts(Tick()))
      == Opening(CDCCatchup, map[SETUP_A := Running(Begin)])
  {
    assert OnlineShop().spec.targets[1..] == [];
  }

  lemma ShopSubscribes()
    ensures FleetReaches(OnlineShop(), Opening(NoPhase, map[]), Subscribing(Running(Subscribed), map[], map[]))
  {
    var c, f, pod := OnlineShop(), Opening(NoPhase, map[]), Acts(PodStep(SETUP_A, {}));
    var s := Opening(CDCCatchup, map[SETUP_A := Running(Begin)]);
    ShopCatchesUp();
    SetupStarts();
    FleetThen(c, f, Opening(CDCCatchup, map[]), Acts(Tick()));
    FleetThen(c, f, s, pod);
    FleetThen(c, f, Step(c, s, pod), pod);
    SetupSteps();
  }

  lemma ShopSyncs()
    ensures FleetReaches(OnlineShop(), Opening(NoPhase, map[]), Subscribing(Succeeded, map[0 := 0], map["a" := map[]]))
  {
    var c, f, pod := OnlineShop(), Opening(NoPhase, map[]), Acts(PodStep(SETUP_A, {}));
    ShopSubscribes();
    var s := Subscribing(Running(Subscribed), map[], map[]);
    var s' := Subscribing(Running(Subscribed), map[0 := 0], map["a" := map[]]);
    assert Step(c, s, Acts(TableSync("a", 0))) == s';
    FleetThen(c, f, s, Acts(TableSync("a", 0)));
    assert Step(c, s', pod) == Subscribing(Running(Synced), map[0 := 0], map["a" := map[]]);
    FleetThen(c, f, s', pod);
    assert Step(c, Subscribing(Running(Synced), map[0 := 0], map["a" := map[]]), pod)
      == Subscribing(Succeeded, map[0 := 0], map["a" := map[]]);
    FleetThen(c, f, Subscribing(Running(Synced), map[0 := 0], map["a" := map[]]), pod);
  }

  lemma ShopBlocks()
    ensures Step(OnlineShop(), Subscribing(Succeeded, map[0 := 0], map["a" := map[]]), Acts(Tick()))
      == Finalizing(Running(Begin), Sub(0, map[0 := 0]), {"a"}, map[])
  {
    assert OnlineShop().spec.targets[1..] == [];
  }

  /** The finalize pod finds the target drained. */
  lemma DrainStep(sub: Subscription)
    requires sub == Sub(0, map[0 := 0])
    ensures Step(OnlineShop(), Finalizing(Running(Begin), sub, {"a"}, map[]), Acts(PodStep(FINALIZE_A, {})))
      == Finalizing(Running(Drained), sub, {"a"}, map[])
  {
  }

  /** It drops the subscription. */
  lemma DropStep(sub: Subscription)
    requires sub == Sub(0, map[0 := 0])
    ensures Step(OnlineShop(), Finalizing(Running(Drained), sub, {"a"}, map[]), Acts(PodStep(FINALIZE_A, {})))
      == Finalizing(Running(Scan(0)), NoSub, {"a"}, map["a" := 0])
  {
  }

  lemma ShopDrains()
    ensures FleetReaches(OnlineShop(), Opening(NoPhase, map[]),
                         Finalizing(Running(Scan(0)), NoSub, {"a"}, map["a" := 0]))
  {
    var c, f, pod := OnlineShop(), Opening(NoPhase, map[]), Acts(PodStep(FINALIZE_A, {}));
    var sub := Sub(0, map[0 := 0]);
    ShopSyncs();
    ShopBlocks();
    FleetThen(c, f, Subscribing(Succeeded, map[0 := 0], map["a" := map[]]), Acts(Tick()));
    DrainStep(sub);
    FleetThen(c, f, Finalizing(Running(Begin), sub, {"a"}, map[]), pod);
    DropStep(sub);
    FleetThen(c, f, Finalizing(Running(Drained), sub, {"a"}, map[]), pod);
  }

  /** The way of the finalize pod after the drop, over one empty table. */
  predicate Cleans(pc: Pc, fin: Job, pubs: set<ShardId>) {
    || (pc == Scan(0) && fin == Running(Work(0, map[], true)) && pubs == {"a"})
    || (pc == Work(0, map[], true) && fin == Running(Scan(1)) && pubs == {"a"})
    || (pc == Scan(1) && fin == Running(Finish) && pubs == {"a"})
    || (pc == Finish && fin == Succeeded && pubs == {})
  }

  lemma CleanStep(pc: Pc, fin: Job, pubs: set<ShardId>)
    requires Cleans(pc, fin, pubs)
    ensures Step(OnlineShop(), Finalizing(Running(pc), NoSub, {"a"}, map["a" := 0]), Acts(PodStep(FINALIZE_A, {})))
      == Finalizing(fin, NoSub, pubs, map["a" := 0])
  {
  }

  lemma ShopCleans(c: Setting, f: Fleet, pc: Pc, fin: Job, pubs: set<ShardId>)
    requires c == OnlineShop() && FleetReaches(c, f, Finalizing(Running(pc), NoSub, {"a"}, map["a" := 0]))
    requires Cleans(pc, fin, pubs)
    ensures FleetReaches(c, f, Finalizing(fin, NoSub, pubs, map["a" := 0]))
  {
    CleanStep(pc, fin, pubs);
    FleetThen(c, f, Finalizing(Running(pc), NoSub, {"a"}, map["a" := 0]), Acts(PodStep(FINALIZE_A, {})));
  }

  lemma ShopFinalizes()
    ensures FleetReaches(OnlineShop(), Opening(NoPhase, map[]), Finalizing(Succeeded, NoSub, {}, map["a" := 0]))
  {
    var c, f := OnlineShop(), Opening(NoPhase, map[]);
    ShopDrains();
    ShopCleans(c, f, Scan(0), Running(Work(0, map[], true)), {"a"});
    ShopCleans(c, f, Work(0, map[], true), Running(Scan(1)), {"a"});
    ShopCleans(c, f, Scan(1), Running(Finish), {"a"});
    ShopCleans(c, f, Finish, Succeeded, {});
  }

  /** The shop finalized, and then one order written through the stale router. */
  function Ordered(phase: Phase): Fleet {
    var s := Finalizing(Succeeded, NoSub, {}, map["a" := 0]);
    s.(w := s.w.(k8s := s.w.k8s.(phase := phase), stores := map["a" := map[], "shard-0" := map["order" := "paid"]],
                 log := [Change("order", Some("paid"))], last := map["order" := "paid"]))
  }

  lemma OrderStep()
    ensures Step(OnlineShop(), Finalizing(Succeeded, NoSub, {}, map["a" := 0]), Sends(0, "order", Some("paid")))
      == Ordered(CDCCatchup)
  {
  }

  lemma OrderedTicks()
    ensures Step(OnlineShop(), Ordered(CDCCatchup), Acts(Tick())) == Ordered(Cutover)
    ensures Step(OnlineShop(), Ordered(Cutover), Acts(Tick())) == Ordered(RoutingUpdate)
  {
    assert OnlineShop().spec.targets[1..] == [];
  }

  lemma ShopOrders()
    ensures FleetReaches(OnlineShop(), Opening(NoPhase, map[]), Ordered(RoutingUpdate))
  {
    var c, f, tick := OnlineShop(), Opening(NoPhase, map[]), Acts(Tick());
    ShopFinalizes();
    OrderStep();
    OrderedTicks();
    FleetThen(c, f, Finalizing(Succeeded, NoSub, {}, map["a" := 0]), Sends(0, "order", Some("paid")));
    FleetThen(c, f, Ordered(CDCCatchup), tick);
    FleetThen(c, f, Ordered(Cutover), tick);
  }

  /** A router that has not read the write-block can lose an accepted write: nothing fails, and
      the one write is made while writes are blocked, after the target was found drained. */
  lemma StaleRouterLosesAWrite()
    ensures exists c, f, actions: seq<Action>, k ::
      && ValidSetting(c) && c.spec.online && FleetInit(c, f)
      && k in FleetRun(c, f, actions).w.last && !HoldsFor(c, FleetRun(c, f, actions).w, k)
  {
    var c, f := OnlineShop(), Opening(NoPhase, map[]);
    OnlineShopIsValid();
    ShopOrders();
    FleetThen(c, f, Ordered(RoutingUpdate), Acts(Tick()));
    var s := Step(c, Ordered(RoutingUpdate), Acts(Tick()));
    assert KeepOthers([Entry(0, 9, "shard-0")][1..], ["shard-0"]) == [];
    assert s.w.k8s.ranges == [Entry(0, 9, "a")];
    assert Route(c, s.w, "order") == Some("a") && Store(s.w, "a") == map[] && s.w.last == map["order" := "paid"];
    var actions :| FleetRun(c, f, actions) == s;
    assert !HoldsFor(c, FleetRun(c, f, actions).w, "order");
  }
}
