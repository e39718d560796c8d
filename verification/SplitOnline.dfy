/** An online split loses no accepted write, in every state of every run. */
module SplitOnline {
  import opened Basics
  import opened KeyRanges
  import opened SplitPlan
  import opened SplitJob
  import opened SplitWorld
  import opened SplitSafety

  function JobOf(k: Cluster, mode: Mode, t: ShardId): Option<Job> {
    if JobId(mode, t) in k.jobs then Some(k.jobs[JobId(mode, t)]) else None
  }

  function Max(a: nat, b: nat): nat {
    if a < b then b else a
  }

  /** A subscribed target holds, of every synced table, the source's rows at the later of
      its snapshot and the applied position, and nothing of any other table. */
  ghost predicate Content(c: Setting, log: seq<Change>, st: Rows, sub: Subscription) {
    sub.Sub? ==>
      && sub.applied <= |log|
      && (forall i :: i in sub.syncedAt ==> sub.syncedAt[i] <= |log|)
      && (forall k :: c.tableOf(k) in sub.syncedAt ==>
            Get(st, k) == Get(At(log, Max(sub.applied, sub.syncedAt[c.tableOf(k)])), k))
      && OnlySynced(c, st, sub.syncedAt)
  }

  ghost predicate OnlySynced(c: Setting, st: Rows, syncedAt: map<nat, nat>) {
    forall k :: k in st ==> c.tableOf(k) in syncedAt
  }

  /** Of the keys planned for `t`, the rows are the source's. */
  ghost predicate Agrees(c: Setting, log: seq<Change>, st: Rows, t: ShardId) {
    forall k :: Home(c, k) == Some(t) ==> Get(st, k) == Get(At(log, |log|), k)
  }

  /** No row of the first `n` tables belongs to another target. */
  ghost predicate CleanBelow(c: Setting, st: Rows, t: ShardId, n: nat) {
    forall k :: k in st && c.tableOf(k) < n ==> Home(c, k) == Some(t)
  }

  ghost predicate OnlyHomed(c: Setting, st: Rows, t: ShardId) {
    forall k :: k in st ==> Home(c, k) == Some(t)
  }

  /** `rows` are foreign rows, among them all that table `n` still has. */
  ghost predicate Remaining(c: Setting, st: Rows, t: ShardId, n: nat, rows: Rows) {
    && (forall k :: k in rows ==> Home(c, k) != Some(t))
    && (forall k :: k in st && c.tableOf(k) == n && Home(c, k) != Some(t) ==> k in rows)
  }

  /** What the finalize pod of `t` has established at each point of its program. */
  ghost predicate FinalizeOk(c: Setting, log: seq<Change>, t: ShardId, st: Rows, sub: Subscription, fin: Job) {
    match fin
    case Succeeded => sub.NoSub? && Agrees(c, log, st, t) && OnlyHomed(c, st, t)
    case JobFailed => true
    case Running(pc) =>
      match pc
      case Drained => AllSynced(c, sub) && sub.applied == |log|
      case Scan(i) => sub.NoSub? && Agrees(c, log, st, t) && CleanBelow(c, st, t, i)
      case Work(i, rows, _) =>
        sub.NoSub? && Agrees(c, log, st, t) && CleanBelow(c, st, t, i) && Remaining(c, st, t, i, rows)
      case Finish => sub.NoSub? && Agrees(c, log, st, t) && OnlyHomed(c, st, t)
      case Begin => true
      case _ => false
  }

  predicate SetupSynced(setup: Option<Job>) {
    setup == Some(Succeeded) || setup == Some(Running(Synced))
  }

  /** A finalize pod that may still have to find its target drained. */
  predicate Undrained(fin: Option<Job>) {
    fin.None? || fin.value == Running(Begin) || fin.value.JobFailed?
  }

  ghost predicate NoneDrained(k: Cluster) {
    forall t :: Undrained(JobOf(k, CdcFinalize, t))
  }

  /** One target of a live online job before the routing flip. */
  ghost predicate Link(c: Setting, log: seq<Change>, t: ShardId, st: Rows, sub: Subscription,
                       setup: Option<Job>, fin: Option<Job>)
  {
    && Content(c, log, st, sub)
    && (sub.NoSub? && fin.None? ==> st == map[])
    && (SetupSynced(setup) && sub.Sub? ==> AllSynced(c, sub))
    && (fin.Some? ==> FinalizeOk(c, log, t, st, sub, fin.value))
  }

  ghost predicate LinkOk(c: Setting, w: World, t: ShardId) {
    Link(c, w.log, t, Store(w, t), SubOf(w, t), JobOf(w.k8s, CdcSetup, t), JobOf(w.k8s, CdcFinalize, t))
  }

  ghost predicate Moved(c: Setting, w: World) {
    && (forall t :: SubOf(w, t).NoSub?)
    && (forall t :: IsTarget(c, t) ==> OnlyHomed(c, Store(w, t), t))
  }

  ghost predicate LinksOk(c: Setting, w: World) {
    forall t :: IsTarget(c, t) ==> LinkOk(c, w, t)
  }

  ghost predicate AllHold(c: Setting, w: World) {
    forall k :: HoldsFor(c, w, k)
  }

  ghost predicate DataInv(c: Setting, w: World) {
    && Store(w, Source(c)) == At(w.log, |w.log|)
    && AllHold(c, w)
    && (forall t :: SubOf(w, t).Sub? ==> IsTarget(c, t))
    && (w.k8s.flips > 0 ==> Moved(c, w))
    && (w.k8s.flips == 0 && Live(w.k8s) ==> LinksOk(c, w))
  }

  ghost predicate Inv(c: Setting, w: World) {
    ControlInv(c, w.k8s) && DataInv(c, w)
  }

  // ---------------------------------------------------------------------------
  // Routing.

  /** Where a key is served: before the flip as the old ranges say; after it, a source key
      by its planned target and any other key as before. */
  lemma Routes(c: Setting, w: World, k: Key)
    requires ValidSetting(c) && Routed(c, w.k8s)
    ensures w.k8s.flips == 0 ==> Route(c, w, k) == Resolve(c.before, c.pos(k))
    ensures w.k8s.flips > 0 ==>
      var was := Resolve(c.before, c.pos(k)); Route(c, w, k) == if was == Some(Source(c)) then Home(c, k) else was
  {
    if w.k8s.flips > 0 {
      assert c.spec.sources == [Source(c)];
      ReplaysRouteAlike(c.before, c.spec.sources, c.spec.targets, w.k8s.flips);
      MergeRoutes(c.before, Source(c), c.spec.targets, c.pos(k));
    }
  }

  lemma OldShardIsNoTarget(c: Setting, p: int)
    requires ValidSetting(c)
    ensures Resolve(c.before, p).Some? ==> !IsTarget(c, Resolve(c.before, p).value)
  {
    if Resolve(c.before, p).Some? {
      ResolveFacts(c.before, p);
      assert Active(c.before, Resolve(c.before, p).value);
    }
  }

  lemma HomeIsTarget(c: Setting, k: Key)
    requires ValidSetting(c)
    ensures Home(c, k).Some? ==> IsTarget(c, Home(c, k).value) && Home(c, k).value != Source(c)
    ensures Resolve(c.before, c.pos(k)) == Some(Source(c)) <==> Home(c, k).Some?
  {
    if Home(c, k).Some? {
      ResolveFacts(Plan(c), c.pos(k));
      FlattenMembers(c.spec.targets);
      var e :| e in Plan(c) && Covers(e, c.pos(k)) && e.shard == Home(c, k).value;
      var t :| t in c.spec.targets && e in t.ranges;
      assert t.shardId == e.shard;
    }
  }

  /** No key is served by a target before the flip, nor by the source after it; after it a
      target serves exactly the keys planned for it. */
  lemma WhoServes(c: Setting, w: World, k: Key)
    requires ValidSetting(c) && Routed(c, w.k8s) && Route(c, w, k).Some?
    ensures w.k8s.flips == 0 ==> !IsTarget(c, Route(c, w, k).value)
    ensures w.k8s.flips > 0 ==> Route(c, w, k).value != Source(c)
    ensures w.k8s.flips > 0 && IsTarget(c, Route(c, w, k).value) ==> Home(c, k) == Route(c, w, k)
  {
    Routes(c, w, k);
    OldShardIsNoTarget(c, c.pos(k));
    HomeIsTarget(c, k);
  }

  // ---------------------------------------------------------------------------
  // The log.

  lemma {:induction false} AtPrefix(log: seq<Change>, more: seq<Change>, n: nat)
    requires n <= |log|
    ensures At(log + more, n) == At(log, n)
  {
    if n > 0 {
      AtPrefix(log, more, n - 1);
      assert (log + more)[n - 1] == log[n - 1];
    }
  }

  lemma ContentGrows(c: Setting, log: seq<Change>, ch: Change, st: Rows, sub: Subscription)
    requires Content(c, log, st, sub)
    ensures Content(c, log + [ch], st, sub)
  {
    if sub.Sub? {
      forall k | c.tableOf(k) in sub.syncedAt
        ensures Get(st, k) == Get(At(log + [ch], Max(sub.applied, sub.syncedAt[c.tableOf(k)])), k)
      {
        AtPrefix(log, [ch], Max(sub.applied, sub.syncedAt[c.tableOf(k)]));
      }
    }
  }

  // ---------------------------------------------------------------------------
  // Every event keeps the invariant: the controller.

  lemma ReconcileHolds(c: Setting, w: World, e: Env)
    requires ValidSetting(c) && c.spec.online && Inv(c, w)
    ensures Inv(c, Next(c, w, ReconcileJob(e)))
  {
    ReconcileKeeps(c, w.k8s, e);
    ReconcileFrame(c, w.k8s, e);
    var k' := Reconcile(c.spec, w.k8s, e);
    if w.k8s.flips == 0 < k'.flips { assert AllDone(c.spec, w.k8s.jobs, CdcFinalize); }
    ReconcileData(c, w, k');
  }

  lemma ReconcileData(c: Setting, w: World, k': Cluster)
    requires ValidSetting(c) && DataInv(c, w)
    requires Routed(c, w.k8s) && Routed(c, k') && OnlyFreshJobs(w.k8s, k')
    requires w.k8s.flips <= k'.flips && (Live(k') ==> Live(w.k8s))
    requires w.k8s.flips == 0 < k'.flips ==> Live(w.k8s) && AllDone(c.spec, w.k8s.jobs, CdcFinalize)
    ensures DataInv(c, w.(k8s := k'))
  {
    var w' := w.(k8s := k');
    assert forall t :: SubOf(w', t) == SubOf(w, t) && Store(w', t) == Store(w, t);
    forall k ensures HoldsFor(c, w', k) {
      assert HoldsFor(c, w, k);
      Routes(c, w, k);
      Routes(c, w', k);
      if w.k8s.flips == 0 < k'.flips { FlipHolds(c, w, k); }
    }
    if w.k8s.flips == 0 < k'.flips {
      FlipMoves(c, w);
    }
    if k'.flips == 0 && Live(k') {
      forall t | IsTarget(c, t) ensures LinkOk(c, w', t) {
        assert LinkOk(c, w, t);
      }
    }
  }

  /** At the flip every target has been finalized. */
  lemma FinalizedLink(c: Setting, w: World, t: ShardId)
    requires LinksOk(c, w) && AllDone(c.spec, w.k8s.jobs, CdcFinalize) && IsTarget(c, t)
    ensures SubOf(w, t).NoSub? && Agrees(c, w.log, Store(w, t), t) && OnlyHomed(c, Store(w, t), t)
  {
    assert LinkOk(c, w, t);
    assert JobOf(w.k8s, CdcFinalize, t) == Some(Succeeded);
  }

  /** The rows each target will serve are the last accepted writes. */
  lemma FlipHolds(c: Setting, w: World, k: Key)
    requires ValidSetting(c) && DataInv(c, w) && Routed(c, w.k8s)
    requires w.k8s.flips == 0 && Live(w.k8s) && AllDone(c.spec, w.k8s.jobs, CdcFinalize)
    ensures Home(c, k).Some? ==> Get(Store(w, Home(c, k).value), k) == Get(w.last, k)
  {
    if Home(c, k).Some? {
      HomeIsTarget(c, k);
      Routes(c, w, k);
      FinalizedLink(c, w, Home(c, k).value);
      assert HoldsFor(c, w, k);
    }
  }

  lemma FlipMoves(c: Setting, w: World)
    requires ValidSetting(c) && DataInv(c, w)
    requires w.k8s.flips == 0 && Live(w.k8s) && AllDone(c.spec, w.k8s.jobs, CdcFinalize)
    ensures Moved(c, w)
  {
    forall t | IsTarget(c, t) ensures SubOf(w, t).NoSub? && OnlyHomed(c, Store(w, t), t) {
      FinalizedLink(c, w, t);
    }
  }

  // ---------------------------------------------------------------------------
  // Clients.

  lemma WriteHolds(c: Setting, w: World, k: Key, row: Option<Val>)
    requires ValidSetting(c) && c.spec.online && Inv(c, w)
    ensures Inv(c, Write(c, w, k, row))
  {
    if !w.k8s.blocked && Route(c, w, k).Some? {
      if w.k8s.flips == 0 && Live(w.k8s) { UnblockedIsUndrained(c, w.k8s); }
      WriteData(c, w, k, row);
    }
  }

  lemma UnblockedIsUndrained(c: Setting, k: Cluster)
    requires ControlInv(c, k) && !k.blocked && k.flips == 0 && Live(k)
    ensures NoneDrained(k)
  {
    forall t ensures Undrained(JobOf(k, CdcFinalize, t)) {
      assert JobId(CdcFinalize, t) in k.jobs ==> Any(k.jobs, CdcFinalize);
    }
  }

  lemma WriteData(c: Setting, w: World, k: Key, row: Option<Val>)
    requires ValidSetting(c) && DataInv(c, w) && Routed(c, w.k8s)
    requires !w.k8s.blocked && Route(c, w, k).Some?
    requires w.k8s.flips == 0 && Live(w.k8s) ==> NoneDrained(w.k8s)
    ensures DataInv(c, Write(c, w, k, row))
  {
    WriteAllHold(c, w, k, row);
    WriteLogs(c, w, k, row);
    if w.k8s.flips > 0 {
      WriteMoved(c, w, k, row);
    } else if Live(w.k8s) {
      WriteLinks(c, w, k, row);
    }
  }

  /** A write is logged by the source and changes no Kubernetes object and no subscription. */
  lemma WriteLogs(c: Setting, w: World, k: Key, row: Option<Val>)
    requires Store(w, Source(c)) == At(w.log, |w.log|) && !w.k8s.blocked && Route(c, w, k).Some?
    ensures var w' := Write(c, w, k, row);
      && Store(w', Source(c)) == At(w'.log, |w'.log|) && w'.k8s == w.k8s
      && forall t :: SubOf(w', t) == SubOf(w, t)
  {
    var w' := Write(c, w, k, row);
    if Route(c, w, k).value == Source(c) {
      AppendAt(w.log, Change(k, row));
      assert w'.log == w.log + [Change(k, row)];
    }
    SameSubs(w, w');
  }

  lemma AppendAt(log: seq<Change>, ch: Change)
    ensures At(log + [ch], |log + [ch]|) == Put(At(log, |log|), ch.key, ch.row)
  {
    AtPrefix(log, [ch], |log|);
  }

  lemma SameSubs(w: World, w': World)
    requires w'.subs == w.subs
    ensures forall t :: SubOf(w', t) == SubOf(w, t)
  {
  }

  lemma WriteMoved(c: Setting, w: World, k: Key, row: Option<Val>)
    requires ValidSetting(c) && Routed(c, w.k8s) && w.k8s.flips > 0 && Moved(c, w)
    requires !w.k8s.blocked && Route(c, w, k).Some?
    ensures Moved(c, Write(c, w, k, row))
  {
    var w', s := Write(c, w, k, row), Route(c, w, k).value;
    WhoServes(c, w, k);
    assert w'.subs == w.subs && Store(w', s) == Put(Store(w, s), k, row);
    forall t | IsTarget(c, t) ensures OnlyHomed(c, Store(w', t), t) {
      assert OnlyHomed(c, Store(w, t), t);
    }
    assert forall t :: SubOf(w', t) == SubOf(w, t);
  }

  lemma WriteLinks(c: Setting, w: World, k: Key, row: Option<Val>)
    requires ValidSetting(c) && LinksOk(c, w) && Routed(c, w.k8s) && w.k8s.flips == 0
    requires !w.k8s.blocked && Route(c, w, k).Some? && NoneDrained(w.k8s)
    ensures LinksOk(c, Write(c, w, k, row))
  {
    forall t | IsTarget(c, t) ensures LinkOk(c, Write(c, w, k, row), t) {
      assert LinkOk(c, w, t);
      WriteLink(c, w, k, row, t);
    }
  }

  /** An accepted write is the last write of its key at the key's shard. */
  lemma WriteAllHold(c: Setting, w: World, k: Key, row: Option<Val>)
    requires AllHold(c, w)
    ensures AllHold(c, Write(c, w, k, row))
  {
    if !w.k8s.blocked && Route(c, w, k).Some? {
      forall j ensures HoldsFor(c, Write(c, w, k, row), j) {
        assert HoldsFor(c, w, j);
        WriteHoldsFor(c, w, k, row, j);
      }
    }
  }

  lemma WriteHoldsFor(c: Setting, w: World, k: Key, row: Option<Val>, j: Key)
    requires HoldsFor(c, w, j) && !w.k8s.blocked && Route(c, w, k).Some?
    ensures HoldsFor(c, Write(c, w, k, row), j)
  {
    WrittenRow(c, w, k, row, j);
  }

  /** After an accepted write of `k`, the rows and last writes of every key. */
  lemma WrittenRow(c: Setting, w: World, k: Key, row: Option<Val>, j: Key)
    requires !w.k8s.blocked && Route(c, w, k).Some?
    ensures var w' := Write(c, w, k, row);
      && w'.k8s == w.k8s && Get(w'.last, j) == (if j == k then row else Get(w.last, j))
      && (Route(c, w, j).Some? ==>
            Get(Store(w', Route(c, w, j).value), j) == if j == k then row else Get(Store(w, Route(c, w, j).value), j))
  {
    PutGet(w.last, k, row, j);
    PutGet(Store(w, Route(c, w, k).value), k, row, j);
    if Route(c, w, j).Some? { WrittenStore(c, w, k, row, Route(c, w, j).value); }
  }

  lemma WrittenStore(c: Setting, w: World, k: Key, row: Option<Val>, s: ShardId)
    requires !w.k8s.blocked && Route(c, w, k).Some?
    ensures Store(Write(c, w, k, row), s) == if Route(c, w, k).value == s then Put(Store(w, s), k, row) else Store(w, s)
  {
  }

  lemma PutGet(m: Rows, k: Key, row: Option<Val>, j: Key)
    ensures Get(Put(m, k, row), j) == if j == k then row else Get(m, j)
  {
  }

  lemma WriteLink(c: Setting, w: World, k: Key, row: Option<Val>, t: ShardId)
    requires ValidSetting(c) && LinkOk(c, w, t) && IsTarget(c, t) && Routed(c, w.k8s) && w.k8s.flips == 0
    requires !w.k8s.blocked && Route(c, w, k).Some? && Undrained(JobOf(w.k8s, CdcFinalize, t))
    ensures LinkOk(c, Write(c, w, k, row), t)
  {
    WhoServes(c, w, k);
    var w' := Write(c, w, k, row);
    assert Store(w', t) == Store(w, t) && SubOf(w', t) == SubOf(w, t) && w'.k8s == w.k8s;
    LinkGrows(c, w.log, Change(k, row), t, Store(w, t), SubOf(w, t), JobOf(w.k8s, CdcSetup, t),
              JobOf(w.k8s, CdcFinalize, t));
  }

  lemma LinkGrows(c: Setting, log: seq<Change>, ch: Change, t: ShardId, st: Rows, sub: Subscription,
                  setup: Option<Job>, fin: Option<Job>)
    requires Link(c, log, t, st, sub, setup, fin) && Undrained(fin)
    ensures Link(c, log + [ch], t, st, sub, setup, fin)
  {
    ContentGrows(c, log, ch, st, sub);
  }

  // ---------------------------------------------------------------------------
  // Replication.

  /** Before the flip, a step that touches one target only leaves every served row and
      every other target alone. */
  lemma TargetStep(c: Setting, w: World, w': World, t: ShardId)
    requires ValidSetting(c) && DataInv(c, w) && Routed(c, w.k8s) && w.k8s.flips == 0 && IsTarget(c, t)
    requires w'.k8s == w.k8s.(jobs := w'.k8s.jobs) && w'.last == w.last && w'.log == w.log
    requires forall m, s :: s != t ==> JobOf(w'.k8s, m, s) == JobOf(w.k8s, m, s)
    requires forall s :: s != t ==> Store(w', s) == Store(w, s) && SubOf(w', s) == SubOf(w, s)
    requires Live(w.k8s) ==> LinkOk(c, w', t)
    ensures DataInv(c, w')
  {
    forall k ensures HoldsFor(c, w', k) {
      assert HoldsFor(c, w, k);
      if Route(c, w, k).Some? { WhoServes(c, w, k); }
    }
    if Live(w.k8s) {
      forall u | IsTarget(c, u) ensures LinkOk(c, w', u) {
        assert LinkOk(c, w, u);
      }
    }
  }

  lemma SyncHolds(c: Setting, w: World, t: ShardId, table: nat)
    requires ValidSetting(c) && c.spec.online && Inv(c, w)
    ensures Inv(c, Sync(c, w, t, table))
  {
    var w' := Sync(c, w, t, table);
    if SubOf(w, t).Sub? && w' != w {
      if Live(w.k8s) { SyncLink(c, w, t, table); }
      TargetStep(c, w, w', t);
    }
  }

  lemma SyncLink(c: Setting, w: World, t: ShardId, table: nat)
    requires ValidSetting(c) && LinkOk(c, w, t) && Store(w, Source(c)) == At(w.log, |w.log|)
    requires SubOf(w, t).Sub? && Sync(c, w, t, table) != w && t != Source(c)
    ensures LinkOk(c, Sync(c, w, t, table), t)
  {
  }

  lemma ApplyHolds(c: Setting, w: World, t: ShardId)
    requires ValidSetting(c) && c.spec.online && Inv(c, w)
    ensures Inv(c, Apply(c, w, t))
  {
    var w' := Apply(c, w, t);
    if SubOf(w, t).Sub? && w' != w {
      if Live(w.k8s) { ApplyLink(c, w, t); }
      ApplyFrame(c, w, t);
      TargetStep(c, w, w', t);
    }
  }

  lemma ApplyFrame(c: Setting, w: World, t: ShardId)
    ensures var w' := Apply(c, w, t);
      && w'.k8s == w.k8s && w'.last == w.last && w'.log == w.log
      && forall s :: s != t ==> Store(w', s) == Store(w, s) && SubOf(w', s) == SubOf(w, s)
  {
  }

  lemma ApplyLink(c: Setting, w: World, t: ShardId)
    requires LinkOk(c, w, t)
    requires SubOf(w, t).Sub? && Apply(c, w, t) != w
    ensures LinkOk(c, Apply(c, w, t), t)
  {
    ApplyFacts(c, w, t);
    LinkApplies(c, w.log, t, Store(w, t), SubOf(w, t), JobOf(w.k8s, CdcSetup, t), JobOf(w.k8s, CdcFinalize, t));
  }

  lemma ApplyFacts(c: Setting, w: World, t: ShardId)
    requires SubOf(w, t).Sub? && Apply(c, w, t) != w
    ensures var sub, w' := SubOf(w, t), Apply(c, w, t);
      && sub.applied < |w.log| && SubOf(w', t) == Sub(sub.applied + 1, sub.syncedAt)
      && Store(w', t) == Applied(c, w.log, Store(w, t), sub) && w'.k8s == w.k8s && w'.log == w.log
  {
  }

  lemma LinkApplies(c: Setting, log: seq<Change>, t: ShardId, st: Rows, sub: Subscription, setup: Option<Job>,
                    fin: Option<Job>)
    requires Link(c, log, t, st, sub, setup, fin) && sub.Sub? && sub.applied < |log|
    ensures Link(c, log, t, Applied(c, log, st, sub), Sub(sub.applied + 1, sub.syncedAt), setup, fin)
  {
    ApplyContent(c, log, st, sub);
  }

  /** The next change is of a table whose copy does not yet contain it. */
  predicate Due(c: Setting, log: seq<Change>, sub: Subscription)
    requires sub.Sub? && sub.applied < |log|
  {
    var table := c.tableOf(log[sub.applied].key);
    table in sub.syncedAt && sub.syncedAt[table] <= sub.applied
  }

  /** Applying the next change where it is due advances the content by one position. */
  lemma ApplyContent(c: Setting, log: seq<Change>, st: Rows, sub: Subscription)
    requires sub.Sub? && Content(c, log, st, sub) && sub.applied < |log|
    ensures Content(c, log, Applied(c, log, st, sub), Sub(sub.applied + 1, sub.syncedAt))
  {
    var st' := Applied(c, log, st, sub);
    forall k | c.tableOf(k) in sub.syncedAt
      ensures Get(st', k) == Get(At(log, Max(sub.applied + 1, sub.syncedAt[c.tableOf(k)])), k)
    {
      ApplyRow(c, log, st, sub, k);
    }
    AppliedSynced(c, log, st, sub);
  }

  function Applied(c: Setting, log: seq<Change>, st: Rows, sub: Subscription): Rows
    requires sub.Sub? && sub.applied < |log|
  {
    var ch := log[sub.applied];
    if Due(c, log, sub) then Put(st, ch.key, ch.row) else st
  }

  lemma AppliedSynced(c: Setting, log: seq<Change>, st: Rows, sub: Subscription)
    requires sub.Sub? && sub.applied < |log| && OnlySynced(c, st, sub.syncedAt)
    ensures OnlySynced(c, Applied(c, log, st, sub), sub.syncedAt)
  {
  }

  lemma ApplyRow(c: Setting, log: seq<Change>, st: Rows, sub: Subscription, k: Key)
    requires sub.Sub? && sub.applied < |log| && c.tableOf(k) in sub.syncedAt && sub.syncedAt[c.tableOf(k)] <= |log|
    requires Get(st, k) == Get(At(log, Max(sub.applied, sub.syncedAt[c.tableOf(k)])), k)
    ensures Get(Applied(c, log, st, sub), k) == Get(At(log, Max(sub.applied + 1, sub.syncedAt[c.tableOf(k)])), k)
  {
    var n, ch := sub.applied, log[sub.applied];
    PutGet(st, ch.key, ch.row, k);
    if sub.syncedAt[c.tableOf(k)] <= n {
      assert At(log, n + 1) == Put(At(log, n), ch.key, ch.row);
      PutGet(At(log, n), ch.key, ch.row, k);
    }
  }

  // ---------------------------------------------------------------------------
  // Pods.

  lemma SetupLink(c: Setting, w: World, id: JobId, pc: Pc)
    requires LinkOk(c, w, id.shard) && id.mode.CdcSetup? && id in w.k8s.jobs && w.k8s.jobs[id] == Running(pc)
    requires JobOf(w.k8s, CdcFinalize, id.shard).None?
    ensures LinkOk(c, SetupStep(c, w, id, pc), id.shard)
  {
    var t, w' := id.shard, SetupStep(c, w, id, pc);
    var setup, setup' := JobOf(w.k8s, CdcSetup, t), JobOf(w'.k8s, CdcSetup, t);
    SetupFacts(c, w, id, pc);
    if SubOf(w', t) == SubOf(w, t) {
      LinkMovesOn(c, w.log, t, Store(w, t), SubOf(w, t), setup, setup');
    } else {
      LinkSubscribes(c, w.log, t, Store(w, t), setup, setup');
    }
  }

  /** What a step of cdc-setup does: it subscribes, or moves on with the subscription it has. */
  lemma SetupFacts(c: Setting, w: World, id: JobId, pc: Pc)
    requires id.mode.CdcSetup? && id in w.k8s.jobs && w.k8s.jobs[id] == Running(pc)
    ensures var t, w' := id.shard, SetupStep(c, w, id, pc);
      var setup, setup' := JobOf(w.k8s, CdcSetup, t), JobOf(w'.k8s, CdcSetup, t);
      && Store(w', t) == Store(w, t) && w'.log == w.log
      && JobOf(w'.k8s, CdcFinalize, t) == JobOf(w.k8s, CdcFinalize, t)
      && (|| (SubOf(w', t) == SubOf(w, t) && (SetupSynced(setup') ==> SetupSynced(setup) || AllSynced(c, SubOf(w, t))))
          || (SubOf(w, t).NoSub? && SubOf(w', t) == Sub(|w.log|, map[]) && !SetupSynced(setup')))
  {
  }

  /** A new subscription starts at the log's end with no table copied. */
  lemma LinkSubscribes(c: Setting, log: seq<Change>, t: ShardId, st: Rows, setup: Option<Job>, setup': Option<Job>)
    requires Link(c, log, t, st, NoSub, setup, None) && !SetupSynced(setup')
    ensures Link(c, log, t, st, Sub(|log|, map[]), setup', None)
  {
  }

  lemma LinkMovesOn(c: Setting, log: seq<Change>, t: ShardId, st: Rows, sub: Subscription, setup: Option<Job>,
                    setup': Option<Job>)
    requires Link(c, log, t, st, sub, setup, None) && (SetupSynced(setup') && sub.Sub? ==> AllSynced(c, sub))
    ensures Link(c, log, t, st, sub, setup', None)
  {
  }

  lemma FinalizeLink(c: Setting, w: World, id: JobId, pc: Pc, batch: set<Key>)
    requires TablesKnown(c) && LinkOk(c, w, id.shard)
    requires id.mode.CdcFinalize? && id in w.k8s.jobs && w.k8s.jobs[id] == Running(pc)
    requires JobOf(w.k8s, CdcSetup, id.shard) == Some(Succeeded)
    ensures LinkOk(c, FinalizeStep(c, w, id, pc, batch), id.shard)
  {
    var t := id.shard;
    var w' := FinalizeStep(c, w, id, pc, batch);
    assert FinalizeOk(c, w.log, t, Store(w, t), SubOf(w, t), Running(pc));
    match pc
    case Drained => DrainedAgrees(c, w.log, Store(w, t), SubOf(w, t), t);
    case Scan(i) => ScanLink(c, w, id, i);
    case Work(i, rows, _) => WorkLink(c, w, id, i, rows, batch);
    case _ =>
  }

  lemma ScanLink(c: Setting, w: World, id: JobId, i: nat)
    requires TablesKnown(c) && LinkOk(c, w, id.shard)
    requires id.mode.CdcFinalize? && id in w.k8s.jobs && w.k8s.jobs[id] == Running(Scan(i))
    ensures LinkOk(c, FinalizeScan(c, w, id, i), id.shard)
  {
    var t := id.shard;
    ScanFacts(c, w, id, i);
    LinkScans(c, w.log, t, Store(w, t), SubOf(w, t), JobOf(w.k8s, CdcSetup, t), i);
  }

  lemma ScanFacts(c: Setting, w: World, id: JobId, i: nat)
    requires id.mode.CdcFinalize? && id in w.k8s.jobs && w.k8s.jobs[id] == Running(Scan(i))
    ensures var t, w' := id.shard, FinalizeScan(c, w, id, i);
      && JobOf(w'.k8s, CdcFinalize, t) == Some(Running(AfterScan(c, Store(w, t), t, i)))
      && Store(w', t) == Store(w, t) && SubOf(w', t) == SubOf(w, t) && w'.log == w.log
      && JobOf(w'.k8s, CdcSetup, t) == JobOf(w.k8s, CdcSetup, t)
  {
  }

  lemma LinkScans(c: Setting, log: seq<Change>, t: ShardId, st: Rows, sub: Subscription, setup: Option<Job>, i: nat)
    requires TablesKnown(c) && Link(c, log, t, st, sub, setup, Some(Running(Scan(i))))
    ensures Link(c, log, t, st, sub, setup, Some(Running(AfterScan(c, st, t, i))))
  {
    ScanOk(c, st, t, i);
  }

  lemma WorkLink(c: Setting, w: World, id: JobId, i: nat, rows: Rows, batch: set<Key>)
    requires LinkOk(c, w, id.shard)
    requires id.mode.CdcFinalize? && id in w.k8s.jobs && w.k8s.jobs[id].Running? && w.k8s.jobs[id].pc.Work?
    requires w.k8s.jobs[id].pc.table == i && w.k8s.jobs[id].pc.rows == rows
    ensures LinkOk(c, FinalizeWork(w, id, i, rows, batch), id.shard)
  {
    assert FinalizeOk(c, w.log, id.shard, Store(w, id.shard), SubOf(w, id.shard), w.k8s.jobs[id]);
    WorkOk(c, w.log, Store(w, id.shard), id.shard, i, rows, batch);
  }

  lemma ScanOk(c: Setting, st: Rows, t: ShardId, i: nat)
    requires TablesKnown(c) && CleanBelow(c, st, t, i)
    ensures i >= c.tables ==> OnlyHomed(c, st, t)
    ensures Remaining(c, st, t, i, Foreign(c, TableRows(c, st, i), t))
  {
  }

  /** Deleting some of the remaining foreign rows. */
  lemma WorkOk(c: Setting, log: seq<Change>, st: Rows, t: ShardId, i: nat, rows: Rows, batch: set<Key>)
    requires Agrees(c, log, st, t) && CleanBelow(c, st, t, i) && Remaining(c, st, t, i, rows)
    ensures var st' := st - (rows.Keys * batch);
      Agrees(c, log, st', t) && CleanBelow(c, st', t, i) && Remaining(c, st', t, i, rows - batch)
    ensures rows == map[] ==> CleanBelow(c, st, t, i + 1)
  {
  }

  /** With every table synced and the whole log applied, a target is a copy of the source. */
  lemma DrainedAgrees(c: Setting, log: seq<Change>, st: Rows, sub: Subscription, t: ShardId)
    requires TablesKnown(c) && Content(c, log, st, sub) && AllSynced(c, sub) && sub.applied == |log|
    ensures Agrees(c, log, st, t)
  {
    forall k ensures Get(st, k) == Get(At(log, |log|), k) {
      assert c.tableOf(k) in sub.syncedAt;
    }
  }

  /** Of the Kubernetes objects only the Job `id` differs, and no client write happened. */
  ghost predicate OwnJobOnly(w: World, w': World, id: JobId) {
    id in w'.k8s.jobs && w'.k8s == w.k8s.(jobs := w.k8s.jobs[id := w'.k8s.jobs[id]]) && w'.last == w.last
  }

  lemma OtherJobsStay(w: World, w': World, id: JobId)
    requires OwnJobOnly(w, w', id)
    ensures w'.k8s == w.k8s.(jobs := w'.k8s.jobs)
    ensures forall m, s :: s != id.shard ==> JobOf(w'.k8s, m, s) == JobOf(w.k8s, m, s)
  {
  }

  lemma NoJobMove(w: World, id: JobId)
    requires id in w.k8s.jobs
    ensures OwnJobOnly(w, w, id)
  {
    assert w.k8s.jobs == w.k8s.jobs[id := w.k8s.jobs[id]];
  }

  lemma SetupFrame(c: Setting, w: World, id: JobId, pc: Pc)
    requires id in w.k8s.jobs
    ensures var w' := SetupStep(c, w, id, pc);
      && OwnJobOnly(w, w', id) && w'.log == w.log && w'.stores == w.stores
      && forall s :: s != id.shard ==> SubOf(w', s) == SubOf(w, s)
  {
    NoJobMove(w, id);
  }

  lemma FinalizeFrame(c: Setting, w: World, id: JobId, pc: Pc, batch: set<Key>)
    requires id in w.k8s.jobs
    ensures var w' := FinalizeStep(c, w, id, pc, batch);
      && OwnJobOnly(w, w', id) && w'.log == w.log
      && forall s :: s != id.shard ==> Store(w', s) == Store(w, s) && SubOf(w', s) == SubOf(w, s)
  {
    NoJobMove(w, id);
    match pc
    case Scan(i) => FinalizeScanFrame(c, w, id, i);
    case Work(i, rows, _) => FinalizeWorkFrame(w, id, i, rows, batch);
    case _ =>
  }

  lemma FinalizeScanFrame(c: Setting, w: World, id: JobId, i: nat)
    requires id in w.k8s.jobs
    ensures var w' := FinalizeScan(c, w, id, i);
      OwnJobOnly(w, w', id) && w'.log == w.log && w'.stores == w.stores && w'.subs == w.subs
  {
    NoJobMove(w, id);
  }

  lemma FinalizeWorkFrame(w: World, id: JobId, i: nat, rows: Rows, batch: set<Key>)
    ensures var w' := FinalizeWork(w, id, i, rows, batch);
      && OwnJobOnly(w, w', id) && w'.log == w.log && w'.subs == w.subs
      && forall s :: s != id.shard ==> Store(w', s) == Store(w, s)
  {
  }

  lemma DeleteFrame(c: Setting, w: World, id: JobId, pc: Pc, batch: set<Key>)
    requires id in w.k8s.jobs
    ensures var w' := DeleteStep(c, w, id, pc, batch);
      && OwnJobOnly(w, w', id) && w'.subs == w.subs
      && forall s :: s != Source(c) ==> Store(w', s) == Store(w, s)
  {
    NoJobMove(w, id);
    match pc
    case Scan(i) => DeleteScanFrame(c, w, id, i);
    case Work(i, rows, _) => DeleteWorkFrame(c, w, id, i, rows, batch);
    case _ =>
  }

  lemma DeleteScanFrame(c: Setting, w: World, id: JobId, i: nat)
    requires id in w.k8s.jobs
    ensures var w' := DeleteScan(c, w, id, i);
      OwnJobOnly(w, w', id) && w'.stores == w.stores && w'.subs == w.subs && w'.log == w.log
  {
    NoJobMove(w, id);
  }

  lemma DeleteWorkFrame(c: Setting, w: World, id: JobId, i: nat, rows: Rows, batch: set<Key>)
    requires id in w.k8s.jobs
    ensures var w' := DeleteWork(c, w, id, i, rows, batch);
      && OwnJobOnly(w, w', id) && w'.subs == w.subs
      && forall s :: s != Source(c) ==> Store(w', s) == Store(w, s)
  {
    NoJobMove(w, id);
  }

  lemma AbortFrame(w: World, id: JobId, pc: Pc, batch: set<Key>)
    requires id in w.k8s.jobs
    ensures var w' := AbortStep(w, id, pc, batch);
      && OwnJobOnly(w, w', id) && w'.log == w.log && w'.stores == w.stores
      && forall s :: SubOf(w', s).NoSub? || SubOf(w', s) == SubOf(w, s)
  {
    NoJobMove(w, id);
  }

  lemma SetupPodData(c: Setting, w: World, id: JobId, pc: Pc)
    requires ValidSetting(c) && DataInv(c, w) && Routed(c, w.k8s) && w.k8s.flips == 0 && IsTarget(c, id.shard)
    requires id.mode.CdcSetup? && id in w.k8s.jobs && w.k8s.jobs[id] == Running(pc)
    requires Any(w.k8s.jobs, CdcFinalize) ==> AllDone(c.spec, w.k8s.jobs, CdcSetup)
    ensures DataInv(c, SetupStep(c, w, id, pc))
  {
    var w' := SetupStep(c, w, id, pc);
    SetupFrame(c, w, id, pc);
    OtherJobsStay(w, w', id);
    assert JobId(CdcFinalize, id.shard) in w.k8s.jobs ==> Any(w.k8s.jobs, CdcFinalize);
    if Live(w.k8s) {
      assert LinkOk(c, w, id.shard);
      SetupLink(c, w, id, pc);
    }
    TargetStep(c, w, w', id.shard);
  }

  lemma FinalizePodData(c: Setting, w: World, id: JobId, pc: Pc, batch: set<Key>)
    requires ValidSetting(c) && DataInv(c, w) && Routed(c, w.k8s) && w.k8s.flips == 0 && IsTarget(c, id.shard)
    requires id.mode.CdcFinalize? && id in w.k8s.jobs && w.k8s.jobs[id] == Running(pc)
    requires AllDone(c.spec, w.k8s.jobs, CdcSetup)
    ensures DataInv(c, FinalizeStep(c, w, id, pc, batch))
  {
    var w' := FinalizeStep(c, w, id, pc, batch);
    FinalizeFrame(c, w, id, pc, batch);
    OtherJobsStay(w, w', id);
    if Live(w.k8s) {
      assert LinkOk(c, w, id.shard);
      FinalizeLink(c, w, id, pc, batch);
    }
    TargetStep(c, w, w', id.shard);
  }

  /** Source rows are deleted only after the flip, when no key is served by the source. */
  lemma DeletePodData(c: Setting, w: World, id: JobId, pc: Pc, batch: set<Key>)
    requires ValidSetting(c) && DataInv(c, w) && Routed(c, w.k8s) && w.k8s.flips > 0
    requires id in w.k8s.jobs && w.k8s.jobs[id] == Running(pc)
    ensures DataInv(c, DeleteStep(c, w, id, pc, batch))
  {
    var w' := DeleteStep(c, w, id, pc, batch);
    DeleteFrame(c, w, id, pc, batch);
    DeleteLogs(c, w, id, pc, batch);
    assert forall s :: SubOf(w', s) == SubOf(w, s);
    forall k ensures HoldsFor(c, w', k) {
      assert HoldsFor(c, w, k);
      if Route(c, w, k).Some? { WhoServes(c, w, k); }
    }
  }

  lemma DeleteLogs(c: Setting, w: World, id: JobId, pc: Pc, batch: set<Key>)
    requires id in w.k8s.jobs && Store(w, Source(c)) == At(w.log, |w.log|)
    ensures var w' := DeleteStep(c, w, id, pc, batch); Store(w', Source(c)) == At(w'.log, |w'.log|)
  {
    match pc
    case Scan(i) => DeleteScanFrame(c, w, id, i);
    case Work(i, rows, _) =>
      if rows != map[] && exists k :: k in rows && batch == {k} {
        var k :| k in rows && batch == {k};
        DeleteRowLogs(c, w, k);
      }
    case _ =>
  }

  lemma DeleteRowLogs(c: Setting, w: World, k: Key)
    requires Store(w, Source(c)) == At(w.log, |w.log|)
    ensures var w' := DeleteRow(c, w, k); Store(w', Source(c)) == At(w'.log, |w'.log|)
  {
    AtPrefix(w.log, [Change(k, None)], |w.log|);
  }

  lemma AbortPodData(c: Setting, w: World, id: JobId, pc: Pc, batch: set<Key>)
    requires DataInv(c, w) && !Live(w.k8s) && id in w.k8s.jobs
    ensures DataInv(c, AbortStep(w, id, pc, batch))
  {
    var w' := AbortStep(w, id, pc, batch);
    AbortFrame(w, id, pc, batch);
    forall k ensures HoldsFor(c, w', k) {
      assert HoldsFor(c, w, k);
    }
  }

  lemma PodHolds(c: Setting, w: World, id: JobId, batch: set<Key>)
    requires ValidSetting(c) && c.spec.online && Inv(c, w)
    ensures Inv(c, Pod(c, w, id, batch))
  {
    if id in w.k8s.jobs && w.k8s.jobs[id].Running? {
      var pc := w.k8s.jobs[id].pc;
      var w' := Pod(c, w, id, batch);
      RunningPod(c, w.k8s, id);
      if id.mode.Delete? {
        DeleteFrame(c, w, id, pc, batch);
        DeletePodData(c, w, id, pc, batch);
      } else if id.mode.CdcAbort? {
        AbortFrame(w, id, pc, batch);
        AbortPodData(c, w, id, pc, batch);
      } else if id.mode.CdcSetup? {
        SetupFrame(c, w, id, pc);
        SetupPodData(c, w, id, pc);
      } else {
        FinalizeFrame(c, w, id, pc, batch);
        FinalizePodData(c, w, id, pc, batch);
      }
      JobMoves(c, w.k8s, id, w'.k8s.jobs[id]);
    }
  }

  /** Which pods can be running, and when. */
  lemma RunningPod(c: Setting, k: Cluster, id: JobId)
    requires ValidSetting(c) && c.spec.online && ControlInv(c, k) && id in k.jobs && k.jobs[id].Running?
    ensures IsTarget(c, id.shard) && !id.mode.Copy?
    ensures id.mode.CdcSetup? || id.mode.CdcFinalize? ==> k.flips == 0
    ensures id.mode.Delete? ==> k.flips > 0
    ensures id.mode.CdcAbort? ==> !Live(k)
    ensures id.mode.CdcFinalize? ==> AllDone(c.spec, k.jobs, CdcSetup)
  {
    assert id.mode.CdcFinalize? ==> Any(k.jobs, CdcFinalize);
    if k.flips > 0 { FinalizedWereSetUp(c, k); }
  }

  // ---------------------------------------------------------------------------
  // Restarts, Jobs giving up, and the operator's abort.

  lemma JobResetData(c: Setting, w: World, id: JobId, job: Job)
    requires ValidSetting(c) && DataInv(c, w) && Routed(c, w.k8s) && IsTarget(c, id.shard)
    requires id in w.k8s.jobs && w.k8s.jobs[id].Running? && (job == Running(Begin) || job.JobFailed?)
    ensures DataInv(c, WithJob(w, id, job))
  {
    var w' := WithJob(w, id, job);
    assert forall s :: Store(w', s) == Store(w, s) && SubOf(w', s) == SubOf(w, s);
    if w.k8s.flips == 0 {
      if Live(w.k8s) { assert LinkOk(c, w, id.shard); }
      TargetStep(c, w, w', id.shard);
    } else {
      forall k ensures HoldsFor(c, w', k) {
        assert HoldsFor(c, w, k);
      }
    }
  }

  lemma JobResetHolds(c: Setting, w: World, id: JobId, job: Job)
    requires ValidSetting(c) && c.spec.online && Inv(c, w)
    requires id in w.k8s.jobs && w.k8s.jobs[id].Running? && (job == Running(Begin) || job.JobFailed?)
    ensures Inv(c, WithJob(w, id, job))
  {
    JobMoves(c, w.k8s, id, job);
    JobResetData(c, w, id, job);
  }

  lemma AbortHolds(c: Setting, w: World)
    requires ValidSetting(c) && c.spec.online && Inv(c, w)
    ensures Inv(c, w.(k8s := w.k8s.(phase := Aborted)))
  {
    OperatorMayAbort(c, w.k8s);
    ReconcileData(c, w, w.k8s.(phase := Aborted));
  }

  // ---------------------------------------------------------------------------
  // Every run.

  lemma NextHolds(c: Setting, w: World, e: Event)
    requires ValidSetting(c) && c.spec.online && Inv(c, w)
    ensures Inv(c, Next(c, w, e))
  {
    match e
    case ReconcileJob(env) => ReconcileHolds(c, w, env);
    case ClientWrite(k, row) => WriteHolds(c, w, k, row);
    case PodStep(id, batch) => PodHolds(c, w, id, batch);
    case PodRestart(id) => ResetHolds(c, w, id, Running(Begin));
    case JobGivesUp(id) => ResetHolds(c, w, id, JobFailed);
    case TableSync(t, table) => SyncHolds(c, w, t, table);
    case ApplyChange(t) => ApplyHolds(c, w, t);
    case OperatorAbort => OperatorHolds(c, w);
  }

  lemma ResetHolds(c: Setting, w: World, id: JobId, job: Job)
    requires ValidSetting(c) && c.spec.online && Inv(c, w) && (job == Running(Begin) || job.JobFailed?)
    ensures Inv(c, if id in w.k8s.jobs && w.k8s.jobs[id].Running? then WithJob(w, id, job) else w)
  {
    if id in w.k8s.jobs && w.k8s.jobs[id].Running? { JobResetHolds(c, w, id, job); }
  }

  lemma OperatorHolds(c: Setting, w: World)
    requires ValidSetting(c) && c.spec.online && Inv(c, w)
    ensures Inv(c, Next(c, w, OperatorAbort))
  {
    if !w.k8s.phase.Completed? {
      AbortHolds(c, w);
    } else {
      assert Next(c, w, OperatorAbort) == w;
    }
  }

  lemma InitHolds(c: Setting, w: World)
    requires ValidSetting(c) && c.spec.online && Init(c, w)
    ensures Inv(c, w)
  {
    assert c.before == Replayed(c.before, c.spec.sources, c.spec.targets, 0);
  }

  lemma {:induction false} RunHolds(c: Setting, w: World, events: seq<Event>)
    requires ValidSetting(c) && c.spec.online && Init(c, w)
    ensures Inv(c, Run(c, w, events))
  {
    if events == [] {
      InitHolds(c, w);
    } else {
      RunHolds(c, w, events[..|events| - 1]);
      NextHolds(c, Run(c, w, events[..|events| - 1]), events[|events| - 1]);
    }
  }

  /** An online split loses no write. In every state of every run, whatever fails, restarts
      or is retried: the shard now serving a key holds its last accepted write; after the
      routing flip a source key is served by its planned target, and every target holds
      rows of its own keys only. */
  lemma NoWriteIsLost(c: Setting, w: World, events: seq<Event>, k: Key)
    requires ValidSetting(c) && c.spec.online && Init(c, w)
    ensures var w' := Run(c, w, events);
      && (Route(c, w', k).Some? ==> Get(Store(w', Route(c, w', k).value), k) == Get(w'.last, k))
      && (Route(c, w', k).Some? <==> Resolve(c.before, c.pos(k)).Some?)
      && (w'.k8s.flips > 0 && Resolve(c.before, c.pos(k)) == Some(Source(c)) ==> Route(c, w', k) == Home(c, k))
      && (w'.k8s.flips > 0 ==> forall t :: IsTarget(c, t) && k in Store(w', t) ==> Home(c, k) == Some(t))
  {
    RunHolds(c, w, events);
    var w' := Run(c, w, events);
    assert HoldsFor(c, w', k);
    Routes(c, w', k);
    HomeIsTarget(c, k);
  }
}
