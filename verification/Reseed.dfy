/** Destructive reseed: the two loops that delete a member's pod and volume, what they can
delete, how often, and when the shard's own primary is at risk. */
module Reseed {
  import opened Basics
  import opened PodNames
  import opened ShardStatus

  const STUCK_AFTER: int := 480 * SECOND
  const COOLDOWN: int := 600 * SECOND

  datatype Kind = Stale | Rogue

  /** One pod and volume deleted; `recorded` says whether the cooldown was stored. */
  datatype Deletion = Deletion(pod: string, at: int, recorded: bool)

  /** Cooldowns by pod, deletions so far, API calls made, and whether the sweep goes on. */
  datatype Work = Work(cooldown: map<string, int>, deleted: seq<Deletion>, calls: nat, ok: bool)

  /** What a sweep sees: the pods it can read with their creation times, the clock, and the
      API calls that fail. */
  datatype View = View(created: map<string, int>, now: int, fails: set<nat>)

  /** The time as stored: whole seconds. */
  function Recorded(t: int): (r: int)
    ensures r <= t < r + SECOND
  {
    t - t % SECOND
  }

  predicate Wants(kind: Kind, primary: Endpoint, e: Endpoint, v: View) {
    match kind
    case Stale => !e.ready && e.pod != "" && e.pod in v.created && v.now - v.created[e.pod] >= STUCK_AFTER
    case Rogue => e.reason == ROGUE && e.pod != "" && e.pod != primary.pod
  }

  predicate Cooling(cooldown: map<string, int>, pod: string, now: int) {
    pod in cooldown && now - cooldown[pod] < COOLDOWN
  }

  /** Deletes the volume, then the pod, then stores the cooldown; a failure stops the sweep. */
  function Delete(w: Work, pod: string, v: View): Work {
    if w.calls in v.fails then w.(calls := w.calls + 1, ok := false)
    else if w.calls + 1 in v.fails then
      w.(deleted := w.deleted + [Deletion(pod, v.now, false)], calls := w.calls + 2, ok := false)
    else if w.calls + 2 in v.fails then
      w.(deleted := w.deleted + [Deletion(pod, v.now, false)], calls := w.calls + 3, ok := false)
    else
      w.(cooldown := w.cooldown[pod := Recorded(v.now)], deleted := w.deleted + [Deletion(pod, v.now, true)],
         calls := w.calls + 3)
  }

  function Visit(kind: Kind, primary: Endpoint, e: Endpoint, v: View, w: Work): Work {
    if !w.ok || !Wants(kind, primary, e, v) || Cooling(w.cooldown, e.pod, v.now) then w else Delete(w, e.pod, v)
  }

  /** The first `n` replicas of a shard with a ready primary. */
  function VisitReplicas(kind: Kind, primary: Endpoint, replicas: seq<Endpoint>, n: nat, v: View, w: Work): Work
    requires n <= |replicas|
  {
    if n == 0 then w else Visit(kind, primary, replicas[n - 1], v, VisitReplicas(kind, primary, replicas, n - 1, v, w))
  }

  function VisitShard(kind: Kind, s: Status, v: View, w: Work): Work {
    if s.primary.None? || !s.primary.value.ready then w
    else VisitReplicas(kind, s.primary.value, s.replicas, |s.replicas|, v, w)
  }

  function Sweep(kind: Kind, shards: seq<Status>, n: nat, v: View, w: Work): Work
    requires n <= |shards|
  {
    if n == 0 then w else VisitShard(kind, shards[n - 1], v, Sweep(kind, shards, n - 1, v, w))
  }

  // ---------------------------------------------------------------------------
  // The loops.

  class Sweeper {
    var cooldown: map<string, int>
    var deleted: seq<Deletion>
    var calls: nat

    ghost function State(ok: bool): Work
      reads this
    {
      Work(cooldown, deleted, calls, ok)
    }

    method DeleteMember(pod: string, v: View) returns (ok: bool)
      modifies this
      ensures State(ok) == Delete(old(State(true)), pod, v)
    {
      ok := calls !in v.fails;
      calls := calls + 1;
      if !ok { return; }
      ok := calls !in v.fails;
      calls := calls + 1;
      if !ok {
        deleted := deleted + [Deletion(pod, v.now, false)];
        return;
      }
      ok := calls !in v.fails;
      calls := calls + 1;
      deleted := deleted + [Deletion(pod, v.now, ok)];
      if ok { cooldown := cooldown[pod := Recorded(v.now)]; }
    }

    /** One pass over all shards' replicas; the first error ends it. */
    method SweepShards(kind: Kind, shards: seq<Status>, v: View) returns (ok: bool)
      modifies this
      ensures State(ok) == Sweep(kind, shards, |shards|, v, old(State(true)))
    {
      ghost var start := State(true);
      ok := true;
      for i := 0 to |shards|
        invariant State(ok) == Sweep(kind, shards, i, v, start)
      {
        if shards[i].primary.None? || !shards[i].primary.value.ready { continue; }
        var primary, replicas := shards[i].primary.value, shards[i].replicas;
        ghost var before := State(ok);
        for j := 0 to |replicas|
          invariant State(ok) == VisitReplicas(kind, primary, replicas, j, v, before)
        {
          if !ok || !Wants(kind, primary, replicas[j], v) || Cooling(cooldown, replicas[j].pod, v.now) { continue; }
          ok := DeleteMember(replicas[j].pod, v);
        }
      }
    }
  }

  // ---------------------------------------------------------------------------
  // What a sweep deletes.

  /** Deletions are only added, and one of them is of `x`. */
  ghost predicate DeletedNow(w: Work, w': Work, x: string) {
    exists i :: |w.deleted| <= i < |w'.deleted| && w'.deleted[i].pod == x
  }

  ghost predicate Listed(kind: Kind, primary: Endpoint, replicas: seq<Endpoint>, v: View, x: string) {
    exists e :: e in replicas && e.pod == x && Wants(kind, primary, e, v)
  }

  ghost predicate TargetedIn(kind: Kind, s: Status, v: View, x: string) {
    s.primary.Some? && s.primary.value.ready && Listed(kind, s.primary.value, s.replicas, v, x)
  }

  /** Some shard with a ready primary lists `x` as a replica to be deleted. */
  ghost predicate Targeted(kind: Kind, shards: seq<Status>, v: View, x: string) {
    exists s :: s in shards && TargetedIn(kind, s, v, x)
  }

  /** What a part of a pass has done about pod `x`, which was `wanted` in that part: it is
      deleted only if it was wanted and not cooling down, and, as long as no call fails,
      exactly then; and only a deletion changes whether it is cooling down. */
  ghost predicate Handled(w: Work, w': Work, v: View, x: string, wanted: bool) {
    && |w.deleted| <= |w'.deleted|
    && (DeletedNow(w, w', x) ==> wanted && !Cooling(w.cooldown, x, v.now))
    && (!DeletedNow(w, w', x) ==> Cooling(w'.cooldown, x, v.now) == Cooling(w.cooldown, x, v.now))
    && (DeletedNow(w, w', x) && w'.ok ==> Cooling(w'.cooldown, x, v.now))
    && (w'.ok ==> w.ok)
    && (v.fails == {} && w.ok ==> w'.ok && (wanted && !Cooling(w.cooldown, x, v.now) ==> DeletedNow(w, w', x)))
  }

  lemma VisitHandles(kind: Kind, primary: Endpoint, e: Endpoint, v: View, w: Work, x: string)
    ensures Handled(w, Visit(kind, primary, e, v, w), v, x, e.pod == x && Wants(kind, primary, e, v))
    ensures |Visit(kind, primary, e, v, w).deleted| >= |w.deleted|
    ensures forall i :: 0 <= i < |w.deleted| ==> Visit(kind, primary, e, v, w).deleted[i] == w.deleted[i]
    ensures !w.ok ==> Visit(kind, primary, e, v, w) == w
  {
    var w' := Visit(kind, primary, e, v, w);
    if |w'.deleted| > |w.deleted| { assert w'.deleted[|w.deleted|].pod == e.pod; }
  }

  /** Two parts of a pass, the second starting where the first stopped. */
  lemma HandledInTurn(a: Work, b: Work, c: Work, v: View, x: string, first: bool, second: bool)
    requires Handled(a, b, v, x, first) && Handled(b, c, v, x, second)
    requires forall i :: 0 <= i < |b.deleted| ==> c.deleted[i] == b.deleted[i]
    requires !b.ok ==> c == b
    ensures Handled(a, c, v, x, first || second)
  {
    if DeletedNow(a, b, x) {
      var i :| |a.deleted| <= i < |b.deleted| && b.deleted[i].pod == x;
      assert c.deleted[i].pod == x;
    }
    if DeletedNow(b, c, x) {
      var i :| |b.deleted| <= i < |c.deleted| && c.deleted[i].pod == x;
      assert |a.deleted| <= i;
    }
    if DeletedNow(a, c, x) && !DeletedNow(a, b, x) {
      var i :| |a.deleted| <= i < |c.deleted| && c.deleted[i].pod == x;
      assert i < |b.deleted| ==> b.deleted[i].pod == x;
      assert DeletedNow(b, c, x);
    }
  }

  lemma {:induction false} ReplicasHandled(kind: Kind, primary: Endpoint, replicas: seq<Endpoint>, n: nat, v: View,
                                           w: Work,
                                           x: string)
    requires n <= |replicas|
    ensures var w' := VisitReplicas(kind, primary, replicas, n, v, w);
      && Handled(w, w', v, x, Listed(kind, primary, replicas[..n], v, x))
      && (forall i :: 0 <= i < |w.deleted| ==> w'.deleted[i] == w.deleted[i])
      && (!w.ok ==> w' == w)
  {
    if n > 0 {
      ReplicasHandled(kind, primary, replicas, n - 1, v, w, x);
      var mid, e := VisitReplicas(kind, primary, replicas, n - 1, v, w), replicas[n - 1];
      VisitHandles(kind, primary, e, v, mid, x);
      var first, second := Listed(kind, primary, replicas[..n - 1], v, x), e.pod == x && Wants(kind, primary, e, v);
      HandledInTurn(w, mid, Visit(kind, primary, e, v, mid), v, x, first, second);
      assert replicas[..n] == replicas[..n - 1] + [e];
      assert Listed(kind, primary, replicas[..n], v, x) <==> first || second;
    }
  }

  lemma ShardHandled(kind: Kind, s: Status, v: View, w: Work, x: string)
    ensures var w' := VisitShard(kind, s, v, w);
      && Handled(w, w', v, x, Targeted(kind, [s], v, x))
      && (forall i :: 0 <= i < |w.deleted| ==> w'.deleted[i] == w.deleted[i])
      && (!w.ok ==> w' == w)
  {
    assert s in [s];
    if s.primary.Some? && s.primary.value.ready {
      ReplicasHandled(kind, s.primary.value, s.replicas, |s.replicas|, v, w, x);
      assert s.replicas[..|s.replicas|] == s.replicas;
    }
  }

  lemma {:induction false} SweepHandled(kind: Kind, shards: seq<Status>, n: nat, v: View, w: Work, x: string)
    requires n <= |shards|
    ensures var w' := Sweep(kind, shards, n, v, w);
      && Handled(w, w', v, x, Targeted(kind, shards[..n], v, x))
      && (forall i :: 0 <= i < |w.deleted| ==> w'.deleted[i] == w.deleted[i])
      && (!w.ok ==> w' == w)
  {
    if n > 0 {
      SweepHandled(kind, shards, n - 1, v, w, x);
      var mid, s := Sweep(kind, shards, n - 1, v, w), shards[n - 1];
      ShardHandled(kind, s, v, mid, x);
      var first, second := Targeted(kind, shards[..n - 1], v, x), Targeted(kind, [s], v, x);
      HandledInTurn(w, mid, VisitShard(kind, s, v, mid), v, x, first, second);
      assert shards[..n] == shards[..n - 1] + [s];
      assert Targeted(kind, shards[..n], v, x) <==> first || second;
    }
  }

  /** A whole pass over all shards, whatever fails, deletes only replicas it wants, of shards
      with a ready primary, that are not cooling down; without API failures exactly those. */
  lemma SweepExact(kind: Kind, shards: seq<Status>, v: View, w: Work, x: string)
    requires w.ok
    ensures var w' := Sweep(kind, shards, |shards|, v, w);
      && (DeletedNow(w, w', x) ==> Targeted(kind, shards, v, x) && !Cooling(w.cooldown, x, v.now))
      && (v.fails == {} ==> (DeletedNow(w, w', x) <==> Targeted(kind, shards, v, x) && !Cooling(w.cooldown, x, v.now)))
  {
    SweepHandled(kind, shards, |shards|, v, w, x);
    assert shards[..|shards|] == shards;
  }

  /** A pod whose deletion was recorded is deleted again, in an undisturbed pass that wants it, exactly
      from ten minutes after the recorded time on. */
  lemma CooldownIsTenMinutes(kind: Kind, shards: seq<Status>, v: View, w: Work, x: string)
    requires w.ok && v.fails == {} && x in w.cooldown && Targeted(kind, shards, v, x)
    ensures DeletedNow(w, Sweep(kind, shards, |shards|, v, w), x) <==> v.now >= w.cooldown[x] + 600_000_000_000
  {
    SweepExact(kind, shards, v, w, x);
  }

  /** What a part of a pass has cost: three calls for each pod deleted and recorded. It is broken off
      at the first call that fails, and then the last member may have lost its volume, and perhaps
      its pod, without a record. */
  ghost predicate Accounted(w: Work, w': Work, fails: set<nat>) {
    && |w.deleted| <= |w'.deleted| && w.calls <= w'.calls
    && var d, spent := |w'.deleted| - |w.deleted|, w'.calls - w.calls;
       if w'.ok == w.ok then
         && spent == 3 * d && (forall i :: |w.deleted| <= i < |w'.deleted| ==> w'.deleted[i].recorded)
         && (forall c :: w.calls <= c < w'.calls ==> c !in fails)
       else
         && !w'.ok && w'.calls - 1 in fails && (forall c :: w.calls <= c < w'.calls - 1 ==> c !in fails)
         && (forall i :: |w.deleted| <= i < |w'.deleted| - 1 ==> w'.deleted[i].recorded)
         && (if spent == 3 * d + 1 then d > 0 ==> w'.deleted[|w'.deleted| - 1].recorded
             else d > 0 && 3 * d - 1 <= spent <= 3 * d && !w'.deleted[|w'.deleted| - 1].recorded)
  }

  lemma VisitAccounted(kind: Kind, primary: Endpoint, e: Endpoint, v: View, w: Work)
    ensures Accounted(w, Visit(kind, primary, e, v, w), v.fails) && w.deleted <= Visit(kind, primary, e, v, w).deleted
  {
  }

  lemma AccountedInTurn(w: Work, mid: Work, w': Work, fails: set<nat>)
    requires Accounted(w, mid, fails) && Accounted(mid, w', fails)
    requires mid.deleted <= w'.deleted && (!mid.ok ==> w' == mid)
    ensures Accounted(w, w', fails)
  {
    assert forall i :: 0 <= i < |mid.deleted| ==> w'.deleted[i] == mid.deleted[i];
  }

  lemma {:induction false} ReplicasAccounted(kind: Kind, primary: Endpoint, replicas: seq<Endpoint>, n: nat, v: View,
                                             w: Work)
    requires n <= |replicas|
    ensures var w' := VisitReplicas(kind, primary, replicas, n, v, w);
      Accounted(w, w', v.fails) && w.deleted <= w'.deleted && (!w.ok ==> w' == w)
  {
    if n > 0 {
      ReplicasAccounted(kind, primary, replicas, n - 1, v, w);
      var mid := VisitReplicas(kind, primary, replicas, n - 1, v, w);
      VisitAccounted(kind, primary, replicas[n - 1], v, mid);
      AccountedInTurn(w, mid, Visit(kind, primary, replicas[n - 1], v, mid), v.fails);
    }
  }

  /** So it is for a pass over all shards. */
  lemma {:induction false} SweepAccounted(kind: Kind, shards: seq<Status>, n: nat, v: View, w: Work)
    requires n <= |shards|
    ensures var w' := Sweep(kind, shards, n, v, w);
      Accounted(w, w', v.fails) && w.deleted <= w'.deleted && (!w.ok ==> w' == w)
  {
    if n > 0 {
      SweepAccounted(kind, shards, n - 1, v, w);
      var mid, s := Sweep(kind, shards, n - 1, v, w), shards[n - 1];
      if s.primary.Some? && s.primary.value.ready {
        ReplicasAccounted(kind, s.primary.value, s.replicas, |s.replicas|, v, mid);
        AccountedInTurn(w, mid, VisitShard(kind, s, v, mid), v.fails);
      }
    }
  }

  // ---------------------------------------------------------------------------
  // The shards of a cluster.

  predicate AnyReady(replicas: seq<Endpoint>) {
    exists e :: e in replicas && e.ready
  }

  /** When no pod was chosen, the last known primary, or else pod 0 of the StatefulSet,
      stands in; it counts as ready when the StatefulSet has a ready pod and no replica is
      ready. */
  function Fallback(s: Status, known: Option<string>, sts: string, stsReady: bool): Status {
    if s.primary.Some? && s.primary.value.pod != "" then s
    else
      var pod := if known.Some? && known.value != "" then known.value else PodOf(sts, 0);
      s.(primary := Some(Endpoint(pod, stsReady && !AnyReady(s.replicas), 0, "")))
  }

  /** What stands in for a missing primary: numbered shards have it, named ones do not. */
  datatype StandIn = StandIn(known: Option<string>, sts: string, stsReady: bool)

  /** A shard as one reconcile sees it. */
  datatype Observed = Observed(pods: seq<Pod>, standIn: Option<StandIn>)

  function StatusOf(fenced: set<string>, now: int, o: Observed): Status {
    var s := Aggregated(fenced, now, o.pods);
    if o.standIn.None? then s else Fallback(s, o.standIn.value.known, o.standIn.value.sts, o.standIn.value.stsReady)
  }

  function KnownNames(known: Option<string>): set<string> {
    if known.None? || known.value == "" then {} else {known.value}
  }

  /** When no pod is chosen, a numbered shard's primary is the last known one, or else pod 0; it is
      ready exactly if the StatefulSet has a ready pod while no replica is ready. A named shard has
      none. */
  lemma StandsIn(fenced: set<string>, now: int, o: Observed)
    requires Aggregated(fenced, now, o.pods).primary.None?
    ensures var s := StatusOf(fenced, now, o);
      && s.replicas == Aggregated(fenced, now, o.pods).replicas && (s.primary.None? <==> o.standIn.None?)
      && (s.primary.Some? ==>
            && s.primary.value.pod in {o.standIn.value.sts + "-0"} + KnownNames(o.standIn.value.known)
            && (KnownNames(o.standIn.value.known) != {} ==>
                  s.primary.value.pod in KnownNames(o.standIn.value.known))
            && (s.primary.value.ready <==> o.standIn.value.stsReady && forall e :: e in s.replicas ==> !e.ready)
            && s.primary.value.lag == 0 && s.primary.value.reason == "")
  {
    if o.standIn.Some? { assert PodOf(o.standIn.value.sts, 0) == o.standIn.value.sts + "-0"; }
  }

  function Statuses(fenced: set<string>, now: int, obs: seq<Observed>): seq<Status> {
    seq(|obs|, i requires 0 <= i < |obs| => StatusOf(fenced, now, obs[i]))
  }

  /** Every shard lists all pods of the cluster and owns those that match: the pods of one list
      have different names, and no name is that of pods of two shards. */
  ghost predicate DistinctPods(obs: seq<Observed>) {
    && (forall i :: 0 <= i < |obs| ==> DistinctNames(obs[i].pods))
    && (forall i, j, p, q ::
          0 <= i < |obs| && 0 <= j < |obs| && i != j && p in obs[i].pods && q in obs[j].pods && p.matches && q.matches
          ==> p.name != q.name)
  }

  /** What the shards observe: one list, in which shard `i` owns the pods that `owner` gives it. */
  function SharedList(pods: seq<Pod>, owner: string -> nat, standIns: seq<Option<StandIn>>): seq<Observed> {
    seq(|standIns|, i requires 0 <= i < |standIns| =>
      Observed(seq(|pods|, k requires 0 <= k < |pods| => pods[k].(matches := owner(pods[k].name) == i)), standIns[i]))
  }

  /** However many shards see the same list of differently named pods, they are told apart. */
  lemma SharedListIsDistinct(pods: seq<Pod>, owner: string -> nat, standIns: seq<Option<StandIn>>)
    requires DistinctNames(pods)
    ensures DistinctPods(SharedList(pods, owner, standIns))
  {
    var obs := SharedList(pods, owner, standIns);
    forall i, j, p, q | 0 <= i < |obs| && 0 <= j < |obs| && i != j && p in obs[i].pods && q in obs[j].pods
      && p.matches && q.matches
      ensures p.name != q.name
    {
      assert owner(p.name) == i && owner(q.name) == j;
    }
  }

  lemma ReplicaIsPod(fenced: set<string>, now: int, pods: seq<Pod>, e: Endpoint)
    ensures e in Aggregated(fenced, now, pods).replicas <==>
      exists k: nat :: IsReplica(fenced, pods, k) && e == EndpointOf(fenced, AnyPromoted(fenced, pods), now, pods[k])
  {
    var promoted := AnyPromoted(fenced, pods);
    var first := FirstEligible(fenced, promoted, pods);
    if e in Aggregated(fenced, now, pods).replicas { ReplicaSource(fenced, promoted, now, pods, first, |pods|, e); }
    forall k: nat | IsReplica(fenced, pods, k)
      ensures EndpointOf(fenced, promoted, now, pods[k]) in Aggregated(fenced, now, pods).replicas
    {
      ReplicaListed(fenced, promoted, now, pods, first, |pods|, k);
    }
  }

  lemma {:induction false} ReplicaListed(fenced: set<string>, promoted: bool, now: int, pods: seq<Pod>, first: nat,
                                         n: nat,
                                         k: nat)
    requires k < n <= |pods| && k != first && pods[k].matches && !SilentTarget(pods[k])
    ensures EndpointOf(fenced, promoted, now, pods[k]) in Replicas(fenced, promoted, now, pods, first, n)
  {
    if k < n - 1 { ReplicaListed(fenced, promoted, now, pods, first, n - 1, k); }
  }

  ghost predicate HasReadyPrimary(s: Status) {
    s.primary.Some? && s.primary.value.ready
  }

  /** The endpoint of replica pod `k` of shard `i`. */
  function ReplicaEndpoint(fenced: set<string>, now: int, o: Observed, k: nat): Endpoint
    requires k < |o.pods|
  {
    EndpointOf(fenced, AnyPromoted(fenced, o.pods), now, o.pods[k])
  }

  ghost predicate WantsPod(kind: Kind, fenced: set<string>, now: int, o: Observed, v: View, k: nat) {
    && HasReadyPrimary(StatusOf(fenced, now, o)) && IsReplica(fenced, o.pods, k)
    && Wants(kind, StatusOf(fenced, now, o).primary.value, ReplicaEndpoint(fenced, now, o, k), v)
  }

  /** What a pass wants, in terms of the pods it saw. */
  lemma TargetIsPod(kind: Kind, fenced: set<string>, now: int, obs: seq<Observed>, v: View, x: string)
    ensures Targeted(kind, Statuses(fenced, now, obs), v, x) <==>
      exists i: nat, k: nat :: i < |obs| && WantsPod(kind, fenced, now, obs[i], v, k) && obs[i].pods[k].name == x
  {
    var shards := Statuses(fenced, now, obs);
    if Targeted(kind, shards, v, x) {
      var s :| s in shards && TargetedIn(kind, s, v, x);
      var i :| 0 <= i < |shards| && shards[i] == s;
      var e :| e in s.replicas && e.pod == x && Wants(kind, s.primary.value, e, v);
      ReplicaIsPod(fenced, now, obs[i].pods, e);
      var k: nat :| IsReplica(fenced, obs[i].pods, k) && e == ReplicaEndpoint(fenced, now, obs[i], k);
      assert WantsPod(kind, fenced, now, obs[i], v, k) && obs[i].pods[k].name == x;
    }
    forall i: nat, k: nat | i < |obs| && WantsPod(kind, fenced, now, obs[i], v, k) && obs[i].pods[k].name == x
      ensures Targeted(kind, shards, v, x)
    {
      WantedIsTargeted(kind, fenced, now, obs, v, i, k);
    }
  }

  lemma WantedIsTargeted(kind: Kind, fenced: set<string>, now: int, obs: seq<Observed>, v: View, i: nat, k: nat)
    requires i < |obs| && WantsPod(kind, fenced, now, obs[i], v, k)
    ensures Targeted(kind, Statuses(fenced, now, obs), v, obs[i].pods[k].name)
  {
    var shards, s := Statuses(fenced, now, obs), StatusOf(fenced, now, obs[i]);
    var e := ReplicaEndpoint(fenced, now, obs[i], k);
    assert shards[i] == s && s in shards;
    ReplicaIsPod(fenced, now, obs[i].pods, e);
    assert e in s.replicas && e.pod == obs[i].pods[k].name;
    assert Listed(kind, s.primary.value, s.replicas, v, e.pod);
  }

  /** Of the shards' pods, a pass over all shards deletes one exactly when its own
      shard wants it and it is not cooling down; with API failures at most then. */
  lemma PodDeleted(kind: Kind, fenced: set<string>, now: int, obs: seq<Observed>, v: View, w: Work, i: nat, k: nat)
    requires DistinctPods(obs) && i < |obs| && k < |obs[i].pods| && obs[i].pods[k].matches && w.ok
    ensures var x, w' := obs[i].pods[k].name, Sweep(kind, Statuses(fenced, now, obs), |obs|, v, w);
      && (DeletedNow(w, w', x) ==> WantsPod(kind, fenced, now, obs[i], v, k) && !Cooling(w.cooldown, x, v.now))
      && (v.fails == {} ==>
            (DeletedNow(w, w', x) <==> WantsPod(kind, fenced, now, obs[i], v, k) && !Cooling(w.cooldown, x, v.now)))
  {
    var x := obs[i].pods[k].name;
    SweepExact(kind, Statuses(fenced, now, obs), v, w, x);
    TargetIsPod(kind, fenced, now, obs, v, x);
    forall j: nat, l: nat | j < |obs| && WantsPod(kind, fenced, now, obs[j], v, l) && obs[j].pods[l].name == x
      ensures j == i && l == k
    {
      assert obs[j].pods[l] in obs[j].pods && obs[i].pods[k] in obs[i].pods;
      assert j == i;
      assert !(l < k) && !(k < l);
    }
  }

  // ---------------------------------------------------------------------------
  // The rogue loop.

  /** The pod's own report gives the reason that the loop acts on. */
  predicate SelfReported(p: Pod) {
    p.report.Some? && p.report.value.reason == ROGUE
  }

  /** The rogue loop, over all shards: it deletes a pod exactly when its shard has a ready
      primary that is another pod, it is listed as a replica, not cooling down, and it is an
      unpromoted primary beside a promoted one, or says the reason itself. */
  lemma RogueSweep(fenced: set<string>, now: int, obs: seq<Observed>, v: View, w: Work, i: nat, k: nat)
    requires DistinctPods(obs) && i < |obs| && k < |obs[i].pods| && obs[i].pods[k].matches && w.ok && v.fails == {}
    ensures var p, s := obs[i].pods[k], StatusOf(fenced, now, obs[i]);
      DeletedNow(w, Sweep(Rogue, Statuses(fenced, now, obs), |obs|, v, w), p.name) <==>
        && HasReadyPrimary(s) && s.primary.value.pod != p.name && p.name != "" && !Cooling(w.cooldown, p.name, v.now)
        && IsReplica(fenced, obs[i].pods, k)
        && (IsRogue(fenced, AnyPromoted(fenced, obs[i].pods), p) || SelfReported(p))
  {
    PodDeleted(Rogue, fenced, now, obs, v, w, i, k);
  }

  /** A promoted pod is deleted, whatever fails, only if it says the reason itself; and without
      failures exactly if, besides, another pod was chosen as the ready primary. So without
      such reports the rogue loop never deletes a promoted pod of any shard. */
  lemma RogueSweepSparesPromoted(fenced: set<string>, now: int, obs: seq<Observed>, v: View, w: Work, i: nat, k: nat)
    requires DistinctPods(obs) && i < |obs| && k < |obs[i].pods| && w.ok && IsPromoted(fenced, obs[i].pods[k])
    ensures var p, s := obs[i].pods[k], StatusOf(fenced, now, obs[i]);
      var deleted := DeletedNow(w, Sweep(Rogue, Statuses(fenced, now, obs), |obs|, v, w), p.name);
      && (deleted ==> SelfReported(p))
      && (v.fails == {} ==>
            (deleted <==>
              && SelfReported(p) && HasReadyPrimary(s) && s.primary.value.pod != p.name
              && p.name != "" && !Cooling(w.cooldown, p.name, v.now)))
  {
    var o := obs[i];
    PodDeleted(Rogue, fenced, now, obs, v, w, i, k);
    assert AnyPromoted(fenced, o.pods);
    var first := FirstEligible(fenced, true, o.pods);
    assert Eligible(fenced, true, o.pods[k]);
    if k == first { assert StatusOf(fenced, now, o).primary.value.pod == o.pods[k].name || o.pods[k].name == ""; }
  }

  /** The reason is taken from the pod's annotation: a promoted pod that carries it, while
      another pod is primary, is deleted. */
  lemma SelfReportedPromotedIsDeleted()
    ensures exists obs: seq<Observed>, v: View ::
      && |obs| == 1 && |obs[0].pods| == 2 && DistinctPods(obs) && IsPromoted({}, obs[0].pods[1])
      && DeletedNow(Work(map[], [], 0, true),
                    Sweep(Rogue, Statuses({}, v.now, obs), 1, v, Work(map[], [], 0, true)), obs[0].pods[1].name)
  {
    var obs, v, w := [Observed([Member0(), Member1()], None)], View(map[], 0, {}), Work(map[], [], 0, true);
    TwoPromoted(obs);
    RogueSweepSparesPromoted({}, v.now, obs, v, w, 0, 1);
  }

  function Member0(): Pod {
    Pod("db-shard-0-0", true, Some(Report(true, true, true, 0, 0, "")), false, false)
  }

  function Member1(): Pod {
    Pod("db-shard-0-1", true, Some(Report(true, true, true, 0, 0, ROGUE)), false, false)
  }

  lemma TwoPromoted(obs: seq<Observed>)
    requires obs == [Observed([Member0(), Member1()], None)]
    ensures DistinctPods(obs) && IsPromoted({}, obs[0].pods[1]) && SelfReported(obs[0].pods[1])
    ensures StatusOf({}, 0, obs[0]).primary == Some(Endpoint(Member0().name, true, 0, ""))
    ensures Member0().name != Member1().name
  {
    var pods := obs[0].pods;
    assert Member0().name[11] == '0' && Member1().name[11] == '1';
    assert DistinctNames(pods);
    assert IsPromoted({}, pods[1]) && AnyPromoted({}, pods);
    assert FirstEligible({}, true, pods) == 0;
  }

  // ---------------------------------------------------------------------------
  // The stale loop and the fallback primary.

  /** The stale loop, over all shards: it deletes a pod exactly when its shard has a ready
      primary, it is listed as a replica that is not ready, it was created eight minutes ago or
      earlier, and it is not cooling down. */
  lemma StaleSweep(fenced: set<string>, now: int, obs: seq<Observed>, v: View, w: Work, i: nat, k: nat)
    requires DistinctPods(obs) && i < |obs| && k < |obs[i].pods| && obs[i].pods[k].matches && w.ok && v.fails == {}
    ensures var p := obs[i].pods[k];
      DeletedNow(w, Sweep(Stale, Statuses(fenced, now, obs), |obs|, v, w), p.name) <==>
        && HasReadyPrimary(StatusOf(fenced, now, obs[i])) && !Cooling(w.cooldown, p.name, v.now)
        && IsReplica(fenced, obs[i].pods, k) && !IsServing(fenced, AnyPromoted(fenced, obs[i].pods), now, p)
        && p.name != "" && p.name in v.created && v.now - v.created[p.name] >= STUCK_AFTER
  {
    PodDeleted(Stale, fenced, now, obs, v, w, i, k);
  }

  /** A primary chosen from the pods' reports is never deleted by either loop, in any pass over
      all shards and whatever fails. */
  lemma SweepSparesChosen(kind: Kind, fenced: set<string>, now: int, obs: seq<Observed>, v: View, w: Work, i: nat)
    requires DistinctPods(obs) && i < |obs| && w.ok && Aggregated(fenced, now, obs[i].pods).primary.Some?
    ensures !DeletedNow(w, Sweep(kind, Statuses(fenced, now, obs), |obs|, v, w),
                        Aggregated(fenced, now, obs[i].pods).primary.value.pod)
  {
    var first := FirstEligible(fenced, AnyPromoted(fenced, obs[i].pods), obs[i].pods);
    PodDeleted(kind, fenced, now, obs, v, w, i, first);
  }

  /** The stale loop deletes a numbered shard's own fallback primary exactly when that pod is
      listed as a replica, the StatefulSet has a ready pod while no replica counts as ready,
      and the pod is old enough and not cooling down. */
  lemma FallbackPrimaryAtRisk(fenced: set<string>, now: int, obs: seq<Observed>, v: View, w: Work, i: nat, k: nat)
    requires DistinctPods(obs) && i < |obs| && k < |obs[i].pods| && obs[i].pods[k].matches && w.ok && v.fails == {}
    requires Aggregated(fenced, now, obs[i].pods).primary.None? && obs[i].standIn.Some?
    requires StatusOf(fenced, now, obs[i]).primary.value.pod == obs[i].pods[k].name != ""
    ensures var x, replicas := obs[i].pods[k].name, Aggregated(fenced, now, obs[i].pods).replicas;
      DeletedNow(w, Sweep(Stale, Statuses(fenced, now, obs), |obs|, v, w), x) <==>
        && obs[i].standIn.value.stsReady && !AnyReady(replicas) && IsReplica(fenced, obs[i].pods, k)
        && x in v.created && v.now - v.created[x] >= STUCK_AFTER && !Cooling(w.cooldown, x, v.now)
  {
    StaleSweep(fenced, now, obs, v, w, i, k);
    ReplicaIsPod(fenced, now, obs[i].pods, ReplicaEndpoint(fenced, now, obs[i], k));
  }

  /** The only member of a shard, ready for Kubernetes but without a readable report, is
      deleted together with its volume once it is eight minutes old. */
  lemma OnlyMemberIsDeleted()
    ensures exists obs: seq<Observed>, v: View ::
      && |obs| == 1 && |obs[0].pods| == 1 && !obs[0].pods[0].notReady
      && obs[0].pods[0].name == PodOf("db-shard-0", 0)
      && obs[0].standIn == Some(StandIn(None, "db-shard-0", true))
      && DeletedNow(Work(map[], [], 0, true),
                    Sweep(Stale, Statuses({}, v.now, obs), 1, v, Work(map[], [], 0, true)), obs[0].pods[0].name)
  {
    var name := PodOf("db-shard-0", 0);
    var o := Observed([Pod(name, true, None, false, false)], Some(StandIn(None, "db-shard-0", true)));
    var obs, v, w := [o], View(map[name := 0], STUCK_AFTER, {}), Work(map[], [], 0, true);
    assert FirstEligible({}, AnyPromoted({}, o.pods), o.pods) == 1;
    var s := Aggregated({}, v.now, o.pods);
    assert Replicas({}, AnyPromoted({}, o.pods), v.now, o.pods, 1, 0) == [];
    assert s.replicas == [Endpoint(name, false, 0, "")];
    assert IsReplica({}, o.pods, 0);
    FallbackPrimaryAtRisk({}, v.now, obs, v, w, 0, 0);
  }

  // ---------------------------------------------------------------------------
  // How often: any run of sweeps of both loops.

  datatype Pass = Pass(kind: Kind, shards: seq<Status>, view: View)

  /** The cooldowns carry over from one reconcile to the next; call numbers start afresh. */
  function Passes(w: Work, passes: seq<Pass>): Work {
    if passes == [] then w
    else
      var p, before := passes[|passes| - 1], Passes(w, passes[..|passes| - 1]);
      Sweep(p.kind, p.shards, |p.shards|, p.view, before.(calls := 0, ok := true))
  }

  /** Recorded deletions are remembered, and later deletions of the pod keep their distance. */
  ghost predicate Spaced(w: Work) {
    && (forall i :: 0 <= i < |w.deleted| && w.deleted[i].recorded ==>
          w.deleted[i].pod in w.cooldown && w.cooldown[w.deleted[i].pod] >= Recorded(w.deleted[i].at))
    && (forall i, j :: 0 <= i < j < |w.deleted| && w.deleted[i].recorded && w.deleted[j].pod == w.deleted[i].pod ==>
          w.deleted[j].at - Recorded(w.deleted[i].at) >= COOLDOWN)
  }

  lemma VisitSpaced(kind: Kind, primary: Endpoint, e: Endpoint, v: View, w: Work)
    requires Spaced(w)
    ensures Spaced(Visit(kind, primary, e, v, w))
  {
    var w' := Visit(kind, primary, e, v, w);
    assert forall i :: 0 <= i < |w.deleted| ==> w'.deleted[i] == w.deleted[i];
    if e.pod in w.cooldown && w'.cooldown != w.cooldown {
      assert v.now - w.cooldown[e.pod] >= COOLDOWN;
    }
  }

  lemma {:induction false} VisitReplicasSpaced(kind: Kind, primary: Endpoint, replicas: seq<Endpoint>, n: nat,
                                               v: View, w: Work)
    requires n <= |replicas| && Spaced(w)
    ensures Spaced(VisitReplicas(kind, primary, replicas, n, v, w))
  {
    if n > 0 {
      VisitReplicasSpaced(kind, primary, replicas, n - 1, v, w);
      VisitSpaced(kind, primary, replicas[n - 1], v, VisitReplicas(kind, primary, replicas, n - 1, v, w));
    }
  }

  lemma {:induction false} SweepSpaced(kind: Kind, shards: seq<Status>, n: nat, v: View, w: Work)
    requires n <= |shards| && Spaced(w)
    ensures Spaced(Sweep(kind, shards, n, v, w))
  {
    if n > 0 {
      SweepSpaced(kind, shards, n - 1, v, w);
      var s, mid := shards[n - 1], Sweep(kind, shards, n - 1, v, w);
      if s.primary.Some? { VisitReplicasSpaced(kind, s.primary.value, s.replicas, |s.replicas|, v, mid); }
    }
  }

  /** Over any run of both loops, after a deletion whose cooldown was stored the same pod is
      not deleted again for ten minutes counted from that second. */
  lemma {:induction false} DeletionsAreSpaced(passes: seq<Pass>)
    ensures Spaced(Passes(Work(map[], [], 0, true), passes))
  {
    if passes != [] {
      DeletionsAreSpaced(passes[..|passes| - 1]);
      var p, before := passes[|passes| - 1], Passes(Work(map[], [], 0, true), passes[..|passes| - 1]);
      SweepSpaced(p.kind, p.shards, |p.shards|, p.view, before.(calls := 0, ok := true));
    }
  }
}
