/** Status of one shard: aggregation of its pods' reports into a primary and replicas, the
choice of a promotion candidate, and the synthesized fallback primary. Times are in
nanoseconds. */
module ShardStatus {
  import opened Basics
  import opened PodNames

  const SECOND: int := 1_000_000_000
  const STALE_AFTER: int := 30 * SECOND
  const ROGUE := "rogue-primary"

  /** A pod's own report, from its status annotation. */
  datatype Report = Report(primary: bool, promoted: bool, ready: bool, updated: int, lag: int, reason: string)

  /** A pod: whether it belongs to the shard, its report if it has one, whether Kubernetes
      finds it not ready, and whether it is the target of a split. */
  datatype Pod = Pod(name: string, matches: bool, report: Option<Report>, notReady: bool, splitTarget: bool)

  datatype Endpoint = Endpoint(pod: string, ready: bool, lag: nat, reason: string)

  datatype Status = Status(primary: Option<Endpoint>, replicas: seq<Endpoint>)

  predicate Fenced(fenced: set<string>, p: Pod) {
    Volume(p.name) in fenced
  }

  /** An unfenced promoted primary. */
  predicate IsPromoted(fenced: set<string>, p: Pod) {
    p.matches && p.report.Some? && p.report.value.primary && p.report.value.promoted && !Fenced(fenced, p)
  }

  predicate AnyPromoted(fenced: set<string>, pods: seq<Pod>) {
    exists i :: 0 <= i < |pods| && IsPromoted(fenced, pods[i])
  }

  /** A primary that lacks the promotion marker while a promoted primary exists. */
  predicate IsRogue(fenced: set<string>, promoted: bool, p: Pod) {
    && p.report.Some? && p.report.value.primary && !Fenced(fenced, p)
    && !p.report.value.promoted && promoted
  }

  /** A ready split target that has no report of its own. */
  predicate SilentTarget(p: Pod) {
    p.report.None? && p.splitTarget && !p.notReady
  }

  /** The pods that may become the shard's primary. */
  predicate Eligible(fenced: set<string>, promoted: bool, p: Pod) {
    p.matches &&
    (SilentTarget(p)
     || (p.report.Some? && p.report.value.primary && !Fenced(fenced, p) && (p.report.value.promoted || !promoted)))
  }

  /** A pod as an endpoint of the status. */
  function EndpointOf(fenced: set<string>, promoted: bool, now: int, p: Pod): Endpoint {
    match p.report
    case None => Endpoint(p.name, SilentTarget(p), 0, "")
    case Some(r) =>
      var ready := r.ready && now - r.updated <= STALE_AFTER && !p.notReady && !Fenced(fenced, p);
      var reason := if r.reason != "" then r.reason else if p.notReady then "pod-not-ready"
                    else if Fenced(fenced, p) then "fenced" else "";
      if IsRogue(fenced, promoted, p) then Endpoint(p.name, false, if r.lag < 0 then 0 else r.lag, ROGUE)
      else Endpoint(p.name, ready, if r.lag < 0 then 0 else r.lag, reason)
  }

  // ---------------------------------------------------------------------------
  // Aggregation: the first eligible pod is the primary, every other pod is listed as a
  // replica, except further silent split targets.

  function FirstEligible(fenced: set<string>, promoted: bool, pods: seq<Pod>): (i: nat)
    ensures i <= |pods|
    ensures i < |pods| ==> Eligible(fenced, promoted, pods[i])
    ensures forall j :: 0 <= j < i ==> !Eligible(fenced, promoted, pods[j])
  {
    if pods == [] then 0
    else if Eligible(fenced, promoted, pods[0]) then 0
    else
      var i := FirstEligible(fenced, promoted, pods[1..]);
      assert forall j :: 0 < j < i + 1 ==> pods[j] == pods[1..][j - 1];
      i + 1
  }

  /** Replicas among the first `n` pods, `first` being the primary's index. */
  function Replicas(fenced: set<string>, promoted: bool, now: int, pods: seq<Pod>, first: nat, n: nat): seq<Endpoint>
    requires n <= |pods|
  {
    if n == 0 then []
    else
      var p := pods[n - 1];
      var rest := Replicas(fenced, promoted, now, pods, first, n - 1);
      if !p.matches || n - 1 == first || SilentTarget(p) then rest
      else rest + [EndpointOf(fenced, promoted, now, p)]
  }

  function Aggregated(fenced: set<string>, now: int, pods: seq<Pod>): Status {
    var promoted := AnyPromoted(fenced, pods);
    var first := FirstEligible(fenced, promoted, pods);
    Status(if first < |pods| then Some(EndpointOf(fenced, promoted, now, pods[first])) else None,
           Replicas(fenced, promoted, now, pods, first, |pods|))
  }

  /** The aggregation loop. */
  method Aggregate(fenced: set<string>, now: int, pods: seq<Pod>) returns (s: Status)
    ensures s == Aggregated(fenced, now, pods)
  {
    var promoted := false;
    for i := 0 to |pods|
      invariant promoted <==> AnyPromoted(fenced, pods[..i])
    {
      assert forall j :: 0 <= j < i ==> pods[..i + 1][j] == pods[..i][j];
      if IsPromoted(fenced, pods[i]) {
        promoted := true;
        assert IsPromoted(fenced, pods[..i + 1][i]);
      }
    }
    assert pods[..|pods|] == pods;
    ghost var first := FirstEligible(fenced, promoted, pods);
    var primary: Option<Endpoint> := None;
    var replicas: seq<Endpoint> := [];
    for i := 0 to |pods|
      invariant i <= first ==> primary.None?
      invariant first < i ==> primary == Some(EndpointOf(fenced, promoted, now, pods[first]))
      invariant replicas == Replicas(fenced, promoted, now, pods, first, i)
    {
      var p := pods[i];
      if !p.matches { continue; }
      var e := EndpointOf(fenced, promoted, now, p);
      match p.report
      case None =>
        if p.splitTarget && !p.notReady {
          if primary.None? { primary := Some(e); }
        } else {
          replicas := replicas + [e];
        }
      case Some(r) =>
        if r.primary && Fenced(fenced, p) {
          replicas := replicas + [e];
        } else if r.primary && !r.promoted && promoted {
          replicas := replicas + [e];
        } else if r.primary {
          if primary.Some? { replicas := replicas + [e]; } else { primary := Some(e); }
        } else {
          replicas := replicas + [e];
        }
    }
    s := Status(primary, replicas);
  }

  // ---------------------------------------------------------------------------
  // What the status says about the pods.

  /** How often a list of endpoints names pod `x`. */
  function Count(endpoints: seq<Endpoint>, x: string): nat {
    if endpoints == [] then 0
    else Count(endpoints[..|endpoints| - 1], x) + if endpoints[|endpoints| - 1].pod == x then 1 else 0
  }

  function Listings(s: Status, x: string): nat {
    Count(s.replicas, x) + if s.primary.Some? && s.primary.value.pod == x then 1 else 0
  }

  /** A matching pod is due a place in the status unless it is a ready split target without
      a report, other than the primary. */
  predicate Due(pods: seq<Pod>, first: nat, i: nat)
    requires i < |pods|
  {
    pods[i].matches && (i == first || !SilentTarget(pods[i]))
  }

  /** How many of the first `n` pods are called `x` and due a place. */
  function DuePods(pods: seq<Pod>, first: nat, n: nat, x: string): nat
    requires n <= |pods|
  {
    if n == 0 then 0
    else DuePods(pods, first, n - 1, x) + if Due(pods, first, n - 1) && pods[n - 1].name == x then 1 else 0
  }

  lemma {:induction false} ReplicaCount(fenced: set<string>, promoted: bool, now: int, pods: seq<Pod>, first: nat,
                                        n: nat, x: string)
    requires n <= |pods| && (first < |pods| ==> pods[first].matches)
    ensures Count(Replicas(fenced, promoted, now, pods, first, n), x)
              + (if first < n && pods[first].name == x then 1 else 0)
         == DuePods(pods, first, n, x)
  {
    if n > 0 {
      ReplicaCount(fenced, promoted, now, pods, first, n - 1, x);
      var rest := Replicas(fenced, promoted, now, pods, first, n - 1);
      var e := EndpointOf(fenced, promoted, now, pods[n - 1]);
      EndpointName(fenced, promoted, now, pods[n - 1]);
      CountLast(rest, e, x);
    }
  }

  lemma EndpointName(fenced: set<string>, promoted: bool, now: int, p: Pod)
    ensures EndpointOf(fenced, promoted, now, p).pod == p.name
  {
  }

  lemma CountLast(rest: seq<Endpoint>, e: Endpoint, x: string)
    ensures Count(rest + [e], x) == Count(rest, x) + if e.pod == x then 1 else 0
  {
    assert (rest + [e])[..|rest|] == rest;
  }

  /** Every pod that is due a place is listed as often as it occurs, as primary or replica,
      and no other pod is. */
  lemma ListedExactlyOnce(fenced: set<string>, now: int, pods: seq<Pod>, x: string)
    ensures var first := FirstEligible(fenced, AnyPromoted(fenced, pods), pods);
      Listings(Aggregated(fenced, now, pods), x) == DuePods(pods, first, |pods|, x)
  {
    var promoted := AnyPromoted(fenced, pods);
    ReplicaCount(fenced, promoted, now, pods, FirstEligible(fenced, promoted, pods), |pods|, x);
  }

  lemma {:induction false} DueOnce(pods: seq<Pod>, first: nat, n: nat, i: nat)
    requires i < |pods| && n <= |pods| && DistinctNames(pods)
    ensures DuePods(pods, first, n, pods[i].name) == if i < n && Due(pods, first, i) then 1 else 0
  {
    if n > 0 { DueOnce(pods, first, n - 1, i); }
  }

  /** Names being distinct, a pod is listed exactly once if it is due a place, and otherwise
      not at all. */
  lemma PodListedOnce(fenced: set<string>, now: int, pods: seq<Pod>, i: nat)
    requires i < |pods| && DistinctNames(pods)
    ensures var first := FirstEligible(fenced, AnyPromoted(fenced, pods), pods);
      Listings(Aggregated(fenced, now, pods), pods[i].name) == if Due(pods, first, i) then 1 else 0
  {
    ListedExactlyOnce(fenced, now, pods, pods[i].name);
    DueOnce(pods, FirstEligible(fenced, AnyPromoted(fenced, pods), pods), |pods|, i);
  }

  lemma {:induction false} ReplicaSource(fenced: set<string>, promoted: bool, now: int, pods: seq<Pod>, first: nat,
                                         n: nat, e: Endpoint)
    requires n <= |pods| && e in Replicas(fenced, promoted, now, pods, first, n)
    ensures exists i :: 0 <= i < n && i != first && pods[i].matches && !SilentTarget(pods[i])
                     && e == EndpointOf(fenced, promoted, now, pods[i])
  {
    if e in Replicas(fenced, promoted, now, pods, first, n - 1) {
      ReplicaSource(fenced, promoted, now, pods, first, n - 1, e);
    }
  }

  ghost predicate DistinctNames(pods: seq<Pod>) {
    forall i, j :: 0 <= i < j < |pods| ==> pods[i].name != pods[j].name
  }

  ghost predicate NoSilentTargets(pods: seq<Pod>) {
    forall i :: 0 <= i < |pods| ==> !SilentTarget(pods[i])
  }

  /** The chosen primary is listed once: it is no replica. */
  lemma PrimaryIsNoReplica(fenced: set<string>, now: int, pods: seq<Pod>, e: Endpoint)
    requires DistinctNames(pods)
    requires Aggregated(fenced, now, pods).primary.Some? && e in Aggregated(fenced, now, pods).replicas
    ensures e.pod != Aggregated(fenced, now, pods).primary.value.pod
  {
    var promoted := AnyPromoted(fenced, pods);
    ReplicaSource(fenced, promoted, now, pods, FirstEligible(fenced, promoted, pods), |pods|, e);
  }

  /** Without silent split targets the primary is never fenced, and it is a promoted one
      whenever an unfenced promoted primary exists. */
  lemma PrimaryIsSound(fenced: set<string>, now: int, pods: seq<Pod>)
    requires NoSilentTargets(pods)
    ensures Aggregated(fenced, now, pods).primary.Some? ==>
      Volume(Aggregated(fenced, now, pods).primary.value.pod) !in fenced
    ensures AnyPromoted(fenced, pods) ==>
      exists i :: 0 <= i < |pods| && IsPromoted(fenced, pods[i])
               && Aggregated(fenced, now, pods).primary == Some(EndpointOf(fenced, true, now, pods[i]))
  {
    var promoted := AnyPromoted(fenced, pods);
    var first := FirstEligible(fenced, promoted, pods);
    if promoted {
      var k :| 0 <= k < |pods| && IsPromoted(fenced, pods[k]);
      assert Eligible(fenced, promoted, pods[k]);
      assert first <= k;
      assert IsPromoted(fenced, pods[first]);
    }
  }

  /** A fenced primary is always a silent split target. */
  lemma FencedPrimaryIsSilent(fenced: set<string>, now: int, pods: seq<Pod>)
    requires Aggregated(fenced, now, pods).primary.Some?
    requires Volume(Aggregated(fenced, now, pods).primary.value.pod) in fenced
    ensures exists i :: 0 <= i < |pods| && SilentTarget(pods[i])
                     && pods[i].name == Aggregated(fenced, now, pods).primary.value.pod
  {
    var first := FirstEligible(fenced, AnyPromoted(fenced, pods), pods);
    assert Eligible(fenced, AnyPromoted(fenced, pods), pods[first]);
  }

  /** The pod has a ready report of the last thirty seconds, Kubernetes finds it ready, its volume
      is not fenced, and it is no unpromoted primary beside a promoted one. */
  predicate IsServing(fenced: set<string>, promoted: bool, now: int, p: Pod) {
    && p.report.Some? && p.report.value.ready && now <= p.report.value.updated + 30_000_000_000
    && !p.notReady && !Fenced(fenced, p)
    && !(p.report.value.primary && !p.report.value.promoted && promoted)
  }

  /** The bytes a pod reports to be behind, none if it reports none or less. */
  function ReportedLag(p: Pod): nat {
    if p.report.Some? && p.report.value.lag > 0 then p.report.value.lag else 0
  }

  /** Pod `i` is listed as a replica: it is the shard's, not its primary, and no silent target. */
  predicate IsReplica(fenced: set<string>, pods: seq<Pod>, i: int) {
    && 0 <= i < |pods| && pods[i].matches && !SilentTarget(pods[i])
    && i != FirstEligible(fenced, AnyPromoted(fenced, pods), pods)
  }

  /** The endpoint says of a pod its name, whether it serves, and how far it is behind. */
  predicate Describes(fenced: set<string>, promoted: bool, now: int, p: Pod, e: Endpoint) {
    e.pod == p.name && e.lag == ReportedLag(p) && (e.ready <==> IsServing(fenced, promoted, now, p))
  }

  /** Every replica pod is described by an entry. */
  ghost predicate PodsListed(fenced: set<string>, now: int, pods: seq<Pod>, replicas: seq<Endpoint>) {
    forall i :: IsReplica(fenced, pods, i) ==>
      exists e :: e in replicas && Describes(fenced, AnyPromoted(fenced, pods), now, pods[i], e)
  }

  /** Every entry describes a replica pod. */
  ghost predicate OnlyPods(fenced: set<string>, now: int, pods: seq<Pod>, replicas: seq<Endpoint>) {
    forall e :: e in replicas ==>
      exists i :: IsReplica(fenced, pods, i) && Describes(fenced, AnyPromoted(fenced, pods), now, pods[i], e)
  }

  lemma EndpointDescribes(fenced: set<string>, promoted: bool, now: int, p: Pod)
    requires !SilentTarget(p)
    ensures Describes(fenced, promoted, now, p, EndpointOf(fenced, promoted, now, p))
  {
  }

  lemma {:induction false} ReplicaListed(fenced: set<string>, promoted: bool, now: int, pods: seq<Pod>, first: nat,
                                         n: nat, i: nat)
    requires i < n <= |pods| && i != first && pods[i].matches && !SilentTarget(pods[i])
    ensures EndpointOf(fenced, promoted, now, pods[i]) in Replicas(fenced, promoted, now, pods, first, n)
  {
    if i < n - 1 { ReplicaListed(fenced, promoted, now, pods, first, n - 1, i); }
  }

  /** The entry of a replica pod. */
  lemma EntryOfPod(fenced: set<string>, now: int, pods: seq<Pod>, i: int)
    requires IsReplica(fenced, pods, i)
    ensures var promoted := AnyPromoted(fenced, pods);
      var e := EndpointOf(fenced, promoted, now, pods[i]);
      e in Aggregated(fenced, now, pods).replicas && Describes(fenced, promoted, now, pods[i], e)
  {
    var promoted := AnyPromoted(fenced, pods);
    ReplicaListed(fenced, promoted, now, pods, FirstEligible(fenced, promoted, pods), |pods|, i);
    EndpointDescribes(fenced, promoted, now, pods[i]);
  }

  /** The pod of an entry. */
  lemma PodOfEntry(fenced: set<string>, now: int, pods: seq<Pod>, e: Endpoint) returns (i: int)
    requires e in Aggregated(fenced, now, pods).replicas
    ensures IsReplica(fenced, pods, i) && Describes(fenced, AnyPromoted(fenced, pods), now, pods[i], e)
  {
    var promoted := AnyPromoted(fenced, pods);
    var first := FirstEligible(fenced, promoted, pods);
    ReplicaSource(fenced, promoted, now, pods, first, |pods|, e);
    i :| 0 <= i < |pods| && i != first && pods[i].matches && !SilentTarget(pods[i])
         && e == EndpointOf(fenced, promoted, now, pods[i]);
    EndpointDescribes(fenced, promoted, now, pods[i]);
  }

  /** The replicas of the status are the shard's other pods: every one is described by an entry,
      and every entry describes one. */
  lemma ReplicasAreThePods(fenced: set<string>, now: int, pods: seq<Pod>)
    ensures PodsListed(fenced, now, pods, Aggregated(fenced, now, pods).replicas)
    ensures OnlyPods(fenced, now, pods, Aggregated(fenced, now, pods).replicas)
  {
    var promoted, replicas := AnyPromoted(fenced, pods), Aggregated(fenced, now, pods).replicas;
    forall i | IsReplica(fenced, pods, i)
      ensures exists e :: e in replicas && Describes(fenced, promoted, now, pods[i], e)
    {
      EntryOfPod(fenced, now, pods, i);
    }
    forall e | e in replicas
      ensures exists i :: IsReplica(fenced, pods, i) && Describes(fenced, promoted, now, pods[i], e)
    {
      var i := PodOfEntry(fenced, now, pods, e);
    }
  }

  /** The primary of the status is ready exactly if its pod serves, or is a silent split target. */
  lemma PrimaryIsDescribed(fenced: set<string>, now: int, pods: seq<Pod>)
    ensures var promoted, primary := AnyPromoted(fenced, pods), Aggregated(fenced, now, pods).primary;
      var first := FirstEligible(fenced, promoted, pods);
      && (primary.None? <==> first == |pods|)
      && (primary.Some? ==>
            && primary.value.pod == pods[first].name && primary.value.lag == ReportedLag(pods[first])
            && (primary.value.ready <==> SilentTarget(pods[first]) || IsServing(fenced, promoted, now, pods[first])))
  {
  }

  /** The shard has a primary exactly if one of its pods reports to be one and is not fenced, or is a
      ready split target that reports nothing. */
  lemma PrimaryExactlyIf(fenced: set<string>, now: int, pods: seq<Pod>)
    ensures Aggregated(fenced, now, pods).primary.Some? <==>
      exists i :: 0 <= i < |pods| && pods[i].matches &&
        match pods[i].report
        case Some(r) => r.primary && !Fenced(fenced, pods[i])
        case None => pods[i].splitTarget && !pods[i].notReady
  {
    var promoted := AnyPromoted(fenced, pods);
    var first := FirstEligible(fenced, promoted, pods);
    if promoted {
      var k :| 0 <= k < |pods| && IsPromoted(fenced, pods[k]);
      assert Eligible(fenced, promoted, pods[k]);
    } else if first == |pods| {
      forall i | 0 <= i < |pods| && pods[i].matches
        ensures match pods[i].report
                case Some(r) => !r.primary || Fenced(fenced, pods[i])
                case None => !pods[i].splitTarget || pods[i].notReady
      {
        assert !Eligible(fenced, promoted, pods[i]);
      }
    }
  }

  /** Why a pod that reports is not ready: its own reason; else that Kubernetes finds it not ready;
      else that its volume is fenced. A primary beside a promoted one is a rogue whatever it says. */
  lemma ReasonGiven(fenced: set<string>, promoted: bool, now: int, p: Pod)
    requires p.report.Some?
    ensures var reason, r := EndpointOf(fenced, promoted, now, p).reason, p.report.value;
      if r.primary && !r.promoted && promoted && !Fenced(fenced, p) then reason == "rogue-primary"
      else if r.reason != "" then reason == r.reason
      else (reason == "pod-not-ready" <==> p.notReady) && (reason == "fenced" <==> !p.notReady && Fenced(fenced, p))
  {
    assert "pod-not-ready"[0] != "fenced"[0];
  }

  // ---------------------------------------------------------------------------
  // The promotion candidate.

  /** Bytewise order of names. */
  predicate NameLess(a: string, b: string) {
    if b == [] then false
    else if a == [] then true
    else a[0] < b[0] || (a[0] == b[0] && NameLess(a[1..], b[1..]))
  }

  predicate DiffersAt(a: string, b: string, i: int) {
    0 <= i <= |a| && i < |b| && a[..i] == b[..i] && (i == |a| || a[i] < b[i])
  }

  lemma DiffersInRest(a: string, b: string)
    requires a != [] && b != [] && a[0] == b[0]
    ensures (exists i :: DiffersAt(a, b, i)) <==> exists i :: DiffersAt(a[1..], b[1..], i)
  {
    if i :| DiffersAt(a, b, i) {
      assert i > 0;
      assert a[1..][..i - 1] == a[..i][1..] && b[1..][..i - 1] == b[..i][1..];
      assert DiffersAt(a[1..], b[1..], i - 1);
    }
    if i :| DiffersAt(a[1..], b[1..], i) {
      assert a[..i + 1] == [a[0]] + a[1..][..i] && b[..i + 1] == [b[0]] + b[1..][..i];
      assert DiffersAt(a, b, i + 1);
    }
  }

  /** That is: at the first place where they differ, the first name has the smaller character or
      has ended. Of two different names one is less. */
  lemma {:induction false} NamesAreOrdered(a: string, b: string)
    ensures NameLess(a, b) <==> exists i :: DiffersAt(a, b, i)
    ensures a != b ==> NameLess(a, b) || NameLess(b, a)
  {
    if b == [] {
    } else if a == [] {
      assert DiffersAt(a, b, 0);
    } else if a[0] != b[0] {
      assert a[0] < b[0] ==> DiffersAt(a, b, 0);
    } else {
      NamesAreOrdered(a[1..], b[1..]);
      assert a == [a[0]] + a[1..] && b == [b[0]] + b[1..];
      DiffersInRest(a, b);
    }
  }

  predicate Better(a: Endpoint, b: Endpoint) {
    a.lag < b.lag || (a.lag == b.lag && NameLess(a.pod, b.pod))
  }

  lemma {:induction false} NameLessTransitive(a: string, b: string, c: string)
    ensures !NameLess(a, b) && !NameLess(b, c) ==> !NameLess(a, c)
  {
    if a != [] && b != [] && c != [] {
      NameLessTransitive(a[1..], b[1..], c[1..]);
    }
  }

  lemma {:induction false} NameLessAntisymmetric(a: string, b: string)
    ensures !(NameLess(a, b) && NameLess(b, a))
  {
    if a != [] && b != [] { NameLessAntisymmetric(a[1..], b[1..]); }
  }

  /** The ready replica with the least lag, the first name deciding ties. */
  ghost predicate Best(replicas: seq<Endpoint>, best: Option<Endpoint>) {
    && (best.None? <==> forall e :: e in replicas ==> !e.ready)
    && (best.Some? ==> best.value in replicas && best.value.ready)
    && (best.Some? ==> forall e :: e in replicas && e.ready ==> !Better(e, best.value))
  }

  predicate Undercuts(p: Pod, q: Pod) {
    ReportedLag(p) < ReportedLag(q) || (ReportedLag(p) == ReportedLag(q) && NameLess(p.name, q.name))
  }

  /** A serving replica that no serving replica undercuts. */
  ghost predicate LeastBehind(fenced: set<string>, now: int, pods: seq<Pod>, i: int)
    requires 0 <= i < |pods|
  {
    var promoted := AnyPromoted(fenced, pods);
    && IsServing(fenced, promoted, now, pods[i])
    && forall j :: IsReplica(fenced, pods, j) && IsServing(fenced, promoted, now, pods[j])
                   ==> !Undercuts(pods[j], pods[i])
  }

  lemma BestServes(fenced: set<string>, now: int, pods: seq<Pod>, best: Endpoint, i: int)
    requires Best(Aggregated(fenced, now, pods).replicas, Some(best))
    requires IsReplica(fenced, pods, i) && Describes(fenced, AnyPromoted(fenced, pods), now, pods[i], best)
    ensures LeastBehind(fenced, now, pods, i)
  {
    forall j | IsReplica(fenced, pods, j) && IsServing(fenced, AnyPromoted(fenced, pods), now, pods[j])
      ensures !Undercuts(pods[j], pods[i])
    {
      EntryOfPod(fenced, now, pods, j);
      assert !Better(EndpointOf(fenced, AnyPromoted(fenced, pods), now, pods[j]), best);
    }
  }

  /** The candidate for promotion is, of the shard's serving pods other than its primary, one that no
      other undercuts in reported lag, nor in name at the same lag; there is none exactly when no
      such pod serves. */
  lemma CandidateIsLeastBehind(fenced: set<string>, now: int, pods: seq<Pod>, best: Option<Endpoint>)
    requires Best(Aggregated(fenced, now, pods).replicas, best)
    ensures best.None? <==>
      forall i :: IsReplica(fenced, pods, i) ==> !IsServing(fenced, AnyPromoted(fenced, pods), now, pods[i])
    ensures best.Some? ==>
      exists i :: IsReplica(fenced, pods, i) && best.value.pod == pods[i].name && LeastBehind(fenced, now, pods, i)
  {
    if best.Some? {
      var i := PodOfEntry(fenced, now, pods, best.value);
      BestServes(fenced, now, pods, best.value, i);
    } else {
      forall i | IsReplica(fenced, pods, i) ensures !IsServing(fenced, AnyPromoted(fenced, pods), now, pods[i]) {
        EntryOfPod(fenced, now, pods, i);
      }
    }
  }

  method SelectCandidate(replicas: seq<Endpoint>) returns (best: Option<Endpoint>)
    ensures Best(replicas, best)
  {
    best := None;
    for i := 0 to |replicas|
      invariant best.None? <==> forall e :: e in replicas[..i] ==> !e.ready
      invariant best.Some? ==> best.value in replicas[..i] && best.value.ready
      invariant best.Some? ==> forall e :: e in replicas[..i] && e.ready ==> !Better(e, best.value)
    {
      var r := replicas[i];
      ghost var seen := replicas[..i];
      assert replicas[..i + 1] == seen + [r];
      NameLessAntisymmetric(r.pod, r.pod);
      if r.ready {
        if best.None? || Better(r, best.value) {
          if best.Some? {
            forall e | e in seen && e.ready ensures !Better(e, r) {
              NameLessTransitive(e.pod, best.value.pod, r.pod);
              NameLessAntisymmetric(r.pod, best.value.pod);
            }
          }
          best := Some(r);
        }
      }
    }
    assert replicas[..|replicas|] == replicas;
  }
}
