/** Failover by promotion: the fences on the members' data volumes, the promotion that
moves them, the guard against promoting a fenced member, and what holds over any run of
attempts. */
module Promotion {
  import opened PodNames

  /** The data volumes of a namespace, each fenced or not. */
  type Fences = map<string, bool>

  /** Outcome of running the promotion command in the target's container. */
  datatype Exec = ExecError | Promoted | AlreadyPrimary

  /** The volumes after some API calls, whether all went through, and how many were made;
      `fails` numbers the calls that fail. */
  datatype Step = Step(fences: Fences, ok: bool, calls: nat)

  predicate Member(pod: string, volume: string) {
    MemberPrefix(StatefulSetOf(pod)) <= volume
  }

  function SetFence(f: Fences, volume: string, on: bool, fails: set<nat>, calls: nat): Step {
    if calls in fails then Step(f, false, calls + 1)
    else if volume !in f || f[volume] == on then Step(f, true, calls + 1)
    else if calls + 1 in fails then Step(f, false, calls + 2)
    else Step(f[volume := on], true, calls + 2)
  }

  function FenceOthers(f: Fences, pod: string, order: seq<string>, fails: set<nat>, calls: nat): Step
    requires forall v :: v in order ==> v in f
  {
    if order == [] then Step(f, true, calls)
    else
      var v := order[0];
      assert v in order;
      assert forall u :: u in order[1..] ==> u in order;
      if v == Volume(pod) || !Member(pod, v) || f[v] then FenceOthers(f, pod, order[1..], fails, calls)
      else if calls in fails then Step(f, false, calls + 1)
      else FenceOthers(f[v := true], pod, order[1..], fails, calls + 1)
  }

  /** The listing of the namespace's volumes. */
  ghost predicate Lists(order: seq<string>, f: Fences) {
    forall v :: v in order <==> v in f
  }

  /** One promotion of `pod`: unfence it, run the command, and after a real promotion fence
      every other member and record the new primary. */
  function Execute(f: Fences, pod: string, order: seq<string>, exec: Exec, fails: set<nat>, calls: nat): Step
    requires Lists(order, f)
  {
    if pod == "" then Step(f, false, calls)
    else
      var u := SetFence(f, Volume(pod), false, fails, calls);
      if !u.ok then u
      else if exec.ExecError? then Step(u.fences, false, u.calls)
      else if exec.AlreadyPrimary? then u
      else if StatefulSetOf(pod) == "" then Step(u.fences, false, u.calls)
      else if u.calls in fails then Step(u.fences, false, u.calls + 1)
      else
        var o := FenceOthers(u.fences, pod, order, fails, u.calls + 1);
        if !o.ok then o
        else if o.calls in fails then Step(o.fences, false, o.calls + 1)
        else Step(o.fences, o.calls + 1 !in fails, o.calls + 2)
  }

  /** What an attempt meets: the chosen candidate, the recorded primary, whether that
      primary is down before and after the promotion, whether the candidate accepts an
      exec, the command's outcome, whether the guard could list the volumes, the reported
      log positions, and the API calls that fail. */
  datatype Attempt = Attempt(
    candidate: string, former: string, formerDown: bool, formerStillDown: bool, candidateReady: bool, exec: Exec,
    guardListed: bool, wal: string -> int, fails: set<nat>)

  /** Deletes a failed primary's volume and pod, to be recreated from the new primary. */
  function Reseed(f: Fences, pod: string, fails: set<nat>, calls: nat): Step {
    if calls in fails then Step(f, false, calls + 1)
    else if Volume(pod) in f && calls + 1 in fails then Step(f, false, calls + 2)
    else Step(f - {Volume(pod)}, calls + 2 !in fails && calls + 3 !in fails, calls + 4)
  }

  function ClusterPromotion(f: Fences, a: Attempt, order: seq<string>): Step
    requires Lists(order, f)
  {
    var elsewhere := a.former != "" && a.former != a.candidate;
    var p := if elsewhere && a.formerDown then SetFence(f, Volume(a.former), true, a.fails, 0) else Step(f, true, 0);
    if !p.ok then p
    else if !a.candidateReady then Step(p.fences, false, p.calls)
    else
      var e := Execute(p.fences, a.candidate, order, a.exec, a.fails, p.calls);
      if e.ok && elsewhere && a.formerStillDown then Reseed(e.fences, a.former, a.fails, e.calls) else e
  }

  // ---------------------------------------------------------------------------
  // The same as the promoter runs it.

  class Promoter {
    var fences: Fences
    var calls: nat

    method Call(fails: set<nat>) returns (ok: bool)
      modifies this`calls
      ensures ok <==> old(calls) !in fails
      ensures calls == old(calls) + 1
    {
      ok := calls !in fails;
      calls := calls + 1;
    }

    method PatchFence(volume: string, on: bool, fails: set<nat>) returns (ok: bool)
      modifies this
      ensures Step(fences, ok, calls) == SetFence(old(fences), volume, on, fails, old(calls))
    {
      ok := Call(fails);
      if !ok || volume !in fences || fences[volume] == on { return; }
      ok := Call(fails);
      if ok { fences := fences[volume := on]; }
    }

    method FenceNonTargetMembers(pod: string, order: seq<string>, fails: set<nat>) returns (ok: bool)
      requires forall v :: v in order ==> v in fences
      modifies this
      ensures Step(fences, ok, calls) == FenceOthers(old(fences), pod, order, fails, old(calls))
    {
      ghost var whole := FenceOthers(fences, pod, order, fails, calls);
      for i := 0 to |order|
        invariant forall v :: v in order ==> v in fences
        invariant forall v :: v in order[i..] ==> v in fences
        invariant FenceOthers(fences, pod, order[i..], fails, calls) == whole
      {
        var v := order[i];
        assert order[i..][1..] == order[i + 1..] && v in order;
        if v == Volume(pod) || !Member(pod, v) || fences[v] { continue; }
        ok := Call(fails);
        if !ok { return; }
        fences := fences[v := true];
      }
      ok := true;
    }

    method Run(pod: string, order: seq<string>, exec: Exec, fails: set<nat>) returns (ok: bool)
      requires Lists(order, fences)
      modifies this
      ensures Step(fences, ok, calls) == Execute(old(fences), pod, order, exec, fails, old(calls))
    {
      if pod == "" { return false; }
      ok := PatchFence(Volume(pod), false, fails);
      if !ok { return; }
      if exec.ExecError? { return false; }
      if exec.AlreadyPrimary? { return; }
      if StatefulSetOf(pod) == "" { return false; }
      ok := Call(fails);
      if !ok { return; }
      ok := FenceNonTargetMembers(pod, order, fails);
      if !ok { return; }
      ok := Call(fails);
      if !ok { return; }
      ok := Call(fails);
    }

    method ReseedFormer(pod: string, fails: set<nat>) returns (ok: bool)
      modifies this
      ensures Step(fences, ok, calls) == Reseed(old(fences), pod, fails, old(calls))
    {
      ok := Call(fails);
      if !ok { return; }
      if Volume(pod) in fences && calls in fails {
        calls := calls + 1;
        return false;
      }
      fences := fences - {Volume(pod)};
      var found, gone := calls + 1 !in fails, calls + 2 !in fails;
      calls := calls + 3;
      ok := found && gone;
    }

    /** Fence a failed former primary, promote the candidate, then reseed the former primary
        if it is still down. */
    method PromoteCluster(a: Attempt, order: seq<string>) returns (ok: bool)
      requires Lists(order, fences) && calls == 0
      modifies this
      ensures Step(fences, ok, calls) == ClusterPromotion(old(fences), a, order)
    {
      var elsewhere := a.former != "" && a.former != a.candidate;
      if elsewhere && a.formerDown {
        ok := PatchFence(Volume(a.former), true, a.fails);
        if !ok { return; }
      }
      if !a.candidateReady { return false; }
      ok := Run(a.candidate, order, a.exec, a.fails);
      if ok && elsewhere && a.formerStillDown {
        ok := ReseedFormer(a.former, a.fails);
      }
    }
  }

  // ---------------------------------------------------------------------------
  // One promotion.

  /** Fencing the others fences members only, unfences nothing, and when it completes has
      fenced every listed member but the target. */
  lemma {:induction false} FenceOthersFacts(f: Fences, pod: string, order: seq<string>, fails: set<nat>, calls: nat)
    requires forall v :: v in order ==> v in f
    ensures var r := FenceOthers(f, pod, order, fails, calls);
      && r.fences.Keys == f.Keys
      && (forall v :: v in f && f[v] ==> r.fences[v])
      && (forall v :: v in f && r.fences[v] && !f[v] ==> Member(pod, v) && v != Volume(pod))
      && (r.ok ==> forall v :: v in order && Member(pod, v) && v != Volume(pod) ==> r.fences[v])
  {
    if order != [] {
      var v := order[0];
      assert v in order;
      assert forall u :: u in order <==> u == v || u in order[1..];
      if v == Volume(pod) || !Member(pod, v) || f[v] {
        FenceOthersFacts(f, pod, order[1..], fails, calls);
      } else if calls !in fails {
        FenceOthersFacts(f[v := true], pod, order[1..], fails, calls + 1);
      }
    }
  }

  /** Whatever fails, a promotion unfences no volume but its target's, and fences only
      other members of the target's StatefulSet, and those only after a real promotion. */
  lemma OnlyTargetIsUnfenced(f: Fences, pod: string, order: seq<string>, exec: Exec, fails: set<nat>, calls: nat)
    requires Lists(order, f)
    ensures var r := Execute(f, pod, order, exec, fails, calls);
      && r.fences.Keys == f.Keys
      && (forall v :: v in f && f[v] && !r.fences[v] ==> v == Volume(pod))
      && (forall v :: v in f && !f[v] && r.fences[v] ==> exec.Promoted? && Member(pod, v) && v != Volume(pod))
  {
    UnfenceFacts(f, pod, fails, calls);
    ExecuteShape(f, pod, order, exec, fails, calls);
    if exec.Promoted? {
      var u := SetFence(f, Volume(pod), false, fails, calls);
      FenceOthersFacts(u.fences, pod, order, fails, u.calls + 1);
    }
  }

  /** The volumes after a promotion are those before it, those with the target unfenced, or
      those with the others fenced too. */
  lemma ExecuteShape(f: Fences, pod: string, order: seq<string>, exec: Exec, fails: set<nat>, calls: nat)
    requires Lists(order, f)
    ensures var u := SetFence(f, Volume(pod), false, fails, calls);
      var r := Execute(f, pod, order, exec, fails, calls);
      && u.fences.Keys == f.Keys
      && (r.fences == f || r.fences == u.fences
          || (exec.Promoted? && r.fences == FenceOthers(u.fences, pod, order, fails, u.calls + 1).fences))
  {
  }

  lemma UnfenceFacts(f: Fences, pod: string, fails: set<nat>, calls: nat)
    ensures var u := SetFence(f, Volume(pod), false, fails, calls);
      && u.fences.Keys == f.Keys
      && (forall v :: v in f && v != Volume(pod) ==> u.fences[v] == f[v])
      && (forall v :: v in f && u.fences[v] ==> f[v])
  {
  }

  /** After a successful real promotion exactly the target is unfenced among the members,
      and no other volume of the namespace has changed. */
  lemma PromotionLeavesOneUnfenced(f: Fences, pod: string, order: seq<string>, fails: set<nat>, calls: nat)
    requires Lists(order, f) && Execute(f, pod, order, Promoted, fails, calls).ok
    ensures var r := Execute(f, pod, order, Promoted, fails, calls);
      && r.fences.Keys == f.Keys
      && forall v :: v in f ==> r.fences[v] == if v == Volume(pod) then false else Member(pod, v) || f[v]
  {
    var u := SetFence(f, Volume(pod), false, fails, calls);
    FenceOthersFacts(u.fences, pod, order, fails, u.calls + 1);
  }

  lemma {:induction false} FencedWithoutFailure(f: Fences, pod: string, order: seq<string>, fails: set<nat>, calls: nat)
    requires forall v :: v in order ==> v in f
    ensures var r := FenceOthers(f, pod, order, fails, calls);
      r.calls >= calls && (r.ok ==> forall i :: calls <= i < r.calls ==> i !in fails)
    decreases order
  {
    if order != [] {
      var v := order[0];
      assert v in order && forall u :: u in order[1..] ==> u in order;
      if v == Volume(pod) || !Member(pod, v) || f[v] {
        FencedWithoutFailure(f, pod, order[1..], fails, calls);
      } else if calls !in fails {
        FencedWithoutFailure(f[v := true], pod, order[1..], fails, calls + 1);
      }
    }
  }

  /** A promotion reports success only if none of its calls failed, recording the new primary
      included. */
  lemma SuccessHadNoFailure(f: Fences, pod: string, order: seq<string>, exec: Exec, fails: set<nat>, calls: nat)
    requires Lists(order, f) && Execute(f, pod, order, exec, fails, calls).ok
    ensures forall i :: calls <= i < Execute(f, pod, order, exec, fails, calls).calls ==> i !in fails
  {
    var u := SetFence(f, Volume(pod), false, fails, calls);
    FencedWithoutFailure(u.fences, pod, order, fails, u.calls + 1);
  }

  /** A promotion command that found its target primary already changes the target's fence
      and nothing else. */
  lemma NoOpPromotion(f: Fences, pod: string, order: seq<string>, fails: set<nat>, calls: nat)
    requires Lists(order, f) && Execute(f, pod, order, AlreadyPrimary, fails, calls).ok
    ensures Execute(f, pod, order, AlreadyPrimary, fails, calls).fences
      == if Volume(pod) in f then f[Volume(pod) := false] else f
  {
    if Volume(pod) in f && !f[Volume(pod)] { assert f[Volume(pod) := false] == f; }
  }

  /** Which volumes of its cluster a promotion fences: those of the promoted pod's own shard,
      and, if that shard is named, those of every named shard that extends its name with a
      dash. */
  lemma MembersAreShardPods(cluster: string, s: Shard, k: nat, t: Shard, l: nat)
    ensures Member(PodOf(SetOf(cluster, s), k), Volume(PodOf(SetOf(cluster, t), l))) <==>
      s == t || (s.Named? && t.Named? && s.id + "-" <= t.id)
  {
    StatefulSetRoundTrip(SetOf(cluster, s), k);
    SameClusterPrefix(cluster, s, t, l);
  }

  lemma {:induction false} UnfailedFencing(f: Fences, pod: string, order: seq<string>, calls: nat)
    requires forall v :: v in order ==> v in f
    ensures FenceOthers(f, pod, order, {}, calls).ok
    decreases order
  {
    if order != [] {
      assert order[0] in order && forall u :: u in order[1..] ==> u in order;
      UnfailedFencing(f, pod, order[1..], calls);
      UnfailedFencing(f[order[0] := true], pod, order[1..], calls + 1);
    }
  }

  lemma UnfailedExecution(f: Fences, pod: string, order: seq<string>)
    requires Lists(order, f) && StatefulSetOf(pod) != ""
    ensures Execute(f, pod, order, Promoted, {}, 0).ok
  {
    var u := SetFence(f, Volume(pod), false, {}, 0);
    UnfailedFencing(u.fences, pod, order, u.calls + 1);
  }

  /** Promoting a pod of shard "t1" fences the serving primary of shard "t1-b" of the same
      cluster. */
  lemma PromotionFencesSibling()
    ensures exists f: Fences, order: seq<string> ::
      var pod, other := PodOf(SetOf("demo", Named("t1")), 0), Volume(PodOf(SetOf("demo", Named("t1-b")), 0));
      && Lists(order, f) && other in f && !f[other]
      && Execute(f, pod, order, Promoted, {}, 0).ok
      && other in Execute(f, pod, order, Promoted, {}, 0).fences
      && Execute(f, pod, order, Promoted, {}, 0).fences[other]
  {
    var sts, pod, other :=
      SetOf("demo", Named("t1")), PodOf(SetOf("demo", Named("t1")), 0), Volume(PodOf(SetOf("demo", Named("t1-b")), 0));
    var f, order := map[Volume(pod) := true, other := false], [Volume(pod), other];
    assert "t1" + "-" <= "t1-b";
    MembersAreShardPods("demo", Named("t1"), 0, Named("t1-b"), 0);
    StatefulSetRoundTrip(sts, 0);
    SetLengths();
    assert Volume(pod) != other;
    assert Lists(order, f);
    UnfailedExecution(f, pod, order);
    PromotionLeavesOneUnfenced(f, pod, order, {}, 0);
  }

  lemma SetLengths()
    ensures |Volume(PodOf(SetOf("demo", Named("t1")), 0))| < |Volume(PodOf(SetOf("demo", Named("t1-b")), 0))|
  {
    assert |"t1"| < |"t1-b"|;
  }

  // ---------------------------------------------------------------------------
  // The guard: a fenced candidate is not promoted while another member is serving, unless
  // the candidate's write-ahead log is clearly ahead.

  const LEAD_BYTES: int := 0x4000_0000

  predicate Serving(f: Fences, pod: string, volume: string) {
    volume in f && Member(pod, volume) && !f[volume]
  }

  function PodOfVolume(volume: string): string {
    if |volume| < 5 then volume else volume[5..]
  }

  /** `wal` is the position each pod last reported, negative when unknown. */
  ghost predicate Leads(f: Fences, pod: string, wal: string -> int) {
    && wal(pod) >= 0
    && (exists v :: Serving(f, pod, v) && wal(PodOfVolume(v)) >= 0)
    && (forall v :: Serving(f, pod, v) ==> wal(PodOfVolume(v)) < 0 || wal(pod) - wal(PodOfVolume(v)) >= LEAD_BYTES)
  }

  ghost predicate Skips(f: Fences, pod: string, wal: string -> int) {
    && StatefulSetOf(pod) != ""
    && Volume(pod) in f && f[Volume(pod)]
    && (exists v :: Serving(f, pod, v))
    && !Leads(f, pod, wal)
  }

  lemma PodIsMember(pod: string)
    requires StatefulSetOf(pod) != ""
    ensures Member(pod, Volume(pod))
  {
    var i := LastIndex(pod, '-', |pod|);
    assert pod == pod[..i] + "-" + pod[i + 1..];
    assert Volume(pod) == MemberPrefix(StatefulSetOf(pod)) + pod[i + 1..];
  }

  /** Another pod of the candidate's StatefulSet whose volume is not fenced. */
  predicate Unfenced(f: Fences, pod: string, p: string) {
    Volume(p) in f && "data-" + StatefulSetOf(pod) + "-" <= Volume(p) && !f[Volume(p)]
  }

  /** The guard in full: a candidate is skipped exactly if it is a fenced member, some member is not
      fenced, and it does not clearly lead: its position is unknown, or that of every unfenced member
      is, or some unfenced member's known position is less than 2^30 bytes behind. */
  lemma SkipsExactlyIf(f: Fences, pod: string, wal: string -> int)
    ensures Skips(f, pod, wal) <==>
      && StatefulSetOf(pod) != "" && Volume(pod) in f && f[Volume(pod)]
      && (exists p :: Unfenced(f, pod, p))
      && (|| wal(pod) < 0
          || (forall p :: Unfenced(f, pod, p) ==> wal(p) < 0)
          || (exists p :: Unfenced(f, pod, p) && wal(p) >= 0 && wal(pod) - wal(p) < 1_073_741_824))
  {
    forall p ensures PodOfVolume(Volume(p)) == p && (Unfenced(f, pod, p) <==> Serving(f, pod, Volume(p))) {
      assert Volume(p)[5..] == p;
    }
    forall v | Serving(f, pod, v) ensures v == Volume(PodOfVolume(v)) {
      assert v[..5] == "data-" && v == v[..5] + v[5..];
    }
    forall v ensures Serving(f, pod, v) <==> v == Volume(PodOfVolume(v)) && Unfenced(f, pod, PodOfVolume(v)) { }
  }

  /** The scan of the volumes: is the candidate fenced, and which members are not. */
  method ScanMembers(f: Fences, pod: string, order: seq<string>) returns (fenced: bool, serving: seq<string>)
    requires Lists(order, f)
    ensures fenced <==> Volume(pod) in f && Member(pod, Volume(pod)) && f[Volume(pod)]
    ensures forall v :: v in serving <==> Serving(f, pod, v)
  {
    fenced, serving := false, [];
    for i := 0 to |order|
      invariant fenced <==> Volume(pod) in order[..i] && Member(pod, Volume(pod)) && f[Volume(pod)]
      invariant forall v :: v in serving <==> v in order[..i] && Serving(f, pod, v)
    {
      var v := order[i];
      assert v in order;
      assert forall u :: u in order[..i + 1] <==> u in order[..i] || u == v;
      if !Member(pod, v) { continue; }
      if v == Volume(pod) { fenced := f[v]; }
      if !f[v] { serving := serving + [v]; }
    }
    assert order[..|order|] == order;
  }

  /** Whether automatic promotion of `pod` is skipped. */
  method ShouldSkip(f: Fences, pod: string, order: seq<string>, wal: string -> int) returns (skip: bool)
    requires Lists(order, f)
    ensures skip <==> Skips(f, pod, wal)
  {
    if StatefulSetOf(pod) == "" { return false; }
    PodIsMember(pod);
    var fenced, serving := ScanMembers(f, pod, order);
    assert serving == [] ==> forall v :: !Serving(f, pod, v);
    assert serving != [] ==> Serving(f, pod, serving[0]);
    if !fenced || |serving| == 0 { return false; }
    if wal(pod) < 0 { return true; }
    var best := -1;
    for i := 0 to |serving|
      invariant best >= -1
      invariant forall j :: 0 <= j < i ==> wal(PodOfVolume(serving[j])) <= best
      invariant best >= 0 ==> exists v :: Serving(f, pod, v) && wal(PodOfVolume(v)) == best
    {
      assert serving[i] in serving;
      if wal(PodOfVolume(serving[i])) > best { best := wal(PodOfVolume(serving[i])); }
    }
    assert forall v :: Serving(f, pod, v) ==> wal(PodOfVolume(v)) <= best;
    if best < 0 { return true; }
    skip := wal(pod) - best < LEAD_BYTES;
  }

  // ---------------------------------------------------------------------------
  // One failover attempt of the cluster controller.

  ghost function FailoverAttempt(f: Fences, a: Attempt, order: seq<string>): Step
    requires Lists(order, f)
  {
    if a.guardListed && Skips(f, a.candidate, a.wal) then Step(f, false, 0)
    else ClusterPromotion(f, a, order)
  }

  lemma VolumesDiffer(p: string, q: string)
    requires p != q
    ensures Volume(p) != Volume(q)
  {
    assert Volume(p)[5..] == p && Volume(q)[5..] == q;
  }

  /** The failed primary that an attempt fences first. */
  predicate Prefences(a: Attempt) {
    a.former != "" && a.former != a.candidate && a.formerDown
  }

  /** A primary known to be down is fenced first. Unless that fails, and then nothing happens at all,
      it is fenced or its volume gone after the attempt, whatever becomes of the rest. */
  lemma FailedPrimaryIsFenced(f: Fences, a: Attempt, order: seq<string>)
    requires Lists(order, f) && Prefences(a) && Volume(a.former) in f
    ensures var r, v := ClusterPromotion(f, a, order), Volume(a.former);
      if 0 in a.fails || (!f[v] && 1 in a.fails) then r.fences == f && !r.ok
      else v in r.fences ==> r.fences[v]
  {
    var p := SetFence(f, Volume(a.former), true, a.fails, 0);
    assert p.fences.Keys == f.Keys;
    VolumesDiffer(a.former, a.candidate);
    OnlyTargetIsUnfenced(p.fences, a.candidate, order, a.exec, a.fails, p.calls);
  }

  /** What an attempt may do to a volume, whatever fails: unfence the candidate's, if the candidate
      accepts an exec; fence the failed primary's, and after a real promotion those of other members;
      delete the former primary's, after a promotion, if it is still down. */
  lemma AttemptTouches(f: Fences, a: Attempt, order: seq<string>, v: string)
    requires Lists(order, f) && v in f
    ensures var r := ClusterPromotion(f, a, order).fences;
      if v !in r then
        v == Volume(a.former) && a.former != "" && a.former != a.candidate && a.formerStillDown && a.candidateReady
        && !a.exec.ExecError?
      else
        && (f[v] && !r[v] ==> v == Volume(a.candidate) && a.candidateReady)
        && (!f[v] && r[v] ==>
              || (v == Volume(a.former) && Prefences(a))
              || (a.exec.Promoted? && a.candidateReady && Member(a.candidate, v) && v != Volume(a.candidate)))
  {
    var p := if Prefences(a) then SetFence(f, Volume(a.former), true, a.fails, 0) else Step(f, true, 0);
    assert p.fences.Keys == f.Keys;
    OnlyTargetIsUnfenced(p.fences, a.candidate, order, a.exec, a.fails, p.calls);
  }

  /** An undisturbed attempt succeeds exactly if there is a candidate that accepts an exec, the
      command does not fail, and, unless it changed nothing, the candidate's StatefulSet is known. */
  lemma PromotionSucceedsExactlyIf(f: Fences, a: Attempt, order: seq<string>)
    requires Lists(order, f) && a.fails == {}
    ensures ClusterPromotion(f, a, order).ok <==>
      && a.candidate != "" && a.candidateReady && !a.exec.ExecError?
      && (a.exec.AlreadyPrimary? || StatefulSetOf(a.candidate) != "")
  {
    var p := if Prefences(a) then SetFence(f, Volume(a.former), true, {}, 0) else Step(f, true, 0);
    assert p.ok && p.fences.Keys == f.Keys;
    var u := SetFence(p.fences, Volume(a.candidate), false, {}, p.calls);
    UnfailedFencing(u.fences, a.candidate, order, u.calls + 1);
  }

  /** No member is unfenced: the state that promotion of a fenced member must break. */
  ghost predicate AllFenced(f: Fences, pod: string) {
    forall v :: !Serving(f, pod, v)
  }

  /** Automatic failover unfences only its candidate, and a fenced candidate only when all
      members are fenced, the candidate's log leads every serving member's known position
      by at least 2^30 bytes, or the guard could not list the volumes. */
  lemma GuardedUnfence(f: Fences, a: Attempt, order: seq<string>, v: string)
    requires Lists(order, f) && StatefulSetOf(a.candidate) != ""
    requires v in f && f[v]
    requires v in FailoverAttempt(f, a, order).fences && !FailoverAttempt(f, a, order).fences[v]
    ensures v == Volume(a.candidate)
    ensures !a.guardListed || AllFenced(f, a.candidate) || Leads(f, a.candidate, a.wal)
  {
    var elsewhere := a.former != "" && a.former != a.candidate;
    var p := if elsewhere && a.formerDown then SetFence(f, Volume(a.former), true, a.fails, 0) else Step(f, true, 0);
    assert p.fences.Keys == f.Keys;
    OnlyTargetIsUnfenced(p.fences, a.candidate, order, a.exec, a.fails, p.calls);
  }

  /** After a successful attempt with a real promotion exactly the candidate is unfenced
      among the members, and the failed old primary's volume is gone if it is still down. */
  lemma FailoverLeavesOneUnfenced(f: Fences, a: Attempt, order: seq<string>)
    requires Lists(order, f) && FailoverAttempt(f, a, order).ok && a.exec.Promoted?
    ensures var r := FailoverAttempt(f, a, order).fences;
      && (forall v :: v in r && Member(a.candidate, v) ==> (!r[v] <==> v == Volume(a.candidate)))
      && r.Keys == (if a.former != "" && a.former != a.candidate && a.formerStillDown then f.Keys - {Volume(a.former)}
                    else f.Keys)
  {
    var elsewhere := a.former != "" && a.former != a.candidate;
    var p := if elsewhere && a.formerDown then SetFence(f, Volume(a.former), true, a.fails, 0) else Step(f, true, 0);
    assert p.fences.Keys == f.Keys;
    PromotionLeavesOneUnfenced(p.fences, a.candidate, order, a.fails, p.calls);
  }

  // ---------------------------------------------------------------------------
  // Any run of attempts in a namespace, seen from one StatefulSet.

  /** `exposed` are the volumes that may be unfenced: the last promoted member, pods tried
      since without success or of other shards, and volumes created since. */
  datatype Record = Record(fences: Fences, exposed: set<string>)

  datatype Move =
    | Try(attempt: Attempt, order: seq<string>)
    | Switch(pod: string, order: seq<string>, exec: Exec, fails: set<nat>)
    | CreateVolume(volume: string)

  /** The record after `pod` was tried with the given result. */
  function Tried(sts: string, s: Record, pod: string, exec: Exec, r: Step): Record {
    var settled := r.ok && exec.Promoted? && StatefulSetOf(pod) == sts;
    Record(r.fences, if settled then {Volume(pod)} else s.exposed + {Volume(pod)})
  }

  /** A failover attempt on any shard, a requested switchover to any pod, which has no guard,
      or a new volume. */
  ghost function Next(sts: string, s: Record, m: Move): Record {
    match m
    case Try(a, order) =>
      if !Lists(order, s.fences) then s else Tried(sts, s, a.candidate, a.exec, FailoverAttempt(s.fences, a, order))
    case Switch(pod, order, exec, fails) =>
      if !Lists(order, s.fences) then s else Tried(sts, s, pod, exec, Execute(s.fences, pod, order, exec, fails, 0))
    case CreateVolume(v) => if v in s.fences then s else Record(s.fences[v := false], s.exposed + {v})
  }

  ghost function Run(sts: string, s: Record, moves: seq<Move>): Record {
    if moves == [] then s else Next(sts, Run(sts, s, moves[..|moves| - 1]), moves[|moves| - 1])
  }

  ghost predicate Contained(sts: string, s: Record) {
    forall v :: v in s.fences && MemberPrefix(sts) <= v && !s.fences[v] ==> v in s.exposed
  }

  lemma NextContained(sts: string, s: Record, m: Move)
    requires Contained(sts, s)
    ensures Contained(sts, Next(sts, s, m))
  {
    match m
    case Try(a, order) =>
      if Lists(order, s.fences) {
        AttemptUnfencesCandidateOnly(s.fences, a, order);
        if FailoverAttempt(s.fences, a, order).ok && a.exec.Promoted? { FailoverLeavesOneUnfenced(s.fences, a, order); }
      }
    case Switch(pod, order, exec, fails) =>
      if Lists(order, s.fences) { SwitchContained(sts, s, pod, order, exec, fails); }
    case CreateVolume(_) =>
  }

  lemma SwitchContained(sts: string, s: Record, pod: string, order: seq<string>, exec: Exec, fails: set<nat>)
    requires Contained(sts, s) && Lists(order, s.fences)
    ensures Contained(sts, Tried(sts, s, pod, exec, Execute(s.fences, pod, order, exec, fails, 0)))
  {
    OnlyTargetIsUnfenced(s.fences, pod, order, exec, fails, 0);
    if exec.Promoted? && Execute(s.fences, pod, order, exec, fails, 0).ok {
      PromotionLeavesOneUnfenced(s.fences, pod, order, fails, 0);
    }
  }

  lemma AttemptUnfencesCandidateOnly(f: Fences, a: Attempt, order: seq<string>)
    requires Lists(order, f)
    ensures var r := FailoverAttempt(f, a, order).fences;
      forall v :: v in r && !r[v] && v != Volume(a.candidate) ==> v in f && !f[v]
  {
    var elsewhere := a.former != "" && a.former != a.candidate;
    var p := if elsewhere && a.formerDown then SetFence(f, Volume(a.former), true, a.fails, 0) else Step(f, true, 0);
    assert p.fences.Keys == f.Keys;
    OnlyTargetIsUnfenced(p.fences, a.candidate, order, a.exec, a.fails, p.calls);
  }

  /** Over any run of attempts and switchovers in the namespace, whatever fails in them, a
      member is unfenced only if it was promoted last, tried since, or its volume was created
      since. */
  lemma {:induction false} UnfencedAreAccounted(sts: string, s: Record, moves: seq<Move>)
    requires Contained(sts, s)
    ensures Contained(sts, Run(sts, s, moves))
  {
    if moves != [] {
      UnfencedAreAccounted(sts, s, moves[..|moves| - 1]);
      NextContained(sts, Run(sts, s, moves[..|moves| - 1]), moves[|moves| - 1]);
    }
  }
}
