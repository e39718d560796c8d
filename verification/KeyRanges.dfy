/** Key ranges of one keyspace and the routing merge of a shard split.

A ShardRange lists closed intervals of vindex positions, each naming a shard. A
position is routed to the shard of the first interval that covers it. A split
removes the intervals of its source shards and appends those of its targets. */
module KeyRanges {
  import opened Basics

  type ShardId = string

  /** One closed interval [lo, hi] of vindex positions and the shard serving it. */
  datatype Entry = Entry(lo: int, hi: int, shard: ShardId)

  /** One target shard of a split and the intervals it is to serve. */
  datatype Target = Target(shardId: ShardId, ranges: seq<Entry>)

  predicate Covers(e: Entry, p: int) {
    e.lo <= p <= e.hi
  }

  /** The shard of the first entry that covers `p`. */
  function Resolve(ranges: seq<Entry>, p: int): Option<ShardId> {
    if ranges == [] then None
    else if Covers(ranges[0], p) then Some(ranges[0].shard)
    else Resolve(ranges[1..], p)
  }

  /** The router's search through the ranges. */
  method ResolveShard(ranges: seq<Entry>, p: int) returns (r: Option<ShardId>)
    ensures r == Resolve(ranges, p)
  {
    for i := 0 to |ranges|
      invariant Resolve(ranges, p) == Resolve(ranges[i..], p)
    {
      if ranges[i].lo <= p <= ranges[i].hi { return Some(ranges[i].shard); }
      assert ranges[i..][1..] == ranges[i + 1..];
    }
    return None;
  }

  /** Shard `s` has an entry covering `p`: the position-to-shard relation of the list. */
  ghost predicate Owns(ranges: seq<Entry>, s: ShardId, p: int) {
    exists e :: e in ranges && Covers(e, p) && e.shard == s
  }

  /** A position is routed exactly when some entry covers it, and then to an owner of it. */
  lemma {:induction false} ResolveFacts(ranges: seq<Entry>, p: int)
    ensures Resolve(ranges, p).None? <==> forall e | e in ranges :: !Covers(e, p)
    ensures Resolve(ranges, p).Some? ==> Owns(ranges, Resolve(ranges, p).value, p)
  {
    if ranges != [] {
      assert ranges[0] in ranges;
      assert forall e | e in ranges :: e == ranges[0] || e in ranges[1..];
      ResolveFacts(ranges[1..], p);
    }
  }

  /** Two lists route alike and have the same position-to-shard relation. */
  ghost predicate SameRelation(a: seq<Entry>, b: seq<Entry>) {
    && (forall p :: Resolve(a, p) == Resolve(b, p))
    && (forall s, p :: Owns(a, s, p) <==> Owns(b, s, p))
  }

  function FlattenTargets(targets: seq<Target>): seq<Entry> {
    if targets == [] then [] else targets[0].ranges + FlattenTargets(targets[1..])
  }

  function KeepOthers(existing: seq<Entry>, sources: seq<ShardId>): seq<Entry> {
    if existing == [] then []
    else (if existing[0].shard in sources then [] else [existing[0]]) + KeepOthers(existing[1..], sources)
  }

  /** The list after the routing merge. */
  function Merged(existing: seq<Entry>, sources: seq<ShardId>, targets: seq<Target>): seq<Entry> {
    KeepOthers(existing, sources) + FlattenTargets(targets)
  }

  /** The list after `n` applications of the merge (a replay repeats it). */
  function Replayed(existing: seq<Entry>, sources: seq<ShardId>, targets: seq<Target>, n: nat): seq<Entry> {
    if n == 0 then existing else Merged(Replayed(existing, sources, targets, n - 1), sources, targets)
  }

  // ---------------------------------------------------------------------------
  // The merge as the controller runs it: a removal set, then two appending loops.

  method FlattenTargetRanges(targets: seq<Target>) returns (out: seq<Entry>)
    ensures out == FlattenTargets(targets)
  {
    out := [];
    for i := 0 to |targets|
      invariant out + FlattenTargets(targets[i..]) == FlattenTargets(targets)
    {
      out := out + targets[i].ranges;
      assert targets[i..][1..] == targets[i + 1..];
    }
  }

  method MergeSplitRanges(existing: seq<Entry>, sources: seq<ShardId>, targets: seq<Target>)
    returns (out: seq<Entry>)
    ensures out == Merged(existing, sources, targets)
  {
    var removed: set<ShardId> := {};
    for i := 0 to |sources|
      invariant removed == set j | 0 <= j < i :: sources[j]
    {
      removed := removed + {sources[i]};
    }
    assert forall s :: s in removed <==> s in sources;
    out := [];
    for i := 0 to |existing|
      invariant out + KeepOthers(existing[i..], sources) == KeepOthers(existing, sources)
    {
      assert existing[i..][1..] == existing[i + 1..];
      if existing[i].shard !in removed {
        out := out + [existing[i]];
      }
    }
    var flat := FlattenTargetRanges(targets);
    out := out + flat;
  }

  // ---------------------------------------------------------------------------
  // What the merge does to routing.

  lemma {:induction false} KeepOthersMembers(existing: seq<Entry>, sources: seq<ShardId>)
    ensures forall e :: e in KeepOthers(existing, sources) <==> e in existing && e.shard !in sources
  {
    if existing != [] {
      KeepOthersMembers(existing[1..], sources);
      assert forall e :: e in existing <==> e == existing[0] || e in existing[1..];
    }
  }

  lemma {:induction false} FlattenMembers(targets: seq<Target>)
    ensures forall e :: e in FlattenTargets(targets) <==> exists t :: t in targets && e in t.ranges
  {
    if targets != [] {
      FlattenMembers(targets[1..]);
      assert forall t :: t in targets <==> t == targets[0] || t in targets[1..];
      forall e ensures e in FlattenTargets(targets) <==> exists t :: t in targets && e in t.ranges {
        if e in targets[0].ranges { assert targets[0] in targets; }
      }
    }
  }

  lemma {:induction false} ResolveConcat(a: seq<Entry>, b: seq<Entry>, p: int)
    ensures Resolve(a + b, p) == if Resolve(a, p).Some? then Resolve(a, p) else Resolve(b, p)
  {
    if a == [] {
      assert a + b == b;
    } else {
      ResolveConcat(a[1..], b, p);
      assert (a + b)[1..] == a[1..] + b;
    }
  }

  /** When a kept entry covers `p` first in the old list, it still does after filtering. */
  lemma {:induction false} ResolveKept(existing: seq<Entry>, sources: seq<ShardId>, p: int)
    ensures Resolve(existing, p).Some? && Resolve(existing, p).value !in sources
      ==> Resolve(KeepOthers(existing, sources), p) == Resolve(existing, p)
  {
    if existing != [] {
      ResolveKept(existing[1..], sources, p);
      ResolveConcat(if existing[0].shard in sources then [] else [existing[0]],
                    KeepOthers(existing[1..], sources), p);
    }
  }

  /** The relation after the merge, for every list and every target plan. */
  lemma MergedOwns(existing: seq<Entry>, sources: seq<ShardId>, targets: seq<Target>, s: ShardId, p: int)
    ensures Owns(Merged(existing, sources, targets), s, p)
      <==> (s !in sources && Owns(existing, s, p)) || Owns(FlattenTargets(targets), s, p)
  {
    KeepOthersMembers(existing, sources);
    var merged := Merged(existing, sources, targets);
    assert forall e :: e in merged <==>
      (e in existing && e.shard !in sources) || e in FlattenTargets(targets);
  }

  /** Filtering a filtered list again changes nothing. */
  lemma {:induction false} KeepOthersConcat(a: seq<Entry>, b: seq<Entry>, sources: seq<ShardId>)
    ensures KeepOthers(a + b, sources) == KeepOthers(a, sources) + KeepOthers(b, sources)
  {
    if a == [] {
      assert a + b == b;
    } else {
      KeepOthersConcat(a[1..], b, sources);
      assert (a + b)[1..] == a[1..] + b && (a + b)[0] == a[0];
      Regroup(if a[0].shard in sources then [] else [a[0]], KeepOthers(a[1..], sources), KeepOthers(b, sources));
    }
  }

  lemma {:induction false} KeepOthersTwice(a: seq<Entry>, sources: seq<ShardId>)
    ensures KeepOthers(KeepOthers(a, sources), sources) == KeepOthers(a, sources)
  {
    if a != [] {
      KeepOthersTwice(a[1..], sources);
      KeepOthersConcat(if a[0].shard in sources then [] else [a[0]], KeepOthers(a[1..], sources), sources);
    }
  }

  /** At most one entry covers any position. */
  ghost predicate NoOverlap(ranges: seq<Entry>) {
    forall i, j, p :: 0 <= i < |ranges| && 0 <= j < |ranges| && Covers(ranges[i], p) && Covers(ranges[j], p)
      ==> i == j
  }

  /** No position has two owners; entries may overlap only within a shard, as they do after a
      replayed merge. */
  ghost predicate OneOwner(ranges: seq<Entry>) {
    forall e, f, p :: e in ranges && f in ranges && Covers(e, p) && Covers(f, p) ==> e.shard == f.shard
  }

  lemma NoOverlapOneOwner(ranges: seq<Entry>)
    requires NoOverlap(ranges)
    ensures OneOwner(ranges)
  {
    forall e, f, p | e in ranges && f in ranges && Covers(e, p) && Covers(f, p) ensures e.shard == f.shard {
      var i :| 0 <= i < |ranges| && ranges[i] == e;
      var j :| 0 <= j < |ranges| && ranges[j] == f;
      assert Covers(ranges[i], p) && Covers(ranges[j], p);
    }
  }

  /** With one owner per position the relation is a function, and routing is that function. */
  lemma OwnsIsResolve(ranges: seq<Entry>, s: ShardId, p: int)
    requires OneOwner(ranges)
    ensures Owns(ranges, s, p) <==> Resolve(ranges, p) == Some(s)
  {
    ResolveFacts(ranges, p);
    if Owns(ranges, s, p) {
      var e :| e in ranges && Covers(e, p) && e.shard == s;
      assert Owns(ranges, Resolve(ranges, p).value, p);
      var f :| f in ranges && Covers(f, p) && f.shard == Resolve(ranges, p).value;
    }
  }

  /** Replaying the merge appends the target entries again and leaves both the routing and
      the relation as they were, for every old list and every plan with one owner per
      position. */
  lemma MergeReplay(existing: seq<Entry>, sources: seq<ShardId>, targets: seq<Target>)
    requires OneOwner(FlattenTargets(targets))
    ensures SameRelation(Merged(Merged(existing, sources, targets), sources, targets),
                         Merged(existing, sources, targets))
  {
    var flat := FlattenTargets(targets);
    var kept := KeepOthers(existing, sources);
    var once := Merged(existing, sources, targets);
    var twice := Merged(once, sources, targets);
    var again := KeepOthers(flat, sources);
    KeepOthersConcat(kept, flat, sources);
    KeepOthersTwice(existing, sources);
    assert twice == (kept + again) + flat;
    forall p ensures Resolve(twice, p) == Resolve(once, p) {
      ResolveConcat(kept + again, flat, p);
      ResolveConcat(kept, again, p);
      ResolveConcat(kept, flat, p);
      if Resolve(again, p).Some? {
        ResolveFacts(again, p);
        KeepOthersMembers(flat, sources);
        assert Owns(flat, Resolve(again, p).value, p);
        OwnsIsResolve(flat, Resolve(again, p).value, p);
      }
    }
    forall s, p ensures Owns(twice, s, p) <==> Owns(once, s, p) {
      MergedOwns(once, sources, targets, s, p);
      MergedOwns(existing, sources, targets, s, p);
    }
  }

  /** Any number of replays has the relation of one merge. */
  lemma {:induction false} ReplaysRouteAlike(existing: seq<Entry>, sources: seq<ShardId>, targets: seq<Target>, n: nat)
    requires OneOwner(FlattenTargets(targets))
    requires n > 0
    ensures SameRelation(Replayed(existing, sources, targets, n), Merged(existing, sources, targets))
  {
    if n > 1 {
      ReplaysRouteAlike(existing, sources, targets, n - 1);
      assert Replayed(existing, sources, targets, n - 1)
        == Merged(Replayed(existing, sources, targets, n - 2), sources, targets);
      MergeReplay(Replayed(existing, sources, targets, n - 2), sources, targets);
    } else {
      assert Replayed(existing, sources, targets, 0) == existing;
    }
  }

  /** The targets serve exactly the positions of the source, each position by one of them. */
  ghost predicate Tiles(existing: seq<Entry>, source: ShardId, targets: seq<Target>) {
    OneOwner(FlattenTargets(targets)) && CoversSource(existing, source, FlattenTargets(targets))
  }

  /** The plan covers the positions of the source and no others. */
  ghost predicate CoversSource(existing: seq<Entry>, source: ShardId, plan: seq<Entry>) {
    forall p :: Resolve(existing, p) == Some(source) <==> Resolve(plan, p).Some?
  }

  /** Routing after the merge of a tiling plan: source positions go to the plan's shard, all
      others stay where they were. */
  lemma MergeRoutes(existing: seq<Entry>, source: ShardId, targets: seq<Target>, p: int)
    requires OneOwner(existing) && Tiles(existing, source, targets)
    ensures Resolve(Merged(existing, [source], targets), p)
      == if Resolve(existing, p) == Some(source) then Resolve(FlattenTargets(targets), p)
         else Resolve(existing, p)
  {
    var kept := KeepOthers(existing, [source]);
    ResolveConcat(kept, FlattenTargets(targets), p);
    KeepOthersMembers(existing, [source]);
    ResolveFacts(kept, p);
    if Resolve(kept, p).Some? {
      OwnsIsResolve(existing, Resolve(kept, p).value, p);
    }
    ResolveKept(existing, [source], p);
  }

  ghost predicate SameCoverage(a: seq<Entry>, b: seq<Entry>) {
    forall p :: Resolve(a, p).Some? <==> Resolve(b, p).Some?
  }

  /** No position is lost or gained, and none has two entries. */
  ghost predicate KeepsPartition(before: seq<Entry>, after: seq<Entry>) {
    NoOverlap(after) && SameCoverage(before, after)
  }

  /** A merge keeps one owner per position and loses or gains no position exactly when the plan
      tiles the source, for targets whose names are new. */
  lemma MergeKeepsOwners(existing: seq<Entry>, source: ShardId, targets: seq<Target>)
    requires OneOwner(existing)
    requires forall e, f :: e in existing && f in FlattenTargets(targets) ==> e.shard != f.shard
    ensures OneOwner(Merged(existing, [source], targets)) && SameCoverage(existing, Merged(existing, [source], targets))
      <==> Tiles(existing, source, targets)
  {
    var merged := Merged(existing, [source], targets);
    KeepOthersMembers(existing, [source]);
    if Tiles(existing, source, targets) {
      forall e, f, p | e in merged && f in merged && Covers(e, p) && Covers(f, p) ensures e.shard == f.shard {
        TiledApart(existing, source, targets, p);
      }
      forall p ensures Resolve(existing, p).Some? <==> Resolve(merged, p).Some? {
        MergeRoutes(existing, source, targets, p);
      }
    }
    if OneOwner(merged) && SameCoverage(existing, merged) {
      forall p ensures Resolve(existing, p) == Some(source) <==> Resolve(FlattenTargets(targets), p).Some? {
        CoveredIsTiled(existing, source, targets, p);
      }
    }
  }

  /** At `p` the plan and the entries of other shards do not meet. */
  ghost predicate Apart(existing: seq<Entry>, source: ShardId, plan: seq<Entry>, p: int) {
    forall k, f :: k in existing && k.shard != source && f in plan ==> !Covers(k, p) || !Covers(f, p)
  }

  /** Where a tiling plan covers, no kept entry does. */
  lemma TiledApart(existing: seq<Entry>, source: ShardId, targets: seq<Target>, p: int)
    requires OneOwner(existing) && Tiles(existing, source, targets)
    ensures Apart(existing, source, FlattenTargets(targets), p)
  {
    forall k, f | k in existing && k.shard != source && f in FlattenTargets(targets)
      ensures !Covers(k, p) || !Covers(f, p)
    {
      KeptAndTargetApart(existing, source, targets, k, f, p);
    }
  }

  lemma CoveredIsTiled(existing: seq<Entry>, source: ShardId, targets: seq<Target>, p: int)
    requires OneOwner(existing)
    requires var merged := Merged(existing, [source], targets);
      && (Resolve(existing, p).Some? <==> Resolve(merged, p).Some?)
      && Apart(existing, source, FlattenTargets(targets), p)
    ensures Resolve(existing, p) == Some(source) <==> Resolve(FlattenTargets(targets), p).Some?
  {
    var kept, flat := KeepOthers(existing, [source]), FlattenTargets(targets);
    ResolveConcat(kept, flat, p);
    ResolveFacts(existing, p);
    ResolveFacts(kept, p);
    ResolveFacts(flat, p);
    KeepOthersMembers(existing, [source]);
    if Resolve(kept, p).Some? { OwnsIsResolve(existing, Resolve(kept, p).value, p); }
    ResolveKept(existing, [source], p);
  }

  /** A partition stays one exactly when the plan is a partition of the source's positions:
      otherwise some position has lost its shard, gained one, or has two entries. */
  lemma MergeKeepsPartition(existing: seq<Entry>, source: ShardId, targets: seq<Target>)
    requires NoOverlap(existing)
    ensures KeepsPartition(existing, Merged(existing, [source], targets))
      <==> NoOverlap(FlattenTargets(targets)) && Tiles(existing, source, targets)
  {
    NoOverlapOneOwner(existing);
    var merged := Merged(existing, [source], targets);
    if NoOverlap(FlattenTargets(targets)) && Tiles(existing, source, targets) {
      TilingKeepsPartition(existing, source, targets);
    }
    if KeepsPartition(existing, merged) {
      PartsNoOverlap(KeepOthers(existing, [source]), FlattenTargets(targets));
      NoOverlapOneOwner(FlattenTargets(targets));
      KeepOthersMembers(existing, [source]);
      forall p ensures Resolve(existing, p) == Some(source) <==> Resolve(FlattenTargets(targets), p).Some? {
        CoveredIsTiled(existing, source, targets, p);
      }
    }
  }

  /** Of a concatenation without overlaps, the parts have none and are apart. */
  lemma PartsNoOverlap(a: seq<Entry>, b: seq<Entry>)
    requires NoOverlap(a + b)
    ensures NoOverlap(b)
    ensures forall e, f, p :: e in a && f in b ==> !Covers(e, p) || !Covers(f, p)
  {
    var s := a + b;
    forall i, j, p | 0 <= i < |b| && 0 <= j < |b| && Covers(b[i], p) && Covers(b[j], p) ensures i == j {
      assert s[|a| + i] == b[i] && s[|a| + j] == b[j];
    }
    forall e, f, p | e in a && f in b && Covers(e, p) ensures !Covers(f, p) {
      var i :| 0 <= i < |a| && a[i] == e;
      var j :| 0 <= j < |b| && b[j] == f;
      assert s[i] == e && s[|a| + j] == f;
    }
  }

  lemma TilingKeepsPartition(existing: seq<Entry>, source: ShardId, targets: seq<Target>)
    requires NoOverlap(existing) && NoOverlap(FlattenTargets(targets)) && Tiles(existing, source, targets)
    ensures KeepsPartition(existing, Merged(existing, [source], targets))
  {
    NoOverlapOneOwner(existing);
    var kept := KeepOthers(existing, [source]);
    var flat := FlattenTargets(targets);
    var merged := kept + flat;
    KeepOthersNoOverlap(existing, [source]);
    KeepOthersMembers(existing, [source]);
    forall i, j, p | 0 <= i < |merged| && 0 <= j < |merged| && Covers(merged[i], p) && Covers(merged[j], p)
      ensures i == j
    {
      if i < |kept| <= j {
        KeptAndTargetApart(existing, source, targets, kept[i], flat[j - |kept|], p);
      } else if j < |kept| <= i {
        KeptAndTargetApart(existing, source, targets, kept[j], flat[i - |kept|], p);
      } else if |kept| <= i {
        assert merged[i] == flat[i - |kept|] && merged[j] == flat[j - |kept|];
      }
    }
    forall p ensures Resolve(existing, p).Some? <==> Resolve(merged, p).Some? {
      MergeRoutes(existing, source, targets, p);
    }
  }

  lemma KeptAndTargetApart(existing: seq<Entry>, source: ShardId, targets: seq<Target>, k: Entry, f: Entry, p: int)
    requires OneOwner(existing) && Tiles(existing, source, targets)
    requires k in existing && k.shard != source && f in FlattenTargets(targets)
    ensures !(Covers(k, p) && Covers(f, p))
  {
    OwnsIsResolve(existing, k.shard, p);
    ResolveFacts(FlattenTargets(targets), p);
    assert Covers(k, p) ==> Owns(existing, k.shard, p);
  }

  /** After any number of merges of a tiling plan every position still has one owner: the list
      is fit for the next split. */
  lemma ReplayedOneOwner(existing: seq<Entry>, source: ShardId, targets: seq<Target>, n: nat)
    requires OneOwner(existing) && Tiles(existing, source, targets)
    requires forall e, f :: e in existing && f in FlattenTargets(targets) ==> e.shard != f.shard
    ensures OneOwner(Replayed(existing, [source], targets, n))
  {
    if n > 0 {
      MergeKeepsOwners(existing, source, targets);
      ReplaysRouteAlike(existing, [source], targets, n);
      SameRelationOneOwner(Merged(existing, [source], targets), Replayed(existing, [source], targets, n));
    }
  }

  lemma SameRelationOneOwner(a: seq<Entry>, b: seq<Entry>)
    requires OneOwner(a) && SameRelation(b, a)
    ensures OneOwner(b)
  {
    forall e, f, p | e in b && f in b && Covers(e, p) && Covers(f, p) ensures e.shard == f.shard {
      assert Owns(b, e.shard, p) && Owns(b, f.shard, p);
      OwnsIsResolve(a, e.shard, p);
      OwnsIsResolve(a, f.shard, p);
    }
  }

  lemma {:induction false} KeepOthersNoOverlap(existing: seq<Entry>, sources: seq<ShardId>)
    requires NoOverlap(existing)
    ensures NoOverlap(KeepOthers(existing, sources))
  {
    if existing != [] {
      var rest := existing[1..];
      assert NoOverlap(rest) by {
        forall i, j, p | 0 <= i < |rest| && 0 <= j < |rest| && Covers(rest[i], p) && Covers(rest[j], p) ensures i == j {
          assert rest[i] == existing[i + 1] && rest[j] == existing[j + 1];
        }
      }
      KeepOthersNoOverlap(rest, sources);
      KeepOthersMembers(rest, sources);
      if existing[0].shard !in sources {
        var tail := KeepOthers(rest, sources);
        var kept := [existing[0]] + tail;
        forall i, j, p | 0 <= i < |kept| && 0 <= j < |kept| && Covers(kept[i], p) && Covers(kept[j], p) ensures i == j {
          if i == 0 < j { HeadApart(existing, kept[j], p); } else if j == 0 < i { HeadApart(existing, kept[i], p); }
        }
        assert KeepOthers(existing, sources) == kept;
      } else {
        assert KeepOthers(existing, sources) == KeepOthers(rest, sources);
      }
    }
  }

  lemma HeadApart(existing: seq<Entry>, e: Entry, p: int)
    requires existing != [] && NoOverlap(existing) && e in existing[1..]
    ensures !(Covers(existing[0], p) && Covers(e, p))
  {
    var i :| 0 < i < |existing| && existing[i] == e;
  }
}
