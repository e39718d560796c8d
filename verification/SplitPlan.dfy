/** The split-plan gate of a ShardSplitJob and the plans that AutoSplit computes. */
module SplitPlan {
  import opened Basics
  import opened KeyRanges

  datatype Span = Span(lo: int, hi: int)
  datatype PlanError = EmptyList | Inverted | OverlapFound | GapFound | CoverageDiffers
  datatype PlanResult = Accepted(span: Span) | Rejected(error: PlanError)

  /** Stable insertion by lower bound. */
  function InsertByLo(e: Entry, sorted: seq<Entry>): seq<Entry> {
    if sorted == [] || e.lo < sorted[0].lo then [e] + sorted
    else [sorted[0]] + InsertByLo(e, sorted[1..])
  }

  /** The list ordered by lower bound, equal bounds in their original order. */
  function SortByLo(ranges: seq<Entry>): seq<Entry> {
    if ranges == [] then [] else InsertByLo(ranges[|ranges| - 1], SortByLo(ranges[..|ranges| - 1]))
  }

  ghost predicate SortedByLo(s: seq<Entry>) {
    forall i, j :: 0 <= i < j < |s| ==> s[i].lo <= s[j].lo
  }

  lemma InsertedFollow(first: Entry, s: seq<Entry>, e: Entry, rest: seq<Entry>)
    requires multiset(rest) == multiset(s) + multiset{e} && first.lo <= e.lo
    requires forall k :: 0 <= k < |s| ==> first.lo <= s[k].lo
    ensures forall k :: 0 <= k < |rest| ==> first.lo <= rest[k].lo
  {
    forall k | 0 <= k < |rest| ensures first.lo <= rest[k].lo {
      assert rest[k] in multiset(rest);
      assert rest[k] == e || rest[k] in s;
    }
  }

  lemma PrependSorted(e: Entry, s: seq<Entry>)
    requires SortedByLo(s) && forall k :: 0 <= k < |s| ==> e.lo <= s[k].lo
    ensures SortedByLo([e] + s)
  {
  }

  lemma {:induction false} InsertSorts(e: Entry, s: seq<Entry>)
    requires SortedByLo(s)
    ensures SortedByLo(InsertByLo(e, s))
    ensures multiset(InsertByLo(e, s)) == multiset(s) + multiset{e}
  {
    if s == [] || e.lo < s[0].lo {
    } else {
      InsertSorts(e, s[1..]);
      var rest := InsertByLo(e, s[1..]);
      assert s == [s[0]] + s[1..];
      InsertedFollow(s[0], s[1..], e, rest);
      PrependSorted(s[0], rest);
      assert multiset([s[0]] + rest) == multiset{s[0]} + multiset(rest);
    }
  }

  lemma {:induction false} SortSorts(ranges: seq<Entry>)
    ensures SortedByLo(SortByLo(ranges))
    ensures multiset(SortByLo(ranges)) == multiset(ranges)
  {
    if ranges != [] {
      var n := |ranges| - 1;
      SortSorts(ranges[..n]);
      InsertSorts(ranges[n], SortByLo(ranges[..n]));
      assert ranges == ranges[..n] + [ranges[n]];
    }
  }

  /** What is wrong with entry `i` of a list ordered by lower bound, if anything. */
  function Fault(sorted: seq<Entry>, i: nat): Option<PlanError>
    requires i < |sorted|
  {
    if sorted[i].lo > sorted[i].hi then Some(Inverted)
    else if i == 0 then None
    else if sorted[i].lo <= sorted[i - 1].hi then Some(OverlapFound)
    else if sorted[i].lo != sorted[i - 1].hi + 1 then Some(GapFound)
    else None
  }

  /** The entries follow one another without overlap or gap. */
  ghost predicate Chain(sorted: seq<Entry>) {
    forall i :: 0 <= i < |sorted| ==> Fault(sorted, i).None?
  }

  /** Orders the list and walks it once; reports the first fault, else the span. */
  method ContiguousSpan(ranges: seq<Entry>) returns (r: PlanResult)
    ensures r.Accepted? <==> ranges != [] && Chain(SortByLo(ranges))
    ensures r == SpanOf(ranges)
  {
    if |ranges| == 0 {
      return Rejected(EmptyList);
    }
    var sorted := SortByLo(ranges);
    SortSorts(ranges);
    assert |sorted| == |ranges| by { assert |multiset(sorted)| == |multiset(ranges)|; }
    for i := 0 to |sorted|
      invariant forall k :: 0 <= k < i ==> Fault(sorted, k).None?
      invariant FirstFault(sorted, 0) == FirstFault(sorted, i)
    {
      var f := Fault(sorted, i);
      if f.Some? {
        return Rejected(f.value);
      }
    }
    r := Accepted(Span(sorted[0].lo, sorted[|sorted| - 1].hi));
  }

  function FirstFault(sorted: seq<Entry>, i: nat): Option<PlanError>
    requires i <= |sorted|
    decreases |sorted| - i
  {
    if i == |sorted| then None
    else if Fault(sorted, i).Some? then Fault(sorted, i)
    else FirstFault(sorted, i + 1)
  }

  lemma {:induction false} NoFaultIsChain(sorted: seq<Entry>, i: nat)
    requires i <= |sorted|
    ensures FirstFault(sorted, i).None? <==> forall k :: i <= k < |sorted| ==> Fault(sorted, k).None?
    decreases |sorted| - i
  {
    if i < |sorted| && Fault(sorted, i).None? {
      NoFaultIsChain(sorted, i + 1);
    }
  }

  /** The value of `ContiguousSpan`. */
  function SpanOf(ranges: seq<Entry>): PlanResult {
    if ranges == [] then Rejected(EmptyList)
    else
      var sorted := SortByLo(ranges);
      if FirstFault(sorted, 0).Some? then Rejected(FirstFault(sorted, 0).value)
      else if sorted == [] then Rejected(EmptyList)
      else Accepted(Span(sorted[0].lo, sorted[|sorted| - 1].hi))
  }

  /** Source plan and target plan are each contiguous and span the same interval. */
  function ValidateSplitPlan(sources: seq<Entry>, targets: seq<Entry>): PlanResult {
    var s := SpanOf(sources);
    if s.Rejected? then s else
    var t := SpanOf(targets);
    if t.Rejected? then t else
    if s.span != t.span then Rejected(CoverageDiffers) else t
  }

  /** The Pending gate passes the target list for both arguments. */
  predicate PendingGate(targets: seq<Target>) {
    ValidateSplitPlan(FlattenTargets(targets), FlattenTargets(targets)).Accepted?
  }

  /** The entries are non-empty intervals that split [lo, hi] among them. */
  ghost predicate PartitionsInterval(ranges: seq<Entry>, lo: int, hi: int) {
    && ranges != []
    && (forall e :: e in ranges ==> e.lo <= e.hi)
    && NoOverlap(ranges)
    && (forall p :: lo <= p <= hi <==> Resolve(ranges, p).Some?)
  }

  ghost predicate PartitionsSomeInterval(ranges: seq<Entry>) {
    exists lo, hi :: PartitionsInterval(ranges, lo, hi)
  }

  // ---------------------------------------------------------------------------
  // Acceptance means exactly: the entries partition one interval.

  lemma {:induction false} ChainOrder(s: seq<Entry>, i: nat, j: nat)
    requires Chain(s) && i < j < |s|
    ensures s[i].lo <= s[i].hi < s[j].lo <= s[j].hi
    decreases j - i
  {
    assert Fault(s, i).None? && Fault(s, j).None?;
    if i + 1 < j { ChainOrder(s, i, j - 1); }
  }

  lemma {:induction false} ChainCovers(s: seq<Entry>, n: nat, p: int)
    requires Chain(s) && 0 < n <= |s| && s[0].lo <= p <= s[n - 1].hi
    ensures exists e :: e in s && Covers(e, p)
  {
    assert Fault(s, n - 1).None?;
    if s[n - 1].lo <= p {
      assert Covers(s[n - 1], p);
    } else {
      ChainCovers(s, n - 1, p);
    }
  }

  predicate Apart(e: Entry, f: Entry) {
    e.hi < f.lo || f.hi < e.lo
  }

  /** Absence of overlaps depends only on which entries the list holds, and how often. */
  lemma NoOverlapByMultiset(s: seq<Entry>)
    requires forall e :: e in s ==> e.lo <= e.hi
    ensures NoOverlap(s) <==>
      && (forall e :: e in s ==> multiset(s)[e] == 1)
      && (forall e, f :: e in s && f in s && e != f ==> Apart(e, f))
  {
    if NoOverlap(s) {
      forall e | e in s ensures multiset(s)[e] == 1 {
        var i :| 0 <= i < |s| && s[i] == e;
        OnceInMultiset(s, i);
      }
      forall e, f | e in s && f in s && e != f ensures Apart(e, f) {
        var i :| 0 <= i < |s| && s[i] == e;
        var j :| 0 <= j < |s| && s[j] == f;
        var p := if e.lo < f.lo then f.lo else e.lo;
        assert !(Covers(s[i], p) && Covers(s[j], p));
      }
    } else {
      var i, j, p :| 0 <= i < |s| && 0 <= j < |s| && Covers(s[i], p) && Covers(s[j], p) && i != j;
      if s[i] == s[j] {
        TwiceInMultiset(s, i, j);
      } else {
        assert s[i] in s && s[j] in s && !Apart(s[i], s[j]);
      }
    }
  }

  lemma OnceInMultiset(s: seq<Entry>, i: nat)
    requires NoOverlap(s) && i < |s| && s[i].lo <= s[i].hi
    ensures multiset(s)[s[i]] == 1
  {
    var e := s[i];
    assert s == s[..i] + [e] + s[i + 1..];
    assert Covers(s[i], e.lo);
    assert forall j :: 0 <= j < |s| && s[j] == e ==> Covers(s[j], e.lo);
    assert e !in s[..i];
    assert e !in s[i + 1..];
  }

  lemma TwiceInMultiset(s: seq<Entry>, i: nat, j: nat)
    requires i < |s| && j < |s| && i != j && s[i] == s[j]
    ensures multiset(s)[s[i]] >= 2
  {
    var lo, hi := if i < j then i else j, if i < j then j else i;
    assert s == s[..lo] + [s[lo]] + s[lo + 1..hi] + [s[hi]] + s[hi + 1..];
  }

  lemma SortedMembers(ranges: seq<Entry>)
    ensures |SortByLo(ranges)| == |ranges|
    ensures forall e :: e in SortByLo(ranges) <==> e in ranges
  {
    SortSorts(ranges);
    assert |multiset(SortByLo(ranges))| == |multiset(ranges)|;
    assert forall e :: e in SortByLo(ranges) <==> e in multiset(SortByLo(ranges));
    assert forall e :: e in ranges <==> e in multiset(ranges);
  }

  lemma ChainBounds(s: seq<Entry>, e: Entry)
    requires Chain(s) && e in s
    ensures e.lo <= e.hi && s[0].lo <= e.lo && e.hi <= s[|s| - 1].hi
  {
    var i :| 0 <= i < |s| && s[i] == e;
    assert Fault(s, i).None?;
    if 0 < i { ChainOrder(s, 0, i); }
    if i < |s| - 1 { ChainOrder(s, i, |s| - 1); }
  }

  lemma ChainNoOverlap(s: seq<Entry>)
    requires Chain(s)
    ensures NoOverlap(s)
  {
    forall i, j, p | 0 <= i < |s| && 0 <= j < |s| && Covers(s[i], p) && Covers(s[j], p) ensures i == j {
      if i < j { ChainOrder(s, i, j); }
      if j < i { ChainOrder(s, j, i); }
    }
  }

  lemma NoOverlapPermuted(s: seq<Entry>, t: seq<Entry>)
    requires multiset(s) == multiset(t) && (forall e :: e in s <==> e in t) && (forall e :: e in s ==> e.lo <= e.hi)
    ensures NoOverlap(s) <==> NoOverlap(t)
  {
    NoOverlapByMultiset(s);
    NoOverlapByMultiset(t);
  }

  /** A chain partitions the interval from its first lower to its last upper bound. */
  lemma ChainPartitions(ranges: seq<Entry>)
    requires ranges != [] && Chain(SortByLo(ranges))
    ensures |SortByLo(ranges)| == |ranges|
    ensures PartitionsInterval(ranges, SortByLo(ranges)[0].lo, SortByLo(ranges)[|ranges| - 1].hi)
  {
    SortSorts(ranges);
    SortedMembers(ranges);
    ChainPermuted(ranges, SortByLo(ranges));
  }

  lemma ChainPermuted(ranges: seq<Entry>, s: seq<Entry>)
    requires ranges != [] && Chain(s) && multiset(s) == multiset(ranges) && |s| == |ranges|
    requires forall e :: e in s <==> e in ranges
    ensures PartitionsInterval(ranges, s[0].lo, s[|s| - 1].hi)
  {
    forall e | e in s ensures e.lo <= e.hi && s[0].lo <= e.lo && e.hi <= s[|s| - 1].hi {
      ChainBounds(s, e);
    }
    ChainNoOverlap(s);
    NoOverlapPermuted(s, ranges);
    forall p ensures s[0].lo <= p <= s[|s| - 1].hi <==> Resolve(ranges, p).Some? {
      ResolveFacts(ranges, p);
      if s[0].lo <= p <= s[|s| - 1].hi { ChainCovers(s, |s|, p); }
    }
  }

  /** A partition of an interval, ordered by lower bound, is a chain. */
  lemma PartitionIsChain(ranges: seq<Entry>, lo: int, hi: int)
    requires PartitionsInterval(ranges, lo, hi)
    ensures Chain(SortByLo(ranges))
  {
    var s := SortByLo(ranges);
    SortSorts(ranges);
    SortedMembers(ranges);
    NoOverlapPermuted(s, ranges);
    forall p ensures Resolve(s, p).Some? <==> lo <= p <= hi {
      assert lo <= p <= hi <==> Resolve(ranges, p).Some?;
      ResolveFacts(ranges, p);
      ResolveFacts(s, p);
    }
    forall i | 0 <= i < |s| ensures Fault(s, i).None? {
      assert s[i] in ranges;
      if i > 0 {
        assert s[i - 1] in ranges;
        NeighboursMeet(s, lo, hi, i);
      }
    }
  }

  lemma NeighboursMeet(s: seq<Entry>, lo: int, hi: int, i: nat)
    requires SortedByLo(s) && PartitionsInterval(s, lo, hi) && 0 < i < |s|
    ensures s[i].lo == s[i - 1].hi + 1
  {
    var prev, cur := s[i - 1], s[i];
    assert prev in s && cur in s;
    assert Covers(cur, cur.lo) && Covers(prev, prev.lo);
    assert !Covers(prev, cur.lo);
    ResolveFacts(s, prev.lo);
    ResolveFacts(s, cur.lo);
    ResolveFacts(s, prev.hi + 1);
    assert Resolve(s, prev.lo).Some? && Resolve(s, cur.lo).Some?;
    assert lo <= prev.hi + 1 <= hi ==> Resolve(s, prev.hi + 1).Some?;
    if prev.hi + 1 < cur.lo {
      NothingBetween(s, i);
    }
  }

  /** No entry of an ordered list without overlaps starts or reaches between two neighbours. */
  lemma NothingBetween(s: seq<Entry>, i: nat)
    requires SortedByLo(s) && NoOverlap(s) && 0 < i < |s|
    requires forall e :: e in s ==> e.lo <= e.hi
    requires s[i - 1].hi + 1 < s[i].lo
    ensures forall e :: e in s ==> !Covers(e, s[i - 1].hi + 1)
  {
    var p := s[i - 1].hi + 1;
    forall e | e in s ensures !Covers(e, p) {
      var k :| 0 <= k < |s| && s[k] == e;
      assert e.lo <= e.hi;
      if k < i - 1 {
        assert s[i - 1] in s;
        assert Covers(s[i - 1], s[i - 1].lo);
        assert s[k].lo <= s[i - 1].lo;
        assert !Covers(s[k], s[i - 1].lo);
      }
    }
  }

  /** The Pending gate accepts exactly the target lists that partition some interval. Since
      both arguments are the targets, it says nothing about the source's ranges. */
  lemma PendingGateAccepts(targets: seq<Target>)
    ensures PendingGate(targets) <==> PartitionsSomeInterval(FlattenTargets(targets))
  {
    var flat := FlattenTargets(targets);
    NoFaultIsChain(SortByLo(flat), 0);
    SortedMembers(flat);
    assert PendingGate(targets) <==> flat != [] && Chain(SortByLo(flat));
    if PendingGate(targets) {
      ChainPartitions(flat);
      assert PartitionsInterval(flat, SortByLo(flat)[0].lo, SortByLo(flat)[|flat| - 1].hi);
    }
    if !PendingGate(targets) {
      forall lo, hi ensures !PartitionsInterval(flat, lo, hi) {
        if PartitionsInterval(flat, lo, hi) { PartitionIsChain(flat, lo, hi); }
      }
    }
  }

  /** The gate passes a plan that leaves half of the source's keys without a shard. */
  lemma PendingGateMissesLostCoverage()
    ensures exists existing: seq<Entry>, targets: seq<Target>, p: int ::
      && PendingGate(targets)
      && Resolve(existing, p) == Some("shard-0")
      && Resolve(Merged(existing, ["shard-0"], targets), p).None?
  {
    var existing := [Entry(0, 9, "shard-0")];
    var targets := [Target("a", [Entry(0, 4, "a")])];
    assert FlattenTargets(targets[1..]) == [];
    assert FlattenTargets(targets) == [Entry(0, 4, "a")];
    assert PartitionsInterval([Entry(0, 4, "a")], 0, 4) by {
      assert forall p :: 0 <= p <= 4 <==> Covers(Entry(0, 4, "a"), p);
    }
    PendingGateAccepts(targets);
    assert KeepOthers(existing[1..], ["shard-0"]) == [];
    assert Merged(existing, ["shard-0"], targets) == [Entry(0, 4, "a")];
    assert Resolve(existing, 7) == Some("shard-0");
    assert Resolve([Entry(0, 4, "a")], 7).None?;
  }

  /** A list is accepted with exactly the interval that it partitions. */
  lemma SpanIsInterval(ranges: seq<Entry>, lo: int, hi: int)
    ensures SpanOf(ranges) == Accepted(Span(lo, hi)) <==> PartitionsInterval(ranges, lo, hi)
  {
    var s := SortByLo(ranges);
    NoFaultIsChain(s, 0);
    if ranges != [] {
      SortedMembers(ranges);
      if Chain(s) { ChainPartitions(ranges); }
      if PartitionsInterval(ranges, lo, hi) {
        PartitionIsChain(ranges, lo, hi);
        SameInterval(ranges, lo, hi, s[0].lo, s[|s| - 1].hi);
      }
    }
  }

  lemma SameInterval(ranges: seq<Entry>, lo: int, hi: int, lo': int, hi': int)
    requires PartitionsInterval(ranges, lo, hi) && PartitionsInterval(ranges, lo', hi')
    ensures lo == lo' && hi == hi'
  {
    var e := ranges[0];
    assert e in ranges;
    ResolveFacts(ranges, e.lo);
    assert lo <= e.lo <= hi && lo' <= e.lo <= hi';
    assert Resolve(ranges, lo).Some? && Resolve(ranges, hi).Some?;
    assert Resolve(ranges, lo').Some? && Resolve(ranges, hi').Some?;
  }

  /** Two plans are accepted exactly if they partition the same interval. */
  lemma PlanAccepts(sources: seq<Entry>, targets: seq<Entry>, lo: int, hi: int)
    ensures ValidateSplitPlan(sources, targets) == Accepted(Span(lo, hi)) <==>
      PartitionsInterval(sources, lo, hi) && PartitionsInterval(targets, lo, hi)
  {
    SpanIsInterval(sources, lo, hi);
    SpanIsInterval(targets, lo, hi);
  }

  /** What a refusal means: an empty list, an entry whose bounds are inverted, a position that two
      entries cover, or one between entries that none covers. */
  ghost predicate Explains(ranges: seq<Entry>, error: PlanError) {
    match error
    case EmptyList => ranges == []
    case Inverted => exists e :: e in ranges && e.hi < e.lo
    case OverlapFound =>
      exists s: seq<Entry>, i, j, p ::
        multiset(s) == multiset(ranges) && 0 <= i < j < |s| && Covers(s[i], p) && Covers(s[j], p)
    case GapFound => exists e, f, p :: e in ranges && f in ranges && e.hi < p < f.lo && Resolve(ranges, p).None?
    case CoverageDiffers => false
  }

  lemma RefusalExplained(ranges: seq<Entry>)
    ensures SpanOf(ranges).Rejected? ==> Explains(ranges, SpanOf(ranges).error)
  {
    if ranges != [] {
      var s := SortByLo(ranges);
      SortSorts(ranges);
      SortedMembers(ranges);
      if FirstFault(s, 0).Some? {
        var i := FirstFaultAt(s, 0);
        FaultExplained(ranges, s, i);
      }
    }
  }

  lemma {:induction false} FirstFaultAt(s: seq<Entry>, from: nat) returns (i: nat)
    requires from <= |s| && FirstFault(s, from).Some?
    ensures from <= i < |s| && FirstFault(s, from) == Fault(s, i) && forall k :: from <= k < i ==> Fault(s, k).None?
    decreases |s| - from
  {
    i := from;
    if Fault(s, from).None? { i := FirstFaultAt(s, from + 1); }
  }

  lemma FaultExplained(ranges: seq<Entry>, s: seq<Entry>, i: nat)
    requires SortedByLo(s) && multiset(s) == multiset(ranges) && (forall e :: e in s <==> e in ranges)
    requires i < |s| && Fault(s, i).Some? && forall k :: 0 <= k < i ==> Fault(s, k).None?
    ensures Explains(ranges, Fault(s, i).value)
  {
    assert s[i] in ranges;
    if i > 0 && s[i].lo <= s[i].hi {
      assert Fault(s, i - 1).None? && s[i - 1] in ranges;
      if s[i].lo <= s[i - 1].hi {
        assert Covers(s[i - 1], s[i].lo) && Covers(s[i], s[i].lo);
      } else {
        GapExplained(ranges, s, i);
      }
    }
  }

  lemma GapExplained(ranges: seq<Entry>, s: seq<Entry>, i: nat)
    requires SortedByLo(s) && (forall e :: e in s <==> e in ranges)
    requires 0 < i < |s| && s[i - 1].hi + 1 < s[i].lo && forall k :: 0 <= k < i ==> Fault(s, k).None?
    ensures Explains(ranges, GapFound)
  {
    var p := s[i - 1].hi + 1;
    ResolveFacts(ranges, p);
    forall e | e in ranges ensures !Covers(e, p) {
      var k :| 0 <= k < |s| && s[k] == e;
      if k < i - 1 {
        assert Chain(s[..i]) by {
          forall j | 0 <= j < i ensures Fault(s[..i], j).None? { assert Fault(s, j).None?; }
        }
        ChainOrder(s[..i], k, i - 1);
      }
    }
    assert s[i - 1] in ranges && s[i] in ranges && s[i - 1].hi < p < s[i].lo;
  }

  /** What the gate leaves open: a plan it accepts keeps the partition exactly when it covers the
      positions of the source and no others. */
  lemma GatedPlanKeepsPartition(existing: seq<Entry>, source: ShardId, targets: seq<Target>)
    requires NoOverlap(existing) && PendingGate(targets)
    ensures KeepsPartition(existing, Merged(existing, [source], targets))
      <==> CoversSource(existing, source, FlattenTargets(targets))
  {
    PendingGateAccepts(targets);
    NoOverlapOneOwner(FlattenTargets(targets));
    MergeKeepsPartition(existing, source, targets);
  }

  // ---------------------------------------------------------------------------
  // AutoSplit plans.

  /** Splits the hash range [lo, hi] at its midpoint; the low half ends at `mid`. */
  function SplitHashRange(lo: int, hi: int): (r: Option<(Span, Span)>)
    ensures r.Some? <==> lo < hi
    ensures r.Some? ==>
      && r.value.0.lo == lo && r.value.1.hi == hi
      && r.value.0.lo <= r.value.0.hi && r.value.1.lo <= r.value.1.hi
      && r.value.0.hi + 1 == r.value.1.lo
      && 0 <= (r.value.0.hi - r.value.0.lo) - (r.value.1.hi - r.value.1.lo) <= 1
  {
    if hi <= lo then None
    else
      var mid := lo + (hi - lo) / 2;
      Some((Span(lo, mid), Span(mid + 1, hi)))
  }

  /** The two targets of an automatic split, named `a` and `b`. */
  function HashSplitTargets(e: Entry, a: ShardId, b: ShardId): Option<seq<Target>> {
    match SplitHashRange(e.lo, e.hi)
    case None => None
    case Some((low, high)) =>
      Some([Target(a, [Entry(low.lo, low.hi, a)]), Target(b, [Entry(high.lo, high.hi, b)])])
  }

  /** How many entries name shard `s`; AutoSplit only splits shards with exactly one. */
  function RangeCount(ranges: seq<Entry>, s: ShardId): nat {
    if ranges == [] then 0 else (if ranges[0].shard == s then 1 else 0) + RangeCount(ranges[1..], s)
  }

  lemma {:induction false} SingleRange(ranges: seq<Entry>, i: nat, j: nat)
    requires i < |ranges| && j < |ranges| && ranges[i].shard == ranges[j].shard
    requires RangeCount(ranges, ranges[i].shard) == 1
    ensures i == j
  {
    if i > 0 && j > 0 && ranges[0].shard != ranges[i].shard {
      SingleRange(ranges[1..], i - 1, j - 1);
    } else if i != j {
      CountedInRest(ranges[1..], (if i > 0 then i else j) - 1);
    }
  }

  lemma {:induction false} CountedInRest(ranges: seq<Entry>, i: nat)
    requires i < |ranges|
    ensures RangeCount(ranges, ranges[i].shard) >= 1
  {
    if i > 0 { CountedInRest(ranges[1..], i - 1); }
  }

  /** A shard is counted once exactly if no other entry names it. */
  lemma {:induction false} CountIsOne(ranges: seq<Entry>, i: nat)
    requires i < |ranges|
    ensures RangeCount(ranges, ranges[i].shard) == 1 <==>
      forall j :: 0 <= j < |ranges| && j != i ==> ranges[j].shard != ranges[i].shard
  {
    var s := ranges[i].shard;
    if RangeCount(ranges, s) == 1 {
      forall j | 0 <= j < |ranges| && j != i ensures ranges[j].shard != s {
        if ranges[j].shard == s { SingleRange(ranges, i, j); }
      }
    }
    if forall j :: 0 <= j < |ranges| && j != i ==> ranges[j].shard != s { CountedOnce(ranges, i); }
  }

  lemma {:induction false} CountedOnce(ranges: seq<Entry>, i: nat)
    requires i < |ranges| && forall j :: 0 <= j < |ranges| && j != i ==> ranges[j].shard != ranges[i].shard
    ensures RangeCount(ranges, ranges[i].shard) == 1
  {
    if i > 0 { CountedOnce(ranges[1..], i - 1); } else { NotCounted(ranges[1..], ranges[0].shard); }
  }

  lemma {:induction false} NotCounted(ranges: seq<Entry>, s: ShardId)
    requires forall j :: 0 <= j < |ranges| ==> ranges[j].shard != s
    ensures RangeCount(ranges, s) == 0
  {
    if ranges != [] { NotCounted(ranges[1..], s); }
  }

  /** An automatic split of a shard's only range tiles that shard and passes the gate: the
      hypothesis of the routing theorems holds for every job AutoSplit creates. */
  lemma AutoSplitTiles(existing: seq<Entry>, i: nat, a: ShardId, b: ShardId)
    requires OneOwner(existing) && i < |existing|
    requires existing[i].lo < existing[i].hi
    requires RangeCount(existing, existing[i].shard) == 1
    ensures HashSplitTargets(existing[i], a, b).Some?
    ensures PendingGate(HashSplitTargets(existing[i], a, b).value)
    ensures Tiles(existing, existing[i].shard, HashSplitTargets(existing[i], a, b).value)
  {
    HalvesPassGate(existing[i], a, b);
    SplitCoversSource(existing, i, FlattenTargets(HashSplitTargets(existing[i], a, b).value));
  }

  lemma HalvesPassGate(e: Entry, a: ShardId, b: ShardId)
    requires e.lo < e.hi
    ensures HashSplitTargets(e, a, b).Some? && PendingGate(HashSplitTargets(e, a, b).value)
    ensures var plan := FlattenTargets(HashSplitTargets(e, a, b).value);
      OneOwner(plan) && forall p :: Covers(e, p) <==> Resolve(plan, p).Some?
  {
    var targets := HashSplitTargets(e, a, b).value;
    var (low, high) := SplitHashRange(e.lo, e.hi).value;
    var flat := [Entry(low.lo, low.hi, a), Entry(high.lo, high.hi, b)];
    assert FlattenTargets(targets[1..][1..]) == [];
    assert FlattenTargets(targets[1..]) == [flat[1]];
    assert FlattenTargets(targets) == flat;
    HalvesPartition(e, flat);
    PendingGateAccepts(targets);
    NoOverlapOneOwner(flat);
  }

  /** Two adjacent halves partition their interval. */
  lemma HalvesPartition(e: Entry, flat: seq<Entry>)
    requires |flat| == 2 && flat[0].lo == e.lo && flat[0].hi + 1 == flat[1].lo && flat[1].hi == e.hi
    requires flat[0].lo <= flat[0].hi && flat[1].lo <= flat[1].hi
    ensures PartitionsInterval(flat, e.lo, e.hi) && NoOverlap(flat)
    ensures forall p :: Covers(e, p) <==> Resolve(flat, p).Some?
  {
    forall p ensures Covers(e, p) <==> Resolve(flat, p).Some? {
      ResolveFacts(flat, p);
      assert flat[0] in flat && flat[1] in flat;
      assert forall f :: f in flat ==> f == flat[0] || f == flat[1];
    }
    assert forall p :: e.lo <= p <= e.hi <==> Covers(e, p);
  }

  lemma SplitCoversSource(existing: seq<Entry>, i: nat, flat: seq<Entry>)
    requires OneOwner(existing) && i < |existing| && RangeCount(existing, existing[i].shard) == 1
    requires forall p :: Covers(existing[i], p) <==> Resolve(flat, p).Some?
    ensures CoversSource(existing, existing[i].shard, flat)
  {
    var e := existing[i];
    forall p ensures Resolve(existing, p) == Some(e.shard) <==> Covers(e, p) {
      OwnsIsResolve(existing, e.shard, p);
      if Owns(existing, e.shard, p) {
        var f :| f in existing && Covers(f, p) && f.shard == e.shard;
        var j :| 0 <= j < |existing| && existing[j] == f;
        SingleRange(existing, i, j);
      }
    }
  }
}
