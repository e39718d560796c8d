/** Names of shard StatefulSets, their pods and data volumes, and the name-based membership
test that fencing relies on. */
module PodNames {
  import opened Basics

  function Digit(d: nat): char
    requires d < 10
  {
    "0123456789"[d]
  }

  predicate IsDigit(ch: char) {
    '0' <= ch <= '9'
  }

  predicate AllDigits(s: string) {
    forall i :: 0 <= i < |s| ==> IsDigit(s[i])
  }

  /** Decimal notation of an ordinal. */
  function Decimal(n: nat): string {
    if n < 10 then [Digit(n)] else Decimal(n / 10) + [Digit(n % 10)]
  }

  function StatefulSet(cluster: string, shard: nat): string {
    cluster + "-shard-" + Decimal(shard)
  }

  /** A shard of a cluster: one of the ordinals, or the named target of a split. */
  datatype Shard = Numbered(ordinal: nat) | Named(id: string)

  function SetOf(cluster: string, s: Shard): string {
    match s
    case Numbered(n) => StatefulSet(cluster, n)
    case Named(id) => cluster + "-rsd-" + id
  }

  function PodOf(sts: string, ordinal: nat): string {
    sts + "-" + Decimal(ordinal)
  }

  function Volume(pod: string): string {
    "data-" + pod
  }

  function MemberPrefix(sts: string): string {
    "data-" + sts + "-"
  }

  /** Index of the last `ch` below `n`, or -1. */
  function LastIndex(s: string, ch: char, n: nat): (i: int)
    requires n <= |s|
    ensures -1 <= i < n
    ensures i >= 0 ==> s[i] == ch
    ensures forall j :: i < j < n ==> s[j] != ch
  {
    if n == 0 then -1 else if s[n - 1] == ch then n - 1 else LastIndex(s, ch, n - 1)
  }

  /** The pod name without its "-<ordinal>" suffix; empty when it has none. */
  function StatefulSetOf(pod: string): string {
    var i := LastIndex(pod, '-', |pod|);
    if i <= 0 || i == |pod| - 1 then ""
    else if AllDigits(pod[i + 1..]) then pod[..i]
    else ""
  }

  lemma {:induction false} DecimalDigits(n: nat)
    ensures |Decimal(n)| > 0 && AllDigits(Decimal(n))
  {
    if n >= 10 { DecimalDigits(n / 10); }
  }

  lemma DecimalSplit(n: nat)
    ensures |Decimal(n)| > 0 && Decimal(n)[|Decimal(n)| - 1] == Digit(n % 10)
    ensures n < 10 ==> |Decimal(n)| == 1
    ensures n >= 10 ==> |Decimal(n)| > 1 && Decimal(n)[..|Decimal(n)| - 1] == Decimal(n / 10)
  {
    DecimalDigits(n / 10);
  }

  lemma {:induction false} DecimalInjective(m: nat, n: nat)
    requires Decimal(m) == Decimal(n)
    ensures m == n
  {
    DecimalSplit(m);
    DecimalSplit(n);
    SameDigit(m % 10, n % 10);
    if m >= 10 && n >= 10 { DecimalInjective(m / 10, n / 10); }
  }

  lemma SameDigit(a: nat, b: nat)
    requires a < 10 && b < 10 && Digit(a) == Digit(b)
    ensures a == b
  {
  }

  /** The StatefulSet of a pod is recovered from the pod's name. */
  lemma StatefulSetRoundTrip(sts: string, ordinal: nat)
    requires sts != ""
    ensures StatefulSetOf(PodOf(sts, ordinal)) == sts
  {
    var pod := PodOf(sts, ordinal);
    DecimalDigits(ordinal);
    assert pod[|sts|] == '-';
    assert forall j :: |sts| < j < |pod| ==> pod[j] == Decimal(ordinal)[j - |sts| - 1];
    assert forall j :: |sts| < j < |pod| ==> IsDigit(pod[j]);
    assert LastIndex(pod, '-', |pod|) == |sts|;
    assert pod[|sts| + 1..] == Decimal(ordinal);
  }

  /** What follows the last dash of a name. */
  function Ordinal(pod: string): string {
    pod[LastIndex(pod, '-', |pod|) + 1..]
  }

  /** The ordinal is recovered from the pod's name. */
  lemma OrdinalOfPod(sts: string, k: nat)
    ensures Ordinal(PodOf(sts, k)) == Decimal(k)
  {
    var pod := PodOf(sts, k);
    DecimalDigits(k);
    assert pod[|sts|] == '-';
    assert forall j :: |sts| < j < |pod| ==> pod[j] == Decimal(k)[j - |sts| - 1] && IsDigit(pod[j]);
    assert LastIndex(pod, '-', |pod|) == |sts|;
    assert pod[|sts| + 1..] == Decimal(k);
  }

  /** A number followed by a separator begins another number followed by it only if the
      numbers are equal. */
  lemma NumberPrefix(m: nat, n: nat, sep: char, rest: string)
    requires !IsDigit(sep)
    ensures Decimal(m) + [sep] <= Decimal(n) + [sep] + rest <==> m == n
  {
    var a, b := Decimal(m), Decimal(n);
    DecimalDigits(m);
    DecimalDigits(n);
    if a + [sep] <= b + [sep] + rest {
      var longer := b + [sep] + rest;
      assert longer[|a|] == (a + [sep])[|a|] == sep && longer[|b|] == sep;
      assert forall q :: 0 <= q < |b| ==> IsDigit(longer[q]);
      assert forall q :: 0 <= q < |a| ==> longer[q] == (a + [sep])[q] && IsDigit(longer[q]);
      assert |a| == |b|;
      assert a == longer[..|a|] == b;
      DecimalInjective(m, n);
    }
  }

  lemma PrefixCancel(p: string, a: string, b: string)
    ensures p + a <= p + b <==> a <= b
  {
    if p + a <= p + b {
      assert a == (p + a)[|p|..];
      assert b == (p + b)[|p|..];
      assert (p + b)[..|p + a|] == p + a;
      assert b[..|a|] == (p + b)[|p|..|p| + |a|] == a;
    }
    if a <= b { assert p + b == (p + a) + b[|a|..]; }
  }

  /** A data volume has the prefix of StatefulSet `a` exactly when its own StatefulSet `b` is
      `a`, or extends it with a dash. */
  lemma PrefixClaims(a: string, b: string, k: nat)
    ensures MemberPrefix(a) <= Volume(PodOf(b, k)) <==> a == b || a + "-" <= b
  {
    var pod := PodOf(b, k);
    assert MemberPrefix(a) == "data-" + (a + "-") && Volume(pod) == "data-" + pod;
    PrefixCancel("data-", a + "-", pod);
    DecimalDigits(k);
    assert pod[|b|] == '-' && forall q :: |b| < q < |pod| ==> pod[q] == Decimal(k)[q - |b| - 1] && IsDigit(pod[q]);
    if a + "-" <= pod {
      assert pod[|a|] == (a + "-")[|a|] == '-';
      assert a == pod[..|a|] && b == pod[..|b|];
      if |a| < |b| { assert a + "-" == pod[..|a| + 1] == b[..|a| + 1]; }
    }
    if a + "-" <= b { assert pod == (a + "-") + (b[|a| + 1..] + "-" + Decimal(k)); }
    if a == b { assert pod == (a + "-") + Decimal(k); }
  }

  /** Among all shards of one cluster, whatever it is called, a volume is claimed by a shard
      exactly when it is its own, or both shards are named and the volume's shard extends the
      other's name with a dash. */
  lemma SameClusterPrefix(cluster: string, s: Shard, t: Shard, k: nat)
    ensures MemberPrefix(SetOf(cluster, s)) <= Volume(PodOf(SetOf(cluster, t), k)) <==>
      s == t || (s.Named? && t.Named? && s.id + "-" <= t.id)
  {
    PrefixClaims(SetOf(cluster, s), SetOf(cluster, t), k);
    SetParts(cluster, s);
    SetParts(cluster, t);
    var a, b := SetTail(s), SetTail(t);
    assert SetOf(cluster, s) + "-" == cluster + (a + "-");
    PrefixCancel(cluster, a + "-", b);
    SameStart(cluster, a, b);
    TailsClaim(s, t);
  }

  /** A StatefulSet's name without the cluster's. */
  function SetTail(s: Shard): string {
    match s
    case Numbered(n) => "-shard-" + Decimal(n)
    case Named(id) => "-rsd-" + id
  }

  lemma SetParts(cluster: string, s: Shard)
    ensures SetOf(cluster, s) == cluster + SetTail(s)
  {
  }

  lemma TailsClaim(s: Shard, t: Shard)
    ensures SetTail(s) == SetTail(t) || SetTail(s) + "-" <= SetTail(t) <==>
      s == t || (s.Named? && t.Named? && s.id + "-" <= t.id)
  {
    var a, b := SetTail(s), SetTail(t);
    if s.Numbered? != t.Numbered? {
      assert a[1] != b[1];
      assert (a + "-")[1] == a[1];
    } else if s.Named? {
      assert a + "-" == "-rsd-" + (s.id + "-");
      PrefixCancel("-rsd-", s.id + "-", t.id);
      SameStart("-rsd-", s.id, t.id);
    } else {
      NumberTails(s.ordinal, t.ordinal);
    }
  }

  lemma NumberTails(i: nat, j: nat)
    ensures var a, b := SetTail(Numbered(i)), SetTail(Numbered(j)); a == b || a + "-" <= b <==> i == j
  {
    var a, b := Decimal(i), Decimal(j);
    SameStart("-shard-", a, b);
    if a == b { DecimalInjective(i, j); }
    assert SetTail(Numbered(i)) + "-" == "-shard-" + (a + "-");
    PrefixCancel("-shard-", a + "-", b);
    NoDashInNumber(a, j);
  }

  lemma NoDashInNumber(a: string, n: nat)
    ensures !(a + "-" <= Decimal(n))
  {
    DecimalDigits(n);
    assert (a + "-")[|a|] == '-';
  }

  /** Shard "t1" of a cluster claims the volumes of the cluster's shard "t1-b". */
  lemma SiblingShardIsClaimed()
    ensures MemberPrefix(SetOf("demo", Named("t1"))) <= Volume(PodOf(SetOf("demo", Named("t1-b")), 0))
  {
    assert "t1" + "-" <= "t1-b";
    SameClusterPrefix("demo", Named("t1"), Named("t1-b"), 0);
  }

  // ---------------------------------------------------------------------------
  // Two clusters in one namespace.

  /** What follows the cluster's name in a pod name. */
  function Tail(j: nat, k: nat): string {
    "-shard-" + Decimal(j) + "-" + Decimal(k)
  }

  /** The only 's' of a tail is in "-shard-". */
  lemma TailLetters(j: nat, k: nat, p: nat)
    requires p < |Tail(j, k)| && p != 1
    ensures Tail(j, k)[p] != 's'
  {
    DecimalDigits(j);
    DecimalDigits(k);
    var t, n := Tail(j, k), |Decimal(j)|;
    if 7 <= p < 7 + n {
      assert t[p] == Decimal(j)[p - 7];
    } else if p > 7 + n {
      assert t[p] == Decimal(k)[p - 8 - n];
    }
  }

  /** A volume of cluster `other` matches shard `i` of `cluster` exactly when it is of that
      shard, or the other cluster's name is the shard's StatefulSet name or extends it with
      a dash. */
  lemma CrossClusterPrefix(cluster: string, i: nat, other: string, j: nat, k: nat)
    ensures MemberPrefix(StatefulSet(cluster, i)) <= Volume(PodOf(StatefulSet(other, j), k)) <==>
      || (other == cluster && i == j)
      || other == StatefulSet(cluster, i)
      || StatefulSet(cluster, i) + "-" <= other
  {
    var want := StatefulSet(cluster, i) + "-";
    assert MemberPrefix(StatefulSet(cluster, i)) == "data-" + want;
    assert Volume(PodOf(StatefulSet(other, j), k)) == "data-" + (other + Tail(j, k));
    PrefixCancel("data-", want, other + Tail(j, k));
    if other == cluster {
      SameClusterPrefix(cluster, Numbered(i), Numbered(j), k);
    } else {
      if want <= other + Tail(j, k) { OtherClusterName(cluster, i, other, j, k); }
      if other == StatefulSet(cluster, i) { assert other + Tail(j, k) == want + Tail(j, k)[1..]; }
      if want <= other { assert other + Tail(j, k) == want + other[|want|..] + Tail(j, k); }
    }
  }

  lemma OtherClusterName(cluster: string, i: nat, other: string, j: nat, k: nat)
    requires other != cluster && StatefulSet(cluster, i) + "-" <= other + Tail(j, k)
    ensures other == StatefulSet(cluster, i) || StatefulSet(cluster, i) + "-" <= other
  {
    var want := StatefulSet(cluster, i) + "-";
    var full := other + Tail(j, k);
    assert full[..|cluster|] == want[..|cluster|] == cluster;
    if |other| < |want| {
      assert full[|cluster| + 1] == want[|cluster| + 1] == 's';
      if |other| < |cluster| { TailLetters(j, k, |cluster| + 1 - |other|); }
      if |cluster| < |other| < |want| - 1 {
        assert want[|other| + 1] == full[|other| + 1] == Tail(j, k)[1];
        LetterInPrefix(cluster, i, |other|);
      }
      assert full[..|want| - 1] == want[..|want| - 1] == StatefulSet(cluster, i);
    }
  }

  /** After the cluster's name, a member prefix has an 's' only in "-shard-". */
  lemma LetterInPrefix(cluster: string, i: nat, p: nat)
    requires |cluster| < p && p + 1 < |StatefulSet(cluster, i) + "-"|
    ensures (StatefulSet(cluster, i) + "-")[p + 1] != 's'
  {
    assert (StatefulSet(cluster, i) + "-") + Decimal(0) == cluster + Tail(i, 0);
    assert (cluster + Tail(i, 0))[p + 1] == Tail(i, 0)[p + 1 - |cluster|];
    TailLetters(i, 0, p + 1 - |cluster|);
  }

  /** Shard 0 of cluster "demo" claims the volumes of a cluster called "demo-shard-0". */
  lemma SiblingClusterIsClaimed()
    ensures MemberPrefix(StatefulSet("demo", 0)) <= Volume(PodOf(StatefulSet("demo-shard-0", 3), 1))
  {
    assert StatefulSet("demo", 0) == "demo-shard-0";
    CrossClusterPrefix("demo", 0, "demo-shard-0", 3, 1);
  }
}
