/** Scheduled backups: which cron instants get a BackupJob, over any run of reconciles with
lost status updates, suspensions and concurrency blocks. Times are whole seconds. */
module Schedule {
  import opened Basics
  import opened PodNames

  /** `next` gives the schedule's first instant after a time; `created` is the creation time
      of the ScheduledBackup. */
  datatype Setting = Setting(name: string, created: int, next: int -> int, immediate: bool)

  /** Status and objects: the last schedule time recorded, and the instants of the BackupJobs
      created, in order. */
  datatype State = State(last: Option<int>, jobs: seq<int>)

  /** One reconcile: when, whether the schedule is suspended, whether a previous BackupJob is
      still active and forbids another, and the API calls that fail. */
  datatype Turn = Turn(now: int, suspended: bool, blocked: bool, fails: set<nat>)

  datatype Due = Due(at: int, due: bool)

  /** Unix seconds of the first second of year one: what a schedule answers when it finds no
      further instant. */
  const ZERO_TIME: int := -62_135_596_800

  function NextRun(c: Setting, last: Option<int>, now: int): Due {
    if c.immediate && last.None? then Due(now, true)
    else
      var at := c.next(if last.Some? then last.value else c.created);
      Due(at, at <= now)
  }

  /** A recorded time as it is read back: Kubernetes stores the zero time as null. */
  function Stored(at: int): Option<int> {
    if at == ZERO_TIME then None else Some(at)
  }

  /** Creates the due job unless one of its name exists, and only then records its time. */
  function Reconcile(c: Setting, s: State, t: Turn): State {
    if 0 in t.fails || t.suspended then s
    else
      var run := NextRun(c, s.last, t.now);
      if !run.due || t.blocked || 1 in t.fails then s
      else if run.at in s.jobs then (if 2 in t.fails then s else s.(last := Stored(run.at)))
      else if 2 in t.fails then s
      else
        var created := s.(jobs := s.jobs + [run.at]);
        if 3 in t.fails then created else created.(last := Stored(run.at))
  }

  class Reconciler {
    var last: Option<int>
    var jobs: seq<int>

    /** One reconcile, call by call. */
    method Run(c: Setting, t: Turn)
      modifies this
      ensures State(last, jobs) == Reconcile(c, old(State(last, jobs)), t)
    {
      if 0 in t.fails || t.suspended { return; }
      var run := NextRun(c, last, t.now);
      if !run.due { return; }
      if t.blocked || 1 in t.fails { return; }
      var calls := 2;
      if run.at !in jobs {
        if calls in t.fails { return; }
        calls := calls + 1;
        jobs := jobs + [run.at];
      }
      if calls !in t.fails { last := Stored(run.at); }
    }
  }

  function Runs(c: Setting, turns: seq<Turn>): State {
    if turns == [] then State(None, []) else Reconcile(c, Runs(c, turns[..|turns| - 1]), turns[|turns| - 1])
  }

  /** The schedule's instants after creation. */
  function Instant(c: Setting, k: nat): int {
    c.next(if k == 0 then c.created else Instant(c, k - 1))
  }

  function Instants(c: Setting, n: nat): seq<int> {
    if n == 0 then [] else Instants(c, n - 1) + [Instant(c, n - 1)]
  }

  /** What a cron schedule promises: a later time, or the zero time when there is none. */
  ghost predicate Cron(c: Setting) {
    forall t :: c.next(t) > t || c.next(t) == ZERO_TIME
  }

  /** None of the first `n` answers of the schedule is the zero time. */
  ghost predicate Lasts(c: Setting, n: nat) {
    forall k :: 0 <= k < n ==> Instant(c, k) != ZERO_TIME
  }

  lemma {:induction false} InstantsAt(c: Setting, n: nat, k: nat)
    requires k < n
    ensures |Instants(c, n)| == n && Instants(c, n)[k] == Instant(c, k)
  {
    if n > 1 {
      InstantsAt(c, n - 1, if k < n - 1 then k else 0);
    } else {
      assert Instants(c, 0) == [];
    }
  }

  lemma {:induction false} InstantsGrow(c: Setting, i: nat, j: nat)
    requires Cron(c) && i < j && Lasts(c, j + 1)
    ensures Instant(c, i) < Instant(c, j)
  {
    assert Instant(c, j) == c.next(Instant(c, j - 1)) && Instant(c, j) != ZERO_TIME;
    if i < j - 1 { InstantsGrow(c, i, j - 1); }
  }

  lemma NewInstant(c: Setting, n: nat)
    requires Cron(c) && Lasts(c, n)
    ensures Instant(c, n) !in Instants(c, n)
  {
    InstantsLength(c, n);
    forall k | 0 <= k < n ensures Instants(c, n)[k] != Instant(c, n) {
      InstantsAt(c, n, k);
      EarlierDiffers(c, k, n);
    }
  }

  lemma EarlierDiffers(c: Setting, k: nat, n: nat)
    requires Cron(c) && Lasts(c, n) && k < n
    ensures Instant(c, k) != Instant(c, n)
  {
    if Instant(c, n) != ZERO_TIME { InstantsGrow(c, k, n); }
  }

  lemma {:induction false} InstantsLength(c: Setting, n: nat)
    ensures |Instants(c, n)| == n
  {
    if n > 0 { InstantsLength(c, n - 1); }
  }

  function LastOf(c: Setting, m: nat): Option<int> {
    if m == 0 then None else Some(Instant(c, m - 1))
  }

  /** The jobs are the schedule's first `n` answers and the status is at the `m`-th. While the
      schedule lasts the status is at the last job, or one behind when its update was lost;
      only the last answer can be the zero time, and then the status runs through the others. */
  ghost predicate Exact(c: Setting, s: State, n: nat, m: nat) {
    && s.jobs == Instants(c, n) && s.last == LastOf(c, m)
    && (if Lasts(c, n) then n - 1 <= m <= n else n > 0 && Lasts(c, n - 1) && m <= n - 1)
  }

  lemma StepIsExact(c: Setting, s: State, t: Turn, n: nat, m: nat) returns (n': nat, m': nat)
    requires Cron(c) && !c.immediate && Exact(c, s, n, m)
    ensures n <= n' <= n + 1 && Exact(c, Reconcile(c, s, t), n', m')
    ensures n' == n + 1 ==> Lasts(c, n) && Instant(c, n) <= t.now && !t.suspended && !t.blocked
  {
    var s' := Reconcile(c, s, t);
    assert NextRun(c, s.last, t.now).at == Instant(c, m);
    InstantsLength(c, n);
    if m == n {
      NewInstant(c, n);
      n' := |s'.jobs|;
    } else {
      InstantsAt(c, n, m);
      n' := n;
    }
    m' := if s'.last == s.last then m else if Instant(c, m) == ZERO_TIME then 0 else m + 1;
  }

  /** Over any run the BackupJobs created are exactly the schedule's first `n` answers after
      creation, in order, without a gap or a duplicate, and none before its time; all of them
      are instants of the schedule but possibly the last, which is the zero time exactly when
      the schedule has ended. */
  lemma {:induction false} JobsAreInstants(c: Setting, turns: seq<Turn>) returns (n: nat, m: nat)
    requires Cron(c) && !c.immediate
    ensures Exact(c, Runs(c, turns), n, m) && n <= |turns|
    ensures forall k :: 0 <= k < n ==> exists i :: 0 <= i < |turns| && Instant(c, k) <= turns[i].now
  {
    if turns == [] {
      n, m := 0, 0;
    } else {
      var before, last := turns[..|turns| - 1], turns[|turns| - 1];
      var n0, m0 := JobsAreInstants(c, before);
      n, m := StepIsExact(c, Runs(c, before), last, n0, m0);
      forall k | 0 <= k < n ensures exists i :: 0 <= i < |turns| && Instant(c, k) <= turns[i].now {
        if k < n0 {
          var i :| 0 <= i < |before| && Instant(c, k) <= before[i].now;
          assert turns[i] == before[i];
        } else {
          assert turns[|turns| - 1] == last;
        }
      }
    }
  }

  predicate Undisturbed(t: Turn) {
    t.fails == {} && !t.suspended && !t.blocked
  }

  /** The undisturbed reconcile makes progress: a due instant gets its job and is recorded. */
  lemma DueIsCreated(c: Setting, s: State, t: Turn, n: nat)
    requires Cron(c) && !c.immediate && Exact(c, s, n, n) && Lasts(c, n) && Undisturbed(t) && Instant(c, n) <= t.now
    ensures Reconcile(c, s, t) == State(Stored(Instant(c, n)), Instants(c, n + 1))
  {
    NewInstant(c, n);
  }

  // ---------------------------------------------------------------------------
  // Schedules that end.

  /** The backup nobody asked for: once all instants have their jobs, the next undisturbed
      reconcile makes a job of the zero time exactly when the schedule has no further instant. */
  lemma ExhaustedMakesAJob(c: Setting, s: State, t: Turn, n: nat)
    requires Cron(c) && !c.immediate && Exact(c, s, n, n) && Lasts(c, n) && Undisturbed(t) && ZERO_TIME <= t.now
    ensures ZERO_TIME in Reconcile(c, s, t).jobs <==> Instant(c, n) == ZERO_TIME
    ensures Instant(c, n) == ZERO_TIME ==> Reconcile(c, s, t) == State(None, s.jobs + [ZERO_TIME])
  {
    NewInstant(c, n);
    if ZERO_TIME in s.jobs {
      InstantsLength(c, n);
      var k :| 0 <= k < n && s.jobs[k] == ZERO_TIME;
      InstantsAt(c, n, k);
    }
  }

  /** It is the last one: after it no run creates anything. */
  lemma {:induction false} ExhaustedIsDone(c: Setting, s: State, n: nat, m: nat, turns: seq<Turn>)
    requires Cron(c) && !c.immediate && Exact(c, s, n, m) && !Lasts(c, n)
    ensures RunFrom(c, s, turns).jobs == s.jobs
    ensures exists m' :: Exact(c, RunFrom(c, s, turns), n, m')
  {
    if turns != [] {
      ExhaustedIsDone(c, s, n, m, turns[..|turns| - 1]);
      var mid := RunFrom(c, s, turns[..|turns| - 1]);
      var m0 :| Exact(c, mid, n, m0);
      var n', m' := StepIsExact(c, mid, turns[|turns| - 1], n, m0);
      assert Exact(c, RunFrom(c, s, turns), n, m');
    } else {
      assert Exact(c, s, n, m);
    }
  }

  function RunFrom(c: Setting, s: State, turns: seq<Turn>): State {
    if turns == [] then s else Reconcile(c, RunFrom(c, s, turns[..|turns| - 1]), turns[|turns| - 1])
  }

  /** A schedule that never fires: every run makes at most the one job of the zero time. */
  lemma NeverFires(c: Setting, turns: seq<Turn>)
    requires !c.immediate && forall t :: c.next(t) == ZERO_TIME
    ensures Runs(c, turns).jobs == [] || Runs(c, turns).jobs == [ZERO_TIME]
  {
    var n, m := JobsAreInstants(c, turns);
    assert Instant(c, 0) == ZERO_TIME;
    assert n <= 1;
    assert Instants(c, 0) == [] && Instants(c, 1) == Instants(c, 0) + [Instant(c, 0)];
  }

  /** With `immediate` it never rests: two undisturbed reconciles at new times bring the status
      back to where it was, with a backup more, and so for ever. */
  lemma {:induction false} ImmediateNeverRests(c: Setting, turns: seq<Turn>)
    requires c.immediate && forall t :: c.next(t) == ZERO_TIME
    requires forall i :: 0 <= i < |turns| ==> Undisturbed(turns[i]) && turns[i].now > ZERO_TIME
    requires forall i, j :: 0 <= i < j < |turns| ==> turns[i].now < turns[j].now
    ensures |Runs(c, turns).jobs| >= (|turns| + 1) / 2
    ensures Runs(c, turns).last == if |turns| % 2 == 0 then None else Some(turns[|turns| - 1].now)
    ensures forall a :: a in Runs(c, turns).jobs ==> a == ZERO_TIME || exists i :: 0 <= i < |turns| && turns[i].now == a
  {
    if turns != [] {
      var before, last := turns[..|turns| - 1], turns[|turns| - 1];
      ImmediateNeverRests(c, before);
      var s := Runs(c, before);
      assert Runs(c, turns) == Reconcile(c, s, last);
      assert forall i :: 0 <= i < |before| ==> turns[i] == before[i];
      assert last.now !in s.jobs;
      assert turns[|turns| - 1].now == last.now;
    }
  }

  /** With `immediate`, a lost first status update is repeated at another time, as another job. */
  lemma ImmediateRepeats(c: Setting, now: int, later: int)
    requires now != later
    ensures Runs(c, [Turn(now, false, false, {3}), Turn(later, false, false, {})]).jobs == [now, later] <==> c.immediate
  {
    var a, b := Turn(now, false, false, {3}), Turn(later, false, false, {});
    assert [a, b][..1] == [a] && [a][..0] == [];
    assert Runs(c, []) == State(None, []);
    assert Runs(c, [a]) == Reconcile(c, State(None, []), a);
    assert Runs(c, [a, b]) == Reconcile(c, Runs(c, [a]), b);
    if !c.immediate { assert |Runs(c, [a, b]).jobs| <= 1; }
  }

  // ---------------------------------------------------------------------------
  // Names of the jobs.

  function TrimLeft(s: string): string {
    if s != [] && s[0] == '-' then TrimLeft(s[1..]) else s
  }

  function TrimRight(s: string): string {
    if s != [] && s[|s| - 1] == '-' then TrimRight(s[..|s| - 1]) else s
  }

  function Trim(s: string): string {
    TrimRight(TrimLeft(s))
  }

  function Prefix(name: string, room: nat): string {
    var whole := Trim(name);
    var cut := if |whole| > room then Trim(whole[..room]) else whole;
    if cut == "" then "scheduled-backup" else cut
  }

  /** Seconds as printed, with a sign before the zero time's. */
  function Seconds(t: int): string {
    if t < 0 then "-" + Decimal(-t) else Decimal(t)
  }

  /** A job's name: a cut schedule name, a dash and the instant. */
  function Dashed(prefix: string, t: int): string {
    prefix + "-" + Seconds(t)
  }

  /** The job of instant `t`: the schedule's name, cut to fit, and the instant. */
  function JobName(name: string, t: int): string
    requires |Seconds(t)| <= 62
  {
    Dashed(Prefix(name, 62 - |Seconds(t)|), t)
  }

  lemma {:induction false} TrimShortens(s: string)
    ensures |TrimLeft(s)| <= |s| && |TrimRight(s)| <= |s|
  {
    if s != [] {
      TrimShortens(s[1..]);
      TrimShortens(s[..|s| - 1]);
    }
  }

  lemma {:induction false} TrimmedEnd(s: string)
    ensures TrimRight(s) == "" || TrimRight(s)[|TrimRight(s)| - 1] != '-'
  {
    if s != [] { TrimmedEnd(s[..|s| - 1]); }
  }

  /** Not empty and not ending in a dash, as every prefix is. */
  ghost predicate Solid(p: string) {
    p != "" && p[|p| - 1] != '-'
  }

  lemma {:induction false} TrimmedStart(s: string)
    ensures TrimLeft(s) == "" || TrimLeft(s)[0] != '-'
  {
    if s != [] { TrimmedStart(s[1..]); }
  }

  lemma {:induction false} TrimRightCuts(s: string)
    ensures TrimRight(s) <= s && forall i :: |TrimRight(s)| <= i < |s| ==> s[i] == '-'
  {
    if s != [] && s[|s| - 1] == '-' { TrimRightCuts(s[..|s| - 1]); }
  }

  /** Whatever the schedule is called, the prefix neither starts nor ends in a dash. */
  lemma PrefixIsSolid(name: string, room: nat)
    ensures Solid(Prefix(name, room)) && Prefix(name, room)[0] != '-'
  {
    var whole := Trim(name);
    TrimmedStart(name);
    TrimmedEnd(TrimLeft(name));
    TrimRightCuts(TrimLeft(name));
    if |whole| > room {
      TrimmedStart(whole[..room]);
      TrimmedEnd(TrimLeft(whole[..room]));
      TrimRightCuts(TrimLeft(whole[..room]));
    }
  }

  /** A name as Kubernetes accepts it starts and ends in no dash. */
  ghost predicate ValidName(name: string) {
    name != "" && name[0] != '-' && name[|name| - 1] != '-'
  }

  /** The prefix is the schedule's name if that fits, and otherwise its longest beginning that fits
      and does not end in a dash. */
  lemma PrefixIsCutName(name: string, room: nat)
    requires ValidName(name) && room > 0
    ensures |name| <= room ==> Prefix(name, room) == name
    ensures |name| > room ==>
      var p := Prefix(name, room);
      Solid(p) && |p| <= room && p <= name && forall i :: |p| <= i < room ==> name[i] == '-'
  {
    assert TrimLeft(name) == name && TrimRight(name) == name;
    PrefixIsSolid(name, room);
    if |name| > room {
      var cut := name[..room];
      assert TrimLeft(cut) == cut;
      TrimRightCuts(cut);
      assert TrimRight(cut) != "" by { assert cut[0] != '-'; }
    }
  }

  /** Jobs of one name have one instant and one cut schedule name: different instants give
      different names, of one schedule or of two, and the sign of an instant cannot be taken for
      the dash before it. */
  lemma NamesAreDistinct(p: string, q: string, t: int, u: int)
    requires Solid(p) && Solid(q)
    requires Dashed(p, t) == Dashed(q, u)
    ensures t == u && p == q
  {
    SecondsAreOrdinal(p, t);
    SecondsAreOrdinal(q, u);
    var a, b := BeforeDigits(p, t), BeforeDigits(q, u);
    OrdinalOfPod(a, Abs(t));
    OrdinalOfPod(b, Abs(u));
    DecimalInjective(Abs(t), Abs(u));
    SamePrefix(a, b, Abs(t));
    SameSign(p, q, t, u);
  }

  lemma SecondsAreOrdinal(p: string, t: int)
    ensures Dashed(p, t) == PodOf(BeforeDigits(p, t), Abs(t))
  {
    if t < 0 { assert p + "-" + ("-" + Decimal(-t)) == p + "-" + "-" + Decimal(-t); }
  }

  lemma SameSign(p: string, q: string, t: int, u: int)
    requires Solid(p) && Solid(q)
    requires Abs(t) == Abs(u) && BeforeDigits(p, t) == BeforeDigits(q, u)
    ensures t == u && p == q
  {
    var a := BeforeDigits(p, t);
    assert t < 0 ==> a[|a| - 1] == '-' && a[..|a| - 1] == p;
    assert u < 0 ==> a[|a| - 1] == '-' && a[..|a| - 1] == q;
  }

  function Abs(t: int): nat {
    if t < 0 then -t else t
  }

  /** What stands before the last dash of a job's name. */
  function BeforeDigits(p: string, t: int): string {
    if t < 0 then p + "-" else p
  }

  /** A name has at most 63 characters whenever the instant is printed in at most 46. */
  lemma NamesAreShort(name: string, t: int)
    requires |Seconds(t)| <= 46
    ensures |JobName(name, t)| <= 63
  {
    var room := 62 - |Seconds(t)|;
    var whole := Trim(name);
    TrimShortens(name);
    TrimShortens(TrimLeft(name));
    if |whole| > room {
      TrimShortens(whole[..room]);
      TrimShortens(TrimLeft(whole[..room]));
    }
  }

  /** Two schedules share the name of an instant's job, and so its existence, exactly when their
      cut names are equal: the second to be due then records a job it did not create. */
  lemma SharedNames(p: string, q: string, t: int)
    requires Solid(p) && Solid(q)
    ensures Dashed(p, t) == Dashed(q, t) <==> p == q
  {
    if Dashed(p, t) == Dashed(q, t) { NamesAreDistinct(p, q, t, t); }
  }

  lemma SamePrefix(p: string, q: string, t: nat)
    ensures PodOf(p, t) == PodOf(q, t) <==> p == q
  {
    var tail := "-" + Decimal(t);
    assert PodOf(p, t) == p + tail && PodOf(q, t) == q + tail;
    if p + tail == q + tail {
      assert |p| == |q|;
      assert p == (p + tail)[..|p|] && q == (q + tail)[..|q|];
    }
  }
}
