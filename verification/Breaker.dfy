/** The router's per-backend circuit breaker, shared by all dialing goroutines: each call to
it is atomic, and calls of different dials interleave freely. */
module Breaker {
  import opened Basics

  /** A positive number of failures opens the breaker for `cooldown`; otherwise it is off. */
  datatype Config = Config(threshold: int, cooldown: int, retries: int)

  datatype State = State(failures: nat, openUntil: Option<int>, probing: bool)

  const CLEAN := State(0, None, false)

  /** One dial asks to go ahead, or completes. */
  datatype Event = Ask(dial: nat, now: int) | Success(dial: nat) | Failure(dial: nat, now: int)

  predicate Admits(s: State, now: int) {
    s.openUntil.None? || (now >= s.openUntil.value && !s.probing)
  }

  function Next(c: Config, s: State, e: Event): State {
    if c.threshold <= 0 then s
    else match e
      case Ask(_, now) => if s.openUntil.Some? && Admits(s, now) then s.(probing := true) else s
      case Success(_) => CLEAN
      case Failure(_, now) =>
        State(s.failures + 1, if s.failures + 1 >= c.threshold then Some(now + c.cooldown) else s.openUntil, false)
  }

  function Run(c: Config, h: seq<Event>): State {
    if h == [] then CLEAN else Next(c, Run(c, h[..|h| - 1]), h[|h| - 1])
  }

  // ---------------------------------------------------------------------------
  // The specification, on the history alone.

  /** Failures completed since the last success. */
  function FailuresSince(h: seq<Event>): nat {
    if h == [] || h[|h| - 1].Success? then 0
    else FailuresSince(h[..|h| - 1]) + if h[|h| - 1].Failure? then 1 else 0
  }

  function LastFailure(h: seq<Event>): int {
    if h == [] then 0 else if h[|h| - 1].Failure? then h[|h| - 1].now else LastFailure(h[..|h| - 1])
  }

  predicate IsOpen(c: Config, h: seq<Event>) {
    FailuresSince(h) >= c.threshold
  }

  /** The request `h[i]` is let through. */
  predicate Admitted(c: Config, h: seq<Event>, i: nat)
    requires i < |h|
  {
    h[i].Ask? && (c.threshold <= 0 || Admits(Run(c, h[..i]), h[i].now))
  }

  ghost predicate NoCompletion(h: seq<Event>, i: nat, j: nat)
    requires j <= |h|
  {
    forall k :: i <= k < j ==> h[k].Ask?
  }

  /** Some request was let through while the breaker was open, and nothing completed since. */
  ghost predicate Probing(c: Config, h: seq<Event>) {
    exists i: nat :: i < |h| && ProbeAt(c, h, i)
  }

  ghost predicate ProbeAt(c: Config, h: seq<Event>, i: nat)
    requires i < |h|
  {
    IsOpen(c, h[..i]) && Admitted(c, h, i) && NoCompletion(h, i, |h|)
  }

  /** The counter is the failures since the last success; the breaker is open exactly when
      they reach the threshold, until the last failure plus the cooldown; and a probe is
      noted exactly when one was let through since the last completion. */
  lemma {:induction false} StateIsHistory(c: Config, h: seq<Event>)
    requires c.threshold > 0
    ensures Run(c, h).failures == FailuresSince(h)
    ensures Run(c, h).openUntil == if IsOpen(c, h) then Some(LastFailure(h) + c.cooldown) else None
    ensures Run(c, h).probing <==> Probing(c, h)
  {
    if h != [] {
      var before, e := h[..|h| - 1], h[|h| - 1];
      StateIsHistory(c, before);
      ProbingStep(c, before, e);
      assert h == before + [e];
    }
  }

  lemma ProbingStep(c: Config, h: seq<Event>, e: Event)
    ensures Probing(c, h + [e]) <==>
      e.Ask? && (Probing(c, h) || (IsOpen(c, h) && Admitted(c, h + [e], |h|)))
  {
    var h' := h + [e];
    assert h'[..|h|] == h;
    forall i: nat | i < |h| ensures ProbeAt(c, h', i) <==> e.Ask? && ProbeAt(c, h, i) {
      assert h'[..i] == h[..i];
      if ProbeAt(c, h', i) {
        assert NoCompletion(h, i, |h|) by {
          forall k | i <= k < |h| ensures h[k].Ask? { assert h'[k] == h[k]; }
        }
        assert h'[|h|] == e;
      }
    }
    if Probing(c, h) && e.Ask? {
      var i: nat :| i < |h| && ProbeAt(c, h, i);
      assert ProbeAt(c, h', i);
    }
    if e.Ask? && IsOpen(c, h) && Admitted(c, h', |h|) { assert ProbeAt(c, h', |h|); }
    if Probing(c, h') {
      var i: nat :| i < |h'| && ProbeAt(c, h', i);
      assert i < |h| || i == |h|;
    }
  }

  /** A breaker that is off keeps no state and lets every request through. */
  lemma {:induction false} OffLetsAllThrough(c: Config, h: seq<Event>, i: nat)
    requires c.threshold <= 0 && i < |h|
    ensures Run(c, h) == CLEAN && (Admitted(c, h, i) <==> h[i].Ask?)
  {
    if |h| > 1 { OffLetsAllThrough(c, h[..|h| - 1], 0); }
  }

  /** While the breaker is open nothing is let through before the last failure plus the
      cooldown, and after it at most one request between two completions. */
  lemma AdmissionWhileOpen(c: Config, h: seq<Event>, i: nat)
    requires c.threshold > 0 && i < |h| && h[i].Ask? && IsOpen(c, h[..i])
    ensures Admitted(c, h, i) <==> h[i].now >= LastFailure(h[..i]) + c.cooldown && !Probing(c, h[..i])
  {
    StateIsHistory(c, h[..i]);
  }

  lemma OneAdmissionBetweenCompletions(c: Config, h: seq<Event>, i: nat, j: nat)
    requires c.threshold > 0 && i < j < |h| && NoCompletion(h, i, j)
    requires IsOpen(c, h[..i]) && Admitted(c, h, i) && h[j].Ask?
    ensures !Admitted(c, h, j)
  {
    var g := h[..j];
    assert g[..i] == h[..i];
    assert ProbeAt(c, g, i);
    StateIsHistory(c, g);
    StateIsHistory(c, h[..i]);
    StaysOpen(c, h, i, j);
  }

  lemma {:induction false} StaysOpen(c: Config, h: seq<Event>, i: nat, j: nat)
    requires i <= j <= |h| && NoCompletion(h, i, j) && IsOpen(c, h[..i])
    ensures IsOpen(c, h[..j])
    decreases j
  {
    if i < j {
      StaysOpen(c, h, i, j - 1);
      assert h[..j][..j - 1] == h[..j - 1] && h[..j][j - 1] == h[j - 1];
    }
  }

  lemma RunStep(c: Config, h: seq<Event>, n: nat)
    requires n < |h|
    ensures Run(c, h[..n + 1]) == Next(c, Run(c, h[..n]), h[n])
  {
    assert h[..n + 1][..n] == h[..n];
  }

  /** Two probes can be in flight at once: a slow dial let through before the breaker opened
      fails while the first probe is still running. */
  lemma TwoProbesInFlight()
    ensures exists c: Config, h: seq<Event>, i: nat, j: nat ::
      && c.threshold > 0 && i < j < |h| && h[i].Ask? && h[j].Ask? && h[i].dial != h[j].dial
      && IsOpen(c, h[..i]) && Admitted(c, h, i) && IsOpen(c, h[..j]) && Admitted(c, h, j)
      && (forall k :: 0 <= k < |h| && !h[k].Ask? ==> h[k].dial != h[i].dial && h[k].dial != h[j].dial)
  {
    var c := Config(1, 10, 0);
    var h := [Ask(0, 0), Ask(1, 0), Failure(1, 0), Ask(2, 10), Failure(0, 11), Ask(3, 21)];
    assert Run(c, h[..0]) == CLEAN;
    RunStep(c, h, 0);
    RunStep(c, h, 1);
    RunStep(c, h, 2);
    RunStep(c, h, 3);
    RunStep(c, h, 4);
    assert Run(c, h[..3]) == State(1, Some(10), false);
    assert Run(c, h[..4]) == State(1, Some(10), true);
    assert Run(c, h[..5]) == State(2, Some(21), false);
    StateIsHistory(c, h[..3]);
    StateIsHistory(c, h[..5]);
    assert Admitted(c, h, 3) && Admitted(c, h, 5);
  }

  // ---------------------------------------------------------------------------
  // The dialer.

  class Dialer {
    const c: Config
    var breakers: map<string, State>

    /** A breaker that is off keeps no state. */
    ghost predicate Valid()
      reads this
    {
      c.threshold <= 0 ==> breakers == map[]
    }

    constructor (config: Config)
      ensures c == config && breakers == map[] && Valid()
    {
      c, breakers := config, map[];
    }

    /** An absent breaker is a clean one. */
    function Of(addr: string): State
      reads this
    {
      if addr in breakers then breakers[addr] else CLEAN
    }

    method Allow(addr: string, dial: nat, now: int) returns (ok: bool)
      modifies this`breakers
      ensures ok <==> c.threshold <= 0 || Admits(old(Of(addr)), now)
      ensures Of(addr) == Next(c, old(Of(addr)), Ask(dial, now))
      ensures forall a :: a != addr ==> Of(a) == old(Of(a))
      ensures c.threshold <= 0 ==> breakers == old(breakers)
    {
      if c.threshold <= 0 { return true; }
      if addr !in breakers || breakers[addr].openUntil.None? { return true; }
      var b := breakers[addr];
      if now < b.openUntil.value || b.probing { return false; }
      breakers := breakers[addr := b.(probing := true)];
      ok := true;
    }

    method OnSuccess(addr: string, dial: nat)
      requires Valid()
      modifies this`breakers
      ensures Of(addr) == Next(c, old(Of(addr)), Success(dial))
      ensures forall a :: a != addr ==> Of(a) == old(Of(a))
      ensures Valid()
    {
      breakers := breakers - {addr};
    }

    method OnFailure(addr: string, dial: nat, now: int)
      modifies this`breakers
      ensures Of(addr) == Next(c, old(Of(addr)), Failure(dial, now))
      ensures forall a :: a != addr ==> Of(a) == old(Of(a))
      ensures c.threshold <= 0 ==> breakers == old(breakers)
    {
      if c.threshold <= 0 { return; }
      var b := Of(addr);
      var failures := b.failures + 1;
      var until := if failures >= c.threshold then Some(now + c.cooldown) else b.openUntil;
      breakers := breakers[addr := State(failures, until, false)];
    }

    /** One dial, undisturbed: ask, try up to `retries` more times, report once.
        `attempts` says which attempt would succeed. */
    method Dial(addr: string, dial: nat, attempts: nat -> bool, now: int, later: int) returns (ok: bool, tried: nat)
      requires Valid()
      requires c.retries >= 0
      modifies this`breakers
      ensures old(c.threshold > 0 && !Admits(Of(addr), now)) ==> !ok && tried == 0 && Of(addr) == old(Of(addr))
      ensures old(c.threshold <= 0 || Admits(Of(addr), now)) ==>
        && (ok <==> exists k: nat :: k <= c.retries && attempts(k))
        && (ok ==> 0 < tried <= c.retries + 1 && attempts(tried - 1) && forall k: nat :: k < tried - 1 ==> !attempts(k))
        && (!ok ==> tried == c.retries + 1)
        && Of(addr) == Next(c, Next(c, old(Of(addr)), Ask(dial, now)),
                            if ok then Success(dial) else Failure(dial, later))
      ensures forall a :: a != addr ==> Of(a) == old(Of(a))
      ensures Valid()
    {
      ok := Allow(addr, dial, now);
      if !ok { return false, 0; }
      tried := 0;
      while tried <= c.retries
        invariant 0 <= tried <= c.retries + 1
        invariant forall k: nat :: k < tried ==> !attempts(k)
        invariant Of(addr) == Next(c, old(Of(addr)), Ask(dial, now))
        invariant forall a :: a != addr ==> Of(a) == old(Of(a))
        invariant Valid()
      {
        tried := tried + 1;
        if attempts(tried - 1) {
          OnSuccess(addr, dial);
          return true, tried;
        }
      }
      OnFailure(addr, dial, later);
      ok := false;
    }
  }
}
