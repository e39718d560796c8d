/** The two in-memory debouncers of the cluster controller, against specifications over the
full history of their calls. Times are in nanoseconds. */
module Debounce {

  const PROMOTE_AFTER: int := 8_000_000_000

  /** One call: for which cluster or shard, whether the condition holds, whether a window may
      start now, and when. */
  datatype Call = Call(key: string, holds: bool, mayStart: bool, now: int)

  /** Calls `i..` for `key`, up to `n`, all found the condition holding. */
  ghost predicate Unbroken(h: seq<Call>, key: string, i: nat, n: nat)
    requires n <= |h|
  {
    forall j :: i <= j < n && h[j].key == key ==> h[j].holds
  }

  /** The window open after the first `n` calls started with call `i`: an unbroken run of the
      condition from there, and no earlier call could have started it. */
  ghost predicate Starts(h: seq<Call>, key: string, i: nat, n: nat)
    requires n <= |h|
  {
    && i < n && h[i].key == key && h[i].mayStart && Unbroken(h, key, i, n)
    && forall j :: 0 <= j < i && h[j].key == key && h[j].mayStart ==> !Unbroken(h, key, j, n)
  }

  ghost predicate Open(h: seq<Call>, key: string, n: nat)
    requires n <= |h|
  {
    exists i: nat :: Starts(h, key, i, n)
  }

  /** How one more call moves the window. */
  lemma WindowStep(h: seq<Call>, key: string, i: nat, n: nat)
    requires n < |h|
    ensures h[n].key != key ==> (Starts(h, key, i, n + 1) <==> Starts(h, key, i, n))
    ensures h[n].key == key && !h[n].holds ==> !Starts(h, key, i, n + 1)
    ensures h[n].key == key && h[n].holds && i < n ==> (Starts(h, key, i, n + 1) <==> Starts(h, key, i, n))
    ensures h[n].key == key && h[n].holds ==> (Starts(h, key, n, n + 1) <==> h[n].mayStart && !Open(h, key, n))
  {
    forall j: nat | h[n].key != key || h[n].holds ensures Unbroken(h, key, j, n + 1) <==> Unbroken(h, key, j, n) { }
    if h[n].key == key && h[n].holds && h[n].mayStart {
      if Starts(h, key, n, n + 1) {
        forall k: nat ensures !Starts(h, key, k, n) { }
      } else {
        var j :| 0 <= j < n && h[j].key == key && h[j].mayStart && Unbroken(h, key, j, n + 1);
        assert Unbroken(h, key, j, n);
        EarliestStart(h, key, j, n);
      }
    }
  }

  /** If some call could start an unbroken window, a window is open. */
  lemma {:induction false} EarliestStart(h: seq<Call>, key: string, j: nat, n: nat)
    requires n <= |h| && j < n && h[j].key == key && h[j].mayStart && Unbroken(h, key, j, n)
    ensures Open(h, key, n)
    decreases j
  {
    if exists k :: 0 <= k < j && h[k].key == key && h[k].mayStart && Unbroken(h, key, k, n) {
      var k :| 0 <= k < j && h[k].key == key && h[k].mayStart && Unbroken(h, key, k, n);
      EarliestStart(h, key, k, n);
    } else {
      assert Starts(h, key, j, n);
    }
  }

  /** A window opened before call `n` has lasted `span` at call `n`, which still finds the
      condition. */
  ghost predicate Lasted(h: seq<Call>, key: string, n: nat, span: int)
    requires n < |h|
  {
    h[n].holds && exists i: nat :: Starts(h, key, i, n) && h[n].now - h[i].now >= span
  }

  /** The condition has held at least `span` since call `i`, which could start a window. */
  ghost predicate HeldSince(h: seq<Call>, key: string, i: nat, n: nat, span: int)
    requires i < n < |h|
  {
    h[i].key == key && h[i].mayStart && Unbroken(h, key, i, n + 1) && h[n].now - h[i].now >= span
  }

  /** On a clock that does not run backwards: exactly when some earlier call that could
      start a window is at least `span` old and the condition has held since. */
  lemma LastedByAnyStart(h: seq<Call>, key: string, n: nat, span: int)
    requires n < |h| && h[n].key == key
    requires forall i, j :: 0 <= i <= j < |h| ==> h[i].now <= h[j].now
    ensures Lasted(h, key, n, span) <==>
      exists i :: 0 <= i < n && HeldSince(h, key, i, n, span)
  {
    assert h[n].holds ==> forall j: nat :: Unbroken(h, key, j, n) <==> Unbroken(h, key, j, n + 1);
    if Lasted(h, key, n, span) {
      var i: nat :| Starts(h, key, i, n) && h[n].now - h[i].now >= span;
      assert HeldSince(h, key, i, n, span);
    }
    if exists i :: 0 <= i < n && HeldSince(h, key, i, n, span) {
      var i :| 0 <= i < n && HeldSince(h, key, i, n, span);
      assert h[n].holds && Unbroken(h, key, i, n);
      EarliestStart(h, key, i, n);
      var k: nat :| Starts(h, key, k, n);
      assert k <= i;
    }
  }

  /** The map holds, for each key with an open window, when that window started. */
  ghost predicate Tracks(h: seq<Call>, since: map<string, int>) {
    && (forall key :: key in since <==> Open(h, key, |h|))
    && (forall key, i: nat :: Starts(h, key, i, |h|) ==> key in since && since[key] == h[i].now)
  }

  function Moved(since: map<string, int>, call: Call): map<string, int> {
    if !call.holds then since - {call.key}
    else if call.key in since || !call.mayStart then since
    else since[call.key := call.now]
  }

  lemma SamePrefix(h: seq<Call>, call: Call, key: string, i: nat)
    ensures Starts(h + [call], key, i, |h|) <==> Starts(h, key, i, |h|)
  {
    assert forall j :: 0 <= j < |h| ==> (h + [call])[j] == h[j];
    forall j: nat ensures Unbroken(h + [call], key, j, |h|) <==> Unbroken(h, key, j, |h|) { }
  }

  /** One call's effect on one key's window. */
  lemma CallStep(h: seq<Call>, call: Call, key: string, i: nat)
    ensures var g := h + [call];
      && (key != call.key ==> (Starts(g, key, i, |g|) <==> Starts(h, key, i, |h|)))
      && (key == call.key && !call.holds ==> !Starts(g, key, i, |g|))
      && (key == call.key && call.holds && i < |h| ==> (Starts(g, key, i, |g|) <==> Starts(h, key, i, |h|)))
      && (key == call.key && call.holds && i == |h| ==>
            (Starts(g, key, i, |g|) <==> call.mayStart && !Open(h, key, |h|)))
  {
    var g, n := h + [call], |h|;
    WindowStep(g, key, i, n);
    forall k: nat ensures Starts(g, key, k, n) <==> Starts(h, key, k, n) { SamePrefix(h, call, key, k); }
    assert Open(g, key, n) <==> Open(h, key, n);
  }

  lemma MovedTracks(h: seq<Call>, since: map<string, int>, call: Call)
    requires Tracks(h, since)
    ensures Tracks(h + [call], Moved(since, call))
  {
    var g, m := h + [call], Moved(since, call);
    forall key, i: nat | Starts(g, key, i, |g|) ensures key in m && m[key] == g[i].now {
      CallStep(h, call, key, i);
      if i < |h| { assert g[i] == h[i]; }
    }
    forall key | key in m ensures Open(g, key, |g|) {
      if key == call.key && key !in since {
        CallStep(h, call, key, |h|);
        assert Starts(g, key, |h|, |g|);
      } else {
        var i: nat :| Starts(h, key, i, |h|);
        CallStep(h, call, key, i);
        assert Starts(g, key, i, |g|);
      }
    }
  }

  // ---------------------------------------------------------------------------

  class Windows {
    var since: map<string, int>
    ghost var history: seq<Call>

    /** The map holds, for each key with an open window, when that window started. */
    ghost predicate Valid()
      reads this
    {
      Tracks(history, since)
    }

    constructor ()
      ensures Valid() && history == []
    {
      since, history := map[], [];
    }

    /** Records a call whose effect on the map is that of `Moved`. */
    ghost method Record(call: Call, before: map<string, int>)
      requires since == Moved(before, call) && Tracks(history, before)
      modifies this`history
      ensures Valid() && history == old(history) + [call]
    {
      MovedTracks(history, before, call);
      history := history + [call];
    }

    /** Whether a detected primary failure may be acted on now. */
    method ShouldPromote(key: string, failed: bool, canStart: bool, now: int) returns (ok: bool)
      requires Valid()
      modifies this
      ensures Valid() && history == old(history) + [Call(key, failed, canStart, now)]
      ensures ok <==> Lasted(history, key, |old(history)|, PROMOTE_AFTER)
    {
      ghost var before := since;
      if !failed {
        since := since - {key};
        ok := false;
      } else if key !in since {
        if canStart { since := since[key := now]; }
        ok := false;
      } else {
        ok := now - since[key] >= PROMOTE_AFTER;
      }
      ghost var h := history;
      Record(Call(key, failed, canStart, now), before);
      forall i: nat ensures Starts(history, key, i, |h|) <==> Starts(h, key, i, |h|) {
        SamePrefix(h, Call(key, failed, canStart, now), key, i);
      }
    }

    /** Whether a breached split trigger has been breached for `span`. */
    method Sustained(key: string, breached: bool, now: int, span: int) returns (ok: bool)
      requires Valid() && span >= 0
      modifies this
      ensures Valid() && history == old(history) + [Call(key, breached, true, now)]
      ensures ok <==> breached && exists i: nat :: Starts(history, key, i, |history|) && now - history[i].now >= span
    {
      ghost var before := since;
      if !breached {
        since := since - {key};
        ok := false;
      } else if key !in since {
        since := since[key := now];
        ok := span == 0;
      } else {
        ok := now - since[key] >= span;
      }
      ghost var h := history;
      Record(Call(key, breached, true, now), before);
      if breached {
        assert Open(history, key, |history|);
        ghost var k: nat :| Starts(history, key, k, |history|);
        assert since[key] == history[k].now;
      }
    }
  }
}
