/** The router's explicit transactions: BEGIN is answered at once and sent later, to the
backend of the transaction's first statement, which then keeps the session pinned. */
module Transactions {
  import opened Basics

  type Backend = string

  /** What a message does to the backend that runs it, whatever statements its text holds:
      whether a transaction is open there afterwards, if none was and if one was. */
  datatype Effect = Effect(fromIdle: bool, fromOpen: bool)

  const KEEPS := Effect(false, true)
  const OPENS := Effect(true, true)
  const CLOSES := Effect(false, false)

  function After(e: Effect, open: bool): bool {
    if open then e.fromOpen else e.fromIdle
  }

  datatype Route = To(backend: Backend) | Scattered | NoRoute

  /** A simple Query with its first keyword, or an extended batch with a Bind; where it is
      routed; what it does to a backend; whether the connections hold. */
  datatype Input =
    | Query(keyword: string, effect: Effect, route: Route, holds: bool)
    | Batch(effect: Effect, route: Route, holds: bool)

  /** What a backend was sent: the deferred BEGIN of client transaction `tx`, or a statement
      the client sent inside `tx`. */
  datatype Sent = SentBegin(backend: Backend, tx: nat) | SentStatement(backend: Backend, within: Option<nat>)

  /** The session's own state; `pending` stands for the deferred message; `begins` counts the
      BEGINs answered, the last being the pending one; `open` are the backends that really have
      an open transaction; `sent` is the record. */
  datatype State = State(
    alive: bool, inTx: bool, pending: Effect, pinned: Option<Backend>, begins: nat, open: set<Backend>, sent: seq<Sent>)

  const FRESH := State(true, false, KEEPS, None, 0, {}, [])

  /** The backends with an open transaction after `b` ran a message. */
  function Opened(open: set<Backend>, b: Backend, effect: Effect): set<Backend> {
    if After(effect, b in open) then open + {b} else open - {b}
  }

  predicate Ends(keyword: string) {
    keyword == "commit" || keyword == "rollback" || keyword == "end"
  }

  predicate Starts(keyword: string) {
    keyword == "begin" || keyword == "start"
  }

  function CurrentTx(s: State): Option<nat> {
    if s.inTx then Some(s.begins) else None
  }

  /** A statement reaches backend `b`; if the connection breaks the session ends and closes
      its backends, which rolls their transactions back. */
  function Relay(s: State, b: Backend, effect: Effect, holds: bool): State {
    if !holds then s.(alive := false, open := {}, sent := s.sent + [SentStatement(b, CurrentTx(s))])
    else s.(open := Opened(s.open, b, effect), sent := s.sent + [SentStatement(b, CurrentTx(s))])
  }

  /** Sends the pending BEGIN, whatever else its text holds, to `b` and pins the session there. */
  function Pin(s: State, b: Backend): State {
    s.(pinned := Some(b), open := Opened(s.open, b, s.pending), sent := s.sent + [SentBegin(b, s.begins)])
  }

  /** A statement routed to `b` while nothing is pinned. */
  function Routed(s: State, b: Backend, effect: Effect, holds: bool): State {
    if s.inTx && !holds then Pin(s, b).(alive := false, open := {})
    else Relay(if s.inTx then Pin(s, b) else s, b, effect, holds)
  }

  function Next(s: State, x: Input): State {
    if !s.alive then s
    else match x
      case Query(keyword, effect, route, holds) =>
        if s.inTx && s.pinned.Some? then
          var t := Relay(s, s.pinned.value, effect, holds);
          if Ends(keyword) then t.(inTx := false, pinned := None) else t
        else if !s.inTx && Starts(keyword) then
          s.(inTx := true, pending := effect, pinned := None, begins := s.begins + 1)
        else if route.To? then
          Routed(s, route.backend, effect, holds)
        else s
      case Batch(effect, route, holds) =>
        if !route.To? then s
        else if s.inTx && s.pinned.Some? then Relay(s, s.pinned.value, effect, holds)
        else Routed(s, route.backend, effect, holds)
  }

  function Run(xs: seq<Input>): State {
    if xs == [] then FRESH else Next(Run(xs[..|xs| - 1]), xs[|xs| - 1])
  }

  // ---------------------------------------------------------------------------
  // The session object.

  class Session {
    var alive: bool
    var inTx: bool
    var pending: Effect
    var pinned: Option<Backend>
    var begins: nat
    ghost var open: set<Backend>
    ghost var sent: seq<Sent>

    ghost function View(): State
      reads this
    {
      State(alive, inTx, pending, pinned, begins, open, sent)
    }

    method ExecAndRelay(b: Backend, effect: Effect, holds: bool)
      modifies this`alive, this`open, this`sent
      ensures View() == Relay(old(View()), b, effect, holds)
    {
      sent := sent + [SentStatement(b, if inTx then Some(begins) else None)];
      if !holds {
        alive := false;
        open := {};
      } else {
        open := Opened(open, b, effect);
      }
    }

    /** The backend for a routed statement, pinning a transaction that has none yet; none
        when the BEGIN did not get through. */
    method BackendForRouted(b: Backend, holds: bool) returns (c: Option<Backend>)
      modifies this`alive, this`pinned, this`open, this`sent
      ensures c == if inTx && old(pinned).Some? then old(pinned) else if inTx && !holds then None else Some(b)
      ensures View() == if !inTx || old(pinned).Some? then old(View())
                        else if holds then Pin(old(View()), b) else Pin(old(View()), b).(alive := false, open := {})
    {
      if inTx && pinned.Some? { return pinned; }
      if inTx {
        sent := sent + [SentBegin(b, begins)];
        open := Opened(open, b, pending);
        pinned := Some(b);
        if !holds {
          alive := false;
          open := {};
          return None;
        }
      }
      c := Some(b);
    }

    method Handle(x: Input)
      modifies this
      ensures View() == Next(old(View()), x)
    {
      if !alive { return; }
      match x
      case Query(keyword, effect, route, holds) =>
        if inTx && pinned.Some? {
          ExecAndRelay(pinned.value, effect, holds);
          if Ends(keyword) { inTx, pinned := false, None; }
        } else if !inTx && Starts(keyword) {
          inTx, pending, pinned, begins := true, effect, None, begins + 1;
        } else if route.To? {
          var c := BackendForRouted(route.backend, holds);
          if c.Some? { ExecAndRelay(c.value, effect, holds); }
        }
      case Batch(effect, route, holds) =>
        if route.To? {
          var c := BackendForRouted(route.backend, holds);
          if c.Some? { ExecAndRelay(c.value, effect, holds); }
        }
    }
  }

  // ---------------------------------------------------------------------------
  // Where statements go.

  /** The record: each transaction's BEGIN is sent at most once; a statement of a transaction
      follows its BEGIN, on the same backend. */
  ghost predicate Recorded(s: State) {
    && (forall i, j :: 0 <= i < j < |s.sent| && s.sent[i].SentBegin? && s.sent[j].SentBegin? ==>
          s.sent[i].tx < s.sent[j].tx)
    && (forall i :: 0 <= i < |s.sent| && s.sent[i].SentBegin? ==> s.sent[i].tx <= s.begins)
    && (forall i :: 0 <= i < |s.sent| && s.sent[i].SentStatement? && s.sent[i].within.Some? ==>
          BegunBefore(s.sent, i, s.sent[i].backend, s.sent[i].within.value))
    && (s.pinned.Some? ==> s.inTx && BegunBefore(s.sent, |s.sent|, s.pinned.value, s.begins))
    && (s.inTx && s.pinned.None? ==> forall i :: 0 <= i < |s.sent| && s.sent[i].SentBegin? ==> s.sent[i].tx < s.begins)
  }

  ghost predicate BegunBefore(sent: seq<Sent>, i: nat, b: Backend, tx: nat)
    requires i <= |sent|
  {
    exists j :: 0 <= j < i && sent[j] == SentBegin(b, tx)
  }

  lemma PinRecorded(s: State, b: Backend)
    requires Recorded(s) && s.inTx && s.pinned.None?
    ensures Recorded(Pin(s, b))
  {
    var t := Pin(s, b);
    forall i | 0 <= i < |t.sent| && t.sent[i].SentStatement? && t.sent[i].within.Some?
      ensures BegunBefore(t.sent, i, t.sent[i].backend, t.sent[i].within.value)
    {
      assert t.sent[i] == s.sent[i];
      var j :| 0 <= j < i && s.sent[j] == SentBegin(s.sent[i].backend, s.sent[i].within.value);
      assert t.sent[j] == s.sent[j];
    }
    assert t.sent[|s.sent|] == SentBegin(b, s.begins);
  }

  lemma RelayRecorded(s: State, b: Backend, effect: Effect, holds: bool)
    requires Recorded(s) && (s.inTx ==> s.pinned == Some(b))
    ensures Recorded(Relay(s, b, effect, holds))
  {
    var t := Relay(s, b, effect, holds);
    forall i | 0 <= i < |t.sent| && t.sent[i].SentStatement? && t.sent[i].within.Some?
      ensures BegunBefore(t.sent, i, t.sent[i].backend, t.sent[i].within.value)
    {
      var j :| 0 <= j < i && j < |s.sent| && s.sent[j] == SentBegin(t.sent[i].backend, t.sent[i].within.value);
      assert t.sent[j] == s.sent[j];
    }
    if s.pinned.Some? {
      var j :| 0 <= j < |s.sent| && s.sent[j] == SentBegin(s.pinned.value, s.begins);
      assert t.sent[j] == s.sent[j];
    }
  }

  lemma NextRecorded(s: State, x: Input)
    requires Recorded(s)
    ensures Recorded(Next(s, x))
  {
    if s.alive {
      if s.inTx && s.pinned.Some? {
        RelayRecorded(s, s.pinned.value, x.effect, x.holds);
      } else if x.route.To? {
        if s.inTx {
          PinRecorded(s, x.route.backend);
          RelayRecorded(Pin(s, x.route.backend), x.route.backend, x.effect, x.holds);
        } else {
          RelayRecorded(s, x.route.backend, x.effect, x.holds);
        }
      }
    }
  }

  /** In every session whatever: each deferred BEGIN is sent to at most one backend, before
      its transaction's first statement, and every statement of the transaction goes there. */
  lemma {:induction false} StatementsFollowBegin(xs: seq<Input>)
    ensures Recorded(Run(xs))
  {
    if xs != [] {
      StatementsFollowBegin(xs[..|xs| - 1]);
      NextRecorded(Run(xs[..|xs| - 1]), xs[|xs| - 1]);
    }
  }

  // ---------------------------------------------------------------------------
  // The keywords that begin and end a transaction.

  const STARTING: seq<string> := ["begin", "start"]
  const ENDING: seq<string> := ["commit", "rollback", "end"]

  /** A transaction that is pinned to a backend, all of whose messages go there. */
  predicate PinnedTo(s: State, b: Backend) {
    s.alive && s.inTx && s.pinned == Some(b)
  }

  predicate IdleSession(s: State) {
    s.alive && !s.inTx && s.pinned.None?
  }

  /** In a pinned transaction every message that has a backend goes to the pinned one, within the
      transaction; COMMIT, ROLLBACK and END, and nothing else, make the session idle. */
  lemma PinnedUntilEnded(s: State, x: Input, b: Backend)
    requires PinnedTo(s, b) && x.holds && (x.Query? || x.route.To?)
    ensures Next(s, x).sent == s.sent + [SentStatement(b, Some(s.begins))] && Next(s, x).begins == s.begins
    ensures if x.Query? && x.keyword in ENDING then IdleSession(Next(s, x)) else PinnedTo(Next(s, x), b)
  {
  }

  /** An idle session defers BEGIN and START, and nothing else: it is then in a new transaction
      that has no backend, and nothing was sent. Every other routed message goes to its own
      backend within no transaction. */
  lemma DeferredOrSent(s: State, x: Input)
    requires IdleSession(s) && x.holds
    ensures var t := Next(s, x);
      if x.Query? && x.keyword in STARTING then
        t == s.(inTx := true, pending := x.effect, begins := s.begins + 1)
      else
        IdleSession(t) && t.begins == s.begins
        && t.sent == if x.route.To? then s.sent + [SentStatement(x.route.backend, None)] else s.sent
  {
  }

  /** The first routed message of a transaction brings the deferred BEGIN to its own backend,
      follows it within the transaction, and pins the session there. */
  lemma FirstPins(s: State, x: Input)
    requires s.alive && s.inTx && s.pinned.None? && x.holds && x.route.To?
    ensures var b, t := x.route.backend, Next(s, x);
      && PinnedTo(t, b) && t.begins == s.begins
      && t.sent == s.sent + [SentBegin(b, s.begins), SentStatement(b, Some(s.begins))]
  {
    assert [SentBegin(x.route.backend, s.begins)] + [SentStatement(x.route.backend, Some(s.begins))]
      == [SentBegin(x.route.backend, s.begins), SentStatement(x.route.backend, Some(s.begins))];
  }

  /** The session after more messages. */
  function Onward(s: State, xs: seq<Input>): State
    decreases xs
  {
    if xs == [] then s else Onward(Next(s, xs[0]), xs[1..])
  }

  lemma {:induction false} OnwardLast(s: State, xs: seq<Input>, x: Input)
    ensures Onward(s, xs + [x]) == Next(Onward(s, xs), x)
    decreases xs
  {
    if xs == [] {
      assert xs + [x] == [x] && [x][1..] == [];
    } else {
      assert (xs + [x])[1..] == xs[1..] + [x];
      OnwardLast(Next(s, xs[0]), xs[1..], x);
    }
  }

  lemma {:induction false} PinnedRun(s: State, xs: seq<Input>, b: Backend)
    requires PinnedTo(s, b)
    requires forall i :: 0 <= i < |xs| ==>
      xs[i].holds && if xs[i].Query? then xs[i].keyword !in ENDING else xs[i].route.To?
    ensures PinnedTo(Onward(s, xs), b) && Onward(s, xs).begins == s.begins
    ensures Onward(s, xs).sent == s.sent + seq(|xs|, i => SentStatement(b, Some(s.begins)))
    decreases xs
  {
    if xs != [] {
      PinnedUntilEnded(s, xs[0], b);
      PinnedRun(Next(s, xs[0]), xs[1..], b);
    }
  }

  /** A whole transaction from any idle session: its BEGIN and all its statements go to the backend
      of the first one, however each is routed, and then the session is idle. */
  lemma {:induction false} WholeTransaction(s: State, start: Input, first: Input, more: seq<Input>, end: Input)
    requires IdleSession(s) && start.Query? && start.keyword in STARTING && start.holds
    requires first.holds && first.route.To? && end.Query? && end.keyword in ENDING && end.holds
    requires forall i :: 0 <= i < |more| ==>
      more[i].holds && if more[i].Query? then more[i].keyword !in ENDING else more[i].route.To?
    ensures var tx, b := s.begins + 1, first.route.backend;
      var t := Onward(s, [start, first] + more + [end]);
      && IdleSession(t) && t.begins == tx
      && t.sent == s.sent + [SentBegin(b, tx)] + seq(|more| + 2, i => SentStatement(b, Some(tx)))
  {
    var b := first.route.backend;
    DeferredOrSent(s, start);
    var begun := Next(s, start);
    FirstPins(begun, first);
    var pinned := Next(begun, first);
    PinnedRun(pinned, more, b);
    assert ([start, first] + more + [end])[1..] == [first] + (more + [end]);
    assert ([first] + (more + [end]))[1..] == more + [end];
    OnwardLast(pinned, more, end);
    PinnedUntilEnded(Onward(pinned, more), end, b);
    assert [SentBegin(b, s.begins + 1), SentStatement(b, Some(s.begins + 1))]
      == [SentBegin(b, s.begins + 1)] + [SentStatement(b, Some(s.begins + 1))];
  }

  // ---------------------------------------------------------------------------
  // Which backends have a transaction open.

  /** Exactly the pinned backend has an open transaction. */
  ghost predicate InStep(s: State) {
    && (s.pinned.Some? ==> s.inTx)
    && (s.alive ==> s.open == if s.pinned.Some? then {s.pinned.value} else {})
    && (!s.alive ==> s.open == {})
  }

  /** A statement by which the session thinks a pinned transaction over. */
  predicate Unpins(s: State, x: Input) {
    x.Query? && s.inTx && s.pinned.Some? && x.keyword in ENDING
  }

  /** The message is sent to a backend. */
  predicate Reaches(s: State, x: Input) {
    if x.Batch? then x.route.To?
    else (s.inTx && s.pinned.Some?) || (x.route.To? && (s.inTx || x.keyword !in STARTING))
  }

  /** What the text of a message must do to the backend it reaches: in a pinned transaction end
      it just if the session takes it to; as the first of a transaction leave the one that the
      deferred text opened; otherwise open none. */
  predicate Fits(s: State, x: Input) {
    if s.inTx && s.pinned.Some? then x.effect.fromOpen <==> !Unpins(s, x)
    else if s.inTx then After(x.effect, s.pending.fromIdle)
    else !x.effect.fromIdle
  }

  /** A message that reaches a backend ends the session exactly when the connection breaks, having
      sent one message: the deferred BEGIN if that was still to be sent, and else itself. */
  lemma BrokenEndsSession(s: State, x: Input)
    requires s.alive
    ensures var t := Next(s, x);
      && (t.alive <==> !Reaches(s, x) || x.holds)
      && (!t.alive ==> t.open == {} && forall y :: Next(t, y) == t)
      && (!t.alive ==>
            t.sent == s.sent + [if s.inTx && s.pinned.None? then SentBegin(x.route.backend, s.begins)
                                else if s.inTx then SentStatement(s.pinned.value, Some(s.begins))
                                else SentStatement(x.route.backend, None)])
  {
  }

  /** From a state in step, a message keeps session and backends in step exactly when it reaches
      no backend, the connection breaks, or its text fits. */
  lemma StaysInStep(s: State, x: Input)
    requires s.alive && InStep(s)
    ensures InStep(Next(s, x)) <==> !Reaches(s, x) || !x.holds || Fits(s, x)
  {
  }

  /** A session all of whose messages fit when they reach a backend. */
  ghost predicate WellBehaved(xs: seq<Input>) {
    forall i :: 0 <= i < |xs| && Reaches(Run(xs[..i]), xs[i]) ==> Fits(Run(xs[..i]), xs[i])
  }

  /** Then in every state of the session only the pinned backend has an open transaction. */
  lemma {:induction false} OnlyPinnedIsOpen(xs: seq<Input>)
    requires WellBehaved(xs)
    ensures InStep(Run(xs))
  {
    if xs != [] {
      var before := xs[..|xs| - 1];
      assert WellBehaved(before) by {
        assert forall i :: 0 <= i < |before| ==> before[i] == xs[i] && before[..i] == xs[..i];
      }
      OnlyPinnedIsOpen(before);
      if Run(before).alive { StaysInStep(Run(before), xs[|xs| - 1]); }
    }
  }

  /** One statement per message, transactions begun and ended by the keywords the session knows,
      and the ending statement without a route of its own. */
  predicate Plain(x: Input) {
    if x.Batch? then x.effect == KEEPS
    else if x.keyword in STARTING then x.effect == OPENS
    else if x.keyword in ENDING then x.effect == CLOSES && !x.route.To?
    else x.effect == KEEPS
  }

  /** Clients that send plain messages only, in whatever order and however routed, stay in step. */
  lemma {:induction false} PlainStaysInStep(xs: seq<Input>)
    requires forall i :: 0 <= i < |xs| ==> Plain(xs[i])
    ensures InStep(Run(xs)) && (Run(xs).inTx ==> Run(xs).pending == OPENS)
  {
    if xs != [] {
      var before, x := xs[..|xs| - 1], xs[|xs| - 1];
      PlainStaysInStep(before);
      if Run(before).alive { StaysInStep(Run(before), x); }
    }
  }

  // ---------------------------------------------------------------------------
  // Keywords.

  predicate Leading(ch: char) {
    ch == ' ' || ch == '\t' || ch == '\r' || ch == '\n' || ch == '('
  }

  predicate Separator(ch: char) {
    Leading(ch) || ch == ';'
  }

  function TrimLeft(s: string): string {
    if s != [] && Leading(s[0]) then TrimLeft(s[1..]) else s
  }

  function FirstWord(s: string): string {
    if s == [] || Separator(s[0]) then [] else [s[0]] + FirstWord(s[1..])
  }

  function Lower(s: string): string {
    if s == [] then [] else [if 'A' <= s[0] <= 'Z' then (s[0] as int + 32) as char else s[0]] + Lower(s[1..])
  }

  function FirstKeyword(sql: string): string {
    Lower(FirstWord(TrimLeft(sql)))
  }

  /** The first word decides alone: whatever precedes it of blanks and parentheses, and
      whatever follows its end. */
  lemma {:induction false} KeywordIsFirstWord(lead: string, word: string, rest: string)
    requires forall i :: 0 <= i < |lead| ==> lead[i] in " \t\r\n("
    requires word != [] && forall i :: 0 <= i < |word| ==> word[i] !in " \t\r\n(;"
    requires rest == [] || rest[0] in " \t\r\n(;"
    ensures FirstKeyword(lead + word + rest) == Lower(word)
  {
    if lead == [] {
      assert lead + word + rest == word + rest;
      WordOf(word, rest);
    } else {
      assert (lead + word + rest)[1..] == lead[1..] + word + rest;
      KeywordIsFirstWord(lead[1..], word, rest);
    }
  }

  lemma {:induction false} WordOf(word: string, rest: string)
    requires forall i :: 0 <= i < |word| ==> !Separator(word[i])
    requires rest == [] || Separator(rest[0])
    ensures FirstWord(word + rest) == word
  {
    if word == [] {
      assert word + rest == rest;
    } else {
      assert (word + rest)[1..] == word[1..] + rest;
      WordOf(word[1..], rest);
    }
  }

  // ---------------------------------------------------------------------------
  // Ways out of step.

  /** ROLLBACK TO SAVEPOINT has the first keyword of a ROLLBACK. */
  lemma RollbackToKeyword()
    ensures FirstKeyword("ROLLBACK" + " TO SAVEPOINT a") == "rollback"
  {
    RollbackKeyword(" TO SAVEPOINT a");
  }

  lemma RollbackKeyword(rest: string)
    requires rest != [] && rest[0] == ' '
    ensures FirstKeyword("ROLLBACK" + rest) == "rollback"
  {
    KeywordIsFirstWord("", "ROLLBACK", rest);
    assert "" + "ROLLBACK" + rest == "ROLLBACK" + rest;
    LowerRollback();
  }

  /** Such a statement keeps the transaction: the session unpins, and the backend is left
      with it open. */
  lemma RollbackToUnpins()
    ensures exists xs: seq<Input> ::
      && |xs| == 3 && xs[2].Query? && xs[2].keyword == "rollback" && xs[2].effect == KEEPS && xs[2].holds
      && !Run(xs).inTx && Run(xs).open == {"db"}
  {
    var begin := Query("begin", OPENS, NoRoute, true);
    var insert := Query("insert", KEEPS, To("db"), true);
    var back := Query("rollback", KEEPS, NoRoute, true);
    var xs := [begin, insert, back];
    RunOne(xs, 0);
    RunOne(xs, 1);
    RunOne(xs, 2);
    assert xs[..3] == xs && Run(xs[..0]) == FRESH;
    var s := Run(xs[..2]);
    assert s.inTx && s.pinned == Some("db") && s.open == {"db"} && s.alive;
  }

  lemma RunOne(xs: seq<Input>, n: nat)
    requires n < |xs|
    ensures Run(xs[..n + 1]) == Next(Run(xs[..n]), xs[n])
  {
    assert xs[..n + 1][..n] == xs[..n];
  }

  lemma LowerRollback()
    ensures Lower("ROLLBACK") == "rollback"
  {
    assert "ROLL" + "BACK" == "ROLLBACK" && "roll" + "back" == "rollback";
    LowerConcat("ROLL", "BACK");
    LowerFour('R', 'O', 'L', 'L');
    LowerFour('B', 'A', 'C', 'K');
  }

  lemma LowerFour(a: char, b: char, c: char, d: char)
    requires 'A' <= a <= 'Z' && 'A' <= b <= 'Z' && 'A' <= c <= 'Z' && 'A' <= d <= 'Z'
    ensures Lower([a, b, c, d])
         == [(a as int + 32) as char, (b as int + 32) as char, (c as int + 32) as char, (d as int + 32) as char]
  {
    assert [a, b, c, d][1..] == [b, c, d] && [b, c, d][1..] == [c, d] && [c, d][1..] == [d] && [d][1..] == [];
    assert Lower([d]) == [(d as int + 32) as char] + Lower([]);
    assert Lower([c, d]) == [(c as int + 32) as char, (d as int + 32) as char];
  }

  lemma {:induction false} LowerConcat(a: string, b: string)
    ensures Lower(a + b) == Lower(a) + Lower(b)
  {
    if a == [] {
      assert a + b == b;
    } else {
      assert (a + b)[1..] == a[1..] + b && (a + b)[0] == a[0];
      LowerConcat(a[1..], b);
    }
  }

  /** An update with a routing key, followed by a BEGIN in the same Query, has the first keyword
      of an update. */
  lemma UpdateThenBeginKeyword()
    ensures FirstKeyword("update" + " t set v = 1 where id = 'a'; BEGIN") == "update"
  {
    UpdateKeyword(" t set v = 1 where id = 'a'; BEGIN");
  }

  lemma UpdateKeyword(rest: string)
    requires rest != [] && rest[0] == ' '
    ensures FirstKeyword("update" + rest) == "update"
  {
    KeywordIsFirstWord("", "update", rest);
    assert "" + "update" + rest == "update" + rest;
    LowerUpdate();
  }

  /** Such a Query leaves the session idle with a transaction open on the backend. */
  lemma UpdateThenBegin()
    ensures var s := Run([Query("update", OPENS, To("db"), true)]); s.alive && !s.inTx && s.open == {"db"}
  {
    var x := Query("update", OPENS, To("db"), true);
    assert [x][..0] == [] && Run([]) == FRESH;
    assert !Starts("update") && !Ends("update");
    assert Run([x]) == Next(FRESH, x);
  }

  lemma LowerUpdate()
    ensures Lower("update") == "update"
  {
    assert "upd" + "ate" == "update";
    LowerConcat("upd", "ate");
    LowerThree('u', 'p', 'd');
    LowerThree('a', 't', 'e');
  }

  lemma LowerThree(a: char, b: char, c: char)
    requires !('A' <= a <= 'Z') && !('A' <= b <= 'Z') && !('A' <= c <= 'Z')
    ensures Lower([a, b, c]) == [a, b, c]
  {
    assert [a, b, c][1..] == [b, c] && [b, c][1..] == [c] && [c][1..] == [];
    assert Lower([c]) == [c] + Lower([]);
    assert Lower([b, c]) == [b, c];
  }

  /** BEGIN and COMMIT in one Query are deferred together: the session pins a backend that has no
      transaction open. */
  lemma BeginAndCommitTogether()
    ensures var s := Run([Query("begin", CLOSES, NoRoute, true), Query("insert", KEEPS, To("db"), true)]);
      s.alive && s.inTx && s.pinned == Some("db") && s.open == {}
  {
    var xs := [Query("begin", CLOSES, NoRoute, true), Query("insert", KEEPS, To("db"), true)];
    RunOne(xs, 0);
    RunOne(xs, 1);
    assert xs[..2] == xs && Run(xs[..0]) == FRESH;
  }

  // ---------------------------------------------------------------------------
  // Transactions ended before their first routed statement.

  function RunFrom(s: State, xs: seq<Input>): State
    decreases |xs|
  {
    if xs == [] then s else RunFrom(Next(s, xs[0]), xs[1..])
  }

  lemma {:induction false} SentGrows(s: State, xs: seq<Input>)
    ensures |s.sent| <= |RunFrom(s, xs).sent|
    decreases |xs|
  {
    if xs != [] { SentGrows(Next(s, xs[0]), xs[1..]); }
  }

  /** A transaction with no routed statement so far stays as it is over any sequence of messages
      exactly when none of them has a route, so also over the COMMIT or ROLLBACK that ends it:
      the session never leaves it. */
  lemma {:induction false} EmptyTransactionStays(s: State, xs: seq<Input>)
    requires s.alive && s.inTx && s.pinned.None?
    ensures RunFrom(s, xs) == s <==> forall i :: 0 <= i < |xs| ==> !xs[i].route.To?
  {
    if xs != [] {
      if xs[0].route.To? {
        SentGrows(Next(s, xs[0]), xs[1..]);
      } else {
        EmptyTransactionStays(s, xs[1..]);
        assert forall i :: 0 <= i < |xs[1..]| ==> xs[i + 1] == xs[1..][i];
      }
    }
  }

  /** After any such sequence, the next routed statement is sent inside the transaction that the
      client may have ended, behind its BEGIN, and pins the session there. */
  lemma EndedTransactionGoesOn(s: State, xs: seq<Input>, x: Input)
    requires s.alive && s.inTx && s.pinned.None? && x.route.To? && x.holds
    requires forall i :: 0 <= i < |xs| ==> !xs[i].route.To?
    ensures var t, b := Next(RunFrom(s, xs), x), x.route.backend;
      && t.sent == s.sent + [SentBegin(b, s.begins), SentStatement(b, Some(s.begins))]
      && t.alive && t.inTx && t.pinned == Some(b)
  {
    EmptyTransactionStays(s, xs);
    var b := x.route.backend;
    assert s.sent + [SentBegin(b, s.begins)] + [SentStatement(b, Some(s.begins))]
        == s.sent + [SentBegin(b, s.begins), SentStatement(b, Some(s.begins))];
  }
}
