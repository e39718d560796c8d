/** The router's extended-protocol session: Parse, Bind, Describe and Execute batches routed
to many backends, against one direct connection. */
module Extended {
  import opened Basics

  type Backend = string

  datatype Msg =
    | Parse(name: string, sql: string)
    | Bind(stmt: string)
    | DescribeStatement(name: string)
    | DescribePortal
    | Execute
    | Close(name: string)

  /** What a server answers; a description or result is that of the SQL text it is for. */
  datatype Response =
    | ParseComplete | BindComplete | CloseComplete
    | Description(sql: string) | Result(sql: string) | Error | Ready

  type Prepared = map<string, string>

  datatype Answer = Answer(prepared: Prepared, responses: seq<Response>)

  // ---------------------------------------------------------------------------
  // A PostgreSQL server: the messages before a Sync, in order; an error skips the rest. A
  // named statement cannot be parsed twice.

  /** The database as a batch finds it: the texts that it refuses to parse, and to bind or
      describe if they were parsed before, such as those that name a missing table; and the
      texts whose execution fails. */
  datatype Db = Db(broken: set<string>, failing: set<string>)

  /** A refused Parse of the unnamed statement has dropped the one before. */
  function Drop(p: Prepared, name: string): Prepared {
    if name == "" then p - {""} else p
  }

  function Process(db: Db, p: Prepared, portal: Option<string>, ms: seq<Msg>): Answer
    decreases |ms|
  {
    if ms == [] then Answer(p, [])
    else match ms[0]
      case Parse(name, sql) =>
        if sql in db.broken then Answer(Drop(p, name), [Error])
        else if name != "" && name in p then Answer(p, [Error])
        else
          var rest := Process(db, p[name := sql], portal, ms[1..]);
          Answer(rest.prepared, [ParseComplete] + rest.responses)
      case Bind(stmt) =>
        if stmt !in p || p[stmt] in db.broken then Answer(p, [Error])
        else
          var rest := Process(db, p, Some(p[stmt]), ms[1..]);
          Answer(rest.prepared, [BindComplete] + rest.responses)
      case DescribeStatement(name) =>
        if name !in p || p[name] in db.broken then Answer(p, [Error])
        else
          var rest := Process(db, p, portal, ms[1..]);
          Answer(rest.prepared, [Description(p[name])] + rest.responses)
      case DescribePortal =>
        if portal.None? then Answer(p, [Error])
        else
          var rest := Process(db, p, portal, ms[1..]);
          Answer(rest.prepared, [Description(portal.value)] + rest.responses)
      case Execute =>
        if portal.None? || portal.value in db.failing then Answer(p, [Error])
        else
          var rest := Process(db, p, portal, ms[1..]);
          Answer(rest.prepared, [Result(portal.value)] + rest.responses)
      case Close(name) =>
        var rest := Process(db, p - {name}, portal, ms[1..]);
        Answer(rest.prepared, [CloseComplete] + rest.responses)
  }

  /** One connection straight to a server; `closed` are the names the client has sent a Close
      for. */
  datatype Direct = Direct(prepared: Prepared, closed: set<string>, stream: seq<Response>)

  function ClosesOf(batch: seq<Msg>): set<string> {
    set m | m in batch && m.Close? :: m.name
  }

  function DirectBatch(db: Db, d: Direct, batch: seq<Msg>): Direct {
    var a := Process(db, d.prepared, None, batch);
    Direct(a.prepared, d.closed + ClosesOf(batch), d.stream + a.responses + [Ready])
  }

  // ---------------------------------------------------------------------------
  // The router's session.

  /** The client's statements, the names the router believes each backend has prepared, what
      each backend really has prepared, and what the client has been sent. */
  datatype Session = Session(
    stmts: Prepared, believed: map<Backend, set<string>>, servers: map<Backend, Prepared>, client: seq<Response>)

  /** Where a batch goes: the routed backend, any backend for a describe, or no route. */
  datatype Route = To(backend: Backend) | NoRoute

  function Believed(s: Session, b: Backend): set<string> {
    if b in s.believed then s.believed[b] else {}
  }

  function Server(s: Session, b: Backend): Prepared {
    if b in s.servers then s.servers[b] else map[]
  }

  function RegisterParse(s: Session, name: string, sql: string): Session {
    s.(stmts := s.stmts[name := sql], believed := map b | b in s.believed :: s.believed[b] - {name})
  }

  function RegisterParses(s: Session, batch: seq<Msg>): Session {
    if batch == [] then s
    else
      var t := RegisterParses(s, batch[..|batch| - 1]);
      match batch[|batch| - 1]
      case Parse(name, sql) => RegisterParse(t, name, sql)
      case _ => t
  }

  function ParsesOf(batch: seq<Msg>): seq<Msg> {
    if batch == [] then []
    else
      var rest := ParsesOf(batch[..|batch| - 1]);
      if batch[|batch| - 1].Parse? then rest + [batch[|batch| - 1]] else rest
  }

  function OthersOf(batch: seq<Msg>): seq<Msg> {
    if batch == [] then []
    else
      var rest := OthersOf(batch[..|batch| - 1]);
      if batch[|batch| - 1].Parse? then rest else rest + [batch[|batch| - 1]]
  }

  function NamesOf(batch: seq<Msg>): set<string> {
    set m | m in batch && m.Parse? :: m.name
  }

  function FirstBind(batch: seq<Msg>): Option<string> {
    if batch == [] then None
    else if batch[0].Bind? then Some(batch[0].stmt)
    else FirstBind(batch[1..])
  }

  predicate HasDescribe(batch: seq<Msg>) {
    exists m :: m in batch && (m.DescribeStatement? || m.DescribePortal?)
  }

  /** Removes the first `n` ParseCompletes of a response. */
  function Swallow(rs: seq<Response>, n: nat): seq<Response> {
    if rs == [] then []
    else if n > 0 && rs[0].ParseComplete? then Swallow(rs[1..], n - 1)
    else [rs[0]] + Swallow(rs[1..], n)
  }

  /** Sends messages to a backend and relays its answer, without the `swallow` first
      ParseCompletes. */
  function Send(db: Db, s: Session, b: Backend, ms: seq<Msg>, swallow: nat, believed: set<string>): Session {
    Relay(s, b, Process(db, Server(s, b), None, ms), swallow, believed)
  }

  function Relay(s: Session, b: Backend, a: Answer, swallow: nat, believed: set<string>): Session {
    Session(s.stmts, s.believed[b := believed], s.servers[b := a.prepared],
            s.client + Swallow(a.responses, swallow) + [Ready])
  }

  function Reject(s: Session): Session {
    s.(client := s.client + [Error, Ready])
  }

  function RunExec(db: Db, s: Session, batch: seq<Msg>, stmt: string, route: Route): Session {
    if stmt !in s.stmts || route.NoRoute? then Reject(s)
    else
      var b := route.backend;
      var believed := Believed(s, b) + NamesOf(batch);
      var inject := stmt !in believed;
      var parses := Injected(inject, Parse(stmt, s.stmts[stmt]), ParsesOf(batch));
      Send(db, s, b, parses + OthersOf(batch), if inject then 1 else 0, believed + {stmt})
  }

  function Injected(inject: bool, m: Msg, ps: seq<Msg>): seq<Msg> {
    if inject then [m] + ps else ps
  }

  function RunDescribe(db: Db, s: Session, batch: seq<Msg>, route: Route): Session {
    if route.NoRoute? then Reject(s)
    else Send(db, s, route.backend, batch, 0, Believed(s, route.backend) + NamesOf(batch))
  }

  function Acks(batch: seq<Msg>): seq<Response> {
    if batch == [] then []
    else
      Acks(batch[..|batch| - 1]) +
      match batch[|batch| - 1]
      case Parse(_, _) => [ParseComplete]
      case Close(_) => [CloseComplete]
      case _ => []
  }

  function Closed(stmts: Prepared, batch: seq<Msg>): Prepared {
    if batch == [] then stmts
    else
      var rest := Closed(stmts, batch[..|batch| - 1]);
      if batch[|batch| - 1].Close? then rest - {batch[|batch| - 1].name} else rest
  }

  /** One batch, ended by a Sync. */
  function RouterBatch(db: Db, s: Session, batch: seq<Msg>, route: Route): Session {
    var t := RegisterParses(s, batch);
    match FirstBind(batch)
    case Some(stmt) => RunExec(db, t, batch, stmt, route)
    case None =>
      if HasDescribe(batch) then RunDescribe(db, t, batch, route)
      else t.(stmts := Closed(t.stmts, batch), client := t.client + Acks(batch) + [Ready])
  }

  // ---------------------------------------------------------------------------
  // The session as the router runs it. `servers` stands for the backends.

  class Router {
    var stmts: Prepared
    var believed: map<Backend, set<string>>
    var servers: map<Backend, Prepared>
    var client: seq<Response>

    ghost function View(): Session
      reads this
    {
      Session(stmts, believed, servers, client)
    }

    method Register(batch: seq<Msg>)
      modifies this`stmts, this`believed
      ensures View() == RegisterParses(old(View()), batch)
    {
      for i := 0 to |batch|
        invariant View() == RegisterParses(old(View()), batch[..i])
      {
        assert batch[..i + 1][..i] == batch[..i];
        if batch[i].Parse? {
          stmts := stmts[batch[i].name := batch[i].sql];
          believed := map b | b in believed :: believed[b] - {batch[i].name};
        }
      }
      assert batch[..|batch|] == batch;
    }

    /** Relays an answer up to ReadyForQuery, dropping the ParseCompletes of added Parses. */
    method RelayAnswer(rs: seq<Response>, swallow: nat)
      modifies this`client
      ensures client == old(client) + Swallow(rs, swallow) + [Ready]
    {
      var left := swallow;
      for i := 0 to |rs|
        invariant client + Swallow(rs[i..], left) == old(client) + Swallow(rs, swallow)
      {
        assert rs[i..][1..] == rs[i + 1..];
        if rs[i].ParseComplete? && left > 0 {
          left := left - 1;
        } else {
          assert client + ([rs[i]] + Swallow(rs[i + 1..], left)) == (client + [rs[i]]) + Swallow(rs[i + 1..], left);
          client := client + [rs[i]];
        }
      }
      client := client + [Ready];
    }

    method SendTo(db: Db, b: Backend, ms: seq<Msg>, swallow: nat, names: set<string>)
      modifies this`believed, this`servers, this`client
      ensures View() == Send(db, old(View()), b, ms, swallow, names)
    {
      var server := if b in servers then servers[b] else map[];
      var a := Process(db, server, None, ms);
      believed := believed[b := names];
      servers := servers[b := a.prepared];
      RelayAnswer(a.responses, swallow);
    }

    method Exec(db: Db, batch: seq<Msg>, stmt: string, route: Route)
      modifies this
      ensures View() == RunExec(db, old(View()), batch, stmt, route)
    {
      if stmt !in stmts || route.NoRoute? {
        client := client + [Error, Ready];
        return;
      }
      var b := route.backend;
      var known := if b in believed then believed[b] else {};
      var parses: seq<Msg>, others: seq<Msg> := [], [];
      for i := 0 to |batch|
        invariant parses == ParsesOf(batch[..i]) && others == OthersOf(batch[..i])
        invariant known == Believed(View(), b) + NamesOf(batch[..i])
      {
        assert batch[..i + 1][..i] == batch[..i] && batch[..i + 1] == batch[..i] + [batch[i]];
        if batch[i].Parse? {
          parses := parses + [batch[i]];
          known := known + {batch[i].name};
        } else {
          others := others + [batch[i]];
        }
      }
      assert batch[..|batch|] == batch;
      var swallow := 0;
      if stmt !in known {
        parses := [Parse(stmt, stmts[stmt])] + parses;
        swallow := 1;
      }
      SendTo(db, b, parses + others, swallow, known + {stmt});
    }

    method Describe(db: Db, batch: seq<Msg>, route: Route)
      modifies this
      ensures View() == RunDescribe(db, old(View()), batch, route)
    {
      if route.NoRoute? {
        client := client + [Error, Ready];
        return;
      }
      var known := if route.backend in believed then believed[route.backend] else {};
      for i := 0 to |batch|
        invariant known == Believed(View(), route.backend) + NamesOf(batch[..i])
      {
        assert batch[..i + 1] == batch[..i] + [batch[i]];
        if batch[i].Parse? { known := known + {batch[i].name}; }
      }
      assert batch[..|batch|] == batch;
      SendTo(db, route.backend, batch, 0, known);
    }

    method Acknowledge(batch: seq<Msg>)
      modifies this`stmts, this`client
      ensures View() == old(View()).(stmts := Closed(old(stmts), batch), client := old(client) + Acks(batch) + [Ready])
    {
      for i := 0 to |batch|
        invariant stmts == Closed(old(stmts), batch[..i]) && client == old(client) + Acks(batch[..i])
      {
        assert batch[..i + 1][..i] == batch[..i];
        if batch[i].Parse? {
          client := client + [ParseComplete];
        } else if batch[i].Close? {
          stmts := stmts - {batch[i].name};
          client := client + [CloseComplete];
        }
      }
      assert batch[..|batch|] == batch;
      client := client + [Ready];
    }

    method HandleBatch(db: Db, batch: seq<Msg>, route: Route)
      modifies this
      ensures View() == RouterBatch(db, old(View()), batch, route)
    {
      Register(batch);
      var bind: Option<string> := None;
      var describe := false;
      for i := 0 to |batch|
        invariant FirstBind(batch) == if bind.Some? then bind else FirstBind(batch[i..])
        invariant describe <==> HasDescribe(batch[..i])
        invariant View() == RegisterParses(old(View()), batch)
      {
        assert batch[i..][1..] == batch[i + 1..];
        assert batch[..i + 1] == batch[..i] + [batch[i]];
        if batch[i].Bind? {
          if bind.None? { bind := Some(batch[i].stmt); }
        } else if batch[i].DescribeStatement? || batch[i].DescribePortal? {
          describe := true;
          assert batch[i] in batch[..i + 1];
        }
      }
      assert batch[..|batch|] == batch;
      if bind.Some? {
        Exec(db, batch, bind.value, route);
      } else if describe {
        Describe(db, batch, route);
      } else {
        Acknowledge(batch);
      }
    }
  }

  // ---------------------------------------------------------------------------
  // Batches a client may send: Parses first, the unnamed one before the others; then one Bind
  // with what uses its portal and Closes, or one Describe of a statement just parsed, or Closes.

  ghost predicate AllParses(ms: seq<Msg>) {
    forall i :: 0 <= i < |ms| ==> ms[i].Parse?
  }

  ghost predicate NoParse(ms: seq<Msg>) {
    forall i :: 0 <= i < |ms| ==> !ms[i].Parse?
  }

  ghost predicate AllCloses(ms: seq<Msg>) {
    forall i :: 0 <= i < |ms| ==> ms[i].Close?
  }

  /** Messages whose answers do not depend on what is prepared. */
  ghost predicate PortalUses(ms: seq<Msg>) {
    forall i :: 0 <= i < |ms| ==> ms[i].DescribePortal? || ms[i].Execute? || ms[i].Close?
  }

  predicate IsExec(tail: seq<Msg>) {
    tail != [] && tail[0].Bind?
  }

  predicate IsDescribe(tail: seq<Msg>) {
    |tail| == 1 && tail[0].DescribeStatement?
  }

  ghost predicate ValidTail(ps: seq<Msg>, tail: seq<Msg>) {
    if IsExec(tail) then PortalUses(tail[1..])
    else if IsDescribe(tail) then tail[0].name in NamesOf(ps)
    else AllCloses(tail)
  }

  /** Parses of different names; only the unnamed one may be taken already. */
  ghost predicate Fresh(taken: set<string>, ps: seq<Msg>) {
    && AllParses(ps)
    && (forall i :: 0 <= i < |ps| && ps[i].name != "" ==> ps[i].name !in taken)
    && (forall i, j :: 0 <= i < j < |ps| ==> ps[i].name != ps[j].name)
  }

  /** A batch: its Parses, the rest, where it is routed, and the database as it finds it. */
  datatype Sent = Sent(parses: seq<Msg>, tail: seq<Msg>, route: Route, db: Db)

  /** A client that knows from the answers what it has prepared: it parses a name once, not
      again after a Close, and binds what is prepared. */
  ghost predicate ValidBatch(d: Direct, x: Sent) {
    && Fresh(d.prepared.Keys + d.closed, x.parses) && (forall i :: 0 < i < |x.parses| ==> x.parses[i].name != "")
    && ValidTail(x.parses, x.tail)
    && (IsExec(x.tail) || IsDescribe(x.tail) ==> x.route.To?)
    && (IsExec(x.tail) ==> x.tail[0].stmt in Applied(d.prepared, x.parses))
  }

  // ---------------------------------------------------------------------------
  // Parses.

  /** The statements after some Parses. */
  function Applied(p: Prepared, ps: seq<Msg>): Prepared
    decreases |ps|
  {
    if ps == [] then p
    else if ps[0].Parse? then Applied(p[ps[0].name := ps[0].sql], ps[1..])
    else Applied(p, ps[1..])
  }

  lemma {:induction false} AppliedLast(p: Prepared, ps: seq<Msg>, m: Msg)
    ensures Applied(p, ps + [m]) == if m.Parse? then Applied(p, ps)[m.name := m.sql] else Applied(p, ps)
    decreases |ps|
  {
    if ps == [] {
      assert [m][1..] == [] && ps + [m] == [m];
    } else {
      assert (ps + [m])[1..] == ps[1..] + [m];
      AppliedLast(if ps[0].Parse? then p[ps[0].name := ps[0].sql] else p, ps[1..], m);
    }
  }

  lemma {:induction false} AppliedConcat(p: Prepared, a: seq<Msg>, b: seq<Msg>)
    ensures Applied(p, a + b) == Applied(Applied(p, a), b)
    decreases |a|
  {
    if a == [] {
      assert a + b == b;
    } else {
      assert (a + b)[1..] == a[1..] + b && (a + b)[0] == a[0];
      AppliedConcat(if a[0].Parse? then p[a[0].name := a[0].sql] else p, a[1..], b);
    }
  }

  /** A parsed name has the text of its last Parse, whatever it had before; others keep
      theirs. */
  lemma {:induction false} AppliedAt(p: Prepared, q: Prepared, ps: seq<Msg>, n: string)
    ensures n in NamesOf(ps) ==> n in Applied(p, ps) && n in Applied(q, ps) && Applied(p, ps)[n] == Applied(q, ps)[n]
    ensures n !in NamesOf(ps) ==> (n in Applied(p, ps) <==> n in p) && (n in p ==> Applied(p, ps)[n] == p[n])
    decreases |ps|
  {
    if ps != [] {
      var m := ps[0];
      assert NamesOf(ps) == NamesOf(ps[1..]) + if m.Parse? then {m.name} else {};
      if m.Parse? {
        AppliedAt(p[m.name := m.sql], q[m.name := m.sql], ps[1..], n);
        if n !in NamesOf(ps[1..]) { AppliedAt(q[m.name := m.sql], p, ps[1..], n); }
      } else {
        AppliedAt(p, q, ps[1..], n);
      }
    }
  }

  lemma NamesConcat(a: seq<Msg>, b: seq<Msg>)
    ensures NamesOf(a + b) == NamesOf(a) + NamesOf(b)
  {
    assert forall m :: m in a + b <==> m in a || m in b;
  }

  /** Of Parses of different names, those after the first `k` do not touch the names before. */
  lemma AppliedPrefix(p: Prepared, ps: seq<Msg>, k: nat, n: string)
    requires k <= |ps| && Fresh({}, ps) && n in NamesOf(ps[..k])
    ensures n in Applied(p, ps) && n in Applied(p, ps[..k]) && Applied(p, ps)[n] == Applied(p, ps[..k])[n]
  {
    assert ps == ps[..k] + ps[k..];
    AppliedConcat(p, ps[..k], ps[k..]);
    AppliedAt(p, p, ps[..k], n);
    NamesApart(ps, k, n);
    AppliedAt(Applied(p, ps[..k]), p, ps[k..], n);
  }

  lemma NamesApart(ps: seq<Msg>, k: nat, n: string)
    requires k <= |ps| && Fresh({}, ps) && n in NamesOf(ps[..k])
    ensures n !in NamesOf(ps[k..])
  {
    forall l, m | l in ps[..k] && m in ps[k..] ensures l.name != m.name { SameNameTwice(ps, k, l, m); }
  }

  lemma SameNameTwice(ps: seq<Msg>, k: nat, l: Msg, m: Msg)
    requires k <= |ps| && Fresh({}, ps) && l in ps[..k] && m in ps[k..]
    ensures l.name != m.name
  {
    var i :| 0 <= i < k && ps[..k][i] == l;
    var j :| 0 <= j < |ps| - k && ps[k..][j] == m;
    assert ps[i] == l && ps[k + j] == m;
  }

  function Completes(n: nat): seq<Response> {
    if n == 0 then [] else [ParseComplete] + Completes(n - 1)
  }

  /** How many of the leading Parses the database accepts. */
  function Good(db: Db, ps: seq<Msg>): (k: nat)
    ensures k <= |ps|
  {
    if ps == [] || !ps[0].Parse? || ps[0].sql in db.broken then 0 else 1 + Good(db, ps[1..])
  }

  /** What is prepared after fresh Parses, up to the first refused one. */
  function Parsed(db: Db, p: Prepared, ps: seq<Msg>): Prepared {
    var k := Good(db, ps);
    if k == |ps| || !ps[k].Parse? then Applied(p, ps[..k]) else Drop(Applied(p, ps[..k]), ps[k].name)
  }

  /** The answer to fresh Parses and the rest of a batch. */
  lemma {:induction false} ProcessParses(db: Db, p: Prepared, ps: seq<Msg>, tail: seq<Msg>)
    requires Fresh(p.Keys, ps)
    ensures var k, a := Good(db, ps), Process(db, p, None, ps + tail);
      if k == |ps| then
        var rest := Process(db, Applied(p, ps), None, tail); a == Answer(rest.prepared, Completes(k) + rest.responses)
      else
        a == Answer(Parsed(db, p, ps), Completes(k) + [Error])
    decreases |ps|
  {
    if ps == [] {
      assert ps + tail == tail;
      assert Completes(0) + Process(db, p, None, tail).responses == Process(db, p, None, tail).responses;
    } else {
      var m, rest := ps[0], ps[1..];
      assert (ps + tail)[1..] == rest + tail && (ps + tail)[0] == m && m.Parse?;
      if m.sql in db.broken {
        assert ps[..0] == [] && Completes(0) + [Error] == [Error];
      } else {
        FreshRest(p, ps);
        ProcessParses(db, p[m.name := m.sql], rest, tail);
        ParseMore(db, p, ps, tail);
      }
    }
  }

  /** One accepted Parse in front. */
  lemma ParseMore(db: Db, p: Prepared, ps: seq<Msg>, tail: seq<Msg>)
    requires ps != [] && ps[0].Parse? && ps[0].sql !in db.broken
    ensures var m, rest := ps[0], ps[1..];
      && Good(db, ps) == 1 + Good(db, rest)
      && Parsed(db, p, ps) == Parsed(db, p[m.name := m.sql], rest)
      && forall rs: seq<Response> :: [ParseComplete] + (Completes(Good(db, rest)) + rs) == Completes(Good(db, ps)) + rs
  {
    var m, rest, k := ps[0], ps[1..], Good(db, ps[1..]);
    assert ps[..k + 1][1..] == rest[..k] && ps[..k + 1][0] == m;
    assert Applied(p, ps[..k + 1]) == Applied(p[m.name := m.sql], rest[..k]);
    if k < |rest| { assert ps[k + 1] == rest[k]; }
    forall rs: seq<Response> ensures [ParseComplete] + (Completes(k) + rs) == Completes(k + 1) + rs {
      assert [ParseComplete] + (Completes(k) + rs) == ([ParseComplete] + Completes(k)) + rs;
    }
  }

  lemma FreshRest(p: Prepared, ps: seq<Msg>)
    requires ps != [] && Fresh(p.Keys, ps)
    ensures Fresh(p[ps[0].name := ps[0].sql].Keys, ps[1..])
  {
    var m, rest := ps[0], ps[1..];
    assert forall i :: 0 <= i < |rest| ==> rest[i] == ps[i + 1];
    forall i | 0 <= i < |rest| && rest[i].name != "" ensures rest[i].name !in p[m.name := m.sql] {
      assert ps[0].name != ps[i + 1].name;
    }
  }

  // ---------------------------------------------------------------------------
  // What follows the Parses.

  lemma {:induction false} OthersOnlyClose(db: Db, p: Prepared, portal: Option<string>, ms: seq<Msg>, n: string)
    requires NoParse(ms)
    ensures var r := Process(db, p, portal, ms).prepared;
      (n in r ==> n in p && r[n] == p[n]) && (n in p ==> n in r || n in ClosesOf(ms))
    decreases |ms|
  {
    if ms != [] {
      var rest := ms[1..];
      assert NoParse(rest) by { assert forall i :: 0 <= i < |rest| ==> rest[i] == ms[i + 1]; }
      assert ms[0] in ms && forall m :: m in rest ==> m in ms;
      match ms[0]
      case Parse(_, _) =>
      case Bind(stmt) => if stmt in p { OthersOnlyClose(db, p, Some(p[stmt]), rest, n); }
      case Close(name) => OthersOnlyClose(db, p - {name}, portal, rest, n);
      case _ => OthersOnlyClose(db, p, portal, rest, n);
    }
  }

  lemma {:induction false} UsesAlike(db: Db, p: Prepared, q: Prepared, portal: Option<string>, ms: seq<Msg>)
    requires PortalUses(ms)
    ensures Process(db, p, portal, ms).responses == Process(db, q, portal, ms).responses
    decreases |ms|
  {
    if ms != [] {
      assert ms[0].DescribePortal? || ms[0].Execute? || ms[0].Close?;
      assert PortalUses(ms[1..]) by { assert forall i :: 0 <= i < |ms| - 1 ==> ms[1..][i] == ms[i + 1]; }
      if ms[0].Close? {
        UsesAlike(db, p - {ms[0].name}, q - {ms[0].name}, portal, ms[1..]);
      } else {
        UsesAlike(db, p, q, portal, ms[1..]);
      }
    }
  }

  ghost predicate SameAt(p: Prepared, q: Prepared, n: string) {
    n in p && n in q && p[n] == q[n]
  }

  /** The statement that the rest of the batch names is the same in both. */
  ghost predicate SameFor(p: Prepared, q: Prepared, tail: seq<Msg>) {
    && (IsExec(tail) ==> SameAt(p, q, tail[0].stmt))
    && (IsDescribe(tail) ==> SameAt(p, q, tail[0].name))
  }

  /** The answer to the rest of a valid batch depends only on the statement it names. */
  lemma TailAlike(db: Db, p: Prepared, q: Prepared, ps: seq<Msg>, tail: seq<Msg>)
    requires ValidTail(ps, tail) && SameFor(p, q, tail)
    ensures Process(db, p, None, tail).responses == Process(db, q, None, tail).responses
  {
    if IsExec(tail) {
      UsesAlike(db, p, q, Some(p[tail[0].stmt]), tail[1..]);
    } else if IsDescribe(tail) {
      assert tail[1..] == [];
    } else {
      UsesAlike(db, p, q, None, tail);
    }
  }

  lemma TailHasNoParse(ps: seq<Msg>, tail: seq<Msg>)
    requires ValidTail(ps, tail)
    ensures NoParse(tail)
    ensures NamesOf(ps + tail) == NamesOf(ps) && ClosesOf(tail) <= ClosesOf(ps + tail)
    ensures AllParses(ps) ==> ClosesOf(ps + tail) == ClosesOf(tail)
  {
    forall i | 0 <= i < |tail| ensures !tail[i].Parse? {
      if i > 0 && IsExec(tail) { assert tail[i] == tail[1..][i - 1]; }
    }
    assert forall m :: m in ps + tail <==> m in ps || m in tail;
  }

  /** The prepared statements after a batch, name by name: those of the accepted Parses, then
      those from before, less what was closed. */
  lemma BatchAt(db: Db, p: Prepared, ps: seq<Msg>, tail: seq<Msg>, n: string)
    requires Fresh(p.Keys, ps) && NoParse(tail)
    requires forall i :: 0 <= i < |ps| && ps[i].name == "" ==> i <= Good(db, ps)
    ensures var r, k := Process(db, p, None, ps + tail).prepared, Good(db, ps);
      && (n in NamesOf(ps) && n in r ==> n in NamesOf(ps[..k]) && n in Applied(p, ps) && r[n] == Applied(p, ps)[n])
      && (n !in NamesOf(ps) && n in r ==> n in p && r[n] == p[n])
      && (n !in NamesOf(ps) && n in p ==> n in r || n in ClosesOf(tail))
      && (n in NamesOf(ps[..k]) ==> n in r || n in ClosesOf(tail))
  {
    var k := Good(db, ps);
    ProcessParses(db, p, ps, tail);
    if k == |ps| {
      assert ps[..k] == ps;
      OthersOnlyClose(db, Applied(p, ps), None, tail, n);
      AppliedAt(p, p, ps, n);
    } else {
      StoppedAt(db, p, ps, n);
    }
  }

  /** The same when a Parse is refused. */
  lemma StoppedAt(db: Db, p: Prepared, ps: seq<Msg>, n: string)
    requires Fresh(p.Keys, ps) && Good(db, ps) < |ps|
    requires forall i :: 0 <= i < |ps| && ps[i].name == "" ==> i <= Good(db, ps)
    ensures var r, k := Parsed(db, p, ps), Good(db, ps);
      && (n in NamesOf(ps) && n in r ==> n in NamesOf(ps[..k]) && n in Applied(p, ps) && r[n] == Applied(p, ps)[n])
      && (n !in NamesOf(ps) && n in r ==> n in p && r[n] == p[n])
      && (n !in NamesOf(ps) && n in p ==> n in r)
      && (n in NamesOf(ps[..k]) ==> n in r)
  {
    var k := Good(db, ps);
    AppliedAt(p, p, ps[..k], n);
    assert ps[k] in ps && ps[k].Parse? && ps[k].name in NamesOf(ps);
    assert forall m :: m in ps[..k] ==> m in ps;
    if n in NamesOf(ps[..k]) {
      AppliedPrefix(p, ps, k, n);
      NamesApart(ps, k, n);
      assert ps[k] == ps[k..][0] && ps[k] in ps[k..];
    } else if n in NamesOf(ps) {
      LaterName(ps, k, n);
    }
  }

  lemma LaterName(ps: seq<Msg>, k: nat, n: string)
    requires k <= |ps| && n in NamesOf(ps) && n !in NamesOf(ps[..k])
    ensures exists i :: k <= i < |ps| && ps[i].Parse? && ps[i].name == n
  {
    var m :| m in ps && m.Parse? && m.name == n;
    var i :| 0 <= i < |ps| && ps[i] == m;
  }

  // ---------------------------------------------------------------------------
  // How the router takes a batch apart.

  lemma {:induction false} SplitParses(ps: seq<Msg>)
    requires AllParses(ps)
    ensures ParsesOf(ps) == ps && OthersOf(ps) == []
    ensures Acks(ps) == Completes(|ps|) && forall p :: Closed(p, ps) == p
  {
    if ps != [] {
      var rest := ps[..|ps| - 1];
      SplitParses(rest);
      CompletesLast(|rest|);
      assert ps == rest + [ps[|ps| - 1]];
    }
  }

  lemma {:induction false} SplitBatch(ps: seq<Msg>, tail: seq<Msg>)
    requires AllParses(ps) && NoParse(tail)
    ensures ParsesOf(ps + tail) == ps && OthersOf(ps + tail) == tail
    decreases |tail|
  {
    var batch := ps + tail;
    if tail == [] {
      assert batch == ps;
      SplitParses(ps);
    } else {
      var rest := tail[..|tail| - 1];
      assert batch[..|batch| - 1] == ps + rest && batch[|batch| - 1] == tail[|tail| - 1];
      SplitBatch(ps, rest);
      assert tail == rest + [tail[|tail| - 1]];
    }
  }

  lemma {:induction false} CompletesLast(n: nat)
    ensures Completes(n) + [ParseComplete] == Completes(n + 1)
  {
    if n > 0 { CompletesLast(n - 1); }
  }

  function CloseCompletes(n: nat): seq<Response> {
    if n == 0 then [] else [CloseComplete] + CloseCompletes(n - 1)
  }

  lemma {:induction false} CloseCompletesLast(n: nat)
    ensures CloseCompletes(n) + [CloseComplete] == CloseCompletes(n + 1)
  {
    if n > 0 { CloseCompletesLast(n - 1); }
  }

  /** What the router answers to Parses and Closes alone, and which statements are left. */
  lemma {:induction false} AckBatchParts(ps: seq<Msg>, tail: seq<Msg>, p: Prepared, n: string)
    requires AllParses(ps) && AllCloses(tail)
    ensures Acks(ps + tail) == Completes(|ps|) + CloseCompletes(|tail|)
    ensures n in Closed(p, ps + tail) <==> n in p && n !in ClosesOf(tail)
    ensures n in Closed(p, ps + tail) ==> Closed(p, ps + tail)[n] == p[n]
    decreases |tail|
  {
    var batch := ps + tail;
    if tail == [] {
      assert batch == ps;
      SplitParses(ps);
    } else {
      var rest, m := tail[..|tail| - 1], tail[|tail| - 1];
      assert batch[..|batch| - 1] == ps + rest && batch[|batch| - 1] == m && m.Close?;
      AckBatchParts(ps, rest, p, n);
      CloseCompletesLast(|rest|);
      assert Completes(|ps|) + CloseCompletes(|rest|) + [CloseComplete]
          == Completes(|ps|) + (CloseCompletes(|rest|) + [CloseComplete]);
      assert tail == rest + [m];
      assert ClosesOf(tail) == ClosesOf(rest) + {m.name};
    }
  }

  /** What a server answers to Closes alone. */
  lemma {:induction false} ClosesAnswer(db: Db, p: Prepared, tail: seq<Msg>, n: string)
    requires AllCloses(tail)
    ensures var a := Process(db, p, None, tail);
      && a.responses == CloseCompletes(|tail|)
      && (n in a.prepared <==> n in p && n !in ClosesOf(tail)) && (n in a.prepared ==> a.prepared[n] == p[n])
    decreases |tail|
  {
    if tail != [] {
      var m, rest := tail[0], tail[1..];
      assert AllCloses(rest) by { assert forall i :: 0 <= i < |rest| ==> rest[i] == tail[i + 1]; }
      ClosesAnswer(db, p - {m.name}, rest, n);
      assert tail == [m] + rest;
      assert ClosesOf(tail) == ClosesOf(rest) + {m.name};
    }
  }

  lemma {:induction false} NoBind(ms: seq<Msg>)
    requires forall i :: 0 <= i < |ms| ==> !ms[i].Bind?
    ensures FirstBind(ms) == None
  {
    if ms != [] { NoBind(ms[1..]); }
  }

  lemma {:induction false} FirstBindOf(ps: seq<Msg>, tail: seq<Msg>)
    requires AllParses(ps) && (IsExec(tail) || IsDescribe(tail) || AllCloses(tail))
    ensures FirstBind(ps + tail) == if IsExec(tail) then Some(tail[0].stmt) else None
    decreases |ps|
  {
    if ps == [] {
      assert ps + tail == tail;
      if !IsExec(tail) { NoBind(tail); }
    } else {
      assert (ps + tail)[1..] == ps[1..] + tail;
      FirstBindOf(ps[1..], tail);
    }
  }

  /** Registering a batch's Parses updates the client's statements and forgets their names
      on every backend. */
  lemma {:induction false} Registered(s: Session, batch: seq<Msg>)
    ensures var t := RegisterParses(s, batch);
      && t.stmts == Applied(s.stmts, batch) && t.servers == s.servers && t.client == s.client
      && forall b :: Believed(t, b) == Believed(s, b) - NamesOf(batch)
  {
    if batch != [] {
      var before, m := batch[..|batch| - 1], batch[|batch| - 1];
      Registered(s, before);
      assert batch == before + [m];
      AppliedLast(s.stmts, before, m);
      assert NamesOf(batch) == NamesOf(before) + if m.Parse? then {m.name} else {};
    }
  }

  lemma {:induction false} AppliedNoParse(p: Prepared, ms: seq<Msg>)
    requires NoParse(ms)
    ensures Applied(p, ms) == p
    decreases |ms|
  {
    if ms != [] {
      assert NoParse(ms[1..]) by { assert forall i :: 0 <= i < |ms| - 1 ==> ms[1..][i] == ms[i + 1]; }
      AppliedNoParse(p, ms[1..]);
    }
  }

  lemma {:induction false} SwallowNone(rs: seq<Response>)
    ensures Swallow(rs, 0) == rs
  {
    if rs != [] { SwallowNone(rs[1..]); }
  }

  lemma {:induction false} SwallowCompletes(k: nat, n: nat, rs: seq<Response>)
    ensures Swallow(Completes(k + n) + rs, k) == Completes(n) + rs
  {
    if k == 0 {
      SwallowNone(Completes(n) + rs);
    } else {
      assert (Completes(k + n) + rs)[1..] == Completes(k - 1 + n) + rs;
      SwallowCompletes(k - 1, n, rs);
    }
  }

  // ---------------------------------------------------------------------------
  // Simulation.

  /** The client's prepared statements are known to the router. */
  ghost predicate Linked(stmts: Prepared, d: Direct) {
    forall n :: n in d.prepared ==> SameAt(stmts, d.prepared, n)
  }

  /** Of a backend's statements: what the router believes prepared there has, if it is there, the
      client's latest text; and a named statement there is believed to be, and is one the client
      has prepared or closed. */
  ghost predicate Backed(believed: set<string>, server: Prepared, d: Direct) {
    && (forall n :: n in d.prepared && n in believed && n in server ==> server[n] == d.prepared[n])
    && (forall n :: n != "" && n in server ==> n in believed && (n in d.prepared || n in d.closed))
  }

  ghost predicate Inv(s: Session, d: Direct) {
    s.client == d.stream && Linked(s.stmts, d) && forall b :: Backed(Believed(s, b), Server(s, b), d)
  }

  /** The direct connection after a valid batch, name by name. */
  lemma DirectAt(d: Direct, x: Sent, n: string)
    requires ValidBatch(d, x)
    ensures var ps, d' := x.parses, DirectBatch(x.db, d, x.parses + x.tail);
      && d'.closed == d.closed + ClosesOf(x.tail)
      && (n in NamesOf(ps) && n in d'.prepared ==>
            n in NamesOf(ps[..Good(x.db, ps)]) && SameAt(Applied(d.prepared, ps), d'.prepared, n))
      && (n !in NamesOf(ps) && n in d'.prepared ==> SameAt(d.prepared, d'.prepared, n))
      && (n !in NamesOf(ps) && n in d.prepared ==> n in d'.prepared || n in d'.closed)
      && (n in NamesOf(ps[..Good(x.db, ps)]) ==> n in d'.prepared || n in d'.closed)
  {
    TailHasNoParse(x.parses, x.tail);
    BatchAt(x.db, d.prepared, x.parses, x.tail, n);
  }

  /** The client's statements known to the router, after it has registered the batch's Parses. */
  lemma StmtsFollow(stmts: Prepared, d: Direct, x: Sent)
    requires ValidBatch(d, x) && Linked(stmts, d)
    ensures Linked(Applied(stmts, x.parses), DirectBatch(x.db, d, x.parses + x.tail))
  {
    var d' := DirectBatch(x.db, d, x.parses + x.tail);
    forall n | n in d'.prepared ensures SameAt(Applied(stmts, x.parses), d'.prepared, n) {
      DirectAt(d, x, n);
      AppliedAt(stmts, d.prepared, x.parses, n);
      if n !in NamesOf(x.parses) { AppliedAt(stmts, stmts, x.parses, n); }
    }
  }

  lemma FreshOnServer(d: Direct, x: Sent, believed: set<string>, server: Prepared)
    requires ValidBatch(d, x) && Backed(believed, server, d)
    ensures Fresh(server.Keys, x.parses)
    ensures forall n :: n != "" && n in NamesOf(x.parses) ==> n !in server
  {
    forall i | 0 <= i < |x.parses| && x.parses[i].name != "" ensures x.parses[i].name !in server {
      assert x.parses[i].name !in d.prepared.Keys + d.closed;
    }
    forall n | n != "" && n in NamesOf(x.parses) ensures n !in server {
      var m :| m in x.parses && m.Parse? && m.name == n;
      var i :| 0 <= i < |x.parses| && x.parses[i] == m;
    }
  }

  /** A backend that the batch is not sent to. */
  lemma OtherBacked(d: Direct, x: Sent, believed: set<string>, server: Prepared)
    requires ValidBatch(d, x) && Backed(believed, server, d)
    ensures Backed(believed - NamesOf(x.parses), server, DirectBatch(x.db, d, x.parses + x.tail))
  {
    var d' := DirectBatch(x.db, d, x.parses + x.tail);
    FreshOnServer(d, x, believed, server);
    forall n | n in server ensures
      && (n in d'.prepared && n in believed - NamesOf(x.parses) ==> server[n] == d'.prepared[n])
      && (n != "" ==> n in believed - NamesOf(x.parses) && (n in d'.prepared || n in d'.closed))
    {
      DirectAt(d, x, n);
    }
  }

  /** The Parses sent to a backend: perhaps one added for a statement it lacks, then the batch's. */
  ghost predicate Added(added: seq<Msg>, d: Direct, x: Sent, believed: set<string>) {
    || added == []
    || (&& |added| == 1 && added[0].Parse? && added[0].name !in believed + NamesOf(x.parses)
        && added[0].name in d.prepared && added[0].sql == d.prepared[added[0].name])
  }

  lemma AddedFresh(added: seq<Msg>, d: Direct, x: Sent, believed: set<string>, server: Prepared)
    requires ValidBatch(d, x) && Backed(believed, server, d) && Added(added, d, x, believed)
    ensures Fresh(server.Keys, added + x.parses) && NamesOf(added + x.parses) == NamesOf(added) + NamesOf(x.parses)
  {
    FreshOnServer(d, x, believed, server);
    NamesConcat(added, x.parses);
    var all := added + x.parses;
    if added != [] {
      forall i | 0 < i < |all| ensures all[i] == x.parses[i - 1] && all[i].Parse? && all[i].name != added[0].name {
        assert x.parses[i - 1] in x.parses && x.parses[i - 1].name in NamesOf(x.parses);
      }
    } else {
      assert all == x.parses;
    }
  }

  lemma AddedGood(db: Db, added: seq<Msg>, ps: seq<Msg>)
    requires |added| <= 1 && forall m :: m in added ==> m.Parse? && m.sql !in db.broken
    ensures Good(db, added + ps) == |added| + Good(db, ps)
  {
    if added == [] {
      assert added + ps == ps;
    } else {
      assert added[0] in added && (added + ps)[1..] == ps && (added + ps)[0] == added[0];
    }
  }

  ghost predicate Accepted(db: Db, added: seq<Msg>) {
    forall m :: m in added ==> m.Parse? && m.sql !in db.broken
  }

  /** The backend a batch is sent to, when no added Parse is refused, name by name. */
  lemma ServerAt(added: seq<Msg>, d: Direct, x: Sent, believed: set<string>, server: Prepared, n: string)
    requires ValidBatch(d, x) && Backed(believed, server, d) && Added(added, d, x, believed) && Accepted(x.db, added)
    ensures var ps, r := x.parses, Process(x.db, server, None, added + x.parses + x.tail).prepared;
      && (n in NamesOf(ps) && n in r ==> n in NamesOf(ps[..Good(x.db, ps)]) && SameAt(Applied(d.prepared, ps), r, n))
      && (n in NamesOf(added) && n in r ==> SameAt(d.prepared, r, n))
      && (n !in NamesOf(ps) && n !in NamesOf(added) && n in r ==> SameAt(server, r, n))
  {
    var all, k := added + x.parses, Good(x.db, x.parses);
    TailHasNoParse(x.parses, x.tail);
    AddedFresh(added, d, x, believed, server);
    AddedGood(x.db, added, x.parses);
    UnnamedReached(x, added);
    BatchAt(x.db, server, all, x.tail, n);
    AddedPrefix(added, x.parses, k);
    AddedText(added, d, x, believed, server, n);
  }

  lemma UnnamedReached(x: Sent, added: seq<Msg>)
    requires AllParses(x.parses) && AllParses(added) && |added| <= 1
    requires forall i :: 0 < i < |x.parses| ==> x.parses[i].name != ""
    ensures forall i :: 0 <= i < |added + x.parses| && (added + x.parses)[i].name == "" ==> i <= |added|
  {
  }

  /** The texts after the Parses sent: the client's, of both the added statement and the batch's. */
  lemma AddedText(added: seq<Msg>, d: Direct, x: Sent, believed: set<string>, server: Prepared, n: string)
    requires Added(added, d, x, believed)
    ensures n in NamesOf(x.parses) ==> SameAt(Applied(server, added + x.parses), Applied(d.prepared, x.parses), n)
    ensures n in NamesOf(added) ==> SameAt(Applied(server, added + x.parses), d.prepared, n)
  {
    AppliedConcat(server, added, x.parses);
    AppliedAt(Applied(server, added), d.prepared, x.parses, n);
    if n in NamesOf(added) {
      assert added == [added[0]] && added[1..] == [];
      AppliedAt(Applied(server, added), server, x.parses, n);
    }
  }

  /** Then the backend is backed by the names sent. */
  lemma SentBacked(added: seq<Msg>, d: Direct, x: Sent, believed: set<string>, server: Prepared, names: set<string>)
    requires ValidBatch(d, x) && Backed(believed, server, d) && Added(added, d, x, believed) && Accepted(x.db, added)
    requires names == believed + NamesOf(x.parses) + NamesOf(added)
    ensures Backed(names, Process(x.db, server, None, added + x.parses + x.tail).prepared,
                   DirectBatch(x.db, d, x.parses + x.tail))
  {
    var d' := DirectBatch(x.db, d, x.parses + x.tail);
    var r := Process(x.db, server, None, added + x.parses + x.tail).prepared;
    forall n | n in r ensures
      && (n in d'.prepared && n in names ==> r[n] == d'.prepared[n])
      && (n != "" ==> n in names && (n in d'.prepared || n in d'.closed))
    {
      ServerAt(added, d, x, believed, server, n);
      DirectAt(d, x, n);
    }
  }

  /** A refused added Parse leaves the backend as it was, and the names of the batch's Parses and
      of the added one believed; that does no harm as long as the direct connection has accepted
      none of the batch's Parses. */
  lemma RefusedBacked(m: Msg, d: Direct, x: Sent, believed: set<string>, server: Prepared)
    requires ValidBatch(d, x) && Backed(believed, server, d) && Added([m], d, x, believed) && m.sql in x.db.broken
    requires Good(x.db, x.parses) == 0
    ensures Process(x.db, server, None, [m] + x.parses + x.tail) == Answer(Drop(server, m.name), [Error])
    ensures Backed(believed + NamesOf(x.parses) + {m.name}, Drop(server, m.name),
                   DirectBatch(x.db, d, x.parses + x.tail))
  {
    RefusedAnswer(x.db, server, m, x.parses + x.tail);
    assert [m] + x.parses + x.tail == [m] + (x.parses + x.tail);
    var r, d' := Drop(server, m.name), DirectBatch(x.db, d, x.parses + x.tail);
    FreshOnServer(d, x, believed, server);
    forall n | n in r ensures
      && (n in d'.prepared && n in believed + NamesOf(x.parses) + {m.name} ==> r[n] == d'.prepared[n])
      && (n != "" ==> n in believed && (n in d'.prepared || n in d'.closed))
    {
      DirectAt(d, x, n);
      assert x.parses[..0] == [] && NamesOf(x.parses[..0]) == {};
    }
  }

  lemma RefusedAnswer(db: Db, server: Prepared, m: Msg, rest: seq<Msg>)
    requires m.Parse? && m.sql in db.broken
    ensures Process(db, server, None, [m] + rest) == Answer(Drop(server, m.name), [Error])
  {
    assert ([m] + rest)[0] == m;
  }

  // ---------------------------------------------------------------------------
  // Which batches are answered otherwise than by a direct connection.

  /** The batch is answered otherwise. Without a Bind or Describe: one of its Parses is refused,
      but was acknowledged. With a Bind of a statement it does not parse itself: the statement's
      added Parse is refused, before the batch's own ones are seen; or none is added, because
      one that was refused is believed to be there, and the statement could be bound. */
  predicate Exposed(s: Session, d: Direct, x: Sent) {
    if IsExec(x.tail) && x.route.To? && x.tail[0].stmt in d.prepared then
      var b, stmt, ps := x.route.backend, x.tail[0].stmt, x.parses;
      && stmt !in NamesOf(ps)
      && (if stmt !in Believed(s, b) then d.prepared[stmt] in x.db.broken && Good(x.db, ps) > 0
          else stmt !in Server(s, b) && d.prepared[stmt] !in x.db.broken && Good(x.db, ps) == |ps|)
    else !IsExec(x.tail) && !IsDescribe(x.tail) && Good(x.db, x.parses) < |x.parses|
  }

  /** The Parse added for a statement that a backend is not believed to have. */
  function AddedFor(s: Session, d: Direct, x: Sent): seq<Msg> {
    if IsExec(x.tail) && x.route.To? && x.tail[0].stmt in d.prepared
       && x.tail[0].stmt !in Believed(s, x.route.backend) + NamesOf(x.parses)
    then [Parse(x.tail[0].stmt, d.prepared[x.tail[0].stmt])] else []
  }

  lemma AddedForIs(s: Session, d: Direct, x: Sent)
    requires Inv(s, d) && ValidBatch(d, x) && IsExec(x.tail)
    ensures Added(AddedFor(s, d, x), d, x, Believed(s, x.route.backend))
    ensures x.tail[0].stmt in NamesOf(x.parses) || x.tail[0].stmt in d.prepared
    ensures AddedFor(s, d, x) == [] <==> x.tail[0].stmt in Believed(s, x.route.backend) + NamesOf(x.parses)
    ensures NamesOf(AddedFor(s, d, x)) == if AddedFor(s, d, x) == [] then {} else {x.tail[0].stmt}
  {
    AppliedAt(d.prepared, d.prepared, x.parses, x.tail[0].stmt);
  }

  /** What the router does with a batch with a Bind. */
  lemma ExecIs(s: Session, d: Direct, x: Sent)
    requires Inv(s, d) && ValidBatch(d, x) && IsExec(x.tail)
    ensures var added, b, batch := AddedFor(s, d, x), x.route.backend, x.parses + x.tail;
      RouterBatch(x.db, s, batch, x.route)
        == Relay(RegisterParses(s, batch), b, Process(x.db, Server(s, b), None, added + x.parses + x.tail), |added|,
                 Believed(s, b) + NamesOf(x.parses) + NamesOf(added))
  {
    var added, b, batch := AddedFor(s, d, x), x.route.backend, x.parses + x.tail;
    var t := RegisterParses(s, batch);
    Registered(s, batch);
    TailHasNoParse(x.parses, x.tail);
    FirstBindOf(x.parses, x.tail);
    SplitBatch(x.parses, x.tail);
    AddedForIs(s, d, x);
    KnownText(s, d, x);
    assert Believed(t, b) + NamesOf(batch) == Believed(s, b) + NamesOf(x.parses);
    RunExecIs(x.db, t, batch, x.parses, x.tail, added, b);
    assert Server(t, b) == Server(s, b);
  }

  lemma RunExecIs(db: Db, t: Session, batch: seq<Msg>, ps: seq<Msg>, tail: seq<Msg>, added: seq<Msg>, b: Backend)
    requires IsExec(tail) && tail[0].stmt in t.stmts && ParsesOf(batch) == ps && OthersOf(batch) == tail
    requires var stmt := tail[0].stmt;
      added == if stmt in Believed(t, b) + NamesOf(batch) then [] else [Parse(stmt, t.stmts[stmt])]
    ensures RunExec(db, t, batch, tail[0].stmt, To(b))
         == Relay(t, b, Process(db, Server(t, b), None, added + ps + tail), |added|,
                  Believed(t, b) + NamesOf(batch) + NamesOf(added))
  {
    var stmt, known := tail[0].stmt, Believed(t, b) + NamesOf(batch);
    assert Injected(stmt !in known, Parse(stmt, t.stmts[stmt]), ps) == added + ps;
    assert NamesOf(added) == if added == [] then {} else {stmt};
    assert known + {stmt} == known + NamesOf(added);
  }

  /** The statement that a batch binds is known to the router with the client's text. */
  lemma KnownText(s: Session, d: Direct, x: Sent)
    requires Inv(s, d) && ValidBatch(d, x) && IsExec(x.tail)
    ensures var t, stmt := RegisterParses(s, x.parses + x.tail), x.tail[0].stmt;
      stmt in t.stmts && (stmt !in NamesOf(x.parses) ==> SameAt(t.stmts, d.prepared, stmt))
  {
    var stmt := x.tail[0].stmt;
    Registered(s, x.parses + x.tail);
    TailHasNoParse(x.parses, x.tail);
    AppliedConcat(s.stmts, x.parses, x.tail);
    AppliedNoParse(Applied(s.stmts, x.parses), x.tail);
    AppliedAt(d.prepared, s.stmts, x.parses, stmt);
    AppliedAt(s.stmts, s.stmts, x.parses, stmt);
  }

  function DirectChunk(d: Direct, x: Sent): seq<Response> {
    Process(x.db, d.prepared, None, x.parses + x.tail).responses
  }

  lemma DirectChunkIs(d: Direct, x: Sent)
    requires ValidBatch(d, x)
    ensures var k := Good(x.db, x.parses);
      DirectChunk(d, x) == Completes(k) +
        if k < |x.parses| then [Error] else Process(x.db, Applied(d.prepared, x.parses), None, x.tail).responses
  {
    ProcessParses(x.db, d.prepared, x.parses, x.tail);
  }

  /** The answer relayed by the router, without the added Parse's, when that is accepted. */
  lemma SentChunk(added: seq<Msg>, d: Direct, x: Sent, believed: set<string>, server: Prepared)
    requires ValidBatch(d, x) && Backed(believed, server, d) && Added(added, d, x, believed) && Accepted(x.db, added)
    ensures var k, rs := Good(x.db, x.parses), Process(x.db, server, None, added + x.parses + x.tail).responses;
      Swallow(rs, |added|) == Completes(k) +
        if k < |x.parses| then [Error] else Process(x.db, Applied(server, added + x.parses), None, x.tail).responses
  {
    var k := Good(x.db, x.parses);
    AddedFresh(added, d, x, believed, server);
    AddedGood(x.db, added, x.parses);
    SentAnswer(x.db, server, added + x.parses, x.tail, |added|, k);
  }

  lemma SentAnswer(db: Db, p: Prepared, all: seq<Msg>, tail: seq<Msg>, m: nat, k: nat)
    requires Fresh(p.Keys, all) && Good(db, all) == m + k && m <= |all|
    ensures Swallow(Process(db, p, None, all + tail).responses, m) == Completes(k) +
      if m + k < |all| then [Error] else Process(db, Applied(p, all), None, tail).responses
  {
    ProcessParses(db, p, all, tail);
    SwallowCompletes(m, k, if m + k < |all| then [Error] else Process(db, Applied(p, all), None, tail).responses);
  }

  /** A Bind is answered alike where its statement is, and by an error where it is not. */
  lemma BindAlike(added: seq<Msg>, d: Direct, x: Sent, believed: set<string>, server: Prepared)
    requires ValidBatch(d, x) && IsExec(x.tail) && Backed(believed, server, d) && Added(added, d, x, believed)
    requires x.tail[0].stmt in believed + NamesOf(x.parses) + NamesOf(added)
    ensures var stmt, p, q := x.tail[0].stmt, Applied(server, added + x.parses), Applied(d.prepared, x.parses);
      var rs, ds := Process(x.db, p, None, x.tail).responses, Process(x.db, q, None, x.tail).responses;
      rs == ds <==> stmt in NamesOf(x.parses) + NamesOf(added) || stmt in server || q[stmt] in x.db.broken
  {
    var stmt, p, q := x.tail[0].stmt, Applied(server, added + x.parses), Applied(d.prepared, x.parses);
    AddedText(added, d, x, believed, server, stmt);
    NamesConcat(added, x.parses);
    AppliedAt(server, server, added + x.parses, stmt);
    AppliedAt(d.prepared, d.prepared, x.parses, stmt);
    if stmt in NamesOf(x.parses) + NamesOf(added) || stmt in server {
      TailAlike(x.db, p, q, x.parses, x.tail);
    } else if q[stmt] !in x.db.broken {
      assert Process(x.db, q, None, x.tail).responses[0] == BindComplete;
    }
  }

  /** A batch with a Bind is answered alike exactly when it is not exposed. */
  lemma ExecChunk(s: Session, d: Direct, x: Sent)
    requires Inv(s, d) && ValidBatch(d, x) && IsExec(x.tail)
    ensures var added, server := AddedFor(s, d, x), Server(s, x.route.backend);
      !Exposed(s, d, x) <==>
      Swallow(Process(x.db, server, None, added + x.parses + x.tail).responses, |added|) == DirectChunk(d, x)
  {
    var added, b, k := AddedFor(s, d, x), x.route.backend, Good(x.db, x.parses);
    assert Backed(Believed(s, b), Server(s, b), d);
    AddedForIs(s, d, x);
    DirectChunkIs(d, x);
    AppliedAt(d.prepared, d.prepared, x.parses, x.tail[0].stmt);
    if added != [] && added[0].sql in x.db.broken {
      RefusedChunk(s, d, x, added[0]);
    } else {
      assert Accepted(x.db, added);
      SentChunk(added, d, x, Believed(s, b), Server(s, b));
      BindAlike(added, d, x, Believed(s, b), Server(s, b));
      SameStart(Completes(k), Process(x.db, Applied(Server(s, b), added + x.parses), None, x.tail).responses,
                Process(x.db, Applied(d.prepared, x.parses), None, x.tail).responses);
    }
  }

  lemma RefusedChunk(s: Session, d: Direct, x: Sent, m: Msg)
    requires Inv(s, d) && ValidBatch(d, x) && IsExec(x.tail) && AddedFor(s, d, x) == [m] && m.sql in x.db.broken
    ensures Swallow(Process(x.db, Server(s, x.route.backend), None, [m] + x.parses + x.tail).responses, 1) == [Error]
    ensures DirectChunk(d, x) == [Error] <==> Good(x.db, x.parses) == 0
  {
    var k := Good(x.db, x.parses);
    RefusedAnswer(x.db, Server(s, x.route.backend), m, x.parses + x.tail);
    assert [m] + x.parses + x.tail == [m] + (x.parses + x.tail);
    assert [Error][1..] == [] && Swallow([], 1) == [];
    DirectChunkIs(d, x);
    if k > 0 {
      assert DirectChunk(d, x)[0] == ParseComplete;
    } else if x.parses == [] {
      assert Applied(d.prepared, x.parses) == d.prepared;
    }
  }

  lemma SameStream(a: seq<Response>, b: seq<Response>, c: seq<Response>)
    ensures a + b + [Ready] == a + c + [Ready] <==> b == c
  {
    if a + b + [Ready] == a + c + [Ready] {
      assert |b| == |c|;
      assert a + b == (a + b + [Ready])[..|a + b|] && a + c == (a + c + [Ready])[..|a + c|];
      SameStart(a, b, c);
    }
  }

  /** One valid batch from states in agreement: the streams stay equal, and the states in
      agreement, exactly when it is not exposed. */
  lemma BatchSim(s: Session, d: Direct, x: Sent)
    requires Inv(s, d) && ValidBatch(d, x)
    ensures var s', d' := RouterBatch(x.db, s, x.parses + x.tail, x.route), DirectBatch(x.db, d, x.parses + x.tail);
      (s'.client == d'.stream <==> !Exposed(s, d, x)) && (!Exposed(s, d, x) ==> Inv(s', d'))
  {
    if IsExec(x.tail) {
      ExecSim(s, d, x);
    } else if IsDescribe(x.tail) {
      DescribeSim(s, d, x);
    } else {
      AckSim(s, d, x);
    }
  }

  /** The router's statements after the Parses of a valid batch. */
  lemma RegisteredBatch(s: Session, d: Direct, x: Sent)
    requires Inv(s, d) && ValidBatch(d, x)
    ensures var t := RegisterParses(s, x.parses + x.tail);
      && t.stmts == Applied(s.stmts, x.parses) && t.servers == s.servers && t.client == s.client
      && Linked(t.stmts, DirectBatch(x.db, d, x.parses + x.tail))
      && forall b :: Believed(t, b) == Believed(s, b) - NamesOf(x.parses)
  {
    Registered(s, x.parses + x.tail);
    TailHasNoParse(x.parses, x.tail);
    AppliedConcat(s.stmts, x.parses, x.tail);
    AppliedNoParse(Applied(s.stmts, x.parses), x.tail);
    StmtsFollow(s.stmts, d, x);
  }

  /** A Bind reaches a backend where its statement has the client's latest text, or, exactly when
      the batch is exposed, is answered otherwise. */
  lemma ExecSim(s: Session, d: Direct, x: Sent)
    requires Inv(s, d) && ValidBatch(d, x) && IsExec(x.tail)
    ensures var s', d' := RouterBatch(x.db, s, x.parses + x.tail, x.route), DirectBatch(x.db, d, x.parses + x.tail);
      (s'.client == d'.stream <==> !Exposed(s, d, x)) && (!Exposed(s, d, x) ==> Inv(s', d'))
  {
    var added, b := AddedFor(s, d, x), x.route.backend;
    var a := Process(x.db, Server(s, b), None, added + x.parses + x.tail);
    RegisteredBatch(s, d, x);
    ExecIs(s, d, x);
    ExecChunk(s, d, x);
    SameStream(s.client, Swallow(a.responses, |added|), DirectChunk(d, x));
    if !Exposed(s, d, x) {
      ExecBacked(s, d, x);
      RelayInv(s, d, x, a, |added|, Believed(s, b) + NamesOf(x.parses) + NamesOf(added));
    }
  }

  lemma ExecBacked(s: Session, d: Direct, x: Sent)
    requires Inv(s, d) && ValidBatch(d, x) && IsExec(x.tail) && !Exposed(s, d, x)
    ensures var added, b := AddedFor(s, d, x), x.route.backend;
      Backed(Believed(s, b) + NamesOf(x.parses) + NamesOf(added),
             Process(x.db, Server(s, b), None, added + x.parses + x.tail).prepared,
             DirectBatch(x.db, d, x.parses + x.tail))
  {
    var added, b := AddedFor(s, d, x), x.route.backend;
    assert Backed(Believed(s, b), Server(s, b), d);
    AddedForIs(s, d, x);
    if added != [] && added[0].sql in x.db.broken {
      assert added == [added[0]];
      RefusedBacked(added[0], d, x, Believed(s, b), Server(s, b));
    } else {
      assert Accepted(x.db, added);
      SentBacked(added, d, x, Believed(s, b), Server(s, b), Believed(s, b) + NamesOf(x.parses) + NamesOf(added));
    }
  }

  /** After relaying an answer equal to the direct one. */
  lemma RelayInv(s: Session, d: Direct, x: Sent, a: Answer, swallow: nat, names: set<string>)
    requires Inv(s, d) && ValidBatch(d, x) && x.route.To? && Swallow(a.responses, swallow) == DirectChunk(d, x)
    requires Backed(names, a.prepared, DirectBatch(x.db, d, x.parses + x.tail))
    ensures Inv(Relay(RegisterParses(s, x.parses + x.tail), x.route.backend, a, swallow, names),
                DirectBatch(x.db, d, x.parses + x.tail))
  {
    var t, b, d' := RegisterParses(s, x.parses + x.tail), x.route.backend, DirectBatch(x.db, d, x.parses + x.tail);
    var u := Relay(t, b, a, swallow, names);
    RegisteredBatch(s, d, x);
    forall c ensures Backed(Believed(u, c), Server(u, c), d') {
      assert Backed(Believed(s, c), Server(s, c), d);
      if c != b {
        OtherBacked(d, x, Believed(s, c), Server(s, c));
        assert Believed(u, c) == Believed(t, c) && Server(u, c) == Server(s, c);
      }
    }
  }

  lemma DescribeSim(s: Session, d: Direct, x: Sent)
    requires Inv(s, d) && ValidBatch(d, x) && IsDescribe(x.tail)
    ensures Inv(RouterBatch(x.db, s, x.parses + x.tail, x.route), DirectBatch(x.db, d, x.parses + x.tail))
  {
    var b := x.route.backend;
    assert Backed(Believed(s, b), Server(s, b), d);
    DescribeIs(s, d, x);
    DescribeChunk(d, x, Believed(s, b), Server(s, b));
    DescribeBacked(d, x, Believed(s, b), Server(s, b));
    RelayInv(s, d, x, Process(x.db, Server(s, b), None, x.parses + x.tail), 0, Believed(s, b) + NamesOf(x.parses));
  }

  lemma DescribeBacked(d: Direct, x: Sent, believed: set<string>, server: Prepared)
    requires ValidBatch(d, x) && Backed(believed, server, d)
    ensures Backed(believed + NamesOf(x.parses), Process(x.db, server, None, x.parses + x.tail).prepared,
                   DirectBatch(x.db, d, x.parses + x.tail))
  {
    assert [] + x.parses + x.tail == x.parses + x.tail;
    assert believed + NamesOf(x.parses) + NamesOf([]) == believed + NamesOf(x.parses);
    SentBacked([], d, x, believed, server, believed + NamesOf(x.parses));
  }

  lemma DescribeIs(s: Session, d: Direct, x: Sent)
    requires Inv(s, d) && ValidBatch(d, x) && IsDescribe(x.tail)
    ensures var b, batch := x.route.backend, x.parses + x.tail;
      RouterBatch(x.db, s, batch, x.route)
        == Relay(RegisterParses(s, batch), b, Process(x.db, Server(s, b), None, batch), 0,
                 Believed(s, b) + NamesOf(x.parses))
  {
    var b, batch := x.route.backend, x.parses + x.tail;
    RegisteredBatch(s, d, x);
    TailHasNoParse(x.parses, x.tail);
    FirstBindOf(x.parses, x.tail);
    assert x.tail[0] in batch;
    assert Believed(RegisterParses(s, batch), b) + NamesOf(batch) == Believed(s, b) + NamesOf(x.parses);
    assert Server(RegisterParses(s, batch), b) == Server(s, b);
  }

  lemma DescribeChunk(d: Direct, x: Sent, believed: set<string>, server: Prepared)
    requires ValidBatch(d, x) && IsDescribe(x.tail) && Backed(believed, server, d)
    ensures Swallow(Process(x.db, server, None, x.parses + x.tail).responses, 0) == DirectChunk(d, x)
  {
    var p, q := Applied(server, x.parses), Applied(d.prepared, x.parses);
    assert [] + x.parses == x.parses;
    SentChunk([], d, x, believed, server);
    DirectChunkIs(d, x);
    AppliedAt(server, d.prepared, x.parses, x.tail[0].name);
    TailAlike(x.db, p, q, x.parses, x.tail);
  }

  lemma AckSim(s: Session, d: Direct, x: Sent)
    requires Inv(s, d) && ValidBatch(d, x) && !IsExec(x.tail) && !IsDescribe(x.tail)
    ensures var s', d' := RouterBatch(x.db, s, x.parses + x.tail, x.route), DirectBatch(x.db, d, x.parses + x.tail);
      (s'.client == d'.stream <==> !Exposed(s, d, x)) && (!Exposed(s, d, x) ==> Inv(s', d'))
  {
    var batch, k := x.parses + x.tail, Good(x.db, x.parses);
    AckIs(s, x);
    RegisteredBatch(s, d, x);
    AckBatchParts(x.parses, x.tail, map[], "");
    DirectChunkIs(d, x);
    SameStream(s.client, Acks(batch), DirectChunk(d, x));
    if k < |x.parses| {
      CompletesAt(|x.parses|, k);
      CompletesAt(k, 0);
      assert DirectChunk(d, x)[k] == Error && Acks(batch)[k] == ParseComplete;
    } else {
      ClosesAnswer(x.db, Applied(d.prepared, x.parses), x.tail, "");
      AckInv(s, d, x);
    }
  }

  lemma {:induction false} CompletesAt(n: nat, i: nat)
    ensures |Completes(n)| == n && (i < n ==> Completes(n)[i] == ParseComplete)
  {
    if n > 0 { CompletesAt(n - 1, if i > 0 then i - 1 else 0); }
  }

  lemma AckIs(s: Session, x: Sent)
    requires AllParses(x.parses) && AllCloses(x.tail)
    ensures var t, batch := RegisterParses(s, x.parses + x.tail), x.parses + x.tail;
      RouterBatch(x.db, s, batch, x.route)
        == t.(stmts := Closed(t.stmts, batch), client := t.client + Acks(batch) + [Ready])
  {
    FirstBindOf(x.parses, x.tail);
    assert forall m :: m in x.parses + x.tail ==> m.Parse? || m.Close?;
  }

  lemma AckInv(s: Session, d: Direct, x: Sent)
    requires Inv(s, d) && ValidBatch(d, x) && AllCloses(x.tail) && Good(x.db, x.parses) == |x.parses|
    requires RouterBatch(x.db, s, x.parses + x.tail, x.route).client == DirectBatch(x.db, d, x.parses + x.tail).stream
    ensures Inv(RouterBatch(x.db, s, x.parses + x.tail, x.route), DirectBatch(x.db, d, x.parses + x.tail))
  {
    var batch, d' := x.parses + x.tail, DirectBatch(x.db, d, x.parses + x.tail);
    var t, u := RegisterParses(s, batch), RouterBatch(x.db, s, batch, x.route);
    AckIs(s, x);
    RegisteredBatch(s, d, x);
    ProcessParses(x.db, d.prepared, x.parses, x.tail);
    forall n | n in d'.prepared ensures SameAt(u.stmts, d'.prepared, n) {
      ClosesAnswer(x.db, Applied(d.prepared, x.parses), x.tail, n);
      AckBatchParts(x.parses, x.tail, t.stmts, n);
    }
    forall b ensures Backed(Believed(u, b), Server(u, b), d') {
      assert Backed(Believed(s, b), Server(s, b), d);
      OtherBacked(d, x, Believed(s, b), Server(s, b));
      assert Believed(u, b) == Believed(t, b) && Server(u, b) == Server(s, b);
    }
  }

  // ---------------------------------------------------------------------------
  // Whole sessions.

  function RouterRun(xs: seq<Sent>): Session {
    if xs == [] then Session(map[], map[], map[], [])
    else
      var x := xs[|xs| - 1];
      RouterBatch(x.db, RouterRun(xs[..|xs| - 1]), x.parses + x.tail, x.route)
  }

  function DirectRun(xs: seq<Sent>): Direct {
    if xs == [] then Direct(map[], {}, [])
    else
      var x := xs[|xs| - 1];
      DirectBatch(x.db, DirectRun(xs[..|xs| - 1]), x.parses + x.tail)
  }

  ghost predicate ValidSession(xs: seq<Sent>) {
    forall i :: 0 <= i < |xs| ==> ValidBatch(DirectRun(xs[..i]), xs[i])
  }

  lemma RunOne(xs: seq<Sent>, i: nat)
    requires i < |xs|
    ensures RouterRun(xs[..i + 1]) == RouterBatch(xs[i].db, RouterRun(xs[..i]), xs[i].parses + xs[i].tail, xs[i].route)
    ensures DirectRun(xs[..i + 1]) == DirectBatch(xs[i].db, DirectRun(xs[..i]), xs[i].parses + xs[i].tail)
  {
    assert xs[..i + 1][..i] == xs[..i];
  }

  ghost predicate ExposedAt(xs: seq<Sent>, i: nat)
    requires i < |xs|
  {
    Exposed(RouterRun(xs[..i]), DirectRun(xs[..i]), xs[i])
  }

  // Streams: every batch is answered by one chunk and a Ready.

  lemma {:induction false} NoReadyFromServer(db: Db, p: Prepared, portal: Option<string>, ms: seq<Msg>)
    ensures Ready !in Process(db, p, portal, ms).responses
    decreases |ms|
  {
    if ms != [] {
      match ms[0]
      case Parse(name, sql) => NoReadyFromServer(db, p[name := sql], portal, ms[1..]);
      case Bind(stmt) => if stmt in p { NoReadyFromServer(db, p, Some(p[stmt]), ms[1..]); }
      case Close(name) => NoReadyFromServer(db, p - {name}, portal, ms[1..]);
      case _ => NoReadyFromServer(db, p, portal, ms[1..]);
    }
  }

  lemma {:induction false} NoReadySwallowed(rs: seq<Response>, n: nat)
    requires Ready !in rs
    ensures Ready !in Swallow(rs, n)
    decreases |rs|
  {
    if rs != [] {
      assert forall r :: r in rs[1..] ==> r in rs;
      NoReadySwallowed(rs[1..], n);
      if n > 0 { NoReadySwallowed(rs[1..], n - 1); }
    }
  }

  lemma {:induction false} NoReadyAcked(batch: seq<Msg>)
    ensures Ready !in Acks(batch)
  {
    if batch != [] { NoReadyAcked(batch[..|batch| - 1]); }
  }

  lemma RouterChunk(db: Db, s: Session, batch: seq<Msg>, route: Route) returns (c: seq<Response>)
    ensures RouterBatch(db, s, batch, route).client == s.client + c + [Ready] && Ready !in c
  {
    var t := RegisterParses(s, batch);
    Registered(s, batch);
    var s' := RouterBatch(db, s, batch, route);
    c := s'.client[|s.client|..|s'.client| - 1];
    if FirstBind(batch).Some? || HasDescribe(batch) {
      if s' == Reject(t) {
        assert s'.client == s.client + [Error] + [Ready];
      } else {
        SentHasNoReady(db, t, batch, route);
      }
    } else {
      NoReadyAcked(batch);
    }
  }

  lemma SentHasNoReady(db: Db, t: Session, batch: seq<Msg>, route: Route)
    requires route.To?
    ensures forall b, ms, n :: Ready !in Swallow(Process(db, Server(t, b), None, ms).responses, n)
  {
    forall b, ms, n ensures Ready !in Swallow(Process(db, Server(t, b), None, ms).responses, n) {
      NoReadyFromServer(db, Server(t, b), None, ms);
      NoReadySwallowed(Process(db, Server(t, b), None, ms).responses, n);
    }
  }

  /** Two streams of whole batches with a further chunk each are equal only if they were before. */
  lemma EqualBefore(a: seq<Response>, b: seq<Response>, c: seq<Response>, e: seq<Response>)
    requires (a == [] || a[|a| - 1] == Ready) && (b == [] || b[|b| - 1] == Ready) && Ready !in c && Ready !in e
    requires a + c + [Ready] == b + e + [Ready]
    ensures a == b
  {
    var s, t := a + c, b + e;
    assert s == (s + [Ready])[..|s|] && t == (t + [Ready])[..|t|] && s == t;
    NotLonger(a, b, c, s);
    NotLonger(b, a, e, s);
    assert a == s[..|a|] && b == t[..|b|];
  }

  lemma NotLonger(a: seq<Response>, b: seq<Response>, c: seq<Response>, s: seq<Response>)
    requires s == a + c && Ready !in c && b <= s && (b == [] || b[|b| - 1] == Ready)
    ensures |b| <= |a|
  {
    forall i | |a| <= i < |s| ensures s[i] != Ready { assert s[i] == c[i - |a|]; }
  }

  lemma {:induction false} EndsReady(xs: seq<Sent>)
    ensures xs == [] || (RouterRun(xs).client != [] && RouterRun(xs).client[|RouterRun(xs).client| - 1] == Ready)
    ensures xs == [] || (DirectRun(xs).stream != [] && DirectRun(xs).stream[|DirectRun(xs).stream| - 1] == Ready)
  {
    if xs != [] {
      var x, before := xs[|xs| - 1], xs[..|xs| - 1];
      var c := RouterChunk(x.db, RouterRun(before), x.parses + x.tail, x.route);
    }
  }

  /** Streams that have come to differ never become equal again. */
  lemma {:induction false} DifferOn(xs: seq<Sent>)
    requires xs != [] && RouterRun(xs).client == DirectRun(xs).stream
    ensures RouterRun(xs[..|xs| - 1]).client == DirectRun(xs[..|xs| - 1]).stream
  {
    var x, before := xs[|xs| - 1], xs[..|xs| - 1];
    var c := RouterChunk(x.db, RouterRun(before), x.parses + x.tail, x.route);
    NoReadyFromServer(x.db, DirectRun(before).prepared, None, x.parses + x.tail);
    EndsReady(before);
    EqualBefore(RouterRun(before).client, DirectRun(before).stream, c,
                Process(x.db, DirectRun(before).prepared, None, x.parses + x.tail).responses);
  }

  /** None of the first `n` batches is exposed. */
  ghost predicate Unexposed(xs: seq<Sent>, n: nat)
    requires n <= |xs|
  {
    forall i :: 0 <= i < n ==> !ExposedAt(xs, i)
  }

  /** After `n` batches the client has been sent exactly what a direct connection would send. */
  ghost predicate EqualStreams(xs: seq<Sent>, n: nat)
    requires n <= |xs|
  {
    RouterRun(xs[..n]).client == DirectRun(xs[..n]).stream
  }

  ghost predicate InvAt(xs: seq<Sent>, n: nat)
    requires n <= |xs|
  {
    Inv(RouterRun(xs[..n]), DirectRun(xs[..n]))
  }

  /** For every valid session, however it is routed and whatever the database refuses: the streams
      are equal if and only if no batch is exposed. */
  lemma {:induction false} EqualUnlessExposed(xs: seq<Sent>, n: nat)
    requires ValidSession(xs) && n <= |xs|
    ensures (EqualStreams(xs, n) <==> Unexposed(xs, n)) && (EqualStreams(xs, n) ==> InvAt(xs, n))
  {
    var equal := (i: nat) => i <= |xs| && EqualStreams(xs, i);
    var agree := (i: nat) => i <= |xs| && InvAt(xs, i);
    var exposed := (i: nat) => i < |xs| && ExposedAt(xs, i);
    EmptySession(xs);
    forall i: nat | i < n ensures StepsOn(equal, agree, exposed, i) {
      if equal(i) ==> agree(i) { EqualNext(xs, i); }
    }
    StepByStep(equal, agree, exposed, n);
    assert forall i: nat :: i < n ==> (exposed(i) <==> ExposedAt(xs, i));
  }

  ghost predicate StepsOn(equal: nat -> bool, agree: nat -> bool, exposed: nat -> bool, i: nat) {
    (equal(i) ==> agree(i)) ==> (equal(i + 1) <==> equal(i) && !exposed(i)) && (equal(i + 1) ==> agree(i + 1))
  }

  lemma {:induction false} StepByStep(equal: nat -> bool, agree: nat -> bool, exposed: nat -> bool, n: nat)
    requires equal(0) && agree(0) && forall i: nat :: i < n ==> StepsOn(equal, agree, exposed, i)
    ensures (equal(n) <==> forall i: nat :: i < n ==> !exposed(i)) && (equal(n) ==> agree(n))
  {
    if n > 0 {
      StepByStep(equal, agree, exposed, n - 1);
      assert StepsOn(equal, agree, exposed, n - 1);
    }
  }

  lemma EmptySession(xs: seq<Sent>)
    ensures EqualStreams(xs, 0) && Unexposed(xs, 0) && InvAt(xs, 0)
  {
    assert xs[..0] == [];
  }

  lemma {:induction false} EqualNext(xs: seq<Sent>, n: nat)
    requires n < |xs| && ValidSession(xs) && (EqualStreams(xs, n) ==> InvAt(xs, n))
    ensures EqualStreams(xs, n + 1) <==> EqualStreams(xs, n) && !ExposedAt(xs, n)
    ensures EqualStreams(xs, n + 1) ==> InvAt(xs, n + 1)
  {
    RunOne(xs, n);
    if EqualStreams(xs, n) {
      BatchSim(RouterRun(xs[..n]), DirectRun(xs[..n]), xs[n]);
    } else if EqualStreams(xs, n + 1) {
      assert xs[..n + 1][..n] == xs[..n];
      DifferOn(xs[..n + 1]);
    }
  }

  // ---------------------------------------------------------------------------
  // The same from what the client has sent.

  predicate SentTo(x: Sent, b: Backend) {
    x.route == To(b) && (IsExec(x.tail) || IsDescribe(x.tail))
  }

  predicate Brings(x: Sent, b: Backend, n: string) {
    SentTo(x, b) && (n in NamesOf(x.parses) || (IsExec(x.tail) && n == x.tail[0].stmt))
  }

  /** Since it was last parsed, or in that very batch, the statement was used on the backend. */
  predicate UsedOn(xs: seq<Sent>, b: Backend, n: string) {
    if xs == [] then false
    else
      var x := xs[|xs| - 1];
      Brings(x, b, n) || (n !in NamesOf(x.parses) && UsedOn(xs[..|xs| - 1], b, n))
  }

  /** The batch binds the statement on a backend where it was not used since it was parsed, while
      the database refuses its text. */
  predicate FirstUseRefused(before: seq<Sent>, x: Sent, b: Backend, n: string) {
    && SentTo(x, b) && IsExec(x.tail) && n == x.tail[0].stmt && n !in NamesOf(x.parses) && !UsedOn(before, b, n)
    && n in DirectRun(before).prepared && DirectRun(before).prepared[n] in x.db.broken
  }

  /** Since the statement was last parsed, its first use on the backend was refused. */
  predicate RefusedOn(xs: seq<Sent>, b: Backend, n: string) {
    if xs == [] then false
    else
      var x, before := xs[|xs| - 1], xs[..|xs| - 1];
      FirstUseRefused(before, x, b, n) || (n !in NamesOf(x.parses) && RefusedOn(before, b, n))
  }

  /** The batch is answered otherwise than by a direct connection. Without a Bind or Describe: one
      of its Parses is refused. With a Bind of a statement parsed before: the batch is the
      statement's first use on the backend, the database now refuses its text but accepts the
      batch's first Parse; or the first use was refused, and the database now accepts all. */
  predicate Misleads(before: seq<Sent>, x: Sent) {
    var d := DirectRun(before);
    if IsExec(x.tail) && x.route.To? && x.tail[0].stmt in d.prepared then
      var b, stmt, ps := x.route.backend, x.tail[0].stmt, x.parses;
      && stmt !in NamesOf(ps)
      && (if !UsedOn(before, b, stmt) then d.prepared[stmt] in x.db.broken && Good(x.db, ps) > 0
          else RefusedOn(before, b, stmt) && d.prepared[stmt] !in x.db.broken && Good(x.db, ps) == |ps|)
    else !IsExec(x.tail) && !IsDescribe(x.tail) && Good(x.db, x.parses) < |x.parses|
  }

  /** None of the first `n` batches misleads. */
  ghost predicate Truthful(xs: seq<Sent>, n: nat)
    requires n <= |xs|
  {
    forall i :: 0 <= i < n ==> !Misleads(xs[..i], xs[i])
  }

  lemma {:induction false} RefusedIsUsed(xs: seq<Sent>, b: Backend, n: string)
    ensures RefusedOn(xs, b, n) ==> UsedOn(xs, b, n)
  {
    if xs != [] { RefusedIsUsed(xs[..|xs| - 1], b, n); }
  }

  lemma RelayParts(t: Session, b: Backend, a: Answer, swallow: nat, names: set<string>, c: Backend)
    ensures var u := Relay(t, b, a, swallow, names);
      && Believed(u, c) == (if c == b then names else Believed(t, c))
      && Server(u, c) == (if c == b then a.prepared else Server(t, c))
  {
  }

  lemma BelievedNext(s: Session, d: Direct, x: Sent, b: Backend, n: string)
    requires Inv(s, d) && ValidBatch(d, x)
    ensures n in Believed(RouterBatch(x.db, s, x.parses + x.tail, x.route), b) <==>
      Brings(x, b, n) || (n !in NamesOf(x.parses) && n in Believed(s, b))
  {
    RegisteredBatch(s, d, x);
    if IsExec(x.tail) {
      BelievedExec(s, d, x, b, n);
    } else if IsDescribe(x.tail) {
      BelievedDescribe(s, d, x, b, n);
    } else {
      AckIs(s, x);
    }
  }

  lemma BelievedExec(s: Session, d: Direct, x: Sent, b: Backend, n: string)
    requires Inv(s, d) && ValidBatch(d, x) && IsExec(x.tail)
    requires Believed(RegisterParses(s, x.parses + x.tail), b) == Believed(s, b) - NamesOf(x.parses)
    ensures n in Believed(RouterBatch(x.db, s, x.parses + x.tail, x.route), b) <==>
      Brings(x, b, n) || (n !in NamesOf(x.parses) && n in Believed(s, b))
  {
    var added, c := AddedFor(s, d, x), x.route.backend;
    ExecIs(s, d, x);
    AddedForIs(s, d, x);
    RelayParts(RegisterParses(s, x.parses + x.tail), c, Process(x.db, Server(s, c), None, added + x.parses + x.tail),
               |added|,
               Believed(s, c) + NamesOf(x.parses) + NamesOf(added), b);
  }

  lemma BelievedDescribe(s: Session, d: Direct, x: Sent, b: Backend, n: string)
    requires Inv(s, d) && ValidBatch(d, x) && IsDescribe(x.tail)
    requires Believed(RegisterParses(s, x.parses + x.tail), b) == Believed(s, b) - NamesOf(x.parses)
    ensures n in Believed(RouterBatch(x.db, s, x.parses + x.tail, x.route), b) <==>
      Brings(x, b, n) || (n !in NamesOf(x.parses) && n in Believed(s, b))
  {
    var c := x.route.backend;
    DescribeIs(s, d, x);
    RelayParts(RegisterParses(s, x.parses + x.tail), c, Process(x.db, Server(s, c), None, x.parses + x.tail), 0,
               Believed(s, c) + NamesOf(x.parses), b);
  }

  /** A statement that both servers have and the rest of the batch answers alike is closed by both
      or by neither. */
  lemma {:induction false} UsesSurvive(db: Db, p: Prepared, q: Prepared, portal: Option<string>, ms: seq<Msg>,
                                       n: string)
    requires PortalUses(ms) && n in p && n in q
    ensures n in Process(db, p, portal, ms).prepared <==> n in Process(db, q, portal, ms).prepared
    decreases |ms|
  {
    if ms != [] {
      assert ms[0].DescribePortal? || ms[0].Execute? || ms[0].Close?;
      var rest := ms[1..];
      assert PortalUses(rest) by { assert forall i :: 0 <= i < |rest| ==> rest[i] == ms[i + 1]; }
      if ms[0].Close? {
        if ms[0].name != n {
          UsesSurvive(db, p - {ms[0].name}, q - {ms[0].name}, portal, rest, n);
        } else {
          StaysClosed(db, p - {n}, portal, rest, n);
          StaysClosed(db, q - {n}, portal, rest, n);
        }
      } else {
        UsesSurvive(db, p, q, portal, rest, n);
      }
    }
  }

  lemma StaysClosed(db: Db, p: Prepared, portal: Option<string>, ms: seq<Msg>, n: string)
    requires PortalUses(ms) && n !in p
    ensures n !in Process(db, p, portal, ms).prepared
  {
    assert NoParse(ms) by { assert forall i :: 0 <= i < |ms| ==> !ms[i].Parse?; }
    OthersOnlyClose(db, p, portal, ms, n);
  }

  lemma TailSurvives(db: Db, p: Prepared, q: Prepared, ps: seq<Msg>, tail: seq<Msg>, n: string)
    requires ValidTail(ps, tail) && n in p && n in q
    requires IsExec(tail) ==>
      var stmt := tail[0].stmt; stmt in q && (SameAt(p, q, stmt) || (stmt !in p && q[stmt] in db.broken))
    ensures n in Process(db, p, None, tail).prepared <==> n in Process(db, q, None, tail).prepared
  {
    if IsExec(tail) {
      if tail[0].stmt in p { UsesSurvive(db, p, q, Some(q[tail[0].stmt]), tail[1..], n); }
    } else if IsDescribe(tail) {
      assert NoParse(tail) && ClosesOf(tail) == {};
      OthersOnlyClose(db, p, None, tail, n);
      OthersOnlyClose(db, q, None, tail, n);
    } else {
      UsesSurvive(db, p, q, None, tail, n);
    }
  }

  /** The statement bound is on the backend, or cannot be bound directly either. */
  ghost predicate BindFits(added: seq<Msg>, d: Direct, x: Sent, believed: set<string>, server: Prepared) {
    IsExec(x.tail) ==>
      var stmt := x.tail[0].stmt;
      && stmt in believed + NamesOf(x.parses) + NamesOf(added)
      && (|| stmt in NamesOf(x.parses) + NamesOf(added) || stmt in server
          || (stmt in d.prepared && d.prepared[stmt] in x.db.broken))
  }

  lemma TailKeeps(added: seq<Msg>, d: Direct, x: Sent, believed: set<string>, server: Prepared, n: string)
    requires ValidBatch(d, x) && Backed(believed, server, d) && Added(added, d, x, believed)
    requires BindFits(added, d, x, believed, server)
    requires n in NamesOf(x.parses) || (n in d.prepared && (n in NamesOf(added) || n in server))
    ensures var p, q := Applied(server, added + x.parses), Applied(d.prepared, x.parses);
      n in Process(x.db, p, None, x.tail).prepared <==> n in Process(x.db, q, None, x.tail).prepared
  {
    var p, q := Applied(server, added + x.parses), Applied(d.prepared, x.parses);
    NamesConcat(added, x.parses);
    AppliedAt(server, server, added + x.parses, n);
    AppliedAt(d.prepared, d.prepared, x.parses, n);
    if IsExec(x.tail) {
      var stmt := x.tail[0].stmt;
      AddedText(added, d, x, believed, server, stmt);
      AppliedAt(server, server, added + x.parses, stmt);
      AppliedAt(d.prepared, d.prepared, x.parses, stmt);
    }
    TailSurvives(x.db, p, q, x.parses, x.tail, n);
  }

  lemma StoppedKeeps(added: seq<Msg>, d: Direct, x: Sent, believed: set<string>, server: Prepared, n: string)
    requires ValidBatch(d, x) && Backed(believed, server, d) && Added(added, d, x, believed) && Accepted(x.db, added)
    requires Good(x.db, x.parses) < |x.parses|
    requires
      || n in NamesOf(x.parses[..Good(x.db, x.parses)]) || n in NamesOf(added)
      || (n in server && n !in NamesOf(x.parses))
    ensures n in Process(x.db, server, None, added + x.parses + x.tail).prepared
  {
    var all, k := added + x.parses, Good(x.db, x.parses);
    AddedFresh(added, d, x, believed, server);
    AddedGood(x.db, added, x.parses);
    UnnamedReached(x, added);
    ProcessParses(x.db, server, all, x.tail);
    AddedPrefix(added, x.parses, k);
    StoppedAt(x.db, server, all, n);
  }

  lemma AddedPrefix(added: seq<Msg>, ps: seq<Msg>, k: nat)
    requires k <= |ps|
    ensures NamesOf((added + ps)[..|added| + k]) == NamesOf(added) + NamesOf(ps[..k])
    ensures NamesOf(added + ps) == NamesOf(added) + NamesOf(ps)
  {
    assert (added + ps)[..|added| + k] == added + ps[..k];
    NamesConcat(added, ps[..k]);
    NamesConcat(added, ps);
  }

  /** Of a batch sent with no refused added Parse: a statement that the client still has is on the
      backend afterwards exactly if it was parsed there now or was there before. */
  lemma SentKeeps(added: seq<Msg>, d: Direct, x: Sent, believed: set<string>, server: Prepared, n: string)
    requires ValidBatch(d, x) && Backed(believed, server, d) && Added(added, d, x, believed) && Accepted(x.db, added)
    requires n in DirectBatch(x.db, d, x.parses + x.tail).prepared
    requires Good(x.db, x.parses) == |x.parses| ==> BindFits(added, d, x, believed, server)
    ensures n in Process(x.db, server, None, added + x.parses + x.tail).prepared <==>
      n in NamesOf(x.parses) || n in NamesOf(added) || n in server
  {
    ServerAt(added, d, x, believed, server, n);
    DirectAt(d, x, n);
    if n in NamesOf(x.parses) || n in NamesOf(added) || n in server {
      if Good(x.db, x.parses) < |x.parses| {
        StoppedKeeps(added, d, x, believed, server, n);
      } else {
        AddedFresh(added, d, x, believed, server);
        AddedGood(x.db, added, x.parses);
        ProcessParses(x.db, server, added + x.parses, x.tail);
        ProcessParses(x.db, d.prepared, x.parses, x.tail);
        TailKeeps(added, d, x, believed, server, n);
      }
    }
  }

  /** A statement that the client has and the router believes to be on a backend is not there after
      an unexposed batch exactly if its added Parse was refused now, or it was not there before. */
  lemma HollowNext(s: Session, d: Direct, x: Sent, b: Backend, n: string)
    requires Inv(s, d) && ValidBatch(d, x) && !Exposed(s, d, x) && n in DirectBatch(x.db, d, x.parses + x.tail).prepared
    requires n in Believed(RouterBatch(x.db, s, x.parses + x.tail, x.route), b)
    ensures n !in Server(RouterBatch(x.db, s, x.parses + x.tail, x.route), b) <==>
      n !in NamesOf(x.parses) &&
      (if n in Believed(s, b) then n !in Server(s, b) else n in d.prepared && d.prepared[n] in x.db.broken)
  {
    RegisteredBatch(s, d, x);
    BelievedNext(s, d, x, b, n);
    DirectAt(d, x, n);
    assert Backed(Believed(s, b), Server(s, b), d);
    if SentTo(x, b) {
      if IsExec(x.tail) { HollowExec(s, d, x, n); } else { HollowDescribe(s, d, x, n); }
    } else if IsExec(x.tail) {
      ExecIs(s, d, x);
    } else if IsDescribe(x.tail) {
      DescribeIs(s, d, x);
    } else {
      AckIs(s, x);
    }
  }

  lemma HollowDescribe(s: Session, d: Direct, x: Sent, n: string)
    requires Inv(s, d) && ValidBatch(d, x) && IsDescribe(x.tail)
    requires n in DirectBatch(x.db, d, x.parses + x.tail).prepared
    ensures n in Server(RouterBatch(x.db, s, x.parses + x.tail, x.route), x.route.backend) <==>
      n in NamesOf(x.parses) || n in Server(s, x.route.backend)
  {
    var b := x.route.backend;
    assert Backed(Believed(s, b), Server(s, b), d);
    DescribeIs(s, d, x);
    assert [] + x.parses + x.tail == x.parses + x.tail;
    SentKeeps([], d, x, Believed(s, b), Server(s, b), n);
  }

  lemma HollowExec(s: Session, d: Direct, x: Sent, n: string)
    requires Inv(s, d) && ValidBatch(d, x) && IsExec(x.tail) && !Exposed(s, d, x)
    requires n in DirectBatch(x.db, d, x.parses + x.tail).prepared
    ensures var b, added := x.route.backend, AddedFor(s, d, x);
      n in Server(RouterBatch(x.db, s, x.parses + x.tail, x.route), b) <==>
        if added != [] && added[0].Parse? && added[0].sql in x.db.broken then n in Server(s, b) && n != added[0].name
        else n in NamesOf(x.parses) || n in NamesOf(added) || n in Server(s, b)
  {
    var b, added := x.route.backend, AddedFor(s, d, x);
    assert Backed(Believed(s, b), Server(s, b), d);
    ExecIs(s, d, x);
    AddedForIs(s, d, x);
    if added != [] && added[0].sql in x.db.broken {
      assert added == [added[0]];
      RefusedAnswer(x.db, Server(s, b), added[0], x.parses + x.tail);
      assert added + x.parses + x.tail == [added[0]] + (x.parses + x.tail);
    } else {
      assert Accepted(x.db, added);
      SentKeeps(added, d, x, Believed(s, b), Server(s, b), n);
    }
  }

  // Both, over whole sessions.

  ghost predicate BelievedAt(xs: seq<Sent>, i: nat, b: Backend, n: string)
    requires i <= |xs|
  {
    n in Believed(RouterRun(xs[..i]), b)
  }

  lemma {:induction false} BelievedStep(xs: seq<Sent>, i: nat, b: Backend, n: string)
    requires i < |xs| && ValidSession(xs) && InvAt(xs, i)
    ensures BelievedAt(xs, i + 1, b, n) <==>
      Brings(xs[i], b, n) || (n !in NamesOf(xs[i].parses) && BelievedAt(xs, i, b, n))
    ensures UsedOn(xs[..i + 1], b, n) <==> Brings(xs[i], b, n) || (n !in NamesOf(xs[i].parses) && UsedOn(xs[..i], b, n))
  {
    RunOne(xs, i);
    BelievedNext(RouterRun(xs[..i]), DirectRun(xs[..i]), xs[i], b, n);
    assert xs[..i + 1][..i] == xs[..i];
  }

  /** The router believes a statement prepared on a backend exactly when it was used there since it
      was last parsed. */
  lemma {:induction false} BelievedIsUsed(xs: seq<Sent>, i: nat, b: Backend, n: string)
    requires i <= |xs| && ValidSession(xs) && Unexposed(xs, i)
    ensures BelievedAt(xs, i, b, n) <==> UsedOn(xs[..i], b, n)
  {
    if i == 0 {
      assert xs[..0] == [];
    } else {
      BelievedIsUsed(xs, i - 1, b, n);
      EqualUnlessExposed(xs, i - 1);
      BelievedStep(xs, i - 1, b, n);
    }
  }

  ghost predicate OnServer(xs: seq<Sent>, i: nat, b: Backend, n: string)
    requires i <= |xs|
  {
    n in Server(RouterRun(xs[..i]), b)
  }

  ghost predicate Has(xs: seq<Sent>, i: nat, n: string)
    requires i <= |xs|
  {
    n in DirectRun(xs[..i]).prepared
  }

  lemma {:induction false} HollowStep(xs: seq<Sent>, i: nat, b: Backend, n: string)
    requires i < |xs| && ValidSession(xs) && InvAt(xs, i) && !ExposedAt(xs, i)
    requires (BelievedAt(xs, i, b, n) <==> UsedOn(xs[..i], b, n)) && Has(xs, i + 1, n) && BelievedAt(xs, i + 1, b, n)
    ensures n !in NamesOf(xs[i].parses) ==> Has(xs, i, n)
    ensures !OnServer(xs, i + 1, b, n) <==>
      n !in NamesOf(xs[i].parses) &&
      if BelievedAt(xs, i, b, n) then !OnServer(xs, i, b, n) else FirstUseRefused(xs[..i], xs[i], b, n)
  {
    RunOne(xs, i);
    var s, d, x := RouterRun(xs[..i]), DirectRun(xs[..i]), xs[i];
    HollowNext(s, d, x, b, n);
    BelievedNext(s, d, x, b, n);
    DirectAt(d, x, n);
  }

  lemma {:induction false} RefusedStep(xs: seq<Sent>, i: nat, b: Backend, n: string)
    requires i < |xs|
    ensures RefusedOn(xs[..i + 1], b, n) <==>
      FirstUseRefused(xs[..i], xs[i], b, n) || (n !in NamesOf(xs[i].parses) && RefusedOn(xs[..i], b, n))
  {
    assert xs[..i + 1][..i] == xs[..i];
  }

  /** Of what the client has and the router believes on a backend, exactly that is not there whose
      first use there was refused. */
  lemma {:induction false} HollowIsRefused(xs: seq<Sent>, i: nat, b: Backend, n: string)
    requires i <= |xs| && ValidSession(xs) && Unexposed(xs, i) && Has(xs, i, n) && BelievedAt(xs, i, b, n)
    ensures !OnServer(xs, i, b, n) <==> RefusedOn(xs[..i], b, n)
  {
    if i > 0 {
      EqualUnlessExposed(xs, i - 1);
      BelievedIsUsed(xs, i - 1, b, n);
      HollowStep(xs, i - 1, b, n);
      RefusedStep(xs, i - 1, b, n);
      RefusedIsUsed(xs[..i - 1], b, n);
      if n !in NamesOf(xs[i - 1].parses) && BelievedAt(xs, i - 1, b, n) { HollowIsRefused(xs, i - 1, b, n); }
    }
  }

  lemma {:induction false} ExposedIsMisleading(xs: seq<Sent>, i: nat)
    requires i < |xs| && ValidSession(xs) && Unexposed(xs, i)
    ensures ExposedAt(xs, i) <==> Misleads(xs[..i], xs[i])
  {
    var x, d := xs[i], DirectRun(xs[..i]);
    if IsExec(x.tail) && x.route.To? && x.tail[0].stmt in d.prepared {
      BelievedIsUsed(xs, i, x.route.backend, x.tail[0].stmt);
      if BelievedAt(xs, i, x.route.backend, x.tail[0].stmt) {
        HollowIsRefused(xs, i, x.route.backend, x.tail[0].stmt);
      }
    }
  }

  lemma {:induction false} UnexposedIsTruthful(xs: seq<Sent>, n: nat)
    requires n <= |xs| && ValidSession(xs)
    ensures Unexposed(xs, n) <==> Truthful(xs, n)
  {
    var exposed := (i: nat) => i < |xs| && ExposedAt(xs, i);
    var misleads := (i: nat) => i < |xs| && Misleads(xs[..i], xs[i]);
    forall i: nat | i < n && NoneBefore(exposed, i) ensures exposed(i) <==> misleads(i) {
      forall j | 0 <= j < i ensures !ExposedAt(xs, j) { assert !exposed(j); }
      ExposedIsMisleading(xs, i);
    }
    SameUntilFirst(exposed, misleads, n);
    assert forall i: nat :: i < n ==> (exposed(i) <==> ExposedAt(xs, i));
    assert forall i: nat :: i < n ==> (misleads(i) <==> Misleads(xs[..i], xs[i]));
  }

  ghost predicate NoneBefore(a: nat -> bool, n: nat) {
    forall i: nat :: i < n ==> !a(i)
  }

  lemma {:induction false} SameUntilFirst(a: nat -> bool, b: nat -> bool, n: nat)
    requires forall i: nat :: i < n && NoneBefore(a, i) ==> (a(i) <==> b(i))
    ensures NoneBefore(a, n) <==> NoneBefore(b, n)
  {
    if n > 0 {
      SameUntilFirst(a, b, n - 1);
      assert NoneBefore(a, n) <==> NoneBefore(a, n - 1) && !a(n - 1);
      assert NoneBefore(b, n) <==> NoneBefore(b, n - 1) && !b(n - 1);
    }
  }

  /** For every valid session, however it is routed and whatever the database refuses at each
      batch: the client is sent exactly what one direct connection would send if and only if no
      refused Parse is acknowledged, no batch of its own Parses meets a refused added one, and no
      statement whose first use on a backend was refused is bound there when it could be. */
  lemma {:induction false} RoutedLikeDirect(xs: seq<Sent>)
    requires ValidSession(xs)
    ensures RouterRun(xs).client == DirectRun(xs).stream <==> Truthful(xs, |xs|)
  {
    EqualUnlessExposed(xs, |xs|);
    UnexposedIsTruthful(xs, |xs|);
    assert xs[..|xs|] == xs;
  }

  // ---------------------------------------------------------------------------
  // Limits.

  /** A batch that cannot be routed is answered by one error, and reaches no backend. */
  lemma UnroutedBatch(db: Db, s: Session, batch: seq<Msg>)
    requires FirstBind(batch).Some? || HasDescribe(batch)
    ensures var t := RouterBatch(db, s, batch, NoRoute); t.client == s.client + [Error, Ready] && t.servers == s.servers
  {
    Registered(s, batch);
  }

  lemma OneMessage(m: Msg)
    ensures FirstBind([m]) == (if m.Bind? then Some(m.stmt) else None)
    ensures ParsesOf([m]) == (if m.Parse? then [m] else []) && OthersOf([m]) == (if m.Parse? then [] else [m])
    ensures NamesOf([m]) == (if m.Parse? then {m.name} else {})
  {
    assert [m][1..] == [] && [m][..0] == [];
    assert FirstBind([]) == None;
    assert ParsesOf([]) == [] && OthersOf([]) == [];
  }

  lemma OneRegistered(s: Session, m: Msg)
    ensures RegisterParses(s, [m]) == if m.Parse? then RegisterParse(s, m.name, m.sql) else s
  {
    assert [m][..0] == [];
    assert RegisterParses(s, []) == s;
  }

  lemma OneAck(p: Prepared, m: Msg)
    ensures Acks([m]) == match m { case Parse(_, _) => [ParseComplete] case Close(_) => [CloseComplete] case _ => [] }
    ensures Closed(p, [m]) == if m.Close? then p - {m.name} else p
    ensures HasDescribe([m]) <==> m.DescribeStatement? || m.DescribePortal?
  {
    assert [m][..0] == [] && Acks([]) == [] && Closed(p, []) == p;
    assert m in [m];
  }

  /** A batch of one Parse or one Close. */
  lemma AckBatch(db: Db, s: Session, m: Msg)
    requires m.Parse? || m.Close?
    ensures var t := if m.Parse? then RegisterParse(s, m.name, m.sql) else s.(stmts := s.stmts - {m.name});
      RouterBatch(db, s, [m], NoRoute)
        == t.(client := s.client + [if m.Parse? then ParseComplete else CloseComplete] + [Ready])
  {
    OneMessage(m);
    OneRegistered(s, m);
    OneAck(RegisterParses(s, [m]).stmts, m);
  }

  /** A server that is sent a Parse and a Bind of one name. */
  lemma ParseAndBind(db: Db, p: Prepared, stmt: string, sql: string)
    requires stmt != ""
    ensures Process(db, p, None, [Parse(stmt, sql), Bind(stmt)])
         == if stmt in p || sql in db.broken then Answer(p, [Error])
            else Answer(p[stmt := sql], [ParseComplete, BindComplete])
  {
    var m, q := [Parse(stmt, sql), Bind(stmt)], p[stmt := sql];
    assert m[1..] == [Bind(stmt)] && [Bind(stmt)][1..] == [];
    if sql !in db.broken {
      assert Process(db, q, Some(q[stmt]), []) == Answer(q, []);
      assert Process(db, q, None, [Bind(stmt)]) == Answer(q, [BindComplete] + []);
      assert [ParseComplete] + [BindComplete] == [ParseComplete, BindComplete];
    }
  }

  /** Using a named statement that the router must prepare on a backend fails exactly when the
      database refuses its text or that backend still has one of that name. */
  lemma PreparedTwice(db: Db, s: Session, stmt: string, b: Backend)
    requires stmt != "" && stmt in s.stmts && stmt !in Believed(s, b)
    ensures RouterBatch(db, s, [Bind(stmt)], To(b)).client
         == s.client +
            if stmt in Server(s, b) || s.stmts[stmt] in db.broken then [Error, Ready] else [BindComplete, Ready]
  {
    BindInjects(db, s, stmt, b);
    ParseAndBind(db, Server(s, b), stmt, s.stmts[stmt]);
    SwallowTwo();
    assert s.client + [Error] + [Ready] == s.client + [Error, Ready];
    assert s.client + [BindComplete] + [Ready] == s.client + [BindComplete, Ready];
  }

  /** A Bind alone, of a statement the router must prepare first. */
  lemma BindInjects(db: Db, s: Session, stmt: string, b: Backend)
    requires stmt in s.stmts && stmt !in Believed(s, b)
    ensures RouterBatch(db, s, [Bind(stmt)], To(b))
         == Relay(s, b, Process(db, Server(s, b), None, [Parse(stmt, s.stmts[stmt]), Bind(stmt)]), 1,
                  Believed(s, b) + {stmt})
  {
    OneMessage(Bind(stmt));
    OneRegistered(s, Bind(stmt));
    ExecInjects(db, s, [Bind(stmt)], stmt, b);
  }

  lemma ExecInjects(db: Db, s: Session, batch: seq<Msg>, stmt: string, b: Backend)
    requires stmt in s.stmts && stmt !in Believed(s, b)
    requires NamesOf(batch) == {} && ParsesOf(batch) == [] && OthersOf(batch) == batch && batch == [Bind(stmt)]
    ensures RunExec(db, s, batch, stmt, To(b))
         == Relay(s, b, Process(db, Server(s, b), None, [Parse(stmt, s.stmts[stmt]), Bind(stmt)]), 1,
                  Believed(s, b) + {stmt})
  {
    var m := Parse(stmt, s.stmts[stmt]);
    assert Injected(true, m, []) + batch == [m, Bind(stmt)];
    assert Believed(s, b) + {} == Believed(s, b);
  }

  lemma SwallowTwo()
    ensures Swallow([Error], 1) == [Error] && Swallow([ParseComplete, BindComplete], 1) == [BindComplete]
  {
    assert [ParseComplete, BindComplete][1..] == [BindComplete];
    SwallowNone([BindComplete]);
    assert [Error][1..] == [] && Swallow([], 1) == [];
  }

  /** After a valid session answered like a direct connection the client has a named statement. */
  ghost predicate HoldsNamed(xs: seq<Sent>, n: string) {
    ValidSession(xs) && Truthful(xs, |xs|) && n != "" && n in DirectRun(xs).prepared
  }

  /** After any session answered like a direct connection: a statement that is closed and whose
      name is parsed again can be bound on a backend exactly if it was not used there before, or
      its first use there was refused. A direct connection can always bind it. */
  lemma {:induction false} ParsedAgain(xs: seq<Sent>, n: string, sql: string, b: Backend)
    requires HoldsNamed(xs, n)
    ensures var s := RouterBatch(OK, RouterBatch(OK, RouterRun(xs), [Close(n)], NoRoute), [Parse(n, sql)], NoRoute);
      RouterBatch(OK, s, [Bind(n)], To(b)).client
        == s.client + if UsedOn(xs, b, n) && !RefusedOn(xs, b, n) then [Error, Ready] else [BindComplete, Ready]
    ensures DirectBatch(OK, DirectBatch(OK, DirectBatch(OK, DirectRun(xs), [Close(n)]), [Parse(n, sql)]),
                        [Bind(n)]).stream
         == DirectRun(xs).stream + [CloseComplete, Ready] + [ParseComplete, Ready] + [BindComplete, Ready]
  {
    var s0 := RouterRun(xs);
    AckBatch(OK, s0, Close(n));
    var s1 := RouterBatch(OK, s0, [Close(n)], NoRoute);
    AckBatch(OK, s1, Parse(n, sql));
    var s := RouterBatch(OK, s1, [Parse(n, sql)], NoRoute);
    StillThere(xs, n, b);
    assert n in s.stmts && n !in Believed(s, b) && Server(s, b) == Server(s0, b);
    PreparedTwice(OK, s, n, b);
    DirectAgain(DirectRun(xs), n, sql);
  }

  /** A database that refuses nothing. */
  const OK := Db({}, {})

  lemma {:induction false} StillThere(xs: seq<Sent>, n: string, b: Backend)
    requires HoldsNamed(xs, n)
    ensures n in Server(RouterRun(xs), b) <==> UsedOn(xs, b, n) && !RefusedOn(xs, b, n)
  {
    UnexposedIsTruthful(xs, |xs|);
    EqualUnlessExposed(xs, |xs|);
    BelievedIsUsed(xs, |xs|, b, n);
    assert xs[..|xs|] == xs;
    assert Backed(Believed(RouterRun(xs), b), Server(RouterRun(xs), b), DirectRun(xs));
    if BelievedAt(xs, |xs|, b, n) { HollowIsRefused(xs, |xs|, b, n); }
  }

  lemma DirectAgain(d: Direct, n: string, sql: string)
    requires n != ""
    ensures DirectBatch(OK, DirectBatch(OK, DirectBatch(OK, d, [Close(n)]), [Parse(n, sql)]), [Bind(n)]).stream
         == d.stream + [CloseComplete, Ready] + [ParseComplete, Ready] + [BindComplete, Ready]
  {
    var p := d.prepared - {n};
    assert [Close(n)][1..] == [] && [Parse(n, sql)][1..] == [] && [Bind(n)][1..] == [];
    assert Process(OK, d.prepared, None, [Close(n)]) == Answer(p, [CloseComplete]);
    assert Process(OK, p, None, [Parse(n, sql)]) == Answer(p[n := sql], [ParseComplete]);
    assert Process(OK, p[n := sql], None, [Bind(n)]) == Answer(p[n := sql], [BindComplete]);
    assert d.stream + [CloseComplete] + [Ready] == d.stream + [CloseComplete, Ready];
    assert d.stream + [CloseComplete, Ready] + [ParseComplete] + [Ready]
        == d.stream + [CloseComplete, Ready] + [ParseComplete, Ready];
    assert d.stream + [CloseComplete, Ready] + [ParseComplete, Ready] + [BindComplete] + [Ready]
        == d.stream + [CloseComplete, Ready] + [ParseComplete, Ready] + [BindComplete, Ready];
  }

  /** A statement parsed and bound on a backend. */
  function FirstUse(n: string, sql: string, b: Backend): Sent {
    Sent([Parse(n, sql)], [Bind(n)], To(b), OK)
  }

  lemma FirstUseRuns(n: string, sql: string, b: Backend)
    requires n != ""
    ensures ValidBatch(DirectRun([]), FirstUse(n, sql, b)) && !Misleads([], FirstUse(n, sql, b))
    ensures DirectRun([FirstUse(n, sql, b)]).prepared == map[n := sql] && DirectRun([FirstUse(n, sql, b)]).closed == {}
    ensures forall c :: UsedOn([FirstUse(n, sql, b)], c, n) <==> c == b
    ensures forall c :: !RefusedOn([FirstUse(n, sql, b)], c, n)
  {
    var x := FirstUse(n, sql, b);
    assert [x][..0] == [] && DirectRun([]) == Direct(map[], {}, []);
    assert x.parses + x.tail == [Parse(n, sql), Bind(n)] && x.tail[1..] == [] && x.parses[1..] == [];
    ParseAndBind(OK, map[], n, sql);
    assert DirectRun([x]) == DirectBatch(OK, DirectRun([]), x.parses + x.tail);
    assert x.parses[0] in x.parses && NamesOf(x.parses) == {n};
    assert Applied(map[], x.parses) == map[n := sql];
    forall c ensures (UsedOn([x], c, n) <==> c == b) && !RefusedOn([x], c, n) {
      assert !UsedOn([], c, n) && !RefusedOn([], c, n);
    }
  }

  /** Closing a statement used on a backend and parsing its name again: the router's client cannot
      bind it there. */
  lemma CloseThenParseAgain()
    ensures var s := RouterBatch(OK, RouterBatch(OK, RouterRun([FirstUse("q", "select 1", "db")]), [Close("q")],
                                                 NoRoute),
                                 [Parse("q", "select 2")], NoRoute);
      RouterBatch(OK, s, [Bind("q")], To("db")).client == s.client + [Error, Ready]
  {
    var xs := [FirstUse("q", "select 1", "db")];
    FirstUseRuns("q", "select 1", "db");
    assert xs[..0] == [];
    ParsedAgain(xs, "q", "select 2", "db");
  }

  // ---------------------------------------------------------------------------
  // Refused Parses.

  /** A Parse that the database refuses is acknowledged. */
  lemma RefusedParseIsAcknowledged()
    ensures var xs := [Sent([Parse("q", "select")], [], NoRoute, Db({"select"}, {}))];
      ValidSession(xs) && RouterRun(xs).client == [ParseComplete, Ready] && DirectRun(xs).stream == [Error, Ready]
  {
    var db := Db({"select"}, {});
    var x := Sent([Parse("q", "select")], [], NoRoute, db);
    assert [x][..0] == [] && x.parses + x.tail == x.parses && x.parses[1..] == [];
    assert RouterRun([]) == Session(map[], map[], map[], []) && DirectRun([]) == Direct(map[], {}, []);
    AckBatch(db, RouterRun([]), Parse("q", "select"));
    assert Process(db, map[], None, x.parses) == Answer(map[], [Error]);
    assert [ParseComplete] + [Ready] == [ParseComplete, Ready] && [Error] + [Ready] == [Error, Ready];
    assert ValidSession([x]);
  }

  /** A Bind alone. */
  function BindOn(n: string, b: Backend, db: Db): Sent {
    Sent([], [Bind(n)], To(b), db)
  }

  lemma BindRuns(before: seq<Sent>, n: string, b: Backend, db: Db)
    requires n in DirectRun(before).prepared
    ensures var x, xs := BindOn(n, b, db), before + [BindOn(n, b, db)];
      && ValidBatch(DirectRun(before), x)
      && DirectRun(xs).prepared == DirectRun(before).prepared && DirectRun(xs).closed == DirectRun(before).closed
      && UsedOn(xs, b, n)
      && (RefusedOn(xs, b, n) <==>
          RefusedOn(before, b, n) || (!UsedOn(before, b, n) && DirectRun(before).prepared[n] in db.broken))
  {
    var x, xs, d := BindOn(n, b, db), before + [BindOn(n, b, db)], DirectRun(before);
    assert xs[..|xs| - 1] == before && xs[|xs| - 1] == x;
    assert x.parses + x.tail == [Bind(n)] && x.tail[1..] == [] && NamesOf(x.parses) == {};
    assert Process(db, d.prepared, None, [Bind(n)]).prepared == d.prepared;
    assert ClosesOf([Bind(n)]) == {};
  }

  /** A statement is used on "a"; its first use on "b" meets a database that refuses its text, and
      the second one that accepts it again. */
  function RefusedOnce(): seq<Sent> {
    [FirstUse("q", "select 1", "a"), BindOn("q", "b", Db({"select 1"}, {})), BindOn("q", "b", OK)]
  }

  /** Without any Parse acknowledged: a statement whose added Parse was refused once is answered by
      an error on that backend although a direct connection binds it. */
  lemma RefusedOnceMisleads()
    ensures ValidSession(RefusedOnce()) && RouterRun(RefusedOnce()).client != DirectRun(RefusedOnce()).stream
  {
    var xs := RefusedOnce();
    FirstUseRuns("q", "select 1", "a");
    assert xs[..0] == [] && xs[..1] == [xs[0]] && xs[..2] == xs[..1] + [xs[1]];
    BindRuns(xs[..1], "q", "b", xs[1].db);
    BindRuns(xs[..2], "q", "b", OK);
    ThreeValid(xs);
    SecondMisleads(xs[..2]);
    RoutedLikeDirect(xs);
  }

  lemma ThreeValid(xs: seq<Sent>)
    requires |xs| == 3
    requires ValidBatch(DirectRun(xs[..0]), xs[0]) && ValidBatch(DirectRun(xs[..1]), xs[1])
    requires ValidBatch(DirectRun(xs[..2]), xs[2])
    ensures ValidSession(xs)
  {
    forall i | 0 <= i < |xs| ensures ValidBatch(DirectRun(xs[..i]), xs[i]) {
      assert i == 0 || i == 1 || i == 2;
    }
  }

  lemma SecondMisleads(before: seq<Sent>)
    requires "q" in DirectRun(before).prepared && UsedOn(before, "b", "q") && RefusedOn(before, "b", "q")
    ensures Misleads(before, BindOn("q", "b", OK))
  {
    assert NamesOf(BindOn("q", "b", OK).parses) == {};
  }

  /** Any batch at all. */
  datatype Any = Any(batch: seq<Msg>, route: Route, db: Db)

  function RunOn(s: Session, ys: seq<Any>): Session
    decreases |ys|
  {
    if ys == [] then s else RunOn(RouterBatch(ys[0].db, s, ys[0].batch, ys[0].route), ys[1..])
  }

  lemma {:induction false} ServerLearns(db: Db, p: Prepared, portal: Option<string>, ms: seq<Msg>, n: string)
    requires n !in p && n !in NamesOf(ms)
    ensures n !in Process(db, p, portal, ms).prepared
    decreases |ms|
  {
    if ms != [] {
      assert ms[0] in ms && forall m :: m in ms[1..] ==> m in ms;
      match ms[0]
      case Parse(name, sql) => ServerLearns(db, p[name := sql], portal, ms[1..], n);
      case Bind(stmt) => if stmt in p { ServerLearns(db, p, Some(p[stmt]), ms[1..], n); }
      case Close(name) => ServerLearns(db, p - {name}, portal, ms[1..], n);
      case _ => ServerLearns(db, p, portal, ms[1..], n);
    }
  }

  lemma {:induction false} PartsOf(batch: seq<Msg>)
    ensures forall m :: m in ParsesOf(batch) || m in OthersOf(batch) ==> m in batch
  {
    if batch != [] { PartsOf(batch[..|batch| - 1]); }
  }

  /** The router believes a statement on a backend that does not have it. */
  ghost predicate Hollow(s: Session, b: Backend, n: string) {
    n in Believed(s, b) && n !in Server(s, b)
  }

  lemma HollowStays(db: Db, s: Session, batch: seq<Msg>, route: Route, b: Backend, n: string)
    requires Hollow(s, b, n) && n !in NamesOf(batch)
    ensures Hollow(RouterBatch(db, s, batch, route), b, n)
  {
    var t := RegisterParses(s, batch);
    Registered(s, batch);
    assert Server(t, b) == Server(s, b);
    PartsOf(batch);
    if FirstBind(batch).Some? && FirstBind(batch).value in t.stmts && route == To(b) {
      var stmt := FirstBind(batch).value;
      var parses := Injected(stmt !in Believed(t, b) + NamesOf(batch), Parse(stmt, t.stmts[stmt]), ParsesOf(batch));
      assert n !in NamesOf(parses + OthersOf(batch));
      ServerLearns(db, Server(t, b), None, parses + OthersOf(batch), n);
    }
    ServerLearns(db, Server(t, b), None, batch, n);
  }

  /** Over any sequence of batches, valid or not, that does not parse it again: such a statement is
      never prepared on the backend, and every Bind of it there is answered by an error. */
  lemma {:induction false} HollowForEver(s: Session, ys: seq<Any>, b: Backend, n: string, db: Db)
    requires Hollow(s, b, n) && forall i :: 0 <= i < |ys| ==> n !in NamesOf(ys[i].batch)
    ensures var t := RunOn(s, ys);
      Hollow(t, b, n) && (n in t.stmts ==> RouterBatch(db, t, [Bind(n)], To(b)).client == t.client + [Error, Ready])
    decreases |ys|
  {
    if ys == [] {
      if n in s.stmts { HollowBind(db, s, b, n); }
    } else {
      HollowStays(ys[0].db, s, ys[0].batch, ys[0].route, b, n);
      HollowForEver(RouterBatch(ys[0].db, s, ys[0].batch, ys[0].route), ys[1..], b, n, db);
    }
  }

  lemma HollowBind(db: Db, s: Session, b: Backend, n: string)
    requires Hollow(s, b, n) && n in s.stmts
    ensures RouterBatch(db, s, [Bind(n)], To(b)).client == s.client + [Error, Ready]
  {
    OneMessage(Bind(n));
    OneRegistered(s, Bind(n));
    assert Believed(s, b) + {} == Believed(s, b);
    assert Injected(false, Parse(n, s.stmts[n]), []) + [Bind(n)] == [Bind(n)];
    assert Process(db, Server(s, b), None, [Bind(n)]) == Answer(Server(s, b), [Error]);
    SwallowNone([Error]);
    assert s.client + [Error] + [Ready] == s.client + [Error, Ready];
  }
}
