/** The psql scripts that bring a database's schemas, extensions and grants to what the spec
says. */
module DatabaseScripts {
  import opened Basics
  import opened Quoting

  // ---------------------------------------------------------------------------
  // A line of script: psql on one database with one statement.

  function Psql(db: string, sql: string): seq<Arg> {
    [Flag("psql"), Flag("-v"), Flag("ON_ERROR_STOP=1"), Flag("-X"), Flag("-q"), Flag("-U"), Flag("postgres"),
     Flag("-d"), Value(db), Flag("-c"), Value(sql)]
  }

  /** The argument list that line is meant to have. */
  function Argv(db: string, sql: string): seq<string> {
    ["psql", "-v", "ON_ERROR_STOP=1", "-X", "-q", "-U", "postgres", "-d", db, "-c", sql]
  }

  function LinesBy(line: seq<Token> -> seq<Arg>, stmts: seq<seq<Token>>): seq<seq<Arg>> {
    if stmts == [] then [] else [line(stmts[0])] + LinesBy(line, stmts[1..])
  }

  function PsqlOn(db: string): seq<Token> -> seq<Arg> {
    (stmt: seq<Token>) => Psql(db, PrintSql(stmt))
  }

  function Lines(db: string, stmts: seq<seq<Token>>): seq<seq<Arg>> {
    LinesBy(PsqlOn(db), stmts)
  }

  function Argvs(db: string, stmts: seq<seq<Token>>): seq<seq<string>> {
    if stmts == [] then [] else [Argv(db, PrintSql(stmts[0]))] + Argvs(db, stmts[1..])
  }

  function Script(db: string, stmts: seq<seq<Token>>): string {
    PrintScript(Lines(db, stmts))
  }

  lemma PsqlTexts(db: string, sql: string)
    ensures Texts(Psql(db, sql)) == Argv(db, sql)
  {
    var a, t := Psql(db, sql), Argv(db, sql);
    TextsFrom(a, t, 0);
    assert a[0..] == a && t[0..] == t;
  }

  lemma PsqlValid(db: string, sql: string)
    ensures ValidArgs(Psql(db, sql))
  {
  }

  lemma {:induction false} TextsFrom(a: seq<Arg>, t: seq<string>, i: nat)
    requires i <= |a| == |t| && forall k :: 0 <= k < |a| ==> a[k].text == t[k]
    ensures Texts(a[i..]) == t[i..]
    decreases |a| - i
  {
    if i < |a| {
      TextsFrom(a, t, i + 1);
      assert a[i..][1..] == a[i + 1..] && t[i..] == [t[i]] + t[i + 1..];
    }
  }

  lemma {:induction false} LinesTexts(db: string, stmts: seq<seq<Token>>)
    ensures AllTexts(Lines(db, stmts)) == Argvs(db, stmts)
    ensures forall i :: 0 <= i < |Lines(db, stmts)| ==> ValidArgs(Lines(db, stmts)[i])
  {
    if stmts != [] {
      PsqlTexts(db, PrintSql(stmts[0]));
      PsqlValid(db, PrintSql(stmts[0]));
      LinesTexts(db, stmts[1..]);
      var rest := Lines(db, stmts[1..]);
      assert Lines(db, stmts)[1..] == rest;
    }
  }

  lemma {:induction false} ArgvAt(db: string, stmts: seq<seq<Token>>, i: nat)
    requires i < |stmts|
    ensures |Argvs(db, stmts)| == |stmts| && Argvs(db, stmts)[i] == Argv(db, PrintSql(stmts[i]))
  {
    if i > 0 {
      ArgvAt(db, stmts[1..], i - 1);
    } else if |stmts| > 1 {
      ArgvAt(db, stmts[1..], 0);
    } else {
      assert Argvs(db, stmts[1..]) == [];
    }
  }

  /** For any database name and any statements, the shell runs exactly one psql per statement,
      on that database, with an argument that PostgreSQL lexes to that statement's tokens. */
  lemma ScriptMeansStatements(db: string, stmts: seq<seq<Token>>)
    requires forall i :: 0 <= i < |stmts| ==> ValidTokens(stmts[i])
    ensures ReadScript(Script(db, stmts)) == Some(Argvs(db, stmts)) && |Argvs(db, stmts)| == |stmts|
    ensures forall i :: 0 <= i < |stmts| ==>
      Argvs(db, stmts)[i] == Argv(db, PrintSql(stmts[i])) && LexSql(PrintSql(stmts[i])) == Some(stmts[i])
  {
    LinesTexts(db, stmts);
    ScriptRoundTrip(Lines(db, stmts));
    if stmts != [] { ArgvAt(db, stmts, 0); }
    forall i | 0 <= i < |stmts|
      ensures Argvs(db, stmts)[i] == Argv(db, PrintSql(stmts[i])) && LexSql(PrintSql(stmts[i])) == Some(stmts[i])
    {
      ArgvAt(db, stmts, i);
      StatementRoundTrip(stmts[i]);
    }
  }

  lemma {:induction false} LinesConcat(line: seq<Token> -> seq<Arg>, a: seq<seq<Token>>, b: seq<seq<Token>>)
    ensures LinesBy(line, a + b) == LinesBy(line, a) + LinesBy(line, b)
  {
    if a == [] {
      assert a + b == b;
    } else {
      LinesConcat(line, a[1..], b);
      assert (a + b)[1..] == a[1..] + b && (a + b)[0] == a[0];
    }
  }

  lemma ScriptAppends(db: string, a: seq<seq<Token>>, b: seq<seq<Token>>)
    ensures Script(db, a + b) == Script(db, a) + Script(db, b)
  {
    LinesConcat(PsqlOn(db), a, b);
    ScriptConcat(Lines(db, a), Lines(db, b));
  }

  /** The text of one line. */
  function Line(db: string, stmt: seq<Token>): string {
    PrintCommand(Psql(db, PrintSql(stmt)))
  }

  lemma ScriptOne(db: string, stmt: seq<Token>)
    ensures Script(db, [stmt]) == Line(db, stmt)
  {
    var line := Psql(db, PrintSql(stmt));
    assert [stmt][1..] == [] && Lines(db, []) == [] && Lines(db, [stmt]) == [line];
    assert [line][1..] == [] && PrintScript([]) == [];
    assert Line(db, stmt) + [] == Line(db, stmt);
  }

  method AppendLine(b: string, db: string, stmt: seq<Token>, ghost before: string, ghost stmts: seq<seq<Token>>)
    returns (out: string)
    requires b == before + Script(db, stmts)
    ensures out == before + Script(db, stmts + [stmt])
  {
    ScriptAppends(db, stmts, [stmt]);
    ScriptOne(db, stmt);
    Regroup(before, Script(db, stmts), Line(db, stmt));
    out := b + Line(db, stmt);
  }

  // ---------------------------------------------------------------------------
  // Grants.

  datatype Kind = OnDatabase | OnSchema | OnWrapper | OnServer

  function KindWords(k: Kind): seq<Token> {
    match k
    case OnDatabase => [Word("DATABASE")]
    case OnSchema => [Word("SCHEMA")]
    case OnWrapper => [Word("FOREIGN"), Word("DATA"), Word("WRAPPER")]
    case OnServer => [Word("FOREIGN"), Word("SERVER")]
  }

  /** The privileges the spec may name, in normalized spelling. */
  datatype Privilege = All | Connect | Temporary | Create | Usage | Unknown

  function PrivilegeWords(p: Privilege): seq<Token> {
    match p
    case All => [Word("ALL"), Word("PRIVILEGES")]
    case Connect => [Word("CONNECT")]
    case Temporary => [Word("TEMPORARY")]
    case Create => [Word("CREATE")]
    case Usage => [Word("USAGE")]
    case Unknown => []
  }

  predicate Applies(k: Kind, p: Privilege) {
    match p
    case All => true
    case Connect => k.OnDatabase?
    case Temporary => k.OnDatabase?
    case Create => k.OnDatabase? || k.OnSchema?
    case Usage => k.OnSchema?
    case Unknown => false
  }

  /** `role` is already trimmed. */
  datatype Grant = Grant(role: string, privileges: seq<Privilege>, revoke: bool)

  function Applying(k: Kind, ps: seq<Privilege>): seq<Privilege> {
    if ps == [] then []
    else
      var rest := Applying(k, ps[..|ps| - 1]);
      if Applies(k, ps[|ps| - 1]) then rest + [ps[|ps| - 1]] else rest
  }

  function PrivilegeList(ps: seq<Privilege>): seq<Token> {
    if ps == [] then []
    else if |ps| == 1 then PrivilegeWords(ps[0])
    else PrivilegeList(ps[..|ps| - 1]) + [Symbol(',')] + PrivilegeWords(ps[|ps| - 1])
  }

  function GrantStatement(k: Kind, name: string, g: Grant): seq<Token> {
    [Word(if g.revoke then "REVOKE" else "GRANT")] + PrivilegeList(Applying(k, g.privileges)) + [Word("ON")] +
    KindWords(k) + [Ident(name), Word(if g.revoke then "FROM" else "TO"), Ident(g.role)]
  }

  /** The statements of the grants that name a role and some privilege of the object's kind. */
  function GrantStatements(k: Kind, name: string, gs: seq<Grant>): seq<seq<Token>> {
    if gs == [] then []
    else
      var rest, g := GrantStatements(k, name, gs[..|gs| - 1]), gs[|gs| - 1];
      if g.role == "" || Applying(k, g.privileges) == [] then rest else rest + [GrantStatement(k, name, g)]
  }

  method ApplyingPrivileges(k: Kind, ps: seq<Privilege>) returns (out: seq<Privilege>)
    ensures out == Applying(k, ps)
  {
    out := [];
    for j := 0 to |ps|
      invariant out == Applying(k, ps[..j])
    {
      assert ps[..j + 1][..j] == ps[..j];
      if Applies(k, ps[j]) { out := out + [ps[j]]; }
    }
    assert ps[..|ps|] == ps;
  }

  method AppendGrants(b: string, db: string, k: Kind, name: string, gs: seq<Grant>) returns (out: string)
    ensures out == b + Script(db, GrantStatements(k, name, gs))
  {
    out := b;
    assert GrantStatements(k, name, gs[..0]) == [] && Script(db, []) == [] && b + [] == b;
    for i := 0 to |gs|
      invariant out == b + Script(db, GrantStatements(k, name, gs[..i]))
    {
      assert gs[..i + 1][..i] == gs[..i];
      if gs[i].role == "" { continue; }
      var privileges := ApplyingPrivileges(k, gs[i].privileges);
      if |privileges| == 0 { continue; }
      out := AppendLine(out, db, GrantStatement(k, name, gs[i]), b, GrantStatements(k, name, gs[..i]));
    }
    assert gs[..|gs|] == gs;
  }

  lemma {:induction false} PrivilegesValid(ps: seq<Privilege>)
    ensures ValidTokens(PrivilegeList(ps))
  {
    if |ps| > 1 {
      PrivilegesValid(ps[..|ps| - 1]);
      PrivilegeValid(ps[|ps| - 1]);
      ValidConcat(PrivilegeList(ps[..|ps| - 1]), [Symbol(',')]);
      ValidConcat(PrivilegeList(ps[..|ps| - 1]) + [Symbol(',')], PrivilegeWords(ps[|ps| - 1]));
    } else if |ps| == 1 {
      PrivilegeValid(ps[0]);
    }
  }

  lemma PrivilegeValid(p: Privilege)
    ensures ValidTokens(PrivilegeWords(p))
  {
  }

  lemma GrantValid(k: Kind, name: string, g: Grant)
    ensures ValidTokens(GrantStatement(k, name, g))
  {
    var head := [Word(if g.revoke then "REVOKE" else "GRANT")];
    var privileges := PrivilegeList(Applying(k, g.privileges));
    PrivilegesValid(Applying(k, g.privileges));
    var on := [Word("ON")];
    var tail := [Ident(name), Word(if g.revoke then "FROM" else "TO"), Ident(g.role)];
    WordsValid(k, g.revoke);
    ValidConcat(head, privileges);
    ValidConcat(head + privileges, on);
    ValidConcat(head + privileges + on, KindWords(k));
    ValidConcat(head + privileges + on + KindWords(k), tail);
  }

  lemma WordsValid(k: Kind, revoke: bool)
    ensures ValidTokens([Word(if revoke then "REVOKE" else "GRANT")]) && ValidTokens([Word("ON")])
    ensures ValidTokens(KindWords(k)) && ValidToken(Word(if revoke then "FROM" else "TO"))
  {
    KindValid(k);
  }

  lemma KindValid(k: Kind)
    ensures ValidTokens(KindWords(k))
  {
    assert ValidToken(Word("DATABASE")) && ValidToken(Word("SCHEMA")) && ValidToken(Word("FOREIGN"));
    assert ValidToken(Word("DATA")) && ValidToken(Word("WRAPPER")) && ValidToken(Word("SERVER"));
  }

  lemma {:induction false} GrantsValid(k: Kind, name: string, gs: seq<Grant>)
    ensures forall i :: 0 <= i < |GrantStatements(k, name, gs)| ==> ValidTokens(GrantStatements(k, name, gs)[i])
  {
    if gs != [] {
      GrantsValid(k, name, gs[..|gs| - 1]);
      GrantValid(k, name, gs[|gs| - 1]);
    }
  }

  /** The grant script runs exactly the intended GRANT and REVOKE statements, whatever the
      database, object and role are called. */
  lemma GrantScriptMeans(db: string, k: Kind, name: string, gs: seq<Grant>)
    ensures var stmts := GrantStatements(k, name, gs);
      && ReadScript(Script(db, stmts)) == Some(Argvs(db, stmts))
      && |Argvs(db, stmts)| == |stmts|
      && forall i :: 0 <= i < |stmts| ==>
           Argvs(db, stmts)[i] == Argv(db, PrintSql(stmts[i])) && LexSql(PrintSql(stmts[i])) == Some(stmts[i])
  {
    GrantsValid(k, name, gs);
    ScriptMeansStatements(db, GrantStatements(k, name, gs));
  }

  // ---------------------------------------------------------------------------
  // Schemas and extensions.

  /** Names, owner, version and schema are already trimmed. */
  datatype Schema = Schema(name: string, absent: bool, owner: string, grants: seq<Grant>)
  datatype Extension = Extension(name: string, absent: bool, version: string, schema: string)

  function SchemaStatements(db: string, s: Schema): seq<seq<Token>> {
    var owner := if s.owner == "" then db else s.owner;
    if s.name == "" then []
    else if s.absent then [[Word("DROP"), Word("SCHEMA"), Word("IF"), Word("EXISTS"), Ident(s.name)]]
    else
      [[Word("CREATE"), Word("SCHEMA"), Word("IF"), Word("NOT"), Word("EXISTS"), Ident(s.name), Word("AUTHORIZATION"),
        Ident(owner), Symbol(';'), Word("ALTER"), Word("SCHEMA"), Ident(s.name), Word("OWNER"), Word("TO"),
        Ident(owner)]]
      + GrantStatements(OnSchema, s.name, s.grants)
  }

  function ExtensionStatements(x: Extension): seq<seq<Token>> {
    if x.name == "" then []
    else if x.absent then [[Word("DROP"), Word("EXTENSION"), Word("IF"), Word("EXISTS"), Ident(x.name)]]
    else
      [[Word("CREATE"), Word("EXTENSION"), Word("IF"), Word("NOT"), Word("EXISTS"), Ident(x.name)] +
       (if x.version != "" then [Word("VERSION"), Literal(x.version)] else []) +
       (if x.schema != "" then [Word("WITH"), Word("SCHEMA"), Ident(x.schema)] else [])]
  }

  lemma SchemaValid(db: string, s: Schema)
    ensures forall i :: 0 <= i < |SchemaStatements(db, s)| ==> ValidTokens(SchemaStatements(db, s)[i])
  {
    GrantsValid(OnSchema, s.name, s.grants);
  }

  lemma ExtensionValid(x: Extension)
    ensures forall i :: 0 <= i < |ExtensionStatements(x)| ==> ValidTokens(ExtensionStatements(x)[i])
  {
    assert ValidTokens([Word("VERSION"), Literal(x.version)]);
    assert ValidTokens([Word("WITH"), Word("SCHEMA"), Ident(x.schema)]);
  }

  method AppendSchema(b: string, db: string, s: Schema) returns (out: string)
    ensures out == b + Script(db, SchemaStatements(db, s))
  {
    var owner := if s.owner == "" then db else s.owner;
    if s.name == "" {
      assert Script(db, []) == [] && b + [] == b;
      return b;
    }
    if s.absent {
      var drop := [Word("DROP"), Word("SCHEMA"), Word("IF"), Word("EXISTS"), Ident(s.name)];
      ScriptOne(db, drop);
      return b + Line(db, drop);
    }
    var create := [Word("CREATE"), Word("SCHEMA"), Word("IF"), Word("NOT"), Word("EXISTS"), Ident(s.name),
                   Word("AUTHORIZATION"), Ident(owner), Symbol(';'), Word("ALTER"), Word("SCHEMA"), Ident(s.name),
                   Word("OWNER"), Word("TO"), Ident(owner)];
    ghost var grants := GrantStatements(OnSchema, s.name, s.grants);
    ScriptOne(db, create);
    ScriptAppends(db, [create], grants);
    Regroup(b, Line(db, create), Script(db, grants));
    out := AppendGrants(b + Line(db, create), db, OnSchema, s.name, s.grants);
  }

  method AppendExtension(b: string, db: string, x: Extension) returns (out: string)
    ensures out == b + Script(db, ExtensionStatements(x))
  {
    if x.name == "" {
      assert Script(db, []) == [] && b + [] == b;
      return b;
    }
    if x.absent {
      var drop := [Word("DROP"), Word("EXTENSION"), Word("IF"), Word("EXISTS"), Ident(x.name)];
      ScriptOne(db, drop);
      return b + Line(db, drop);
    }
    var create := [Word("CREATE"), Word("EXTENSION"), Word("IF"), Word("NOT"), Word("EXISTS"), Ident(x.name)];
    var version: seq<Token>, schema: seq<Token> := [], [];
    if x.version != "" { version := [Word("VERSION"), Literal(x.version)]; }
    if x.schema != "" { schema := [Word("WITH"), Word("SCHEMA"), Ident(x.schema)]; }
    ScriptOne(db, create + version + schema);
    out := b + Line(db, create + version + schema);
  }

  /** The script of a schema and of an extension runs exactly the intended statements. */
  lemma SchemaScriptMeans(db: string, s: Schema, x: Extension)
    ensures ReadScript(Script(db, SchemaStatements(db, s) + ExtensionStatements(x)))
         == Some(Argvs(db, SchemaStatements(db, s) + ExtensionStatements(x)))
    ensures forall i :: 0 <= i < |SchemaStatements(db, s) + ExtensionStatements(x)| ==>
      var stmt := (SchemaStatements(db, s) + ExtensionStatements(x))[i]; LexSql(PrintSql(stmt)) == Some(stmt)
  {
    SchemaValid(db, s);
    ExtensionValid(x);
    ScriptMeansStatements(db, SchemaStatements(db, s) + ExtensionStatements(x));
  }
}
