/** The printers of identifiers, literals and shell words, and the scripts made of them: the
PostgreSQL lexer (sections 4.1.1 and 4.1.2.1 of the PostgreSQL manual) and the shell (sections
2.2.2 and 2.2.3 of POSIX.1-2017 XCU) read back exactly what was meant. */
module Quoting {
  import opened Basics

  /** `v` with every `q` doubled. */
  function Doubled(q: char, v: string): string {
    if v == [] then [] else (if v[0] == q then [q, q] else [v[0]]) + Doubled(q, v[1..])
  }

  function SqlIdent(v: string): string {
    "\"" + Doubled('"', v) + "\""
  }

  function SqlLiteral(v: string): string {
    "'" + Doubled('\'', v) + "'"
  }

  /** A quote inside single quotes: leave them, a quoted quote, enter them again. */
  const SHELL_QUOTE := "'\"'\"'"

  function Escaped(v: string): string {
    if v == [] then [] else (if v[0] == '\'' then SHELL_QUOTE else [v[0]]) + Escaped(v[1..])
  }

  function ShellQuote(v: string): string {
    "'" + Escaped(v) + "'"
  }

  // ---------------------------------------------------------------------------
  // The SQL lexer.

  datatype Token = Word(text: string) | Ident(name: string) | Literal(text: string) | Symbol(ch: char)

  predicate IsLetter(ch: char) {
    'A' <= ch <= 'Z' || 'a' <= ch <= 'z' || ch == '_'
  }

  predicate IsSymbol(ch: char) {
    ch == ';' || ch == ',' || ch == '.' || ch == '(' || ch == ')'
  }

  /** After an opening `q`: the text up to the closing one, a doubled `q` standing for one. */
  function ReadQuoted(q: char, s: string): (r: Option<(string, string)>)
    ensures r.Some? ==> |r.value.1| < |s|
  {
    if s == [] then None
    else if s[0] == q && |s| > 1 && s[1] == q then Consed(q, ReadQuoted(q, s[2..]))
    else if s[0] == q then Some(([], s[1..]))
    else Consed(s[0], ReadQuoted(q, s[1..]))
  }

  function Consed(ch: char, r: Option<(string, string)>): Option<(string, string)> {
    match r
    case None => None
    case Some(p) => Some(([ch] + p.0, p.1))
  }

  function ReadLetters(s: string): (r: (string, string))
    ensures |r.0| + |r.1| == |s|
  {
    if s != [] && IsLetter(s[0]) then
      var rest := ReadLetters(s[1..]);
      ([s[0]] + rest.0, rest.1)
    else ([], s)
  }

  function Tagged(t: string -> Token, r: Option<(string, string)>): Option<(Token, string)> {
    match r
    case None => None
    case Some(p) => Some((t(p.0), p.1))
  }

  /** The token at the start of a statement and what follows it. */
  function NextToken(s: string): (r: Option<(Token, string)>)
    ensures r.Some? ==> |r.value.1| < |s|
  {
    if s == [] then None
    else if s[0] == '"' then Tagged((v: string) => Ident(v), ReadQuoted('"', s[1..]))
    else if s[0] == '\'' then Tagged((v: string) => Literal(v), ReadQuoted('\'', s[1..]))
    else if IsLetter(s[0]) then Some((Word(ReadLetters(s).0), ReadLetters(s).1))
    else if IsSymbol(s[0]) then Some((Symbol(s[0]), s[1..]))
    else None
  }

  /** The tokens of a statement; none when the lexer has no token for what it meets. */
  function LexSql(s: string): Option<seq<Token>>
    decreases |s|
  {
    if s == [] then Some([])
    else if s[0] == ' ' then LexSql(s[1..])
    else
      match NextToken(s)
      case None => None
      case Some(n) => Then(n.0, LexSql(n.1))
  }

  function Then(t: Token, r: Option<seq<Token>>): Option<seq<Token>> {
    match r
    case None => None
    case Some(ts) => Some([t] + ts)
  }

  /** A statement as the printers write it: tokens one blank apart, punctuation attached. */
  function PrintToken(t: Token): string {
    match t
    case Word(w) => w
    case Ident(v) => SqlIdent(v)
    case Literal(v) => SqlLiteral(v)
    case Symbol(ch) => [ch]
  }

  function PrintSql(ts: seq<Token>): string {
    if ts == [] then [] else PrintToken(ts[0]) + PrintRest(ts[1..])
  }

  function PrintRest(ts: seq<Token>): string {
    if ts == [] then []
    else if ts[0].Symbol? then PrintToken(ts[0]) + PrintRest(ts[1..])
    else " " + (PrintToken(ts[0]) + PrintRest(ts[1..]))
  }

  predicate ValidToken(t: Token) {
    match t
    case Word(w) => w != [] && forall i :: 0 <= i < |w| ==> IsLetter(w[i])
    case Symbol(ch) => IsSymbol(ch)
    case _ => true
  }

  ghost predicate ValidTokens(ts: seq<Token>) {
    forall i :: 0 <= i < |ts| ==> ValidToken(ts[i])
  }

  /** Reading back what was doubled. */
  lemma {:induction false} QuotedRoundTrip(q: char, v: string, rest: string)
    requires rest == [] || rest[0] != q
    ensures ReadQuoted(q, Doubled(q, v) + ([q] + rest)) == Some((v, rest))
  {
    var s := Doubled(q, v) + ([q] + rest);
    if v == [] {
      assert s == [q] + rest;
    } else {
      QuotedRoundTrip(q, v[1..], rest);
      assert [v[0]] + v[1..] == v;
      var tail := Doubled(q, v[1..]) + ([q] + rest);
      if v[0] == q {
        assert s == [q, q] + tail && s[2..] == tail;
      } else {
        assert s == [v[0]] + tail && s[1..] == tail;
      }
    }
  }

  lemma {:induction false} LettersRoundTrip(w: string, rest: string)
    requires forall i :: 0 <= i < |w| ==> IsLetter(w[i])
    requires rest == [] || !IsLetter(rest[0])
    ensures ReadLetters(w + rest) == (w, rest)
  {
    if w == [] {
      assert w + rest == rest;
    } else {
      assert (w + rest)[1..] == w[1..] + rest && [w[0]] + w[1..] == w;
      LettersRoundTrip(w[1..], rest);
    }
  }

  lemma QuotedToken(q: char, v: string, rest: string, s: string)
    requires s == ([q] + Doubled(q, v) + [q]) + rest && (rest == [] || rest[0] != q)
    ensures s[0] == q && ReadQuoted(q, s[1..]) == Some((v, rest))
  {
    QuotedTail(q, Doubled(q, v), rest, s);
    QuotedRoundTrip(q, v, rest);
  }

  lemma QuotedTail(q: char, text: string, rest: string, s: string)
    requires s == ([q] + text + [q]) + rest
    ensures s[0] == q && s[1..] == text + ([q] + rest)
  {
  }

  /** Any token is read back, whatever string it holds, when what follows is nothing, a blank
      or punctuation. */
  lemma TokenRoundTrip(t: Token, rest: string, s: string)
    requires ValidToken(t) && (rest == [] || rest[0] == ' ' || IsSymbol(rest[0])) && s == PrintToken(t) + rest
    ensures NextToken(s) == Some((t, rest))
    ensures s != [] && s[0] != ' '
  {
    match t
    case Word(w) =>
      assert s[0] == w[0];
      LettersRoundTrip(w, rest);
    case Ident(v) => QuotedToken('"', v, rest, s);
    case Literal(v) => QuotedToken('\'', v, rest, s);
    case Symbol(ch) => assert s[0] == ch && s[1..] == rest;
  }

  lemma LexStep(t: Token, rest: string, s: string)
    requires ValidToken(t) && (rest == [] || rest[0] == ' ' || IsSymbol(rest[0])) && s == PrintToken(t) + rest
    ensures LexSql(s) == Then(t, LexSql(rest)) && s != []
  {
    TokenRoundTrip(t, rest, s);
  }

  lemma {:induction false} RestRoundTrip(ts: seq<Token>)
    requires ValidTokens(ts)
    ensures LexSql(PrintRest(ts)) == Some(ts)
    ensures PrintRest(ts) == [] || PrintRest(ts)[0] == ' ' || IsSymbol(PrintRest(ts)[0])
  {
    if ts != [] {
      var t, rest := ts[0], PrintRest(ts[1..]);
      assert ValidTokens(ts[1..]) by { assert forall i :: 0 <= i < |ts| - 1 ==> ts[1..][i] == ts[i + 1]; }
      RestRoundTrip(ts[1..]);
      var s := PrintToken(t) + rest;
      LexStep(t, rest, s);
      assert ts == [t] + ts[1..];
      BlankFirst(s);
    }
  }

  lemma BlankFirst(s: string)
    ensures LexSql(" " + s) == LexSql(s)
  {
    assert (" " + s)[1..] == s;
  }

  /** Every printed statement lexes to the tokens it was made of, for all names and values. */
  lemma StatementRoundTrip(ts: seq<Token>)
    requires ValidTokens(ts)
    ensures LexSql(PrintSql(ts)) == Some(ts)
  {
    if ts != [] {
      assert ValidTokens(ts[1..]) by { assert forall i :: 0 <= i < |ts| - 1 ==> ts[1..][i] == ts[i + 1]; }
      RestRoundTrip(ts[1..]);
      LexStep(ts[0], PrintRest(ts[1..]), PrintSql(ts));
      assert ts == [ts[0]] + ts[1..];
    }
  }

  // ---------------------------------------------------------------------------
  // The shell's lexer: blanks separate words, a newline ends a command.

  predicate Plain(ch: char) {
    IsLetter(ch) || '0' <= ch <= '9' || ch == '-' || ch == '='
  }

  predicate Ends(s: string) {
    s == [] || s[0] == ' ' || s[0] == '\n'
  }

  function ReadSingle(s: string): (r: Option<(string, string)>)
    ensures r.Some? ==> |r.value.1| < |s|
  {
    if s == [] then None
    else if s[0] == '\'' then Some(([], s[1..]))
    else Consed(s[0], ReadSingle(s[1..]))
  }

  /** Inside double quotes the characters $, ` and \ are special; none is ever printed there. */
  function ReadDouble(s: string): (r: Option<(string, string)>)
    ensures r.Some? ==> |r.value.1| < |s|
  {
    if s == [] || s[0] == '$' || s[0] == '`' || s[0] == '\\' then None
    else if s[0] == '"' then Some(([], s[1..]))
    else Consed(s[0], ReadDouble(s[1..]))
  }

  function Joined(text: string, r: Option<(string, string)>): Option<(string, string)> {
    match r
    case None => None
    case Some(p) => Some((text + p.0, p.1))
  }

  /** The rest of a word, its quotes removed, and what follows it. */
  function ReadWord(s: string): (r: Option<(string, string)>)
    ensures r.Some? ==> |r.value.1| <= |s| && (!Ends(s) ==> |r.value.1| < |s|)
    decreases |s|
  {
    if Ends(s) then Some(([], s))
    else if s[0] == '\'' then
      match ReadSingle(s[1..])
      case None => None
      case Some(q) => Joined(q.0, ReadWord(q.1))
    else if s[0] == '"' then
      match ReadDouble(s[1..])
      case None => None
      case Some(q) => Joined(q.0, ReadWord(q.1))
    else if Plain(s[0]) then Consed(s[0], ReadWord(s[1..]))
    else None
  }

  /** The words of one command and what follows its newline. */
  function ReadCommand(s: string): (r: Option<(seq<string>, string)>)
    ensures r.Some? && s != [] ==> |r.value.1| < |s|
    decreases |s|
  {
    if s == [] then Some(([], []))
    else if s[0] == '\n' then Some(([], s[1..]))
    else if s[0] == ' ' then ReadCommand(s[1..])
    else
      match ReadWord(s)
      case None => None
      case Some(w) =>
        match ReadCommand(w.1)
        case None => None
        case Some(r) => Some(([w.0] + r.0, r.1))
  }

  function ReadScript(s: string): Option<seq<seq<string>>>
    decreases |s|
  {
    if s == [] then Some([])
    else
      match ReadCommand(s)
      case None => None
      case Some(r) =>
        match ReadScript(r.1)
        case None => None
        case Some(rest) => Some([r.0] + rest)
  }

  /** A word as printed: literally, or quoted. */
  datatype Arg = Flag(text: string) | Value(text: string)

  function PrintArg(a: Arg): string {
    if a.Flag? then a.text else ShellQuote(a.text)
  }

  /** Words one blank apart, and a newline. */
  function PrintCommand(args: seq<Arg>): string {
    if args == [] then "\n"
    else PrintArg(args[0]) + if |args| == 1 then "\n" else " " + PrintCommand(args[1..])
  }

  function PrintScript(cmds: seq<seq<Arg>>): string {
    if cmds == [] then [] else PrintCommand(cmds[0]) + PrintScript(cmds[1..])
  }

  function Texts(args: seq<Arg>): seq<string> {
    if args == [] then [] else [args[0].text] + Texts(args[1..])
  }

  function AllTexts(cmds: seq<seq<Arg>>): seq<seq<string>> {
    if cmds == [] then [] else [Texts(cmds[0])] + AllTexts(cmds[1..])
  }

  predicate ValidArg(a: Arg) {
    a.Flag? ==> a.text != [] && forall i :: 0 <= i < |a.text| ==> Plain(a.text[i])
  }

  ghost predicate ValidArgs(args: seq<Arg>) {
    args != [] && forall i :: 0 <= i < |args| ==> ValidArg(args[i])
  }

  /** From inside single quotes. */
  function InSingle(s: string): Option<(string, string)> {
    match ReadSingle(s)
    case None => None
    case Some(q) => Joined(q.0, ReadWord(q.1))
  }

  lemma InSingleStep(ch: char, s: string)
    requires ch != '\''
    ensures InSingle([ch] + s) == Consed(ch, InSingle(s))
  {
    assert ([ch] + s)[1..] == s;
    if ReadSingle(s).Some? {
      var q := ReadSingle(s).value;
      var w := ReadWord(q.1);
      if w.Some? { assert ([ch] + q.0) + w.value.0 == [ch] + (q.0 + w.value.0); }
    }
  }

  lemma InSingleQuote(s: string)
    ensures InSingle(SHELL_QUOTE + s) == Consed('\'', InSingle(s))
  {
    var a := SHELL_QUOTE + s;
    var b := "\"'\"'" + s;
    var c := "'\"'" + s;
    var d := "'" + s;
    assert a[0] == '\'' && a[1..] == b && b[0] == '"' && b[1..] == c && d[0] == '\'' && d[1..] == s;
    assert c[0] == '\'' && c[1..] == "\"'" + s && c[1..][0] == '"' && c[1..][1..] == d;
    assert ReadDouble(c[1..]) == Some(([], d));
    assert ['\''] + [] == ['\''];
    assert ReadDouble(c) == Some((['\''], d));
    assert ReadWord(d) == InSingle(s);
    assert ReadWord(b) == Joined(['\''], InSingle(s));
    assert ReadSingle(a) == Some(([], b));
    var w := ReadWord(b);
    if w.Some? { assert [] + w.value.0 == w.value.0; }
  }

  lemma {:induction false} EscapedRoundTrip(v: string, rest: string)
    requires Ends(rest)
    ensures InSingle(Escaped(v) + ("'" + rest)) == Some((v, rest))
  {
    var s := Escaped(v) + ("'" + rest);
    if v == [] {
      assert s == "'" + rest;
      ClosingQuote(rest);
    } else {
      var tail := Escaped(v[1..]) + ("'" + rest);
      EscapedRoundTrip(v[1..], rest);
      assert [v[0]] + v[1..] == v;
      Regroup(if v[0] == '\'' then SHELL_QUOTE else [v[0]], Escaped(v[1..]), "'" + rest);
      if v[0] == '\'' {
        InSingleQuote(tail);
      } else {
        InSingleStep(v[0], tail);
      }
    }
  }

  lemma ClosingQuote(rest: string)
    requires Ends(rest)
    ensures InSingle("'" + rest) == Some(([], rest))
  {
    assert ("'" + rest)[1..] == rest;
    assert ReadWord(rest) == Some(([], rest));
    var none: string := [];
    assert none + none == none;
  }

  lemma {:induction false} PlainRoundTrip(w: string, rest: string)
    requires Ends(rest) && forall i :: 0 <= i < |w| ==> Plain(w[i])
    ensures ReadWord(w + rest) == Some((w, rest))
  {
    if w == [] {
      assert w + rest == rest;
    } else {
      assert (w + rest)[1..] == w[1..] + rest && (w + rest)[0] == w[0];
      PlainRoundTrip(w[1..], rest);
      assert [w[0]] + w[1..] == w;
    }
  }

  /** One printed word is read back, whatever characters other than NUL a quoted value has:
      quotes, blanks and newlines included. */
  lemma ArgRoundTrip(a: Arg, rest: string)
    requires ValidArg(a) && Ends(rest)
    ensures ReadWord(PrintArg(a) + rest) == Some((a.text, rest))
    ensures PrintArg(a) != [] && PrintArg(a)[0] != ' ' && PrintArg(a)[0] != '\n'
  {
    if a.Flag? {
      PlainRoundTrip(a.text, rest);
    } else {
      QuotedArg(a.text, rest, PrintArg(a) + rest);
    }
  }

  lemma QuotedArg(v: string, rest: string, s: string)
    requires Ends(rest) && s == ShellQuote(v) + rest
    ensures ReadWord(s) == Some((v, rest))
  {
    assert s[0] == '\'' && s[1..] == Escaped(v) + ("'" + rest);
    EscapedRoundTrip(v, rest);
    assert ReadWord(s) == InSingle(s[1..]);
  }

  /** One word and then the rest of the command. */
  lemma CommandStep(a: Arg, after: string, s: string, words: seq<string>, rest: string)
    requires ValidArg(a) && Ends(after) && s == PrintArg(a) + after && ReadCommand(after) == Some((words, rest))
    ensures ReadCommand(s) == Some(([a.text] + words, rest))
  {
    ArgRoundTrip(a, after);
    assert s[0] == PrintArg(a)[0];
  }

  lemma LastArg(a: Arg, rest: string)
    requires ValidArg(a)
    ensures ReadCommand((PrintArg(a) + "\n") + rest) == Some(([a.text], rest))
  {
    var s, after := (PrintArg(a) + "\n") + rest, "\n" + rest;
    assert s == PrintArg(a) + after && after[1..] == rest;
    CommandStep(a, after, s, [], rest);
    assert [a.text] + [] == [a.text];
  }

  lemma FirstArg(a: Arg, line: string, rest: string, words: seq<string>)
    requires ValidArg(a) && ReadCommand(line + rest) == Some((words, rest))
    ensures ReadCommand((PrintArg(a) + (" " + line)) + rest) == Some(([a.text] + words, rest))
  {
    var s, after := (PrintArg(a) + (" " + line)) + rest, " " + (line + rest);
    assert s == PrintArg(a) + after && after[1..] == line + rest;
    CommandStep(a, after, s, words, rest);
  }

  lemma {:induction false} CommandRoundTrip(args: seq<Arg>, rest: string)
    requires ValidArgs(args)
    ensures ReadCommand(PrintCommand(args) + rest) == Some((Texts(args), rest))
    decreases |args|
  {
    var a, tail := args[0], args[1..];
    assert ValidArg(a);
    if |args| == 1 {
      assert Texts(tail) == [] && [a.text] + [] == [a.text];
      LastArg(a, rest);
    } else {
      assert ValidArgs(tail) by { assert forall i :: 0 <= i < |tail| ==> tail[i] == args[i + 1]; }
      CommandRoundTrip(tail, rest);
      FirstArg(a, PrintCommand(tail), rest, Texts(tail));
    }
  }

  /** A script of commands is split by the shell into exactly the argument lists meant. */
  lemma {:induction false} ScriptRoundTrip(cmds: seq<seq<Arg>>)
    requires forall i :: 0 <= i < |cmds| ==> ValidArgs(cmds[i])
    ensures ReadScript(PrintScript(cmds)) == Some(AllTexts(cmds))
  {
    if cmds != [] {
      ScriptRoundTrip(cmds[1..]);
      CommandRoundTrip(cmds[0], PrintScript(cmds[1..]));
      assert PrintCommand(cmds[0]) != [];
    }
  }

  lemma {:induction false} ScriptConcat(a: seq<seq<Arg>>, b: seq<seq<Arg>>)
    ensures PrintScript(a + b) == PrintScript(a) + PrintScript(b)
  {
    if a == [] {
      assert a + b == b && PrintScript(a) == [];
    } else {
      ScriptConcat(a[1..], b);
      assert (a + b)[1..] == a[1..] + b && (a + b)[0] == a[0];
      Regroup(PrintCommand(a[0]), PrintScript(a[1..]), PrintScript(b));
    }
  }

  lemma ValidConcat(a: seq<Token>, b: seq<Token>)
    requires ValidTokens(a) && ValidTokens(b)
    ensures ValidTokens(a + b)
  {
  }
}
