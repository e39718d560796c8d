/** PostgreSQL Frontend/Backend Protocol 3.0 framing and the DataRow, Bind and Parse
payloads, on bytes. */
module Wire {
  import opened Basics

  /** Bytes are integers from 0 to 255; nothing below depends on that bound. */
  type Bytes = seq<int>

  datatype Message = Message(kind: int, payload: Bytes)

  const U16: int := 0x1_0000
  const I32: int := 0x8000_0000
  const U32: int := 0x1_0000_0000
  const MAX_FRAME: int := 0x100_0000

  /** Big-endian number in `width` bytes, reduced to that width. */
  function BigEndian(n: nat, width: nat): (b: Bytes)
    ensures |b| == width
  {
    if width == 0 then [] else BigEndian(n / 256, width - 1) + [n % 256]
  }

  function Get(b: Bytes): nat {
    if b == [] then 0 else Get(b[..|b| - 1]) * 256 + b[|b| - 1] % 256
  }

  function Pow256(width: nat): (r: nat)
    ensures r > 0
  {
    if width == 0 then 1 else Pow256(width - 1) * 256
  }

  lemma {:induction false} GetBigEndian(n: nat, width: nat)
    ensures Get(BigEndian(n, width)) == n % Pow256(width)
  {
    if width > 0 {
      GetBigEndian(n / 256, width - 1);
      var b := BigEndian(n, width);
      assert b[..|b| - 1] == BigEndian(n / 256, width - 1);
      ModSplit(n, Pow256(width - 1));
    }
  }

  lemma ModSplit(n: nat, m: nat)
    requires m > 0
    ensures n / 256 % m * 256 + n % 256 == n % (m * 256)
  {
    var q, r := n / 256 / m, n / 256 % m;
    assert n / 256 == q * m + r && n == (n / 256) * 256 + n % 256;
    assert n == q * (m * 256) + (r * 256 + n % 256);
    assert 0 <= r * 256 + n % 256 < m * 256;
    DivUnique(n, m * 256, q, r * 256 + n % 256);
  }

  lemma DivUnique(n: nat, d: nat, q: nat, r: nat)
    requires d > 0 && r < d && n == q * d + r
    ensures n % d == r
  {
    var a, b := n / d, n % d;
    assert n == a * d + b;
    if q > a { AtLeast(q - a, d); }
    if q < a { AtLeast(a - q, d); }
    assert (q - a) * d == q * d - a * d;
  }

  lemma AtLeast(a: nat, d: nat)
    requires a > 0
    ensures a * d >= d
  {
  }

  /** The protocol's Int16 and Int32. */
  datatype Width = Int16 | Int32

  function Size(w: Width): nat {
    match w
    case Int16 => 2
    case Int32 => 4
  }

  function Range(w: Width): nat {
    match w
    case Int16 => U16
    case Int32 => U32
  }

  function Put(n: nat, w: Width): (b: Bytes)
    ensures |b| == Size(w)
  {
    BigEndian(n, Size(w))
  }

  /** The number at the start of a stream and what follows it. */
  function TakeNumber(s: Bytes, w: Width): Option<(nat, Bytes)> {
    if |s| < Size(w) then None else Some((Get(s[..Size(w)]), s[Size(w)..]))
  }

  lemma GetPut(n: nat, w: Width)
    ensures Get(Put(n, w)) == n % Range(w)
  {
    GetBigEndian(n, Size(w));
    assert Pow256(1) == 256 && Pow256(2) == U16 && Pow256(3) == 0x100_0000 && Pow256(4) == U32;
  }

  lemma HeadFirst(head: Bytes, rest: Bytes, w: Width)
    requires |head| == Size(w)
    ensures TakeNumber(head + rest, w) == Some((Get(head), rest))
  {
    assert (head + rest)[..|head|] == head && (head + rest)[|head|..] == rest;
  }

  lemma NumberFirst(n: nat, w: Width, rest: Bytes)
    ensures TakeNumber(Put(n, w) + rest, w) == Some((n % Range(w), rest))
  {
    GetPut(n, w);
    HeadFirst(Put(n, w), rest, w);
  }

  lemma NumberAt(p: Bytes, at: nat, w: Width)
    requires at + Size(w) <= |p|
    ensures TakeNumber(p[at..], w) == Some((Get(p[at..at + Size(w)]), p[at + Size(w)..]))
  {
    assert p[at..][..Size(w)] == p[at..at + Size(w)] && p[at..][Size(w)..] == p[at + Size(w)..];
  }

  // ---------------------------------------------------------------------------
  // Frames.

  function WriteMessage(m: Message): Bytes {
    [m.kind] + (Put(4 + |m.payload|, Int32) + m.payload)
  }

  datatype Read = Ended | BadLength | Got(message: Message, rest: Bytes)

  /** Reads one message off a stream. */
  function ReadMessage(s: Bytes): Read {
    if s == [] then Ended
    else
      match TakeNumber(s[1..], Int32)
      case None => Ended
      case Some(head) => ReadBody(s[0], head.0, head.1)
  }

  function ReadBody(kind: int, length: nat, body: Bytes): Read {
    if length < 4 || length > MAX_FRAME then BadLength
    else if |body| < length - 4 then Ended
    else Got(Message(kind, body[..length - 4]), body[length - 4..])
  }

  /** A written message is read back, with the rest of the stream left, exactly when its
      payload has at most 2^24 - 4 bytes. */
  lemma FrameRoundTrip(m: Message, rest: Bytes)
    ensures ReadMessage(WriteMessage(m) + rest) == Got(m, rest) <==> 4 + |m.payload| <= MAX_FRAME
  {
    var s := WriteMessage(m) + rest;
    var n := 4 + |m.payload|;
    assert s[0] == m.kind && s[1..] == Put(n, Int32) + (m.payload + rest);
    NumberFirst(n, Int32, m.payload + rest);
    BodyRoundTrip(m, n % U32, rest);
  }

  lemma BodyRoundTrip(m: Message, length: nat, rest: Bytes)
    requires length == (4 + |m.payload|) % U32
    ensures ReadBody(m.kind, length, m.payload + rest) == Got(m, rest) <==> 4 + |m.payload| <= MAX_FRAME
  {
    var body := m.payload + rest;
    assert body[..|m.payload|] == m.payload && body[|m.payload|..] == rest;
  }

  function WriteAll(ms: seq<Message>): Bytes {
    if ms == [] then [] else WriteMessage(ms[0]) + WriteAll(ms[1..])
  }

  /** The messages read until the stream ends or is found bad. */
  function ReadAll(s: Bytes): seq<Message>
    decreases |s|
  {
    match ReadMessage(s)
    case Got(m, rest) => [m] + ReadAll(rest)
    case _ => []
  }

  /** Any sequence of messages of allowed size is read back from its concatenation. */
  lemma {:induction false} StreamRoundTrip(ms: seq<Message>)
    requires forall m :: m in ms ==> 4 + |m.payload| <= MAX_FRAME
    ensures ReadAll(WriteAll(ms)) == ms
  {
    if ms != [] {
      assert ms[0] in ms && forall m :: m in ms[1..] ==> m in ms;
      StreamRoundTrip(ms[1..]);
      FrameRoundTrip(ms[0], WriteAll(ms[1..]));
      ReadFirst(WriteAll(ms), ms[0], WriteAll(ms[1..]));
      assert ms == [ms[0]] + ms[1..];
    }
  }

  lemma ReadFirst(s: Bytes, m: Message, rest: Bytes)
    requires ReadMessage(s) == Got(m, rest)
    ensures ReadAll(s) == [m] + ReadAll(rest)
  {
  }

  // ---------------------------------------------------------------------------
  // Columns: a signed length, negative for NULL, then that many bytes.

  type Column = Option<Bytes>

  /** Minus one, the length that stands for NULL. */
  function NULL_LENGTH(): nat {
    U32 - 1
  }

  function PutColumn(c: Column): Bytes {
    match c
    case None => Put(NULL_LENGTH(), Int32)
    case Some(b) => Put(|b|, Int32) + b
  }

  function PutColumns(cs: seq<Column>): Bytes {
    if cs == [] then [] else PutColumn(cs[0]) + PutColumns(cs[1..])
  }

  function Signed(n: nat): int {
    if n < I32 then n else n - U32
  }

  /** The first column of a stream and what follows it. */
  function GetColumn(s: Bytes): Option<(Column, Bytes)> {
    match TakeNumber(s, Int32)
    case None => None
    case Some(head) => GetValue(Signed(head.0), head.1)
  }

  function GetValue(length: int, body: Bytes): Option<(Column, Bytes)> {
    if length < 0 then Some((None, body))
    else if |body| < length then None
    else Some((Some(body[..length]), body[length..]))
  }

  /** The first `n` columns of a stream. */
  function GetColumns(s: Bytes, n: nat): Option<seq<Column>>
    decreases n
  {
    if n == 0 then Some([])
    else
      match GetColumn(s)
      case None => None
      case Some(first) =>
        match GetColumns(first.1, n - 1)
        case None => None
        case Some(rest) => Some([first.0] + rest)
  }

  predicate Fits(c: Column) {
    c.Some? ==> |c.value| < I32
  }

  predicate AllFit(cs: seq<Column>) {
    forall c :: c in cs ==> Fits(c)
  }

  lemma NullRoundTrip(s: Bytes, rest: Bytes)
    requires s == PutColumn(None) + rest
    ensures GetColumn(s) == Some((None, rest))
  {
    NumberFirst(NULL_LENGTH(), Int32, rest);
  }

  lemma ValueHeader(b: Bytes, s: Bytes, rest: Bytes)
    requires s == PutColumn(Some(b)) + rest
    ensures TakeNumber(s, Int32) == Some((|b| % U32, b + rest))
  {
    assert s == Put(|b|, Int32) + (b + rest);
    NumberFirst(|b|, Int32, b + rest);
  }

  /** A value comes back if it fits; otherwise it comes back as NULL or cut short. */
  lemma ValueRoundTrip(b: Bytes, s: Bytes, rest: Bytes)
    requires s == PutColumn(Some(b)) + rest
    ensures |b| < I32 ==> GetColumn(s) == Some((Some(b), rest))
    ensures |b| >= I32 && GetColumn(s).Some? ==> GetColumn(s).value.0 != Some(b)
  {
    ValueHeader(b, s, rest);
    ValueDecides(b, |b| % U32, rest);
  }

  lemma ValueDecides(b: Bytes, n: nat, rest: Bytes)
    requires n == |b| % U32
    ensures |b| < I32 ==> GetValue(Signed(n), b + rest) == Some((Some(b), rest))
    ensures |b| >= I32 && GetValue(Signed(n), b + rest).Some? ==> GetValue(Signed(n), b + rest).value.0 != Some(b)
  {
    assert (b + rest)[..|b|] == b && (b + rest)[|b|..] == rest;
  }

  lemma ColumnRoundTrip(c: Column, s: Bytes, rest: Bytes)
    requires s == PutColumn(c) + rest
    ensures Fits(c) ==> GetColumn(s) == Some((c, rest))
    ensures !Fits(c) && GetColumn(s).Some? ==> GetColumn(s).value.0 != c
  {
    match c
    case None => NullRoundTrip(s, rest);
    case Some(b) => ValueRoundTrip(b, s, rest);
  }

  lemma ColumnsHead(cs: seq<Column>, rest: Bytes)
    requires cs != []
    ensures PutColumns(cs) + rest == PutColumn(cs[0]) + (PutColumns(cs[1..]) + rest)
  {
    Regroup(PutColumn(cs[0]), PutColumns(cs[1..]), rest);
  }

  lemma AllFitHead(cs: seq<Column>)
    requires cs != []
    ensures AllFit(cs) <==> Fits(cs[0]) && AllFit(cs[1..])
  {
    assert forall d :: d in cs <==> d == cs[0] || d in cs[1..];
  }

  /** Reading the columns written returns them exactly when each value is shorter than 2^31
      bytes; what follows them does not matter. */
  lemma ColumnsRoundTrip(cs: seq<Column>, rest: Bytes, s: Bytes, n: nat)
    requires s == PutColumns(cs) + rest && n == |cs|
    ensures GetColumns(s, n) == Some(cs) <==> AllFit(cs)
  {
    var after := seq(n + 1, i requires 0 <= i <= n => PutColumns(cs[i..]) + rest);
    forall i | 0 <= i < n ensures Reads(cs[i], after[i], after[i + 1]) {
      assert cs[i..][1..] == cs[i + 1..];
      ColumnsHead(cs[i..], rest);
      ColumnRoundTrip(cs[i], after[i], after[i + 1]);
    }
    assert cs[0..] == cs;
    ColumnByColumn(cs, after);
  }

  /** A column in front of `after` is read if it fits and misread if it does not. */
  ghost predicate Reads(c: Column, s: Bytes, after: Bytes) {
    && (Fits(c) ==> GetColumn(s) == Some((c, after)))
    && (!Fits(c) && GetColumn(s).Some? ==> GetColumn(s).value.0 != c)
  }

  lemma {:induction false} ColumnByColumn(cs: seq<Column>, after: seq<Bytes>)
    requires |after| == |cs| + 1
    requires forall i :: 0 <= i < |cs| ==> Reads(cs[i], after[i], after[i + 1])
    ensures GetColumns(after[0], |cs|) == Some(cs) <==> AllFit(cs)
    decreases |cs|
  {
    if cs == [] {
      assert AllFit(cs);
    } else {
      ColumnByColumn(cs[1..], after[1..]);
      AllFitHead(cs);
      FirstDecides(after[0], cs, after[1]);
    }
  }

  lemma FirstDecides(s: Bytes, cs: seq<Column>, after: Bytes)
    requires cs != [] && Reads(cs[0], s, after)
    ensures GetColumns(s, |cs|) == Some(cs) <==> Fits(cs[0]) && GetColumns(after, |cs| - 1) == Some(cs[1..])
  {
    assert cs == [cs[0]] + cs[1..];
    if GetColumn(s).Some? {
      var first := GetColumn(s).value;
      var rest := GetColumns(first.1, |cs| - 1);
      if rest.Some? { SameCons(first.0, rest.value, cs); }
    }
  }

  lemma SameCons(c: Column, rest: seq<Column>, cs: seq<Column>)
    requires cs != []
    ensures [c] + rest == cs <==> c == cs[0] && rest == cs[1..]
  {
    if [c] + rest == cs { assert ([c] + rest)[1..] == rest; }
  }

  /** The column at `pos`, and the position after it. */
  method DecodeColumn(p: Bytes, pos: nat) returns (r: Option<(Column, nat)>)
    requires pos <= |p|
    ensures r.None? <==> GetColumn(p[pos..]).None?
    ensures r.Some? ==> r.value.1 <= |p| && GetColumn(p[pos..]) == Some((r.value.0, p[r.value.1..]))
  {
    if pos + 4 > |p| { return None; }
    NumberAt(p, pos, Int32);
    var length := Signed(Get(p[pos..pos + 4]));
    var body := pos + 4;
    if length < 0 { return Some((None, body)); }
    if body + length > |p| { return None; }
    assert p[body..][..length] == p[body..body + length] && p[body..][length..] == p[body + length..];
    r := Some((Some(p[body..body + length]), body + length));
  }

  /** The decoding loop of both DataRow and Bind. */
  method DecodeColumns(p: Bytes, at: nat, n: nat) returns (r: Option<seq<Column>>)
    requires at <= |p|
    ensures r == GetColumns(p[at..], n)
  {
    var out: seq<Column> := [];
    var pos: nat := at;
    ghost var whole := GetColumns(p[at..], n);
    assert whole.Some? ==> [] + whole.value == whole.value;
    for k := 0 to n
      invariant pos <= |p|
      invariant whole == Prepend(out, GetColumns(p[pos..], n - k))
    {
      var next := DecodeColumn(p, pos);
      if next.None? { return None; }
      PrependOne(out, next.value.0, GetColumns(p[next.value.1..], n - k - 1));
      out := out + [next.value.0];
      pos := next.value.1;
    }
    assert out + [] == out;
    r := Some(out);
  }

  function Prepend(out: seq<Column>, r: Option<seq<Column>>): Option<seq<Column>> {
    match r
    case None => None
    case Some(rest) => Some(out + rest)
  }

  lemma PrependOne(out: seq<Column>, c: Column, r: Option<seq<Column>>)
    ensures Prepend(out, Prepend([c], r)) == Prepend(out + [c], r)
  {
    if r.Some? { assert out + ([c] + r.value) == (out + [c]) + r.value; }
  }

  // ---------------------------------------------------------------------------
  // DataRow.

  function PutRow(cs: seq<Column>): Bytes {
    Put(|cs|, Int16) + PutColumns(cs)
  }

  function GetRow(p: Bytes): Option<seq<Column>> {
    match TakeNumber(p, Int16)
    case None => None
    case Some(head) => GetColumns(head.1, head.0)
  }

  method EncodeDataRow(cs: seq<Column>) returns (out: Bytes)
    ensures out == PutRow(cs)
  {
    out := Put(|cs|, Int16);
    for i := 0 to |cs|
      invariant out + PutColumns(cs[i..]) == PutRow(cs)
    {
      assert cs[i..][1..] == cs[i + 1..];
      assert out + (PutColumn(cs[i]) + PutColumns(cs[i + 1..])) == (out + PutColumn(cs[i])) + PutColumns(cs[i + 1..]);
      if cs[i].None? {
        out := out + Put(NULL_LENGTH(), Int32);
      } else {
        out := out + (Put(|cs[i].value|, Int32) + cs[i].value);
      }
    }
  }

  method DecodeDataRow(p: Bytes) returns (r: Option<seq<Column>>)
    ensures r == GetRow(p)
  {
    if |p| < 2 { return None; }
    r := DecodeColumns(p, 2, Get(p[..2]));
  }

  lemma {:induction false} GetColumnsCount(s: Bytes, n: nat)
    ensures GetColumns(s, n).Some? ==> |GetColumns(s, n).value| == n
    decreases n
  {
    if n > 0 && GetColumn(s).Some? { GetColumnsCount(GetColumn(s).value.1, n - 1); }
  }

  lemma CountDecides(cs: seq<Column>, p: Bytes, n: nat)
    requires p == PutColumns(cs) && n == |cs| % U16
    ensures GetColumns(p, n) == Some(cs) <==> |cs| < U16 && AllFit(cs)
  {
    if |cs| < U16 {
      assert p + [] == p;
      ColumnsRoundTrip(cs, [], p, n);
    } else {
      GetColumnsCount(p, n);
    }
  }

  /** An encoded row decodes to itself exactly when it has fewer than 2^16 columns, each
      shorter than 2^31 bytes. */
  lemma RowRoundTrip(cs: seq<Column>)
    ensures GetRow(PutRow(cs)) == Some(cs) <==> |cs| < U16 && AllFit(cs)
  {
    NumberFirst(|cs|, Int16, PutColumns(cs));
    CountDecides(cs, PutColumns(cs), |cs| % U16);
  }

  // ---------------------------------------------------------------------------
  // Bind and Parse.

  /** Index of the first NUL; the length when there is none. */
  function FindNul(s: Bytes): (i: nat)
    ensures i <= |s|
    ensures i < |s| ==> s[i] == 0
    ensures 0 !in s[..i]
  {
    if s == [] || s[0] == 0 then 0 else
      var i := FindNul(s[1..]);
      assert s[..i + 1] == [s[0]] + s[1..][..i];
      i + 1
  }

  /** The string at the start of a stream and what follows its NUL. */
  function GetString(s: Bytes): Option<(Bytes, Bytes)> {
    var i := FindNul(s);
    if i == |s| then None else Some((s[..i], s[i + 1..]))
  }

  function String(s: Bytes): Bytes {
    s + [0]
  }

  lemma StringRoundTrip(s: Bytes, rest: Bytes)
    requires 0 !in s
    ensures GetString(String(s) + rest) == Some((s, rest))
  {
    var p := String(s) + rest;
    var i := FindNul(p);
    assert p[|s|] == 0 && forall j :: 0 <= j < |s| ==> p[j] == s[j];
    assert forall j :: 0 <= j < i ==> p[j] == p[..i][j];
    assert i == |s|;
    assert p[..|s|] == s && p[|s| + 1..] == rest;
  }

  /** The count of a Bind payload's parameters and what follows it. */
  function BindHeader(p: Bytes): Option<(nat, Bytes)> {
    match GetString(p)
    case None => None
    case Some(portal) =>
      match GetString(portal.1)
      case None => None
      case Some(stmt) => ParamsHeader(stmt.1)
  }

  function ParamsHeader(s: Bytes): Option<(nat, Bytes)> {
    match TakeNumber(s, Int16)
    case None => None
    case Some(formats) =>
      if formats.0 * 2 > |formats.1| then None else TakeNumber(formats.1[formats.0 * 2..], Int16)
  }

  /** The parameters of a Bind payload: portal and statement names, formats, parameters. */
  function GetBind(p: Bytes): Option<seq<Column>> {
    match BindHeader(p)
    case None => None
    case Some(head) => GetColumns(head.1, head.0)
  }

  method BindParams(m: Message) returns (r: Option<seq<Column>>)
    ensures r == if m.kind == 'B' as int then GetBind(m.payload) else None
  {
    if m.kind != 'B' as int { return None; }
    var p := m.payload;
    var pos := SkipToParams(p);
    if pos.None? { return None; }
    r := DecodeColumns(p, pos.value + 2, Get(p[pos.value..pos.value + 2]));
  }

  /** The position after the string at `pos`. */
  method SkipString(p: Bytes, pos: nat) returns (next: Option<nat>)
    requires pos <= |p|
    ensures next.None? <==> GetString(p[pos..]).None?
    ensures next.Some? ==> next.value <= |p| && GetString(p[pos..]).value.1 == p[next.value..]
  {
    var i := FindNul(p[pos..]);
    if i == |p| - pos { return None; }
    assert p[pos..][i + 1..] == p[pos + i + 1..];
    next := Some(pos + i + 1);
  }

  /** Skips both names and the formats, to where the parameter count is. */
  method SkipToParams(p: Bytes) returns (at: Option<nat>)
    ensures at.None? <==> BindHeader(p).None?
    ensures at.Some? ==> at.value + 2 <= |p|
    ensures at.Some? ==> BindHeader(p) == Some((Get(p[at.value..at.value + 2]), p[at.value + 2..]))
  {
    assert p[0..] == p;
    var portal := SkipString(p, 0);
    if portal.None? { return None; }
    var stmt := SkipString(p, portal.value);
    if stmt.None? { return None; }
    at := SkipFormats(p, stmt.value);
  }

  method SkipFormats(p: Bytes, pos: nat) returns (at: Option<nat>)
    requires pos <= |p|
    ensures at.None? <==> ParamsHeader(p[pos..]).None?
    ensures at.Some? ==> at.value + 2 <= |p|
    ensures at.Some? ==> ParamsHeader(p[pos..]) == Some((Get(p[at.value..at.value + 2]), p[at.value + 2..]))
  {
    if pos + 2 > |p| { return None; }
    NumberAt(p, pos, Int16);
    var formats := Get(p[pos..pos + 2]) * 2;
    var next := pos + 2 + formats;
    if next + 2 > |p| { return None; }
    assert p[pos + 2..][formats..] == p[next..];
    NumberAt(p, next, Int16);
    at := Some(next);
  }

  function PutFormats(fs: seq<nat>): (b: Bytes)
    ensures |b| == 2 * |fs|
  {
    if fs == [] then [] else Put(fs[0], Int16) + PutFormats(fs[1..])
  }

  /** The part of a Bind payload after the names; `results` are the result formats. */
  function PutParams(formats: seq<nat>, params: seq<Column>, results: Bytes): Bytes {
    Put(|formats|, Int16) + (PutFormats(formats) + (Put(|params|, Int16) + (PutColumns(params) + results)))
  }

  function PutBind(portal: Bytes, stmt: Bytes, formats: seq<nat>, params: seq<Column>, results: Bytes): Bytes {
    String(portal) + (String(stmt) + PutParams(formats, params, results))
  }

  /** Two counts `h` and `k` around the formats. */
  lemma ParamsShape(h: Bytes, formats: Bytes, k: Bytes, last: Bytes)
    requires |h| == 2 && |k| == 2 && |formats| == Get(h) * 2
    ensures ParamsHeader(h + (formats + (k + last))) == Some((Get(k), last))
  {
    HeadFirst(h, formats + (k + last), Int16);
    assert (formats + (k + last))[|formats|..] == k + last;
    HeadFirst(k, last, Int16);
  }

  /** Any heads `h` and `k` for the counts, any names and formats. */
  lemma BindShape(portal: Bytes, stmt: Bytes, h: Bytes, formats: Bytes, k: Bytes, last: Bytes)
    requires 0 !in portal && 0 !in stmt && |h| == 2 && |k| == 2 && |formats| == Get(h) * 2
    ensures BindHeader(String(portal) + (String(stmt) + (h + (formats + (k + last))))) == Some((Get(k), last))
  {
    var params := h + (formats + (k + last));
    StringRoundTrip(portal, String(stmt) + params);
    StringRoundTrip(stmt, params);
    ParamsShape(h, formats, k, last);
  }

  lemma SmallNumber(n: nat, w: Width)
    requires n < Range(w)
    ensures Get(Put(n, w)) == n
  {
    GetPut(n, w);
  }

  lemma BindDecides(p: Bytes, params: seq<Column>, results: Bytes)
    requires BindHeader(p) == Some((|params|, PutColumns(params) + results))
    ensures GetBind(p) == Some(params) <==> AllFit(params)
  {
    ColumnsRoundTrip(params, results, PutColumns(params) + results, |params|);
  }

  /** The parameters of any Bind within the protocol's counts are recovered, whatever the
      names, formats and result formats, exactly when each is shorter than 2^31 bytes. */
  lemma BindRoundTrip(portal: Bytes, stmt: Bytes, formats: seq<nat>, params: seq<Column>, results: Bytes)
    requires 0 !in portal && 0 !in stmt && |formats| < U16 && |params| < U16
    ensures GetBind(PutBind(portal, stmt, formats, params, results)) == Some(params) <==> AllFit(params)
  {
    var h, k := Put(|formats|, Int16), Put(|params|, Int16);
    SmallNumber(|formats|, Int16);
    SmallNumber(|params|, Int16);
    BindShape(portal, stmt, h, PutFormats(formats), k, PutColumns(params) + results);
    BindDecides(PutBind(portal, stmt, formats, params, results), params, results);
  }

  /** The query text of a Parse payload: its second string. */
  function GetParseSql(p: Bytes): Option<Bytes> {
    match GetString(p)
    case None => None
    case Some(name) =>
      match GetString(name.1)
      case None => None
      case Some(sql) => Some(sql.0)
  }

  /** Name and text of any Parse message are recovered. */
  lemma ParseRoundTrip(name: Bytes, sql: Bytes, types: Bytes)
    requires 0 !in name && 0 !in sql
    ensures var p := String(name) + (String(sql) + types);
      GetString(p).Some? && GetString(p).value.0 == name && GetParseSql(p) == Some(sql)
  {
    StringRoundTrip(name, String(sql) + types);
    StringRoundTrip(sql, types);
  }
}
