// parseEnvFile and parseEnvValue of internal/config/environment.go, and their inverse.

module EnvFile {
  import opened Options
  import opened Text

  datatype Error = BadAssignment(line: nat) | BadValue(line: nat) | InvalidEnvironment

  predicate IsNameChar(c: char) { 'A' <= c <= 'Z' || 'a' <= c <= 'z' || c == '_' || '0' <= c <= '9' }

  predicate IsName(s: string) {
    s != "" && !('0' <= s[0] <= '9') && forall i :: 0 <= i < |s| ==> IsNameChar(s[i])
  }

  // A letter or an underscore, and letters, digits and underscores behind it.
  lemma NameMeans(head: char, rest: string)
    ensures !IsName("")
    ensures IsName([head] + rest) <==>
              && (head == '_' || 'A' <= head <= 'Z' || 'a' <= head <= 'z')
              && forall c :: c in rest ==> c == '_' || 'A' <= c <= 'Z' || 'a' <= c <= 'z' || '0' <= c <= '9'
  {
    var s := [head] + rest;
    assert s[0] == head && forall i :: 0 <= i < |rest| ==> s[i + 1] == rest[i];
    if forall c :: c in rest ==> IsNameChar(c) {
      forall i | 0 < i < |s| ensures IsNameChar(s[i]) { assert s[i] == rest[i - 1] && rest[i - 1] in rest; }
    } else {
      var c :| c in rest && !IsNameChar(c);
      assert c in s;
    }
  }

  predicate ValidEnvironment(values: map<string, string>) {
    forall k :: k in values ==> k != "" && '=' !in k && '\0' !in k && '\0' !in values[k]
  }

  // Values --------------------------------------------------------------------------------

  predicate IsQuote(c: char) { c == '\'' || c == '"' }

  // An unquoted value stops at the first number sign that starts it or follows a blank.
  predicate StartsComment(raw: string, i: nat)
    requires i < |raw|
  {
    raw[i] == '#' && (i == 0 || raw[i - 1] == ' ' || raw[i - 1] == '\t')
  }

  function Unquoted(raw: string, i: nat): string
    requires i <= |raw|
    decreases |raw| - i
  {
    if i == |raw| then raw
    else if StartsComment(raw, i) then TrimSpace(raw[..i])
    else Unquoted(raw, i + 1)
  }

  function Decoded(c: char): string {
    match c
    case 'n' => "\n"
    case 'r' => "\r"
    case 't' => "\t"
    case '\\' => "\\"
    case '"' => "\""
    case _ => "\\" + [c]
  }

  datatype Quoted = Unclosed | Closed(text: string, tail: string)

  function Behind(text: string, q: Quoted): Quoted {
    match q case Unclosed => Unclosed case Closed(t, tail) => Closed(text + t, tail)
  }

  // The text from position i of raw up to the closing quote, and what follows the quote.
  function Unquote(raw: string, quote: char, i: nat): Quoted
    requires i <= |raw|
    decreases |raw| - i
  {
    if i == |raw| then Unclosed
    else if raw[i] == quote then Closed("", raw[i + 1..])
    else if raw[i] == '\\' && quote == '"' && i + 1 < |raw| then Behind(Decoded(raw[i + 1]), Unquote(raw, quote, i + 2))
    else Behind([raw[i]], Unquote(raw, quote, i + 1))
  }

  function Value(q: Quoted): Option<string> {
    match q
    case Unclosed => None
    case Closed(text, tail) =>
      var rest := TrimSpace(tail);
      if rest == "" || rest[0] == '#' then Some(text) else None
  }

  function ParseValue(raw: string): Option<string> {
    if raw == "" then Some("")
    else if !IsQuote(raw[0]) then Some(Unquoted(raw, 0))
    else Value(Unquote(raw, raw[0], 1))
  }

  method ParseEnvValue(raw: string) returns (r: Option<string>)
    ensures r == ParseValue(raw)
  {
    if raw == "" { return Some(""); }
    if raw[0] != '\'' && raw[0] != '"' {
      for i := 0 to |raw|
        invariant Unquoted(raw, 0) == Unquoted(raw, i)
      {
        if raw[i] == '#' && (i == 0 || raw[i - 1] == ' ' || raw[i - 1] == '\t') { return Some(TrimSpace(raw[..i])); }
      }
      return Some(raw);
    }
    r := ParseQuoted(raw);
  }

  method ParseQuoted(raw: string) returns (r: Option<string>)
    requires raw != ""
    ensures r == Value(Unquote(raw, raw[0], 1))
  {
    hide TrimSpace, Decoded;
    var quote, out, i := raw[0], "", 1;
    BehindNothing(Unquote(raw, quote, 1));
    while i < |raw|
      invariant 1 <= i <= |raw|
      invariant Unquote(raw, quote, 1) == Behind(out, Unquote(raw, quote, i))
    {
      var ch := raw[i];
      ghost var before := out;
      if ch == quote {
        assert out + "" == out;
        var tail := TrimSpace(raw[i + 1..]);
        if tail != "" && tail[0] != '#' { return None; }
        return Some(out);
      }
      if ch == '\\' && quote == '"' && i + 1 < |raw| {
        i := i + 1;
        out := out + Decoded(raw[i]);
        BehindBehind(before, Decoded(raw[i]), Unquote(raw, quote, i + 1));
      } else {
        out := out + [ch];
        BehindBehind(before, [ch], Unquote(raw, quote, i + 1));
      }
      i := i + 1;
    }
    r := None;
  }

  lemma BehindNothing(q: Quoted)
    ensures Behind("", q) == q
  {
    if q.Closed? { assert "" + q.text == q.text; }
  }

  lemma BehindBehind(a: string, b: string, q: Quoted)
    ensures Behind(a, Behind(b, q)) == Behind(a + b, q)
  {
    if q.Closed? { assert a + (b + q.text) == (a + b) + q.text; }
  }

  // Lines ---------------------------------------------------------------------------------

  function Lines(s: string): (r: seq<string>)
    ensures r != []
  {
    if s == "" then [""]
    else if s[0] == '\n' then [""] + Lines(s[1..])
    else var r := Lines(s[1..]); [[s[0]] + r[0]] + r[1..]
  }

  // What is before the first c, and what is behind it.
  datatype Halves = Halves(before: string, after: string, found: bool)

  function Cut(s: string, c: char): (r: Halves)
    ensures c !in r.before
    ensures if r.found then s == r.before + [c] + r.after else s == r.before && r.after == ""
  {
    if s == "" then Halves("", "", false)
    else if s[0] == c then Halves("", s[1..], true)
    else var r := Cut(s[1..], c); r.(before := [s[0]] + r.before)
  }

  lemma {:induction false} CutAt(a: string, c: char, b: string)
    requires c !in a
    ensures Cut(a + [c] + b, c) == Halves(a, b, true)
  {
    if a == "" {
      assert (a + [c] + b)[1..] == b;
    } else {
      assert (a + [c] + b)[1..] == a[1..] + [c] + b;
      CutAt(a[1..], c, b);
      assert [a[0]] + a[1..] == a;
    }
  }

  datatype Line = Blank | Assign(key: string, value: string) | NoAssignment | NoValue

  function Unexported(line: string): string {
    if "export " <= line || "export\t" <= line then TrimSpace(line[7..]) else line
  }

  function ParseAssignment(halves: Halves): Line {
    var key := TrimSpace(halves.before);
    if !halves.found || !IsName(key) then NoAssignment else
    match ParseValue(TrimSpace(halves.after)) case None => NoValue case Some(v) => Assign(key, v)
  }

  // A line without the white space around it.
  function ParseLine(line: string): Line {
    if line == "" || line[0] == '#' then Blank else ParseAssignment(Cut(Unexported(line), '='))
  }

  function ParseAll(lines: seq<string>): (r: seq<Line>)
    ensures |r| == |lines|
    ensures forall i :: 0 <= i < |lines| ==> r[i] == ParseLine(TrimSpace(lines[i]))
  {
    seq(|lines|, i requires 0 <= i < |lines| => ParseLine(TrimSpace(lines[i])))
  }

  // Takes the assignments in order, up to the first line that is none.
  function Collect(lines: seq<Line>, i: nat, values: map<string, string>): Result<map<string, string>, Error>
    requires i <= |lines|
    decreases |lines| - i
  {
    if i == |lines| then Ok(values) else
    match lines[i]
    case Blank => Collect(lines, i + 1, values)
    case Assign(k, v) => Collect(lines, i + 1, values[k := v])
    case NoAssignment => Err(BadAssignment(i + 1))
    case NoValue => Err(BadValue(i + 1))
  }

  function Validated(r: Result<map<string, string>, Error>): Result<map<string, string>, Error> {
    if r.Ok? && !ValidEnvironment(r.value) then Err(InvalidEnvironment) else r
  }

  const BYTE_ORDER_MARK := "\U{FEFF}"

  function ParseFile(data: string): Result<map<string, string>, Error> {
    Validated(Collect(ParseAll(Lines(TrimPrefix(data, BYTE_ORDER_MARK))), 0, map[]))
  }

  method ParseEnvFile(data: string) returns (r: Result<map<string, string>, Error>)
    ensures r == ParseFile(data)
  {
    hide TrimSpace, TrimPrefix, Lines, ParseLine, ValidEnvironment;
    var values: map<string, string> := map[];
    var lines := Lines(TrimPrefix(data, BYTE_ORDER_MARK));
    ghost var parsed := ParseAll(lines);
    for index := 0 to |lines|
      invariant Collect(parsed, 0, map[]) == Collect(parsed, index, values)
    {
      var line := ParseEnvLine(TrimSpace(lines[index]));
      assert line == parsed[index];
      match line
      case Blank =>
      case NoAssignment => return Err(BadAssignment(index + 1));
      case NoValue => return Err(BadValue(index + 1));
      case Assign(key, value) => values := values[key := value];
    }
    if !ValidEnvironment(values) { return Err(InvalidEnvironment); }
    r := Ok(values);
  }

  // The body of the loop over the lines.
  method ParseEnvLine(text: string) returns (r: Line)
    ensures r == ParseLine(text)
  {
    var line := text;
    if line == "" || line[0] == '#' { return Blank; }
    if "export " <= line || "export\t" <= line { line := TrimSpace(line[7..]); }
    assert line == Unexported(text);
    var halves := Cut(line, '=');
    r := ParseEnvAssignment(halves);
  }

  method ParseEnvAssignment(halves: Halves) returns (r: Line)
    ensures r == ParseAssignment(halves)
  {
    var key := TrimSpace(halves.before);
    if !halves.found || !IsName(key) { return NoAssignment; }
    var value := ParseEnvValue(TrimSpace(halves.after));
    if value.None? { return NoValue; }
    r := Assign(key, value.value);
  }

  // Printing ------------------------------------------------------------------------------

  datatype Assignment = Assignment(key: string, value: string)

  function EscapeChar(c: char): string {
    match c
    case '\n' => "\\n"
    case '\r' => "\\r"
    case '\t' => "\\t"
    case '\\' => "\\\\"
    case '"' => "\\\""
    case _ => [c]
  }

  function Escape(s: string): (r: string)
    ensures '\n' !in r
  {
    if s == "" then "" else EscapeChar(s[0]) + Escape(s[1..])
  }

  function PrintQuoted(value: string): string { "\"" + Escape(value) + "\"" }

  function PrintLine(a: Assignment): string { a.key + "=" + PrintQuoted(a.value) }

  function Print(assignments: seq<Assignment>): string {
    if assignments == [] then "" else PrintLine(assignments[0]) + "\n" + Print(assignments[1..])
  }

  // Later assignments replace earlier ones.
  function LastWins(assignments: seq<Assignment>, values: map<string, string>): map<string, string> {
    if assignments == [] then values
    else LastWins(assignments[1..], values[assignments[0].key := assignments[0].value])
  }

  predicate LastFor(assignments: seq<Assignment>, i: nat, k: string) {
    i < |assignments| && assignments[i].key == k && forall j :: i < j < |assignments| ==> assignments[j].key != k
  }

  predicate Assigns(assignments: seq<Assignment>, k: string) {
    exists i :: 0 <= i < |assignments| && assignments[i].key == k
  }

  lemma {:induction false} LastWinsMeans(assignments: seq<Assignment>, values: map<string, string>, k: string, i: nat)
    requires LastFor(assignments, i, k)
    ensures k in LastWins(assignments, values) && LastWins(assignments, values)[k] == assignments[i].value
  {
    var next := values[assignments[0].key := assignments[0].value];
    if i > 0 {
      LastWinsMeans(assignments[1..], next, k, i - 1);
    } else {
      UnassignedStays(assignments[1..], next, k);
    }
  }

  lemma {:induction false} UnassignedStays(assignments: seq<Assignment>, values: map<string, string>, k: string)
    requires !Assigns(assignments, k)
    ensures k in LastWins(assignments, values) <==> k in values
    ensures k in values ==> LastWins(assignments, values)[k] == values[k]
    decreases |assignments|
  {
    if assignments != [] {
      assert forall j :: 0 <= j < |assignments[1..]| ==> assignments[1..][j] == assignments[j + 1];
      assert assignments[0].key != k;
      UnassignedStays(assignments[1..], values[assignments[0].key := assignments[0].value], k);
    }
  }

  lemma DecodeEscaped(c: char)
    ensures |EscapeChar(c)| == 1 || |EscapeChar(c)| == 2
    ensures |EscapeChar(c)| == 1 ==> EscapeChar(c) == [c] && c != '"' && c != '\\'
    ensures |EscapeChar(c)| == 2 ==> EscapeChar(c)[0] == '\\' && Decoded(EscapeChar(c)[1]) == [c]
  {}

  // Reading back what was escaped gives the value and stops at the closing quote.
  lemma {:induction false} UnquoteEscape(raw: string, i: nat, v: string, tail: string)
    requires i <= |raw| && raw[i..] == Escape(v) + "\"" + tail
    ensures Unquote(raw, '"', i) == Closed(v, tail)
    decreases |v|
  {
    if v == "" {
      assert raw[i] == raw[i..][0];
      assert raw[i + 1..] == raw[i..][1..] == tail;
    } else {
      var e, rest := EscapeChar(v[0]), Escape(v[1..]) + "\"" + tail;
      assert raw[i..] == e + rest;
      DecodeEscaped(v[0]);
      UnquoteStep(raw, i, e, rest);
      UnquoteEscape(raw, i + |e|, v[1..], tail);
      assert [v[0]] + v[1..] == v;
    }
  }

  lemma UnquoteStep(raw: string, i: nat, e: string, rest: string)
    requires i <= |raw| && raw[i..] == e + rest && e != ""
    ensures raw[i] == e[0] && raw[i + |e|..] == rest
    ensures |e| == 2 ==> raw[i + 1] == e[1]
  {
    assert raw[i] == raw[i..][0];
    assert raw[i + |e|..] == raw[i..][|e|..];
    if |e| == 2 { assert raw[i + 1] == raw[i..][1]; }
  }

  // A single-quoted value is the text between the quotes.
  lemma {:induction false} UnquoteSingle(raw: string, i: nat, v: string, tail: string)
    requires i <= |raw| && raw[i..] == v + "'" + tail && '\'' !in v
    ensures Unquote(raw, '\'', i) == Closed(v, tail)
    decreases |v|
  {
    assert raw[i] == raw[i..][0];
    assert raw[i + 1..] == raw[i..][1..];
    if v != "" {
      UnquoteSingle(raw, i + 1, v[1..], tail);
      assert [v[0]] + v[1..] == v;
    }
  }

  // The three ways of writing a value: between double quotes with escapes, between single
  // quotes as it is, and bare.
  lemma DoubleQuotedValue(v: string)
    ensures ParseValue(PrintQuoted(v)) == Some(v)
  {
    var raw := PrintQuoted(v);
    assert raw[1..] == Escape(v) + "\"" + "";
    UnquoteEscape(raw, 1, v, "");
  }

  lemma SingleQuotedValue(v: string)
    ensures ParseValue("'" + v + "'") == Some(v) <==> '\'' !in v
  {
    hide TrimSpace, Cut;
    var raw := "'" + v + "'";
    EmptyIsTrimmed();
    if '\'' !in v {
      assert raw[1..] == v + "'" + "";
      UnquoteSingle(raw, 1, v, "");
    } else {
      var halves := Cut(v, '\'');
      CutStops(v, '\'');
      assert raw[1..] == halves.before + "'" + (halves.after + "'");
      UnquoteSingle(raw, 1, halves.before, halves.after + "'");
    }
  }

  lemma EmptyIsTrimmed()
    ensures TrimSpace("") == ""
  {}

  lemma CutStops(s: string, c: char)
    requires c in s
    ensures Cut(s, c).found && |Cut(s, c).before| < |s|
  {
    var r := Cut(s, c);
    assert r.found || s == r.before;
  }

  // A bare value must not start with a quote or hold the start of a comment.
  lemma BareValue(v: string)
    requires v == "" || !IsQuote(v[0])
    ensures ParseValue(v) == Some(v) <==> forall i :: 0 <= i < |v| ==> !StartsComment(v, i)
  {
    if v != "" { UnquotedIs(v, 0); }
  }

  lemma {:induction false} UnquotedIs(raw: string, i: nat)
    requires i <= |raw|
    ensures Unquoted(raw, i) == raw <==> forall k :: i <= k < |raw| ==> !StartsComment(raw, k)
    decreases |raw| - i
  {
    if i < |raw| && !StartsComment(raw, i) { UnquotedIs(raw, i + 1); }
  }

  lemma NameIsNotExported(key: string, tail: string)
    requires IsName(key)
    ensures Unexported(key + "=" + tail) == key + "=" + tail
  {
    hide TrimSpace;
    var line := key + "=" + tail;
    assert line[|key|] == '=';
    if |key| > 6 { assert IsNameChar(line[6]); }
  }

  lemma ParseNamed(key: string, raw: string)
    requires IsName(key)
    ensures ParseLine(key + "=" + raw) == ParseAssignment(Halves(key, raw, true))
  {
    assert (key + "=" + raw)[0] == key[0] && IsNameChar(key[0]);
    NameIsNotExported(key, raw);
    assert forall i :: 0 <= i < |key| ==> IsNameChar(key[i]);
    CutAt(key, '=', raw);
  }

  lemma ParsePrintedHalves(key: string, value: string)
    requires IsName(key)
    ensures ParseAssignment(Halves(key, PrintQuoted(value), true)) == Assign(key, value)
  {
    assert IsNameChar(key[0]) && IsNameChar(key[|key| - 1]);
    TrimTrimmed(key);
    TrimTrimmed(PrintQuoted(value));
    DoubleQuotedValue(value);
  }

  lemma LineShape(key: string, raw: string)
    requires IsName(key) && raw != "" && '\n' !in raw && !IsSpace(raw[|raw| - 1])
    ensures '\n' !in key + "=" + raw && Trimmed(key + "=" + raw)
  {
    var line := key + "=" + raw;
    assert forall i :: 0 <= i < |key| ==> IsNameChar(key[i]);
    assert line[0] == key[0] && line[|line| - 1] == raw[|raw| - 1];
  }

  lemma ParsePrinted(a: Assignment)
    requires IsName(a.key)
    ensures ParseLine(PrintLine(a)) == Assign(a.key, a.value)
  {
    ParseNamed(a.key, PrintQuoted(a.value));
    ParsePrintedHalves(a.key, a.value);
  }

  lemma {:induction false} LinesOf(line: string, rest: string)
    requires '\n' !in line
    ensures Lines(line + "\n" + rest) == [line] + Lines(rest)
  {
    if line == "" {
      assert (line + "\n" + rest)[1..] == rest;
    } else {
      assert (line + "\n" + rest)[1..] == line[1..] + "\n" + rest;
      LinesOf(line[1..], rest);
      assert [line[0]] + line[1..] == line;
    }
  }

  // The lines of a printed file.
  function Printed(assignments: seq<Assignment>): (r: seq<Line>)
    ensures |r| == |assignments| + 1 && r[|assignments|] == Blank
    ensures forall i :: 0 <= i < |assignments| ==> r[i] == Assign(assignments[i].key, assignments[i].value)
  {
    seq(|assignments|, i requires 0 <= i < |assignments| => Assign(assignments[i].key, assignments[i].value)) + [Blank]
  }

  lemma ParseAllFirst(line: string, lines: seq<string>)
    ensures ParseAll([line] + lines) == [ParseLine(TrimSpace(line))] + ParseAll(lines)
  {}

  lemma ParseFirst(a: Assignment, rest: string)
    requires IsName(a.key)
    ensures ParseAll(Lines(PrintLine(a) + "\n" + rest)) == [Assign(a.key, a.value)] + ParseAll(Lines(rest))
  {
    LineShape(a.key, PrintQuoted(a.value));
    TrimTrimmed(PrintLine(a));
    LinesOf(PrintLine(a), rest);
    ParseAllFirst(PrintLine(a), Lines(rest));
    ParsePrinted(a);
  }

  lemma ParseNothing()
    ensures ParseAll(Lines("")) == [Blank]
  {
    assert Lines("") == [""];
    assert TrimSpace("") == "";
  }

  lemma PrintedFirst(assignments: seq<Assignment>)
    requires assignments != []
    ensures Printed(assignments) == [Assign(assignments[0].key, assignments[0].value)] + Printed(assignments[1..])
  {}

  lemma {:induction false} ParsePrintedLines(assignments: seq<Assignment>)
    requires forall a :: a in assignments ==> IsName(a.key)
    ensures ParseAll(Lines(Print(assignments))) == Printed(assignments)
  {
    if assignments == [] {
      ParseNothing();
    } else {
      var a, rest := assignments[0], assignments[1..];
      ParseFirst(a, Print(rest));
      ParsePrintedLines(rest);
      PrintedFirst(assignments);
    }
  }

  lemma {:induction false} CollectPrinted(assignments: seq<Assignment>, i: nat, values: map<string, string>)
    requires i <= |assignments|
    ensures Collect(Printed(assignments), i, values) == Ok(LastWins(assignments[i..], values))
    decreases |assignments| - i
  {
    if i < |assignments| {
      var a := assignments[i];
      CollectPrinted(assignments, i + 1, values[a.key := a.value]);
      assert assignments[i..][1..] == assignments[i + 1..];
    } else {
      assert Collect(Printed(assignments), i + 1, values) == Ok(values);
    }
  }

  // Reading a printed file gives the assignments back, the last one of each name winning; it
  // is refused exactly when one of these values holds a NUL.
  lemma PrintedFileParses(assignments: seq<Assignment>)
    requires forall a :: a in assignments ==> IsName(a.key)
    ensures ParseFile(Print(assignments)) == Validated(Ok(LastWins(assignments, map[])))
    ensures ParseFile(Print(assignments)).Ok? <==>
              forall k :: k in LastWins(assignments, map[]) ==> '\0' !in LastWins(assignments, map[])[k]
  {
    NoByteOrderMark(assignments);
    ParsePrintedLines(assignments);
    CollectPrinted(assignments, 0, map[]);
    assert assignments[0..] == assignments;
    NamesOnly(assignments, map[]);
    NamesAreValid(LastWins(assignments, map[]));
  }

  lemma NoByteOrderMark(assignments: seq<Assignment>)
    requires forall a :: a in assignments ==> IsName(a.key)
    ensures TrimPrefix(Print(assignments), BYTE_ORDER_MARK) == Print(assignments)
  {
    var data := Print(assignments);
    if assignments != [] {
      assert data[0] == assignments[0].key[0] && IsNameChar(data[0]);
      assert BYTE_ORDER_MARK[0] == '\U{FEFF}';
    }
  }

  lemma NamesAreValid(values: map<string, string>)
    requires forall k :: k in values ==> IsName(k)
    ensures ValidEnvironment(values) <==> forall k :: k in values ==> '\0' !in values[k]
  {
    forall k | k in values ensures '=' !in k && '\0' !in k {
      assert forall i :: 0 <= i < |k| ==> IsNameChar(k[i]);
    }
  }

  lemma {:induction false} NamesOnly(assignments: seq<Assignment>, values: map<string, string>)
    requires forall a :: a in assignments ==> IsName(a.key)
    requires forall k :: k in values ==> IsName(k)
    ensures forall k :: k in LastWins(assignments, values) ==> IsName(k)
    decreases |assignments|
  {
    if assignments != [] { NamesOnly(assignments[1..], values[assignments[0].key := assignments[0].value]); }
  }

  lemma {:induction false} CollectsNames(lines: seq<Line>, i: nat, values: map<string, string>)
    requires i <= |lines| && (forall k :: k in values ==> IsName(k))
    requires forall j :: 0 <= j < |lines| && lines[j].Assign? ==> IsName(lines[j].key)
    ensures Collect(lines, i, values).Ok? ==> forall k :: k in Collect(lines, i, values).value ==> IsName(k)
    decreases |lines| - i
  {
    if i < |lines| {
      match lines[i]
      case Blank => CollectsNames(lines, i + 1, values);
      case Assign(k, v) => CollectsNames(lines, i + 1, values[k := v]);
      case NoAssignment =>
      case NoValue =>
    }
  }

  lemma ParsedNames(data: string)
    requires ParseFile(data).Ok?
    ensures forall k :: k in ParseFile(data).value ==> IsName(k) && '\0' !in ParseFile(data).value[k]
  {
    hide ParseLine, TrimSpace, TrimPrefix, Lines, Collect, IsName;
    var lines := Lines(TrimPrefix(data, BYTE_ORDER_MARK));
    forall i | 0 <= i < |lines| && ParseAll(lines)[i].Assign? ensures IsName(ParseAll(lines)[i].key) {
      AssignsName(TrimSpace(lines[i]));
    }
    CollectsNames(ParseAll(lines), 0, map[]);
  }

  lemma AssignsName(line: string)
    requires ParseLine(line).Assign?
    ensures IsName(ParseLine(line).key)
  {}

  // Whatever was accepted can be printed, in any order, and is read back unchanged.
  lemma AcceptedFilesReprint(data: string, assignments: seq<Assignment>)
    requires ParseFile(data).Ok? && LastWins(assignments, map[]) == ParseFile(data).value
    requires forall a :: a in assignments ==> a.key in ParseFile(data).value
    ensures ParseFile(Print(assignments)) == ParseFile(data)
  {
    ParsedNames(data);
    PrintedFileParses(assignments);
  }
}
