// Environment files as people write them: comments, indentation, `export`, bare and quoted values
// with comments behind them.  Whatever is written this way is read as what it says.

module EnvDocument {
  import opened Options
  import opened Text
  import opened EnvFile

  // White space at the end of a line, and a comment behind it.
  datatype Tail = Tail(space: string, comment: Option<string>)

  datatype Form = Double | Single | Bare

  // A line of a file.  `exported` is the white space behind the word `export`, if that is there,
  // `around` is the white space before and behind the equals sign, `tail` what follows the value.
  datatype Entry =
    | Empty(space: string)
    | Remark(space: string, text: string)
    | Setting(indent: string, exported: Option<string>, key: string, around: (string, string),
              form: Form, value: string, tail: Tail)

  function Quoting(form: Form, value: string): string {
    match form
    case Double => PrintQuoted(value)
    case Single => "'" + value + "'"
    case Bare => value
  }

  function Prefix(exported: Option<string>): string {
    match exported case None => "" case Some(gap) => "export" + gap
  }

  function Write(e: Entry): string {
    match e
    case Empty(space) => space
    case Remark(space, text) => space + "#" + text
    case Setting(indent, exported, key, around, form, value, tail) =>
      indent + (Prefix(exported) + (key + around.0 + "=" + (around.1 + (Quoting(form, value) + TailText(tail)))))
  }

  function TailText(tail: Tail): string { tail.space + Comment(tail.comment) }

  function Comment(comment: Option<string>): string {
    match comment case None => "" case Some(text) => "#" + text
  }

  predicate IsBlank(c: char) { c == ' ' || c == '\t' }

  // The comment of a bare value stands behind a blank.
  predicate BareEnding(value: string, tail: Tail) {
    tail.comment.Some? ==> if tail.space == "" then value == "" else IsBlank(tail.space[|tail.space| - 1])
  }

  predicate Writable(form: Form, value: string, tail: Tail) {
    match form
    case Double => true
    case Single => '\'' !in value
    case Bare =>
      && Trimmed(value) && (value == "" || !IsQuote(value[0])) && BareEnding(value, tail)
      && forall i :: 0 <= i < |value| ==> !StartsComment(value, i)
  }

  // After the word export comes a blank; without it, the name `export` must not be followed by one.
  predicate Exportable(exported: Option<string>, key: string, behind: string) {
    match exported
    case Some(gap) => gap != "" && IsBlank(gap[0]) && AllSpace(gap)
    case None => key == "export" ==> behind == "" || !IsBlank(behind[0])
  }

  predicate WellWritten(e: Entry) {
    '\n' !in Write(e) &&
    match e
    case Empty(space) => AllSpace(space)
    case Remark(space, _) => AllSpace(space)
    case Setting(indent, exported, key, around, form, value, tail) =>
      && AllSpace(indent) && IsName(key) && AllSpace(around.0) && AllSpace(around.1)
      && Exportable(exported, key, around.0) && Writable(form, value, tail) && AllSpace(tail.space)
  }

  // What a line says.
  function Says(e: Entry): Line {
    if e.Setting? then Assign(e.key, e.value) else Line.Blank
  }

  // Trimming ----------------------------------------------------------------------------------

  lemma {:induction false} TrimRightKeeps(a: string, b: string)
    requires a == "" || !IsSpace(a[|a| - 1])
    ensures TrimRight(a + b) == a + TrimRight(b)
  {
    if b == "" || !IsSpace(b[|b| - 1]) {
      assert a + b == "" || !IsSpace((a + b)[|a + b| - 1]);
    } else {
      assert (a + b)[..|a + b| - 1] == a + b[..|b| - 1];
      TrimRightKeeps(a, b[..|b| - 1]);
    }
  }

  lemma {:induction false} TrimRightOfSpace(s: string)
    requires AllSpace(s)
    ensures TrimRight(s) == ""
  {
    if s != "" { TrimRightOfSpace(s[..|s| - 1]); }
  }

  // Around text that starts with no white space trimming is that of its end.
  lemma TrimBehind(space: string, s: string)
    requires AllSpace(space) && (s == "" || !IsSpace(s[0]))
    ensures TrimSpace(space + s) == TrimRight(s)
  {
    TrimLeftSkips(space, s);
  }

  lemma TrimTwice(s: string)
    ensures TrimRight(TrimRight(s)) == TrimRight(s)
  {}

  // Values ------------------------------------------------------------------------------------

  // A comment without the white space at its end.
  function Shortened(comment: Option<string>): (r: string)
    ensures r == "" || r[0] == '#'
  {
    match comment case None => "" case Some(text) => "#" + TrimRight(text)
  }

  lemma CommentTrimmed(comment: Option<string>)
    ensures TrimRight(Comment(comment)) == Shortened(comment)
    ensures TrimRight(Shortened(comment)) == Shortened(comment)
  {
    if comment.Some? {
      TrimRightKeeps("#", comment.value);
      TrimRightKeeps("#", TrimRight(comment.value));
      TrimTwice(comment.value);
    }
  }

  // What is left of the end of a line: nothing, or the white space and the comment.
  function Ending(tail: Tail): string {
    if tail.comment.None? then "" else tail.space + Shortened(tail.comment)
  }

  lemma TailTrimmed(tail: Tail)
    requires AllSpace(tail.space)
    ensures TrimRight(TailText(tail)) == Ending(tail)
    ensures TrimSpace(Ending(tail)) == Shortened(tail.comment)
  {
    hide TrimSpace, TrimRight, TrimLeft, AllSpace;
    match tail.comment
    case None =>
      assert TailText(tail) == tail.space;
      TrimRightOfSpace(tail.space);
      EmptyIsTrimmed();
    case Some(text) =>
      assert TailText(tail) == (tail.space + "#") + text;
      TrimRightKeeps(tail.space + "#", text);
      assert Ending(tail) == (tail.space + "#") + TrimRight(text);
      TrimBehind(tail.space, Shortened(tail.comment));
      CommentTrimmed(tail.comment);
  }

  lemma QuotedEnds(form: Form, value: string, rest: string)
    requires form == Double || (form == Single && '\'' !in value)
    ensures var raw := Quoting(form, value) + rest;
      raw != "" && IsQuote(raw[0]) && Unquote(raw, raw[0], 1) == Closed(value, rest)
  {
    if form == Double { DoubleEnds(value, rest); } else { SingleEnds(value, rest); }
  }

  lemma DoubleEnds(value: string, rest: string)
    ensures var raw := PrintQuoted(value) + rest; raw[0] == '"' && Unquote(raw, '"', 1) == Closed(value, rest)
  {
    hide Escape, Unquote;
    var raw := PrintQuoted(value) + rest;
    assert raw[1..] == Escape(value) + "\"" + rest;
    UnquoteEscape(raw, 1, value, rest);
  }

  lemma SingleEnds(value: string, rest: string)
    requires '\'' !in value
    ensures var raw := "'" + value + "'" + rest; raw[0] == '\'' && Unquote(raw, '\'', 1) == Closed(value, rest)
  {
    hide Unquote;
    var raw := "'" + value + "'" + rest;
    assert raw[1..] == value + "'" + rest;
    UnquoteSingle(raw, 1, value, rest);
  }

  lemma QuotedIsRead(form: Form, value: string, tail: Tail)
    requires form != Bare && Writable(form, value, tail) && AllSpace(tail.space)
    ensures ParseValue(Quoting(form, value) + Ending(tail)) == Some(value)
  {
    hide TrimSpace, TrimRight, TrimLeft, AllSpace, Unquote, Ending, Quoting;
    TailTrimmed(tail);
    QuotedEnds(form, value, Ending(tail));
  }

  lemma {:induction false} UnquotedUpTo(raw: string, i: nat, n: nat)
    requires i <= n < |raw| && StartsComment(raw, n) && forall k :: i <= k < n ==> !StartsComment(raw, k)
    ensures Unquoted(raw, i) == TrimSpace(raw[..n])
    decreases n - i
  {
    if i < n { UnquotedUpTo(raw, i + 1, n); }
  }

  // The comment of a bare value is the first that starts in what is written.
  lemma CommentStarts(value: string, tail: Tail)
    requires Writable(Bare, value, tail) && AllSpace(tail.space) && tail.comment.Some?
    ensures var raw, n := value + Ending(tail), |value| + |tail.space|;
      && n < |raw| && raw[..n] == value + tail.space && StartsComment(raw, n)
      && forall k :: 0 <= k < n ==> !StartsComment(raw, k)
  {
    hide TrimSpace, TrimRight;
    var raw, n := value + Ending(tail), |value| + |tail.space|;
    forall k | 0 <= k < n ensures !StartsComment(raw, k) {
      if k < |value| {
        assert !StartsComment(value, k) && raw[k] == value[k];
      } else {
        assert raw[k] == tail.space[k - |value|];
      }
    }
    if tail.space != "" { assert raw[n - 1] == tail.space[|tail.space| - 1]; }
  }

  lemma BareIsRead(value: string, tail: Tail)
    requires value != "" && Writable(Bare, value, tail) && AllSpace(tail.space)
    ensures ParseValue(value + Ending(tail)) == Some(value)
  {
    hide TrimSpace, TrimRight, TrimLeft, Unquoted;
    var raw := value + Ending(tail);
    if tail.comment.None? {
      assert raw == value;
      BareValue(value);
    } else {
      CommentStarts(value, tail);
      UnquotedUpTo(raw, 0, |value| + |tail.space|);
      assert "" + value + tail.space == value + tail.space;
      TrimSpaceMeans("", value, tail.space);
      assert raw[0] == value[0];
    }
  }

  lemma ValueIsRead(form: Form, value: string, tail: Tail, space: string)
    requires Writable(form, value, tail) && AllSpace(tail.space) && AllSpace(space)
    ensures ParseValue(TrimSpace(space + (Quoting(form, value) + TailText(tail)))) == Some(value)
  {
    hide TrimSpace, TrimRight, TrimLeft, ParseValue, AllSpace;
    var written := Quoting(form, value);
    if written != "" {
      TrimBehind(space, written + TailText(tail));
      TrimRightKeeps(written, TailText(tail));
      TailTrimmed(tail);
      if form == Bare { BareIsRead(value, tail); } else { QuotedIsRead(form, value, tail); }
    } else {
      assert written + TailText(tail) == TailText(tail);
      NothingIsRead(tail, space);
    }
  }

  lemma NothingIsRead(tail: Tail, space: string)
    requires AllSpace(tail.space) && AllSpace(space)
    ensures ParseValue(TrimSpace(space + TailText(tail))) == Some("")
  {
    hide TrimSpace, TrimRight, TrimLeft;
    var c := Comment(tail.comment);
    assert space + TailText(tail) == (space + tail.space) + c;
    TrimBehind(space + tail.space, c);
    CommentTrimmed(tail.comment);
    var raw := Shortened(tail.comment);
    if raw != "" {
      assert StartsComment(raw, 0) && raw[..0] == "";
      EmptyIsTrimmed();
    }
  }

  // Lines -------------------------------------------------------------------------------------

  // A setting from its name on, without the white space at its end.
  function Bared(key: string, behind: string, rest: string): string { key + behind + "=" + TrimRight(rest) }

  lemma NameStarts(key: string)
    requires IsName(key)
    ensures IsNameChar(key[0]) && !IsSpace(key[0]) && key[0] != '#' && '=' !in key && Trimmed(key)
  {
    assert IsNameChar(key[|key| - 1]);
    forall i | 0 <= i < |key| ensures key[i] != '=' { assert IsNameChar(key[i]); }
  }

  lemma BaredIsRead(key: string, behind: string, rest: string)
    requires IsName(key) && AllSpace(behind)
    ensures ParseAssignment(Cut(Bared(key, behind, rest), '=')) ==
      match ParseValue(TrimSpace(rest)) case None => NoValue case Some(v) => Assign(key, v)
  {
    hide TrimSpace, TrimRight, TrimLeft, ParseValue, IsName;
    NameStarts(key);
    assert '=' !in key + behind by { assert forall i :: 0 <= i < |behind| ==> IsSpace(behind[i]); }
    assert Bared(key, behind, rest) == key + behind + ['='] + TrimRight(rest);
    CutAt(key + behind, '=', TrimRight(rest));
    assert "" + key + behind == key + behind;
    TrimSpaceMeans("", key, behind);
    TrimOfTrimmed(rest);
  }

  lemma TrimOfTrimmed(s: string)
    ensures TrimSpace(TrimRight(s)) == TrimSpace(s)
  {
    var left := s[..|s| - |TrimLeft(s)|];
    LeadingIsSpace(s);
    assert s == left + TrimLeft(s);
    if TrimLeft(s) == "" {
      assert s == left;
      TrimRightOfSpace(s);
      TrimLeftSkips(s, "");
      assert s + "" == s;
    } else {
      var rest := TrimLeft(s);
      TrimRightBehindSpace(left, rest);
      TrimRightKeepsFirst(rest);
      TrimBehind(left, TrimRight(rest));
      TrimTwice(rest);
    }
  }

  lemma {:induction false} LeadingIsSpace(s: string)
    ensures AllSpace(s[..|s| - |TrimLeft(s)|])
  {
    if s != "" && IsSpace(s[0]) {
      LeadingIsSpace(s[1..]);
      assert forall i :: 0 < i < |s| ==> s[i] == s[1..][i - 1];
    }
  }

  lemma {:induction false} TrimRightBehindSpace(space: string, s: string)
    requires s != "" && !IsSpace(s[0])
    ensures TrimRight(space + s) == space + TrimRight(s)
  {
    if IsSpace(s[|s| - 1]) {
      assert (space + s)[..|space + s| - 1] == space + s[..|s| - 1];
      TrimRightBehindSpace(space, s[..|s| - 1]);
    } else {
      assert (space + s)[|space + s| - 1] == s[|s| - 1];
    }
  }

  lemma {:induction false} TrimRightKeepsFirst(s: string)
    requires s != "" && !IsSpace(s[0])
    ensures TrimRight(s) != "" && TrimRight(s)[0] == s[0]
  {
    if IsSpace(s[|s| - 1]) { TrimRightKeepsFirst(s[..|s| - 1]); }
  }

  // A setting without `export` is not taken for one with it, and the other way round.
  lemma ExportIsTaken(exported: Option<string>, key: string, behind: string, rest: string)
    requires IsName(key) && AllSpace(behind) && Exportable(exported, key, behind)
    ensures Unexported(Prefix(exported) + Bared(key, behind, rest)) == Bared(key, behind, rest)
  {
    hide TrimRight, TrimLeft, TrimSpace, AllSpace, Unexported;
    NameStarts(key);
    var bared := Bared(key, behind, rest);
    match exported
    case None =>
      assert Prefix(exported) + bared == bared;
      NotExported(key, behind, bared[|key + behind|..]);
      assert key + behind + bared[|key + behind|..] == bared;
    case Some(gap) =>
      BaredIsTrimmed(key, behind, rest);
      ExportIsSkipped(gap, bared);
  }

  // The word export and the white space behind it are skipped.
  lemma ExportIsSkipped(gap: string, rest: string)
    requires gap != "" && IsBlank(gap[0]) && AllSpace(gap) && rest != "" && !IsSpace(rest[0])
    ensures Unexported("export" + gap + rest) == TrimRight(rest)
  {
    hide TrimRight, TrimLeft, TrimSpace, AllSpace;
    var line := "export" + gap + rest;
    assert line[..7] == "export" + [gap[0]] && line[7..] == gap[1..] + rest;
    assert "export" + " " == "export " && "export" + "\t" == "export\t";
    TailOfSpace(gap);
    TrimBehind(gap[1..], rest);
  }

  lemma TailOfSpace(s: string)
    requires AllSpace(s) && s != ""
    ensures AllSpace(s[1..])
  {}

  lemma BaredIsTrimmed(key: string, behind: string, rest: string)
    requires IsName(key)
    ensures TrimRight(Bared(key, behind, rest)) == Bared(key, behind, rest)
    ensures !IsSpace(Bared(key, behind, rest)[0])
  {
    hide TrimRight;
    NameStarts(key);
    TrimRightKeeps(key + behind + "=", TrimRight(rest));
    TrimTwice(rest);
  }

  lemma NotExported(key: string, behind: string, rest: string)
    requires IsName(key) && (key == "export" ==> behind == "" || !IsBlank(behind[0]))
    requires rest != "" && rest[0] == '=' && AllSpace(behind)
    ensures Unexported(key + behind + rest) == key + behind + rest
  {
    hide TrimSpace;
    var line := key + behind + rest;
    if "export " <= line || "export\t" <= line {
      assert line[..6] == "export";
      ExportIsName(key, behind, rest);
    }
  }

  // A line that starts like an exported one has `export` for its name.
  lemma ExportIsName(key: string, behind: string, rest: string)
    requires IsName(key) && AllSpace(behind) && rest != "" && rest[0] == '='
    requires var line := key + behind + rest; |line| > 6 && line[..6] == "export" && IsBlank(line[6])
    ensures key == "export" && behind != "" && IsBlank(behind[0])
  {
    var line := key + behind + rest;
    assert forall i :: 0 <= i < |key| ==> IsNameChar(key[i]) && line[i] == key[i];
    assert line[|key|] == if behind == "" then '=' else behind[0];
    assert !IsNameChar(line[|key|]) && !IsNameChar(line[6]);
    assert forall i :: 0 <= i < 6 ==> line[i] == "export"[i] && IsNameChar("export"[i]);
    assert |key| == 6 && key == line[..6];
  }

  lemma SettingIsRead(e: Entry)
    requires e.Setting? && WellWritten(e)
    ensures ParseLine(TrimSpace(Write(e))) == Says(e)
  {
    hide TrimSpace, TrimRight, TrimLeft, AllSpace, IsName, Writable, Exportable;
    hide Unexported, Cut, ParseAssignment, ParseValue;
    var rest := e.around.1 + (Quoting(e.form, e.value) + TailText(e.tail));
    var bared := Bared(e.key, e.around.0, rest);
    SettingIsTrimmed(e, rest);
    ExportIsTaken(e.exported, e.key, e.around.0, rest);
    BaredIsRead(e.key, e.around.0, rest);
    ValueIsRead(e.form, e.value, e.tail, e.around.1);
    SettingStarts(e, bared);
  }

  lemma SettingStarts(e: Entry, bared: string)
    requires e.Setting? && IsName(e.key) && e.key <= bared
    ensures Prefix(e.exported) + bared != "" && (Prefix(e.exported) + bared)[0] != '#'
    ensures !IsSpace((Prefix(e.exported) + bared)[0])
  {
    NameStarts(e.key);
    if e.exported.Some? { assert (Prefix(e.exported) + bared)[0] == 'e'; }
  }

  lemma SettingIsTrimmed(e: Entry, rest: string)
    requires WellWritten(e) && e.Setting? && rest == e.around.1 + (Quoting(e.form, e.value) + TailText(e.tail))
    ensures TrimSpace(Write(e)) == Prefix(e.exported) + Bared(e.key, e.around.0, rest)
  {
    hide TrimSpace, TrimRight, TrimLeft, AllSpace, Writable, Exportable;
    var start := Prefix(e.exported) + (e.key + e.around.0 + "=");
    var line := Prefix(e.exported) + (e.key + e.around.0 + "=" + rest);
    assert line == start + rest;
    assert Write(e) == e.indent + line;
    SettingStarts(e, e.key + e.around.0 + "=" + rest);
    TrimBehind(e.indent, line);
    TrimRightKeeps(start, rest);
    assert start + TrimRight(rest) == Prefix(e.exported) + Bared(e.key, e.around.0, rest);
  }

  lemma LineIsRead(e: Entry)
    requires WellWritten(e)
    ensures ParseLine(TrimSpace(Write(e))) == Says(e)
  {
    match e
    case Empty(space) =>
      assert space + "" == space;
      TrimLeftSkips(space, "");
    case Remark(space, text) =>
      assert space + "#" + text == space + ("#" + text);
      TrimBehind(space, "#" + text);
      TrimRightKeepsFirst("#" + text);
    case Setting(_, _, _, _, _, _, _) =>
      SettingIsRead(e);
  }

  // Files -------------------------------------------------------------------------------------

  function WriteAll(entries: seq<Entry>): string
    requires entries != []
  {
    if |entries| == 1 then Write(entries[0]) else Write(entries[0]) + "\n" + WriteAll(entries[1..])
  }

  function Settings(entries: seq<Entry>): seq<Assignment> {
    if entries == [] then [] else
    if entries[0].Setting? then [Assignment(entries[0].key, entries[0].value)] + Settings(entries[1..])
    else Settings(entries[1..])
  }

  function SayAll(entries: seq<Entry>): (r: seq<Line>)
    ensures |r| == |entries| && forall i :: 0 <= i < |entries| ==> r[i] == Says(entries[i])
  {
    seq(|entries|, i requires 0 <= i < |entries| => Says(entries[i]))
  }

  lemma {:induction false} OneLine(line: string)
    requires '\n' !in line
    ensures Lines(line) == [line]
  {
    if line != "" {
      OneLine(line[1..]);
      assert [line[0]] + line[1..] == line;
    }
  }

  lemma {:induction false} LinesAreRead(entries: seq<Entry>)
    requires entries != [] && forall e :: e in entries ==> WellWritten(e)
    ensures ParseAll(Lines(WriteAll(entries))) == SayAll(entries)
  {
    hide WellWritten, Write, ParseLine, TrimSpace, Says;
    var first := Write(entries[0]);
    LineIsRead(entries[0]);
    OnOneLine(entries[0]);
    if |entries| == 1 {
      OneLine(first);
    } else {
      LinesOf(first, WriteAll(entries[1..]));
      ParseAllFirst(first, Lines(WriteAll(entries[1..])));
      LinesAreRead(entries[1..]);
    }
  }

  lemma OnOneLine(e: Entry)
    requires WellWritten(e)
    ensures '\n' !in Write(e)
  {}

  lemma {:induction false} CollectSaid(entries: seq<Entry>, i: nat, values: map<string, string>)
    requires i <= |entries|
    ensures Collect(SayAll(entries), i, values) == Ok(LastWins(Settings(entries[i..]), values))
    decreases |entries| - i
  {
    if i < |entries| {
      var e := entries[i];
      assert entries[i..][1..] == entries[i + 1..];
      if e.Setting? {
        CollectSaid(entries, i + 1, values[e.key := e.value]);
        assert Settings(entries[i..])[1..] == Settings(entries[i + 1..]);
      } else {
        CollectSaid(entries, i + 1, values);
      }
    }
  }

  lemma NoMarkAhead(entries: seq<Entry>)
    requires entries != [] && WellWritten(entries[0])
    ensures !(BYTE_ORDER_MARK <= WriteAll(entries))
  {
    var data := WriteAll(entries);
    assert BYTE_ORDER_MARK[0] == '\U{FEFF}';
    if Write(entries[0]) != "" {
      FirstIsNoMark(entries[0]);
      assert data[0] == Write(entries[0])[0];
    } else if |entries| > 1 {
      assert data[0] == '\n';
    }
  }

  lemma FirstIsNoMark(e: Entry)
    requires WellWritten(e) && Write(e) != ""
    ensures Write(e)[0] != '\U{FEFF}'
  {
    var first := Write(e)[0];
    match e
    case Empty(space) => assert IsSpace(space[0]);
    case Remark(space, text) => assert IsSpace(first) || first == '#';
    case Setting(indent, exported, key, around, form, value, tail) =>
      NameStarts(key);
      if indent != "" {
        assert first == indent[0];
      } else {
        assert first == if exported.Some? then 'e' else key[0];
      }
  }

  // Reading a file that is written this way, with or without a byte order mark, gives what its
  // settings say, the last one of each name winning; it is refused exactly when one of these
  // values holds a NUL.
  lemma WrittenFileParses(entries: seq<Entry>, mark: bool)
    requires entries != [] && forall e :: e in entries ==> WellWritten(e)
    ensures var values := LastWins(Settings(entries), map[]);
      ParseFile((if mark then BYTE_ORDER_MARK else "") + WriteAll(entries)) ==
      if forall k :: k in values ==> '\0' !in values[k] then Ok(values) else Err(InvalidEnvironment)
  {
    hide WellWritten, LastWins, Settings, WriteAll, Lines, ParseAll, Collect, SayAll;
    var data, values := WriteAll(entries), LastWins(Settings(entries), map[]);
    MarkIsTaken(entries, mark);
    LinesAreRead(entries);
    CollectSaid(entries, 0, map[]);
    assert entries[0..] == entries;
    SettingsAreValid(entries);
  }

  lemma MarkIsTaken(entries: seq<Entry>, mark: bool)
    requires entries != [] && WellWritten(entries[0])
    ensures TrimPrefix((if mark then BYTE_ORDER_MARK else "") + WriteAll(entries), BYTE_ORDER_MARK) == WriteAll(entries)
  {
    hide WellWritten, WriteAll;
    var data := WriteAll(entries);
    NoMarkAhead(entries);
    assert "" + data == data && (BYTE_ORDER_MARK + data)[|BYTE_ORDER_MARK|..] == data;
  }

  lemma SettingsAreValid(entries: seq<Entry>)
    requires forall e :: e in entries ==> WellWritten(e)
    ensures var values := LastWins(Settings(entries), map[]);
      ValidEnvironment(values) <==> forall k :: k in values ==> '\0' !in values[k]
  {
    hide WellWritten, LastWins, Settings, IsName;
    SettingsHaveNames(entries);
    NamesOnly(Settings(entries), map[]);
    NamesAreValid(LastWins(Settings(entries), map[]));
  }

  lemma {:induction false} SettingsHaveNames(entries: seq<Entry>)
    requires forall e :: e in entries ==> WellWritten(e)
    ensures forall a :: a in Settings(entries) ==> IsName(a.key)
  {
    if entries != [] {
      SettingsHaveNames(entries[1..]);
      if entries[0].Setting? { assert WellWritten(entries[0]); }
    }
  }

  // What is refused ---------------------------------------------------------------------------

  // A line that is not blank, is no comment and has no equals sign is no assignment.
  lemma NoEqualsSign(line: string)
    requires line != "" && line[0] != '#' && '=' !in line && Trimmed(line)
    ensures ParseLine(line) == NoAssignment
  {
    hide TrimSpace, TrimLeft, TrimRight, Cut;
    var body := Unexported(line);
    if body != line { PartOf(line[7..]); }
    assert '=' !in body && !Cut(body, '=').found;
  }

  // Nor is one whose name is `export` with a blank behind it, which is taken for the word.
  lemma ExportNeedsAName(gap: string, rest: string)
    requires gap != "" && IsBlank(gap[0]) && AllSpace(gap) && rest != "" && rest[0] == '='
    ensures ParseLine("export" + gap + rest) == NoAssignment
  {
    hide TrimRight, TrimLeft, TrimSpace, AllSpace, Unexported;
    ExportIsSkipped(gap, rest);
    TrimRightKeepsFirst(rest);
    assert Cut(TrimRight(rest), '=').before == "" && ("export" + gap + rest)[0] == 'e';
    EmptyIsTrimmed();
  }

  // Behind a quoted value there may only be a comment, and a quote must be closed.
  lemma TrailingTextIsRefused(form: Form, value: string, rest: string)
    requires form == Double || (form == Single && '\'' !in value)
    requires TrimSpace(rest) != "" && TrimSpace(rest)[0] != '#'
    ensures ParseValue(Quoting(form, value) + rest) == None
  {
    hide TrimSpace, Unquote, Quoting;
    QuotedEnds(form, value, rest);
  }

  lemma UnclosedIsRefused(value: string)
    ensures ParseValue("\"" + Escape(value)) == None
    ensures '\'' !in value ==> ParseValue("'" + value) == None
  {
    var double, single := "\"" + Escape(value), "'" + value;
    UnclosedDouble(double, 1, value);
    if '\'' !in value { UnclosedSingle(single, 1); }
  }

  lemma {:induction false} UnclosedDouble(raw: string, i: nat, v: string)
    requires i <= |raw| && raw[i..] == Escape(v)
    ensures Unquote(raw, '"', i) == Unclosed
    decreases |v|
  {
    if v != "" {
      var e, rest := EscapeChar(v[0]), Escape(v[1..]);
      assert raw[i..] == e + rest;
      DecodeEscaped(v[0]);
      UnquoteStep(raw, i, e, rest);
      UnclosedDouble(raw, i + |e|, v[1..]);
    }
  }

  lemma {:induction false} UnclosedSingle(raw: string, i: nat)
    requires i <= |raw| && '\'' !in raw[i..]
    ensures Unquote(raw, '\'', i) == Unclosed
    decreases |raw| - i
  {
    if i < |raw| {
      assert raw[i] == raw[i..][0];
      assert raw[i + 1..] == raw[i..][1..];
      UnclosedSingle(raw, i + 1);
    }
  }

  lemma PartOf(s: string)
    ensures forall c :: c in TrimSpace(s) ==> c in s
  {
    forall c | c in TrimSpace(s) ensures c in s {
      assert c in TrimLeft(s);
    }
  }

  // Reading stops at the first such line, and tells its number, counted from one.
  lemma BadLineIsTold(entries: seq<Entry>, line: string, rest: string)
    requires entries != [] && (forall e :: e in entries ==> WellWritten(e)) && '\n' !in line
    ensures ParseLine(TrimSpace(line)) == NoAssignment ==>
              ParseFile(WriteAll(entries) + "\n" + line + "\n" + rest) == Err(BadAssignment(|entries| + 1))
    ensures ParseLine(TrimSpace(line)) == NoValue ==>
              ParseFile(WriteAll(entries) + "\n" + line + "\n" + rest) == Err(BadValue(|entries| + 1))
  {
    hide WellWritten, ParseLine, TrimSpace, ParseFile, WriteAll, Lines, Collect, ParseAll;
    var data, behind := WriteAll(entries), line + "\n" + rest;
    assert data + "\n" + line + "\n" + rest == data + "\n" + behind;
    FileUpTo(entries, behind);
    LinesOf(line, rest);
    ParseAllFirst(line, Lines(rest));
    CollectUpTo(entries, ParseAll(Lines(behind)), 0, map[]);
  }

  lemma FileUpTo(entries: seq<Entry>, behind: string)
    requires entries != [] && forall e :: e in entries ==> WellWritten(e)
    ensures ParseFile(WriteAll(entries) + "\n" + behind) ==
            Validated(Collect(SayAll(entries) + ParseAll(Lines(behind)), 0, map[]))
  {
    hide WellWritten, ParseLine, TrimSpace, WriteAll, Lines, Collect, ParseAll;
    assert WriteAll(entries) + "\n" + behind == WriteAll(entries) + ("\n" + behind);
    NoMarkAheadOf(entries, "\n" + behind);
    LinesBehind(entries, behind);
  }

  lemma NoMarkAheadOf(entries: seq<Entry>, behind: string)
    requires entries != [] && WellWritten(entries[0]) && behind != "" && behind[0] == '\n'
    ensures !(BYTE_ORDER_MARK <= WriteAll(entries) + behind)
  {
    var data := WriteAll(entries);
    NoMarkAhead(entries);
    assert BYTE_ORDER_MARK[0] == '\U{FEFF}' && |BYTE_ORDER_MARK| == 1;
    if data != "" { assert (data + behind)[0] == data[0] && data[..1] == [data[0]]; }
  }

  lemma {:induction false} LinesBehind(entries: seq<Entry>, behind: string)
    requires entries != [] && forall e :: e in entries ==> WellWritten(e)
    ensures ParseAll(Lines(WriteAll(entries) + "\n" + behind)) == SayAll(entries) + ParseAll(Lines(behind))
  {
    hide WellWritten, Write, ParseLine, TrimSpace, Says, Lines, ParseAll;
    var first := Write(entries[0]);
    LineIsRead(entries[0]);
    OnOneLine(entries[0]);
    SayFirst(entries);
    if |entries| == 1 {
      LinesOf(first, behind);
      ParseAllFirst(first, Lines(behind));
    } else {
      var rest := WriteAll(entries[1..]) + "\n" + behind;
      assert WriteAll(entries) + "\n" + behind == first + "\n" + rest;
      LinesOf(first, rest);
      ParseAllFirst(first, Lines(rest));
      LinesBehind(entries[1..], behind);
      assert [Says(entries[0])] + (SayAll(entries[1..]) + ParseAll(Lines(behind))) ==
             SayAll(entries) + ParseAll(Lines(behind));
    }
  }

  lemma SayFirst(entries: seq<Entry>)
    requires entries != []
    ensures SayAll(entries) == [Says(entries[0])] + SayAll(entries[1..])
  {}

  lemma {:induction false} CollectUpTo(entries: seq<Entry>, rest: seq<Line>, i: nat, values: map<string, string>)
    requires i <= |entries| && rest != []
    ensures rest[0] == NoAssignment ==> Collect(SayAll(entries) + rest, i, values) == Err(BadAssignment(|entries| + 1))
    ensures rest[0] == NoValue ==> Collect(SayAll(entries) + rest, i, values) == Err(BadValue(|entries| + 1))
    decreases |entries| - i
  {
    var lines := SayAll(entries) + rest;
    if i < |entries| {
      var e := entries[i];
      assert lines[i] == Says(e);
      CollectUpTo(entries, rest, i + 1, if e.Setting? then values[e.key := e.value] else values);
    } else {
      assert lines[i] == rest[0];
    }
  }
}
