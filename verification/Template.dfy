// interpolateEnv of internal/config/environment.go: {{NAME}} and {{NAME:default}} in a value.

module Template {
  import opened Maps
  import opened Options
  import EnvFile

  datatype Error = Unterminated | InvalidName | NotSet(name: string)

  // The first place where c stands twice in a row.
  function FindPair(s: string, c: char): (k: Option<nat>)
    ensures k.Some? ==> k.value + 1 < |s|
  {
    if |s| < 2 then None
    else if s[0] == s[1] == c then Some(0)
    else match FindPair(s[1..], c) case None => None case Some(k) => Some(k + 1)
  }

  lemma {:induction false} FindPairMeans(s: string, c: char)
    ensures match FindPair(s, c)
      case None => !HasPair(s, c)
      case Some(k) => s[k] == s[k + 1] == c && forall i :: 0 <= i < k ==> !(s[i] == s[i + 1] == c)
  {
    if |s| >= 2 && !(s[0] == s[1] == c) {
      FindPairMeans(s[1..], c);
      assert forall i :: 0 < i < |s| ==> s[1..][i - 1] == s[i];
    }
  }

  predicate HasPair(s: string, c: char) { exists i :: 0 <= i < |s| - 1 && s[i] == s[i + 1] == c }

  predicate EndsIn(s: string, c: char) { s != "" && s[|s| - 1] == c }

  // One turn of the loop: the text before the next reference, the reference, and the rest.
  datatype Turn = End | Bad(error: Error) | Found(lead: string, name: string, fallback: Option<string>, rest: string)

  function Next(value: string): (t: Turn)
    ensures t.Found? ==> |t.rest| < |value|
  {
    match FindPair(value, '{')
    case None => End
    case Some(start) =>
      var inside := value[start + 2..];
      match FindPair(inside, '}')
      case None => Bad(Unterminated)
      case Some(end) =>
        Named(value[..start], inside[..end], inside[end + 2..])
  }

  function Named(lead: string, inner: string, rest: string): Turn {
    var cut := EnvFile.Cut(inner, ':');
    if !EnvFile.IsName(cut.before) then Bad(InvalidName)
    else Found(lead, cut.before, if cut.found then Some(cut.after) else None, rest)
  }

  function Lookup(name: string, fallback: Option<string>, base: map<string, string>): Result<string, Error> {
    if name in base then Ok(base[name])
    else if fallback.Some? then Ok(fallback.value)
    else Err(NotSet(name))
  }

  function Prepend(text: string, r: Result<string, Error>): Result<string, Error> {
    match r case Ok(v) => Ok(text + v) case Err(e) => Err(e)
  }

  function Interpolated(value: string, base: map<string, string>): Result<string, Error>
    decreases |value|
  {
    match Next(value)
    case End => Ok(value)
    case Bad(e) => Err(e)
    case Found(lead, name, fallback, rest) =>
      match Lookup(name, fallback, base)
      case Err(e) => Err(e)
      case Ok(v) => Prepend(lead + v, Interpolated(rest, base))
  }

  method InterpolateEnv(template: string, base: map<string, string>) returns (r: Result<string, Error>)
    ensures r == Interpolated(template, base)
  {
    hide EnvFile.IsName, EnvFile.Cut;
    var value, out := template, "";
    PrependNothing(Interpolated(value, base));
    while true
      invariant Interpolated(template, base) == Prepend(out, Interpolated(value, base))
      decreases |value|
    {
      ghost var before, whole := out, value;
      var start := FindPair(value, '{');
      if start.None? { return Ok(out + value); }
      out := out + value[..start.value];
      value := value[start.value + 2..];
      var end := FindPair(value, '}');
      if end.None? { return Err(Unterminated); }
      var cut := EnvFile.Cut(value[..end.value], ':');
      var replacement := Replacement(cut, base);
      if replacement.Err? { return Err(replacement.error); }
      out := out + replacement.value;
      value := value[end.value + 2..];
      TurnTaken(Interpolated(template, base), before, whole, replacement.value, base, out);
    }
  }

  lemma TurnTaken(whole: Result<string, Error>, before: string, value: string, v: string,
                  base: map<string, string>, out: string)
    requires Next(value).Found? && whole == Prepend(before, Interpolated(value, base))
    requires Lookup(Next(value).name, Next(value).fallback, base) == Ok(v) && out == before + Next(value).lead + v
    ensures whole == Prepend(out, Interpolated(Next(value).rest, base))
  {
    PrependPrepend(before, Next(value).lead + v, Interpolated(Next(value).rest, base));
    assert before + (Next(value).lead + v) == out;
  }

  method Replacement(cut: EnvFile.Halves, base: map<string, string>) returns (r: Result<string, Error>)
    ensures !EnvFile.IsName(cut.before) ==> r == Err(InvalidName)
    ensures EnvFile.IsName(cut.before) ==> r == Lookup(cut.before, if cut.found then Some(cut.after) else None, base)
  {
    if !EnvFile.IsName(cut.before) { return Err(InvalidName); }
    if cut.before in base { return Ok(base[cut.before]); }
    if !cut.found { return Err(NotSet(cut.before)); }
    r := Ok(cut.after);
  }

  lemma PrependNothing(r: Result<string, Error>)
    ensures Prepend("", r) == r
  {
    if r.Ok? { assert "" + r.value == r.value; }
  }

  lemma PrependPrepend(a: string, b: string, r: Result<string, Error>)
    ensures Prepend(a, Prepend(b, r)) == Prepend(a + b, r)
  {
    if r.Ok? { assert a + (b + r.value) == (a + b) + r.value; }
  }

  // A template is text with references in it.
  datatype Part = Literal(text: string) | Reference(name: string, fallback: Option<string>)

  function Inside(name: string, fallback: Option<string>): string {
    match fallback case None => name case Some(d) => name + ":" + d
  }

  function RenderPart(p: Part): string {
    match p
    case Literal(text) => text
    case Reference(name, fallback) => "{{" + Inside(name, fallback) + "}}"
  }

  function Render(parts: seq<Part>): string {
    if parts == [] then "" else RenderPart(parts[0]) + Render(parts[1..])
  }

  // Literals open no reference, by themselves or with what follows, and defaults close none.
  predicate PlainReference(name: string, fallback: Option<string>) {
    EnvFile.IsName(name) && (fallback.Some? ==> !HasPair(fallback.value, '}') && !EndsIn(fallback.value, '}'))
  }

  predicate PlainPart(p: Part, last: bool) {
    match p
    case Literal(text) => !HasPair(text, '{') && (last || !EndsIn(text, '{'))
    case Reference(name, fallback) => PlainReference(name, fallback)
  }

  predicate Plain(parts: seq<Part>) {
    parts == [] || (PlainPart(parts[0], |parts| == 1) && Plain(parts[1..]))
  }

  // The values of the parts one after the other.
  function Evaluate(parts: seq<Part>, base: map<string, string>): Result<string, Error> {
    if parts == [] then Ok("") else
    var rest := Evaluate(parts[1..], base);
    match parts[0]
    case Literal(text) => Prepend(text, rest)
    case Reference(name, fallback) => Replaced(name, fallback, rest, base)
  }

  // A reference in front of the value of the rest.
  function Replaced(name: string, fallback: Option<string>, rest: Result<string, Error>,
                    base: map<string, string>): Result<string, Error> {
    match Lookup(name, fallback, base) case Err(e) => Err(e) case Ok(v) => Prepend(v, rest)
  }

  // Rendering, then interpolating -----------------------------------------------------------

  lemma FindPairAt(s: string, c: char, a: string, b: string)
    requires s == a + [c, c] + b && !HasPair(a, c) && !EndsIn(a, c)
    ensures FindPair(s, c) == Some(|a|)
  {
    FindPairMeans(s, c);
    assert s[|a|] == s[|a| + 1] == c;
    assert forall i :: 0 <= i < |a| ==> s[i] == a[i];
  }

  lemma InsideIsPlain(name: string, fallback: Option<string>)
    requires PlainReference(name, fallback)
    ensures !HasPair(Inside(name, fallback), '}') && !EndsIn(Inside(name, fallback), '}')
    ensures EnvFile.Cut(Inside(name, fallback), ':') ==
            EnvFile.Halves(name, if fallback.Some? then fallback.value else "", fallback.Some?)
  {
    assert forall i :: 0 <= i < |name| ==> EnvFile.IsNameChar(name[i]);
    match fallback
    case None => CutNothing(name, ':');
    case Some(d) =>
      EnvFile.CutAt(name, ':', d);
      var s := name + ":" + d;
      forall i | 0 <= i < |s| - 1 ensures !(s[i] == s[i + 1] == '}') {
        if i < |name| { assert s[i] == name[i]; }
        if i > |name| { assert s[i] == d[i - |name| - 1] && s[i + 1] == d[i - |name|]; }
      }
  }

  lemma {:induction false} CutNothing(s: string, c: char)
    requires c !in s
    ensures EnvFile.Cut(s, c) == EnvFile.Halves(s, "", false)
  {
    if s != "" {
      CutNothing(s[1..], c);
      assert [s[0]] + s[1..] == s;
    }
  }

  lemma NextRendered(value: string, lead: string, name: string, fallback: Option<string>, rest: string)
    requires value == lead + RenderPart(Reference(name, fallback)) + rest
    requires !HasPair(lead, '{') && !EndsIn(lead, '{') && PlainReference(name, fallback)
    ensures Next(value) == Found(lead, name, fallback, rest)
  {
    hide Next, HasPair, EndsIn, EnvFile.IsName, EnvFile.Cut;
    var inner := Inside(name, fallback);
    RenderedText(lead, name, fallback, rest);
    InsideIsPlain(name, fallback);
    NextIsNamed(value, lead, inner, rest);
  }

  lemma RenderedText(lead: string, name: string, fallback: Option<string>, rest: string)
    ensures lead + RenderPart(Reference(name, fallback)) + rest == lead + "{{" + (Inside(name, fallback) + "}}" + rest)
  {}

  lemma NextIsNamed(value: string, lead: string, inner: string, rest: string)
    requires value == lead + "{{" + (inner + "}}" + rest)
    requires !HasPair(lead, '{') && !EndsIn(lead, '{') && !HasPair(inner, '}') && !EndsIn(inner, '}')
    ensures Next(value) == Named(lead, inner, rest)
  {
    var inside := inner + "}}" + rest;
    FindPairAt(value, '{', lead, inside);
    FindPairAt(inside, '}', inner, rest);
    assert value[..|lead|] == lead && value[|lead| + 2..] == inside;
    assert inside[..|inner|] == inner && inside[|inner| + 2..] == rest;
  }

  lemma NoPairAcross(a: string, b: string, c: char)
    requires !HasPair(a, c) && !HasPair(b, c) && !EndsIn(a, c)
    ensures !HasPair(a + b, c)
  {
    var s := a + b;
    forall i | 0 <= i < |s| - 1 ensures !(s[i] == s[i + 1] == c) {
      if i >= |a| { assert s[i] == b[i - |a|] && s[i + 1] == b[i + 1 - |a|]; }
      if i + 1 < |a| { assert s[i] == a[i] && s[i + 1] == a[i + 1]; }
    }
  }

  lemma NoPairIsEnd(value: string)
    ensures Next(value).End? <==> !HasPair(value, '{')
  {
    FindPairMeans(value, '{');
  }

  lemma InterpolatedAt(value: string, lead: string, name: string, fallback: Option<string>, rest: string,
                       base: map<string, string>)
    requires Next(value) == Found(lead, name, fallback, rest)
    ensures Interpolated(value, base) == Prepend(lead, Replaced(name, fallback, Interpolated(rest, base), base))
  {
    var v := Lookup(name, fallback, base);
    if v.Ok? { PrependPrepend(lead, v.value, Interpolated(rest, base)); }
  }

  lemma {:induction false} RenderedBehind(lead: string, parts: seq<Part>, base: map<string, string>)
    requires Plain(parts) && !HasPair(lead, '{') && (parts == [] || !EndsIn(lead, '{'))
    ensures Interpolated(lead + Render(parts), base) == Prepend(lead, Evaluate(parts, base))
    decreases |parts|
  {
    if parts == [] {
      assert lead + "" == lead;
      NoPairIsEnd(lead);
    } else {
      var rest := parts[1..];
      match parts[0]
      case Literal(text) =>
        NoPairAcross(lead, text, '{');
        RenderedBehind(lead + text, rest, base);
        Regroup(lead, text, Render(rest));
        PrependPrepend(lead, text, Evaluate(rest, base));
      case Reference(name, fallback) =>
        Regroup(lead, RenderPart(parts[0]), Render(rest));
        NextRendered(lead + Render(parts), lead, name, fallback, Render(rest));
        InterpolatedAt(lead + Render(parts), lead, name, fallback, Render(rest), base);
        RenderedBehind("", rest, base);
        Regroup("", "", Render(rest));
        PrependNothing(Evaluate(rest, base));
    }
  }

  lemma Regroup(a: string, b: string, c: string)
    ensures a + (b + c) == (a + b) + c
    ensures "" + c == c
  {}

  // Interpolating a rendered template is evaluating its parts: values are never looked into.
  lemma RenderedEvaluates(parts: seq<Part>, base: map<string, string>)
    requires Plain(parts)
    ensures Interpolated(Render(parts), base) == Evaluate(parts, base)
  {
    RenderedBehind("", parts, base);
    assert "" + Render(parts) == Render(parts);
    PrependNothing(Evaluate(parts, base));
  }

  // A reference stands for the variable if it is set, otherwise for its default; without one it is
  // refused by name.  The text around it stays.
  lemma ReferenceMeans(a: string, name: string, fallback: Option<string>, b: string, base: map<string, string>)
    requires !HasPair(a, '{') && !EndsIn(a, '{') && !HasPair(b, '{') && EnvFile.IsName(name)
    requires fallback.Some? ==> !HasPair(fallback.value, '}') && !EndsIn(fallback.value, '}')
    ensures Interpolated(a + "{{" + (if fallback.Some? then name + ":" + fallback.value else name) + "}}" + b, base) ==
            if name in base then Ok(a + base[name] + b)
            else if fallback.Some? then Ok(a + fallback.value + b)
            else Err(NotSet(name))
  {
    hide EnvFile.IsName, Interpolated, HasPair, EndsIn, Next, RenderPart;
    var value := a + RenderPart(Reference(name, fallback)) + b;
    ReferenceText(a, name, fallback, b);
    NextRendered(value, a, name, fallback, b);
    InterpolatedAt(value, a, name, fallback, b, base);
    NoPairIsEnd(b);
    InterpolatedEnd(b, base);
    if name in base || fallback.Some? {
      var v := if name in base then base[name] else fallback.value;
      assert a + (v + b) == a + v + b;
    }
  }

  lemma ReferenceText(a: string, name: string, fallback: Option<string>, b: string)
    ensures a + "{{" + (if fallback.Some? then name + ":" + fallback.value else name) + "}}" + b ==
            a + RenderPart(Reference(name, fallback)) + b
  {}

  lemma InterpolatedEnd(value: string, base: map<string, string>)
    requires Next(value).End?
    ensures Interpolated(value, base) == Ok(value)
  {}

  // Every accepted value is a rendering -----------------------------------------------------

  lemma NextIsRendered(value: string)
    requires Next(value).Found?
    ensures var t := Next(value);
      && value == t.lead + RenderPart(Reference(t.name, t.fallback)) + t.rest
      && !HasPair(t.lead, '{') && !EndsIn(t.lead, '{') && PlainReference(t.name, t.fallback)
  {
    var start := FindPair(value, '{').value;
    var inside := value[start + 2..];
    var end := FindPair(inside, '}').value;
    FirstPairSplits(value, '{', start);
    FirstPairSplits(inside, '}', end);
    NamedIsRendered(value, value[..start], inside[..end], inside[end + 2..]);
  }

  lemma NamedIsRendered(value: string, lead: string, inner: string, rest: string)
    requires value == lead + "{{" + (inner + "}}" + rest) && Named(lead, inner, rest).Found?
    requires !HasPair(inner, '}') && !EndsIn(inner, '}')
    ensures var t := Named(lead, inner, rest);
      value == t.lead + RenderPart(Reference(t.name, t.fallback)) + t.rest && PlainReference(t.name, t.fallback)
  {
    var cut := EnvFile.Cut(inner, ':');
    if cut.found { TailIsPlain(cut.before + ":", cut.after, '}'); }
    assert value == lead + ("{{" + inner + "}}") + rest;
  }

  lemma FirstPairSplits(s: string, c: char, k: nat)
    requires FindPair(s, c) == Some(k)
    ensures s == s[..k] + [c, c] + s[k + 2..] && !HasPair(s[..k], c) && !EndsIn(s[..k], c)
  {
    FindPairMeans(s, c);
    if k > 0 { assert s[k - 1] == s[..k][k - 1]; }
  }

  lemma TailIsPlain(a: string, b: string, c: char)
    requires !HasPair(a + b, c) && !EndsIn(a + b, c)
    ensures !HasPair(b, c) && !EndsIn(b, c)
  {
    forall i | 0 <= i < |b| - 1 ensures !(b[i] == b[i + 1] == c) {
      assert (a + b)[|a| + i] == b[i] && (a + b)[|a| + i + 1] == b[i + 1];
    }
    if b != "" { assert (a + b)[|a + b| - 1] == b[|b| - 1]; }
  }

  // The parts of a value that is well formed.
  function Parts(value: string): Option<seq<Part>>
    decreases |value|
  {
    match Next(value)
    case End => Some([Literal(value)])
    case Bad(_) => None
    case Found(lead, name, fallback, rest) =>
      match Parts(rest) case None => None case Some(ps) => Some([Literal(lead), Reference(name, fallback)] + ps)
  }

  lemma {:induction false} PartsRender(value: string)
    requires Parts(value).Some?
    ensures Plain(Parts(value).value) && Render(Parts(value).value) == value
    decreases |value|
  {
    hide Next, HasPair, EndsIn, EnvFile.IsName;
    match Next(value)
    case End =>
      NoPairIsEnd(value);
      RenderTwo(Literal(value), []);
    case Found(lead, name, fallback, rest) =>
      NextIsRendered(value);
      PartsRender(rest);
      var ps := Parts(rest).value;
      RenderTwo(Reference(name, fallback), ps);
      RenderTwo(Literal(lead), [Reference(name, fallback)] + ps);
      assert [Literal(lead), Reference(name, fallback)] + ps == [Literal(lead)] + ([Reference(name, fallback)] + ps);
      Regroup(lead, RenderPart(Reference(name, fallback)), rest);
  }

  lemma RenderTwo(p: Part, ps: seq<Part>)
    ensures Render([p] + ps) == RenderPart(p) + Render(ps)
    ensures Plain([p] + ps) <==> PlainPart(p, ps == []) && Plain(ps)
    ensures [p] + [] == [p] && RenderPart(p) + "" == RenderPart(p)
  {
    assert ([p] + ps)[1..] == ps;
  }

  lemma {:induction false} OkHasParts(value: string, base: map<string, string>)
    requires Interpolated(value, base).Ok?
    ensures Parts(value).Some?
    decreases |value|
  {
    match Next(value)
    case End =>
    case Found(lead, name, fallback, rest) => OkHasParts(rest, base);
  }

  // Exactly the renderings of plain parts whose references are all set are accepted, with
  // the value of the parts; which parts is not a matter of choice for the result.
  lemma AcceptsRenderings(value: string, base: map<string, string>, out: string)
    ensures Interpolated(value, base) == Ok(out) <==>
      exists parts :: Plain(parts) && Render(parts) == value && Evaluate(parts, base) == Ok(out)
  {
    if Interpolated(value, base) == Ok(out) {
      OkHasParts(value, base);
      PartsRender(value);
      RenderedEvaluates(Parts(value).value, base);
    }
    forall parts | Plain(parts) && Render(parts) == value ensures Interpolated(value, base) == Evaluate(parts, base) {
      RenderedEvaluates(parts, base);
    }
  }

  // A value that is no rendering fails in every environment.
  lemma OthersAlwaysFail(value: string, base: map<string, string>)
    requires Parts(value).None?
    ensures Interpolated(value, base).Err?
    ensures forall parts :: Plain(parts) ==> Render(parts) != value
  {
    if Interpolated(value, base).Ok? { OkHasParts(value, base); }
    forall parts | Plain(parts) ensures Render(parts) != value { RenderingHasParts(parts); }
  }

  lemma {:induction false} EvaluatesWhenSet(parts: seq<Part>, base: map<string, string>)
    requires forall p :: p in parts && p.Reference? ==> p.name in base
    ensures Evaluate(parts, base).Ok?
  {
    if parts != [] { EvaluatesWhenSet(parts[1..], base); }
  }

  lemma RenderingHasParts(parts: seq<Part>)
    requires Plain(parts)
    ensures Parts(Render(parts)).Some?
  {
    var base := Tabulate(set p | p in parts && p.Reference? :: p.name, _ => "");
    EvaluatesWhenSet(parts, base);
    RenderedEvaluates(parts, base);
    OkHasParts(Render(parts), base);
  }
}
