// resolveEnvironment of internal/config/environment.go: the environment a service is given.

module Environment {
  import opened Maps
  import opened Options
  import EnvFile
  import Template

  type Variables = map<string, string>
  type Tables = seq<Result<Variables, FileError>>
  type Filled = map<string, Result<string, Template.Error>>

  // An entry of `envFiles`: a blank path, one that cannot be expanded or read, or what it holds.
  datatype Source = Blank | Unreadable | Contents(data: string)

  datatype FileError = EmptyPath | CannotRead | Malformed(error: EnvFile.Error)

  datatype Error = InFile(index: nat, file: FileError) | InVariable(key: string, template: Template.Error) | Invalid

  function TableOf(file: Source): Result<Variables, FileError> {
    match file
    case Blank => Err(EmptyPath)
    case Unreadable => Err(CannotRead)
    case Contents(data) => match EnvFile.ParseFile(data) case Ok(values) => Ok(values) case Err(e) => Err(Malformed(e))
  }

  // What the environment files hold.
  function Parsed(files: seq<Source>): (r: Tables)
    ensures |r| == |files| && forall i :: 0 <= i < |files| ==> r[i] == TableOf(files[i])
  {
    seq(|files|, i requires 0 <= i < |files| => TableOf(files[i]))
  }

  // Their tables, merged in order over what is there.
  function Merged(tables: Tables, i: nat, over: Variables): Result<Variables, Error>
    requires i <= |tables|
    decreases |tables| - i
  {
    if i == |tables| then Ok(over) else
    match tables[i]
    case Err(e) => Err(InFile(i, e))
    case Ok(values) => Merged(tables, i + 1, over + values)
  }

  // The inline entries, each interpolated against base.
  ghost function Fill(inline: Variables, base: Variables): (r: Filled)
    ensures r.Keys == inline.Keys && forall k :: k in inline ==> r[k] == Template.Interpolated(inline[k], base)
  {
    Tabulate(inline.Keys, k requires k in inline => Template.Interpolated(inline[k], base))
  }

  predicate AllOk(filled: Filled) { forall k :: k in filled ==> filled[k].Ok? }

  ghost function Values(filled: Filled): (r: Variables)
    requires AllOk(filled)
    ensures r.Keys == filled.Keys && forall k :: k in filled ==> r[k] == filled[k].value
  {
    Tabulate(filled.Keys, k requires k in filled && filled[k].Ok? => filled[k].value)
  }

  // The environment of a service: its files, then its inline entries, which are interpolated
  // against the inherited environment and the files but never against each other.
  ghost function Resolved(tables: Tables, inherited: Variables, inline: Variables): Option<Variables> {
    match (Merged(tables, 0, inherited), Merged(tables, 0, map[]))
    case (Ok(base), Ok(own)) =>
      var filled := Fill(inline, base);
      if AllOk(filled) then Some(own + Values(filled)) else None
    case _ => None
  }

  // Whether the files can be merged does not depend on what they are merged over.
  lemma {:induction false} MergedAgree(tables: Tables, i: nat, a: Variables, b: Variables)
    requires i <= |tables|
    ensures Merged(tables, i, a).Ok? <==> Merged(tables, i, b).Ok?
    decreases |tables| - i
  {
    if i < |tables| && tables[i].Ok? { MergedAgree(tables, i + 1, a + tables[i].value, b + tables[i].value); }
  }

  // The inline entries are taken in any order; the result does not tell which.
  method ResolveEnvironment(files: seq<Source>, inherited: Variables, inline: Variables)
    returns (r: Result<Variables, Error>)
    ensures var resolved := Resolved(Parsed(files), inherited, inline);
      && (r.Ok? <==> resolved.Some? && EnvFile.ValidEnvironment(resolved.value))
      && (r.Ok? ==> r.value == resolved.value)
  {
    ghost var tables := Parsed(files);
    MergedAgree(tables, 0, map[], inherited);
    var base, result: Variables := inherited, map[];
    for i := 0 to |files|
      invariant Merged(tables, 0, inherited) == Merged(tables, i, base)
      invariant Merged(tables, 0, map[]) == Merged(tables, i, result)
    {
      var values := ReadEnvFile(files[i]);
      assert values == tables[i];
      if values.Err? { return Err(InFile(i, values.error)); }
      base, result := base + values.value, result + values.value;
    }
    var resolved := ResolveInline(inline, base, Fill(inline, base));
    if resolved.Err? { return Err(resolved.error); }
    result := result + resolved.value;
    if !EnvFile.ValidEnvironment(result) { return Err(Invalid); }
    r := Ok(result);
  }

  method ReadEnvFile(file: Source) returns (r: Result<Variables, FileError>)
    ensures r == TableOf(file)
  {
    if file.Blank? { return Err(EmptyPath); }
    if file.Unreadable? { return Err(CannotRead); }
    var values := EnvFile.ParseEnvFile(file.data);
    r := if values.Ok? then Ok(values.value) else Err(Malformed(values.error));
  }

  method ResolveInline(inline: Variables, base: Variables, ghost filled: Filled) returns (r: Result<Variables, Error>)
    requires filled == Fill(inline, base)
    ensures r.Ok? <==> AllOk(filled)
    ensures r.Ok? ==> r.value == Values(filled)
  {
    var result: Variables := map[];
    var keys := inline.Keys;
    while keys != {}
      invariant Filling(filled, result, keys)
      decreases |keys|
    {
      var k :| k in keys;
      var value := ResolveEntry(inline, base, k, filled);
      if value.Err? { return Err(InVariable(k, value.error)); }
      FillOne(filled, result, keys, k);
      result := result[k := value.value];
      keys := keys - {k};
    }
    FilledAll(filled, result);
    r := Ok(result);
  }

  // Every entry but those of keys is in the result.
  ghost predicate Filling(filled: Filled, result: Variables, keys: set<string>) {
    && keys <= filled.Keys && result.Keys == filled.Keys - keys
    && forall k :: k in result ==> filled[k] == Ok(result[k])
  }

  lemma FillOne(filled: Filled, result: Variables, keys: set<string>, k: string)
    requires Filling(filled, result, keys) && k in keys && filled[k].Ok?
    ensures Filling(filled, result[k := filled[k].value], keys - {k})
  {}

  lemma FilledAll(filled: Filled, result: Variables)
    requires Filling(filled, result, {})
    ensures AllOk(filled) && result == Values(filled)
  {}

  method ResolveEntry(inline: Variables, base: Variables, k: string, ghost filled: Filled)
    returns (r: Result<string, Template.Error>)
    requires k in inline && filled == Fill(inline, base)
    ensures r == filled[k]
  {
    r := Template.InterpolateEnv(inline[k], base);
  }

  predicate SetBy(tables: Tables, i: nat, k: string) { i < |tables| && tables[i].Ok? && k in tables[i].value }

  ghost predicate LastSetBy(tables: Tables, i: nat, k: string) {
    SetBy(tables, i, k) && forall j: nat :: i < j ==> !SetBy(tables, j, k)
  }

  // A service gets the names of its files and its inline entries and no others: the inherited
  // environment only lends values.  An inline entry replaces that of a file, and the entry of
  // a later file that of an earlier one.
  lemma ResolvedMeans(tables: Tables, inherited: Variables, inline: Variables, k: string)
    requires Resolved(tables, inherited, inline).Some?
    ensures var resolved := Resolved(tables, inherited, inline).value;
      && (k in resolved <==> k in inline || exists i: nat :: SetBy(tables, i, k))
      && (k in inline ==> Fill(inline, Merged(tables, 0, inherited).value)[k] == Ok(resolved[k]))
      && (k !in inline ==> forall i: nat :: LastSetBy(tables, i, k) ==> resolved[k] == tables[i].value[k])
  {
    MergedMeans(tables, 0, map[], k);
    forall i: nat | LastSetBy(tables, i, k) ensures k in Merged(tables, 0, map[]).value { assert SetBy(tables, i, k); }
  }

  lemma {:induction false} MergedMeans(tables: Tables, n: nat, over: Variables, k: string)
    requires n <= |tables| && Merged(tables, n, over).Ok?
    ensures var m := Merged(tables, n, over).value;
      && (k in m <==> k in over || exists i: nat :: n <= i && SetBy(tables, i, k))
      && ((forall i: nat :: n <= i ==> !SetBy(tables, i, k)) && k in over ==> m[k] == over[k])
      && (forall i: nat :: n <= i && LastSetBy(tables, i, k) ==> m[k] == tables[i].value[k])
    decreases |tables| - n
  {
    if n < |tables| {
      var values := tables[n].value;
      MergedMeans(tables, n + 1, over + values, k);
      assert SetBy(tables, n, k) <==> k in values;
    }
  }
}
