// The recursive include loader of internal/config/config.go: loadAll and loadOne over a
// finite set of files, with no visited set, only the stack of the files being loaded.

module Include {
  import opened Maps
  import opened Options
  import opened Sets

  type Path = string
  type AppId = string

  // An entry of `resources`, after trimming and after resolving it against its file.
  datatype Ref = EmptyRef | Unresolvable | To(path: Path)

  // What reading and decoding a file gives.
  datatype File<A> = Malformed | File(apps: map<AppId, A>, resources: seq<Ref>)
  type Files<A> = map<Path, File<A>>

  datatype Error =
    | EmptyPath(file: Path)
    | CannotResolve(file: Path)
    | CannotRead(path: Path)
    | CannotDecode(path: Path)
    | Circular(chain: seq<Path>)
    | DuplicateApp(id: AppId, first: Path, again: Path)

  // Specification ---------------------------------------------------------------------

  predicate Readable<A>(files: Files<A>, p: Path) { p in files && files[p].File? }

  function Resources<A>(files: Files<A>, p: Path): seq<Ref> {
    if Readable(files, p) then files[p].resources else []
  }

  ghost function ToSet(stack: seq<Path>): set<Path> { set p | p in stack }

  ghost function Unvisited<A>(files: Files<A>, stack: seq<Path>): nat { |files.Keys - ToSet(stack)| }

  lemma VisitShrinks<A>(files: Files<A>, stack: seq<Path>, p: Path)
    requires p in files && p !in stack
    ensures Unvisited(files, stack + [p]) < Unvisited(files, stack)
  {
    assert p in files.Keys - ToSet(stack) && p !in files.Keys - ToSet(stack + [p]);
    assert files.Keys - ToSet(stack + [p]) < files.Keys - ToSet(stack);
    StrictSubsetIsSmaller(files.Keys - ToSet(stack + [p]), files.Keys - ToSet(stack));
  }

  // The include tree below the references rs, flattened in loading order: a file stands in
  // it once for every way of reaching it.  References that cannot be followed end it.
  ghost function Unfold<A>(files: Files<A>, rs: seq<Ref>, stack: seq<Path>): seq<Path>
    decreases Unvisited(files, stack), |rs|
  {
    if rs == [] then [] else
    var rest := Unfold(files, rs[1..], stack);
    if rs[0].To? && rs[0].path !in stack && Readable(files, rs[0].path) then
      var p := rs[0].path;
      VisitShrinks(files, stack, p);
      [p] + Unfold(files, files[p].resources, stack + [p]) + rest
    else rest
  }

  // Every reference below can be followed, and none leads back to the stack.
  ghost predicate Clean<A>(files: Files<A>, rs: seq<Ref>, stack: seq<Path>)
    decreases Unvisited(files, stack), |rs|
  {
    rs == [] ||
    (&& rs[0].To? && rs[0].path !in stack && Readable(files, rs[0].path)
     && (VisitShrinks(files, stack, rs[0].path); Clean(files, files[rs[0].path].resources, stack + [rs[0].path]))
     && Clean(files, rs[1..], stack))
  }

  // An app with the file that declares it.
  datatype Entry<A> = Entry(app: A, source: Path)

  ghost function EntriesOf<A>(files: Files<A>, p: Path): (m: map<AppId, Entry<A>>)
    ensures m.Keys == if Readable(files, p) then files[p].apps.Keys else {}
    ensures forall id :: id in m ==> m[id] == Entry(files[p].apps[id], p)
  {
    if Readable(files, p) then Part(files[p].apps, p, files[p].apps.Keys) else map[]
  }

  // The entries of some of the apps of a file.
  ghost function Part<A>(here: map<AppId, A>, path: Path, ids: set<AppId>): (m: map<AppId, Entry<A>>)
    requires ids <= here.Keys
    ensures m.Keys == ids && forall id :: id in ids ==> m[id] == Entry(here[id], path)
  {
    Tabulate(ids, id requires id in here => Entry(here[id], path))
  }

  // The apps of a list of files with their sources.
  ghost function Entries<A>(files: Files<A>, ps: seq<Path>): map<AppId, Entry<A>> {
    if ps == [] then map[] else EntriesOf(files, ps[0]) + Entries(files, ps[1..])
  }

  // No app of the list is declared twice, or is among those already taken.
  ghost predicate Unique<A>(files: Files<A>, ps: seq<Path>, taken: set<AppId>) {
    ps == [] ||
    (EntriesOf(files, ps[0]).Keys !! taken && Unique(files, ps[1..], taken + EntriesOf(files, ps[0]).Keys))
  }

  lemma UnionIsAssociative<K, V>(a: map<K, V>, b: map<K, V>, c: map<K, V>)
    ensures (a + b) + c == a + (b + c)
    ensures map[] + a == a
  {}

  lemma {:induction false} EntriesConcat<A>(files: Files<A>, ps: seq<Path>, qs: seq<Path>)
    ensures Entries(files, ps + qs) == Entries(files, ps) + Entries(files, qs)
  {
    if ps == [] {
      assert ps + qs == qs;
      UnionIsAssociative(Entries(files, qs), map[], map[]);
    } else {
      assert (ps + qs)[0] == ps[0] && (ps + qs)[1..] == ps[1..] + qs;
      EntriesConcat(files, ps[1..], qs);
      UnionIsAssociative(EntriesOf(files, ps[0]), Entries(files, ps[1..]), Entries(files, qs));
    }
  }

  lemma {:induction false} UniqueConcat<A>(files: Files<A>, ps: seq<Path>, qs: seq<Path>, taken: set<AppId>)
    ensures Unique(files, ps + qs, taken) <==>
              Unique(files, ps, taken) && Unique(files, qs, taken + Entries(files, ps).Keys)
  {
    if ps == [] {
      assert ps + qs == qs && taken + Entries(files, ps).Keys == taken;
    } else {
      assert (ps + qs)[0] == ps[0] && (ps + qs)[1..] == ps[1..] + qs;
      var here := EntriesOf(files, ps[0]).Keys;
      UniqueConcat(files, ps[1..], qs, taken + here);
      assert taken + here + Entries(files, ps[1..]).Keys == taken + Entries(files, ps).Keys;
    }
  }

  // A list of files starts with its first file.
  lemma HeadFirst<A>(files: Files<A>, p: Path, ps: seq<Path>, table: map<AppId, Entry<A>>)
    ensures Unique(files, [p] + ps, table.Keys) <==>
      EntriesOf(files, p).Keys !! table.Keys && Unique(files, ps, (table + EntriesOf(files, p)).Keys)
    ensures table + Entries(files, [p] + ps) == (table + EntriesOf(files, p)) + Entries(files, ps)
    ensures Declared(files, table) ==> Declared(files, table + EntriesOf(files, p))
  {
    assert ([p] + ps)[0] == p && ([p] + ps)[1..] == ps;
    assert table.Keys + EntriesOf(files, p).Keys == (table + EntriesOf(files, p)).Keys;
    UnionIsAssociative(table, EntriesOf(files, p), Entries(files, ps));
  }

  // The loader ------------------------------------------------------------------------

  // The stack is an include path: each file lists the next one.
  ghost predicate IncludePath<A>(files: Files<A>, ps: seq<Path>) {
    ps != [] && forall i :: 0 <= i < |ps| - 1 ==> To(ps[i + 1]) in Resources(files, ps[i])
  }

  ghost predicate Distinct(ps: seq<Path>) {
    forall i, j :: 0 <= i < j < |ps| ==> ps[i] != ps[j]
  }

  // A reported chain closes on itself and follows includes all the way.
  ghost predicate GenuineCycle<A>(files: Files<A>, chain: seq<Path>) {
    |chain| >= 2 && chain[0] == chain[|chain| - 1] && IncludePath(files, chain) && Distinct(chain[1..])
  }

  ghost predicate Genuine<A>(files: Files<A>, e: Error) {
    match e
    case EmptyPath(file) => EmptyRef in Resources(files, file)
    case CannotResolve(file) => Unresolvable in Resources(files, file)
    case CannotRead(path) => path !in files
    case CannotDecode(path) => path in files && files[path].Malformed?
    case Circular(chain) => GenuineCycle(files, chain)
    case DuplicateApp(id, first, again) => id in EntriesOf(files, first) && id in EntriesOf(files, again)
  }

  // The refused declaration stands at place j of the list, whose files before it are loaded, and
  // the file that is named first is the one the app has by then.
  ghost predicate RedeclaresAt<A>(files: Files<A>, e: Error, table: map<AppId, Entry<A>>, ps: seq<Path>, j: nat) {
    && e.DuplicateApp? && j < |ps| && ps[j] == e.again && e.id in EntriesOf(files, ps[j])
    && Unique(files, ps[..j], table.Keys)
    && e.id in table + Entries(files, ps[..j]) && (table + Entries(files, ps[..j]))[e.id].source == e.first
  }

  ghost predicate Redeclares<A>(files: Files<A>, e: Error, table: map<AppId, Entry<A>>, ps: seq<Path>) {
    e.DuplicateApp? ==> exists j: nat :: RedeclaresAt(files, e, table, ps, j)
  }

  // The file declares an app that is taken, and the error names the file that has it.
  ghost predicate Refuses<A>(files: Files<A>, e: Error, table: map<AppId, Entry<A>>, path: Path) {
    && e.DuplicateApp? && e.again == path && e.id in EntriesOf(files, path)
    && e.id in table && table[e.id].source == e.first
  }

  lemma NothingRedeclared<A>(files: Files<A>, e: Error, table: map<AppId, Entry<A>>, ps: seq<Path>)
    requires !e.DuplicateApp?
    ensures Redeclares(files, e, table, ps)
  {}

  // It stays so behind what was loaded before, and whatever would have followed.
  lemma RedeclaresBehind<A>(files: Files<A>, e: Error, start: map<AppId, Entry<A>>, done: seq<Path>,
                            table: map<AppId, Entry<A>>, ps: seq<Path>, rest: seq<Path>)
    requires Unique(files, done, start.Keys) && table == start + Entries(files, done)
    requires Redeclares(files, e, table, ps)
    ensures Redeclares(files, e, start, done + ps + rest)
  {
    if e.DuplicateApp? {
      hide Unique, Entries;
      var j: nat :| RedeclaresAt(files, e, table, ps, j);
      var all := done + ps + rest;
      PlaceBehind(done, ps, rest, j);
      UniqueConcat(files, done, ps[..j], start.Keys);
      assert table.Keys == start.Keys + Entries(files, done).Keys;
      EntriesConcat(files, done, ps[..j]);
      UnionIsAssociative(start, Entries(files, done), Entries(files, ps[..j]));
      assert RedeclaresAt(files, e, start, all, |done| + j);
    }
  }

  lemma PlaceBehind(done: seq<Path>, ps: seq<Path>, rest: seq<Path>, j: nat)
    requires j < |ps|
    ensures (done + ps + rest)[..|done| + j] == done + ps[..j] && (done + ps + rest)[|done| + j] == ps[j]
  {}

  lemma RedeclaredHere<A>(files: Files<A>, e: Error, table: map<AppId, Entry<A>>, path: Path, rest: seq<Path>)
    requires Refuses(files, e, table, path)
    ensures Redeclares(files, e, table, [path] + rest)
  {
    var ps := [path] + rest;
    assert ps[..0] == [] && table + Entries(files, []) == table;
    assert RedeclaresAt(files, e, table, ps, 0);
  }

  // Every entry of the table is declared by the file it names.
  ghost predicate Declared<A>(files: Files<A>, table: map<AppId, Entry<A>>) {
    forall id :: id in table ==> id in EntriesOf(files, table[id].source)
  }

  lemma {:induction false} EntriesDeclared<A>(files: Files<A>, table: map<AppId, Entry<A>>, ps: seq<Path>)
    requires Declared(files, table)
    ensures Declared(files, table + Entries(files, ps))
    decreases |ps|
  {
    if ps == [] {
      assert table + map[] == table;
    } else {
      EntriesDeclared(files, table + EntriesOf(files, ps[0]), ps[1..]);
      UnionIsAssociative(table, EntriesOf(files, ps[0]), Entries(files, ps[1..]));
    }
  }

  ghost function TableOf<A>(apps: map<AppId, A>, sources: map<AppId, Path>): (m: map<AppId, Entry<A>>)
    requires apps.Keys == sources.Keys
    ensures m.Keys == apps.Keys && forall id :: id in apps ==> m[id] == Entry(apps[id], sources[id])
  {
    Tabulate(apps.Keys, id requires id in apps && id in sources => Entry(apps[id], sources[id]))
  }

  // The two maps hold what they held at the start, and the apps ids of the file.
  ghost predicate Merged<A>(apps: map<AppId, A>, sources: map<AppId, Path>, start: map<AppId, Entry<A>>,
                            here: map<AppId, A>, path: Path, ids: set<AppId>) {
    && ids !! start.Keys && ids <= here.Keys
    && apps.Keys == sources.Keys
    && TableOf(apps, sources) == start + Part(here, path, ids)
  }

  lemma MergeOne<A>(apps: map<AppId, A>, sources: map<AppId, Path>, start: map<AppId, Entry<A>>,
                    here: map<AppId, A>, path: Path, ids: set<AppId>, id: AppId)
    requires Merged(apps, sources, start, here, path, ids) && id in here && id !in sources
    ensures Merged(apps[id := here[id]], sources[id := path], start, here, path, ids + {id})
  {
    hide TableOf, Part;
    assert id !in TableOf(apps, sources);
    var table := TableOf(apps[id := here[id]], sources[id := path]);
    assert table == TableOf(apps, sources)[id := Entry(here[id], path)];
    assert Part(here, path, ids + {id}) == Part(here, path, ids)[id := Entry(here[id], path)];
  }

  lemma MergedKeys<A>(apps: map<AppId, A>, sources: map<AppId, Path>, start: map<AppId, Entry<A>>,
                      here: map<AppId, A>, path: Path, ids: set<AppId>)
    requires Merged(apps, sources, start, here, path, ids)
    ensures apps.Keys == sources.Keys
  {}

  // An id already in the table cannot be added, and the entry there is of another declaration.
  lemma Clash<A>(files: Files<A>, apps: map<AppId, A>, sources: map<AppId, Path>, start: map<AppId, Entry<A>>,
                 path: Path, taken: set<AppId>, id: AppId)
    requires Readable(files, path) && Merged(apps, sources, start, files[path].apps, path, taken)
    requires Declared(files, start)
    requires id in files[path].apps && id !in taken && id in sources
    ensures !(EntriesOf(files, path).Keys !! start.Keys)
    ensures Genuine(files, DuplicateApp(id, sources[id], path))
    ensures Refuses(files, DuplicateApp(id, sources[id], path), start, path)
  {
    assert id in TableOf(apps, sources) && id !in Part(files[path].apps, path, taken);
    assert id in EntriesOf(files, path).Keys && id in start.Keys;
  }

  lemma MergedAll<A>(files: Files<A>, apps: map<AppId, A>, sources: map<AppId, Path>, start: map<AppId, Entry<A>>,
                     path: Path)
    requires Readable(files, path) && Merged(apps, sources, start, files[path].apps, path, files[path].apps.Keys)
    ensures TableOf(apps, sources) == start + EntriesOf(files, path)
  {
    assert Part(files[path].apps, path, files[path].apps.Keys) == EntriesOf(files, path);
  }

  class ResourceLoader<A(==)> {
    var apps: map<AppId, A>
    var sources: map<AppId, Path>

    // The two maps have the same keys and read as one table.
    ghost predicate Valid()
      reads this
    {
      apps.Keys == sources.Keys
    }

    ghost function Table(): map<AppId, Entry<A>>
      reads this
      requires Valid()
    {
      TableOf(apps, sources)
    }

    constructor (apps: map<AppId, A>, sources: map<AppId, Path>)
      requires apps.Keys == sources.Keys
      ensures this.apps == apps && this.sources == sources && Valid()
    {
      this.apps, this.sources := apps, sources;
    }

    // loadAll: succeeds exactly when every reference below can be followed without coming
    // back to the stack and no app is declared twice, and then has added exactly them.
    method LoadAll(files: Files<A>, resources: seq<Ref>, declaring: Path, stack: seq<Path>) returns (err: Option<Error>)
      requires Valid() && Declared(files, Table())
      requires IncludePath(files, stack) && Distinct(stack) && stack[|stack| - 1] == declaring
      requires resources == Resources(files, declaring)
      modifies this
      ensures Valid()
      ensures err.None? <==>
                && Clean(files, resources, stack)
                && Unique(files, Unfold(files, resources, stack), old(Table()).Keys)
      ensures err.None? ==> Table() == old(Table()) + Entries(files, Unfold(files, resources, stack))
      ensures err.Some? ==>
                && Genuine(files, err.value)
                && Redeclares(files, err.value, old(Table()), Unfold(files, resources, stack))
      decreases 2 * Unvisited(files, stack) + 1
    {
      hide LoadedUpTo, Entries, Unique, Unfold, Clean, Redeclares, Distinct, Declared, IncludePath, GenuineCycle;
      var i := 0;
      ghost var start := Table();
      ghost var done: seq<Path> := [];
      NothingLoaded(files, resources, stack, start);
      while i < |resources|
        invariant 0 <= i <= |resources| && Valid()
        invariant LoadedUpTo(files, resources, i, stack, done, start, Table())
      {
        if !resources[i].To? {
          BadRefIsNotClean(files, resources, i, stack, done, start, Table());
          NothingRedeclared(files, EmptyPath(declaring), start, Unfold(files, resources, stack));
          NothingRedeclared(files, CannotResolve(declaring), start, Unfold(files, resources, stack));
          return Some(if resources[i].EmptyRef? then EmptyPath(declaring) else CannotResolve(declaring));
        }
        var path := resources[i].path;
        var k := Position(stack, path);
        if k < |stack| {
          BadRefIsNotClean(files, resources, i, stack, done, start, Table());
          CycleIsGenuine(files, stack, path, k);
          NothingRedeclared(files, Circular(stack[k..] + [path]), start, Unfold(files, resources, stack));
          return Some(Circular(stack[k..] + [path]));
        }
        if path in files { VisitShrinks(files, stack, path); }
        ExtendPath(files, stack, path);
        ghost var before := Table();
        DoneIsDeclared(files, resources, i, stack, done, start, before);
        err := LoadOne(files, path, stack + [path]);
        LoadStep(files, resources, i, stack, done, start, before, err.None?);
        if err.Some? {
          RedeclaredBelow(files, resources, i, stack, done, start, before, err.value);
          return;
        }
        done := done + Below(files, path, stack);
        i := i + 1;
      }
      AllLoaded(files, resources, stack, done, start, Table());
      err := None;
    }

    // loadOne, on a path just put on the stack.
    method LoadOne(files: Files<A>, path: Path, stack: seq<Path>) returns (err: Option<Error>)
      requires Valid() && Declared(files, Table())
      requires IncludePath(files, stack) && Distinct(stack) && stack[|stack| - 1] == path
      modifies this
      ensures Valid()
      ensures err.None? <==>
        && Readable(files, path)
        && Clean(files, files[path].resources, stack)
        && Unique(files, [path] + Unfold(files, files[path].resources, stack), old(Table()).Keys)
      ensures err.None? ==>
                Table() == old(Table()) + Entries(files, [path] + Unfold(files, files[path].resources, stack))
      ensures err.Some? ==>
                && Genuine(files, err.value)
                && Redeclares(files, err.value, old(Table()), [path] + Unfold(files, Resources(files, path), stack))
      decreases if path in files then 2 * Unvisited(files, stack) + 2 else 0
    {
      if path !in files { return Some(CannotRead(path)); }
      if files[path].Malformed? { return Some(CannotDecode(path)); }
      ghost var start := Table();
      HeadFirst(files, path, Unfold(files, files[path].resources, stack), start);
      err := AddApps(files, path);
      ghost var below := Unfold(files, files[path].resources, stack);
      if err.Some? {
        RedeclaredHere(files, err.value, start, path, below);
        return;
      }
      ghost var here := Table();
      err := LoadAll(files, files[path].resources, path, stack);
      if err.Some? { RedeclaredInside(files, err.value, start, path, here, below); }
    }

    // The loop of loadOne over the apps of a file, in any order.
    method AddApps(files: Files<A>, path: Path) returns (err: Option<Error>)
      requires Valid() && Readable(files, path) && Declared(files, Table())
      modifies this
      ensures Valid()
      ensures err.None? <==> EntriesOf(files, path).Keys !! old(Table()).Keys
      ensures err.None? ==> Table() == old(Table()) + EntriesOf(files, path)
      ensures err.Some? ==> Genuine(files, err.value) && Refuses(files, err.value, old(Table()), path)
    {
      ghost var start := Table();
      assert start + Part(files[path].apps, path, {}) == start;
      err := AddEach(files, path, start);
      if err.None? { MergedAll(files, apps, sources, start, path); }
    }

    method AddEach(files: Files<A>, path: Path, ghost start: map<AppId, Entry<A>>) returns (err: Option<Error>)
      requires Readable(files, path) && Declared(files, start)
      requires Merged(apps, sources, start, files[path].apps, path, {})
      modifies this
      ensures Valid()
      ensures err.None? ==> Merged(apps, sources, start, files[path].apps, path, files[path].apps.Keys)
      ensures err.Some? ==> !(EntriesOf(files, path).Keys !! start.Keys) && Genuine(files, err.value)
      ensures err.Some? ==> Refuses(files, err.value, start, path)
    {
      hide Merged, EntriesOf, Declared;
      var here := files[path].apps;
      var ids := here.Keys;
      ghost var taken: set<AppId> := {};
      while ids != {}
        invariant taken + ids == here.Keys && taken !! ids
        invariant Merged(apps, sources, start, here, path, taken)
        decreases |ids|
      {
        MergedKeys(apps, sources, start, here, path, taken);
        var id :| id in ids;
        if id in sources {
          Clash(files, apps, sources, start, path, taken, id);
          return Some(DuplicateApp(id, sources[id], path));
        }
        MergeOne(apps, sources, start, here, path, taken, id);
        apps := apps[id := here[id]];
        sources := sources[id := path];
        ids, taken := ids - {id}, taken + {id};
      }
      MergedKeys(apps, sources, start, here, path, taken);
      assert taken == here.Keys;
      err := None;
    }
  }

  lemma RedeclaredInside<A>(files: Files<A>, e: Error, start: map<AppId, Entry<A>>, path: Path,
                            here: map<AppId, Entry<A>>, below: seq<Path>)
    requires EntriesOf(files, path).Keys !! start.Keys && here == start + EntriesOf(files, path)
    requires Redeclares(files, e, here, below)
    ensures Redeclares(files, e, start, [path] + below)
  {
    assert Entries(files, [path]) == EntriesOf(files, path) + map[] == EntriesOf(files, path);
    assert [path][1..] == [] && Unique(files, [path], start.Keys);
    RedeclaresBehind(files, e, start, [path], here, below, []);
    assert [path] + below + [] == [path] + below;
  }

  // What one reference adds to the unfolded tree.
  ghost function Below<A>(files: Files<A>, p: Path, stack: seq<Path>): seq<Path>
    requires p !in stack
  {
    if Readable(files, p) then [p] + Unfold(files, files[p].resources, stack + [p]) else []
  }

  // The loop of loadAll has dealt with the first i references: `done` is what they unfold to,
  // `table` what has been loaded, and nothing stood in the way.
  ghost predicate LoadedUpTo<A>(files: Files<A>, rs: seq<Ref>, i: nat, stack: seq<Path>, done: seq<Path>,
                                start: map<AppId, Entry<A>>, table: map<AppId, Entry<A>>)
    requires i <= |rs|
  {
    && Unfold(files, rs, stack) == done + Unfold(files, rs[i..], stack)
    && (Clean(files, rs, stack) <==> Clean(files, rs[i..], stack))
    && Unique(files, done, start.Keys)
    && table == start + Entries(files, done)
  }

  lemma NothingLoaded<A>(files: Files<A>, rs: seq<Ref>, stack: seq<Path>, start: map<AppId, Entry<A>>)
    ensures LoadedUpTo(files, rs, 0, stack, [], start, start)
  {
    assert rs[0..] == rs;
    assert [] + Unfold(files, rs, stack) == Unfold(files, rs, stack);
    assert start + map[] == start;
  }

  lemma DoneIsDeclared<A>(files: Files<A>, rs: seq<Ref>, i: nat, stack: seq<Path>, done: seq<Path>,
                          start: map<AppId, Entry<A>>, table: map<AppId, Entry<A>>)
    requires i <= |rs| && LoadedUpTo(files, rs, i, stack, done, start, table) && Declared(files, start)
    ensures Declared(files, table)
  {
    EntriesDeclared(files, start, done);
  }

  lemma AllLoaded<A>(files: Files<A>, rs: seq<Ref>, stack: seq<Path>, done: seq<Path>,
                     start: map<AppId, Entry<A>>, table: map<AppId, Entry<A>>)
    requires LoadedUpTo(files, rs, |rs|, stack, done, start, table)
    ensures Clean(files, rs, stack) && Unique(files, Unfold(files, rs, stack), start.Keys)
    ensures table == start + Entries(files, Unfold(files, rs, stack))
  {
    assert rs[|rs|..] == [] && done + [] == done;
  }

  lemma BadRefIsNotClean<A>(files: Files<A>, rs: seq<Ref>, i: nat, stack: seq<Path>, done: seq<Path>,
                            start: map<AppId, Entry<A>>, table: map<AppId, Entry<A>>)
    requires i < |rs| && LoadedUpTo(files, rs, i, stack, done, start, table)
    requires !rs[i].To? || rs[i].path in stack
    ensures !Clean(files, rs, stack)
  {
    assert rs[i..][0] == rs[i];
  }

  // One turn: loading the next reference either succeeds and extends what is loaded, or the
  // whole list cannot be loaded.
  lemma LoadStep<A>(files: Files<A>, rs: seq<Ref>, i: nat, stack: seq<Path>, done: seq<Path>,
                    start: map<AppId, Entry<A>>, before: map<AppId, Entry<A>>, ok: bool)
    requires i < |rs| && rs[i].To? && rs[i].path !in stack
    requires LoadedUpTo(files, rs, i, stack, done, start, before)
    requires var p := rs[i].path;
      ok <==>
        && Readable(files, p)
        && Clean(files, files[p].resources, stack + [p])
        && Unique(files, Below(files, p, stack), before.Keys)
    ensures ok ==> var step := Below(files, rs[i].path, stack);
      LoadedUpTo(files, rs, i + 1, stack, done + step, start, before + Entries(files, step))
    ensures !ok ==> !Clean(files, rs, stack) || !Unique(files, Unfold(files, rs, stack), start.Keys)
  {
    hide Clean, Unfold, Entries, Unique, Below;
    var rest, step := rs[i..], Below(files, rs[i].path, stack);
    assert rest[0] == rs[i] && rest[1..] == rs[i + 1..];
    CleanFirst(files, rest, stack);
    UnfoldFirst(files, rest, stack);
    var tail := Unfold(files, rest[1..], stack);
    assert done + (step + tail) == (done + step) + tail;
    EntriesStep(files, done, step, start, before);
    UniqueStep(files, done, step, tail, start.Keys, before.Keys);
  }

  lemma CleanFirst<A>(files: Files<A>, rs: seq<Ref>, stack: seq<Path>)
    requires rs != [] && rs[0].To? && rs[0].path !in stack
    ensures Clean(files, rs, stack) <==>
      && Readable(files, rs[0].path)
      && Clean(files, files[rs[0].path].resources, stack + [rs[0].path])
      && Clean(files, rs[1..], stack)
  {}

  lemma RedeclaredBelow<A>(files: Files<A>, rs: seq<Ref>, i: nat, stack: seq<Path>, done: seq<Path>,
                           start: map<AppId, Entry<A>>, before: map<AppId, Entry<A>>, e: Error)
    requires i < |rs| && rs[i].To? && rs[i].path !in stack
    requires LoadedUpTo(files, rs, i, stack, done, start, before)
    requires var p := rs[i].path; Redeclares(files, e, before, [p] + Unfold(files, Resources(files, p), stack + [p]))
    ensures Redeclares(files, e, start, Unfold(files, rs, stack))
  {
    hide Unique, Entries, RedeclaresAt, Clean;
    if e.DuplicateApp? {
      var p := rs[i].path;
      var here := [p] + Unfold(files, Resources(files, p), stack + [p]);
      assert rs[i..][0] == rs[i] && rs[i..][1..] == rs[i + 1..];
      UnfoldFirst(files, rs[i..], stack);
      RedeclaresBehind(files, e, start, done, before, here, Unfold(files, rs[i + 1..], stack));
      DeclarerIsReadable(files, e, before, p, stack + [p]);
      var tail := Unfold(files, rs[i + 1..], stack);
      assert done + (here + tail) == done + here + tail;
    }
  }

  lemma DeclarerIsReadable<A>(files: Files<A>, e: Error, table: map<AppId, Entry<A>>, p: Path, stack: seq<Path>)
    requires e.DuplicateApp? && Redeclares(files, e, table, [p] + Unfold(files, Resources(files, p), stack))
    ensures Readable(files, p)
  {
    var ps := [p] + Unfold(files, Resources(files, p), stack);
    assert !Readable(files, p) ==> |ps| == 1;
    var j: nat :| RedeclaresAt(files, e, table, ps, j);
  }

  lemma EntriesStep<A>(files: Files<A>, done: seq<Path>, step: seq<Path>, start: map<AppId, Entry<A>>,
                       before: map<AppId, Entry<A>>)
    requires before == start + Entries(files, done)
    ensures before + Entries(files, step) == start + Entries(files, done + step)
    ensures before.Keys == start.Keys + Entries(files, done).Keys
  {
    EntriesConcat(files, done, step);
    UnionIsAssociative(start, Entries(files, done), Entries(files, step));
  }

  lemma UniqueStep<A>(files: Files<A>, done: seq<Path>, step: seq<Path>, tail: seq<Path>, start: set<AppId>,
                      before: set<AppId>)
    requires before == start + Entries(files, done).Keys && Unique(files, done, start)
    ensures Unique(files, step, before) <==> Unique(files, done + step, start)
    ensures Unique(files, (done + step) + tail, start) ==> Unique(files, step, before)
  {
    UniqueConcat(files, done, step, start);
    UniqueConcat(files, done + step, tail, start);
  }

  lemma UnfoldFirst<A>(files: Files<A>, rs: seq<Ref>, stack: seq<Path>)
    requires rs != [] && rs[0].To? && rs[0].path !in stack
    ensures Unfold(files, rs, stack) == Below(files, rs[0].path, stack) + Unfold(files, rs[1..], stack)
  {
    var tail := Unfold(files, rs[1..], stack);
    assert [] + tail == tail;
  }

  // The first position of p in the stack, or its length.
  method Position(stack: seq<Path>, p: Path) returns (k: nat)
    ensures k <= |stack| && p !in stack[..k]
    ensures k < |stack| ==> stack[k] == p
    ensures k == |stack| ==> p !in stack
  {
    k := 0;
    while k < |stack|
      invariant k <= |stack| && p !in stack[..k]
    {
      if stack[k] == p { return; }
      k := k + 1;
    }
  }

  lemma CycleIsGenuine<A>(files: Files<A>, stack: seq<Path>, p: Path, k: nat)
    requires IncludePath(files, stack) && Distinct(stack) && k < |stack| && stack[k] == p
    requires To(p) in Resources(files, stack[|stack| - 1])
    ensures GenuineCycle(files, stack[k..] + [p])
  {
    var chain := stack[k..] + [p];
    forall i | 0 <= i < |chain| - 1 ensures To(chain[i + 1]) in Resources(files, chain[i]) {
      assert chain[i] == stack[k + i];
    }
    forall i, j | 0 <= i < j < |chain[1..]| ensures chain[1..][i] != chain[1..][j] {
      assert chain[1..][i] == stack[k + 1 + i];
    }
  }

  lemma ExtendPath<A>(files: Files<A>, stack: seq<Path>, p: Path)
    requires IncludePath(files, stack) && Distinct(stack) && p !in stack
    requires To(p) in Resources(files, stack[|stack| - 1])
    ensures IncludePath(files, stack + [p]) && Distinct(stack + [p])
  {}

  // What acceptance means -----------------------------------------------------------------

  predicate WellFormed<A>(files: Files<A>, p: Path) {
    Readable(files, p) && forall r :: r in files[p].resources ==> r.To?
  }

  // Every include path from the last file of the stack has only well-formed files, and
  // repeats neither a file of its own nor one of the stack.
  ghost predicate Sound<A>(files: Files<A>, stack: seq<Path>)
    requires stack != []
  {
    forall c :: IncludePath(files, c) && c[0] == stack[|stack| - 1] ==>
      Distinct(stack + c[1..]) && forall p :: p in c ==> WellFormed(files, p)
  }

  lemma {:induction false} CleanEach<A>(files: Files<A>, rs: seq<Ref>, stack: seq<Path>, r: Ref)
    requires Clean(files, rs, stack) && r in rs
    ensures r.To? && r.path !in stack && Readable(files, r.path)
    ensures Clean(files, files[r.path].resources, stack + [r.path])
    decreases |rs|
  {
    if r != rs[0] { CleanEach(files, rs[1..], stack, r); }
  }

  lemma {:induction false} CleanIsSoundFor<A>(files: Files<A>, stack: seq<Path>, c: seq<Path>)
    requires stack != [] && Distinct(stack)
    requires Readable(files, stack[|stack| - 1]) && Clean(files, files[stack[|stack| - 1]].resources, stack)
    requires IncludePath(files, c) && c[0] == stack[|stack| - 1]
    ensures Distinct(stack + c[1..]) && forall p :: p in c ==> WellFormed(files, p)
    decreases |c|
  {
    var p := c[0];
    forall r | r in files[p].resources ensures r.To? { CleanEach(files, files[p].resources, stack, r); }
    if |c| == 1 {
      assert stack + c[1..] == stack;
    } else {
      var q := c[1];
      CleanEach(files, files[p].resources, stack, To(q));
      CleanIsSoundFor(files, stack + [q], c[1..]);
      assert stack + [q] + c[1..][1..] == stack + c[1..];
    }
  }

  // The last file of a sound stack can follow each of its references.
  lemma SoundFirst<A>(files: Files<A>, stack: seq<Path>, r: Ref)
    requires stack != [] && Sound(files, stack) && r in Resources(files, stack[|stack| - 1])
    ensures r.To? && r.path !in stack && Readable(files, r.path) && Sound(files, stack + [r.path])
  {
    var p := stack[|stack| - 1];
    assert IncludePath(files, [p]) && p in [p];
    var q := r.path;
    assert IncludePath(files, [p, q]) && q in [p, q];
    assert WellFormed(files, q);
    var longer := stack + [p, q][1..];
    assert Distinct(longer) && longer[|stack|] == q;
    forall k | 0 <= k < |stack| ensures stack[k] != q { assert longer[k] == stack[k]; }
    SoundBelow(files, stack, q);
  }

  lemma {:induction false} SoundIsClean<A>(files: Files<A>, rs: seq<Ref>, stack: seq<Path>)
    requires stack != [] && Sound(files, stack)
    requires forall r :: r in rs ==> r in Resources(files, stack[|stack| - 1])
    ensures Clean(files, rs, stack)
    decreases Unvisited(files, stack), |rs|
  {
    if rs != [] {
      assert rs[0] in rs;
      SoundFirst(files, stack, rs[0]);
      var q := rs[0].path;
      VisitShrinks(files, stack, q);
      assert (stack + [q])[|stack + [q]| - 1] == q;
      SoundIsClean(files, files[q].resources, stack + [q]);
      assert forall r :: r in rs[1..] ==> r in rs;
      SoundIsClean(files, rs[1..], stack);
    }
  }

  lemma SoundBelow<A>(files: Files<A>, stack: seq<Path>, q: Path)
    requires stack != [] && Sound(files, stack) && To(q) in Resources(files, stack[|stack| - 1])
    ensures Sound(files, stack + [q])
  {
    var p := stack[|stack| - 1];
    forall c | IncludePath(files, c) && c[0] == q
      ensures Distinct(stack + [q] + c[1..]) && forall x :: x in c ==> WellFormed(files, x)
    {
      var longer := [p] + c;
      assert IncludePath(files, longer);
      assert stack + longer[1..] == stack + [q] + c[1..];
      forall x | x in c ensures WellFormed(files, x) { assert x in longer; }
    }
  }

  lemma {:induction false} UniqueIff<A>(files: Files<A>, ps: seq<Path>, taken: set<AppId>)
    ensures Unique(files, ps, taken) <==>
      && (forall i :: 0 <= i < |ps| ==> EntriesOf(files, ps[i]).Keys !! taken)
      && (forall i, j :: 0 <= i < j < |ps| ==> EntriesOf(files, ps[i]).Keys !! EntriesOf(files, ps[j]).Keys)
  {
    if ps != [] {
      var here := EntriesOf(files, ps[0]).Keys;
      UniqueIff(files, ps[1..], taken + here);
      assert forall i :: 0 < i < |ps| ==> ps[1..][i - 1] == ps[i];
    }
  }

  // Each app is declared by one file of the list, and its entry names that file.
  lemma {:induction false} EntriesMean<A>(files: Files<A>, ps: seq<Path>, taken: set<AppId>, id: AppId)
    requires Unique(files, ps, taken)
    ensures id in Entries(files, ps) <==> exists p :: p in ps && id in EntriesOf(files, p)
    ensures forall p :: p in ps && id in EntriesOf(files, p) ==> Entries(files, ps)[id] == Entry(files[p].apps[id], p)
    ensures id in Entries(files, ps) ==> id !in taken
  {
    if ps != [] {
      EntriesMean(files, ps[1..], taken + EntriesOf(files, ps[0]).Keys, id);
      if id in EntriesOf(files, ps[0]) { assert ps[0] in ps; }
    }
  }

  // The references of a readable root can all be followed exactly when every include path
  // from it has only well-formed files and repeats none.
  lemma CleanIffSound<A>(files: Files<A>, root: Path)
    requires Readable(files, root)
    ensures Clean(files, files[root].resources, [root]) <==> Sound(files, [root])
  {
    if Clean(files, files[root].resources, [root]) {
      forall c | IncludePath(files, c) && c[0] == root
        ensures Distinct([root] + c[1..]) && forall p :: p in c ==> WellFormed(files, p)
      {
        CleanIsSoundFor(files, [root], c);
      }
    }
    if Sound(files, [root]) { SoundIsClean(files, files[root].resources, [root]); }
  }

  lemma UnreadableIsNotSound<A>(files: Files<A>, root: Path)
    requires !Readable(files, root)
    ensures !Sound(files, [root])
  {
    assert IncludePath(files, [root]) && root in [root];
  }

  // The files of the configuration, in loading order.
  ghost function Tree<A>(files: Files<A>, root: Path): seq<Path> {
    [root] + Unfold(files, Resources(files, root), [root])
  }

  lemma RootFirst<A>(files: Files<A>, root: Path)
    requires Readable(files, root)
    ensures var below := Unfold(files, files[root].resources, [root]);
      && (Unique(files, Tree(files, root), {}) <==> Unique(files, below, EntriesOf(files, root).Keys))
      && Entries(files, Tree(files, root)) == EntriesOf(files, root) + Entries(files, below)
    ensures Declared(files, EntriesOf(files, root))
  {
    var below := Unfold(files, files[root].resources, [root]);
    assert ([root] + below)[0] == root && ([root] + below)[1..] == below;
    assert {} + EntriesOf(files, root).Keys == EntriesOf(files, root).Keys;
  }

  lemma RootRedeclares<A>(files: Files<A>, e: Error, root: Path)
    requires Readable(files, root)
    requires Redeclares(files, e, EntriesOf(files, root), Unfold(files, files[root].resources, [root]))
    ensures Redeclares(files, e, map[], Tree(files, root))
  {
    hide Unfold, RedeclaresAt;
    assert map[] + EntriesOf(files, root) == EntriesOf(files, root);
    RedeclaredInside(files, e, map[], root, EntriesOf(files, root), Unfold(files, files[root].resources, [root]));
  }

  // load: the root file is decoded, its apps are taken, and its resources are loaded.
  method Load<A(==)>(files: Files<A>, root: Path)
    returns (r: Result<(map<AppId, A>, map<AppId, Path>), Error>)
    ensures r.Ok? <==> Sound(files, [root]) && Unique(files, Tree(files, root), {})
    ensures r.Ok? ==>
              && r.value.0.Keys == r.value.1.Keys
              && TableOf(r.value.0, r.value.1) == Entries(files, Tree(files, root))
    ensures r.Err? ==> Genuine(files, r.error) && Redeclares(files, r.error, map[], Tree(files, root))
  {
    hide RedeclaresAt, Unfold, Unique, Entries;
    if root !in files || files[root].Malformed? {
      UnreadableIsNotSound(files, root);
      return Err(if root !in files then CannotRead(root) else CannotDecode(root));
    }
    var sources := RootSources(files[root].apps, root);
    var loader := new ResourceLoader<A>(files[root].apps, sources);
    assert loader.Table() == EntriesOf(files, root);
    CleanIffSound(files, root);
    RootFirst(files, root);
    var err := loader.LoadAll(files, files[root].resources, root, [root]);
    if err.Some? {
      RootRedeclares(files, err.value, root);
      return Err(err.value);
    }
    r := Ok((loader.apps, loader.sources));
  }

  // The loop that names the root as the source of its own apps.
  method RootSources<A>(apps: map<AppId, A>, root: Path) returns (sources: map<AppId, Path>)
    ensures sources.Keys == apps.Keys && forall id :: id in apps ==> sources[id] == root
  {
    sources := map[];
    var ids := apps.Keys;
    while ids != {}
      invariant ids <= apps.Keys && sources.Keys == apps.Keys - ids
      invariant forall id :: id in sources ==> sources[id] == root
      decreases |ids|
    {
      var id :| id in ids;
      sources := sources[id := root];
      ids := ids - {id};
    }
  }
}
