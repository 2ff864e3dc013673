// What the include loader makes of a file that is reached more than once: it counts a file
// once for every way of reaching it, so such a file must not declare an app.

module IncludeSharing {
  import opened Maps
  import opened Include

  // A walk names its steps by their places in the lists of resources, so a file that one list
  // names twice is reached by two walks.
  ghost predicate Leads<A>(files: Files<A>, rs: seq<Ref>, w: seq<nat>, p: Path)
    decreases |w|
  {
    && w != [] && w[0] < |rs| && rs[w[0]].To?
    && if |w| == 1 then rs[w[0]].path == p else Leads(files, Resources(files, rs[w[0]].path), w[1..], p)
  }

  ghost predicate Reaches<A>(files: Files<A>, root: Path, w: seq<nat>, p: Path) {
    if w == [] then p == root else Leads(files, Resources(files, root), w, p)
  }

  ghost predicate OccursTwice(ps: seq<Path>, p: Path) {
    exists i, j :: 0 <= i < j < |ps| && ps[i] == ps[j] == p
  }

  lemma {:induction false} LeadsToOne<A>(files: Files<A>, rs: seq<Ref>, w: seq<nat>, p: Path, q: Path)
    requires Leads(files, rs, w, p) && Leads(files, rs, w, q)
    ensures p == q
    decreases |w|
  {
    if |w| > 1 { LeadsToOne(files, Resources(files, rs[w[0]].path), w[1..], p, q); }
  }

  // The walks to the places of the tree ----------------------------------------------------

  ghost function Prefixed(i: nat, ws: seq<seq<nat>>): (r: seq<seq<nat>>)
    ensures |r| == |ws| && forall k :: 0 <= k < |ws| ==> r[k] == [i] + ws[k]
  {
    seq(|ws|, k requires 0 <= k < |ws| => [i] + ws[k])
  }

  // The walks to the places of Unfold(files, all[i..], stack), in the same order.
  ghost function Walks<A>(files: Files<A>, all: seq<Ref>, i: nat, stack: seq<Path>): seq<seq<nat>>
    requires i <= |all|
    decreases Unvisited(files, stack), |all| - i
  {
    if i == |all| then [] else
    var rest := Walks(files, all, i + 1, stack);
    if all[i].To? && all[i].path !in stack && Readable(files, all[i].path) then
      var p := all[i].path;
      VisitShrinks(files, stack, p);
      [[i]] + Prefixed(i, Walks(files, files[p].resources, 0, stack + [p])) + rest
    else rest
  }

  ghost predicate Lead<A>(files: Files<A>, all: seq<Ref>, i: nat, ws: seq<seq<nat>>, ps: seq<Path>) {
    |ws| == |ps| && forall k :: 0 <= k < |ws| ==> Leads(files, all, ws[k], ps[k]) && i <= ws[k][0]
  }

  ghost predicate Different(ws: seq<seq<nat>>) { forall j, k :: 0 <= j < k < |ws| ==> ws[j] != ws[k] }

  lemma LeadsOn<A>(files: Files<A>, all: seq<Ref>, i: nat, w: seq<nat>, p: Path)
    requires i < |all| && all[i].To? && Leads(files, Resources(files, all[i].path), w, p)
    ensures Leads(files, all, [i] + w, p)
  {
    assert ([i] + w)[1..] == w;
  }

  lemma {:induction false} WalksLead<A>(files: Files<A>, all: seq<Ref>, i: nat, stack: seq<Path>)
    requires i <= |all|
    ensures Lead(files, all, i, Walks(files, all, i, stack), Unfold(files, all[i..], stack))
    decreases Unvisited(files, stack), |all| - i
  {
    if i < |all| {
      assert all[i..][0] == all[i] && all[i..][1..] == all[i + 1..];
      WalksLead(files, all, i + 1, stack);
      if all[i].To? && all[i].path !in stack && Readable(files, all[i].path) {
        var p := all[i].path;
        VisitShrinks(files, stack, p);
        var res := files[p].resources;
        WalksLead(files, res, 0, stack + [p]);
        assert res[0..] == res;
        LeadBlock(files, all, i, Walks(files, res, 0, stack + [p]), Unfold(files, res, stack + [p]),
                  Walks(files, all, i + 1, stack), Unfold(files, all[i + 1..], stack));
      }
    }
  }

  lemma LeadBlock<A>(files: Files<A>, all: seq<Ref>, i: nat, ws: seq<seq<nat>>, below: seq<Path>,
                     rest: seq<seq<nat>>, ps: seq<Path>)
    requires i < |all| && all[i].To? && Readable(files, all[i].path)
    requires Lead(files, files[all[i].path].resources, 0, ws, below) && Lead(files, all, i + 1, rest, ps)
    ensures Lead(files, all, i, [[i]] + Prefixed(i, ws) + rest, [all[i].path] + below + ps)
  {
    var whole, places := [[i]] + Prefixed(i, ws) + rest, [all[i].path] + below + ps;
    forall k | 0 <= k < |whole| ensures Leads(files, all, whole[k], places[k]) && i <= whole[k][0] {
      if 0 < k <= |ws| {
        LeadsOn(files, all, i, ws[k - 1], below[k - 1]);
      } else if k > |ws| {
        assert whole[k] == rest[k - |ws| - 1] && places[k] == ps[k - |ws| - 1];
      }
    }
  }

  lemma {:induction false} WalksDiffer<A>(files: Files<A>, all: seq<Ref>, i: nat, stack: seq<Path>)
    requires i <= |all|
    ensures Different(Walks(files, all, i, stack))
    decreases Unvisited(files, stack), |all| - i
  {
    if i < |all| {
      WalksDiffer(files, all, i + 1, stack);
      WalksLead(files, all, i + 1, stack);
      if all[i].To? && all[i].path !in stack && Readable(files, all[i].path) {
        var p := all[i].path;
        VisitShrinks(files, stack, p);
        WalksDiffer(files, files[p].resources, 0, stack + [p]);
        WalksLead(files, files[p].resources, 0, stack + [p]);
        BlockDiffers(i, Walks(files, files[p].resources, 0, stack + [p]), Walks(files, all, i + 1, stack));
      }
    }
  }

  lemma BlockDiffers(i: nat, ws: seq<seq<nat>>, rest: seq<seq<nat>>)
    requires Different(ws) && (forall k :: 0 <= k < |ws| ==> ws[k] != [])
    requires Different(rest) && forall k :: 0 <= k < |rest| ==> rest[k] != [] && i < rest[k][0]
    ensures Different([[i]] + Prefixed(i, ws) + rest)
  {
    var whole := [[i]] + Prefixed(i, ws) + rest;
    forall j, k | 0 <= j < k < |whole| ensures whole[j] != whole[k] {
      if k <= |ws| {
        assert whole[k] == [i] + ws[k - 1];
        if j > 0 {
          assert whole[j] == [i] + ws[j - 1];
          assert whole[j][1..] == ws[j - 1] && whole[k][1..] == ws[k - 1];
        }
      } else {
        assert whole[k] == rest[k - |ws| - 1];
        if j > |ws| { assert whole[j] == rest[j - |ws| - 1]; } else { assert whole[j][0] == i; }
      }
    }
  }

  // A tree without dead ends has a place for every walk.
  lemma {:induction false} WalkHasPlace<A>(files: Files<A>, all: seq<Ref>, i: nat, stack: seq<Path>,
                                           w: seq<nat>, p: Path)
    requires i <= |all| && Clean(files, all[i..], stack) && Leads(files, all, w, p) && i <= w[0]
    ensures w in Walks(files, all, i, stack)
    decreases |w|, |all| - i
  {
    assert all[i..][0] == all[i] && all[i..][1..] == all[i + 1..];
    var q := all[i].path;
    var inner := Walks(files, files[q].resources, 0, stack + [q]);
    var whole := [[i]] + Prefixed(i, inner) + Walks(files, all, i + 1, stack);
    if w[0] > i {
      WalkHasPlace(files, all, i + 1, stack, w, p);
    } else if |w| == 1 {
      assert w == [i] && whole[0] == w;
    } else {
      assert files[q].resources[0..] == files[q].resources;
      WalkHasPlace(files, files[q].resources, 0, stack + [q], w[1..], p);
      var k :| 0 <= k < |inner| && inner[k] == w[1..];
      assert whole[k + 1] == [i] + w[1..] == w;
    }
  }

  // The places of the tree and the walks from the root correspond one to one.
  ghost predicate Corresponds<A>(files: Files<A>, root: Path, ws: seq<seq<nat>>) {
    && |ws| == |Tree(files, root)|
    && (forall k :: 0 <= k < |ws| ==> Reaches(files, root, ws[k], Tree(files, root)[k]))
    && Different(ws)
    && forall w, p :: Reaches(files, root, w, p) ==> w in ws
  }

  lemma PlacesAreWalks<A>(files: Files<A>, root: Path) returns (ws: seq<seq<nat>>)
    requires Sound(files, [root])
    ensures Corresponds(files, root, ws)
  {
    if !Readable(files, root) { UnreadableIsNotSound(files, root); }
    CleanIffSound(files, root);
    var res := files[root].resources;
    var below := Walks(files, res, 0, [root]);
    assert res[0..] == res;
    WalksLead(files, res, 0, [root]);
    WalksDiffer(files, res, 0, [root]);
    ws := [[]] + below;
    forall w, p | Reaches(files, root, w, p) ensures w in ws {
      if w == [] {
        assert ws[0] == w;
      } else {
        WalkHasPlace(files, res, 0, [root], w, p);
        var k :| 0 <= k < |below| && below[k] == w;
        assert ws[k + 1] == w;
      }
    }
  }

  lemma ReachesOne<A>(files: Files<A>, root: Path, w: seq<nat>, p: Path, q: Path)
    requires Reaches(files, root, w, p) && Reaches(files, root, w, q)
    ensures p == q
  {
    if w != [] { LeadsToOne(files, Resources(files, root), w, p, q); }
  }

  lemma WalkPlace<A>(files: Files<A>, root: Path, ws: seq<seq<nat>>, w: seq<nat>, p: Path) returns (k: nat)
    requires Corresponds(files, root, ws) && Reaches(files, root, w, p)
    ensures k < |ws| && ws[k] == w && Tree(files, root)[k] == p
  {
    k :| 0 <= k < |ws| && ws[k] == w;
    ReachesOne(files, root, w, p, Tree(files, root)[k]);
  }

  lemma PlacesDiffer<A>(files: Files<A>, root: Path, ws: seq<seq<nat>>, i: nat, j: nat)
    requires Corresponds(files, root, ws) && i < j < |ws|
    ensures ws[i] != ws[j]
    ensures Reaches(files, root, ws[i], Tree(files, root)[i]) && Reaches(files, root, ws[j], Tree(files, root)[j])
  {}

  // A file stands in the tree twice exactly when two walks lead to it.
  lemma TwiceMeansTwoWalks<A>(files: Files<A>, root: Path, p: Path)
    requires Sound(files, [root])
    ensures OccursTwice(Tree(files, root), p) <==>
      exists u, v :: u != v && Reaches(files, root, u, p) && Reaches(files, root, v, p)
  {
    hide Sound, Reaches, Tree;
    var tree := Tree(files, root);
    var ws := PlacesAreWalks(files, root);
    if OccursTwice(tree, p) {
      var i, j :| 0 <= i < j < |tree| && tree[i] == tree[j] == p;
      PlacesDiffer(files, root, ws, i, j);
    }
    forall u, v | u != v && Reaches(files, root, u, p) && Reaches(files, root, v, p) ensures OccursTwice(tree, p) {
      var i := WalkPlace(files, root, ws, u, p);
      var j := WalkPlace(files, root, ws, v, p);
      assert i < j || j < i;
    }
  }

  // When loading is refused for an app declared twice -------------------------------------------

  // In the places of the tree: two files declare an app, or one that stands there twice does.
  lemma UniqueMeans<A>(files: Files<A>, root: Path)
    ensures var tree := Tree(files, root);
      Unique(files, tree, {}) <==>
        && (forall p, q :: p in tree && q in tree && p != q ==> EntriesOf(files, p).Keys !! EntriesOf(files, q).Keys)
        && (forall p :: OccursTwice(tree, p) ==> EntriesOf(files, p) == map[])
  {
    var tree := Tree(files, root);
    UniqueIff(files, tree, {});
    if Unique(files, tree, {}) {
      forall p, q | p in tree && q in tree && p != q ensures EntriesOf(files, p).Keys !! EntriesOf(files, q).Keys {
        var i :| 0 <= i < |tree| && tree[i] == p;
        var j :| 0 <= j < |tree| && tree[j] == q;
        assert i < j || j < i;
      }
      forall p | OccursTwice(tree, p) ensures EntriesOf(files, p) == map[] {
        var i, j :| 0 <= i < j < |tree| && tree[i] == tree[j] == p;
        DisjointFromItself(EntriesOf(files, p));
      }
    } else {
      var i, j :| 0 <= i < j < |tree| && !(EntriesOf(files, tree[i]).Keys !! EntriesOf(files, tree[j]).Keys);
      assert tree[i] in tree && tree[j] in tree;
      if tree[i] == tree[j] { assert OccursTwice(tree, tree[i]); }
    }
  }

  lemma DisjointFromItself<K, V>(m: map<K, V>)
    requires m.Keys !! m.Keys
    ensures m == map[]
  {
    forall k ensures k !in m { assert k in m.Keys ==> k in m.Keys * m.Keys; }
  }

  // In the terms of the files: two different walks lead to declarations of one app.
  lemma UniqueInWalks<A>(files: Files<A>, root: Path)
    requires Sound(files, [root])
    ensures Unique(files, Tree(files, root), {}) <==>
      forall u, v, p, q :: u != v && Reaches(files, root, u, p) && Reaches(files, root, v, q) ==>
        EntriesOf(files, p).Keys !! EntriesOf(files, q).Keys
  {
    hide Sound, Reaches, Tree, Unique, EntriesOf;
    var tree := Tree(files, root);
    var ws := PlacesAreWalks(files, root);
    UniqueIff(files, tree, {});
    if Unique(files, tree, {}) {
      forall u, v, p, q | u != v && Reaches(files, root, u, p) && Reaches(files, root, v, q)
        ensures EntriesOf(files, p).Keys !! EntriesOf(files, q).Keys
      {
        var i := WalkPlace(files, root, ws, u, p);
        var j := WalkPlace(files, root, ws, v, q);
        assert i < j || j < i;
      }
    } else {
      var i, j :| 0 <= i < j < |tree| && !(EntriesOf(files, tree[i]).Keys !! EntriesOf(files, tree[j]).Keys);
      PlacesDiffer(files, root, ws, i, j);
    }
  }

  // Include paths ------------------------------------------------------------------------------

  ghost function Trace<A>(files: Files<A>, rs: seq<Ref>, w: seq<nat>): seq<Path>
    decreases |w|
  {
    if w == [] || w[0] >= |rs| || !rs[w[0]].To? then [] else
    [rs[w[0]].path] + Trace(files, Resources(files, rs[w[0]].path), w[1..])
  }

  lemma {:induction false} PathHasWalk<A>(files: Files<A>, rs: seq<Ref>, c: seq<Path>) returns (w: seq<nat>)
    requires IncludePath(files, c) && To(c[0]) in rs
    ensures Leads(files, rs, w, c[|c| - 1]) && Trace(files, rs, w) == c
    decreases |c|
  {
    var i :| 0 <= i < |rs| && rs[i] == To(c[0]);
    if |c| == 1 {
      w := [i];
      assert c == [c[0]] + [];
    } else {
      assert To(c[0 + 1]) in Resources(files, c[0]);
      forall k | 0 <= k < |c[1..]| - 1 ensures To(c[1..][k + 1]) in Resources(files, c[1..][k]) {
        assert To(c[k + 1 + 1]) in Resources(files, c[k + 1]);
      }
      var tail := PathHasWalk(files, Resources(files, c[0]), c[1..]);
      w := [i] + tail;
      assert w[1..] == tail && c == [c[0]] + c[1..];
    }
  }

  // In particular, a file of an accepted configuration that two different include paths lead to
  // declares no app.
  lemma SharedFilesDeclareNothing<A>(files: Files<A>, root: Path, c: seq<Path>, d: seq<Path>)
    requires Sound(files, [root]) && Unique(files, Tree(files, root), {})
    requires IncludePath(files, c) && IncludePath(files, d) && c[0] == d[0] == root
    requires c != d && c[|c| - 1] == d[|d| - 1]
    ensures EntriesOf(files, c[|c| - 1]) == map[]
  {
    var u := RootPathHasWalk(files, root, c);
    var v := RootPathHasWalk(files, root, d);
    UniqueInWalks(files, root);
    DisjointFromItself(EntriesOf(files, c[|c| - 1]));
  }

  lemma RootPathHasWalk<A>(files: Files<A>, root: Path, c: seq<Path>) returns (w: seq<nat>)
    requires IncludePath(files, c) && c[0] == root
    ensures Reaches(files, root, w, c[|c| - 1]) && [root] + Trace(files, Resources(files, root), w) == c
  {
    if |c| == 1 {
      w := [];
      assert c == [root] + [];
    } else {
      assert To(c[0 + 1]) in Resources(files, c[0]);
      forall k | 0 <= k < |c[1..]| - 1 ensures To(c[1..][k + 1]) in Resources(files, c[1..][k]) {
        assert To(c[k + 1 + 1]) in Resources(files, c[k + 1]);
      }
      w := PathHasWalk(files, Resources(files, root), c[1..]);
      assert c == [root] + c[1..];
    }
  }

  // Two inputs ----------------------------------------------------------------------------------

  // Two files include a third, which declares an app.
  ghost function Diamond(): Files<int> {
    map["root" := File(map[], [To("left"), To("right")]),
        "left" := File(map[], [To("shared")]),
        "right" := File(map[], [To("shared")]),
        "shared" := File(map["app" := 0], [])]
  }

  // One file lists another twice, which declares an app.
  ghost function ListedTwice(): Files<int> {
    map["root" := File(map[], [To("shared"), To("shared")]), "shared" := File(map["app" := 0], [])]
  }

  // No include path repeats a file and no app has two declarations, and yet the loader refuses.
  ghost predicate RefusedForSharing<A>(files: Files<A>, root: Path) {
    && Sound(files, [root])
    && (forall p, q :: p != q ==> EntriesOf(files, p).Keys !! EntriesOf(files, q).Keys)
    && !Unique(files, Tree(files, root), {})
  }

  lemma SharedTwice(files: Files<int>, u: seq<nat>, v: seq<nat>)
    requires Sound(files, ["root"])
    requires u != v && Reaches(files, "root", u, "shared") && Reaches(files, "root", v, "shared")
    requires "shared" in files && files["shared"] == File(map["app" := 0], [])
    requires forall p :: p in files && p != "shared" ==> files[p].File? && files[p].apps == map[]
    ensures RefusedForSharing(files, "root")
  {
    UniqueInWalks(files, "root");
    assert "app" in EntriesOf(files, "shared").Keys * EntriesOf(files, "shared").Keys;
    forall p, q | p != q ensures EntriesOf(files, p).Keys !! EntriesOf(files, q).Keys {
      if p != "shared" { assert EntriesOf(files, p).Keys == {}; }
      if q != "shared" { assert EntriesOf(files, q).Keys == {}; }
    }
  }

  lemma LeafIsClean(files: Files<int>, stack: seq<Path>)
    requires "shared" in files && files["shared"] == File(map["app" := 0], []) && "shared" !in stack
    ensures Clean(files, [To("shared")], stack)
    ensures forall rest :: Clean(files, rest, stack) ==> Clean(files, [To("shared")] + rest, stack)
  {
    assert Clean(files, [], stack + ["shared"]);
    forall rest | Clean(files, rest, stack) ensures Clean(files, [To("shared")] + rest, stack) {
      assert ([To("shared")] + rest)[1..] == rest;
    }
    assert [To("shared")] + [] == [To("shared")] && Clean(files, [], stack);
  }

  lemma DiamondIsRefused()
    ensures RefusedForSharing(Diamond(), "root")
  {
    var files := Diamond();
    LeafIsClean(files, ["root", "left"]);
    LeafIsClean(files, ["root", "right"]);
    assert ["root"] + ["left"] == ["root", "left"] && ["root"] + ["right"] == ["root", "right"];
    assert Clean(files, [To("right")], ["root"]);
    assert [To("left"), To("right")][1..] == [To("right")];
    assert Clean(files, [To("left"), To("right")], ["root"]);
    CleanIffSound(files, "root");
    assert [0, 0][1..] == [0] && [1, 0][1..] == [0];
    assert Leads(files, [To("shared")], [0], "shared");
    SharedTwice(files, [0, 0], [1, 0]);
  }

  lemma ListedTwiceIsRefused()
    ensures RefusedForSharing(ListedTwice(), "root")
  {
    var files := ListedTwice();
    LeafIsClean(files, ["root"]);
    assert [To("shared")] + [To("shared")] == [To("shared"), To("shared")];
    CleanIffSound(files, "root");
    SharedTwice(files, [0], [1]);
  }
}
