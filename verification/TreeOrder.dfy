// treeOrder of internal/tui/model.go: processes in the order of their tree, by depth-first
// search over parent links that may be missing, shared or cyclic.

module TreeOrder {
  import opened Sets

  datatype Process = Process(pid: int, ppid: int, command: string)

  // The parent links of processes with distinct PIDs.
  type Links = map<int, int>

  function Pids(ps: seq<Process>): set<int> { set p | p in ps :: p.pid }

  predicate Distinct(ps: seq<Process>) {
    forall i, j :: 0 <= i < j < |ps| ==> ps[i].pid != ps[j].pid
  }

  ghost predicate Describes(m: Links, ps: seq<Process>) {
    m.Keys == Pids(ps) && forall p :: p in ps ==> m[p.pid] == p.ppid
  }

  // Ancestors and levels --------------------------------------------------------------------

  // a is the n-th process up from x.
  ghost predicate Above(m: Links, a: int, x: int, n: nat)
    decreases n
  {
    if n == 0 then a == x else x in m && Above(m, a, m[x], n - 1)
  }

  // The n-th step up from x leaves the listed processes.
  ghost predicate Level(m: Links, x: int, n: nat)
    decreases n
  {
    if n == 0 then x !in m else x in m && Level(m, m[x], n - 1)
  }

  ghost predicate Rooted(m: Links, x: int) { exists n: nat :: Level(m, x, n) }

  // The subtree of a.
  ghost function Below(m: Links, a: int): set<int> { set x | x in m && exists n: nat :: Above(m, a, x, n) }

  lemma {:induction false} LevelIsUnique(m: Links, x: int, n: nat, k: nat)
    requires Level(m, x, n) && Level(m, x, k)
    ensures n == k
    decreases n
  {
    if n > 0 && k > 0 { LevelIsUnique(m, m[x], n - 1, k - 1); }
  }

  lemma {:induction false} LevelBelow(m: Links, a: int, x: int, n: nat, k: nat)
    requires Above(m, a, x, n) && Level(m, a, k)
    ensures Level(m, x, n + k)
    decreases n
  {
    if n > 0 { LevelBelow(m, a, m[x], n - 1, k); }
  }

  lemma {:induction false} AboveIsUnique(m: Links, a: int, b: int, x: int, n: nat)
    requires Above(m, a, x, n) && Above(m, b, x, n)
    ensures a == b
    decreases n
  {
    if n > 0 { AboveIsUnique(m, a, b, m[x], n - 1); }
  }

  lemma {:induction false} AboveAbove(m: Links, a: int, b: int, x: int, n: nat, k: nat)
    requires Above(m, b, x, n) && Above(m, a, b, k)
    ensures Above(m, a, x, n + k)
    decreases n
  {
    if n > 0 { AboveAbove(m, a, b, m[x], n - 1, k); }
  }

  // Processes of one level have disjoint subtrees.
  lemma SameLevelDisjoint(m: Links, a: int, b: int, k: nat)
    requires Level(m, a, k) && Level(m, b, k) && a != b
    ensures Below(m, a) !! Below(m, b)
  {
    forall x | x in Below(m, a) && x in Below(m, b) ensures false {
      var i: nat :| Above(m, a, x, i);
      var j: nat :| Above(m, b, x, j);
      LevelBelow(m, a, x, i, k);
      LevelBelow(m, b, x, j, k);
      LevelIsUnique(m, x, i + k, j + k);
      AboveIsUnique(m, a, b, x, i);
    }
  }

  // A child's subtree is within its parent's and, if the parent is rooted, without it.
  lemma ChildBelow(m: Links, a: int, c: int)
    requires a in m && c in m && m[c] == a
    ensures Below(m, c) <= Below(m, a)
    ensures Rooted(m, a) ==> Rooted(m, c) && a !in Below(m, c) && |Below(m, c)| < |Below(m, a)|
  {
    assert Above(m, a, c, 1) by { assert Above(m, a, m[c], 0); }
    forall x | x in Below(m, c) ensures x in Below(m, a) {
      var n: nat :| Above(m, c, x, n);
      AboveAbove(m, a, c, x, n, 1);
    }
    if Rooted(m, a) {
      var k: nat :| Level(m, a, k);
      assert Level(m, c, k + 1);
      if a in Below(m, c) {
        var n: nat :| Above(m, c, a, n);
        LevelBelow(m, c, a, n, k + 1);
        LevelIsUnique(m, a, k, n + k + 1);
      }
      assert Above(m, a, a, 0) && a in Below(m, a);
      StrictSubsetIsSmaller(Below(m, c), Below(m, a));
    }
  }

  // The order of the tree -------------------------------------------------------------------

  // A rooted process, then the subtrees of its children in the order of the list.
  ghost function Preorder(ps: seq<Process>, m: Links, i: nat): (r: seq<Process>)
    requires Describes(m, ps) && i < |ps| && Rooted(m, ps[i].pid)
    ensures r != [] && r[0] == ps[i]
    decreases |Below(m, ps[i].pid)|, |ps| + 1
  {
    [ps[i]] + Children(ps, m, i, |ps|)
  }

  // The subtrees of the children among the first k processes.
  ghost function Children(ps: seq<Process>, m: Links, i: nat, k: nat): seq<Process>
    requires Describes(m, ps) && i < |ps| && Rooted(m, ps[i].pid) && k <= |ps|
    decreases |Below(m, ps[i].pid)|, k
  {
    if k == 0 then [] else
    var before := Children(ps, m, i, k - 1);
    if ps[k - 1].ppid == ps[i].pid then
      ChildBelow(m, ps[i].pid, ps[k - 1].pid);
      before + Preorder(ps, m, k - 1)
    else before
  }

  // The subtrees of the roots among the first k processes.
  ghost function Forest(ps: seq<Process>, m: Links, k: nat): seq<Process>
    requires Describes(m, ps) && k <= |ps|
  {
    if k == 0 then [] else
    var before := Forest(ps, m, k - 1);
    if ps[k - 1].ppid !in m then
      RootIsRooted(m, ps[k - 1].pid);
      before + Preorder(ps, m, k - 1)
    else before
  }

  lemma RootIsRooted(m: Links, x: int)
    requires x in m && m[x] !in m
    ensures Level(m, x, 1) && Rooted(m, x)
  {
    var n := 1;
    assert Level(m, m[x], n - 1) && Level(m, x, n);
  }

  // x is in the subtree of one of the first k processes whose parent is a.
  ghost predicate BelowChild(ps: seq<Process>, m: Links, a: int, k: nat, x: int) {
    exists j :: 0 <= j < k <= |ps| && ps[j].ppid == a && x in Below(m, ps[j].pid)
  }

  ghost predicate BelowRoot(ps: seq<Process>, m: Links, k: nat, x: int) {
    exists j :: 0 <= j < k <= |ps| && ps[j].ppid !in m && x in Below(m, ps[j].pid)
  }

  lemma PidsConcat(a: seq<Process>, b: seq<Process>)
    ensures Pids(a + b) == Pids(a) + Pids(b)
  {
    forall x | x in Pids(a) + Pids(b) ensures x in Pids(a + b) {
      if x in Pids(a) {
        var p :| p in a && p.pid == x;
        assert p in a + b;
      } else {
        var p :| p in b && p.pid == x;
        assert p in a + b;
      }
    }
  }

  // The block of a rooted process holds exactly its subtree.
  lemma {:induction false} PreorderIsSubtree(ps: seq<Process>, m: Links, i: nat)
    requires Describes(m, ps) && i < |ps| && Rooted(m, ps[i].pid)
    ensures Pids(Preorder(ps, m, i)) == Below(m, ps[i].pid)
    decreases |Below(m, ps[i].pid)|, |ps| + 1
  {
    var a := ps[i].pid;
    PidsConcat([ps[i]], Children(ps, m, i, |ps|));
    forall x ensures x in Pids(Children(ps, m, i, |ps|)) <==> BelowChild(ps, m, a, |ps|, x) {
      ChildrenAreSubtrees(ps, m, i, |ps|, x);
    }
    forall x ensures x in Below(m, a) <==> x == a || BelowChild(ps, m, a, |ps|, x) {
      BelowIsChildren(ps, m, a, x);
    }
  }

  lemma {:induction false} ChildrenAreSubtrees(ps: seq<Process>, m: Links, i: nat, k: nat, x: int)
    requires Describes(m, ps) && i < |ps| && Rooted(m, ps[i].pid) && k <= |ps|
    ensures x in Pids(Children(ps, m, i, k)) <==> BelowChild(ps, m, ps[i].pid, k, x)
    decreases |Below(m, ps[i].pid)|, k
  {
    if k > 0 {
      ChildrenAreSubtrees(ps, m, i, k - 1, x);
      if ps[k - 1].ppid == ps[i].pid {
        ChildBelow(m, ps[i].pid, ps[k - 1].pid);
        PreorderIsSubtree(ps, m, k - 1);
        PidsConcat(Children(ps, m, i, k - 1), Preorder(ps, m, k - 1));
      }
    }
  }

  lemma BelowIsChildren(ps: seq<Process>, m: Links, a: int, x: int)
    requires Describes(m, ps) && a in m
    ensures x in Below(m, a) <==> x == a || BelowChild(ps, m, a, |ps|, x)
  {
    assert Above(m, a, a, 0);
    if x in Below(m, a) && x != a {
      var n: nat :| Above(m, a, x, n);
      UnderChild(ps, m, a, x, n);
    }
    if BelowChild(ps, m, a, |ps|, x) {
      var j :| 0 <= j < |ps| && ps[j].ppid == a && x in Below(m, ps[j].pid);
      assert ps[j] in ps;
      ChildBelow(m, a, ps[j].pid);
    }
  }

  lemma {:induction false} UnderChild(ps: seq<Process>, m: Links, a: int, x: int, n: nat)
    requires Describes(m, ps) && x in m && n > 0 && Above(m, a, x, n)
    ensures BelowChild(ps, m, a, |ps|, x)
    decreases n
  {
    if n == 1 {
      var p :| p in ps && p.pid == x;
      var j :| 0 <= j < |ps| && ps[j] == p;
      assert Above(m, x, x, 0);
    } else {
      UnderChild(ps, m, a, m[x], n - 1);
      var j :| 0 <= j < |ps| && ps[j].ppid == a && m[x] in Below(m, ps[j].pid);
      var k: nat :| Above(m, ps[j].pid, m[x], k);
      assert Above(m, ps[j].pid, x, k + 1);
    }
  }

  lemma {:induction false} ForestIsRooted(ps: seq<Process>, m: Links, k: nat, x: int)
    requires Describes(m, ps) && k <= |ps|
    ensures x in Pids(Forest(ps, m, k)) <==> BelowRoot(ps, m, k, x)
  {
    if k > 0 {
      ForestIsRooted(ps, m, k - 1, x);
      if ps[k - 1].ppid !in m {
        RootIsRooted(m, ps[k - 1].pid);
        PreorderIsSubtree(ps, m, k - 1);
        PidsConcat(Forest(ps, m, k - 1), Preorder(ps, m, k - 1));
      }
    }
  }

  // The walk --------------------------------------------------------------------------------

  ghost function Unseen(ps: seq<Process>, r: seq<Process>): nat { |Pids(ps) - Pids(r)| }

  // What visiting process i makes of the result r, on any links: nothing if its PID is there
  // already, else the process and then what visiting its children makes.
  ghost function Visited(ps: seq<Process>, i: nat, r: seq<Process>): (s: seq<Process>)
    requires i < |ps|
    ensures r <= s && Pids(r) <= Pids(s) && ps[i].pid in Pids(s)
    decreases Unseen(ps, r), 0
  {
    if ps[i].pid in Pids(r) then r else
    Appending(ps, i, r);
    ChildrenVisited(ps, i, 0, r + [ps[i]])
  }

  // The children among the processes from the k-th on.
  ghost function ChildrenVisited(ps: seq<Process>, i: nat, k: nat, r: seq<Process>): (s: seq<Process>)
    requires i < |ps| && k <= |ps|
    ensures r <= s && Pids(r) <= Pids(s)
    decreases Unseen(ps, r), |ps| - k
  {
    if k == |ps| then r else
    var next := if ps[k].ppid == ps[i].pid then Visited(ps, k, r) else r;
    NoMoreUnseen(ps, r, next);
    ChildrenVisited(ps, i, k + 1, next)
  }

  lemma Appending(ps: seq<Process>, i: nat, r: seq<Process>)
    requires i < |ps| && ps[i].pid !in Pids(r)
    ensures Pids(r + [ps[i]]) == Pids(r) + {ps[i].pid} && Unseen(ps, r + [ps[i]]) < Unseen(ps, r)
  {
    PidsConcat(r, [ps[i]]);
    StrictSubsetIsSmaller(Pids(ps) - Pids(r + [ps[i]]), Pids(ps) - Pids(r));
  }

  lemma NoMoreUnseen(ps: seq<Process>, r: seq<Process>, s: seq<Process>)
    requires Pids(r) <= Pids(s)
    ensures Unseen(ps, s) <= Unseen(ps, r)
  {
    if Pids(ps) - Pids(s) != Pids(ps) - Pids(r) { StrictSubsetIsSmaller(Pids(ps) - Pids(s), Pids(ps) - Pids(r)); }
  }

  // No PID comes twice and nothing comes from elsewhere.
  ghost predicate Selection(ps: seq<Process>, r: seq<Process>) {
    Distinct(r) && forall p :: p in r ==> p in ps
  }

  lemma OneMore(ps: seq<Process>, i: nat, r: seq<Process>)
    requires i < |ps| && Selection(ps, r) && ps[i].pid !in Pids(r)
    ensures Selection(ps, r + [ps[i]])
  {
    assert forall j :: 0 <= j < |r| ==> r[j].pid in Pids(r);
  }

  lemma {:induction false} VisitedSelects(ps: seq<Process>, i: nat, r: seq<Process>)
    requires i < |ps| && Selection(ps, r)
    ensures Selection(ps, Visited(ps, i, r))
    decreases Unseen(ps, r), 0
  {
    if ps[i].pid !in Pids(r) {
      Appending(ps, i, r);
      OneMore(ps, i, r);
      ChildrenSelect(ps, i, 0, r + [ps[i]]);
    }
  }

  lemma {:induction false} ChildrenSelect(ps: seq<Process>, i: nat, k: nat, r: seq<Process>)
    requires i < |ps| && k <= |ps| && Selection(ps, r)
    ensures Selection(ps, ChildrenVisited(ps, i, k, r))
    decreases Unseen(ps, r), |ps| - k
  {
    hide Selection, Visited;
    if k < |ps| {
      var next := if ps[k].ppid == ps[i].pid then Visited(ps, k, r) else r;
      if ps[k].ppid == ps[i].pid { VisitedSelects(ps, k, r); }
      NoMoreUnseen(ps, r, next);
      ChildrenSelect(ps, i, k + 1, next);
    }
  }

  // Visiting a rooted process appends its subtree in the order of the tree, if all of the
  // subtree is still to come.
  lemma {:induction false} VisitedIsPreorder(ps: seq<Process>, m: Links, i: nat, r: seq<Process>)
    requires Describes(m, ps) && Distinct(ps) && i < |ps| && Rooted(m, ps[i].pid)
    requires Below(m, ps[i].pid) !! Pids(r)
    ensures Visited(ps, i, r) == r + Preorder(ps, m, i)
    decreases |Below(m, ps[i].pid)|, |ps| + 1
  {
    assert ps[i].pid in Below(m, ps[i].pid) by { assert Above(m, ps[i].pid, ps[i].pid, 0); }
    ChildrenInOrder(ps, m, i, 0, r);
    assert UpToChild(ps, m, i, 0, r) == r + [ps[i]];
  }

  // What has been appended when the walk has come to the k-th candidate for a child.
  ghost function UpToChild(ps: seq<Process>, m: Links, i: nat, k: nat, start: seq<Process>): seq<Process>
    requires Describes(m, ps) && i < |ps| && Rooted(m, ps[i].pid) && k <= |ps|
  {
    start + ([ps[i]] + Children(ps, m, i, k))
  }

  lemma {:induction false} ChildrenInOrder(ps: seq<Process>, m: Links, i: nat, k: nat, start: seq<Process>)
    requires Describes(m, ps) && Distinct(ps) && i < |ps| && Rooted(m, ps[i].pid) && k <= |ps|
    requires Below(m, ps[i].pid) !! Pids(start)
    ensures ChildrenVisited(ps, i, k, UpToChild(ps, m, i, k, start)) == UpToChild(ps, m, i, |ps|, start)
    decreases |Below(m, ps[i].pid)|, |ps| - k
  {
    hide Visited, UpToChild, Preorder, Distinct;
    if k < |ps| {
      if ps[k].ppid == ps[i].pid {
        ChildBelow(m, ps[i].pid, ps[k].pid);
        ChildIsFresh(ps, m, i, k, start);
        VisitedIsPreorder(ps, m, k, UpToChild(ps, m, i, k, start));
        ChildAppended(ps, m, i, k, start);
      } else {
        NoChild(ps, m, i, k, start);
      }
      ChildrenInOrder(ps, m, i, k + 1, start);
    }
  }

  lemma NoChild(ps: seq<Process>, m: Links, i: nat, k: nat, start: seq<Process>)
    requires Describes(m, ps) && i < |ps| && k < |ps| && Rooted(m, ps[i].pid) && ps[k].ppid != ps[i].pid
    ensures UpToChild(ps, m, i, k, start) == UpToChild(ps, m, i, k + 1, start)
  {}

  lemma ChildAppended(ps: seq<Process>, m: Links, i: nat, k: nat, start: seq<Process>)
    requires Describes(m, ps) && i < |ps| && k < |ps| && Rooted(m, ps[i].pid) && Rooted(m, ps[k].pid)
    requires ps[k].ppid == ps[i].pid
    ensures UpToChild(ps, m, i, k, start) + Preorder(ps, m, k) == UpToChild(ps, m, i, k + 1, start)
  {
    var p, c, b := [ps[i]], Children(ps, m, i, k), Preorder(ps, m, k);
    assert Children(ps, m, i, k + 1) == c + b;
    assert (start + (p + c)) + b == start + (p + (c + b));
  }

  // A child's subtree has nothing of what the walk has seen when it comes to the child.
  lemma ChildIsFresh(ps: seq<Process>, m: Links, i: nat, k: nat, start: seq<Process>)
    requires Describes(m, ps) && Distinct(ps) && i < |ps| && k < |ps| && Rooted(m, ps[i].pid)
    requires ps[k].ppid == ps[i].pid && Below(m, ps[i].pid) !! Pids(start)
    ensures Rooted(m, ps[k].pid) && Below(m, ps[k].pid) !! Pids(UpToChild(ps, m, i, k, start))
  {
    ChildBelow(m, ps[i].pid, ps[k].pid);
    SiblingsDisjoint(ps, m, i, k);
    PidsConcat(start, [ps[i]] + Children(ps, m, i, k));
    PidsConcat([ps[i]], Children(ps, m, i, k));
    assert Pids([ps[i]]) == {ps[i].pid};
  }

  lemma SiblingsDisjoint(ps: seq<Process>, m: Links, i: nat, k: nat)
    requires Describes(m, ps) && Distinct(ps) && i < |ps| && k < |ps| && Rooted(m, ps[i].pid)
    requires ps[k].ppid == ps[i].pid
    ensures Below(m, ps[k].pid) !! Pids(Children(ps, m, i, k))
  {
    var a, c := ps[i].pid, ps[k].pid;
    var n: nat :| Level(m, a, n);
    assert Level(m, c, n + 1);
    forall x | x in Pids(Children(ps, m, i, k)) ensures x !in Below(m, c) {
      ChildrenAreSubtrees(ps, m, i, k, x);
      var j :| 0 <= j < k && ps[j].ppid == a && x in Below(m, ps[j].pid);
      assert ps[j] in ps && Level(m, ps[j].pid, n + 1);
      SameLevelDisjoint(m, ps[j].pid, c, n + 1);
    }
  }

  lemma RootIsFresh(ps: seq<Process>, m: Links, k: nat)
    requires Describes(m, ps) && Distinct(ps) && k < |ps| && ps[k].ppid !in m
    ensures Rooted(m, ps[k].pid) && Below(m, ps[k].pid) !! Pids(Forest(ps, m, k))
  {
    RootIsRooted(m, ps[k].pid);
    forall x | x in Pids(Forest(ps, m, k)) ensures x !in Below(m, ps[k].pid) {
      ForestIsRooted(ps, m, k, x);
      var j :| 0 <= j < k && ps[j].ppid !in m && x in Below(m, ps[j].pid);
      assert ps[j] in ps;
      RootIsRooted(m, ps[j].pid);
      SameLevelDisjoint(m, ps[j].pid, ps[k].pid, 1);
    }
  }

  class Walk {
    const ps: seq<Process>
    var seen: set<int>
    var result: seq<Process>

    ghost predicate Valid()
      reads this
    {
      seen == Pids(result)
    }

    constructor (ps: seq<Process>)
      ensures Valid() && this.ps == ps && result == []
    {
      this.ps, seen, result := ps, {}, [];
    }

    method Visit(i: nat)
      requires Valid() && i < |ps|
      modifies this
      ensures Valid() && result == Visited(ps, i, old(result))
      decreases Unseen(ps, result), 0
    {
      if ps[i].pid in seen { return; }
      Appending(ps, i, result);
      seen := seen + {ps[i].pid};
      result := result + [ps[i]];
      VisitChildren(i);
    }

    // The loop of visit.
    method VisitChildren(i: nat)
      requires Valid() && i < |ps|
      modifies this
      ensures Valid() && result == ChildrenVisited(ps, i, 0, old(result))
      decreases Unseen(ps, result), 1
    {
      for k := 0 to |ps|
        invariant Valid() && Pids(old(result)) <= Pids(result)
        invariant ChildrenVisited(ps, i, 0, old(result)) == ChildrenVisited(ps, i, k, result)
      {
        if ps[k].ppid == ps[i].pid {
          NoMoreUnseen(ps, old(result), result);
          Visit(k);
        }
      }
    }
  }

  predicate SortedByPid(ps: seq<Process>) {
    forall i, j :: 0 <= i < j < |ps| ==> ps[i].pid <= ps[j].pid
  }

  // Sorts by PID; processes of one PID come out in any order.
  method SortByPid(ps: seq<Process>) returns (sorted: seq<Process>)
    ensures multiset(sorted) == multiset(ps) && SortedByPid(sorted)
  {
    sorted := [];
    for n := 0 to |ps|
      invariant multiset(sorted) == multiset(ps[..n]) && SortedByPid(sorted)
    {
      assert ps[..n + 1] == ps[..n] + [ps[n]];
      sorted := Insert(sorted, ps[n]);
    }
    assert ps[..|ps|] == ps;
  }

  method Insert(ps: seq<Process>, p: Process) returns (sorted: seq<Process>)
    requires SortedByPid(ps)
    ensures multiset(sorted) == multiset(ps) + multiset{p} && SortedByPid(sorted)
  {
    var k := 0;
    while k < |ps| && ps[k].pid < p.pid
      invariant k <= |ps|
      invariant forall i :: 0 <= i < k ==> ps[i].pid < p.pid
    {
      k := k + 1;
    }
    InsertSorted(ps[..k], p, ps[k..], ps);
    sorted := ps[..k] + [p] + ps[k..];
  }

  lemma InsertSorted(a: seq<Process>, p: Process, b: seq<Process>, ps: seq<Process>)
    requires ps == a + b && SortedByPid(ps)
    requires (forall q :: q in a ==> q.pid <= p.pid) && (b != [] ==> p.pid <= b[0].pid)
    ensures multiset(a + [p] + b) == multiset(ps) + multiset{p} && SortedByPid(a + [p] + b)
  {
    var sorted := a + [p] + b;
    forall i, j | 0 <= i < j < |sorted| ensures sorted[i].pid <= sorted[j].pid {
      if i < |a| { assert sorted[i] == ps[i] == a[i] && a[i] in a; }
      if i > |a| { assert sorted[i] == ps[i - 1]; }
      if j > |a| { assert sorted[j] == ps[j - 1] && p.pid <= ps[|a|].pid <= ps[j - 1].pid; }
      if j < |a| { assert sorted[j] == ps[j]; }
    }
  }

  // The links of a list; of processes with one PID the last one counts.
  ghost function LinksOf(ps: seq<Process>): Links {
    if ps == [] then map[] else LinksOf(ps[..|ps| - 1])[ps[|ps| - 1].pid := ps[|ps| - 1].ppid]
  }

  lemma {:induction false} LinksDescribe(ps: seq<Process>)
    ensures LinksOf(ps).Keys == Pids(ps)
    ensures Distinct(ps) ==> Describes(LinksOf(ps), ps)
  {
    if ps != [] {
      var before, p := ps[..|ps| - 1], ps[|ps| - 1];
      LinksDescribe(before);
      assert ps == before + [p];
      PidsConcat(before, [p]);
      assert Pids([p]) == {p.pid};
    }
  }

  // The rooted processes in the order of their trees, then the others.
  ghost predicate InTreeOrder(ps: seq<Process>, m: Links, result: seq<Process>) {
    && Describes(m, ps)
    && Forest(ps, m, |ps|) <= result
    && forall k :: |Forest(ps, m, |ps|)| <= k < |result| ==> !Rooted(m, result[k].pid)
  }

  // Visiting the roots among the processes from the k-th on, and visiting all of these.
  ghost function RootsVisited(ps: seq<Process>, k: nat, r: seq<Process>): seq<Process>
    requires k <= |ps|
    decreases |ps| - k
  {
    if k == |ps| then r
    else RootsVisited(ps, k + 1, if ps[k].ppid !in Pids(ps) then Visited(ps, k, r) else r)
  }

  ghost function AllVisited(ps: seq<Process>, k: nat, r: seq<Process>): seq<Process>
    requires k <= |ps|
    decreases |ps| - k
  {
    if k == |ps| then r else AllVisited(ps, k + 1, Visited(ps, k, r))
  }

  // What the walk makes of the processes in the order ps.
  ghost function Ordered(ps: seq<Process>): seq<Process> { AllVisited(ps, 0, RootsVisited(ps, 0, [])) }

  ghost predicate SortOf(ps: seq<Process>, input: seq<Process>) {
    multiset(ps) == multiset(input) && SortedByPid(ps)
  }

  // For distinct PIDs the result is a permutation of the input in the order of its trees, with
  // roots and siblings by PID; in any case every PID comes once, with a process of the input.
  method TreeOrder(input: seq<Process>) returns (result: seq<Process>)
    ensures exists ps :: SortOf(ps, input) && result == Ordered(ps)
    ensures Pids(result) == Pids(input) && Selection(input, result)
    ensures Distinct(input) ==> multiset(result) == multiset(input)
    ensures Distinct(input) ==> exists ps :: SortOf(ps, input) && InTreeOrder(ps, LinksOf(ps), result)
  {
    var ps := SortByPid(input);
    var pids := Pids(ps);
    var walk := new Walk(ps);
    for k := 0 to |ps|
      invariant walk.Valid() && walk.ps == ps
      invariant RootsVisited(ps, 0, []) == RootsVisited(ps, k, walk.result)
    {
      if ps[k].ppid !in pids { walk.Visit(k); }
    }
    ghost var roots := walk.result;
    for k := 0 to |ps|
      invariant walk.Valid() && walk.ps == ps
      invariant AllVisited(ps, 0, roots) == AllVisited(ps, k, walk.result)
    {
      walk.Visit(k);
    }
    result := walk.result;
    OrderedMeans(ps, result);
    SortKeeps(ps, input);
  }

  lemma OrderedMeans(ps: seq<Process>, result: seq<Process>)
    requires result == Ordered(ps)
    ensures Pids(result) == Pids(ps) && Selection(ps, result)
    ensures Distinct(ps) ==> multiset(result) == multiset(ps) && InTreeOrder(ps, LinksOf(ps), result)
  {
    var roots := RootsVisited(ps, 0, []);
    RootsSelect(ps, 0, []);
    AllSelect(ps, 0, roots);
    forall j: nat | j < |ps| ensures ps[j].pid in Pids(result) && roots <= result { AllAreVisited(ps, 0, roots, j); }
    SamePids(ps, result);
    if Distinct(ps) {
      SamePidsSameProcesses(ps, result);
      LinksDescribe(ps);
      RootsAreForest(ps, LinksOf(ps), 0);
      RestIsUnrooted(ps, LinksOf(ps), result);
    }
  }

  // Sorting keeps the processes, and PIDs that are distinct stay so.
  lemma SortKeeps(ps: seq<Process>, input: seq<Process>)
    requires multiset(ps) == multiset(input)
    ensures (forall p :: p in ps <==> p in input) && Pids(ps) == Pids(input)
    ensures Distinct(input) ==> Distinct(ps)
  {
    forall p ensures p in ps <==> p in input { assert p in multiset(ps) <==> p in multiset(input); }
    if Distinct(input) {
      forall i, j | 0 <= i < j < |ps| ensures ps[i].pid != ps[j].pid {
        assert ps[i] in input && ps[j] in input;
        if ps[i].pid == ps[j].pid {
          TwoOfOne(ps, i, j);
          CountsOnce(input, ps[i]);
        }
      }
    }
  }

  lemma TwoOfOne(ps: seq<Process>, i: nat, j: nat)
    requires i < j < |ps| && ps[i] == ps[j]
    ensures multiset(ps)[ps[i]] >= 2
  {
    assert ps == ps[..j] + [ps[j]] + ps[j + 1..];
    assert ps[i] in ps[..j];
  }

  lemma {:induction false} RootsSelect(ps: seq<Process>, k: nat, r: seq<Process>)
    requires k <= |ps| && Selection(ps, r)
    ensures Selection(ps, RootsVisited(ps, k, r))
    decreases |ps| - k
  {
    if k < |ps| {
      VisitedSelects(ps, k, r);
      RootsSelect(ps, k + 1, if ps[k].ppid !in Pids(ps) then Visited(ps, k, r) else r);
    }
  }

  lemma {:induction false} AllSelect(ps: seq<Process>, k: nat, r: seq<Process>)
    requires k <= |ps| && Selection(ps, r)
    ensures Selection(ps, AllVisited(ps, k, r))
    decreases |ps| - k
  {
    if k < |ps| {
      VisitedSelects(ps, k, r);
      AllSelect(ps, k + 1, Visited(ps, k, r));
    }
  }

  lemma {:induction false} AllAreVisited(ps: seq<Process>, k: nat, r: seq<Process>, j: nat)
    requires k <= |ps| && j < |ps| && (j < k ==> ps[j].pid in Pids(r))
    ensures r <= AllVisited(ps, k, r) && ps[j].pid in Pids(AllVisited(ps, k, r))
    decreases |ps| - k
  {
    if k < |ps| { AllAreVisited(ps, k + 1, Visited(ps, k, r), j); }
  }

  lemma {:induction false} RootsAreForest(ps: seq<Process>, m: Links, k: nat)
    requires Describes(m, ps) && Distinct(ps) && k <= |ps|
    ensures RootsVisited(ps, k, Forest(ps, m, k)) == Forest(ps, m, |ps|)
    decreases |ps| - k
  {
    if k < |ps| {
      if ps[k].ppid !in m {
        RootIsFresh(ps, m, k);
        VisitedIsPreorder(ps, m, k, Forest(ps, m, k));
      }
      RootsAreForest(ps, m, k + 1);
    }
  }

  lemma SamePids(ps: seq<Process>, result: seq<Process>)
    requires forall j :: 0 <= j < |ps| ==> ps[j].pid in Pids(result)
    requires forall p :: p in result ==> p in ps
    ensures Pids(result) == Pids(ps)
  {}

  lemma {:induction false} CountsOnce(ps: seq<Process>, p: Process)
    requires Distinct(ps)
    ensures multiset(ps)[p] == if p in ps then 1 else 0
  {
    if ps != [] {
      var before, last := ps[..|ps| - 1], ps[|ps| - 1];
      assert ps == before + [last];
      CountsOnce(before, p);
    }
  }

  lemma SamePidsSameProcesses(ps: seq<Process>, result: seq<Process>)
    requires Distinct(ps) && Distinct(result) && Pids(result) == Pids(ps) && forall p :: p in result ==> p in ps
    ensures multiset(result) == multiset(ps)
  {
    forall p ensures multiset(ps)[p] == multiset(result)[p] {
      CountsOnce(ps, p);
      CountsOnce(result, p);
      if p in ps {
        assert p.pid in Pids(ps);
        var q :| q in result && q.pid == p.pid;
      }
    }
  }

  lemma {:induction false} RootedIsBelowRoot(ps: seq<Process>, m: Links, x: int, n: nat)
    requires Describes(m, ps) && x in m && Level(m, x, n)
    ensures BelowRoot(ps, m, |ps|, x)
    decreases n
  {
    if n == 1 {
      var p :| p in ps && p.pid == x;
      var j :| 0 <= j < |ps| && ps[j] == p;
      assert Above(m, x, x, 0);
    } else {
      RootedIsBelowRoot(ps, m, m[x], n - 1);
      var j :| 0 <= j < |ps| && ps[j].ppid !in m && m[x] in Below(m, ps[j].pid);
      var k: nat :| Above(m, ps[j].pid, m[x], k);
      assert Above(m, ps[j].pid, x, k + 1);
    }
  }

  lemma RestIsUnrooted(ps: seq<Process>, m: Links, result: seq<Process>)
    requires Describes(m, ps) && Distinct(result) && Forest(ps, m, |ps|) <= result
    requires forall p :: p in result ==> p in ps
    ensures InTreeOrder(ps, m, result)
  {
    var forest := Forest(ps, m, |ps|);
    forall k | |forest| <= k < |result| ensures !Rooted(m, result[k].pid) {
      var x := result[k].pid;
      assert result[k] in result && x in m;
      if Rooted(m, x) {
        var n: nat :| Level(m, x, n);
        RootedIsBelowRoot(ps, m, x, n);
        ForestIsRooted(ps, m, |ps|, x);
      }
    }
  }

  // What the order means --------------------------------------------------------------------

  ghost predicate PartOf(part: seq<Process>, whole: seq<Process>) {
    exists before, after :: whole == before + part + after
  }

  lemma PartOfPart(a: seq<Process>, b: seq<Process>, c: seq<Process>)
    requires PartOf(a, b) && PartOf(b, c)
    ensures PartOf(a, c)
  {
    var before, after :| b == before + a + after;
    var outer, rest :| c == outer + b + rest;
    assert c == (outer + before) + a + (after + rest);
  }

  lemma PartOfSum(a: seq<Process>, b: seq<Process>)
    ensures PartOf(a, a + b) && PartOf(b, a + b)
  {
    assert a + b == [] + a + b && a + b == a + b + [];
  }

  lemma {:induction false} ChildIsPart(ps: seq<Process>, m: Links, i: nat, j: nat, k: nat)
    requires Describes(m, ps) && i < |ps| && Rooted(m, ps[i].pid) && j < k <= |ps| && ps[j].ppid == ps[i].pid
    ensures Rooted(m, ps[j].pid) && PartOf(Preorder(ps, m, j), Children(ps, m, i, k))
    decreases k
  {
    ChildBelow(m, ps[i].pid, ps[j].pid);
    var before := Children(ps, m, i, k - 1);
    if j == k - 1 {
      PartOfSum(before, Preorder(ps, m, j));
    } else {
      ChildIsPart(ps, m, i, j, k - 1);
      if ps[k - 1].ppid == ps[i].pid {
        ChildBelow(m, ps[i].pid, ps[k - 1].pid);
        PartOfSum(before, Preorder(ps, m, k - 1));
        PartOfPart(Preorder(ps, m, j), before, Children(ps, m, i, k));
      }
    }
  }

  lemma {:induction false} RootIsPart(ps: seq<Process>, m: Links, j: nat, k: nat)
    requires Describes(m, ps) && j < k <= |ps| && ps[j].ppid !in m
    ensures Rooted(m, ps[j].pid) && PartOf(Preorder(ps, m, j), Forest(ps, m, k))
    decreases k
  {
    RootIsRooted(m, ps[j].pid);
    var before := Forest(ps, m, k - 1);
    if j == k - 1 {
      PartOfSum(before, Preorder(ps, m, j));
    } else {
      RootIsPart(ps, m, j, k - 1);
      if ps[k - 1].ppid !in m {
        RootIsRooted(m, ps[k - 1].pid);
        PartOfSum(before, Preorder(ps, m, k - 1));
        PartOfPart(Preorder(ps, m, j), before, Forest(ps, m, k));
      }
    }
  }

  // The subtree of every rooted process is one block of the forest.
  lemma {:induction false} RootedIsPart(ps: seq<Process>, m: Links, i: nat, n: nat)
    requires Describes(m, ps) && i < |ps| && Level(m, ps[i].pid, n)
    ensures Rooted(m, ps[i].pid) && PartOf(Preorder(ps, m, i), Forest(ps, m, |ps|))
    decreases n
  {
    if ps[i].ppid !in m {
      RootIsPart(ps, m, i, |ps|);
    } else {
      var p :| p in ps && p.pid == ps[i].ppid;
      var j :| 0 <= j < |ps| && ps[j] == p;
      RootedIsPart(ps, m, j, n - 1);
      ChildIsPart(ps, m, j, i, |ps|);
      PartOfSum([ps[j]], Children(ps, m, j, |ps|));
      PartOfPart(Preorder(ps, m, i), Children(ps, m, j, |ps|), Preorder(ps, m, j));
      PartOfPart(Preorder(ps, m, i), Preorder(ps, m, j), Forest(ps, m, |ps|));
    }
  }

  // A rooted process is followed by the rest of its subtree, and by nothing else before that.
  lemma SubtreesAreContiguous(ps: seq<Process>, m: Links, result: seq<Process>, i: nat) returns (lo: nat, hi: nat)
    requires InTreeOrder(ps, m, result) && i < |ps| && Rooted(m, ps[i].pid)
    ensures lo < hi <= |result| && result[lo] == ps[i] && Pids(result[lo..hi]) == Below(m, ps[i].pid)
  {
    var n: nat :| Level(m, ps[i].pid, n);
    RootedIsPart(ps, m, i, n);
    var block, forest := Preorder(ps, m, i), Forest(ps, m, |ps|);
    var before, after :| forest == before + block + after;
    lo, hi := |before|, |before + block|;
    assert forest[lo..hi] == block && result[..|forest|] == forest;
    assert result[lo..hi] == block && result[lo] == block[0];
    PreorderIsSubtree(ps, m, i);
  }

  // A rooted process comes after its parent.
  lemma ParentsFirst(ps: seq<Process>, m: Links, result: seq<Process>, parent: nat, child: nat)
    requires InTreeOrder(ps, m, result) && Distinct(ps) && forall p :: p in result ==> p in ps
    requires parent < |ps| && child < |ps| && ps[child].ppid == ps[parent].pid && Rooted(m, ps[child].pid)
    ensures exists a, b :: 0 <= a < b < |result| && result[a] == ps[parent] && result[b] == ps[child]
  {
    var n: nat :| Level(m, ps[child].pid, n);
    assert Level(m, ps[parent].pid, n - 1);
    var lo, hi := SubtreesAreContiguous(ps, m, result, parent);
    ChildBelow(m, ps[parent].pid, ps[child].pid);
    assert Above(m, ps[child].pid, ps[child].pid, 0);
    assert ps[child].pid in Pids(result[lo..hi]);
    var q :| q in result[lo..hi] && q.pid == ps[child].pid;
    var b :| lo <= b < hi && result[b] == q;
    assert q in result;
  }
}
