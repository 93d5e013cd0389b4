/** The index of Go packages: a sorted list and three maps that must tell the same story. */
module PkgList {
  datatype Pkg = Pkg(dir: string, importPath: string, name: string)

  type Groups = map<string, seq<Pkg>>

  datatype View = View(list: seq<Pkg>, byDir: map<string, Pkg>, byImportPath: Groups, byName: Groups)

  // ---------------------------------------------------------------- the order of the list

  predicate StringLess(a: string, b: string) {
    b != "" && (a == "" || a[0] < b[0] || (a[0] == b[0] && StringLess(a[1..], b[1..])))
  }

  lemma {:induction false} StringOrder(a: string, b: string, c: string)
    ensures StringLess(a, b) || a == b || StringLess(b, a)
    ensures !(StringLess(a, b) && StringLess(b, a)) && !StringLess(a, a)
    ensures StringLess(a, b) && StringLess(b, c) ==> StringLess(a, c)
    decreases |a|
  {
    if a != "" {
      if b != "" && a[0] == b[0] {
        StringOrder(a[1..], b[1..], if c == "" then "" else c[1..]);
        assert a == [a[0]] + a[1..] && b == [b[0]] + b[1..];
      } else {
        StringOrder(a[1..], a[1..], a[1..]);
      }
    }
  }

  predicate Less(a: Pkg, b: Pkg) {
    if a.name != b.name then StringLess(a.name, b.name)
    else if a.importPath != b.importPath then StringLess(a.importPath, b.importPath)
    else StringLess(a.dir, b.dir)
  }

  lemma LessOrder(a: Pkg, b: Pkg, c: Pkg)
    ensures Less(a, b) || a == b || Less(b, a)
    ensures !(Less(a, b) && Less(b, a)) && !Less(a, a)
    ensures Less(a, b) && Less(b, c) ==> Less(a, c)
  {
    StringOrder(a.name, b.name, c.name);
    StringOrder(a.importPath, b.importPath, c.importPath);
    StringOrder(a.dir, b.dir, c.dir);
  }

  ghost predicate Sorted(l: seq<Pkg>) {
    forall i, j | 0 <= i < j < |l| :: Less(l[i], l[j])
  }

  /** Up to `k` both are the same; there one ends, or has the smaller character. */
  predicate LessAt(a: string, b: string, k: nat) {
    && k <= |a| && k < |b| && a[..k] == b[..k]
    && (k == |a| || a[k] < b[k])
  }

  lemma SameHead(a: string, b: string, k: nat)
    ensures LessAt(a, b, k) && k > 0 ==> a != "" && b != "" && a[0] == b[0]
  {
    if LessAt(a, b, k) && k > 0 {
      assert a[0] == a[..k][0] == b[..k][0] == b[0];
    }
  }

  /** Strings are compared as in a dictionary. */
  lemma {:induction false} StringLessIff(a: string, b: string)
    ensures StringLess(a, b) <==> exists k: nat :: LessAt(a, b, k)
    decreases |a|
  {
    if a != "" && b != "" && a[0] == b[0] {
      var a', b' := a[1..], b[1..];
      StringLessIff(a', b');
      if k: nat :| LessAt(a', b', k) {
        assert a[..k + 1] == [a[0]] + a'[..k] && b[..k + 1] == [b[0]] + b'[..k];
        assert LessAt(a, b, k + 1);
      }
      if k: nat :| LessAt(a, b, k) {
        assert k > 0;
        assert a'[..k - 1] == a[..k][1..] && b'[..k - 1] == b[..k][1..];
        assert LessAt(a', b', k - 1);
      }
    } else {
      if StringLess(a, b) {
        assert LessAt(a, b, 0);
      }
      if k: nat :| LessAt(a, b, k) {
        SameHead(a, b, k);
      }
    }
  }

  /** In the list names do not decrease, nor import paths where names are the same, nor directories where both are. */
  lemma SortedBy(l: seq<Pkg>, i: nat, j: nat)
    requires Sorted(l) && i < j < |l|
    ensures !StringLess(l[j].name, l[i].name)
    ensures l[i].name == l[j].name ==> !StringLess(l[j].importPath, l[i].importPath)
    ensures l[i].name == l[j].name && l[i].importPath == l[j].importPath ==> StringLess(l[i].dir, l[j].dir)
  {
    var a, b := l[i], l[j];
    StringOrder(a.name, b.name, "");
    StringOrder(a.importPath, b.importPath, "");
  }

  lemma HasOne(l: seq<Pkg>)
    ensures l != [] ==> exists p :: p in l
  {
    if l != [] {
      assert l[0] in l;
    }
  }

  /** There is only one way to sort a set of packages, whatever order they come in. */
  lemma {:induction false} SortedIsUnique(a: seq<Pkg>, b: seq<Pkg>)
    requires Sorted(a) && Sorted(b) && forall p :: p in a <==> p in b
    ensures a == b
  {
    if a == [] {
      HasOne(b);
    } else {
      assert a[0] in b && b != [];
      assert b[0] in a;
      LessOrder(a[0], b[0], a[0]);
      assert a[0] == b[0];
      TailOf(a);
      TailOf(b);
      SortedIsUnique(a[1..], b[1..]);
    }
  }

  lemma TailOf(a: seq<Pkg>)
    requires Sorted(a) && a != []
    ensures forall p :: p in a[1..] <==> p in a && p != a[0]
  {
    assert a == [a[0]] + a[1..];
    forall p | p in a[1..] ensures p != a[0] {
      var i :| 0 <= i < |a[1..]| && a[1..][i] == p;
      assert Less(a[0], a[i + 1]);
      LessOrder(p, p, p);
    }
  }

  method Insert(l: seq<Pkg>, p: Pkg) returns (r: seq<Pkg>)
    requires Sorted(l) && p !in l
    ensures Sorted(r) && forall q :: q in r <==> q in l || q == p
  {
    var i := 0;
    while i < |l| && Less(l[i], p)
      invariant 0 <= i <= |l| && forall j | 0 <= j < i :: Less(l[j], p)
    {
      i := i + 1;
    }
    r := l[..i] + [p] + l[i..];
    forall j | i <= j < |l| ensures Less(p, l[j]) {
      LessOrder(p, l[i], l[j]);
    }
  }

  // ---------------------------------------------------------------- the maps

  /** The three maps of a view. */
  datatype Maps = Maps(byDir: map<string, Pkg>, byImportPath: Groups, byName: Groups)

  function MapsOf(v: View): Maps {
    Maps(v.byDir, v.byImportPath, v.byName)
  }

  /** Every directory leads to a package in it. */
  ghost predicate Keyed(byDir: map<string, Pkg>) {
    forall d | d in byDir :: byDir[d].dir == d
  }

  function KeyOf(p: Pkg, byPath: bool): string {
    if byPath then p.importPath else p.name
  }

  ghost predicate NoDup(l: seq<Pkg>) {
    forall i, j | 0 <= i < j < |l| :: l[i] != l[j]
  }

  /** The groups hold the packages of the directories, each once and under its own key, and no group is empty. */
  ghost predicate GroupsAgree(g: Groups, byDir: map<string, Pkg>, byPath: bool) {
    && (forall k | k in g :: g[k] != [] && NoDup(g[k]))
    && (forall k, p | k in g && p in g[k] :: p.dir in byDir && byDir[p.dir] == p && KeyOf(p, byPath) == k)
    && (forall d | d in byDir :: KeyOf(byDir[d], byPath) in g && byDir[d] in g[KeyOf(byDir[d], byPath)])
  }

  /** The three maps list the same packages. */
  ghost predicate Agree(m: Maps) {
    Keyed(m.byDir) && GroupsAgree(m.byImportPath, m.byDir, true) && GroupsAgree(m.byName, m.byDir, false)
  }

  function Group(g: Groups, k: string): seq<Pkg> {
    if k in g then g[k] else []
  }

  function Appended(g: Groups, k: string, p: Pkg): Groups {
    g[k := Group(g, k) + [p]]
  }

  function AddOne(m: Maps, p: Pkg): Maps {
    Maps(m.byDir[p.dir := p], Appended(m.byImportPath, p.importPath, p), Appended(m.byName, p.name, p))
  }

  function AddAll(m: Maps, l: seq<Pkg>): Maps {
    if l == [] then m else AddOne(AddAll(m, l[..|l| - 1]), l[|l| - 1])
  }

  function Without(l: seq<Pkg>, dir: string): seq<Pkg> {
    if l == [] then [] else Without(l[..|l| - 1], dir) + if l[|l| - 1].dir == dir then [] else [l[|l| - 1]]
  }

  /** A group without the packages of a directory; an emptied group goes. */
  function Pruned(g: Groups, k: string, dir: string): Groups {
    if Group(g, k) == [] then g
    else if Without(g[k], dir) == [] then g - {k}
    else g[k := Without(g[k], dir)]
  }

  function PruneOne(m: Maps, dir: string): Maps
    requires dir in m.byDir
  {
    var p := m.byDir[dir];
    Maps(m.byDir - {p.dir}, Pruned(m.byImportPath, p.importPath, dir), Pruned(m.byName, p.name, dir))
  }

  // ---------------------------------------------------------------- the operations

  /** Copies the maps, but not the list. */
  method ShallowClone(v: View) returns (x: View)
    ensures MapsOf(x) == MapsOf(v) && x.list == []
  {
    x := View([], v.byDir, v.byImportPath, v.byName);
  }

  /** Adds the packages to the maps, and makes the list anew: all packages of the directories, sorted. */
  method Add(v: View, lst: seq<Pkg>) returns (x: View)
    requires Keyed(v.byDir)
    ensures MapsOf(x) == AddAll(MapsOf(v), lst)
    ensures Keyed(x.byDir)
    ensures Sorted(x.list) && forall p :: p in x.list <==> p.dir in x.byDir && x.byDir[p.dir] == p
  {
    x := ShallowClone(v);
    for i := 0 to |lst|
      invariant MapsOf(x) == AddAll(MapsOf(v), lst[..i]) && Keyed(x.byDir)
    {
      var p := lst[i];
      assert lst[..i + 1][..i] == lst[..i];
      x := x.(byDir := x.byDir[p.dir := p]);
      x := x.(byImportPath := Appended(x.byImportPath, p.importPath, p));
      x := x.(byName := Appended(x.byName, p.name, p));
    }
    assert lst[..|lst|] == lst;
    var list: seq<Pkg> := [];
    var left := x.byDir.Keys;
    while left != {}
      invariant left <= x.byDir.Keys && Sorted(list)
      invariant forall p :: p in list <==> p.dir in x.byDir && p.dir !in left && x.byDir[p.dir] == p
      decreases |left|
    {
      var d :| d in left;
      list := Insert(list, x.byDir[d]);
      left := left - {d};
    }
    x := x.(list := list);
  }

  method DelPkg(g: Groups, k: string, dir: string) returns (r: Groups)
    ensures r == Pruned(g, k, dir)
  {
    var l := Group(g, k);
    if |l| == 0 {
      return g;
    }
    var x: seq<Pkg> := [];
    for i := 0 to |l|
      invariant x == Without(l[..i], dir)
    {
      assert l[..i + 1][..i] == l[..i];
      if l[i].dir != dir {
        x := x + [l[i]];
      }
    }
    assert l[..|l|] == l;
    r := if |x| == 0 then g - {k} else g[k := x];
  }

  /** Takes the package of a directory out of the maps; the list is empty until packages are added again. */
  method PruneDir(v: View, path: string, clean: string -> string) returns (x: View)
    ensures clean(path) !in v.byDir ==> x == v
    ensures clean(path) in v.byDir ==> MapsOf(x) == PruneOne(MapsOf(v), clean(path)) && x.list == []
  {
    var dir := clean(path);
    if dir !in v.byDir {
      return v;
    }
    var p := v.byDir[dir];
    x := ShallowClone(v);
    x := x.(byDir := x.byDir - {p.dir});
    var byImportPath := DelPkg(x.byImportPath, p.importPath, dir);
    var byName := DelPkg(x.byName, p.name, dir);
    x := x.(byImportPath := byImportPath, byName := byName);
  }

  // ---------------------------------------------------------------- agreement

  lemma AddOneGroups(g: Groups, byDir: map<string, Pkg>, p: Pkg, byPath: bool)
    requires Keyed(byDir) && GroupsAgree(g, byDir, byPath) && p.dir !in byDir
    ensures GroupsAgree(Appended(g, KeyOf(p, byPath), p), byDir[p.dir := p], byPath)
  {
  }

  /** A directory has packages at two places of the names. */
  ghost predicate Twice(g: Groups, d: string) {
    exists k, i, n, j ::
      && Lists(g, k, i, d) && Lists(g, n, j, d)
      && (k != n || i != j)
  }

  ghost predicate Lists(g: Groups, k: string, i: int, d: string) {
    k in g && 0 <= i < |g[k]| && g[k][i].dir == d
  }

  lemma TwiceDisagrees(m: Maps, d: string)
    requires Twice(m.byName, d)
    ensures !Agree(m)
  {
    var k, i, n, j :| Lists(m.byName, k, i, d) && Lists(m.byName, n, j, d) && (k != n || i != j);
    assert m.byName[k][i] in m.byName[k] && m.byName[n][j] in m.byName[n];
  }

  lemma TwiceStays(g: Groups, d: string, p: Pkg)
    requires Twice(g, d)
    ensures Twice(Appended(g, p.name, p), d)
  {
    var k, i, n, j :| Lists(g, k, i, d) && Lists(g, n, j, d) && (k != n || i != j);
    assert Lists(Appended(g, p.name, p), k, i, d) && Lists(Appended(g, p.name, p), n, j, d);
  }

  lemma AgainIsTwice(m: Maps, p: Pkg)
    requires Agree(m) && p.dir in m.byDir
    ensures Twice(AddOne(m, p).byName, p.dir)
  {
    var q := m.byDir[p.dir];
    var i :| 0 <= i < |m.byName[q.name]| && m.byName[q.name][i] == q;
    var g := AddOne(m, p).byName;
    assert Lists(g, q.name, i, p.dir);
    assert Lists(g, p.name, |g[p.name]| - 1, p.dir);
    assert q.name == p.name ==> i < |g[p.name]| - 1;
  }

  function GroupOf(m: Maps, key: string, byPath: bool): seq<Pkg> {
    if byPath then Group(m.byImportPath, key) else Group(m.byName, key)
  }

  lemma AddedOne(m: Maps, p: Pkg, key: string, byPath: bool)
    ensures GroupOf(AddOne(m, p), key, byPath)
         == GroupOf(m, key, byPath) + if key == (if byPath then p.importPath else p.name) then [p] else []
  {
  }

  /** Each group is added to in the order of the list: by import path, or by name. */
  lemma {:induction false} AddedToGroups(m: Maps, l: seq<Pkg>, key: string, byPath: bool) returns (at: seq<nat>)
    ensures var was, now := GroupOf(m, key, byPath), GroupOf(AddAll(m, l), key, byPath);
            was <= now && |now| == |was| + |at| && forall k | 0 <= k < |at| :: at[k] < |l| && now[|was| + k] == l[at[k]]
    ensures forall j, k | 0 <= j < k < |at| :: at[j] < at[k]
    ensures forall n | 0 <= n < |l| :: n in at <==> key == if byPath then l[n].importPath else l[n].name
  {
    hide AddOne, GroupOf;
    if l == [] {
      at := [];
    } else {
      var n := |l| - 1;
      var before := AddedToGroups(m, l[..n], key, byPath);
      var here := key == if byPath then l[n].importPath else l[n].name;
      AddedOne(AddAll(m, l[..n]), l[n], key, byPath);
      at := before + if here then [n] else [];
      forall i | 0 <= i < |l| ensures i in at <==> key == if byPath then l[i].importPath else l[i].name {
        LastOrBefore(before, at, i, n, here);
        if i < n {
          assert l[..n][i] == l[i];
        }
      }
    }
  }

  lemma LastOrBefore(before: seq<nat>, at: seq<nat>, i: nat, n: nat, here: bool)
    requires at == before + (if here then [n] else []) && forall k | 0 <= k < |before| :: before[k] < n
    ensures i != n ==> (i in at <==> i in before)
    ensures n in at <==> here
  {
    if here {
      assert at[|at| - 1] == n;
    }
  }

  /** A directory leads to the last package added for it. */
  lemma {:induction false} AddedToDirs(m: Maps, l: seq<Pkg>, i: nat)
    requires i < |l| && forall j | i < j < |l| :: l[j].dir != l[i].dir
    ensures l[i].dir in AddAll(m, l).byDir && AddAll(m, l).byDir[l[i].dir] == l[i]
  {
    if i < |l| - 1 {
      AddedToDirs(m, l[..|l| - 1], i);
    }
  }

  /** Directories not in the index, and not twice in the list. */
  ghost predicate AllNew(byDir: map<string, Pkg>, l: seq<Pkg>) {
    forall i | 0 <= i < |l| :: l[i].dir !in byDir && forall j | 0 <= j < i :: l[j].dir != l[i].dir
  }

  lemma {:induction false} DirsAdded(m: Maps, l: seq<Pkg>)
    ensures forall d :: d in AddAll(m, l).byDir <==> d in m.byDir || exists i :: 0 <= i < |l| && l[i].dir == d
  {
    if l != [] {
      var l0, p := l[..|l| - 1], l[|l| - 1];
      DirsAdded(m, l0);
      forall d ensures d in AddAll(m, l).byDir <==> d in m.byDir || exists i :: 0 <= i < |l| && l[i].dir == d {
        if d == p.dir {
          assert l[|l| - 1].dir == d;
        } else if i :| 0 <= i < |l0| && l0[i].dir == d {
          assert l[i].dir == d;
        }
      }
    }
  }

  lemma AddOneAgrees(m: Maps, p: Pkg)
    requires Agree(m) && p.dir !in m.byDir
    ensures Agree(AddOne(m, p))
  {
    hide GroupsAgree;
    AddOneGroups(m.byImportPath, m.byDir, p, true);
    AddOneGroups(m.byName, m.byDir, p, false);
  }

  lemma AllNewNext(m: Maps, l: seq<Pkg>, p: Pkg)
    ensures AllNew(m.byDir, l + [p]) <==> AllNew(m.byDir, l) && p.dir !in AddAll(m, l).byDir
  {
    hide AddAll;
    DirsAdded(m, l);
    var all := l + [p];
    assert all[|l|] == p && forall i | 0 <= i < |l| :: all[i] == l[i];
    if AllNew(m.byDir, all) {
      assert forall i | 0 <= i < |l| :: all[i].dir !in m.byDir && forall j | 0 <= j < i :: all[j].dir != all[i].dir;
    }
  }

  /** Adding keeps the maps in agreement exactly when every directory added is new. */
  lemma {:induction false} AddAgrees(m: Maps, l: seq<Pkg>)
    requires Agree(m)
    ensures Agree(AddAll(m, l)) <==> AllNew(m.byDir, l)
    ensures !AllNew(m.byDir, l) ==> exists d :: Twice(AddAll(m, l).byName, d)
  {
    hide Agree, Twice, Appended, AllNew;
    if l == [] {
      assert AllNew(m.byDir, l) by { NoneNew(m.byDir); }
    } else {
      var l0, p := l[..|l| - 1], l[|l| - 1];
      var before := AddAll(m, l0);
      AddAgrees(m, l0);
      assert l == l0 + [p];
      AllNewNext(m, l0, p);
      if !AllNew(m.byDir, l0) {
        var d :| Twice(before.byName, d);
        TwiceStays(before.byName, d, p);
        TwiceDisagrees(AddAll(m, l), d);
      } else if p.dir in before.byDir {
        AgainIsTwice(before, p);
        TwiceDisagrees(AddAll(m, l), p.dir);
      } else {
        AddOneAgrees(before, p);
      }
    }
  }

  lemma NoneNew(byDir: map<string, Pkg>)
    ensures AllNew(byDir, [])
  {
  }

  lemma {:induction false} WithoutHas(l: seq<Pkg>, dir: string)
    ensures forall p :: p in Without(l, dir) <==> p in l && p.dir != dir
  {
    if l != [] {
      WithoutHas(l[..|l| - 1], dir);
      assert l == l[..|l| - 1] + [l[|l| - 1]];
    }
  }

  lemma {:induction false} WithoutNoDup(l: seq<Pkg>, dir: string)
    requires NoDup(l)
    ensures NoDup(Without(l, dir))
  {
    if l != [] {
      var l0, p := l[..|l| - 1], l[|l| - 1];
      assert forall i | 0 <= i < |l0| :: l0[i] == l[i];
      WithoutNoDup(l0, dir);
      WithoutHas(l0, dir);
      assert p !in l0;
    }
  }

  lemma {:induction false} WithoutNone(l: seq<Pkg>, dir: string)
    requires forall p | p in l :: p.dir != dir
    ensures Without(l, dir) == l
  {
    if l != [] {
      var l0, p := l[..|l| - 1], l[|l| - 1];
      assert l == l0 + [p];
      WithoutNone(l0, dir);
    }
  }

  lemma PruneGroups(g: Groups, byDir: map<string, Pkg>, dir: string, byPath: bool)
    requires Keyed(byDir) && GroupsAgree(g, byDir, byPath) && dir in byDir
    ensures GroupsAgree(Pruned(g, KeyOf(byDir[dir], byPath), dir), byDir - {dir}, byPath)
  {
    hide Without, NoDup, KeyOf;
    var k := KeyOf(byDir[dir], byPath);
    WithoutHas(g[k], dir);
    WithoutNoDup(g[k], dir);
    var r := Pruned(g, k, dir);
    assert forall n | n in r && n != k :: n in g && r[n] == g[n];
    forall n, p: Pkg | n in r && p in r[n]
      ensures p.dir in byDir - {dir} && byDir[p.dir] == p && KeyOf(p, byPath) == n
    {
      assert p in g[n] && byDir[p.dir] == p;
    }
    forall d | d in byDir - {dir} ensures KeyOf(byDir[d], byPath) in r && byDir[d] in r[KeyOf(byDir[d], byPath)] {
      if KeyOf(byDir[d], byPath) == k {
        assert byDir[d] in Without(g[k], dir);
      }
    }
  }

  /** Pruning keeps the maps in agreement. */
  lemma PruneAgrees(m: Maps, dir: string)
    requires Agree(m) && dir in m.byDir
    ensures Agree(PruneOne(m, dir)) && PruneOne(m, dir).byDir == m.byDir - {dir}
  {
    hide GroupsAgree, Pruned;
    PruneGroups(m.byImportPath, m.byDir, dir, true);
    PruneGroups(m.byName, m.byDir, dir, false);
  }

  lemma PruneAppended(g: Groups, byDir: map<string, Pkg>, p: Pkg, byPath: bool)
    requires Keyed(byDir) && GroupsAgree(g, byDir, byPath) && p.dir !in byDir
    ensures Pruned(Appended(g, KeyOf(p, byPath), p), KeyOf(p, byPath), p.dir) == g
  {
    hide NoDup, KeyOf;
    var k := KeyOf(p, byPath);
    var l := Group(g, k);
    WithoutNone(l, p.dir);
    assert (l + [p])[..|l + [p]| - 1] == l;
    assert Without(l + [p], p.dir) == l;
    var r := Pruned(Appended(g, k, p), k, p.dir);
    if k in g {
      assert r == g[k := l] == g;
    } else {
      assert r == g[k := [p]] - {k} == g;
    }
  }

  /** Pruning what was just added restores the maps exactly. */
  lemma AddThenPrune(m: Maps, p: Pkg)
    requires Agree(m) && p.dir !in m.byDir
    ensures PruneOne(AddAll(m, [p]), p.dir) == m
  {
    hide GroupsAgree, Pruned, Appended;
    assert [p][..0] == [];
    PruneAppended(m.byImportPath, m.byDir, p, true);
    PruneAppended(m.byName, m.byDir, p, false);
    assert m.byDir[p.dir := p] - {p.dir} == m.byDir;
  }
}
