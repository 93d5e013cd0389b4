/** The tree of file system nodes: parent pointers up, copied child lists down, and paths parsed and printed. */
module Vfs {
  // ---------------------------------------------------------------- paths

  /** Either slash. */
  predicate IsSep(c: char) {
    c == '/' || c == '\\'
  }

  predicate ValidName(s: string) {
    s != "" && forall i | 0 <= i < |s| :: !IsSep(s[i])
  }

  function SkipSeps(p: string): (r: string)
    ensures |r| <= |p| && (r != "" ==> !IsSep(r[0]))
  {
    if p != "" && IsSep(p[0]) then SkipSeps(p[1..]) else p
  }

  function NameLen(p: string): (n: nat)
    ensures n <= |p|
    ensures forall i | 0 <= i < n :: !IsSep(p[i])
    ensures n < |p| ==> IsSep(p[n])
  {
    if p != "" && !IsSep(p[0]) then 1 + NameLen(p[1..]) else 0
  }

  /** The first name of a path and what follows it; no name when only separators are left. */
  method SplitPath(path: string) returns (head: string, tail: string)
    ensures head == Head(path) && tail == Tail(path)
  {
    var p := path;
    while p != "" && IsSep(p[0])
      invariant SkipSeps(p) == SkipSeps(path)
      decreases |p|
    {
      p := p[1..];
    }
    for i := 0 to |p|
      invariant forall k | 0 <= k < i :: !IsSep(p[k])
    {
      if IsSep(p[i]) {
        NameEnds(p, i);
        return p[..i], p[i..];
      }
    }
    NameEnds(p, |p|);
    return p, "";
  }

  lemma {:induction false} NameEnds(p: string, n: nat)
    requires n <= |p| && (n < |p| ==> IsSep(p[n])) && forall k | 0 <= k < n :: !IsSep(p[k])
    ensures NameLen(p) == n
  {
    if n > 0 {
      NameEnds(p[1..], n - 1);
    }
  }

  function Head(path: string): string {
    var p := SkipSeps(path);
    p[..NameLen(p)]
  }

  function Tail(path: string): string {
    var p := SkipSeps(path);
    p[NameLen(p)..]
  }

  lemma HeadTail(path: string)
    ensures Head(path) != "" ==> ValidName(Head(path)) && |Tail(path)| < |path|
  {
  }

  /** The names a path is made of. */
  function Components(path: string): (names: seq<string>)
    ensures forall n | n in names :: ValidName(n)
    decreases |path|
  {
    HeadTail(path);
    if Head(path) == "" then [] else [Head(path)] + Components(Tail(path))
  }

  function Printed(names: seq<string>): string {
    if names == [] then "" else Printed(names[..|names| - 1]) + "/" + names[|names| - 1]
  }

  /** The path of the root is a separator; of any other node, a separator before each name. */
  function Print(names: seq<string>): string {
    if names == [] then "/" else Printed(names)
  }

  lemma {:induction false} PrintedFirst(names: seq<string>)
    requires names != []
    ensures Printed(names) == "/" + names[0] + Printed(names[1..])
  {
    if |names| == 1 {
      assert names[..0] == [] && names[1..] == [];
      assert Printed(names) == "" + "/" + names[0] == "/" + names[0] + "";
    } else {
      var n := |names| - 1;
      PrintedFirst(names[..n]);
      var rest := names[1..];
      assert names[..n][1..] == rest[..n - 1] && rest[n - 1] == names[n];
      assert Printed(rest) == Printed(rest[..n - 1]) + "/" + names[n];
    }
  }

  lemma ParseName(name: string, rest: string)
    requires ValidName(name) && (rest == "" || IsSep(rest[0]))
    ensures Head("/" + name + rest) == name && Tail("/" + name + rest) == rest
  {
    var p := "/" + name + rest;
    assert p[1..] == name + rest;
    assert !IsSep(name[0]);
    assert SkipSeps(p) == name + rest;
    NameEnds(name + rest, |name|);
  }

  /** Printing and parsing again gives the same names. */
  lemma {:induction false} PrintThenParse(names: seq<string>)
    requires forall n | n in names :: ValidName(n)
    ensures Components(Print(names)) == names
  {
    if names == [] {
      assert Print(names)[1..] == "";
    } else {
      assert names[0] in names;
      PrintedFirst(names);
      var rest := Printed(names[1..]);
      assert rest == "" || IsSep(rest[0]) by {
        if names[1..] != [] {
          PrintedFirst(names[1..]);
        }
      }
      ParseName(names[0], rest);
      if names[1..] == [] {
        assert Components("") == [];
      } else {
        PrintThenParse(names[1..]);
      }
    }
  }

  /** The path of the root is "/"; any other has a slash and the first name in front of the path of the rest. */
  lemma PrintIs(names: seq<string>)
    ensures Print([]) == "/"
    ensures names != [] ==> Print(names) == "/" + names[0] + if |names| == 1 then "" else Print(names[1..])
  {
    if names != [] {
      PrintedFirst(names);
    }
  }

  /** Names are what has no slash of either kind in it: such names, printed with slashes before them, parse back. */
  lemma PlainNames(names: seq<string>)
    requires forall n | n in names :: n != "" && '/' !in n && '\\' !in n
    ensures Components(Print(names)) == names
  {
    PrintThenParse(names);
  }

  /** And no other string is a name of a path. */
  lemma NamesArePlain(path: string, n: string)
    requires n in Components(path)
    ensures n != "" && '/' !in n && '\\' !in n
  {
    assert ValidName(n);
  }

  /** The path with all backslashes turned. */
  function Slashed(path: string): (p: string)
    ensures |p| == |path| && forall i | 0 <= i < |p| :: p[i] == if path[i] == '\\' then '/' else path[i]
  {
    seq(|path|, i requires 0 <= i < |path| => if path[i] == '\\' then '/' else path[i])
  }

  /** A backslash parses like a slash. */
  lemma {:induction false} BackslashIsSlash(path: string)
    ensures Components(Slashed(path)) == Components(path)
    decreases |path|
  {
    hide Components;
    HeadSlashed(path);
    OneComponent(path);
    OneComponent(Slashed(path));
    if Head(path) != "" {
      HeadTail(path);
      BackslashIsSlash(Tail(path));
    }
  }

  lemma OneComponent(path: string)
    ensures Components(path) == if Head(path) == "" then [] else [Head(path)] + Components(Tail(path))
  {
  }

  lemma {:induction false} SkipSlashed(p: string)
    ensures SkipSeps(Slashed(p)) == Slashed(SkipSeps(p))
  {
    if p != "" && IsSep(p[0]) {
      SkipSlashed(p[1..]);
      assert Slashed(p)[1..] == Slashed(p[1..]);
    }
  }

  lemma HeadSlashed(path: string)
    ensures Head(Slashed(path)) == Head(path) && Tail(Slashed(path)) == Slashed(Tail(path))
  {
    hide SkipSeps, NameLen;
    SkipSlashed(path);
    var p := SkipSeps(path);
    var n := NameLen(p);
    NameEnds(Slashed(p), n);
    assert Slashed(p)[..n] == p[..n];
    assert Slashed(p)[n..] == Slashed(p[n..]);
  }

  /** A dot, for one, is no separator. */
  lemma DotInput()
    ensures Components("/src/main.go") == ["src", "main.go"] == Components("\\src\\main.go")
  {
    hide Components, Print, Slashed;
    PrintedInput();
    PlainNames(["src", "main.go"]);
    SlashedInput();
    BackslashIsSlash("\\src\\main.go");
  }

  lemma PrintedInput()
    ensures Print(["src", "main.go"]) == "/src/main.go"
    ensures forall n | n in ["src", "main.go"] :: n != "" && '/' !in n && '\\' !in n
  {
    hide Print;
    var names := ["src", "main.go"];
    PrintIs(names);
    assert names[1..] == ["main.go"];
    PrintIs(["main.go"]);
  }

  lemma SlashedInput()
    ensures Slashed("\\src\\main.go") == "/src/main.go"
  {
  }

  // ---------------------------------------------------------------- the tree

  /** The child of a list with the given name, if any. Lists of children are immutable. */
  function Child(l: seq<Node>, name: string): (c: Node?)
    ensures c != null ==> c in l && c.name == name
    ensures c == null <==> forall d | d in l :: d.name != name
  {
    if l == [] then null else if l[0].name == name then l[0] else
      assert l == [l[0]] + l[1..];
      Child(l[1..], name)
  }

  ghost predicate Siblings(l: seq<Node>) {
    && (forall i, j | 0 <= i < j < |l| :: l[i].name != l[j].name)
    && (forall c | c in l :: ValidName(c.name))
  }

  lemma ChildIs(l: seq<Node>, c: Node)
    requires Siblings(l) && c in l
    ensures Child(l, c.name) == c
  {
  }

  /** The names from the root down to a node; they never change. */
  ghost function Names(nd: Node): (names: seq<string>)
    ensures |names| <= nd.depth
    decreases nd.depth
  {
    if nd.parent == null || nd.parent.depth >= nd.depth then [] else Names(nd.parent) + [nd.name]
  }

  /** Every node but the root hangs below another. Parents never change, so this does not depend on the heap. */
  ghost predicate Rooted(root: Node, tree: set<Node>) {
    && root in tree && root.parent == null && root.depth == 0
    && forall n | n in tree && n != root :: n.parent != null && n.parent in tree && n.depth == n.parent.depth + 1
  }

  /** A tree: its nodes are linked both ways, and the names of siblings are distinct, not empty and without
      separators. */
  ghost predicate IsTree(root: Node, tree: set<Node>)
    reads tree
  {
    && Rooted(root, tree)
    && (forall n | n in tree :: Siblings(n.cl) && forall c | c in n.cl :: c in tree && c.parent == n)
    && (forall n | n in tree && n != root :: n in n.parent.cl)
  }

  /** Going down by names. */
  ghost function Walk(nd: Node, names: seq<string>, tree: set<Node>): Node?
    reads tree
    requires nd in tree && forall n, c | n in tree && c in n.cl :: c in tree
    decreases |names|
  {
    if names == [] then nd else
      var c := Child(nd.cl, names[0]);
      if c == null then null else Walk(c, names[1..], tree)
  }

  class Node {
    const parent: Node?
    const name: string
    var cl: seq<Node>
    ghost const depth: nat

    constructor Root()
      ensures parent == null && cl == [] && depth == 0
    {
      parent, name, cl, depth := null, "", [], 0;
    }

    /** Makes a node below another, which does not know of it yet. */
    constructor Make(parent: Node, name: string)
      ensures this.parent == parent && this.name == name && cl == [] && depth == parent.depth + 1
    {
      this.parent, this.name, cl, depth := parent, name, [], parent.depth + 1;
    }

    predicate IsRoot() {
      parent == null
    }

    /** The child of that name, which may have to be added, before all others. */
    method Touch(name: string, ghost root: Node, ghost tree: set<Node>) returns (c: Node, ghost tree': set<Node>)
      requires IsTree(root, tree) && this in tree && ValidName(name)
      modifies this
      ensures IsTree(root, tree') && c in tree'
      ensures c.parent == this && c.name == name && Names(c) == Names(this) + [name]
      ensures if Child(old(cl), name) == null
              then fresh(c) && tree' == tree + {c} && cl == [c] + old(cl) && c.cl == []
              else c == Child(old(cl), name) && tree' == tree && cl == old(cl)
    {
      var known := Find(name);
      if known != null {
        return known, tree;
      }
      var d := new Node.Make(this, name);
      cl := [d] + cl;
      return d, tree + {d};
    }

    method Find(name: string) returns (c: Node?)
      ensures c == Child(cl, name)
    {
      for i := 0 to |cl|
        invariant Child(cl[i..], name) == Child(cl, name)
      {
        if cl[i].name == name {
          return cl[i];
        }
        assert cl[i..][1..] == cl[i + 1..];
      }
      return null;
    }

    /** Looks a path up without changing anything. */
    method Peek(path: string, ghost root: Node, ghost tree: set<Node>) returns (n: Node?)
      requires IsTree(root, tree) && this in tree
      ensures n == Walk(this, Components(path), tree)
      decreases |path|
    {
      var head, rest := SplitPath(path);
      if head == "" {
        return this;
      }
      HeadTail(path);
      var c := Find(head);
      if c == null {
        return null;
      }
      n := c.Peek(rest, root, tree);
    }

    /** Looks a path up, adding at most the nodes that are missing on the way. */
    method Poke(path: string, ghost root: Node, ghost tree: set<Node>) returns (n: Node, ghost tree': set<Node>)
      requires IsTree(root, tree) && this in tree
      modifies tree
      ensures IsTree(root, tree') && tree <= tree' && fresh(tree' - tree)
      ensures n in tree' && Names(n) == Names(this) + Components(path)
      ensures forall m | m in tree' - tree :: Names(m) <= Names(n)
      ensures forall m | m in tree :: Grown(old(m.cl), m.cl)
      decreases |path|
    {
      hide IsTree, Names, Child, Grown, Components, Head, Tail, ValidName;
      forall m: Node | m in tree ensures Grown(m.cl, m.cl) { GrownOne(m.cl, m); }
      var head, rest := SplitPath(path);
      ComponentsOf(path, Names(this));
      if head == "" {
        return this, tree;
      }
      HeadTail(path);
      ghost var mid: set<Node>;
      var c: Node;
      c, mid := Touch(head, root, tree);
      label touched:
      assert Grown(old(cl), cl) by { GrownOne(old(cl), c); }
      n, tree' := c.Poke(rest, root, mid);
      forall m | m in tree ensures Grown(old(m.cl), m.cl) {
        GrownTwice(old(m.cl), old@touched(m.cl), m.cl);
      }
    }

    /** The path, by going up to the root and writing the names on the way back. */
    method Path(ghost root: Node, ghost tree: set<Node>) returns (p: string)
      requires IsTree(root, tree) && this in tree
      ensures p == Print(Names(this))
    {
      NamesOf(root, tree, this);
      if IsRoot() {
        return "/";
      }
      p := WriteUp(root, tree);
    }

    method WriteUp(ghost root: Node, ghost tree: set<Node>) returns (str: string)
      requires IsTree(root, tree) && this in tree
      ensures str == Printed(Names(this))
      decreases depth
    {
      NamesOf(root, tree, this);
      if parent == null {
        return "";
      }
      str := parent.WriteUp(root, tree);
      str := str + "/" + name;
      assert Names(this)[..|Names(this)| - 1] == Names(parent);
    }

    /** Whether the other node is above this one; the walk stops at the root, which is nobody's ancestor here. */
    method IsDescendant(ancestor: Node?, ghost root: Node, ghost tree: set<Node>) returns (yes: bool)
      requires IsTree(root, tree) && this in tree && (ancestor == null || ancestor in tree)
      ensures yes <==> ancestor != null && ancestor != root && Names(ancestor) < Names(this)
    {
      if ancestor == null {
        return false;
      }
      NamesOf(root, tree, this);
      NamesOf(root, tree, ancestor);
      var p := parent;
      while p != null && p.parent != null
        invariant p != null ==> p in tree && Names(p) <= Names(this) && |Names(p)| < |Names(this)|
        invariant p == null <==> this == root
        invariant Names(ancestor) < Names(this) ==> p != null && |Names(ancestor)| <= |Names(p)|
        decreases if p == null then 0 else p.depth
      {
        NamesOf(root, tree, p);
        if p == ancestor {
          return true;
        }
        if Names(ancestor) < Names(this) && |Names(ancestor)| == |Names(p)| {
          SameNames(root, tree, ancestor, p);
        }
        p := p.parent;
      }
      if p != null {
        NamesOf(root, tree, p);
      }
      return false;
    }

    /** The nearest node upwards, this one included, with a property. */
    method Closest(f: Node -> bool, ghost root: Node, ghost tree: set<Node>) returns (n: Node?)
      requires IsTree(root, tree) && this in tree
      ensures n != null ==> n in tree && f(n) && Names(n) <= Names(this)
      ensures forall a | a in tree && Names(a) <= Names(this) && f(a) :: n != null && |Names(a)| <= |Names(n)|
    {
      n := this;
      while n != null
        invariant n != null ==> n in tree && Names(n) <= Names(this)
        invariant forall a | a in tree && Names(a) <= Names(this) && f(a) :: n != null && |Names(a)| <= |Names(n)|
        decreases if n == null then 0 else n.depth + 1
      {
        if f(n) {
          return n;
        }
        NamesOf(root, tree, n);
        forall a | a in tree && Names(a) <= Names(this) && f(a) ensures |Names(a)| < |Names(n)| {
          if |Names(a)| == |Names(n)| {
            SameNames(root, tree, a, n);
          }
        }
        n := n.parent;
      }
    }

    /**
     * Looks for a file of the name here and then in every directory above; `stat` tells which paths
     * there are on disk. The nodes asked about are added, and no others.
     */
    method Locate(name: string, stat: string -> bool, ghost root: Node, ghost tree: set<Node>)
      returns (n: Node?, ghost tree': set<Node>)
      requires IsTree(root, tree) && this in tree && ValidName(name)
      modifies tree
      ensures IsTree(root, tree') && tree <= tree' && fresh(tree' - tree)
      ensures n != null ==> n in tree' && IsNearest(Names(this), name, stat, Names(n))
      ensures n == null ==> IsNowhere(Names(this), name, stat)
      ensures forall x | x in tree' - tree :: Names(x) != [] && Asked(Names(this), name, Names(x))
      decreases depth
    {
      hide IsTree, Child, Names, Print, IsNearest, IsNowhere, Asked;
      var c: Node;
      c, tree' := Touch(name, root, tree);
      RootNames(root, tree');
      NamesOf(root, tree', this);
      Levels(Names(this), name, stat);
      var p := c.Path(root, tree');
      if stat(p) {
        return c, tree';
      }
      if IsRoot() {
        return null, tree';
      }
      n, tree' := parent.Locate(name, stat, root, tree');
      LevelUp(Names(parent), this.name, name, stat, if n == null then [] else Names(n));
      forall x | x in tree' - tree ensures Names(x) != [] && Asked(Names(this), name, Names(x)) {
        if x != c {
          LevelUp(Names(parent), this.name, name, stat, Names(x));
        }
      }
    }

    /**
     * Makes the children those of a directory listing, in its order: a name that had a node keeps it, the others get a
     * new one, and a node whose name is gone goes with everything below it.
     */
    method ScanEnts(ents: seq<string>, ghost root: Node, ghost tree: set<Node>) returns (ghost tree': set<Node>)
      requires IsTree(root, tree) && this in tree
      requires forall i | 0 <= i < |ents| :: ValidName(ents[i]) && ents[i] !in ents[..i]
      modifies this
      ensures IsTree(root, tree') && fresh(tree' - tree)
      ensures |cl| == |ents| && forall i | 0 <= i < |ents| :: cl[i].name == ents[i]
      ensures forall c | c in old(cl) && c.name in ents :: c in cl
      ensures forall c | c in cl && c !in old(cl) :: fresh(c) && c.cl == []
      ensures forall n | n in tree :: n in tree' <==> !Gone(old(cl), ents, n)
    {
      hide ValidName, Names, Siblings, Gone, Child;
      Unique(root, tree);
      Hung(root, tree);
      var l: seq<Node> := [];
      ghost var made: set<Node> := {};
      for i := 0 to |ents|
        invariant |l| == i && cl == old(cl) && fresh(made)
        invariant forall j | 0 <= j < i :: l[j].name == ents[j] && (l[j] in cl || l[j] in made)
        invariant forall c | c in cl && c.name in ents[..i] :: c in l
        invariant forall c | c in made :: c in l && c.parent == this && c.depth == depth + 1 && c.cl == []
        invariant forall n | n in tree && n != this :: n.cl == old(n.cl)
      {
        var c := Find(ents[i]);
        FoundOrNot(cl, ents[i]);
        if c != null {
          l := l + [c];
        } else {
          var d := new Node.Make(this, ents[i]);
          made := made + {d};
          l := l + [d];
        }
      }
      assert ents[..|ents|] == ents;
      ghost var before := cl;
      cl := l;
      tree' := Left(tree, before, ents, made);
      ScannedSiblings(cl, ents);
      Scanned(root, tree, this, before, ents, made);
    }
  }

  /** A node that was dropped is above it, or it was dropped itself. */
  ghost predicate Gone(before: seq<Node>, ents: seq<string>, n: Node) {
    exists d :: d in before && d.name !in ents && Names(d) <= Names(n)
  }

  lemma FoundOrNot(l: seq<Node>, name: string)
    requires Siblings(l)
    ensures var c := Child(l, name);
            (c != null ==> c in l && c.name == name) && forall d | d in l && d.name == name :: d == c
  {
    forall d | d in l && d.name == name ensures d == Child(l, name) {
      ChildIs(l, d);
    }
  }

  lemma Unique(root: Node, tree: set<Node>)
    requires IsTree(root, tree)
    ensures forall m, n | m in tree && n in tree && Names(m) == Names(n) :: m == n
  {
    forall m, n | m in tree && n in tree && Names(m) == Names(n) ensures m == n {
      SameNames(root, tree, m, n);
    }
  }

  lemma GoneAbove(root: Node, tree: set<Node>, before: seq<Node>, ents: seq<string>, n: Node)
    requires Rooted(root, tree) && n in tree && n != root && Gone(before, ents, n.parent)
    ensures Gone(before, ents, n)
  {
    NamesOf(root, tree, n);
    var d :| d in before && d.name !in ents && Names(d) <= Names(n.parent);
    assert Names(d) <= Names(n.parent) + [n.name];
  }

  /** A node goes only with the one above it, or as one of the dropped. */
  lemma GoneFrom(root: Node, tree: set<Node>, before: seq<Node>, ents: seq<string>, n: Node)
    requires Rooted(root, tree) && n in tree && Gone(before, ents, n)
    requires forall m, n | m in tree && n in tree && Names(m) == Names(n) :: m == n
    requires forall c | c in before :: c in tree && c != root
    ensures n != root
    ensures (n in before && n.name !in ents) || Gone(before, ents, n.parent)
  {
    NamesOf(root, tree, n);
    var d :| d in before && d.name !in ents && Names(d) <= Names(n);
    NamesOf(root, tree, d);
    if Names(d) != Names(n) {
      assert Names(d) <= Names(n)[..|Names(n)| - 1];
    }
  }

  lemma NotGone(root: Node, tree: set<Node>, nd: Node, before: seq<Node>, ents: seq<string>)
    requires Rooted(root, tree) && nd in tree
    requires forall c | c in before :: c in tree && c.parent == nd && c != root
    ensures !Gone(before, ents, nd)
  {
    forall d | d in before ensures !(Names(d) <= Names(nd)) {
      NamesOf(root, tree, d);
    }
  }

  /** What is known when the new list is in place; `before` is the old one, and `made` are the new nodes. */
  ghost predicate Replaced(root: Node, tree: set<Node>, nd: Node, before: seq<Node>, ents: seq<string>, made: set<Node>)
    reads tree, made
  {
    && Rooted(root, tree) && nd in tree && Siblings(before) && made !! tree
    && (forall m, n | m in tree && n in tree && Names(m) == Names(n) :: m == n)
    && (forall n | n in tree && n != nd :: Siblings(n.cl))
    && (forall n, c | n in tree && n != nd && c in n.cl :: c in tree && c.parent == n && c != root)
    && (forall n | n in tree && n != root :: n in if n.parent == nd then before else n.parent.cl)
    && (forall c | c in before :: c in tree && c.parent == nd && c != root)
    && Siblings(nd.cl)
    && (forall c | c in nd.cl :: c.name in ents && (c in before || c in made))
    && (forall c | c in before && c.name in ents :: c in nd.cl)
    && (forall c | c in made :: c in nd.cl && c.parent == nd && c.depth == nd.depth + 1 && c.cl == [])
  }

  ghost function Left(tree: set<Node>, before: seq<Node>, ents: seq<string>, made: set<Node>): set<Node> {
    (set n | n in tree && !Gone(before, ents, n)) + made
  }

  /** A child stays when its parent does, unless it is one of the dropped. */
  lemma ChildLeft(root: Node, tree: set<Node>, nd: Node, before: seq<Node>, ents: seq<string>, made: set<Node>, c: Node)
    requires Replaced(root, tree, nd, before, ents, made)
    requires c in tree && (c != root ==> !Gone(before, ents, c.parent)) && (c in before ==> c.name in ents)
    ensures !Gone(before, ents, c)
  {
    hide Gone, Names, Siblings;
    if Gone(before, ents, c) {
      GoneFrom(root, tree, before, ents, c);
    }
  }

  /** The parent of a node that stays does too, and still has it. */
  lemma ParentLeft(root: Node, tree: set<Node>, nd: Node, before: seq<Node>, ents: seq<string>, made: set<Node>,
                   n: Node)
    requires Replaced(root, tree, nd, before, ents, made) && n in Left(tree, before, ents, made) && n != root
    ensures n.parent != null && n.parent in Left(tree, before, ents, made) && n in n.parent.cl
    ensures n.depth == n.parent.depth + 1
  {
    hide Gone, Names, Siblings;
    NotGone(root, tree, nd, before, ents);
    if n in tree {
      if Gone(before, ents, n.parent) {
        GoneAbove(root, tree, before, ents, n);
      }
      if n in before && n.name !in ents {
        DroppedGo(before, ents, n);
      }
    }
  }

  lemma ChildrenLeft(root: Node, tree: set<Node>, nd: Node, before: seq<Node>, ents: seq<string>, made: set<Node>,
                     n: Node)
    requires Replaced(root, tree, nd, before, ents, made) && n in Left(tree, before, ents, made)
    ensures Siblings(n.cl) && forall c | c in n.cl :: c in Left(tree, before, ents, made) && c.parent == n
  {
    hide Gone, Names, Siblings;
    NoSiblings();
    NotGone(root, tree, nd, before, ents);
    forall c | c in n.cl ensures c in Left(tree, before, ents, made) && c.parent == n {
      if c !in made {
        ChildLeft(root, tree, nd, before, ents, made, c);
      }
    }
  }

  /** With the new list in place, what is left of the tree and the new nodes are a tree. */
  lemma Scanned(root: Node, tree: set<Node>, nd: Node, before: seq<Node>, ents: seq<string>, made: set<Node>)
    requires Replaced(root, tree, nd, before, ents, made)
    ensures IsTree(root, Left(tree, before, ents, made))
  {
    hide Replaced, Siblings, Gone;
    RootLeft(root, tree, nd, before, ents, made);
    var left := Left(tree, before, ents, made);
    forall n | n in left && n != root
      ensures n.parent != null && n.parent in left && n in n.parent.cl && n.depth == n.parent.depth + 1
    {
      ParentLeft(root, tree, nd, before, ents, made, n);
    }
    forall n | n in left ensures Siblings(n.cl) && forall c | c in n.cl :: c in left && c.parent == n {
      ChildrenLeft(root, tree, nd, before, ents, made, n);
    }
  }

  lemma RootLeft(root: Node, tree: set<Node>, nd: Node, before: seq<Node>, ents: seq<string>, made: set<Node>)
    requires Replaced(root, tree, nd, before, ents, made)
    ensures root in Left(tree, before, ents, made) && root.parent == null && root.depth == 0
  {
    ChildLeft(root, tree, nd, before, ents, made, root);
  }

  lemma NoSiblings()
    ensures Siblings([])
  {
  }

  lemma DroppedGo(before: seq<Node>, ents: seq<string>, d: Node)
    requires d in before && d.name !in ents
    ensures Gone(before, ents, d)
  {
    assert Names(d) <= Names(d);
  }

  lemma ScannedSiblings(l: seq<Node>, ents: seq<string>)
    requires |l| == |ents| && forall i | 0 <= i < |ents| :: l[i].name == ents[i]
    requires forall i | 0 <= i < |ents| :: ValidName(ents[i]) && ents[i] !in ents[..i]
    ensures Siblings(l) && forall c | c in l :: c.name in ents
  {
    forall c | c in l ensures c.name in ents {
      var i :| 0 <= i < |l| && l[i] == c;
      assert ents[i] in ents;
    }
    forall i, j | 0 <= i < j < |l| ensures l[i].name != l[j].name {
      assert ents[..j][i] == ents[i];
    }
  }

  lemma Levels(at: seq<string>, name: string, stat: string -> bool)
    ensures Asked(at, name, at + [name])
    ensures stat(Print(at + [name])) ==> IsNearest(at, name, stat, at + [name])
    ensures at == [] && !stat(Print(at + [name])) ==> IsNowhere(at, name, stat)
  {
    assert (at + [name])[..|at|] == at[..|at|] == at;
  }

  lemma LevelUp(up: seq<string>, x: string, name: string, stat: string -> bool, names: seq<string>)
    ensures Asked(up, name, names) ==> Asked(up + [x], name, names)
    ensures IsNearest(up, name, stat, names) && !stat(Print(up + [x] + [name])) ==>
        IsNearest(up + [x], name, stat, names)
    ensures IsNowhere(up, name, stat) && !stat(Print(up + [x] + [name])) ==> IsNowhere(up + [x], name, stat)
  {
    hide Print;
    assert forall k | 0 <= k <= |up| :: (up + [x])[..k] == up[..k];
    assert (up + [x])[..|up + [x]|] == up + [x];
  }

  lemma ComponentsOf(path: string, base: seq<string>)
    ensures base + Components(path) == if Head(path) == "" then base else base + [Head(path)] + Components(Tail(path))
  {
    HeadTail(path);
  }

  /** The name was asked for at one of the levels. */
  ghost predicate Asked(at: seq<string>, name: string, names: seq<string>) {
    names != [] && |names| <= |at| + 1 && names == at[..|names| - 1] + [name]
  }

  /** Of all levels where the name exists, this is the deepest. */
  ghost predicate IsNearest(at: seq<string>, name: string, stat: string -> bool, names: seq<string>) {
    && Asked(at, name, names) && stat(Print(names))
    && forall k | |names| <= k <= |at| :: !stat(Print(at[..k] + [name]))
  }

  ghost predicate IsNowhere(at: seq<string>, name: string, stat: string -> bool) {
    forall k | 0 <= k <= |at| :: !stat(Print(at[..k] + [name]))
  }

  /** New children are put before the old ones. */
  ghost predicate Grown(before: seq<Node>, now: seq<Node>) {
    |before| <= |now| && now[|now| - |before|..] == before
  }

  lemma GrownOne(l: seq<Node>, c: Node)
    ensures Grown(l, l) && Grown(l, [c] + l)
  {
  }

  lemma GrownTwice(a: seq<Node>, b: seq<Node>, c: seq<Node>)
    requires Grown(a, b) && Grown(b, c)
    ensures Grown(a, c)
  {
  }

  // ---------------------------------------------------------------- names and nodes

  lemma NamesOf(root: Node, tree: set<Node>, n: Node)
    requires Rooted(root, tree) && n in tree
    ensures n == root <==> Names(n) == []
    ensures n != root ==> Names(n) == Names(n.parent) + [n.name]
  {
  }

  /** A node is known by its names. */
  lemma {:induction false} SameNames(root: Node, tree: set<Node>, m: Node, n: Node)
    requires IsTree(root, tree) && m in tree && n in tree && Names(m) == Names(n)
    ensures m == n
    decreases m.depth
  {
    NamesOf(root, tree, m);
    NamesOf(root, tree, n);
    if m != root && n != root {
      var k := |Names(m)| - 1;
      assert Names(m)[..k] == Names(m.parent) && Names(n)[..k] == Names(n.parent);
      assert m.name == Names(m)[k] == Names(n)[k] == n.name;
      SameNames(root, tree, m.parent, n.parent);
      ChildIs(m.parent.cl, m);
      ChildIs(m.parent.cl, n);
    }
  }

  /** Every beginning of the names of a node belongs to a node above it. */
  lemma {:induction false} Above(root: Node, tree: set<Node>, n: Node, k: nat) returns (a: Node)
    requires Rooted(root, tree) && n in tree && k <= |Names(n)|
    ensures a in tree && Names(a) == Names(n)[..k]
    decreases n.depth
  {
    NamesOf(root, tree, n);
    if k == |Names(n)| {
      a := n;
      assert Names(n)[..k] == Names(n);
    } else {
      a := Above(root, tree, n.parent, k);
      assert Names(n)[..k] == Names(n.parent)[..k];
    }
  }

  lemma {:induction false} WalkDown(root: Node, tree: set<Node>, nd: Node, names: seq<string>)
    requires IsTree(root, tree) && nd in tree
    ensures var r := Walk(nd, names, tree); r != null ==> r in tree && Names(r) == Names(nd) + names
    decreases |names|
  {
    if names == [] {
      assert Names(nd) + names == Names(nd);
    } else {
      var c := Child(nd.cl, names[0]);
      if c != null {
        NamesOf(root, tree, c);
        WalkDown(root, tree, c, names[1..]);
        assert Names(nd) + names == Names(nd) + [names[0]] + names[1..];
      }
    }
  }

  lemma {:induction false} WalkNext(root: Node, tree: set<Node>, nd: Node, names: seq<string>, x: string)
    requires IsTree(root, tree) && nd in tree
    ensures var r := Walk(nd, names, tree);
            Walk(nd, names + [x], tree) == if r == null then null else Child(r.cl, x)
    ensures Walk(nd, names, tree) != null ==> Walk(nd, names, tree) in tree
    decreases |names|
  {
    if names == [] {
      assert (names + [x])[1..] == [];
    } else {
      assert (names + [x])[1..] == names[1..] + [x];
      var c := Child(nd.cl, names[0]);
      if c != null {
        WalkNext(root, tree, c, names[1..], x);
      }
    }
  }

  lemma {:induction false} WalkFinds(root: Node, tree: set<Node>, n: Node)
    requires IsTree(root, tree) && n in tree
    ensures Walk(root, Names(n), tree) == n
    decreases n.depth
  {
    NamesOf(root, tree, n);
    if n != root {
      WalkFinds(root, tree, n.parent);
      WalkNext(root, tree, root, Names(n.parent), n.name);
      ChildIs(n.parent.cl, n);
    }
  }

  /** Looking names up from the root finds the node of these names, and nothing when the tree has none. */
  lemma WalkIs(root: Node, tree: set<Node>, names: seq<string>)
    requires IsTree(root, tree)
    ensures var r := Walk(root, names, tree);
            && (r != null ==> r in tree && Names(r) == names)
            && (r == null ==> forall n | n in tree :: Names(n) != names)
  {
    WalkDown(root, tree, root, names);
    NamesOf(root, tree, root);
    assert [] + names == names;
    forall n | n in tree && Names(n) == names ensures Walk(root, names, tree) == n {
      WalkFinds(root, tree, n);
    }
  }

  /** The path of a node leads back to it. */
  lemma PathLeadsBack(root: Node, tree: set<Node>, n: Node)
    requires IsTree(root, tree) && n in tree
    ensures Walk(root, Components(Print(Names(n))), tree) == n
  {
    NamesValid(root, tree, n);
    PrintThenParse(Names(n));
    WalkFinds(root, tree, n);
  }

  /** Two paths in the tree lead to the same node exactly when they are made of the same names. */
  lemma SamePlace(root: Node, tree: set<Node>, p: string, q: string)
    requires IsTree(root, tree)
    requires Walk(root, Components(p), tree) != null && Walk(root, Components(q), tree) != null
    ensures Walk(root, Components(p), tree) == Walk(root, Components(q), tree) <==> Components(p) == Components(q)
  {
    WalkIs(root, tree, Components(p));
    WalkIs(root, tree, Components(q));
  }

  lemma {:induction false} NamesValid(root: Node, tree: set<Node>, n: Node)
    requires IsTree(root, tree) && n in tree
    ensures forall x | x in Names(n) :: ValidName(x)
    decreases n.depth
  {
    NamesOf(root, tree, n);
    if n != root {
      NamesValid(root, tree, n.parent);
    }
  }

  lemma FirstIsNew(before: seq<Node>, now: seq<Node>)
    requires Grown(before, now) && Siblings(now) && |now| > |before|
    ensures now[0] !in before
  {
    var k := |now| - |before|;
    forall i | 0 <= i < |before| ensures before[i] != now[0] {
      assert now[k..][i] == now[k + i];
    }
  }

  /** A list that only grew, by nodes it had before, is the same. */
  lemma NoneAdded(before: seq<Node>, now: seq<Node>)
    requires Grown(before, now) && Siblings(now) && forall c | c in now :: c in before
    ensures now == before
  {
    if |now| > |before| {
      FirstIsNew(before, now);
    }
  }

  lemma Lookups(root: Node, tree: set<Node>)
    requires IsTree(root, tree)
    ensures forall names :: Walk(root, names, tree) != null ==>
              Walk(root, names, tree) in tree && Names(Walk(root, names, tree)) == names
    ensures forall m | m in tree :: Walk(root, Names(m), tree) == m
    ensures Names(root) == []
  {
    hide Walk, Names, Siblings;
    forall names ensures Walk(root, names, tree) != null ==>
                           Walk(root, names, tree) in tree && Names(Walk(root, names, tree)) == names
    {
      WalkIs(root, tree, names);
    }
    forall m | m in tree ensures Walk(root, Names(m), tree) == m {
      WalkFinds(root, tree, m);
    }
    RootNames(root, tree);
  }

  lemma RootNames(root: Node, tree: set<Node>)
    requires IsTree(root, tree)
    ensures Rooted(root, tree) && Names(root) == []
  {
  }

  lemma Hung(root: Node, tree: set<Node>)
    requires IsTree(root, tree)
    ensures forall n | n in tree && n != root :: n.parent != null && n in n.parent.cl
    ensures forall n, c | n in tree && c in n.cl :: c in tree && c.parent == n && c != root
    ensures forall n | n in tree :: Siblings(n.cl)
  {
  }

  /** When the node was there, so was everything on the way. */
  lemma NothingNew(root: Node, before: set<Node>, tree: set<Node>, n: Node, w: Node)
    requires Rooted(root, before) && IsTree(root, tree) && before <= tree
    requires w in before && n in tree && Names(n) == Names(w)
    requires forall x | x in tree - before :: Names(x) <= Names(n)
    ensures n == w && tree == before
  {
    hide Names;
    SameNames(root, tree, n, w);
    forall x | x in tree && Names(x) <= Names(w) ensures x in before {
      var a := Above(root, before, w, |Names(x)|);
      SameNames(root, tree, x, a);
    }
  }

  // ---------------------------------------------------------------- the file system

  class FS {
    const root: Node
    ghost var tree: set<Node>

    ghost predicate Valid()
      reads this, tree
    {
      IsTree(root, tree)
    }

    constructor ()
      ensures Valid() && tree == {root} && root.cl == [] && fresh(root)
    {
      root := new Node.Root();
      tree := {root};
    }

    method Peek(path: string) returns (n: Node?)
      requires Valid()
      ensures n == null <==> forall m | m in tree :: Names(m) != Components(path)
      ensures n != null ==> n in tree && Names(n) == Components(path)
      ensures forall m | m in tree :: path == Print(Names(m)) ==> n == m
    {
      n := root.Peek(path, root, tree);
      WalkIs(root, tree, Components(path));
      forall m | m in tree && path == Print(Names(m)) ensures n == m {
        PathLeadsBack(root, tree, m);
      }
    }

    /**
     * What a path names is there afterwards. What was there before keeps its place; what is new is on the way. A path
     * that named a node before names the same node now, and then nothing at all has changed.
     */
    method Poke(path: string) returns (n: Node)
      requires Valid()
      modifies this, tree
      ensures Valid() && old(tree) <= tree && fresh(tree - old(tree))
      ensures n in tree && Names(n) == Components(path) && n == Walk(root, Components(path), tree)
      ensures forall names :: old(Walk(root, names, tree)) != null ==>
                Walk(root, names, tree) == old(Walk(root, names, tree))
      ensures forall names :: Walk(root, names, tree) != null && old(Walk(root, names, tree)) == null ==>
                names <= Components(path)
      ensures old(Walk(root, Components(path), tree)) != null ==>
                tree == old(tree) && forall m | m in tree :: m.cl == old(m.cl)
    {
      hide IsTree, Walk, Names, Components, Rooted, Grown;
      Lookups(root, tree);
      RootNames(root, tree);
      Hung(root, tree);
      ghost var before := tree;
      assert [] + Components(path) == Components(path);
      n, tree := root.Poke(path, root, tree);
      Lookups(root, tree);
      Hung(root, tree);
      ghost var w := old(Walk(root, Components(path), tree));
      if w != null {
        NothingNew(root, before, tree, n, w);
        forall m | m in tree ensures m.cl == old(m.cl) {
          forall c | c in m.cl ensures c in old(m.cl) {
            assert c in before && c.parent == m;
          }
          assert Grown(old(m.cl), m.cl) && Siblings(m.cl);
          NoneAdded(old(m.cl), m.cl);
        }
      }
    }
  }
}
