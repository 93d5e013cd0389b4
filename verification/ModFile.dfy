/** Which module provides an import path: the table made from go.mod and go.sum, and the lookup in it. */
module ModFile {
  import opened Wrappers

  // ---------------------------------------------------------------- paths

  /** A part of the path between separators. */
  predicate Part(p: string, i: int, j: int) {
    && 0 <= i <= j <= |p|
    && (i == 0 || p[i - 1] == '/') && (j == |p| || p[j] == '/')
    && '/' !in p[i..j]
  }

  /** A relative path that cleaning leaves alone: no part is empty, "." or "..". */
  ghost predicate Clean(p: string) {
    forall i, j | Part(p, i, j) :: p[i..j] != "" && p[i..j] != "." && p[i..j] != ".."
  }

  function LastSlash(p: string): (i: int)
    ensures -1 <= i < |p|
    ensures i >= 0 ==> p[i] == '/'
    ensures forall k | i < k < |p| :: p[k] != '/'
  {
    if p == "" then -1 else if p[|p| - 1] == '/' then |p| - 1 else LastSlash(p[..|p| - 1])
  }

  /** The directory of a clean relative path, or nothing when it has none. */
  function PathParent(p: string): (r: string)
    ensures p != "" ==> |r| < |p|
  {
    var i := LastSlash(p);
    if i < 0 then "" else p[..i]
  }

  /** The path itself, or one that leads to it. */
  predicate PathPrefix(k: string, p: string) {
    k == p || k + "/" <= p
  }

  lemma {:induction false} CleanHead(p: string, i: nat)
    requires Clean(p) && i < |p| && p[i] == '/'
    ensures Clean(p[..i]) && i > 0
  {
    forall a, b | Part(p[..i], a, b) ensures p[..i][a..b] != "" && p[..i][a..b] != "." && p[..i][a..b] != ".." {
      assert p[..i][a..b] == p[a..b];
      assert Part(p, a, b);
    }
    if i == 0 {
      assert Part(p, 0, 0);
    }
  }

  lemma PrefixOfParent(k: string, p: string)
    requires Clean(p) && k != ""
    ensures PathPrefix(k, p) <==> k == p || (PathParent(p) != "" && PathPrefix(k, PathParent(p)))
  {
    var i := LastSlash(p);
    if i >= 0 {
      CleanHead(p, i);
      var q := p[..i];
      if k + "/" <= p {
        assert p[|k|] == (k + "/")[|k|] == '/';
        assert k == p[..|k|];
        if |k| < i {
          assert q[|k|] == '/';
          assert k + "/" == q[..|k| + 1];
        }
      }
      if k == q {
        assert k + "/" == p[..i + 1];
      } else if k + "/" <= q {
        assert k + "/" == q[..|k| + 1] == p[..|k| + 1];
      }
    } else {
      SlashIn(k, p);
    }
  }

  lemma SlashIn(k: string, p: string)
    ensures k + "/" <= p ==> |k| < |p| && p[|k|] == '/' && p == k + "/" + p[|k| + 1..]
  {
    if k + "/" <= p {
      assert p[|k|] == (k + "/")[|k|];
    }
  }

  // ---------------------------------------------------------------- the table

  datatype ModDep = ModDep(dir: string, modPath: string, subPkg: string, version: string, oldPath: string)

  type Deps = map<string, ModDep>

  datatype Mod = Mod(path: string, version: string)

  datatype Replace = Replace(from: Mod, to: Mod)

  /** The path a dependency is required by. */
  function Effective(md: ModDep): string {
    if md.oldPath != "" then md.oldPath else md.modPath
  }

  /** Dependencies are filed under the path they are required by. */
  ghost predicate Keyed(deps: Deps) {
    forall k | k in deps :: Effective(deps[k]) == k
  }

  function Required(m: Mod): ModDep {
    ModDep("", m.path, "", m.version, "")
  }

  /** `local` gives the directory of a replacement that is a directory with a go.mod file in it. */
  function Replaced(r: Replace, local: string -> Option<string>): ModDep {
    match local(r.to.path)
    case None => ModDep("", r.to.path, "", r.to.version, r.from.path)
    case Some(dir) => ModDep(dir, r.from.path, "", r.to.version, r.from.path)
  }

  predicate SumOk(fields: seq<string>, semver: string -> bool) {
    |fields| == 3 && semver(fields[1])
  }

  function LastRequire(l: seq<Mod>, k: string): Option<ModDep> {
    if l == [] then None else
      var r := l[|l| - 1];
      if r.path == k then Some(Required(r)) else LastRequire(l[..|l| - 1], k)
  }

  function LastReplace(l: seq<Replace>, k: string, local: string -> Option<string>): Option<ModDep> {
    if l == [] then None else
      var r := l[|l| - 1];
      if r.from.path == k then Some(Replaced(r, local)) else LastReplace(l[..|l| - 1], k, local)
  }

  function FirstSum(l: seq<seq<string>>, k: string, semver: string -> bool): Option<ModDep> {
    if l == [] then None else
      var before := FirstSum(l[..|l| - 1], k, semver);
      var f := l[|l| - 1];
      if before.Some? then before
      else if SumOk(f, semver) && f[0] == k then Some(Required(Mod(f[0], f[1])))
      else None
  }

  function Lookup(deps: Deps, k: string): Option<ModDep> {
    if k in deps then Some(deps[k]) else None
  }

  function Or(a: Option<ModDep>, b: Option<ModDep>): Option<ModDep> {
    if a.Some? then a else b
  }

  /** What a module file says of a path: itself first, then the last replacement, the last requirement, the first
      sum. */
  function Says(
    self: Mod, dir: string, required: seq<Mod>, replace: seq<Replace>, sums: seq<seq<string>>,
    local: string -> Option<string>, semver: string -> bool, k: string): Option<ModDep>
  {
    if k == self.path then Some(ModDep(dir, self.path, "", self.version, "")) else
      Or(LastReplace(replace, k, local), Or(LastRequire(required, k), FirstSum(sums, k, semver)))
  }

  /** The last one with the property. */
  ghost predicate LastAt<T>(l: seq<T>, i: int, has: T -> bool) {
    0 <= i < |l| && has(l[i]) && forall j | i < j < |l| :: !has(l[j])
  }

  ghost predicate FirstAt<T>(l: seq<T>, i: int, has: T -> bool) {
    0 <= i < |l| && has(l[i]) && forall j | 0 <= j < i :: !has(l[j])
  }

  lemma {:induction false} LastReplaceAt(l: seq<Replace>, k: string, local: string -> Option<string>, i: int)
    requires LastAt(l, i, (r: Replace) => r.from.path == k)
    ensures LastReplace(l, k, local) == Some(Replaced(l[i], local))
  {
    if i < |l| - 1 {
      LastReplaceAt(l[..|l| - 1], k, local, i);
    }
  }

  lemma {:induction false} LastRequireAt(l: seq<Mod>, k: string, i: int)
    requires LastAt(l, i, (r: Mod) => r.path == k)
    ensures LastRequire(l, k) == Some(Required(l[i]))
  {
    if i < |l| - 1 {
      LastRequireAt(l[..|l| - 1], k, i);
    }
  }

  lemma {:induction false} FirstSumAt(l: seq<seq<string>>, k: string, semver: string -> bool, i: int)
    requires FirstAt(l, i, (f: seq<string>) => |f| == 3 && semver(f[1]) && f[0] == k)
    ensures |l[i]| == 3 && FirstSum(l, k, semver) == Some(Required(Mod(k, l[i][1])))
  {
    var l0 := l[..|l| - 1];
    if i < |l| - 1 {
      FirstSumAt(l0, k, semver, i);
    } else {
      NoSum(l0, k, semver);
    }
  }

  lemma {:induction false} NoSum(l: seq<seq<string>>, k: string, semver: string -> bool)
    requires forall i | 0 <= i < |l| :: !(|l[i]| == 3 && semver(l[i][1]) && l[i][0] == k)
    ensures FirstSum(l, k, semver) == None
  {
    if l != [] {
      NoSum(l[..|l| - 1], k, semver);
    }
  }

  lemma {:induction false} NoReplace(l: seq<Replace>, k: string, local: string -> Option<string>)
    requires forall i | 0 <= i < |l| :: l[i].from.path != k
    ensures LastReplace(l, k, local) == None
  {
    if l != [] {
      NoReplace(l[..|l| - 1], k, local);
    }
  }

  lemma {:induction false} NoRequire(l: seq<Mod>, k: string)
    requires forall i | 0 <= i < |l| :: l[i].path != k
    ensures LastRequire(l, k) == None
  {
    if l != [] {
      NoRequire(l[..|l| - 1], k);
    }
  }

  /**
   * Where a path that is replaced leads, by the last replacement of it: with its version, to another path, or to a
   * directory of modules of its own, which keep the path. The path asked for stays the old one in both cases.
   */
  lemma ReplacedLeads(
    self: Mod, dir: string, required: seq<Mod>, replace: seq<Replace>, sums: seq<seq<string>>,
    local: string -> Option<string>, semver: string -> bool, k: string, i: int)
    requires k != self.path && LastAt(replace, i, (r: Replace) => r.from.path == k)
    ensures var to, said := replace[i].to, Says(self, dir, required, replace, sums, local, semver, k);
            && said.Some? && said.value.version == to.version && said.value.oldPath == k && said.value.subPkg == ""
            && (local(to.path).None? ==> said.value.modPath == to.path && said.value.dir == "")
            && (local(to.path).Some? ==> said.value.modPath == k && said.value.dir == local(to.path).value)
  {
    LastReplaceAt(replace, k, local, i);
  }

  /** A path that is not replaced leads to itself, with the version of its last requirement. */
  lemma RequiredLeads(
    self: Mod, dir: string, required: seq<Mod>, replace: seq<Replace>, sums: seq<seq<string>>,
    local: string -> Option<string>, semver: string -> bool, k: string, i: int)
    requires k != self.path && LastAt(required, i, (r: Mod) => r.path == k)
    requires forall j | 0 <= j < |replace| :: replace[j].from.path != k
    ensures Says(self, dir, required, replace, sums, local, semver, k)
         == Some(ModDep("", k, "", required[i].version, ""))
  {
    NoReplace(replace, k, local);
    LastRequireAt(required, k, i);
  }

  /** One that is not required either, with the version of its first good line in go.sum: one of three fields. */
  lemma SumLeads(
    self: Mod, dir: string, required: seq<Mod>, replace: seq<Replace>, sums: seq<seq<string>>,
    local: string -> Option<string>, semver: string -> bool, k: string, i: int)
    requires k != self.path && forall j | 0 <= j < |replace| :: replace[j].from.path != k
    requires forall j | 0 <= j < |required| :: required[j].path != k
    requires FirstAt(sums, i, (f: seq<string>) => |f| == 3 && semver(f[1]) && f[0] == k)
    ensures |sums[i]| == 3
    ensures Says(self, dir, required, replace, sums, local, semver, k) == Some(ModDep("", k, "", sums[i][1], ""))
  {
    NoReplace(replace, k, local);
    NoRequire(required, k);
    FirstSumAt(sums, k, semver, i);
  }

  lemma SaysNext(
    self: Mod, dir: string, required: seq<Mod>, replace: seq<Replace>, sums: seq<seq<string>>, f: seq<string>,
    local: string -> Option<string>, semver: string -> bool, k: string)
    ensures Says(self, dir, required, replace, sums + [f], local, semver, k)
         == Or(Says(self, dir, required, replace, sums, local, semver, k),
               if SumOk(f, semver) && f[0] == k then Some(Required(Mod(f[0], f[1]))) else None)
  {
    assert (sums + [f])[..|sums + [f]| - 1] == sums;
  }

  /** Makes the table; `sums` are the fields of the lines of go.sum, if there is one. */
  method LoadModSum(
    self: Mod, dir: string, required: seq<Mod>, replace: seq<Replace>, sums: Option<seq<seq<string>>>,
    local: string -> Option<string>, semver: string -> bool)
    returns (deps: Deps)
    requires forall r | r in replace :: r.from.path != ""
    ensures Keyed(deps)
    ensures forall k :: Lookup(deps, k)
              == Says(self, dir, required, replace, if sums.Some? then sums.value else [], local, semver, k)
  {
    deps := map[];
    for i := 0 to |required|
      invariant Keyed(deps) && forall k :: Lookup(deps, k) == LastRequire(required[..i], k)
    {
      assert required[..i + 1][..i] == required[..i];
      deps := deps[required[i].path := Required(required[i])];
    }
    assert required[..|required|] == required;
    for i := 0 to |replace|
      invariant Keyed(deps)
      invariant forall k :: Lookup(deps, k) == Or(LastReplace(replace[..i], k, local), LastRequire(required, k))
    {
      assert replace[..i + 1][..i] == replace[..i];
      deps := deps[replace[i].from.path := Replaced(replace[i], local)];
    }
    assert replace[..|replace|] == replace;
    deps := deps[self.path := ModDep(dir, self.path, "", self.version, "")];
    if sums.None? {
      return;
    }
    var lines := sums.value;
    for i := 0 to |lines|
      invariant Keyed(deps)
      invariant forall k :: Lookup(deps, k) == Says(self, dir, required, replace, lines[..i], local, semver, k)
    {
      var fields := lines[i];
      assert lines[..i + 1] == lines[..i] + [fields];
      ghost var before := deps;
      ghost var sum := if SumOk(fields, semver) then Some(Required(Mod(fields[0], fields[1]))) else None;
      forall k
        ensures Says(self, dir, required, replace, lines[..i + 1], local, semver, k)
             == Or(Lookup(before, k), if sum.Some? && sum.value.modPath == k then sum else None)
      {
        SaysNext(self, dir, required, replace, lines[..i], fields, local, semver, k);
      }
      if |fields| != 3 {
        continue;
      }
      var md := Required(Mod(fields[0], fields[1]));
      if !semver(md.version) {
        continue;
      }
      if md.modPath in deps {
        continue;
      }
      assert sum == Some(md) && Lookup(before, md.modPath) == None;
      deps := deps[md.modPath := md];
      assert Lookup(deps, md.modPath) == Some(md);
      forall k ensures Lookup(deps, k) == Says(self, dir, required, replace, lines[..i + 1], local, semver, k) {
        assert k != md.modPath ==> Lookup(deps, k) == Lookup(before, k);
      }
    }
    assert lines[..|lines|] == lines;
  }

  // ---------------------------------------------------------------- the lookup

  function RequireMD(deps: Deps, modPath: string): Option<ModDep>
    decreases |modPath|
  {
    if modPath in deps then Some(deps[modPath])
    else if PathParent(modPath) != "" then
      assert modPath != "";
      RequireMD(deps, PathParent(modPath))
    else None
  }

  /** The longest key that is a path prefix. */
  ghost predicate IsLongest(deps: Deps, p: string, k: string) {
    k in deps && PathPrefix(k, p) && forall n | n in deps && n != "" && PathPrefix(n, p) :: |n| <= |k|
  }

  /** The lookup finds the entry of the longest key that is a path prefix, if there is any. */
  lemma {:induction false} FindsLongest(deps: Deps, p: string)
    requires Clean(p) && p != ""
    ensures RequireMD(deps, p).Some? ==>
        exists k :: IsLongest(deps, p, k) && k != "" && RequireMD(deps, p).value == deps[k]
    ensures RequireMD(deps, p).None? ==> forall n | n in deps && n != "" :: !PathPrefix(n, p)
    decreases |p|
  {
    var q := PathParent(p);
    forall n | n in deps && n != ""
      ensures PathPrefix(n, p) <==> n == p || (q != "" && PathPrefix(n, q))
    {
      PrefixOfParent(n, p);
    }
    if p in deps {
      assert IsLongest(deps, p, p);
    } else if q != "" {
      CleanHead(p, LastSlash(p));
      FindsLongest(deps, q);
      if RequireMD(deps, q).Some? {
        var k :| IsLongest(deps, q, k) && k != "" && RequireMD(deps, q).value == deps[k];
        assert IsLongest(deps, p, k);
      }
    }
  }

  function TrimSlashes(s: string): string {
    if s != "" && s[0] == '/' then TrimSlashes(s[1..]) else s
  }

  function TrimPrefix(s: string, pfx: string): string {
    if pfx <= s then s[|pfx|..] else s
  }

  /** The dependency for an import path, with the rest of the path as its sub-package; the table is left alone. */
  function Require(deps: Deps, importPath: string): Option<ModDep> {
    match RequireMD(deps, importPath)
    case None => None
    case Some(md) => Some(md.(subPkg := TrimSlashes(TrimPrefix(importPath, Effective(md)))))
  }

  /**
   * The sub-package joined to the path of the module gives back the import path, and the module is the one with the
   * longest path that can be joined so.
   */
  lemma RequireRejoins(deps: Deps, importPath: string)
    requires Keyed(deps) && Clean(importPath) && importPath != ""
    ensures Require(deps, importPath).None? <==> forall n | n in deps && n != "" :: !PathPrefix(n, importPath)
    ensures Require(deps, importPath).Some? ==>
              var md := Require(deps, importPath).value;
              && IsLongest(deps, importPath, Effective(md))
              && md == deps[Effective(md)].(subPkg := md.subPkg)
              && importPath == if md.subPkg == "" then Effective(md) else Effective(md) + "/" + md.subPkg
  {
    hide Clean, TrimSlashes, TrimPrefix, RequireMD;
    FindsLongest(deps, importPath);
    if RequireMD(deps, importPath).Some? {
      var k :| IsLongest(deps, importPath, k) && k != "" && RequireMD(deps, importPath).value == deps[k];
      assert Effective(deps[k]) == k;
      if k != importPath {
        SlashIn(k, importPath);
        SubIsClean(importPath, |k|);
      }
      SubPkg(k, importPath);
    }
  }

  lemma SubIsClean(p: string, i: nat)
    requires Clean(p) && i < |p| && p[i] == '/'
    ensures i + 1 < |p| && p[i + 1] != '/'
  {
    assert |p| == i + 1 || p[i + 1] == '/' ==> Part(p, i + 1, i + 1);
  }

  lemma SubPkg(k: string, p: string)
    requires k == p || (k + "/" <= p && |k| + 1 < |p| && p[|k| + 1] != '/')
    ensures var sub := TrimSlashes(TrimPrefix(p, k)); p == if sub == "" then k else k + "/" + sub
  {
    if k != p {
      SlashIn(k, p);
      var sub := p[|k| + 1..];
      assert k <= p && p[|k|..] == "/" + sub;
      assert ("/" + sub)[1..] == sub && sub[0] != '/';
      assert TrimSlashes("/" + sub) == TrimSlashes(sub) == sub;
    }
  }
}
