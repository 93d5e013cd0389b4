/** The vocabulary of the incremental package importer: package paths, cache keys, importers,
    cached states, and the full recursive re-check that the cache is compared with. */
module ImportModel {
  import opened Wrappers

  type Source = string                    // what a package directory holds
  type Sources = map<string, Source>      // by directory
  type Overlay = map<string, string>      // unsaved files by name; the empty map stands for the empty hash
  type ModPath = seq<string>              // the go.mod directories that led here, the nearest first; empty for none

  /** A type-checked package, which holds the packages it imports, or one that needs no checking. */
  datatype Pkg = Plain(name: string) | Built(key: Key, src: Source, deps: seq<Pkg>)

  /** Where a package was found. */
  datatype PkgPath = PkgPath(importPath: string, dir: string)

  /** The part of the configuration that is copied into a state key. */
  datatype Flags = Flags(checkFuncs: bool, checkImports: bool, tests: bool, typesInfo: nat)

  datatype Key = Key(pp: PkgPath, flags: Flags, noHash: bool)

  /** An error at an import is reported with the place of the import. */
  datatype Error =
    | Cycle(chain: seq<PkgPath>)
    | Other(message: string)
    | AtImport(key: Key, src: Source, ip: string, error: Error)

  datatype Result = Package(pkg: Pkg) | Failed(error: Error)

  datatype Parsed = ParseError(error: Error) | Imports(paths: seq<string>)

  /** How an import path resolves: a fake package such as "unsafe", nothing, or a directory, together with the modules
      through which it was found, if it was through any. */
  datatype Lookup = Fake(pkg: Pkg) | Missing(error: Error) | At(pp: PkgPath, mod: ModPath)

  /** Two lookups lead to the same place, whatever modules they went through. */
  predicate Same(a: Lookup, b: Lookup) {
    a == b || (a.At? && b.At? && a.pp == b.pp)
  }

  /** What the importer asks of the world around it. Parsing, resolution and type-checking are
      arbitrary functions: resolution looks at what all directories hold now and at the modules that led to the
      importing package, `see` lays unsaved files over the content of a directory, and `again` says how often the
      type checker imports by itself. */
  datatype World = World(
    dirs: set<string>,
    importsTypesInfo: bool,
    concurrent: bool,
    parse: (Key, Source) -> Parsed,
    find: (Sources, ModPath, PkgPath, string) -> Lookup,
    see: (Overlay, string, Source) -> Source,
    typeCheck: (Key, Source, seq<Pkg>) -> Result,
    wrap: (Key, Source, string, Error) -> Error,
    again: (Key, Source) -> nat)

  function Content(srcs: Sources, dir: string): Source {
    if dir in srcs then srcs[dir] else ""
  }

  // ---------------------------------------------------------------- importers

  /** An importer: its configuration, the modules its imports are looked up in, the state it is checking, and the
      importer it branched from. */
  datatype Importer = Importer(flags: Flags, srcMap: Overlay, hash: Overlay, mp: ModPath,
                               ks: Option<Key>, par: Option<Importer>)

  /** An importer from scratch, about to import a package that was found through the modules `mp`. */
  function New(flags: Flags, srcMap: Overlay, mp: ModPath): Importer {
    Importer(flags, srcMap, srcMap, mp, None, None)
  }

  /** What is imported by a package found through modules is looked up in those, otherwise where the package was. */
  function Under(mp: ModPath, mod: ModPath): ModPath {
    if mod != [] then mod else mp
  }

  /** The importer on its way to a package that was found through `mod`; its branch takes the modules over. */
  function Toward(kp: Importer, mod: ModPath): (r: Importer)
    ensures Chain(r) == Chain(kp)
    ensures r.mp == (if mod == [] then kp.mp else mod) && r.flags == kp.flags && r.srcMap == kp.srcMap
  {
    kp.(mp := Under(kp.mp, mod))
  }

  function StateKey(kp: Importer, pp: PkgPath): Key {
    Key(pp, kp.flags, kp.hash == map[])
  }

  /** The flags under which the dependencies of a package are checked. */
  function DepFlags(w: World, f: Flags): Flags {
    Flags(false, false, false, if w.importsTypesInfo then f.typesInfo else 0)
  }

  function DepKey(w: World, key: Key, d: PkgPath): Key {
    Key(d, DepFlags(w, key.flags), true)
  }

  function Branch(w: World, kp: Importer, key: Key): Importer {
    Importer(DepFlags(w, kp.flags), kp.srcMap, map[], kp.mp, Some(key), Some(kp))
  }

  /** The states an importer works for, innermost first. */
  function Chain(kp: Importer): (c: seq<Key>)
    decreases kp
  {
    (if kp.ks.Some? then [kp.ks.value] else []) + (if kp.par.Some? then Chain(kp.par.value) else [])
  }

  predicate Targets(key: Key, pp: PkgPath) {
    key.pp.importPath == pp.importPath || key.pp.dir == pp.dir
  }

  /** The first state on the chain that is the package itself, by import path or by directory. */
  function FirstTarget(c: seq<Key>, pp: PkgPath): (i: nat)
    ensures i <= |c|
    ensures forall j | 0 <= j < i :: !Targets(c[j], pp)
    ensures i < |c| ==> Targets(c[i], pp)
  {
    if c == [] || Targets(c[0], pp) then 0 else 1 + FirstTarget(c[1..], pp)
  }

  function Paths(c: seq<Key>): (ps: seq<PkgPath>)
    ensures |ps| == |c| && forall i | 0 <= i < |c| :: ps[i] == c[i].pp
  {
    if c == [] then [] else [c[0].pp] + Paths(c[1..])
  }

  function DetectCycle(kp: Importer, pp: PkgPath): (r: Option<Error>)
    ensures r.Some? <==> exists a :: a in Chain(kp) && Targets(a, pp)
  {
    var c := Chain(kp);
    var i := FirstTarget(c, pp);
    if i < |c| then Some(Cycle([pp] + Paths(c[..i + 1]))) else None
  }

  /** A cycle is reported exactly when a state on the chain has the import path or the directory of the package. */
  lemma CycleIff(kp: Importer, pp: PkgPath)
    ensures DetectCycle(kp, pp).Some?
       <==> exists a | a in Chain(kp) :: a.pp.importPath == pp.importPath || a.pp.dir == pp.dir
  {
    if DetectCycle(kp, pp).Some? {
      var a :| a in Chain(kp) && Targets(a, pp);
      assert a.pp.importPath == pp.importPath || a.pp.dir == pp.dir;
    } else {
      forall a | a in Chain(kp) ensures a.pp.importPath != pp.importPath && a.pp.dir != pp.dir {
        assert !Targets(a, pp);
      }
    }
  }

  // ---------------------------------------------------------------- the import graph

  /** The history of a run: which packages are imported from scratch with which unsaved files and modules, what their
      checks and those of their dependencies read and in which modules they look, where imports lead, and a rank for
      the packages. */
  datatype History = History(
    roots: (Key, Overlay, ModPath) -> bool,
    texts: (Key, Source, ModPath) -> bool,
    finds: (ModPath, PkgPath, string, PkgPath, ModPath) -> bool,
    rank: PkgPath -> nat)

  /** In the history, package `key`, with content `src` and looking in `mp`, imports `ip`, which is the package `d`,
      found through `m`. */
  ghost predicate Imported(w: World, h: History, key: Key, src: Source, mp: ModPath, ip: string, d: PkgPath,
                           m: ModPath) {
    && h.texts(key, src, mp)
    && w.parse(key, src).Imports?
    && ip in w.parse(key, src).paths
    && h.finds(mp, key.pp, ip, d, m)
  }

  /** The history has what can be found and read while the directories hold `srcs`. */
  ghost predicate Covers(w: World, h: History, srcs: Sources) {
    && (forall key, src, mp, ip |
          h.texts(key, src, mp) && w.parse(key, src).Imports? && ip in w.parse(key, src).paths &&
          w.find(srcs, mp, key.pp, ip).At? ::
          h.finds(mp, key.pp, ip, w.find(srcs, mp, key.pp, ip).pp, w.find(srcs, mp, key.pp, ip).mod))
    && (forall key, src, mp, ip, d, m | Imported(w, h, key, src, mp, ip, d, m) ::
          h.texts(DepKey(w, key, d), Content(srcs, d.dir), Under(mp, m)))
    && (forall key, o, mp | h.roots(key, o, mp) :: h.texts(key, w.see(o, key.pp.dir, Content(srcs, key.pp.dir)), mp))
  }

  lemma CoversFind(w: World, h: History, srcs: Sources, key: Key, src: Source, mp: ModPath, ip: string)
    requires Covers(w, h, srcs) && h.texts(key, src, mp)
    requires w.parse(key, src).Imports? && ip in w.parse(key, src).paths && w.find(srcs, mp, key.pp, ip).At?
    ensures Imported(w, h, key, src, mp, ip, w.find(srcs, mp, key.pp, ip).pp, w.find(srcs, mp, key.pp, ip).mod)
  {
  }

  lemma CoversRead(w: World, h: History, srcs: Sources, key: Key, src: Source, mp: ModPath, ip: string, d: PkgPath,
                   m: ModPath)
    requires Covers(w, h, srcs) && Imported(w, h, key, src, mp, ip, d, m)
    ensures h.texts(DepKey(w, key, d), Content(srcs, d.dir), Under(mp, m))
  {
  }

  /** A package and the modules its imports are looked up in. */
  datatype Spot = Spot(pp: PkgPath, mp: ModPath)

  ghost predicate Edge(w: World, h: History, a: Spot, b: Spot) {
    exists key: Key, src, ip, m :: key.pp == a.pp && Imported(w, h, key, src, a.mp, ip, b.pp, m)
        && b.mp == Under(a.mp, m)
  }

  ghost predicate ImportPath(w: World, h: History, ps: seq<Spot>) {
    forall i | 0 <= i < |ps| - 1 :: Edge(w, h, ps[i], ps[i + 1])
  }

  /** Some chain of one or more imports leads from `a` to `b`. */
  ghost predicate Leads(w: World, h: History, a: Spot, b: Spot) {
    exists ps :: |ps| >= 2 && ps[0] == a && ps[|ps| - 1] == b && ImportPath(w, h, ps)
  }

  ghost predicate From(w: World, h: History, a: Spot, b: Spot) {
    a == b || Leads(w, h, a, b)
  }

  /** Some such chain from the package `p` does. */
  ghost predicate LeadsFrom(w: World, h: History, p: PkgPath, b: Spot) {
    exists mp :: Leads(w, h, Spot(p, mp), b)
  }

  /** The import graph is finite: every package found now lies in one of finitely many directories. */
  ghost predicate Finite(w: World, srcs: Sources) {
    forall mp, p, ip :: w.find(srcs, mp, p, ip).At? ==> w.find(srcs, mp, p, ip).pp.dir in w.dirs
  }

  /** The imports of the history are acyclic, and no chain of them leads to a second package that shares
      an import path or a directory with its start. */
  ghost predicate Acyclic(w: World, h: History) {
    && (forall key: Key, src, mp, ip, d, m :: Imported(w, h, key, src, mp, ip, d, m) ==> h.rank(d) < h.rank(key.pp))
    && (forall a, b :: Leads(w, h, a, b) ==> a.pp.importPath != b.pp.importPath && a.pp.dir != b.pp.dir)
  }

  lemma LeadsFurther(w: World, h: History, a: Spot, p: Spot, d: Spot)
    requires a == p || Leads(w, h, a, p)
    requires Edge(w, h, p, d)
    ensures Leads(w, h, a, d)
  {
    if a == p {
      assert ImportPath(w, h, [p, d]);
    } else {
      var ps :| |ps| >= 2 && ps[0] == a && ps[|ps| - 1] == p && ImportPath(w, h, ps);
      var qs := ps + [d];
      assert ImportPath(w, h, qs);
    }
  }

  lemma FromFurther(w: World, h: History, a: Spot, p: Spot, d: Spot)
    requires From(w, h, a, p) && Edge(w, h, p, d)
    ensures From(w, h, a, d)
  {
    LeadsFurther(w, h, a, p, d);
  }

  lemma FromJoin(w: World, h: History, a: Spot, b: Spot, c: Spot)
    requires From(w, h, a, b) && From(w, h, b, c)
    ensures From(w, h, a, c)
  {
    if a != b && b != c {
      var ps :| |ps| >= 2 && ps[0] == a && ps[|ps| - 1] == b && ImportPath(w, h, ps);
      var qs :| |qs| >= 2 && qs[0] == b && qs[|qs| - 1] == c && ImportPath(w, h, qs);
      var rs := ps + qs[1..];
      forall i | 0 <= i < |rs| - 1 ensures Edge(w, h, rs[i], rs[i + 1]) {
        if i >= |ps| - 1 {
          assert rs[i] == qs[i - |ps| + 1] && rs[i + 1] == qs[i - |ps| + 2];
        }
      }
      assert |rs| >= 2 && rs[0] == a && rs[|rs| - 1] == c && ImportPath(w, h, rs);
    }
  }

  // ---------------------------------------------------------------- chains

  /** A chain that can arise: its states lie in known directories and differ pairwise in both
      import path and directory. */
  ghost predicate ChainOk(w: World, kp: Importer) {
    var c := Chain(kp);
    && (forall i | 0 <= i < |c| :: c[i].pp.dir in w.dirs)
    && (forall i, j | 0 <= i < j < |c| :: !Targets(c[i], c[j].pp))
  }

  ghost function ChainDirs(c: seq<Key>): set<string> {
    set i | 0 <= i < |c| :: c[i].pp.dir
  }

  /** How many directories the chain has not entered yet. */
  ghost function Room(w: World, kp: Importer): nat {
    |w.dirs - ChainDirs(Chain(kp))|
  }

  /** A branch that passed the cycle test again has pairwise different states, and strictly less room. */
  lemma BranchChain(w: World, kp: Importer, pp: PkgPath)
    requires ChainOk(w, kp) && pp.dir in w.dirs
    requires DetectCycle(kp, pp).None?
    ensures Chain(Branch(w, kp, StateKey(kp, pp))) == [StateKey(kp, pp)] + Chain(kp)
    ensures ChainOk(w, Branch(w, kp, StateKey(kp, pp)))
    ensures Room(w, Branch(w, kp, StateKey(kp, pp))) < Room(w, kp)
  {
    var key := StateKey(kp, pp);
    var kx := Branch(w, kp, key);
    var c := Chain(kp);
    assert Chain(kx) == [key] + c;
    forall i, j | 0 <= i < j < |Chain(kx)|
      ensures !Targets(Chain(kx)[i], Chain(kx)[j].pp)
    {
      if i == 0 {
        assert Chain(kx)[j] == c[j - 1] && c[j - 1] in c;
      } else {
        assert Chain(kx)[i] == c[i - 1] && Chain(kx)[j] == c[j - 1];
      }
    }
    var before, after := w.dirs - ChainDirs(c), w.dirs - ChainDirs(Chain(kx));
    forall i | 0 <= i < |c| ensures c[i].pp.dir != pp.dir {
      assert c[i] in c;
    }
    assert pp.dir in before;
    assert Chain(kx)[0].pp.dir == pp.dir;
    assert pp.dir in ChainDirs(Chain(kx));
    forall d | d in ChainDirs(c) ensures d in ChainDirs(Chain(kx)) {
      var i :| 0 <= i < |c| && c[i].pp.dir == d;
      assert Chain(kx)[i + 1] == c[i];
    }
    assert after <= before - {pp.dir};
    SubsetSize(after, before - {pp.dir});
  }

  /** The modules have no part in the chain. */
  lemma SameChain(w: World, kp: Importer, kp': Importer)
    requires Chain(kp) == Chain(kp')
    ensures ChainOk(w, kp) <==> ChainOk(w, kp')
    ensures Room(w, kp) == Room(w, kp')
    ensures forall pp :: DetectCycle(kp, pp) == DetectCycle(kp', pp)
  {
  }

  // ---------------------------------------------------------------- the full re-check

  /** What importing `pp` gives when nothing is cached: every package is parsed, its dependencies are
      imported again in order, and it is type-checked. It ends on cyclic import graphs too. */
  function Recheck(w: World, srcs: Sources, kp: Importer, pp: PkgPath): Result
    requires Finite(w, srcs) && ChainOk(w, kp) && pp.dir in w.dirs
    decreases Room(w, kp), 0, 0
  {
    var cycle := DetectCycle(kp, pp);
    if cycle.Some? then Failed(cycle.value) else
      BranchChain(w, kp, pp);
      var key := StateKey(kp, pp);
      var src := w.see(kp.srcMap, pp.dir, Content(srcs, pp.dir));
      match w.parse(key, src)
      case ParseError(e) => Failed(e)
      case Imports(paths) => RecheckDeps(w, srcs, Branch(w, kp, key), key, src, paths, 0, [])
  }

  function RecheckDeps(w: World, srcs: Sources, kx: Importer, key: Key, src: Source,
                       paths: seq<string>, i: nat, pkgs: seq<Pkg>): Result
    requires Finite(w, srcs) && ChainOk(w, kx)
    requires i <= |paths|
    decreases Room(w, kx), 1, |paths| - i
  {
    if i == |paths| then w.typeCheck(key, src, pkgs) else
      match RecheckDep(w, srcs, kx, key.pp, paths[i])
      case Package(p) => RecheckDeps(w, srcs, kx, key, src, paths, i + 1, pkgs + [p])
      case Failed(e) => Failed(w.wrap(key, src, paths[i], e))
  }

  function RecheckDep(w: World, srcs: Sources, kx: Importer, p: PkgPath, ip: string): Result
    requires Finite(w, srcs) && ChainOk(w, kx)
    decreases Room(w, kx), 0, 1
  {
    match w.find(srcs, kx.mp, p, ip)
    case Fake(pkg) => Package(pkg)
    case Missing(e) => Failed(e)
    case At(d, mod) => Recheck(w, srcs, Toward(kx, mod), d)
  }
}
