/** Why the hypotheses of the agreement theorem are needed: an acyclic import graph, unsaved files of the root's own
    directory, and imports that still lead where they did; and that a run may meet them where packages could import
    each other. */
module ImportLimits {
  import opened Wrappers
  import opened ImportModel
  import opened ImportCache
  import opened ImportExact
  import opened Invalidation
  import opened TableSteps
  import opened SeqImport
  import opened ImportFresh

  /** What a package comes to whose one dependency gave `r`. */
  function WithDep(w: World, key: Key, src: Source, ip: string, r: Result): Result {
    match r
    case Package(p) => w.typeCheck(key, src, [p])
    case Failed(e) => Failed(w.wrap(key, src, ip, e))
  }

  /** What is left of importing a package with one dependency, once the dependency has been imported. */
  ghost predicate AfterDep(w: World, sto: Store, kp: Importer, pp: PkgPath, ip: string, o: Out)
    requires Finite(w, sto.sources) && ChainOk(w, Branch(w, kp, StateKey(kp, pp)))
  {
    var key, sto1 := StateKey(kp, pp), Enter(sto, kp, StateKey(kp, pp));
    && !Valid(sto1.states[key], key, kp.hash)
    && w.parse(key, Current(w, sto.sources, key, kp.srcMap)) == Imports([ip])
    && o == ImportPackage(w, sto1.(clock := sto1.clock + 1), Branch(w, kp, key), pp, ip)
  }

  /** Importing a package that has to be checked and has one dependency. */
  lemma OneDep(w: World, sto: Store, kp: Importer, pp: PkgPath, ip: string, o: Out)
    requires Finite(w, sto.sources) && ChainOk(w, kp) && pp.dir in w.dirs && DetectCycle(kp, pp).None?
    requires ChainOk(w, Branch(w, kp, StateKey(kp, pp))) && AfterDep(w, sto, kp, pp, ip, o)
    ensures var key, sto1 := StateKey(kp, pp), Enter(sto, kp, StateKey(kp, pp));
            var src := Current(w, sto.sources, key, kp.srcMap);
            var res := WithDep(w, key, src, ip, o.res);
            Import(w, sto, kp, pp) == Out(
              Publish(o.sto, key, res, kp.hash, src, kp.mp, map[ip := w.find(sto.sources, kp.mp, pp, ip)],
                  sto1.clock + 1), res)
  {
    hide Room, DetectCycle, ChainOk, Finite, ImportDeps, ImportPackage, Publish, Enter, Valid;
    var key, sto1 := StateKey(kp, pp), Enter(sto, kp, StateKey(kp, pp));
    DepsOne(w, sto1.(clock := sto1.clock + 1), Branch(w, kp, key), key, Current(w, sto.sources, key, kp.srcMap), ip, o);
  }

  lemma DepsOne(w: World, sto: Store, kx: Importer, key: Key, src: Source, ip: string, o: Out)
    requires Finite(w, sto.sources) && ChainOk(w, kx) && ImportPackage(w, sto, kx, key.pp, ip) == o
    ensures ImportDeps(w, sto, kx, key, src, [ip], 0, [], map[]) ==
            Checked.Checked(
              o.sto,
              WithDep(w, key, src, ip, o.res),
              map[ip := w.find(sto.sources, kx.mp, key.pp, ip)])
  {
    hide ImportPackage, Room, ChainOk, Finite;
    if o.res.Package? {
      var found := map[ip := w.find(sto.sources, kx.mp, key.pp, ip)];
      assert [] + [o.res.pkg] == [o.res.pkg];
      assert ImportDeps(w, o.sto, kx, key, src, [ip], 1, [o.res.pkg], found)
          == Checked.Checked(o.sto, w.typeCheck(key, src, [o.res.pkg]), found);
    }
  }

  /** A package without dependencies that has to be checked. */
  ghost predicate Bare(w: World, sto: Store, kp: Importer, pp: PkgPath) {
    var key, sto1 := StateKey(kp, pp), Enter(sto, kp, StateKey(kp, pp));
    && !Valid(sto1.states[key], key, kp.hash)
    && w.parse(key, Current(w, sto.sources, key, kp.srcMap)) == Imports([])
  }

  /** Importing a package without dependencies, of which no valid state is known. */
  lemma NoDeps(w: World, sto: Store, kp: Importer, pp: PkgPath)
    requires Finite(w, sto.sources) && ChainOk(w, kp) && pp.dir in w.dirs && DetectCycle(kp, pp).None?
    requires Bare(w, sto, kp, pp)
    ensures var key, sto1 := StateKey(kp, pp), Enter(sto, kp, StateKey(kp, pp));
            var src := Current(w, sto.sources, key, kp.srcMap);
            var res := w.typeCheck(key, src, []);
            Import(w, sto, kp, pp)
            == Out(Publish(sto1.(clock := sto1.clock + 1), key, res, kp.hash, src, kp.mp, map[], sto1.clock + 1), res)
  {
    hide Room, ChainOk, Finite, Enter, Valid, Publish, DetectCycle, Branch, Current, ImportDeps;
    var key, sto1 := StateKey(kp, pp), Enter(sto, kp, StateKey(kp, pp));
    var src := Current(w, sto.sources, key, kp.srcMap);
    BranchChain(w, kp, pp);
    DepsNone(w, sto1.(clock := sto1.clock + 1), Branch(w, kp, key), key, src);
  }

  lemma DepsNone(w: World, sto: Store, kx: Importer, key: Key, src: Source)
    requires Finite(w, sto.sources) && ChainOk(w, kx)
    ensures ImportDeps(w, sto, kx, key, src, [], 0, [], map[]) == Checked.Checked(sto, w.typeCheck(key, src, []), map[])
  {
    hide Room, ChainOk, Finite;
  }

  lemma PackageAt(w: World, sto: Store, kx: Importer, p: PkgPath, ip: string, d: PkgPath, m: ModPath)
    requires Finite(w, sto.sources) && ChainOk(w, kx) && w.find(sto.sources, kx.mp, p, ip) == At(d, m)
        && d.dir in w.dirs
    ensures ChainOk(w, Toward(kx, m)) && ImportPackage(w, sto, kx, p, ip) == Import(w, sto, Toward(kx, m), d)
  {
    hide Room, ChainOk, Import;
    SameChain(w, kx, Toward(kx, m));
  }

  /** Re-checking a package with one dependency. */
  lemma RecheckOne(w: World, srcs: Sources, kp: Importer, pp: PkgPath, ip: string, d: PkgPath, m: ModPath)
    requires Finite(w, srcs) && ChainOk(w, kp) && pp.dir in w.dirs && DetectCycle(kp, pp).None?
    requires ChainOk(w, Branch(w, kp, StateKey(kp, pp)))
    requires w.find(srcs, kp.mp, pp, ip) == At(d, m) && d.dir in w.dirs
    requires w.parse(StateKey(kp, pp), Current(w, srcs, StateKey(kp, pp), kp.srcMap)) == Imports([ip])
    ensures var key := StateKey(kp, pp);
            var src := Current(w, srcs, key, kp.srcMap);
            && ChainOk(w, Toward(Branch(w, kp, key), m))
            && Recheck(w, srcs, kp, pp) == WithDep(w, key, src, ip, Recheck(w, srcs, Toward(Branch(w, kp, key), m), d))
  {
    var key := StateKey(kp, pp);
    var src, kx := Current(w, srcs, key, kp.srcMap), Branch(w, kp, key);
    RecheckAt(w, srcs, kx, pp, ip, d, m);
    RecheckDepsOne(w, srcs, kx, key, src, ip);
    hide Room, DetectCycle, ChainOk, Finite, RecheckDeps, RecheckDep;
  }

  lemma RecheckAt(w: World, srcs: Sources, kx: Importer, p: PkgPath, ip: string, d: PkgPath, m: ModPath)
    requires Finite(w, srcs) && ChainOk(w, kx) && w.find(srcs, kx.mp, p, ip) == At(d, m) && d.dir in w.dirs
    ensures ChainOk(w, Toward(kx, m)) && RecheckDep(w, srcs, kx, p, ip) == Recheck(w, srcs, Toward(kx, m), d)
  {
    hide Room, ChainOk, Recheck;
    SameChain(w, kx, Toward(kx, m));
  }

  lemma RecheckDepsOne(w: World, srcs: Sources, kx: Importer, key: Key, src: Source, ip: string)
    requires Finite(w, srcs) && ChainOk(w, kx)
    ensures RecheckDeps(w, srcs, kx, key, src, [ip], 0, []) ==
            WithDep(w, key, src, ip, RecheckDep(w, srcs, kx, key.pp, ip))
  {
    hide Room, ChainOk, Finite, RecheckDep;
    match RecheckDep(w, srcs, kx, key.pp, ip)
    case Package(p) =>
      assert [] + [p] == [p];
      assert RecheckDeps(w, srcs, kx, key, src, [ip], 1, [p]) == w.typeCheck(key, src, [p]);
    case Failed(_) =>
  }

  lemma RecheckNone(w: World, srcs: Sources, kp: Importer, pp: PkgPath)
    requires Finite(w, srcs) && ChainOk(w, kp) && pp.dir in w.dirs && DetectCycle(kp, pp).None?
    requires w.parse(StateKey(kp, pp), Current(w, srcs, StateKey(kp, pp), kp.srcMap)) == Imports([])
    ensures var key := StateKey(kp, pp);
            Recheck(w, srcs, kp, pp) == w.typeCheck(key, Current(w, srcs, key, kp.srcMap), [])
  {
    hide Room, ChainOk, Finite, DetectCycle;
    BranchChain(w, kp, pp);
  }

  // ---------------------------------------------------------------- two packages

  const A := PkgPath("a", "/a")
  const B := PkgPath("b", "/b")
  const PLAIN := Flags(false, false, false, 0)
  const KA := Key(A, PLAIN, true)
  const KB := Key(B, PLAIN, true)
  const ROOT := New(PLAIN, map[], [])
  const EMPTY := Store(0, map[], map[])

  lemma Distinct()
    ensures A != B && "a" != "b" && "/a" != "/b" && !Targets(KA, B) && !Targets(KB, A)
  {
    assert "a"[0] != "b"[0] && "/a"[1] != "/b"[1];
  }

  /** No chain is reported from scratch, nor from A to B or back. */
  lemma Chains(w: World, kp: Importer, p: PkgPath, q: PkgPath)
    requires w.dirs == {"/a", "/b"} && !w.importsTypesInfo && kp.flags == PLAIN && kp.ks.None? && kp.par.None?
    requires (p == A && q == B) || (p == B && q == A)
    ensures var kx := Branch(w, kp, StateKey(kp, p));
            && Chain(kp) == [] && ChainOk(w, kp) && DetectCycle(kp, p).None?
            && Chain(kx) == [StateKey(kp, p)] && ChainOk(w, kx) && DetectCycle(kx, q).None?
            && StateKey(kx, q) == Key(q, PLAIN, true)
            && ChainOk(w, Branch(w, kx, Key(q, PLAIN, true)))
            && DetectCycle(Branch(w, kx, Key(q, PLAIN, true)), p) == Some(Cycle([p, q, p]))
  {
    hide ChainOk, Room, DetectCycle, Targets;
    Distinct();
    var kx := Branch(w, kp, StateKey(kp, p));
    NoChain(w, kp, p);
    BranchChain(w, kp, p);
    assert Chain(kx) == [StateKey(kp, p)];
    SamePackage(StateKey(kp, p), q);
    ChainOfOne(kx, StateKey(kp, p), q);
    BranchChain(w, kx, q);
    assert [Key(q, PLAIN, true)] + [StateKey(kp, p)] == [Key(q, PLAIN, true), StateKey(kp, p)];
    SamePackage(Key(q, PLAIN, true), p);
    ChainOfTwo(Branch(w, kx, Key(q, PLAIN, true)), Key(q, PLAIN, true), StateKey(kp, p));
  }

  lemma SamePackage(k: Key, q: PkgPath)
    requires (k.pp == A && q == B) || (k.pp == B && q == A)
    ensures !Targets(k, q)
  {
    Distinct();
  }

  lemma NoChain(w: World, kp: Importer, p: PkgPath)
    requires Chain(kp) == []
    ensures ChainOk(w, kp) && DetectCycle(kp, p).None?
  {
  }

  lemma ChainOfOne(kp: Importer, k: Key, q: PkgPath)
    requires Chain(kp) == [k] && !Targets(k, q)
    ensures DetectCycle(kp, q).None?
  {
  }

  lemma ChainOfTwo(kp: Importer, near: Key, far: Key)
    requires Chain(kp) == [near, far] && !Targets(near, far.pp)
    ensures DetectCycle(kp, far.pp) == Some(Cycle([far.pp, near.pp, far.pp]))
  {
    assert [near, far][1..] == [far];
    assert FirstTarget([far], far.pp) == 0;
    assert FirstTarget([near, far], far.pp) == 1;
    assert [near, far][..2] == [near, far];
    assert Paths([near, far]) == [near.pp, far.pp];
    assert [far.pp] + [near.pp, far.pp] == [far.pp, near.pp, far.pp];
  }

  /** Everything may be read, A may import B, and B ranks below it. */
  function Accepting(): History {
    History((k: Key, o: Overlay, mp: ModPath) => true, (k: Key, s: Source, mp: ModPath) => true,
            (mp: ModPath, p: PkgPath, ip: string, d: PkgPath, m: ModPath) => d == B,
            (p: PkgPath) => if p == A then 1 else 0)
  }

  /** A world in which only A imports anything, and that is B. */
  ghost predicate AImportsB(w: World) {
    && w.dirs == {"/a", "/b"} && !w.importsTypesInfo && !w.concurrent
    && (forall k, s :: w.parse(k, s) == if k.pp == A then Imports(["b"]) else Imports([]))
    && (forall srcs, mp, p, ip :: w.find(srcs, mp, p, ip).At? ==> w.find(srcs, mp, p, ip).pp == B)
  }

  lemma AImportsBFits(w: World, srcs: Sources)
    requires AImportsB(w)
    ensures Acyclic(w, Accepting()) && Finite(w, srcs) && Covers(w, Accepting(), srcs)
  {
    Distinct();
    var h := Accepting();
    forall a, b | Edge(w, h, a, b) ensures a.pp == A && b.pp == B { }
    OneEdge(w, h);
  }

  lemma OneEdge(w: World, h: History)
    requires forall a, b | Edge(w, h, a, b) :: a.pp == A && b.pp == B
    ensures forall a, b | Leads(w, h, a, b) :: a.pp == A && b.pp == B
  {
    hide Edge;
    forall a, b | Leads(w, h, a, b) ensures a.pp == A && b.pp == B {
      var ps: seq<Spot> :| |ps| >= 2 && ps[0] == a && ps[|ps| - 1] == b && ImportPath(w, h, ps);
      var n := |ps| - 2;
      assert Edge(w, h, ps[0], ps[1]) && Edge(w, h, ps[n], ps[n + 1]);
    }
  }

  // ---------------------------------------------------------------- packages that import each other

  function Mutual(): World {
    World({"/a", "/b"}, false, false,
          (k: Key, s: Source) => if k.pp == A then Imports(["b"]) else Imports(["a"]),
          (srcs: Sources, mp: ModPath, p: PkgPath, ip: string) => if ip == "a" then At(A, []) else At(B, []),
          (o: Overlay, d: string, s: Source) => s,
          (k: Key, s: Source, ps: seq<Pkg>) => Package(Plain("p")),
          (k: Key, s: Source, ip: string, e: Error) => e,
          (k: Key, s: Source) => 0)
  }

  lemma MutualIs()
    ensures var w := Mutual();
            && (forall srcs :: Finite(w, srcs)) && w.dirs == {"/a", "/b"} && !w.importsTypesInfo && !w.concurrent
            && "/a" in w.dirs && "/b" in w.dirs
  {
  }

  /**
   * With a cyclic import graph the cache need not agree: the error names the chain that found the cycle, and it is
   * stored in a state that other chains share.
   */
  lemma CyclesDisagree()
    ensures var w := Mutual();
            && Finite(w, map[]) && ChainOk(w, ROOT) && !w.concurrent
            && exists sto :: sto == Import(w, EMPTY, ROOT, A).sto
                 && Import(w, sto, ROOT, B).res != Recheck(w, sto.sources, ROOT, B)
  {
    hide Room, Import, Recheck, Finite, ChainOk;
    MutualIs();
    Chains(Mutual(), ROOT, A, B);
    Chains(Mutual(), ROOT, B, A);
    var sto := CycleStored();
    StoredCycle(sto);
    CycleNow();
    assert [A, B, A][0] != [B, A, B][0] by { Distinct(); }
  }

  /** Importing A checks B, which finds A on the chain. */
  lemma CycleStored() returns (sto: Store)
    ensures Finite(Mutual(), map[]) && ChainOk(Mutual(), ROOT)
    ensures sto == Import(Mutual(), EMPTY, ROOT, A).sto
    ensures KB in sto.states && Settled(sto.states[KB]) && sto.states[KB].res == Failed(Cycle([A, B, A]))
  {
    hide Room, Finite, ChainOk, DetectCycle, ImportPackage, ImportDeps, Check;
    Distinct();
    MutualIs();
    var w := Mutual();
    Chains(w, ROOT, A, B);
    var kx := Branch(w, ROOT, KA);
    var sto1 := Enter(EMPTY, ROOT, KA).(clock := 1);
    var sto2 := Enter(sto1, kx, KB).(clock := 2);
    var cut := Out(sto2, Failed(Cycle([A, B, A])));
    assert Import(w, sto2, Branch(w, kx, KB), A) == cut;
    PackageAt(w, sto2, Branch(w, kx, KB), B, "a", A, []);
    OneDep(w, sto1, kx, B, "a", cut);
    var outB := Import(w, sto1, kx, B);
    PackageAt(w, sto1, kx, A, "b", B, []);
    OneDep(w, EMPTY, ROOT, A, "b", outB);
    sto := Import(w, EMPTY, ROOT, A).sto;
  }

  /** So B, imported from scratch, is told of the wrong chain. */
  lemma StoredCycle(sto: Store)
    requires KB in sto.states && Settled(sto.states[KB])
    ensures Finite(Mutual(), sto.sources) && ChainOk(Mutual(), ROOT)
    ensures Import(Mutual(), sto, ROOT, B).res == sto.states[KB].res
  {
    hide Room, Finite, ChainOk, DetectCycle, Check, Publish;
    MutualIs();
    Chains(Mutual(), ROOT, B, A);
  }

  lemma CycleNow()
    ensures Finite(Mutual(), map[]) && ChainOk(Mutual(), ROOT)
    ensures Recheck(Mutual(), map[], ROOT, B) == Failed(Cycle([B, A, B]))
  {
    hide Room, Finite, ChainOk, DetectCycle, RecheckDeps, RecheckDep;
    Distinct();
    MutualIs();
    var w := Mutual();
    Chains(w, ROOT, B, A);
    var kx := Branch(w, ROOT, KB);
    assert Recheck(w, map[], Branch(w, kx, KA), B) == Failed(Cycle([B, A, B]));
    RecheckOne(w, map[], kx, A, "b", B, []);
    RecheckOne(w, map[], ROOT, B, "a", A, []);
  }

  // ---------------------------------------------------------------- an unsaved file below the root

  /** B is whatever its directory holds; unsaved files are of the directory of B. */
  function Leaky(): World {
    World({"/a", "/b"}, false, false,
          (k: Key, s: Source) => if k.pp == A then Imports(["b"]) else Imports([]),
          (srcs: Sources, mp: ModPath, p: PkgPath, ip: string) => At(B, []),
          (o: Overlay, d: string, s: Source) => if d == "/b" && o != map[] then "unsaved" else s,
          (k: Key, s: Source, ps: seq<Pkg>) => Package(Plain(s)),
          (k: Key, s: Source, ip: string, e: Error) => e,
          (k: Key, s: Source) => 0)
  }

  const EDITED := New(PLAIN, map["/b/x.go" := "unsaved"], [])

  /**
   * Unsaved files of another directory than the root's leak: they are laid over a dependency too, and its state, whose
   * key has no room for them, is then taken for that of the saved files.
   */
  lemma UnsavedFilesLeak()
    ensures var w, h := Leaky(), Accepting();
            && Acyclic(w, h) && Finite(w, map[]) && Covers(w, h, map[]) && SeeNothing(w) && !w.concurrent
            && ChainOk(w, ROOT) && ChainOk(w, EDITED)
            && exists sto :: sto == Import(w, EMPTY, EDITED, A).sto
                 && Import(w, sto, ROOT, B).res != Recheck(w, sto.sources, ROOT, B)
  {
    hide Acyclic, Covers, Import, Recheck;
    assert AImportsB(Leaky());
    AImportsBFits(Leaky(), map[]);
    var sto := EditedIsStored();
    SavedIsNotSeen(sto);
    SavedIsRead(sto);
  }

  /** Importing A with the unsaved file leaves the state of B as the unsaved file makes it. */
  lemma EditedIsStored() returns (sto: Store)
    ensures Finite(Leaky(), map[]) && ChainOk(Leaky(), EDITED)
    ensures sto == Import(Leaky(), EMPTY, EDITED, A).sto
    ensures KB in sto.states && Settled(sto.states[KB]) && sto.states[KB].res == Package(Plain("unsaved"))
  {
    hide Room, Recheck, Import, Check, ImportPackage, ImportDeps, ChainOk, Finite, DetectCycle;
    Distinct();
    assert AImportsB(Leaky());
    AImportsBFits(Leaky(), map[]);
    var w := Leaky();
    var ka := Key(A, PLAIN, false);
    assert EDITED.hash != map[] by { assert "/b/x.go" in EDITED.hash; }
    Chains(w, EDITED, A, B);
    var kx := Branch(w, EDITED, ka);
    var sto1 := Enter(EMPTY, EDITED, ka).(clock := 1);
    NoDeps(w, sto1, kx, B);
    PackageAt(w, sto1, kx, A, "b", B, []);
    OneDep(w, EMPTY, EDITED, A, "b", Import(w, sto1, kx, B));
    sto := Import(w, EMPTY, EDITED, A).sto;
  }

  /** The state of B is then taken for that of the saved file, */
  lemma SavedIsNotSeen(sto: Store)
    requires KB in sto.states && Settled(sto.states[KB]) && sto.sources == map[]
    ensures Finite(Leaky(), sto.sources) && ChainOk(Leaky(), ROOT)
    ensures Import(Leaky(), sto, ROOT, B).res == sto.states[KB].res
  {
    hide Room, Check, Publish, ChainOk, DetectCycle;
    Distinct();
    Chains(Leaky(), ROOT, B, A);
  }

  /** which a re-check would read. */
  lemma SavedIsRead(sto: Store)
    requires sto.sources == map[]
    ensures Finite(Leaky(), sto.sources) && ChainOk(Leaky(), ROOT)
    ensures Recheck(Leaky(), sto.sources, ROOT, B) == Package(Plain(""))
  {
    hide Room, ChainOk, DetectCycle, Recheck;
    Distinct();
    Chains(Leaky(), ROOT, B, A);
    RecheckNone(Leaky(), sto.sources, ROOT, B);
  }

  // ---------------------------------------------------------------- an import that leads elsewhere

  /** B can be found once its directory holds something. */
  function Growing(): World {
    World({"/a", "/b"}, false, false,
          (k: Key, s: Source) => if k.pp == A then Imports(["b"]) else Imports([]),
          (srcs: Sources, mp: ModPath, p: PkgPath, ip: string) =>
              if "/b" in srcs then At(B, []) else Missing(Other("cannot find package")),
          (o: Overlay, d: string, s: Source) => s,
          (k: Key, s: Source, ps: seq<Pkg>) => Package(Built(k, s, ps)),
          (k: Key, s: Source, ip: string, e: Error) => AtImport(k, s, ip, e),
          (k: Key, s: Source) => 0)
  }

  const FOUND_LATE := [DoImport(PLAIN, map[], [], A), DoChange("/b", "package b")]

  /** The results of this world show how they came about. */
  function Shown(res: Result): Told {
    match res
    case Package(Built(k, s, ps)) => ByCheck(k, s, ps)
    case Failed(AtImport(k, s, ip, e)) => ByDep(k, s, ip, e)
    case _ => ByLookup
  }

  lemma GrowingTells()
    ensures Telling(Growing(), Shown)
  {
  }

  /**
   * A package that was not found is found later: nothing was registered for it, so its creation reaches no state, and
   * the package that imports it is still said not to find it. All other hypotheses of the agreement theorem hold.
   */
  lemma ResolutionGoesStale()
    ensures var w, h := Growing(), Accepting();
            && A.dir in w.dirs && Acyclic(w, h) && SeeNothing(w) && !w.concurrent && Possible(w, FOUND_LATE)
            && Within(w, h, FOUND_LATE)
            && OpWithin(w, h, DoImport(PLAIN, map[], [], A)) && ChainOk(w, ROOT)
            && Import(w, Run(w, FOUND_LATE), ROOT, A).res.Failed?
            && Recheck(w, SourcesAfter(FOUND_LATE), ROOT, A).Package?
            && !ResolvedFrom(w, h, Run(w, FOUND_LATE), Spot(A, []))
  {
    hide Acyclic, Covers, Finite, Import, Recheck, Change, ResolvedFrom, ChainOk;
    assert AImportsB(Growing());
    forall srcs
      ensures Acyclic(Growing(), Accepting()) && Finite(Growing(), srcs) && Covers(Growing(), Accepting(), srcs)
    {
      AImportsBFits(Growing(), srcs);
    }
    RunFoundLate();
    FoundLateWithin();
    var sto := NotFoundStored();
    NotFoundStays(sto);
    FoundByNow();
    if ResolvedFrom(Growing(), Accepting(), Run(Growing(), FOUND_LATE), Spot(A, [])) {
      CachedImportEqualsUncached(Growing(), Accepting(), FOUND_LATE, PLAIN, map[], [], A);
    }
  }

  /** The exact condition sees it before the import. */
  lemma StaleIsNotFresh()
    ensures Possible(Growing(), FOUND_LATE)
    ensures var w, h, sto := Growing(), Accepting(), Run(Growing(), FOUND_LATE);
            var src := Current(w, sto.sources, KA, map[]);
            Ready(w, h, sto) && Reads(w, h, sto, KA, map[], src, []) && !Fresh(w, h, sto, KA, map[], src, [])
  {
    hide Acyclic, Covers, Import, Recheck, Change, Coherent, Fresh, ChainOk, ResolvedFrom, Telling;
    ResolutionGoesStale();
    GrowingTells();
    CachedImportExactly(Growing(), Accepting(), Shown, FOUND_LATE, PLAIN, map[], [], A);
  }

  lemma RunFoundLate()
    ensures forall srcs :: Finite(Growing(), srcs)
    ensures ChainOk(Growing(), ROOT) && "/a" in Growing().dirs
    ensures Possible(Growing(), FOUND_LATE)
    ensures Run(Growing(), FOUND_LATE) == Change(Import(Growing(), EMPTY, ROOT, A).sto, "/b", "package b")
    ensures SourcesAfter(FOUND_LATE) == map["/b" := "package b"]
  {
    hide Import, Change, Covers, ChainOk, Room;
    Distinct();
    assert AImportsB(Growing());
    forall srcs ensures Finite(Growing(), srcs) { AImportsBFits(Growing(), srcs); }
    Chains(Growing(), ROOT, A, B);
    assert FOUND_LATE[..1] == [DoImport(PLAIN, map[], [], A)] && FOUND_LATE[..1][..0] == [];
    assert SourcesAfter([]) == map[] && SourcesAfter(FOUND_LATE[..1]) == map[];
    assert Possible(Growing(), []) && Possible(Growing(), FOUND_LATE[..1]);
    assert Run(Growing(), []) == EMPTY;
    assert Run(Growing(), FOUND_LATE[..1]) == Import(Growing(), EMPTY, ROOT, A).sto;
  }

  lemma FoundLateWithin()
    requires forall srcs :: Covers(Growing(), Accepting(), srcs)
    ensures Within(Growing(), Accepting(), FOUND_LATE)
    ensures OpWithin(Growing(), Accepting(), DoImport(PLAIN, map[], [], A))
  {
    hide Covers;
    var w, h := Growing(), Accepting();
    assert FOUND_LATE[..1] == [DoImport(PLAIN, map[], [], A)] && FOUND_LATE[..1][..0] == [];
    assert Covers(w, h, SourcesAfter([])) && Covers(w, h, SourcesAfter(FOUND_LATE[..1]));
    assert Within(w, h, []);
    assert OpWithin(w, h, FOUND_LATE[0]) && OpWithin(w, h, FOUND_LATE[1]);
    assert Within(w, h, FOUND_LATE[..1]);
  }

  lemma NotFoundStored() returns (sto: Store)
    ensures Finite(Growing(), map[]) && ChainOk(Growing(), ROOT)
    ensures sto == Import(Growing(), EMPTY, ROOT, A).sto && sto.states.Keys == {KA}
    ensures Settled(sto.states[KA]) && sto.states[KA].res.Failed? && sto.sources == map[] && sto.clock >= 0
  {
    hide Room, Import, Check, ImportDeps, ChainOk, Finite, DetectCycle;
    Distinct();
    assert AImportsB(Growing());
    AImportsBFits(Growing(), map[]);
    var w := Growing();
    Chains(w, ROOT, A, B);
    var kx := Branch(w, ROOT, KA);
    var sto1 := Enter(EMPTY, ROOT, KA).(clock := 1);
    var missing := Out(sto1, Failed(Other("cannot find package")));
    assert ImportPackage(w, sto1, kx, A, "b") == missing;
    OneDep(w, EMPTY, ROOT, A, "b", missing);
    sto := Import(w, EMPTY, ROOT, A).sto;
  }

  /** The change is announced to the states of its directory, of which there are none. */
  lemma NotFoundStays(sto: Store)
    requires sto.states.Keys == {KA} && Settled(sto.states[KA]) && sto.sources == map[]
    ensures Finite(Growing(), map["/b" := "package b"]) && ChainOk(Growing(), ROOT)
    ensures Change(sto, "/b", "package b").sources == map["/b" := "package b"]
    ensures Import(Growing(), Change(sto, "/b", "package b"), ROOT, A).res == sto.states[KA].res
  {
    hide Room, Check, Publish, ChainOk, DetectCycle, Hit;
    Distinct();
    Chains(Growing(), ROOT, A, B);
    var r := Change(sto, "/b", "package b");
    assert StatesOf(sto, "/b") == {};
    assert !Hit(Imby(sto.states), {}, KA) by { NothingHit(Imby(sto.states), KA); }
    assert r.states[KA] == sto.states[KA];
  }

  lemma NothingHit(g: Graph, k: Key)
    ensures !Hit(g, {}, k)
  {
  }

  lemma FoundByNow()
    ensures var srcs: Sources := map["/b" := "package b"];
            Finite(Growing(), srcs) && ChainOk(Growing(), ROOT) && Recheck(Growing(), srcs, ROOT, A).Package?
  {
    hide Room, ChainOk, DetectCycle, Recheck;
    Distinct();
    var w, srcs: Sources := Growing(), map["/b" := "package b"];
    Chains(w, ROOT, A, B);
    RecheckNone(w, srcs, Branch(w, ROOT, KA), B);
    RecheckOne(w, srcs, ROOT, A, "b", B, []);
  }

  // ---------------------------------------------------------------- the history of a run

  /** Every package may import every other: what it imports is what its directory holds. */
  function Reading(): World {
    World({"/a", "/b"}, false, false,
          (k: Key, s: Source) => if s == "" then Imports([]) else Imports([s]),
          (srcs: Sources, mp: ModPath, p: PkgPath, ip: string) =>
            if ip == "a" then At(A, []) else if ip == "b" then At(B, []) else Missing(Other("cannot find package")),
          (o: Overlay, d: string, s: Source) => s,
          (k: Key, s: Source, ps: seq<Pkg>) => Package(Built(k, s, ps)),
          (k: Key, s: Source, ip: string, e: Error) => AtImport(k, s, ip, e),
          (k: Key, s: Source) => 0)
  }

  const A_IMPORTS_B := [DoChange("/a", "b")]

  /** In that run A held nothing or imported B, and B held nothing. */
  function Narrow(): History {
    History((k: Key, o: Overlay, mp: ModPath) => k.pp == A || k.pp == B,
            (k: Key, s: Source, mp: ModPath) => (k.pp == A && (s == "" || s == "b")) || (k.pp == B && s == ""),
            (mp: ModPath, p: PkgPath, ip: string, d: PkgPath, m: ModPath) => p == A && ip == "b" && d == B,
            (p: PkgPath) => if p == A then 1 else 0)
  }

  /** All texts occur, and both packages find each other. */
  ghost predicate Unrestricted(h: History) {
    (forall k, s, mp :: h.texts(k, s, mp)) && h.finds([], A, "b", B, []) && h.finds([], B, "a", A, [])
  }

  /**
   * The import graph has to be acyclic in the history of a run only. Where a package imports whatever its directory
   * holds, no history with all texts is acyclic; but that of a run in which only A ever imports B is, and the run meets
   * all hypotheses of the agreement theorem.
   */
  lemma AcyclicInHistory()
    ensures var w, h := Reading(), Narrow();
            && Acyclic(w, h) && SeeNothing(w) && !w.concurrent && Possible(w, A_IMPORTS_B) && Within(w, h, A_IMPORTS_B)
            && OpWithin(w, h, DoImport(PLAIN, map[], [], A)) && A.dir in w.dirs
            && ResolvedFrom(w, h, Run(w, A_IMPORTS_B), Spot(A, []))
            && OneWay(w, h, SourcesAfter(A_IMPORTS_B), Spot(A, []))
            && w.parse(KA, Content(SourcesAfter(A_IMPORTS_B), A.dir)) == Imports(["b"])
    ensures forall h: History | Unrestricted(h) ::
              !Acyclic(Reading(), h)
  {
    hide Leads, Covers, Resolved;
    Distinct();
    var w, h := Reading(), Narrow();
    forall a, b | Edge(w, h, a, b) ensures a.pp == A && b.pp == B { }
    OneEdge(w, h);
    NarrowCovers(map[]);
    NarrowCovers(map["/a" := "b"]);
    assert A_IMPORTS_B[..0] == [];
    assert SourcesAfter([]) == map[] && SourcesAfter(A_IMPORTS_B) == map["/a" := "b"];
    assert Finite(w, map[]) && Finite(w, map["/a" := "b"]);
    assert Possible(w, []) && Within(w, h, []);
    assert Run(w, []) == EMPTY;
    assert Run(w, A_IMPORTS_B).states.Keys == {};
    forall h: History | Unrestricted(h)
      ensures !Acyclic(Reading(), h)
    {
      assert Imported(w, h, KA, "b", [], "b", B, []) && Imported(w, h, KB, "a", [], "a", A, []);
    }
  }

  lemma NarrowCovers(srcs: Sources)
    requires srcs == map[] || srcs == map["/a" := "b"]
    ensures Covers(Reading(), Narrow(), srcs)
  {
    Distinct();
  }

  // ---------------------------------------------------------------- two modules

  /** A needs B, which it finds in the module /m1 and not in any other. */
  function Modular(): World {
    World({"/a", "/b"}, false, false,
          (k: Key, s: Source) => if k.pp == A then Imports(["b"]) else Imports([]),
          (srcs: Sources, mp: ModPath, p: PkgPath, ip: string) =>
            if mp == ["/m1"] then At(B, ["/m1"]) else Missing(Other("cannot find package")),
          (o: Overlay, d: string, s: Source) => s,
          (k: Key, s: Source, ps: seq<Pkg>) => Package(Built(k, s, ps)),
          (k: Key, s: Source, ip: string, e: Error) => AtImport(k, s, ip, e),
          (k: Key, s: Source) => 0)
  }

  const FROM_M1 := [DoImport(PLAIN, map[], ["/m1"], A)]
  const VIA_M1 := New(PLAIN, map[], ["/m1"])
  const VIA_M2 := New(PLAIN, map[], ["/m2"])

  lemma OtherModule()
    ensures ["/m1"] != ["/m2"]
  {
    assert "/m1"[2] != "/m2"[2];
    assert ["/m1"][0] != ["/m2"][0];
  }

  /**
   * The state of a package is shared by all modules, although what its imports lead to is not: A is imported from one
   * module, and then from another in which its dependency is not to be found. Nothing has changed meanwhile, and all
   * other hypotheses of the agreement theorem hold.
   */
  lemma ModulesDisagree()
    ensures var w, h := Modular(), Accepting();
            && A.dir in w.dirs && Acyclic(w, h) && SeeNothing(w) && !w.concurrent && Possible(w, FROM_M1)
            && Within(w, h, FROM_M1)
            && OpWithin(w, h, DoImport(PLAIN, map[], ["/m2"], A)) && ChainOk(w, VIA_M2)
            && OneWay(w, h, SourcesAfter(FROM_M1), Spot(A, ["/m2"]))
            && Import(w, Run(w, FROM_M1), VIA_M2, A).res.Package?
            && Recheck(w, SourcesAfter(FROM_M1), VIA_M2, A).Failed?
            && !ResolvedFrom(w, h, Run(w, FROM_M1), Spot(A, ["/m2"]))
  {
    hide Acyclic, Covers, Finite, Import, Recheck, ResolvedFrom, ChainOk, OneWay, Leads;
    var w, h := Modular(), Accepting();
    assert AImportsB(w);
    AImportsBFits(w, map[]);
    RunFromM1();
    ModularOneWay();
    var sto := StoredFromM1();
    ReusedFromM2(sto);
    NotInM2();
    if ResolvedFrom(w, h, Run(w, FROM_M1), Spot(A, ["/m2"])) {
      CachedImportEqualsUncached(w, h, FROM_M1, PLAIN, map[], ["/m2"], A);
    }
  }

  lemma RunFromM1()
    ensures forall srcs :: Finite(Modular(), srcs)
    ensures ChainOk(Modular(), VIA_M1) && "/a" in Modular().dirs
    ensures Possible(Modular(), FROM_M1) && Within(Modular(), Accepting(), FROM_M1)
    ensures Run(Modular(), FROM_M1) == Import(Modular(), EMPTY, VIA_M1, A).sto
    ensures SourcesAfter(FROM_M1) == map[]
  {
    hide Import, Covers, ChainOk, Room;
    Distinct();
    assert AImportsB(Modular());
    forall srcs ensures Finite(Modular(), srcs) && Covers(Modular(), Accepting(), srcs) {
      AImportsBFits(Modular(), srcs);
    }
    Chains(Modular(), VIA_M1, A, B);
    assert FROM_M1[..0] == [];
    assert SourcesAfter([]) == map[];
    assert Possible(Modular(), []) && Within(Modular(), Accepting(), []);
    assert Run(Modular(), []) == EMPTY;
  }

  /** From A one comes to A and B only, and to A in one module. */
  lemma ModularOneWay()
    ensures OneWay(Modular(), Accepting(), map[], Spot(A, ["/m2"]))
  {
    hide Leads;
    var w, h := Modular(), Accepting();
    Distinct();
    forall a, b | Edge(w, h, a, b) ensures a.pp == A && b.pp == B { }
    OneEdge(w, h);
    forall ip ensures !Looks(w, h, B, ip) { }
  }

  lemma StoredFromM1() returns (sto: Store)
    ensures Finite(Modular(), map[]) && ChainOk(Modular(), VIA_M1)
    ensures sto == Import(Modular(), EMPTY, VIA_M1, A).sto && sto.sources == map[]
    ensures KA in sto.states && Settled(sto.states[KA]) && sto.states[KA].res.Package?
  {
    hide Room, Import, Check, ImportDeps, ImportPackage, ChainOk, Finite, DetectCycle, Recheck;
    Distinct();
    var w := Modular();
    assert AImportsB(w);
    AImportsBFits(w, map[]);
    Chains(w, VIA_M1, A, B);
    var kx := Branch(w, VIA_M1, KA);
    var sto1 := Enter(EMPTY, VIA_M1, KA).(clock := 1);
    SameChain(w, kx, Toward(kx, ["/m1"]));
    NoDeps(w, sto1, Toward(kx, ["/m1"]), B);
    PackageAt(w, sto1, kx, A, "b", B, ["/m1"]);
    OneDep(w, EMPTY, VIA_M1, A, "b", Import(w, sto1, Toward(kx, ["/m1"]), B));
    sto := Import(w, EMPTY, VIA_M1, A).sto;
  }

  lemma ReusedFromM2(sto: Store)
    requires KA in sto.states && Settled(sto.states[KA]) && sto.sources == map[]
    ensures Finite(Modular(), map[]) && ChainOk(Modular(), VIA_M2)
    ensures Import(Modular(), sto, VIA_M2, A).res == sto.states[KA].res
  {
    hide Room, Check, Publish, ChainOk, DetectCycle;
    Distinct();
    Chains(Modular(), VIA_M2, A, B);
  }

  lemma NotInM2()
    ensures Finite(Modular(), map[]) && ChainOk(Modular(), VIA_M2)
    ensures Recheck(Modular(), map[], VIA_M2, A).Failed?
  {
    hide Room, ChainOk, DetectCycle, Finite;
    Distinct();
    OtherModule();
    var w := Modular();
    assert AImportsB(w);
    AImportsBFits(w, map[]);
    Chains(w, VIA_M2, A, B);
    var kx := Branch(w, VIA_M2, KA);
    assert RecheckDep(w, map[], kx, A, "b").Failed?;
    RecheckDepsOne(w, map[], kx, KA, "", "b");
  }

  // ---------------------------------------------------------------- a cycle of importers

  /** First A imports B, then B imports A, and never do both. */
  const TAKE_TURNS := [
    DoChange("/a", "b"), DoImport(PLAIN, map[], [], A), DoChange("/a", ""), DoChange("/b", "a"),
    DoImport(PLAIN, map[], [], B)]

  lemma ReadingIs()
    ensures var w := Reading();
            && (forall srcs :: Finite(w, srcs)) && w.dirs == {"/a", "/b"} && !w.importsTypesInfo && !w.concurrent
            && "/a" in w.dirs && "/b" in w.dirs
  {
  }

  /**
   * Since importers are never unregistered, a run can leave a cycle of importers although the imports are acyclic at
   * every moment. The next invalidation of A then never ends.
   */
  lemma TurnsMakeCycle()
    ensures Possible(Reading(), TAKE_TURNS)
    ensures var states := Run(Reading(), TAKE_TURNS).states;
            && KA in states && CycleFrom(Imby(states), KA)
            && forall n: nat :: !Ends(Imby(states), KA, n)
  {
    hide Import, Change, CycleFrom, Ends, Finite, Reading;
    var w := Reading();
    ReadingIs();
    var s1 := Store(1, map["/a" := "b"], map[]);
    var s2 := Import(w, s1, ROOT, A).sto;
    AThenB(s1);
    var s4 := Change(Change(s2, "/a", ""), "/b", "a");
    ChangedImby(s2, "/a", "");
    ChangedImby(Change(s2, "/a", ""), "/b", "a");
    BThenA(s4);
    var s5 := Import(w, s4, ROOT, B).sto;
    RunTurns();
    assert KB in s5.states[KA].imby && KA in s5.states[KB].imby;
    CycleOfTwo(Imby(s5.states));
  }

  lemma CycleOfTwo(g: Graph)
    requires KA in g && KB in g && KB in g[KA] && KA in g[KB]
    ensures CycleFrom(g, KA) && forall n: nat :: !Ends(g, KA, n)
  {
    hide Ends;
    ReachesSelf(g, KA);
    ReachesStep(g, KB, KA, KA);
    forall n: nat ensures !Ends(g, KA, n) {
      assert Steps(g, KA, KA, 0);
      assert Steps(g, KB, KA, 1);
      NoEndOnCycle(g, KA, KB, 1, n);
    }
  }

  lemma ChangedImby(sto: Store, dir: string, src: Source)
    ensures var r := Change(sto, dir, src);
            && r.clock == sto.clock + 1 && r.sources == sto.sources[dir := src] && r.states.Keys == sto.states.Keys
            && forall k | k in sto.states ::
                 && r.states[k].imby == sto.states[k].imby && r.states[k].chkAt == sto.states[k].chkAt
                 && (k.pp.dir == dir ==> r.states[k].invAt == sto.clock + 1)
                 && (k.pp.dir != dir ==> r.states[k].invAt == sto.states[k].invAt || r.states[k].invAt == sto.clock + 1)
  {
    hide Hit;
    var sto1 := sto.(sources := sto.sources[dir := src]);
    forall k | k in sto.states && k.pp.dir == dir ensures Hit(Imby(sto.states), StatesOf(sto1, dir), k) {
      RootHit(Imby(sto.states), StatesOf(sto1, dir), k);
    }
  }

  lemma AThenB(s1: Store)
    requires s1 == Store(1, map["/a" := "b"], map[])
    ensures Finite(Reading(), s1.sources) && ChainOk(Reading(), ROOT)
    ensures var s2 := Import(Reading(), s1, ROOT, A).sto;
            && s2.states.Keys == {KA, KB} && s2.clock == 3 && s2.sources == s1.sources
            && s2.states[KA].chkAt == 2 && s2.states[KB].chkAt == 3 && KA in s2.states[KB].imby
  {
    hide Room, Import, Check, ImportDeps, ImportPackage, ChainOk, Finite, DetectCycle;
    Distinct();
    ReadingIs();
    var w := Reading();
    Chains(w, ROOT, A, B);
    var kx := Branch(w, ROOT, KA);
    var sto1 := Enter(s1, ROOT, KA).(clock := 2);
    NoDeps(w, sto1, kx, B);
    PackageAt(w, sto1, kx, A, "b", B, []);
    SameChain(w, kx, Toward(kx, []));
    OneDep(w, s1, ROOT, A, "b", Import(w, sto1, kx, B));
  }

  lemma BThenA(s4: Store)
    requires s4.states.Keys == {KA, KB} && KA in s4.states[KB].imby
    requires !Settled(s4.states[KA]) && !Settled(s4.states[KB])
    requires s4.sources == map["/a" := "b"]["/a" := ""]["/b" := "a"]
    ensures Finite(Reading(), s4.sources) && ChainOk(Reading(), ROOT)
    ensures var s5 := Import(Reading(), s4, ROOT, B).sto;
            s5.states.Keys == {KA, KB} && KA in s5.states[KB].imby && KB in s5.states[KA].imby
  {
    hide Room, Import, Check, ImportDeps, ImportPackage, ChainOk, Finite, DetectCycle;
    Distinct();
    ReadingIs();
    var w := Reading();
    Chains(w, ROOT, B, A);
    var kx := Branch(w, ROOT, KB);
    var sto1 := Enter(s4, ROOT, KB).(clock := s4.clock + 1);
    NoDeps(w, sto1, kx, A);
    PackageAt(w, sto1, kx, B, "a", A, []);
    OneDep(w, s4, ROOT, B, "a", Import(w, sto1, kx, A));
  }

  lemma RunTurns()
    ensures Possible(Reading(), TAKE_TURNS) && ChainOk(Reading(), ROOT)
    ensures var s2 := Import(Reading(), Store(1, map["/a" := "b"], map[]), ROOT, A).sto;
            var s4 := Change(Change(s2, "/a", ""), "/b", "a");
            Finite(Reading(), s4.sources) && Run(Reading(), TAKE_TURNS) == Import(Reading(), s4, ROOT, B).sto
  {
    hide Import, Change, ChainOk, Room, Reading, Finite;
    var w := Reading();
    ReadingIs();
    Chains(w, ROOT, A, B);
    var ops := TAKE_TURNS;
    assert ops[..4][..3] == ops[..3] && ops[..3][..2] == ops[..2] && ops[..2][..1] == ops[..1] && ops[..1][..0] == [];
    assert Possible(w, []) && Possible(w, ops[..1]) && Possible(w, ops[..2]) && Possible(w, ops[..3])
        && Possible(w, ops[..4]);
    assert Run(w, []) == EMPTY;
    FirstChange();
    assert Run(w, ops[..1]) == Store(1, map["/a" := "b"], map[]);
    assert Run(w, ops[..2]) == Import(w, Run(w, ops[..1]), ROOT, A).sto;
    assert Run(w, ops[..3]) == Change(Run(w, ops[..2]), "/a", "");
    assert Run(w, ops[..4]) == Change(Run(w, ops[..3]), "/b", "a");
  }

  lemma FirstChange()
    ensures Change(EMPTY, "/a", "b") == Store(1, map["/a" := "b"], map[])
  {
  }

  /** Within an acyclic history every invalidation ends. */
  lemma ClearsEnd(w: World, h: History, ops: seq<Op>, k: Key)
    requires Acyclic(w, h) && SeeNothing(w) && Possible(w, ops) && Within(w, h, ops)
    requires k in Run(w, ops).states
    ensures exists n: nat :: Ends(Imby(Run(w, ops).states), k, n)
  {
    hide Acyclic, Sound, Ordered, Layered;
    RunSound(w, h, ops);
    SoundOrdered(w, h, Run(w, ops));
    OrderedIsLayered(h, Run(w, ops));
    LayeredEnds(Imby(Run(w, ops).states), h, Top(Run(w, ops).states.Keys, h), k);
  }
}
