/** Why imports have to lead one way: a package that is reached through two modules within a single import. */
module ImportDiamond {
  import opened Wrappers
  import opened ImportModel
  import opened ImportCache
  import opened SeqImport
  import L = ImportLimits

  const R := PkgPath("r", "/r")
  const P := PkgPath("p", "/p")
  const X := PkgPath("x", "/x")
  const PLAIN := Flags(false, false, false, 0)
  const KR := Key(R, PLAIN, true)
  const KP := Key(P, PLAIN, true)
  const KX := Key(X, PLAIN, true)
  const ROOT := New(PLAIN, map[], [])
  const EMPTY := Store(0, map[], map[])
  const M0: ModPath := ["/m0"]
  const M1: ModPath := ["/m1"]

  /** R imports P and X, P imports X, and X imports y, which only the module of P provides. */
  function Diamond(): World {
    World({"/r", "/p", "/x"}, false, false,
          (k: Key, s: Source) =>
            if k.pp == R then Imports(["p", "x"]) else if k.pp == P then Imports(["x"]) else Imports(["y"]),
          (srcs: Sources, mp: ModPath, p: PkgPath, ip: string) =>
            if ip == "p" then At(P, M1)
            else if ip == "x" then At(X, if mp == M1 then M1 else M0)
            else if mp == M1 then Fake(Plain("y")) else Missing(Other("cannot find package")),
          (o: Overlay, d: string, s: Source) => s,
          (k: Key, s: Source, ps: seq<Pkg>) => Package(Built(k, s, ps)),
          (k: Key, s: Source, ip: string, e: Error) => AtImport(k, s, ip, e),
          (k: Key, s: Source) => 0)
  }

  predicate Down(a: PkgPath, b: PkgPath) {
    (a == R && (b == P || b == X)) || (a == P && b == X)
  }

  function Downwards(): History {
    History((k: Key, o: Overlay, mp: ModPath) => true, (k: Key, s: Source, mp: ModPath) => true,
            (mp: ModPath, p: PkgPath, ip: string, d: PkgPath, m: ModPath) => Down(p, d),
            Height)
  }

  function Height(p: PkgPath): nat {
    if p == R then 2 else if p == P then 1 else 0
  }

  lemma Distinct()
    ensures R != P && R != X && P != X && M0 != M1 && "p" != "x" && "p" != "y" && "x" != "y"
    ensures R.importPath !in {P.importPath, X.importPath} && P.importPath != X.importPath
    ensures R.dir !in {P.dir, X.dir} && P.dir != X.dir
    ensures !Targets(KR, P) && !Targets(KR, X) && !Targets(KP, X) && !Targets(KP, R)
  {
    assert "r"[0] != "p"[0] && "r"[0] != "x"[0] && "p"[0] != "x"[0] && "p"[0] != "y"[0] && "x"[0] != "y"[0];
    assert "/r"[1] != "/p"[1] && "/r"[1] != "/x"[1] && "/p"[1] != "/x"[1];
    assert "/m0"[2] != "/m1"[2];
    assert M0[0] != M1[0];
  }

  lemma DiamondIs()
    ensures var w := Diamond();
            && (forall srcs :: Finite(w, srcs)) && w.dirs == {"/r", "/p", "/x"} && !w.importsTypesInfo && !w.concurrent
            && R.dir in w.dirs && P.dir in w.dirs && X.dir in w.dirs && SeeNothing(w)
  {
  }

  // ---------------------------------------------------------------- the history

  lemma EdgesGoDown(a: Spot, b: Spot)
    requires Edge(Diamond(), Downwards(), a, b)
    ensures Down(a.pp, b.pp)
  {
  }

  lemma {:induction false} PathsGoDown(ps: seq<Spot>, n: nat)
    requires ImportPath(Diamond(), Downwards(), ps) && 0 < n < |ps|
    ensures Down(ps[0].pp, ps[n].pp)
  {
    hide Edge;
    Distinct();
    EdgesGoDown(ps[n - 1], ps[n - 1 + 1]);
    if n > 1 {
      PathsGoDown(ps, n - 1);
    }
  }

  lemma LeadsDown(a: Spot, b: Spot)
    requires Leads(Diamond(), Downwards(), a, b)
    ensures Down(a.pp, b.pp)
  {
    hide Edge, ImportPath;
    var w, h := Diamond(), Downwards();
    var ps: seq<Spot> :| |ps| >= 2 && ps[0] == a && ps[|ps| - 1] == b && ImportPath(w, h, ps);
    PathsGoDown(ps, |ps| - 1);
  }

  lemma DiamondAcyclic()
    ensures Acyclic(Diamond(), Downwards())
  {
    hide Leads;
    Distinct();
    var w, h := Diamond(), Downwards();
    forall a, b | Leads(w, h, a, b) ensures a.pp.importPath != b.pp.importPath && a.pp.dir != b.pp.dir {
      LeadsDown(a, b);
    }
  }

  lemma DiamondCovers(srcs: Sources)
    ensures Covers(Diamond(), Downwards(), srcs)
  {
    Distinct();
  }

  // ---------------------------------------------------------------- chains

  lemma NotOn(kp: Importer, pp: PkgPath)
    requires forall k | k in Chain(kp) :: !Targets(k, pp)
    ensures DetectCycle(kp, pp).None?
  {
  }

  lemma NoChain(w: World, kp: Importer)
    requires Chain(kp) == []
    ensures ChainOk(w, kp)
  {
  }

  const AT_R := Branch(Diamond(), ROOT, KR)
  const AT_P := Branch(Diamond(), Toward(AT_R, M1), KP)

  /** The importers on the way to P and X. */
  lemma Chains()
    ensures var w := Diamond();
            && ChainOk(w, ROOT) && DetectCycle(ROOT, R).None?
            && ChainOk(w, AT_R) && DetectCycle(AT_R, P).None? && DetectCycle(AT_R, X).None? && AT_R.mp == []
            && ChainOk(w, AT_P) && DetectCycle(AT_P, X).None? && AT_P.mp == M1
            && ChainOk(w, Branch(w, Toward(AT_R, M0), KX)) && ChainOk(w, Branch(w, Toward(AT_P, M1), KX))
  {
    hide ChainOk, DetectCycle, Room;
    Distinct();
    DiamondIs();
    var w := Diamond();
    assert Chain(ROOT) == [];
    NoChain(w, ROOT);
    NotOn(ROOT, R);
    BranchChain(w, ROOT, R);
    assert Chain(AT_R) == [KR];
    NotOn(AT_R, P);
    NotOn(AT_R, X);
    Passed(AT_R, M1, P, KP);
    Passed(AT_R, M0, X, KX);
    assert Chain(AT_P) == [KP, KR];
    NotOn(AT_P, X);
    Passed(AT_P, M1, X, KX);
  }

  lemma Passed(kx: Importer, m: ModPath, p: PkgPath, key: Key)
    requires ChainOk(Diamond(), kx) && DetectCycle(kx, p).None? && p.dir in Diamond().dirs
    requires key == StateKey(kx, p)
    ensures var w := Diamond();
            && ChainOk(w, Toward(kx, m)) && DetectCycle(Toward(kx, m), p).None?
            && ChainOk(w, Branch(w, Toward(kx, m), key))
            && Chain(Branch(w, Toward(kx, m), key)) == [key] + Chain(kx)
  {
    hide ChainOk, DetectCycle, Room;
    SameChain(Diamond(), kx, Toward(kx, m));
    BranchChain(Diamond(), Toward(kx, m), p);
  }

  // ---------------------------------------------------------------- the import

  ghost predicate Holds(sto: Store, key: Key) {
    key in sto.states && Settled(sto.states[key]) && sto.states[key].res.Package?
  }

  ghost predicate Clean(sto: Store, key: Key) {
    key !in sto.states && sto.clock >= 0 && sto.sources == map[]
  }

  /** From P, X is imported through the module that has y. */
  lemma XFromP(sto: Store)
    requires Clean(sto, KX)
    ensures Finite(Diamond(), map[]) && ChainOk(Diamond(), AT_P)
    ensures var o := ImportPackage(Diamond(), sto, AT_P, P, "x"); Holds(o.sto, KX) && o.res.Package?
  {
    hide Room, Import, Check, ImportDeps, ImportPackage, ChainOk, Finite, DetectCycle;
    Distinct();
    DiamondIs();
    Chains();
    var w, kx := Diamond(), Toward(AT_P, M1);
    L.PackageAt(w, sto, AT_P, P, "x", X, M1);
    SameChain(w, AT_P, kx);
    var sto1 := Enter(sto, kx, KX);
    var y := Out(sto1.(clock := sto1.clock + 1), Package(Plain("y")));
    YFound(y.sto);
    L.OneDep(w, sto, kx, X, "y", y);
  }

  lemma YFound(sto: Store)
    requires sto.sources == map[]
    ensures var w := Diamond();
            var kx := Branch(w, Toward(AT_P, M1), KX);
            && Finite(w, map[]) && ChainOk(w, kx)
            && ImportPackage(w, sto, kx, X, "y") == Out(sto, Package(Plain("y")))
  {
    hide Room, Import, ChainOk, Finite, DetectCycle;
    Distinct();
    DiamondIs();
    Chains();
  }

  lemma PFromR(sto: Store)
    requires Clean(sto, KX) && Clean(sto, KP)
    ensures Finite(Diamond(), map[]) && ChainOk(Diamond(), AT_R)
    ensures var o := ImportPackage(Diamond(), sto, AT_R, R, "p");
            Holds(o.sto, KX) && o.res.Package? && o.sto.sources == map[]
  {
    hide Room, Import, Check, ImportDeps, ImportPackage, ChainOk, Finite, DetectCycle;
    Distinct();
    DiamondIs();
    Chains();
    var w, kx := Diamond(), Toward(AT_R, M1);
    L.PackageAt(w, sto, AT_R, R, "p", P, M1);
    SameChain(w, AT_R, kx);
    var sto1 := Enter(sto, kx, KP);
    XFromP(sto1.(clock := sto1.clock + 1));
    L.OneDep(w, sto, kx, P, "x", ImportPackage(w, sto1.(clock := sto1.clock + 1), AT_P, P, "x"));
  }

  /** Then X is reused, though R finds it through another module. */
  lemma XFromR(sto: Store)
    requires Holds(sto, KX) && sto.sources == map[]
    ensures Finite(Diamond(), map[]) && ChainOk(Diamond(), AT_R)
    ensures ImportPackage(Diamond(), sto, AT_R, R, "x").res.Package?
  {
    hide Room, Check, ImportPackage, Publish, ChainOk, Finite, DetectCycle;
    Distinct();
    DiamondIs();
    Chains();
    L.PackageAt(Diamond(), sto, AT_R, R, "x", X, M0);
    SameChain(Diamond(), AT_R, Toward(AT_R, M0));
  }

  lemma ImportSucceeds()
    ensures Finite(Diamond(), map[]) && ChainOk(Diamond(), ROOT) && Import(Diamond(), EMPTY, ROOT, R).res.Package?
  {
    hide Room, ImportPackage, ChainOk, Finite, DetectCycle;
    Distinct();
    DiamondIs();
    Chains();
    var w := Diamond();
    var sto1 := Enter(EMPTY, ROOT, KR).(clock := 1);
    PFromR(sto1);
    var o1 := ImportPackage(w, sto1, AT_R, R, "p");
    XFromR(o1.sto);
    var o2 := ImportPackage(w, o1.sto, AT_R, R, "x");
    var f1 := map["p" := At(P, M1)];
    var f2 := f1["x" := At(X, M0)];
    var pkgs := [] + [o1.res.pkg] + [o2.res.pkg];
    assert ImportDeps(w, o2.sto, AT_R, KR, "", ["p", "x"], 2, pkgs, f2).res.Package?;
    assert ImportDeps(w, o1.sto, AT_R, KR, "", ["p", "x"], 1, [] + [o1.res.pkg], f1).res.Package?;
    assert ImportDeps(w, sto1, AT_R, KR, "", ["p", "x"], 0, [], map[]).res.Package?;
  }

  // ---------------------------------------------------------------- the re-check

  lemma RecheckFails()
    ensures Finite(Diamond(), map[]) && ChainOk(Diamond(), ROOT) && Recheck(Diamond(), map[], ROOT, R).Failed?
  {
    hide Room, ChainOk, Finite, DetectCycle, RecheckDep;
    Distinct();
    DiamondIs();
    Chains();
    var w := Diamond();
    XNotBuilt();
    match RecheckDep(w, map[], AT_R, R, "p")
    case Failed(_) =>
    case Package(p) =>
      assert RecheckDeps(w, map[], AT_R, KR, "", ["p", "x"], 1, [] + [p]).Failed?;
  }

  /** In the module through which R finds X there is no y. */
  lemma XNotBuilt()
    ensures Finite(Diamond(), map[]) && ChainOk(Diamond(), AT_R)
    ensures RecheckDep(Diamond(), map[], AT_R, R, "x").Failed?
  {
    hide Room, ChainOk, Finite, DetectCycle;
    Distinct();
    DiamondIs();
    Chains();
    var w, kx := Diamond(), Toward(AT_R, M0);
    SameChain(w, AT_R, kx);
    assert RecheckDep(w, map[], Branch(w, kx, KX), X, "y").Failed?;
    L.RecheckDepsOne(w, map[], Branch(w, kx, KX), KX, "", "y");
  }

  /**
   * The first import of all may already differ from a re-check, as its own dependencies share states: X is checked for
   * P and reused for R, whose module has no y. Nothing is settled before, so only the hypothesis on the ways to X
   * fails.
   */
  lemma TwoWaysDisagree()
    ensures var w, h := Diamond(), Downwards();
            && R.dir in w.dirs && Acyclic(w, h) && SeeNothing(w) && !w.concurrent && Possible(w, []) && Within(w, h, [])
            && OpWithin(w, h, DoImport(PLAIN, map[], [], R)) && ChainOk(w, ROOT)
            && ResolvedFrom(w, h, Run(w, []), Spot(R, []))
            && Import(w, Run(w, []), ROOT, R).res.Package?
            && Recheck(w, SourcesAfter([]), ROOT, R).Failed?
            && !OneWay(w, h, SourcesAfter([]), Spot(R, []))
  {
    hide Acyclic, Covers, Finite, Import, Recheck, ChainOk, OneWay, Leads;
    var w, h := Diamond(), Downwards();
    DiamondIs();
    DiamondAcyclic();
    DiamondCovers(map[]);
    ImportSucceeds();
    RecheckFails();
    assert SourcesAfter([]) == map[];
    assert Run(w, []) == EMPTY;
    if OneWay(w, h, SourcesAfter([]), Spot(R, [])) {
      CachedImportEqualsUncached(w, h, [], PLAIN, map[], [], R);
    }
  }
}
