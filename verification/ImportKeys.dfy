/** Which states an import uses: the root is checked as the user asked, and what it imports always in the same way. */
module ImportKeys {
  import opened Wrappers
  import opened ImportModel
  import opened ImportCache
  import opened Invalidation
  import opened TableSteps
  import opened SeqImport
  import S = ImportSteps
  import L = ImportLimits

  // ---------------------------------------------------------------- dependencies in the table

  /** `dep` is checked as a dependency of `of`: no function bodies, unused imports, tests or unsaved files of its
      own, and type information only if the importer has it and passes it on. */
  predicate CheckedFor(w: World, dep: Key, of: Key) {
    && !dep.flags.checkFuncs && !dep.flags.checkImports && !dep.flags.tests && dep.noHash
    && dep.flags.typesInfo == if w.importsTypesInfo then of.flags.typesInfo else 0
  }

  ghost predicate PlainDeps(w: World, states: map<Key, St>) {
    forall k, p | k in states && p in states[k].imby :: CheckedFor(w, k, p)
  }

  /** Whatever an importer that works for a state imports is checked for that state. */
  ghost predicate PlainImporter(w: World, kp: Importer) {
    kp.ks.Some? ==> forall pp :: CheckedFor(w, StateKey(kp, pp), kp.ks.value)
  }

  lemma BranchIsPlain(w: World, kp: Importer, pp: PkgPath, mod: ModPath)
    ensures PlainImporter(w, Branch(w, kp, StateKey(kp, pp)))
    ensures PlainImporter(w, Toward(Branch(w, kp, StateKey(kp, pp)), mod))
  {
  }

  lemma TowardPlain(w: World, kp: Importer, mod: ModPath)
    requires PlainImporter(w, kp)
    ensures PlainImporter(w, Toward(kp, mod))
  {
    hide CheckedFor;
    forall pp ensures StateKey(Toward(kp, mod), pp) == StateKey(kp, pp) { }
  }

  lemma EnterPlain(w: World, sto: Store, kp: Importer, pp: PkgPath)
    requires PlainDeps(w, sto.states) && PlainImporter(w, kp)
    ensures PlainDeps(w, Enter(sto, kp, StateKey(kp, pp)).states)
  {
    hide CheckedFor, StateKey;
  }

  lemma {:induction false} ImportPlain(w: World, sto: Store, kp: Importer, pp: PkgPath)
    requires Finite(w, sto.sources) && ChainOk(w, kp) && pp.dir in w.dirs
    requires PlainDeps(w, sto.states) && PlainImporter(w, kp)
    ensures PlainDeps(w, Import(w, sto, kp, pp).sto.states)
    decreases Room(w, kp), 0, 0
  {
    hide Finite, ChainOk, Room, DetectCycle, Check, CheckedFor, PlainImporter;
    if DetectCycle(kp, pp).None? {
      BranchChain(w, kp, pp);
      var key, sto1 := StateKey(kp, pp), Enter(sto, kp, StateKey(kp, pp));
      EnterPlain(w, sto, kp, pp);
      BranchIsPlain(w, kp, pp, []);
      var src := Current(w, sto1.sources, key, kp.srcMap);
      CheckPlain(w, sto1.(clock := sto1.clock + 1), Branch(w, kp, key), key, src);
    }
  }

  lemma {:induction false} CheckPlain(w: World, sto: Store, kx: Importer, key: Key, src: Source)
    requires Finite(w, sto.sources) && ChainOk(w, kx) && PlainDeps(w, sto.states) && PlainImporter(w, kx)
    ensures PlainDeps(w, Check(w, sto, kx, key, src).sto.states)
    decreases Room(w, kx), 2, 0
  {
    hide Finite, ChainOk, Room, PlainDeps, PlainImporter, ImportDeps;
    match w.parse(key, src)
    case ParseError(_) =>
    case Imports(paths) => DepsPlain(w, sto, kx, key, src, paths, 0, [], map[]);
  }

  lemma {:induction false} DepsPlain(w: World, sto: Store, kx: Importer, key: Key, src: Source, paths: seq<string>,
                                     i: nat, pkgs: seq<Pkg>, found: Found)
    requires Finite(w, sto.sources) && ChainOk(w, kx) && i <= |paths|
    requires PlainDeps(w, sto.states) && PlainImporter(w, kx)
    ensures PlainDeps(w, ImportDeps(w, sto, kx, key, src, paths, i, pkgs, found).sto.states)
    decreases Room(w, kx), 1, |paths| - i
  {
    hide Finite, ChainOk, Room, PlainDeps, PlainImporter, ImportPackage;
    if i < |paths| {
      var o := ImportPackage(w, sto, kx, key.pp, paths[i]);
      DepPlain(w, sto, kx, key.pp, paths[i]);
      if o.res.Package? {
        var found' := found[paths[i] := w.find(sto.sources, kx.mp, key.pp, paths[i])];
        DepsPlain(w, o.sto, kx, key, src, paths, i + 1, pkgs + [o.res.pkg], found');
      }
    }
  }

  lemma {:induction false} DepPlain(w: World, sto: Store, kx: Importer, p: PkgPath, ip: string)
    requires Finite(w, sto.sources) && ChainOk(w, kx) && PlainDeps(w, sto.states) && PlainImporter(w, kx)
    ensures PlainDeps(w, ImportPackage(w, sto, kx, p, ip).sto.states)
    decreases Room(w, kx), 0, 1
  {
    hide ChainOk, Room, PlainDeps, CheckedFor, Import;
    var l := w.find(sto.sources, kx.mp, p, ip);
    if l.At? {
      SameChain(w, kx, Toward(kx, l.mod));
      TowardPlain(w, kx, l.mod);
      ImportPlain(w, sto, Toward(kx, l.mod), l.pp);
    }
  }

  lemma ChangePlain(w: World, sto: Store, dir: string, src: Source)
    requires PlainDeps(w, sto.states)
    ensures PlainDeps(w, Change(sto, dir, src).states)
  {
    hide Hit, CheckedFor;
  }

  /** After every run of imports and changes, whatever its imports asked for, every state that has an importer is
      checked for that importer. */
  lemma {:induction false} RunIsPlain(w: World, ops: seq<Op>)
    requires Possible(w, ops)
    ensures PlainDeps(w, Run(w, ops).states)
  {
    hide Finite, Import, Change, CheckedFor;
    if ops != [] {
      var before, op := ops[..|ops| - 1], ops[|ops| - 1];
      RunIsPlain(w, before);
      match op
      case DoImport(flags, srcMap, mp, pp) => RootPlain(w, Run(w, before), New(flags, srcMap, mp), pp);
      case DoChange(dir, src) => ChangePlain(w, Run(w, before), dir, src);
    }
  }

  lemma RootPlain(w: World, sto: Store, kp: Importer, pp: PkgPath)
    requires Finite(w, sto.sources) && ChainOk(w, kp) && pp.dir in w.dirs && kp.ks.None? && PlainDeps(w, sto.states)
    ensures PlainDeps(w, Import(w, sto, kp, pp).sto.states)
  {
    hide Import, CheckedFor;
    ImportPlain(w, sto, kp, pp);
  }

  // ---------------------------------------------------------------- with importers interleaved

  ghost predicate PlainSys(w: World, s: S.Sys) {
    PlainDeps(w, s.sto.states) && forall id | id in s.tasks :: PlainImporter(w, s.tasks[id].kp)
  }

  lemma SpawnPlain(w: World, s: S.Sys, id: nat, t: nat, ip: string)
    requires S.Enabled(w, s, S.Spawn(id, t, ip)) && PlainSys(w, s)
    ensures PlainSys(w, S.Apply(w, s, S.Spawn(id, t, ip)))
  {
    hide CheckedFor, S.ItsTurn, S.AllGood, S.NoChildren, S.Importing, DetectCycle, PlainImporter;
    var l := S.LookedUp(w, s, t, ip);
    BranchIsPlain(w, s.tasks[t].kp, s.tasks[t].pp, l.mod);
  }

  lemma EnlistPlain(w: World, s: S.Sys, id: nat)
    requires S.Enabled(w, s, S.Enlist(id)) && PlainSys(w, s)
    ensures PlainSys(w, S.Apply(w, s, S.Enlist(id)))
  {
    hide CheckedFor;
    assert s.tasks[id].Key() == StateKey(s.tasks[id].kp, s.tasks[id].pp);
  }

  lemma WalkPlain(w: World, s: S.Sys, c: S.Clearing)
    requires S.Enabled(w, s, S.Walk(c)) && PlainSys(w, s)
    ensures PlainSys(w, S.Apply(w, s, S.Walk(c)))
  {
    hide CheckedFor, Hit, PlainImporter;
  }

  lemma StepPlain(w: World, s: S.Sys, step: S.Step)
    requires S.Enabled(w, s, step) && PlainSys(w, s)
    ensures PlainSys(w, S.Apply(w, s, step))
  {
    match step
    case Spawn(id, t, ip) => SpawnPlain(w, s, id, t, ip);
    case Enlist(id) => EnlistPlain(w, s, id);
    case Walk(c) => WalkPlain(w, s, c);
    case Begin(id, flags, srcMap, mp, pp) => BeginPlain(w, s, step);
    case _ => OtherPlain(w, s, step);
  }

  lemma OtherPlain(w: World, s: S.Sys, step: S.Step)
    requires S.Enabled(w, s, step) && PlainSys(w, s) && !step.Spawn? && !step.Enlist? && !step.Walk?
    requires !step.Begin?
    ensures PlainSys(w, S.Apply(w, s, step))
  {
    hide CheckedFor, S.ItsTurn, S.AllGood, S.NoChildren, S.Importing, S.Outcome, Local, Valid, PlainImporter;
  }

  lemma BeginPlain(w: World, s: S.Sys, step: S.Step)
    requires S.Enabled(w, s, step) && PlainSys(w, s) && step.Begin?
    ensures PlainSys(w, S.Apply(w, s, step))
  {
    hide CheckedFor, Local;
  }

  /** The same holds in every reachable state of every interleaving. */
  lemma {:induction false} ReachableIsPlain(w: World, h: History, s: S.Sys, steps: seq<S.Step>)
    requires S.Reachable(w, h, s, steps)
    ensures PlainSys(w, s)
    decreases |steps|
  {
    hide S.Enabled, S.Apply, PlainSys, S.Allowed;
    if steps == [] {
      StartPlain(w);
    } else {
      var init, last := steps[..|steps| - 1], steps[|steps| - 1];
      assert S.ReachedBy(w, h, s, init, last);
      var p :| S.Reachable(w, h, p, init) && S.Next(w, h, p, last, s);
      ReachableIsPlain(w, h, p, init);
      StepPlain(w, p, last);
    }
  }

  lemma StartPlain(w: World)
    ensures PlainSys(w, S.Start)
  {
  }

  // ---------------------------------------------------------------- what users share

  /** The root of an import is checked under just the settings the user gave. */
  lemma RootAsAsked(w: World, h: History, sto: Store, flags: Flags, srcMap: Overlay, mp: ModPath, pp: PkgPath)
    requires Fits(w, h, sto, New(flags, srcMap, mp), pp)
    ensures var o, key := Import(w, sto, New(flags, srcMap, mp), pp), Key(pp, flags, srcMap == map[]);
            && key in o.sto.states && Settled(o.sto.states[key]) && o.sto.states[key].res == o.res
            && o.sto.states[key].hash == srcMap
  {
    hide Fits, Import, Sound, Advances, NewResolved;
    ImportSound(w, h, sto, New(flags, srcMap, mp), pp);
  }

  /** An importer on its way to a dependency of a root. */
  function Below(w: World, flags: Flags, srcMap: Overlay, mp: ModPath, root: PkgPath, mod: ModPath): Importer {
    var kp := New(flags, srcMap, mp);
    Toward(Branch(w, kp, StateKey(kp, root)), mod)
  }

  /**
   * Users with settings of their own share the dependencies: once a package has been imported for one, another, with
   * other settings and another root, is given the same result from the same state, and nothing is checked again. Only
   * the kind of type information makes a difference, and that only where it is passed on.
   */
  lemma UsersShare(w: World, h: History, sto: Store, kx: Importer, kx': Importer, d: PkgPath,
                   f: Flags, f': Flags, o: Overlay, o': Overlay, mp: ModPath, mp': ModPath,
                   root: PkgPath, root': PkgPath, mod: ModPath, mod': ModPath)
    requires kx == Below(w, f, o, mp, root, mod) && kx' == Below(w, f', o', mp', root', mod')
    requires w.importsTypesInfo ==> f.typesInfo == f'.typesInfo
    requires Fits(w, h, sto, kx, d) && ChainOk(w, kx') && DetectCycle(kx', d).None?
    ensures var first := Import(w, sto, kx, d);
            var second := Import(w, first.sto, kx', d);
            && second.res == first.res && second.sto.states.Keys == first.sto.states.Keys
            && forall k | k in first.sto.states :: second.sto.states[k].chkAt == first.sto.states[k].chkAt
  {
    hide Sound, Advances, NewResolved, Check, ChainOk, DetectCycle, Room, Finite, Acyclic, Covers, ChainTo, Known;
    ImportSound(w, h, sto, kx, d);
    SameKey(w, f, f', o, o', mp, mp', root, root', mod, mod', d);
    var key := StateKey(kx, d);
    StoredIsReused(w, Import(w, sto, kx, d).sto, kx', d, key);
  }

  lemma SameKey(w: World, f: Flags, f': Flags, o: Overlay, o': Overlay, mp: ModPath, mp': ModPath,
                root: PkgPath, root': PkgPath, mod: ModPath, mod': ModPath, d: PkgPath)
    requires w.importsTypesInfo ==> f.typesInfo == f'.typesInfo
    ensures StateKey(Below(w, f, o, mp, root, mod), d) == StateKey(Below(w, f', o', mp', root', mod'), d)
    ensures StateKey(Below(w, f, o, mp, root, mod), d).noHash
  {
  }

  lemma StoredIsReused(w: World, sto: Store, kx: Importer, d: PkgPath, key: Key)
    requires Finite(w, sto.sources) && ChainOk(w, kx) && d.dir in w.dirs && DetectCycle(kx, d).None?
    requires StateKey(kx, d) == key && key.noHash && key in sto.states && Settled(sto.states[key])
    ensures var r := Import(w, sto, kx, d);
            && r.res == sto.states[key].res && r.sto.states.Keys == sto.states.Keys
            && forall k | k in sto.states :: r.sto.states[k].chkAt == sto.states[k].chkAt
  {
    hide Check, ChainOk, DetectCycle, Room, Finite;
  }

  // ---------------------------------------------------------------- the tests of a dependency

  const TESTING := Flags(false, false, true, 0)
  const TESTER := New(TESTING, map[], [])

  /** A imports B, and only the tests of B import A. */
  function Tested(): World {
    World({"/a", "/b"}, false, false,
          (k: Key, s: Source) =>
            if k.pp == L.A then Imports(["b"]) else if k.flags.tests then Imports(["a"]) else Imports([]),
          (srcs: Sources, mp: ModPath, p: PkgPath, ip: string) => if ip == "a" then At(L.A, []) else At(L.B, []),
          (o: Overlay, d: string, s: Source) => s,
          (k: Key, s: Source, ps: seq<Pkg>) => Package(Built(k, s, ps)),
          (k: Key, s: Source, ip: string, e: Error) => AtImport(k, s, ip, e),
          (k: Key, s: Source) => 0)
  }

  lemma TestedIs()
    ensures var w := Tested();
            && (forall srcs :: Finite(w, srcs)) && w.dirs == {"/a", "/b"} && L.A.dir in w.dirs && L.B.dir in w.dirs
  {
  }

  /** From A to B, and from B to A and back. */
  lemma TestChains(p: PkgPath, q: PkgPath)
    requires (p == L.A && q == L.B) || (p == L.B && q == L.A)
    ensures var w := Tested();
            var kx := Branch(w, TESTER, Key(p, TESTING, true));
            && ChainOk(w, TESTER) && DetectCycle(TESTER, p).None? && ChainOk(w, kx) && DetectCycle(kx, q).None?
            && StateKey(TESTER, p) == Key(p, TESTING, true)
            && ChainOk(w, Branch(w, kx, Key(q, L.PLAIN, true)))
            && DetectCycle(Branch(w, kx, Key(q, L.PLAIN, true)), p).Some?
  {
    hide ChainOk, Room, DetectCycle, Targets;
    L.Distinct();
    TestedIs();
    var w := Tested();
    var kx := Branch(w, TESTER, Key(p, TESTING, true));
    L.NoChain(w, TESTER, p);
    BranchChain(w, TESTER, p);
    assert Chain(kx) == [Key(p, TESTING, true)];
    L.SamePackage(Key(p, TESTING, true), q);
    L.ChainOfOne(kx, Key(p, TESTING, true), q);
    BranchChain(w, kx, q);
    assert [Key(q, L.PLAIN, true)] + [Key(p, TESTING, true)] == [Key(q, L.PLAIN, true), Key(p, TESTING, true)];
    L.SamePackage(Key(q, L.PLAIN, true), p);
    L.ChainOfTwo(Branch(w, kx, Key(q, L.PLAIN, true)), Key(q, L.PLAIN, true), Key(p, TESTING, true));
  }

  /** A is checked with its tests, B without. */
  lemma TestsOfRootOnly()
    ensures var w := Tested();
            && Finite(w, map[]) && ChainOk(w, TESTER)
            && Recheck(w, map[], TESTER, L.A) == Package(Built(Key(L.A, TESTING, true), "", [Built(L.KB, "", [])]))
            && Import(w, L.EMPTY, TESTER, L.A).res == Recheck(w, map[], TESTER, L.A)
  {
    hide Room, ChainOk, DetectCycle, Recheck, Import, Check, ImportDeps, ImportPackage, Finite;
    L.Distinct();
    TestedIs();
    TestChains(L.A, L.B);
    var w, ka := Tested(), Key(L.A, TESTING, true);
    var kx := Branch(w, TESTER, ka);
    SameChain(w, kx, Toward(kx, []));
    L.RecheckNone(w, map[], Toward(kx, []), L.B);
    L.RecheckOne(w, map[], TESTER, L.A, "b", L.B, []);
    var sto1 := Enter(L.EMPTY, TESTER, ka).(clock := 1);
    L.NoDeps(w, sto1, Toward(kx, []), L.B);
    L.PackageAt(w, sto1, kx, L.A, "b", L.B, []);
    L.OneDep(w, L.EMPTY, TESTER, L.A, "b", Import(w, sto1, Toward(kx, []), L.B));
  }

  /** With its own tests B is in a cycle. */
  lemma TestsOfDependencyFail()
    ensures Finite(Tested(), map[]) && ChainOk(Tested(), TESTER) && Recheck(Tested(), map[], TESTER, L.B).Failed?
  {
    hide Room, ChainOk, DetectCycle, Finite, RecheckDeps, RecheckDep;
    L.Distinct();
    TestedIs();
    TestChains(L.B, L.A);
    var w, kb := Tested(), Key(L.B, TESTING, true);
    var kx := Branch(w, TESTER, kb);
    var ky := Branch(w, kx, L.KA);
    SameChain(w, kx, Toward(kx, []));
    SameChain(w, ky, Toward(ky, []));
    assert Recheck(w, map[], Toward(ky, []), L.B).Failed?;
    L.RecheckOne(w, map[], Toward(kx, []), L.A, "b", L.B, []);
    L.RecheckOne(w, map[], TESTER, L.B, "a", L.A, []);
  }
}
