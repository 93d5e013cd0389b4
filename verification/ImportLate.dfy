/** Why a walk must come in time and in turn: a run in which it comes too late, and one in which an older walk comes
    after a newer one. In both a stale result counts as valid. */
module ImportLate {
  import opened Wrappers
  import opened ImportModel
  import opened ImportCache
  import opened Invalidation
  import opened TableSteps
  import opened ImportSteps
  import opened ImportLimits

  /** From `s` the steps lead to `end`, each within the history. Walks may come too late; `inTurn` says that they bring
      nothing back. */
  ghost predicate Happens(inTurn: bool, w: World, h: History, s: Sys, steps: seq<Step>, end: Sys)
    decreases |steps|
  {
    if steps == [] then end == s else
      && Enabled(w, s, steps[0]) && Fair(inTurn, w, h, s, steps[0])
      && Happens(inTurn, w, h, Apply(w, s, steps[0]), steps[1..], end)
  }

  ghost predicate Fair(inTurn: bool, w: World, h: History, s: Sys, step: Step) {
    if step.Walk? then inTurn ==> InTurn(s, step.c) else Allowed(w, h, s, step)
  }

  lemma {:induction false} HappensJoin(inTurn: bool, w: World, h: History, s: Sys, a: seq<Step>, mid: Sys,
                                       b: seq<Step>, end: Sys)
    requires Happens(inTurn, w, h, s, a, mid) && Happens(inTurn, w, h, mid, b, end)
    ensures Happens(inTurn, w, h, s, a + b, end)
    decreases |a|
  {
    hide Enabled, Apply, Fair;
    if a == [] {
      assert a + b == b;
    } else {
      assert (a + b)[1..] == a[1..] + b;
      HappensJoin(inTurn, w, h, Apply(w, s, a[0]), a[1..], mid, b, end);
    }
  }

  lemma HappensOne(inTurn: bool, w: World, h: History, s: Sys, step: Step, end: Sys)
    requires Enabled(w, s, step) && Fair(inTurn, w, h, s, step) && Apply(w, s, step) == end
    ensures Happens(inTurn, w, h, s, [step], end)
  {
    hide Enabled, Apply, Fair;
    assert [step][1..] == [];
  }

  // ---------------------------------------------------------------- the world of the run

  /** A imports B, and a package holds what it imports. */
  function Linked(): World {
    World({"/a", "/b"}, false, false,
          (k: Key, s: Source) => if k.pp == A then Imports(["b"]) else Imports([]),
          (srcs: Sources, mp: ModPath, p: PkgPath, ip: string) => At(B, []),
          (o: Overlay, d: string, s: Source) => s,
          (k: Key, s: Source, ps: seq<Pkg>) => Package(Built(k, s, ps)),
          (k: Key, s: Source, ip: string, e: Error) => AtImport(k, s, ip, e),
          (k: Key, s: Source) => 0)
  }

  const OLD_B := Package(Built(KB, "", []))
  const OLD_A := Package(Built(KA, "", [Built(KB, "", [])]))
  const SETTLED_B := St(1, 0, [], OLD_B, map[], "", [], map[])
  const LATE := Clearing("/b", 2)

  function Idle(pc: Pc): Task {
    Task(ROOT, B, [], None, "", pc)
  }

  function Root(pc: Pc): Task {
    Task(ROOT, A, [], None, "", pc)
  }

  function Child(pc: Pc): Task {
    Task(Toward(Branch(Linked(), ROOT, KA), []), B, [], Some(1), "b", pc)
  }

  /** B has been imported. */
  function Imported0(): Sys {
    Sys(Store(1, map[], map[KB := SETTLED_B]), map[], {}, map[0 := Idle(Done(OLD_B))], map[])
  }

  /** B has changed, and the stamp of its clearing is drawn. */
  function Changed0(): Sys {
    Sys(Store(2, map["/b" := "x"], map[KB := SETTLED_B]), map["/b" := 1], {LATE}, map[0 := Idle(Done(OLD_B))], map[])
  }

  /** A is being checked, under a later stamp. */
  function Checked0(): Sys {
    Sys(Store(3, map["/b" := "x"], map[KB := SETTLED_B, KA := FRESH]), map["/b" := 1], {LATE},
        map[0 := Idle(Done(OLD_B)), 1 := Root(Checking(3, Some(""), map[], map[], 0))], map[KA := 1])
  }

  /** The check of A has used the state of B, which has not been walked. */
  function Used0(): Sys {
    Sys(Store(3, map["/b" := "x"], map[KB := SETTLED_B.(imby := [KA]), KA := FRESH]), map["/b" := 1], {LATE},
        map[0 := Idle(Done(OLD_B)), 1 := Root(Checking(3, Some(""), map["b" := OLD_B], map["b" := At(B, [])], 0))],
        map[KA := 1])
  }

  /** The walk is over, and everything is clean. */
  function Walked0(): Sys {
    Sys(Store(3, map["/b" := "x"], map[KB := SETTLED_B.(imby := [KA], invAt := 2), KA := FRESH.(invAt := 2)]),
        map[], {},
        map[0 := Idle(Done(OLD_B)), 1 := Root(Checking(3, Some(""), map["b" := OLD_B], map["b" := At(B, [])], 0))],
        map[KA := 1])
  }

  /** A has been published with what B was before the change. */
  function Stale0(): Sys {
    Sys(Store(3, map["/b" := "x"],
              map[KB := SETTLED_B.(imby := [KA], invAt := 2),
                  KA := St(3, 2, [], OLD_A, map[], "", [], map["b" := At(B, [])])]),
        map[], {},
        map[0 := Idle(Done(OLD_B)), 1 := Root(Done(OLD_A))], map[])
  }

  lemma LinkedFits(srcs: Sources)
    ensures Acyclic(Linked(), Accepting()) && Finite(Linked(), srcs) && Covers(Linked(), Accepting(), srcs)
    ensures SeeNothing(Linked())
  {
    assert AImportsB(Linked());
    AImportsBFits(Linked(), srcs);
  }

  lemma Next(inTurn: bool, w: World, h: History, s: Sys, steps: seq<Step>, mid: Sys, step: Step, end: Sys)
    requires Happens(inTurn, w, h, s, steps, mid)
    requires Enabled(w, mid, step) && Fair(inTurn, w, h, mid, step) && Apply(w, mid, step) == end
    ensures Happens(inTurn, w, h, s, steps + [step], end)
  {
    hide Enabled, Apply, Fair, Happens;
    HappensOne(inTurn, w, h, mid, step, end);
    HappensJoin(inTurn, w, h, s, steps, mid, [step], end);
  }

  lemma NoStep(inTurn: bool, w: World, h: History, s: Sys)
    ensures Happens(inTurn, w, h, s, [], s)
  {
  }

  // ---------------------------------------------------------------- the steps

  lemma EntersB() returns (steps: seq<Step>)
    ensures Happens(true, Linked(), Accepting(), Start, steps, Drawn0())
  {
    hide Happens;
    var w, h := Linked(), Accepting();
    var s1 := Sys(Store(0, map[], map[KB := FRESH]), map[], {}, map[0 := Idle(Entering)], map[]);
    var s2 := s1.(tasks := map[0 := Idle(Waiting)]);
    var s3 := s1.(tasks := map[0 := Idle(Held)], held := map[KB := 0]);
    NoStep(true, w, h, Start);
    Next(true, w, h, Start, [], Start, Begin(0, PLAIN, map[], [], B), s1);
    steps := [] + [Begin(0, PLAIN, map[], [], B)];
    Next(true, w, h, Start, steps, s1, Enlist(0), s2);
    steps := steps + [Enlist(0)];
    Next(true, w, h, Start, steps, s2, Acquire(0), s3);
    steps := steps + [Acquire(0)];
    Next(true, w, h, Start, steps, s3, Draw(0), Drawn0());
    steps := steps + [Draw(0)];
  }

  function Drawn0(): Sys {
    Sys(Store(1, map[], map[KB := FRESH]), map[], {}, map[0 := Idle(Checking(1, None, map[], map[], 0))], map[KB := 0])
  }

  lemma ImportsB() returns (steps: seq<Step>)
    ensures Happens(true, Linked(), Accepting(), Start, steps, Imported0())
  {
    hide Happens;
    var w, h := Linked(), Accepting();
    var s5 := Drawn0().(tasks := map[0 := Idle(Checking(1, Some(""), map[], map[], 0))]);
    steps := EntersB();
    Next(true, w, h, Start, steps, Drawn0(), ReadSource(0), s5);
    steps := steps + [ReadSource(0)];
    PublishesB(s5);
    Next(true, w, h, Start, steps, s5, Finish(0, OLD_B), Imported0());
    steps := steps + [Finish(0, OLD_B)];
  }

  lemma PublishesB(s5: Sys)
    requires s5 == Drawn0().(tasks := map[0 := Idle(Checking(1, Some(""), map[], map[], 0))])
    ensures Enabled(Linked(), s5, Finish(0, OLD_B)) && Apply(Linked(), s5, Finish(0, OLD_B)) == Imported0()
  {
    Distinct();
    assert NoChildren(s5, 0);
    assert Linked().parse(KB, "") == Imports([]);
    assert PkgsOf(map[], []) == [];
    assert Outcome(Linked(), KB, "", map[], OLD_B);
  }

  lemma ChangesB() returns (steps: seq<Step>)
    ensures Happens(true, Linked(), Accepting(), Imported0(), steps, Changed0())
  {
    hide Happens, Covers, Finite;
    var w, h := Linked(), Accepting();
    LinkedFits(map["/b" := "x"]);
    var s7 := Changed0().(sto := Store(1, map["/b" := "x"], map[KB := SETTLED_B]), clears := {});
    NoStep(true, w, h, Imported0());
    Next(true, w, h, Imported0(), [], Imported0(), Edit("/b", "x"), s7);
    steps := [] + [Edit("/b", "x")];
    Next(true, w, h, Imported0(), steps, s7, Announce("/b"), Changed0());
    steps := steps + [Announce("/b")];
  }

  /** A has entered: its state is there, and its task is at `pc`. */
  function Entered0(pc: Pc, clock: int, held: map<Key, nat>): Sys {
    Sys(Store(clock, map["/b" := "x"], map[KB := SETTLED_B, KA := FRESH]), map["/b" := 1], {LATE},
        map[0 := Idle(Done(OLD_B)), 1 := Root(pc)], held)
  }

  /** The step is possible and leads from `s` to `end`. */
  ghost predicate Does(s: Sys, step: Step, end: Sys) {
    Enabled(Linked(), s, step) && Fair(true, Linked(), Accepting(), s, step) && Apply(Linked(), s, step) == end
  }

  lemma StartsA()
    ensures Does(Changed0(), Begin(1, PLAIN, map[], [], A), Entered0(Entering, 2, map[]))
    ensures Does(Entered0(Entering, 2, map[]), Enlist(1), Entered0(Waiting, 2, map[]))
  {
    Distinct();
  }

  lemma LocksA()
    ensures Does(Entered0(Waiting, 2, map[]), Acquire(1), Entered0(Held, 2, map[KA := 1]))
    ensures Does(Entered0(Held, 2, map[KA := 1]), Draw(1),
        Entered0(Checking(3, None, map[], map[], 0), 3, map[KA := 1]))
  {
    Distinct();
  }

  lemma ReadsA()
    ensures Does(Entered0(Checking(3, None, map[], map[], 0), 3, map[KA := 1]), ReadSource(1), Checked0())
  {
    Distinct();
  }

  lemma EntersA() returns (steps: seq<Step>)
    ensures Happens(true, Linked(), Accepting(), Changed0(), steps, Checked0())
  {
    hide Happens, Enabled, Fair, Apply, Changed0, Entered0, Checked0;
    var w, h := Linked(), Accepting();
    StartsA();
    LocksA();
    ReadsA();
    NoStep(true, w, h, Changed0());
    steps := [];
    Next(true, w, h, Changed0(), steps, Changed0(), Begin(1, PLAIN, map[], [], A), Entered0(Entering, 2, map[]));
    steps := steps + [Begin(1, PLAIN, map[], [], A)];
    Next(true, w, h, Changed0(), steps, Entered0(Entering, 2, map[]), Enlist(1), Entered0(Waiting, 2, map[]));
    steps := steps + [Enlist(1)];
    Next(true, w, h, Changed0(), steps, Entered0(Waiting, 2, map[]), Acquire(1), Entered0(Held, 2, map[KA := 1]));
    steps := steps + [Acquire(1)];
    Next(true, w, h, Changed0(), steps, Entered0(Held, 2, map[KA := 1]), Draw(1),
         Entered0(Checking(3, None, map[], map[], 0), 3, map[KA := 1]));
    steps := steps + [Draw(1)];
    Next(true, w, h, Changed0(), steps, Entered0(Checking(3, None, map[], map[], 0), 3, map[KA := 1]), ReadSource(1),
        Checked0());
    steps := steps + [ReadSource(1)];
  }

  /** The check of A imports B: its task is at `pc`, and `imby` knows who imported B. */
  function Importing0(pc: Pc, imby: seq<Key>, held: map<Key, nat>): Sys {
    Sys(Store(3, map["/b" := "x"], map[KB := SETTLED_B.(imby := imby), KA := FRESH]), map["/b" := 1], {LATE},
        map[0 := Idle(Done(OLD_B)), 1 := Root(Checking(3, Some(""), map[], map[], 0)), 2 := Child(pc)], held)
  }

  lemma MayUseB()
    ensures MayImport(Linked(), Checked0(), 1, "b")
  {
    Distinct();
    var s := Checked0();
    assert NoChildren(s, 1) && !Importing(s, 1, "b");
    assert ItsTurn(map[], ["b"], "b") by { assert AllGood(map[], ["b"], 0) && ["b"][0] == "b"; }
  }

  lemma SpawnsB()
    ensures Does(Checked0(), Spawn(2, 1, "b"), Importing0(Entering, [], map[KA := 1]))
  {
    hide DetectCycle, ChainOk, MayImport;
    Distinct();
    var w := Linked();
    Chains(w, ROOT, A, B);
    SameChain(w, Branch(w, ROOT, KA), Toward(Branch(w, ROOT, KA), []));
    MayUseB();
  }

  lemma EnlistsB()
    ensures Does(Importing0(Entering, [], map[KA := 1]), Enlist(2), Importing0(Waiting, [KA], map[KA := 1]))
  {
    Distinct();
    assert [] + [KA] == [KA];
    var s := Importing0(Entering, [], map[KA := 1]);
    assert s.tasks[2].Key() == KB && s.tasks[2].kp.ks == Some(KA);
    assert Register(s.sto, KB, KA).states == map[KB := SETTLED_B.(imby := [KA]), KA := FRESH];
  }

  lemma ReusesB()
    ensures Does(Importing0(Waiting, [KA], map[KA := 1]), Acquire(2), Importing0(Held, [KA], map[KA := 1, KB := 2]))
    ensures Does(Importing0(Held, [KA], map[KA := 1, KB := 2]), Reuse(2), Importing0(Done(OLD_B), [KA], map[KA := 1]))
  {
    Distinct();
    var s := Importing0(Held, [KA], map[KA := 1, KB := 2]);
    assert s.tasks[2].Key() == KB;
    assert s.held - {KB} == map[KA := 1];
  }

  lemma TakesB()
    ensures Does(Importing0(Done(OLD_B), [KA], map[KA := 1]), Take(2), Used0())
  {
    Distinct();
  }

  lemma UsesB() returns (steps: seq<Step>)
    ensures Happens(true, Linked(), Accepting(), Checked0(), steps, Used0())
  {
    hide Happens, Enabled, Fair, Apply, Checked0, Importing0, Used0;
    var w, h := Linked(), Accepting();
    SpawnsB();
    EnlistsB();
    ReusesB();
    TakesB();
    NoStep(true, w, h, Checked0());
    steps := [];
    Next(true, w, h, Checked0(), steps, Checked0(), Spawn(2, 1, "b"), Importing0(Entering, [], map[KA := 1]));
    steps := steps + [Spawn(2, 1, "b")];
    Next(true, w, h, Checked0(), steps, Importing0(Entering, [], map[KA := 1]), Enlist(2),
        Importing0(Waiting, [KA], map[KA := 1]));
    steps := steps + [Enlist(2)];
    Next(true, w, h, Checked0(), steps, Importing0(Waiting, [KA], map[KA := 1]), Acquire(2),
         Importing0(Held, [KA], map[KA := 1, KB := 2]));
    steps := steps + [Acquire(2)];
    Next(true, w, h, Checked0(), steps, Importing0(Held, [KA], map[KA := 1, KB := 2]), Reuse(2),
         Importing0(Done(OLD_B), [KA], map[KA := 1]));
    steps := steps + [Reuse(2)];
    Next(true, w, h, Checked0(), steps, Importing0(Done(OLD_B), [KA], map[KA := 1]), Take(2), Used0());
    steps := steps + [Take(2)];
  }

  /** The walk reaches both states. */
  lemma WalkReaches()
    ensures var g, roots := Imby(Used0().sto.states), StatesOf(Used0().sto, "/b");
            roots == {KB} && Hit(g, roots, KB) && Hit(g, roots, KA)
  {
    Distinct();
    var g, roots := Imby(Used0().sto.states), StatesOf(Used0().sto, "/b");
    assert roots == {KB};
    RootHit(g, roots, KB);
    ImporterHit(g, roots, KB, KA);
  }

  lemma WalksInTurn()
    ensures InTurn(Used0(), LATE)
  {
    hide Hit;
    Distinct();
    WalkReaches();
  }

  lemma WalksLate()
    ensures Does(Used0(), Walk(LATE), Walked0())
  {
    hide Hit, InTurn;
    Distinct();
    WalkReaches();
    WalksInTurn();
    StampsBoth();
    assert Cleaned(Used0().dirty, "/b", 2) == map[];
    assert Used0().clears - {LATE} == {};
  }

  lemma StampsBoth()
    ensures Stamped(Used0().sto, StatesOf(Used0().sto, "/b"), 2) == Walked0().sto
  {
    hide Hit;
    Distinct();
    WalkReaches();
  }

  /** The check of A is newer than the walk, and the state of B that it used is not. */
  lemma WalkIsLate()
    ensures Overtakes(Linked(), Used0(), LATE)
  {
    hide Hit;
    Distinct();
    WalkReaches();
    var w, s := Linked(), Used0();
    assert Lost(w, s.sto, StatesOf(s.sto, "/b"), 2, KA, s.tasks[1].pc.found, "b");
    assert UsesLost(w, s, LATE, 1);
  }

  lemma PublishesA()
    ensures Does(Walked0(), Finish(1, OLD_A), Stale0())
  {
    Distinct();
    var s := Walked0();
    assert NoChildren(s, 1);
    assert Linked().parse(KA, "") == Imports(["b"]);
    var used := map["b" := OLD_B];
    assert AllGood(used, ["b"], 1);
    assert PkgsOf(used, ["b"]) == [Built(KB, "", [])];
    assert Outcome(Linked(), KA, "", used, OLD_A);
  }

  lemma WalksAndPublishes() returns (steps: seq<Step>)
    ensures Happens(true, Linked(), Accepting(), Used0(), steps, Stale0())
  {
    hide Happens, Enabled, Fair, Apply, Used0, Walked0, Stale0;
    var w, h := Linked(), Accepting();
    WalksLate();
    PublishesA();
    NoStep(true, w, h, Used0());
    Next(true, w, h, Used0(), [], Used0(), Walk(LATE), Walked0());
    steps := [] + [Walk(LATE)];
    Next(true, w, h, Used0(), steps, Walked0(), Finish(1, OLD_A), Stale0());
    steps := steps + [Finish(1, OLD_A)];
  }

  /**
   * A clearing draws its stamp, a check draws the next, uses the state that has not been walked yet and is walked with
   * it, but publishes under the later stamp: everything is clean and all is over, and what counts as valid is stale.
   */
  lemma LateWalkIsStale() returns (steps: seq<Step>)
    ensures Happens(true, Linked(), Accepting(), Start, steps, Stale0())
    ensures var w, h, s := Linked(), Accepting(), Stale0();
            && Acyclic(w, h) && SeeNothing(w) && Finite(w, s.sto.sources) && Covers(w, h, s.sto.sources)
            && s.dirty == map[] && s.clears == {} && ChainOk(w, ROOT)
            && InTurn(Used0(), LATE) && Overtakes(w, Used0(), LATE)
            && Valid(s.sto.states[KA], KA, map[])
            && Recheck(w, s.sto.sources, ROOT, A).Package? && s.sto.states[KA].res != Recheck(w, s.sto.sources, ROOT, A)
  {
    hide Happens, Acyclic, Covers, Finite, Recheck, ChainOk, InTurn, Overtakes, Used0;
    var w, h := Linked(), Accepting();
    LinkedFits(map["/b" := "x"]);
    NewA();
    var a := ImportsB();
    var b := ChangesB();
    var c := EntersA();
    var d := UsesB();
    var e := WalksAndPublishes();
    HappensJoin(true, w, h, Start, a, Imported0(), b, Changed0());
    HappensJoin(true, w, h, Start, a + b, Changed0(), c, Checked0());
    HappensJoin(true, w, h, Start, a + b + c, Checked0(), d, Used0());
    HappensJoin(true, w, h, Start, a + b + c + d, Used0(), e, Stale0());
    steps := a + b + c + d + e;
    WalksInTurn();
    WalkIsLate();
  }

  lemma NewA()
    ensures Finite(Linked(), map["/b" := "x"]) && ChainOk(Linked(), ROOT)
    ensures Recheck(Linked(), map["/b" := "x"], ROOT, A) == Package(Built(KA, "", [Built(KB, "x", [])]))
    ensures Package(Built(KA, "", [Built(KB, "x", [])])) != OLD_A
  {
    hide Room, ChainOk, DetectCycle, Recheck;
    Distinct();
    var w, srcs: Sources := Linked(), map["/b" := "x"];
    Chains(w, ROOT, A, B);
    SameChain(w, Branch(w, ROOT, KA), Toward(Branch(w, ROOT, KA), []));
    RecheckNone(w, srcs, Toward(Branch(w, ROOT, KA), []), B);
    RecheckOne(w, srcs, ROOT, A, "b", B, []);
    assert [Built(KB, "x", [])][0] != [Built(KB, "", [])][0];
  }

  // ---------------------------------------------------------------- an older walk after a newer one

  const FIRST := Clearing("/b", 1)
  const SECOND := Clearing("/b", 3)
  const READ := Checking(2, Some(""), map[], map[], 0)

  /** B alone: its state is `st`, and its task is at `pc`. */
  function Alone(pc: Pc, clock: int, srcs: Sources, st: St, dirty: Dirty, clears: set<Clearing>,
                 held: map<Key, nat>): Sys
  {
    Sys(Store(clock, srcs, map[KB := st]), dirty, clears, map[0 := Idle(pc)], held)
  }

  const CHECKED := St(2, 3, [], OLD_B, map[], "", [], map[])
  const EDITED_B: Sources := map["/b" := "x"]

  function Read0(): Sys {
    Alone(READ, 2, map[], FRESH, map[], {FIRST}, map[KB := 0])
  }

  /** B has changed since it was read, and both clearings are announced. */
  function Twice0(): Sys {
    Alone(READ, 3, EDITED_B, FRESH, map["/b" := 2], {FIRST, SECOND}, map[KB := 0])
  }

  /** The newer walk is over, and the check that it overtook has published. */
  function Overtaken0(): Sys {
    Alone(Done(OLD_B), 3, EDITED_B, CHECKED, map[], {FIRST}, map[])
  }

  /** Then the older walk takes the newer stamp away. */
  function Back0(): Sys {
    Alone(Done(OLD_B), 3, EDITED_B, CHECKED.(invAt := 1), map[], {}, map[])
  }

  lemma BeginsB() returns (steps: seq<Step>)
    ensures Happens(false, Linked(), Accepting(), Start, steps,
                    Alone(Held, 1, map[], FRESH, map[], {FIRST}, map[KB := 0]))
  {
    hide Happens;
    var w, h := Linked(), Accepting();
    var s1 := Alone(Entering, 0, map[], FRESH, map[], {}, map[]);
    var s2 := Alone(Waiting, 0, map[], FRESH, map[], {}, map[]);
    var s3 := Alone(Held, 0, map[], FRESH, map[], {}, map[KB := 0]);
    NoStep(false, w, h, Start);
    Next(false, w, h, Start, [], Start, Begin(0, PLAIN, map[], [], B), s1);
    steps := [] + [Begin(0, PLAIN, map[], [], B)];
    Next(false, w, h, Start, steps, s1, Enlist(0), s2);
    steps := steps + [Enlist(0)];
    Next(false, w, h, Start, steps, s2, Acquire(0), s3);
    steps := steps + [Acquire(0)];
    Next(false, w, h, Start, steps, s3, Announce("/b"), Alone(Held, 1, map[], FRESH, map[], {FIRST}, map[KB := 0]));
    steps := steps + [Announce("/b")];
  }

  lemma ReadsB() returns (steps: seq<Step>)
    ensures Happens(false, Linked(), Accepting(), Start, steps, Read0())
  {
    hide Happens;
    var w, h := Linked(), Accepting();
    var s4 := Alone(Held, 1, map[], FRESH, map[], {FIRST}, map[KB := 0]);
    var s5 := s4.(sto := s4.sto.(clock := 2), tasks := map[0 := Idle(Checking(2, None, map[], map[], 0))]);
    steps := BeginsB();
    Next(false, w, h, Start, steps, s4, Draw(0), s5);
    steps := steps + [Draw(0)];
    Next(false, w, h, Start, steps, s5, ReadSource(0), Read0());
    steps := steps + [ReadSource(0)];
  }

  lemma EditsB() returns (steps: seq<Step>)
    ensures Happens(false, Linked(), Accepting(), Read0(), steps, Twice0())
  {
    hide Happens, Covers, Finite;
    var w, h := Linked(), Accepting();
    LinkedFits(EDITED_B);
    var s7 := Alone(READ, 2, EDITED_B, FRESH, map["/b" := 2], {FIRST}, map[KB := 0]);
    NoStep(false, w, h, Read0());
    Next(false, w, h, Read0(), [], Read0(), Edit("/b", "x"), s7);
    steps := [] + [Edit("/b", "x")];
    Next(false, w, h, Read0(), steps, s7, Announce("/b"), Twice0());
    steps := steps + [Announce("/b")];
  }

  /** With one state in the table, a walk stamps it. */
  lemma StampsOne(sto: Store, st: St, stamp: int)
    requires sto.states == map[KB := st] && st.imby == []
    ensures StatesOf(sto, "/b") == {KB} && Hit(Imby(sto.states), {KB}, KB)
    ensures Stamped(sto, {KB}, stamp) == sto.(states := map[KB := st.(invAt := stamp)])
  {
    hide Hit;
    RootHit(Imby(sto.states), {KB}, KB);
  }

  lemma NewerWalk()
    ensures var s9 := Alone(READ, 3, EDITED_B, FRESH.(invAt := 3), map[], {FIRST}, map[KB := 0]);
            Enabled(Linked(), Twice0(), Walk(SECOND)) && Apply(Linked(), Twice0(), Walk(SECOND)) == s9
  {
    hide Stamped;
    StampsOne(Twice0().sto, FRESH, 3);
    assert Cleaned(Twice0().dirty, "/b", 3) == map[];
    assert FIRST != SECOND && Twice0().clears - {SECOND} == {FIRST};
  }

  lemma PublishesLate()
    ensures var s9 := Alone(READ, 3, EDITED_B, FRESH.(invAt := 3), map[], {FIRST}, map[KB := 0]);
            Enabled(Linked(), s9, Finish(0, OLD_B)) && Apply(Linked(), s9, Finish(0, OLD_B)) == Overtaken0()
  {
    Distinct();
    var s9 := Alone(READ, 3, EDITED_B, FRESH.(invAt := 3), map[], {FIRST}, map[KB := 0]);
    assert NoChildren(s9, 0);
    assert Linked().parse(KB, "") == Imports([]);
    assert PkgsOf(map[], []) == [];
    assert Outcome(Linked(), KB, "", map[], OLD_B);
  }

  lemma OlderWalk()
    ensures Enabled(Linked(), Overtaken0(), Walk(FIRST)) && Apply(Linked(), Overtaken0(), Walk(FIRST)) == Back0()
    ensures !InTurn(Overtaken0(), FIRST)
  {
    hide Stamped, Hit;
    StampsOne(Overtaken0().sto, CHECKED, 1);
    assert Cleaned(Overtaken0().dirty, "/b", 1) == map[];
    assert Overtaken0().clears - {FIRST} == {};
  }

  /**
   * Two clearings of one directory draw their stamps, and the newer one walks first. A check in between has been
   * overtaken by it, until the older walk puts its own stamp in place of the newer: everything is clean and all is
   * over, and what counts as valid is what was there before the change.
   */
  lemma OldWalkBringsBack() returns (steps: seq<Step>)
    ensures Happens(false, Linked(), Accepting(), Start, steps, Back0())
    ensures var w, h, s := Linked(), Accepting(), Back0();
            && Acyclic(w, h) && SeeNothing(w) && Finite(w, s.sto.sources) && Covers(w, h, s.sto.sources)
            && s.dirty == map[] && s.clears == {} && ChainOk(w, ROOT) && !InTurn(Overtaken0(), FIRST)
            && Valid(s.sto.states[KB], KB, map[])
            && Recheck(w, s.sto.sources, ROOT, B).Package? && s.sto.states[KB].res != Recheck(w, s.sto.sources, ROOT, B)
  {
    hide Happens, Acyclic, Covers, Finite, Recheck, ChainOk, InTurn, Enabled, Apply, Twice0, Read0;
    var w, h := Linked(), Accepting();
    LinkedFits(EDITED_B);
    var a := ReadsB();
    var b := EditsB();
    HappensJoin(false, w, h, Start, a, Read0(), b, Twice0());
    steps := a + b;
    NewerWalk();
    PublishesLate();
    OlderWalk();
    var s9 := Alone(READ, 3, EDITED_B, FRESH.(invAt := 3), map[], {FIRST}, map[KB := 0]);
    Next(false, w, h, Start, steps, Twice0(), Walk(SECOND), s9);
    steps := steps + [Walk(SECOND)];
    Next(false, w, h, Start, steps, s9, Finish(0, OLD_B), Overtaken0());
    steps := steps + [Finish(0, OLD_B)];
    Next(false, w, h, Start, steps, Overtaken0(), Walk(FIRST), Back0());
    steps := steps + [Walk(FIRST)];
    NewB();
  }

  lemma NewB()
    ensures Finite(Linked(), EDITED_B) && ChainOk(Linked(), ROOT)
    ensures Recheck(Linked(), EDITED_B, ROOT, B) == Package(Built(KB, "x", [])) != OLD_B
  {
    hide Room, ChainOk, DetectCycle, Recheck;
    Distinct();
    Chains(Linked(), ROOT, B, A);
    RecheckNone(Linked(), EDITED_B, ROOT, B);
  }
}
