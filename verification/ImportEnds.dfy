/** Left alone, all imports under way finish: every step of an import uses up some of the work that is left, which
    the import graph bounds. */
module ImportEnds {
  import opened Wrappers
  import opened ImportModel
  import opened ImportCache
  import opened TableSteps
  import opened ImportSteps
  import opened ImportStepsProof
  import opened ImportTheorems
  import ImportExact

  // ---------------------------------------------------------------- sums

  ghost function Sum<T(!new)>(xs: set<T>, f: T -> nat): nat {
    if xs == {} then 0 else
      var x :| x in xs;
      f(x) + Sum(xs - {x}, f)
  }

  /** The order of the terms does not matter. */
  lemma {:induction false} SumTake<T(!new)>(xs: set<T>, f: T -> nat, x: T)
    requires x in xs
    ensures Sum(xs, f) == f(x) + Sum(xs - {x}, f)
  {
    var y :| y in xs && Sum(xs, f) == f(y) + Sum(xs - {y}, f);
    if y != x {
      SumTake(xs - {y}, f, x);
      SumTake(xs - {x}, f, y);
      assert xs - {y} - {x} == xs - {x} - {y};
    }
  }

  lemma {:induction false} SumSame<T(!new)>(xs: set<T>, f: T -> nat, g: T -> nat)
    requires forall x | x in xs :: f(x) == g(x)
    ensures Sum(xs, f) == Sum(xs, g)
  {
    if xs != {} {
      var x :| x in xs;
      SumTake(xs, f, x);
      SumTake(xs, g, x);
      SumSame(xs - {x}, f, g);
    }
  }

  // ---------------------------------------------------------------- the work that a check can take

  function ImportsOf(w: World, key: Key, src: Source): set<string> {
    match w.parse(key, src)
    case ParseError(_) => {}
    case Imports(paths) => set ip | ip in paths
  }

  /** The steps of all imports that a check of `src` can make, once it has read it. */
  ghost function Cost(w: World, h: History, srcs: Sources, key: Key, src: Source, mp: ModPath): nat
    decreases h.rank(key.pp), 2
  {
    Times(1 + w.again(key, src), Sum(ImportsOf(w, key, src), Costs(w, h, srcs, key, src, mp)))
  }

  function Times(n: nat, m: nat): nat {
    if n == 0 then 0 else m + Times(n - 1, m)
  }

  /** The steps of one import of each path, from its start until its result is taken. */
  ghost function Costs(w: World, h: History, srcs: Sources, key: Key, src: Source, mp: ModPath): string -> nat
    decreases h.rank(key.pp), 1
  {
    ip =>
      if !Acyclic(w, h) || !Covers(w, h, srcs) || !h.texts(key, src, mp) || ip !in ImportsOf(w, key, src) then 0
      else DepCost(w, h, srcs, key, src, mp, ip)
  }

  ghost function DepCost(w: World, h: History, srcs: Sources, key: Key, src: Source, mp: ModPath, ip: string): (n: nat)
    requires Acyclic(w, h) && Covers(w, h, srcs) && h.texts(key, src, mp) && ip in ImportsOf(w, key, src)
    ensures n > 0
    decreases h.rank(key.pp), 0
  {
    match w.find(srcs, mp, key.pp, ip)
    case At(d, m) =>
      CoversFind(w, h, srcs, key, src, mp, ip);
      ImportExact.Lower(w, h, key, src, mp, ip, d, m);
      7 + Cost(w, h, srcs, DepKey(w, key, d), Content(srcs, d.dir), Under(mp, m))
    case _ => 1
  }

  /** The paths that a check has neither imported nor begun to import. */
  ghost function Open(w: World, s: Sys, id: nat): set<string>
    requires id in s.tasks && s.tasks[id].pc.Checking? && s.tasks[id].pc.src.Some?
  {
    var t := s.tasks[id];
    set ip | ip in ImportsOf(w, t.Key(), t.pc.src.value) && ip !in t.pc.used && !Importing(s, id, ip)
  }

  ghost function Ahead(w: World, h: History, s: Sys, id: nat): nat
    requires id in s.tasks && s.tasks[id].pc.Checking? && s.tasks[id].pc.src.Some?
  {
    var t := s.tasks[id];
    var costs := Costs(w, h, s.sto.sources, t.Key(), t.pc.src.value, t.kp.mp);
    Sum(Open(w, s, id), costs) + Times(t.pc.again, Sum(ImportsOf(w, t.Key(), t.pc.src.value), costs))
  }

  /** The steps that a task can still take, apart from those of the tasks it has begun. */
  ghost function Weight(w: World, h: History, s: Sys, id: nat): nat
    requires id in s.tasks
  {
    var t := s.tasks[id];
    var srcs := s.sto.sources;
    var ahead := Cost(w, h, srcs, t.Key(), Current(w, srcs, t.Key(), t.kp.srcMap), t.kp.mp);
    match t.pc
    case Entering => 6 + ahead
    case Waiting => 5 + ahead
    case Held => 4 + ahead
    case Checking(_, src, _, _, _) => if src.None? then 3 + ahead else 2 + Ahead(w, h, s, id)
    case Done(_) => 1
  }

  ghost function Weights(w: World, h: History, s: Sys): nat -> nat {
    id => if id in s.tasks then Weight(w, h, s, id) else 0
  }

  /** The work that is left: a bound on the steps of the imports under way. */
  ghost function Work(w: World, h: History, s: Sys): nat {
    Sum(s.tasks.Keys, Weights(w, h, s))
  }

  // ---------------------------------------------------------------- frames

  ghost predicate SameChildren(s: Sys, s': Sys, id: nat) {
    forall ip :: Importing(s', id, ip) <==> Importing(s, id, ip)
  }

  /** A task weighs the same while it stays, and so do its children. */
  lemma WeightStays(w: World, h: History, s: Sys, s': Sys, id: nat)
    requires id in s.tasks && id in s'.tasks && s'.tasks[id] == s.tasks[id]
    requires s'.sto.sources == s.sto.sources && SameChildren(s, s', id)
    ensures Weight(w, h, s', id) == Weight(w, h, s, id)
  {
    hide Cost, Costs, Sum, Importing;
    if s.tasks[id].pc.Checking? && s.tasks[id].pc.src.Some? {
      assert Open(w, s', id) == Open(w, s, id);
    }
  }

  /** Nothing changes but the tasks `me` and `gone`, and whom they work for. */
  ghost predicate RestStays(s: Sys, s': Sys, rest: set<nat>) {
    && s'.sto.sources == s.sto.sources
    && rest <= s.tasks.Keys && rest <= s'.tasks.Keys
    && forall x | x in rest :: s'.tasks[x] == s.tasks[x] && SameChildren(s, s', x)
  }

  lemma RestWeighs(w: World, h: History, s: Sys, s': Sys, rest: set<nat>)
    requires RestStays(s, s', rest)
    ensures Sum(rest, Weights(w, h, s')) == Sum(rest, Weights(w, h, s))
  {
    hide Weight, SameChildren;
    forall x | x in rest ensures Weights(w, h, s')(x) == Weights(w, h, s)(x) {
      WeightStays(w, h, s, s', x);
    }
    SumSame(rest, Weights(w, h, s'), Weights(w, h, s));
  }

  /** One task moves and gets lighter. */
  lemma OneLighter(w: World, h: History, s: Sys, s': Sys, id: nat, pc: Pc)
    requires id in s.tasks && s'.sto.sources == s.sto.sources
    requires s'.tasks == s.tasks[id := s.tasks[id].(pc := pc)]
    requires Weight(w, h, s', id) < Weight(w, h, s, id)
    ensures Work(w, h, s') < Work(w, h, s)
  {
    hide Weight, Sum;
    var rest := s.tasks.Keys - {id};
    forall x, ip ensures Importing(s', x, ip) <==> Importing(s, x, ip) {
      SameImports(s, s', id, pc, x, ip);
    }
    RestWeighs(w, h, s, s', rest);
    SumTake(s.tasks.Keys, Weights(w, h, s), id);
    SumTake(s'.tasks.Keys, Weights(w, h, s'), id);
    assert s'.tasks.Keys == s.tasks.Keys;
  }

  lemma SameImports(s: Sys, s': Sys, id: nat, pc: Pc, x: nat, ip: string)
    requires id in s.tasks && s'.tasks == s.tasks[id := s.tasks[id].(pc := pc)]
    ensures Importing(s', x, ip) <==> Importing(s, x, ip)
  {
    if Importing(s, x, ip) {
      var c :| c in s.tasks && s.tasks[c].parent == Some(x) && s.tasks[c].ip == ip;
      assert c in s'.tasks && s'.tasks[c].parent == Some(x) && s'.tasks[c].ip == ip;
    }
    if Importing(s', x, ip) {
      var c :| c in s'.tasks && s'.tasks[c].parent == Some(x) && s'.tasks[c].ip == ip;
      assert c in s.tasks && s.tasks[c].parent == Some(x) && s.tasks[c].ip == ip;
    }
  }

  // ---------------------------------------------------------------- every step uses some of it up

  /** What an import of `ip` by a check takes: one step, or those of the imported package and two more. */
  lemma CostOf(w: World, h: History, s: Sys, t: nat, ip: string)
    requires Inv(w, h, s) && Acyclic(w, h) && MayImport(w, s, t, ip)
    ensures var key, src, l := s.tasks[t].Key(), s.tasks[t].pc.src.value, LookedUp(w, s, t, ip);
            && ip in ImportsOf(w, key, src)
            && Costs(w, h, s.sto.sources, key, src, s.tasks[t].kp.mp)(ip) > 0
            && (l.At? ==> Costs(w, h, s.sto.sources, key, src, s.tasks[t].kp.mp)(ip)
                          == 7 + Cost(w, h, s.sto.sources, DepKey(w, key, l.pp), Content(s.sto.sources, l.pp.dir),
                                   Under(s.tasks[t].kp.mp, l.mod)))
  {
    hide Acyclic, Covers, Finite, Cost, AllTasks, LocksOk, Sound, Rooted, Serves;
    PartsOf(w, h, s);
    TaskOf(w, h, s, t);
  }

  /** Either the path is imported for the first time, or the type checker asks for it again. */
  lemma FirstOrAgain(w: World, s: Sys, t: nat, ip: string)
    requires MayImport(w, s, t, ip)
    ensures ip !in s.tasks[t].pc.used ==> ip in Open(w, s, t)
    ensures ip in s.tasks[t].pc.used ==> s.tasks[t].pc.again > 0
  {
    hide ItsTurn;
    var used, paths := s.tasks[t].pc.used, w.parse(s.tasks[t].Key(), s.tasks[t].pc.src.value).paths;
    if AllGood(used, paths, |paths|) {
      var i :| 0 <= i < |paths| && paths[i] == ip;
      assert Good(used, paths[i]);
    }
  }

  /** Beginning an import, or making one that leads to no directory, takes its cost off what is ahead. */
  lemma ImportBegun(w: World, h: History, s: Sys, s': Sys, t: nat, ip: string)
    requires Inv(w, h, s) && Acyclic(w, h) && MayImport(w, s, t, ip)
    requires t in s'.tasks && s'.tasks[t].pc.Checking? && s'.sto.sources == s.sto.sources
    requires s'.tasks[t].kp == s.tasks[t].kp && s'.tasks[t].pp == s.tasks[t].pp
        && s'.tasks[t].pc.src == s.tasks[t].pc.src
    requires s'.tasks[t].pc.again == Asked(s, t, ip).tasks[t].pc.again
    requires Open(w, s', t) == Open(w, s, t) - {ip}
    ensures Ahead(w, h, s', t) + Costs(w, h, s.sto.sources, s.tasks[t].Key(), s.tasks[t].pc.src.value,
        s.tasks[t].kp.mp)(ip)
         <= Ahead(w, h, s, t)
  {
    hide Inv, Acyclic, MayImport, Open, Cost, Costs, Sum;
    MayImportIsChecking(w, s, t, ip);
    var key, src := s.tasks[t].Key(), s.tasks[t].pc.src.value;
    var costs := Costs(w, h, s.sto.sources, key, src, s.tasks[t].kp.mp);
    CostOf(w, h, s, t, ip);
    FirstOrAgain(w, s, t, ip);
    if ip in s.tasks[t].pc.used {
      assert ip !in Open(w, s, t) by { OpenIsUnused(w, s, t); }
      assert Open(w, s, t) - {ip} == Open(w, s, t);
      SumTake(ImportsOf(w, key, src), costs, ip);
    } else {
      SumTake(Open(w, s, t), costs, ip);
    }
  }

  lemma OpenIsUnused(w: World, s: Sys, t: nat)
    requires t in s.tasks && s.tasks[t].pc.Checking? && s.tasks[t].pc.src.Some?
    ensures forall ip | ip in Open(w, s, t) :: ip !in s.tasks[t].pc.used
  {
  }

  lemma ResolveLighter(w: World, h: History, s: Sys, t: nat, ip: string)
    requires Inv(w, h, s) && Acyclic(w, h) && Enabled(w, s, Resolve(t, ip))
    ensures Work(w, h, Apply(w, s, Resolve(t, ip))) < Work(w, h, s)
  {
    hide Inv, Acyclic, MayImport, Cost, Costs, Sum, Ahead, Importing, Work;
    MayImportIsChecking(w, s, t, ip);
    var s' := Apply(w, s, Resolve(t, ip));
    forall y ensures Importing(s', t, y) <==> Importing(s, t, y) {
      SameImports(s, s', t, s'.tasks[t].pc, t, y);
    }
    assert Open(w, s', t) == Open(w, s, t) - {ip};
    CostOf(w, h, s, t, ip);
    ImportBegun(w, h, s, s', t, ip);
    OneLighter(w, h, s, s', t, s'.tasks[t].pc);
  }

  lemma SpawnImports(s: Sys, s': Sys, t: nat, pc: Pc, id: nat, child: Task, x: nat, y: string)
    requires t in s.tasks && id !in s.tasks && child.parent == Some(t)
    requires s'.tasks == s.tasks[t := s.tasks[t].(pc := pc)][id := child]
    ensures Importing(s', x, y) <==> Importing(s, x, y) || (x == t && y == child.ip)
  {
    if Importing(s, x, y) {
      var c :| c in s.tasks && s.tasks[c].parent == Some(x) && s.tasks[c].ip == y;
      assert c in s'.tasks && s'.tasks[c].parent == Some(x) && s'.tasks[c].ip == y;
    }
    if Importing(s', x, y) {
      var c :| c in s'.tasks && s'.tasks[c].parent == Some(x) && s'.tasks[c].ip == y;
      assert c != id ==> c in s.tasks && s.tasks[c].parent == Some(x) && s.tasks[c].ip == y;
    }
    if x == t && y == child.ip {
      assert s'.tasks[id].parent == Some(x) && s'.tasks[id].ip == y;
    }
  }

  /** What beginning an import does: its task is added, and the parent may have used up a second request. */
  lemma Spawned(w: World, h: History, s: Sys, id: nat, t: nat, ip: string) returns (pc: Pc, child: Task)
    requires Inv(w, h, s) && Assumed(w, h) && Enabled(w, s, Spawn(id, t, ip))
    ensures MayImport(w, s, t, ip) && t in s.tasks && id !in s.tasks && s.tasks[t].pc.Checking?
        && s.tasks[t].pc.src.Some?
    ensures Apply(w, s, Spawn(id, t, ip)).tasks == s.tasks[t := s.tasks[t].(pc := pc)][id := child]
    ensures Apply(w, s, Spawn(id, t, ip)).sto.sources == s.sto.sources
    ensures pc.Checking? && pc == s.tasks[t].pc.(again := pc.again) && pc.again == Asked(s, t, ip).tasks[t].pc.again
    ensures var l := LookedUp(w, s, t, ip);
            child == Task(Toward(Branch(w, s.tasks[t].kp, s.tasks[t].Key()), l.mod), l.pp, l.mod, Some(t), ip, Entering)
  {
    hide Inv, Acyclic, Covers, Finite, MayImport, AllTasks, Sound, DetectCycle, ChainOk, ChainTo, Leads, Local,
      Imported, LocksOk;
    MayImportIsChecking(w, s, t, ip);
    PartsOf(w, h, s);
    SpawnIsClear(w, h, s, t, ip);
    pc := Asked(s, t, ip).tasks[t].pc;
    child := Apply(w, s, Spawn(id, t, ip)).tasks[id];
  }

  /** The imported package weighs what its import costs, less the step that begins it. */
  lemma ChildWeighs(w: World, h: History, s: Sys, t: nat, ip: string)
    requires Inv(w, h, s) && Assumed(w, h) && MayImport(w, s, t, ip) && LookedUp(w, s, t, ip).At?
    ensures var l := LookedUp(w, s, t, ip);
            var kx, d := Toward(Branch(w, s.tasks[t].kp, s.tasks[t].Key()), l.mod), l.pp;
            7 + Cost(w, h, s.sto.sources, StateKey(kx, d), Current(w, s.sto.sources, StateKey(kx, d), kx.srcMap), kx.mp)
            == Costs(w, h, s.sto.sources, s.tasks[t].Key(), s.tasks[t].pc.src.value, s.tasks[t].kp.mp)(ip)
  {
    hide Inv, Acyclic, Covers, Finite, MayImport, Cost, Costs, AllTasks, Sound, DetectCycle, ChainOk, ChainTo, Leads,
      Local, Imported, LocksOk;
    MayImportIsChecking(w, s, t, ip);
    PartsOf(w, h, s);
    SpawnIsClear(w, h, s, t, ip);
    CostOf(w, h, s, t, ip);
    var l := LookedUp(w, s, t, ip);
    var kx, d := Toward(Branch(w, s.tasks[t].kp, s.tasks[t].Key()), l.mod), l.pp;
    BranchIsNotEmpty(w, s.tasks[t].kp, s.tasks[t].Key());
    ChainToIsClear(w, h, kx, d);
  }

  lemma SpawnLighter(w: World, h: History, s: Sys, id: nat, t: nat, ip: string)
    requires Inv(w, h, s) && Assumed(w, h) && Enabled(w, s, Spawn(id, t, ip))
    ensures Work(w, h, Apply(w, s, Spawn(id, t, ip))) < Work(w, h, s)
  {
    hide Inv, Acyclic, Covers, Finite, MayImport, Cost, Costs, Sum, Ahead, Importing, Apply;
    var pc, child := Spawned(w, h, s, id, t, ip);
    ChildWeighs(w, h, s, t, ip);
    var s', rest := Apply(w, s, Spawn(id, t, ip)), s.tasks.Keys - {t};
    forall x, y ensures Importing(s', x, y) <==> Importing(s, x, y) || (x == t && y == ip) {
      SpawnImports(s, s', t, pc, id, child, x, y);
    }
    assert Open(w, s', t) == Open(w, s, t) - {ip};
    ImportBegun(w, h, s, s', t, ip);
    RestWeighs(w, h, s, s', rest);
    SumTake(s.tasks.Keys, Weights(w, h, s), t);
    SumTake(s'.tasks.Keys, Weights(w, h, s'), t);
    SumTake(s'.tasks.Keys - {t}, Weights(w, h, s'), id);
    assert s'.tasks.Keys - {t} - {id} == rest;
  }

  lemma TakeImports(s: Sys, s': Sys, t: nat, pc: Pc, id: nat, x: nat, y: string)
    requires t in s.tasks && id in s.tasks && id != t && s.tasks[id].parent == Some(t)
    requires s'.tasks == s.tasks[t := s.tasks[t].(pc := pc)] - {id}
    requires x != t || y != s.tasks[id].ip
    ensures Importing(s', x, y) <==> Importing(s, x, y)
  {
    if Importing(s, x, y) {
      var c :| c in s.tasks && s.tasks[c].parent == Some(x) && s.tasks[c].ip == y;
      assert c in s'.tasks && s'.tasks[c].parent == Some(x) && s'.tasks[c].ip == y;
    }
    if Importing(s', x, y) {
      var c :| c in s'.tasks && s'.tasks[c].parent == Some(x) && s'.tasks[c].ip == y;
      assert c in s.tasks && s.tasks[c].parent == Some(x) && s.tasks[c].ip == y;
    }
  }

  lemma TakeLighter(w: World, h: History, s: Sys, id: nat)
    requires Inv(w, h, s) && Enabled(w, s, Take(id))
    ensures Work(w, h, Apply(w, s, Take(id))) < Work(w, h, s)
  {
    hide Inv, Cost, Costs, Sum, Importing, Rooted;
    var s', t, ip := Apply(w, s, Take(id)), s.tasks[id].parent.value, s.tasks[id].ip;
    var rest := s.tasks.Keys - {t} - {id};
    assert t != id && s.tasks[t].pc.src.Some? by { TakenFrom(w, h, s, id); }
    forall x, y | x != t || y != ip ensures Importing(s', x, y) <==> Importing(s, x, y) {
      TakeImports(s, s', t, s'.tasks[t].pc, id, x, y);
    }
    assert Importing(s, t, ip) by { TakenFrom(w, h, s, id); }
    assert Open(w, s', t) == Open(w, s, t);
    RestWeighs(w, h, s, s', rest);
    SumTake(s.tasks.Keys, Weights(w, h, s), t);
    SumTake(s.tasks.Keys - {t}, Weights(w, h, s), id);
    SumTake(s'.tasks.Keys, Weights(w, h, s'), t);
    assert s'.tasks.Keys - {t} == rest;
  }

  lemma TakenFrom(w: World, h: History, s: Sys, id: nat)
    requires Inv(w, h, s) && id in s.tasks && s.tasks[id].parent.Some?
    ensures var t := s.tasks[id].parent.value;
            && t != id && t in s.tasks && s.tasks[t].pc.Checking? && s.tasks[t].pc.src.Some?
            && Importing(s, t, s.tasks[id].ip)
  {
    hide AllTasks, Sound, Covers, Finite, LocksOk, Tracked, Serves, Imported, WasFound, ChainOk, ChainTo, Local;
    PartsOf(w, h, s);
    TaskOf(w, h, s, id);
    Position(w, h, s, id);
  }

  lemma ReadLighter(w: World, h: History, s: Sys, id: nat)
    requires Inv(w, h, s) && Enabled(w, s, ReadSource(id))
    ensures Work(w, h, Apply(w, s, ReadSource(id))) < Work(w, h, s)
  {
    hide Inv, Costs, Sum, AllTasks, Sound, Covers, Finite, LocksOk, Rooted, Serves, Work;
    PartsOf(w, h, s);
    TaskOf(w, h, s, id);
    Childless(w, h, s, id);
    var s', t := Apply(w, s, ReadSource(id)), s.tasks[id];
    forall y ensures !Importing(s', id, y) {
      SameImports(s, s', id, s'.tasks[id].pc, id, y);
    }
    assert Open(w, s', id) == ImportsOf(w, t.Key(), s'.tasks[id].pc.src.value);
    OneLighter(w, h, s, s', id, s'.tasks[id].pc);
  }

  /** Every step of an import under way leaves less work. */
  lemma StepUsesWork(w: World, h: History, s: Sys, step: Step)
    requires Assumed(w, h) && Inv(w, h, s) && Progress(step) && Enabled(w, s, step)
    ensures Work(w, h, Apply(w, s, step)) < Work(w, h, s)
  {
    hide Inv, Cost, Costs, Sum, MayImport, Outcome, Work, Ahead;
    var s' := Apply(w, s, step);
    match step
    case Spawn(id, t, ip) => SpawnLighter(w, h, s, id, t, ip);
    case Resolve(t, ip) => ResolveLighter(w, h, s, t, ip);
    case Take(id) => TakeLighter(w, h, s, id);
    case ReadSource(id) => ReadLighter(w, h, s, id);
    case Enlist(id) => OneLighter(w, h, s, s', id, s'.tasks[id].pc);
    case Acquire(id) => OneLighter(w, h, s, s', id, s'.tasks[id].pc);
    case Reuse(id) => OneLighter(w, h, s, s', id, s'.tasks[id].pc);
    case Draw(id) => OneLighter(w, h, s, s', id, s'.tasks[id].pc);
    case Finish(id, _) => OneLighter(w, h, s, s', id, s'.tasks[id].pc);
  }

  // ---------------------------------------------------------------- the end

  /** From `s`, with no new import and no change to a directory, the steps lead to `end`. */
  ghost predicate LeftAlone(w: World, s: Sys, steps: seq<Step>, end: Sys)
    decreases |steps|
  {
    if steps == [] then end == s else
      Progress(steps[0]) && Enabled(w, s, steps[0]) && LeftAlone(w, Apply(w, s, steps[0]), steps[1..], end)
  }

  ghost predicate AllDone(s: Sys) {
    forall id | id in s.tasks :: s.tasks[id].pc.Done?
  }

  lemma ProgressAllowed(w: World, h: History, s: Sys, step: Step)
    requires Assumed(w, h) && Inv(w, h, s) && Progress(step) && Enabled(w, s, step)
    ensures Inv(w, h, Apply(w, s, step))
  {
    hide Assumed, Inv, Enabled, Apply;
    KeepStep(w, h, s, step);
  }

  lemma {:induction false} RunUsesWork(w: World, h: History, s: Sys, steps: seq<Step>, end: Sys)
    requires Assumed(w, h) && Inv(w, h, s) && LeftAlone(w, s, steps, end)
    ensures Inv(w, h, end) && |steps| + Work(w, h, end) <= Work(w, h, s)
    decreases |steps|
  {
    hide Assumed, Inv, Enabled, Apply, Work, Progress;
    if steps != [] {
      StepUsesWork(w, h, s, steps[0]);
      ProgressAllowed(w, h, s, steps[0]);
      RunUsesWork(w, h, Apply(w, s, steps[0]), steps[1..], end);
    }
  }

  /** Left alone, the imports under way come to an end in a bounded number of steps, however they interleave, and
      where no step is possible all of them have their results. */
  lemma ImportsFinish(w: World, h: History, s: Sys, before: seq<Step>, steps: seq<Step>, end: Sys)
    requires Assumed(w, h) && Reachable(w, h, s, before) && LeftAlone(w, s, steps, end)
    ensures |steps| <= Work(w, h, s)
    ensures AllDone(end) || exists step :: Progress(step) && Enabled(w, end, step)
  {
    hide Assumed, Inv, Enabled, Reachable, LeftAlone, Work, Progress;
    ReachableInv(w, h, s, before);
    RunUsesWork(w, h, s, steps, end);
    if id :| id in end.tasks && !end.tasks[id].pc.Done? {
      CanStep(w, h, end, id);
    }
  }

  /** So there is a way for all of them to finish. */
  lemma {:induction false} CanFinish(w: World, h: History, s: Sys) returns (steps: seq<Step>, end: Sys)
    requires Assumed(w, h) && Inv(w, h, s)
    ensures LeftAlone(w, s, steps, end) && AllDone(end)
    decreases Work(w, h, s)
  {
    hide Assumed, Inv, Enabled, Apply, Work, Progress;
    steps, end := [], s;
    if id :| id in s.tasks && !s.tasks[id].pc.Done? {
      CanStep(w, h, s, id);
      var step :| Progress(step) && Enabled(w, s, step);
      StepUsesWork(w, h, s, step);
      ProgressAllowed(w, h, s, step);
      steps, end := CanFinish(w, h, Apply(w, s, step));
      assert ([step] + steps)[1..] == steps;
      steps := [step] + steps;
    }
  }
}
