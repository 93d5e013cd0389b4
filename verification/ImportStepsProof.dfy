/** Every step of the import protocol keeps its invariant. */
module ImportStepsProof {
  import opened Wrappers
  import opened ImportModel
  import opened ImportCache
  import opened Invalidation
  import opened TableSteps
  import opened ImportSteps
  import SeqImport

  /** The hypotheses: the history is acyclic and has what can be read before anything changes, and laying no unsaved
      files over a directory changes nothing. */
  ghost predicate Assumed(w: World, h: History) {
    Acyclic(w, h) && SeeNothing(w) && Finite(w, map[]) && Covers(w, h, map[])
  }

  // ---------------------------------------------------------------- frames

  /** The tasks other than `me` do not move, those in `gone` leave. */
  ghost predicate OnlyMoves(s: Sys, s': Sys, me: nat, gone: set<nat>) {
    && s'.dirty == s.dirty && s'.clears == s.clears
    && me in s'.tasks && me !in gone
    && s'.tasks.Keys == s.tasks.Keys - gone + {me}
    && (forall id | id in s.tasks && id != me && id !in gone :: s'.tasks[id] == s.tasks[id])
  }

  /** The tasks other than `me` keep their locks, and nobody publishes a state that they are checking. */
  ghost predicate LocksStay(s: Sys, s': Sys, me: nat) {
    forall id | id in s.tasks && id != me && Holds(s.tasks[id].pc) ::
      var key := s.tasks[id].Key();
      && key in s'.held && s'.held[key] == id
      && (key in s.sto.states && key in s'.sto.states ==> s'.sto.states[key].chkAt == s.sto.states[key].chkAt)
  }

  ghost predicate OthersOk(w: World, h: History, s: Sys, me: nat) {
    forall id | id in s.tasks && id != me :: TaskInv(w, h, s, id)
  }

  lemma FrameOthers(w: World, h: History, s: Sys, s': Sys, me: nat, gone: set<nat>)
    requires AllTasks(w, h, s)
    requires OnlyMoves(s, s', me, gone) && LocksStay(s, s', me) && Extends(s.sto, s'.sto)
    requires NoChildren(s, me) || SameCheck(s, s', me)
    requires forall id | id in gone :: NoChildren(s, id) && (id in s.tasks ==> !Holds(s.tasks[id].pc))
    ensures OthersOk(w, h, s', me)
  {
    hide Extends, LocksStay, TaskInv;
    forall id | id in s'.tasks && id != me ensures TaskInv(w, h, s', id) {
      FrameOther(w, h, s, s', me, gone, id);
    }
  }

  lemma FrameOther(w: World, h: History, s: Sys, s': Sys, me: nat, gone: set<nat>, id: nat)
    requires AllTasks(w, h, s)
    requires OnlyMoves(s, s', me, gone) && LocksStay(s, s', me) && Extends(s.sto, s'.sto)
    requires NoChildren(s, me) || SameCheck(s, s', me)
    requires forall id | id in gone :: NoChildren(s, id)
    requires id in s'.tasks && id != me
    ensures TaskInv(w, h, s', id)
  {
    hide ChainOk, ChainTo, Local, DepResult, Kept, Serves, Imported, AllTasks;
    assert id in s.tasks && s'.tasks[id] == s.tasks[id];
    TaskOf(w, h, s, id);
    if s.tasks[id].parent.Some? {
      assert SameCheck(s, s', s.tasks[id].parent.value);
    }
    FrameTask(w, h, s, s', id);
  }

  lemma Combine(w: World, h: History, s: Sys, me: nat)
    requires Finite(w, s.sto.sources) && Covers(w, h, s.sto.sources)
    requires Sound(w, h, s.sto, s.dirty) && ClearsOk(s) && LocksOk(s) && OthersOk(w, h, s, me)
    requires me in s.tasks ==> TaskInv(w, h, s, me)
    ensures Inv(w, h, s)
  {
    hide Sound, ClearsOk, LocksOk, TaskInv, Finite, Covers;
  }

  lemma PartsOf(w: World, h: History, s: Sys)
    requires Inv(w, h, s)
    ensures Finite(w, s.sto.sources) && Covers(w, h, s.sto.sources)
    ensures Sound(w, h, s.sto, s.dirty) && ClearsOk(s) && LocksOk(s) && AllTasks(w, h, s) && Ordered(h, s.sto)
  {
    hide LocksOk, AllTasks, Finite, Covers, Ordered, Justified, Occurs;
  }

  lemma ClearsStay(s: Sys, s': Sys)
    requires ClearsOk(s) && s'.clears == s.clears && s'.sto.clock >= s.sto.clock
    ensures ClearsOk(s')
  {
  }

  lemma TaskOf(w: World, h: History, s: Sys, id: nat)
    requires AllTasks(w, h, s) && id in s.tasks
    ensures TaskInv(w, h, s, id) && Rooted(w, h, s, id) && Serves(w, s, id)
    ensures s.tasks[id].pc.Checking? ==> Tracked(w, h, s, id)
    ensures Holds(s.tasks[id].pc) ==> s.tasks[id].Key() in s.held && s.held[s.tasks[id].Key()] == id
  {
    hide Rooted, Serves, Tracked;
  }

  /** Only a task in the middle of a check, with its source read, has children. */
  lemma Childless(w: World, h: History, s: Sys, t: nat)
    requires AllTasks(w, h, s)
    requires t in s.tasks ==> !s.tasks[t].pc.Checking? || s.tasks[t].pc.src.None?
    ensures NoChildren(s, t)
  {
    hide ChainOk, ChainTo, Local, Tracked, Serves, Imported;
    forall c | c in s.tasks ensures s.tasks[c].parent != Some(t) {
      TaskOf(w, h, s, c);
    }
  }

  function Depth(kp: Importer): nat {
    if kp.par.Some? then 1 + Depth(kp.par.value) else 0
  }

  lemma NotOwnParent(kp: Importer)
    ensures kp.par != Some(kp)
  {
    if kp.par.Some? {
      assert Depth(kp) == 1 + Depth(kp.par.value);
    }
  }

  /** What a task's position says about its importer. */
  lemma Position(w: World, h: History, s: Sys, id: nat)
    requires id in s.tasks && Rooted(w, h, s, id)
    ensures s.tasks[id].parent != Some(id)
    ensures Chain(s.tasks[id].kp) == [] ==> Local(w, s.tasks[id].kp.srcMap, s.tasks[id].pp.dir)
    ensures s.tasks[id].parent.None? <==> s.tasks[id].kp.ks.None?
    ensures s.tasks[id].parent.Some? ==>
              && s.tasks[id].Key().noHash && s.tasks[id].parent.value in s.tasks
              && s.tasks[id].kp.ks == Some(s.tasks[s.tasks[id].parent.value].Key())
    ensures s.tasks[id].kp.ks.None? ==> s.tasks[id].kp.par.None? && s.tasks[id].kp.hash == s.tasks[id].kp.srcMap
    ensures s.tasks[id].kp.ks.Some? ==> s.tasks[id].kp.hash == map[]
  {
    hide ChainOk, ChainTo, Local, Imported;
    NotOwnParent(s.tasks[id].kp);
  }

  // ---------------------------------------------------------------- the steps that add a task

  lemma AddTask(w: World, h: History, s: Sys, s': Sys, id: nat, t: Task)
    requires Inv(w, h, s) && id !in s.tasks && t.pc.Entering?
    requires s' == s.(sto := Touch(s.sto, t.Key()), tasks := s.tasks[id := t])
    requires Rooted(w, h, s', id)
    ensures Inv(w, h, s')
  {
    hide Sound, DepResult, Kept, Tracked, Rooted, AllTasks, Finite, Covers, Ordered, Occurs, WasFound, Justified,
      ClearsOk;
    PartsOf(w, h, s);
    TouchSound(w, h, s.sto, s.dirty, t.Key());
    GrowsExtends(s.sto, s'.sto);
    Childless(w, h, s, id);
    HoldersStay(w, h, s, s', id, {});
    FrameOthers(w, h, s, s', id, {});
    assert LocksOk(s');
    ClearsStay(s, s');
    Combine(w, h, s', id);
  }

  /** When locks are not touched and nothing is published, everyone keeps theirs. */
  lemma HoldersStay(w: World, h: History, s: Sys, s': Sys, me: nat, keys: set<Key>)
    requires AllTasks(w, h, s)
    requires forall id | id in s.tasks && id != me && Holds(s.tasks[id].pc) :: s.tasks[id].Key() !in keys
    requires forall k | k in s.held && k !in keys :: k in s'.held && s'.held[k] == s.held[k]
    requires forall k | k in s.sto.states && k in s'.sto.states && k !in keys ::
               s'.sto.states[k].chkAt == s.sto.states[k].chkAt
    ensures LocksStay(s, s', me)
  {
    hide ChainOk, ChainTo, Local, Tracked, Serves, Rooted;
    forall id | id in s.tasks && id != me && Holds(s.tasks[id].pc)
      ensures s.tasks[id].Key() in s'.held && s'.held[s.tasks[id].Key()] == id
    {
      TaskOf(w, h, s, id);
    }
  }

  lemma KeepBegin(w: World, h: History, s: Sys, id: nat, flags: Flags, srcMap: Overlay, mp: ModPath, pp: PkgPath)
    requires Inv(w, h, s) && Enabled(w, s, Begin(id, flags, srcMap, mp, pp))
    requires Allowed(w, h, s, Begin(id, flags, srcMap, mp, pp))
    ensures Inv(w, h, Apply(w, s, Begin(id, flags, srcMap, mp, pp)))
  {
    hide Inv, Local, Leads;
    var t := Task(New(flags, srcMap, mp), pp, mp, None, "", Entering);
    var s' := Apply(w, s, Begin(id, flags, srcMap, mp, pp));
    assert Chain(t.kp) == [];
    assert Rooted(w, h, s', id);
    AddTask(w, h, s, s', id, t);
  }

  /** On an acyclic import graph the cycle test never fires. */
  lemma SpawnIsClear(w: World, h: History, s: Sys, t: nat, ip: string)
    requires Acyclic(w, h) && Finite(w, s.sto.sources) && Covers(w, h, s.sto.sources)
    requires AllTasks(w, h, s) && MayImport(w, s, t, ip) && LookedUp(w, s, t, ip).At?
    ensures var l := LookedUp(w, s, t, ip);
            var kx, d := Toward(Branch(w, s.tasks[t].kp, s.tasks[t].Key()), l.mod), l.pp;
            && Imported(w, h, s.tasks[t].Key(), s.tasks[t].pc.src.value, s.tasks[t].kp.mp, ip, d, l.mod)
            && DetectCycle(kx, d).None? && ChainOk(w, kx) && ChainTo(w, h, kx, d) && d.dir in w.dirs
            && StateKey(kx, d) == DepKey(w, s.tasks[t].Key(), d)
  {
    hide Local, DepResult, Serves, Room, Leads, AllTasks, Acyclic, Covers, ChainTo, DetectCycle, Targets, ItsTurn,
      Importing;
    TaskOf(w, h, s, t);
    var kp, pp := s.tasks[t].kp, s.tasks[t].pp;
    var key, src := s.tasks[t].Key(), s.tasks[t].pc.src.value;
    var l := LookedUp(w, s, t, ip);
    var kx, d := Toward(Branch(w, kp, key), l.mod), l.pp;
    CoversFind(w, h, s.sto.sources, key, src, kp.mp, ip);
    ChainToIsClear(w, h, kp, pp);
    BranchChain(w, kp, pp);
    Position(w, h, s, t);
    ChainToDep(w, h, kp, pp, src, ip, d, l.mod);
    SameChain(w, Branch(w, kp, key), kx);
    ChainToIsClear(w, h, kx, d);
  }

  /** How often the type checker may still ask matters to nobody else. */
  lemma AskedKept(w: World, h: History, s: Sys, t: nat, ip: string)
    requires Inv(w, h, s) && t in s.tasks && s.tasks[t].pc.Checking? && s.tasks[t].pc.src.Some?
    ensures Inv(w, h, Asked(s, t, ip))
  {
    hide Sound, AllTasks, Finite, Covers, TaskInv, Extends, LocksStay, LocksOk, Rooted, Serves, Tracked, ClearsOk,
      Ordered, WasFound;
    var s' := Asked(s, t, ip);
    if ip in s.tasks[t].pc.used {
      PartsOf(w, h, s);
      ExtendsSelf(s.sto);
      TaskOf(w, h, s, t);
      Position(w, h, s, t);
      HoldersStay(w, h, s, s', t, {});
      FrameOthers(w, h, s, s', t, {});
      AskerKept(w, h, s, t, ip);
      LocksMove(s, s', t);
      ClearsStay(s, s');
      Combine(w, h, s', t);
    }
  }

  lemma AskerKept(w: World, h: History, s: Sys, t: nat, ip: string)
    requires t in s.tasks && TaskInv(w, h, s, t) && s.tasks[t].pc.Checking? && s.tasks[t].parent != Some(t)
    ensures TaskInv(w, h, Asked(s, t, ip), t)
  {
    hide Local, DepResult, Kept, ChainOk, ChainTo, Imported, Occurs, WasFound;
    var s' := Asked(s, t, ip);
    assert OnTrack(s', t) == OnTrack(s, t);
    if s.tasks[t].parent.Some? {
      assert OnTrack(s', s.tasks[t].parent.value) == OnTrack(s, s.tasks[t].parent.value);
    }
    assert Rooted(w, h, s, t);
  }

  lemma KeepSpawn(w: World, h: History, s: Sys, id: nat, t: nat, ip: string)
    requires Assumed(w, h) && Inv(w, h, s) && Enabled(w, s, Spawn(id, t, ip))
    ensures Inv(w, h, Apply(w, s, Spawn(id, t, ip)))
  {
    hide Sound, Local, Leads, ChainOk, ChainTo, DetectCycle, Imported, AllTasks, LocksOk, Covers, Finite, Acyclic,
      Occurs, MayImport, ClearsOk, Ordered, WasFound;
    PartsOf(w, h, s);
    SpawnIsClear(w, h, s, t, ip);
    MayImportIsChecking(w, s, t, ip);
    AskedKept(w, h, s, t, ip);
    var s1 := Asked(s, t, ip);
    PartsOf(w, h, s1);
    TaskOf(w, h, s1, t);
    var l := LookedUp(w, s, t, ip);
    var kx := Toward(Branch(w, s.tasks[t].kp, s.tasks[t].Key()), l.mod);
    var task := Task(kx, l.pp, l.mod, Some(t), ip, Entering);
    var s' := Apply(w, s, Spawn(id, t, ip));
    FoundNow(w, s.sto.sources, s.tasks[t].kp.mp, s.tasks[t].pp, ip);
    assert Rooted(w, h, s', id);
    AddTask(w, h, s1, s', id, task);
  }

  lemma MayImportIsChecking(w: World, s: Sys, t: nat, ip: string)
    requires MayImport(w, s, t, ip)
    ensures t in s.tasks && s.tasks[t].pc.Checking? && s.tasks[t].pc.src.Some?
    ensures w.parse(s.tasks[t].Key(), s.tasks[t].pc.src.value).Imports?
    ensures ip in w.parse(s.tasks[t].Key(), s.tasks[t].pc.src.value).paths
  {
  }

  // ---------------------------------------------------------------- the steps that record a result

  /** A check that records one more dependency result it can rely on. */
  lemma UseKept(w: World, h: History, s: Sys, s': Sys, t: nat, ip: string, l: Lookup, res: Result, gone: set<nat>)
    requires Inv(w, h, s) && t in s.tasks && s.tasks[t].pc.Checking? && s.tasks[t].pc.src.Some?
    requires s'.sto == s.sto && s'.held == s.held && OnlyMoves(s, s', t, gone)
    requires s'.tasks[t] == s.tasks[t].(pc := Use(s.tasks[t].pc, ip, l, res))
    requires forall id | id in gone :: NoChildren(s, id) && (id in s.tasks ==> !Holds(s.tasks[id].pc))
    requires Occurs(w, h, s.tasks[t].Key(), s.tasks[t].pc.src.value, s.tasks[t].kp.mp, s.tasks[t].pc.found[ip := l])
    requires OnTrack(s, t) ==> DepResult(w, s.sto.states, s.tasks[t].Key(), map[ip := l], ip) == Some(res)
    ensures Inv(w, h, s')
  {
    hide Sound, Local, DepResult, Kept, ChainOk, ChainTo, Imported, AllTasks, Finite, Covers, Occurs, Ordered,
      WasFound, Justified, ClearsOk;
    PartsOf(w, h, s);
    ExtendsSelf(s.sto);
    TaskOf(w, h, s, t);
    Position(w, h, s, t);
    HoldersStay(w, h, s, s', t, {});
    FrameOthers(w, h, s, s', t, gone);
    UserKept(w, h, s, s', t, ip, l, res, gone);
    assert LocksOk(s');
    ClearsStay(s, s');
    Combine(w, h, s', t);
  }

  lemma UserKept(w: World, h: History, s: Sys, s': Sys, t: nat, ip: string, l: Lookup, res: Result, gone: set<nat>)
    requires t in s.tasks && TaskInv(w, h, s, t) && s.tasks[t].pc.Checking? && s.tasks[t].pc.src.Some?
    requires s.tasks[t].parent != Some(t)
    requires s'.sto == s.sto && s'.held == s.held && OnlyMoves(s, s', t, gone)
    requires s'.tasks[t] == s.tasks[t].(pc := Use(s.tasks[t].pc, ip, l, res))
    requires forall id | id in gone :: NoChildren(s, id)
    requires Occurs(w, h, s.tasks[t].Key(), s.tasks[t].pc.src.value, s.tasks[t].kp.mp, s.tasks[t].pc.found[ip := l])
    requires OnTrack(s, t) ==> DepResult(w, s.sto.states, s.tasks[t].Key(), map[ip := l], ip) == Some(res)
    ensures TaskInv(w, h, s', t)
  {
    hide Local, DepResult, Kept, ChainOk, ChainTo, Imported, Occurs;
    var found := s.tasks[t].pc.found;
    forall x | x != ip
      ensures DepResult(w, s.sto.states, s.tasks[t].Key(), found[ip := l], x)
           == DepResult(w, s.sto.states, s.tasks[t].Key(), found, x)
    {
      DepResultOf(w, s.sto.states, s.tasks[t].Key(), found[ip := l], found, x, x);
    }
    DepResultOf(w, s.sto.states, s.tasks[t].Key(), found[ip := l], map[ip := l], ip, ip);
    assert OnTrack(s', t) == OnTrack(s, t);
    assert Rooted(w, h, s, t);
    if s.tasks[t].parent.Some? {
      var p := s.tasks[t].parent.value;
      assert p !in gone;
      assert OnTrack(s', p) == OnTrack(s, p);
    }
  }

  /** What a dependency gives depends on where its import led only. */
  lemma DepResultOf(w: World, states: map<Key, St>, key: Key, a: Found, b: Found, x: string, y: string)
    requires (x in a <==> y in b) && (x in a ==> Same(a[x], b[y]))
    ensures DepResult(w, states, key, a, x) == DepResult(w, states, key, b, y)
  {
  }

  lemma KeepResolve(w: World, h: History, s: Sys, t: nat, ip: string)
    requires Inv(w, h, s) && Enabled(w, s, Resolve(t, ip))
    ensures Inv(w, h, Apply(w, s, Resolve(t, ip)))
  {
    hide Inv, MayImport, AllTasks, Covers, Finite, Sound, TaskInv, Rooted, Serves, Occurs, LocksOk;
    MayImportIsChecking(w, s, t, ip);
    AskedKept(w, h, s, t, ip);
    var s1, l := Asked(s, t, ip), LookedUp(w, s, t, ip);
    PartsOf(w, h, s1);
    TaskOf(w, h, s1, t);
    OccursNext(w, h, s1.tasks[t].Key(), s1.tasks[t].pc.src.value, s.tasks[t].kp.mp, s1.tasks[t].pc.found,
        s.sto.sources, ip);
    UseKept(w, h, s1, Apply(w, s, Resolve(t, ip)), t, ip, l, Direct(l), {});
  }

  lemma OccursNext(w: World, h: History, key: Key, src: Source, mp: ModPath, found: Found, srcs: Sources, ip: string)
    requires Occurs(w, h, key, src, mp, found) && !w.find(srcs, mp, key.pp, ip).At?
    requires w.parse(key, src).Imports? && ip in w.parse(key, src).paths
    ensures Occurs(w, h, key, src, mp, found[ip := w.find(srcs, mp, key.pp, ip)])
  {
    FoundNow(w, srcs, mp, key.pp, ip);
  }

  lemma OccursAt(w: World, h: History, key: Key, src: Source, mp: ModPath, found: Found, ip: string, d: PkgPath,
                 m: ModPath)
    requires Occurs(w, h, key, src, mp, found) && Imported(w, h, key, src, mp, ip, d, m)
        && WasFound(w, mp, key.pp, ip, At(d, m))
    ensures Occurs(w, h, key, src, mp, found[ip := At(d, m)])
  {
    hide WasFound;
  }

  lemma KeepTake(w: World, h: History, s: Sys, s': Sys, id: nat)
    requires id in s.tasks && s.tasks[id].pc.Done? && s.tasks[id].parent.Some? &&
               s.tasks[id].parent.value in s.tasks && s.tasks[s.tasks[id].parent.value].pc.Checking?
    requires s' == Taken(s, id)
    requires Inv(w, h, s)
    ensures Inv(w, h, s')
  {
    hide Sound, Local, ChainOk, ChainTo, DepResult, AllTasks, LocksOk, Finite, Covers, Occurs, Imported, WasFound,
      Ordered, Justified, ClearsOk;
    var t, ip, d, m := s.tasks[id].parent.value, s.tasks[id].ip, s.tasks[id].pp, s.tasks[id].mod;
    TaskOf(w, h, s, id);
    TaskOf(w, h, s, t);
    Childless(w, h, s, id);
    Position(w, h, s, id);
    DepResultOf(w, s.sto.states, s.tasks[t].Key(), map["" := At(d, [])], map[ip := At(d, m)], "", ip);
    OccursAt(w, h, s.tasks[t].Key(), s.tasks[t].pc.src.value, s.tasks[t].kp.mp, s.tasks[t].pc.found, ip, d, m);
    UseKept(w, h, s, s', t, ip, At(d, m), s.tasks[id].pc.res, {id});
  }

  // ---------------------------------------------------------------- the steps that move one task

  /** A task with no children moves on; its own part of the invariant is shown separately. */
  lemma MoveTask(w: World, h: History, s: Sys, s': Sys, id: nat, keys: set<Key>)
    requires Inv(w, h, s) && id in s.tasks && id in s'.tasks && NoChildren(s, id)
    requires OnlyMoves(s, s', id, {}) && Extends(s.sto, s'.sto)
    requires forall k | k in keys :: k !in s.held || s.held[k] == id
    requires forall k | k in s.held && k !in keys :: k in s'.held && s'.held[k] == s.held[k]
    requires forall k | k in s.sto.states && k in s'.sto.states && k !in keys ::
               s'.sto.states[k].chkAt == s.sto.states[k].chkAt
    requires Sound(w, h, s'.sto, s'.dirty) && LocksOk(s') && TaskInv(w, h, s', id)
    ensures Inv(w, h, s')
  {
    hide Sound, TaskInv, Extends, AllTasks, Finite, Covers, ClearsOk, Ordered, WasFound;
    PartsOf(w, h, s);
    forall x | x in s.tasks && x != id && Holds(s.tasks[x].pc) ensures s.tasks[x].Key() !in keys {
      TaskOf(w, h, s, x);
    }
    HoldersStay(w, h, s, s', id, keys);
    FrameOthers(w, h, s, s', id, {});
    SameSources(s.sto, s'.sto);
    ClearsStay(s, s');
    Combine(w, h, s', id);
  }

  lemma SameSources(sto: Store, sto': Store)
    requires Extends(sto, sto')
    ensures sto'.sources == sto.sources && sto.clock <= sto'.clock
  {
  }

  /** Whoever moves either keeps what it holds, or lets go of its own lock. */
  lemma LocksMove(s: Sys, s': Sys, id: nat)
    requires LocksOk(s) && id in s.tasks && OnlyMoves(s, s', id, {})
    requires s'.tasks[id] == s.tasks[id].(pc := s'.tasks[id].pc)
    requires || (s'.held == s.held && Holds(s.tasks[id].pc) == Holds(s'.tasks[id].pc))
             || (s'.held == s.held - {s.tasks[id].Key()} &&
                 (s.tasks[id].Key() in s.held ==> s.held[s.tasks[id].Key()] == id))
    ensures LocksOk(s')
  {
  }

  predicate CheckOf(s: Sys, id: nat) {
    id in s.tasks && s.tasks[id].pc.Checking?
  }

  /** A task that is not checking keeps its place when it moves on and its state keeps its importers. */
  lemma StaysRooted(w: World, h: History, s: Sys, s': Sys, id: nat)
    requires id in s.tasks && Rooted(w, h, s, id) && OnlyMoves(s, s', id, {})
    requires Extends(s.sto, s'.sto)
    requires s'.tasks[id] == s.tasks[id].(pc := s'.tasks[id].pc)
    requires s.tasks[id].pc.Entering? && !s'.tasks[id].pc.Entering? && s.tasks[id].parent.Some? ==>
               s.tasks[id].kp.ks.value in s'.sto.states[s.tasks[id].Key()].imby
    requires s'.tasks[id].pc.Checking? && s.tasks[id].parent.Some? && CheckOf(s, s.tasks[id].parent.value) ==>
               s'.tasks[id].pc.stamp > s.tasks[s.tasks[id].parent.value].pc.stamp
    ensures Rooted(w, h, s', id)
    ensures s.tasks[id].parent.Some? ==> OnTrack(s', s.tasks[id].parent.value) == OnTrack(s, s.tasks[id].parent.value)
  {
    hide ChainOk, ChainTo, Local, Imported, Kept;
    Position(w, h, s, id);
  }

  lemma KeepEnlist(w: World, h: History, s: Sys, s': Sys, id: nat)
    requires id in s.tasks && s.tasks[id].pc.Entering? && s.tasks[id].Key() in s.sto.states
    requires s' == Enlisted(s, id)
    requires Assumed(w, h) && Inv(w, h, s)
    ensures Inv(w, h, s')
  {
    hide Sound, LocksOk, ChainOk, ChainTo, Local, DepResult, AllTasks, Assumed, Grows, Kept, Imported, Ordered,
      Finite, Covers, Occurs, WasFound, Justified, ClearsOk;
    PartsOf(w, h, s);
    TaskOf(w, h, s, id);
    Position(w, h, s, id);
    Childless(w, h, s, id);
    EnlistStore(w, h, s, s', id);
    StaysRooted(w, h, s, s', id);
    LocksMove(s, s', id);
    MoveTask(w, h, s, s', id, {});
  }

  lemma EnlistStore(w: World, h: History, s: Sys, s': Sys, id: nat)
    requires id in s.tasks && s.tasks[id].Key() in s.sto.states
    requires s' == Enlisted(s, id)
    requires Assumed(w, h) && Sound(w, h, s.sto, s.dirty) && Rooted(w, h, s, id)
    ensures Sound(w, h, s'.sto, s'.dirty) && Extends(s.sto, s'.sto)
    ensures forall k | k in s.sto.states :: s'.sto.states[k].chkAt == s.sto.states[k].chkAt
    ensures s.tasks[id].parent.Some? ==> s.tasks[id].kp.ks.value in s'.sto.states[s.tasks[id].Key()].imby
  {
    hide Sound, ChainOk, ChainTo, Local, DepResult, Finite, SeeNothing, Leads, Grows, Kept;
    Position(w, h, s, id);
    var t := s.tasks[id];
    if t.parent.Some? {
      RegisterSound(w, h, s.sto, s.dirty, t.Key(), t.kp.ks.value);
      GrowsExtends(s.sto, s'.sto);
    } else {
      ExtendsSelf(s.sto);
    }
  }

  lemma KeepAcquire(w: World, h: History, s: Sys, s': Sys, id: nat)
    requires id in s.tasks && s.tasks[id].pc.Waiting? && s.tasks[id].Key() !in s.held
    requires s' == Acquired(s, id)
    requires Inv(w, h, s)
    ensures Inv(w, h, s')
  {
    hide Sound, ChainOk, ChainTo, Local, DepResult, AllTasks, Imported, LocksOk, Finite, Covers, Ordered, ClearsOk,
      WasFound;
    PartsOf(w, h, s);
    TaskOf(w, h, s, id);
    Childless(w, h, s, id);
    ExtendsSelf(s.sto);
    StaysRooted(w, h, s, s', id);
    AcquireLocks(s, id);
    MoveTask(w, h, s, s', id, {s.tasks[id].Key()});
  }

  lemma AcquireLocks(s: Sys, id: nat)
    requires LocksOk(s) && id in s.tasks && s.tasks[id].pc.Waiting?
    ensures LocksOk(Acquired(s, id))
  {
  }

  lemma KeepReuse(w: World, h: History, s: Sys, s': Sys, id: nat)
    requires id in s.tasks && s.tasks[id].pc.Held? && s.tasks[id].Key() in s.sto.states &&
               Valid(s.sto.states[s.tasks[id].Key()], s.tasks[id].Key(), s.tasks[id].kp.hash)
    requires s' == Reused(s, id)
    requires Inv(w, h, s)
    ensures Inv(w, h, s')
  {
    hide Sound, LocksOk, ChainOk, ChainTo, Local, AllTasks, Finite, Covers, Ordered, Occurs, WasFound, Justified,
      ClearsOk;
    var key := s.tasks[id].Key();
    PartsOf(w, h, s);
    TaskOf(w, h, s, id);
    Position(w, h, s, id);
    Childless(w, h, s, id);
    ExtendsSelf(s.sto);
    StaysRooted(w, h, s, s', id);
    if s.tasks[id].parent.Some? {
      ServedBy(w, h, s, id);
    }
    LocksMove(s, s', id);
    MoveTask(w, h, s, s', id, {key});
  }

  /** A settled child that registered its parent gives the parent's dependency result. */
  lemma ServedBy(w: World, h: History, s: Sys, id: nat)
    requires id in s.tasks && Rooted(w, h, s, id) && s.tasks[id].parent.Some? && !s.tasks[id].pc.Entering?
    ensures var p, key := s.tasks[id].parent.value, s.tasks[id].Key();
            && key in s.sto.states
            && DepKey(w, s.tasks[p].Key(), s.tasks[id].pp) == key
            && (Settled(s.sto.states[key]) ==>
                  DepAt(w, s.sto.states, s.tasks[p].Key(), s.tasks[id].pp) == Some(s.sto.states[key].res))
  {
    hide ChainOk, ChainTo, Local;
  }

  lemma KeepDraw(w: World, h: History, s: Sys, s': Sys, id: nat)
    requires id in s.tasks && s.tasks[id].pc.Held? && s.tasks[id].Key() in s.sto.states &&
               !Valid(s.sto.states[s.tasks[id].Key()], s.tasks[id].Key(), s.tasks[id].kp.hash)
    requires s' == Drawn(s, id)
    requires Inv(w, h, s)
    ensures Inv(w, h, s')
  {
    hide Sound, LocksOk, ChainOk, ChainTo, Local, AllTasks, DepResult, Imported, Grows, Ordered, Finite, Covers,
      Occurs, WasFound, Justified, ClearsOk;
    var key := s.tasks[id].Key();
    PartsOf(w, h, s);
    TaskOf(w, h, s, id);
    Childless(w, h, s, id);
    SoundIsOrdered(w, h, s.sto, s.dirty, key);
    TickSound(w, h, s.sto, s.dirty, s.sto.clock + 1);
    GrowsExtends(s.sto, s'.sto);
    if s.tasks[id].parent.Some? {
      StampOf(w, h, s, s.tasks[id].parent.value);
    }
    StaysRooted(w, h, s, s', id);
    LocksMove(s, s', id);
    MoveTask(w, h, s, s', id, {});
  }

  /** What a check reads is in the history. */
  lemma StampOf(w: World, h: History, s: Sys, id: nat)
    requires AllTasks(w, h, s)
    ensures CheckOf(s, id) ==> s.tasks[id].pc.stamp <= s.sto.clock
  {
    hide Rooted, Serves, Occurs;
    if CheckOf(s, id) {
      TaskOf(w, h, s, id);
    }
  }

  lemma ReadOccurs(w: World, h: History, s: Sys, id: nat)
    requires Assumed(w, h) && Covers(w, h, s.sto.sources) && id in s.tasks && Rooted(w, h, s, id)
    ensures Occurs(w, h, s.tasks[id].Key(), Current(w, s.sto.sources, s.tasks[id].Key(), s.tasks[id].kp.srcMap),
                   s.tasks[id].kp.mp, map[])
  {
    hide ChainOk, ChainTo, Local, Imported, Covers, Acyclic, Finite;
    SplitAssumed(w, h);
    KnownReads(w, h, s.sto.sources, s.tasks[id].kp, s.tasks[id].pp);
  }

  lemma KeepRead(w: World, h: History, s: Sys, s': Sys, id: nat)
    requires id in s.tasks && s.tasks[id].pc.Checking? && s.tasks[id].pc.src.None?
    requires s' == SourceRead(w, s, id)
    requires Assumed(w, h) && Inv(w, h, s)
    ensures Inv(w, h, s')
  {
    hide Sound, LocksOk, ChainOk, ChainTo, Local, AllTasks, DepResult, Imported, Covers, Finite, Occurs, Assumed,
      Ordered, WasFound, Justified, ClearsOk;
    PartsOf(w, h, s);
    TaskOf(w, h, s, id);
    ReadOccurs(w, h, s, id);
    Childless(w, h, s, id);
    ExtendsSelf(s.sto);
    StaysRooted(w, h, s, s', id);
    assert OnTrack(s', id) == OnTrack(s, id);
    LocksMove(s, s', id);
    MoveTask(w, h, s, s', id, {});
  }

  // ---------------------------------------------------------------- publishing

  /** A result a check on track may publish is justified by the table. */
  lemma OutcomeJustified(w: World, h: History, s: Sys, id: nat, res: Result)
    requires OnTrack(s, id) && Tracked(w, h, s, id) && s.tasks[id].pc.src.Some?
    requires Outcome(w, s.tasks[id].Key(), s.tasks[id].pc.src.value, s.tasks[id].pc.used, res)
    ensures Justified(w, s.sto.states, s.tasks[id].Key(), s.tasks[id].pc.src.value, s.tasks[id].pc.found, res)
    ensures Rests(w, s.sto.states, s.tasks[id].Key(), s.tasks[id].pc.found)
  {
    hide DepResult, Occurs;
    var key, src := s.tasks[id].Key(), s.tasks[id].pc.src.value;
    var used, found := s.tasks[id].pc.used, s.tasks[id].pc.found;
    match w.parse(key, src)
    case ParseError(_) =>
    case Imports(paths) =>
      forall n: nat | n <= |paths| && AllGood(used, paths, n) ensures GoodUpTo(w, s.sto.states, key, found, paths, n) {
        forall i | 0 <= i < n
          ensures DepResult(w, s.sto.states, key, found, paths[i]) == Some(used[paths[i]]) && used[paths[i]].Package?
        {
          assert Good(used, paths[i]);
        }
      }
      if AllGood(used, paths, |paths|) {
        assert forall i | 0 <= i < |paths| :: Good(used, paths[i]);
        assert DepPkgs(w, s.sto.states, key, found, paths, |paths|) == PkgsOf(used, paths);
      }
      if i: nat :| i < |paths| && FailsAt(w, key, src, used, paths, i, res) {
        assert FailedAt(w, s.sto.states, key, src, found, paths, i, res);
      }
  }

  lemma FinishStore(w: World, h: History, s: Sys, s': Sys, id: nat, res: Result)
    requires id in s.tasks && s.tasks[id].pc.Checking? && s.tasks[id].pc.src.Some? && s.tasks[id].Key() in s.sto.states
    requires s' == Finished(s, id, res)
    requires Outcome(w, s.tasks[id].Key(), s.tasks[id].pc.src.value, s.tasks[id].pc.used, res)
    requires Assumed(w, h) && Inv(w, h, s)
    ensures Sound(w, h, s'.sto, s'.dirty) && Extends(s.sto, s'.sto)
    ensures forall k | k in s.sto.states && k != s.tasks[id].Key() :: s'.sto.states[k].chkAt == s.sto.states[k].chkAt
  {
    hide Sound, ChainOk, ChainTo, Local, AllTasks, DepResult, Justified, Assumed, LocksOk;
    var t := s.tasks[id];
    var key := t.Key();
    TaskOf(w, h, s, id);
    Position(w, h, s, id);
    if OnTrack(s, id) {
      OutcomeJustified(w, h, s, id, res);
      SeqImport.SourceSeen(w, h, s.sto.sources, t.kp, t.pp) by { SplitAssumed(w, h); }
    }
    PublishGrows(w, h, s.sto, s.dirty, key, res, t.kp.hash, t.pc.src.value, t.kp.mp, t.pc.found, t.pc.stamp);
    PublishSound(w, h, s.sto, s.dirty, key, res, t.kp.hash, t.pc.src.value, t.kp.mp, t.pc.found, t.pc.stamp);
  }

  lemma SplitAssumed(w: World, h: History)
    requires Assumed(w, h)
    ensures Acyclic(w, h) && SeeNothing(w)
  {
  }

  lemma KeepFinish(w: World, h: History, s: Sys, s': Sys, id: nat, res: Result)
    requires id in s.tasks && s.tasks[id].pc.Checking? && s.tasks[id].pc.src.Some? && s.tasks[id].Key() in s.sto.states
    requires s' == Finished(s, id, res)
    requires NoChildren(s, id) && Outcome(w, s.tasks[id].Key(), s.tasks[id].pc.src.value, s.tasks[id].pc.used, res)
    requires Assumed(w, h) && Inv(w, h, s)
    ensures Inv(w, h, s')
  {
    hide Sound, LocksOk, ChainOk, ChainTo, Local, AllTasks, DepResult, Assumed, Outcome, Imported, Finite, Covers,
      Ordered, Occurs, WasFound, Justified, ClearsOk;
    var key := s.tasks[id].Key();
    PartsOf(w, h, s);
    TaskOf(w, h, s, id);
    FinishStore(w, h, s, s', id, res);
    StaysRooted(w, h, s, s', id);
    if s.tasks[id].parent.Some? {
      ServedBy(w, h, s', id);
    }
    LocksMove(s, s', id);
    MoveTask(w, h, s, s', id, {key});
  }

  // ---------------------------------------------------------------- the environment

  lemma KeepEdit(w: World, h: History, s: Sys, dir: string, src: Source)
    requires Finite(w, s.sto.sources[dir := src]) && Covers(w, h, s.sto.sources[dir := src])
    requires Inv(w, h, s)
    ensures Inv(w, h, Edited(s, dir, src))
  {
    hide TaskInv, Sound, AllTasks, LocksOk, Finite, Covers, Ordered;
    var s' := Edited(s, dir, src);
    PartsOf(w, h, s);
    EditSound(w, h, s.sto, s.dirty, dir, src);
    SameLocks(s, s');
    ClearsStay(s, s');
    forall id | id in s'.tasks ensures TaskInv(w, h, s', id) {
      EditTask(w, h, s, dir, src, id);
    }
    EachTask(w, h, s');
  }

  lemma EachTask(w: World, h: History, s: Sys)
    requires forall id | id in s.tasks :: TaskInv(w, h, s, id)
    ensures AllTasks(w, h, s)
  {
    hide TaskInv;
  }

  lemma SameLocks(s: Sys, s': Sys)
    requires LocksOk(s) && s'.held == s.held && s'.tasks == s.tasks
    ensures LocksOk(s')
  {
  }

  lemma EditTask(w: World, h: History, s: Sys, dir: string, src: Source, id: nat)
    requires AllTasks(w, h, s) && id in s.tasks
    ensures TaskInv(w, h, Edited(s, dir, src), id)
  {
    hide ChainOk, ChainTo, Local, DepResult, Imported, AllTasks, Occurs;
    var s' := Edited(s, dir, src);
    TaskOf(w, h, s, id);
    assert OnTrack(s', id) == OnTrack(s, id);
    assert Rooted(w, h, s', id);
    if s.tasks[id].parent.Some? {
      assert OnTrack(s', s.tasks[id].parent.value) == OnTrack(s, s.tasks[id].parent.value);
    }
  }

  /** Drawing the stamp of a clearing changes nothing else. */
  lemma KeepAnnounce(w: World, h: History, s: Sys, s': Sys, dir: string)
    requires s' == s.(sto := s.sto.(clock := s.sto.clock + 1), clears := s.clears + {Clearing(dir, s.sto.clock + 1)})
    requires Inv(w, h, s)
    ensures Inv(w, h, s')
  {
    hide Sound, AllTasks, LocksOk, TaskInv, Finite, Covers, Ordered, Extends, Grows;
    PartsOf(w, h, s);
    TickSound(w, h, s.sto, s.dirty, s.sto.clock + 1);
    GrowsExtends(s.sto, s'.sto);
    SameLocks(s, s');
    forall id | id in s'.tasks ensures TaskInv(w, h, s', id) {
      TickTask(w, h, s, s', id);
    }
    EachTask(w, h, s');
  }

  lemma TickTask(w: World, h: History, s: Sys, s': Sys, id: nat)
    requires AllTasks(w, h, s) && id in s.tasks && s'.tasks == s.tasks && s'.held == s.held && s'.dirty == s.dirty
    requires s'.sto == s.sto.(clock := s'.sto.clock) && Extends(s.sto, s'.sto)
    ensures TaskInv(w, h, s', id)
  {
    hide ChainOk, ChainTo, Local, Imported, AllTasks, DepResult, Occurs, Serves;
    TaskOf(w, h, s, id);
    FrameTask(w, h, s, s', id);
  }

  // ---------------------------------------------------------------- the walk

  /** A check is on track after a walk if it was before and, where the walk reaches it, is newer. */
  lemma WalkOnTrack(s: Sys, c: Clearing, id: nat)
    requires InTurn(s, c) && id in s.tasks && s.tasks[id].Key() in s.sto.states
    ensures OnTrack(Walked(s, c), id)
       <==> && OnTrack(s, id)
            && (Hit(Imby(s.sto.states), StatesOf(s.sto, c.dir), s.tasks[id].Key()) ==> s.tasks[id].pc.stamp > c.stamp)
  {
    hide Hit, Orderly;
  }

  /** What a running check relies on survives the walk if and only if it loses nothing it used. */
  lemma WalkTracked(w: World, h: History, s: Sys, c: Clearing, id: nat)
    requires InTurn(s, c) && Ordered(h, s.sto) && c.stamp <= s.sto.clock
    requires id in s.tasks && s.tasks[id].pc.Checking? && s.tasks[id].Key() in s.sto.states && Tracked(w, h, s, id)
    ensures Tracked(w, h, Walked(s, c), id) <==> !UsesLost(w, s, c, id)
  {
    hide Hit, Stamped, DepResult, Lost, Occurs, Ordered, InTurn, OnTrack;
    var t, roots := s.tasks[id], StatesOf(s.sto, c.dir);
    var s', key := Walked(s, c), t.Key();
    WalkOnTrack(s, c, id);
    WalkTurn(s, c);
    WalkedAt(h, s.sto, roots, c.stamp, key);
    if OnTrack(s, id) {
      if t.pp.dir == c.dir {
        RootHit(Imby(s.sto.states), roots, key);
      }
      WalkUsed(w, s, c, key, t.pc.found, t.pc.used);
      forall ip | Lost(w, s.sto, roots, c.stamp, key, t.pc.found, ip) ensures Hit(Imby(s.sto.states), roots, key) {
        LostIsFound(w, s.sto, roots, c.stamp, key, t.pc.found, ip);
        DepAfterWalk(w, s.sto, roots, c.stamp, key, t.pc.found, ip);
      }
    }
    OnTrackChecks(s, id);
  }

  lemma OnTrackChecks(s: Sys, id: nat)
    ensures OnTrack(s, id) ==> id in s.tasks && s.tasks[id].pc.Checking? && s.tasks[id].Key() in s.sto.states
  {
  }

  lemma WalkTurn(s: Sys, c: Clearing)
    requires InTurn(s, c)
    ensures Orderly(s.sto, StatesOf(s.sto, c.dir), c.stamp)
  {
    hide Orderly, Hit;
  }

  /** The results that a check used are still in the table if and only if none is lost. */
  lemma WalkUsed(w: World, s: Sys, c: Clearing, key: Key, found: Found, used: map<string, Result>)
    requires key in s.sto.states && found.Keys == used.Keys
    requires forall ip | ip in used :: DepResult(w, s.sto.states, key, found, ip) == Some(used[ip])
    ensures (forall ip | ip in used :: DepResult(w, Walked(s, c).sto.states, key, found, ip) == Some(used[ip]))
       <==> forall ip :: !Lost(w, s.sto, StatesOf(s.sto, c.dir), c.stamp, key, found, ip)
  {
    hide Hit, Stamped, DepResult, Lost;
    var roots := StatesOf(s.sto, c.dir);
    forall ip | ip in used
      ensures DepResult(w, Walked(s, c).sto.states, key, found, ip)
              == if Lost(w, s.sto, roots, c.stamp, key, found, ip) then None else Some(used[ip])
    {
      DepAfterWalk(w, s.sto, roots, c.stamp, key, found, ip);
    }
    forall ip | Lost(w, s.sto, roots, c.stamp, key, found, ip) ensures ip in used {
      LostIsFound(w, s.sto, roots, c.stamp, key, found, ip);
    }
  }

  /** What a child brings survives the walk if and only if it is not lost to its parent: the parent is known as an
      importer, and a running child drew its stamp later. */
  lemma WalkServes(w: World, h: History, s: Sys, c: Clearing, id: nat)
    requires InTurn(s, c) && AllTasks(w, h, s) && id in s.tasks && Rooted(w, h, s, id) && Serves(w, s, id)
    ensures Serves(w, Walked(s, c), id) <==> !ServesLost(w, s, c, id)
  {
    hide ChainOk, ChainTo, Local, DepResult, Hit, AllTasks, Imported, Tracked, Stamped, Lost, InTurn, WasFound;
    var t, roots, g := s.tasks[id], StatesOf(s.sto, c.dir), Imby(s.sto.states);
    if t.parent.Some? {
      var p := t.parent.value;
      WalkOnTrack(s, c, p);
      WalkOnTrack(s, c, id);
      if Hit(g, roots, t.Key()) && !t.pc.Entering? {
        ImporterHit(g, roots, t.Key(), s.tasks[p].Key());
      }
      if t.pc.Done? && OnTrack(s, p) {
        DepAfterWalk(w, s.sto, roots, c.stamp, s.tasks[p].Key(), map["" := At(t.pp, [])], "");
      }
    }
  }

  /** A walk leaves a task alone if and only if it takes nothing from it. */
  lemma WalkTask(w: World, h: History, s: Sys, c: Clearing, id: nat)
    requires InTurn(s, c) && Ordered(h, s.sto) && c.stamp <= s.sto.clock && AllTasks(w, h, s) && id in s.tasks
    ensures TaskInv(w, h, Walked(s, c), id) <==> !UsesLost(w, s, c, id) && !ServesLost(w, s, c, id)
  {
    hide ChainOk, ChainTo, Local, DepResult, Hit, AllTasks, Imported, Tracked, Serves, Stamped, Ordered, Lost, InTurn,
      WasFound, OnTrack;
    TaskOf(w, h, s, id);
    OnTrackChecks(s, id);
    WalkServes(w, h, s, c, id);
    if s.tasks[id].pc.Checking? {
      WalkTracked(w, h, s, c, id);
    }
    SameButStamps(s.sto, StatesOf(s.sto, c.dir), c.stamp);
    assert Rooted(w, h, Walked(s, c), id);
  }

  lemma SameButStamps(sto: Store, roots: set<Key>, stamp: int)
    ensures forall k | k in sto.states :: Stamped(sto, roots, stamp).states[k].imby == sto.states[k].imby
  {
    hide Hit;
  }

  /** A walk that brings nothing back keeps the invariant if and only if it does not come too late. */
  lemma WalkKeepsIff(w: World, h: History, s: Sys, c: Clearing)
    requires Inv(w, h, s) && c in s.clears && InTurn(s, c)
    ensures Inv(w, h, Walked(s, c)) <==> !Overtakes(w, s, c)
  {
    hide Sound, AllTasks, LocksOk, TaskInv, Finite, Covers, Ordered, Stamped, InTurn, UsesLost, ServesLost, Overtaken;
    var s' := Walked(s, c);
    PartsOf(w, h, s);
    WalkTurn(s, c);
    WalkSound(w, h, s.sto, s.dirty, c.dir, c.stamp);
    SameLocks(s, s');
    forall id | id in s.tasks ensures TaskInv(w, h, s', id) <==> !UsesLost(w, s, c, id) && !ServesLost(w, s, c, id) {
      WalkTask(w, h, s, c, id);
    }
    TasksAll(w, h, s');
  }

  lemma TasksAll(w: World, h: History, s: Sys)
    ensures AllTasks(w, h, s) <==> forall id | id in s.tasks :: TaskInv(w, h, s, id)
  {
    hide TaskInv;
  }

  // ---------------------------------------------------------------- every run

  /** Every step keeps the invariant. */
  lemma KeepStep(w: World, h: History, s: Sys, step: Step)
    requires Assumed(w, h) && Inv(w, h, s) && Enabled(w, s, step) && Allowed(w, h, s, step)
    ensures Inv(w, h, Apply(w, s, step))
  {
    hide Inv, Finite, Covers, Assumed, MayImport, Outcome, Enlisted, Acquired, Reused, Drawn, SourceRead, Taken,
      Finished, Edited, Walked, InTurn, Overtakes, Local, Valid;
    var s' := Apply(w, s, step);
    match step
    case Begin(id, flags, srcMap, mp, pp) => KeepBegin(w, h, s, id, flags, srcMap, mp, pp);
    case Spawn(id, t, ip) => KeepSpawn(w, h, s, id, t, ip);
    case Resolve(t, ip) => KeepResolve(w, h, s, t, ip);
    case Enlist(id) => KeepEnlist(w, h, s, s', id);
    case Acquire(id) => KeepAcquire(w, h, s, s', id);
    case Reuse(id) => KeepReuse(w, h, s, s', id);
    case Draw(id) => KeepDraw(w, h, s, s', id);
    case ReadSource(id) => KeepRead(w, h, s, s', id);
    case Take(id) => KeepTake(w, h, s, s', id);
    case Finish(id, res) => KeepFinish(w, h, s, s', id, res);
    case Edit(dir, src) => KeepEdit(w, h, s, dir, src);
    case Announce(dir) => KeepAnnounce(w, h, s, s', dir);
    case Walk(c) => WalkKeepsIff(w, h, s, c);
  }

  lemma StartInv(w: World, h: History)
    requires Assumed(w, h)
    ensures Inv(w, h, Start)
  {
    hide Acyclic, Finite, Covers;
    SeqImport.EmptySound(w, h);
    assert Start.sto.sources == map[];
  }

  lemma {:induction false} ReachableInv(w: World, h: History, s: Sys, steps: seq<Step>)
    requires Assumed(w, h) && Reachable(w, h, s, steps)
    ensures Inv(w, h, s)
    decreases |steps|
  {
    hide Assumed, Enabled, Allowed, Apply;
    if steps != [] {
      var last := steps[|steps| - 1];
      var p :| Reachable(w, h, p, steps[..|steps| - 1]) && Next(w, h, p, last, s);
      ReachableInv(w, h, p, steps[..|steps| - 1]);
      KeepStep(w, h, p, last);
    } else {
      StartInv(w, h);
    }
  }
}
