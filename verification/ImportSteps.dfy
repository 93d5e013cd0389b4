/** The importer as a protocol: any number of imports, interleaved step by step, each holding the lock of
    its state from the validity test until it publishes. Clearing a directory takes two steps: its stamp is drawn, and
    some time later the states are walked. */
module ImportSteps {
  import opened Wrappers
  import opened ImportModel
  import opened ImportCache
  import opened Invalidation
  import opened TableSteps
  import SeqImport

  /** Where one activation of the importer stands. */
  datatype Pc =
    | Entering                            // the state is looked up
    | Waiting                             // registered, wants the lock
    | Held                                // has the lock
    | Checking(stamp: int, src: Option<Source>, used: map<string, Result>, found: Found, again: nat)
    | Done(res: Result)

  /** One activation: importing `pp`, found through `mod`, from the importer `kp`, on behalf of `parent` for its import
      `ip`. */
  datatype Task = Task(kp: Importer, pp: PkgPath, mod: ModPath, parent: Option<nat>, ip: string, pc: Pc) {
    function Key(): Key {
      StateKey(kp, pp)
    }
  }

  /** A directory is being cleared under a stamp, and its states have not been walked yet. */
  datatype Clearing = Clearing(dir: string, stamp: int)

  /** `dirty` holds the directories that changed since they were last cleared; `held` says who has which lock. */
  datatype Sys = Sys(sto: Store, dirty: Dirty, clears: set<Clearing>, tasks: map<nat, Task>, held: map<Key, nat>)

  datatype Step =
    | Begin(id: nat, flags: Flags, srcMap: Overlay, mp: ModPath, pp: PkgPath)
    | Spawn(id: nat, t: nat, ip: string)
    | Resolve(t: nat, ip: string)
    | Enlist(id: nat)
    | Acquire(id: nat)
    | Reuse(id: nat)
    | Draw(id: nat)
    | ReadSource(id: nat)
    | Take(id: nat)
    | Finish(id: nat, res: Result)
    | Edit(dir: string, src: Source)
    | Announce(dir: string)
    | Walk(c: Clearing)

  ghost predicate NoChildren(s: Sys, t: nat) {
    forall c | c in s.tasks :: s.tasks[c].parent != Some(t)
  }

  predicate Good(used: map<string, Result>, ip: string) {
    ip in used && used[ip].Package?
  }

  predicate AllGood(used: map<string, Result>, paths: seq<string>, n: nat)
    requires n <= |paths|
  {
    forall i | 0 <= i < n :: Good(used, paths[i])
  }

  function PkgsOf(used: map<string, Result>, paths: seq<string>): (pkgs: seq<Pkg>)
    requires AllGood(used, paths, |paths|)
  {
    seq(|paths|, i requires 0 <= i < |paths| => used[paths[i]].pkg)
  }

  /** What a check may publish, given the dependency results it holds. */
  ghost predicate Outcome(w: World, key: Key, src: Source, used: map<string, Result>, res: Result) {
    match w.parse(key, src)
    case ParseError(e) => res == Failed(e)
    case Imports(paths) =>
      || (AllGood(used, paths, |paths|) && res == w.typeCheck(key, src, PkgsOf(used, paths)))
      || exists i: nat :: i < |paths| && FailsAt(w, key, src, used, paths, i, res)
  }

  ghost predicate FailsAt(w: World, key: Key, src: Source, used: map<string, Result>, paths: seq<string>, i: nat,
                          res: Result)
    requires i < |paths|
  {
    && paths[i] in used && used[paths[i]].Failed?
    && res == Failed(w.wrap(key, src, paths[i], used[paths[i]].error))
    && (!w.concurrent ==> AllGood(used, paths, i))
  }

  ghost predicate Importing(s: Sys, t: nat, ip: string) {
    exists c :: c in s.tasks && s.tasks[c].parent == Some(t) && s.tasks[c].ip == ip
  }

  /** A check may import `ip` now: once, concurrently at any time and sequentially when its turn has come; and
      for the type checker, as often as that asks, when all dependencies are there. */
  ghost predicate MayImport(w: World, s: Sys, t: nat, ip: string) {
    && t in s.tasks && s.tasks[t].pc.Checking? && s.tasks[t].pc.src.Some?
    && var key, src, used := s.tasks[t].Key(), s.tasks[t].pc.src.value, s.tasks[t].pc.used;
    && w.parse(key, src).Imports?
    && var paths := w.parse(key, src).paths;
    && ip in paths
    && (|| (ip !in used && !Importing(s, t, ip) && (!w.concurrent ==> NoChildren(s, t) && ItsTurn(used, paths, ip)))
        || (AllGood(used, paths, |paths|) && NoChildren(s, t) && s.tasks[t].pc.again > 0))
  }

  /** Where an import of a task leads now. */
  function LookedUp(w: World, s: Sys, t: nat, ip: string): Lookup
    requires t in s.tasks
  {
    w.find(s.sto.sources, s.tasks[t].kp.mp, s.tasks[t].pp, ip)
  }

  ghost predicate ItsTurn(used: map<string, Result>, paths: seq<string>, ip: string) {
    exists i: nat :: i < |paths| && ip == paths[i] && AllGood(used, paths, i)
  }

  ghost predicate Enabled(w: World, s: Sys, step: Step) {
    match step
    case Begin(id, flags, srcMap, mp, pp) => id !in s.tasks && pp.dir in w.dirs && Local(w, srcMap, pp.dir)
    case Spawn(id, t, ip) => id !in s.tasks && MayImport(w, s, t, ip) && LookedUp(w, s, t, ip).At?
    case Resolve(t, ip) => MayImport(w, s, t, ip) && !LookedUp(w, s, t, ip).At?
    case Enlist(id) => id in s.tasks && s.tasks[id].pc.Entering? && s.tasks[id].Key() in s.sto.states
    case Acquire(id) => id in s.tasks && s.tasks[id].pc.Waiting? && s.tasks[id].Key() !in s.held
    case Reuse(id) =>
      && id in s.tasks && s.tasks[id].pc.Held? && s.tasks[id].Key() in s.sto.states
      && Valid(s.sto.states[s.tasks[id].Key()], s.tasks[id].Key(), s.tasks[id].kp.hash)
    case Draw(id) =>
      && id in s.tasks && s.tasks[id].pc.Held? && s.tasks[id].Key() in s.sto.states
      && !Valid(s.sto.states[s.tasks[id].Key()], s.tasks[id].Key(), s.tasks[id].kp.hash)
    case ReadSource(id) => id in s.tasks && s.tasks[id].pc.Checking? && s.tasks[id].pc.src.None?
    case Take(id) =>
      && id in s.tasks && s.tasks[id].pc.Done? && s.tasks[id].parent.Some?
      && s.tasks[id].parent.value in s.tasks && s.tasks[s.tasks[id].parent.value].pc.Checking?
    case Finish(id, res) =>
      && id in s.tasks && s.tasks[id].pc.Checking? && s.tasks[id].pc.src.Some? && NoChildren(s, id)
      && s.tasks[id].Key() in s.sto.states
      && Outcome(w, s.tasks[id].Key(), s.tasks[id].pc.src.value, s.tasks[id].pc.used, res)
    case Edit(_, _) => true
    case Announce(_) => true
    case Walk(c) => c in s.clears
  }

  function SetPc(s: Sys, id: nat, pc: Pc): Sys
    requires id in s.tasks
  {
    s.(tasks := s.tasks[id := s.tasks[id].(pc := pc)])
  }

  /** The import `ip` led to `l` and gave `res`. */
  function Use(pc: Pc, ip: string, l: Lookup, res: Result): Pc
    requires pc.Checking?
  {
    pc.(used := pc.used[ip := res], found := pc.found[ip := l])
  }

  /** The type checker has asked for `ip` once more. */
  function Asked(s: Sys, t: nat, ip: string): Sys
    requires t in s.tasks && s.tasks[t].pc.Checking?
  {
    var pc := s.tasks[t].pc;
    if ip in pc.used then SetPc(s, t, pc.(again := if pc.again > 0 then pc.again - 1 else 0)) else s
  }

  /** The importing state is registered with the imported one before its lock is asked for. */
  function Enlisted(s: Sys, id: nat): Sys
    requires id in s.tasks && s.tasks[id].Key() in s.sto.states
  {
    var t := s.tasks[id];
    var sto := if t.kp.ks.Some? then Register(s.sto, t.Key(), t.kp.ks.value) else s.sto;
    SetPc(s.(sto := sto), id, Waiting)
  }

  function Acquired(s: Sys, id: nat): Sys
    requires id in s.tasks
  {
    SetPc(s.(held := s.held[s.tasks[id].Key() := id]), id, Held)
  }

  /** The state was valid: its result is returned and the lock released. */
  function Reused(s: Sys, id: nat): Sys
    requires id in s.tasks && s.tasks[id].Key() in s.sto.states
  {
    var key := s.tasks[id].Key();
    SetPc(s.(held := s.held - {key}), id, Done(s.sto.states[key].res))
  }

  /** A check begins by drawing its stamp. */
  function Drawn(s: Sys, id: nat): Sys
    requires id in s.tasks
  {
    SetPc(s.(sto := s.sto.(clock := s.sto.clock + 1)), id, Checking(s.sto.clock + 1, None, map[], map[], 0))
  }

  function SourceRead(w: World, s: Sys, id: nat): Sys
    requires id in s.tasks && s.tasks[id].pc.Checking?
  {
    var t := s.tasks[id];
    var src := Current(w, s.sto.sources, t.Key(), t.kp.srcMap);
    SetPc(s, id, t.pc.(src := Some(src), again := w.again(t.Key(), src)))
  }

  /** A parent takes the result of a child that is done. */
  function Taken(s: Sys, id: nat): Sys
    requires id in s.tasks && s.tasks[id].pc.Done? && s.tasks[id].parent.Some?
    requires s.tasks[id].parent.value in s.tasks && s.tasks[s.tasks[id].parent.value].pc.Checking?
  {
    var t := s.tasks[id].parent.value;
    var s' := SetPc(s, t, Use(s.tasks[t].pc, s.tasks[id].ip, At(s.tasks[id].pp, s.tasks[id].mod), s.tasks[id].pc.res));
    s'.(tasks := s'.tasks - {id})
  }

  /** A check publishes its result under the stamp it drew, and releases the lock. */
  function Finished(s: Sys, id: nat, res: Result): Sys
    requires id in s.tasks && s.tasks[id].pc.Checking? && s.tasks[id].pc.src.Some? && s.tasks[id].Key() in s.sto.states
  {
    var t := s.tasks[id];
    var sto := Publish(s.sto, t.Key(), res, t.kp.hash, t.pc.src.value, t.kp.mp, t.pc.found, t.pc.stamp);
    SetPc(s.(sto := sto, held := s.held - {t.Key()}), id, Done(res))
  }

  ghost function Apply(w: World, s: Sys, step: Step): Sys
    requires Enabled(w, s, step)
  {
    match step
    case Begin(id, flags, srcMap, mp, pp) =>
      var kp := New(flags, srcMap, mp);
      s.(sto := Touch(s.sto, StateKey(kp, pp)), tasks := s.tasks[id := Task(kp, pp, mp, None, "", Entering)])
    case Spawn(id, t, ip) =>
      var l := LookedUp(w, s, t, ip);
      var kx := Toward(Branch(w, s.tasks[t].kp, s.tasks[t].Key()), l.mod);
      var cycle := DetectCycle(kx, l.pp);
      var s1 := Asked(s, t, ip);
      if cycle.Some? then SetPc(s1, t, Use(s1.tasks[t].pc, ip, l, Failed(cycle.value))) else
        s1.(sto := Touch(s.sto, StateKey(kx, l.pp)),
            tasks := s1.tasks[id := Task(kx, l.pp, l.mod, Some(t), ip, Entering)])
    case Resolve(t, ip) =>
      var l := LookedUp(w, s, t, ip);
      var s1 := Asked(s, t, ip);
      SetPc(s1, t, Use(s1.tasks[t].pc, ip, l, Direct(l)))
    case Enlist(id) => Enlisted(s, id)
    case Acquire(id) => Acquired(s, id)
    case Reuse(id) => Reused(s, id)
    case Draw(id) => Drawn(s, id)
    case ReadSource(id) => SourceRead(w, s, id)
    case Take(id) => Taken(s, id)
    case Finish(id, res) => Finished(s, id, res)
    case Edit(dir, src) => Edited(s, dir, src)
    case Announce(dir) =>
      var stamp := s.sto.clock + 1;
      s.(sto := s.sto.(clock := stamp), clears := s.clears + {Clearing(dir, stamp)})
    case Walk(c) => Walked(s, c)
  }

  function Edited(s: Sys, dir: string, src: Source): Sys {
    s.(sto := s.sto.(sources := s.sto.sources[dir := src]), dirty := s.dirty[dir := s.sto.clock])
  }

  /** The walk stamps everything that rests on the directory, and the directory is clean unless it changed again. */
  ghost function Walked(s: Sys, c: Clearing): Sys {
    s.(sto := Stamped(s.sto, StatesOf(s.sto, c.dir), c.stamp), dirty := Cleaned(s.dirty, c.dir, c.stamp),
       clears := s.clears - {c})
  }

  const Start := Sys(Store(0, map[], map[]), map[], {}, map[], map[])

  /** What a lookup that leads to no directory gives. */
  function Direct(l: Lookup): Result {
    match l
    case Fake(pkg) => Package(pkg)
    case Missing(e) => Failed(e)
    case At(_, _) => Failed(Other(""))
  }

  /** The step stays within the history: an import from scratch that it has, a change that it covers. */
  ghost predicate Allowed(w: World, h: History, s: Sys, step: Step) {
    match step
    case Begin(_, flags, srcMap, mp, pp) => h.roots(StateKey(New(flags, srcMap, mp), pp), srcMap, mp)
    case Edit(dir, src) => Finite(w, s.sto.sources[dir := src]) && Covers(w, h, s.sto.sources[dir := src])
    case Walk(c) => InTurn(s, c) && !Overtakes(w, s, c)
    case _ => true
  }

  /** The walk brings nothing back that a later one has invalidated: what is newer than its stamp and is reached counts
      already. */
  ghost predicate InTurn(s: Sys, c: Clearing) {
    && Orderly(s.sto, StatesOf(s.sto, c.dir), c.stamp)
    && forall id | id in s.tasks && s.tasks[id].pc.Checking? && s.tasks[id].Key() in s.sto.states ::
         Hit(Imby(s.sto.states), StatesOf(s.sto, c.dir), s.tasks[id].Key()) && s.tasks[id].pc.stamp > c.stamp ==>
             OnTrack(s, id)
  }

  /** The walk comes too late: a check drew its stamp after that of the walk, and used a state that has not been
      walked and is no newer. The check may be over, still running, or about to take the result. */
  ghost predicate Overtakes(w: World, s: Sys, c: Clearing) {
    || Overtaken(w, s.sto, StatesOf(s.sto, c.dir), c.stamp)
    || exists id :: id in s.tasks && (UsesLost(w, s, c, id) || ServesLost(w, s, c, id))
  }

  ghost predicate UsesLost(w: World, s: Sys, c: Clearing, id: nat)
    requires id in s.tasks
  {
    var t := s.tasks[id];
    && OnTrack(s, id) && t.pc.stamp > c.stamp
    && exists ip :: Lost(w, s.sto, StatesOf(s.sto, c.dir), c.stamp, t.Key(), t.pc.found, ip)
  }

  ghost predicate ServesLost(w: World, s: Sys, c: Clearing, id: nat)
    requires id in s.tasks
  {
    var t := s.tasks[id];
    && t.pc.Done? && t.parent.Some? && OnTrack(s, t.parent.value) && s.tasks[t.parent.value].pc.stamp > c.stamp
    && Lost(w, s.sto, StatesOf(s.sto, c.dir), c.stamp, s.tasks[t.parent.value].Key(), map["" := At(t.pp, [])], "")
  }

  ghost predicate Next(w: World, h: History, s: Sys, step: Step, s': Sys) {
    Enabled(w, s, step) && Allowed(w, h, s, step) && s' == Apply(w, s, step)
  }

  ghost predicate Reachable(w: World, h: History, s: Sys, steps: seq<Step>)
    decreases |steps|, 0
  {
    if steps == [] then s == Start else ReachedBy(w, h, s, steps[..|steps| - 1], steps[|steps| - 1])
  }

  ghost predicate ReachedBy(w: World, h: History, s: Sys, init: seq<Step>, last: Step)
    decreases |init|, 1
  {
    exists p :: Reachable(w, h, p, init) && Next(w, h, p, last, s)
  }

  // ---------------------------------------------------------------- the invariant

  /** The state a check works on has not been invalidated since the check drew its stamp. */
  ghost predicate OnTrack(s: Sys, id: nat) {
    && id in s.tasks && s.tasks[id].pc.Checking?
    && s.tasks[id].Key() in s.sto.states
    && s.tasks[id].pc.stamp > s.sto.states[s.tasks[id].Key()].invAt
  }

  /** Where a task comes from: its chain can arise, and its parent is in the middle of a check that imports it. */
  ghost predicate Rooted(w: World, h: History, s: Sys, id: nat)
    requires id in s.tasks
  {
    var t := s.tasks[id];
    && ChainOk(w, t.kp) && t.pp.dir in w.dirs && ChainTo(w, h, t.kp, t.pp)
    && t.Key() in s.sto.states
    && match t.parent
       case None =>
         && t.kp == New(t.kp.flags, t.kp.srcMap, t.kp.mp) && Local(w, t.kp.srcMap, t.pp.dir)
         && h.roots(t.Key(), t.kp.srcMap, t.kp.mp)
       case Some(p) =>
         && p in s.tasks && s.tasks[p].pc.Checking? && s.tasks[p].pc.src.Some?
         && t.kp == Toward(Branch(w, s.tasks[p].kp, s.tasks[p].Key()), t.mod)
         && Imported(w, h, s.tasks[p].Key(), s.tasks[p].pc.src.value, s.tasks[p].kp.mp, t.ip, t.pp, t.mod)
         && WasFound(w, s.tasks[p].kp.mp, s.tasks[p].pp, t.ip, At(t.pp, t.mod))
         && (t.pc.Checking? ==> t.pc.stamp > s.tasks[p].pc.stamp)
         && s.tasks[p].Key() in s.sto.states
         && (!t.pc.Entering? ==> s.tasks[p].Key() in s.sto.states[t.Key()].imby)
  }

  predicate Holds(pc: Pc) {
    pc.Held? || pc.Checking?
  }

  /** A check that is on track read the current source, and everything it used is registered, still
      settled and unchanged. */
  ghost predicate Tracked(w: World, h: History, s: Sys, id: nat)
    requires id in s.tasks && s.tasks[id].pc.Checking? && s.tasks[id].Key() in s.sto.states
  {
    var t := s.tasks[id];
    var key := t.Key();
    && t.pc.stamp <= s.sto.clock
    && (key.noHash ==> !Settled(s.sto.states[key]))
    && t.pc.found.Keys == t.pc.used.Keys
    && (if t.pc.src.None? then t.pc.used == map[] else Occurs(w, h, key, t.pc.src.value, t.kp.mp, t.pc.found))
    && (OnTrack(s, id) ==>
          && (t.pc.src.Some? && ReadSince(s.dirty, t.pp.dir, t.pc.stamp) ==>
              t.pc.src.value == Current(w, s.sto.sources, key, t.kp.srcMap))
          && (forall ip | ip in t.pc.used :: DepResult(w, s.sto.states, key, t.pc.found, ip) == Some(t.pc.used[ip])))
  }

  /** What the table gives `key` for a dependency found at `d`. */
  function DepAt(w: World, states: map<Key, St>, key: Key, d: PkgPath): Option<Result> {
    DepResult(w, states, key, map["" := At(d, [])], "")
  }

  /** While its parent is on track, so is a child; and the result it ends with is in the table. */
  ghost predicate Serves(w: World, s: Sys, id: nat)
    requires id in s.tasks
  {
    var t := s.tasks[id];
    t.parent.Some? && OnTrack(s, t.parent.value) ==>
      && (t.pc.Checking? ==> OnTrack(s, id))
      && (t.pc.Done? ==> DepAt(w, s.sto.states, s.tasks[t.parent.value].Key(), t.pp) == Some(t.pc.res))
  }

  ghost predicate TaskInv(w: World, h: History, s: Sys, id: nat)
    requires id in s.tasks
  {
    && Rooted(w, h, s, id)
    && (Holds(s.tasks[id].pc) ==> s.tasks[id].Key() in s.held && s.held[s.tasks[id].Key()] == id)
    && (s.tasks[id].pc.Checking? ==> Tracked(w, h, s, id))
    && Serves(w, s, id)
  }

  ghost predicate LocksOk(s: Sys) {
    forall k | k in s.held ::
      s.held[k] in s.tasks && s.tasks[s.held[k]].Key() == k && Holds(s.tasks[s.held[k]].pc)
  }

  ghost predicate Inv(w: World, h: History, s: Sys) {
    && Finite(w, s.sto.sources) && Covers(w, h, s.sto.sources)
    && Sound(w, h, s.sto, s.dirty) && ClearsOk(s)
    && LocksOk(s)
    && AllTasks(w, h, s)
  }

  /** Stamps come from the clock. */
  ghost predicate ClearsOk(s: Sys) {
    forall c | c in s.clears :: c.stamp <= s.sto.clock
  }

  ghost predicate AllTasks(w: World, h: History, s: Sys) {
    forall id | id in s.tasks :: TaskInv(w, h, s, id)
  }

  // ---------------------------------------------------------------- frames

  /** The table grew: nothing settled and shared changed, no stamp of invalidation moved. */
  ghost predicate Extends(sto: Store, sto': Store) {
    && sto'.sources == sto.sources && sto.clock <= sto'.clock
    && sto.states.Keys <= sto'.states.Keys
    && (forall k | k in sto.states ::
          && sto'.states[k].invAt == sto.states[k].invAt
          && (forall p | p in sto.states[k].imby :: p in sto'.states[k].imby)
          && (k.noHash ==> Kept(sto.states[k], sto'.states[k])))
  }

  /** The task is still in the same check. */
  ghost predicate SameCheck(s: Sys, s': Sys, p: nat) {
    && p in s.tasks && p in s'.tasks
    && s'.tasks[p].kp == s.tasks[p].kp && s'.tasks[p].pp == s.tasks[p].pp
    && s.tasks[p].pc.Checking? && s'.tasks[p].pc.Checking?
    && s'.tasks[p].pc.stamp == s.tasks[p].pc.stamp && s'.tasks[p].pc.src == s.tasks[p].pc.src
  }

  lemma DepResultExtends(w: World, sto: Store, sto': Store, key: Key, found: Found, ip: string)
    requires Extends(sto, sto') && DepResult(w, sto.states, key, found, ip).Some?
    ensures DepResult(w, sto'.states, key, found, ip) == DepResult(w, sto.states, key, found, ip)
  {
    DepResultKept(w, sto.states, sto'.states, key, found, ip);
  }

  /** A task that does not move keeps its part of the invariant while the table grows. */
  lemma FrameTask(w: World, h: History, s: Sys, s': Sys, id: nat)
    requires id in s.tasks && TaskInv(w, h, s, id)
    requires id in s'.tasks && s'.tasks[id] == s.tasks[id]
    requires Extends(s.sto, s'.sto) && s'.dirty == s.dirty
    requires s.tasks[id].parent.Some? ==> SameCheck(s, s', s.tasks[id].parent.value)
    requires Holds(s.tasks[id].pc) ==> s.tasks[id].Key() in s'.held && s'.held[s.tasks[id].Key()] == id
    requires s.tasks[id].pc.Checking? && s.tasks[id].Key().noHash ==> !Settled(s'.sto.states[s.tasks[id].Key()])
    ensures TaskInv(w, h, s', id)
  {
    hide ChainOk, ChainTo, Local, DepResult, Kept;
    var t := s.tasks[id];
    forall key, found, ip | DepResult(w, s.sto.states, key, found, ip).Some?
      ensures DepResult(w, s'.sto.states, key, found, ip) == DepResult(w, s.sto.states, key, found, ip)
    {
      DepResultExtends(w, s.sto, s'.sto, key, found, ip);
    }
    assert OnTrack(s', id) == OnTrack(s, id);
    if t.parent.Some? {
      assert OnTrack(s', t.parent.value) == OnTrack(s, t.parent.value);
    }
  }

  lemma ExtendsSelf(sto: Store)
    ensures Extends(sto, sto)
  {
  }

  lemma GrowsExtends(sto: Store, sto': Store)
    requires Grows(sto, sto')
    ensures Extends(sto, sto')
  {
    forall k | k in sto.states ensures Kept(sto.states[k], sto'.states[k]) { }
  }
}
