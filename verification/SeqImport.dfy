/** The cached importer with sequential dependencies, as a function on the state table. It ends on every
    finite import graph, and on acyclic ones what it returns equals a full re-check. */
module SeqImport {
  import opened Wrappers
  import opened ImportModel
  import opened ImportCache
  import opened Invalidation
  import opened TableSteps
  import opened ImportExact

  datatype Out = Out(sto: Store, res: Result)

  /** A check also records where the imports it followed led. */
  datatype Checked = Checked(sto: Store, res: Result, found: Found)

  /** Looks the state up and registers the importing state with it. */
  function Enter(sto: Store, kp: Importer, key: Key): (r: Store)
    ensures r.states.Keys == sto.states.Keys + {key}
    ensures r.sources == sto.sources
  {
    var sto1 := Touch(sto, key);
    if kp.ks.Some? then Register(sto1, key, kp.ks.value) else sto1
  }

  function Import(w: World, sto: Store, kp: Importer, pp: PkgPath): (o: Out)
    requires Finite(w, sto.sources) && ChainOk(w, kp) && pp.dir in w.dirs
    ensures sto.states.Keys <= o.sto.states.Keys && o.sto.sources == sto.sources
    decreases Room(w, kp), 0, 0
  {
    var cycle := DetectCycle(kp, pp);
    if cycle.Some? then Out(sto, Failed(cycle.value)) else
      BranchChain(w, kp, pp);
      var key := StateKey(kp, pp);
      var sto1 := Enter(sto, kp, key);
      if Valid(sto1.states[key], key, kp.hash) then Out(sto1, sto1.states[key].res) else
        var stamp := sto1.clock + 1;
        var src := Current(w, sto1.sources, key, kp.srcMap);
        var o := Check(w, sto1.(clock := stamp), Branch(w, kp, key), key, src);
        Out(Publish(o.sto, key, o.res, kp.hash, src, kp.mp, o.found, stamp), o.res)
  }

  function Check(w: World, sto: Store, kx: Importer, key: Key, src: Source): (o: Checked)
    requires Finite(w, sto.sources) && ChainOk(w, kx)
    ensures sto.states.Keys <= o.sto.states.Keys && o.sto.sources == sto.sources
    decreases Room(w, kx), 2, 0
  {
    match w.parse(key, src)
    case ParseError(e) => Checked(sto, Failed(e), map[])
    case Imports(paths) => ImportDeps(w, sto, kx, key, src, paths, 0, [], map[])
  }

  /** Imports the dependencies in order, up to the first that fails, then type-checks. */
  function ImportDeps(w: World, sto: Store, kx: Importer, key: Key, src: Source,
                      paths: seq<string>, i: nat, pkgs: seq<Pkg>, found: Found): (o: Checked)
    requires Finite(w, sto.sources) && ChainOk(w, kx) && i <= |paths|
    ensures sto.states.Keys <= o.sto.states.Keys && o.sto.sources == sto.sources
    decreases Room(w, kx), 1, |paths| - i
  {
    if i == |paths| then Checked(sto, w.typeCheck(key, src, pkgs), found) else
      var found' := found[paths[i] := w.find(sto.sources, kx.mp, key.pp, paths[i])];
      var o := ImportPackage(w, sto, kx, key.pp, paths[i]);
      match o.res
      case Package(p) => ImportDeps(w, o.sto, kx, key, src, paths, i + 1, pkgs + [p], found')
      case Failed(e) => Checked(o.sto, Failed(w.wrap(key, src, paths[i], e)), found')
  }

  function ImportPackage(w: World, sto: Store, kx: Importer, p: PkgPath, ip: string): (o: Out)
    requires Finite(w, sto.sources) && ChainOk(w, kx)
    ensures sto.states.Keys <= o.sto.states.Keys && o.sto.sources == sto.sources
    decreases Room(w, kx), 0, 1
  {
    match w.find(sto.sources, kx.mp, p, ip)
    case Fake(pkg) => Out(sto, Package(pkg))
    case Missing(e) => Out(sto, Failed(e))
    case At(d, mod) =>
      SameChain(w, kx, Toward(kx, mod));
      Import(w, sto, Toward(kx, mod), d)
  }

  // ---------------------------------------------------------------- what an import leaves alone

  /** Only states that rank below `n` are checked again. */
  ghost predicate Below(h: History, sto: Store, sto': Store, n: nat) {
    forall k | k in sto.states && h.rank(k.pp) >= n :: k in sto'.states && sto'.states[k].chkAt == sto.states[k].chkAt
  }

  /** What is settled afterwards was settled before with the same lookups; or `at` led to it, and its imports lead there
      now. */
  ghost predicate NewResolved(w: World, h: History, sto: Store, sto': Store, at: Spot) {
    forall k | k in sto'.states && Settled(sto'.states[k]) ::
      || (k in sto.states && Settled(sto.states[k]) && SameLookups(sto.states[k], sto'.states[k]))
      || (From(w, h, at, Spot(k.pp, sto'.states[k].mp))
          && Resolved(w, sto'.sources, k, sto'.states[k].mp, sto'.states[k].found))
  }

  predicate SameLookups(st: St, st': St) {
    st'.mp == st.mp && st'.found == st.found
  }

  /** One sound table grew into another, and only states that rank below `n` were checked again. */
  ghost predicate Advances(w: World, h: History, sto: Store, sto': Store, n: nat, at: Spot) {
    && Sound(w, h, sto', map[]) && Grows(sto, sto') && Below(h, sto, sto', n)
    && NewResolved(w, h, sto, sto', at)
  }

  lemma AdvancesSelf(w: World, h: History, sto: Store, n: nat, at: Spot)
    requires Sound(w, h, sto, map[])
    ensures Advances(w, h, sto, sto, n, at)
  {
    hide Sound;
  }

  lemma AdvancesTwice(w: World, h: History, a: Store, b: Store, c: Store, m: nat, n: nat, at: Spot)
    requires Advances(w, h, a, b, m, at) && Advances(w, h, b, c, n, at) && m <= n
    ensures Advances(w, h, a, c, n, at)
  {
    hide Sound, Resolved;
    GrowsTwice(a, b, c);
  }

  lemma AdvancesWider(w: World, h: History, a: Store, b: Store, m: nat, n: nat, at: Spot)
    requires Advances(w, h, a, b, m, at) && m <= n
    ensures Advances(w, h, a, b, n, at)
  {
    hide Sound, Resolved;
  }

  lemma AdvancesFrom(w: World, h: History, a: Store, b: Store, n: nat, at: Spot, at': Spot)
    requires Advances(w, h, a, b, n, at) && From(w, h, at', at)
    ensures Advances(w, h, a, b, n, at')
  {
    hide Sound, Resolved, From;
    forall k | k in b.states && From(w, h, at, Spot(k.pp, b.states[k].mp))
      ensures From(w, h, at', Spot(k.pp, b.states[k].mp))
    {
      FromJoin(w, h, at', at, Spot(k.pp, b.states[k].mp));
    }
  }

  lemma AdvancesBasics(w: World, h: History, a: Store, b: Store, n: nat, at: Spot)
    requires Advances(w, h, a, b, n, at)
    ensures Sound(w, h, b, map[]) && a.clock <= b.clock && a.sources == b.sources && a.states.Keys <= b.states.Keys
    ensures forall k, p | k in a.states && p in a.states[k].imby :: p in b.states[k].imby
    ensures NewResolved(w, h, a, b, at)
  {
    hide Sound, Resolved;
    forall k, p | k in a.states && p in a.states[k].imby ensures p in b.states[k].imby {
      assert Kept(a.states[k], b.states[k]);
    }
  }

  lemma EnterSound(w: World, h: History, sto: Store, kp: Importer, key: Key, at: Spot)
    requires Sound(w, h, sto, map[])
    requires kp.ks.Some? ==> kp.ks.value in sto.states && key.noHash && h.rank(key.pp) < h.rank(kp.ks.value.pp)
    ensures Advances(w, h, sto, Enter(sto, kp, key), 0, at)
    ensures kp.ks.Some? ==> kp.ks.value in Enter(sto, kp, key).states[key].imby
  {
    hide Sound, Grows, Resolved;
    TouchSound(w, h, sto, map[], key);
    if kp.ks.Some? {
      var sto1 := Touch(sto, key);
      RegisterSound(w, h, sto1, map[], key, kp.ks.value);
      GrowsTwice(sto, sto1, Register(sto1, key, kp.ks.value));
    }
  }

  lemma GoodKept(w: World, h: History, sto: Store, sto': Store, n: nat, at: Spot, key: Key, found: Found,
                 paths: seq<string>, i: nat)
    requires Advances(w, h, sto, sto', n, at)
    requires i <= |paths| && GoodUpTo(w, sto.states, key, found, paths, i)
    ensures GoodUpTo(w, sto'.states, key, found, paths, i)
    ensures DepPkgs(w, sto'.states, key, found, paths, i) == DepPkgs(w, sto.states, key, found, paths, i)
  {
    hide Sound, Resolved;
    forall j | 0 <= j < i
      ensures DepResult(w, sto'.states, key, found, paths[j]) == DepResult(w, sto.states, key, found, paths[j])
    {
      DepResultKept(w, sto.states, sto'.states, key, found, paths[j]);
    }
  }

  /** One more dependency that the table has. */
  lemma RestsNext(w: World, h: History, sto: Store, sto': Store, n: nat, at: Spot, key: Key, found: Found, ip: string,
                  l: Lookup)
    requires Advances(w, h, sto, sto', n, at) && Rests(w, sto.states, key, found)
    requires forall x | x in found ::
               DepResult(w, sto.states, key, found[ip := l], x) == DepResult(w, sto.states, key, found, x)
    requires DepResult(w, sto'.states, key, found[ip := l], ip).Some?
    ensures Rests(w, sto'.states, key, found[ip := l])
  {
    hide Sound, Resolved, DepResult;
    forall x | x in found ensures DepResult(w, sto'.states, key, found[ip := l], x).Some? {
      DepResultKept(w, sto.states, sto'.states, key, found[ip := l], x);
    }
  }

  // ---------------------------------------------------------------- soundness of an import

  /** The hypotheses under which importing `pp` from `kp` agrees with a re-check. */
  ghost predicate Fits(w: World, h: History, sto: Store, kp: Importer, pp: PkgPath) {
    && Acyclic(w, h) && Finite(w, sto.sources) && Covers(w, h, sto.sources) && SeeNothing(w)
    && ChainOk(w, kp) && pp.dir in w.dirs && ChainTo(w, h, kp, pp) && Known(w, h, kp, pp)
    && (kp.ks.None? ==> kp.par.None? && Local(w, kp.srcMap, pp.dir) && kp.hash == kp.srcMap)
    && (kp.ks.Some? ==> kp.hash == map[] && kp.ks.value in sto.states && h.rank(pp) < h.rank(kp.ks.value.pp))
    && Sound(w, h, sto, map[])
  }

  /** The stamp drawn for a check is newer than any invalidation, and nothing it imports checks the
      state itself meanwhile. */
  lemma DrawnStamp(w: World, h: History, sto: Store, sto': Store, key: Key, hash: Overlay, at: Spot)
    requires Ordered(h, sto) && key in sto.states && !Valid(sto.states[key], key, hash)
    requires Advances(w, h, sto, sto', h.rank(key.pp), at)
    ensures key in sto'.states && sto'.states[key].invAt <= sto.clock
    ensures key.noHash ==> !Settled(sto'.states[key])
  {
    hide Sound, Resolved;
    assert OrderedAt(h, sto, key);
    assert Kept(sto.states[key], sto'.states[key]);
  }

  /** The source a check reads depends on the unsaved files only through the hash under which it is stored. */
  lemma SourceSeen(w: World, h: History, srcs: Sources, kp: Importer, pp: PkgPath)
    requires ChainTo(w, h, kp, pp) && Acyclic(w, h) && SeeNothing(w)
    requires kp.ks.None? ==> kp.par.None? && kp.hash == kp.srcMap
    requires kp.ks.Some? ==> kp.hash == map[]
    ensures Current(w, srcs, StateKey(kp, pp), kp.srcMap) == Current(w, srcs, StateKey(kp, pp), kp.hash)
  {
    ChainToIsClear(w, h, kp, pp);
  }

  /** What the lookups of a check in progress say: they are those of now, made in the history. */
  ghost predicate Following(w: World, h: History, srcs: Sources, key: Key, src: Source, mp: ModPath, found: Found) {
    Occurs(w, h, key, src, mp, found) && Resolved(w, srcs, key, mp, found)
  }

  lemma FollowNone(w: World, h: History, srcs: Sources, key: Key, src: Source, mp: ModPath)
    requires h.texts(key, src, mp)
    ensures Following(w, h, srcs, key, src, mp, map[])
  {
  }

  lemma FollowText(w: World, h: History, srcs: Sources, key: Key, src: Source, mp: ModPath, found: Found)
    requires Following(w, h, srcs, key, src, mp, found)
    ensures h.texts(key, src, mp)
  {
  }

  lemma FollowNext(w: World, h: History, srcs: Sources, key: Key, src: Source, mp: ModPath, found: Found, ip: string)
    requires Following(w, h, srcs, key, src, mp, found) && Covers(w, h, srcs)
    requires w.parse(key, src).Imports? && ip in w.parse(key, src).paths
    ensures Following(w, h, srcs, key, src, mp, found[ip := w.find(srcs, mp, key.pp, ip)])
  {
    FoundNow(w, srcs, mp, key.pp, ip);
    if w.find(srcs, mp, key.pp, ip).At? {
      CoversFind(w, h, srcs, key, src, mp, ip);
    }
  }

  /** `sto` has become `r` by an import: its state is settled with the result and knows the importer, the table is
      sound, and what else was settled ranks below it and leads where `pp` leads. */
  ghost predicate Done(w: World, h: History, sto: Store, r: Store, kp: Importer, pp: PkgPath, res: Result)
    requires StateKey(kp, pp) in r.states
  {
    var key := StateKey(kp, pp);
    && Sound(w, h, r, map[]) && r.sources == sto.sources
    && Settled(r.states[key]) && r.states[key].res == res && r.states[key].hash == kp.hash
    && (kp.ks.Some? ==> kp.ks.value in r.states[key].imby)
    && (key.noHash ==> Advances(w, h, sto, r, h.rank(pp) + 1, Spot(pp, kp.mp)))
    && NewResolved(w, h, sto, r, Spot(pp, kp.mp))
  }

  /** An import settles the state it is about, with the result it returns and the importer registered. */
  lemma {:induction false} ImportSound(w: World, h: History, sto: Store, kp: Importer, pp: PkgPath)
    requires Fits(w, h, sto, kp, pp)
    ensures var key, o := StateKey(kp, pp), Import(w, sto, kp, pp);
            key in o.sto.states && Done(w, h, sto, o.sto, kp, pp, o.res)
    decreases h.rank(pp), 2, 0
  {
    hide Justified, Acyclic, Finite, Local, ChainOk, Room, DetectCycle, Leads, Sound, Advances, SeeNothing, Check,
      Ordered, Chain, ChainTo, Targets, ImportPath, Covers, Known, Occurs, Resolved;
    ChainToIsClear(w, h, kp, pp);
    BranchChain(w, kp, pp);
    var key := StateKey(kp, pp);
    EnterSound(w, h, sto, kp, key, Spot(pp, kp.mp));
    var sto1 := Enter(sto, kp, key);
    AdvancesBasics(w, h, sto, sto1, 0, Spot(pp, kp.mp));
    SoundIsOrdered(w, h, sto1, map[], key);
    if Valid(sto1.states[key], key, kp.hash) {
      if key.noHash {
        AdvancesWider(w, h, sto, sto1, 0, h.rank(pp) + 1, Spot(pp, kp.mp));
      }
    } else {
      var src := Current(w, sto1.sources, key, kp.srcMap);
      var stamp := sto1.clock + 1;
      var sto2 := sto1.(clock := stamp);
      TickAdvances(w, h, sto1, stamp, Spot(pp, kp.mp));
      AdvancesBasics(w, h, sto1, sto2, 0, Spot(pp, kp.mp));
      KnownReads(w, h, sto.sources, kp, pp);
      CheckSound(w, h, sto2, kp, pp, src);
      var o := Check(w, sto2, Branch(w, kp, key), key, src);
      AdvancesBasics(w, h, sto2, o.sto, h.rank(pp), Spot(pp, kp.mp));
      AdvancesTwice(w, h, sto1, sto2, o.sto, 0, h.rank(pp), Spot(pp, kp.mp));
      AdvancesTwice(w, h, sto, sto1, o.sto, 0, h.rank(pp), Spot(pp, kp.mp));
      PublishDrawn(w, h, sto, sto1, o.sto, kp, pp, o.res, src, o.found);
    }
  }

  /** The end of an import: the result is published under the drawn stamp. */
  lemma PublishDrawn(w: World, h: History, sto: Store, sto1: Store, sto2: Store, kp: Importer, pp: PkgPath,
                     res: Result, src: Source, found: Found)
    requires ChainTo(w, h, kp, pp) && Acyclic(w, h) && SeeNothing(w)
    requires kp.ks.None? ==> kp.par.None? && kp.hash == kp.srcMap
    requires kp.ks.Some? ==> kp.hash == map[]
    requires Ordered(h, sto1) && sto1.sources == sto.sources
    requires StateKey(kp, pp) in sto1.states && !Valid(sto1.states[StateKey(kp, pp)], StateKey(kp, pp), kp.hash)
    requires kp.ks.Some? ==> kp.ks.value in sto1.states[StateKey(kp, pp)].imby
    requires Advances(w, h, sto1, sto2, h.rank(pp), Spot(pp, kp.mp))
        && Advances(w, h, sto, sto2, h.rank(pp), Spot(pp, kp.mp))
    requires sto1.clock + 1 <= sto2.clock && src == Current(w, sto1.sources, StateKey(kp, pp), kp.srcMap)
    requires StateKey(kp, pp).noHash ==> kp.hash == map[]
    requires Justified(w, sto2.states, StateKey(kp, pp), src, found, res)
        && Rests(w, sto2.states, StateKey(kp, pp), found)
    requires Following(w, h, sto.sources, StateKey(kp, pp), src, kp.mp, found)
    ensures StateKey(kp, pp) in sto2.states
    ensures Done(w, h, sto, Publish(sto2, StateKey(kp, pp), res, kp.hash, src, kp.mp, found, sto1.clock + 1), kp, pp,
        res)
  {
    hide Justified, Acyclic, Local, From, Sound, Advances, SeeNothing, Ordered, Chain, ChainTo, Following, Rests,
      NewResolved, Publish;
    FromSelf(w, h, Spot(pp, kp.mp));
    var key, stamp := StateKey(kp, pp), sto1.clock + 1;
    AdvancesBasics(w, h, sto1, sto2, h.rank(pp), Spot(pp, kp.mp));
    AdvancesBasics(w, h, sto, sto2, h.rank(pp), Spot(pp, kp.mp));
    DrawnStamp(w, h, sto1, sto2, key, kp.hash, Spot(pp, kp.mp));
    SourceSeen(w, h, sto1.sources, kp, pp);
    PublishAdvances(w, h, sto2, key, res, kp.hash, src, kp.mp, found, stamp, Spot(pp, kp.mp));
    PublishBasics(sto2, key, res, kp.hash, src, kp.mp, found, stamp);
    var r := Publish(sto2, key, res, kp.hash, src, kp.mp, found, stamp);
    NewResolvedTwice(w, h, sto, sto2, r, Spot(pp, kp.mp));
    if key.noHash {
      AdvancesTwice(w, h, sto, sto2, r, h.rank(pp), h.rank(pp) + 1, Spot(pp, kp.mp));
    }
  }

  lemma NewResolvedTwice(w: World, h: History, a: Store, b: Store, c: Store, at: Spot)
    requires NewResolved(w, h, a, b, at) && NewResolved(w, h, b, c, at) && b.sources == c.sources
    ensures NewResolved(w, h, a, c, at)
  {
    hide From, Resolved;
  }

  lemma PublishBasics(sto: Store, key: Key, res: Result, hash: Overlay, src: Source, mp: ModPath, found: Found,
                      stamp: int)
    requires key in sto.states
    ensures var r := Publish(sto, key, res, hash, src, mp, found, stamp);
            && r.sources == sto.sources && r.states[key].imby == sto.states[key].imby
            && (Settled(r.states[key]) <==> stamp > sto.states[key].invAt)
            && r.states[key].res == res && r.states[key].hash == hash
  {
  }

  lemma TickAdvances(w: World, h: History, sto: Store, n: int, at: Spot)
    requires Sound(w, h, sto, map[]) && n >= sto.clock
    ensures Advances(w, h, sto, sto.(clock := n), 0, at)
  {
    hide Sound, Resolved;
    TickSound(w, h, sto, map[], n);
  }

  lemma PublishAdvances(w: World, h: History, sto: Store, key: Key, res: Result, hash: Overlay, src: Source,
                        mp: ModPath, found: Found, stamp: int, at: Spot)
    requires Sound(w, h, sto, map[]) && key in sto.states && stamp <= sto.clock
    requires key.noHash ==> hash == map[] && !Settled(sto.states[key])
    requires Justified(w, sto.states, key, src, found, res) && Rests(w, sto.states, key, found)
    requires src == Current(w, sto.sources, key, hash)
    requires Following(w, h, sto.sources, key, src, mp, found) && From(w, h, at, Spot(key.pp, mp))
    ensures Sound(w, h, Publish(sto, key, res, hash, src, mp, found, stamp), map[])
    ensures NewResolved(w, h, sto, Publish(sto, key, res, hash, src, mp, found, stamp), at)
    ensures key.noHash ==> Advances(w, h, sto, Publish(sto, key, res, hash, src, mp, found, stamp),
        h.rank(key.pp) + 1, at)
  {
    hide Sound, Justified, Resolved, Occurs, Rests, Leads;
    PublishSound(w, h, sto, map[], key, res, hash, src, mp, found, stamp);
  }

  lemma FitsBasics(w: World, h: History, sto: Store, kp: Importer, pp: PkgPath)
    requires Fits(w, h, sto, kp, pp)
    ensures Finite(w, sto.sources) && Covers(w, h, sto.sources) && Sound(w, h, sto, map[])
  {
    hide Sound, Acyclic, Covers, Finite;
  }

  lemma {:induction false} CheckSound(w: World, h: History, sto: Store, kp: Importer, pp: PkgPath, src: Source)
    requires Fits(w, h, sto, kp, pp) && StateKey(kp, pp) in sto.states && h.texts(StateKey(kp, pp), src, kp.mp)
    requires ChainOk(w, Branch(w, kp, StateKey(kp, pp)))
    ensures var key, o := StateKey(kp, pp), Check(w, sto, Branch(w, kp, StateKey(kp, pp)), StateKey(kp, pp), src);
            && Advances(w, h, sto, o.sto, h.rank(pp), Spot(pp, kp.mp))
            && Justified(w, o.sto.states, key, src, o.found, o.res) && Rests(w, o.sto.states, key, o.found)
            && Following(w, h, sto.sources, key, src, kp.mp, o.found)
    decreases h.rank(pp), 1, 0
  {
    hide Sound, Acyclic, Finite, Local, ChainOk, Room, DetectCycle, Leads, ChainTo, Advances, Covers, Known,
      Following;
    var key := StateKey(kp, pp);
    FollowNone(w, h, sto.sources, key, src, kp.mp);
    match w.parse(key, src)
    case ParseError(_) =>
      AdvancesSelf(w, h, sto, h.rank(pp), Spot(pp, kp.mp));
    case Imports(paths) =>
      assert DepPkgs(w, sto.states, key, map[], paths, 0) == [];
      DepsSound(w, h, sto, kp, pp, src, paths, 0, [], map[]);
  }

  /** The dependencies imported so far keep their results while the rest is imported. */
  lemma {:induction false} DepsSound(w: World, h: History, sto: Store, kp: Importer, pp: PkgPath, src: Source,
                                     paths: seq<string>, i: nat, pkgs: seq<Pkg>, found: Found)
    requires Fits(w, h, sto, kp, pp) && StateKey(kp, pp) in sto.states
    requires ChainOk(w, Branch(w, kp, StateKey(kp, pp)))
    requires w.parse(StateKey(kp, pp), src) == Imports(paths) && i <= |paths|
    requires Following(w, h, sto.sources, StateKey(kp, pp), src, kp.mp, found)
    requires GoodUpTo(w, sto.states, StateKey(kp, pp), found, paths, i) && Rests(w, sto.states, StateKey(kp, pp), found)
    requires pkgs == DepPkgs(w, sto.states, StateKey(kp, pp), found, paths, i)
    ensures var key := StateKey(kp, pp);
            var o := ImportDeps(w, sto, Branch(w, kp, key), key, src, paths, i, pkgs, found);
            && Advances(w, h, sto, o.sto, h.rank(pp), Spot(pp, kp.mp))
            && Justified(w, o.sto.states, key, src, o.found, o.res) && Rests(w, o.sto.states, key, o.found)
            && Following(w, h, sto.sources, key, src, kp.mp, o.found)
    decreases h.rank(pp), 0, |paths| - i
  {
    hide Sound, Acyclic, Finite, Local, ChainOk, Room, DetectCycle, Leads, ChainTo, DepResult, Advances, Covers,
      Known, Following, Rests, Fits, ImportPackage;
    var key := StateKey(kp, pp);
    var kx := Branch(w, kp, key);
    FitsBasics(w, h, sto, kp, pp);
    if i == |paths| {
      AdvancesSelf(w, h, sto, h.rank(pp), Spot(pp, kp.mp));
    } else {
      var found' := found[paths[i] := w.find(sto.sources, kp.mp, pp, paths[i])];
      FollowText(w, h, sto.sources, key, src, kp.mp, found);
      DepSound(w, h, sto, kp, pp, src, paths, i, found);
      FollowNext(w, h, sto.sources, key, src, kp.mp, found, paths[i]);
      SameSoFar(w, h, sto.sources, sto.states, key, src, kp.mp, found, paths, i);
      var o := ImportPackage(w, sto, kx, pp, paths[i]);
      GoodKept(w, h, sto, o.sto, h.rank(pp), Spot(pp, kp.mp), key, found', paths, i);
      RestsNext(w, h, sto, o.sto, h.rank(pp), Spot(pp, kp.mp), key, found, paths[i],
          w.find(sto.sources, kp.mp, pp, paths[i]));
      match o.res {
        case Package(p) =>
          assert pkgs + [p] == DepPkgs(w, o.sto.states, key, found', paths, i + 1);
          DepsSound(w, h, o.sto, kp, pp, src, paths, i + 1, pkgs + [p], found');
          var r := ImportDeps(w, o.sto, kx, key, src, paths, i + 1, pkgs + [p], found');
          AdvancesTwice(w, h, sto, o.sto, r.sto, h.rank(pp), h.rank(pp), Spot(pp, kp.mp));
        case Failed(e) =>
          assert FailedAt(w, o.sto.states, key, src, found', paths, i, Failed(w.wrap(key, src, paths[i], e)));
      }
    }
  }

  /** Looking one more import up does not change what the earlier ones gave. */
  lemma SameSoFar(w: World, h: History, srcs: Sources, states: map<Key, St>, key: Key, src: Source, mp: ModPath,
                  found: Found, paths: seq<string>, i: nat)
    requires i < |paths| && GoodUpTo(w, states, key, found, paths, i) && Following(w, h, srcs, key, src, mp, found)
    ensures var found' := found[paths[i] := w.find(srcs, mp, key.pp, paths[i])];
            && GoodUpTo(w, states, key, found', paths, i)
            && DepPkgs(w, states, key, found', paths, i) == DepPkgs(w, states, key, found, paths, i)
            && (forall ip | ip in found ::
                  DepResult(w, states, key, found', ip) == DepResult(w, states, key, found, ip))
  {
    hide Occurs;
    var found' := found[paths[i] := w.find(srcs, mp, key.pp, paths[i])];
    forall ip | ip in found
      ensures DepResult(w, states, key, found', ip) == DepResult(w, states, key, found, ip)
    {
    }
    forall j | 0 <= j < i
      ensures DepResult(w, states, key, found', paths[j]) == DepResult(w, states, key, found, paths[j])
    {
    }
  }

  /** Importing one dependency settles it with the result returned, and registers the importer. */
  lemma {:induction false} DepSound(w: World, h: History, sto: Store, kp: Importer, pp: PkgPath, src: Source,
                                    paths: seq<string>, i: nat, found: Found)
    requires Fits(w, h, sto, kp, pp) && StateKey(kp, pp) in sto.states
    requires ChainOk(w, Branch(w, kp, StateKey(kp, pp)))
    requires w.parse(StateKey(kp, pp), src) == Imports(paths) && i < |paths| && h.texts(StateKey(kp, pp), src, kp.mp)
    ensures var o := ImportPackage(w, sto, Branch(w, kp, StateKey(kp, pp)), pp, paths[i]);
            && Fits(w, h, o.sto, kp, pp) && Advances(w, h, sto, o.sto, h.rank(pp), Spot(pp, kp.mp))
            && DepResult(w, o.sto.states, StateKey(kp, pp),
                found[paths[i] := w.find(sto.sources, kp.mp, pp, paths[i])], paths[i])
               == Some(o.res)
    decreases h.rank(pp), 0, 0
  {
    hide Sound, ChainOk, Room, DetectCycle, From, ChainTo, Advances, Covers, Known, Resolved, Local, Acyclic;
    var key := StateKey(kp, pp);
    var kx := Branch(w, kp, key);
    match w.find(sto.sources, kp.mp, pp, paths[i])
    case At(d, m) =>
      CoversFind(w, h, sto.sources, key, src, kp.mp, paths[i]);
      Lower(w, h, key, src, kp.mp, paths[i], d, m);
      ChainIsRoot(kp);
      ChainToDep(w, h, kp, pp, src, paths[i], d, m);
      KnownDep(w, h, kp, pp, src, paths[i], d, m);
      SameChain(w, kx, Toward(kx, m));
      assert StateKey(Toward(kx, m), d) == DepKey(w, key, d);
      ImportSound(w, h, sto, Toward(kx, m), d);
      var o := Import(w, sto, Toward(kx, m), d);
      DepFrom(w, h, key, src, kp.mp, paths[i], d, m);
      AdvancesFrom(w, h, sto, o.sto, h.rank(d) + 1, Spot(d, Toward(kx, m).mp), Spot(pp, kp.mp));
      AdvancesBasics(w, h, sto, o.sto, h.rank(d) + 1, Spot(pp, kp.mp));
      AdvancesWider(w, h, sto, o.sto, h.rank(d) + 1, h.rank(pp), Spot(pp, kp.mp));
    case _ =>
      AdvancesSelf(w, h, sto, h.rank(pp), Spot(pp, kp.mp));
  }

  lemma DepFrom(w: World, h: History, key: Key, src: Source, mp: ModPath, ip: string, d: PkgPath, m: ModPath)
    requires Imported(w, h, key, src, mp, ip, d, m)
    ensures From(w, h, Spot(key.pp, mp), Spot(d, Under(mp, m)))
  {
    hide Imported, Leads;
    assert Edge(w, h, Spot(key.pp, mp), Spot(d, Under(mp, m)));
    FromFurther(w, h, Spot(key.pp, mp), Spot(key.pp, mp), Spot(d, Under(mp, m)));
  }

  lemma ChainIsRoot(kp: Importer)
    ensures Chain(kp) == [] ==> kp.ks.None?
  {
  }

  /** Whatever the table remembers, an import returns what a full re-check of the current sources gives, provided the
      settled states it may come upon lead where the importer is led, and every package that it comes upon by several
      ways is led the same way. */
  lemma ImportIsRecheck(w: World, h: History, sto: Store, kp: Importer, pp: PkgPath)
    requires Fits(w, h, sto, kp, pp) && !w.concurrent
    requires ResolvedFrom(w, h, sto, Spot(pp, kp.mp)) && OneWay(w, h, sto.sources, Spot(pp, kp.mp))
    ensures Import(w, sto, kp, pp).res == Recheck(w, sto.sources, kp, pp)
  {
    hide Import, Recheck, Coherent, From, Justified, Covers, Value, Stands, Acyclic, Resolved, ChainOk, Known, OneWay,
      NewResolved;
    ImportedIsValue(w, h, sto, kp, pp);
    var o, a := Import(w, sto, kp, pp), Spot(pp, kp.mp);
    StaysResolved(w, h, sto, o.sto, a);
    FromSelf(w, h, a);
    ResolvedStands(w, h, o.sto, StateKey(kp, pp), kp.mp, a);
    SettledAgrees(w, h, o.sto, StateKey(kp, pp), kp.mp);
  }

  lemma FromSelf(w: World, h: History, a: Spot)
    ensures From(w, h, a, a)
  {
  }

  /** What an import settles leads where its importer is led. */
  lemma StaysResolved(w: World, h: History, sto: Store, sto': Store, a: Spot)
    requires ResolvedFrom(w, h, sto, a) && OneWay(w, h, sto.sources, a) && NewResolved(w, h, sto, sto', a)
    requires sto'.sources == sto.sources && Coherent(w, h, sto')
    ensures ResolvedFrom(w, h, sto', a)
  {
    hide From, Ordered, Justified, Rests;
    forall k, mp | k in sto'.states && Settled(sto'.states[k]) && From(w, h, a, Spot(k.pp, mp))
      ensures Resolved(w, sto'.sources, k, mp, sto'.states[k].found)
    {
      var st := sto'.states[k];
      if !(k in sto.states && Settled(sto.states[k]) && SameLookups(sto.states[k], st)) {
        forall ip | ip in st.found ensures Same(st.found[ip], w.find(sto'.sources, mp, k.pp, ip)) {
          FoundIsLooked(w, h, k, st, ip);
        }
      }
    }
  }

  lemma FoundIsLooked(w: World, h: History, k: Key, st: St, ip: string)
    requires Occurs(w, h, k, st.seen, st.mp, st.found) && ip in st.found
    ensures Looks(w, h, k.pp, ip)
  {
  }

  /** After an import the table holds its result, computed from what is read now; a re-check is the value. */
  lemma ImportedIsValue(w: World, h: History, sto: Store, kp: Importer, pp: PkgPath)
    requires Fits(w, h, sto, kp, pp)
    ensures var key, o := StateKey(kp, pp), Import(w, sto, kp, pp);
            && o.sto.sources == sto.sources && NewResolved(w, h, sto, o.sto, Spot(pp, kp.mp))
            && Standing(w, h, o.sto, key, kp.mp) && o.sto.states[key].res == o.res
            && Recheck(w, sto.sources, kp, pp) == Value(w, h, sto.sources, key, o.sto.states[key].seen, kp.mp)
  {
    hide Import, Recheck, Coherent, Leads, Justified, Covers, Value, Acyclic, Resolved, Advances, NewResolved;
    ImportSound(w, h, sto, kp, pp);
    ChainIsRoot(kp);
    RecheckIsValue(w, h, sto.sources, kp, pp);
    SourceSeen(w, h, sto.sources, kp, pp);
  }

  /** Without any proviso, in a telling world: an import equals the re-check exactly when the result that it leaves
      in the table stands for its importer. */
  lemma ImportStands(w: World, h: History, tells: Result -> Told, sto: Store, kp: Importer, pp: PkgPath)
    requires Fits(w, h, sto, kp, pp) && !w.concurrent && Telling(w, tells)
    ensures Standing(w, h, Import(w, sto, kp, pp).sto, StateKey(kp, pp), kp.mp)
    ensures Import(w, sto, kp, pp).res == Recheck(w, sto.sources, kp, pp)
       <==> Stands(w, h, Import(w, sto, kp, pp).sto, StateKey(kp, pp), kp.mp)
  {
    hide Import, Recheck, Coherent, Leads, Justified, Covers, Value, Stands, Acyclic, Resolved, ChainOk, Known,
      Telling, NewResolved;
    ImportedIsValue(w, h, sto, kp, pp);
    SettledExact(w, h, tells, Import(w, sto, kp, pp).sto, StateKey(kp, pp), kp.mp);
  }

  // ---------------------------------------------------------------- whole runs

  /** What happens to the table over time: packages are imported from scratch, and directories change and
      are cleared. */
  datatype Op = DoImport(flags: Flags, srcMap: Overlay, mp: ModPath, pp: PkgPath) | DoChange(dir: string, src: Source)

  /** What the directories hold after a run. */
  function SourcesAfter(ops: seq<Op>): Sources {
    if ops == [] then map[] else
      match ops[|ops| - 1]
      case DoImport(_, _, _, _) => SourcesAfter(ops[..|ops| - 1])
      case DoChange(dir, src) => SourcesAfter(ops[..|ops| - 1])[dir := src]
  }

  /** Imports are of known directories, and there are only finitely many to be found at any time. */
  ghost predicate Possible(w: World, ops: seq<Op>) {
    && Finite(w, SourcesAfter(ops))
    && (ops != [] ==>
          && Possible(w, ops[..|ops| - 1])
          && (ops[|ops| - 1].DoImport? ==> ops[|ops| - 1].pp.dir in w.dirs))
  }

  /** The history has all that the run imports, reads and finds; unsaved files are of the imported directory. */
  ghost predicate Within(w: World, h: History, ops: seq<Op>) {
    && Covers(w, h, SourcesAfter(ops))
    && (ops != [] ==> Within(w, h, ops[..|ops| - 1]) && OpWithin(w, h, ops[|ops| - 1]))
  }

  ghost predicate OpWithin(w: World, h: History, op: Op) {
    op.DoImport? ==>
      Local(w, op.srcMap, op.pp.dir) && h.roots(StateKey(New(op.flags, op.srcMap, op.mp), op.pp), op.srcMap, op.mp)
  }

  ghost function Run(w: World, ops: seq<Op>): (sto: Store)
    requires Possible(w, ops)
    ensures sto.sources == SourcesAfter(ops)
  {
    if ops == [] then Store(0, map[], map[]) else
      var sto := Run(w, ops[..|ops| - 1]);
      match ops[|ops| - 1]
      case DoImport(flags, srcMap, mp, pp) => Import(w, sto, New(flags, srcMap, mp), pp).sto
      case DoChange(dir, src) => Change(sto, dir, src)
  }

  lemma NewFits(w: World, h: History, sto: Store, flags: Flags, srcMap: Overlay, mp: ModPath, pp: PkgPath)
    requires Acyclic(w, h) && SeeNothing(w) && Finite(w, sto.sources) && Covers(w, h, sto.sources)
        && Sound(w, h, sto, map[])
    requires pp.dir in w.dirs && OpWithin(w, h, DoImport(flags, srcMap, mp, pp))
    ensures Fits(w, h, sto, New(flags, srcMap, mp), pp)
  {
    hide Sound, Acyclic, Covers;
  }

  lemma {:induction false} RunSound(w: World, h: History, ops: seq<Op>)
    requires Acyclic(w, h) && SeeNothing(w) && Possible(w, ops) && Within(w, h, ops)
    ensures Sound(w, h, Run(w, ops), map[])
  {
    hide Sound, Acyclic, Leads, Local, Import, Covers, Finite, Fits, OpWithin;
    if ops == [] {
      EmptySound(w, h);
    } else {
      var sto := Run(w, ops[..|ops| - 1]);
      RunSound(w, h, ops[..|ops| - 1]);
      match ops[|ops| - 1]
      case DoImport(flags, srcMap, mp, pp) =>
        NewFits(w, h, sto, flags, srcMap, mp, pp);
        ImportSound(w, h, sto, New(flags, srcMap, mp), pp);
      case DoChange(dir, src) =>
        var clean: Dirty := map[];
        ClearSound(w, h, sto, clean, dir, src);
        assert clean - {dir} == clean;
    }
  }

  lemma EmptySound(w: World, h: History)
    ensures Sound(w, h, Store(0, map[], map[]), map[])
  {
  }

  /** Cached import equals uncached import: after any run of imports and changes, importing a package gives exactly the
      package or the error of a full re-check against the current sources, provided the settled states that the package
      leads to lead where the importer is led, and every package it comes upon by several ways is led the same way. */
  lemma CachedImportEqualsUncached(w: World, h: History, ops: seq<Op>, flags: Flags, srcMap: Overlay, mp: ModPath,
                                   pp: PkgPath)
    requires Acyclic(w, h) && SeeNothing(w) && !w.concurrent && Possible(w, ops) && Within(w, h, ops)
    requires pp.dir in w.dirs && OpWithin(w, h, DoImport(flags, srcMap, mp, pp))
    requires ResolvedFrom(w, h, Run(w, ops), Spot(pp, mp)) && OneWay(w, h, SourcesAfter(ops), Spot(pp, mp))
    ensures Import(w, Run(w, ops), New(flags, srcMap, mp), pp).res
         == Recheck(w, SourcesAfter(ops), New(flags, srcMap, mp), pp)
  {
    hide Sound, Acyclic, Leads, Local, Import, Recheck, Covers, OpWithin, Fits, ResolvedFrom, OneWay;
    RunSound(w, h, ops);
    NewFits(w, h, Run(w, ops), flags, srcMap, mp, pp);
    ImportIsRecheck(w, h, Run(w, ops), New(flags, srcMap, mp), pp);
  }

  /** Where modules make no difference to any check of the history, it is enough that every change of the run reached,
      through the importers, the settled states whose imports it made lead elsewhere. */
  lemma ReachingRunsAgree(w: World, h: History, ops: seq<Op>, flags: Flags, srcMap: Overlay, mp: ModPath, pp: PkgPath)
    requires Acyclic(w, h) && SeeNothing(w) && !w.concurrent && Possible(w, ops) && Within(w, h, ops)
    requires pp.dir in w.dirs && OpWithin(w, h, DoImport(flags, srcMap, mp, pp))
    requires Reaching(w, ops) && ModulesAgree(w, h, SourcesAfter(ops))
    ensures Import(w, Run(w, ops), New(flags, srcMap, mp), pp).res
         == Recheck(w, SourcesAfter(ops), New(flags, srcMap, mp), pp)
  {
    hide Acyclic, Leads, Local, Import, Recheck, Covers, Reaching, Resolved, ModulesAgree, Sound, ResolvedFrom;
    ReachingResolved(w, h, ops);
    RunSound(w, h, ops);
    var sto, kp := Run(w, ops), New(flags, srcMap, mp);
    NewFits(w, h, sto, flags, srcMap, mp, pp);
    KnownReads(w, h, sto.sources, kp, pp);
    SoundCoherent(w, h, sto);
    AgreeingModules(w, h, sto, StateKey(kp, pp), Current(w, sto.sources, StateKey(kp, pp), srcMap), mp);
    CachedImportEqualsUncached(w, h, ops, flags, srcMap, mp, pp);
  }

  lemma SoundCoherent(w: World, h: History, sto: Store)
    requires Sound(w, h, sto, map[])
    ensures Coherent(w, h, sto)
  {
    hide Coherent;
  }

  /** Some check of the history is of the package of the spot, in its modules. */
  ghost predicate Checks(w: World, h: History, a: Spot) {
    exists key: Key, src :: key.pp == a.pp && h.texts(key, src, a.mp)
  }

  /** Whatever modules a package is checked in, its imports lead to the same places. */
  ghost predicate ModulesAgree(w: World, h: History, srcs: Sources) {
    forall p, mp, mp', ip | Checks(w, h, Spot(p, mp)) && Checks(w, h, Spot(p, mp')) && Looks(w, h, p, ip) ::
      Same(w.find(srcs, mp, p, ip), w.find(srcs, mp', p, ip))
  }

  lemma AgreeingModules(w: World, h: History, sto: Store, key: Key, src: Source, mp: ModPath)
    requires Covers(w, h, sto.sources) && Coherent(w, h, sto) && h.texts(key, src, mp)
    requires AllResolved(w, sto) && ModulesAgree(w, h, sto.sources)
    ensures ResolvedFrom(w, h, sto, Spot(key.pp, mp)) && OneWay(w, h, sto.sources, Spot(key.pp, mp))
  {
    hide Covers, From, Looks, Ordered, Justified, Rests;
    var a := Spot(key.pp, mp);
    forall b | From(w, h, a, b) ensures Checks(w, h, b) {
      FromChecks(w, h, sto.sources, a, b);
    }
    forall k, mp' | k in sto.states && Settled(sto.states[k]) && From(w, h, a, Spot(k.pp, mp'))
      ensures Resolved(w, sto.sources, k, mp', sto.states[k].found)
    {
      var st := sto.states[k];
      assert Checks(w, h, Spot(k.pp, st.mp));
      forall ip | ip in st.found ensures Same(st.found[ip], w.find(sto.sources, mp', k.pp, ip)) {
        FoundIsLooked(w, h, k, st, ip);
      }
    }
  }

  lemma FromChecks(w: World, h: History, srcs: Sources, a: Spot, b: Spot)
    requires Covers(w, h, srcs) && From(w, h, a, b) && Checks(w, h, a)
    ensures Checks(w, h, b)
  {
    hide Covers;
    if a != b {
      var ps: seq<Spot> :| |ps| >= 2 && ps[0] == a && ps[|ps| - 1] == b && ImportPath(w, h, ps);
      var x := ps[|ps| - 2];
      assert Edge(w, h, x, ps[|ps| - 1]);
      var key: Key, src, ip, m :| Imported(w, h, key, src, x.mp, ip, b.pp, m) && b.mp == Under(x.mp, m);
      CoversRead(w, h, srcs, key, src, x.mp, ip, b.pp, m);
    }
  }

  ghost predicate Reaching(w: World, ops: seq<Op>)
    requires Possible(w, ops)
  {
    ops != [] ==>
      && Reaching(w, ops[..|ops| - 1])
      && (ops[|ops| - 1].DoChange? ==>
            ReachesLookups(w, Run(w, ops[..|ops| - 1]), ops[|ops| - 1].dir, ops[|ops| - 1].src))
  }

  lemma {:induction false} ReachingResolved(w: World, h: History, ops: seq<Op>)
    requires Acyclic(w, h) && SeeNothing(w) && Possible(w, ops) && Within(w, h, ops) && Reaching(w, ops)
    ensures AllResolved(w, Run(w, ops))
  {
    hide Sound, Acyclic, Leads, Local, Import, Covers, Finite, Fits, OpWithin, Resolved, Ordered;
    if ops != [] {
      var sto := Run(w, ops[..|ops| - 1]);
      RunSound(w, h, ops[..|ops| - 1]);
      ReachingResolved(w, h, ops[..|ops| - 1]);
      match ops[|ops| - 1]
      case DoImport(flags, srcMap, mp, pp) =>
        NewFits(w, h, sto, flags, srcMap, mp, pp);
        ImportSound(w, h, sto, New(flags, srcMap, mp), pp);
      case DoChange(dir, src) =>
        assert Ordered(h, sto) by { SoundOrdered(w, h, sto); }
        ChangeResolved(w, h, sto, dir, src);
    }
  }

  lemma SoundOrdered(w: World, h: History, sto: Store)
    requires Sound(w, h, sto, map[])
    ensures Ordered(h, sto)
  {
    hide Ordered;
  }
}
