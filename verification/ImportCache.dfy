/** The shared table of package states, what it means for an entry to be justified by the entries it
    depends on, and why a justified entry equals a full re-check. */
module ImportCache {
  import opened Wrappers
  import opened ImportModel

  /** A package state. `seen`, `mp` and `found` are history variables: the source the stored result was computed
      from, the modules its imports were looked up in, and where they led. */
  datatype St = St(chkAt: int, invAt: int, imby: seq<Key>, res: Result, hash: Overlay,
                   seen: Source, mp: ModPath, found: Found)

  type Found = map<string, Lookup>        // by import path

  datatype Store = Store(clock: int, sources: Sources, states: map<Key, St>)

  const FRESH := St(0, 0, [], Failed(Other("")), map[], "", [], map[])

  function Touch(sto: Store, key: Key): (r: Store)
    ensures r.states.Keys == sto.states.Keys + {key}
  {
    if key in sto.states then sto else sto.(states := sto.states[key := FRESH])
  }

  /** Adds `p` to the importers of `key` unless it is already there. */
  function Register(sto: Store, key: Key, p: Key): (r: Store)
    requires key in sto.states
    ensures r.states.Keys == sto.states.Keys
  {
    var st := sto.states[key];
    if p in st.imby then sto else sto.(states := sto.states[key := st.(imby := st.imby + [p])])
  }

  predicate Settled(st: St) {
    st.chkAt > st.invAt
  }

  predicate Valid(st: St, key: Key, hash: Overlay) {
    Settled(st) && (key.noHash || st.hash == hash)
  }

  function Publish(sto: Store, key: Key, res: Result, hash: Overlay, seen: Source, mp: ModPath, found: Found,
                   stamp: int): (r: Store)
    requires key in sto.states
    ensures r.states.Keys == sto.states.Keys
  {
    var st := sto.states[key].(res := res, hash := hash, seen := seen, mp := mp, found := found, chkAt := stamp);
    sto.(states := sto.states[key := st])
  }

  // ---------------------------------------------------------------- justification

  /** What the table gives `key` for its import `ip`, which led where `found` says: nothing unless the state
      there is settled and knows `key` as an importer. */
  function DepResult(w: World, states: map<Key, St>, key: Key, found: Found, ip: string): Option<Result> {
    if ip !in found then None else
      match found[ip]
      case Fake(pkg) => Some(Package(pkg))
      case Missing(e) => Some(Failed(e))
      case At(d, _) =>
        var dk := DepKey(w, key, d);
        if dk in states && Settled(states[dk]) && key in states[dk].imby then Some(states[dk].res) else None
  }

  ghost predicate GoodUpTo(w: World, states: map<Key, St>, key: Key, found: Found, paths: seq<string>, n: nat)
    requires n <= |paths|
  {
    forall i | 0 <= i < n ::
      DepResult(w, states, key, found, paths[i]).Some? && DepResult(w, states, key, found, paths[i]).value.Package?
  }

  ghost function DepPkgs(w: World, states: map<Key, St>, key: Key, found: Found, paths: seq<string>,
                         n: nat): (pkgs: seq<Pkg>)
    requires n <= |paths| && GoodUpTo(w, states, key, found, paths, n)
    ensures |pkgs| == n
    ensures forall i | 0 <= i < n :: DepResult(w, states, key, found, paths[i]) == Some(Package(pkgs[i]))
  {
    seq(n, i requires 0 <= i < n => DepResult(w, states, key, found, paths[i]).value.pkg)
  }

  ghost predicate FailedAt(w: World, states: map<Key, St>, key: Key, src: Source, found: Found, paths: seq<string>,
                           i: nat, res: Result)
    requires i < |paths|
  {
    var r := DepResult(w, states, key, found, paths[i]);
    && r.Some? && r.value.Failed?
    && res == Failed(w.wrap(key, src, paths[i], r.value.error))
    && (!w.concurrent ==> GoodUpTo(w, states, key, found, paths, i))
  }

  /** `res` is what checking `src` gives from the dependency results now in the table. */
  ghost predicate Justified(w: World, states: map<Key, St>, key: Key, src: Source, found: Found, res: Result) {
    match w.parse(key, src)
    case ParseError(e) => res == Failed(e)
    case Imports(paths) =>
      || (GoodUpTo(w, states, key, found, paths, |paths|) &&
          res == w.typeCheck(key, src, DepPkgs(w, states, key, found, paths, |paths|)))
      || exists i: nat :: i < |paths| && FailedAt(w, states, key, src, found, paths, i, res)
  }

  /** Whatever the check looked up, it used, and the table still has it. */
  ghost predicate Rests(w: World, states: map<Key, St>, key: Key, found: Found) {
    forall ip | ip in found :: DepResult(w, states, key, found, ip).Some?
  }

  /** The history has this check: what it read, and where its imports led. */
  ghost predicate Occurs(w: World, h: History, key: Key, src: Source, mp: ModPath, found: Found) {
    && h.texts(key, src, mp)
    && (forall ip | ip in found :: WasFound(w, mp, key.pp, ip, found[ip]))
    && (forall ip | ip in found ::
          && w.parse(key, src).Imports? && ip in w.parse(key, src).paths
          && (found[ip].At? ==> h.finds(mp, key.pp, ip, found[ip].pp, found[ip].mod)))
  }

  ghost predicate WasFound(w: World, mp: ModPath, p: PkgPath, ip: string, l: Lookup) {
    exists srcs :: w.find(srcs, mp, p, ip) == l
  }

  lemma FoundNow(w: World, srcs: Sources, mp: ModPath, p: PkgPath, ip: string)
    ensures WasFound(w, mp, p, ip, w.find(srcs, mp, p, ip))
  {
  }

  /** The structural part of the invariant: stamps come from the clock, and registered importers exist
      and rank above what they import. */
  ghost predicate Ordered(h: History, sto: Store) {
    sto.clock >= 0 && forall k | k in sto.states :: OrderedAt(h, sto, k)
  }

  ghost predicate OrderedAt(h: History, sto: Store, k: Key)
    requires k in sto.states
  {
    var st := sto.states[k];
    && st.chkAt <= sto.clock && st.invAt <= sto.clock
    && (k.noHash ==> st.hash == map[])
    && (forall p | p in st.imby :: k.noHash && p in sto.states && h.rank(k.pp) < h.rank(p.pp))
  }

  /** Every settled state is justified by the table itself, and its check occurs in the history. */
  ghost predicate Coherent(w: World, h: History, sto: Store) {
    && Ordered(h, sto)
    && forall k | k in sto.states && Settled(sto.states[k]) :: CoherentAt(w, h, sto.states, k)
  }

  ghost predicate CoherentAt(w: World, h: History, states: map<Key, St>, k: Key)
    requires k in states
  {
    var st := states[k];
    && Justified(w, states, k, st.seen, st.found, st.res)
    && Rests(w, states, k, st.found)
    && Occurs(w, h, k, st.seen, st.mp, st.found)
  }

  /** What a check of `key` under the unsaved files `o` reads now. */
  function Current(w: World, srcs: Sources, key: Key, o: Overlay): Source {
    w.see(o, key.pp.dir, Content(srcs, key.pp.dir))
  }

  /** When directories changed that have not been cleared since. */
  type Dirty = map<string, int>

  /** What was read after the stamp is still there, as far as we have been told: the directory is clean, or has not
      changed since. */
  predicate ReadSince(dirty: Dirty, dir: string, stamp: int) {
    dir in dirty ==> dirty[dir] < stamp
  }

  /** Every settled state was computed from what its directory holds now, except where a change to the
      directory has not been announced yet. */
  ghost predicate UpToDate(w: World, sto: Store, dirty: Dirty) {
    forall k | k in sto.states && Settled(sto.states[k]) && ReadSince(dirty, k.pp.dir, sto.states[k].chkAt) ::
      sto.states[k].seen == Current(w, sto.sources, k, sto.states[k].hash)
  }

  /** Laying no unsaved files over a directory changes nothing. */
  ghost predicate SeeNothing(w: World) {
    forall d, s :: w.see(map[], d, s) == s
  }

  /** The unsaved files all belong to the directory `dir`. */
  ghost predicate Local(w: World, o: Overlay, dir: string) {
    forall d, s :: d != dir ==> w.see(o, d, s) == s
  }

  // ---------------------------------------------------------------- resolutions

  /** Looked up now and in the modules `mp`, the imports of `key` lead where they did. */
  ghost predicate Resolved(w: World, srcs: Sources, key: Key, mp: ModPath, found: Found) {
    forall ip | ip in found :: Same(found[ip], w.find(srcs, mp, key.pp, ip))
  }

  /** So do the imports of every settled state that `a` leads to, in the modules in which it leads there. */
  ghost predicate ResolvedFrom(w: World, h: History, sto: Store, a: Spot) {
    forall k, mp | k in sto.states && Settled(sto.states[k]) && From(w, h, a, Spot(k.pp, mp)) ::
      Resolved(w, sto.sources, k, mp, sto.states[k].found)
  }

  /** Some check of the history looks `ip` up for the package `p`. */
  ghost predicate Looks(w: World, h: History, p: PkgPath, ip: string) {
    exists key: Key, src, mp ::
      key.pp == p && h.texts(key, src, mp) && w.parse(key, src).Imports? && ip in w.parse(key, src).paths
  }

  /** Whichever way `a` leads to a package, the modules on the way make no difference to where its imports lead. */
  ghost predicate OneWay(w: World, h: History, srcs: Sources, a: Spot) {
    forall p, mp, mp', ip | From(w, h, a, Spot(p, mp)) && From(w, h, a, Spot(p, mp')) && Looks(w, h, p, ip) ::
      Same(w.find(srcs, mp, p, ip), w.find(srcs, mp', p, ip))
  }

  // ---------------------------------------------------------------- the value of a package

  /** The full re-check of an acyclic import graph, free of chains. */
  ghost function Value(w: World, h: History, srcs: Sources, key: Key, src: Source, mp: ModPath): Result
    requires Acyclic(w, h) && Covers(w, h, srcs) && h.texts(key, src, mp)
    decreases h.rank(key.pp), 1, 0
  {
    match w.parse(key, src)
    case ParseError(e) => Failed(e)
    case Imports(paths) => ValueDeps(w, h, srcs, key, src, mp, paths, 0, [])
  }

  ghost function ValueDeps(w: World, h: History, srcs: Sources, key: Key, src: Source, mp: ModPath,
                           paths: seq<string>, i: nat, pkgs: seq<Pkg>): Result
    requires Acyclic(w, h) && Covers(w, h, srcs) && h.texts(key, src, mp)
    requires w.parse(key, src) == Imports(paths) && i <= |paths|
    decreases h.rank(key.pp), 0, |paths| - i
  {
    if i == |paths| then w.typeCheck(key, src, pkgs) else
      match ValueDep(w, h, srcs, key, src, mp, paths, i)
      case Package(p) => ValueDeps(w, h, srcs, key, src, mp, paths, i + 1, pkgs + [p])
      case Failed(e) => Failed(w.wrap(key, src, paths[i], e))
  }

  ghost function ValueDep(w: World, h: History, srcs: Sources, key: Key, src: Source, mp: ModPath,
                          paths: seq<string>, i: nat): Result
    requires Acyclic(w, h) && Covers(w, h, srcs) && h.texts(key, src, mp)
    requires w.parse(key, src) == Imports(paths) && i < |paths|
    decreases h.rank(key.pp), 0, 0
  {
    match w.find(srcs, mp, key.pp, paths[i])
    case Fake(pkg) => Package(pkg)
    case Missing(e) => Failed(e)
    case At(d, m) =>
      CoversFind(w, h, srcs, key, src, mp, paths[i]);
      CoversRead(w, h, srcs, key, src, mp, paths[i], d, m);
      Value(w, h, srcs, DepKey(w, key, d), Content(srcs, d.dir), Under(mp, m))
  }

  /** Once every dependency is good, the value is the type-check of all of them. */
  lemma {:induction false} ValueGood(w: World, h: History, srcs: Sources, key: Key, src: Source, mp: ModPath,
                                     paths: seq<string>, i: nat, pkgs: seq<Pkg>)
    requires Acyclic(w, h) && Covers(w, h, srcs) && h.texts(key, src, mp)
    requires w.parse(key, src) == Imports(paths) && i <= |paths| == |pkgs|
    requires forall j | i <= j < |paths| :: ValueDep(w, h, srcs, key, src, mp, paths, j) == Package(pkgs[j])
    ensures ValueDeps(w, h, srcs, key, src, mp, paths, i, pkgs[..i]) == w.typeCheck(key, src, pkgs)
    decreases |paths| - i
  {
    hide Acyclic, Covers, ValueDep;
    if i == |paths| {
      assert pkgs[..i] == pkgs;
    } else {
      assert pkgs[..i] + [pkgs[i]] == pkgs[..i + 1];
      ValueGood(w, h, srcs, key, src, mp, paths, i + 1, pkgs);
    }
  }

  /** A failing dependency makes the value fail; the first one determines the error. */
  lemma {:induction false} ValueBad(w: World, h: History, srcs: Sources, key: Key, src: Source, mp: ModPath,
                                    paths: seq<string>, i: nat, pkgs: seq<Pkg>, b: nat)
    requires Acyclic(w, h) && Covers(w, h, srcs) && h.texts(key, src, mp)
    requires w.parse(key, src) == Imports(paths) && i <= b < |paths|
    requires ValueDep(w, h, srcs, key, src, mp, paths, b).Failed?
    ensures ValueDeps(w, h, srcs, key, src, mp, paths, i, pkgs).Failed?
    ensures (forall j | i <= j < b :: ValueDep(w, h, srcs, key, src, mp, paths, j).Package?) ==>
              ValueDeps(w, h, srcs, key, src, mp, paths, i, pkgs) ==
              Failed(w.wrap(key, src, paths[b], ValueDep(w, h, srcs, key, src, mp, paths, b).error))
    decreases b - i
  {
    hide Acyclic, Covers, ValueDep;
    if i < b {
      match ValueDep(w, h, srcs, key, src, mp, paths, i)
      case Package(p) => ValueBad(w, h, srcs, key, src, mp, paths, i + 1, pkgs + [p], b);
      case Failed(_) =>
    }
  }

  /** Two results agree: both packages are equal, and so are both errors unless dependencies are
      imported concurrently, where any failing dependency may be the one reported. */
  predicate Agree(w: World, a: Result, b: Result) {
    && a.Package? == b.Package?
    && (a.Package? || !w.concurrent ==> a == b)
  }

  /** What it takes to speak of the value of a settled state, looked at from an importer with the modules `mp`. */
  ghost predicate Standing(w: World, h: History, sto: Store, key: Key, mp: ModPath) {
    && Acyclic(w, h) && SeeNothing(w) && Covers(w, h, sto.sources) && Coherent(w, h, sto) && UpToDate(w, sto, map[])
    && key in sto.states && Settled(sto.states[key]) && h.texts(key, sto.states[key].seen, mp)
  }

  /** A settled dependency was computed from what its directory holds. */
  lemma SeenContent(w: World, h: History, sto: Store, key: Key, d: PkgPath)
    requires SeeNothing(w) && Coherent(w, h, sto) && UpToDate(w, sto, map[])
    requires DepKey(w, key, d) in sto.states && Settled(sto.states[DepKey(w, key, d)])
    ensures sto.states[DepKey(w, key, d)].seen == Content(sto.sources, d.dir)
  {
    assert OrderedAt(h, sto, DepKey(w, key, d));
  }

  /** What holds of a settled dependency that the import `ip` leads to now. */
  lemma StandingDep(w: World, h: History, sto: Store, key: Key, mp: ModPath, ip: string)
    requires Standing(w, h, sto, key, mp) && DepResult(w, sto.states, key, sto.states[key].found, ip).Some?
    requires Same(sto.states[key].found[ip], w.find(sto.sources, mp, key.pp, ip))
    ensures var l := w.find(sto.sources, mp, key.pp, ip);
            l.At? ==>
              && Imported(w, h, key, sto.states[key].seen, mp, ip, l.pp, l.mod)
              && Standing(w, h, sto, DepKey(w, key, l.pp), Under(mp, l.mod))
              && sto.states[DepKey(w, key, l.pp)].seen == Content(sto.sources, l.pp.dir)
              && h.rank(l.pp) < h.rank(key.pp)
  {
    hide Covers, UpToDate, Leads, Justified, Rests;
    var st, l := sto.states[key], w.find(sto.sources, mp, key.pp, ip);
    if l.At? {
      CoversFind(w, h, sto.sources, key, st.seen, mp, ip);
      CoversRead(w, h, sto.sources, key, st.seen, mp, ip, l.pp, l.mod);
      SeenContent(w, h, sto, key, l.pp);
    }
  }

  /** The result of a settled state stands for an importer with the modules `mp`: what it was computed from is what
      that importer would find now. Of a check that failed at one dependency, the others matter only as far as they
      still come before it. */
  ghost predicate Stands(w: World, h: History, sto: Store, key: Key, mp: ModPath)
    requires Standing(w, h, sto, key, mp)
    decreases h.rank(key.pp), 2
  {
    var st := sto.states[key];
    match w.parse(key, st.seen)
    case ParseError(_) => true
    case Imports(paths) =>
      || (GoodUpTo(w, sto.states, key, st.found, paths, |paths|)
          && st.res == w.typeCheck(key, st.seen, DepPkgs(w, sto.states, key, st.found, paths, |paths|))
          && forall i | 0 <= i < |paths| :: StandsAt(w, h, sto, key, mp, paths[i]))
      || exists i: nat :: i < |paths| && FailStands(w, h, sto, key, mp, paths, i)
  }

  ghost predicate FailStands(w: World, h: History, sto: Store, key: Key, mp: ModPath, paths: seq<string>, i: nat)
    requires Standing(w, h, sto, key, mp) && w.parse(key, sto.states[key].seen) == Imports(paths) && i < |paths|
    decreases h.rank(key.pp), 1
  {
    var st := sto.states[key];
    && FailedAt(w, sto.states, key, st.seen, st.found, paths, i, st.res)
    && StandsAt(w, h, sto, key, mp, paths[i])
    && (!w.concurrent ==> forall j | 0 <= j < i :: ValueDep(w, h, sto.sources, key, st.seen, mp, paths, j).Package?)
  }

  ghost predicate StandsAt(w: World, h: History, sto: Store, key: Key, mp: ModPath, ip: string)
    requires Standing(w, h, sto, key, mp) && DepResult(w, sto.states, key, sto.states[key].found, ip).Some?
    decreases h.rank(key.pp), 0
  {
    var l := w.find(sto.sources, mp, key.pp, ip);
    if !Same(sto.states[key].found[ip], l) then false else
      match l
      case At(d, m) =>
        StandingDep(w, h, sto, key, mp, ip);
        Stands(w, h, sto, DepKey(w, key, d), Under(mp, m))
      case _ => true
  }

  /** A result judged valid that stands is what a full re-check gives now. */
  lemma {:induction false} SettledAgrees(w: World, h: History, sto: Store, key: Key, mp: ModPath)
    requires Standing(w, h, sto, key, mp) && Stands(w, h, sto, key, mp)
    ensures Agree(w, sto.states[key].res, Value(w, h, sto.sources, key, sto.states[key].seen, mp))
    decreases h.rank(key.pp), 1
  {
    hide Acyclic, Covers, Coherent, UpToDate;
    var st := sto.states[key];
    var src := st.seen;
    SettledOccurs(w, h, sto, key);
    if w.parse(key, src).Imports? {
      var paths := w.parse(key, src).paths;
      forall i: nat | i < |paths| && DepResult(w, sto.states, key, st.found, paths[i]).Some? &&
                      StandsAt(w, h, sto, key, mp, paths[i])
        ensures Agree(w, DepResult(w, sto.states, key, st.found, paths[i]).value,
                      ValueDep(w, h, sto.sources, key, src, mp, paths, i))
      {
        DepAgrees(w, h, sto, key, mp, paths, i);
      }
      if i: nat :| i < |paths| && FailStands(w, h, sto, key, mp, paths, i) {
        ValueBad(w, h, sto.sources, key, src, mp, paths, 0, [], i);
      } else {
        var pkgs := DepPkgs(w, sto.states, key, st.found, paths, |paths|);
        ValueGood(w, h, sto.sources, key, src, mp, paths, 0, pkgs);
        assert pkgs[..0] == [];
      }
    }
  }

  lemma SettledOccurs(w: World, h: History, sto: Store, key: Key)
    requires Coherent(w, h, sto) && key in sto.states && Settled(sto.states[key])
    ensures Occurs(w, h, key, sto.states[key].seen, sto.states[key].mp, sto.states[key].found)
    ensures Justified(w, sto.states, key, sto.states[key].seen, sto.states[key].found, sto.states[key].res)
    ensures Rests(w, sto.states, key, sto.states[key].found)
    ensures OrderedAt(h, sto, key)
  {
    hide Justified, Occurs, Rests;
  }

  lemma {:induction false} DepAgrees(w: World, h: History, sto: Store, key: Key, mp: ModPath, paths: seq<string>,
                                     i: nat)
    requires Standing(w, h, sto, key, mp)
    requires w.parse(key, sto.states[key].seen) == Imports(paths) && i < |paths|
    requires DepResult(w, sto.states, key, sto.states[key].found, paths[i]).Some?
        && StandsAt(w, h, sto, key, mp, paths[i])
    ensures Agree(w, DepResult(w, sto.states, key, sto.states[key].found, paths[i]).value,
                  ValueDep(w, h, sto.sources, key, sto.states[key].seen, mp, paths, i))
    decreases h.rank(key.pp), 0
  {
    hide Acyclic, Covers, Coherent, UpToDate;
    var l := w.find(sto.sources, mp, key.pp, paths[i]);
    StandingDep(w, h, sto, key, mp, paths[i]);
    if l.At? {
      SettledAgrees(w, h, sto, DepKey(w, key, l.pp), Under(mp, l.mod));
    }
  }

  /** Where all imports lead where they did, every result stands. */
  lemma {:induction false} ResolvedStands(w: World, h: History, sto: Store, key: Key, mp: ModPath, a: Spot)
    requires Standing(w, h, sto, key, mp)
    requires ResolvedFrom(w, h, sto, a) && From(w, h, a, Spot(key.pp, mp))
    ensures Stands(w, h, sto, key, mp)
    decreases h.rank(key.pp), 1
  {
    hide Acyclic, Covers, Coherent, UpToDate, From, ResolvedFrom;
    var st := sto.states[key];
    SettledOccurs(w, h, sto, key);
    if w.parse(key, st.seen).Imports? {
      var paths := w.parse(key, st.seen).paths;
      forall i: nat | i < |paths| && DepResult(w, sto.states, key, st.found, paths[i]).Some?
        ensures StandsAt(w, h, sto, key, mp, paths[i])
        ensures Agree(w, DepResult(w, sto.states, key, st.found, paths[i]).value,
                      ValueDep(w, h, sto.sources, key, st.seen, mp, paths, i))
      {
        ResolvedStandsAt(w, h, sto, key, mp, a, paths[i]);
        DepAgrees(w, h, sto, key, mp, paths, i);
      }
      if i: nat :| i < |paths| && FailedAt(w, sto.states, key, st.seen, st.found, paths, i, st.res) {
        assert FailStands(w, h, sto, key, mp, paths, i);
      }
    }
  }

  lemma {:induction false} ResolvedStandsAt(w: World, h: History, sto: Store, key: Key, mp: ModPath, a: Spot,
                                            ip: string)
    requires Standing(w, h, sto, key, mp)
    requires ResolvedFrom(w, h, sto, a) && From(w, h, a, Spot(key.pp, mp))
    requires DepResult(w, sto.states, key, sto.states[key].found, ip).Some?
    ensures StandsAt(w, h, sto, key, mp, ip)
    decreases h.rank(key.pp), 0
  {
    hide Acyclic, Covers, Coherent, UpToDate, From, Stands;
    var st, l := sto.states[key], w.find(sto.sources, mp, key.pp, ip);
    assert Resolved(w, sto.sources, key, mp, st.found);
    StandingDep(w, h, sto, key, mp, ip);
    if l.At? {
      var b := Spot(l.pp, Under(mp, l.mod));
      assert Edge(w, h, Spot(key.pp, mp), b);
      FromFurther(w, h, a, Spot(key.pp, mp), b);
      ResolvedStands(w, h, sto, DepKey(w, key, l.pp), b.mp, a);
    }
  }

  // ---------------------------------------------------------------- the value is the full re-check

  /** Every state on the chain leads to `pp` by imports, and the unsaved files belong to its outermost state. */
  ghost predicate ChainTo(w: World, h: History, kp: Importer, pp: PkgPath) {
    var c := Chain(kp);
    && (forall a | a in c :: LeadsFrom(w, h, a.pp, Spot(pp, kp.mp)))
    && (c != [] ==> Local(w, kp.srcMap, c[|c| - 1].pp.dir))
  }

  /** The history has this import: from scratch, or by the package that is being checked. */
  ghost predicate Known(w: World, h: History, kp: Importer, pp: PkgPath) {
    match kp.ks
    case None => h.roots(StateKey(kp, pp), kp.srcMap, kp.mp)
    case Some(k) => StateKey(kp, pp) == DepKey(w, k, pp) && KnownBy(w, h, k, pp, kp.mp)
  }

  ghost predicate KnownBy(w: World, h: History, k: Key, pp: PkgPath, mp: ModPath) {
    exists src, mp0, ip, m :: Imported(w, h, k, src, mp0, ip, pp, m) && mp == Under(mp0, m)
  }

  /** No cycle is ever reported on such a chain, and the source read below its root is the saved one. */
  lemma ChainToIsClear(w: World, h: History, kp: Importer, pp: PkgPath)
    requires Acyclic(w, h) && ChainTo(w, h, kp, pp)
    ensures DetectCycle(kp, pp).None?
    ensures Chain(kp) != [] ==> forall s :: w.see(kp.srcMap, pp.dir, s) == s
  {
    hide Leads;
    var c := Chain(kp);
    forall a | a in c ensures !Targets(a, pp) {
      var mp :| Leads(w, h, Spot(a.pp, mp), Spot(pp, kp.mp));
    }
    if c != [] {
      assert c[|c| - 1] in c;
    }
  }

  lemma ChainToDep(w: World, h: History, kp: Importer, pp: PkgPath, src: Source, ip: string, d: PkgPath, m: ModPath)
    requires ChainTo(w, h, kp, pp) && Imported(w, h, StateKey(kp, pp), src, kp.mp, ip, d, m)
    requires Chain(kp) == [] ==> Local(w, kp.srcMap, pp.dir)
    ensures ChainTo(w, h, Toward(Branch(w, kp, StateKey(kp, pp)), m), d)
  {
    hide Imported, Leads;
    var key := StateKey(kp, pp);
    var kx := Toward(Branch(w, kp, key), m);
    assert Chain(kx) == [key] + Chain(kp);
    var here, next := Spot(pp, kp.mp), Spot(d, kx.mp);
    assert Edge(w, h, here, next);
    forall a | a in Chain(kx) ensures LeadsFrom(w, h, a.pp, next) {
      if a == key {
        LeadsFurther(w, h, here, here, next);
      } else {
        var mp :| Leads(w, h, Spot(a.pp, mp), here);
        LeadsFurther(w, h, Spot(a.pp, mp), here, next);
      }
    }
  }

  lemma KnownDep(w: World, h: History, kp: Importer, pp: PkgPath, src: Source, ip: string, d: PkgPath, m: ModPath)
    requires Imported(w, h, StateKey(kp, pp), src, kp.mp, ip, d, m)
    ensures Known(w, h, Toward(Branch(w, kp, StateKey(kp, pp)), m), d)
  {
  }

  /** What a check reads is in the history. */
  lemma KnownReads(w: World, h: History, srcs: Sources, kp: Importer, pp: PkgPath)
    requires Acyclic(w, h) && Covers(w, h, srcs) && ChainTo(w, h, kp, pp) && Known(w, h, kp, pp)
    ensures h.texts(StateKey(kp, pp), Current(w, srcs, StateKey(kp, pp), kp.srcMap), kp.mp)
  {
    if kp.ks.Some? {
      var src, mp, ip, m :| Imported(w, h, kp.ks.value, src, mp, ip, pp, m) && kp.mp == Under(mp, m);
      CoversRead(w, h, srcs, kp.ks.value, src, mp, ip, pp, m);
      ChainToIsClear(w, h, kp, pp);
    }
  }

  lemma {:induction false} RecheckIsValue(w: World, h: History, srcs: Sources, kp: Importer, pp: PkgPath)
    requires Acyclic(w, h) && Finite(w, srcs) && Covers(w, h, srcs) && ChainOk(w, kp) && pp.dir in w.dirs
    requires ChainTo(w, h, kp, pp) && Known(w, h, kp, pp) && (Chain(kp) == [] ==> Local(w, kp.srcMap, pp.dir))
    ensures h.texts(StateKey(kp, pp), Current(w, srcs, StateKey(kp, pp), kp.srcMap), kp.mp)
    ensures Recheck(w, srcs, kp, pp) ==
            Value(w, h, srcs, StateKey(kp, pp), Current(w, srcs, StateKey(kp, pp), kp.srcMap), kp.mp)
    decreases h.rank(pp), 1, 0
  {
    hide Acyclic, Covers, ChainOk, Room, DetectCycle, Local, Known, ChainTo, Finite, RecheckDeps, Chain, Leads;
    KnownReads(w, h, srcs, kp, pp);
    ChainToIsClear(w, h, kp, pp);
    BranchChain(w, kp, pp);
    var key := StateKey(kp, pp);
    var src := Current(w, srcs, key, kp.srcMap);
    match w.parse(key, src)
    case ParseError(_) =>
    case Imports(paths) => RecheckDepsIsValue(w, h, srcs, kp, pp, src, paths, 0, []);
  }

  lemma {:induction false} RecheckDepsIsValue(w: World, h: History, srcs: Sources, kp: Importer, pp: PkgPath,
                                              src: Source, paths: seq<string>, i: nat, pkgs: seq<Pkg>)
    requires Acyclic(w, h) && Finite(w, srcs) && Covers(w, h, srcs) && ChainOk(w, Branch(w, kp, StateKey(kp, pp)))
    requires ChainTo(w, h, kp, pp) && h.texts(StateKey(kp, pp), src, kp.mp)
    requires Chain(kp) == [] ==> Local(w, kp.srcMap, pp.dir)
    requires w.parse(StateKey(kp, pp), src) == Imports(paths) && i <= |paths|
    ensures RecheckDeps(w, srcs, Branch(w, kp, StateKey(kp, pp)), StateKey(kp, pp), src, paths, i, pkgs) ==
            ValueDeps(w, h, srcs, StateKey(kp, pp), src, kp.mp, paths, i, pkgs)
    decreases h.rank(pp), 0, |paths| - i
  {
    hide Acyclic, Covers, ChainOk, Room, DetectCycle, Local, Known, ChainTo, Leads, Recheck, Value, ValueDep,
      RecheckDep, Chain;
    var key := StateKey(kp, pp);
    var kx := Branch(w, kp, key);
    if i < |paths| {
      RecheckDepIsValue(w, h, srcs, kp, pp, src, paths, i);
      match ValueDep(w, h, srcs, key, src, kp.mp, paths, i)
      case Package(p) => RecheckDepsIsValue(w, h, srcs, kp, pp, src, paths, i + 1, pkgs + [p]);
      case Failed(_) =>
    }
  }

  lemma {:induction false} RecheckDepIsValue(w: World, h: History, srcs: Sources, kp: Importer, pp: PkgPath,
                                             src: Source, paths: seq<string>, i: nat)
    requires Acyclic(w, h) && Finite(w, srcs) && Covers(w, h, srcs) && ChainOk(w, Branch(w, kp, StateKey(kp, pp)))
    requires ChainTo(w, h, kp, pp) && h.texts(StateKey(kp, pp), src, kp.mp)
    requires Chain(kp) == [] ==> Local(w, kp.srcMap, pp.dir)
    requires w.parse(StateKey(kp, pp), src) == Imports(paths) && i < |paths|
    ensures RecheckDep(w, srcs, Branch(w, kp, StateKey(kp, pp)), pp, paths[i]) ==
            ValueDep(w, h, srcs, StateKey(kp, pp), src, kp.mp, paths, i)
    decreases h.rank(pp), 0, 0
  {
    hide ChainOk, Room, DetectCycle, Local, ChainTo, Leads, Recheck, Value, Known, Chain;
    var key := StateKey(kp, pp);
    var kx := Branch(w, kp, key);
    match w.find(srcs, kp.mp, pp, paths[i])
    case At(d, m) =>
      CoversFind(w, h, srcs, key, src, kp.mp, paths[i]);
      CoversRead(w, h, srcs, key, src, kp.mp, paths[i], d, m);
      ChainToDep(w, h, kp, pp, src, paths[i], d, m);
      KnownDep(w, h, kp, pp, src, paths[i], d, m);
      BranchIsNotEmpty(w, kp, key);
      SameChain(w, kx, Toward(kx, m));
      ChainToIsClear(w, h, Toward(kx, m), d);
      RecheckIsValue(w, h, srcs, Toward(kx, m), d);
    case _ =>
  }

  lemma BranchIsNotEmpty(w: World, kp: Importer, key: Key)
    ensures Chain(Branch(w, kp, key)) == [key] + Chain(kp)
  {
  }
}
