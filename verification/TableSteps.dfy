/** What each elementary change does to the state table: looking a state up, registering an importer,
    drawing a stamp, publishing a result and clearing a directory all keep it sound. */
module TableSteps {
  import opened Wrappers
  import opened ImportModel
  import opened ImportCache
  import opened Invalidation

  /** Settled states keep their results, no stamp of invalidation moves, and no importer is forgotten. */
  ghost predicate Grows(sto: Store, sto': Store) {
    && sto'.sources == sto.sources
    && sto.clock <= sto'.clock
    && sto.states.Keys <= sto'.states.Keys
    && forall k | k in sto.states :: Kept(sto.states[k], sto'.states[k])
  }

  ghost predicate Kept(st: St, st': St) {
    && st'.invAt == st.invAt
    && (forall p | p in st.imby :: p in st'.imby)
    && (Settled(st) ==> st'.chkAt == st.chkAt && st'.res == st.res && st'.hash == st.hash)
    && (Settled(st) ==> st'.seen == st.seen && st'.mp == st.mp && st'.found == st.found)
  }

  lemma GrowsTwice(a: Store, b: Store, c: Store)
    requires Grows(a, b) && Grows(b, c)
    ensures Grows(a, c)
  {
    forall k | k in a.states ensures Kept(a.states[k], c.states[k]) {
      assert Kept(a.states[k], b.states[k]) && Kept(b.states[k], c.states[k]);
    }
  }

  /** A dependency result stays what it was while the states it rests on are kept. */
  lemma DepResultKept(w: World, states: map<Key, St>, states': map<Key, St>, key: Key,
                      found: Found, ip: string)
    requires DepResult(w, states, key, found, ip).Some?
    requires forall k | k in states && k.noHash :: k in states' && Kept(states[k], states'[k])
    ensures DepResult(w, states', key, found, ip) == DepResult(w, states, key, found, ip)
  {
  }

  lemma JustifiedSame(w: World, states: map<Key, St>, states': map<Key, St>, key: Key, src: Source,
                      found: Found, res: Result)
    requires Justified(w, states, key, src, found, res)
    requires forall ip :: DepResult(w, states, key, found, ip).Some? ==>
               DepResult(w, states', key, found, ip) == DepResult(w, states, key, found, ip)
    ensures Justified(w, states', key, src, found, res)
  {
    match w.parse(key, src)
    case ParseError(_) =>
    case Imports(paths) =>
      if GoodUpTo(w, states, key, found, paths, |paths|) {
        assert DepPkgs(w, states, key, found, paths, |paths|) == DepPkgs(w, states', key, found, paths, |paths|);
      }
      if i: nat :| i < |paths| && FailedAt(w, states, key, src, found, paths, i, res) {
        assert FailedAt(w, states', key, src, found, paths, i, res);
      }
  }

  lemma CoherentSame(w: World, h: History, states: map<Key, St>, states': map<Key, St>, key: Key)
    requires key in states && key in states' && CoherentAt(w, h, states, key)
    requires states'[key].res == states[key].res && states'[key].seen == states[key].seen
    requires states'[key].mp == states[key].mp && states'[key].found == states[key].found
    requires forall ip :: DepResult(w, states, key, states[key].found, ip).Some? ==>
               DepResult(w, states', key, states[key].found, ip) == DepResult(w, states, key, states[key].found, ip)
    ensures CoherentAt(w, h, states', key)
  {
    hide Justified, Occurs, DepResult;
    JustifiedSame(w, states, states', key, states[key].seen, states[key].found, states[key].res);
  }

  lemma CoherentKept(w: World, h: History, states: map<Key, St>, states': map<Key, St>, key: Key)
    requires key in states && key in states' && CoherentAt(w, h, states, key)
    requires Settled(states[key]) && Kept(states[key], states'[key])
    requires forall k | k in states && k.noHash :: k in states' && Kept(states[k], states'[k])
    ensures CoherentAt(w, h, states', key)
  {
    hide CoherentAt, DepResult;
    forall ip | DepResult(w, states, key, states[key].found, ip).Some?
      ensures DepResult(w, states', key, states[key].found, ip) == DepResult(w, states, key, states[key].found, ip)
    {
      DepResultKept(w, states, states', key, states[key].found, ip);
    }
    CoherentSame(w, h, states, states', key);
  }

  // ---------------------------------------------------------------- sound tables

  /** The table is coherent, and was computed from what the clean directories hold now. */
  ghost predicate Sound(w: World, h: History, sto: Store, dirty: Dirty) {
    Coherent(w, h, sto) && UpToDate(w, sto, dirty)
  }

  lemma SoundIsOrdered(w: World, h: History, sto: Store, dirty: Dirty, key: Key)
    requires Sound(w, h, sto, dirty) && key in sto.states
    ensures Ordered(h, sto)
    ensures sto.states[key].invAt <= sto.clock && sto.states[key].chkAt <= sto.clock
    ensures key.noHash ==> sto.states[key].hash == map[]
  {
    assert OrderedAt(h, sto, key);
  }

  /** A table that only grew, without settling anything, is still sound. */
  lemma GrowSound(w: World, h: History, sto: Store, sto': Store, dirty: Dirty)
    requires Sound(w, h, sto, dirty) && Ordered(h, sto') && Grows(sto, sto')
    requires forall k | k in sto'.states && Settled(sto'.states[k]) :: k in sto.states && Settled(sto.states[k])
    ensures Sound(w, h, sto', dirty)
  {
    hide CoherentAt;
    forall k | k in sto'.states && Settled(sto'.states[k]) ensures CoherentAt(w, h, sto'.states, k) {
      CoherentKept(w, h, sto.states, sto'.states, k);
    }
  }

  lemma TickSound(w: World, h: History, sto: Store, dirty: Dirty, n: int)
    requires Sound(w, h, sto, dirty) && n >= sto.clock
    ensures Sound(w, h, sto.(clock := n), dirty) && Grows(sto, sto.(clock := n))
  {
    hide Justified;
    var r := sto.(clock := n);
    forall k | k in sto.states ensures OrderedAt(h, r, k) {
      assert OrderedAt(h, sto, k);
    }
    GrowSound(w, h, sto, r, dirty);
  }

  lemma TouchSound(w: World, h: History, sto: Store, dirty: Dirty, key: Key)
    requires Sound(w, h, sto, dirty)
    ensures Sound(w, h, Touch(sto, key), dirty) && Grows(sto, Touch(sto, key))
  {
    hide Justified;
    var r := Touch(sto, key);
    forall k | k in r.states ensures OrderedAt(h, r, k) {
      if k in sto.states { assert OrderedAt(h, sto, k); }
    }
    GrowSound(w, h, sto, r, dirty);
  }

  lemma RegisterSound(w: World, h: History, sto: Store, dirty: Dirty, key: Key, p: Key)
    requires Sound(w, h, sto, dirty) && key in sto.states && p in sto.states
    requires key.noHash && h.rank(key.pp) < h.rank(p.pp)
    ensures Sound(w, h, Register(sto, key, p), dirty) && Grows(sto, Register(sto, key, p))
    ensures p in Register(sto, key, p).states[key].imby
  {
    hide Justified;
    var r := Register(sto, key, p);
    forall k | k in r.states ensures OrderedAt(h, r, k) {
      assert OrderedAt(h, sto, k);
    }
    GrowSound(w, h, sto, r, dirty);
  }

  /** Publishing a result for a state that no settled state rests on leaves all other states alone. */
  lemma PublishGrows(w: World, h: History, sto: Store, dirty: Dirty, key: Key, res: Result, hash: Overlay,
                     src: Source, mp: ModPath, found: Found, stamp: int)
    requires Sound(w, h, sto, dirty) && key in sto.states && stamp <= sto.clock
    requires key.noHash ==> hash == map[] && !Settled(sto.states[key])
    ensures var r := Publish(sto, key, res, hash, src, mp, found, stamp);
            && Ordered(h, r) && r.sources == sto.sources && r.clock == sto.clock
            && forall k | k in sto.states && (k != key || key.noHash) :: Kept(sto.states[k], r.states[k])
  {
    hide Justified;
    var r := Publish(sto, key, res, hash, src, mp, found, stamp);
    forall k | k in r.states ensures OrderedAt(h, r, k) {
      assert OrderedAt(h, sto, k);
    }
  }

  /** ... and keeps the table sound, provided the result is justified and current if it counts at all. */
  lemma PublishSound(w: World, h: History, sto: Store, dirty: Dirty, key: Key, res: Result, hash: Overlay,
                     src: Source, mp: ModPath, found: Found, stamp: int)
    requires Sound(w, h, sto, dirty) && key in sto.states && stamp <= sto.clock
    requires key.noHash ==> hash == map[] && !Settled(sto.states[key])
    requires sto.states[key].invAt < stamp ==>
               && Justified(w, sto.states, key, src, found, res) && Rests(w, sto.states, key, found)
               && Occurs(w, h, key, src, mp, found)
               && (ReadSince(dirty, key.pp.dir, stamp) ==> src == Current(w, sto.sources, key, hash))
    ensures Sound(w, h, Publish(sto, key, res, hash, src, mp, found, stamp), dirty)
    ensures key.noHash ==> Grows(sto, Publish(sto, key, res, hash, src, mp, found, stamp))
  {
    hide CoherentAt, Kept, Ordered;
    var r := Publish(sto, key, res, hash, src, mp, found, stamp);
    PublishGrows(w, h, sto, dirty, key, res, hash, src, mp, found, stamp);
    forall k | k in r.states && Settled(r.states[k]) ensures CoherentAt(w, h, r.states, k) {
      if k == key {
        PublishedAt(w, h, sto, key, res, hash, src, mp, found, stamp);
      } else {
        CoherentKept(w, h, sto.states, r.states, k);
      }
    }
  }

  /** The published state itself: no state rests on itself before it is settled. */
  lemma PublishedAt(w: World, h: History, sto: Store, key: Key, res: Result, hash: Overlay,
                    src: Source, mp: ModPath, found: Found, stamp: int)
    requires key in sto.states && (key.noHash ==> !Settled(sto.states[key]))
    requires Justified(w, sto.states, key, src, found, res) && Rests(w, sto.states, key, found)
    requires Occurs(w, h, key, src, mp, found)
    ensures CoherentAt(w, h, Publish(sto, key, res, hash, src, mp, found, stamp).states, key)
  {
    hide Justified, Occurs, DepResult;
    var r := Publish(sto, key, res, hash, src, mp, found, stamp);
    forall k | k in sto.states && k.noHash ensures Kept(sto.states[k], r.states[k]) { }
    forall ip | DepResult(w, sto.states, key, found, ip).Some?
      ensures DepResult(w, r.states, key, found, ip) == DepResult(w, sto.states, key, found, ip)
    {
      DepResultKept(w, sto.states, r.states, key, found, ip);
    }
    JustifiedSame(w, sto.states, r.states, key, src, found, res);
  }

  // ---------------------------------------------------------------- clearing

  ghost function StatesOf(sto: Store, dir: string): set<Key> {
    set k | k in sto.states && k.pp.dir == dir
  }

  /** A directory changes and the change is announced: its memo is cleared. */
  ghost function Change(sto: Store, dir: string, src: Source): Store {
    Clear(sto.(sources := sto.sources[dir := src]), StatesOf(sto, dir))
  }

  lemma RootHit(g: Graph, roots: set<Key>, k: Key)
    requires k in g && k in roots
    ensures Hit(g, roots, k)
  {
    ReachesSelf(g, k);
  }

  lemma ImporterHit(g: Graph, roots: set<Key>, d: Key, k: Key)
    requires k in g && d in g && k in g[d] && Hit(g, roots, d)
    ensures Hit(g, roots, k)
  {
    var r :| r in roots && Reaches(g, r, d);
    ReachesSelf(g, k);
    ReachesStep(g, d, k, k);
    ReachesJoin(g, r, d, k);
  }

  /** What a walk does to a dependency result: it goes if the walk comes upon a state that is no newer than its
      stamp, and stays otherwise. A state that the walk does not reach rests on none that it does. */
  lemma DepAfterWalk(w: World, sto: Store, roots: set<Key>, stamp: int, k: Key, found: Found, ip: string)
    requires k in sto.states && DepResult(w, sto.states, k, found, ip).Some?
    ensures var r := Stamped(sto, roots, stamp);
            DepResult(w, r.states, k, found, ip)
            == if Lost(w, sto, roots, stamp, k, found, ip) then None else DepResult(w, sto.states, k, found, ip)
    ensures Lost(w, sto, roots, stamp, k, found, ip) ==> Hit(Imby(sto.states), roots, k)
  {
    hide Hit;
    if found[ip].At? {
      var g := Imby(sto.states);
      var dk := DepKey(w, k, found[ip].pp);
      if Hit(g, roots, dk) {
        ImporterHit(g, roots, dk, k);
      }
    }
  }

  /** The walk takes the dependency away. */
  ghost predicate Lost(w: World, sto: Store, roots: set<Key>, stamp: int, k: Key, found: Found, ip: string) {
    && ip in found && found[ip].At?
    && var dk := DepKey(w, k, found[ip].pp);
    && dk in sto.states && Hit(Imby(sto.states), roots, dk) && sto.states[dk].chkAt <= stamp
  }

  /** The walk does not bring back what a later one has invalidated. */
  ghost predicate Orderly(sto: Store, roots: set<Key>, stamp: int) {
    forall k | k in sto.states && Hit(Imby(sto.states), roots, k) && sto.states[k].chkAt > stamp ::
      Settled(sto.states[k])
  }

  /** It says just that. */
  lemma OrderlyIff(sto: Store, roots: set<Key>, stamp: int)
    ensures Orderly(sto, roots, stamp)
       <==> forall k | k in sto.states && Settled(Stamped(sto, roots, stamp).states[k]) :: Settled(sto.states[k])
  {
    hide Hit;
    var r := Stamped(sto, roots, stamp);
    forall k | k in sto.states && Hit(Imby(sto.states), roots, k) && sto.states[k].chkAt > stamp
      ensures Settled(r.states[k])
    {
    }
  }

  /** A result is newer than the stamp of the walk, but what it rests on is not, and has not been walked yet. */
  ghost predicate Overtaken(w: World, sto: Store, roots: set<Key>, stamp: int) {
    exists k, ip :: k in sto.states && Settled(sto.states[k]) && sto.states[k].chkAt > stamp
                    && Lost(w, sto, roots, stamp, k, sto.states[k].found, ip)
  }

  /** The directories that are still dirty when a walk is over: those that changed after its stamp was drawn, and
      others. */
  function Cleaned(dirty: Dirty, dir: string, stamp: int): Dirty {
    if dir in dirty && dirty[dir] < stamp then dirty - {dir} else dirty
  }

  lemma WalkedAt(h: History, sto: Store, roots: set<Key>, stamp: int, k: Key)
    requires Ordered(h, sto) && stamp <= sto.clock && k in sto.states
    ensures var r := Stamped(sto, roots, stamp);
            && OrderedAt(h, r, k)
            && r.states[k] == sto.states[k].(invAt := r.states[k].invAt)
            && (Settled(r.states[k]) <==>
                  if Hit(Imby(sto.states), roots, k) then sto.states[k].chkAt > stamp else Settled(sto.states[k]))
  {
    hide Hit;
    assert OrderedAt(h, sto, k);
  }

  /** A settled state that survives the walk is still coherent if and only if it loses nothing it rests on. */
  lemma WalkCoherentAt(w: World, h: History, sto: Store, roots: set<Key>, stamp: int, k: Key)
    requires k in sto.states && CoherentAt(w, h, sto.states, k)
    ensures CoherentAt(w, h, Stamped(sto, roots, stamp).states, k)
       <==> forall ip :: !Lost(w, sto, roots, stamp, k, sto.states[k].found, ip)
  {
    hide Hit, Justified, Occurs, DepResult, Lost;
    var r, found := Stamped(sto, roots, stamp), sto.states[k].found;
    assert r.states[k] == sto.states[k].(invAt := r.states[k].invAt);
    forall ip | DepResult(w, sto.states, k, found, ip).Some?
      ensures DepResult(w, r.states, k, found, ip)
              == if Lost(w, sto, roots, stamp, k, found, ip) then None else DepResult(w, sto.states, k, found, ip)
    {
      DepAfterWalk(w, sto, roots, stamp, k, found, ip);
    }
    if forall ip :: !Lost(w, sto, roots, stamp, k, found, ip) {
      CoherentSame(w, h, sto.states, r.states, k);
    } else {
      var ip :| Lost(w, sto, roots, stamp, k, found, ip);
      LostIsFound(w, sto, roots, stamp, k, found, ip);
      assert DepResult(w, sto.states, k, found, ip).Some?;
      assert DepResult(w, r.states, k, found, ip).None?;
    }
  }

  lemma LostIsFound(w: World, sto: Store, roots: set<Key>, stamp: int, k: Key, found: Found, ip: string)
    requires Lost(w, sto, roots, stamp, k, found, ip)
    ensures ip in found
  {
  }

  /** A walk keeps the table sound, and leaves its directory clean unless that changed since, if and only if no
      result is newer than its stamp and rests on a state that is not. */
  lemma WalkSound(w: World, h: History, sto: Store, dirty: Dirty, dir: string, stamp: int)
    requires Sound(w, h, sto, dirty) && stamp <= sto.clock && Orderly(sto, StatesOf(sto, dir), stamp)
    ensures Sound(w, h, Stamped(sto, StatesOf(sto, dir), stamp), Cleaned(dirty, dir, stamp))
       <==> !Overtaken(w, sto, StatesOf(sto, dir), stamp)
  {
    hide Hit, CoherentAt, Lost, Stamped, Overtaken;
    var roots := StatesOf(sto, dir);
    var r := Stamped(sto, roots, stamp);
    forall k | k in sto.states
      ensures OrderedAt(h, r, k)
      ensures Settled(r.states[k]) ==> Settled(sto.states[k])
      ensures Settled(r.states[k]) && ReadSince(Cleaned(dirty, dir, stamp), k.pp.dir, r.states[k].chkAt) ==>
                r.states[k].seen == Current(w, r.sources, k, r.states[k].hash)
    {
      WalkedAt(h, sto, roots, stamp, k);
      if k.pp.dir == dir {
        RootHit(Imby(sto.states), roots, k);
      }
    }
    WalkOvertaken(w, h, sto, roots, stamp);
  }

  lemma WalkOvertaken(w: World, h: History, sto: Store, roots: set<Key>, stamp: int)
    requires Coherent(w, h, sto) && stamp <= sto.clock && Orderly(sto, roots, stamp)
    ensures var r := Stamped(sto, roots, stamp);
            (forall k | k in r.states && Settled(r.states[k]) :: CoherentAt(w, h, r.states, k))
                <==> !Overtaken(w, sto, roots, stamp)
  {
    hide Hit, CoherentAt, Lost, Stamped;
    var r := Stamped(sto, roots, stamp);
    forall k | k in sto.states
      ensures Settled(r.states[k]) ==>
                && Settled(sto.states[k])
                && (CoherentAt(w, h, r.states, k)
                    <==> forall ip :: !Lost(w, sto, roots, stamp, k, sto.states[k].found, ip))
      ensures Settled(r.states[k]) && (exists ip :: Lost(w, sto, roots, stamp, k, sto.states[k].found, ip)) ==>
                sto.states[k].chkAt > stamp
      ensures Settled(sto.states[k]) && sto.states[k].chkAt > stamp ==> Settled(r.states[k])
    {
      WalkedAt(h, sto, roots, stamp, k);
      if Settled(r.states[k]) {
        WalkCoherentAt(w, h, sto, roots, stamp, k);
        if ip :| Lost(w, sto, roots, stamp, k, sto.states[k].found, ip) {
          LostIsHit(w, h, sto, roots, stamp, k, ip);
        }
      }
    }
  }

  lemma LostIsHit(w: World, h: History, sto: Store, roots: set<Key>, stamp: int, k: Key, ip: string)
    requires k in sto.states && CoherentAt(w, h, sto.states, k)
        && Lost(w, sto, roots, stamp, k, sto.states[k].found, ip)
    ensures Hit(Imby(sto.states), roots, k)
  {
    hide Hit, Justified, Occurs;
    DepAfterWalk(w, sto, roots, stamp, k, sto.states[k].found, ip);
  }

  lemma SetSourceOrdered(h: History, sto: Store, srcs: Sources)
    requires Ordered(h, sto)
    ensures Ordered(h, sto.(sources := srcs))
  {
    forall k | k in sto.states ensures OrderedAt(h, sto.(sources := srcs), k) {
      assert OrderedAt(h, sto, k);
    }
  }

  /** A change makes its directory dirty from now on. */
  lemma EditSound(w: World, h: History, sto: Store, dirty: Dirty, dir: string, src: Source)
    requires Sound(w, h, sto, dirty)
    ensures Sound(w, h, sto.(sources := sto.sources[dir := src]), dirty[dir := sto.clock])
  {
    hide CoherentAt;
    SetSourceOrdered(h, sto, sto.sources[dir := src]);
    forall k | k in sto.states ensures sto.states[k].chkAt <= sto.clock {
      assert OrderedAt(h, sto, k);
    }
  }

  /** No result is newer than a stamp drawn just now. */
  lemma NewestStamp(w: World, h: History, sto: Store, roots: set<Key>, stamp: int)
    requires Ordered(h, sto) && stamp >= sto.clock
    ensures Orderly(sto, roots, stamp) && !Overtaken(w, sto, roots, stamp)
  {
    hide Hit, Lost;
    forall k | k in sto.states ensures sto.states[k].chkAt <= stamp {
      assert OrderedAt(h, sto, k);
    }
  }

  /** A change and its clearing at once leave a sound table on which the directory is clean. */
  lemma ClearSound(w: World, h: History, sto: Store, dirty: Dirty, dir: string, src: Source)
    requires Sound(w, h, sto, dirty)
    ensures Sound(w, h, Change(sto, dir, src), dirty - {dir})
  {
    hide Sound, Stamped, Ordered, Orderly, Overtaken;
    var sto1 := sto.(sources := sto.sources[dir := src]);
    var sto2 := sto1.(clock := sto1.clock + 1);
    EditSound(w, h, sto, dirty, dir, src);
    TickSound(w, h, sto1, dirty[dir := sto.clock], sto1.clock + 1);
    SoundHasOrder(w, h, sto2, dirty[dir := sto.clock]);
    NewestStamp(w, h, sto2, StatesOf(sto2, dir), sto2.clock);
    WalkSound(w, h, sto2, dirty[dir := sto.clock], dir, sto2.clock);
    assert dirty[dir := sto.clock] - {dir} == dirty - {dir};
    assert StatesOf(sto2, dir) == StatesOf(sto, dir);
  }

  lemma SoundHasOrder(w: World, h: History, sto: Store, dirty: Dirty)
    requires Sound(w, h, sto, dirty)
    ensures Ordered(h, sto)
  {
    hide Ordered;
  }

  // ---------------------------------------------------------------- changes and resolutions

  /** Every settled state would, in the modules of its check, still find what it found. */
  ghost predicate AllResolved(w: World, sto: Store) {
    forall k | k in sto.states && Settled(sto.states[k]) ::
      Resolved(w, sto.sources, k, sto.states[k].mp, sto.states[k].found)
  }

  /** Every settled state that has an import lead elsewhere after the change is reached by the invalidation. */
  ghost predicate ReachesLookups(w: World, sto: Store, dir: string, src: Source) {
    forall k | k in sto.states && Settled(sto.states[k]) && !Hit(Imby(sto.states), StatesOf(sto, dir), k) ::
      Resolved(w, sto.sources[dir := src], k, sto.states[k].mp, sto.states[k].found)
  }

  /** After a change all resolutions hold if and only if its invalidation reached the states whose imports it moved. */
  lemma ChangeResolved(w: World, h: History, sto: Store, dir: string, src: Source)
    requires Ordered(h, sto)
    ensures AllResolved(w, Change(sto, dir, src)) <==> ReachesLookups(w, sto, dir, src)
  {
    hide Hit, Clear, Resolved;
    var sto1, roots := sto.(sources := sto.sources[dir := src]), StatesOf(sto, dir);
    SetSourceOrdered(h, sto, sto1.sources);
    assert Change(sto, dir, src).sources == sto1.sources by { ClearBasics(sto1, roots); }
    forall k | k in sto.states
      ensures Settled(Change(sto, dir, src).states[k]) <==> Settled(sto.states[k]) && !Hit(Imby(sto.states), roots, k)
      ensures Change(sto, dir, src).states[k].mp == sto.states[k].mp
      ensures Change(sto, dir, src).states[k].found == sto.states[k].found
    {
      ClearedFound(h, sto1, roots, k);
    }
  }

  lemma ClearBasics(sto: Store, roots: set<Key>)
    ensures Clear(sto, roots).clock == sto.clock + 1 && Clear(sto, roots).sources == sto.sources
  {
  }

  lemma ClearedFound(h: History, sto: Store, roots: set<Key>, k: Key)
    requires Ordered(h, sto) && k in sto.states
    ensures Settled(Clear(sto, roots).states[k]) <==> Settled(sto.states[k]) && !Hit(Imby(sto.states), roots, k)
    ensures Clear(sto, roots).states[k].mp == sto.states[k].mp
        && Clear(sto, roots).states[k].found == sto.states[k].found
  {
    hide Hit;
    assert OrderedAt(h, sto, k);
  }
}
