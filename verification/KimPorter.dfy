/** The importer in its own form: state objects that are updated in place under their locks, importer
    chains that are walked by loops, and a table from keys to states. Each method is tied to the function
    that the properties are proved about. */
module KimPorter {
  import opened Wrappers
  import opened ImportModel
  import opened ImportCache
  import opened Invalidation
  import opened TableSteps
  import opened SeqImport

  class State {
    const key: Key
    var chkAt: int
    var invAt: int
    var imby: seq<State>
    var res: Result
    var hash: Overlay
    var locked: bool
    ghost var seen: Source              // the source the result was computed from
    ghost var mp: ModPath               // the modules its imports were looked up in
    ghost var found: Found              // and where they led

    constructor (key: Key)
      ensures this.key == key && chkAt == 0 && invAt == 0 && imby == [] && !locked
      ensures res == FRESH.res && hash == map[] && seen == "" && mp == [] && found == map[]
    {
      this.key := key;
      chkAt, invAt, imby, res, hash, locked := 0, 0, [], Failed(Other("")), map[], false;
      seen, mp, found := "", [], map[];
    }

    /** Registers an importer once. */
    method ImportedBy(p: State)
      modifies this`imby
      ensures imby == if p in old(imby) then old(imby) else old(imby) + [p]
    {
      for i := 0 to |imby|
        invariant p !in imby[..i]
        invariant imby == old(imby)
      {
        if p == imby[i] {
          return;
        }
      }
      assert imby[..|imby|] == imby;
      imby := imby + [p];
    }

    /** Stores the result of a check. */
    method Record(res: Result, hash: Overlay, ghost src: Source, ghost mp: ModPath, ghost found: Found, stamp: int)
      modifies this`res, this`hash, this`seen, this`mp, this`found, this`chkAt
      ensures this.res == res && this.hash == hash && chkAt == stamp
      ensures seen == src && this.mp == mp && this.found == found
    {
      this.res, this.hash, chkAt := res, hash, stamp;
      seen, this.mp, this.found := src, mp, found;
    }

    predicate IsValid(hash: Overlay)
      reads this
    {
      chkAt > invAt && (key.noHash || this.hash == hash)
    }
  }

  function KeysOf(l: seq<State>): (ks: seq<Key>)
    ensures |ks| == |l| && forall i | 0 <= i < |l| :: ks[i] == l[i].key
  {
    if l == [] then [] else KeysOf(l[..|l| - 1]) + [l[|l| - 1].key]
  }

  lemma NoKeys()
    ensures KeysOf([]) == []
  {
  }

  /** The importer chain is walked twice: once to find an ancestor that is the package, and once more,
      without a guard, to describe the way to it. */
  method DetectCycleLoop(kp: Importer, pp: PkgPath) returns (r: Option<Error>)
    ensures r == DetectCycle(kp, pp)
  {
    ghost var c := Chain(kp);
    ghost var n: nat := 0;
    var p := Some(kp);
    while p.Some?
      invariant n <= |c|
      invariant c[n..] == if p.Some? then Chain(p.value) else []
      invariant forall j | 0 <= j < n :: !Targets(c[j], pp)
      decreases if p.Some? then 1 + Size(p.value) else 0
    {
      if p.value.ks.Some? {
        assert c[n] == p.value.ks.value;
        if Targets(p.value.ks.value, pp) {
          r := DescribeCycle(kp, pp, n);
          return;
        }
        assert c[n + 1..] == c[n..][1..];
        n := n + 1;
      }
      p := p.value.par;
    }
    NoTarget(c, pp);
    r := None;
  }

  ghost function Size(kp: Importer): nat {
    if kp.par.Some? then 1 + Size(kp.par.value) else 0
  }

  lemma NoTarget(c: seq<Key>, pp: PkgPath)
    requires forall j | 0 <= j < |c| :: !Targets(c[j], pp)
    ensures FirstTarget(c, pp) == |c|
  {
  }

  lemma TargetAt(c: seq<Key>, pp: PkgPath, n: nat)
    requires n < |c| && Targets(c[n], pp) && forall j | 0 <= j < n :: !Targets(c[j], pp)
    ensures FirstTarget(c, pp) == n
  {
  }

  method DescribeCycle(kp: Importer, pp: PkgPath, ghost n: nat) returns (r: Option<Error>)
    requires n < |Chain(kp)| && Targets(Chain(kp)[n], pp)
    requires forall j | 0 <= j < n :: !Targets(Chain(kp)[j], pp)
    ensures r == DetectCycle(kp, pp)
  {
    hide Paths, FirstTarget, DetectCycle, Chain, Suffix;
    ghost var c := Chain(kp);
    var l := [pp];
    ghost var m: nat := 0;
    var p := kp;
    SuffixSelf(c);
    while true
      invariant m <= n && Suffix(c, m, Chain(p))
      invariant Lists(c, pp, m, l)
      decreases Size(p)
    {
      if p.ks.Some? {
        SuffixNext(c, m, p);
        l := l + [p.ks.value.pp];
        assert Lists(c, pp, m + 1, l);
        if Targets(p.ks.value, pp) {
          CycleText(kp, pp, n, l);
          return Some(Cycle(l));
        }
        m := m + 1;
      } else {
        SuffixNext(c, m, p);
      }
      p := p.par.value;                 // never beyond the end of the chain
    }
  }

  ghost predicate Suffix(c: seq<Key>, m: nat, d: seq<Key>) {
    m + |d| == |c| && forall j | 0 <= j < |d| :: d[j] == c[m + j]
  }

  lemma SuffixSelf(c: seq<Key>)
    ensures Suffix(c, 0, c)
  {
  }

  lemma ChainUnfold(p: Importer)
    ensures p.ks.Some? && p.par.Some? ==> Chain(p) == [p.ks.value] + Chain(p.par.value)
    ensures p.ks.None? && p.par.Some? ==> Chain(p) == Chain(p.par.value)
    ensures p.par.None? ==> Chain(p) == if p.ks.Some? then [p.ks.value] else []
  {
  }

  lemma SuffixNext(c: seq<Key>, m: nat, p: Importer)
    requires m < |c| && Suffix(c, m, Chain(p))
    ensures p.ks.Some? ==> p.ks.value == c[m]
    ensures p.par.Some? ==> Suffix(c, if p.ks.Some? then m + 1 else m, Chain(p.par.value))
    ensures p.par.None? ==> p.ks.Some? && m + 1 == |c|
  {
    hide Chain;
    ChainUnfold(p);
    if p.ks.Some? {
      assert Chain(p)[0] == p.ks.value;
      if p.par.Some? {
        var e := Chain(p.par.value);
        forall j | 0 <= j < |e| ensures e[j] == c[m + 1 + j] {
          assert Chain(p)[j + 1] == e[j];
        }
      }
    }
  }

  /** `l` holds the package and then the first `m` states of the chain. */
  ghost predicate Lists(c: seq<Key>, pp: PkgPath, m: nat, l: seq<PkgPath>) {
    m <= |c| && |l| == m + 1 && l[0] == pp && forall j | 0 < j <= m :: l[j] == c[j - 1].pp
  }

  lemma CycleText(kp: Importer, pp: PkgPath, n: nat, l: seq<PkgPath>)
    requires n < |Chain(kp)| && Targets(Chain(kp)[n], pp)
    requires forall j | 0 <= j < n :: !Targets(Chain(kp)[j], pp)
    requires Lists(Chain(kp), pp, n + 1, l)
    ensures DetectCycle(kp, pp) == Some(Cycle(l))
  {
    hide Paths;
    var c := Chain(kp);
    TargetAt(c, pp, n);
    assert [pp] + Paths(c[..n + 1]) == l;
  }

  /** `after` still has every state that `before` has. */
  ghost predicate Sub(before: map<Key, State>, after: map<Key, State>) {
    forall k | k in before :: k in after && after[k] == before[k]
  }

  lemma SubTwice(a: map<Key, State>, b: map<Key, State>, c: map<Key, State>)
    requires Sub(a, b) && Sub(b, c)
    ensures Sub(a, c)
  {
  }

  lemma SubSelf(a: map<Key, State>)
    ensures Sub(a, a)
  {
  }

  lemma SubAt(a: map<Key, State>, b: map<Key, State>, k: Key)
    requires Sub(a, b) && k in a
    ensures k in b && b[k] == a[k]
  {
  }

  lemma SubKeys(a: map<Key, State>, b: map<Key, State>)
    requires Sub(a, b)
    ensures a.Keys <= b.Keys
  {
  }

  // ---------------------------------------------------------------- walking a list of importers

  ghost predicate Above(g: Graph, h: History, ls: seq<Key>, lo: nat) {
    forall p | p in ls :: p in g && h.rank(p.pp) >= lo
  }

  /** What is left of a walk over `ls` from index `i` on. */
  ghost function WalkFrom(g: Graph, h: History, top: nat, inv: Stamps, ls: seq<Key>, i: nat, stamp: int,
                          lo: nat): Stamps
    requires Layered(g, h, top) && lo <= top + 1 && inv.Keys == g.Keys && i <= |ls| && Above(g, h, ls, lo)
  {
    WalkAll(g, h, top, inv, ls[i..], stamp, lo)
  }

  lemma WalkFromNext(g: Graph, h: History, top: nat, inv: Stamps, ls: seq<Key>, i: nat, stamp: int, lo: nat)
    requires Layered(g, h, top) && lo <= top + 1 && inv.Keys == g.Keys && i < |ls| && Above(g, h, ls, lo)
    ensures ls[i] in g
    ensures WalkFrom(g, h, top, inv, ls, i, stamp, lo) ==
            WalkFrom(g, h, top, Walk(g, h, top, inv, ls[i], stamp), ls, i + 1, stamp, lo)
  {
    hide Walk, Layered;
    assert ls[i..][0] == ls[i] && ls[i..][1..] == ls[i + 1..];
  }

  lemma RankAbove(g: Graph, h: History, ls: seq<Key>, lo: nat, i: nat)
    requires i < |ls| && Above(g, h, ls, lo)
    ensures h.rank(ls[i].pp) >= lo
  {
  }

  lemma WalkFromEnds(g: Graph, h: History, top: nat, inv: Stamps, ls: seq<Key>, stamp: int, lo: nat)
    requires Layered(g, h, top) && lo <= top + 1 && inv.Keys == g.Keys && Above(g, h, ls, lo)
    ensures WalkFrom(g, h, top, inv, ls, |ls|, stamp, lo) == inv
    ensures WalkFrom(g, h, top, inv, ls, 0, stamp, lo) == WalkAll(g, h, top, inv, ls, stamp, lo)
  {
    hide Walk, Layered;
    assert ls[0..] == ls;
  }

  lemma WalkUnfold(g: Graph, h: History, top: nat, inv: Stamps, k: Key, stamp: int)
    requires Layered(g, h, top) && k in g && inv.Keys == g.Keys
    ensures h.rank(k.pp) <= top && Above(g, h, g[k], h.rank(k.pp) + 1)
    ensures Walk(g, h, top, inv, k, stamp) == WalkFrom(g, h, top, inv[k := stamp], g[k], 0, stamp, h.rank(k.pp) + 1)
  {
    assert g[k][0..] == g[k];
  }

  /** The states of all packages, looked up by key, and the global clock of stamps. */
  class Table {
    var clock: int
    var sources: Sources
    var states: map<Key, State>
    ghost var repr: set<State>

    constructor ()
      ensures Consistent() && Abs() == Store(0, map[], map[])
    {
      clock, sources, states, repr := 0, map[], map[], {};
    }

    ghost predicate Consistent()
      reads this`states, this`repr, repr`imby
    {
      && (forall k | k in states :: states[k] in repr && states[k].key == k)
      && (forall s | s in repr :: s.key in states && states[s.key] == s)
      && (forall k | k in states :: Known(states[k].imby))
    }

    ghost predicate Known(l: seq<State>)
      reads this`states
    {
      forall p | p in l :: p.key in states && states[p.key] == p
    }

    lemma KnownGrows(before: map<Key, State>, l: seq<State>)
      requires forall p | p in l :: p.key in before && before[p.key] == p
      requires forall k | k in before :: k in states && states[k] == before[k]
      ensures Known(l)
    {
    }

    ghost function Value(s: State): St
      reads s
    {
      St(s.chkAt, s.invAt, KeysOf(s.imby), s.res, s.hash, s.seen, s.mp, s.found)
    }

    ghost function Abs(): (sto: Store)
      reads this, repr
      requires Consistent()
      ensures sto.clock == clock && sto.sources == sources && sto.states.Keys == states.Keys
      ensures forall k | k in states :: sto.states[k] == Value(states[k])
    {
      Store(clock, sources, map k | k in states :: Value(states[k]))
    }

    // -------------------------------------------------------------- invalidation

    ghost function Importers(): (g: Graph)
      reads this, repr
      requires Consistent()
      ensures g.Keys == states.Keys
    {
      map k | k in states :: KeysOf(states[k].imby)
    }

    ghost function InvStamps(): (inv: Stamps)
      reads this, repr
      requires Consistent()
      ensures inv.Keys == states.Keys
    {
      map k | k in states :: states[k].invAt
    }

    lemma ImbyKnown(ks: State)
      requires Consistent() && ks.key in states && states[ks.key] == ks
      ensures Known(ks.imby) && KeysOf(ks.imby) == Importers()[ks.key]
      ensures ks in repr && forall k | k in states && k != ks.key :: states[k] != ks
    {
    }

    twostate lemma NothingStamped()
      requires old(Consistent()) && states == old(states)
      requires repr == old(repr)
      requires forall k | k in states ::
                 states[k].imby == old(states[k].imby) && states[k].invAt == old(states[k].invAt)
      ensures Consistent() && Importers() == old(Importers()) && InvStamps() == old(InvStamps())
    {
    }

    /** Setting a stamp changes that stamp and nothing else. */
    method SetInvAt(ks: State, stamp: int)
      requires Consistent() && ks.key in states && states[ks.key] == ks
      modifies repr`invAt
      ensures Consistent() && Importers() == old(Importers())
      ensures InvStamps() == old(InvStamps())[ks.key := stamp]
    {
      hide KeysOf, Known;
      ghost var g := Importers();
      ks.invAt := stamp;
      assert Consistent();
      forall k | k in states ensures Importers()[k] == g[k] { }
    }

    /** Stamps a state and, recursively, everything that imported it. */
    method Invalidate(ks: State, stamp: int, ghost h: History, ghost top: nat)
      requires Consistent() && ks.key in states && states[ks.key] == ks
      requires Layered(Importers(), h, top)
      modifies repr`invAt
      ensures Consistent() && Importers() == old(Importers())
      ensures InvStamps() == Walk(old(Importers()), h, top, old(InvStamps()), ks.key, stamp)
      decreases top + 1 - h.rank(ks.key.pp)
    {
      hide Layered, Walk, WalkAll, WalkFrom, Above, Importers, InvStamps, Consistent;
      ghost var g := Importers();
      ghost var lo := h.rank(ks.key.pp) + 1;
      ghost var goal := Walk(g, h, top, InvStamps(), ks.key, stamp);
      WalkUnfold(g, h, top, InvStamps(), ks.key, stamp);
      var l := ks.imby;
      ghost var ls := KeysOf(l);
      ImbyKnown(ks);
      SetInvAt(ks, stamp);
      for i := 0 to |l|
        invariant Consistent() && Importers() == g && Known(l)
        invariant WalkFrom(g, h, top, InvStamps(), ls, i, stamp, lo) == goal
      {
        WalkFromNext(g, h, top, InvStamps(), ls, i, stamp, lo);
        RankAbove(g, h, ls, lo, i);
        Invalidate(l[i], stamp, h, top);
      }
      WalkFromEnds(g, h, top, InvStamps(), ls, stamp, lo);
    }

    /** Draws one stamp and pushes it from each of the roots. */
    method PushStamp(roots: seq<State>, ghost h: History)
      requires Consistent() && Known(roots)
      requires Layered(Importers(), h, Top(states.Keys, h))
      modifies this`clock, repr`invAt
      ensures Consistent() && Importers() == old(Importers()) && clock == old(clock) + 1
      ensures InvStamps() == WalkAll(old(Importers()), h, Top(old(states.Keys), h), old(InvStamps()), KeysOf(roots),
          clock, 0)
    {
      hide Layered, Walk, WalkAll, WalkFrom, Above, Top, Importers, InvStamps, Consistent;
      clock := clock + 1;
      NothingStamped();
      ghost var g, top := Importers(), Top(states.Keys, h);
      ghost var ls := KeysOf(roots);
      KnownAbove(h, roots);
      WalkFromEnds(g, h, top, InvStamps(), ls, clock, 0);
      ghost var goal := WalkAll(g, h, top, InvStamps(), ls, clock, 0);
      for i := 0 to |roots|
        invariant Consistent() && Importers() == g && clock == old(clock) + 1
        invariant WalkFrom(g, h, top, InvStamps(), ls, i, clock, 0) == goal
      {
        WalkFromNext(g, h, top, InvStamps(), ls, i, clock, 0);
        Invalidate(roots[i], clock, h, top);
      }
      WalkFromEnds(g, h, top, InvStamps(), ls, clock, 0);
    }

    /** The lists and stamps that the walks go over are those of the table. */
    lemma GraphOf()
      requires Consistent()
      ensures Imby(Abs().states) == Importers() && InvAts(Abs().states) == InvStamps()
    {
    }

    /** Clears the states of a directory: everything that rests on them, and nothing else, gets one new stamp. */
    method Clear(roots: seq<State>, ghost h: History)
      requires Consistent() && Known(roots) && Ordered(h, Abs())
      modifies this`clock, repr`invAt
      ensures Consistent() && Abs() == Invalidation.Clear(old(Abs()), Elems(KeysOf(roots)))
    {
      hide KeysOf, Importers, InvStamps, Layered, Walk, WalkAll, Top, Invalidation.Clear, Abs, Consistent, Ordered,
        ClearWalk, Imby, InvAts, WithInvAts, Known;
      ghost var sto, ks := Abs(), KeysOf(roots);
      GraphOf();
      OrderedIsLayered(h, sto);
      RootsKnown(roots);
      StampRoots(roots, h);
      ClearWalkOf(sto, h, ks, InvStamps());
      ClearWalkIsClear(h, sto, ks);
    }

    method StampRoots(roots: seq<State>, ghost h: History)
      requires Consistent() && Known(roots)
      requires Layered(Importers(), h, Top(states.Keys, h))
      modifies this`clock, repr`invAt
      ensures Consistent() && clock == old(clock) + 1
      ensures InvStamps() == WalkAll(old(Importers()), h, Top(old(states.Keys), h), old(InvStamps()), KeysOf(roots),
          clock, 0)
      ensures Abs() == old(Abs()).(clock := clock, states := WithInvAts(old(Abs()).states, InvStamps()))
    {
      hide KeysOf, Importers, InvStamps, Layered, Walk, WalkAll, Top, Abs, Consistent, WithInvAts, Known;
      ghost var sto := Abs();
      InRepr();
      PushStamp(roots, h);
      StampsOnly(sto);
    }

    lemma InRepr()
      requires Consistent()
      ensures forall k | k in states :: states[k] in repr
    {
    }

    /** A table in which only the clock and stamps of invalidation moved. */
    lemma StampsOnly(sto: Store)
      requires Consistent() && sources == sto.sources && states.Keys == sto.states.Keys
      requires forall k | k in states :: Value(states[k]) == sto.states[k].(invAt := states[k].invAt)
      ensures Abs() == sto.(clock := clock, states := WithInvAts(sto.states, InvStamps()))
    {
    }

    lemma ClearWalkOf(sto: Store, h: History, ks: seq<Key>, inv: Stamps)
      requires Layered(Imby(sto.states), h, Top(sto.states.Keys, h)) && forall k | k in ks :: k in sto.states
      requires inv == WalkAll(Imby(sto.states), h, Top(sto.states.Keys, h), InvAts(sto.states), ks, sto.clock + 1, 0)
      ensures inv.Keys == sto.states.Keys
      ensures ClearWalk(sto, h, ks) == sto.(clock := sto.clock + 1, states := WithInvAts(sto.states, inv))
    {
    }

    lemma RootsKnown(roots: seq<State>)
      requires Consistent() && Known(roots)
      ensures forall k | k in KeysOf(roots) :: k in states
    {
      var ks := KeysOf(roots);
      forall k | k in ks ensures k in states {
        var i :| 0 <= i < |ks| && ks[i] == k;
        assert roots[i] in roots;
      }
    }

    lemma KnownAbove(h: History, roots: seq<State>)
      requires Consistent() && Known(roots)
      ensures Above(Importers(), h, KeysOf(roots), 0)
    {
      var ks := KeysOf(roots);
      forall p | p in ks ensures p in states {
        var i :| 0 <= i < |ks| && ks[i] == p;
        assert roots[i] in roots;
      }
    }

    // -------------------------------------------------------------- importing

    /** Exactly the states on the chain are locked. */
    ghost predicate Locks(c: seq<Key>)
      reads this`repr, repr`locked
    {
      forall s | s in repr :: s.locked <==> s.key in c
    }

    lemma AbsIs(sto: Store)
      requires Consistent() && clock == sto.clock && sources == sto.sources && states.Keys == sto.states.Keys
      requires forall k | k in states :: Value(states[k]) == sto.states[k]
      ensures Abs() == sto
    {
    }

    /** The state of a key, created on first use. */
    method Lookup(key: Key) returns (ks: State)
      requires Consistent()
      modifies this`states, this`repr
      ensures Consistent() && key in states && states[key] == ks && ks.key == key
      ensures old(repr) <= repr && fresh(repr - old(repr))
      ensures Sub(old(states), states)
      ensures forall s | s in repr && s !in old(repr) :: s.key == key && !s.locked
      ensures Abs() == Touch(old(Abs()), key)
    {
      if key in states {
        ks := states[key];
      } else {
        ks := NewState(key);
      }
    }

    method NewState(key: Key) returns (ks: State)
      requires Consistent() && key !in states
      modifies this`states, this`repr
      ensures Consistent() && states == old(states)[key := ks] && !ks.locked && ks.key == key
      ensures repr == old(repr) + {ks} && fresh(ks)
      ensures Abs() == old(Abs()).(states := old(Abs()).states[key := FRESH])
    {
      hide KeysOf, Abs;
      ghost var sto := Abs();
      ks := new State(key);
      states, repr := states[key := ks], repr + {ks};
      NoKeys();
      forall k | k in states ensures Known(states[k].imby) {
        KnownGrows(old(states), states[k].imby);
      }
      AbsIs(sto.(states := sto.states[key := FRESH]));
    }

    lemma RegisteredOnce(l: seq<State>, p: State)
      requires Known(l) && p.key in states && states[p.key] == p
      ensures p.key in KeysOf(l) <==> p in l
    {
      var ks := KeysOf(l);
      if p.key in ks {
        var i :| 0 <= i < |ks| && ks[i] == p.key;
        assert l[i] in l;
      }
      if p in l {
        var i :| 0 <= i < |l| && l[i] == p;
        assert ks[i] == p.key;
      }
    }

    lemma KeysAppend(l: seq<State>, p: State)
      ensures KeysOf(l + [p]) == KeysOf(l) + [p.key]
    {
      assert (l + [p])[..|l|] == l;
    }

    lemma StateHasKey(k: Key)
      requires Consistent() && k in states
      ensures states[k].key == k && states[k] in repr
    {
    }

    method AddImporter(ks: State, p: State)
      requires Consistent() && ks.key in states && states[ks.key] == ks && p.key in states && states[p.key] == p
      modifies repr`imby
      ensures Consistent() && Abs() == Register(old(Abs()), ks.key, p.key)
    {
      hide KeysOf, Abs;
      ghost var sto, l := Abs(), ks.imby;
      assert Known(l);
      RegisteredOnce(l, p);
      KeysAppend(l, p);
      ks.ImportedBy(p);
      forall k | k in states ensures Known(states[k].imby) {
        if k != ks.key {
          assert states[k] != ks;
        }
      }
      forall k | k in states ensures Value(states[k]) == Register(sto, ks.key, p.key).states[k] {
        if k != ks.key {
          assert states[k] != ks;
        }
      }
      AbsIs(Register(sto, ks.key, p.key));
    }

    /** Looks the state up and registers the importing state with it. */
    method EnterState(kp: Importer, key: Key) returns (ks: State)
      requires Consistent() && (kp.ks.Some? ==> kp.ks.value in states)
      modifies this`states, this`repr, repr`imby
      ensures Consistent() && key in states && states[key] == ks && ks.key == key
      ensures old(repr) <= repr && fresh(repr - old(repr))
      ensures Sub(old(states), states)
      ensures forall s | s in repr && s !in old(repr) :: s.key == key && !s.locked
      ensures Abs() == Enter(old(Abs()), kp, key)
    {
      hide *;
      EnterIs(Abs(), kp, key);
      ks := Lookup(key);
      SubKeys(old(states), states);
      if kp.ks.Some? {
        StateHasKey(kp.ks.value);
        AddImporter(ks, states[kp.ks.value]);
      }
    }

    /** Stores the result of a check. */
    method Settle(ks: State, res: Result, hash: Overlay, ghost src: Source, ghost mp: ModPath, ghost found: Found,
                  stamp: int, ghost c: seq<Key>)
      requires Consistent() && ks.key in states && states[ks.key] == ks && Locks(c)
      modifies ks`res, ks`hash, ks`seen, ks`mp, ks`found, ks`chkAt
      ensures Consistent() && Locks(c) && Abs() == Publish(old(Abs()), ks.key, res, hash, src, mp, found, stamp)
    {
      hide KeysOf, Abs, Known, Publish, Consistent;
      ghost var sto := Abs();
      ghost var goal := Publish(sto, ks.key, res, hash, src, mp, found, stamp);
      PublishedAt(sto, ks.key, res, hash, src, mp, found, stamp);
      OtherStates(ks);
      ks.Record(res, hash, src, mp, found, stamp);
      forall k | k in states ensures Value(states[k]) == goal.states[k] { }
      AbsIs(goal);
    }

    lemma OtherStates(ks: State)
      requires Consistent() && ks.key in states && states[ks.key] == ks
      ensures forall k | k in states && k != ks.key :: states[k] != ks
      ensures ks in repr
    {
    }

    lemma PublishedAt(sto: Store, key: Key, res: Result, hash: Overlay, src: Source, mp: ModPath, found: Found,
                      stamp: int)
      requires key in sto.states
      ensures var r := Publish(sto, key, res, hash, src, mp, found, stamp);
              && r.clock == sto.clock && r.sources == sto.sources
              && (forall k | k in sto.states && k != key :: r.states[k] == sto.states[k])
              && r.states[key] == St(stamp, sto.states[key].invAt, sto.states[key].imby, res, hash, src, mp, found)
    {
    }

    method SetLocked(ks: State, locked: bool)
      requires Consistent() && ks.key in states && states[ks.key] == ks
      modifies repr`locked
      ensures Consistent() && Abs() == old(Abs())
      ensures forall s | s in repr :: s.locked == if s == ks then locked else old(s.locked)
    {
      hide KeysOf, Abs, Known;
      ghost var sto := Abs();
      ks.locked := locked;
      forall k | k in states && k != ks.key ensures states[k] != ks { }
      forall k | k in states ensures Value(states[k]) == sto.states[k] { }
      AbsIs(sto);
    }

    method Unlock(ks: State, ghost c: seq<Key>)
      requires Consistent() && ks.key in states && states[ks.key] == ks
      requires ks.key !in c && Locks([ks.key] + c)
      modifies repr`locked
      ensures Consistent() && Locks(c) && Abs() == old(Abs())
    {
      hide KeysOf, Abs, Known;
      SetLocked(ks, false);
    }

    method DrawStamp() returns (stamp: int)
      requires Consistent()
      modifies this`clock
      ensures Consistent() && stamp == clock && Abs() == old(Abs()).(clock := old(clock) + 1)
    {
      hide KeysOf, Abs, Known;
      ghost var sto := Abs();
      clock := clock + 1;
      stamp := clock;
      AbsIs(sto.(clock := clock));
    }

    /** The stamp is drawn before anything is read. */
    method CheckStamped(w: World, kx: Importer, key: Key, srcMap: Overlay)
      returns (r: Result, stamp: int, ghost src: Source, ghost found: Found)
      requires Finite(w, sources) && ChainOk(w, kx)
      requires Consistent() && Locks(Chain(kx)) && forall k | k in Chain(kx) :: k in states
      modifies this`clock, this`states, this`repr, repr
      ensures Consistent() && Locks(Chain(kx))
      ensures old(repr) <= repr && fresh(repr - old(repr)) && Sub(old(states), states)
      ensures var sto := old(Abs());
              && stamp == sto.clock + 1 && src == Current(w, sto.sources, key, srcMap)
              && Checked.Checked(Abs(), r, found) == Check(w, sto.(clock := sto.clock + 1), kx, key, src)
      decreases Room(w, kx), 2, 0
    {
      hide KeysOf, Abs, Known, Check, Finite, Room, ChainOk, Chain, Locks, Consistent, Sub;
      stamp := DrawStamp();
      var text := Current(w, sources, key, srcMap);
      src := text;
      r, found := CheckPkg(w, kx, key, text);
    }

    /** Checks the state under a new stamp and stores the result. */
    method CheckInto(w: World, kx: Importer, key: Key, srcMap: Overlay, hash: Overlay, ks: State) returns (r: Result)
      requires Finite(w, sources) && ChainOk(w, kx)
      requires Consistent() && Locks(Chain(kx)) && forall k | k in Chain(kx) :: k in states
      requires key in states && states[key] == ks && ks.key == key
      modifies this`clock, this`states, this`repr, repr
      ensures Consistent() && Locks(Chain(kx))
      ensures old(repr) <= repr && fresh(repr - old(repr)) && Sub(old(states), states)
      ensures Out(Abs(), r) == Renewed(w, old(Abs()), kx, key, srcMap, hash)
      decreases Room(w, kx), 3, 0
    {
      hide KeysOf, Abs, Known, Check, Finite, Room, ChainOk, Chain, Publish, Locks, Consistent, Sub, Current;
      StateHasKey(key);
      var stamp;
      ghost var src, found;
      r, stamp, src, found := CheckStamped(w, kx, key, srcMap);
      SubAt(old(states), states, key);
      Settle(ks, r, hash, src, kx.mp, found, stamp, Chain(kx));
    }

    method Renew(w: World, kp: Importer, pp: PkgPath, ks: State) returns (r: Result)
      requires Finite(w, sources) && ChainOk(w, kp) && pp.dir in w.dirs && DetectCycle(kp, pp).None?
      requires Chain(Branch(w, kp, StateKey(kp, pp))) == [StateKey(kp, pp)] + Chain(kp)
      requires ChainOk(w, Branch(w, kp, StateKey(kp, pp))) && Room(w, Branch(w, kp, StateKey(kp, pp))) < Room(w, kp)
      requires Consistent() && Locks([StateKey(kp, pp)] + Chain(kp)) && forall k | k in Chain(kp) :: k in states
      requires StateKey(kp, pp) in states && states[StateKey(kp, pp)] == ks && ks.key == StateKey(kp, pp)
      modifies this`clock, this`states, this`repr, repr
      ensures Consistent() && Locks([StateKey(kp, pp)] + Chain(kp))
      ensures old(repr) <= repr && fresh(repr - old(repr)) && Sub(old(states), states)
      ensures Out(Abs(), r)
           == Renewed(w, old(Abs()), Branch(w, kp, StateKey(kp, pp)), StateKey(kp, pp), kp.srcMap, kp.hash)
      decreases Room(w, kp), 0, 0
    {
      hide KeysOf, Abs, Known, Finite, Room, ChainOk, Chain, DetectCycle, Locks, Consistent, Sub, Renewed;
      r := CheckInto(w, Branch(w, kp, StateKey(kp, pp)), StateKey(kp, pp), kp.srcMap, kp.hash, ks);
    }

    /** Takes the lock of a state that is not on the chain: nobody holds it. */
    method Lock(ks: State, ghost c: seq<Key>)
      requires Consistent() && ks.key in states && states[ks.key] == ks
      requires ks.key !in c && Locks(c)
      modifies repr`locked
      ensures Consistent() && Locks([ks.key] + c) && Abs() == old(Abs())
    {
      hide KeysOf, Abs, Known;
      assert !ks.locked;
      SetLocked(ks, true);
    }

    lemma LocksFresh(before: set<State>, c: seq<Key>, key: Key)
      requires before <= repr && key !in c
      requires forall s | s in before :: s.locked <==> s.key in c
      requires forall s | s in repr && s !in before :: s.key == key && !s.locked
      ensures Locks(c)
    {
    }

    method EnterLocked(kp: Importer, key: Key, ghost c: seq<Key>) returns (ks: State)
      requires Consistent() && Locks(c) && key !in c
      requires kp.ks.Some? ==> kp.ks.value in states
      modifies this`states, this`repr, repr
      ensures Consistent() && Locks([key] + c) && key in states && states[key] == ks && ks.key == key
      ensures old(repr) <= repr && fresh(repr - old(repr))
      ensures Sub(old(states), states)
      ensures Abs() == Enter(old(Abs()), kp, key)
    {
      hide KeysOf, Abs, Known, Enter, Consistent, Sub;
      ks := EnterState(kp, key);
      LocksFresh(old(repr), c, key);
      Lock(ks, c);
    }

    /** With the lock held: the state's own result if it is valid, otherwise a new one. */
    method UseOrRenew(w: World, kp: Importer, pp: PkgPath, ks: State) returns (r: Result)
      requires Finite(w, sources) && ChainOk(w, kp) && pp.dir in w.dirs && DetectCycle(kp, pp).None?
      requires Chain(Branch(w, kp, StateKey(kp, pp))) == [StateKey(kp, pp)] + Chain(kp)
      requires ChainOk(w, Branch(w, kp, StateKey(kp, pp))) && Room(w, Branch(w, kp, StateKey(kp, pp))) < Room(w, kp)
      requires Consistent() && Locks([StateKey(kp, pp)] + Chain(kp)) && forall k | k in Chain(kp) :: k in states
      requires StateKey(kp, pp) in states && states[StateKey(kp, pp)] == ks && ks.key == StateKey(kp, pp)
      modifies this`clock, this`states, this`repr, repr
      ensures Consistent() && Locks([StateKey(kp, pp)] + Chain(kp))
      ensures old(repr) <= repr && fresh(repr - old(repr)) && Sub(old(states), states)
      ensures Out(Abs(), r) == Entered(w, old(Abs()), kp, pp)
      decreases Room(w, kp), 0, 1
    {
      hide KeysOf, Abs, Known, Check, Finite, Room, ChainOk, Chain, Publish, DetectCycle, Locks, Consistent;
      if ks.IsValid(kp.hash) {
        r := ks.res;
      } else {
        r := Renew(w, kp, pp, ks);
      }
    }

    method EnterAndUse(w: World, kp: Importer, pp: PkgPath) returns (ks: State, r: Result)
      requires Finite(w, sources) && ChainOk(w, kp) && pp.dir in w.dirs && DetectCycle(kp, pp).None?
      requires StateKey(kp, pp) !in Chain(kp)
      requires Chain(Branch(w, kp, StateKey(kp, pp))) == [StateKey(kp, pp)] + Chain(kp)
      requires ChainOk(w, Branch(w, kp, StateKey(kp, pp))) && Room(w, Branch(w, kp, StateKey(kp, pp))) < Room(w, kp)
      requires Consistent() && Locks(Chain(kp)) && forall k | k in Chain(kp) :: k in states
      modifies this`clock, this`states, this`repr, repr
      ensures Consistent() && Locks([StateKey(kp, pp)] + Chain(kp))
      ensures StateKey(kp, pp) in states && states[StateKey(kp, pp)] == ks && ks.key == StateKey(kp, pp)
      ensures old(repr) <= repr && fresh(repr - old(repr)) && Sub(old(states), states)
      ensures Out(Abs(), r) == Entered(w, Enter(old(Abs()), kp, StateKey(kp, pp)), kp, pp)
      decreases Room(w, kp), 0, 2
    {
      hide *;
      ChainHead(kp);
      ks := EnterLocked(kp, StateKey(kp, pp), Chain(kp));
      ghost var between := states;
      SubKeys(old(states), between);
      r := UseOrRenew(w, kp, pp, ks);
      SubTwice(old(states), between, states);
      SubAt(between, states, StateKey(kp, pp));
    }

    method ImportClear(w: World, kp: Importer, pp: PkgPath) returns (r: Result)
      requires Finite(w, sources) && ChainOk(w, kp) && pp.dir in w.dirs && DetectCycle(kp, pp).None?
      requires Consistent() && Locks(Chain(kp)) && forall k | k in Chain(kp) :: k in states
      modifies this`clock, this`states, this`repr, repr
      ensures Consistent() && Locks(Chain(kp))
      ensures old(repr) <= repr && fresh(repr - old(repr)) && Sub(old(states), states)
      ensures Out(Abs(), r) == Import(w, old(Abs()), kp, pp)
      decreases Room(w, kp), 0, 3
    {
      hide KeysOf, Abs, Known, Finite, Room, ChainOk, Chain, Enter, Locks, Consistent, DetectCycle, Import, Entered,
        Sub;
      ImportUnfold(w, Abs(), kp, pp);
      BranchChain(w, kp, pp);
      NotOnChain(kp, pp);
      var ks;
      ks, r := EnterAndUse(w, kp, pp);
      Unlock(ks, Chain(kp));
    }

    /** Imports a package: from its state if that is valid, otherwise by checking it again. The lock of the
        state is held from the validity test on; no state on the chain is ever locked twice. */
    method ImportPkg(w: World, kp: Importer, pp: PkgPath) returns (r: Result)
      requires Finite(w, sources) && ChainOk(w, kp) && pp.dir in w.dirs
      requires Consistent() && Locks(Chain(kp)) && forall k | k in Chain(kp) :: k in states
      modifies this`clock, this`states, this`repr, repr
      ensures Consistent() && Locks(Chain(kp))
      ensures old(repr) <= repr && fresh(repr - old(repr)) && Sub(old(states), states)
      ensures Out(Abs(), r) == Import(w, old(Abs()), kp, pp)
      decreases Room(w, kp), 0, 4
    {
      hide KeysOf, Abs, Known, Finite, Room, ChainOk, Chain, Enter, Locks, Consistent, DetectCycle, Import, Entered,
        Sub;
      var cycle := DetectCycleLoop(kp, pp);
      if cycle.Some? {
        ImportUnfold(w, Abs(), kp, pp);
        SubSelf(states);
        r := Failed(cycle.value);
      } else {
        r := ImportClear(w, kp, pp);
      }
    }

    /** Resolves an import path and imports the package found. */
    method ImportDep(w: World, kx: Importer, p: PkgPath, ip: string) returns (r: Result)
      requires Finite(w, sources) && ChainOk(w, kx)
      requires Consistent() && Locks(Chain(kx)) && forall k | k in Chain(kx) :: k in states
      modifies this`clock, this`states, this`repr, repr
      ensures Consistent() && Locks(Chain(kx))
      ensures old(repr) <= repr && fresh(repr - old(repr)) && Sub(old(states), states)
      ensures Out(Abs(), r) == SeqImport.ImportPackage(w, old(Abs()), kx, p, ip)
      decreases Room(w, kx), 0, 5
    {
      hide KeysOf, Abs, Known, Room, ChainOk, Chain, Locks, Consistent, Import, Sub;
      SubSelf(states);
      match w.find(sources, kx.mp, p, ip)
      case Fake(pkg) => r := Package(pkg);
      case Missing(e) => r := Failed(e);
      case At(d, mod) =>
        SameChain(w, kx, Toward(kx, mod));
        r := ImportPkg(w, Toward(kx, mod), d);
    }

    /** Reads and checks a package: its dependencies are imported in order until one fails. */
    method CheckPkg(w: World, kx: Importer, key: Key, src: Source) returns (r: Result, ghost found: Found)
      requires Finite(w, sources) && ChainOk(w, kx)
      requires Consistent() && Locks(Chain(kx)) && forall k | k in Chain(kx) :: k in states
      modifies this`clock, this`states, this`repr, repr
      ensures Consistent() && Locks(Chain(kx))
      ensures old(repr) <= repr && fresh(repr - old(repr))
      ensures Sub(old(states), states)
      ensures Checked.Checked(Abs(), r, found) == Check(w, old(Abs()), kx, key, src)
      decreases Room(w, kx), 1, 0
    {
      hide KeysOf, Locks, Abs, Known, SeqImport.ImportPackage, Finite, Room, ChainOk, Chain, Sub, Consistent, Branch,
        Toward, DetectCycle, ImportDeps, Check;
      SubSelf(states);
      CheckUnfold(w, Abs(), kx, key, src);
      match w.parse(key, src) {
        case ParseError(e) => return Failed(e), map[];
        case Imports(paths) =>
          ghost var goal := Check(w, Abs(), kx, key, src);
          var pkgs := [];
          found := map[];
          for i := 0 to |paths|
            invariant Consistent() && Locks(Chain(kx)) && forall k | k in Chain(kx) :: k in states
            invariant old(repr) <= repr && fresh(repr - old(repr))
            invariant Sub(old(states), states)
            invariant ImportDeps(w, Abs(), kx, key, src, paths, i, pkgs, found) == goal
          {
            ghost var between := states;
            DepsUnfold(w, Abs(), kx, key, src, paths, i, pkgs, found);
            found := found[paths[i] := w.find(sources, kx.mp, key.pp, paths[i])];
            var p := ImportDep(w, kx, key.pp, paths[i]);
            SubTwice(old(states), between, states);
            SubKeys(between, states);
            match p {
              case Package(pkg) => pkgs := pkgs + [pkg];
              case Failed(e) => return Failed(w.wrap(key, src, paths[i], e)), found;
            }
          }
          DepsEnd(w, Abs(), kx, key, src, paths, pkgs, found);
          r := w.typeCheck(key, src, pkgs);
      }
    }

    // -------------------------------------------------------------- a run on the heap

    /** A directory changes and the change is announced: the states in its memo are cleared. */
    method Change(dir: string, src: Source, roots: seq<State>, ghost h: History)
      requires Consistent() && Known(roots) && Ordered(h, Abs()) && Elems(KeysOf(roots)) == StatesOf(Abs(), dir)
      modifies this`sources, this`clock, repr`invAt
      ensures Consistent() && Abs() == TableSteps.Change(old(Abs()), dir, src)
    {
      hide KeysOf, Abs, Consistent, Ordered, Invalidation.Clear;
      ghost var sto := Abs();
      sources := sources[dir := src];
      AbsIs(sto.(sources := sources));
      SetSourceOrdered(h, sto, sources);
      Clear(roots, h);
    }

    /** One operation of a run. The table on the heap follows the run, and what an import returns is what a full
        re-check of the current sources gives, provided imports still lead where they did. */
    method Perform(w: World, op: Op, roots: seq<State>, ghost h: History,
                   ghost ops: seq<Op>) returns (r: Option<Result>)
      requires Acyclic(w, h) && SeeNothing(w) && Possible(w, ops + [op]) && Within(w, h, ops + [op])
      requires Possible(w, ops) && Consistent() && Locks([]) && Abs() == Run(w, ops)
      requires op.DoChange? ==> Known(roots) && Elems(KeysOf(roots)) == StatesOf(Abs(), op.dir)
      modifies this, repr
      ensures Consistent() && Locks([]) && Abs() == Run(w, ops + [op])
      ensures op.DoImport? && !w.concurrent && Undisturbed(w, h, Run(w, ops), Spot(op.pp, op.mp)) ==>
                && ChainOk(w, New(op.flags, op.srcMap, op.mp))
                && r == Some(Recheck(w, SourcesAfter(ops), New(op.flags, op.srcMap, op.mp), op.pp))
    {
      hide KeysOf, Abs, Consistent, Locks, Acyclic, Covers, Finite, Import, Recheck, Sound, Ordered, ResolvedFrom,
        OneWay, TableSteps.Change, Known, OpWithin;
      assert (ops + [op])[..|ops|] == ops;
      RunSound(w, h, ops);
      match op
      case DoImport(flags, srcMap, mp, pp) =>
        NewChain(w, flags, srcMap, mp);
        if !w.concurrent && Undisturbed(w, h, Run(w, ops), Spot(pp, mp)) {
          CachedImportEqualsUncached(w, h, ops, flags, srcMap, mp, pp);
        }
        var res := ImportPkg(w, New(flags, srcMap, mp), pp);
        return Some(res);
      case DoChange(dir, src) =>
        SoundOrdered(w, h, Abs());
        Change(dir, src, roots, h);
        return None;
    }
  }

  /** The settled states lead where an importer at `a` is led, and so does everything it comes upon by several ways. */
  ghost predicate Undisturbed(w: World, h: History, sto: Store, a: Spot) {
    ResolvedFrom(w, h, sto, a) && OneWay(w, h, sto.sources, a)
  }

  lemma NewChain(w: World, flags: Flags, srcMap: Overlay, mp: ModPath)
    ensures Chain(New(flags, srcMap, mp)) == [] && ChainOk(w, New(flags, srcMap, mp))
  {
  }

  /** A check under a new stamp, and its result stored. */
  ghost function Renewed(w: World, sto: Store, kx: Importer, key: Key, srcMap: Overlay, hash: Overlay): Out
    requires Finite(w, sto.sources) && ChainOk(w, kx) && key in sto.states
  {
    var src := Current(w, sto.sources, key, srcMap);
    var o := Check(w, sto.(clock := sto.clock + 1), kx, key, src);
    Out(Publish(o.sto, key, o.res, hash, src, kx.mp, o.found, sto.clock + 1), o.res)
  }

  /** What an import does once the state is looked up, registered and locked. */
  ghost function Entered(w: World, sto: Store, kp: Importer, pp: PkgPath): Out
    requires Finite(w, sto.sources) && ChainOk(w, Branch(w, kp, StateKey(kp, pp))) && StateKey(kp, pp) in sto.states
  {
    var key := StateKey(kp, pp);
    if ImportCache.Valid(sto.states[key], key, kp.hash) then Out(sto, sto.states[key].res) else
      Renewed(w, sto, Branch(w, kp, key), key, kp.srcMap, kp.hash)
  }

  lemma ImportUnfold(w: World, sto: Store, kp: Importer, pp: PkgPath)
    requires Finite(w, sto.sources) && ChainOk(w, kp) && pp.dir in w.dirs
    ensures var cycle := DetectCycle(kp, pp);
            if cycle.Some? then Import(w, sto, kp, pp) == Out(sto, Failed(cycle.value)) else
              && ChainOk(w, Branch(w, kp, StateKey(kp, pp)))
              && Import(w, sto, kp, pp) == Entered(w, Enter(sto, kp, StateKey(kp, pp)), kp, pp)
  {
    hide Check, ChainOk, Room, Chain, DetectCycle;
    if DetectCycle(kp, pp).None? {
      BranchChain(w, kp, pp);
    }
  }

  lemma CheckUnfold(w: World, sto: Store, kx: Importer, key: Key, src: Source)
    requires Finite(w, sto.sources) && ChainOk(w, kx)
    ensures w.parse(key, src).ParseError? ==>
              Check(w, sto, kx, key, src) == Checked.Checked(sto, Failed(w.parse(key, src).error), map[])
    ensures w.parse(key, src).Imports? ==>
              Check(w, sto, kx, key, src) == ImportDeps(w, sto, kx, key, src, w.parse(key, src).paths, 0, [], map[])
  {
    hide ImportDeps, ChainOk, Finite;
  }

  lemma DepsUnfold(w: World, sto: Store, kx: Importer, key: Key, src: Source, paths: seq<string>, i: nat,
                   pkgs: seq<Pkg>, found: Found)
    requires Finite(w, sto.sources) && ChainOk(w, kx) && i < |paths|
    ensures var o := SeqImport.ImportPackage(w, sto, kx, key.pp, paths[i]);
            var found' := found[paths[i] := w.find(sto.sources, kx.mp, key.pp, paths[i])];
            && (o.res.Package? ==> ImportDeps(w, sto, kx, key, src, paths, i, pkgs, found)
                                   == ImportDeps(w, o.sto, kx, key, src, paths, i + 1, pkgs + [o.res.pkg], found'))
            && (o.res.Failed? ==> ImportDeps(w, sto, kx, key, src, paths, i, pkgs, found)
                                  == Checked.Checked(o.sto, Failed(w.wrap(key, src, paths[i], o.res.error)), found'))
  {
    hide SeqImport.ImportPackage, ChainOk, Finite;
  }

  lemma DepsEnd(w: World, sto: Store, kx: Importer, key: Key, src: Source, paths: seq<string>, pkgs: seq<Pkg>,
                found: Found)
    requires Finite(w, sto.sources) && ChainOk(w, kx)
    ensures ImportDeps(w, sto, kx, key, src, paths, |paths|, pkgs, found)
        == Checked.Checked(sto, w.typeCheck(key, src, pkgs), found)
  {
  }

  lemma EnterIs(sto: Store, kp: Importer, key: Key)
    ensures Enter(sto, kp, key) == if kp.ks.Some? then Register(Touch(sto, key), key, kp.ks.value) else Touch(sto, key)
  {
  }

  lemma NotOnChain(kp: Importer, pp: PkgPath)
    requires DetectCycle(kp, pp).None?
    ensures StateKey(kp, pp) !in Chain(kp)
  {
    hide Chain, FirstTarget, Paths;
    assert Targets(StateKey(kp, pp), pp);
  }

  lemma ChainHead(kp: Importer)
    ensures kp.ks.Some? ==> kp.ks.value in Chain(kp)
  {
    if kp.ks.Some? {
      assert Chain(kp)[0] == kp.ks.value;
    }
  }
}
