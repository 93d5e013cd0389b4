/** Pushing an invalidation through the reverse-dependency lists. The walk keeps no visited marks; it
    stamps exactly the reachable states, and it ends exactly when no cycle can be reached. */
module Invalidation {
  import opened ImportModel
  import opened ImportCache

  type Graph = map<Key, seq<Key>>

  function Imby(states: map<Key, St>): (g: Graph)
    ensures g.Keys == states.Keys
  {
    map k | k in states :: states[k].imby
  }

  ghost predicate Closed(g: Graph) {
    forall k, p | k in g && p in g[k] :: p in g
  }

  /** `b` is reached from `a` over `n` importer edges. */
  ghost predicate Steps(g: Graph, a: Key, b: Key, n: nat)
    decreases n
  {
    && a in g
    && if n == 0 then a == b else exists p :: p in g[a] && Steps(g, p, b, n - 1)
  }

  ghost predicate Reaches(g: Graph, a: Key, b: Key) {
    exists n: nat :: Steps(g, a, b, n)
  }

  lemma ReachesSelf(g: Graph, a: Key)
    requires a in g
    ensures Reaches(g, a, a)
  {
    assert Steps(g, a, a, 0);
  }

  lemma ReachesStep(g: Graph, a: Key, p: Key, b: Key)
    requires a in g && p in g[a] && Reaches(g, p, b)
    ensures Reaches(g, a, b)
  {
    var n: nat :| Steps(g, p, b, n);
    assert Steps(g, a, b, n + 1);
  }

  lemma ReachesUnfold(g: Graph, a: Key, b: Key) returns (p: Key)
    requires Reaches(g, a, b) && a != b
    ensures a in g && p in g[a] && Reaches(g, p, b)
  {
    var n: nat :| Steps(g, a, b, n);
    p :| p in g[a] && Steps(g, p, b, n - 1);
  }

  lemma {:induction false} StepsJoin(g: Graph, a: Key, b: Key, c: Key, n: nat, m: nat)
    requires Steps(g, a, b, n) && Steps(g, b, c, m)
    ensures Steps(g, a, c, n + m)
    decreases n
  {
    if n > 0 {
      var p :| p in g[a] && Steps(g, p, b, n - 1);
      StepsJoin(g, p, b, c, n - 1, m);
    }
  }

  lemma ReachesJoin(g: Graph, a: Key, b: Key, c: Key)
    requires Reaches(g, a, b) && Reaches(g, b, c)
    ensures Reaches(g, a, c)
  {
    var n: nat :| Steps(g, a, b, n);
    var m: nat :| Steps(g, b, c, m);
    StepsJoin(g, a, b, c, n, m);
  }

  // ---------------------------------------------------------------- the walk

  type Stamps = map<Key, int>             // the invalidation stamp of every state

  /** Importers rank above what they import, and no rank exceeds `top`. */
  ghost predicate Layered(g: Graph, h: History, top: nat) {
    && Closed(g)
    && (forall k | k in g :: h.rank(k.pp) <= top)
    && (forall k, p | k in g && p in g[k] :: h.rank(k.pp) < h.rank(p.pp))
  }

  /** Sets the stamp on `k`, then walks its importers in the order they registered. */
  function Walk(g: Graph, ghost h: History, ghost top: nat, inv: Stamps, k: Key, stamp: int): (r: Stamps)
    requires Layered(g, h, top) && k in g && inv.Keys == g.Keys
    ensures r.Keys == g.Keys
    decreases top + 1 - h.rank(k.pp), 0, 0
  {
    WalkAll(g, h, top, inv[k := stamp], g[k], stamp, h.rank(k.pp) + 1)
  }

  function WalkAll(g: Graph, ghost h: History, ghost top: nat, inv: Stamps, l: seq<Key>, stamp: int,
                   ghost lo: nat): (r: Stamps)
    requires Layered(g, h, top) && lo <= top + 1 && inv.Keys == g.Keys
    requires forall p | p in l :: p in g && h.rank(p.pp) >= lo
    ensures r.Keys == g.Keys
    decreases top + 1 - lo, 1, |l|
  {
    if l == [] then inv else
      WalkAll(g, h, top, Walk(g, h, top, inv, l[0], stamp), l[1..], stamp, lo)
  }

  ghost function Elems(l: seq<Key>): set<Key> {
    set p | p in l
  }

  ghost predicate Hit(g: Graph, roots: set<Key>, k: Key) {
    exists r :: r in roots && Reaches(g, r, k)
  }

  /** Every state reachable from a root has its invalidation stamp set; nothing else changes. */
  ghost predicate StampedFrom(g: Graph, inv: Stamps, inv': Stamps, roots: set<Key>, stamp: int) {
    && inv'.Keys == inv.Keys
    && forall k | k in inv :: inv'[k] == if Hit(g, roots, k) then stamp else inv[k]
  }

  lemma HitRoot(g: Graph, k: Key, x: Key)
    requires k in g
    ensures Hit(g, {k}, x) <==> x == k || Hit(g, Elems(g[k]), x)
  {
    if Hit(g, {k}, x) && x != k {
      var p := ReachesUnfold(g, k, x);
      assert p in Elems(g[k]);
    }
    if p :| p in Elems(g[k]) && Reaches(g, p, x) {
      ReachesStep(g, k, p, x);
      assert k in {k};
    }
    ReachesSelf(g, k);
    assert k in {k};
  }

  lemma HitUnion(g: Graph, a: set<Key>, b: set<Key>, x: Key)
    ensures Hit(g, a + b, x) <==> Hit(g, a, x) || Hit(g, b, x)
  {
    if r :| r in a && Reaches(g, r, x) { assert r in a + b; }
    if r :| r in b && Reaches(g, r, x) { assert r in a + b; }
  }

  /** The walk from `k` stamps exactly the states that `k` reaches. */
  lemma {:induction false} WalkIsStamped(g: Graph, h: History, top: nat, inv: Stamps, k: Key, stamp: int)
    requires Layered(g, h, top) && k in g && inv.Keys == g.Keys
    ensures StampedFrom(g, inv, Walk(g, h, top, inv, k, stamp), {k}, stamp)
    decreases top + 1 - h.rank(k.pp), 0, 0
  {
    WalkAllIsStamped(g, h, top, inv[k := stamp], g[k], stamp, h.rank(k.pp) + 1);
    forall x | x in g ensures Hit(g, {k}, x) <==> x == k || Hit(g, Elems(g[k]), x) {
      HitRoot(g, k, x);
    }
  }

  lemma {:induction false} WalkAllIsStamped(g: Graph, h: History, top: nat, inv: Stamps, l: seq<Key>,
                                            stamp: int, lo: nat)
    requires Layered(g, h, top) && lo <= top + 1 && inv.Keys == g.Keys
    requires forall p | p in l :: p in g && h.rank(p.pp) >= lo
    ensures StampedFrom(g, inv, WalkAll(g, h, top, inv, l, stamp, lo), Elems(l), stamp)
    decreases top + 1 - lo, 1, |l|
  {
    if l != [] {
      WalkIsStamped(g, h, top, inv, l[0], stamp);
      WalkAllIsStamped(g, h, top, Walk(g, h, top, inv, l[0], stamp), l[1..], stamp, lo);
      assert Elems(l) == {l[0]} + Elems(l[1..]);
      forall x | x in g
        ensures Hit(g, Elems(l), x) <==> Hit(g, {l[0]}, x) || Hit(g, Elems(l[1..]), x)
      {
        HitUnion(g, {l[0]}, Elems(l[1..]), x);
      }
    }
  }

  // ---------------------------------------------------------------- when the walk ends

  /** The unmarked recursion from `k` is less than `n` calls deep. */
  ghost predicate Ends(g: Graph, k: Key, n: nat)
    decreases n
  {
    n > 0 && k in g && forall p | p in g[k] :: Ends(g, p, n - 1)
  }

  /** A cycle of importers can be reached from `k`. */
  ghost predicate CycleFrom(g: Graph, k: Key) {
    exists x, p :: Reaches(g, k, x) && x in g && p in g[x] && Reaches(g, p, x)
  }

  lemma {:induction false} EndsAlong(g: Graph, a: Key, b: Key, m: nat, n: nat)
    requires Steps(g, a, b, m) && Ends(g, a, n)
    ensures n > m && Ends(g, b, n - m)
    decreases m
  {
    if m > 0 {
      var p :| p in g[a] && Steps(g, p, b, m - 1);
      EndsAlong(g, p, b, m - 1, n - 1);
    }
  }

  lemma {:induction false} NoEndOnCycle(g: Graph, x: Key, p: Key, m: nat, n: nat)
    requires x in g && p in g[x] && Steps(g, p, x, m)
    ensures !Ends(g, x, n)
    decreases n
  {
    if Ends(g, x, n) {
      EndsAlong(g, p, x, m, n - 1);
      NoEndOnCycle(g, x, p, m, n - 1 - m);
    }
  }

  lemma {:induction false} EndsWithoutCycle(g: Graph, root: Key, k: Key, anc: set<Key>)
    requires Closed(g) && k in g && anc <= g.Keys && k !in anc
    requires !CycleFrom(g, root) && Reaches(g, root, k)
    requires forall a | a in anc :: Reaches(g, a, k)
    ensures Ends(g, k, |g.Keys - anc|)
    decreases |g.Keys - anc|
  {
    assert k in g.Keys - anc;
    assert g.Keys - (anc + {k}) == (g.Keys - anc) - {k};
    forall p | p in g[k] ensures Ends(g, p, |g.Keys - anc| - 1) {
      ReachesSelf(g, p);
      ReachesStep(g, k, p, p);
      ReachesJoin(g, root, k, p);
      ReachesSelf(g, k);
      forall a | a in anc + {k} ensures Reaches(g, a, p) {
        if a in anc { ReachesJoin(g, a, k, p); }
      }
      EndsWithoutCycle(g, root, p, anc + {k});
    }
  }

  /** The walk ends if and only if it cannot reach a cycle; since importers are never forgotten, the
      graph here is that of the whole import history. */
  lemma WalkEndsIffAcyclic(g: Graph, k: Key)
    requires Closed(g) && k in g
    ensures (exists n: nat :: Ends(g, k, n)) <==> !CycleFrom(g, k)
  {
    if n: nat :| Ends(g, k, n) {
      if CycleFrom(g, k) {
        var x, p :| Reaches(g, k, x) && x in g && p in g[x] && Reaches(g, p, x);
        var i: nat :| Steps(g, k, x, i);
        var m: nat :| Steps(g, p, x, m);
        EndsAlong(g, k, x, i, n);
        NoEndOnCycle(g, x, p, m, n - i);
      }
    }
    if !CycleFrom(g, k) {
      ReachesSelf(g, k);
      EndsWithoutCycle(g, k, k, {});
      assert Ends(g, k, |g.Keys|) by { assert g.Keys - {} == g.Keys; }
    }
  }

  /** Where importers rank above what they import, every walk ends. */
  lemma {:induction false} LayeredEnds(g: Graph, h: History, top: nat, k: Key)
    requires Layered(g, h, top) && k in g
    ensures Ends(g, k, top + 1 - h.rank(k.pp))
    decreases top - h.rank(k.pp)
  {
    forall p | p in g[k] ensures Ends(g, p, top - h.rank(k.pp)) {
      LayeredEnds(g, h, top, p);
      EndsLater(g, p, top + 1 - h.rank(p.pp), top - h.rank(k.pp));
    }
  }

  lemma {:induction false} EndsLater(g: Graph, k: Key, n: nat, m: nat)
    requires Ends(g, k, n) && n <= m
    ensures Ends(g, k, m)
    decreases n
  {
    forall p | p in g[k] ensures Ends(g, p, m - 1) {
      EndsLater(g, p, n - 1, m - 1);
    }
  }

  // ---------------------------------------------------------------- bounds

  ghost function Top(keys: set<Key>, h: History): (t: nat)
    ensures forall k | k in keys :: h.rank(k.pp) <= t
  {
    if keys == {} then 0 else
      var k :| k in keys;
      var t := Top(keys - {k}, h);
      assert forall x | x in keys :: x == k || x in keys - {k};
      if h.rank(k.pp) > t then h.rank(k.pp) else t
  }

  lemma OrderedIsLayered(h: History, sto: Store)
    requires Ordered(h, sto)
    ensures Layered(Imby(sto.states), h, Top(sto.states.Keys, h))
  {
    var g := Imby(sto.states);
    forall k, p | k in g && p in g[k] ensures p in g && h.rank(k.pp) < h.rank(p.pp) {
      assert OrderedAt(h, sto, k);
    }
  }

  // ---------------------------------------------------------------- clearing a directory

  function InvAts(states: map<Key, St>): (inv: Stamps)
    ensures inv.Keys == states.Keys
  {
    map k | k in states :: states[k].invAt
  }

  function WithInvAts(states: map<Key, St>, inv: Stamps): (r: map<Key, St>)
    requires inv.Keys == states.Keys
    ensures r.Keys == states.Keys
  {
    map k | k in states :: states[k].(invAt := inv[k])
  }

  /** Clearing draws one stamp and walks from every root in turn. */
  ghost function ClearWalk(sto: Store, h: History, roots: seq<Key>): Store
    requires Layered(Imby(sto.states), h, Top(sto.states.Keys, h))
    requires forall k | k in roots :: k in sto.states
  {
    var stamp := sto.clock + 1;
    var inv := WalkAll(Imby(sto.states), h, Top(sto.states.Keys, h), InvAts(sto.states), roots, stamp, 0);
    sto.(clock := stamp, states := WithInvAts(sto.states, inv))
  }

  /** The effect of the walks under a stamp: it is set on every state the roots reach, and nothing else changes. */
  ghost function Stamped(sto: Store, roots: set<Key>, stamp: int): (r: Store)
    ensures r.states.Keys == sto.states.Keys && r.clock == sto.clock && r.sources == sto.sources
  {
    sto.(states := map k | k in sto.states ::
           if Hit(Imby(sto.states), roots, k) then sto.states[k].(invAt := stamp) else sto.states[k])
  }

  /** The effect of clearing: the walks under a new stamp. */
  ghost function Clear(sto: Store, roots: set<Key>): (r: Store)
    ensures r.states.Keys == sto.states.Keys
  {
    Stamped(sto.(clock := sto.clock + 1), roots, sto.clock + 1)
  }

  lemma ClearWalkIsClear(h: History, sto: Store, roots: seq<Key>)
    requires Layered(Imby(sto.states), h, Top(sto.states.Keys, h))
    requires forall k | k in roots :: k in sto.states
    ensures ClearWalk(sto, h, roots) == Clear(sto, Elems(roots))
  {
    hide Layered, Hit, WalkAll, Top;
    var inv := InvAts(sto.states);
    WalkAllIsStamped(Imby(sto.states), h, Top(sto.states.Keys, h), inv, roots, sto.clock + 1, 0);
    forall k | k in sto.states ensures ClearWalk(sto, h, roots).states[k] == Clear(sto, Elems(roots)).states[k] {
      assert inv[k] == sto.states[k].invAt;
    }
  }
}
