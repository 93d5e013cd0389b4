/** Exactly when a settled result is stale: in a world whose results show how they came about, a result equals
    the re-check if and only if everything it was computed from is what would be found now. */
module ImportExact {
  import opened Wrappers
  import opened ImportModel
  import opened ImportCache

  /** What a result shows: the check and its packages, the dependency that failed, the package that does not
      parse, or nothing but what resolution gave. */
  datatype Told =
    | ByCheck(key: Key, src: Source, pkgs: seq<Pkg>)
    | ByDep(key: Key, src: Source, ip: string, error: Error)
    | ByParse(key: Key)
    | ByLookup

  /** A package holds the packages it imports, and errors say where they were found, so that no two different
      checks have the same result. */
  ghost predicate Telling(w: World, tells: Result -> Told) {
    && (forall k, s, ps :: tells(w.typeCheck(k, s, ps)) == ByCheck(k, s, ps))
    && (forall k, s, ip, e :: tells(Failed(w.wrap(k, s, ip, e))) == ByDep(k, s, ip, e))
    && (forall k, s | w.parse(k, s).ParseError? :: tells(Failed(w.parse(k, s).error)) == ByParse(k))
    && (forall srcs, mp, p, ip | w.find(srcs, mp, p, ip).Fake? ::
          tells(Package(w.find(srcs, mp, p, ip).pkg)) == ByLookup)
    && (forall srcs, mp, p, ip | w.find(srcs, mp, p, ip).Missing? ::
          tells(Failed(w.find(srcs, mp, p, ip).error)) == ByLookup)
  }

  /** The value of a package with imports: a type-check of good dependencies, or the failure of the first bad one. */
  lemma ValueCases(w: World, h: History, srcs: Sources, key: Key, src: Source, mp: ModPath,
                   paths: seq<string>)
    returns (b: nat, pkgs: seq<Pkg>)
    requires Acyclic(w, h) && Covers(w, h, srcs) && h.texts(key, src, mp) && w.parse(key, src) == Imports(paths)
    ensures b <= |paths| == |pkgs|
    ensures forall j | 0 <= j < b :: ValueDep(w, h, srcs, key, src, mp, paths, j) == Package(pkgs[j])
    ensures b < |paths| ==>
              && ValueDep(w, h, srcs, key, src, mp, paths, b).Failed?
              && Value(w, h, srcs, key, src, mp)
                 == Failed(w.wrap(key, src, paths[b], ValueDep(w, h, srcs, key, src, mp, paths, b).error))
    ensures b == |paths| ==> Value(w, h, srcs, key, src, mp) == w.typeCheck(key, src, pkgs)
  {
    hide Acyclic, Covers, ValueDep, ValueDeps;
    b := 0;
    while b < |paths| && ValueDep(w, h, srcs, key, src, mp, paths, b).Package?
      invariant b <= |paths| && forall j | 0 <= j < b :: ValueDep(w, h, srcs, key, src, mp, paths, j).Package?
    {
      b := b + 1;
    }
    pkgs := seq(|paths|, j requires 0 <= j < |paths| =>
      match ValueDep(w, h, srcs, key, src, mp, paths, j) case Package(p) => p case Failed(_) => Plain(""));
    if b == |paths| {
      ValueGood(w, h, srcs, key, src, mp, paths, 0, pkgs);
      assert pkgs[..0] == [];
    } else {
      ValueBad(w, h, srcs, key, src, mp, paths, 0, [], b);
    }
  }

  /** A re-check shows which package it is of. */
  lemma ValueTells(w: World, h: History, tells: Result -> Told, srcs: Sources, key: Key, src: Source, mp: ModPath)
    requires Telling(w, tells) && Acyclic(w, h) && Covers(w, h, srcs) && h.texts(key, src, mp)
    ensures !tells(Value(w, h, srcs, key, src, mp)).ByLookup? && tells(Value(w, h, srcs, key, src, mp)).key == key
  {
    hide Acyclic, Covers, ValueDep;
    if w.parse(key, src).Imports? {
      var b, pkgs := ValueCases(w, h, srcs, key, src, mp, w.parse(key, src).paths);
    }
  }

  /** So does the result in the table. */
  lemma SettledTells(w: World, h: History, tells: Result -> Told, sto: Store, key: Key)
    requires Telling(w, tells) && Coherent(w, h, sto) && key in sto.states && Settled(sto.states[key])
    ensures !tells(sto.states[key].res).ByLookup? && tells(sto.states[key].res).key == key
  {
    hide Occurs, Ordered;
    SettledOccurs(w, h, sto, key);
  }

  /** A dependency result that is the same now came from the same place. */
  lemma {:induction false} SameDep(w: World, h: History, tells: Result -> Told, sto: Store, key: Key, mp: ModPath,
                                   paths: seq<string>, i: nat)
    requires Telling(w, tells) && !w.concurrent && Standing(w, h, sto, key, mp)
    requires w.parse(key, sto.states[key].seen) == Imports(paths) && i < |paths|
    requires DepResult(w, sto.states, key, sto.states[key].found, paths[i])
          == Some(ValueDep(w, h, sto.sources, key, sto.states[key].seen, mp, paths, i))
    ensures StandsAt(w, h, sto, key, mp, paths[i])
    decreases h.rank(key.pp), 0
  {
    hide Acyclic, Covers, Coherent, UpToDate, Value;
    var st := sto.states[key];
    SettledOccurs(w, h, sto, key);
    var was, now := st.found[paths[i]], w.find(sto.sources, mp, key.pp, paths[i]);
    LookupTells(w, h, tells, sto, key, mp, paths, i);
    assert WasFound(w, st.mp, key.pp, paths[i], was);
    var before :| w.find(before, st.mp, key.pp, paths[i]) == was;
    assert Same(was, now);
    StandingDep(w, h, sto, key, mp, paths[i]);
    if now.At? {
      EqualStands(w, h, tells, sto, DepKey(w, key, now.pp), Under(mp, now.mod));
    }
  }

  /** What is found now, and what was, shows in the result of the dependency. */
  lemma LookupTells(w: World, h: History, tells: Result -> Told, sto: Store, key: Key, mp: ModPath, paths: seq<string>,
                    i: nat)
    requires Telling(w, tells) && Standing(w, h, sto, key, mp)
    requires w.parse(key, sto.states[key].seen) == Imports(paths) && i < |paths|
    requires DepResult(w, sto.states, key, sto.states[key].found, paths[i]).Some?
    ensures var was := sto.states[key].found[paths[i]];
            was.At? ==>
              var told := tells(DepResult(w, sto.states, key, sto.states[key].found, paths[i]).value);
              !told.ByLookup? && told.key == DepKey(w, key, was.pp)
    ensures var now := w.find(sto.sources, mp, key.pp, paths[i]);
            now.At? ==>
              var told := tells(ValueDep(w, h, sto.sources, key, sto.states[key].seen, mp, paths, i));
              !told.ByLookup? && told.key == DepKey(w, key, now.pp)
  {
    hide Acyclic, Covers, Coherent, UpToDate, Value;
    var st := sto.states[key];
    var was, now := st.found[paths[i]], w.find(sto.sources, mp, key.pp, paths[i]);
    if was.At? {
      SettledTells(w, h, tells, sto, DepKey(w, key, was.pp));
    }
    if now.At? {
      CoversFind(w, h, sto.sources, key, st.seen, mp, paths[i]);
      CoversRead(w, h, sto.sources, key, st.seen, mp, paths[i], now.pp, now.mod);
      ValueTells(w, h, tells, sto.sources, DepKey(w, key, now.pp), Content(sto.sources, now.pp.dir),
          Under(mp, now.mod));
    }
  }

  lemma Lower(w: World, h: History, key: Key, src: Source, mp: ModPath, ip: string, d: PkgPath, m: ModPath)
    requires Acyclic(w, h) && Imported(w, h, key, src, mp, ip, d, m)
    ensures h.rank(d) < h.rank(key.pp)
  {
    hide Leads;
  }

  /** A settled result that equals the re-check stands. */
  lemma {:induction false} EqualStands(w: World, h: History, tells: Result -> Told, sto: Store, key: Key, mp: ModPath)
    requires Telling(w, tells) && !w.concurrent && Standing(w, h, sto, key, mp)
    requires sto.states[key].res == Value(w, h, sto.sources, key, sto.states[key].seen, mp)
    ensures Stands(w, h, sto, key, mp)
    decreases h.rank(key.pp), 1
  {
    hide Acyclic, Covers, Coherent, UpToDate, Value, ValueDep;
    var st := sto.states[key];
    SettledOccurs(w, h, sto, key);
    if w.parse(key, st.seen).Imports? {
      var paths := w.parse(key, st.seen).paths;
      var b, pkgs := ValueCases(w, h, sto.sources, key, st.seen, mp, paths);
      if i: nat :| i < |paths| && FailedAt(w, sto.states, key, st.seen, st.found, paths, i, st.res) {
        FailureTells(w, h, tells, sto, key, mp, paths, i, b, pkgs);
        SameDep(w, h, tells, sto, key, mp, paths, i);
        assert FailStands(w, h, sto, key, mp, paths, i);
      } else {
        var was := DepPkgs(w, sto.states, key, st.found, paths, |paths|);
        CheckTells(w, tells, key, st.seen, st.res, was);
        assert b == |paths| && pkgs == was;
        forall i | 0 <= i < |paths| ensures StandsAt(w, h, sto, key, mp, paths[i]) {
          SameDep(w, h, tells, sto, key, mp, paths, i);
        }
      }
    }
  }

  lemma CheckTells(w: World, tells: Result -> Told, key: Key, src: Source, res: Result, pkgs: seq<Pkg>)
    requires Telling(w, tells) && res == w.typeCheck(key, src, pkgs)
    ensures tells(res) == ByCheck(key, src, pkgs)
    ensures forall k, s, ps :: res == w.typeCheck(k, s, ps) ==> ps == pkgs
    ensures forall k, s, ip, e :: res != Failed(w.wrap(k, s, ip, e))
  {
    forall k, s, ps | res == w.typeCheck(k, s, ps) ensures ps == pkgs {
      assert tells(w.typeCheck(k, s, ps)) == ByCheck(k, s, ps);
    }
    forall k, s, ip, e ensures res != Failed(w.wrap(k, s, ip, e)) {
      assert tells(Failed(w.wrap(k, s, ip, e))) == ByDep(k, s, ip, e);
    }
  }

  /** A failure that is the same now is that of the same dependency. */
  lemma FailureTells(w: World, h: History, tells: Result -> Told, sto: Store, key: Key, mp: ModPath,
                     paths: seq<string>, i: nat, b: nat, pkgs: seq<Pkg>)
    requires Telling(w, tells) && !w.concurrent && Standing(w, h, sto, key, mp)
    requires w.parse(key, sto.states[key].seen) == Imports(paths) && i < |paths| && b <= |paths| == |pkgs|
    requires FailedAt(w, sto.states, key, sto.states[key].seen, sto.states[key].found, paths, i, sto.states[key].res)
    requires forall j | 0 <= j < b ::
               ValueDep(w, h, sto.sources, key, sto.states[key].seen, mp, paths, j) == Package(pkgs[j])
    requires b == |paths| ==> sto.states[key].res == w.typeCheck(key, sto.states[key].seen, pkgs)
    requires b < |paths| ==>
               && ValueDep(w, h, sto.sources, key, sto.states[key].seen, mp, paths, b).Failed?
               && sto.states[key].res == Failed(w.wrap(key, sto.states[key].seen, paths[b],
                    ValueDep(w, h, sto.sources, key, sto.states[key].seen, mp, paths, b).error))
    ensures b == i
    ensures DepResult(w, sto.states, key, sto.states[key].found, paths[i])
         == Some(ValueDep(w, h, sto.sources, key, sto.states[key].seen, mp, paths, i))
  {
    hide Acyclic, Covers, Coherent, Value, DepResult;
    var st := sto.states[key];
    var r := DepResult(w, sto.states, key, st.found, paths[i]).value;
    assert tells(st.res) == ByDep(key, st.seen, paths[i], r.error);
    assert b < |paths| && paths[b] == paths[i]
      && ValueDep(w, h, sto.sources, key, st.seen, mp, paths, b) == r;
    assert ValueDep(w, h, sto.sources, key, st.seen, mp, paths, i) == r;
    assert b >= i by {
      forall j | 0 <= j < i ensures paths[j] != paths[i] { }
    }
    assert b <= i;
  }

  /** A settled result equals the re-check if and only if it stands. */
  lemma SettledExact(w: World, h: History, tells: Result -> Told, sto: Store, key: Key, mp: ModPath)
    requires Telling(w, tells) && !w.concurrent && Standing(w, h, sto, key, mp)
    ensures sto.states[key].res == Value(w, h, sto.sources, key, sto.states[key].seen, mp)
        <==> Stands(w, h, sto, key, mp)
  {
    hide Acyclic, Covers, Coherent, UpToDate, Value, Stands, Telling;
    SettledOccurs(w, h, sto, key);
    if Stands(w, h, sto, key, mp) {
      SettledAgrees(w, h, sto, key, mp);
    } else if sto.states[key].res == Value(w, h, sto.sources, key, sto.states[key].seen, mp) {
      EqualStands(w, h, tells, sto, key, mp);
    }
  }
}
