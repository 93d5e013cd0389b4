/** What an import returns, as a function of the table it finds, whatever else is imported meanwhile; and from it, by
    what the table holds before the import, exactly when a cached import differs from a full re-check. */
module ImportFresh {
  import opened Wrappers
  import opened ImportModel
  import opened ImportCache
  import opened TableSteps
  import opened ImportExact
  import opened SeqImport

  // ---------------------------------------------------------------- what a check makes of its dependencies

  function FirstBad(rs: seq<Result>): (b: nat)
    ensures b <= |rs| && (forall i | 0 <= i < b :: rs[i].Package?) && (b < |rs| ==> rs[b].Failed?)
  {
    if rs == [] || rs[0].Failed? then 0 else 1 + FirstBad(rs[1..])
  }

  lemma FirstBadAt(rs: seq<Result>, b: nat)
    requires b <= |rs| && (forall i | 0 <= i < b :: rs[i].Package?) && (b < |rs| ==> rs[b].Failed?)
    ensures FirstBad(rs) == b
  {
    hide FirstBad;
  }

  function Pkgs(rs: seq<Result>): (pkgs: seq<Pkg>)
    requires forall i | 0 <= i < |rs| :: rs[i].Package?
    ensures |pkgs| == |rs| && forall i | 0 <= i < |rs| :: rs[i] == Package(pkgs[i])
  {
    seq(|rs|, i requires 0 <= i < |rs| => rs[i].pkg)
  }

  function Outcome(w: World, key: Key, src: Source, paths: seq<string>, rs: seq<Result>): Result
    requires |rs| == |paths|
  {
    var b := FirstBad(rs);
    if b == |rs| then w.typeCheck(key, src, Pkgs(rs)) else Failed(w.wrap(key, src, paths[b], rs[b].error))
  }

  // ---------------------------------------------------------------- what the table gives

  /** What importing `key` comes to: the result of its state if that is valid, otherwise what a check makes of what
      the table gives for the dependencies. */
  ghost function Gives(w: World, h: History, sto: Store, key: Key, hash: Overlay, src: Source, mp: ModPath): Result
    requires Acyclic(w, h) && Covers(w, h, sto.sources) && h.texts(key, src, mp)
    decreases h.rank(key.pp), 1
  {
    if key in sto.states && Valid(sto.states[key], key, hash) then sto.states[key].res else
      match w.parse(key, src)
      case ParseError(e) => Failed(e)
      case Imports(paths) => Outcome(w, key, src, paths, GivesAll(w, h, sto, key, src, mp, paths))
  }

  ghost function GivesAll(w: World, h: History, sto: Store, key: Key, src: Source, mp: ModPath,
                          paths: seq<string>): (rs: seq<Result>)
    requires Acyclic(w, h) && Covers(w, h, sto.sources) && h.texts(key, src, mp) && w.parse(key, src) == Imports(paths)
    ensures |rs| == |paths|
    ensures forall i | 0 <= i < |paths| :: rs[i] == GivesDep(w, h, sto, key, src, mp, paths, i)
    decreases h.rank(key.pp), 0, 1
  {
    seq(|paths|, i requires 0 <= i < |paths| => GivesDep(w, h, sto, key, src, mp, paths, i))
  }

  ghost function GivesDep(w: World, h: History, sto: Store, key: Key, src: Source, mp: ModPath, paths: seq<string>,
                          i: nat): Result
    requires Acyclic(w, h) && Covers(w, h, sto.sources) && h.texts(key, src, mp)
    requires w.parse(key, src) == Imports(paths) && i < |paths|
    decreases h.rank(key.pp), 0, 0
  {
    match w.find(sto.sources, mp, key.pp, paths[i])
    case Fake(pkg) => Package(pkg)
    case Missing(e) => Failed(e)
    case At(d, m) =>
      CoversFind(w, h, sto.sources, key, src, mp, paths[i]);
      CoversRead(w, h, sto.sources, key, src, mp, paths[i], d, m);
      Gives(w, h, sto, DepKey(w, key, d), map[], Content(sto.sources, d.dir), Under(mp, m))
  }

  /** What the table gives does not depend on the modules of the way to a package, if they make no difference. */
  lemma {:induction false} GivesOneWay(w: World, h: History, sto: Store, a: Spot, key: Key, hash: Overlay, src: Source,
                                       mp: ModPath, mp': ModPath)
    requires Acyclic(w, h) && Covers(w, h, sto.sources) && OneWay(w, h, sto.sources, a)
    requires h.texts(key, src, mp) && From(w, h, a, Spot(key.pp, mp))
    requires h.texts(key, src, mp') && From(w, h, a, Spot(key.pp, mp'))
    ensures Gives(w, h, sto, key, hash, src, mp) == Gives(w, h, sto, key, hash, src, mp')
    decreases h.rank(key.pp), 1
  {
    hide Acyclic, Covers, From, Outcome, OneWay, GivesDep;
    if !(key in sto.states && Valid(sto.states[key], key, hash)) && w.parse(key, src).Imports? {
      var paths := w.parse(key, src).paths;
      forall i | 0 <= i < |paths|
        ensures GivesDep(w, h, sto, key, src, mp, paths, i) == GivesDep(w, h, sto, key, src, mp', paths, i)
      {
        GivesDepOneWay(w, h, sto, a, key, src, mp, mp', paths, i);
      }
      assert GivesAll(w, h, sto, key, src, mp, paths) == GivesAll(w, h, sto, key, src, mp', paths);
    }
  }

  lemma {:induction false} GivesDepOneWay(w: World, h: History, sto: Store, a: Spot, key: Key, src: Source,
                                          mp: ModPath, mp': ModPath, paths: seq<string>, i: nat)
    requires Acyclic(w, h) && Covers(w, h, sto.sources) && OneWay(w, h, sto.sources, a)
    requires h.texts(key, src, mp) && From(w, h, a, Spot(key.pp, mp))
    requires h.texts(key, src, mp') && From(w, h, a, Spot(key.pp, mp'))
    requires w.parse(key, src) == Imports(paths) && i < |paths|
    ensures GivesDep(w, h, sto, key, src, mp, paths, i) == GivesDep(w, h, sto, key, src, mp', paths, i)
    decreases h.rank(key.pp), 0
  {
    hide Acyclic, Covers, From, Gives;
    assert Looks(w, h, key.pp, paths[i]);
    var l, l' := w.find(sto.sources, mp, key.pp, paths[i]), w.find(sto.sources, mp', key.pp, paths[i]);
    assert Same(l, l');
    if l.At? {
      LeadsOn(w, h, sto.sources, a, key, src, mp, paths[i]);
      LeadsOn(w, h, sto.sources, a, key, src, mp', paths[i]);
      GivesOneWay(w, h, sto, a, DepKey(w, key, l.pp), map[], Content(sto.sources, l.pp.dir), Under(mp, l.mod),
          Under(mp', l'.mod));
    }
  }

  /** An import that leads to a directory now leads on in the history, to a package of lower rank. */
  lemma LeadsOn(w: World, h: History, srcs: Sources, a: Spot, key: Key, src: Source, mp: ModPath, ip: string)
    requires Acyclic(w, h) && Covers(w, h, srcs) && h.texts(key, src, mp) && From(w, h, a, Spot(key.pp, mp))
    requires w.parse(key, src).Imports? && ip in w.parse(key, src).paths && w.find(srcs, mp, key.pp, ip).At?
    ensures var l := w.find(srcs, mp, key.pp, ip);
            && Imported(w, h, key, src, mp, ip, l.pp, l.mod) && h.rank(l.pp) < h.rank(key.pp)
            && h.texts(DepKey(w, key, l.pp), Content(srcs, l.pp.dir), Under(mp, l.mod))
            && From(w, h, a, Spot(l.pp, Under(mp, l.mod)))
  {
    hide Acyclic, Covers, From;
    var l := w.find(srcs, mp, key.pp, ip);
    CoversFind(w, h, srcs, key, src, mp, ip);
    CoversRead(w, h, srcs, key, src, mp, ip, l.pp, l.mod);
    Lower(w, h, key, src, mp, ip, l.pp, l.mod);
    DepFrom(w, h, key, src, mp, ip, l.pp, l.mod);
    FromJoin(w, h, a, Spot(key.pp, mp), Spot(l.pp, Under(mp, l.mod)));
  }

  /** `sto` has come from `b` by imports on the way from `a`: what is settled in it is what `b` gives. */
  ghost predicate Follows(w: World, h: History, b: Store, sto: Store, a: Spot)
    requires Acyclic(w, h) && Covers(w, h, b.sources)
  {
    && sto.sources == b.sources
    && (forall k | k in b.states && k.noHash && Settled(b.states[k]) :: k in sto.states && Settled(sto.states[k]))
    && (forall k, mp | k in sto.states && k.noHash && Settled(sto.states[k]) :: HasGiven(w, h, b, sto, a, k, mp))
  }

  ghost predicate HasGiven(w: World, h: History, b: Store, sto: Store, a: Spot, k: Key, mp: ModPath)
    requires Acyclic(w, h) && Covers(w, h, b.sources) && k in sto.states
  {
    h.texts(k, Content(b.sources, k.pp.dir), mp) && From(w, h, a, Spot(k.pp, mp)) ==>
      sto.states[k].res == Gives(w, h, b, k, map[], Content(b.sources, k.pp.dir), mp)
  }

  /** A table follows itself. */
  lemma FollowsSelf(w: World, h: History, sto: Store, a: Spot)
    requires Acyclic(w, h) && Covers(w, h, sto.sources)
    ensures Follows(w, h, sto, sto, a)
  {
    hide Acyclic, Covers, From;
  }

  /** Looking a state up, registering with it and drawing a stamp settle nothing. */
  lemma FollowsEnter(w: World, h: History, b: Store, sto: Store, a: Spot, kp: Importer, key: Key)
    requires Acyclic(w, h) && Covers(w, h, b.sources) && Follows(w, h, b, sto, a)
    ensures var sto1 := Enter(sto, kp, key);
            && Follows(w, h, b, sto1.(clock := sto1.clock + 1), a) && Follows(w, h, b, sto1, a)
            && (Settled(sto1.states[key]) ==> key in sto.states)
            && (key in sto.states ==> sto1.states[key] == sto.states[key].(imby := sto1.states[key].imby))
  {
    hide Acyclic, Covers, Gives, From;
    var sto1 := Enter(sto, kp, key);
    FollowsSame(w, h, b, sto, sto1, a);
    FollowsSame(w, h, b, sto, sto1.(clock := sto1.clock + 1), a);
  }

  lemma FollowsSame(w: World, h: History, b: Store, sto: Store, sto': Store, a: Spot)
    requires Acyclic(w, h) && Covers(w, h, b.sources) && Follows(w, h, b, sto, a) && sto'.sources == sto.sources
    requires forall k | k in sto'.states && Settled(sto'.states[k]) ::
               k in sto.states && Settled(sto.states[k]) && sto'.states[k].res == sto.states[k].res
    requires forall k | k in sto.states && Settled(sto.states[k]) :: k in sto'.states && Settled(sto'.states[k])
    ensures Follows(w, h, b, sto', a)
  {
    hide Acyclic, Covers, Gives, From;
    forall k, mp | k in sto'.states && k.noHash && Settled(sto'.states[k]) ensures HasGiven(w, h, b, sto', a, k, mp) {
      assert HasGiven(w, h, b, sto, a, k, mp);
    }
  }

  lemma FollowsPublish(w: World, h: History, b: Store, sto: Store, a: Spot, key: Key, res: Result, src: Source,
                       mp: ModPath, found: Found, stamp: int)
    requires Acyclic(w, h) && Covers(w, h, b.sources) && Follows(w, h, b, sto, a) && OneWay(w, h, b.sources, a)
    requires key.noHash && key in sto.states && stamp > sto.states[key].invAt
    requires h.texts(key, Content(b.sources, key.pp.dir), mp) && From(w, h, a, Spot(key.pp, mp))
    requires res == Gives(w, h, b, key, map[], Content(b.sources, key.pp.dir), mp)
    ensures Follows(w, h, b, Publish(sto, key, res, map[], src, mp, found, stamp), a)
  {
    hide Acyclic, Covers, Gives, From, OneWay;
    var r := Publish(sto, key, res, map[], src, mp, found, stamp);
    forall k, mp' | k in r.states && k.noHash && Settled(r.states[k]) ensures HasGiven(w, h, b, r, a, k, mp') {
      if k != key {
        assert HasGiven(w, h, b, sto, a, k, mp');
      } else if h.texts(k, Content(b.sources, k.pp.dir), mp') && From(w, h, a, Spot(k.pp, mp')) {
        GivesOneWay(w, h, b, a, key, map[], Content(b.sources, key.pp.dir), mp, mp');
      }
    }
  }

  /** What is read below the root, and from it without unsaved files, is what the directory holds. */
  lemma ReadsContent(w: World, h: History, srcs: Sources, kp: Importer, pp: PkgPath)
    requires ChainTo(w, h, kp, pp) && Acyclic(w, h) && SeeNothing(w) && StateKey(kp, pp).noHash
    requires kp.ks.None? ==> kp.par.None? && kp.hash == kp.srcMap
    ensures kp.hash == map[] && Current(w, srcs, StateKey(kp, pp), kp.srcMap) == Content(srcs, pp.dir)
  {
    hide Acyclic, ChainTo;
    if kp.ks.Some? {
      ChainHasHead(kp);
      ChainToIsClear(w, h, kp, pp);
    }
  }

  lemma ChainHasHead(kp: Importer)
    ensures kp.ks.Some? ==> Chain(kp) != []
  {
  }

  /** What the table gives where the state is not valid. */
  lemma GivesCheck(w: World, h: History, b: Store, key: Key, hash: Overlay, src: Source, mp: ModPath)
    requires Acyclic(w, h) && Covers(w, h, b.sources) && h.texts(key, src, mp)
    requires key in b.states ==> !Valid(b.states[key], key, hash)
    ensures w.parse(key, src).ParseError? ==> Gives(w, h, b, key, hash, src, mp) == Failed(w.parse(key, src).error)
    ensures w.parse(key, src).Imports? ==>
              var paths := w.parse(key, src).paths;
              Gives(w, h, b, key, hash, src, mp) == Outcome(w, key, src, paths, GivesAll(w, h, b, key, src, mp, paths))
  {
    hide Acyclic, Covers, GivesAll, Outcome;
  }

  /** A state judged valid holds what the table gave from the start; one that is not was not valid then. */
  lemma EnteredGives(w: World, h: History, b: Store, sto: Store, a: Spot, kp: Importer, pp: PkgPath)
    requires Acyclic(w, h) && Covers(w, h, b.sources) && SeeNothing(w) && Follows(w, h, b, sto, a)
    requires ChainTo(w, h, kp, pp) && (kp.ks.None? ==> kp.par.None? && kp.hash == kp.srcMap)
    requires StateKey(kp, pp).noHash || b == sto
    requires From(w, h, a, Spot(pp, kp.mp))
    requires h.texts(StateKey(kp, pp), Current(w, sto.sources, StateKey(kp, pp), kp.srcMap), kp.mp)
    ensures var key, st := StateKey(kp, pp), Enter(sto, kp, StateKey(kp, pp)).states[StateKey(kp, pp)];
            if Valid(st, key, kp.hash)
            then st.res == Gives(w, h, b, key, kp.hash, Current(w, sto.sources, key, kp.srcMap), kp.mp)
            else key in b.states ==> !Valid(b.states[key], key, kp.hash)
    ensures sto.sources == b.sources
  {
    hide Acyclic, Covers, ChainTo, GivesAll, Outcome;
    FollowsEnter(w, h, b, sto, a, kp, StateKey(kp, pp));
    if StateKey(kp, pp).noHash {
      ReadsContent(w, h, sto.sources, kp, pp);
      if StateKey(kp, pp) in sto.states && Settled(sto.states[StateKey(kp, pp)]) {
        assert HasGiven(w, h, b, sto, a, StateKey(kp, pp), kp.mp);
      }
    }
  }

  /** The table on which a check starts. */
  lemma EnterFits(w: World, h: History, sto: Store, kp: Importer, pp: PkgPath)
    requires Fits(w, h, sto, kp, pp)
    ensures var key, sto1 := StateKey(kp, pp), Enter(sto, kp, StateKey(kp, pp));
            && Fits(w, h, sto1.(clock := sto1.clock + 1), kp, pp) && sto1.states[key].invAt <= sto1.clock
  {
    hide Justified, Acyclic, Finite, Local, ChainOk, Leads, Sound, Advances, SeeNothing, Ordered, Chain, ChainTo,
      Covers, Known, Resolved;
    var key, sto1 := StateKey(kp, pp), Enter(sto, kp, StateKey(kp, pp));
    var at := Spot(pp, kp.mp);
    EnterSound(w, h, sto, kp, key, at);
    AdvancesBasics(w, h, sto, sto1, 0, at);
    SoundIsOrdered(w, h, sto1, map[], key);
    TickAdvances(w, h, sto1, sto1.clock + 1, at);
    AdvancesBasics(w, h, sto1, sto1.(clock := sto1.clock + 1), 0, at);
  }

  /** An import returns what the table gives, and leaves a table that gives the same. */
  lemma {:induction false} ImportGives(w: World, h: History, b: Store, sto: Store, a: Spot, kp: Importer, pp: PkgPath)
    requires Fits(w, h, sto, kp, pp) && Covers(w, h, b.sources) && Follows(w, h, b, sto, a)
    requires OneWay(w, h, b.sources, a) && From(w, h, a, Spot(pp, kp.mp))
    requires StateKey(kp, pp).noHash || b == sto
    ensures var key, src := StateKey(kp, pp), Current(w, sto.sources, StateKey(kp, pp), kp.srcMap);
            && h.texts(key, src, kp.mp)
            && Import(w, sto, kp, pp).res == Gives(w, h, b, key, kp.hash, src, kp.mp)
            && (key.noHash ==> Follows(w, h, b, Import(w, sto, kp, pp).sto, a))
    decreases h.rank(pp), 2, 0
  {
    hide Justified, Acyclic, Finite, Local, ChainOk, Room, DetectCycle, Leads, Sound, Advances, SeeNothing, Check,
      Ordered, Chain, ChainTo, Targets, ImportPath, Covers, Known, Occurs, Resolved, Gives, Follows, Kept;
    ChainToIsClear(w, h, kp, pp);
    BranchChain(w, kp, pp);
    KnownReads(w, h, sto.sources, kp, pp);
    var key, src := StateKey(kp, pp), Current(w, sto.sources, StateKey(kp, pp), kp.srcMap);
    var sto1 := Enter(sto, kp, key);
    FollowsEnter(w, h, b, sto, a, kp, key);
    EnteredGives(w, h, b, sto, a, kp, pp);
    if !Valid(sto1.states[key], key, kp.hash) {
      var sto2 := sto1.(clock := sto1.clock + 1);
      EnterFits(w, h, sto, kp, pp);
      CheckGives(w, h, b, sto2, a, kp, pp, src);
      GivesCheck(w, h, b, key, kp.hash, src, kp.mp);
      if key.noHash {
        ReadsContent(w, h, sto.sources, kp, pp);
        CheckSound(w, h, sto2, kp, pp, src);
        var o := Check(w, sto2, Branch(w, kp, key), key, src);
        InvAtKept(w, h, sto2, o.sto, h.rank(pp), Spot(pp, kp.mp), key);
        FollowsPublish(w, h, b, o.sto, a, key, o.res, src, kp.mp, o.found, sto2.clock);
      }
    }
  }

  lemma InvAtKept(w: World, h: History, sto: Store, sto': Store, n: nat, at: Spot, key: Key)
    requires Advances(w, h, sto, sto', n, at) && key in sto.states
    ensures key in sto'.states && sto'.states[key].invAt == sto.states[key].invAt
  {
    hide Sound, Resolved;
    assert Kept(sto.states[key], sto'.states[key]);
  }

  lemma {:induction false} CheckGives(w: World, h: History, b: Store, sto: Store, a: Spot, kp: Importer, pp: PkgPath,
                                      src: Source)
    requires Fits(w, h, sto, kp, pp) && StateKey(kp, pp) in sto.states && h.texts(StateKey(kp, pp), src, kp.mp)
    requires ChainOk(w, Branch(w, kp, StateKey(kp, pp)))
    requires Covers(w, h, b.sources) && Follows(w, h, b, sto, a)
    requires OneWay(w, h, b.sources, a) && From(w, h, a, Spot(pp, kp.mp))
    ensures var key := StateKey(kp, pp);
            var o := Check(w, sto, Branch(w, kp, key), key, src);
            && Follows(w, h, b, o.sto, a)
            && (w.parse(key, src).ParseError? ==> o.res == Failed(w.parse(key, src).error))
            && (w.parse(key, src).Imports? ==>
                  var paths := w.parse(key, src).paths;
                  o.res == Outcome(w, key, src, paths, GivesAll(w, h, b, key, src, kp.mp, paths)))
    decreases h.rank(pp), 1, 0
  {
    hide Sound, Acyclic, Finite, Local, ChainOk, Room, DetectCycle, Leads, ChainTo, Covers, Known, Follows, Gives,
      GivesAll, Outcome, ImportDeps;
    var key := StateKey(kp, pp);
    match w.parse(key, src)
    case ParseError(_) =>
    case Imports(paths) => DepsGives(w, h, b, sto, a, kp, pp, src, paths, 0, [], map[]);
  }

  lemma {:induction false} DepsGives(w: World, h: History, b: Store, sto: Store, a: Spot, kp: Importer, pp: PkgPath,
                                     src: Source, paths: seq<string>, i: nat, pkgs: seq<Pkg>, found: Found)
    requires Fits(w, h, sto, kp, pp) && StateKey(kp, pp) in sto.states && h.texts(StateKey(kp, pp), src, kp.mp)
    requires ChainOk(w, Branch(w, kp, StateKey(kp, pp)))
    requires Covers(w, h, b.sources) && Follows(w, h, b, sto, a)
    requires OneWay(w, h, b.sources, a) && From(w, h, a, Spot(pp, kp.mp))
    requires w.parse(StateKey(kp, pp), src) == Imports(paths) && i == |pkgs| <= |paths|
    requires forall j | 0 <= j < i :: GivesAll(w, h, b, StateKey(kp, pp), src, kp.mp, paths)[j] == Package(pkgs[j])
    ensures var key := StateKey(kp, pp);
            var o := ImportDeps(w, sto, Branch(w, kp, key), key, src, paths, i, pkgs, found);
            && Follows(w, h, b, o.sto, a)
            && o.res == Outcome(w, key, src, paths, GivesAll(w, h, b, key, src, kp.mp, paths))
    decreases h.rank(pp), 0, |paths| - i
  {
    hide Sound, Acyclic, Finite, Local, ChainOk, Room, DetectCycle, Leads, ChainTo, Covers, Known, Follows, Gives,
      GivesAll, ImportPackage, DepResult, Advances, GivesDep;
    var key := StateKey(kp, pp);
    var rs := GivesAll(w, h, b, key, src, kp.mp, paths);
    if i == |paths| {
      FirstBadAt(rs, i);
      assert Pkgs(rs) == pkgs;
    } else {
      DepSound(w, h, sto, kp, pp, src, paths, i, found);
      DepGives(w, h, b, sto, a, kp, pp, src, paths, i);
      var o := ImportPackage(w, sto, Branch(w, kp, key), pp, paths[i]);
      var found' := found[paths[i] := w.find(sto.sources, kp.mp, pp, paths[i])];
      match o.res {
        case Package(p) =>
          AdvancesBasics(w, h, sto, o.sto, h.rank(pp), Spot(pp, kp.mp));
          DepsGives(w, h, b, o.sto, a, kp, pp, src, paths, i + 1, pkgs + [p], found');
        case Failed(_) =>
          FirstBadAt(rs, i);
      }
    }
  }

  lemma {:induction false} DepGives(w: World, h: History, b: Store, sto: Store, a: Spot, kp: Importer, pp: PkgPath,
                                    src: Source, paths: seq<string>, i: nat)
    requires Fits(w, h, sto, kp, pp) && StateKey(kp, pp) in sto.states && h.texts(StateKey(kp, pp), src, kp.mp)
    requires ChainOk(w, Branch(w, kp, StateKey(kp, pp)))
    requires Covers(w, h, b.sources) && Follows(w, h, b, sto, a)
    requires OneWay(w, h, b.sources, a) && From(w, h, a, Spot(pp, kp.mp))
    requires w.parse(StateKey(kp, pp), src) == Imports(paths) && i < |paths|
    ensures var key := StateKey(kp, pp);
            var o := ImportPackage(w, sto, Branch(w, kp, key), pp, paths[i]);
            && Follows(w, h, b, o.sto, a) && o.res == GivesDep(w, h, b, key, src, kp.mp, paths, i)
    decreases h.rank(pp), 0, 0
  {
    hide Sound, ChainOk, Room, DetectCycle, Leads, ChainTo, Covers, Known, Local, Gives, Import;
    var key := StateKey(kp, pp);
    var kx := Branch(w, kp, key);
    match w.find(sto.sources, kp.mp, pp, paths[i])
    case At(d, m) =>
      LeadsOn(w, h, sto.sources, a, key, src, kp.mp, paths[i]);
      ChainIsRoot(kp);
      ChainToDep(w, h, kp, pp, src, paths[i], d, m);
      KnownDep(w, h, kp, pp, src, paths[i], d, m);
      SameChain(w, kx, Toward(kx, m));
      assert StateKey(Toward(kx, m), d) == DepKey(w, key, d);
      ReadsContent(w, h, sto.sources, Toward(kx, m), d);
      ImportGives(w, h, b, sto, a, Toward(kx, m), d);
    case _ =>
  }

  // ---------------------------------------------------------------- exactly when that is the re-check

  /** What it takes to ask whether an import is fresh. */
  ghost predicate Ready(w: World, h: History, sto: Store) {
    Acyclic(w, h) && SeeNothing(w) && Covers(w, h, sto.sources) && Sound(w, h, sto, map[])
  }

  /** A check of `key` under the unsaved files `hash` reads `src` now, and the history has it in the modules `mp`. */
  ghost predicate Reads(w: World, h: History, sto: Store, key: Key, hash: Overlay, src: Source, mp: ModPath) {
    h.texts(key, src, mp) && src == Current(w, sto.sources, key, hash) && (key.noHash ==> hash == map[])
  }

  /** A valid state was computed from what would be read now. */
  lemma ValidSeen(w: World, h: History, sto: Store, key: Key, hash: Overlay, src: Source, mp: ModPath)
    requires Ready(w, h, sto) && key in sto.states && Valid(sto.states[key], key, hash)
    requires Reads(w, h, sto, key, hash, src, mp)
    ensures sto.states[key].seen == src && Standing(w, h, sto, key, mp)
  {
    hide Justified, Occurs, Rests, Acyclic, Covers;
    assert OrderedAt(h, sto, key);
  }

  /** So does a dependency that the import leads to. */
  lemma ReadsDep(w: World, h: History, sto: Store, key: Key, src: Source, mp: ModPath, ip: string)
    requires Ready(w, h, sto) && h.texts(key, src, mp)
    requires w.parse(key, src).Imports? && ip in w.parse(key, src).paths && w.find(sto.sources, mp, key.pp, ip).At?
    ensures var l := w.find(sto.sources, mp, key.pp, ip);
            && Reads(w, h, sto, DepKey(w, key, l.pp), map[], Content(sto.sources, l.pp.dir), Under(mp, l.mod))
            && h.rank(l.pp) < h.rank(key.pp)
  {
    hide Acyclic, Covers, Sound;
    FromSelf(w, h, Spot(key.pp, mp));
    LeadsOn(w, h, sto.sources, Spot(key.pp, mp), key, src, mp, ip);
  }

  /** The import of `key` is fresh: following the imports through states that have to be checked anyway, one comes only
      upon valid states whose results stand; or upon a dependency that fails, and as it does now, before any other. */
  ghost predicate Fresh(w: World, h: History, sto: Store, key: Key, hash: Overlay, src: Source, mp: ModPath)
    requires Ready(w, h, sto) && Reads(w, h, sto, key, hash, src, mp)
    decreases h.rank(key.pp), 2
  {
    if key in sto.states && Valid(sto.states[key], key, hash) then
      ValidSeen(w, h, sto, key, hash, src, mp);
      Stands(w, h, sto, key, mp)
    else
      match w.parse(key, src)
      case ParseError(_) => true
      case Imports(paths) =>
        || (forall i | 0 <= i < |paths| :: FreshDep(w, h, sto, key, src, mp, paths, i))
        || (exists i: nat :: i < |paths| && FreshFailure(w, h, sto, key, src, mp, paths, i))
  }

  ghost predicate FreshFailure(w: World, h: History, sto: Store, key: Key, src: Source, mp: ModPath,
                               paths: seq<string>, i: nat)
    requires Ready(w, h, sto) && h.texts(key, src, mp)
    requires w.parse(key, src) == Imports(paths) && i < |paths|
    decreases h.rank(key.pp), 1
  {
    && FreshDep(w, h, sto, key, src, mp, paths, i) && ValueDep(w, h, sto.sources, key, src, mp, paths, i).Failed?
    && forall j | 0 <= j < i ::
         ValueDep(w, h, sto.sources, key, src, mp, paths, j).Package?
             && GivesDep(w, h, sto, key, src, mp, paths, j).Package?
  }

  ghost predicate FreshDep(w: World, h: History, sto: Store, key: Key, src: Source, mp: ModPath, paths: seq<string>,
                           i: nat)
    requires Ready(w, h, sto) && h.texts(key, src, mp)
    requires w.parse(key, src) == Imports(paths) && i < |paths|
    decreases h.rank(key.pp), 0
  {
    match w.find(sto.sources, mp, key.pp, paths[i])
    case At(d, m) =>
      ReadsDep(w, h, sto, key, src, mp, paths[i]);
      Fresh(w, h, sto, DepKey(w, key, d), map[], Content(sto.sources, d.dir), Under(mp, m))
    case _ => true
  }

  ghost function ValueAll(w: World, h: History, srcs: Sources, key: Key, src: Source, mp: ModPath,
                          paths: seq<string>): (vs: seq<Result>)
    requires Acyclic(w, h) && Covers(w, h, srcs) && h.texts(key, src, mp) && w.parse(key, src) == Imports(paths)
    ensures |vs| == |paths|
    ensures forall i | 0 <= i < |paths| :: vs[i] == ValueDep(w, h, srcs, key, src, mp, paths, i)
  {
    seq(|paths|, i requires 0 <= i < |paths| => ValueDep(w, h, srcs, key, src, mp, paths, i))
  }

  lemma ValueIsOutcome(w: World, h: History, srcs: Sources, key: Key, src: Source, mp: ModPath, paths: seq<string>)
    requires Acyclic(w, h) && Covers(w, h, srcs) && h.texts(key, src, mp) && w.parse(key, src) == Imports(paths)
    ensures Value(w, h, srcs, key, src, mp) == Outcome(w, key, src, paths, ValueAll(w, h, srcs, key, src, mp, paths))
  {
    hide Acyclic, Covers, ValueDep, Value;
    var b, pkgs := ValueCases(w, h, srcs, key, src, mp, paths);
    var vs := ValueAll(w, h, srcs, key, src, mp, paths);
    FirstBadAt(vs, b);
    if b == |paths| {
      assert Pkgs(vs) == pkgs;
    }
  }

  /** Two outcomes of a check are the same if and only if all dependencies are; or the first that fails in each is the
      same and fails alike. */
  lemma OutcomeExact(w: World, tells: Result -> Told, key: Key, src: Source, paths: seq<string>, rs: seq<Result>,
                     vs: seq<Result>)
    requires Telling(w, tells) && |rs| == |vs| == |paths|
    requires forall i, j | 0 <= i < |paths| && 0 <= j < |paths| && paths[i] == paths[j] ::
               rs[i] == rs[j] && vs[i] == vs[j]
    ensures Outcome(w, key, src, paths, rs) == Outcome(w, key, src, paths, vs)
       <==> rs == vs || (FirstBad(rs) == FirstBad(vs) < |vs| && rs[FirstBad(vs)] == vs[FirstBad(vs)])
  {
    hide FirstBad, Pkgs, Telling;
    var g, b := FirstBad(rs), FirstBad(vs);
    OutcomeTells(w, tells, key, src, paths, rs);
    OutcomeTells(w, tells, key, src, paths, vs);
    if Outcome(w, key, src, paths, rs) == Outcome(w, key, src, paths, vs) {
      if b == |vs| {
        assert forall i | 0 <= i < |vs| :: rs[i] == Package(Pkgs(rs)[i]) == vs[i];
        assert rs == vs;
      } else {
        assert paths[g] == paths[b];
        assert g == b;
      }
    }
  }

  lemma OutcomeTells(w: World, tells: Result -> Told, key: Key, src: Source, paths: seq<string>, rs: seq<Result>)
    requires Telling(w, tells) && |rs| == |paths|
    ensures var b, r := FirstBad(rs), Outcome(w, key, src, paths, rs);
            tells(r) == if b == |rs| then ByCheck(key, src, Pkgs(rs)) else ByDep(key, src, paths[b], rs[b].error)
  {
  }

  /** The same path gives the same. */
  lemma SamePaths(w: World, h: History, sto: Store, key: Key, src: Source, mp: ModPath, paths: seq<string>)
    requires Acyclic(w, h) && Covers(w, h, sto.sources) && h.texts(key, src, mp) && w.parse(key, src) == Imports(paths)
    ensures var rs, vs := GivesAll(w, h, sto, key, src, mp, paths), ValueAll(w, h, sto.sources, key, src, mp, paths);
            forall i, j | 0 <= i < |paths| && 0 <= j < |paths| && paths[i] == paths[j] ::
              rs[i] == rs[j] && vs[i] == vs[j]
  {
    hide Acyclic, Covers, Gives, Value;
  }

  /** Whether an import that has to be checked is fresh shows in what its dependencies give. */
  lemma FreshCases(w: World, h: History, sto: Store, key: Key, hash: Overlay, src: Source, mp: ModPath,
                   paths: seq<string>)
    requires Ready(w, h, sto) && Reads(w, h, sto, key, hash, src, mp)
    requires !(key in sto.states && Valid(sto.states[key], key, hash)) && w.parse(key, src) == Imports(paths)
    requires forall i | 0 <= i < |paths| ::
               GivesAll(w, h, sto, key, src, mp, paths)[i] == ValueAll(w, h, sto.sources, key, src, mp, paths)[i] <==>
               FreshDep(w, h, sto, key, src, mp, paths, i)
    ensures var rs, vs := GivesAll(w, h, sto, key, src, mp, paths), ValueAll(w, h, sto.sources, key, src, mp, paths);
            Fresh(w, h, sto, key, hash, src, mp)
            <==> rs == vs || (FirstBad(rs) == FirstBad(vs) < |vs| && rs[FirstBad(vs)] == vs[FirstBad(vs)])
  {
    hide Acyclic, Covers, Sound, FreshDep, GivesDep, ValueDep, FirstBad;
    var rs, vs := GivesAll(w, h, sto, key, src, mp, paths), ValueAll(w, h, sto.sources, key, src, mp, paths);
    if FirstBad(rs) == FirstBad(vs) < |vs| && rs[FirstBad(vs)] == vs[FirstBad(vs)] {
      assert FreshFailure(w, h, sto, key, src, mp, paths, FirstBad(vs));
    } else if i: nat :| i < |paths| && FreshFailure(w, h, sto, key, src, mp, paths, i) {
      FirstBadAt(rs, i);
      FirstBadAt(vs, i);
    }
  }

  lemma {:induction false} GivesDepExact(w: World, h: History, tells: Result -> Told, sto: Store,
                                         key: Key, src: Source, mp: ModPath, paths: seq<string>, i: nat)
    requires Ready(w, h, sto) && h.texts(key, src, mp)
    requires Telling(w, tells) && !w.concurrent && w.parse(key, src) == Imports(paths) && i < |paths|
    ensures GivesDep(w, h, sto, key, src, mp, paths, i) == ValueDep(w, h, sto.sources, key, src, mp, paths, i)
       <==> FreshDep(w, h, sto, key, src, mp, paths, i)
    decreases h.rank(key.pp), 0
  {
    hide Acyclic, Covers, Sound, Telling, Gives, Value, Fresh;
    var l := w.find(sto.sources, mp, key.pp, paths[i]);
    if l.At? {
      ReadsDep(w, h, sto, key, src, mp, paths[i]);
      GivesExact(w, h, tells, sto, DepKey(w, key, l.pp), map[], Content(sto.sources, l.pp.dir), Under(mp, l.mod));
    }
  }

  /** What the table gives is the re-check if and only if the import is fresh. */
  lemma {:induction false} GivesExact(w: World, h: History, tells: Result -> Told, sto: Store,
                                      key: Key, hash: Overlay, src: Source, mp: ModPath)
    requires Ready(w, h, sto) && Reads(w, h, sto, key, hash, src, mp)
    requires Telling(w, tells) && !w.concurrent
    ensures Gives(w, h, sto, key, hash, src, mp) == Value(w, h, sto.sources, key, src, mp)
       <==> Fresh(w, h, sto, key, hash, src, mp)
    decreases h.rank(key.pp), 1
  {
    hide Acyclic, Covers, Telling, GivesDep, FreshDep, ValueDep, ValueDeps, Outcome, Stands, Standing, Sound;
    if key in sto.states && Valid(sto.states[key], key, hash) {
      ValidSeen(w, h, sto, key, hash, src, mp);
      SettledExact(w, h, tells, sto, key, mp);
    } else if w.parse(key, src).Imports? {
      var paths := w.parse(key, src).paths;
      var rs, vs := GivesAll(w, h, sto, key, src, mp, paths), ValueAll(w, h, sto.sources, key, src, mp, paths);
      forall i | 0 <= i < |paths| ensures rs[i] == vs[i] <==> FreshDep(w, h, sto, key, src, mp, paths, i) {
        GivesDepExact(w, h, tells, sto, key, src, mp, paths, i);
      }
      SamePaths(w, h, sto, key, src, mp, paths);
      ValueIsOutcome(w, h, sto.sources, key, src, mp, paths);
      OutcomeExact(w, tells, key, src, paths, rs, vs);
      FreshCases(w, h, sto, key, hash, src, mp, paths);
    }
  }

  /** Exactly when a cached import is stale, where every package it comes upon by several ways is led the same way: it
      returns what a full re-check of the current sources gives if and only if it is fresh, which the table says before
      the import. */
  lemma ImportExactly(w: World, h: History, tells: Result -> Told, sto: Store, kp: Importer, pp: PkgPath)
    requires Fits(w, h, sto, kp, pp) && !w.concurrent && Telling(w, tells) && OneWay(w, h, sto.sources, Spot(pp, kp.mp))
    ensures var key, src := StateKey(kp, pp), Current(w, sto.sources, StateKey(kp, pp), kp.srcMap);
            && Ready(w, h, sto) && Reads(w, h, sto, key, kp.hash, src, kp.mp)
            && (Import(w, sto, kp, pp).res == Recheck(w, sto.sources, kp, pp)
                <==> Fresh(w, h, sto, key, kp.hash, src, kp.mp))
  {
    hide Import, Recheck, Leads, Covers, Value, Stands, Acyclic, ChainOk, Known, Telling, Fresh, Gives, Sound,
      ChainTo, Finite, OneWay;
    var a := Spot(pp, kp.mp);
    FollowsSelf(w, h, sto, a);
    FromSelf(w, h, a);
    ImportGives(w, h, sto, sto, a, kp, pp);
    ChainIsRoot(kp);
    RecheckIsValue(w, h, sto.sources, kp, pp);
    SourceSeen(w, h, sto.sources, kp, pp);
    GivesExact(w, h, tells, sto, StateKey(kp, pp), kp.hash, Current(w, sto.sources, StateKey(kp, pp), kp.srcMap),
        kp.mp);
  }

  /** After any run of imports and changes, a cached import equals the uncached one if and only if it is fresh. */
  lemma CachedImportExactly(w: World, h: History, tells: Result -> Told, ops: seq<Op>,
                            flags: Flags, srcMap: Overlay, mp: ModPath, pp: PkgPath)
    requires Acyclic(w, h) && SeeNothing(w) && !w.concurrent && Telling(w, tells) && Possible(w, ops)
        && Within(w, h, ops)
    requires pp.dir in w.dirs && OpWithin(w, h, DoImport(flags, srcMap, mp, pp))
    requires OneWay(w, h, SourcesAfter(ops), Spot(pp, mp))
    ensures var kp, sto := New(flags, srcMap, mp), Run(w, ops);
            var src := Current(w, sto.sources, StateKey(kp, pp), srcMap);
            && Ready(w, h, sto) && Reads(w, h, sto, StateKey(kp, pp), srcMap, src, mp)
            && (Import(w, sto, kp, pp).res == Recheck(w, SourcesAfter(ops), kp, pp)
                <==> Fresh(w, h, sto, StateKey(kp, pp), srcMap, src, mp))
  {
    hide Sound, Acyclic, Leads, Local, Import, Recheck, Covers, OpWithin, Fits, Fresh, Telling, OneWay, Ready, Reads;
    RunSound(w, h, ops);
    NewFits(w, h, Run(w, ops), flags, srcMap, mp, pp);
    ImportExactly(w, h, tells, Run(w, ops), New(flags, srcMap, mp), pp);
  }
}
