/** What the import protocol guarantees in every reachable state. */
module ImportTheorems {
  import opened Wrappers
  import opened ImportModel
  import opened ImportCache
  import opened Invalidation
  import opened TableSteps
  import opened ImportExact
  import opened ImportSteps
  import opened ImportStepsProof
  import SeqImport

  // ---------------------------------------------------------------- no missed invalidation

  /** The import `ip` of `key` was looked up, and rests on a state that is settled and knows `key` as an importer,
      unless it led to no directory: nothing is registered then. */
  ghost predicate RestsOn(w: World, states: map<Key, St>, key: Key, found: Found, ip: string) {
    && ip in found
    && (found[ip].At? ==>
          var dk := DepKey(w, key, found[ip].pp);
          dk in states && Settled(states[dk]) && key in states[dk].imby)
  }

  /** A settled state rests on everything its check looked up, and that was every dependency its result was computed
      from: all of them, or the one that failed and, when dependencies are imported in order, those before it. */
  lemma SettledRests(w: World, h: History, s: Sys, steps: seq<Step>, key: Key)
    requires Assumed(w, h) && Reachable(w, h, s, steps)
    requires key in s.sto.states && Settled(s.sto.states[key])
    requires w.parse(key, s.sto.states[key].seen).Imports?
    ensures var st := s.sto.states[key];
            var paths := w.parse(key, st.seen).paths;
            && (forall ip | ip in st.found :: RestsOn(w, s.sto.states, key, st.found, ip))
            && (
            || (forall ip | ip in paths :: RestsOn(w, s.sto.states, key, st.found, ip))
            || (exists i: nat :: i < |paths| && st.res.Failed? && RestsOn(w, s.sto.states, key, st.found, paths[i]) &&
                  (!w.concurrent ==> forall j | 0 <= j < i :: RestsOn(w, s.sto.states, key, st.found, paths[j]))))
  {
    hide Assumed, LocksOk, AllTasks, Ordered, Reachable, Occurs, Covers, Finite;
    ReachableInv(w, h, s, steps);
    var st := s.sto.states[key];
    var paths := w.parse(key, st.seen).paths;
    assert CoherentAt(w, h, s.sto.states, key);
    forall ip | ip in st.found ensures RestsOn(w, s.sto.states, key, st.found, ip) {
      assert DepResult(w, s.sto.states, key, st.found, ip).Some?;
    }
    if i: nat :| i < |paths| && FailedAt(w, s.sto.states, key, st.seen, st.found, paths, i, st.res) {
      assert RestsOn(w, s.sto.states, key, st.found, paths[i]);
      forall j | !w.concurrent && 0 <= j < i ensures RestsOn(w, s.sto.states, key, st.found, paths[j]) {
        assert DepResult(w, s.sto.states, key, st.found, paths[j]).Some?;
      }
    } else {
      forall ip | ip in paths ensures RestsOn(w, s.sto.states, key, st.found, ip) {
        var j :| 0 <= j < |paths| && paths[j] == ip;
        assert DepResult(w, s.sto.states, key, st.found, paths[j]).Some?;
      }
    }
  }

  /** A running check whose stamp is newer than every invalidation of its state is registered with each
      dependency it used, and each of those is still settled with the result that was used. */
  lemma NoMissedInvalidation(w: World, h: History, s: Sys, steps: seq<Step>, id: nat, ip: string)
    requires Assumed(w, h) && Reachable(w, h, s, steps)
    requires OnTrack(s, id) && ip in s.tasks[id].pc.used
    ensures var key, found := s.tasks[id].Key(), s.tasks[id].pc.found;
            && ip in found && WasFound(w, s.tasks[id].kp.mp, key.pp, ip, found[ip])
            && (!found[ip].At? ==> s.tasks[id].pc.used[ip] == Direct(found[ip]))
            && (found[ip].At? ==>
                  var dk := DepKey(w, key, found[ip].pp);
                  && dk in s.sto.states && key in s.sto.states[dk].imby
                  && Settled(s.sto.states[dk]) && s.sto.states[dk].res == s.tasks[id].pc.used[ip])
  {
    hide Assumed, LocksOk, AllTasks, Reachable, Sound, Rooted, Serves, WasFound, Finite, Covers;
    ReachableInv(w, h, s, steps);
    PartsOf(w, h, s);
    TaskOf(w, h, s, id);
  }

  /** A walk that brings nothing back misses nothing if and only if no check drew its stamp after that of the walk
      and used a state that was not walked yet. */
  lemma MissesNothingIff(w: World, h: History, s: Sys, steps: seq<Step>, c: Clearing)
    requires Assumed(w, h) && Reachable(w, h, s, steps) && c in s.clears && InTurn(s, c)
    ensures Inv(w, h, Walked(s, c)) <==> !Overtakes(w, s, c)
  {
    hide Assumed, Reachable, Inv, InTurn, Overtakes, Walked;
    ReachableInv(w, h, s, steps);
    WalkKeepsIff(w, h, s, c);
  }

  /** A walk at once, as soon as its stamp is drawn, is never too late. */
  lemma WalkAtOnce(w: World, h: History, s: Sys, steps: seq<Step>, dir: string)
    requires Assumed(w, h) && Reachable(w, h, s, steps)
    ensures var s' := Apply(w, s, Announce(dir));
            InTurn(s', Clearing(dir, s'.sto.clock)) && !Overtakes(w, s', Clearing(dir, s'.sto.clock))
  {
    hide Assumed, Reachable, Sound, AllTasks, LocksOk, Hit, Lost, Finite, Covers, Ordered, Orderly, Overtaken, Inv;
    ReachableInv(w, h, s, steps);
    var s' := Apply(w, s, Announce(dir));
    KeepStep(w, h, s, Announce(dir));
    PartsOf(w, h, s');
    NewestStamp(w, h, s'.sto, StatesOf(s'.sto, dir), s'.sto.clock);
    forall id | CheckOf(s', id) ensures s'.tasks[id].pc.stamp <= s'.sto.clock {
      StampOf(w, h, s', id);
    }
  }

  // ---------------------------------------------------------------- agreement

  /** The step by which `id` returns: it finds its state valid, or publishes a check that is on track. */
  ghost predicate Returns(s: Sys, step: Step, id: nat) {
    step == Reuse(id) || (step.Finish? && step.id == id && OnTrack(s, id))
  }

  /** The result an import returns is then in the table, computed from what its directory holds; and a re-check
      is the value of the package. */
  lemma ReturnedIsSettled(w: World, h: History, s: Sys, steps: seq<Step>, step: Step, id: nat)
    requires Assumed(w, h) && Reachable(w, h, s, steps) && s.dirty == map[]
    requires Enabled(w, s, step) && Returns(s, step, id)
    ensures var s' := Apply(w, s, step);
            && s'.sto.sources == s.sto.sources && id in s.tasks && id in s'.tasks && s'.tasks[id].pc.Done?
            && Finite(w, s.sto.sources) && ChainOk(w, s.tasks[id].kp) && s.tasks[id].pp.dir in w.dirs
            && var key := s.tasks[id].Key();
            && Standing(w, h, s'.sto, key, s.tasks[id].kp.mp)
            && s'.tasks[id].pc.res == s'.sto.states[key].res
            && Recheck(w, s.sto.sources, s.tasks[id].kp, s.tasks[id].pp)
               == Value(w, h, s.sto.sources, key, s'.sto.states[key].seen, s.tasks[id].kp.mp)
  {
    hide Recheck, LocksOk, AllTasks, Reachable, Coherent, Serves, Outcome, Value, Leads, Local, ChainTo, Covers,
      Finite, Known, Acyclic, Apply, Enabled, Returns, Ordered, ChainOk;
    ReachableInv(w, h, s, steps);
    StepReturns(w, h, s, step, id);
    KeepStep(w, h, s, step);
    var s', t := Apply(w, s, step), s.tasks[id];
    PartsOf(w, h, s);
    PartsOf(w, h, s');
    TaskOf(w, h, s, id);
    Position(w, h, s, id);
    TaskKnown(w, h, s, id);
    RecheckIsValue(w, h, s.sto.sources, t.kp, t.pp);
    SeqImport.SourceSeen(w, h, s.sto.sources, t.kp, t.pp);
  }

  lemma StepReturns(w: World, h: History, s: Sys, step: Step, id: nat)
    requires Inv(w, h, s) && Enabled(w, s, step) && Returns(s, step, id)
    ensures Allowed(w, h, s, step)
    ensures var s' := Apply(w, s, step);
            && s'.sto.sources == s.sto.sources && s'.dirty == s.dirty
            && id in s.tasks && id in s'.tasks && s'.tasks[id].pc.Done?
            && s.tasks[id].Key() in s'.sto.states && Settled(s'.sto.states[s.tasks[id].Key()])
            && s'.sto.states[s.tasks[id].Key()].res == s'.tasks[id].pc.res
            && s'.sto.states[s.tasks[id].Key()].hash == s.tasks[id].kp.hash
  {
    hide LocksOk, AllTasks, Coherent, UpToDate, Serves, Outcome, Finite, Covers, Sound, Ordered;
    PartsOf(w, h, s);
    TaskOf(w, h, s, id);
    Position(w, h, s, id);
    SoundIsOrdered(w, h, s.sto, s.dirty, s.tasks[id].Key());
  }

  lemma TaskKnown(w: World, h: History, s: Sys, id: nat)
    requires id in s.tasks && Rooted(w, h, s, id)
    ensures Known(w, h, s.tasks[id].kp, s.tasks[id].pp)
  {
    hide ChainOk, ChainTo, Local, Imported;
  }

  /** In a run in which every change has been announced, what an import returns is what a full re-check
      of the current sources gives, unless its state was invalidated while it was being checked; provided the settled
      states it leads to lead where its importer is led. */
  lemma ReturnedIsRecheck(w: World, h: History, s: Sys, steps: seq<Step>, step: Step, id: nat)
    requires Assumed(w, h) && Reachable(w, h, s, steps) && s.dirty == map[]
    requires Enabled(w, s, step) && Returns(s, step, id) && id in s.tasks
    requires ResolvedFrom(w, h, Apply(w, s, step).sto, Spot(s.tasks[id].pp, s.tasks[id].kp.mp))
    ensures var s' := Apply(w, s, step);
            && id in s'.tasks && s'.tasks[id].pc.Done?
            && Finite(w, s.sto.sources) && ChainOk(w, s.tasks[id].kp) && s.tasks[id].pp.dir in w.dirs
            && Agree(w, s'.tasks[id].pc.res, Recheck(w, s.sto.sources, s.tasks[id].kp, s.tasks[id].pp))
  {
    hide Recheck, Reachable, Standing, UpToDate, Value, From, Agree, Apply, Enabled, Returns, ResolvedFrom, Stands,
      ChainOk;
    ReturnedIsSettled(w, h, s, steps, step, id);
    var s' := Apply(w, s, step);
    var a := Spot(s.tasks[id].pp, s.tasks[id].kp.mp);
    SeqImport.FromSelf(w, h, a);
    ResolvedStands(w, h, s'.sto, s.tasks[id].Key(), a.mp, a);
    SettledAgrees(w, h, s'.sto, s.tasks[id].Key(), a.mp);
  }

  /** Exactly when it is not, in a world whose results show how they came about: when the result no longer stands. */
  lemma ReturnedExactly(w: World, h: History, tells: Result -> Told, s: Sys, steps: seq<Step>, step: Step, id: nat)
    requires Assumed(w, h) && Reachable(w, h, s, steps) && s.dirty == map[]
    requires Telling(w, tells) && !w.concurrent
    requires Enabled(w, s, step) && Returns(s, step, id) && id in s.tasks
    ensures var s' := Apply(w, s, step);
            && id in s'.tasks && s'.tasks[id].pc.Done? && Standing(w, h, s'.sto, s.tasks[id].Key(), s.tasks[id].kp.mp)
            && Finite(w, s.sto.sources) && ChainOk(w, s.tasks[id].kp) && s.tasks[id].pp.dir in w.dirs
            && (s'.tasks[id].pc.res == Recheck(w, s.sto.sources, s.tasks[id].kp, s.tasks[id].pp)
                <==> Stands(w, h, s'.sto, s.tasks[id].Key(), s.tasks[id].kp.mp))
  {
    hide Recheck, Reachable, Standing, UpToDate, Value, From, Apply, Enabled, Returns, Stands, ChainOk, Telling;
    ReturnedIsSettled(w, h, s, steps, step, id);
    SettledExact(w, h, tells, Apply(w, s, step).sto, s.tasks[id].Key(), s.tasks[id].kp.mp);
  }

  // ---------------------------------------------------------------- deadlock freedom

  /** `a` cannot move before `b` does: `b` holds the lock `a` wants, or `b` imports for `a`. */
  ghost predicate WaitsFor(s: Sys, a: nat, b: nat) {
    && a in s.tasks && b in s.tasks
    && (|| (s.tasks[a].pc.Waiting? && s.tasks[a].Key() in s.held && s.held[s.tasks[a].Key()] == b)
        || (s.tasks[a].pc.Checking? && s.tasks[b].parent == Some(a)))
  }

  /** Waiting descends: to a dependency of lower rank, or from a task without the lock to its holder. */
  lemma WaitingDescends(w: World, h: History, s: Sys, a: nat, b: nat)
    requires Assumed(w, h) && Inv(w, h, s) && WaitsFor(s, a, b)
    ensures || h.rank(s.tasks[b].pp) < h.rank(s.tasks[a].pp)
            || (s.tasks[b].pp == s.tasks[a].pp && s.tasks[a].pc.Waiting? && Holds(s.tasks[b].pc))
  {
    hide ChainOk, ChainTo, Local, Sound, Tracked, Serves, AllTasks, Leads;
    PartsOf(w, h, s);
    TaskOf(w, h, s, b);
  }

  /** A step of an import that is already under way. */
  predicate Progress(step: Step) {
    !step.Begin? && !step.Edit? && !step.Announce? && !step.Walk?
  }

  lemma {:induction false} FreshId(ids: set<nat>) returns (id: nat)
    ensures forall x | x in ids :: x < id
  {
    if ids == {} {
      id := 0;
    } else {
      var x :| x in ids;
      var below := FreshId(ids - {x});
      id := if x < below then below else x + 1;
      forall y | y in ids ensures y < id {
        assert y == x || y in ids - {x};
      }
    }
  }

  /** A check whose source is read and that waits for nobody can import something or publish. */
  lemma CheckCanStep(w: World, s: Sys, id: nat)
    requires id in s.tasks && s.tasks[id].pc.Checking? && s.tasks[id].pc.src.Some? && NoChildren(s, id)
    requires s.tasks[id].Key() in s.sto.states
    ensures exists step :: Progress(step) && Enabled(w, s, step)
  {
    var key, src, used := s.tasks[id].Key(), s.tasks[id].pc.src.value, s.tasks[id].pc.used;
    match w.parse(key, src)
    case ParseError(e) =>
      assert Enabled(w, s, Finish(id, Failed(e)));
    case Imports(paths) =>
      var n := FirstOpen(used, paths);
      if n == |paths| {
        assert Enabled(w, s, Finish(id, w.typeCheck(key, src, PkgsOf(used, paths))));
      } else if paths[n] in used {
        var res := Failed(w.wrap(key, src, paths[n], used[paths[n]].error));
        assert FailsAt(w, key, src, used, paths, n, res);
        assert Enabled(w, s, Finish(id, res));
      } else {
        assert ItsTurn(used, paths, paths[n]);
        assert MayImport(w, s, id, paths[n]);
        if LookedUp(w, s, id, paths[n]).At? {
          var next := FreshId(s.tasks.Keys);
          assert Enabled(w, s, Spawn(next, id, paths[n]));
        } else {
          assert Enabled(w, s, Resolve(id, paths[n]));
        }
      }
  }

  ghost function FirstOpen(used: map<string, Result>, paths: seq<string>): (n: nat)
    ensures n <= |paths| && AllGood(used, paths, n)
    ensures n < |paths| ==> !Good(used, paths[n])
  {
    if paths == [] || !Good(used, paths[0]) then 0 else
      var m := FirstOpen(used, paths[1..]);
      assert forall i | 0 < i < m + 1 :: Good(used, paths[i]) by {
        forall i | 0 < i < m + 1 ensures Good(used, paths[i]) { assert Good(used, paths[1..][i - 1]); }
      }
      m + 1
  }

  lemma {:induction false} CanStep(w: World, h: History, s: Sys, id: nat)
    requires Assumed(w, h) && Inv(w, h, s) && id in s.tasks && !s.tasks[id].pc.Done?
    ensures exists step :: Progress(step) && Enabled(w, s, step)
    decreases h.rank(s.tasks[id].pp), if s.tasks[id].pc.Waiting? then 1 else 0
  {
    hide Assumed, Inv, Rooted, Sound, Tracked, Serves, AllTasks, MayImport, Outcome, Ordered, Covers, Finite, TaskInv,
      ClearsOk, LookedUp, Valid, LocksOk, Importing;
    PartsOf(w, h, s);
    TaskOf(w, h, s, id);
    InStates(w, h, s, id);
    match s.tasks[id].pc
    case Entering => assert Enabled(w, s, Enlist(id));
    case Waiting =>
      if s.tasks[id].Key() in s.held {
        var b := s.held[s.tasks[id].Key()];
        HolderOf(s, s.tasks[id].Key());
        WaitingDescends(w, h, s, id, b);
        CanStep(w, h, s, b);
      } else {
        assert Enabled(w, s, Acquire(id));
      }
    case Held =>
      assert Enabled(w, s, Reuse(id)) || Enabled(w, s, Draw(id));
    case Checking(_, src, _, _, _) =>
      if src.None? {
        assert Enabled(w, s, ReadSource(id));
      } else if NoChildren(s, id) {
        CheckCanStep(w, s, id);
      } else {
        var c :| c in s.tasks && s.tasks[c].parent == Some(id);
        if s.tasks[c].pc.Done? {
          assert Enabled(w, s, Take(c));
        } else {
          assert WaitsFor(s, id, c);
          WaitingDescends(w, h, s, id, c);
          CanStep(w, h, s, c);
        }
      }
  }

  lemma HolderOf(s: Sys, k: Key)
    requires LocksOk(s) && k in s.held
    ensures s.held[k] in s.tasks && s.tasks[s.held[k]].Key() == k && Holds(s.tasks[s.held[k]].pc)
  {
  }

  lemma InStates(w: World, h: History, s: Sys, id: nat)
    requires id in s.tasks && Rooted(w, h, s, id)
    ensures s.tasks[id].Key() in s.sto.states
  {
    hide ChainOk, ChainTo, Local, Imported;
  }

  /** However many imports are under way, as long as one is unfinished some import can take a step. */
  lemma DeadlockFree(w: World, h: History, s: Sys, steps: seq<Step>)
    requires Assumed(w, h) && Reachable(w, h, s, steps)
    requires exists id :: id in s.tasks && !s.tasks[id].pc.Done?
    ensures exists step :: Progress(step) && Enabled(w, s, step)
  {
    hide Assumed, Inv, Enabled, Reachable;
    ReachableInv(w, h, s, steps);
    var id :| id in s.tasks && !s.tasks[id].pc.Done?;
    CanStep(w, h, s, id);
  }
}
