/** The life of a reducer: which of its methods one reduction calls, and what that adds up to over a run. */
module Reducers {
  /** The first action of a run, the last one, and all those in between. */
  datatype Action = InitAction | UnmountAction | Other(name: string)

  datatype Call = RInit | RConfig | RCond(answer: bool) | RMount | Reduce | RUnmount

  /** What a reducer remembers between reductions. */
  datatype Flags = Flags(mounted: bool, unmounted: bool)

  /** One reduction: the action, and what RCond answers to it. */
  datatype Turn = Turn(act: Action, cond: bool)

  /** The calls of one reduction. If RMount was called, RUnmount must be, even if RCond now says no. */
  function Calls(f: Flags, t: Turn): seq<Call> {
    (if t.act.InitAction? then [RInit] else []) + [RConfig, RCond(t.cond)] +
    if !t.cond then
      (if f.mounted && !f.unmounted && t.act.UnmountAction? then [RUnmount] else [])
    else
      (if f.mounted then [] else [RMount]) +
      (if !f.unmounted && t.act.UnmountAction? then [RUnmount] else [Reduce])
  }

  function After(f: Flags, t: Turn): Flags {
    var mounted := f.mounted || t.cond;
    Flags(mounted, f.unmounted || (mounted && t.act.UnmountAction?))
  }

  const FRESH := Flags(false, false)

  function FlagsAfter(f: Flags, ts: seq<Turn>): Flags {
    if ts == [] then f else After(FlagsAfter(f, ts[..|ts| - 1]), ts[|ts| - 1])
  }

  function Trace(f: Flags, ts: seq<Turn>): seq<Call> {
    if ts == [] then [] else
      Trace(f, ts[..|ts| - 1]) + Calls(FlagsAfter(f, ts[..|ts| - 1]), ts[|ts| - 1])
  }

  // ---------------------------------------------------------------- the reducer itself

  /** The order in which the reducers of a store took their turns. */
  class Recorder {
    ghost var turns: seq<nat>

    constructor ()
      ensures turns == []
    {
      turns := [];
    }
  }

  /** The part every reducer embeds; `trace` records the calls made on the reducer it belongs to. */
  class ReducerType {
    const id: nat                       // the reducer that embeds it
    const recorder: Recorder
    var parent: int                     // the reducer it was bootstrapped with, or -1
    var mounted: bool
    var unmounted: bool
    ghost var trace: seq<Call>

    constructor (id: nat, recorder: Recorder)
      ensures this.id == id && this.recorder == recorder && parent == -1 && Memory() == FRESH && trace == []
    {
      this.id, this.recorder := id, recorder;
      parent, mounted, unmounted, trace := -1, false, false, [];
    }

    function Memory(): Flags
      reads this`mounted, this`unmounted
    {
      Flags(mounted, unmounted)
    }

    ghost method Called(c: Call)
      modifies this`trace
      ensures trace == old(trace) + [c]
    {
      trace := trace + [c];
    }

    /** Adopts its reducer on first use; a second owner is a panic. */
    method Bootstrap(r: nat)
      requires parent == -1 || parent == r
      modifies this`parent
      ensures parent == r
    {
      if parent == -1 {
        parent := r;
      }
    }

    method Init(act: Action)
      modifies this`trace
      ensures trace == old(trace) + if act.InitAction? then [RInit] else []
    {
      if !act.InitAction? {
        return;
      }
      Called(RInit);
    }

    method Mount()
      modifies this`mounted, this`trace
      ensures mounted
      ensures trace == old(trace) + if old(mounted) then [] else [RMount]
    {
      if mounted {
        return;
      }
      mounted := true;
      Called(RMount);
    }

    method Unmount(act: Action) returns (done: bool)
      modifies this`unmounted, this`trace
      ensures done == (mounted && !old(unmounted) && act.UnmountAction?)
      ensures unmounted == (old(unmounted) || done)
      ensures trace == old(trace) + if done then [RUnmount] else []
    {
      if !mounted || unmounted || !act.UnmountAction? {
        return false;
      }
      unmounted := true;
      Called(RUnmount);
      done := true;
    }

    predicate Owned()
      reads this`parent
    {
      parent == -1 || parent == id
    }

    method Reduction(t: Turn)
      requires Owned()
      modifies this, recorder
      ensures Owned()
      ensures Memory() == After(old(Memory()), t)
      ensures trace == old(trace) + Calls(old(Memory()), t)
      ensures recorder.turns == old(recorder.turns) + [id]
    {
      recorder.turns := recorder.turns + [id];
      Bootstrap(id);
      Init(t.act);
      Called(RConfig);
      Called(RCond(t.cond));
      if !t.cond {
        var _ := Unmount(t.act);
        return;
      }
      Mount();
      var done := Unmount(t.act);
      if done {
        return;
      }
      Called(Reduce);
    }
  }

  ghost predicate Distinct(rl: seq<ReducerType>) {
    forall i, j | 0 <= i < j < |rl| :: rl[i] != rl[j]
  }

  ghost predicate AllOwned(rl: seq<ReducerType>)
    reads rl
  {
    forall i | 0 <= i < |rl| :: rl[i].Owned()
  }

  ghost predicate AllRecord(rl: seq<ReducerType>, recorder: Recorder) {
    forall i | 0 <= i < |rl| :: rl[i].recorder == recorder
  }

  function Ids(rl: seq<ReducerType>): (ids: seq<nat>)
    ensures |ids| == |rl| && forall k | 0 <= k < |rl| :: ids[k] == rl[k].id
  {
    seq(|rl|, k requires 0 <= k < |rl| => rl[k].id)
  }

  /** Every reducer of a list takes its turn, in registration order. */
  method Round(rl: seq<ReducerType>, recorder: Recorder, act: Action, conds: ReducerType -> bool)
    requires Distinct(rl) && AllOwned(rl) && AllRecord(rl, recorder)
    modifies rl, recorder
    ensures AllOwned(rl)
    ensures recorder.turns == old(recorder.turns) + Ids(rl)
    ensures forall i | 0 <= i < |rl| ::
              && rl[i].Memory() == After(old(rl[i].Memory()), Turn(act, conds(rl[i])))
              && rl[i].trace == old(rl[i].trace) + Calls(old(rl[i].Memory()), Turn(act, conds(rl[i])))
  {
    hide After, Calls;
    for n := 0 to |rl|
      invariant AllOwned(rl)
      invariant recorder.turns == old(recorder.turns) + Ids(rl)[..n]
      invariant forall i | 0 <= i < n ::
                  && rl[i].Memory() == After(old(rl[i].Memory()), Turn(act, conds(rl[i])))
                  && rl[i].trace == old(rl[i].trace) + Calls(old(rl[i].Memory()), Turn(act, conds(rl[i])))
      invariant forall i | n <= i < |rl| :: rl[i].Memory() == old(rl[i].Memory()) && rl[i].trace == old(rl[i].trace)
    {
      rl[n].Reduction(Turn(act, conds(rl[n])));
    }
  }

  /** What a reducer sees of a list of actions. */
  function Turns(acts: seq<Action>, r: ReducerType, conds: (ReducerType, nat) -> bool): (ts: seq<Turn>)
    ensures |ts| == |acts| && forall k | 0 <= k < |acts| :: ts[k] == Turn(acts[k], conds(r, k))
  {
    seq(|acts|, k requires 0 <= k < |acts| => Turn(acts[k], conds(r, k)))
  }

  lemma TurnsNext(acts: seq<Action>, n: nat, r: ReducerType, conds: (ReducerType, nat) -> bool)
    requires n < |acts|
    ensures Turns(acts[..n + 1], r, conds) == Turns(acts[..n], r, conds) + [Turn(acts[n], conds(r, n))]
  {
  }

  lemma TraceNext(f: Flags, ts: seq<Turn>, t: Turn)
    ensures Trace(f, ts + [t]) == Trace(f, ts) + Calls(FlagsAfter(f, ts), t)
    ensures FlagsAfter(f, ts + [t]) == After(FlagsAfter(f, ts), t)
  {
    assert (ts + [t])[..|ts + [t]| - 1] == ts;
  }

  /** Handlers reduce one after the other: what a run adds up to does not depend on how its actions were grouped. */
  lemma {:induction false} TraceJoins(f: Flags, a: seq<Turn>, b: seq<Turn>)
    ensures Trace(f, a + b) == Trace(f, a) + Trace(FlagsAfter(f, a), b)
    ensures FlagsAfter(f, a + b) == FlagsAfter(FlagsAfter(f, a), b)
  {
    hide Calls, After;
    if b == [] {
      assert a + b == a;
    } else {
      var b0, t := b[..|b| - 1], b[|b| - 1];
      TraceJoins(f, a, b0);
      assert a + b == (a + b0) + [t] && b == b0 + [t];
      TraceNext(f, a + b0, t);
      TraceNext(FlagsAfter(f, a), b0, t);
    }
  }

  /** The reducers of a store: those registered to run before, normally, and after. */
  class StoreReducers {
    var before: seq<ReducerType>
    var use: seq<ReducerType>
    var after: seq<ReducerType>
    const recorder: Recorder

    constructor (before: seq<ReducerType>, use: seq<ReducerType>, after: seq<ReducerType>, recorder: Recorder)
      ensures All() == before + use + after && this.recorder == recorder
    {
      this.before, this.use, this.after, this.recorder := before, use, after, recorder;
    }

    function All(): seq<ReducerType>
      reads this
    {
      before + use + after
    }

    /** One action goes through all reducers, those before first and those after last. */
    method Reduction(act: Action, conds: ReducerType -> bool)
      requires Distinct(All()) && AllOwned(All()) && AllRecord(All(), recorder)
      modifies All(), recorder
      ensures AllOwned(All())
      ensures recorder.turns == old(recorder.turns) + Ids(before) + Ids(use) + Ids(after)
      ensures forall r | r in All() ::
                && r.Memory() == After(old(r.Memory()), Turn(act, conds(r)))
                && r.trace == old(r.trace) + Calls(old(r.Memory()), Turn(act, conds(r)))
    {
      hide After, Calls;
      Parts();
      Round(before, recorder, act, conds);
      Round(use, recorder, act, conds);
      Round(after, recorder, act, conds);
      forall r | r in All()
        ensures r.Memory() == After(old(r.Memory()), Turn(act, conds(r)))
        ensures r.trace == old(r.trace) + Calls(old(r.Memory()), Turn(act, conds(r)))
        ensures r.Owned()
      {
        assert r in before || r in use || r in after;
      }
    }

    lemma Parts()
      requires Distinct(All()) && AllOwned(All()) && AllRecord(All(), recorder)
      ensures AllRecord(before, recorder) && AllRecord(use, recorder) && AllRecord(after, recorder)
      ensures Distinct(before) && Distinct(use) && Distinct(after)
      ensures AllOwned(before) && AllOwned(use) && AllOwned(after)
      ensures forall r | r in before :: r !in use && r !in after
      ensures forall r | r in use :: r !in after
      ensures forall i | 0 <= i < |before| :: before[i] in All()
      ensures forall i | 0 <= i < |use| :: use[i] in All()
      ensures forall i | 0 <= i < |after| :: after[i] in All()
    {
      var b, u := |before|, |before| + |use|;
      assert forall i | 0 <= i < |before| :: All()[i] == before[i];
      assert forall i | 0 <= i < |use| :: All()[b + i] == use[i];
      assert forall i | 0 <= i < |after| :: All()[u + i] == after[i];
    }

    /** The turns of `n` actions: every reducer takes its turn at one before any takes it at the next. */
    function Rounds(n: nat): seq<nat>
      reads this
    {
      if n == 0 then [] else Rounds(n - 1) + (Ids(before) + Ids(use) + Ids(after))
    }

    /** A request's actions are reduced one after the other. */
    method HandleReduction(acts: seq<Action>, conds: (ReducerType, nat) -> bool)
      requires Distinct(All()) && AllOwned(All()) && AllRecord(All(), recorder)
      modifies All(), recorder
      ensures AllOwned(All())
      ensures recorder.turns == old(recorder.turns) + Rounds(|acts|)
      ensures forall r | r in All() ::
                && r.Memory() == FlagsAfter(old(r.Memory()), Turns(acts, r, conds))
                && r.trace == old(r.trace) + Trace(old(r.Memory()), Turns(acts, r, conds))
    {
      hide After, Calls, Trace, FlagsAfter, Turns, Ids, Rounds;
      forall r | r in All() ensures Turns(acts[..0], r, conds) == [] { }
      NoTurns();
      assert Rounds(0) == [] by { RoundsNext(0); }
      for n := 0 to |acts|
        invariant Distinct(All()) && AllOwned(All())
        invariant recorder.turns == old(recorder.turns) + Rounds(n)
        invariant forall r | r in All() ::
                    && r.Memory() == FlagsAfter(old(r.Memory()), Turns(acts[..n], r, conds))
                    && r.trace == old(r.trace) + Trace(old(r.Memory()), Turns(acts[..n], r, conds))
      {
        forall r | r in All()
          ensures var f, ts, t := old(r.Memory()), Turns(acts[..n], r, conds), Turn(acts[n], conds(r, n));
                  && Trace(f, Turns(acts[..n + 1], r, conds)) == Trace(f, ts) + Calls(FlagsAfter(f, ts), t)
                  && FlagsAfter(f, Turns(acts[..n + 1], r, conds)) == After(FlagsAfter(f, ts), t)
        {
          TurnsNext(acts, n, r, conds);
          TraceNext(old(r.Memory()), Turns(acts[..n], r, conds), Turn(acts[n], conds(r, n)));
        }
        Reduction(acts[n], (r: ReducerType) => conds(r, n));
        RoundsNext(n);
      }
      assert acts[..|acts|] == acts;
    }

    lemma RoundsNext(n: nat)
      ensures Rounds(0) == [] && Rounds(n + 1) == Rounds(n) + (Ids(before) + Ids(use) + Ids(after))
    {
      hide Ids;
    }

    lemma NoTurns()
      ensures forall f :: Trace(f, []) == [] && FlagsAfter(f, []) == f
    {
    }
  }

  // ---------------------------------------------------------------- the lifecycle

  /** RInit comes first and only then. */
  ghost predicate InitFirst(tr: seq<Call>) {
    forall i | 0 <= i < |tr| :: tr[i] == RInit <==> i == 0
  }

  ghost predicate FirstYes(tr: seq<Call>, i: int) {
    0 <= i < |tr| && tr[i] == RCond(true) && RCond(true) !in tr[..i]
  }

  /** RMount comes right after the first RCond that says yes, and nowhere else. */
  ghost predicate MountAfterCond(tr: seq<Call>) {
    && (forall i | 0 <= i < |tr| :: tr[i] == RMount ==> FirstYes(tr, i - 1))
    && (forall i | 0 <= i < |tr| :: FirstYes(tr, i) ==> i + 1 < |tr| && tr[i + 1] == RMount)
  }

  /** Reduce and RUnmount are called only once RMount was. */
  ghost predicate MountedFirst(tr: seq<Call>) {
    forall i | 0 <= i < |tr| && (tr[i] == Reduce || tr[i] == RUnmount) :: RMount in tr[..i]
  }

  /** Nothing is reduced after RUnmount, and RUnmount is not called again. */
  ghost predicate UnmountLast(tr: seq<Call>) {
    forall i, j | 0 <= i < j < |tr| && tr[i] == RUnmount :: tr[j] != Reduce && tr[j] != RUnmount
  }

  /** The actions of a run: the initial one, ordinary ones, and the unmount action at the very end if at all. */
  ghost predicate RunShape(acts: seq<Action>) {
    forall i | 0 <= i < |acts| ::
      && (acts[i].InitAction? <==> i == 0)
      && (acts[i].UnmountAction? ==> i == |acts| - 1)
  }

  ghost predicate Yes(ts: seq<Turn>) {
    exists k | 0 <= k < |ts| :: ts[k].cond
  }

  function Acts(ts: seq<Turn>): seq<Action> {
    seq(|ts|, k requires 0 <= k < |ts| => ts[k].act)
  }

  /** What the flags remember of the calls made so far. */
  ghost predicate Remembers(f: Flags, tr: seq<Call>) {
    && (f.mounted <==> RMount in tr)
    && (f.mounted <==> RCond(true) in tr)
    && (f.unmounted <==> RUnmount in tr)
    && (f.unmounted ==> f.mounted)
  }

  /** Whatever the actions and the answers, the flags say what was called, and mounting keeps its order. */
  lemma {:induction false} FlagsRemember(ts: seq<Turn>)
    ensures Remembers(FlagsAfter(FRESH, ts), Trace(FRESH, ts))
    ensures MountAfterCond(Trace(FRESH, ts)) && MountedFirst(Trace(FRESH, ts))
    ensures FlagsAfter(FRESH, ts).mounted <==> Yes(ts)
  {
    if ts != [] {
      var ts0, t := ts[..|ts| - 1], ts[|ts| - 1];
      FlagsRemember(ts0);
      assert ts0 + [t] == ts;
      TraceNext(FRESH, ts0, t);
      RememberNext(FlagsAfter(FRESH, ts0), Trace(FRESH, ts0), t);
      MountNext(FlagsAfter(FRESH, ts0), Trace(FRESH, ts0), t);
      assert Yes(ts) <==> Yes(ts0) || t.cond by {
        if Yes(ts0) {
          var k :| 0 <= k < |ts0| && ts0[k].cond;
          assert ts[k].cond;
        }
      }
    }
  }

  lemma RememberNext(f: Flags, tr: seq<Call>, t: Turn)
    requires Remembers(f, tr)
    ensures Remembers(After(f, t), tr + Calls(f, t))
  {
    var c := Calls(f, t);
    assert RMount in c <==> t.cond && !f.mounted;
    assert RCond(true) in c <==> t.cond;
    assert RUnmount in c <==> !f.unmounted && t.act.UnmountAction? && (f.mounted || t.cond);
  }

  lemma MountNext(f: Flags, tr: seq<Call>, t: Turn)
    requires Remembers(f, tr) && MountAfterCond(tr) && MountedFirst(tr)
    ensures MountAfterCond(tr + Calls(f, t)) && MountedFirst(tr + Calls(f, t))
  {
    var c := Calls(f, t);
    var all, n, p := tr + c, |tr|, if t.act.InitAction? then 2 else 1;
    assert c[p] == RCond(t.cond);
    assert t.cond && !f.mounted ==> c[p + 1] == RMount;
    forall i | 0 <= i < |all|
      ensures all[i] == RMount ==> FirstYes(all, i - 1)
      ensures FirstYes(all, i) ==> i + 1 < |all| && all[i + 1] == RMount
      ensures all[i] == Reduce || all[i] == RUnmount ==> RMount in all[..i]
    {
      if i < n {
        assert all[..i] == tr[..i] && (i > 0 ==> all[..i - 1] == tr[..i - 1]);
        assert FirstYes(all, i) == FirstYes(tr, i) && FirstYes(all, i - 1) == FirstYes(tr, i - 1);
      } else {
        assert all[..i] == tr + c[..i - n];
        assert i > n ==> all[..i - 1] == tr + c[..i - 1 - n];
        if i - n > p + 1 && t.cond && !f.mounted {
          assert all[n + p + 1] == RMount;
        }
      }
    }
  }

  /** Before the unmount action nothing is unmounted, and only the initial action is answered with RInit. */
  lemma {:induction false} BeforeUnmount(ts: seq<Turn>)
    requires RunShape(Acts(ts))
    ensures InitFirst(Trace(FRESH, ts))
    ensures UnmountAction !in Acts(ts) ==> RUnmount !in Trace(FRESH, ts)
  {
    hide Remembers;
    if ts != [] {
      var ts0, t := ts[..|ts| - 1], ts[|ts| - 1];
      assert Acts(ts) == Acts(ts0) + [t.act];
      assert forall i | 0 <= i < |ts0| :: Acts(ts0)[i] == Acts(ts)[i];
      BeforeUnmount(ts0);
      FlagsRemember(ts0);
      assert ts0 + [t] == ts;
      TraceNext(FRESH, ts0, t);
      TraceEmpty(FRESH, ts0);
      assert t.act.InitAction? <==> ts0 == [] by { assert t.act == Acts(ts)[|ts0|]; }
      InitTurn(FlagsAfter(FRESH, ts0), Trace(FRESH, ts0), t, ts0);
      assert t.act.UnmountAction? || RUnmount !in Calls(FlagsAfter(FRESH, ts0), t);
      assert t.act in Acts(ts) by { assert t.act == Acts(ts)[|ts0|]; }
    }
  }

  /**
   * The documented lifecycle, for every answer RCond may give: when the actions are those of a run, RInit is first and
   * once, RMount follows the first yes, every yes leads to Reduce or RUnmount, Reduce follows RMount, RUnmount comes
   * once exactly when the run ends with the unmount action on a mounted reducer, and Reduce is never called after it.
   */
  lemma Lifecycle(ts: seq<Turn>)
    requires RunShape(Acts(ts))
    ensures InitFirst(Trace(FRESH, ts))
    ensures MountAfterCond(Trace(FRESH, ts)) && MountedFirst(Trace(FRESH, ts)) && UnmountLast(Trace(FRESH, ts))
    ensures YesIsAnswered(Trace(FRESH, ts)) && ReduceAfterYes(Trace(FRESH, ts)) && ConfigBeforeCond(Trace(FRESH, ts))
    ensures RMount in Trace(FRESH, ts) <==> Yes(ts)
    ensures RUnmount in Trace(FRESH, ts) <==> ts != [] && ts[|ts| - 1].act.UnmountAction? && Yes(ts)
    ensures RUnmount in Trace(FRESH, ts) ==> Trace(FRESH, ts)[|Trace(FRESH, ts)| - 1] == RUnmount
  {
    hide MountAfterCond, MountedFirst, InitFirst, Calls, Trace, YesIsAnswered, ReduceAfterYes, ConfigBeforeCond;
    EveryTurn(ts);
    FlagsRemember(ts);
    BeforeUnmount(ts);
    TraceEmpty(FRESH, ts);
    if ts != [] {
      var ts0, t := ts[..|ts| - 1], ts[|ts| - 1];
      assert Acts(ts) == Acts(ts0) + [t.act];
      assert forall i | 0 <= i < |ts0| :: Acts(ts0)[i] == Acts(ts)[i];
      BeforeUnmount(ts0);
      FlagsRemember(ts0);
      assert ts0 + [t] == ts;
      TraceNext(FRESH, ts0, t);
      LastTurn(FlagsAfter(FRESH, ts0), Trace(FRESH, ts0), t);
    }
  }

  lemma LastTurn(f: Flags, tr: seq<Call>, t: Turn)
    requires Remembers(f, tr) && RUnmount !in tr
    ensures UnmountLast(tr + Calls(f, t))
    ensures RUnmount in tr + Calls(f, t) <==> t.act.UnmountAction? && (f.mounted || t.cond)
    ensures RUnmount in tr + Calls(f, t) ==> (tr + Calls(f, t))[|tr + Calls(f, t)| - 1] == RUnmount
  {
    var c := Calls(f, t);
    assert RUnmount in c <==> t.act.UnmountAction? && (f.mounted || t.cond);
    assert RUnmount in c ==> c[|c| - 1] == RUnmount;
    assert forall i | 0 <= i < |c| - 1 :: c[i] != RUnmount;
    assert forall i | 0 <= i < |tr + c| - 1 :: (tr + c)[i] != RUnmount;
  }

  lemma InitTurn(f: Flags, tr: seq<Call>, t: Turn, ts: seq<Turn>)
    requires InitFirst(tr) && (tr == [] <==> ts == []) && (t.act.InitAction? <==> ts == [])
    ensures InitFirst(tr + Calls(f, t))
  {
    var c := Calls(f, t);
    assert forall i | 0 <= i < |c| :: c[i] == RInit <==> i == 0 && ts == [];
  }

  lemma {:induction false} TraceEmpty(f: Flags, ts: seq<Turn>)
    ensures Trace(f, ts) == [] <==> ts == []
  {
    if ts != [] {
      assert |Calls(FlagsAfter(f, ts[..|ts| - 1]), ts[|ts| - 1])| >= 2;
    }
  }

  // ---------------------------------------------------------------- every turn

  /** What is called after the yes at `i`, and after RMount if that comes first, is Reduce or RUnmount. */
  predicate LeadsOn(tr: seq<Call>, i: nat) {
    var k := if i + 1 < |tr| && tr[i + 1] == RMount then i + 2 else i + 1;
    k < |tr| && (tr[k] == Reduce || tr[k] == RUnmount)
  }

  /** What is called before `i`, and before RMount if that comes last, is RCond, which said yes. */
  predicate ComesFromYes(tr: seq<Call>, i: nat)
    requires i < |tr|
  {
    i > 0 && (tr[i - 1] == RCond(true) || (i > 1 && tr[i - 1] == RMount && tr[i - 2] == RCond(true)))
  }

  ghost predicate YesIsAnswered(tr: seq<Call>) {
    forall i | 0 <= i < |tr| && tr[i] == RCond(true) :: LeadsOn(tr, i)
  }

  ghost predicate ReduceAfterYes(tr: seq<Call>) {
    forall i | 0 <= i < |tr| && tr[i] == Reduce :: ComesFromYes(tr, i)
  }

  predicate CondNext(tr: seq<Call>, i: nat) {
    i + 1 < |tr| && tr[i + 1].RCond?
  }

  predicate ConfigFirst(tr: seq<Call>, i: nat)
    requires i < |tr|
  {
    i > 0 && tr[i - 1] == RConfig
  }

  /** RConfig is called right before each RCond, and only there. */
  ghost predicate ConfigBeforeCond(tr: seq<Call>) {
    && (forall i | 0 <= i < |tr| && tr[i].RCond? :: ConfigFirst(tr, i))
    && (forall i | 0 <= i < |tr| && tr[i] == RConfig :: CondNext(tr, i))
  }

  /** The answers of RCond, in order. */
  function Answers(tr: seq<Call>): seq<bool> {
    if tr == [] then [] else
      Answers(tr[..|tr| - 1]) + if tr[|tr| - 1].RCond? then [tr[|tr| - 1].answer] else []
  }

  function Conds(ts: seq<Turn>): (answers: seq<bool>)
    ensures |answers| == |ts| && forall k | 0 <= k < |ts| :: answers[k] == ts[k].cond
  {
    seq(|ts|, k requires 0 <= k < |ts| => ts[k].cond)
  }

  lemma {:induction false} AnswersJoin(a: seq<Call>, b: seq<Call>)
    ensures Answers(a + b) == Answers(a) + Answers(b)
  {
    if b == [] {
      assert a + b == a;
    } else {
      var b0, c := b[..|b| - 1], b[|b| - 1];
      assert (a + b)[..|a + b| - 1] == a + b0;
      AnswersJoin(a, b0);
    }
  }

  lemma NextAnswer(tr: seq<Call>, c: Call)
    ensures Answers(tr + [c]) == Answers(tr) + if c.RCond? then [c.answer] else []
  {
    assert (tr + [c])[..|tr|] == tr;
  }

  lemma OneTurn(f: Flags, t: Turn)
    ensures YesIsAnswered(Calls(f, t)) && ReduceAfterYes(Calls(f, t)) && ConfigBeforeCond(Calls(f, t))
    ensures Calls(f, t) != [] && !Calls(f, t)[0].RCond? && Calls(f, t)[0] != Reduce
  {
    var c, n := Calls(f, t), if t.act.InitAction? then 2 else 1;
    assert c[n] == RCond(t.cond) && c[n - 1] == RConfig;
    assert forall i | 0 <= i < |c| && i != n :: !c[i].RCond? && (i != n - 1 ==> c[i] != RConfig);
  }

  lemma {:induction false} OneAnswer(f: Flags, t: Turn)
    ensures Answers(Calls(f, t)) == [t.cond]
  {
    hide Answers;
    var first := if t.act.InitAction? then [RInit] else [];
    var rest := Calls(f, t)[|first| + 2..];
    assert Calls(f, t) == first + [RConfig] + [RCond(t.cond)] + rest;
    NoAnswers(first);
    NextAnswer(first, RConfig);
    NextAnswer(first + [RConfig], RCond(t.cond));
    NoAnswers(rest);
    AnswersJoin(first + [RConfig] + [RCond(t.cond)], rest);
  }

  lemma {:induction false} NoAnswers(tr: seq<Call>)
    requires forall c | c in tr :: !c.RCond?
    ensures Answers(tr) == []
  {
    if tr != [] {
      assert tr[|tr| - 1] in tr;
      NoAnswers(tr[..|tr| - 1]);
    }
  }

  lemma TurnsJoin(a: seq<Call>, b: seq<Call>)
    requires b != [] && !b[0].RCond? && b[0] != Reduce
    requires YesIsAnswered(a) && ReduceAfterYes(a) && ConfigBeforeCond(a)
    requires YesIsAnswered(b) && ReduceAfterYes(b) && ConfigBeforeCond(b)
    ensures YesIsAnswered(a + b) && ReduceAfterYes(a + b) && ConfigBeforeCond(a + b)
  {
    hide LeadsOn, ComesFromYes, CondNext, ConfigFirst;
    var all, n := a + b, |a|;
    forall i | 0 <= i < |all|
      ensures all[i] == RCond(true) ==> LeadsOn(all, i)
      ensures all[i] == Reduce ==> ComesFromYes(all, i)
      ensures all[i].RCond? ==> ConfigFirst(all, i)
      ensures all[i] == RConfig ==> CondNext(all, i)
    {
      if i < n {
        InFront(a, b, i);
      } else {
        Behind(a, b, i - n);
      }
    }
  }

  lemma InFront(a: seq<Call>, b: seq<Call>, i: nat)
    requires i < |a|
    ensures (a + b)[i] == a[i] && (LeadsOn(a, i) ==> LeadsOn(a + b, i)) && (CondNext(a, i) ==> CondNext(a + b, i))
    ensures ComesFromYes(a, i) == ComesFromYes(a + b, i) && ConfigFirst(a, i) == ConfigFirst(a + b, i)
  {
    assert forall k | 0 <= k < |a| :: (a + b)[k] == a[k];
  }

  lemma Behind(a: seq<Call>, b: seq<Call>, i: nat)
    requires i < |b|
    ensures (a + b)[|a| + i] == b[i]
    ensures LeadsOn(b, i) ==> LeadsOn(a + b, |a| + i)
    ensures CondNext(b, i) ==> CondNext(a + b, |a| + i)
    ensures ComesFromYes(b, i) ==> ComesFromYes(a + b, |a| + i)
    ensures ConfigFirst(b, i) ==> ConfigFirst(a + b, |a| + i)
  {
    var all, n := a + b, |a|;
    assert i + 1 < |b| ==> all[n + i + 1] == b[i + 1];
    assert i + 2 < |b| ==> all[n + i + 2] == b[i + 2];
    assert i > 0 ==> all[n + i - 1] == b[i - 1];
    assert i > 1 ==> all[n + i - 2] == b[i - 2];
  }

  /** In every run, whatever the actions and the answers: RConfig and RCond are called once in each turn, RConfig first;
      each yes leads to Reduce, or to RUnmount instead; and Reduce is called for nothing else. */
  lemma {:induction false} EveryTurn(ts: seq<Turn>)
    ensures var tr := Trace(FRESH, ts);
            YesIsAnswered(tr) && ReduceAfterYes(tr) && ConfigBeforeCond(tr) && Answers(tr) == Conds(ts)
  {
    hide YesIsAnswered, ReduceAfterYes, ConfigBeforeCond, Calls, Answers;
    if ts == [] {
      NoTurn();
    } else {
      var ts0, t := ts[..|ts| - 1], ts[|ts| - 1];
      var f := FlagsAfter(FRESH, ts0);
      EveryTurn(ts0);
      OneTurn(f, t);
      OneAnswer(f, t);
      TurnsJoin(Trace(FRESH, ts0), Calls(f, t));
      AnswersJoin(Trace(FRESH, ts0), Calls(f, t));
      assert Conds(ts) == Conds(ts0) + [t.cond];
    }
  }

  lemma NoTurn()
    ensures YesIsAnswered([]) && ReduceAfterYes([]) && ConfigBeforeCond([]) && Answers([]) == []
  {
  }

  /** The turn that unmounts: the first unmount action by which some answer was yes. */
  ghost predicate UnmountsAt(ts: seq<Turn>, i: int) {
    && 0 <= i < |ts| && ts[i].act.UnmountAction? && Yes(ts[..i + 1])
    && forall j | 0 <= j < i :: !(ts[j].act.UnmountAction? && Yes(ts[..j + 1]))
  }

  function YesCount(ts: seq<Turn>): nat {
    if ts == [] then 0 else YesCount(ts[..|ts| - 1]) + if ts[|ts| - 1].cond then 1 else 0
  }

  ghost function UnmountCount(ts: seq<Turn>): nat {
    if exists i :: UnmountsAt(ts, i) then 1 else 0
  }

  /** Whether the turn that unmounts would have reduced. */
  ghost function YesToUnmount(ts: seq<Turn>): nat {
    if exists i :: UnmountsAt(ts, i) && ts[i].cond then 1 else 0
  }

  /** In every run Reduce is called once for each yes, but for one given in the turn that unmounts; and RUnmount is
      called once if there is such a turn. */
  lemma {:induction false} ReduceCount(ts: seq<Turn>)
    ensures var tr := multiset(Trace(FRESH, ts));
            tr[RUnmount] == UnmountCount(ts) && tr[Reduce] == YesCount(ts) - YesToUnmount(ts)
  {
    hide Calls, UnmountCount, YesToUnmount, Remembers, MountAfterCond, MountedFirst;
    if ts == [] {
      NoUnmount();
    } else {
      var ts0, t := ts[..|ts| - 1], ts[|ts| - 1];
      var f := FlagsAfter(FRESH, ts0);
      ReduceCount(ts0);
      FlagsRemember(ts0);
      UnmountedIff(ts0);
      TurnCount(f, t);
      UnmountNext(ts0, t);
      assert ts0 + [t] == ts;
      assert multiset(Trace(FRESH, ts)) == multiset(Trace(FRESH, ts0)) + multiset(Calls(f, t));
    }
  }

  lemma NoUnmount()
    ensures UnmountCount([]) == 0 && YesToUnmount([]) == 0
  {
  }

  lemma {:induction false} UnmountedIff(ts: seq<Turn>)
    ensures FlagsAfter(FRESH, ts).unmounted <==> exists i :: UnmountsAt(ts, i)
  {
    hide UnmountsAt, Yes;
    if ts == [] {
      NoneUnmounts();
    } else {
      var ts0, t := ts[..|ts| - 1], ts[|ts| - 1];
      UnmountedIff(ts0);
      UnmountsNext(ts0, t);
      FlagsRemember(ts);
      assert ts0 + [t] == ts;
      forall i | UnmountsAt(ts, i) ensures 0 <= i < |ts| {
        InRange(ts, i);
      }
    }
  }

  lemma NoneUnmounts()
    ensures forall i :: !UnmountsAt([], i)
  {
  }

  lemma UnmountsNext(ts: seq<Turn>, t: Turn)
    ensures forall i :: UnmountsAt(ts, i) ==> UnmountsAt(ts + [t], i)
    ensures forall i | UnmountsAt(ts + [t], i) :: i < |ts| ==> UnmountsAt(ts, i)
    ensures UnmountsAt(ts + [t], |ts|) <==> t.act.UnmountAction? && Yes(ts + [t]) && !exists i :: UnmountsAt(ts, i)
  {
    hide Yes;
    var all := ts + [t];
    forall i | 0 <= i < |ts| ensures all[..i + 1] == ts[..i + 1] && all[i] == ts[i] { }
    assert all[..|ts| + 1] == all;
    if i :| 0 <= i < |ts| && ts[i].act.UnmountAction? && Yes(ts[..i + 1]) {
      FirstUnmount(ts, i);
    }
  }

  lemma {:induction false} FirstUnmount(ts: seq<Turn>, i: nat)
    requires i < |ts| && ts[i].act.UnmountAction? && Yes(ts[..i + 1])
    ensures exists j :: UnmountsAt(ts, j)
    decreases i
  {
    hide Yes;
    if j: nat :| j < i && ts[j].act.UnmountAction? && Yes(ts[..j + 1]) {
      FirstUnmount(ts, j);
    } else {
      assert UnmountsAt(ts, i);
    }
  }

  lemma UnmountNext(ts: seq<Turn>, t: Turn)
    ensures var now := t.act.UnmountAction? && Yes(ts + [t]) && UnmountCount(ts) == 0;
            && UnmountCount(ts + [t]) == UnmountCount(ts) + (if now then 1 else 0)
            && YesToUnmount(ts + [t]) == YesToUnmount(ts) + if now && t.cond then 1 else 0
  {
    hide UnmountsAt, Yes;
    UnmountsNext(ts, t);
    AtLast(ts, t);
    forall i | UnmountsAt(ts + [t], i) ensures 0 <= i <= |ts| && (i < |ts| ==> (ts + [t])[i] == ts[i]) {
      InRange(ts + [t], i);
    }
    forall i | UnmountsAt(ts, i) ensures 0 <= i < |ts| && (ts + [t])[i] == ts[i] {
      InRange(ts, i);
    }
  }

  lemma AtLast(ts: seq<Turn>, t: Turn)
    ensures (ts + [t])[|ts|] == t
  {
  }

  lemma InRange(ts: seq<Turn>, i: int)
    requires UnmountsAt(ts, i)
    ensures 0 <= i < |ts|
  {
  }

  lemma TurnCount(f: Flags, t: Turn)
    ensures var c := multiset(Calls(f, t));
            var now := !f.unmounted && t.act.UnmountAction? && (f.mounted || t.cond);
            c[RUnmount] == (if now then 1 else 0) && c[Reduce] == if t.cond && !now then 1 else 0
  {
  }

  // ---------------------------------------------------------------- without the dispatcher

  /** No yes comes after the turn that unmounted. */
  ghost predicate QuietAfterUnmount(ts: seq<Turn>) {
    forall k | 0 <= k < |ts| && FlagsAfter(FRESH, ts[..k]).unmounted :: !ts[k].cond
  }

  /**
   * On its own the reducer keeps "no Reduce after RUnmount" for exactly those lists of turns in which RCond answers no
   * ever after: it is the dispatcher that must stop.
   */
  lemma {:induction false} UnmountLastIffQuiet(ts: seq<Turn>)
    ensures UnmountLast(Trace(FRESH, ts)) <==> QuietAfterUnmount(ts)
  {
    if ts != [] {
      var ts0, t := ts[..|ts| - 1], ts[|ts| - 1];
      var f, tr := FlagsAfter(FRESH, ts0), Trace(FRESH, ts0);
      UnmountLastIffQuiet(ts0);
      FlagsRemember(ts0);
      assert ts0 + [t] == ts;
      TraceNext(FRESH, ts0, t);
      forall k | 0 <= k < |ts0| ensures ts[..k] == ts0[..k] { }
      assert ts[..|ts0|] == ts0;
      assert QuietAfterUnmount(ts) <==> QuietAfterUnmount(ts0) && (f.unmounted ==> !t.cond);
      if f.unmounted {
        TurnAfterUnmount(f, tr, t);
      } else {
        LastTurn(f, tr, t);
      }
    }
  }

  lemma TurnAfterUnmount(f: Flags, tr: seq<Call>, t: Turn)
    requires Remembers(f, tr) && f.unmounted
    ensures UnmountLast(tr + Calls(f, t)) <==> UnmountLast(tr) && !t.cond
  {
    var c := Calls(f, t);
    var all := tr + c;
    var u :| 0 <= u < |tr| && tr[u] == RUnmount;
    assert all[u] == RUnmount;
    assert forall i | 0 <= i < |c| :: c[i] != RUnmount;
    if t.cond {
      assert c[|c| - 1] == Reduce;
      assert all[|all| - 1] == Reduce;
      assert !UnmountLast(all);
    } else {
      assert Reduce !in c;
      if UnmountLast(all) {
        assert forall i | 0 <= i < |tr| :: all[i] == tr[i];
      }
    }
  }

  /** A second unmount action is enough: the reducer is asked to reduce after it was unmounted. */
  lemma SecondUnmountReduces()
    ensures exists ts: seq<Turn> ::
              && Acts(ts) == [InitAction, UnmountAction, UnmountAction]
              && !UnmountLast(Trace(FRESH, ts))
  {
    var ts := [Turn(InitAction, true), Turn(UnmountAction, true), Turn(UnmountAction, true)];
    assert Acts(ts) == [InitAction, UnmountAction, UnmountAction];
    UnmountLastIffQuiet(ts);
    assert ts[..2][..1] == [ts[0]] && [ts[0]][..0] == [] && ts[..2][1] == ts[1];
    assert FlagsAfter(FRESH, []) == FRESH;
    assert FlagsAfter(FRESH, [ts[0]]) == Flags(true, false);
    assert FlagsAfter(FRESH, ts[..2]) == Flags(true, true);
    assert !QuietAfterUnmount(ts);
  }

  // ---------------------------------------------------------------- whether RCond is the last method called

  /** After RCond said no, the next call belongs to the next reduction. */
  predicate CondLast(tr: seq<Call>) {
    forall k | 0 <= k < |tr| - 1 && tr[k] == RCond(false) :: tr[k + 1].RInit? || tr[k + 1].RConfig?
  }

  /** RCond says no to the unmount action that a mounted reducer has to be told of. */
  predicate Refused(f: Flags, t: Turn) {
    !t.cond && f.mounted && !f.unmounted && t.act.UnmountAction?
  }

  lemma CondLastJoin(a: seq<Call>, b: seq<Call>)
    requires b != [] && (b[0].RInit? || b[0].RConfig?)
    ensures CondLast(a + b) <==> CondLast(a) && CondLast(b)
  {
    var ab := a + b;
    if CondLast(ab) {
      forall k | 0 <= k < |b| - 1 && b[k] == RCond(false) ensures b[k + 1].RInit? || b[k + 1].RConfig? {
        assert ab[|a| + k] == b[k] && ab[|a| + k + 1] == b[k + 1];
      }
      forall k | 0 <= k < |a| - 1 && a[k] == RCond(false) ensures a[k + 1].RInit? || a[k + 1].RConfig? {
        assert ab[k] == a[k] && ab[k + 1] == a[k + 1];
      }
    }
  }

  lemma CondLastOne(f: Flags, t: Turn)
    ensures Calls(f, t) != [] && (Calls(f, t)[0].RInit? || Calls(f, t)[0].RConfig?)
    ensures CondLast(Calls(f, t)) <==> !Refused(f, t)
  {
    var cs := Calls(f, t);
    var n := if t.act.InitAction? then 2 else 1;
    assert cs[n] == RCond(t.cond);
    if Refused(f, t) {
      assert cs[n + 1] == RUnmount;
    }
  }

  predicate NeverRefused(ts: seq<Turn>) {
    forall i | 0 <= i < |ts| :: !Refused(FlagsAfter(FRESH, ts[..i]), ts[i])
  }

  lemma NeverRefusedNext(ts: seq<Turn>)
    requires ts != []
    ensures var n := |ts| - 1;
            NeverRefused(ts) <==> NeverRefused(ts[..n]) && !Refused(FlagsAfter(FRESH, ts[..n]), ts[n])
  {
    hide Refused, FlagsAfter;
    var n := |ts| - 1;
    assert forall i | 0 <= i < n :: ts[..n][..i] == ts[..i] && ts[..n][i] == ts[i];
  }

  /** RCond that says no is the last method called, in all reductions of a run, exactly when no unmount is refused. */
  lemma {:induction false} CondLastIffNotRefused(ts: seq<Turn>)
    ensures CondLast(Trace(FRESH, ts)) <==> NeverRefused(ts)
  {
    hide CondLast, Refused, Calls, FlagsAfter, NeverRefused;
    if ts == [] {
      NoCalls();
    } else {
      var n := |ts| - 1;
      CondLastIffNotRefused(ts[..n]);
      NeverRefusedNext(ts);
      CondLastOne(FlagsAfter(FRESH, ts[..n]), ts[n]);
      CondLastJoin(Trace(FRESH, ts[..n]), Calls(FlagsAfter(FRESH, ts[..n]), ts[n]));
    }
  }

  lemma NoCalls()
    ensures CondLast(Trace(FRESH, [])) && NeverRefused([])
  {
  }

  /** A reducer that was mounted says no to the unmount action, and RUnmount is called all the same. */
  lemma UnmountAfterRefusal()
    ensures exists ts: seq<Turn> :: Acts(ts) == [InitAction, UnmountAction] && !CondLast(Trace(FRESH, ts))
  {
    hide CondLast;
    var ts := [Turn(InitAction, true), Turn(UnmountAction, false)];
    assert Acts(ts) == [InitAction, UnmountAction];
    assert ts[..1] == [ts[0]] && [ts[0]][..0] == [];
    assert FlagsAfter(FRESH, []) == FRESH;
    assert FlagsAfter(FRESH, ts[..1]) == Flags(true, false);
    assert Refused(FlagsAfter(FRESH, ts[..1]), ts[1]);
    CondLastIffNotRefused(ts);
  }
}
