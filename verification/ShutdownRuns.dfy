/**
 * What the dispatcher reduces in a run, compared with what the run asked it for: every request with all its actions, in
 * the order requests are read in, and every dispatched action.
 */
module ShutdownRuns {
  import opened Shutdown
  import R = Reducers

  // ---------------------------------------------------------------- a run reduces what it was asked for

  /** The requests read in a run, in their order. */
  function Asked(steps: seq<Step>): seq<Request> {
    if steps == [] then [] else
      (if steps[0].Count? then [Request(steps[0].id, steps[0].names)] else []) + Asked(steps[1..])
  }

  /** The actions dispatched in a run, in their order. */
  function Sent(steps: seq<Step>): seq<string> {
    if steps == [] then [] else (if steps[0].Dispatch? then [steps[0].name] else []) + Sent(steps[1..])
  }

  /** The dispatched actions that ran, in their order. */
  function RanLows(log: seq<Event>): seq<string> {
    if log == [] then [] else
      var e := log[|log| - 1];
      RanLows(log[..|log| - 1]) + if e.Ran? && e.h.HAct? then [e.h.name] else []
  }

  function LowInHand(d: Dispatcher): seq<string> {
    if (d.Took? || d.Running?) && d.h.HAct? then [d.h.name] else []
  }

  /** The dispatched actions that ran, the one in hand and those queued. */
  function Lows(s: Sys): seq<string> {
    RanLows(s.log) + LowInHand(s.disp) + s.lo
  }

  /** Of the actions dispatched so far, all are somewhere until the dispatcher stops. */
  ghost predicate LowInv(s: Sys, sent: multiset<string>) {
    && multiset(RanLows(s.log)) <= sent
    && (!s.disp.Stopped? ==> multiset(Lows(s)) + s.parked == sent)
  }

  lemma LowsNext(log: seq<Event>, e: Event)
    ensures RanLows(log + [e]) == RanLows(log) + if e.Ran? && e.h.HAct? then [e.h.name] else []
  {
    assert (log + [e])[..|log|] == log;
  }

  lemma NoLowInFront(s: Sys)
    requires UnmountInv(s)
    ensures s.hi != [] ==> !s.hi[0].HAct?
  {
    hide Phase, Unmounts, Line;
  }

  lemma RunLows(s: Sys)
    requires Enabled(s, Run) && !s.unmounted
    ensures Lows(Apply(s, Run)) == Lows(s)
  {
    hide RanLows;
    LowsNext(s.log, Ran(s.disp.h));
  }

  lemma TakeLows(s: Sys)
    requires Enabled(s, TakeLo)
    ensures Lows(Apply(s, TakeLo)) == Lows(s)
  {
    hide RanLows;
    assert s.lo == [s.lo[0]] + s.lo[1..];
  }

  /** The actions a step adds to the low queue. */
  function Queued(s: Sys, st: Step): seq<string> {
    match st
    case Dispatch(name) => if |s.lo| < SLOTS then [name] else []
    case Unpark(name) => [name]
    case _ => []
  }

  lemma QueueLows(s: Sys, st: Step)
    requires Enabled(s, st) && (st.Dispatch? || st.Unpark?)
    ensures Lows(Apply(s, st)) == Lows(s) + Queued(s, st)
  {
    hide RanLows;
    var front := RanLows(s.log) + LowInHand(s.disp);
    assert front + (s.lo + Queued(s, st)) == front + s.lo + Queued(s, st);
    assert s.lo + [] == s.lo;
  }

  lemma OtherLows(s: Sys, st: Step)
    requires Enabled(s, st) && !st.Run? && !st.TakeLo? && !st.Dispatch? && !st.Unpark? && !Apply(s, st).disp.Stopped?
    requires s.hi != [] ==> !s.hi[0].HAct?
    ensures Lows(Apply(s, st)) == Lows(s)
  {
    hide RanLows;
    forall e: Event
      ensures RanLows(s.log + [e]) == RanLows(s.log) + if e.Ran? && e.h.HAct? then [e.h.name] else []
    {
      LowsNext(s.log, e);
    }
  }

  /** No step but a dispatch, or one that ends the wait of a parked send, changes who is there and in which order. */
  lemma LowsKept(s: Sys, st: Step)
    requires Enabled(s, st) && UnmountInv(s) && !Apply(s, st).disp.Stopped?
    ensures Lows(Apply(s, st)) == Lows(s) + Queued(s, st)
  {
    hide UnmountInv, Lows, Apply;
    assert Lows(s) + [] == Lows(s);
    if st.Run? {
      NotUnmounted(s);
      RunLows(s);
    } else if st.TakeLo? {
      TakeLows(s);
    } else if st.Dispatch? || st.Unpark? {
      QueueLows(s, st);
    } else {
      NoLowInFront(s);
      OtherLows(s, st);
    }
  }

  lemma RanLowsKept(s: Sys, st: Step)
    requires Enabled(s, st) && (s.disp.Stopped? || Apply(s, st).disp.Stopped?)
    ensures RanLows(Apply(s, st).log) == RanLows(s.log)
  {
    hide RanLows;
    forall e: Event
      ensures RanLows(s.log + [e]) == RanLows(s.log) + if e.Ran? && e.h.HAct? then [e.h.name] else []
    {
      LowsNext(s.log, e);
    }
  }

  lemma SentOne(st: Step)
    ensures Sent([st]) == if st.Dispatch? then [st.name] else []
  {
    assert [st][1..] == [];
  }

  /** What is dispatched goes to the queue or waits, and what ends its wait goes to the queue. */
  lemma ParkedFlow(s: Sys, st: Step)
    requires Enabled(s, st)
    ensures multiset(Queued(s, st)) + Apply(s, st).parked == s.parked + multiset(Sent([st]))
  {
    hide Sent;
    SentOne(st);
    match st
    case Unpark(name) => assert multiset{name} + (s.parked - multiset{name}) == s.parked;
    case Dispatch(name) => assert multiset([name]) == multiset{name};
    case _ =>
  }

  lemma KeepLows(s: Sys, st: Step, sent: multiset<string>)
    requires Enabled(s, st) && UnmountInv(s) && LowInv(s, sent)
    ensures LowInv(Apply(s, st), sent + multiset(Sent([st])))
  {
    hide UnmountInv, RanLows, Lows, Apply, Enabled, Sent, Queued;
    var s' := Apply(s, st);
    if s'.disp.Stopped? {
      RanLowsKept(s, st);
    } else {
      LowsKept(s, st);
      StoppedStays(s, st);
      RanIsInLows(s');
      ParkedFlow(s, st);
      var was, more := multiset(Lows(s)), multiset(Queued(s, st));
      assert multiset(Lows(s')) == was + more;
      assert was + more + s'.parked == was + (more + s'.parked);
      assert was + (s.parked + multiset(Sent([st]))) == was + s.parked + multiset(Sent([st]));
    }
  }

  lemma StoppedStays(s: Sys, st: Step)
    requires Enabled(s, st)
    ensures s.disp.Stopped? ==> Apply(s, st).disp.Stopped?
  {
  }

  lemma RanIsInLows(s: Sys)
    ensures multiset(RanLows(s.log)) <= multiset(Lows(s))
  {
    hide RanLows;
    assert Lows(s) == RanLows(s.log) + (LowInHand(s.disp) + s.lo);
  }

  lemma CountsNext(s: Sys, st: Step)
    requires Enabled(s, st)
    ensures CountedReqs(Apply(s, st).log) == CountedReqs(s.log) + Asked([st])
  {
    hide CountedReqs, RanReqs;
    assert [st][1..] == [];
    forall e: Event ensures CountedReqs(s.log + [e]) == CountedReqs(s.log) + if e.Counted? then [e.rq] else [] {
      ReqsNext(s.log, e);
    }
  }

  lemma {:induction false} FinalFlow(s: Sys, steps: seq<Step>, sent: multiset<string>)
    requires Inv(s) && Follows(s, steps) && LowInv(s, sent)
    ensures CountedReqs(Final(s, steps).log) == CountedReqs(s.log) + Asked(steps)
    ensures LowInv(Final(s, steps), sent + multiset(Sent(steps)))
    decreases |steps|
  {
    hide Inv, LowInv, CountedReqs, Enabled, Apply, Asked, Sent;
    if steps == [] {
      NoneAsked();
      assert sent + multiset([]) == sent;
    } else {
      var st, rest := steps[0], steps[1..];
      KeepInv(s, st);
      PartOfInv(s);
      KeepLows(s, st, sent);
      CountsNext(s, st);
      FinalFlow(Apply(s, st), rest, sent + multiset(Sent([st])));
      OneAsked(steps);
      assert sent + multiset(Sent([st])) + multiset(Sent(rest)) == sent + multiset(Sent(steps));
    }
  }

  lemma NoneAsked()
    ensures Asked([]) == [] && Sent([]) == []
  {
  }

  lemma OneAsked(steps: seq<Step>)
    requires steps != []
    ensures Asked(steps) == Asked([steps[0]]) + Asked(steps[1..])
    ensures Sent(steps) == Sent([steps[0]]) + Sent(steps[1..])
  {
    assert [steps[0]][1..] == [];
  }

  lemma PartOfInv(s: Sys)
    requires Inv(s)
    ensures UnmountInv(s) && FlowInv(s) && CountInv(s)
  {
  }

  lemma RunFlow(steps: seq<Step>)
    requires Follows(INITIAL, steps)
    ensures var s := Final(INITIAL, steps);
            Inv(s) && CountedReqs(s.log) == Asked(steps) && LowInv(s, multiset(Sent(steps)))
  {
    hide Inv, LowInv, Asked, Sent, CountedReqs, Follows, Final;
    StartInv();
    FinalInv(INITIAL, steps);
    FinalFlow(INITIAL, steps, multiset{});
    assert multiset{} + multiset(Sent(steps)) == multiset(Sent(steps));
    assert [] + Asked(steps) == Asked(steps);
  }

  lemma StartInv()
    ensures Inv(INITIAL) && LowInv(INITIAL, multiset{}) && CountedReqs(INITIAL.log) == []
  {
    hide CountInv, FlowInv, UnmountInv, LogInv, ActsInv, LowInv, CountedReqs;
    StartCounts();
    StartFlow();
    StartOrder();
  }

  lemma StartCounts()
    ensures CountInv(INITIAL) && UnmountInv(INITIAL)
  {
    assert Line(INITIAL) == [];
  }

  lemma StartFlow()
    ensures FlowInv(INITIAL) && LowInv(INITIAL, multiset{}) && CountedReqs(INITIAL.log) == []
  {
  }

  lemma StartOrder()
    ensures LogInv(INITIAL) && ActsInv(INITIAL)
  {
  }

  // ---------------------------------------------------------------- down to the actions

  /** The names stand in the list of actions, next to each other, from `i` on. */
  ghost predicate StandsAt(acts: seq<R.Action>, names: seq<string>, i: nat) {
    i + |names| <= |acts| && forall k | 0 <= k < |names| :: acts[i + k] == R.Other(names[k])
  }

  ghost predicate Reduced(acts: seq<R.Action>, names: seq<string>) {
    exists i: nat :: StandsAt(acts, names, i)
  }

  lemma ReducedLonger(acts: seq<R.Action>, more: seq<R.Action>, names: seq<string>)
    requires Reduced(acts, names)
    ensures Reduced(acts + more, names)
  {
    var i: nat :| StandsAt(acts, names, i);
    assert StandsAt(acts + more, names, i);
  }

  /** Whatever request ran, its actions were reduced one after the other. */
  lemma {:induction false} RanIsReduced(log: seq<Event>, rq: Request)
    requires Ran(HReq(rq.id, rq.names)) in log
    ensures Reduced(LogActs(log), rq.names)
  {
    hide Reduced, EventActs;
    var before, e := log[..|log| - 1], log[|log| - 1];
    if e == Ran(HReq(rq.id, rq.names)) {
      RunStands(LogActs(before), rq);
    } else {
      assert log == before + [e];
      RanIsReduced(before, rq);
      ReducedLonger(LogActs(before), EventActs(e), rq.names);
    }
  }

  lemma RunStands(acts: seq<R.Action>, rq: Request)
    ensures Reduced(acts + EventActs(Ran(HReq(rq.id, rq.names))), rq.names)
  {
    assert StandsAt(acts + Named(rq.names), rq.names, |acts|);
  }

  /** The requests of a run are run in the order they were read in, and each that is done had every action it asked for
      reduced, in order and with nothing in between. */
  lemma RequestsRun(steps: seq<Step>)
    requires Follows(INITIAL, steps)
    ensures var s := Final(INITIAL, steps);
            && RanReqs(s.log) <= Asked(steps)
            && forall rq | rq in Asked(steps) && rq.id in s.done :: Reduced(LogActs(s.log), rq.names)
  {
    hide Inv, Reduced, RanReqs, CountedReqs, Asked, LowInv, LogActs, Line, Reqs;
    RunFlow(steps);
    var s := Final(INITIAL, steps);
    PartOfInv(s);
    forall rq | rq in Asked(steps) && rq.id in s.done ensures Reduced(LogActs(s.log), rq.names) {
      InLog(s.log, rq);
      var names :| Ran(HReq(rq.id, names)) in s.log;
      RanAsCounted(s, rq, names);
      RanIsReduced(s.log, rq);
    }
  }

  /** How often each name is among the actions. */
  function ByName(acts: seq<R.Action>): multiset<string> {
    if acts == [] then multiset{} else
      ByName(acts[..|acts| - 1]) + if acts[|acts| - 1].Other? then multiset{acts[|acts| - 1].name} else multiset{}
  }

  function AllNames(rqs: seq<Request>): multiset<string> {
    if rqs == [] then multiset{} else AllNames(rqs[..|rqs| - 1]) + multiset(rqs[|rqs| - 1].names)
  }

  lemma {:induction false} ByNameJoin(a: seq<R.Action>, b: seq<R.Action>)
    ensures ByName(a + b) == ByName(a) + ByName(b)
  {
    if b == [] {
      assert a + b == a;
    } else {
      assert (a + b)[..|a + b| - 1] == a + b[..|b| - 1];
      ByNameJoin(a, b[..|b| - 1]);
    }
  }

  lemma {:induction false} ByNameNamed(acts: seq<R.Action>, names: seq<string>)
    requires |acts| == |names| && forall k | 0 <= k < |names| :: acts[k] == R.Other(names[k])
    ensures ByName(acts) == multiset(names)
  {
    hide ByName;
    if names == [] {
      NothingByName();
    } else {
      var n := |names| - 1;
      ByNameNamed(acts[..n], names[..n]);
      ByNameNext(acts[..n], acts[n]);
      assert names == names[..n] + [names[n]] && acts == acts[..n] + [acts[n]];
    }
  }

  lemma ByNameNext(acts: seq<R.Action>, a: R.Action)
    ensures ByName(acts + [a]) == ByName(acts) + if a.Other? then multiset{a.name} else multiset{}
  {
    assert (acts + [a])[..|acts|] == acts;
  }

  lemma {:induction false} NamesJoin(a: seq<Request>, b: seq<Request>)
    ensures AllNames(a + b) == AllNames(a) + AllNames(b)
  {
    if b == [] {
      assert a + b == a;
    } else {
      assert (a + b)[..|a + b| - 1] == a + b[..|b| - 1];
      NamesJoin(a, b[..|b| - 1]);
    }
  }

  /** What an event reduces, by name. */
  lemma EventByName(e: Event)
    ensures ByName(EventActs(e))
         == AllNames(if e.Ran? then Requests([e.h]) else [])
            + if e.Ran? && e.h.HAct? then multiset{e.h.name} else multiset{}
  {
    if e.Ran? {
      OneRequest(e.h);
      if e.h.HReq? {
        ByNameNamed(Named(e.h.names), e.h.names);
        assert [Request(e.h.id, e.h.names)][..0] == [];
      } else {
        assert EventActs(e)[..0] == [];
      }
    } else if e.RanInit? {
      assert EventActs(e)[..0] == [];
    }
  }

  lemma {:induction false} LogByName(log: seq<Event>)
    ensures ByName(LogActs(log)) == AllNames(RanReqs(log)) + multiset(RanLows(log))
  {
    hide ByName, AllNames, EventActs, Requests;
    if log == [] {
      NothingByName();
    } else {
      var before, e := log[..|log| - 1], log[|log| - 1];
      LogByName(before);
      ByNameJoin(LogActs(before), EventActs(e));
      EventByName(e);
      NamesJoin(RanReqs(before), if e.Ran? then Requests([e.h]) else []);
      NothingByName();
      assert RanReqs(before) + [] == RanReqs(before);
    }
  }

  lemma NothingByName()
    ensures ByName([]) == multiset{} && AllNames([]) == multiset{}
  {
  }

  /** Nothing is on its way, and the dispatcher has not stopped. */
  predicate Idle(s: Sys) {
    (s.disp.NotStarted? || s.disp.Choosing? || s.disp.SawEmpty?)
    && s.hi == [] && s.lo == [] && s.parked == multiset{} && !s.reader.Holding?
  }

  /** A run reduces no action more often than requests and dispatches asked for it, and when nothing is left, exactly
      as often. */
  lemma ActionsRun(steps: seq<Step>)
    requires Follows(INITIAL, steps)
    ensures var s := Final(INITIAL, steps);
            && ByName(LogActs(s.log)) <= AllNames(Asked(steps)) + multiset(Sent(steps))
            && (Idle(s) ==> ByName(LogActs(s.log)) == AllNames(Asked(steps)) + multiset(Sent(steps)))
  {
    hide Inv, RanReqs, CountedReqs, Asked, LogActs, ByName, RanLows, Sent, AllNames, CountInv, UnmountInv, Lows,
      Pending, Final, Follows, Idle;
    RunFlow(steps);
    var s := Final(INITIAL, steps);
    PartOfInv(s);
    LogByName(s.log);
    var ran, all := RanReqs(s.log), Asked(steps);
    NamesJoin(ran, all[|ran|..]);
    assert all == ran + all[|ran|..];
    if Idle(s) {
      IdleHasNone(s);
      assert ran + [] == ran;
    }
  }

  lemma IdleHasNone(s: Sys)
    requires Idle(s)
    ensures Pending(s) == [] && Lows(s) == RanLows(s.log) && s.parked == multiset{} && !s.disp.Stopped?
  {
    hide RanLows;
  }

  lemma {:induction false} ParkedStays(s: Sys, steps: seq<Step>)
    requires Follows(s, steps) && forall st | st in steps :: !st.Unpark?
    ensures s.parked <= Final(s, steps).parked
    decreases |steps|
  {
    if steps != [] {
      assert steps[0] in steps;
      ParkedStays(Apply(s, steps[0]), steps[1..]);
    }
  }

  lemma {:induction false} LowsFollow(s: Sys, steps: seq<Step>)
    requires Inv(s) && Follows(s, steps) && Final(s, steps).parked == multiset{}
    requires forall st | st in steps :: !st.Unpark?
    ensures RanLows(Final(s, steps).log) <= Lows(s) + Sent(steps)
    ensures !Final(s, steps).disp.Stopped? ==> Lows(Final(s, steps)) == Lows(s) + Sent(steps)
    decreases |steps|
  {
    hide Inv, RanLows, Enabled, Apply, Lows, Sent, UnmountInv, FlowInv, CountInv;
    RanIsInFront(s);
    if steps == [] {
      NoneAsked();
      assert Lows(s) + [] == Lows(s);
    } else {
      var st, s', rest := steps[0], Apply(s, steps[0]), steps[1..];
      assert st in steps;
      PartOfInv(s);
      KeepInv(s, st);
      ParkedStays(s', rest);
      StoppedStays(s, st);
      if s'.disp.Stopped? {
        RanLowsKept(s, st);
        StoppedRunsNone(s', rest);
      } else {
        LowsKept(s, st);
        AllQueued(s, st);
        LowsFollow(s', rest);
        OneAsked(steps);
        assert Lows(s) + Sent([st]) + Sent(rest) == Lows(s) + Sent(steps);
      }
    }
  }

  lemma RanIsInFront(s: Sys)
    ensures RanLows(s.log) <= Lows(s)
  {
    hide RanLows;
    assert Lows(s) == RanLows(s.log) + (LowInHand(s.disp) + s.lo);
  }

  /** With nothing parked afterwards, a dispatched action has gone to the queue. */
  lemma AllQueued(s: Sys, st: Step)
    requires Enabled(s, st) && !st.Unpark? && Apply(s, st).parked == multiset{}
    ensures Queued(s, st) == Sent([st])
  {
    SentOne(st);
    if st.Dispatch? {
      NotEmpty(s.parked, st.name);
    }
  }

  lemma NotEmpty(m: multiset<string>, name: string)
    ensures m + multiset{name} != multiset{}
  {
    assert (m + multiset{name})[name] >= 1;
  }

  lemma {:induction false} StoppedRunsNone(s: Sys, steps: seq<Step>)
    requires Follows(s, steps) && s.disp.Stopped?
    ensures Final(s, steps).disp.Stopped? && RanLows(Final(s, steps).log) == RanLows(s.log)
    decreases |steps|
  {
    hide RanLows;
    if steps != [] {
      StoppedStays(s, steps[0]);
      RanLowsKept(s, steps[0]);
      StoppedRunsNone(Apply(s, steps[0]), steps[1..]);
    }
  }

  /** As long as the low queue has room, dispatched actions run in the order they were dispatched in. */
  lemma LowsInOrder(steps: seq<Step>)
    requires Follows(INITIAL, steps) && Final(INITIAL, steps).parked == multiset{}
    requires forall st | st in steps :: !st.Unpark?
    ensures RanLows(Final(INITIAL, steps).log) <= Sent(steps)
  {
    hide Inv, Sent;
    StartInv();
    LowsFollow(INITIAL, steps);
    assert Lows(INITIAL) == [];
    assert [] + Sent(steps) == Sent(steps);
  }
}
