/**
 * The agent and its store as a state machine: the reader that queues requests, the dispatcher with its two queues,
 * anybody dispatching actions, and any number of concurrent calls of shutdown.
 */
module Shutdown {
  import opened Wrappers
  import R = Reducers

  const SLOTS := 640

  /** A request and the actions it asks for. */
  datatype Request = Request(id: nat, names: seq<string>)

  datatype Handler = HReq(id: nat, names: seq<string>) | HAct(name: string) | HUnmount

  /** Where the dispatcher is: choosing a handler (SawEmpty: the high queue had none), or what it does with one. */
  datatype Dispatcher =
    | NotStarted | Choosing | SawEmpty
    | Took(h: Handler) | Running(h: Handler) | Finishing(h: Handler)
    | Stopped

  /** The request loop; between counting a request and queueing it, it holds it. */
  datatype Reader = Reading | Holding(h: Handler) | Ended

  /** Where the call of shutdown that holds the lock is. */
  datatype Holder = Free | AtStdin | AtWait | AtSend | AtDone | AtStdout | AtClose

  datatype Event =
    | Counted(rq: Request) | RanInit | Ran(h: Handler)
    | ClosedStdin | WaitedAll | ClosedStdout | ClosedDone

  datatype Sys = Sys(
    disp: Dispatcher,
    hi: seq<Handler>,
    lo: seq<string>,
    parked: multiset<string>,     // sends to the full low queue, each waiting in its own goroutine
    unmounted: bool,
    unmountDone: bool,
    wg: nat,
    counted: set<nat>,
    done: set<nat>,
    reader: Reader,
    waiting: nat,                 // calls of shutdown that wait for the lock
    holder: Holder,
    closed: bool,
    log: seq<Event>)

  datatype Step =
    | Start | See | TakeHi | TakeLo | Check | Run | Finish
    | Count(id: nat, names: seq<string>) | Send | End
    | Dispatch(name: string) | Unpark(name: string)
    | CallShutdown | Lock | CloseStdin | Wait | SendUnmount | AwaitUnmount | CloseStdout | CloseDone

  const INITIAL := Sys(NotStarted, [], [], multiset{}, false, false, 0, {}, {}, Reading, 0, Free, false, [])

  predicate Enabled(s: Sys, st: Step) {
    match st
    case Start => s.disp.NotStarted?
    case See => s.disp.Choosing? && s.hi == []
    case TakeHi => (s.disp.Choosing? || s.disp.SawEmpty?) && s.hi != []
    case TakeLo => s.disp.SawEmpty? && s.lo != []
    case Check => s.disp.Took?
    case Run => s.disp.Running?
    case Finish => s.disp.Finishing?
    case Count(id, _) => s.reader.Reading? && id !in s.counted
    case Send => s.reader.Holding? && |s.hi| < SLOTS
    case End => s.reader.Reading?
    case Dispatch(_) => true
    case Unpark(name) => name in s.parked && |s.lo| < SLOTS
    case CallShutdown => true
    case Lock => s.waiting > 0 && s.holder == Free
    case CloseStdin => s.holder == AtStdin
    case Wait => s.holder == AtWait && s.wg == 0
    case SendUnmount => s.holder == AtSend && |s.hi| < SLOTS
    case AwaitUnmount => s.holder == AtDone && s.unmountDone
    case CloseStdout => s.holder == AtStdout
    case CloseDone => s.holder == AtClose
  }

  function Apply(s: Sys, st: Step): Sys
    requires Enabled(s, st)
  {
    match st
    case Start => s.(disp := Choosing, log := s.log + [RanInit])
    case See => s.(disp := SawEmpty)
    case TakeHi => s.(disp := Took(s.hi[0]), hi := s.hi[1..])
    case TakeLo => s.(disp := Took(HAct(s.lo[0])), lo := s.lo[1..])
    case Check => if s.unmounted then s.(disp := Stopped) else s.(disp := Running(s.disp.h))
    case Run =>
      // a second unmount handler would return at once
      if s.disp.h.HUnmount? && s.unmounted then s.(disp := Finishing(s.disp.h)) else
        s.(disp := Finishing(s.disp.h), unmounted := s.unmounted || s.disp.h.HUnmount?, log := s.log + [Ran(s.disp.h)])
    case Finish =>
      var next := s.(disp := Choosing);
      (match s.disp.h
       case HReq(id, _) => next.(wg := if s.wg > 0 then s.wg - 1 else 0, done := s.done + {id})
       case HAct(_) => next
       case HUnmount => next.(unmountDone := true))
    case Count(id, names) =>
      s.(reader := Holding(HReq(id, names)), wg := s.wg + 1, counted := s.counted + {id},
          log := s.log + [Counted(Request(id, names))])
    case Send => s.(reader := Reading, hi := s.hi + [s.reader.h])
    case End => s.(reader := Ended)
    case Dispatch(name) =>
      if |s.lo| < SLOTS then s.(lo := s.lo + [name]) else s.(parked := s.parked + multiset{name})
    case Unpark(name) => s.(parked := s.parked - multiset{name}, lo := s.lo + [name])
    case CallShutdown => s.(waiting := s.waiting + 1)
    case Lock =>
      if s.closed then s.(waiting := s.waiting - 1) else s.(waiting := s.waiting - 1, closed := true, holder := AtStdin)
    case CloseStdin => s.(holder := AtWait, log := s.log + [ClosedStdin])
    case Wait => s.(holder := AtSend, log := s.log + [WaitedAll])
    case SendUnmount => s.(holder := AtDone, hi := s.hi + [HUnmount])
    case AwaitUnmount => s.(holder := AtStdout)
    case CloseStdout => s.(holder := AtClose, log := s.log + [ClosedStdout])
    case CloseDone => s.(holder := Free, log := s.log + [ClosedDone])
  }

  ghost predicate Follows(s: Sys, steps: seq<Step>)
    decreases |steps|
  {
    steps == [] || (Enabled(s, steps[0]) && Follows(Apply(s, steps[0]), steps[1..]))
  }

  function Final(s: Sys, steps: seq<Step>): Sys
    requires Follows(s, steps)
    decreases |steps|
  {
    if steps == [] then s else Final(Apply(s, steps[0]), steps[1..])
  }

  ghost predicate Reachable(s: Sys) {
    exists steps :: Follows(INITIAL, steps) && Final(INITIAL, steps) == s
  }

  // ---------------------------------------------------------------- where the handlers are

  function InHand(d: Dispatcher): seq<Handler> {
    if d.Took? || d.Running? || d.Finishing? then [d.h] else []
  }

  function Held(r: Reader): seq<Handler> {
    if r.Holding? then [r.h] else []
  }

  /** Every handler on its way, the one the dispatcher has in hand first. */
  function Line(s: Sys): seq<Handler> {
    InHand(s.disp) + s.hi + Held(s.reader)
  }

  function Req(h: Handler): multiset<nat> {
    if h.HReq? then multiset{h.id} else multiset{}
  }

  function Reqs(hs: seq<Handler>): multiset<nat> {
    if hs == [] then multiset{} else Req(hs[0]) + Reqs(hs[1..])
  }

  function Unmounts(hs: seq<Handler>): nat {
    if hs == [] then 0 else (if hs[0].HUnmount? then 1 else 0) + Unmounts(hs[1..])
  }

  lemma {:induction false} Joined(a: seq<Handler>, b: seq<Handler>)
    ensures Reqs(a + b) == Reqs(a) + Reqs(b)
    ensures Unmounts(a + b) == Unmounts(a) + Unmounts(b)
  {
    hide Req;
    if a == [] {
      assert a + b == b;
    } else {
      Joined(a[1..], b);
      assert (a + b)[1..] == a[1..] + b && (a + b)[0] == a[0];
    }
  }

  lemma One(h: Handler)
    ensures Reqs([h]) == if h.HReq? then multiset{h.id} else multiset{}
    ensures Unmounts([h]) == if h.HUnmount? then 1 else 0
  {
  }

  /** How far shutdown has got. */
  function Phase(s: Sys): nat {
    match s.holder
    case Free => if s.closed then 7 else 0
    case AtStdin => 1
    case AtWait => 2
    case AtSend => 3
    case AtDone => 4
    case AtStdout => 5
    case AtClose => 6
  }

  ghost predicate RanReq(log: seq<Event>, id: nat) {
    exists names :: Ran(HReq(id, names)) in log
  }

  ghost predicate CountedReq(log: seq<Event>, id: nat) {
    exists names :: Counted(Request(id, names)) in log
  }

  /** The wait group counts the requests not done, and until the unmount each of them is on its way exactly once. */
  ghost predicate CountInv(s: Sys) {
    && s.done <= s.counted
    && s.wg == |s.counted| - |s.done|
    && Reqs(Line(s)) <= multiset(s.counted - s.done)
    && (!s.unmounted ==> Reqs(Line(s)) == multiset(s.counted - s.done))
    && (forall id :: CountedReq(s.log, id) <==> id in s.counted)
    && (forall id | id in s.done :: RanReq(s.log, id))
    && (s.disp.Finishing? && s.disp.h.HReq? ==> RanReq(s.log, s.disp.h.id))
  }

  /** The one unmount handler is sent after the wait, and shutdown goes on only when it has run. */
  ghost predicate UnmountInv(s: Sys) {
    var atWork := s.disp.Finishing? && s.disp.h.HUnmount?;
    && (Phase(s) < 4 ==> Unmounts(Line(s)) == 0 && !s.unmounted && !s.unmountDone)
    && (Phase(s) == 4 ==> Unmounts(Line(s)) == if s.unmountDone then 0 else 1)
    && (Phase(s) > 4 ==> s.unmountDone)
    && (s.unmountDone ==> Unmounts(Line(s)) == 0)
    && (s.unmounted <==> s.unmountDone || atWork)
    && (s.holder != Free ==> s.closed)
    && (s.disp.Running? ==> !s.unmounted)
    && (s.disp.Stopped? ==> s.unmounted)
    && (s.unmounted && s.disp.Finishing? ==> s.disp.h.HUnmount?)
    && (s.reader.Holding? ==> s.reader.h.HReq?)
    && (forall h | h in s.hi :: !h.HAct?)
  }

  ghost predicate AtMostOnce(log: seq<Event>, e: Event) {
    forall i, j | 0 <= i < j < |log| && log[i] == e :: log[j] != e
  }

  ghost predicate OnlyAfter(log: seq<Event>, first: Event, later: Event) {
    forall j | 0 <= j < |log| && log[j] == later :: first in log[..j]
  }

  /** Nothing runs any more once the unmount action has. */
  ghost predicate UnmountRunsLast(log: seq<Event>) {
    forall i, j | 0 <= i < j < |log| && log[i] == Ran(HUnmount) :: !log[j].Ran?
  }

  /** Every request counted before the wait returned had run by then, with the actions it asked for. */
  ghost predicate WaitedForAll(log: seq<Event>) {
    forall i, j | 0 <= i < j < |log| && log[i].Counted? && log[j] == WaitedAll ::
      Ran(HReq(log[i].rq.id, log[i].rq.names)) in log[..j]
  }

  /** The order shutdown promises. */
  ghost predicate Ordered(log: seq<Event>) {
    && AtMostOnce(log, ClosedStdin) && AtMostOnce(log, WaitedAll) && AtMostOnce(log, Ran(HUnmount))
    && AtMostOnce(log, ClosedStdout) && AtMostOnce(log, ClosedDone)
    && OnlyAfter(log, ClosedStdin, WaitedAll) && OnlyAfter(log, WaitedAll, Ran(HUnmount))
    && OnlyAfter(log, Ran(HUnmount), ClosedStdout) && OnlyAfter(log, ClosedStdout, ClosedDone)
    && UnmountRunsLast(log) && WaitedForAll(log)
  }

  ghost predicate LogInv(s: Sys) {
    Ordered(s.log) && Holds(s)
  }

  // ---------------------------------------------------------------- which requests run

  function RequestOf(h: Handler): seq<Request> {
    if h.HReq? then [Request(h.id, h.names)] else []
  }

  function Requests(hs: seq<Handler>): seq<Request> {
    if hs == [] then [] else RequestOf(hs[0]) + Requests(hs[1..])
  }

  /** The requests counted, in their order. */
  function CountedReqs(log: seq<Event>): seq<Request> {
    if log == [] then [] else
      var e := log[|log| - 1];
      CountedReqs(log[..|log| - 1]) + if e.Counted? then [e.rq] else []
  }

  /** The requests that ran, in their order. */
  function RanReqs(log: seq<Event>): seq<Request> {
    if log == [] then [] else
      var e := log[|log| - 1];
      RanReqs(log[..|log| - 1]) + if e.Ran? then Requests([e.h]) else []
  }

  /** What the dispatcher has in hand and has not run. */
  function ToRun(d: Dispatcher): seq<Handler> {
    if d.Took? || d.Running? then [d.h] else []
  }

  /** The requests that have not run, the next one first. */
  function Pending(s: Sys): seq<Request> {
    Requests(ToRun(s.disp)) + Requests(s.hi) + Requests(Held(s.reader))
  }

  ghost predicate OneEach(rqs: seq<Request>) {
    forall i, j | 0 <= i < j < |rqs| :: rqs[i].id != rqs[j].id
  }

  /** Requests run in the order they were counted in, with the actions they were counted with; and as long as the
      dispatcher has not stopped, those that have not run are on their way. */
  ghost predicate FlowInv(s: Sys) {
    && RanReqs(s.log) <= CountedReqs(s.log)
    && (!s.disp.Stopped? ==> RanReqs(s.log) + Pending(s) == CountedReqs(s.log))
    && OneEach(CountedReqs(s.log))
    && (forall rq | rq in CountedReqs(s.log) :: rq.id in s.counted)
  }

  lemma {:induction false} RequestsJoin(a: seq<Handler>, b: seq<Handler>)
    ensures Requests(a + b) == Requests(a) + Requests(b)
  {
    hide RequestOf;
    if a == [] {
      assert a + b == b;
    } else {
      RequestsJoin(a[1..], b);
      assert (a + b)[1..] == a[1..] + b && (a + b)[0] == a[0];
      var first, rest, more := RequestOf(a[0]), Requests(a[1..]), Requests(b);
      assert first + (rest + more) == first + rest + more;
    }
  }

  lemma OneRequest(h: Handler)
    ensures Requests([h]) == if h.HReq? then [Request(h.id, h.names)] else []
    ensures Requests([]) == []
  {
    assert [h][1..] == [];
  }

  lemma ReqsNext(log: seq<Event>, e: Event)
    ensures CountedReqs(log + [e]) == CountedReqs(log) + if e.Counted? then [e.rq] else []
    ensures RanReqs(log + [e]) == RanReqs(log) + if e.Ran? then Requests([e.h]) else []
  {
    assert (log + [e])[..|log|] == log;
  }

  lemma {:induction false} InLog(log: seq<Event>, rq: Request)
    ensures rq in CountedReqs(log) <==> Counted(rq) in log
    ensures rq in RanReqs(log) <==> Ran(HReq(rq.id, rq.names)) in log
  {
    if log != [] {
      var e := log[|log| - 1];
      InLog(log[..|log| - 1], rq);
      assert log == log[..|log| - 1] + [e];
      if e.Ran? {
        OneRequest(e.h);
      }
    }
  }

  /** A request that ran under a number ran with the actions counted under it. */
  lemma RanAsCounted(s: Sys, rq: Request, names: seq<string>)
    requires FlowInv(s) && Counted(rq) in s.log && Ran(HReq(rq.id, names)) in s.log
    ensures names == rq.names
  {
    hide CountedReqs, RanReqs, Pending;
    var ran := Request(rq.id, names);
    InLog(s.log, rq);
    InLog(s.log, ran);
    var all := CountedReqs(s.log);
    assert ran in all;
    var i :| 0 <= i < |all| && all[i] == rq;
    var j :| 0 <= j < |all| && all[j] == ran;
    assert i == j;
  }

  /** The steps that count, run or drop a request; all others leave those that have not run in their order. */
  predicate Flows(st: Step) {
    st.Count? || st.Run? || st.Check?
  }

  lemma PendingTaken(s: Sys)
    requires Enabled(s, TakeHi)
    ensures Pending(Apply(s, TakeHi)) == Pending(s)
  {
    hide Requests;
    var hi := s.hi;
    assert hi == [hi[0]] + hi[1..];
    RequestsJoin([hi[0]], hi[1..]);
    OneRequest(hi[0]);
  }

  lemma PendingSent(s: Sys, st: Step)
    requires Enabled(s, st) && (st.Send? || st.SendUnmount?)
    ensures Pending(Apply(s, st)) == Pending(s)
  {
    hide Requests;
    var h := if st.Send? then s.reader.h else HUnmount;
    RequestsJoin(s.hi, [h]);
    OneRequest(h);
    var front, hi := Requests(ToRun(s.disp)), Requests(s.hi);
    assert front + (hi + Requests([h])) == front + hi + Requests([h]);
  }

  lemma PendingKept(s: Sys, st: Step)
    requires Enabled(s, st) && !Flows(st)
    ensures Pending(Apply(s, st)) == Pending(s)
  {
    hide Requests;
    if st.TakeHi? {
      PendingTaken(s);
    } else if st.Send? || st.SendUnmount? {
      PendingSent(s, st);
    } else if st.TakeLo? {
      OneRequest(HAct(s.lo[0]));
    }
  }

  lemma KeepFlow(s: Sys, st: Step)
    requires Enabled(s, st) && UnmountInv(s) && CountInv(s) && FlowInv(s)
    ensures FlowInv(Apply(s, st))
  {
    hide CountInv, UnmountInv, Requests, CountedReqs, RanReqs, Pending;
    if st.Run? {
      NotUnmounted(s);
      FlowRun(s);
    } else if st.Count? {
      FlowCount(s, st.id, st.names);
    } else if st.Check? {
      FlowCheck(s);
    } else {
      FlowSame(s, st);
    }
  }

  lemma FlowCheck(s: Sys)
    requires Enabled(s, Check) && FlowInv(s)
    ensures FlowInv(Apply(s, Check))
  {
    hide Requests, CountedReqs, RanReqs;
  }

  lemma NotUnmounted(s: Sys)
    requires UnmountInv(s) && s.disp.Running?
    ensures !s.unmounted
  {
    hide Phase, Unmounts, Line;
  }

  lemma FlowSame(s: Sys, st: Step)
    requires Enabled(s, st) && !Flows(st) && FlowInv(s)
    ensures FlowInv(Apply(s, st))
  {
    hide Pending, CountedReqs, RanReqs, Requests;
    PendingKept(s, st);
    forall e: Event ensures CountedReqs(s.log + [e]) == CountedReqs(s.log) + if e.Counted? then [e.rq] else []
      ensures RanReqs(s.log + [e]) == RanReqs(s.log) + if e.Ran? then Requests([e.h]) else []
    {
      ReqsNext(s.log, e);
    }
  }

  lemma FlowRun(s: Sys)
    requires Enabled(s, Run) && FlowInv(s) && !s.unmounted
    ensures FlowInv(Apply(s, Run))
  {
    hide CountedReqs, RanReqs, Requests, Pending;
    ReqsNext(s.log, Ran(s.disp.h));
    PendingAfterRun(s);
    RunMoves(RanReqs(s.log), Requests([s.disp.h]), Pending(Apply(s, Run)));
  }

  lemma PendingAfterRun(s: Sys)
    requires Enabled(s, Run) && !s.unmounted
    ensures Pending(s) == Requests([s.disp.h]) + Pending(Apply(s, Run))
  {
    hide Requests;
    OneRequest(s.disp.h);
    var first, hi, held := Requests([s.disp.h]), Requests(s.hi), Requests(Held(s.reader));
    assert first + hi + held == first + ([] + hi + held);
  }

  lemma RunMoves(ran: seq<Request>, one: seq<Request>, rest: seq<Request>)
    ensures ran + (one + rest) == ran + one + rest
  {
  }

  lemma FlowCount(s: Sys, id: nat, names: seq<string>)
    requires Enabled(s, Count(id, names)) && FlowInv(s)
    ensures FlowInv(Apply(s, Count(id, names)))
  {
    hide CountedReqs, RanReqs, Requests;
    var rq, h := Request(id, names), HReq(id, names);
    ReqsNext(s.log, Counted(rq));
    OneRequest(h);
    var s' := Apply(s, Count(id, names));
    assert Pending(s') == Pending(s) + [rq];
    var all := CountedReqs(s.log);
    forall i | 0 <= i < |all| ensures (all + [rq])[i].id != id {
      assert all[i] in all;
    }
  }

  // ---------------------------------------------------------------- what every step keeps

  lemma Shift(h: Handler, b: seq<Handler>, c: seq<Handler>)
    ensures [h] + b + c == [h] + ([] + b + c)
  {
  }

  /** Only these steps change who is on the way; all others, taking from the high queue among them, keep the line. */
  predicate Moves(st: Step) {
    st.TakeLo? || st.Check? || st.Finish? || st.Count? || st.SendUnmount?
  }

  lemma LineKept(s: Sys, st: Step)
    requires Enabled(s, st) && (!Moves(st) || (st.Check? && !s.unmounted))
    ensures Line(Apply(s, st)) == Line(s)
  {
    if st.TakeHi? {
      assert s.hi == [s.hi[0]] + s.hi[1..];
    }
  }

  lemma LineTakeLo(s: Sys)
    requires Enabled(s, TakeLo)
    ensures Reqs(Line(Apply(s, TakeLo))) == Reqs(Line(s))
    ensures Unmounts(Line(Apply(s, TakeLo))) == Unmounts(Line(s))
  {
    hide Reqs, Unmounts;
    Joined([HAct(s.lo[0])], Line(s));
    One(HAct(s.lo[0]));
    Shift(HAct(s.lo[0]), s.hi, Held(s.reader));
  }

  /** The dispatcher lets go of the handler in its hand: it is done with it, or drops it. */
  lemma LineLetGo(s: Sys, d: Dispatcher)
    requires InHand(s.disp) != [] && InHand(d) == []
    ensures Line(s) == [s.disp.h] + Line(s.(disp := d))
    ensures Reqs(Line(s)) == Reqs([s.disp.h]) + Reqs(Line(s.(disp := d)))
    ensures Unmounts(Line(s)) == Unmounts([s.disp.h]) + Unmounts(Line(s.(disp := d)))
  {
    hide Reqs, Unmounts;
    Joined([s.disp.h], Line(s.(disp := d)));
    Shift(s.disp.h, s.hi, Held(s.reader));
  }

  lemma LineCount(s: Sys, id: nat, names: seq<string>)
    requires Enabled(s, Count(id, names))
    ensures Reqs(Line(Apply(s, Count(id, names)))) == Reqs(Line(s)) + multiset{id}
    ensures Unmounts(Line(Apply(s, Count(id, names)))) == Unmounts(Line(s))
  {
    hide Reqs, Unmounts;
    Joined(Line(s), [HReq(id, names)]);
    One(HReq(id, names));
    assert Line(Apply(s, Count(id, names))) == Line(s) + [HReq(id, names)];
  }

  lemma LineSendUnmount(s: Sys)
    requires Enabled(s, SendUnmount)
    ensures Reqs(Line(Apply(s, SendUnmount))) == Reqs(Line(s))
    ensures Unmounts(Line(Apply(s, SendUnmount))) == Unmounts(Line(s)) + 1
  {
    hide Reqs, Unmounts;
    var front := InHand(s.disp) + s.hi;
    Joined(front, Held(s.reader));
    Joined(front, [HUnmount] + Held(s.reader));
    Joined([HUnmount], Held(s.reader));
    One(HUnmount);
    assert Line(Apply(s, SendUnmount)) == front + ([HUnmount] + Held(s.reader));
  }

  lemma OneFewer(a: set<nat>, b: set<nat>, id: nat, rest: multiset<nat>)
    requires b <= a && multiset{id} + rest == multiset(a - b)
    ensures id in a && id !in b && rest == multiset(a - (b + {id}))
    ensures |b + {id}| == |b| + 1 && |b + {id}| <= |a|
  {
    assert (multiset{id} + rest)[id] >= 1;
    assert id in a - b;
    assert a - (b + {id}) == (a - b) - {id};
    assert rest == (multiset{id} + rest) - multiset{id};
    assert b + {id} <= a;
    SubsetSize(b + {id}, a);
  }

  lemma FinishReq(s: Sys)
    requires Enabled(s, Finish) && s.disp.h.HReq? && !s.unmounted && CountInv(s)
    ensures CountInv(Apply(s, Finish))
  {
    hide Reqs, Unmounts, Line, RanReq, CountedReq;
    LineLetGo(s, Choosing);
    One(s.disp.h);
    var s' := Apply(s, Finish);
    LineSame(s', s.(disp := Choosing));
    OneFewer(s.counted, s.done, s.disp.h.id, Reqs(Line(s')));
    assert s'.done == s.done + {s.disp.h.id};
  }

  lemma FinishOther(s: Sys)
    requires Enabled(s, Finish) && !s.disp.h.HReq? && CountInv(s)
    ensures CountInv(Apply(s, Finish))
  {
    hide Reqs, Unmounts, Line, RanReq, CountedReq, CountInv;
    LineLetGo(s, Choosing);
    One(s.disp.h);
    LineSame(Apply(s, Finish), s.(disp := Choosing));
    CountFramed(s, Apply(s, Finish));
  }

  lemma LineSame(s: Sys, s': Sys)
    requires s.disp == s'.disp && s.hi == s'.hi && s.reader == s'.reader
    ensures Line(s) == Line(s')
  {
  }

  lemma LogGrows(log: seq<Event>, e: Event)
    ensures forall id :: RanReq(log, id) ==> RanReq(log + [e], id)
    ensures forall id, names :: e == Ran(HReq(id, names)) ==> RanReq(log + [e], id)
    ensures forall id :: CountedReq(log + [e], id) <==> CountedReq(log, id) || (e.Counted? && e.rq.id == id)
  {
    forall id, names | Ran(HReq(id, names)) in log ensures RanReq(log + [e], id) {
      assert Ran(HReq(id, names)) in log + [e];
    }
    forall id, names | e == Ran(HReq(id, names)) ensures RanReq(log + [e], id) {
      assert Ran(HReq(id, names)) in log + [e];
    }
    forall id, names | Counted(Request(id, names)) in log ensures CountedReq(log + [e], id) {
      assert Counted(Request(id, names)) in log + [e];
    }
    if e.Counted? {
      assert Counted(Request(e.rq.id, e.rq.names)) in log + [e];
    }
  }

  lemma RunCount(s: Sys)
    requires Enabled(s, Run) && CountInv(s) && UnmountInv(s)
    ensures CountInv(Apply(s, Run))
  {
    hide Reqs, Unmounts, Line, RanReq, CountedReq;
    LogGrows(s.log, Ran(s.disp.h));
    LineKept(s, Run);
  }

  lemma NewCount(s: Sys, id: nat, names: seq<string>)
    requires Enabled(s, Count(id, names)) && CountInv(s)
    ensures CountInv(Apply(s, Count(id, names)))
  {
    hide Reqs, Unmounts, Line, RanReq, CountedReq;
    LogGrows(s.log, Counted(Request(id, names)));
    LineCount(s, id, names);
    OneMore(s.counted, s.done, id);
  }

  lemma OneMore(a: set<nat>, b: set<nat>, id: nat)
    requires b <= a && id !in a
    ensures multiset(a + {id} - b) == multiset(a - b) + multiset{id}
    ensures |a + {id}| == |a| + 1
  {
    assert a + {id} - b == a - b + {id};
  }

  /** A step that neither counts, finishes nor reduces. */
  lemma CountFramed(s: Sys, s': Sys)
    requires CountInv(s)
    requires s'.done == s.done && s'.counted == s.counted && s'.wg == s.wg && s'.unmounted == s.unmounted
    requires Reqs(Line(s')) <= Reqs(Line(s)) && (!s.unmounted ==> Reqs(Line(s')) == Reqs(Line(s)))
    requires s'.log == s.log || (exists e: Event :: !e.Counted? && s'.log == s.log + [e])
    requires s'.disp.Finishing? ==> s'.disp == s.disp
    ensures CountInv(s')
  {
    hide Reqs, Unmounts, Line, RanReq, CountedReq;
    if s'.log != s.log {
      var e: Event :| !e.Counted? && s'.log == s.log + [e];
      LogGrows(s.log, e);
    }
  }

  lemma KeepCount(s: Sys, st: Step)
    requires Enabled(s, st) && CountInv(s) && UnmountInv(s)
    ensures CountInv(Apply(s, st))
  {
    hide Reqs, Unmounts, Line, RanReq, CountedReq, CountInv;
    match st
    case Run => RunCount(s);
    case Finish =>
      if s.disp.h.HReq? {
        FinishReq(s);
      } else {
        FinishOther(s);
      }
    case Count(id, names) => NewCount(s, id, names);
    case TakeLo =>
      LineTakeLo(s);
      CountFramed(s, Apply(s, st));
    case Check =>
      if s.unmounted {
        LineLetGo(s, Stopped);
      } else {
        LineKept(s, st);
      }
      CountFramed(s, Apply(s, st));
    case SendUnmount =>
      LineSendUnmount(s);
      CountFramed(s, Apply(s, st));
    case _ =>
      LineKept(s, st);
      CountFramed(s, Apply(s, st));
  }

  lemma KeepUnmount(s: Sys, st: Step)
    requires Enabled(s, st) && UnmountInv(s)
    ensures UnmountInv(Apply(s, st))
  {
    hide Reqs, Unmounts;
    match st
    case TakeLo => LineTakeLo(s);
    case Check => if s.unmounted { LineLetGo(s, Stopped); } else { LineKept(s, st); }
    case Finish =>
      LineLetGo(s, Choosing);
      One(s.disp.h);
    case Run =>
      LineKept(s, st);
      LineLetGo(s, Choosing);
      One(s.disp.h);
    case Count(id, names) => LineCount(s, id, names);
    case SendUnmount => LineSendUnmount(s);
    case _ => LineKept(s, st);
  }

  ghost predicate AllRan(log: seq<Event>) {
    forall rq | Counted(rq) in log :: Ran(HReq(rq.id, rq.names)) in log
  }

  /** What the next event must find in the log. */
  ghost predicate MayFollow(log: seq<Event>, e: Event) {
    match e
    case Counted(_) => true
    case RanInit => true
    case Ran(h) => Ran(HUnmount) !in log && (h.HUnmount? ==> WaitedAll in log)
    case ClosedStdin => e !in log
    case WaitedAll => e !in log && ClosedStdin in log && AllRan(log)
    case ClosedStdout => e !in log && Ran(HUnmount) in log
    case ClosedDone => e !in log && ClosedStdout in log
  }

  lemma OnceNext(log: seq<Event>, one: Event, e: Event)
    requires AtMostOnce(log, one) && (e == one ==> e !in log)
    ensures AtMostOnce(log + [e], one)
  {
  }

  lemma AfterNext(log: seq<Event>, first: Event, later: Event, e: Event)
    requires OnlyAfter(log, first, later) && (e == later ==> first in log)
    ensures OnlyAfter(log + [e], first, later)
  {
    forall j | 0 <= j <= |log| ensures (log + [e])[..j] == log[..j] { }
  }

  lemma LastNext(log: seq<Event>, e: Event)
    requires UnmountRunsLast(log) && (e.Ran? ==> Ran(HUnmount) !in log)
    ensures UnmountRunsLast(log + [e])
  {
  }

  lemma WaitedNext(log: seq<Event>, e: Event)
    requires WaitedForAll(log) && (e == WaitedAll ==> AllRan(log))
    ensures WaitedForAll(log + [e])
  {
    var log' := log + [e];
    forall i, j | 0 <= i < j < |log'| && log'[i].Counted? && log'[j] == WaitedAll
      ensures Ran(HReq(log'[i].rq.id, log'[i].rq.names)) in log'[..j]
    {
      assert log'[..j] == log[..j];
      assert log'[i] == Counted(log'[i].rq) && log'[i] in log;
      assert j == |log| ==> log[..j] == log;
    }
  }

  lemma OrderedNext(log: seq<Event>, e: Event)
    requires Ordered(log) && MayFollow(log, e)
    ensures Ordered(log + [e])
  {
    hide RanReq, AtMostOnce, OnlyAfter, UnmountRunsLast, WaitedForAll;
    OnceNext(log, ClosedStdin, e);
    OnceNext(log, WaitedAll, e);
    OnceNext(log, Ran(HUnmount), e);
    OnceNext(log, ClosedStdout, e);
    OnceNext(log, ClosedDone, e);
    AfterNext(log, ClosedStdin, WaitedAll, e);
    AfterNext(log, WaitedAll, Ran(HUnmount), e);
    AfterNext(log, Ran(HUnmount), ClosedStdout, e);
    AfterNext(log, ClosedStdout, ClosedDone, e);
    LastNext(log, e);
    WaitedNext(log, e);
  }

  lemma NextEvent(s: Sys, st: Step, e: Event)
    requires Enabled(s, st) && Apply(s, st).log == s.log + [e]
    requires CountInv(s) && FlowInv(s) && UnmountInv(s) && LogInv(s)
    ensures MayFollow(s.log, e)
  {
    hide Ordered, Unmounts, RanReq, Line, CountInv, FlowInv, AllRan;
    assert (s.log + [e])[|s.log|] == e;
    if st.Run? {
      LineLetGo(s, Choosing);
      One(s.disp.h);
    } else if st.Wait? {
      AllReduced(s);
    }
  }

  lemma AllReduced(s: Sys)
    requires CountInv(s) && FlowInv(s) && s.wg == 0
    ensures AllRan(s.log)
  {
    hide Reqs, Line;
    SubsetSize(s.done, s.counted);
    forall rq | Counted(rq) in s.log ensures Ran(HReq(rq.id, rq.names)) in s.log {
      assert rq == Request(rq.id, rq.names);
      assert CountedReq(s.log, rq.id);
      var names :| Ran(HReq(rq.id, names)) in s.log;
      RanAsCounted(s, rq, names);
    }
  }

  /** Which events the log holds by now. */
  ghost predicate Holds(s: Sys) {
    && (ClosedStdin in s.log <==> Phase(s) >= 2)
    && (WaitedAll in s.log <==> Phase(s) >= 3)
    && (Ran(HUnmount) in s.log <==> s.unmounted)
    && (ClosedStdout in s.log <==> Phase(s) >= 6)
    && (ClosedDone in s.log <==> Phase(s) >= 7)
  }

  lemma HoldsSame(s: Sys, st: Step)
    requires Enabled(s, st) && Holds(s) && (s.holder != Free ==> s.closed)
    requires Apply(s, st).log == s.log
    ensures Holds(Apply(s, st))
  {
    hide Phase;
    QuietPhase(s, st);
  }

  /** A step that leaves no event crosses none of the phases that leave one. */
  lemma QuietPhase(s: Sys, st: Step)
    requires Enabled(s, st) && Apply(s, st).log == s.log && (s.holder != Free ==> s.closed)
    ensures Phase(Apply(s, st)) == Phase(s) || (Phase(s), Phase(Apply(s, st))) in {(0, 1), (3, 4), (4, 5)}
    ensures Apply(s, st).unmounted == s.unmounted
  {
    hide Req;
    assert forall e: Event :: |s.log + [e]| != |s.log|;
  }

  lemma HoldsNext(s: Sys, st: Step, e: Event)
    requires Enabled(s, st) && Holds(s) && (s.holder != Free ==> s.closed)
    requires Apply(s, st).log == s.log + [e]
    ensures Holds(Apply(s, st))
  {
    hide Phase;
    EventPhase(s, st, e);
    InNext(s.log, e, ClosedStdin);
    InNext(s.log, e, WaitedAll);
    InNext(s.log, e, Ran(HUnmount));
    InNext(s.log, e, ClosedStdout);
    InNext(s.log, e, ClosedDone);
  }

  lemma InNext(log: seq<Event>, e: Event, x: Event)
    ensures x in log + [e] <==> x in log || x == e
  {
  }

  /** Each event of shutdown takes it one phase on; the others leave the phase. */
  lemma EventPhase(s: Sys, st: Step, e: Event)
    requires Enabled(s, st) && Apply(s, st).log == s.log + [e] && (s.holder != Free ==> s.closed)
    ensures Phase(Apply(s, st)) == Phase(s) + if e in [ClosedStdin, WaitedAll, ClosedStdout, ClosedDone] then 1 else 0
    ensures e == ClosedStdin ==> Phase(s) == 1
    ensures e == WaitedAll ==> Phase(s) == 2
    ensures e == ClosedStdout ==> Phase(s) == 5
    ensures e == ClosedDone ==> Phase(s) == 6
    ensures Apply(s, st).unmounted == (s.unmounted || e == Ran(HUnmount))
  {
    assert (s.log + [e])[|s.log|] == e;
  }

  lemma KeepLog(s: Sys, st: Step)
    requires Enabled(s, st) && CountInv(s) && FlowInv(s) && UnmountInv(s) && LogInv(s)
    ensures LogInv(Apply(s, st))
  {
    hide Ordered, Holds, CountInv, FlowInv;
    var log' := Apply(s, st).log;
    if log' == s.log {
      HoldsSame(s, st);
    } else {
      OneEvent(s, st);
      var e := log'[|s.log|];
      HoldsNext(s, st, e);
      NextEvent(s, st, e);
      OrderedNext(s.log, e);
    }
  }

  lemma OneEvent(s: Sys, st: Step)
    requires Enabled(s, st) && Apply(s, st).log != s.log
    ensures |Apply(s, st).log| == |s.log| + 1
    ensures Apply(s, st).log == s.log + [Apply(s, st).log[|s.log|]]
  {
  }

  ghost predicate Inv(s: Sys) {
    CountInv(s) && FlowInv(s) && UnmountInv(s) && LogInv(s) && ActsInv(s)
  }

  // ---------------------------------------------------------------- the actions of a run

  function Named(names: seq<string>): (acts: seq<R.Action>)
    ensures |acts| == |names| && forall k | 0 <= k < |names| :: acts[k] == R.Other(names[k])
  {
    seq(|names|, k requires 0 <= k < |names| => R.Other(names[k]))
  }

  /** The actions a handler reduces; no request can name the initial or the unmount action. */
  function EventActs(e: Event): seq<R.Action> {
    match e
    case RanInit => [R.InitAction]
    case Ran(HReq(_, names)) => Named(names)
    case Ran(HAct(name)) => [R.Other(name)]
    case Ran(HUnmount) => [R.UnmountAction]
    case _ => []
  }

  function LogActs(log: seq<Event>): seq<R.Action> {
    if log == [] then [] else LogActs(log[..|log| - 1]) + EventActs(log[|log| - 1])
  }

  /** The actions reduced so far begin with the initial one and end at the unmount action. */
  ghost predicate ActsInv(s: Sys) {
    var acts := LogActs(s.log);
    && R.RunShape(acts)
    && (acts == [] <==> s.disp.NotStarted?)
    && (s.unmounted <==> R.UnmountAction in acts)
  }

  lemma RunShapeNext(acts: seq<R.Action>, more: seq<R.Action>)
    requires R.RunShape(acts)
    requires acts == [] ==> more == [] || more == [R.InitAction]
    requires acts != [] ==> R.InitAction !in more
    requires more != [] ==> R.UnmountAction !in acts
    requires R.UnmountAction in more ==> more == [R.UnmountAction]
    ensures R.RunShape(acts + more)
  {
    forall i | 0 <= i < |acts + more|
      ensures var a: R.Action := (acts + more)[i];
              (a.InitAction? <==> i == 0) && (a.UnmountAction? ==> i == |acts + more| - 1)
    {
      if i < |acts| {
        assert (acts + more)[i] == acts[i] && acts[i] in acts;
      } else {
        assert (acts + more)[i] == more[i - |acts|] && more[i - |acts|] in more;
      }
    }
  }

  lemma MoreActs(s: Sys, st: Step, e: Event)
    requires Enabled(s, st) && Apply(s, st).log == s.log + [e] && UnmountInv(s)
    ensures s.disp.NotStarted? ==> EventActs(e) == if st == Start then [R.InitAction] else []
    ensures !s.disp.NotStarted? ==> R.InitAction !in EventActs(e)
    ensures EventActs(e) != [] ==> !s.unmounted || st == Start
    ensures R.UnmountAction in EventActs(e) ==> EventActs(e) == [R.UnmountAction]
    ensures Apply(s, st).unmounted <==> s.unmounted || R.UnmountAction in EventActs(e)
  {
    hide Unmounts, Line;
    assert (s.log + [e])[|s.log|] == e;
  }

  lemma KeepActs(s: Sys, st: Step)
    requires Enabled(s, st) && UnmountInv(s) && ActsInv(s)
    ensures ActsInv(Apply(s, st))
  {
    hide Reqs, Unmounts, Line, R.RunShape, EventActs, UnmountInv;
    StartsOnce(s, st);
    var log' := Apply(s, st).log;
    if log' != s.log {
      OneEvent(s, st);
      var e := log'[|s.log|];
      assert log'[..|log'| - 1] == s.log;
      MoreActs(s, st, e);
      RunShapeNext(LogActs(s.log), EventActs(e));
    }
  }

  lemma StartsOnce(s: Sys, st: Step)
    requires Enabled(s, st)
    ensures Apply(s, st).disp.NotStarted? <==> s.disp.NotStarted? && st != Start
    ensures Apply(s, st).log == s.log ==> Apply(s, st).unmounted == s.unmounted && st != Start
  {
    assert forall e: Event :: |s.log + [e]| != |s.log|;
  }

  // ---------------------------------------------------------------- the theorems

  lemma {:induction false} FinalInv(s: Sys, steps: seq<Step>)
    requires Inv(s) && Follows(s, steps)
    ensures Inv(Final(s, steps))
    decreases |steps|
  {
    if steps != [] {
      KeepInv(s, steps[0]);
      FinalInv(Apply(s, steps[0]), steps[1..]);
    }
  }

  lemma KeepInv(s: Sys, st: Step)
    requires Enabled(s, st) && Inv(s)
    ensures Inv(Apply(s, st))
  {
    hide CountInv, FlowInv, UnmountInv, LogInv, ActsInv;
    KeepCount(s, st);
    KeepFlow(s, st);
    KeepUnmount(s, st);
    KeepLog(s, st);
    KeepActs(s, st);
  }

  lemma ReachableInv(s: Sys)
    requires Reachable(s)
    ensures Inv(s)
  {
    var steps :| Follows(INITIAL, steps) && Final(INITIAL, steps) == s;
    assert Line(INITIAL) == [];
    FinalInv(INITIAL, steps);
  }

  /**
   * The order of a shutdown, in every interleaving and with any number of concurrent calls: input is closed, the
   * requests counted by then have been reduced when the wait returns, the unmount action runs once and as the last of
   * all, and only then are output and the agent closed.
   */
  lemma ShutdownOrder(s: Sys)
    requires Reachable(s)
    ensures Ordered(s.log)
    ensures s.unmounted <==> Ran(HUnmount) in s.log
    ensures ClosedDone in s.log ==> Ran(HUnmount) in s.log && s.closed
  {
    hide Ordered;
    ReachableInv(s);
  }

  /** The documented lifecycle of a reducer, in every interleaving and for every answer its RCond may give. */
  lemma ReducerLifecycle(s: Sys, ts: seq<R.Turn>)
    requires Reachable(s) && R.Acts(ts) == LogActs(s.log)
    ensures var tr := R.Trace(R.FRESH, ts);
            && R.InitFirst(tr) && R.MountAfterCond(tr) && R.MountedFirst(tr) && R.UnmountLast(tr)
            && R.YesIsAnswered(tr) && R.ReduceAfterYes(tr) && R.ConfigBeforeCond(tr)
            && (R.RUnmount in tr <==> Ran(HUnmount) in s.log && R.Yes(ts))
  {
    hide R.InitFirst, R.MountAfterCond, R.MountedFirst, R.UnmountLast, R.Yes, R.Trace, R.RunShape, R.YesIsAnswered,
      R.ReduceAfterYes, R.ConfigBeforeCond;
    hide CountInv, UnmountInv, LogInv, Ordered, Reachable;
    ReachableInv(s);
    ShutdownOrder(s);
    R.Lifecycle(ts);
    UnmountEnds(ts);
  }

  lemma UnmountEnds(ts: seq<R.Turn>)
    requires R.RunShape(R.Acts(ts))
    ensures R.UnmountAction in R.Acts(ts) <==> ts != [] && ts[|ts| - 1].act.UnmountAction?
  {
    var acts := R.Acts(ts);
    if R.UnmountAction in acts {
      var k :| 0 <= k < |acts| && acts[k] == R.UnmountAction;
      assert k == |ts| - 1;
    }
    assert ts != [] ==> acts[|ts| - 1] == ts[|ts| - 1].act;
  }

  // ---------------------------------------------------------------- the low queue waits

  /** A run with the states it goes through. */
  ghost predicate Passes(ss: seq<Sys>, steps: seq<Step>) {
    && |ss| == |steps| + 1
    && forall k | 0 <= k < |steps| :: Enabled(ss[k], steps[k]) && Apply(ss[k], steps[k]) == ss[k + 1]
  }

  function LowTakes(steps: seq<Step>): nat {
    if steps == [] then 0 else (if steps[0] == TakeLo then 1 else 0) + LowTakes(steps[1..])
  }

  /**
   * While the high queue is not empty, however long, at most one low handler is taken: the one of a dispatcher that
   * had looked before, and none at all when the dispatcher has not looked yet.
   */
  lemma {:induction false} HighFirst(ss: seq<Sys>, steps: seq<Step>)
    requires Passes(ss, steps)
    requires forall k | 0 <= k < |ss| :: ss[k].hi != []
    ensures LowTakes(steps) <= if ss[0].disp == SawEmpty then 1 else 0
    decreases |steps|
  {
    if steps != [] {
      assert Apply(ss[0], steps[0]) == ss[1];
      assert ss[1].hi != [];
      HighFirst(ss[1..], steps[1..]);
    }
  }

  // ---------------------------------------------------------------- shutdown completes

  /** Steps that come from outside: a new request, its end, a new action, a new call. */
  predicate Outside(st: Step) {
    st.Count? || st.End? || st.Dispatch? || st.CallShutdown?
  }

  ghost predicate Stuck(s: Sys) {
    forall st | Enabled(s, st) :: Outside(st)
  }

  /** With the dispatcher alive, nothing is left to take, in hand or with the reader. */
  lemma StuckIsIdle(s: Sys)
    requires Stuck(s)
    ensures !s.disp.Stopped? ==> Line(s) == []
    ensures InHand(s.disp) == [] && !s.disp.NotStarted?
  {
    assert !Enabled(s, Start) && !Enabled(s, See) && !Enabled(s, TakeHi) && !Enabled(s, Check);
    assert !Enabled(s, Run) && !Enabled(s, Finish) && !Enabled(s, Send);
  }

  lemma NoneLeft(s: Sys)
    requires CountInv(s) && !s.unmounted && Line(s) == []
    ensures s.wg == 0
  {
    hide RanReq;
    forall id ensures id !in s.counted - s.done {
      assert multiset(s.counted - s.done)[id] == 0;
    }
    assert s.counted == s.done;
  }

  /** A system that can only be moved from outside has finished every call of shutdown. */
  lemma StuckMeansReturned(s: Sys)
    requires Inv(s) && Stuck(s)
    ensures s.waiting == 0 && s.holder == Free
  {
    hide LogInv, ActsInv, CountInv, FlowInv, Line, Reqs;
    StuckIsIdle(s);
    if !s.disp.Stopped? && !s.unmounted {
      NoneLeft(s);
    }
    assert !Enabled(s, CloseStdin) && !Enabled(s, Wait) && !Enabled(s, SendUnmount);
    assert !Enabled(s, AwaitUnmount) && !Enabled(s, CloseStdout) && !Enabled(s, CloseDone);
    assert !Enabled(s, Lock);
    assert s.disp.Stopped? || |s.hi| == 0 by { HiInLine(s); }
  }

  lemma HiInLine(s: Sys)
    ensures |Line(s)| >= |s.hi|
  {
  }

  function DispatcherWork(d: Dispatcher): nat {
    match d
    case Stopped => 0
    case SawEmpty => 1
    case Choosing => 2
    case NotStarted => 3
    case Finishing(_) => 3
    case Running(_) => 4
    case Took(_) => 5
  }

  function HolderWork(h: Holder): nat {
    match h
    case Free => 0
    case AtClose => 1
    case AtStdout => 2
    case AtDone => 3
    case AtSend => 14
    case AtWait => 15
    case AtStdin => 16
  }

  /** What is still to be done: every handler, and every call, on its way. */
  function Measure(s: Sys): nat {
    DispatcherWork(s.disp) + HolderWork(s.holder) + 6 * |s.hi| + 6 * |s.lo| + 7 * |s.parked| + 30 * s.waiting +
    if s.reader.Holding? then 7 else 0
  }

  lemma UnparkDrops(s: Sys, name: string)
    requires Enabled(s, Unpark(name))
    ensures Measure(Apply(s, Unpark(name))) < Measure(s)
  {
    assert |s.parked - multiset{name}| == |s.parked| - 1;
  }

  lemma QueueDrops(s: Sys, st: Step)
    requires Enabled(s, st) && !Outside(st) && s.holder == Apply(s, st).holder && s.waiting == Apply(s, st).waiting
    ensures Measure(Apply(s, st)) < Measure(s)
  {
    hide HolderWork;
    if st.Unpark? {
      UnparkDrops(s, st.name);
    }
  }

  lemma CallDrops(s: Sys, st: Step)
    requires Enabled(s, st) && !Outside(st) && (s.holder, s.waiting) != (Apply(s, st).holder, Apply(s, st).waiting)
    ensures Measure(Apply(s, st)) < Measure(s)
  {
    hide DispatcherWork;
  }

  lemma MeasureDrops(s: Sys, st: Step)
    requires Enabled(s, st) && !Outside(st)
    ensures Measure(Apply(s, st)) < Measure(s)
  {
    hide Measure;
    if s.holder == Apply(s, st).holder && s.waiting == Apply(s, st).waiting {
      QueueDrops(s, st);
    } else {
      CallDrops(s, st);
    }
  }

  lemma {:induction false} ComesToRest(s: Sys, steps: seq<Step>)
    requires Inv(s) && Follows(s, steps) && forall st | st in steps :: !Outside(st)
    ensures |steps| <= Measure(s)
    ensures Stuck(Final(s, steps)) ==> Final(s, steps).waiting == 0 && Final(s, steps).holder == Free
    decreases |steps|
  {
    hide Inv, Measure, Stuck;
    if steps == [] {
      if Stuck(s) {
        StuckMeansReturned(s);
      }
    } else {
      assert steps[0] in steps;
      MeasureDrops(s, steps[0]);
      KeepInv(s, steps[0]);
      ComesToRest(Apply(s, steps[0]), steps[1..]);
    }
  }

  /**
   * Shutdown completes: left alone, the system comes to rest in a bounded number of steps, however they interleave,
   * and at rest every call of shutdown has returned.
   */
  lemma ShutdownCompletes(s: Sys, steps: seq<Step>)
    requires Reachable(s) && Follows(s, steps) && forall st | st in steps :: !Outside(st)
    ensures |steps| <= Measure(s)
    ensures Stuck(Final(s, steps)) ==> Final(s, steps).waiting == 0 && Final(s, steps).holder == Free
  {
    hide Inv, Measure, Stuck, Reachable;
    ReachableInv(s);
    ComesToRest(s, steps);
  }
}
