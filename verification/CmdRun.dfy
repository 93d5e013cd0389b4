/** Running the builtin commands of a name on one output stream, which is closed when all of them are done with it. */
module CmdRun {
  import opened Wrappers

  // ---------------------------------------------------------------- which commands run, and with what state

  /** A command makes a state of the state the command before it left. */
  datatype Cmd<!S> = Cmd(name: string, run: S -> S)

  function Named<S>(l: seq<Cmd<S>>, name: string): seq<Cmd<S>> {
    if l == [] then [] else
      Named(l[..|l| - 1], name) + if l[|l| - 1].name == name then [l[|l| - 1]] else []
  }

  /** All commands of the name, in their order, and no other. */
  lemma {:induction false} NamedOrder<S>(l: seq<Cmd<S>>, name: string) returns (at: seq<nat>)
    ensures |at| == |Named(l, name)|
    ensures forall k | 0 <= k < |at| :: at[k] < |l| && Named(l, name)[k] == l[at[k]] && l[at[k]].name == name
    ensures forall j, k | 0 <= j < k < |at| :: at[j] < at[k]
    ensures forall n | 0 <= n < |l| && l[n].name == name :: n in at
  {
    if l == [] {
      at := [];
    } else {
      var n := |l| - 1;
      var before := NamedOrder(l[..n], name);
      at := before + if l[n].name == name then [n] else [];
      forall i | 0 <= i < |l| && l[i].name == name ensures i in at {
        if i < n {
          assert l[..n][i] == l[i];
          assert i in before;
        } else {
          assert at[|at| - 1] == n;
        }
      }
    }
  }

  /** The commands of the list that have the name, then those of the predefined ones, in order. */
  method Filter<S>(cmds: seq<Cmd<S>>, predefined: seq<Cmd<S>>, name: string) returns (r: seq<Cmd<S>>)
    ensures r == Named(cmds, name) + Named(predefined, name)
  {
    r := [];
    var lists := [cmds, predefined];
    for i := 0 to 2
      invariant r == if i == 0 then [] else if i == 1 then Named(cmds, name) else
                       Named(cmds, name) + Named(predefined, name)
    {
      var l := lists[i];
      ghost var before := r;
      for j := 0 to |l|
        invariant r == before + Named(l[..j], name)
      {
        assert l[..j + 1][..j] == l[..j];
        if l[j].name == name {
          r := r + [l[j]];
        }
      }
      assert l[..|l|] == l;
    }
  }

  function Through<S>(l: seq<Cmd<S>>, st: S): S {
    if l == [] then st else l[|l| - 1].run(Through(l[..|l| - 1], st))
  }

  /** Each command is given the state that the one before it left. */
  lemma {:induction false} ThroughStates<S>(l: seq<Cmd<S>>, st: S) returns (states: seq<S>)
    ensures |states| == |l| + 1 && states[0] == st && states[|l|] == Through(l, st)
    ensures forall k | 0 <= k < |l| :: states[k + 1] == l[k].run(states[k])
  {
    if l == [] {
      states := [st];
    } else {
      var before := ThroughStates(l[..|l| - 1], st);
      states := before + [Through(l, st)];
    }
  }

  /** The state goes through all commands of the name; without any, `exec` is run instead. */
  method Run<S>(cmds: seq<Cmd<S>>, predefined: seq<Cmd<S>>, name: string, exec: S -> S, st: S) returns (r: S)
    ensures var l := Named(cmds, name) + Named(predefined, name); r == if l == [] then exec(st) else Through(l, st)
  {
    var l := Filter(cmds, predefined, name);
    if |l| == 0 {
      return exec(st);
    }
    if |l| == 1 {
      assert l[..0] == [];
      return l[0].run(st);
    }
    r := st;
    for i := 0 to |l|
      invariant r == Through(l[..i], st)
    {
      assert l[..i + 1][..i] == l[..i];
      r := l[i].run(r);
    }
    assert l[..|l|] == l;
  }

  // ---------------------------------------------------------------- closing the shared stream

  /** What happened to the references, and to the stream itself. */
  datatype Event = Made(ref: nat) | ClosedRef(ref: nat) | Waited | ClosedStream

  /** Run with several commands; each command may close its reference in any goroutine, any number of times. */
  datatype Sys = Sys(made: nat, once: set<nat>, wg: nat, waited: bool, closed: bool, log: seq<Event>)

  datatype Step = MakeNext | CloseRef(ref: nat) | Wait | CloseStream

  const INITIAL := Sys(0, {}, 0, false, false, [])

  predicate Enabled(n: nat, s: Sys, st: Step) {
    match st
    case MakeNext => s.made < n
    case CloseRef(ref) => ref < s.made
    case Wait => s.made == n && !s.waited && s.wg == 0
    case CloseStream => s.waited && !s.closed
  }

  function Apply(n: nat, s: Sys, st: Step): Sys
    requires Enabled(n, s, st)
  {
    match st
    case MakeNext => s.(made := s.made + 1, wg := s.wg + 1, log := s.log + [Made(s.made)])
    case CloseRef(ref) =>
      // only the first Close of a reference counts
      var s' := s.(log := s.log + [ClosedRef(ref)]);
      if ref in s.once then s' else s'.(once := s.once + {ref}, wg := if s.wg > 0 then s.wg - 1 else 0)
    case Wait => s.(waited := true, log := s.log + [Waited])
    case CloseStream => s.(closed := true, log := s.log + [ClosedStream])
  }

  ghost predicate Follows(n: nat, s: Sys, steps: seq<Step>)
    decreases |steps|
  {
    steps == [] || (Enabled(n, s, steps[0]) && Follows(n, Apply(n, s, steps[0]), steps[1..]))
  }

  function Final(n: nat, s: Sys, steps: seq<Step>): Sys
    requires Follows(n, s, steps)
    decreases |steps|
  {
    if steps == [] then s else Final(n, Apply(n, s, steps[0]), steps[1..])
  }

  function Below(n: nat): set<nat> {
    if n == 0 then {} else Below(n - 1) + {n - 1}
  }

  lemma {:induction false} BelowHas(n: nat)
    ensures |Below(n)| == n && forall k: nat :: k in Below(n) <==> k < n
  {
    if n > 0 {
      BelowHas(n - 1);
    }
  }

  ghost predicate Once(log: seq<Event>, e: Event) {
    forall i, j | 0 <= i < j < |log| && log[i] == e :: log[j] != e
  }

  /** Every reference was closed before the stream. */
  ghost predicate StreamLast(n: nat, log: seq<Event>) {
    forall j, k: nat | 0 <= j < |log| && log[j] == ClosedStream && k < n :: ClosedRef(k) in log[..j]
  }

  ghost predicate Inv(n: nat, s: Sys) {
    && s.made <= n
    && s.once <= Below(s.made)
    && s.wg == s.made - |s.once|
    && (s.waited ==> s.made == n && s.once == Below(n))
    && (s.closed ==> s.waited)
    && (forall k :: k in s.once <==> ClosedRef(k) in s.log)
    && (ClosedStream in s.log <==> s.closed)
    && Once(s.log, ClosedStream) && StreamLast(n, s.log)
  }

  lemma LogNext(n: nat, log: seq<Event>, e: Event)
    requires Once(log, ClosedStream) && StreamLast(n, log)
    requires e == ClosedStream ==> ClosedStream !in log && forall k: nat | k < n :: ClosedRef(k) in log
    ensures Once(log + [e], ClosedStream) && StreamLast(n, log + [e])
    ensures forall x :: x in log + [e] <==> x in log || x == e
  {
    forall j | 0 <= j <= |log| ensures (log + [e])[..j] == log[..j] { }
    assert log[..|log|] == log;
  }

  lemma KeepMake(n: nat, s: Sys)
    requires Inv(n, s) && Enabled(n, s, MakeNext)
    ensures Inv(n, Apply(n, s, MakeNext))
  {
    hide Once, StreamLast;
    LogNext(n, s.log, Made(s.made));
  }

  lemma KeepClose(n: nat, s: Sys, ref: nat)
    requires Inv(n, s) && Enabled(n, s, CloseRef(ref))
    ensures Inv(n, Apply(n, s, CloseRef(ref)))
  {
    hide Once, StreamLast, Below;
    BelowHas(s.made);
    SubsetSize(s.once + {ref}, Below(s.made));
    LogNext(n, s.log, ClosedRef(ref));
  }

  lemma KeepInv(n: nat, s: Sys, st: Step)
    requires Inv(n, s) && Enabled(n, s, st)
    ensures Inv(n, Apply(n, s, st))
  {
    hide Once, StreamLast, Below;
    BelowHas(n);
    match st
    case MakeNext => KeepMake(n, s);
    case CloseRef(ref) => KeepClose(n, s, ref);
    case Wait =>
      SubsetSize(s.once, Below(n));
      LogNext(n, s.log, Waited);
    case CloseStream => LogNext(n, s.log, ClosedStream);
  }

  lemma {:induction false} FinalInv(n: nat, s: Sys, steps: seq<Step>)
    requires Inv(n, s) && Follows(n, s, steps)
    ensures Inv(n, Final(n, s, steps))
    decreases |steps|
  {
    hide Inv;
    if steps != [] {
      KeepInv(n, s, steps[0]);
      FinalInv(n, Apply(n, s, steps[0]), steps[1..]);
    }
  }

  lemma {:induction false} ClosedAsAsked(n: nat, s: Sys, steps: seq<Step>, ref: nat)
    requires Follows(n, s, steps)
    ensures ClosedRef(ref) in Final(n, s, steps).log <==> ClosedRef(ref) in s.log || CloseRef(ref) in steps
    decreases |steps|
  {
    if steps != [] {
      ClosedAsAsked(n, Apply(n, s, steps[0]), steps[1..], ref);
      assert steps == [steps[0]] + steps[1..];
    }
  }

  /**
   * In every interleaving, repeated closes included: the stream is closed at most once, only after every reference was
   * closed, and as soon as they all are, nothing keeps Run from closing it.
   */
  lemma SharedStreamClosedOnce(n: nat, steps: seq<Step>)
    requires Follows(n, INITIAL, steps)
    ensures var s := Final(n, INITIAL, steps);
            && Once(s.log, ClosedStream) && StreamLast(n, s.log)
            && (s.made == n && !s.waited ==> (Enabled(n, s, Wait) <==> forall k: nat | k < n :: CloseRef(k) in steps))
            && (s.waited && !s.closed ==> Enabled(n, s, CloseStream))
  {
    assert Inv(n, INITIAL);
    FinalInv(n, INITIAL, steps);
    var s := Final(n, INITIAL, steps);
    BelowHas(n);
    SubsetSize(s.once, Below(s.made));
    forall k: nat | k < n ensures k in s.once <==> CloseRef(k) in steps {
      ClosedAsAsked(n, INITIAL, steps, k);
    }
  }

  // ---------------------------------------------------------------- the stream

  datatype CmdOutput = CmdOutput(fd: string, output: string, close: bool)

  function Bytes(l: seq<CmdOutput>): string {
    if l == [] then "" else Bytes(l[..|l| - 1]) + l[|l| - 1].output
  }

  class CmdOut {
    const fd: string
    const dispatches: bool              // whether there is a dispatcher
    var buf: string
    var closed: bool
    ghost var dispatched: seq<CmdOutput>
    ghost var accepted: string

    constructor (fd: string, dispatches: bool)
      ensures this.fd == fd && this.dispatches == dispatches
      ensures Valid() && !closed && accepted == "" && dispatched == []
    {
      this.fd, this.dispatches := fd, dispatches;
      buf, closed, dispatched, accepted := "", false, [], "";
    }

    /** No byte is lost, repeated or moved. */
    ghost predicate Valid()
      reads this
    {
      Bytes(dispatched) + buf == accepted
    }

    method Write(p: string) returns (n: nat, ok: bool)
      requires Valid()
      modifies this
      ensures Valid() && closed == old(closed) && dispatched == old(dispatched)
      ensures ok == !closed && n == if ok then |p| else 0
      ensures accepted == if ok then old(accepted) + p else old(accepted)
    {
      if closed {
        return 0, false;
      }
      buf := buf + p;
      accepted := accepted + p;
      return |p|, true;
    }

    /** Closing flushes, also when it fails; the close is told to the dispatcher. */
    method Close() returns (ok: bool)
      requires Valid()
      modifies this
      ensures Valid() && closed && ok == !old(closed) && accepted == old(accepted)
      ensures dispatches && fd != "" ==>
                && buf == "" && Bytes(dispatched) == accepted
                && dispatched == old(dispatched) + [CmdOutput(fd, old(buf), true)]
    {
      ok := !closed;
      closed := true;
      Flush();
    }

    /** What is buffered is dispatched, unless there is nothing to say; without a dispatcher or a name it stays. */
    method Flush()
      requires Valid()
      modifies this
      ensures Valid() && closed == old(closed) && accepted == old(accepted)
      ensures !dispatches || fd == "" ==> buf == old(buf) && dispatched == old(dispatched)
      ensures dispatches && fd != "" ==>
                && buf == ""
                && dispatched == old(dispatched) +
                     if old(buf) != "" || closed then [CmdOutput(fd, old(buf), closed)] else []
    {
      if !dispatches || fd == "" {
        return;
      }
      var out := Output();
      if |out.output| != 0 || out.close {
        dispatched := dispatched + [out];
        assert dispatched[..|dispatched| - 1] == old(dispatched);
      }
    }

    /** Hands the buffer over to the caller. */
    method Output() returns (out: CmdOutput)
      modifies this
      ensures out == CmdOutput(fd, old(buf), closed) && buf == ""
      ensures closed == old(closed) && accepted == old(accepted) && dispatched == old(dispatched)
    {
      out := CmdOutput(fd, buf, closed);
      buf := "";
    }
  }
}
