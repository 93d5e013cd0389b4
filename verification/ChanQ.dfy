/** The bounded queue that makes room by taking its oldest value, while others receive from it. */
module ChanQs {
  /**
   * The queue with its history: what is in the channel, what was received from it, all values put, and which of them
   * were received or are still there, in that order.
   */
  datatype Q<T> = Q(c: seq<T>, received: seq<T>, puts: seq<T>, kept: seq<nat>)

  ghost predicate Increasing(s: seq<nat>) {
    forall i, j | 0 <= i < j < |s| :: s[i] < s[j]
  }

  /** Received values followed by queued ones are a subsequence of the values put, and they fit. */
  ghost predicate Ok<T>(q: Q<T>, cap: nat) {
    && |q.c| <= cap
    && |q.kept| == |q.received| + |q.c|
    && Increasing(q.kept)
    && forall i | 0 <= i < |q.kept| :: q.kept[i] < |q.puts| && q.puts[q.kept[i]] == (q.received + q.c)[i]
  }

  /** The last value put was received or is queued. */
  ghost predicate HasLatest<T>(q: Q<T>) {
    q.puts != [] ==> q.kept != [] && q.kept[|q.kept| - 1] == |q.puts| - 1
  }

  function Sent<T>(q: Q<T>, v: T): Q<T> {
    Q(q.c + [v], q.received, q.puts + [v], q.kept + [|q.puts|])
  }

  function Taken<T>(q: Q<T>): Q<T>
    requires q.c != [] && |q.kept| > |q.received|
  {
    Q(q.c[1..], q.received, q.puts, q.kept[..|q.received|] + q.kept[|q.received| + 1..])
  }

  /** Others have received the n oldest values. */
  function Consumed<T>(q: Q<T>, n: nat): Q<T>
    requires n <= |q.c|
  {
    Q(q.c[n..], q.received + q.c[..n], q.puts, q.kept)
  }

  lemma ConsumedOk<T>(q: Q<T>, cap: nat, n: nat)
    requires Ok(q, cap) && n <= |q.c|
    ensures Ok(Consumed(q, n), cap) && (HasLatest(q) ==> HasLatest(Consumed(q, n)))
  {
    assert q.received + q.c[..n] + q.c[n..] == q.received + q.c;
  }

  lemma TakenOk<T>(q: Q<T>, cap: nat)
    requires Ok(q, cap) && q.c != []
    ensures Ok(Taken(q), cap)
  {
    var r, k := Taken(q), |q.received|;
    forall i | 0 <= i < |r.kept| ensures r.kept[i] < |r.puts| && r.puts[r.kept[i]] == (r.received + r.c)[i] {
      if i < k {
        assert r.kept[i] == q.kept[i];
      } else {
        assert r.kept[i] == q.kept[i + 1];
        assert (r.received + r.c)[i] == (q.received + q.c)[i + 1];
      }
    }
  }

  lemma SentOk<T>(q: Q<T>, cap: nat, v: T)
    requires Ok(q, cap) && |q.c| < cap
    ensures Ok(Sent(q, v), cap) && HasLatest(Sent(q, v))
  {
    var r := Sent(q, v);
    assert r.received + r.c == q.received + q.c + [v];
  }

  /** What others do before a select, and which case it takes when both are ready. */
  datatype Turn = Turn(consume: nat, receive: bool)

  /** How many values a Put takes out when nobody else receives and every select with a choice goes by the schedule. */
  function Lost(len: nat, cap: nat, receive: nat -> bool, round: nat): nat
    decreases len
  {
    if len < cap && !(len > 0 && receive(round)) then 0
    else if len == 0 then 0
    else 1 + Lost(len - 1, cap, receive, round + 1)
  }

  function Prefers(sched: nat -> Turn): nat -> bool {
    (n: nat) => sched(n).receive
  }

  class ChanQ<T(!new)> {
    const cap: nat
    var c: seq<T>
    var closed: bool
    ghost var received: seq<T>
    ghost var puts: seq<T>
    ghost var kept: seq<nat>

    /** Fewer than one slot is a panic. */
    constructor (cap: nat)
      requires cap >= 1
      ensures this.cap == cap && Valid() && c == [] && !closed && puts == []
    {
      this.cap := cap;
      c, closed, received, puts, kept := [], false, [], [], [];
    }

    ghost function State(): Q<T>
      reads this
    {
      Q(c, received, puts, kept)
    }

    ghost predicate Valid()
      reads this
    {
      cap >= 1 && Ok(State(), cap) && HasLatest(State())
    }

    /** Another goroutine receives values from the channel. */
    method Consume(n: nat) returns (vs: seq<T>)
      requires cap >= 1 && Ok(State(), cap)
      modifies this
      ensures Ok(State(), cap) && closed == old(closed) && puts == old(puts) && kept == old(kept)
      ensures |vs| == (if n < |old(c)| then n else |old(c)|) && vs == old(c)[..|vs|]
      ensures c == old(c)[|vs|..] && received == old(received) + vs
      ensures old(HasLatest(State())) ==> HasLatest(State())
    {
      var k := if n < |c| then n else |c|;
      ConsumedOk(State(), cap, k);
      vs := c[..k];
      c := c[k..];
      received := received + vs;
    }

    /**
     * Puts a value in, whatever others receive meanwhile and whichever case each select takes. It ends after at most
     * one more round than there were values, and then the value is queued or already received.
     */
    method Put(v: T, sched: nat -> Turn) returns (rounds: nat)
      requires Valid()
      modifies this
      ensures Valid() && closed == old(closed)
      ensures old(closed) ==> State() == old(State()) && rounds == 0
      ensures !old(closed) ==> puts == old(puts) + [v] && rounds <= |old(c)| + 1
      ensures !old(closed) ==> c != [] && c[|c| - 1] == v
      ensures old(received) <= received
      ensures !old(closed) && (forall n :: sched(n).consume == 0) ==>
                && rounds == Lost(|old(c)|, cap, Prefers(sched), 0) + 1
                && rounds - 1 <= |old(c)| && c == old(c)[rounds - 1..] + [v]
      ensures old(c) == [] ==> kept == if closed then old(kept) else old(kept) + [|old(puts)|]
    {
      hide Ok, HasLatest;
      rounds := 0;
      if closed {
        return;
      }
      Sizes(State(), cap);
      assert c == old(c)[0..];
      while true
        invariant (forall n :: sched(n).consume == 0) ==> |c| == |old(c)| - rounds && c == old(c)[rounds..]
        invariant (forall n :: sched(n).consume == 0) ==>
                    Lost(|c|, cap, Prefers(sched), rounds) + rounds == Lost(|old(c)|, cap, Prefers(sched), 0)
        invariant !closed && Ok(State(), cap) && puts == old(puts)
        invariant |kept| == |received| + |c| && |c| <= cap
        invariant rounds + |c| <= |old(c)| && old(received) <= received
        invariant old(c) == [] ==> kept == old(kept) && c == []
        decreases |c|
      {
        var turn := sched(rounds);
        var _ := Consume(turn.consume);
        Sizes(State(), cap);
        rounds := rounds + 1;
        var canSend, canReceive := |c| < cap, |c| > 0;
        if canSend && !(canReceive && turn.receive) {
          DoSend(v);
          return;
        }
        DoReceive();
      }
    }

    /** The select sends the value. */
    method DoSend(v: T)
      requires cap >= 1 && Ok(State(), cap) && |c| < cap
      modifies `c, `puts, `kept
      ensures Ok(State(), cap) && HasLatest(State()) && State() == Sent(old(State()), v)
    {
      SentOk(State(), cap, v);
      c, puts, kept := c + [v], puts + [v], kept + [|puts|];
    }

    /** The select receives the oldest value, which is lost. */
    method DoReceive()
      requires Ok(State(), cap) && c != []
      modifies `c, `kept
      ensures Ok(State(), cap) && c == old(c)[1..] && |kept| == |received| + |c|
    {
      TakenOk(State(), cap);
      kept := kept[..|received|] + kept[|received| + 1..];
      c := c[1..];
    }

    lemma Sizes(q: Q<T>, cap: nat)
      requires Ok(q, cap)
      ensures |q.kept| == |q.received| + |q.c| && |q.c| <= cap
    {
    }

    /** Closing again has no effect; the values in the queue stay to be received. */
    method Close()
      requires Valid()
      modifies this
      ensures Valid() && closed && State() == old(State())
    {
      if closed {
        return;
      }
      closed := true;
    }
  }

  // ---------------------------------------------------------------- what a Put may lose

  /**
   * The oldest value is removed not only when there is no space: as long as there is any value at all, the select may
   * take it. A Put is sure to lose nothing exactly when the queue is empty.
   */
  lemma MayLoseIffNotEmpty(len: nat, cap: nat)
    requires 1 <= cap && len <= cap
    ensures (forall receive: nat -> bool :: Lost(len, cap, receive, 0) == 0) <==> len == 0
  {
    if len > 0 {
      assert Lost(len, cap, (n: nat) => true, 0) > 0;
    }
  }

  /** When the select prefers to send, a Put loses a value only if the queue is full, and then just the oldest. */
  lemma LosesOnlyWhenFull(len: nat, cap: nat, round: nat)
    requires 1 <= cap && len <= cap
    ensures Lost(len, cap, (n: nat) => false, round) == if len == cap then 1 else 0
  {
    if len == cap {
      assert Lost(len - 1, cap, (n: nat) => false, round + 1) == 0;
    }
  }
}
