/** The writer that passes its input on in pieces, as cut by a split function. */
module SplitWriters {
  import opened Wrappers

  /** What a split function returns: the next piece and the rest, if there is a whole piece. */
  datatype Cut = Cut(next: string, rest: string, ok: bool)

  type Split = string -> Cut

  /** A whole piece is not empty and nothing is lost; without one, everything is left. */
  ghost predicate Lawful(split: Split) {
    && (forall s | s != "" && split(s).ok :: split(s).next != "" && split(s).next + split(s).rest == s)
    && (forall s | s != "" && !split(s).ok :: split(s).rest == s)
  }

  function IndexByte(s: string, c: char): (i: int)
    ensures -1 <= i < |s|
    ensures i >= 0 ==> s[i] == c && c !in s[..i]
    ensures i < 0 <==> c !in s
  {
    if s == "" then -1
    else if s[0] == c then 0
    else
      var i := IndexByte(s[1..], c);
      assert s == [s[0]] + s[1..];
      if i < 0 then -1 else
        assert s[..i + 1] == [s[0]] + s[1..][..i];
        i + 1
  }

  function SplitLine(s: string): Cut {
    var i := IndexByte(s, '\n');
    if i < 0 then Cut("", s, false) else Cut(s[..i + 1], s[i + 1..], true)
  }

  function SplitLineOrCR(s: string): Cut {
    var i := IndexByte(s, '\n');
    if i >= 0 then Cut(s[..i + 1], s[i + 1..], true) else
      var j := IndexByte(s, '\r');
      if j < 0 then Cut("", s, false) else Cut(s[..j + 1], s[j + 1..], true)
  }

  lemma BothLawful()
    ensures Lawful(SplitLine) && Lawful(SplitLineOrCR)
  {
  }

  /** All the whole pieces of a buffer, and what is left of it. */
  datatype Pieces = Pieces(list: seq<string>, rest: string)

  function PiecesOf(split: Split, s: string): Pieces
    requires Lawful(split)
    decreases |s|
  {
    if s == "" || !split(s).ok then Pieces([], s) else
      assert |s| == |split(s).next| + |split(s).rest|;
      var more := PiecesOf(split, split(s).rest);
      Pieces([split(s).next] + more.list, more.rest)
  }

  lemma Unroll(split: Split, s: string)
    requires Lawful(split)
    ensures s == "" ==> PiecesOf(split, s) == Pieces([], "")
    ensures s != "" && !split(s).ok ==> split(s).rest == s && PiecesOf(split, s) == Pieces([], s)
    ensures s != "" && split(s).ok ==>
              && split(s).next + split(s).rest == s && |split(s).rest| < |s|
              && PiecesOf(split, s)
                 == Pieces([split(s).next] + PiecesOf(split, split(s).rest).list, PiecesOf(split, split(s).rest).rest)
  {
    if s != "" && split(s).ok {
      assert |s| == |split(s).next| + |split(s).rest|;
    }
  }

  function Join(list: seq<string>): string {
    if list == [] then "" else list[0] + Join(list[1..])
  }

  /** Pieces are only a division of the buffer. */
  lemma {:induction false} PiecesJoin(split: Split, s: string)
    requires Lawful(split)
    ensures Join(PiecesOf(split, s).list) + PiecesOf(split, s).rest == s
    ensures forall p | p in PiecesOf(split, s).list :: p != ""
    decreases |s|
  {
    hide PiecesOf, Lawful;
    Unroll(split, s);
    if s != "" && split(s).ok {
      var x, more := split(s).next, PiecesOf(split, split(s).rest);
      PiecesJoin(split, split(s).rest);
      NotEmpty(split, s);
      assert ([x] + more.list)[1..] == more.list;
      assert x + Join(more.list) + more.rest == x + (Join(more.list) + more.rest);
    }
  }

  lemma NotEmpty(split: Split, s: string)
    requires Lawful(split) && s != "" && split(s).ok
    ensures split(s).next != ""
  {
  }

  lemma {:induction false} JoinAppend(a: seq<string>, b: seq<string>)
    ensures Join(a + b) == Join(a) + Join(b)
  {
    if a == [] {
      assert a + b == b;
    } else {
      assert (a + b)[1..] == a[1..] + b;
      JoinAppend(a[1..], b);
    }
  }

  predicate IsLine(p: string) {
    p != "" && p[|p| - 1] == '\n' && '\n' !in p[..|p| - 1]
  }

  predicate IsReturned(p: string) {
    p != "" && p[|p| - 1] == '\r' && '\r' !in p[..|p| - 1] && '\n' !in p
  }

  lemma OneLine(s: string)
    ensures SplitLine(s).ok ==> IsLine(SplitLine(s).next)
    ensures !SplitLine(s).ok ==> '\n' !in s
  {
    hide IndexByte;
  }

  /** Cut at lines, a piece is a line with its newline, and no newline is left over. */
  lemma {:induction false} LinePieces(s: string)
    ensures forall p | p in PiecesOf(SplitLine, s).list :: IsLine(p)
    ensures '\n' !in PiecesOf(SplitLine, s).rest
    decreases |s|
  {
    hide SplitLine, PiecesOf, IsLine, Lawful;
    BothLawful();
    Unroll(SplitLine, s);
    if s != "" {
      OneLine(s);
      if SplitLine(s).ok {
        LinePieces(SplitLine(s).rest);
      }
    }
  }

  lemma OneReturn(s: string)
    ensures SplitLineOrCR(s).ok ==>
              if '\n' in s then IsLine(SplitLineOrCR(s).next) else IsReturned(SplitLineOrCR(s).next)
    ensures !SplitLineOrCR(s).ok ==> '\n' !in s && '\r' !in s
  {
    hide IndexByte;
    var i := IndexByte(s, '\n');
    if i < 0 {
      var j := IndexByte(s, '\r');
      if j >= 0 {
        assert s[..j + 1][..j] == s[..j];
      }
    } else {
      assert s[..i + 1][..i] == s[..i];
    }
  }

  /** Cut at carriage returns too, a piece ends with the first newline, if there is one in what is left, and with the
      first carriage return otherwise; neither is left over. */
  lemma {:induction false} ReturnPieces(s: string)
    ensures var r := PiecesOf(SplitLineOrCR, s);
            && (forall p | p in r.list :: IsLine(p) || IsReturned(p))
            && (r.list != [] ==> if '\n' in s then IsLine(r.list[0]) else IsReturned(r.list[0]))
            && '\n' !in r.rest && '\r' !in r.rest
    decreases |s|
  {
    hide SplitLineOrCR, PiecesOf, IsLine, IsReturned, Lawful;
    BothLawful();
    Unroll(SplitLineOrCR, s);
    if s != "" {
      OneReturn(s);
      if SplitLineOrCR(s).ok {
        ReturnPieces(SplitLineOrCR(s).rest);
      }
    }
  }

  // ---------------------------------------------------------------- the writer

  datatype Error = SinkError | ClosedError

  /** Where the pieces go. Every call may fail; a failing write may have taken some of its bytes. */
  class Sink {
    const fails: nat -> Option<nat>
    const flushFails: nat -> bool
    const closeFails: bool
    var calls: nat
    ghost var pieces: seq<string>       // the ones taken whole
    ghost var got: string
    ghost var flushes: nat
    ghost var flushed: string           // what it had got at the last flush
    ghost var closes: nat

    constructor (fails: nat -> Option<nat>, flushFails: nat -> bool, closeFails: bool)
      ensures pieces == [] && got == "" && flushes == closes == 0
    {
      this.fails, this.flushFails, this.closeFails := fails, flushFails, closeFails;
      calls, pieces, got, flushes, flushed, closes := 0, [], "", 0, "", 0;
    }

    method Write(p: string) returns (err: Option<Error>)
      modifies this
      ensures closes == old(closes) && flushes == old(flushes) && flushed == old(flushed)
      ensures err == None ==> pieces == old(pieces) + [p] && got == old(got) + p
      ensures err != None ==> err == Some(SinkError) && pieces == old(pieces)
      ensures err != None ==> exists k | 0 <= k <= |p| :: got == old(got) + p[..k]
    {
      calls := calls + 1;
      match fails(calls) {
        case None =>
          pieces, got := pieces + [p], got + p;
          return None;
        case Some(k) =>
          got := got + p[..if k < |p| then k else |p|];
          return Some(SinkError);
      }
    }

    method Flush() returns (err: Option<Error>)
      modifies this
      ensures flushes == old(flushes) + 1 && flushed == got && calls == old(calls) + 1
      ensures closes == old(closes) && pieces == old(pieces) && got == old(got)
      ensures err == if flushFails(calls) then Some(SinkError) else None
    {
      calls, flushes, flushed := calls + 1, flushes + 1, got;
      err := if flushFails(calls) then Some(SinkError) else None;
    }

    method Close() returns (err: Option<Error>)
      modifies this
      ensures closes == old(closes) + 1 && flushes == old(flushes) && flushed == old(flushed)
      ensures pieces == old(pieces) && got == old(got)
      ensures err == if closeFails then Some(SinkError) else None
    {
      closes := closes + 1;
      err := if closeFails then Some(SinkError) else None;
    }
  }

  /** What a Write starts from: the buffer with the new input, and the sink before. */
  datatype Delivery = Delivery(buf: string, got: string, pieces: seq<string>)

  /** `done` has been delivered, `rest` has not, and together they are all there is to deliver. */
  ghost predicate Delivering(
    split: Split, was: Delivery, done: seq<string>, rest: string, got: string, pieces: seq<string>)
    requires Lawful(split)
  {
    && was.buf == Join(done) + rest
    && got == was.got + Join(done)
    && pieces == was.pieces + done
    && PiecesOf(split, was.buf) == Pieces(done + PiecesOf(split, rest).list, PiecesOf(split, rest).rest)
  }

  lemma DeliverNone(split: Split, was: Delivery)
    requires Lawful(split)
    ensures Delivering(split, was, [], was.buf, was.got, was.pieces)
  {
    assert was.buf == "" + was.buf && was.got == was.got + "" && was.pieces == was.pieces + [];
    assert [] + PiecesOf(split, was.buf).list == PiecesOf(split, was.buf).list;
  }

  lemma DeliverNext(split: Split, was: Delivery, done: seq<string>, rest: string, got: string, pieces: seq<string>)
    requires Lawful(split) && Delivering(split, was, done, rest, got, pieces) && rest != "" && split(rest).ok
    ensures Delivering(split, was, done + [split(rest).next], split(rest).rest, got + split(rest).next,
                       pieces + [split(rest).next])
    ensures got + split(rest).next + split(rest).rest == was.got + was.buf
    ensures |done| < |PiecesOf(split, was.buf).list| && PiecesOf(split, was.buf).list[|done|] == split(rest).next
    ensures pieces == was.pieces + PiecesOf(split, was.buf).list[..|done|]
  {
    hide PiecesOf, Lawful, Join;
    Unroll(split, rest);
    var x := split(rest).next;
    var more := PiecesOf(split, split(rest).rest).list;
    JoinAppend(done, [x]);
    JoinOne(x);
    Assoc(Join(done), x, split(rest).rest);
    Assoc(was.got, Join(done), x);
    Assoc(was.got, Join(done) + x, split(rest).rest);
    Assoc(was.pieces, done, [x]);
    Assoc(done, [x], more);
    Middle(done, x, more);
  }

  lemma Assoc<T>(a: seq<T>, b: seq<T>, c: seq<T>)
    ensures a + (b + c) == a + b + c
  {
  }

  lemma Middle<T>(a: seq<T>, x: T, b: seq<T>)
    ensures (a + [x] + b)[|a|] == x && (a + [x] + b)[..|a|] == a
  {
  }

  lemma JoinOne(x: string)
    ensures Join([x]) == x
  {
    assert x + "" == x;
  }

  lemma DeliverPart(was: Delivery, before: string, x: string, rest: string, got: string)
    requires before + x + rest == was.got + was.buf
    requires exists k | 0 <= k <= |x| :: got == before + x[..k]
    ensures got <= was.got + was.buf
  {
    var k :| 0 <= k <= |x| && got == before + x[..k];
    assert before + x + rest == (before + x[..k]) + (x[k..] + rest) by {
      assert x == x[..k] + x[k..];
    }
  }

  lemma DeliverAll(split: Split, was: Delivery, done: seq<string>, rest: string, got: string, pieces: seq<string>)
    requires Lawful(split) && Delivering(split, was, done, rest, got, pieces) && (rest == "" || !split(rest).ok)
    ensures pieces == was.pieces + PiecesOf(split, was.buf).list && rest == PiecesOf(split, was.buf).rest
    ensures got + rest == was.got + was.buf
    ensures |rest| >= |was.buf| ==> rest == was.buf
  {
    hide PiecesOf, Join;
    Unroll(split, rest);
    assert done + [] == done;
    assert got + rest == was.got + (Join(done) + rest);
    assert |rest| >= |was.buf| ==> Join(done) == "" && "" + rest == rest;
  }

  class SplitWriter {
    const split: Split
    const sink: Sink
    var err: Option<Error>
    var buf: string
    ghost var accepted: string          // all input of the writes that were not refused

    /** What was delivered is a prefix of the input; while there is no error, the buffer holds the rest. */
    ghost predicate Valid()
      reads this, sink
    {
      && Lawful(split)
      && sink.got <= accepted
      && (err == None ==> sink.got + buf == accepted)
      && sink.closes == if err == Some(ClosedError) then 1 else 0
    }

    constructor (split: Split, sink: Sink)
      requires Lawful(split) && sink.got == "" && sink.closes == 0
      ensures Valid() && this.split == split && this.sink == sink
      ensures err == None && buf == "" && accepted == ""
    {
      this.split, this.sink := split, sink;
      err, buf, accepted := None, "", "";
    }

    /**
     * After an error nothing is accepted. Otherwise the whole pieces of the buffer and the input are delivered, up to
     * the first error; then what is returned is the length of the piece that failed, not what was taken of the input.
     */
    method Write(p: string) returns (n: nat, e: Option<Error>)
      requires Valid()
      modifies this, sink
      ensures Valid() && e == err && sink.flushes == old(sink.flushes)
      ensures accepted == if old(err) == None then old(accepted) + p else old(accepted)
      ensures old(err) != None ==>
                && n == 0 && err == old(err) && buf == old(buf)
                && sink.got == old(sink.got) && sink.pieces == old(sink.pieces)
      ensures old(err) == None && err == None ==>
                && n == |p|
                && Pieces(sink.pieces, buf)
                   == Pieces(old(sink.pieces) + PiecesOf(split, old(buf) + p).list, PiecesOf(split, old(buf) + p).rest)
      ensures old(err) == None && err != None ==>
                exists j :: 0 <= j < |PiecesOf(split, old(buf) + p).list|
                  && n == |PiecesOf(split, old(buf) + p).list[j]|
                  && sink.pieces == old(sink.pieces) + PiecesOf(split, old(buf) + p).list[..j]
    {
      hide Lawful, PiecesOf, Delivering;
      if err != None {
        return 0, err;
      }
      accepted := accepted + p;
      buf := buf + p;
      var rest := buf;
      ghost var was := Delivery(buf, sink.got, sink.pieces);
      ghost var done := [];
      DeliverNone(split, was);
      while |rest| != 0
        invariant err == None && buf == was.buf && accepted == was.got + was.buf && sink.closes == 0
        invariant sink.flushes == old(sink.flushes)
        invariant Delivering(split, was, done, rest, sink.got, sink.pieces)
        decreases |rest|
      {
        Unroll(split, rest);
        var cut := split(rest);
        if !cut.ok {
          rest := cut.rest;
          break;
        }
        DeliverNext(split, was, done, rest, sink.got, sink.pieces);
        rest := cut.rest;
        ghost var before := sink.got;
        err := sink.Write(cut.next);
        if err != None {
          DeliverPart(was, before, cut.next, rest, sink.got);
          return |cut.next|, err;
        }
        done := done + [cut.next];
      }
      DeliverAll(split, was, done, rest, sink.got, sink.pieces);
      if |rest| == 0 {
        buf := "";
      } else if |rest| < |buf| {
        buf := rest;
      }
      return |p|, None;
    }

    method Flush() returns (e: Option<Error>)
      requires Valid()
      modifies this, sink
      ensures Valid() && e == err && accepted == old(accepted) && buf == old(buf)
      ensures sink.got == old(sink.got) && sink.pieces == old(sink.pieces)
      ensures sink.flushes == old(sink.flushes) + if old(err) == None then 1 else 0
      ensures err == if old(err) == None && sink.flushFails(sink.calls) then Some(SinkError) else old(err)
    {
      e := DoFlush(false);
    }

    /** The sink is flushed once, after what closing delivers and also when that fails, unless there was an error. */
    method DoFlush(closing: bool) returns (e: Option<Error>)
      requires Valid()
      modifies this, sink
      ensures sink.flushes == old(sink.flushes) + if old(err) == None then 1 else 0
      ensures old(err) == None ==> sink.flushed == sink.got
      ensures old(err) == None && sink.flushFails(sink.calls) ==> err == Some(SinkError)
      ensures old(err) == None && !closing && !sink.flushFails(sink.calls) ==> err == None
      ensures e == err && accepted == old(accepted) && sink.closes == old(sink.closes)
      ensures Lawful(split) && sink.got <= accepted
      ensures old(err) != None ==> err == old(err) && buf == old(buf) && sink.got == old(sink.got)
      ensures err == None ==> sink.got == if closing then accepted else old(sink.got)
      ensures err == Some(ClosedError) ==> old(err) == Some(ClosedError)
      ensures !closing ==> buf == old(buf) && sink.got == old(sink.got) && sink.pieces == old(sink.pieces)
      ensures closing && old(err) == None && err == None && old(buf) != "" ==>
                sink.pieces == old(sink.pieces) + [old(buf)]
    {
      if err != None {
        return err;
      }
      if closing && |buf| != 0 {
        err := sink.Write(buf);
        buf := "";
      }
      var e' := sink.Flush();
      if e' != None && err == None {
        err := e';
      }
      return err;
    }

    /** The sink is closed once, by the first Close; a Close without error has delivered all the input. */
    method Close() returns (e: Option<Error>)
      requires Valid()
      modifies this, sink
      ensures Valid() && err == Some(ClosedError) && accepted == old(accepted)
      ensures sink.closes == 1
      ensures sink.flushes == old(sink.flushes) + if old(err) == None then 1 else 0
      ensures old(err) == None ==> sink.flushed == sink.got
      ensures old(err) != Some(ClosedError) && sink.closeFails ==> e == Some(SinkError)
      ensures e == None ==> sink.got == accepted
      ensures old(err) == Some(ClosedError) ==> e == err && sink.got == old(sink.got)
      ensures e == None && old(buf) != "" ==> sink.pieces == old(sink.pieces) + [old(buf)]
    {
      if err == Some(ClosedError) {
        return err;
      }
      var flushErr := DoFlush(true);
      err := Some(ClosedError);
      var closeErr := sink.Close();
      if closeErr != None {
        return closeErr;
      }
      return flushErr;
    }
  }

  // ---------------------------------------------------------------- chunks

  /** What a sink that never fails has been given, and the buffer, after one more write. */
  function Fed(split: Split, chunks: seq<string>): Pieces
    requires Lawful(split)
  {
    if chunks == [] then Pieces([], "") else
      var before := Fed(split, chunks[..|chunks| - 1]);
      var more := PiecesOf(split, before.rest + chunks[|chunks| - 1]);
      Pieces(before.list + more.list, more.rest)
  }

  /** On these strings, what a split function cuts off does not depend on what comes later. */
  ghost predicate StableOn(split: Split, fits: string -> bool) {
    && (forall a, b | fits(a + b) :: fits(a))
    && (forall a, b | fits(a + b) && a != "" && split(a).ok ::
          split(a + b) == Cut(split(a).next, split(a).rest + b, true) && fits(split(a).rest + b))
  }

  lemma {:induction false} LaterPieces(split: Split, fits: string -> bool, a: string, b: string)
    requires Lawful(split) && StableOn(split, fits) && fits(a + b)
    ensures var first := PiecesOf(split, a);
            var second := PiecesOf(split, first.rest + b);
            PiecesOf(split, a + b) == Pieces(first.list + second.list, second.rest) && fits(first.rest + b)
    decreases |a|
  {
    hide PiecesOf, Lawful;
    Unroll(split, a);
    if a != "" && split(a).ok {
      var c := split(a);
      Unroll(split, a + b);
      LaterPieces(split, fits, c.rest, b);
      var first := PiecesOf(split, c.rest);
      var second := PiecesOf(split, first.rest + b);
      assert [c.next] + (first.list + second.list) == ([c.next] + first.list) + second.list;
    } else {
      assert [] + PiecesOf(split, a + b).list == PiecesOf(split, a + b).list;
    }
  }

  lemma {:induction false} FedIsWhole(split: Split, fits: string -> bool, chunks: seq<string>)
    requires Lawful(split) && StableOn(split, fits) && fits(Join(chunks))
    ensures Fed(split, chunks) == PiecesOf(split, Join(chunks))
  {
    if chunks != [] {
      var before, c := chunks[..|chunks| - 1], chunks[|chunks| - 1];
      assert chunks == before + [c] && Join([c]) == c;
      JoinAppend(before, [c]);
      FedIsWhole(split, fits, before);
      LaterPieces(split, fits, Join(before), c);
    }
  }

  lemma IndexStays(a: string, b: string, c: char)
    requires c in a
    ensures IndexByte(a + b, c) == IndexByte(a, c)
  {
    var i, j := IndexByte(a, c), IndexByte(a + b, c);
    assert (a + b)[i] == c;
    forall k | 0 <= k < j ensures (a + b)[k] != c { assert (a + b)[..j][k] == (a + b)[k]; }
    forall k | 0 <= k < i ensures (a + b)[k] != c { assert a[..i][k] == (a + b)[k]; }
  }

  /** Cut at lines, the pieces do not depend on how the input was divided into writes. */
  lemma LinesDoNotDependOnChunks(chunks: seq<string>)
    ensures Lawful(SplitLine) && Fed(SplitLine, chunks) == PiecesOf(SplitLine, Join(chunks))
  {
    BothLawful();
    var any := (s: string) => true;
    forall a, b | any(a + b) && a != "" && SplitLine(a).ok
      ensures SplitLine(a + b) == Cut(SplitLine(a).next, SplitLine(a).rest + b, true)
    {
      IndexStays(a, b, '\n');
      CutAt(a, b, IndexByte(a, '\n'));
    }
    FedIsWhole(SplitLine, any, chunks);
  }

  lemma CutAt(a: string, b: string, i: nat)
    requires i < |a|
    ensures (a + b)[..i + 1] == a[..i + 1] && (a + b)[i + 1..] == a[i + 1..] + b
  {
  }

  /** No carriage return comes before a newline. */
  predicate ReturnsLast(s: string) {
    forall i, j | 0 <= i < j < |s| && s[i] == '\r' :: s[j] != '\n'
  }

  lemma ReturnsLastStable()
    ensures StableOn(SplitLineOrCR, ReturnsLast)
  {
    forall a, b | ReturnsLast(a + b) ensures ReturnsLast(a) {
      ReturnsLastParts(a, b);
    }
    forall a, b | ReturnsLast(a + b) && a != "" && SplitLineOrCR(a).ok
      ensures SplitLineOrCR(a + b) == Cut(SplitLineOrCR(a).next, SplitLineOrCR(a).rest + b, true)
      ensures ReturnsLast(SplitLineOrCR(a).rest + b)
    {
      ReturnsLastCut(a, b);
    }
  }

  lemma ReturnsLastParts(a: string, b: string)
    requires ReturnsLast(a + b)
    ensures ReturnsLast(a) && ReturnsLast(b)
    ensures '\r' in a ==> '\n' !in b
  {
    var s := a + b;
    assert forall i | 0 <= i < |a| :: s[i] == a[i];
    assert forall i | 0 <= i < |b| :: s[|a| + i] == b[i];
  }

  lemma ReturnsLastCut(a: string, b: string)
    requires ReturnsLast(a + b) && SplitLineOrCR(a).ok
    ensures SplitLineOrCR(a + b) == Cut(SplitLineOrCR(a).next, SplitLineOrCR(a).rest + b, true)
    ensures ReturnsLast(SplitLineOrCR(a).rest + b)
  {
    hide ReturnsLast;
    ReturnsLastParts(a, b);
    if '\n' in a {
      IndexStays(a, b, '\n');
    } else {
      IndexStays(a, b, '\r');
      assert '\n' !in a + b;
    }
    var i := |SplitLineOrCR(a).next| - 1;
    CutAt(a, b, i);
    assert a + b == (a + b)[..i + 1] + (a + b)[i + 1..];
    ReturnsLastParts((a + b)[..i + 1], (a + b)[i + 1..]);
  }

  /** While a newline is still to come, every piece ends in one. */
  lemma {:induction false} PieceEndsInNewline(s: string, front: seq<string>, tail: string)
    requires Lawful(SplitLineOrCR) && front != [] && front <= PiecesOf(SplitLineOrCR, s).list
    requires s == Join(front) + tail && '\n' in tail
    ensures EndsIn(front[|front| - 1], '\n')
    decreases |front|
  {
    hide PiecesOf, Lawful, SplitLineOrCR, EndsIn;
    Unroll(SplitLineOrCR, s);
    NewlineFirst(s);
    var c := SplitLineOrCR(s);
    var more := PiecesOf(SplitLineOrCR, c.rest).list;
    assert '\n' in s;
    assert front[0] == c.next;
    if |front| > 1 {
      Behind(c.next, c.rest, Join(front[1..]), tail);
      assert front[1..] <= more;
      PieceEndsInNewline(c.rest, front[1..], tail);
    }
  }

  lemma Behind(x: string, rest: string, joined: string, tail: string)
    requires x + rest == x + joined + tail
    ensures rest == joined + tail
  {
    assert rest == (x + rest)[|x|..];
    assert joined + tail == (x + joined + tail)[|x|..];
  }

  lemma NewlineFirst(s: string)
    requires '\n' in s
    ensures s != "" && SplitLineOrCR(s).ok && EndsIn(SplitLineOrCR(s).next, '\n')
  {
  }

  predicate EndsIn(s: string, c: char) {
    s != "" && s[|s| - 1] == c
  }

  /** Input that ends in a carriage return is passed on to the last byte. */
  lemma {:induction false} NothingLeft(s: string)
    requires Lawful(SplitLineOrCR) && EndsIn(s, '\r')
    ensures PiecesOf(SplitLineOrCR, s).rest == "" && PiecesOf(SplitLineOrCR, s).list != []
    decreases |s|
  {
    Unroll(SplitLineOrCR, s);
    var c := SplitLineOrCR(s);
    assert '\r' in s;
    if c.rest != "" {
      assert c.rest[|c.rest| - 1] == s[|s| - 1];
      NothingLeft(c.rest);
    } else {
      Unroll(SplitLineOrCR, "");
    }
  }

  /** Divided after the carriage return, the input is cut where it is not when it comes in one piece. */
  lemma EarlyReturnMatters(s: string, i: nat)
    requires Lawful(SplitLineOrCR) && i + 1 < |s| && s[i] == '\r' && '\n' in s[i + 1..]
    ensures Join([s[..i + 1], s[i + 1..]]) == s
    ensures Fed(SplitLineOrCR, [s[..i + 1], s[i + 1..]]) != PiecesOf(SplitLineOrCR, s)
  {
    hide PiecesOf, Lawful, SplitLineOrCR, EndsIn;
    var a, b := s[..i + 1], s[i + 1..];
    assert a + b == s && a[i] == '\r';
    JoinAppend([a], [b]);
    JoinOne(a);
    JoinOne(b);
    assert [a] + [b] == [a, b];
    EndsAt(s, i);
    FedTwice(a, b);
    NothingLeft(a);
    PiecesJoin(SplitLineOrCR, a);
    var first := PiecesOf(SplitLineOrCR, a).list;
    assert Join(first) + "" == Join(first);
    var fed := Fed(SplitLineOrCR, [a, b]).list;
    assert fed[..|first|] == first;
    if fed == PiecesOf(SplitLineOrCR, s).list {
      PieceEndsInNewline(s, first, b);
      assert first[|first| - 1] in first;
      LastOfJoin(first);
      OneEnd(a, first[|first| - 1]);
    }
  }

  lemma EndsAt(s: string, i: nat)
    requires i < |s|
    ensures EndsIn(s[..i + 1], s[i])
  {
  }

  lemma OneEnd(s: string, x: string)
    requires EndsIn(s, '\r') && x != "" && EndsIn(s, x[|x| - 1])
    ensures !EndsIn(x, '\n')
  {
  }

  lemma FedTwice(a: string, b: string)
    requires Lawful(SplitLineOrCR)
    ensures var first := PiecesOf(SplitLineOrCR, a);
            Fed(SplitLineOrCR, [a, b]).list == first.list + PiecesOf(SplitLineOrCR, first.rest + b).list
  {
    hide PiecesOf, Lawful;
    assert [a, b][..1] == [a] && [a][..0] == [];
    assert "" + a == a;
    assert Fed(SplitLineOrCR, []) == Pieces([], "");
    assert Fed(SplitLineOrCR, [a]) == PiecesOf(SplitLineOrCR, a);
  }

  lemma {:induction false} LastOfJoin(list: seq<string>)
    requires list != [] && list[|list| - 1] != ""
    ensures var x := list[|list| - 1]; EndsIn(Join(list), x[|x| - 1])
  {
    if |list| == 1 {
      assert Join(list) == list[0] + "" == list[0];
    } else {
      LastOfJoin(list[1..]);
    }
  }

  /**
   * Cut at lines or carriage returns, the pieces are the same for every division of the input into writes exactly when
   * no carriage return comes before a newline.
   */
  lemma ReturnsDependOnChunks(s: string)
    ensures Lawful(SplitLineOrCR)
    ensures ReturnsLast(s) <==>
              forall chunks | Join(chunks) == s :: Fed(SplitLineOrCR, chunks) == PiecesOf(SplitLineOrCR, s)
  {
    hide Lawful, SplitLineOrCR, PiecesOf, Fed, Join;
    BothLawful();
    if ReturnsLast(s) {
      ReturnsLastStable();
      forall chunks | Join(chunks) == s ensures Fed(SplitLineOrCR, chunks) == PiecesOf(SplitLineOrCR, s) {
        FedIsWhole(SplitLineOrCR, ReturnsLast, chunks);
      }
    } else {
      var i, j :| 0 <= i < j < |s| && s[i] == '\r' && s[j] == '\n';
      assert s[i + 1..][j - i - 1] == '\n';
      EarlyReturnMatters(s, i);
    }
  }
}
