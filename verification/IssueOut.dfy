/**
 * The writer that finds issues in the output of a tool, line by line. It remembers the indentation of the last issue as
 * a range of its buffer, which later writes overwrite; so the pieces the output comes in can matter.
 */
module IssueOuts {
  import opened IssueSets
  import opened Wrappers

  type Match = string -> Option<Issue>

  // ---------------------------------------------------------------- lines

  /** The parts between newlines; there is always at least one. */
  function Split(s: string): (lines: seq<string>)
    ensures |lines| > 0
  {
    if s == "" then [""] else
      var init, c := Split(s[..|s| - 1]), s[|s| - 1];
      if c == '\n' then init + [""] else init[..|init| - 1] + [init[|init| - 1] + [c]]
  }

  function Last<T>(l: seq<T>): T
    requires l != []
  {
    l[|l| - 1]
  }

  function Init<T>(l: seq<T>): seq<T>
    requires l != []
  {
    l[..|l| - 1]
  }

  lemma SplitNext(s: string, c: char)
    ensures Split(s + [c]) == if c == '\n' then Split(s) + [""] else Init(Split(s)) + [Last(Split(s)) + [c]]
  {
    assert (s + [c])[..|s + [c]| - 1] == s;
  }

  /** Only the unfinished line matters to what comes next. */
  lemma {:induction false} SplitJoin(a: string, b: string)
    ensures Split(a + b) == Init(Split(a)) + Split(Last(Split(a)) + b)
  {
    hide Split;
    var l := Last(Split(a));
    if b == "" {
      assert a + b == a && l + b == l;
      LastHasNone(a);
      NoNewline(l);
    } else {
      var b0, c := b[..|b| - 1], b[|b| - 1];
      SplitJoin(a, b0);
      assert a + b == (a + b0) + [c] && l + b == (l + b0) + [c];
      SplitNext(a + b0, c);
      SplitNext(l + b0, c);
    }
  }

  lemma {:induction false} LastHasNone(a: string)
    ensures '\n' !in Last(Split(a))
  {
    if a != "" {
      LastHasNone(a[..|a| - 1]);
    }
  }

  lemma {:induction false} NoNewline(a: string)
    requires '\n' !in a
    ensures Split(a) == [a]
  {
    if a != "" {
      NoNewline(a[..|a| - 1]);
      assert a == a[..|a| - 1] + [a[|a| - 1]];
    }
  }

  /** The line without the carriage returns it ends in. */
  function TrimReturns(ln: string): string {
    if ln != "" && ln[|ln| - 1] == '\r' then TrimReturns(ln[..|ln| - 1]) else ln
  }

  /** How many blanks and tabs a line begins with. */
  function IndentLen(ln: string): (n: nat)
    ensures n <= |ln|
  {
    if ln != "" && (ln[0] == ' ' || ln[0] == '\t') then 1 + IndentLen(ln[1..]) else 0
  }

  function Indent(ln: string): (pfx: string)
    ensures pfx <= ln
  {
    ln[..IndentLen(ln)]
  }

  /** What a line begins with up to there is blanks and tabs, and what follows is neither. */
  lemma {:induction false} IndentChars(ln: string)
    ensures forall i | 0 <= i < IndentLen(ln) :: ln[i] == ' ' || ln[i] == '\t'
    ensures IndentLen(ln) < |ln| ==> ln[IndentLen(ln)] != ' ' && ln[IndentLen(ln)] != '\t'
  {
    if ln != "" && (ln[0] == ' ' || ln[0] == '\t') {
      IndentChars(ln[1..]);
      forall i | 0 < i < IndentLen(ln) ensures ln[i] == ' ' || ln[i] == '\t' {
        assert ln[i] == ln[1..][i - 1];
      }
    }
  }

  /** What is taken from the end is carriage returns, and what is left does not end in one. */
  lemma {:induction false} ReturnsChars(ln: string)
    ensures var r := TrimReturns(ln);
            && r <= ln && (r == "" || r[|r| - 1] != '\r')
            && forall i | |r| <= i < |ln| :: ln[i] == '\r'
  {
    if ln != "" && ln[|ln| - 1] == '\r' {
      ReturnsChars(ln[..|ln| - 1]);
    }
  }

  /** Blanks and tabs that a line begins with are its indentation exactly when no more of them follow. */
  lemma IndentIff(lead: string, rest: string)
    requires forall i | 0 <= i < |lead| :: lead[i] == ' ' || lead[i] == '\t'
    ensures Indent(lead + rest) == lead <==> rest == "" || (rest[0] != ' ' && rest[0] != '\t')
  {
    var ln, n := lead + rest, IndentLen(lead + rest);
    IndentChars(ln);
    assert forall i | 0 <= i < |lead| :: ln[i] == lead[i];
    assert rest != "" ==> ln[|lead|] == rest[0];
    if n == |lead| {
      assert ln[..n] == lead;
    } else {
      assert |ln[..n]| == n;
    }
  }

  /** So are the carriage returns it ends in. */
  lemma TrimReturnsIff(ln: string, returns': string)
    requires forall i | 0 <= i < |returns'| :: returns'[i] == '\r'
    ensures TrimReturns(ln + returns') == ln <==> ln == "" || ln[|ln| - 1] != '\r'
  {
    var all := ln + returns';
    var r := TrimReturns(all);
    ReturnsChars(all);
    assert forall i | 0 <= i < |ln| :: all[i] == ln[i];
    assert forall i | |ln| <= i < |all| :: all[i] == returns'[i - |ln|];
    assert r == all[..|r|];
    if |r| < |ln| {
      assert all[|ln| - 1] == '\r';
    } else if |r| == |ln| {
      assert all[..|ln|] == ln;
    }
  }

  function TrimPrefix(s: string, pfx: string): (r: string)
    ensures |r| <= |s| && r == s[|s| - |r|..]
  {
    if pfx <= s then s[|pfx|..] else s
  }

  function Trimmed(lines: seq<string>): (r: seq<string>)
    ensures |r| == |lines|
  {
    seq(|lines|, k requires 0 <= k < |lines| => TrimReturns(lines[k]))
  }

  /** Where a line begins in the text that is split. */
  function Start(lines: seq<string>, i: nat): nat
    requires i <= |lines|
  {
    if i == 0 then 0 else Start(lines, i - 1) + |lines[i - 1]| + 1
  }

  lemma {:induction false} StartSame(a: seq<string>, b: seq<string>, i: nat)
    requires i <= |a| && i <= |b| && a[..i] == b[..i]
    ensures Start(a, i) == Start(b, i)
  {
    if i > 0 {
      assert a[i - 1] == a[..i][i - 1] == b[..i][i - 1];
      assert a[..i - 1] == a[..i][..i - 1] == b[..i][..i - 1];
      StartSame(a, b, i - 1);
    }
  }

  /** The last line ends where the text does. */
  lemma {:induction false} LastEnds(s: string)
    ensures var l := Split(s); Start(l, |l| - 1) + |Last(l)| == |s|
  {
    hide Split;
    if s == "" {
      NoNewline(s);
    } else {
      var s0, c := s[..|s| - 1], s[|s| - 1];
      var init, l := Split(s0), Split(s);
      LastEnds(s0);
      assert s == s0 + [c];
      SplitNext(s0, c);
      var k := |init| - 1;
      assert l[..k] == init[..k];
      StartSame(init, l, k);
      if c == '\n' {
        assert l[k] == init[k];
      }
    }
  }

  /** Every line is found where it begins. */
  lemma {:induction false} LineAt(s: string, i: nat)
    requires i < |Split(s)|
    ensures var l := Split(s); Start(l, i) + |l[i]| <= |s| && s[Start(l, i)..Start(l, i) + |l[i]|] == l[i]
  {
    hide Split;
    var l := Split(s);
    if s == "" {
      NoNewline(s);
    } else {
      var s0, c := s[..|s| - 1], s[|s| - 1];
      var init := Split(s0);
      assert s == s0 + [c];
      SplitNext(s0, c);
      LastEnds(s);
      LastEnds(s0);
      if i < |init| {
        assert l[..i] == init[..i];
        StartSame(init, l, i);
        LineAt(s0, i);
      }
    }
  }

  // ---------------------------------------------------------------- what the methods compute

  /** The bytes a range holds now, where it begins, and whether its array is the one in use. */
  datatype Range = Range(text: string, at: nat, own: bool)

  datatype Scan = Scan(issues: seq<Issue>, isu: Option<Issue>, pfx: Range)

  const START := Scan([], None, Range("", 0, true))

  function Kept(issues: seq<Issue>, isu: Option<Issue>): seq<Issue> {
    if isu.Some? && Valid(isu.value) && HashOf(isu.value) !in Hashes(issues) then issues + [isu.value] else issues
  }

  function Flushed(st: Scan): Scan {
    st.(issues := Kept(st.issues, st.isu), isu := None)
  }

  function Longer(isu: Issue, more: string): Issue {
    isu.(message := isu.message + "\n" + more)
  }

  /** The line begins at `at`. */
  function ScanLine(st: Scan, ln: string, at: nat, matchLine: Match): Scan {
    var pfx := Indent(ln);
    var ind := TrimPrefix(pfx, st.pfx.text);
    if |ind| > 0 && st.isu.Some? then
      st.(isu := Some(Longer(st.isu.value, ln[|pfx| - |ind|..])))
    else
      Flushed(st).(pfx := Range(pfx, at, true), isu := matchLine(ln[|pfx|..]))
  }

  function ScanLines(st: Scan, lines: seq<string>, at: nat, matchLine: Match): Scan
    decreases |lines|
  {
    if lines == [] then st else
      ScanLines(ScanLine(st, TrimReturns(lines[0]), at, matchLine), lines[1..], at + |lines[0]| + 1, matchLine)
  }

  /** The scan, the unfinished line and the bytes there is room for. */
  datatype Out = Out(scan: Scan, buf: string, cap: nat)

  const EMPTY := Out(START, "", 0)

  /** The capacity of the array made when one is too small for the bytes needed. */
  type Growth = (nat, nat) -> nat

  function NewCap(cap: nat, needed: nat, grow: Growth): (n: nat)
    ensures n >= needed
  {
    if grow(cap, needed) < needed then needed else grow(cap, needed)
  }

  /** The range after bytes were written from `lo` on into the array in use. */
  function Overwritten(r: Range, lo: nat, b: string): (r': Range)
    ensures |r'.text| == |r.text|
  {
    if !r.own then r else
      r.(text := seq(|r.text|, k requires 0 <= k < |r.text| =>
                                   if lo <= r.at + k < lo + |b| then b[r.at + k - lo] else r.text[k]))
  }

  /** Where there is room the bytes go into the array in use, else into a new one; the old one stays as it is. */
  function Appended(o: Out, p: string, grow: Growth): Out {
    var n := |o.buf| + |p|;
    var r := o.scan.pfx;
    if n <= o.cap then Out(o.scan.(pfx := Overwritten(r, |o.buf|, p)), o.buf + p, o.cap)
    else Out(o.scan.(pfx := r.(own := false)), o.buf + p, NewCap(o.cap, n, grow))
  }

  function Written(o: Out, p: string, matchLine: Match, grow: Growth): Out {
    var a := Appended(o, p, grow);
    var lines := Split(a.buf);
    Appended(Out(ScanLines(a.scan, Init(lines), 0, matchLine), "", a.cap), Last(lines), grow)
  }

  function Finished(o: Out, matchLine: Match): Out {
    Out(ScanLines(o.scan, Split(o.buf), 0, matchLine), "", o.cap)
  }

  class IssueOut {
    const matchLine: Match                // the patterns, tried in turn
    const grow: Growth
    var buf: array<char>
    var len: nat
    var issues: seq<Issue>
    var isu: Option<Issue>
    var pfx: array<char>                  // the indentation is pfx[lo..hi]
    var lo: nat
    var hi: nat
    var closed: bool

    constructor (matchLine: Match, grow: Growth)
      ensures this.matchLine == matchLine && this.grow == grow
      ensures Consistent() && fresh(buf) && Value() == EMPTY && !closed
    {
      this.matchLine, this.grow := matchLine, grow;
      var none := new char[0];
      buf, len, pfx, lo, hi := none, 0, none, 0, 0;
      issues, isu, closed := [], None, false;
    }

    ghost predicate Consistent()
      reads this
    {
      len <= buf.Length && lo <= hi <= pfx.Length
    }

    function State(): Scan
      reads this, pfx
      requires lo <= hi <= pfx.Length
    {
      Scan(issues, isu, Range(pfx[lo..hi], lo, pfx == buf))
    }

    function Value(): Out
      reads this, pfx, buf
      requires Consistent()
    {
      Out(State(), buf[..len], buf.Length)
    }

    /** The number of bytes taken; a closed writer takes none. */
    method Write(p: string) returns (n: nat, ok: bool)
      requires Consistent()
      modifies this, buf
      ensures Consistent() && (buf == old(buf) || fresh(buf))
      ensures closed == old(closed) && ok == !closed
      ensures n == if ok then |p| else 0
      ensures Value() == if ok then Written(old(Value()), p, matchLine, grow) else old(Value())
    {
      hide Appended, Split, ScanLines;
      if closed {
        return 0, false;
      }
      Append(p);
      DoScan(false);
      return |p|, true;
    }

    method Append(p: string)
      requires Consistent()
      modifies this, buf
      ensures Consistent() && (buf == old(buf) || fresh(buf))
      ensures closed == old(closed)
      ensures Value() == Appended(old(Value()), p, grow)
    {
      hide Overwritten, NewCap;
      Reserve(len + |p|);
      Put(p);
      len := len + |p|;
    }

    /** Makes room for `n` bytes. */
    method Reserve(n: nat)
      requires Consistent()
      modifies this`buf
      ensures Consistent() && n <= buf.Length && buf[..len] == old(buf[..len])
      ensures if n <= old(buf.Length) then buf == old(buf) && State() == old(State())
              else && fresh(buf) && buf.Length == NewCap(old(buf.Length), n, grow)
                   && State() == old(State()).(pfx := old(State()).pfx.(own := false))
    {
      if n > buf.Length {
        var more := new char[NewCap(buf.Length, n, grow)];
        forall i | 0 <= i < len {
          more[i] := buf[i];
        }
        buf := more;
      }
    }

    /** Copies the bytes behind those there are. */
    method Put(p: string)
      requires Consistent() && len + |p| <= buf.Length
      modifies buf
      ensures buf[..len + |p|] == old(buf[..len]) + p
      ensures State() == old(State()).(pfx := Overwritten(old(State()).pfx, len, p))
    {
      ghost var was, text := buf[..], pfx[lo..hi];
      forall i | 0 <= i < |p| {
        buf[len + i] := p[i];
      }
      assert forall k | 0 <= k < len :: buf[k] == was[k];
      assert buf[..len + |p|] == was[..len] + p;
      if pfx == buf {
        assert text == was[lo..hi];
        assert pfx[lo..hi] == Overwritten(Range(text, lo, true), len, p).text;
      }
    }

    /** Closing flushes, also the second time, when it fails. */
    method Close() returns (ok: bool)
      requires Consistent()
      modifies this
      ensures Consistent() && buf == old(buf) && closed && ok == !old(closed)
      ensures Value() == old(Value()).(scan := Flushed(old(State())))
    {
      ok := !closed;
      closed := true;
      Flush();
    }

    method Flush()
      requires Consistent()
      modifies this
      ensures Consistent() && buf == old(buf) && closed == old(closed)
      ensures Value() == old(Value()).(scan := Flushed(old(State())))
    {
      DoFlush();
    }

    method Issues() returns (res: seq<Issue>)
      requires Consistent()
      modifies this, buf
      ensures Consistent() && (buf == old(buf) || fresh(buf)) && closed == old(closed)
      ensures Value() == Finished(old(Value()), matchLine)
      ensures res == Finished(old(Value()), matchLine).scan.issues
    {
      DoScan(true);
      res := issues;
    }

    method DoScan(scanTail: bool)
      requires Consistent()
      modifies this, buf
      ensures Consistent() && (buf == old(buf) || fresh(buf)) && closed == old(closed)
      ensures var o, lines := old(Value()), Split(old(Value()).buf);
              Value() == if scanTail then Finished(o, matchLine) else
                           Appended(Out(ScanLines(o.scan, Init(lines), 0, matchLine), "", o.cap), Last(lines), grow)
    {
      hide Split, ScanLines;
      var lines := Split(buf[..len]);
      var tail := "";
      if !scanTail {
        var n := |lines| - 1;
        tail, lines := lines[n], lines[..n];
      }
      ScanAll(lines);
      len := 0;
      Append(tail);
    }

    /** Scanning leaves the bytes alone. */
    method ScanAll(lines: seq<string>)
      requires Consistent() && lines <= Split(buf[..len])
      modifies this
      ensures Consistent() && buf == old(buf) && len == old(len) && closed == old(closed)
      ensures State() == ScanLines(old(State()), lines, 0, matchLine)
    {
      hide Split, TrimReturns, ScanLine;
      ghost var s := buf[..len];
      var at := 0;
      for i := 0 to |lines|
        invariant Consistent() && buf == old(buf) && len == old(len) && closed == old(closed)
        invariant at == Start(lines, i)
        invariant ScanLines(State(), lines[i..], at, matchLine) == ScanLines(old(State()), lines, 0, matchLine)
      {
        StartSame(lines, Split(s), i);
        LineAt(s, i);
        ReturnsChars(lines[i]);
        assert lines[i] == Split(s)[i] && lines[i..][0] == lines[i] && lines[i..][1..] == lines[i + 1..];
        DoScanLine(TrimReturns(lines[i]), at);
        at := at + |lines[i]| + 1;
      }
    }

    method DoScanLine(ln: string, at: nat)
      requires Consistent() && at + |ln| <= len && ln == buf[at..at + |ln|]
      modifies this
      ensures Consistent() && buf == old(buf) && len == old(len) && closed == old(closed)
      ensures State() == ScanLine(old(State()), ln, at, matchLine)
    {
      hide Indent, TrimPrefix, Kept, IndentLen;
      var lead := Indent(ln);
      var ind := TrimPrefix(lead, pfx[lo..hi]);
      var n := |ind|;
      if n > 0 && isu.Some? {
        isu := Some(Longer(isu.value, ln[|lead| - n..]));
        return;
      }
      DoFlush();
      pfx, lo, hi := buf, at, at + |lead|;
      isu := matchLine(ln[|lead|..]);
    }

    method DoFlush()
      requires Consistent()
      modifies this`isu, this`issues
      ensures State() == Flushed(old(State()))
    {
      if isu.None? {
        return;
      }
      var found := isu.value;
      isu := None;
      if Valid(found) {
        var has := Has(issues, found);
        if !has {
          issues := issues + [found];
        }
      }
    }
  }
}
