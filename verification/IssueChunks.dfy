/** What Issues returns for a stream, and when the pieces it is written in do not matter. */
module IssueChunks {
  import opened IssueBlocks
  import opened IssueOuts
  import opened IssueSets
  import opened Wrappers

  // ---------------------------------------------------------------- what the writer shows of the lines

  function Join(chunks: seq<string>): string {
    if chunks == [] then "" else Join(chunks[..|chunks| - 1]) + chunks[|chunks| - 1]
  }

  function Fed(chunks: seq<string>, matchLine: Match, grow: Growth): Out {
    if chunks == [] then EMPTY else Written(Fed(chunks[..|chunks| - 1], matchLine, grow), Last(chunks), matchLine, grow)
  }

  /** The complete lines of a stream. */
  function Lines(s: string): seq<string> {
    Trimmed(Init(Split(s)))
  }

  function AllBut<T>(l: seq<T>): seq<T> {
    if l == [] then [] else Init(l)
  }

  /** The last block read is pending, and the valid ones before it have been kept, each once. */
  predicate Shows(st: Scan, pa: Parse) {
    && st.isu == (if pa.blocks == [] then None else Last(pa.blocks))
    && st.issues == Firsts(ValidOnes(AllBut(pa.blocks)))
    && |st.pfx.text| == |pa.pfx|
  }

  lemma KeptFirst(v: seq<Issue>, b: Option<Issue>)
    ensures Kept(Firsts(v), b) == Firsts(if b.Some? && Valid(b.value) then v + [b.value] else v)
  {
    hide Firsts, HashOf, Hashes, Valid;
    FirstsSame(v);
    if b.Some? {
      FirstsNext(v, b.value);
    }
  }

  lemma FlushShows(st: Scan, pa: Parse)
    requires Shows(st, pa)
    ensures Flushed(st).issues == Firsts(ValidOnes(pa.blocks))
  {
    hide Firsts, Valid, Kept;
    var v := ValidOnes(AllBut(pa.blocks));
    assert v + [] == v;
    if pa.blocks == [] {
      KeptFirst(v, None);
    } else {
      KeptFirst(v, Last(pa.blocks));
    }
  }

  lemma ReadShows(st: Scan, pa: Parse, ln: string, at: nat, matchLine: Match)
    requires Shows(st, pa) && st.pfx.text == pa.pfx
    ensures Shows(ScanLine(st, ln, at, matchLine), Read(pa, ln, matchLine))
    ensures ScanLine(st, ln, at, matchLine).pfx.text == Read(pa, ln, matchLine).pfx
  {
    hide Firsts, Valid, Kept, ValidOnes, Indent, TrimPrefix;
    FlushShows(st, pa);
    var pa' := Read(pa, ln, matchLine);
    assert pa'.blocks != [];
    if |TrimPrefix(Indent(ln), pa.pfx)| > 0 && Pending(pa) {
      assert Init(pa'.blocks) == Init(pa.blocks);
    } else {
      assert Init(pa'.blocks) == pa.blocks;
    }
  }

  /** Within one scan nothing is overwritten. */
  lemma {:induction false} ScanShows(st: Scan, pa: Parse, lines: seq<string>, at: nat, matchLine: Match)
    requires Shows(st, pa) && st.pfx.text == pa.pfx
    ensures Shows(ScanLines(st, lines, at, matchLine), Parsed(pa, Trimmed(lines), Clean(|lines|), matchLine))
    decreases |lines|
  {
    hide Shows, ScanLine, Read, TrimReturns;
    if lines != [] {
      var ln := TrimReturns(lines[0]);
      assert Clean(|lines|)[1..] == Clean(|lines| - 1) && Trimmed(lines)[1..] == Trimmed(lines[1..]);
      ReadShows(st, pa, ln, at, matchLine);
      ScanShows(ScanLine(st, ln, at, matchLine), Read(pa, ln, matchLine), lines[1..], at + |lines[0]| + 1, matchLine);
    }
  }

  /** What was overwritten before the scan shows at its first line. */
  function FirstMark(mark: string, n: nat): (marks: seq<string>)
    ensures |marks| == n
  {
    if n == 0 then [] else [mark] + Clean(n - 1)
  }

  lemma MarkFirst(pa: Parse, mark: string, lines: seq<string>, matchLine: Match)
    requires |mark| == |pa.pfx| && lines != []
    ensures Parsed(pa, lines, FirstMark(mark, |lines|), matchLine)
         == Parsed(pa.(pfx := mark), lines, Clean(|lines|), matchLine)
  {
    hide Read;
    assert FirstMark(mark, |lines|)[1..] == Clean(|lines| - 1) == Clean(|lines|)[1..];
  }

  lemma AppendShows(o: Out, pa: Parse, p: string, grow: Growth)
    requires Shows(o.scan, pa)
    ensures Shows(Appended(o, p, grow).scan, pa) && Appended(o, p, grow).buf == o.buf + p
  {
    hide Firsts, Valid, ValidOnes, Overwritten;
  }

  lemma ScanMarked(st: Scan, pa: Parse, lines: seq<string>, matchLine: Match)
    requires Shows(st, pa)
    ensures Shows(ScanLines(st, lines, 0, matchLine),
                  Parsed(pa, Trimmed(lines), FirstMark(st.pfx.text, |lines|), matchLine))
  {
    hide Firsts, Valid, ValidOnes, Parsed, TrimReturns, FirstMark, ScanLine;
    if lines == [] {
      NoLines(st, pa, matchLine);
    } else {
      MarkFirst(pa, st.pfx.text, Trimmed(lines), matchLine);
      ScanShows(st, pa.(pfx := st.pfx.text), lines, 0, matchLine);
    }
  }

  lemma NoLines(st: Scan, pa: Parse, matchLine: Match)
    ensures ScanLines(st, [], 0, matchLine) == st
    ensures Parsed(pa, Trimmed([]), FirstMark(st.pfx.text, 0), matchLine) == pa
  {
  }

  lemma WriteShows(o: Out, pa: Parse, p: string, matchLine: Match, grow: Growth) returns (marks: seq<string>)
    requires Shows(o.scan, pa)
    ensures var r, lines := Written(o, p, matchLine, grow), Split(o.buf + p);
            && |marks| == |Init(lines)| && r.buf == Last(lines)
            && Shows(r.scan, Parsed(pa, Trimmed(Init(lines)), marks, matchLine))
  {
    hide Shows, Appended, Split, ScanLines, Parsed, Trimmed, FirstMark;
    var a, lines := Appended(o, p, grow), Split(o.buf + p);
    AppendShows(o, pa, p, grow);
    marks := FirstMark(a.scan.pfx.text, |Init(lines)|);
    ScanMarked(a.scan, pa, Init(lines), matchLine);
    AppendShows(Out(ScanLines(a.scan, Init(lines), 0, matchLine), "", a.cap),
                Parsed(pa, Trimmed(Init(lines)), marks, matchLine), Last(lines), grow);
  }

  lemma TrimmedJoin(a: seq<string>, b: seq<string>)
    ensures Trimmed(a + b) == Trimmed(a) + Trimmed(b)
  {
  }

  /** However a stream is divided, the writer has read its complete lines, with some bytes overwritten between them. */
  lemma {:induction false} FedShows(chunks: seq<string>, matchLine: Match, grow: Growth) returns (marks: seq<string>)
    ensures var o, lines := Fed(chunks, matchLine, grow), Lines(Join(chunks));
            && |marks| == |lines| && o.buf == Last(Split(Join(chunks)))
            && Shows(o.scan, Parsed(NOTHING, lines, marks, matchLine))
  {
    hide Written, Split, Shows, Trimmed, Parsed;
    if chunks == [] {
      marks := [];
      NothingFed(matchLine);
    } else {
      var before, c := chunks[..|chunks| - 1], Last(chunks);
      var o := Fed(before, matchLine, grow);
      var first := FedShows(before, matchLine, grow);
      var lines, next := Split(Join(before)), Split(o.buf + c);
      var pa := Parsed(NOTHING, Lines(Join(before)), first, matchLine);
      var second := WriteShows(o, pa, c, matchLine, grow);
      marks := first + second;
      SplitJoin(Join(before), c);
      assert Init(Init(lines) + next) == Init(lines) + Init(next);
      TrimmedJoin(Init(lines), Init(next));
      ParsedJoin(NOTHING, Trimmed(Init(lines)), Trimmed(Init(next)), first, second, matchLine);
    }
  }

  lemma NothingFed(matchLine: Match)
    ensures Split("") == [""] && Lines("") == []
    ensures Shows(START, NOTHING) && Parsed(NOTHING, [], [], matchLine) == NOTHING
  {
    EmptyFirsts();
  }

  // ---------------------------------------------------------------- the pieces do not matter to safe lines

  /** The same issues so far, the same issue pending and the same unfinished line. */
  predicate Alike(a: Out, b: Out) {
    a.scan.issues == b.scan.issues && a.scan.isu == b.scan.isu && a.buf == b.buf
  }

  lemma SafeShows(lines: seq<string>, marks: seq<string>, matchLine: Match)
    requires |marks| == |lines| && Safe(None, lines, matchLine)
    ensures Parsed(NOTHING, lines, marks, matchLine).blocks == Blocks(lines, matchLine)
  {
    hide Parsed, Safe, Blocks;
    SafeReads(NOTHING, NOTHING, lines, marks, matchLine);
    CleanIsBlocks(lines, matchLine);
  }

  /** However a stream with safe lines is divided into writes, and whatever the arrays, the writer ends up alike. */
  lemma ChunkInvariance(
    chunks: seq<string>, chunks': seq<string>, matchLine: Match, grow: Growth, grow': Growth)
    requires Join(chunks) == Join(chunks') && Safe(None, Lines(Join(chunks)), matchLine)
    ensures Alike(Fed(chunks, matchLine, grow), Fed(chunks', matchLine, grow'))
  {
    hide Fed, Parsed, Safe, Blocks, Split, Trimmed, Firsts, ValidOnes;
    var marks := FedShows(chunks, matchLine, grow);
    var marks' := FedShows(chunks', matchLine, grow');
    SafeShows(Lines(Join(chunks)), marks, matchLine);
    SafeShows(Lines(Join(chunks)), marks', matchLine);
  }

  /** Two writes then do what one write of both does. */
  lemma WriteTwice(chunks: seq<string>, a: string, b: string, matchLine: Match, grow: Growth)
    requires Safe(None, Lines(Join(chunks) + a + b), matchLine)
    ensures var o := Fed(chunks, matchLine, grow);
            Alike(Written(Written(o, a, matchLine, grow), b, matchLine, grow), Written(o, a + b, matchLine, grow))
  {
    hide Written, Alike, Safe, Lines;
    var one, two, all := chunks + [a], chunks + [a] + [b], chunks + [a + b];
    assert one[..|one| - 1] == chunks && two[..|two| - 1] == one && all[..|all| - 1] == chunks;
    assert Join(chunks) + (a + b) == Join(chunks) + a + b;
    ChunkInvariance(two, all, matchLine, grow, grow);
  }

  /** One write finds the blocks of any lines, and the unfinished line is never read before its end has come. */
  lemma OneWrite(s: string, matchLine: Match, grow: Growth) returns (pa: Parse)
    ensures Shows(Written(EMPTY, s, matchLine, grow).scan, pa) && pa.blocks == Blocks(Lines(s), matchLine)
  {
    hide Shows, Split, ScanLines, Parsed, Trimmed, Blocks, Appended;
    NothingFed(matchLine);
    assert "" + s == s;
    var a, lines := Appended(EMPTY, s, grow), Init(Split(s));
    FirstAppended(s, grow);
    AppendShows(EMPTY, NOTHING, s, grow);
    ScanShows(a.scan, NOTHING, lines, 0, matchLine);
    pa := Parsed(NOTHING, Trimmed(lines), Clean(|lines|), matchLine);
    CleanIsBlocks(Lines(s), matchLine);
    AppendShows(Out(ScanLines(a.scan, lines, 0, matchLine), "", a.cap), pa, Last(Split(s)), grow);
  }

  lemma FirstAppended(s: string, grow: Growth)
    ensures Appended(EMPTY, s, grow).buf == s && Appended(EMPTY, s, grow).scan.pfx.text == ""
  {
    assert "" + s == s;
  }

  // ---------------------------------------------------------------- what Issues returns

  /** The unfinished line is read like any other. */
  lemma FinishShows(o: Out, pa: Parse, matchLine: Match) returns (marks: seq<string>)
    requires Shows(o.scan, pa) && '\n' !in o.buf
    ensures |marks| == 1 && Shows(Finished(o, matchLine).scan, Parsed(pa, Trimmed([o.buf]), marks, matchLine))
  {
    hide Shows, Trimmed, Parsed, ScanLines, FirstMark;
    NoNewline(o.buf);
    marks := FirstMark(o.scan.pfx.text, 1);
    ScanMarked(o.scan, pa, [o.buf], matchLine);
  }

  lemma AllLines(s: string)
    ensures Trimmed(Split(s)) == Lines(s) + Trimmed([Last(Split(s))]) && '\n' !in Last(Split(s))
  {
    hide Split, Trimmed;
    LastHasNone(s);
    assert Split(s) == Init(Split(s)) + [Last(Split(s))];
    TrimmedJoin(Init(Split(s)), [Last(Split(s))]);
  }

  /**
   * For every stream whose lines are safe and every division of it into writes, Issues returns the valid blocks of its
   * lines, each once, but for the last block, which is still pending.
   */
  lemma IssuesOfStream(chunks: seq<string>, matchLine: Match, grow: Growth)
    requires Safe(None, Trimmed(Split(Join(chunks))), matchLine)
    ensures Finished(Fed(chunks, matchLine, grow), matchLine).scan.issues
         == Firsts(ValidOnes(Init(Blocks(Trimmed(Split(Join(chunks))), matchLine))))
  {
    hide Blocks, Split, Firsts, ValidOnes, Trimmed, Fed, Parsed, Safe, Finished;
    var s := Join(chunks);
    var o := Fed(chunks, matchLine, grow);
    var first := FedShows(chunks, matchLine, grow);
    AllLines(s);
    var second := FinishShows(o, Parsed(NOTHING, Lines(s), first, matchLine), matchLine);
    ParsedJoin(NOTHING, Lines(s), Trimmed([o.buf]), first, second, matchLine);
    SafeShows(Trimmed(Split(s)), first + second, matchLine);
    SomeBlock(Trimmed(Split(s)), matchLine);
  }

  lemma SomeBlock(lines: seq<string>, matchLine: Match)
    requires lines != []
    ensures Blocks(lines, matchLine) != []
  {
    hide Extended, RunLen, Indent;
  }

  /** An empty line begins a block of its own, and keeps lines safe. */
  lemma {:induction false} BlocksThenEmpty(lines: seq<string>, matchLine: Match)
    ensures Blocks(lines + [""], matchLine) == Blocks(lines, matchLine) + [matchLine("")]
    decreases |lines|
  {
    hide Extended, RunLen, Indent;
    if lines == [] {
      assert lines + [""] == [""];
      OneEmpty(matchLine);
    } else {
      var pfx, rest := Indent(lines[0]), lines[1..];
      assert (lines + [""])[1..] == rest + [""];
      if matchLine(lines[0][|pfx|..]).None? {
        BlocksThenEmpty(rest, matchLine);
      } else {
        var n := RunLen(rest, pfx);
        RunThenEmpty(rest, pfx);
        assert (rest + [""])[..n] == rest[..n] && (rest + [""])[n..] == rest[n..] + [""];
        BlocksThenEmpty(rest[n..], matchLine);
      }
    }
  }

  lemma OneEmpty(matchLine: Match)
    ensures Blocks([""], matchLine) == [matchLine("")]
  {
    assert [""][1..] == [];
    assert Blocks([], matchLine) == [];
    match matchLine("")
    case None =>
    case Some(isu) => assert RunLen([], "") == 0;
  }

  lemma {:induction false} RunThenEmpty(lines: seq<string>, pfx: string)
    ensures RunLen(lines + [""], pfx) == RunLen(lines, pfx)
  {
    if lines != [] {
      assert (lines + [""])[1..] == lines[1..] + [""];
      RunThenEmpty(lines[1..], pfx);
    }
  }

  lemma {:induction false} SafeThenEmpty(open: Option<nat>, lines: seq<string>, matchLine: Match)
    ensures Safe(open, lines + [""], matchLine) <==> Safe(open, lines, matchLine)
    decreases |lines|
  {
    if lines == [] {
      assert lines + [""] == [""] && [""][1..] == [];
    } else {
      var pfx, rest := Indent(lines[0]), lines[1..];
      assert (lines + [""])[1..] == rest + [""] && (lines + [""])[0] == lines[0];
      var next: Option<nat> := if matchLine(lines[0][|pfx|..]).Some? then Some(|pfx|) else None;
      SafeThenEmpty(open, rest, matchLine);
      SafeThenEmpty(next, rest, matchLine);
    }
  }

  lemma LinesThenNewline(s: string)
    requires s != "" && Last(s) == '\n'
    ensures Trimmed(Split(s)) == Lines(s) + [""]
  {
    hide Split, Trimmed;
    assert s == s[..|s| - 1] + ['\n'];
    SplitNext(s[..|s| - 1], '\n');
    AllLines(s);
    TrimmedEmpty();
  }

  lemma TrimmedEmpty()
    ensures Trimmed([""]) == [""]
  {
  }

  /** A stream that ends in a newline loses nothing: every valid block is returned. */
  lemma IssuesOfLines(chunks: seq<string>, matchLine: Match, grow: Growth)
    requires Join(chunks) != "" && Last(Join(chunks)) == '\n' && Safe(None, Lines(Join(chunks)), matchLine)
    ensures Finished(Fed(chunks, matchLine, grow), matchLine).scan.issues == IssuesIn(Lines(Join(chunks)), matchLine)
  {
    hide Blocks, Split, Firsts, ValidOnes, Safe, Lines, Trimmed, Fed, Finished;
    var s := Join(chunks);
    LinesThenNewline(s);
    SafeThenEmpty(None, Lines(s), matchLine);
    IssuesOfStream(chunks, matchLine, grow);
    BlocksThenEmpty(Lines(s), matchLine);
    assert Init(Blocks(Lines(s) + [""], matchLine)) == Blocks(Lines(s), matchLine);
  }

  /** Closed first, a writer returns them for every such stream; the unfinished line neither joins nor hides one. */
  lemma IssuesAfterClose(chunks: seq<string>, matchLine: Match, grow: Growth)
    requires Safe(None, Lines(Join(chunks)), matchLine)
    ensures var o := Fed(chunks, matchLine, grow);
            Finished(o.(scan := Flushed(o.scan)), matchLine).scan.issues == IssuesIn(Lines(Join(chunks)), matchLine)
  {
    hide Blocks, Split, Firsts, ValidOnes, Safe, Fed, Finished, Parsed, Lines, Kept;
    var s := Join(chunks);
    var o := Fed(chunks, matchLine, grow);
    var marks := FedShows(chunks, matchLine, grow);
    SafeShows(Lines(s), marks, matchLine);
    FlushShows(o.scan, Parsed(NOTHING, Lines(s), marks, matchLine));
    LastHasNone(s);
    NothingPending(o.(scan := Flushed(o.scan)), matchLine);
  }

  lemma NothingPending(o: Out, matchLine: Match)
    requires o.scan.isu.None? && '\n' !in o.buf
    ensures Finished(o, matchLine).scan.issues == o.scan.issues
  {
    hide Split, TrimReturns, Indent;
    NoNewline(o.buf);
    OneLineAt(o.scan, o.buf, 0, matchLine);
  }

  // ---------------------------------------------------------------- where the pieces matter

  lemma LineFirst(ln: string, rest: string)
    requires '\n' !in ln
    ensures Split(ln + "\n" + rest) == [ln] + Split(rest)
  {
    hide Split;
    NoNewline(ln);
    assert ln + "\n" == ln + ['\n'];
    SplitNext(ln, '\n');
    SplitJoin(ln + "\n", rest);
    assert "" + rest == rest;
  }

  const FIRST := "x\n  a.go:1: m\n"
  const SECOND := "  b.go:2: n\n"

  /** Two issues on indented lines below another. */
  predicate TwoIssues(matchLine: Match, a: Issue, b: Issue) {
    && matchLine("x").None? && matchLine("a.go:1: m") == Some(a) && matchLine("b.go:2: n") == Some(b)
    && Valid(a) && Valid(b) && HashOf(a) != HashOf(b)
  }

  lemma Indents()
    ensures Indent("x") == "" && TrimReturns("x") == "x"
    ensures Indent("  a.go:1: m") == "  " && TrimReturns("  a.go:1: m") == "  a.go:1: m"
    ensures Indent("  b.go:2: n") == "  " && TrimReturns("  b.go:2: n") == "  b.go:2: n"
  {
    var a, b := "  a.go:1: m", "  b.go:2: n";
    assert a[1..][1..] == "a.go:1: m" && b[1..][1..] == "b.go:2: n";
    assert IndentLen(a[1..][1..]) == 0 && IndentLen(b[1..][1..]) == 0;
    assert IndentLen(a[1..]) == 1 && IndentLen(b[1..]) == 1;
  }

  lemma SplitFirst()
    ensures Split(FIRST) == ["x", "  a.go:1: m", ""] && Split(SECOND) == ["  b.go:2: n", ""]
    ensures Split(FIRST + SECOND) == ["x", "  a.go:1: m", "  b.go:2: n", ""]
  {
    hide Split;
    var a, b := "  a.go:1: m", "  b.go:2: n";
    NoNewline("");
    LineFirst(b, "");
    assert SECOND == b + "\n" + "";
    LineFirst(a, "");
    LineFirst("x", a + "\n" + "");
    assert FIRST == "x" + "\n" + (a + "\n" + "");
    LineFirst(a, SECOND);
    LineFirst("x", a + "\n" + SECOND);
    assert FIRST + SECOND == "x" + "\n" + (a + "\n" + SECOND);
  }

  lemma FreshLine(st: Scan, ln: string, at: nat, matchLine: Match)
    requires st.isu.None?
    ensures ScanLine(st, ln, at, matchLine)
         == Scan(st.issues, matchLine(ln[|Indent(ln)|..]), Range(Indent(ln), at, true))
  {
    hide Indent, TrimPrefix;
  }

  lemma OneLineAt(st: Scan, ln: string, at: nat, matchLine: Match)
    ensures ScanLines(st, [ln], at, matchLine) == ScanLine(st, TrimReturns(ln), at, matchLine)
  {
    hide ScanLine, TrimReturns;
    assert [ln][1..] == [];
  }

  lemma AppendNothing(o: Out, grow: Growth)
    requires |o.buf| <= o.cap
    ensures Appended(o, "", grow) == o
  {
    assert o.buf + "" == o.buf;
    assert Overwritten(o.scan.pfx, |o.buf|, "").text == o.scan.pfx.text;
  }

  lemma FirstAppend(grow: Growth)
    requires grow(0, 14) == 16
    ensures Appended(EMPTY, FIRST, grow) == Out(START.(pfx := Range("", 0, false)), FIRST, 16)
  {
    assert "" + FIRST == FIRST && |FIRST| == 14;
  }

  lemma SecondAppend(st: Scan, grow: Growth)
    requires st.pfx == Range("  ", 2, true)
    ensures Appended(Out(st, "", 16), SECOND, grow) == Out(st.(pfx := Range("b.", 2, true)), SECOND, 16)
  {
    assert "" + SECOND == SECOND && |SECOND| == 12 && SECOND[2] == 'b' && SECOND[3] == '.';
    assert Overwritten(st.pfx, 0, SECOND).text == "b.";
  }

  lemma FirstScan(st: Scan, matchLine: Match, a: Issue, b: Issue)
    requires TwoIssues(matchLine, a, b) && st.isu.None?
    ensures ScanLines(st, ["x", "  a.go:1: m"], 0, matchLine) == Scan(st.issues, Some(a), Range("  ", 2, true))
  {
    hide ScanLine, TrimReturns, Indent, Valid, HashOf;
    Indents();
    assert ["x", "  a.go:1: m"][1..] == ["  a.go:1: m"];
    FreshLine(st, "x", 0, matchLine);
    assert "x"[0..] == "x" && "  a.go:1: m"[2..] == "a.go:1: m";
    var st1 := ScanLine(st, "x", 0, matchLine);
    OneLineAt(st1, "  a.go:1: m", 2, matchLine);
    FreshLine(st1, "  a.go:1: m", 2, matchLine);
  }

  lemma SecondScan(st: Scan, matchLine: Match, a: Issue)
    requires st.isu == Some(a) && st.pfx.text == "b."
    ensures ScanLines(st, ["  b.go:2: n"], 0, matchLine) == st.(isu := Some(Longer(a, "  b.go:2: n")))
  {
    hide TrimReturns, Indent;
    Indents();
    OneLineAt(st, "  b.go:2: n", 0, matchLine);
    assert "b."[0] != "  "[0];
    assert !("b." <= "  ");
    assert "  b.go:2: n"[0..] == "  b.go:2: n";
  }

  /** The array has room for 16 bytes; the issue is pending and its indentation are the bytes 2 and 3. */
  lemma FirstWrite(matchLine: Match, grow: Growth, a: Issue, b: Issue)
    requires TwoIssues(matchLine, a, b) && grow(0, 14) == 16
    ensures Written(EMPTY, FIRST, matchLine, grow) == Out(Scan([], Some(a), Range("  ", 2, true)), "", 16)
  {
    hide Split, ScanLines, Appended, TwoIssues;
    SplitFirst();
    FirstAppend(grow);
    FirstScan(START.(pfx := Range("", 0, false)), matchLine, a, b);
    assert Init(Split(FIRST)) == ["x", "  a.go:1: m"];
    AppendNothing(Out(Scan([], Some(a), Range("  ", 2, true)), "", 16), grow);
  }

  /** The second write puts "b." there, so its line seems indented unlike the issue, and joins it. */
  lemma SecondWrite(matchLine: Match, grow: Growth, a: Issue)
    ensures Written(Out(Scan([], Some(a), Range("  ", 2, true)), "", 16), SECOND, matchLine, grow)
         == Out(Scan([], Some(Longer(a, "  b.go:2: n")), Range("b.", 2, true)), "", 16)
  {
    hide Split, ScanLines, Appended;
    SplitFirst();
    SecondAppend(Scan([], Some(a), Range("  ", 2, true)), grow);
    SecondScan(Scan([], Some(a), Range("b.", 2, true)), matchLine, a);
    assert Init(Split(SECOND)) == ["  b.go:2: n"];
    AppendNothing(Out(Scan([], Some(Longer(a, "  b.go:2: n")), Range("b.", 2, true)), "", 16), grow);
  }

  /** The lines have two blocks with issues. */
  lemma TwoBlocks(matchLine: Match, a: Issue, b: Issue)
    requires TwoIssues(matchLine, a, b)
    ensures Blocks(Lines(FIRST + SECOND), matchLine) == [None, Some(a), Some(b)]
  {
    hide Split, TrimReturns, Indent, Valid, HashOf, Extended;
    Indents();
    SplitFirst();
    var x, y, z := "x", "  a.go:1: m", "  b.go:2: n";
    assert Init(Split(FIRST + SECOND)) == [x, y, z];
    assert Lines(FIRST + SECOND) == [x, y, z];
    var last := [z];
    assert [x, y, z][1..] == [y, z] && [y, z][1..] == last && last[1..] == [];
    assert x[0..] == x && y[2..] == "a.go:1: m" && z[2..] == "b.go:2: n";
    NoRun(a, [z], "  ");
    NoRunAtEnd(b, "  ");
    assert [z][0..] == [z];
    assert Blocks([], matchLine) == [];
    assert Blocks([z], matchLine) == [Some(b)];
    assert Blocks([y, z], matchLine) == [Some(a)] + Blocks([z], matchLine);
  }

  lemma NoRunAtEnd(isu: Issue, pfx: string)
    ensures RunLen([], pfx) == 0 && Extended(isu, [], pfx) == isu
  {
  }

  lemma BothValid(a: Issue, b: Issue)
    requires Valid(a) && Valid(b)
    ensures ValidOnes([None, Some(a), Some(b)]) == [a, b]
  {
    hide Valid;
    var bs: seq<Option<Issue>> := [None, Some(a), Some(b)];
    assert Init(bs) == [None, Some(a)] && Init(Init(bs)) == [None] && Init(Init(Init(bs))) == [];
    assert ValidOnes([None]) == [];
    assert ValidOnes(Init(bs)) == [a];
  }

  lemma BothKept(a: Issue, b: Issue)
    requires Valid(a) && Valid(b) && HashOf(a) != HashOf(b)
    ensures Firsts(ValidOnes([None, Some(a), Some(b)])) == [a, b]
    ensures Kept([], Some(Longer(a, "  b.go:2: n"))) == [Longer(a, "  b.go:2: n")]
  {
    hide HashOf, ValidOnes, Firsts;
    BothValid(a, b);
    FirstsNext([], a);
    FirstsNext([a], b);
    assert [] + [a] == [a] && [a] + [b] == [a, b];
    EmptyFirsts();
    assert Hashes([a]) == {HashOf(a)};
  }

  /** Written in two pieces the second issue is lost, in one piece both are found. */
  lemma PiecesMatter(matchLine: Match, grow: Growth, a: Issue, b: Issue)
    requires TwoIssues(matchLine, a, b) && grow(0, 14) == 16
    ensures var two, one := Fed([FIRST, SECOND], matchLine, grow), Fed([FIRST + SECOND], matchLine, grow);
            && Finished(two.(scan := Flushed(two.scan)), matchLine).scan.issues == [Longer(a, "  b.go:2: n")]
            && Finished(one.(scan := Flushed(one.scan)), matchLine).scan.issues == [a, b]
  {
    hide Written, Finished, Blocks, Lines, Firsts, ValidOnes, Kept, Shows;
    assert [FIRST] + [SECOND] == [FIRST, SECOND];
    FedNext([FIRST], SECOND, matchLine, grow);
    FedOne(FIRST, matchLine, grow);
    FedOne(FIRST + SECOND, matchLine, grow);
    FirstWrite(matchLine, grow, a, b);
    SecondWrite(matchLine, grow, a);
    BothKept(a, b);
    var two, one := Fed([FIRST, SECOND], matchLine, grow), Fed([FIRST + SECOND], matchLine, grow);
    NothingPending(two.(scan := Flushed(two.scan)), matchLine);
    TwoBlocks(matchLine, a, b);
    var pa := OneWrite(FIRST + SECOND, matchLine, grow);
    FlushShows(one.scan, pa);
    NothingLeft(matchLine, grow);
    NothingPending(one.(scan := Flushed(one.scan)), matchLine);
  }

  lemma FedNext(chunks: seq<string>, c: string, matchLine: Match, grow: Growth)
    ensures Fed(chunks + [c], matchLine, grow) == Written(Fed(chunks, matchLine, grow), c, matchLine, grow)
  {
    assert (chunks + [c])[..|chunks|] == chunks;
  }

  lemma FedOne(c: string, matchLine: Match, grow: Growth)
    ensures Fed([c], matchLine, grow) == Written(EMPTY, c, matchLine, grow)
  {
    assert [] + [c] == [c];
    FedNext([], c, matchLine, grow);
  }

  lemma NothingLeft(matchLine: Match, grow: Growth)
    ensures Written(EMPTY, FIRST + SECOND, matchLine, grow).buf == ""
  {
    hide Split, ScanLines;
    SplitFirst();
    assert "" + (FIRST + SECOND) == FIRST + SECOND;
  }

  /** The lines of that stream are not safe. */
  lemma PiecesNotSafe(matchLine: Match, a: Issue, b: Issue)
    requires TwoIssues(matchLine, a, b)
    ensures !Safe(None, Lines(FIRST + SECOND), matchLine)
  {
    hide Split, TrimReturns, Indent, Valid, HashOf;
    Indents();
    SplitFirst();
    var x, y, z := "x", "  a.go:1: m", "  b.go:2: n";
    assert Init(Split(FIRST + SECOND)) == [x, y, z];
    assert Lines(FIRST + SECOND) == [x, y, z];
    assert [x, y, z][1..] == [y, z] && [y, z][1..] == [z];
    assert x[0..] == x && y[2..] == "a.go:1: m";
    assert !Safe(Some(2), [z], matchLine);
    assert !Safe(None, [y, z], matchLine);
  }
}
