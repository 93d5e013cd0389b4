/**
 * What the writer of IssueOuts is to find: the lines in blocks, one for each issue. Reading line by line finds them
 * whatever bytes the remembered indentation is overwritten with in between, if and only if the lines are safe.
 */
module IssueBlocks {
  import opened IssueOuts
  import opened IssueSets
  import opened Wrappers

  // ---------------------------------------------------------------- what it means

  /** With an issue pending, a line continues it when it is indented, and not just like the line of the issue. */
  predicate Continues(ln: string, pfx: string) {
    Indent(ln) != "" && Indent(ln) != pfx
  }

  /** How many lines continue. */
  function RunLen(lines: seq<string>, pfx: string): (n: nat)
    ensures n <= |lines|
  {
    if lines != [] && Continues(lines[0], pfx) then 1 + RunLen(lines[1..], pfx) else 0
  }

  /** The lines that continue join the message, each without the indentation of the first if it has it. */
  function Extended(isu: Issue, lines: seq<string>, pfx: string): Issue
    decreases |lines|
  {
    if lines == [] then isu else
      Extended(Longer(isu, if pfx <= Indent(lines[0]) then lines[0][|pfx|..] else lines[0]), lines[1..], pfx)
  }

  /** The lines in blocks: one line, and if it matches, the lines that continue it. */
  function Blocks(lines: seq<string>, matchLine: Match): seq<Option<Issue>>
    decreases |lines|
  {
    if lines == [] then [] else
      var pfx, rest := Indent(lines[0]), lines[1..];
      match matchLine(lines[0][|pfx|..])
      case None => [None] + Blocks(rest, matchLine)
      case Some(isu) =>
        var n := RunLen(rest, pfx);
        [Some(Extended(isu, rest[..n], pfx))] + Blocks(rest[n..], matchLine)
  }

  function ValidOnes(bs: seq<Option<Issue>>): seq<Issue>
    decreases |bs|
  {
    if bs == [] then [] else
      ValidOnes(Init(bs)) + if Last(bs).Some? && Valid(Last(bs).value) then [Last(bs).value] else []
  }

  /** The issues of a list of lines: those of the valid blocks, each once. */
  function IssuesIn(lines: seq<string>, matchLine: Match): seq<Issue> {
    Firsts(ValidOnes(Blocks(lines, matchLine)))
  }

  // ---------------------------------------------------------------- reading lines, whatever the range holds

  /** The blocks read so far, of which the last may go on, and the bytes remembered as its indentation. */
  datatype Parse = Parse(blocks: seq<Option<Issue>>, pfx: string)

  const NOTHING := Parse([], "")

  predicate Pending(pa: Parse) {
    pa.blocks != [] && Last(pa.blocks).Some?
  }

  function Read(pa: Parse, ln: string, matchLine: Match): Parse {
    var pfx := Indent(ln);
    var ind := TrimPrefix(pfx, pa.pfx);
    if |ind| > 0 && Pending(pa) then
      pa.(blocks := Init(pa.blocks) + [Some(Longer(Last(pa.blocks).value, ln[|pfx| - |ind|..]))])
    else
      Parse(pa.blocks + [matchLine(ln[|pfx|..])], pfx)
  }

  /** The bytes remembered are others now, as many as before. */
  function Marked(pa: Parse, mark: string): Parse {
    if |mark| == |pa.pfx| then pa.(pfx := mark) else pa
  }

  /** Reads lines, where before each the bytes remembered may have become others. */
  function Parsed(pa: Parse, lines: seq<string>, marks: seq<string>, matchLine: Match): Parse
    requires |marks| == |lines|
    decreases |lines|
  {
    if lines == [] then pa else
      Parsed(Read(Marked(pa, marks[0]), lines[0], matchLine), lines[1..], marks[1..], matchLine)
  }

  /** Marks that change nothing: none is as long as a range that holds anything. */
  function Clean(n: nat): (marks: seq<string>)
    ensures |marks| == n
  {
    seq(n, _ => "")
  }

  lemma {:induction false} ParsedJoin(
    pa: Parse, a: seq<string>, b: seq<string>, ma: seq<string>, mb: seq<string>, matchLine: Match)
    requires |ma| == |a| && |mb| == |b|
    ensures Parsed(pa, a + b, ma + mb, matchLine) == Parsed(Parsed(pa, a, ma, matchLine), b, mb, matchLine)
    decreases |a|
  {
    hide Read, Marked;
    if a == [] {
      assert a + b == b && ma + mb == mb;
    } else {
      assert (a + b)[1..] == a[1..] + b && (ma + mb)[1..] == ma[1..] + mb;
      ParsedJoin(Read(Marked(pa, ma[0]), a[0], matchLine), a[1..], b, ma[1..], mb, matchLine);
    }
  }

  /** The guard of the code, on what is left of the indentation, says just that the line continues. */
  lemma ContinueOne(pa: Parse, ln: string, matchLine: Match)
    requires Pending(pa)
    ensures |TrimPrefix(Indent(ln), pa.pfx)| > 0 <==> Continues(ln, pa.pfx)
    ensures Continues(ln, pa.pfx) ==>
              Read(pa, ln, matchLine).pfx == pa.pfx
              && Read(pa, ln, matchLine).blocks
                 == Init(pa.blocks) + [Some(Extended(Last(pa.blocks).value, [ln], pa.pfx))]
  {
    var pfx := Indent(ln);
    var more := if pa.pfx <= pfx then ln[|pa.pfx|..] else ln;
    assert ln[|pfx| - |TrimPrefix(pfx, pa.pfx)|..] == more;
    assert [ln][1..] == [];
    assert Extended(Last(pa.blocks).value, [ln], pa.pfx) == Longer(Last(pa.blocks).value, more);
  }

  /** So a line that is indented less than the issue continues it too, with its indentation. */
  lemma LessIndentedContinues(pa: Parse, ln: string, matchLine: Match)
    requires Pending(pa) && 0 < |Indent(ln)| < |pa.pfx|
    ensures Read(pa, ln, matchLine) == pa.(blocks := Init(pa.blocks) + [Some(Longer(Last(pa.blocks).value, ln))])
  {
  }

  /** One issue, where the second line is indented less than the first. */
  lemma LessIndentedInput(isu: Issue, matchLine: Match)
    requires matchLine("a:1: m") == Some(isu)
    ensures Blocks(["    a:1: m", "  b:2: n"], matchLine) == [Some(Longer(isu, "  b:2: n"))]
  {
    hide Extended;
    var first, second := "    a:1: m", "  b:2: n";
    FourBlanks();
    TwoBlanks();
    var rest := [second];
    assert [first, second][1..] == rest;
    assert rest[1..] == [] && rest[..1] == rest;
    assert RunLen(rest, "    ") == 1;
    ExtendOnce(isu, second, "    ");
    assert Blocks(rest[1..], matchLine) == [];
  }

  /** A line that begins with a tab, as the Go compiler prints them, joins the issue above. */
  lemma TabInput(isu: Issue, matchLine: Match)
    requires matchLine("a.go:1: m") == Some(isu)
    ensures Blocks(["a.go:1: m", "\thave (int)"], matchLine) == [Some(isu.(message := isu.message + "\n\thave (int)"))]
  {
    var first, second := "a.go:1: m", "\thave (int)";
    IndentIff("", first);
    IndentIff("\t", "have (int)");
    assert "" + first == first && "\t" + "have (int)" == second;
    var rest := [second];
    assert [first, second][1..] == rest;
    assert rest[1..] == [] && rest[..1] == rest;
    assert RunLen(rest, "") == 1;
    assert second[0..] == second && first[0..] == first;
    assert Extended(isu, rest[1..], "") == isu;
    assert Extended(isu, rest, "") == Longer(isu, second);
    assert isu.message + "\n" + second == isu.message + "\n\thave (int)";
    assert Blocks(rest[1..], matchLine) == [];
  }

  lemma FourBlanks()
    ensures Indent("    a:1: m") == "    " && "    a:1: m"[4..] == "a:1: m"
  {
    var ln := "    a:1: m";
    assert ln[1..] == "   a:1: m" && ln[1..][1..] == "  a:1: m" && ln[1..][1..][1..] == " a:1: m";
    assert ln[1..][1..][1..][1..] == "a:1: m";
    assert IndentLen("a:1: m") == 0;
    assert IndentLen("  a:1: m") == 2;
    assert IndentLen("   a:1: m") == 3;
  }

  lemma TwoBlanks()
    ensures Indent("  b:2: n") == "  " && "  b:2: n"[2..] == "b:2: n"
  {
    assert "  b:2: n"[1..] == " b:2: n" && " b:2: n"[1..] == "b:2: n";
    assert IndentLen("b:2: n") == 0;
    assert IndentLen(" b:2: n") == 1;
  }

  lemma ExtendOnce(isu: Issue, ln: string, pfx: string)
    requires !(pfx <= Indent(ln))
    ensures Extended(isu, [ln], pfx) == Longer(isu, ln)
  {
    assert [ln][1..] == [];
  }

  /** What is read, going on from where reading has come to, with nothing overwritten. */
  function BlocksFrom(pa: Parse, lines: seq<string>, matchLine: Match): seq<Option<Issue>> {
    if Pending(pa) then
      var n := RunLen(lines, pa.pfx);
      Init(pa.blocks) + [Some(Extended(Last(pa.blocks).value, lines[..n], pa.pfx))] + Blocks(lines[n..], matchLine)
    else
      pa.blocks + Blocks(lines, matchLine)
  }

  lemma {:induction false} CleanIsBlocksFrom(pa: Parse, lines: seq<string>, matchLine: Match)
    ensures Parsed(pa, lines, Clean(|lines|), matchLine).blocks == BlocksFrom(pa, lines, matchLine)
    decreases |lines|
  {
    hide Read, Indent, Continues, TrimPrefix;
    if lines == [] {
      assert lines[..0] == [] && lines[0..] == [];
      assert Pending(pa) ==> Init(pa.blocks) + [Last(pa.blocks)] == pa.blocks;
    } else {
      assert Clean(|lines|)[1..] == Clean(|lines| - 1);
      CleanIsBlocksFrom(Read(pa, lines[0], matchLine), lines[1..], matchLine);
      if Pending(pa) && Continues(lines[0], pa.pfx) {
        RunGoesOn(pa, lines, matchLine);
      } else {
        BlockBegins(pa, lines, matchLine);
      }
    }
  }

  lemma RunGoesOn(pa: Parse, lines: seq<string>, matchLine: Match)
    requires Pending(pa) && lines != [] && Continues(lines[0], pa.pfx)
    ensures BlocksFrom(Read(pa, lines[0], matchLine), lines[1..], matchLine) == BlocksFrom(pa, lines, matchLine)
  {
    hide Read, Indent, Continues, TrimPrefix, Blocks;
    ContinueOne(pa, lines[0], matchLine);
    var n, isu := RunLen(lines, pa.pfx), Last(pa.blocks).value;
    var pa' := Read(pa, lines[0], matchLine);
    assert Init(pa'.blocks) == Init(pa.blocks);
    assert lines[1..][..n - 1] == lines[..n][1..] && lines[1..][n - 1..] == lines[n..];
    assert [lines[0]][1..] == [];
  }

  lemma BlockBegins(pa: Parse, lines: seq<string>, matchLine: Match)
    requires lines != [] && !(Pending(pa) && Continues(lines[0], pa.pfx))
    ensures BlocksFrom(Read(pa, lines[0], matchLine), lines[1..], matchLine) == BlocksFrom(pa, lines, matchLine)
  {
    hide Continues, Read, Indent, Extended, Blocks, RunLen;
    BeginsBlock(pa, lines[0], matchLine);
    FirstBlock(lines, matchLine);
    if Pending(pa) {
      NoRun(Last(pa.blocks).value, lines, pa.pfx);
      assert lines[0..] == lines;
      assert Init(pa.blocks) + [Last(pa.blocks)] == pa.blocks;
    }
    var pfx := Indent(lines[0]);
    NewBlock(pa.blocks, matchLine(lines[0][|pfx|..]), pfx, lines[1..], matchLine);
  }

  lemma BeginsBlock(pa: Parse, ln: string, matchLine: Match)
    requires !(Pending(pa) && Continues(ln, pa.pfx))
    ensures Read(pa, ln, matchLine) == Parse(pa.blocks + [matchLine(ln[|Indent(ln)|..])], Indent(ln))
  {
    if Pending(pa) {
      ContinueOne(pa, ln, matchLine);
    }
  }

  lemma NewBlock(bs: seq<Option<Issue>>, b: Option<Issue>, pfx: string, lines: seq<string>, matchLine: Match)
    ensures BlocksFrom(Parse(bs + [b], pfx), lines, matchLine) == bs + BlocksFrom(Parse([b], pfx), lines, matchLine)
  {
    hide Extended, Blocks, RunLen;
    assert Init(bs + [b]) == bs && Init([b]) == [];
    assert Last(bs + [b]) == Last([b]) == b;
    if b.Some? {
      var n := RunLen(lines, pfx);
      var first, rest := [Some(Extended(b.value, lines[..n], pfx))], Blocks(lines[n..], matchLine);
      assert [] + first + rest == first + rest;
      assert bs + first + rest == bs + (first + rest);
    } else {
      assert bs + [b] + Blocks(lines, matchLine) == bs + ([b] + Blocks(lines, matchLine));
    }
  }

  lemma FirstBlock(lines: seq<string>, matchLine: Match)
    requires lines != []
    ensures var pfx := Indent(lines[0]);
            Blocks(lines, matchLine)
            == BlocksFrom(Parse([matchLine(lines[0][|pfx|..])], pfx), lines[1..], matchLine)
  {
    hide Extended, RunLen, Indent;
  }

  lemma NoRun(isu: Issue, lines: seq<string>, pfx: string)
    requires lines != [] && !Continues(lines[0], pfx)
    ensures RunLen(lines, pfx) == 0 && Extended(isu, lines[..0], pfx) == isu
  {
    assert lines[..0] == [];
  }

  /** Reading with nothing overwritten finds the blocks. */
  lemma CleanIsBlocks(lines: seq<string>, matchLine: Match)
    ensures Parsed(NOTHING, lines, Clean(|lines|), matchLine).blocks == Blocks(lines, matchLine)
  {
    CleanIsBlocksFrom(NOTHING, lines, matchLine);
  }

  // ---------------------------------------------------------------- when it matters what the range holds

  /** How far the pending issue is indented, if one is pending. */
  function Open(pa: Parse): Option<nat> {
    if Pending(pa) then Some(|pa.pfx|) else None
  }

  /**
   * Every issue found on an indented line is followed, up to the next line that is not indented, by lines that are
   * indented less than it. `open` says how far the issue pending at first is indented.
   */
  predicate Safe(open: Option<nat>, lines: seq<string>, matchLine: Match)
    decreases |lines|
  {
    lines == [] ||
    var pfx, rest := Indent(lines[0]), lines[1..];
    if open.Some? && pfx != "" then
      (open.value == 0 || |pfx| < open.value) && Safe(open, rest, matchLine)
    else
      Safe(if matchLine(lines[0][|pfx|..]).Some? then Some(|pfx|) else None, rest, matchLine)
  }

  /** A line that is not indented, or less than the issue, does not show what the range holds. */
  lemma SafeOne(a: Parse, b: Parse, ln: string, matchLine: Match)
    requires a.blocks == b.blocks && |a.pfx| == |b.pfx|
    requires Pending(b) && Indent(ln) != "" ==> b.pfx == "" || |Indent(ln)| < |b.pfx|
    ensures Read(a, ln, matchLine).blocks == Read(b, ln, matchLine).blocks
    ensures |Read(a, ln, matchLine).pfx| == |Read(b, ln, matchLine).pfx|
    ensures Open(Read(b, ln, matchLine))
         == if Pending(b) && Indent(ln) != "" then Open(b)
            else if matchLine(ln[|Indent(ln)|..]).Some? then Some(|Indent(ln)|) else None
  {
    hide Indent, TrimPrefix;
    var pfx := Indent(ln);
    if pfx == "" || b.pfx == "" || |pfx| < |b.pfx| {
      TrimSame(pfx, a.pfx, b.pfx);
    }
  }

  /** A shorter indentation has neither as a prefix. */
  lemma TrimSame(lead: string, p: string, q: string)
    requires |p| == |q| && (lead == "" || q == "" || |lead| < |q|)
    ensures TrimPrefix(lead, p) == TrimPrefix(lead, q)
    ensures TrimPrefix(lead, q) == "" <==> lead == ""
  {
    if lead == "" {
      assert p <= lead ==> lead[|p|..] == "";
      assert q <= lead ==> lead[|q|..] == "";
    } else if q == "" {
      assert p == "" && lead[0..] == lead;
    }
  }

  lemma {:induction false} SafeReads(a: Parse, b: Parse, lines: seq<string>, marks: seq<string>, matchLine: Match)
    requires a.blocks == b.blocks && |a.pfx| == |b.pfx| && |marks| == |lines|
    requires Safe(Open(b), lines, matchLine)
    ensures Parsed(a, lines, marks, matchLine).blocks == Parsed(b, lines, Clean(|lines|), matchLine).blocks
    decreases |lines|
  {
    hide Read, Indent, Pending;
    if lines != [] {
      assert Clean(|lines|)[1..] == Clean(|lines| - 1);
      var a1 := Marked(a, marks[0]);
      SafeOne(a1, b, lines[0], matchLine);
      SafeReads(Read(a1, lines[0], matchLine), Read(b, lines[0], matchLine), lines[1..], marks[1..], matchLine);
    }
  }

  /** Reading on, a block that something follows stays, and the last one at most gets more lines. */
  lemma {:induction false} Stays(pa: Parse, lines: seq<string>, marks: seq<string>, m: nat, matchLine: Match)
    returns (more: string)
    requires |marks| == |lines| && m < |pa.blocks| && pa.blocks[m].Some?
    ensures var bs := Parsed(pa, lines, marks, matchLine).blocks;
            m < |bs| && bs[m].Some? && bs[m].value.message == pa.blocks[m].value.message + more
    ensures more == "" || more[0] == '\n'
    ensures m < |pa.blocks| - 1 ==> more == ""
    decreases |lines|
  {
    hide Read;
    var was := pa.blocks[m].value.message;
    if lines == [] {
      more := "";
      assert was + more == was;
    } else {
      var first := ReadStays(Marked(pa, marks[0]), lines[0], m, matchLine);
      var rest := Stays(Read(Marked(pa, marks[0]), lines[0], matchLine), lines[1..], marks[1..], m, matchLine);
      more := first + rest;
      assert was + more == was + first + rest;
    }
  }

  lemma ReadStays(pa: Parse, ln: string, m: nat, matchLine: Match) returns (more: string)
    requires m < |pa.blocks| && pa.blocks[m].Some?
    ensures var bs := Read(pa, ln, matchLine).blocks;
            && m < |bs| && bs[m].Some? && bs[m].value.message == pa.blocks[m].value.message + more
            && (m < |pa.blocks| - 1 ==> m < |bs| - 1)
    ensures more == "" || more[0] == '\n'
    ensures m < |pa.blocks| - 1 ==> more == ""
  {
    hide Indent, TrimPrefix;
    var pfx := Indent(ln);
    var t := TrimPrefix(pfx, pa.pfx);
    if |t| > 0 && Pending(pa) && m == |pa.blocks| - 1 {
      more := "\n" + ln[|pfx| - |t|..];
    } else {
      more := "";
    }
  }

  /** A shorter line is no beginning of a longer one with other lines after it. */
  lemma TextsDiffer(x: string, t: string, more: string, t': string, more': string)
    requires |t| < |t'| && '\n' !in t' && (more == "" || more[0] == '\n')
    ensures x + "\n" + t + more != x + "\n" + t' + more'
  {
    var a, b, k := x + "\n" + t + more, x + "\n" + t' + more', |x| + 1 + |t|;
    assert b[k] == t'[|t|];
    if more != "" {
      assert a[k] == '\n';
    }
  }

  /** The message of a block is `x`, and the block is over, or `x` and a line that is shorter than `ln`. */
  predicate Less(bs: seq<Option<Issue>>, m: nat, x: string, t: Option<string>, ln: string)
    requires m < |bs| && bs[m].Some?
  {
    match t
    case None => m < |bs| - 1 && bs[m].value.message == x
    case Some(t) => |t| < |ln| && bs[m].value.message == x + "\n" + t
  }

  /** Two readings in which a message was joined by a line, in one, and by less of it or nothing, in the other. */
  lemma Differ(a: Parse, b: Parse, lines: seq<string>, ma: seq<string>, mb: seq<string>, m: nat,
               x: string, t: Option<string>, ln: string, matchLine: Match)
    requires |ma| == |mb| == |lines| && m < |a.blocks| && m < |b.blocks| && a.blocks[m].Some? && b.blocks[m].Some?
    requires '\n' !in ln && b.blocks[m].value.message == x + "\n" + ln
    requires Less(a.blocks, m, x, t, ln)
    ensures Parsed(a, lines, ma, matchLine).blocks != Parsed(b, lines, mb, matchLine).blocks
  {
    hide Parsed;
    var ra := Stays(a, lines, ma, m, matchLine);
    var rb := Stays(b, lines, mb, m, matchLine);
    match t
    case None =>
    case Some(t) => TextsDiffer(x, t, ra, ln, rb);
  }

  /** What a line adds to the message of the pending issue, if it continues it. */
  function Added(pfx: string, ln: string): Option<string> {
    if !Continues(ln, pfx) then None else if pfx <= Indent(ln) then Some(ln[|pfx|..]) else Some(ln)
  }

  lemma ReadAdds(pa: Parse, ln: string, matchLine: Match)
    requires Pending(pa)
    ensures var m, bs, x := |pa.blocks| - 1, Read(pa, ln, matchLine).blocks, Last(pa.blocks).value.message;
            m < |bs| && bs[m].Some?
            && match Added(pa.pfx, ln)
               case None => m < |bs| - 1 && bs[m].value.message == x
               case Some(t) => bs[m].value.message == x + "\n" + t
  {
    hide Indent;
    ContinueOne(pa, ln, matchLine);
    if Continues(ln, pa.pfx) {
      assert [ln][1..] == [];
    }
  }

  /** Bytes that make a line that is indented as far as the issue add something else than it does. */
  function Bad(pfx: string, ln: string): (mark: string)
    requires |Indent(ln)| >= |pfx|
    ensures |mark| == |pfx|
  {
    if pfx <= Indent(ln) then seq(|pfx|, _ => 'x') else Indent(ln)[..|pfx|]
  }

  lemma BadAdds(pfx: string, ln: string)
    requires |Indent(ln)| >= |pfx| > 0
    ensures var t, t' := Added(pfx, ln), Added(Bad(pfx, ln), ln);
            || (t == Some(ln) && (t'.Some? ==> |t'.value| < |ln|))
            || (t' == Some(ln) && (t.Some? ==> |t.value| < |ln|))
  {
    var lead, mark := Indent(ln), Bad(pfx, ln);
    assert lead[0] == ln[0] && (ln[0] == ' ' || ln[0] == '\t');
    if pfx <= lead {
      assert mark[0] == 'x';
    } else {
      assert pfx != lead;
    }
  }

  /** On lines that are not safe, some bytes make reading find other blocks. */
  lemma {:induction false} Unsafe(pa: Parse, lines: seq<string>, matchLine: Match) returns (marks: seq<string>)
    requires !Safe(Open(pa), lines, matchLine)
    requires forall ln | ln in lines :: '\n' !in ln
    ensures |marks| == |lines|
    ensures Parsed(pa, lines, marks, matchLine).blocks != Parsed(pa, lines, Clean(|lines|), matchLine).blocks
    decreases |lines|
  {
    hide Read, Indent;
    var ln, rest := lines[0], lines[1..];
    assert Clean(|lines|)[1..] == Clean(|rest|);
    if Pending(pa) && pa.pfx != "" && |Indent(ln)| >= |pa.pfx| {
      marks := [Bad(pa.pfx, ln)] + Clean(|rest|);
      assert marks[1..] == Clean(|rest|);
      UnsafeOne(pa, ln, rest, Clean(|rest|), matchLine);
    } else {
      SafeOne(pa, pa, ln, matchLine);
      var later := Unsafe(Read(pa, ln, matchLine), rest, matchLine);
      marks := [""] + later;
      assert marks[1..] == later;
    }
  }

  lemma UnsafeOne(pa: Parse, ln: string, rest: seq<string>, marks: seq<string>, matchLine: Match)
    requires Pending(pa) && |Indent(ln)| >= |pa.pfx| > 0 && '\n' !in ln && |marks| == |rest|
    ensures Parsed(Read(pa.(pfx := Bad(pa.pfx, ln)), ln, matchLine), rest, marks, matchLine).blocks
         != Parsed(Read(pa, ln, matchLine), rest, marks, matchLine).blocks
  {
    hide Read, Indent, Added, Bad, Parsed;
    var bad := pa.(pfx := Bad(pa.pfx, ln));
    var m, x := |pa.blocks| - 1, Last(pa.blocks).value.message;
    BadAdds(pa.pfx, ln);
    ReadAdds(pa, ln, matchLine);
    ReadAdds(bad, ln, matchLine);
    var a, b, t, t' := Read(pa, ln, matchLine), Read(bad, ln, matchLine), Added(pa.pfx, ln), Added(bad.pfx, ln);
    if t == Some(ln) && (t'.Some? ==> |t'.value| < |ln|) {
      Differ(b, a, rest, marks, marks, m, x, t', ln, matchLine);
    } else {
      Differ(a, b, rest, marks, marks, m, x, t, ln, matchLine);
    }
  }

  /** Whatever overwrites the indentation and when, the blocks are those of the lines: just when the lines are safe. */
  lemma OverwritingIsHarmlessIffSafe(lines: seq<string>, matchLine: Match)
    requires forall ln | ln in lines :: '\n' !in ln
    ensures (forall marks | |marks| == |lines| ::
               Parsed(NOTHING, lines, marks, matchLine).blocks == Blocks(lines, matchLine))
       <==> Safe(None, lines, matchLine)
  {
    hide Parsed, Safe, Blocks;
    CleanIsBlocks(lines, matchLine);
    if Safe(None, lines, matchLine) {
      forall marks | |marks| == |lines|
        ensures Parsed(NOTHING, lines, marks, matchLine).blocks == Blocks(lines, matchLine)
      {
        SafeReads(NOTHING, NOTHING, lines, marks, matchLine);
      }
    } else {
      var marks := Unsafe(NOTHING, lines, matchLine);
      assert Parsed(NOTHING, lines, marks, matchLine).blocks != Blocks(lines, matchLine);
    }
  }

  /** In particular lines are safe when none that matches is indented. */
  lemma {:induction false} SafeWhenFlat(open: Option<nat>, lines: seq<string>, matchLine: Match)
    requires forall ln | ln in lines :: Indent(ln) != "" ==> matchLine(ln[|Indent(ln)|..]).None?
    requires open.Some? ==> open.value == 0
    ensures Safe(open, lines, matchLine)
    decreases |lines|
  {
    hide Indent;
    if lines != [] {
      var pfx := Indent(lines[0]);
      SafeWhenFlat(if open.Some? && pfx != "" then open else
                     if matchLine(lines[0][|pfx|..]).Some? then Some(|pfx|) else None, lines[1..], matchLine);
    }
  }
}
