/** Issues, and lists of issues that stand for sets: two issues are the same when place, row and message are. */
module IssueSets {
  import opened Wrappers

  datatype Issue = Issue(
    path: string, name: string, row: int, col: int, end: int, tag: string, labelText: string, message: string)

  datatype Hash = Hash(loc: string, row: int, msg: string)

  datatype View = View(path: string, name: string)

  function HashOf(i: Issue): Hash {
    Hash(if i.path != "" then i.path else i.name, i.row, i.message)
  }

  predicate Valid(i: Issue) {
    (i.name != "" || i.path != "") && i.message != ""
  }

  /** `base` is the last element of a path. */
  predicate InView(i: Issue, v: View, base: string -> string) {
    || (i.name != "" && i.name == v.name)
    || (i.path != "" && i.path == v.path)
    || (i.path != "" && base(i.path) == v.name)
  }

  function Finalize(i: Issue, v: View, base: string -> string): Issue {
    var t := if i.tag == "" then i.(tag := "error") else i;
    if InView(i, v, base) then t.(path := "", name := v.name) else t
  }

  /** Two issues are the same when row and message are and the place is: the path, or the name without one. */
  lemma SameIff(a: Issue, b: Issue)
    ensures HashOf(a) == HashOf(b) <==>
              && a.row == b.row && a.message == b.message
              && (|| (a.path != "" && b.path != "" && a.path == b.path)
                  || (a.path == "" && b.path == "" && a.name == b.name)
                  || (a.path != "" && b.path == "" && a.path == b.name)
                  || (a.path == "" && b.path != "" && a.name == b.path))
  {
  }

  /** A valid issue has a message and a place. */
  lemma ValidIff(i: Issue)
    ensures Valid(i) <==> i.message != "" && HashOf(i).loc != ""
  {
  }

  /** An issue of the view, by whichever of three ways, is filed under the name of the view only; any other stays where
      it is; and a missing tag is set. Nothing else changes. */
  lemma FinalizedIs(i: Issue, v: View, base: string -> string)
    ensures var r := Finalize(i, v, base);
            var here := || (i.name != "" && i.name == v.name)
                        || (i.path != "" && (i.path == v.path || base(i.path) == v.name));
            && (here ==> r.path == "" && r.name == v.name) && (!here ==> r.path == i.path && r.name == i.name)
            && (i.tag == "" ==> r.tag == "error") && (i.tag != "" ==> r.tag == i.tag)
            && r.row == i.row && r.col == i.col && r.end == i.end
            && r.labelText == i.labelText && r.message == i.message
  {
  }

  /** So issues of one view are the same when row and message are, however each was placed; and finalizing twice changes
      nothing. */
  lemma FinalizedMeet(i: Issue, j: Issue, v: View, base: string -> string)
    requires InView(i, v, base) && InView(j, v, base)
    ensures HashOf(Finalize(i, v, base)) == HashOf(Finalize(j, v, base)) <==> i.row == j.row && i.message == j.message
    ensures Finalize(Finalize(i, v, base), v, base) == Finalize(i, v, base)
  {
  }

  function Hashes(s: seq<Issue>): set<Hash> {
    set i | i in s :: HashOf(i)
  }

  ghost predicate NoDuplicates(s: seq<Issue>) {
    forall i, j | 0 <= i < j < |s| :: HashOf(s[i]) != HashOf(s[j])
  }

  /** The issues of a list none of which has come before, in their order. */
  function Firsts(l: seq<Issue>): seq<Issue> {
    if l == [] then [] else
      var n := |l| - 1;
      Firsts(l[..n]) + if HashOf(l[n]) in Hashes(l[..n]) then [] else [l[n]]
  }

  function Prepared(l: seq<Issue>, view: Option<View>, base: string -> string): (r: seq<Issue>)
    ensures |r| == |l|
  {
    seq(|l|, k requires 0 <= k < |l| => if view.None? then l[k] else Finalize(l[k], view.value, base))
  }

  lemma PreparedAt(l: seq<Issue>, view: Option<View>, base: string -> string, n: nat)
    requires n < |l|
    ensures Prepared(l, view, base)[n] == if view.None? then l[n] else Finalize(l[n], view.value, base)
  {
  }

  lemma FirstsNext(l: seq<Issue>, x: Issue)
    ensures Firsts(l + [x]) == Firsts(l) + if HashOf(x) in Hashes(l) then [] else [x]
    ensures Hashes(l + [x]) == Hashes(l) + {HashOf(x)}
  {
    assert (l + [x])[..|l|] == l;
    forall h ensures h in Hashes(l + [x]) <==> h in Hashes(l) || h == HashOf(x) {
      if h in Hashes(l) {
        var i :| i in l && HashOf(i) == h;
        assert i in l + [x];
      }
      assert x in l + [x] by { assert (l + [x])[|l|] == x; }
    }
  }

  lemma HashesJoin(a: seq<Issue>, b: seq<Issue>)
    ensures Hashes(a + b) == Hashes(a) + Hashes(b)
  {
    forall i | i in a || i in b ensures i in a + b { }
  }

  lemma NoDuplicatesNext(l: seq<Issue>, x: Issue)
    ensures NoDuplicates(l + [x]) <==> NoDuplicates(l) && HashOf(x) !in Hashes(l)
  {
    hide HashOf;
    var m := l + [x];
    assert forall i | 0 <= i < |l| :: m[i] == l[i];
    assert m[|l|] == x;
    if HashOf(x) in Hashes(l) {
      var y :| y in l && HashOf(y) == HashOf(x);
      var k :| 0 <= k < |l| && l[k] == y;
      assert HashOf(m[k]) == HashOf(m[|l|]);
    } else {
      forall i | 0 <= i < |l| ensures HashOf(m[i]) != HashOf(x) {
        assert l[i] in l;
      }
    }
    if NoDuplicates(m) {
      forall i, j | 0 <= i < j < |l| ensures HashOf(l[i]) != HashOf(l[j]) {
        assert HashOf(m[i]) != HashOf(m[j]);
      }
    }
  }

  /** Firsts loses no hash and keeps each once. */
  lemma {:induction false} FirstsSame(l: seq<Issue>)
    ensures Hashes(Firsts(l)) == Hashes(l)
    ensures NoDuplicates(Firsts(l))
    ensures NoDuplicates(l) <==> Firsts(l) == l
    ensures |Firsts(l)| <= |l|
  {
    hide HashOf, Hashes, NoDuplicates;
    if l == [] {
      EmptyFirsts();
    } else {
      var l0, x := l[..|l| - 1], l[|l| - 1];
      FirstsSame(l0);
      assert l == l0 + [x];
      FirstsNext(l0, x);
      NoDuplicatesNext(l0, x);
      FirstsNext(Firsts(l0), x);
      NoDuplicatesNext(Firsts(l0), x);
      if HashOf(x) in Hashes(l0) {
        assert Firsts(l) == Firsts(l0);
      } else {
        assert Firsts(l)[..|Firsts(l0)|] == Firsts(l0);
      }
    }
  }

  lemma EmptyFirsts()
    ensures Firsts([]) == [] && Hashes([]) == {} && NoDuplicates([])
  {
  }

  /** Each issue kept is the first of its hash, and they keep their order. */
  lemma {:induction false} FirstsOrder(l: seq<Issue>) returns (at: seq<nat>)
    ensures |at| == |Firsts(l)|
    ensures forall k | 0 <= k < |at| :: at[k] < |l| && Firsts(l)[k] == l[at[k]] && IsFirst(l, at[k])
    ensures forall j, k | 0 <= j < k < |at| :: at[j] < at[k]
    ensures forall n | 0 <= n < |l| && IsFirst(l, n) :: n in at
  {
    hide HashOf, Hashes, IsFirst;
    if l == [] {
      at := [];
    } else {
      var n := |l| - 1;
      var before := FirstsOrder(l[..n]);
      at := before + if HashOf(l[n]) in Hashes(l[..n]) then [] else [n];
      assert l == l[..n] + [l[n]];
      FirstsNext(l[..n], l[n]);
      forall k | 0 <= k < n ensures IsFirst(l, k) == IsFirst(l[..n], k) {
        FirstHere(l, n, k);
      }
      FirstHere(l, |l|, n);
      assert l[..|l|] == l;
      forall m | 0 <= m < |l| && IsFirst(l, m) ensures m in at {
        if m < n {
          assert IsFirst(l[..n], m);
        } else {
          assert at[|at| - 1] == n;
        }
      }
    }
  }

  ghost predicate IsFirst(l: seq<Issue>, n: int) {
    0 <= n < |l| && HashOf(l[n]) !in Hashes(l[..n])
  }

  lemma FirstHere(l: seq<Issue>, n: nat, k: nat)
    requires k < n <= |l|
    ensures IsFirst(l[..n], k) == IsFirst(l, k)
    ensures IsFirst(l, k) == (HashOf(l[k]) !in Hashes(l[..k]))
  {
    hide HashOf, Hashes;
    assert l[..n][..k] == l[..k];
  }

  /** Adding in two steps is adding at once. */
  lemma {:induction false} FirstsTwice(a: seq<Issue>, b: seq<Issue>)
    ensures Firsts(Firsts(a) + b) == Firsts(a + b)
  {
    hide HashOf, Hashes, Firsts, NoDuplicates;
    FirstsSame(a);
    if b == [] {
      assert Firsts(a) + b == Firsts(a) && a + b == a;
      FirstsSame(Firsts(a));
    } else {
      var n := |b| - 1;
      FirstsTwice(a, b[..n]);
      assert Firsts(a) + b == (Firsts(a) + b[..n]) + [b[n]] && a + b == (a + b[..n]) + [b[n]];
      FirstsNext(Firsts(a) + b[..n], b[n]);
      FirstsNext(a + b[..n], b[n]);
      HashesJoin(Firsts(a), b[..n]);
      HashesJoin(a, b[..n]);
    }
  }

  // ---------------------------------------------------------------- the operations

  method Has(s: seq<Issue>, p: Issue) returns (yes: bool)
    ensures yes <==> HashOf(p) in Hashes(s)
  {
    for n := 0 to |s|
      invariant forall k | 0 <= k < n :: HashOf(s[k]) != HashOf(p)
    {
      if HashOf(p) == HashOf(s[n]) {
        return true;
      }
    }
    return false;
  }

  /** Adding nothing changes nothing; anything else makes one list of the first issues of both. */
  method Merge(s: seq<Issue>, view: Option<View>, l: seq<Issue>, base: string -> string) returns (res: seq<Issue>)
    ensures l == [] ==> res == s
    ensures l != [] ==> res == Firsts(Prepared(s + l, view, base))
  {
    hide HashOf, Hashes, Firsts, Prepared, Finalize;
    if |l| == 0 {
      return s;
    }
    EmptyFirsts();
    res := [];
    var seen: set<Hash> := {};
    ghost var all := Prepared(s + l, view, base);
    ghost var n := 0;
    var lists := [s, l];
    for i := 0 to 2
      invariant n == if i == 0 then 0 else if i == 1 then |s| else |s| + |l|
      invariant res == Firsts(all[..n]) && seen == Hashes(all[..n])
    {
      var isus := lists[i];
      for j := 0 to |isus|
        invariant n == j + if i == 0 then 0 else |s|
        invariant res == Firsts(all[..n]) && seen == Hashes(all[..n])
      {
        var isu := isus[j];
        assert isu == (s + l)[n];
        if view.Some? {
          isu := Finalize(isu, view.value, base);
        }
        PreparedAt(s + l, view, base, n);
        assert all[..n + 1] == all[..n] + [isu];
        FirstsNext(all[..n], isu);
        n := n + 1;
        if HashOf(isu) in seen {
          continue;
        }
        seen := seen + {HashOf(isu)};
        res := res + [isu];
      }
    }
    assert all[..n] == all;
  }

  /** What is left of a list without the issues of another. */
  function Without(s: seq<Issue>, hs: set<Hash>): seq<Issue> {
    if s == [] then [] else
      var n := |s| - 1;
      Without(s[..n], hs) + if HashOf(s[n]) in hs then [] else [s[n]]
  }

  /** All issues stay that are not taken out, also the same one twice, and they keep their order. */
  lemma {:induction false} WithoutOrder(s: seq<Issue>, hs: set<Hash>) returns (at: seq<nat>)
    ensures |at| == |Without(s, hs)|
    ensures forall k | 0 <= k < |at| :: at[k] < |s| && Without(s, hs)[k] == s[at[k]] && HashOf(s[at[k]]) !in hs
    ensures forall j, k | 0 <= j < k < |at| :: at[j] < at[k]
    ensures forall n | 0 <= n < |s| && HashOf(s[n]) !in hs :: n in at
  {
    hide HashOf;
    if s == [] {
      at := [];
    } else {
      var n := |s| - 1;
      var before := WithoutOrder(s[..n], hs);
      at := before + if HashOf(s[n]) in hs then [] else [n];
      forall i | 0 <= i < |s| && HashOf(s[i]) !in hs ensures i in at {
        if i < n {
          assert s[..n][i] == s[i];
          assert i in before;
        } else {
          assert at[|at| - 1] == n;
        }
      }
    }
  }

  method Remove(s: seq<Issue>, l: seq<Issue>) returns (res: seq<Issue>)
    ensures res == Without(s, Hashes(l))
  {
    res := [];
    for n := 0 to |s|
      invariant res == Without(s[..n], Hashes(l))
    {
      assert s[..n + 1][..n] == s[..n];
      var has := Has(l, s[n]);
      if !has {
        res := res + [s[n]];
      }
    }
    assert s[..|s|] == s;
  }

  lemma {:induction false} WithoutHashes(s: seq<Issue>, hs: set<Hash>)
    ensures Hashes(Without(s, hs)) == Hashes(s) - hs
  {
    hide HashOf, Hashes;
    EmptyFirsts();
    if s != [] {
      var s0, x := s[..|s| - 1], s[|s| - 1];
      WithoutHashes(s0, hs);
      assert s == s0 + [x];
      FirstsNext(s0, x);
      FirstsNext(Without(s0, hs), x);
      assert Without(s0, hs) + [] == Without(s0, hs);
    }
  }

  /** Removing and then adding again gives the same set, though the order may change. */
  lemma RemoveThenAdd(s: seq<Issue>, l: seq<Issue>)
    requires Hashes(l) <= Hashes(s)
    ensures Hashes(Firsts(Without(s, Hashes(l)) + l)) == Hashes(s)
  {
    WithoutHashes(s, Hashes(l));
    HashesJoin(Without(s, Hashes(l)), l);
    FirstsSame(Without(s, Hashes(l)) + l);
  }

  ghost predicate Equals(s: seq<Issue>, t: seq<Issue>) {
    |s| == |t| && Hashes(s) <= Hashes(t)
  }

  /** A length test and one-sided membership. */
  method Equal(s: seq<Issue>, issues: seq<Issue>) returns (eq: bool)
    ensures eq <==> Equals(s, issues)
  {
    if |s| != |issues| {
      return false;
    }
    for n := 0 to |s|
      invariant forall k | 0 <= k < n :: HashOf(s[k]) in Hashes(issues)
    {
      var has := Has(issues, s[n]);
      if !has {
        assert HashOf(s[n]) in Hashes(s);
        return false;
      }
    }
    return true;
  }

  lemma {:induction false} HashCount(s: seq<Issue>)
    requires NoDuplicates(s)
    ensures |Hashes(s)| == |s|
  {
    if s == [] {
      assert Hashes(s) == {};
    } else {
      var n := |s| - 1;
      HashCount(s[..n]);
      assert s == s[..n] + [s[n]];
      FirstsNext(s[..n], s[n]);
    }
  }

  /** On lists without duplicates the one-sided test decides whether they are the same set. */
  lemma EqualsIsSetEquality(s: seq<Issue>, t: seq<Issue>)
    requires NoDuplicates(s) && NoDuplicates(t)
    ensures Equals(s, t) <==> Hashes(s) == Hashes(t)
  {
    HashCount(s);
    HashCount(t);
    if Equals(s, t) {
      SubsetSize(Hashes(s), Hashes(t));
    }
  }

  /** So there it is an equivalence, and what Merge builds it compares without regard to order or repetition. */
  lemma EqualsIsEquivalence(s: seq<Issue>, t: seq<Issue>, u: seq<Issue>)
    requires NoDuplicates(s) && NoDuplicates(t) && NoDuplicates(u)
    ensures Equals(s, t) <==> Equals(t, s)
    ensures Equals(s, t) && Equals(t, u) ==> Equals(s, u)
    ensures Equals(Firsts(s + t), Firsts(t + s))
  {
    EqualsIsSetEquality(s, t);
    EqualsIsSetEquality(t, s);
    FirstsSame(s + t);
    FirstsSame(t + s);
    HashesJoin(s, t);
    HashesJoin(t, s);
    EqualsIsSetEquality(Firsts(s + t), Firsts(t + s));
  }

  /** With duplicates it is not even symmetric: it is when both lists have the same hashes or neither test passes. */
  lemma EqualsSymmetric(s: seq<Issue>, t: seq<Issue>)
    requires |s| == |t|
    ensures (Equals(s, t) <==> Equals(t, s)) <==> !(Hashes(s) < Hashes(t)) && !(Hashes(t) < Hashes(s))
  {
  }

  lemma EqualsNotSymmetric()
    ensures exists s, t :: Equals(s, t) && !Equals(t, s)
  {
    var a := Issue("", "a", 0, 0, 0, "", "", "m");
    var b := a.(name := "b");
    assert HashOf(a) != HashOf(b) by { assert "a"[0] != "b"[0]; }
    assert Hashes([a, a]) == {HashOf(a)};
    assert Hashes([a, b]) == {HashOf(a), HashOf(b)} by {
      assert [a, b][0] == a && [a, b][1] == b;
    }
    assert Equals([a, a], [a, b]) && !Equals([a, b], [a, a]);
  }
}
