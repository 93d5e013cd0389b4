/** The memo table: a list of entries searched by key, that refines a map. */
module Memo {
  import opened Wrappers

  type Key = string

  /** A value that asked to survive Clear; it is told the stamp of every Clear it survives. */
  class Sticky {
    var invAt: nat

    constructor ()
      ensures invAt == 0
    {
      invAt := 0;
    }

    method InvalidateMemo(at: nat)
      modifies this
      ensures invAt == at
    {
      invAt := at;
    }
  }

  datatype Value = Plain(x: int) | Stick(s: Sticky)

  /** The counter all memos of the program draw their stamps from. */
  class Clock {
    var last: nat

    method InvAt() returns (at: nat)
      modifies this
      ensures at == last == old(last) + 1
    {
      last := last + 1;
      at := last;
    }
  }

  /** Every stamp was drawn from the counter; a new sticky value has none. */
  ghost predicate Stamped(all: set<Sticky>, clock: Clock)
    reads all, clock
  {
    forall s | s in all :: s.invAt <= clock.last
  }

  ghost predicate Known(c: map<Key, Value>, all: set<Sticky>) {
    forall k | k in c && c[k].Stick? :: c[k].s in all
  }

  class Entry {
    const k: Key
    var v: Option<Value>

    constructor (k: Key)
      ensures this.k == k && v == None
    {
      this.k, v := k, None;
    }
  }

  function Kept(c: map<Key, Value>): map<Key, Value> {
    map k | k in c && c[k].Stick? :: c[k]
  }

  /** Read carries what its function would make. */
  datatype Op = DoPeek(k: Key) | DoRead(k: Key, made: Option<Value>) | DoDel(k: Key) | DoClear

  /** What one operation makes of the map, as the methods above promise. */
  function Next(c: map<Key, Value>, op: Op): map<Key, Value> {
    match op
    case DoPeek(_) => c
    case DoRead(k, made) => if k !in c && made.Some? then c[k := made.value] else c
    case DoDel(k) => c - {k}
    case DoClear => Kept(c)
  }

  ghost predicate Has(l: seq<Entry>, k: Key) {
    exists i | 0 <= i < |l| :: l[i].k == k
  }

  /** The entries are for the keys of the map, one each. */
  ghost predicate Indexes(l: seq<Entry>, c: map<Key, Value>) {
    && (forall i, j | 0 <= i < j < |l| :: l[i].k != l[j].k)
    && (forall k :: k in c <==> Has(l, k))
  }

  ghost predicate Holds(l: seq<Entry>, c: map<Key, Value>)
    reads l
  {
    forall i | 0 <= i < |l| :: l[i].k in c && l[i].v == Some(c[l[i].k])
  }

  function Dropped(l: seq<Entry>, i: nat): seq<Entry>
    requires i < |l|
  {
    l[i := l[|l| - 1]][..|l| - 1]
  }

  /** Moving the last entry into the gap loses the one key and no other. */
  lemma DroppedIndexes(l: seq<Entry>, i: nat, c: map<Key, Value>)
    requires i < |l| && Indexes(l, c)
    ensures Indexes(Dropped(l, i), c - {l[i].k})
    ensures forall e :: e in Dropped(l, i) <==> e in l && e.k != l[i].k
  {
    var n, d := |l| - 1, Dropped(l, i);
    assert forall j | 0 <= j < n :: d[j] == l[if j == i then n else j];
    forall e | e in l && e.k != l[i].k ensures e in d {
      var j :| 0 <= j < |l| && l[j] == e;
      assert d[if j == n then i else j] == e;
    }
    forall k ensures k in c - {l[i].k} <==> Has(d, k) {
      if k in c && k != l[i].k {
        var j :| 0 <= j < |l| && l[j].k == k;
        assert d[if j == n then i else j].k == k;
      }
      if Has(d, k) {
        var j :| 0 <= j < |d| && d[j].k == k;
        assert l[if j == i then n else j].k == k;
      }
    }
  }

  lemma AddedIndexes(l: seq<Entry>, p: Entry, c: map<Key, Value>, v: Value)
    requires Indexes(l, c) && p.k !in c
    ensures Indexes(l + [p], c[p.k := v])
  {
    var d := l + [p];
    assert forall j | 0 <= j < |l| :: Has(l, l[j].k);
    forall k ensures k in c[p.k := v] <==> Has(d, k) {
      assert d[|l|] == p;
      if Has(l, k) {
        var j :| 0 <= j < |l| && l[j].k == k;
        assert d[j].k == k;
      }
    }
  }

  class M {
    var ml: seq<Entry>
    ghost var contents: map<Key, Value>

    constructor ()
      ensures Valid() && contents == map[] && ml == []
    {
      ml, contents := [], map[];
    }

    /** Keys are unique, every entry has a value, and `contents` is the map they make up. */
    ghost predicate Valid()
      reads this, ml
    {
      Indexes(ml, contents) && Holds(ml, contents)
    }

    method Index(k: Key) returns (i: int)
      ensures -1 <= i < |ml|
      ensures i >= 0 ==> ml[i].k == k
      ensures i < 0 <==> !Has(ml, k)
    {
      for n := 0 to |ml|
        invariant forall j | 0 <= j < n :: ml[j].k != k
      {
        if ml[n].k == k {
          return n;
        }
      }
      return -1;
    }

    method Peek(k: Key) returns (v: Option<Value>)
      requires Valid()
      ensures v == if k in contents then Some(contents[k]) else None
    {
      var i := Index(k);
      v := if i < 0 then None else ml[i].v;
    }

    /** The entry for the key, which may have to be added. */
    method Memo(k: Key) returns (p: Entry)
      requires Valid()
      modifies `ml
      ensures p.k == k
      ensures k in contents ==> ml == old(ml) && p in ml
      ensures k !in contents ==> ml == old(ml) + [p] && fresh(p) && p.v == None
    {
      var i := Index(k);
      if i < 0 {
        p := new Entry(k);
        ml := ml + [p];
      } else {
        p := ml[i];
      }
    }

    /** The value of the key; `make` is evaluated only when there is none, and no value is not remembered. */
    method Read(k: Key, make: () -> Option<Value>) returns (v: Option<Value>, made: bool)
      requires Valid()
      modifies this
      ensures Valid()
      ensures made == (k !in old(contents))
      ensures v == if made then make() else Some(old(contents)[k])
      ensures contents == Next(old(contents), DoRead(k, make()))
      ensures contents == old(contents) ==> forall e :: e in ml <==> e in old(ml)
    {
      hide Indexes, Has, Dropped;
      var p := Memo(k);
      if p.v.Some? {
        return p.v, false;
      }
      v, made := make(), true;
      p.v := v;
      AddedIndexes(old(ml), p, contents, if v.Some? then v.value else Plain(0));
      if v.Some? {
        contents := contents[k := v.value];
        return;
      }
      contents := contents[k := Plain(0)];
      Del(k);
      assert contents == old(contents);
    }

    /** Removes the key and nothing else, although the last entry takes its place. */
    method Del(k: Key)
      requires Indexes(ml, contents)
      requires forall e | e in ml && e.k != k :: e.k in contents && e.v == Some(contents[e.k])
      modifies this
      ensures Valid()
      ensures contents == Next(old(contents), DoDel(k))
      ensures forall e :: e in ml <==> e in old(ml) && e.k != k
    {
      hide Indexes, Has;
      var i := Index(k);
      Covers(ml, contents, k);
      if i < 0 {
        assert contents == contents - {k};
        return;
      }
      DroppedIndexes(ml, i, contents);
      var n := |ml| - 1;
      ml := ml[i := ml[n]];
      ml := ml[..n];
      contents := contents - {k};
      forall j | 0 <= j < |ml| ensures ml[j].k in contents && ml[j].v == Some(contents[ml[j].k]) {
        assert ml[j] in ml;
      }
    }

    /** Forgets what is not sticky; what is keeps its entry, and is told one stamp, larger than every earlier one. */
    method Clear(clock: Clock)
      requires Valid()
      requires forall k | k in contents && contents[k].Stick? :: contents[k].s.invAt <= clock.last
      modifies this, clock, set k | k in contents && contents[k].Stick? :: contents[k].s
      ensures Valid()
      ensures contents == Next(old(contents), DoClear)
      ensures forall e :: e in ml <==> e in old(ml) && IsSticky(e)
      ensures clock.last == old(clock.last) + 1
      ensures forall k | k in contents :: contents[k].s.invAt == clock.last > old(contents[k].s.invAt)
    {
      hide Indexes, Has;
      var at := clock.InvAt();
      var stkl := ClearPlain();
      ghost var left, now := ml, contents;
      forall i | 0 <= i < |stkl| ensures now[left[i].k] == Stick(stkl[i]) { }
      for i := 0 to |stkl|
        invariant Valid() && contents == now && ml == left && clock.last == at
        invariant forall j | 0 <= j < i :: stkl[j].invAt == at
      {
        stkl[i].InvalidateMemo(at);
      }
      forall k | k in contents ensures contents[k].s.invAt == at {
        var i := Place(ml, contents, k);
      }
    }

    /** Any operation does to the map what is said of it, and keeps all stamps of the program within the counter,
        which is what clearing asks for. */
    method Perform(op: Op, clock: Clock, ghost all: set<Sticky>)
      requires Valid() && Stamped(all, clock) && Known(contents, all)
      requires op.DoRead? && op.made.Some? && op.made.value.Stick? ==> op.made.value.s in all
      modifies this, clock, all
      ensures Valid() && contents == Next(old(contents), op)
      ensures Stamped(all, clock) && Known(contents, all) && clock.last >= old(clock.last)
      ensures forall s | s in all ::
                s.invAt == if op == DoClear && Stick(s) in old(contents).Values then clock.last else old(s.invAt)
      ensures op == DoClear ==> forall s | s in all :: old(s.invAt) < clock.last
    {
      match op
      case DoPeek(k) => var v := Peek(k);
      case DoRead(k, made) => var v, _ := Read(k, () => made);
      case DoDel(k) => Del(k);
      case DoClear => Clear(clock);
    }

    method ClearPlain() returns (stkl: seq<Sticky>)
      requires Valid()
      modifies this
      ensures Valid()
      ensures contents == Kept(old(contents))
      ensures forall e :: e in ml <==> e in old(ml) && IsSticky(e)
      ensures |stkl| == |ml| && forall i | 0 <= i < |ml| :: ml[i].v == Some(Stick(stkl[i]))
    {
      hide Has;
      var all := ml;
      ml, stkl := [], [];
      for i := 0 to |all|
        invariant contents == old(contents)
        invariant |stkl| == |ml| && forall j | 0 <= j < |ml| :: ml[j].v == Some(Stick(stkl[j]))
        invariant forall e :: e in ml <==> e in all[..i] && IsSticky(e)
        invariant forall j, m | 0 <= j < m < |ml| :: ml[j].k != ml[m].k
      {
        var p := all[i];
        if p.v.Some? && p.v.value.Stick? {
          forall j | 0 <= j < |ml| ensures ml[j].k != p.k {
            assert ml[j] in all[..i];
          }
          ml := ml + [p];
          stkl := stkl + [p.v.value.s];
        }
      }
      assert all[..|all|] == all;
      forall j | 0 <= j < |ml| ensures ml[j].k in Kept(contents) && ml[j].v == Some(contents[ml[j].k]) {
        assert ml[j] in all;
      }
      forall k ensures k in Kept(contents) <==> Has(ml, k) {
        if k in Kept(contents) {
          var i := Place(all, contents, k);
          assert all[i] in ml;
          HasAt(ml, all[i]);
        } else if Has(ml, k) {
          var e := Found(ml, k);
        }
      }
      contents := Kept(contents);
    }
  }

  ghost predicate IsSticky(e: Entry)
    reads e
  {
    e.v.Some? && e.v.value.Stick?
  }

  lemma Covers(l: seq<Entry>, c: map<Key, Value>, k: Key)
    requires Indexes(l, c)
    ensures k in c <==> Has(l, k)
    ensures forall e | e in l :: e.k in c
  {
    forall e | e in l ensures Has(l, e.k) { }
  }

  lemma Place(l: seq<Entry>, c: map<Key, Value>, k: Key) returns (i: nat)
    requires Indexes(l, c) && k in c
    ensures i < |l| && l[i].k == k
  {
    i :| 0 <= i < |l| && l[i].k == k;
  }

  lemma Found(l: seq<Entry>, k: Key) returns (e: Entry)
    requires Has(l, k)
    ensures e in l && e.k == k
  {
    var i :| 0 <= i < |l| && l[i].k == k;
    e := l[i];
  }

  lemma HasAt(l: seq<Entry>, e: Entry)
    requires e in l
    ensures Has(l, e.k)
  {
  }

  // ---------------------------------------------------------------- over any run of operations

  function After(c: map<Key, Value>, ops: seq<Op>): map<Key, Value>
    decreases |ops|
  {
    if ops == [] then c else After(Next(c, ops[0]), ops[1..])
  }

  /** What one operation means for one key: a value made for a key without one is there, one deleted, or cleared and not
      sticky, is gone, and nothing else changes. */
  lemma OneKey(c: map<Key, Value>, op: Op, k: Key)
    ensures k !in c && op.DoRead? && op.k == k && op.made.Some? ==> k in Next(c, op) && Next(c, op)[k] == op.made.value
    ensures op == DoDel(k) || (op == DoClear && k in c && c[k].Plain?) ==> k !in Next(c, op)
    ensures k in c && op != DoDel(k) && (op == DoClear ==> c[k].Stick?) ==> k in Next(c, op) && Next(c, op)[k] == c[k]
    ensures k !in c && (op.DoRead? && op.k == k ==> op.made.None?) ==> k !in Next(c, op)
  {
  }

  lemma {:induction false} AfterJoin(c: map<Key, Value>, a: seq<Op>, b: seq<Op>)
    ensures After(c, a + b) == After(After(c, a), b)
    decreases |a|
  {
    hide Next;
    if a == [] {
      assert a + b == b;
    } else {
      assert (a + b)[1..] == a[1..] + b;
      AfterJoin(Next(c, a[0]), a[1..], b);
    }
  }

  /** The value a Read makes for a key without one is what the table holds until it is forgotten. */
  lemma ReadRemembers(c: map<Key, Value>, a: seq<Op>, k: Key, v: Value, b: seq<Op>)
    requires k !in After(c, a) && forall op | op in b :: !Forgets(op, k, v)
    ensures var r := After(c, a + [DoRead(k, Some(v))] + b); k in r && r[k] == v
  {
    hide After;
    var op := DoRead(k, Some(v));
    AfterJoin(c, a + [op], b);
    AfterJoin(c, a, [op]);
    AfterOne(After(c, a), op);
    ValueStays(After(c, a + [op]), b, k);
  }

  lemma AfterOne(c: map<Key, Value>, op: Op)
    ensures After(c, [op]) == Next(c, op)
  {
    assert [op][1..] == [];
    assert After(Next(c, op), []) == Next(c, op);
  }

  /** What is deleted, or cleared without being sticky, is gone until a Read makes another value. */
  lemma ForgottenIsGone(c: map<Key, Value>, a: seq<Op>, op: Op, k: Key, b: seq<Op>)
    requires op == DoDel(k) || (op == DoClear && (k in After(c, a) ==> After(c, a)[k].Plain?))
    requires forall o | o in b :: !(o.DoRead? && o.k == k && o.made.Some?)
    ensures k !in After(c, a + [op] + b)
  {
    hide After;
    AfterJoin(c, a + [op], b);
    AfterJoin(c, a, [op]);
    AfterOne(After(c, a), op);
    StaysGone(After(c, a + [op]), k, b);
  }

  lemma {:induction false} StaysGone(c: map<Key, Value>, k: Key, ops: seq<Op>)
    requires k !in c && forall o | o in ops :: !(o.DoRead? && o.k == k && o.made.Some?)
    ensures k !in After(c, ops)
    decreases |ops|
  {
    if ops != [] {
      assert ops[0] in ops;
      StaysGone(Next(c, ops[0]), k, ops[1..]);
    }
  }

  /** Whether an operation may make the table forget the value of a key. */
  predicate Forgets(op: Op, k: Key, v: Value) {
    op == DoDel(k) || (op == DoClear && !v.Stick?)
  }

  /** Once made, a value is what every later Read returns, until it is deleted or, unless it is sticky, cleared. */
  lemma {:induction false} ValueStays(c: map<Key, Value>, ops: seq<Op>, k: Key)
    requires k in c && forall op | op in ops :: !Forgets(op, k, c[k])
    ensures k in After(c, ops) && After(c, ops)[k] == c[k]
    decreases |ops|
  {
    if ops != [] {
      assert ops[0] in ops;
      assert k in Next(c, ops[0]) && Next(c, ops[0])[k] == c[k];
      ValueStays(Next(c, ops[0]), ops[1..], k);
    }
  }

  /** A value in the table was there before or was made by a Read of its key, and has not been forgotten since. */
  lemma {:induction false} ValueWasMade(c: map<Key, Value>, ops: seq<Op>, k: Key)
    requires k in After(c, ops)
    ensures
      || (k in c && After(c, ops)[k] == c[k] && forall op | op in ops :: !Forgets(op, k, c[k]))
      || exists n | 0 <= n < |ops| ::
           ops[n] == DoRead(k, Some(After(c, ops)[k]))
               && forall m | n < m < |ops| :: !Forgets(ops[m], k, After(c, ops)[k])
    decreases |ops|
  {
    if ops != [] {
      var v, rest := After(c, ops)[k], ops[1..];
      ValueWasMade(Next(c, ops[0]), rest, k);
      if n :| 0 <= n < |rest| && rest[n] == DoRead(k, Some(v)) && forall m | n < m < |rest| :: !Forgets(rest[m], k, v) {
        assert ops[n + 1] == DoRead(k, Some(v));
        forall m | n + 1 < m < |ops| ensures !Forgets(ops[m], k, v) {
          assert ops[m] == rest[m - 1];
        }
      } else {
        assert k in Next(c, ops[0]) && Next(c, ops[0])[k] == v;
        assert forall op | op in rest :: !Forgets(op, k, v);
        if k in c && !Forgets(ops[0], k, v) {
          assert c[k] == v;
          forall op | op in ops ensures !Forgets(op, k, v) {
            assert op == ops[0] || op in rest;
          }
        } else {
          assert ops[0] == DoRead(k, Some(v));
          forall m | 0 < m < |ops| ensures !Forgets(ops[m], k, v) {
            assert ops[m] in rest by { assert ops[m] == rest[m - 1]; }
          }
        }
      }
    }
  }
}
