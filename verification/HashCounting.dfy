/** The bookkeeping of hash tables: the counter against the buckets, the key order against
    the live keys, and what a walk along the key order visits. */
module HashCounting {
  import opened Sexps
  import opened HashTables

  // ---------- the counter ----------

  ghost function Pick<T>(s: set<T>): (x: T)
    requires s != {}
    ensures x in s
  {
    var x :| x in s;
    x
  }

  ghost function SumOver<F>(b: map<int, Bucket<F>>, hs: set<int>): nat
    requires hs <= b.Keys
  {
    if hs == {} then 0
    else
      var h := Pick(hs);
      |b[h]| + SumOver(b, hs - {h})
  }

  /** The total length of the buckets. */
  ghost function Total<F>(t: Table<F>): nat {
    SumOver(t.buckets, t.buckets.Keys)
  }

  lemma {:induction false} SumPick<F>(b: map<int, Bucket<F>>, hs: set<int>, h: int)
    requires hs <= b.Keys && h in hs
    ensures SumOver(b, hs) == |b[h]| + SumOver(b, hs - {h})
    decreases hs
  {
    var g := Pick(hs);
    if g != h {
      SumPick(b, hs - {g}, h);
      SumPick(b, hs - {h}, g);
      assert hs - {g} - {h} == hs - {h} - {g};
    }
  }

  lemma {:induction false} SumFrame<F>(b: map<int, Bucket<F>>, b': map<int, Bucket<F>>, hs: set<int>)
    requires hs <= b.Keys && hs <= b'.Keys && forall h | h in hs :: b[h] == b'[h]
    ensures SumOver(b, hs) == SumOver(b', hs)
    decreases hs
  {
    if hs != {} {
      var h := Pick(hs);
      SumPick(b, hs, h);
      SumPick(b', hs, h);
      SumFrame(b, b', hs - {h});
    }
  }

  lemma TotalUpdate<F>(b: map<int, Bucket<F>>, h: int, s: Bucket<F>)
    ensures SumOver(b[h := s], b[h := s].Keys) ==
            SumOver(b, b.Keys) - (if h in b then |b[h]| else 0) + |s|
  {
    var b' := b[h := s];
    SumPick(b', b'.Keys, h);
    SumFrame(b, b', b.Keys - {h});
    assert b'.Keys - {h} == b.Keys - {h};
    if h in b {
      SumPick(b, b.Keys, h);
    } else {
      assert b.Keys - {h} == b.Keys;
    }
  }

  /** A delete whose bucket exists but does not hold the key. */
  predicate Misses<F>(t: Table<F>, op: Op<F>) {
    && op.DeleteOp?
    && var h := HashExpression(op.key);
       h.Some? && h.value in t.buckets && Find(t.buckets[h.value], op.key) == |t.buckets[h.value]|
  }

  /** Each operation keeps the distance between the buckets and the counter, except that a
      missing delete adds one to it and a clear resets it. */
  lemma DriftStep<F>(t: Table<F>, op: Op<F>)
    ensures Total(Do(t, op)) - Do(t, op).count ==
            if op.ClearOp? then 0 else Total(t) - t.count + (if Misses(t, op) then 1 else 0)
  {
    hide HashExpression;
    match op
    case SetOp(k, v) =>
      if HashExpression(k).Some? {
        TotalUpdate(t.buckets, HashExpression(k).value, Set(t, k, v).value.buckets[HashExpression(k).value]);
      }
    case DeleteOp(k) =>
      if HashExpression(k).Some? && HashExpression(k).value in t.buckets {
        TotalUpdate(t.buckets, HashExpression(k).value, Delete(t, k).value.buckets[HashExpression(k).value]);
      }
    case ClearOp =>
      assert Cleared(t).buckets.Keys == {};
  }

  /** How many deletes have missed since the table was last cleared. */
  function MissCount<F>(ops: seq<Op<F>>): nat {
    if ops == [] then 0
    else
      var n := |ops| - 1;
      if ops[n].ClearOp? then 0
      else MissCount(ops[..n]) + (if Misses(DoAll(ops[..n]), ops[n]) then 1 else 0)
  }

  /** The counter equals the total bucket length exactly when no delete has missed since the
      last clear; otherwise `HashCountKeys` panics. */
  lemma {:induction false} CounterExact<F>(ops: seq<Op<F>>)
    ensures Total(DoAll(ops)) - DoAll(ops).count == MissCount(ops)
    ensures DoAll(ops).count == Total(DoAll(ops)) <==> MissCount(ops) == 0
    decreases |ops|
  {
    if ops == [] {
      assert EmptyTable<F>().buckets.Keys == {};
    } else {
      var n := |ops| - 1;
      CounterExact(ops[..n]);
      DriftStep(DoAll(ops[..n]), ops[n]);
    }
  }

  /** Deleting a key twice is the smallest history that leaves the counter wrong. */
  lemma DeletedTwice<F>(v: Sexp<F>)
    ensures var ops: seq<Op<F>> := [SetOp(Int(1), v), DeleteOp(Int(1)), DeleteOp(Int(1))];
            DoAll(ops).count == -1 && Total(DoAll(ops)) == 0
  {
    var a: Op<F> := SetOp(Int(1), v);
    var d: Op<F> := DeleteOp(Int(1));
    var t1 := Table(map[1 := [Entry(Int(1), v)]], [Int(1)], 1);
    var t2 := Table(map[1 := []], [Int(1)], 0);
    var ops := [a, d, d];
    assert ops[..2] == [a, d] && [a, d][..1] == [a] && [a][..0] == [];
    assert SameKey<F>(Int(1), Int(1)) by {
      WrapZero(0);
    }
    assert DoAll([a]) == t1;
    assert Find(t1.buckets[1], Int(1)) == 0;
    assert DoAll([a, d]) == t2;
    NoneIn<F>(Int(1));
    assert DoAll(ops) == Table(map[1 := []], [Int(1)], -1);
    SumPick(t2.buckets, {1}, 1);
    assert t2.buckets.Keys == {1} && {1} - {1} == {};
  }

  // ---------- the key order ----------

  /** Some operation sets the key `c`. */
  predicate EverSet<F>(ops: seq<Op<F>>, c: Canon) {
    exists i :: 0 <= i < |ops| && SetsKey(ops[i], c)
  }

  predicate SetsKey<F>(op: Op<F>, c: Canon) {
    op.SetOp? && IsKey(op.key) && CanonOf(op.key) == c
  }

  /** The keys that a history adds to the order: each one that is set while it is not there. */
  function Added<F>(ops: seq<Op<F>>): seq<Canon>
    requires forall i | 0 <= i < |ops| :: GoodOp(ops[i])
  {
    if ops == [] then []
    else
      var n := |ops| - 1;
      var cs := Added(ops[..n]);
      assert GoodOp(ops[n]);
      if ops[n].SetOp? && CanonOf(ops[n].key) !in MapAll(ops[..n]) then cs + [CanonOf(ops[n].key)] else cs
  }

  ghost predicate Ordered<F>(keys: seq<Sexp<F>>, cs: seq<Canon>) {
    |keys| == |cs| && forall i | 0 <= i < |keys| :: IsKey(keys[i]) && CanonOf(keys[i]) == cs[i]
  }

  predicate Distinct(cs: seq<Canon>) {
    forall i, j | 0 <= i < j < |cs| :: cs[i] != cs[j]
  }

  lemma SetOrder<F>(t: Table<F>, m: map<Canon, Sexp<F>>, key: Sexp<F>, val: Sexp<F>)
    requires Represents(t, m) && IsKey(key)
    ensures Set(t, key, val).Some?
    ensures Set(t, key, val).value.order == if CanonOf(key) in m then t.order else t.order + [key]
  {
    hide CanonOf, IsKey, SameKey, HashExpression, HashCanon, BucketRep, Find;
    KeyHash(key);
    var h := HashCanon(CanonOf(key));
    assert BucketRep(BucketAt(t, h), h, m);
    NoneIn(key);
    FindInBucket(BucketAt(t, h), h, m, key);
  }

  lemma DeleteOrder<F>(t: Table<F>, key: Sexp<F>)
    ensures Delete(t, key).Some? ==> Delete(t, key).value.order == t.order
  {
  }

  /** The key order is never shortened: it lists the keys as they were added, also those that
      were deleted or cleared since. */
  lemma {:induction false} OrderIsAdded<F>(ops: seq<Op<F>>)
    requires forall i | 0 <= i < |ops| :: GoodOp(ops[i])
    ensures Ordered(DoAll(ops).order, Added(ops))
    ensures forall c :: c in Added(ops) <==> EverSet(ops, c)
    ensures forall c | c in MapAll(ops) :: c in Added(ops)
    decreases |ops|
  {
    hide CanonOf, IsKey, Represents, Set, Delete;
    if ops != [] {
      var n := |ops| - 1;
      OrderIsAdded(ops[..n]);
      HistoryRefines(ops[..n]);
      if ops[n].SetOp? {
        SetOrder(DoAll(ops[..n]), MapAll(ops[..n]), ops[n].key, ops[n].val);
      } else if ops[n].DeleteOp? {
        DeleteOrder(DoAll(ops[..n]), ops[n].key);
      }
      forall c ensures EverSet(ops, c) <==> EverSet(ops[..n], c) || SetsKey(ops[n], c) {
        EverSetSplit(ops, c);
      }
    }
  }

  lemma EverSetSplit<F>(ops: seq<Op<F>>, c: Canon)
    requires ops != []
    ensures var n := |ops| - 1; EverSet(ops, c) <==> EverSet(ops[..n], c) || SetsKey(ops[n], c)
  {
    hide SetsKey;
    var n := |ops| - 1;
    if EverSet(ops, c) {
      var i :| 0 <= i < |ops| && SetsKey(ops[i], c);
      assert i < n ==> ops[..n][i] == ops[i];
    }
    if EverSet(ops[..n], c) {
      var i :| 0 <= i < n && SetsKey(ops[..n][i], c);
      assert ops[i] == ops[..n][i];
    }
  }

  /** No key is set again after it was removed. */
  predicate NeverAgain<F>(ops: seq<Op<F>>)
    requires forall i | 0 <= i < |ops| :: GoodOp(ops[i])
  {
    forall j | 0 <= j < |ops| && GoodOp(ops[j]) && ops[j].SetOp? ::
      CanonOf(ops[j].key) in MapAll(ops[..j]) || !EverSet(ops[..j], CanonOf(ops[j].key))
  }

  lemma {:induction false} DistinctExact<F>(ops: seq<Op<F>>)
    requires forall i | 0 <= i < |ops| :: GoodOp(ops[i])
    ensures Distinct(Added(ops)) <==> NeverAgain(ops)
    decreases |ops|
  {
    hide CanonOf, IsKey, MapAll, EverSet;
    if ops != [] {
      var n := |ops| - 1;
      DistinctExact(ops[..n]);
      OrderIsAdded(ops[..n]);
      forall j | 0 <= j < n ensures ops[..n][j] == ops[j] && ops[..n][..j] == ops[..j] {
      }
      if ops[n].SetOp? {
        DistinctMore(Added(ops[..n]), CanonOf(ops[n].key));
      }
    }
  }

  lemma DistinctMore(cs: seq<Canon>, c: Canon)
    ensures Distinct(cs + [c]) <==> Distinct(cs) && c !in cs
  {
    var ds := cs + [c];
    if Distinct(ds) {
      forall i, j | 0 <= i < j < |cs| ensures cs[i] != cs[j] {
        assert ds[i] == cs[i] && ds[j] == cs[j];
      }
      forall i | 0 <= i < |cs| ensures cs[i] != c {
        assert ds[i] == cs[i] && ds[|cs|] == c;
      }
    }
  }

  // ---------- walking along the key order ----------

  /** The entries that a walk along `keys` visits; no result when it meets a key that is not
      there, which the folds report as an inconsistent hash. */
  function Walk<F>(t: Table<F>, keys: seq<Sexp<F>>): Option<seq<Entry<F>>> {
    if keys == [] then Some([])
    else
      match Get(t, keys[0], End)
      case None => None
      case Some(v) =>
        if v.End? then None
        else
          match Walk(t, keys[1..])
          case None => None
          case Some(es) => Some([Entry(keys[0], v)] + es)
  }

  /** The value under `c` is there, and is not the one that stands for a missing key. */
  predicate Shown<F>(m: map<Canon, Sexp<F>>, c: Canon) {
    c in m && !m[c].End?
  }

  /** A walk succeeds exactly when every key of the order is live, and then it visits the
      keys in order with the values the map has for them. */
  lemma {:induction false} WalkExact<F>(t: Table<F>, m: map<Canon, Sexp<F>>, keys: seq<Sexp<F>>)
    requires Represents(t, m) && forall i | 0 <= i < |keys| :: IsKey(keys[i])
    ensures Walk(t, keys).Some? <==> forall i | 0 <= i < |keys| :: Shown(m, CanonOf(keys[i]))
    ensures Walk(t, keys).Some? ==>
              var es := Walk(t, keys).value;
              && |es| == |keys|
              && forall i | 0 <= i < |keys| :: CanonOf(keys[i]) in m && es[i] == Entry(keys[i], m[CanonOf(keys[i])])
    decreases |keys|
  {
    hide CanonOf, IsKey, Represents, Get;
    if keys != [] {
      GetRefines(t, m, keys[0], End);
      WalkExact(t, m, keys[1..]);
      assert forall i | 0 <= i < |keys| :: keys[i] == if i == 0 then keys[0] else keys[1..][i - 1];
      if Shown(m, CanonOf(keys[0])) && Walk(t, keys[1..]).Some? {
        forall i | 0 <= i < |keys| ensures Shown(m, CanonOf(keys[i])) {
          if i > 0 {
            assert keys[1..][i - 1] == keys[i];
          }
        }
      } else if Shown(m, CanonOf(keys[0])) {
        var i :| 0 <= i < |keys[1..]| && !Shown(m, CanonOf(keys[1..][i]));
        assert keys[1..][i] == keys[i + 1];
      }
    }
  }

  /** After any history the folds succeed exactly when every key that was ever set is there,
      and then they visit the entries of the map in the order in which keys were added; they
      visit each entry exactly once exactly when, moreover, no key was set again after it had
      been deleted or cleared. */
  lemma FoldExact<F>(ops: seq<Op<F>>)
    requires forall i | 0 <= i < |ops| :: GoodOp(ops[i])
    ensures var t, m, cs := DoAll(ops), MapAll(ops), Added(ops);
            && (Walk(t, t.order).Some? <==> forall c | EverSet(ops, c) :: Shown(m, c))
            && (Walk(t, t.order).Some? ==>
                  var es := Walk(t, t.order).value;
                  && |es| == |cs| == |t.order| && (forall c :: c in m <==> c in cs)
                  && (forall i | 0 <= i < |cs| ::
                        && cs[i] in m && IsKey(t.order[i]) && CanonOf(t.order[i]) == cs[i]
                        && es[i] == Entry(t.order[i], m[cs[i]]))
                  && (Distinct(cs) <==> NeverAgain(ops)))
  {
    hide CanonOf, IsKey, Represents, Walk, EverSet, Added, NeverAgain, MapAll;
    var t, m, cs := DoAll(ops), MapAll(ops), Added(ops);
    HistoryRefines(ops);
    OrderIsAdded(ops);
    DistinctExact(ops);
    WalkExact(t, m, t.order);
    if forall c | EverSet(ops, c) :: Shown(m, c) {
      forall i | 0 <= i < |t.order| ensures Shown(m, CanonOf(t.order[i])) {
        assert cs[i] in cs;
      }
    }
    if Walk(t, t.order).Some? {
      forall c | c in cs ensures Shown(m, c) {
        var i :| 0 <= i < |cs| && cs[i] == c;
        assert Shown(m, CanonOf(t.order[i]));
      }
    }
  }

  // ---------- histories of sets only ----------

  predicate SetsOnly<F>(ops: seq<Op<F>>) {
    forall i | 0 <= i < |ops| :: ops[i].SetOp? && IsKey(ops[i].key) && !ops[i].val.End?
  }

  /** The keys of a run of sets, each where it is first set. */
  function FirstSets<F>(ops: seq<Op<F>>): seq<Canon>
    requires SetsOnly(ops)
  {
    if ops == [] then []
    else
      var n := |ops| - 1;
      var cs, c := FirstSets(ops[..n]), CanonOf(ops[n].key);
      if c in cs then cs else cs + [c]
  }

  /** What is set stays, and is added once. */
  lemma {:induction false} SetsShown<F>(ops: seq<Op<F>>)
    requires SetsOnly(ops)
    ensures forall c :: Shown(MapAll(ops), c) <==> EverSet(ops, c)
    ensures forall c | c in MapAll(ops) :: EverSet(ops, c)
    ensures Added(ops) == FirstSets(ops)
    decreases |ops|
  {
    hide CanonOf, IsKey;
    if ops != [] {
      var n := |ops| - 1;
      SetsShown(ops[..n]);
      OrderIsAdded(ops[..n]);
      forall c ensures EverSet(ops, c) <==> EverSet(ops[..n], c) || SetsKey(ops[n], c) {
        EverSetSplit(ops, c);
      }
    }
  }

  /** After a run of sets the key order lists every live key once, where it was first set. */
  lemma OrderIsFirstSets<F>(ops: seq<Op<F>>)
    requires SetsOnly(ops)
    ensures Ordered(DoAll(ops).order, FirstSets(ops)) && Distinct(FirstSets(ops))
    ensures forall c :: c in FirstSets(ops) <==> c in MapAll(ops)
  {
    hide CanonOf, IsKey, EverSet, Added, FirstSets, MapAll;
    OrderIsAdded(ops);
    SetsShown(ops);
    DistinctExact(ops);
    forall j | 0 <= j < |ops|
      ensures CanonOf(ops[j].key) in MapAll(ops[..j]) || !EverSet(ops[..j], CanonOf(ops[j].key))
    {
      SetsShown(ops[..j]);
    }
  }

  /** After a run of sets the folds visit every entry of the map exactly once, in the order
      of first insertion, and never report an inconsistent hash. */
  lemma FoldsVisitAll<F>(ops: seq<Op<F>>)
    requires SetsOnly(ops)
    ensures var t, m, cs := DoAll(ops), MapAll(ops), FirstSets(ops);
            && Walk(t, t.order).Some? && |Walk(t, t.order).value| == |cs|
            && |t.order| == |cs|
            && (forall i | 0 <= i < |cs| :: cs[i] in m && IsKey(t.order[i]) && CanonOf(t.order[i]) == cs[i]
                  && Walk(t, t.order).value[i] == Entry(t.order[i], m[cs[i]]))
            && Distinct(cs) && (forall c :: c in m <==> c in cs)
  {
    hide CanonOf, IsKey, Walk, EverSet, Added, FirstSets, MapAll;
    SetsShown(ops);
    OrderIsFirstSets(ops);
    FoldExact(ops);
  }

  /** After one more delete the folds work exactly when the key was not there: a deleted key
      stays in the key order. */
  lemma FoldAfterDelete<F>(ops: seq<Op<F>>, key: Sexp<F>)
    requires SetsOnly(ops) && IsKey(key)
    ensures var t := Do(DoAll(ops), DeleteOp(key));
            Walk(t, t.order).Some? <==> CanonOf(key) !in MapAll(ops)
  {
    hide CanonOf, IsKey, Walk, EverSet, Delete;
    var all, n := ops + [DeleteOp(key)], |ops|;
    assert all[..n] == ops;
    SetsShown(ops);
    forall c ensures EverSet(all, c) <==> EverSet(ops, c) {
      EverSetSplit(all, c);
    }
    FoldExact(all);
  }
}
