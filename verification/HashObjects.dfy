/** `SexpHash` as the object it is: its methods update the buckets, the key order and the
    counter in place. Each is proved against the operation on table values. */
module HashObjects {
  import opened Sexps
  import opened HashTables
  import opened HashCounting

  /** Go visits the keys of a map in no particular order. */
  method AnyOf<T>(s: set<T>) returns (x: T)
    requires s != {}
    ensures x in s
  {
    x :| x in s;
  }

  /** The loop over a bucket, up to the first entry with the key. */
  method FindEntry<F>(arr: Bucket<F>, key: Sexp<F>) returns (i: nat)
    ensures i == Find(arr, key)
  {
    hide SameKey;
    i := 0;
    while i < |arr| && !SameKey(arr[i].key, key)
      invariant 0 <= i <= |arr|
      invariant forall j | 0 <= j < i :: !SameKey(arr[j].key, key)
    {
      i := i + 1;
    }
    FindFirst(arr, key, i);
  }

  class Hash<F> {
    var buckets: map<int, Bucket<F>>
    var keyOrder: seq<Sexp<F>>
    var numKeys: int

    function State(): Table<F>
      reads this
    {
      Table(buckets, keyOrder, numKeys)
    }

    constructor ()
      ensures State() == EmptyTable()
    {
      buckets, keyOrder, numKeys := map[], [], 0;
    }

    method HashGetDefault(key: Sexp<F>, default: Sexp<F>) returns (r: Option<Sexp<F>>)
      ensures r == Get(State(), key, default)
    {
      var h := HashExpression(key);
      if h.None? {
        return None;
      }
      if h.value !in buckets {
        return Some(default);
      }
      var arr := buckets[h.value];
      var i := FindEntry(arr, key);
      if i < |arr| {
        return Some(arr[i].val);
      }
      return Some(default);
    }

    method HashSet(key: Sexp<F>, val: Sexp<F>) returns (ok: bool)
      modifies this
      ensures ok <==> Set(old(State()), key, val).Some?
      ensures State() == if ok then Set(old(State()), key, val).value else old(State())
    {
      var h := HashExpression(key);
      if h.None? {
        return false;
      }
      if h.value !in buckets {
        buckets := buckets[h.value := [Entry(key, val)]];
        keyOrder := keyOrder + [key];
        numKeys := numKeys + 1;
        return true;
      }
      var before := buckets[h.value];
      var arr, found, i := before, false, 0;
      while i < |arr|
        invariant 0 <= i <= |arr| == |before|
        invariant forall j | 0 <= j < i :: arr[j] == Replace(before, key, val)[j]
        invariant forall j | i <= j < |arr| :: arr[j] == before[j]
        invariant found <==> exists j | 0 <= j < i :: SameKey(before[j].key, key)
      {
        if SameKey(arr[i].key, key) {
          arr := arr[i := Entry(key, val)];
          found := true;
        }
        i := i + 1;
      }
      assert arr == Replace(before, key, val);
      if !found {
        assert arr == before;
        arr := arr + [Entry(key, val)];
        keyOrder := keyOrder + [key];
        numKeys := numKeys + 1;
      }
      buckets := buckets[h.value := arr];
      return true;
    }

    method HashDelete(key: Sexp<F>) returns (ok: bool)
      modifies this
      ensures ok <==> Delete(old(State()), key).Some?
      ensures State() == if ok then Delete(old(State()), key).value else old(State())
    {
      var h := HashExpression(key);
      if h.None? {
        return false;
      }
      if h.value !in buckets {
        return true;
      }
      var arr := buckets[h.value];
      numKeys := numKeys - 1;
      var i := FindEntry(arr, key);
      if i < |arr| {
        buckets := buckets[h.value := arr[..i] + arr[i + 1..]];
      } else {
        assert buckets[h.value := arr] == buckets;
      }
      return true;
    }

    method Clear()
      modifies this
      ensures State() == Cleared(old(State()))
    {
      var keys := buckets.Keys;
      while keys != {}
        invariant keys == buckets.Keys
        invariant keyOrder == old(keyOrder)
        decreases keys
      {
        var key := AnyOf(keys);
        buckets := buckets - {key};
        keys := keys - {key};
      }
      assert buckets == map[];
      numKeys := 0;
    }

    /** Counts the entries; no result stands for the panic on a wrong counter. */
    method HashCountKeys() returns (r: Option<int>)
      ensures r == if Total(State()) == numKeys then Some(numKeys) else None
    {
      var num, hs := 0, buckets.Keys;
      while hs != {}
        invariant hs <= buckets.Keys
        invariant num + SumOver(buckets, hs) == Total(State())
        decreases hs
      {
        var h := AnyOf(hs);
        SumPick(buckets, hs, h);
        num := num + |buckets[h]|;
        hs := hs - {h};
      }
      return if num != numKeys then None else Some(num);
    }

    /** `apply` stands for running the script function on a key-value pair and `acc`. */
    method FoldlHash(apply: (Sexp<F>, Sexp<F>) -> Option<Sexp<F>>, acc: Sexp<F>) returns (r: Option<Sexp<F>>)
      ensures Walk(State(), keyOrder).Some? ==> r == FoldEntries(apply, acc, Walk(State(), keyOrder).value)
      ensures Walk(State(), keyOrder).None? ==> r == None
    {
      hide Get;
      var cur, i := acc, 0;
      while i < |keyOrder|
        invariant 0 <= i <= |keyOrder|
        invariant Walk(State(), keyOrder).Some? <==> Walk(State(), keyOrder[i..]).Some?
        invariant Walk(State(), keyOrder).Some? ==>
                    FoldEntries(apply, acc, Walk(State(), keyOrder).value) ==
                    FoldEntries(apply, cur, Walk(State(), keyOrder[i..]).value)
      {
        assert keyOrder[i..][1..] == keyOrder[i + 1..];
        var val := HashGetDefault(keyOrder[i], End);
        if val.None? || val.value.End? {
          return None;
        }
        var next := apply(Pair(keyOrder[i], val.value), cur);
        if next.None? {
          return None;
        }
        cur := next.value;
        i := i + 1;
      }
      return Some(cur);
    }

    method MapHash(apply: Sexp<F> -> Option<Sexp<F>>) returns (r: Option<seq<Sexp<F>>>)
      ensures Walk(State(), keyOrder).Some? ==> r == MapEntries(apply, Walk(State(), keyOrder).value)
      ensures Walk(State(), keyOrder).None? ==> r == None
    {
      hide Get;
      var result, i := [], 0;
      assert keyOrder[0..] == keyOrder;
      if Walk(State(), keyOrder).Some? {
        PrependNothing(MapEntries(apply, Walk(State(), keyOrder).value));
      }
      while i < |keyOrder|
        invariant 0 <= i <= |keyOrder| && |result| == i
        invariant Walk(State(), keyOrder).Some? <==> Walk(State(), keyOrder[i..]).Some?
        invariant Walk(State(), keyOrder).Some? ==>
                    MapEntries(apply, Walk(State(), keyOrder).value) ==
                    Prepend(result, MapEntries(apply, Walk(State(), keyOrder[i..]).value))
      {
        assert keyOrder[i..][1..] == keyOrder[i + 1..];
        var val := HashGetDefault(keyOrder[i], End);
        if val.None? || val.value.End? {
          return None;
        }
        var next := apply(Pair(keyOrder[i], val.value));
        if next.None? {
          return None;
        }
        ghost var rest := Walk(State(), keyOrder[i + 1..]);
        if rest.Some? {
          PrependOne(result, next.value, MapEntries(apply, rest.value));
        }
        result := result + [next.value];
        i := i + 1;
      }
      assert keyOrder[i..] == [] && result + [] == result;
      return Some(result);
    }
  }

  lemma FindFirst<F>(b: Bucket<F>, key: Sexp<F>, i: nat)
    requires i <= |b| && (i < |b| ==> SameKey(b[i].key, key))
    requires forall j | 0 <= j < i :: !SameKey(b[j].key, key)
    ensures Find(b, key) == i
  {
    hide SameKey;
  }

  function FoldEntries<F>(apply: (Sexp<F>, Sexp<F>) -> Option<Sexp<F>>, acc: Sexp<F>,
                          es: seq<Entry<F>>): Option<Sexp<F>>
    decreases |es|
  {
    if es == [] then Some(acc)
    else
      match apply(Pair(es[0].key, es[0].val), acc)
      case None => None
      case Some(v) => FoldEntries(apply, v, es[1..])
  }

  function MapEntries<F>(apply: Sexp<F> -> Option<Sexp<F>>, es: seq<Entry<F>>): Option<seq<Sexp<F>>> {
    if es == [] then Some([])
    else
      match apply(Pair(es[0].key, es[0].val))
      case None => None
      case Some(v) => Prepend([v], MapEntries(apply, es[1..]))
  }

  function Prepend<T>(s: seq<T>, r: Option<seq<T>>): Option<seq<T>> {
    if r.Some? then Some(s + r.value) else None
  }

  lemma PrependNothing<T>(r: Option<seq<T>>)
    ensures Prepend([], r) == r
  {
    if r.Some? {
      assert [] + r.value == r.value;
    }
  }

  lemma PrependOne<T>(s: seq<T>, x: T, r: Option<seq<T>>)
    ensures Prepend(s, Prepend([x], r)) == Prepend(s + [x], r)
  {
    if r.Some? {
      assert s + ([x] + r.value) == s + [x] + r.value;
    }
  }

  lemma SetFails<F>(t: Table<F>, key: Sexp<F>, val: Sexp<F>)
    ensures Set(t, key, val).None? <==> HashExpression(key).None?
  {
    hide HashExpression;
  }

  /** The keys and values of a hash literal, as a history of sets. */
  function SetOps<F>(args: seq<Sexp<F>>): seq<Op<F>>
    requires |args| % 2 == 0
  {
    seq(|args| / 2, i requires 0 <= i < |args| / 2 => SetOp(args[2 * i], args[2 * i + 1]))
  }

  /** `MakeHash`: no object when the number of arguments is odd or a key cannot be hashed. */
  method MakeHash<F>(args: seq<Sexp<F>>) returns (ok: bool, hash: Hash<F>)
    ensures fresh(hash)
    ensures ok <==> |args| % 2 == 0 && forall i | 0 <= i < |args| / 2 :: HashExpression(args[2 * i]).Some?
    ensures ok ==> hash.State() == DoAll(SetOps(args))
  {
    hide Set, HashExpression;
    hash := new Hash();
    if |args| % 2 != 0 {
      return false, hash;
    }
    var i := 0;
    while i < |args|
      invariant 0 <= i <= |args| && i % 2 == 0
      invariant fresh(hash) && hash.State() == DoAll(SetOps(args)[..i / 2])
      invariant forall j | 0 <= j < i / 2 :: HashExpression(args[2 * j]).Some?
    {
      var n := i / 2;
      assert 2 * n == i;
      SetFails(hash.State(), args[i], args[i + 1]);
      var done := hash.HashSet(args[i], args[i + 1]);
      if !done {
        assert HashExpression(args[2 * n]).None?;
        return false, hash;
      }
      assert SetOps(args)[..n + 1][..n] == SetOps(args)[..n];
      i := i + 2;
    }
    assert SetOps(args)[..|args| / 2] == SetOps(args);
    return true, hash;
  }

  // ---------- what the callbacks see ----------

  /** `accs` are the values of the accumulator between the calls. */
  ghost predicate Folded<F>(apply: (Sexp<F>, Sexp<F>) -> Option<Sexp<F>>, acc: Sexp<F>, es: seq<Entry<F>>,
                            accs: seq<Sexp<F>>, r: Sexp<F>)
  {
    && |accs| == |es| + 1 && accs[0] == acc && accs[|es|] == r
    && forall i | 0 <= i < |es| :: apply(Pair(es[i].key, es[i].val), accs[i]) == Some(accs[i + 1])
  }

  /** A fold calls the function for each entry in turn, with the pair of its key and its
      value and what the call before gave; the result is what the last call gives, and there
      is none if and only if a call fails. */
  lemma {:induction false} FoldMeans<F>(apply: (Sexp<F>, Sexp<F>) -> Option<Sexp<F>>, acc: Sexp<F>,
                                        es: seq<Entry<F>>, r: Sexp<F>)
    ensures FoldEntries(apply, acc, es) == Some(r) <==> exists accs :: Folded(apply, acc, es, accs, r)
    decreases |es|
  {
    if es == [] {
      assert Folded(apply, acc, es, [acc], acc);
    } else {
      hide Folded;
      var first := apply(Pair(es[0].key, es[0].val), acc);
      if first.Some? {
        FoldMeans(apply, first.value, es[1..], r);
        if accs :| Folded(apply, first.value, es[1..], accs, r) {
          FoldedMore(apply, acc, es, accs, r);
        }
      }
      if accs :| Folded(apply, acc, es, accs, r) {
        FoldedRest(apply, acc, es, accs, r);
      }
    }
  }

  lemma FoldedRest<F>(apply: (Sexp<F>, Sexp<F>) -> Option<Sexp<F>>, acc: Sexp<F>, es: seq<Entry<F>>,
                      accs: seq<Sexp<F>>, r: Sexp<F>)
    requires es != [] && Folded(apply, acc, es, accs, r)
    ensures var first := apply(Pair(es[0].key, es[0].val), acc);
            first.Some? && Folded(apply, first.value, es[1..], accs[1..], r)
  {
    assert accs[0 + 1] == accs[1] && accs[1..][|es| - 1] == accs[|es|];
    forall i | 0 <= i < |es[1..]|
      ensures apply(Pair(es[1..][i].key, es[1..][i].val), accs[1..][i]) == Some(accs[1..][i + 1])
    {
      assert es[1..][i] == es[i + 1] && accs[1..][i] == accs[i + 1] && accs[1..][i + 1] == accs[(i + 1) + 1];
    }
  }

  lemma FoldedMore<F>(apply: (Sexp<F>, Sexp<F>) -> Option<Sexp<F>>, acc: Sexp<F>, es: seq<Entry<F>>,
                      accs: seq<Sexp<F>>, r: Sexp<F>)
    requires es != [] && apply(Pair(es[0].key, es[0].val), acc).Some?
    requires Folded(apply, apply(Pair(es[0].key, es[0].val), acc).value, es[1..], accs, r)
    ensures Folded(apply, acc, es, [acc] + accs, r)
  {
    var all := [acc] + accs;
    forall i | 0 <= i < |es| ensures apply(Pair(es[i].key, es[i].val), all[i]) == Some(all[i + 1]) {
      if i > 0 {
        assert es[i] == es[1..][i - 1] && all[i] == accs[i - 1] && all[i + 1] == accs[(i - 1) + 1];
      }
    }
  }

  /** A map gives, in its place, what the function gives the pair of each key and value. */
  lemma {:induction false} MapMeans<F>(apply: Sexp<F> -> Option<Sexp<F>>, es: seq<Entry<F>>, vs: seq<Sexp<F>>)
    ensures MapEntries(apply, es) == Some(vs) <==>
            |vs| == |es| && forall i | 0 <= i < |es| :: apply(Pair(es[i].key, es[i].val)) == Some(vs[i])
    decreases |es|
  {
    if es != [] {
      var rest := MapEntries(apply, es[1..]);
      if vs != [] {
        MapMeans(apply, es[1..], vs[1..]);
        assert vs == [vs[0]] + vs[1..];
        assert forall i | 0 < i < |es| :: es[i] == es[1..][i - 1];
        assert forall i | 0 < i < |vs| :: vs[i] == vs[1..][i - 1];
        assert forall i | 0 <= i < |es| - 1 :: es[1..][i] == es[i + 1];
        assert forall i | 0 <= i < |vs| - 1 :: vs[1..][i] == vs[i + 1];
        if rest.Some? {
          assert ([vs[0]] + rest.value)[1..] == rest.value;
        }
      }
    }
  }

  /** A hash literal has, under each key, the value after the last key equal to it, and
      nothing under any other key. */
  lemma LiteralMeans<F>(args: seq<Sexp<F>>, key: Sexp<F>, default: Sexp<F>)
    requires |args| % 2 == 0 && IsKey(key) && forall i | 0 <= i < |args| / 2 :: IsKey(args[2 * i])
    ensures forall i | 0 <= i < |args| / 2 && SameKey(args[2 * i], key)
                       && (forall j | i < j < |args| / 2 :: !SameKey(args[2 * j], key)) ::
              Get(DoAll(SetOps(args)), key, default) == Some(args[2 * i + 1])
    ensures (forall i | 0 <= i < |args| / 2 :: !SameKey(args[2 * i], key)) ==>
              Get(DoAll(SetOps(args)), key, default) == Some(default)
  {
    hide CanonOf, IsKey, SameKey, Get, DoAll, MapAll;
    var ops := SetOps(args);
    forall i | 0 <= i < |ops| ensures ops[i].SetOp? && IsKey(ops[i].key) && GoodOp(ops[i]) {
    }
    LookupAfterHistory(ops, key, default);
    LastSet(ops, key);
    forall i | 0 <= i < |args| / 2 ensures SameKey(args[2 * i], key) <==> CanonOf(ops[i].key) == CanonOf(key) {
      SameKeyIsCanon(args[2 * i], key);
    }
  }

  /** After sets only, a key has the value it was set to last. */
  lemma {:induction false} LastSet<F>(ops: seq<Op<F>>, key: Sexp<F>)
    requires (forall i | 0 <= i < |ops| :: ops[i].SetOp? && IsKey(ops[i].key)) && IsKey(key)
    ensures forall i | 0 <= i < |ops| && CanonOf(ops[i].key) == CanonOf(key)
                       && (forall j | i < j < |ops| :: CanonOf(ops[j].key) != CanonOf(key)) ::
              CanonOf(key) in MapAll(ops) && MapAll(ops)[CanonOf(key)] == ops[i].val
    ensures (forall i | 0 <= i < |ops| :: CanonOf(ops[i].key) != CanonOf(key)) ==> CanonOf(key) !in MapAll(ops)
    decreases |ops|
  {
    hide CanonOf, IsKey;
    if ops != [] {
      var n := |ops| - 1;
      var front := ops[..n];
      LastSet(front, key);
      assert forall i | 0 <= i < n :: front[i] == ops[i];
      assert MapAll(ops) == MapAll(front)[CanonOf(ops[n].key) := ops[n].val];
      hide MapAll, MapDo, GoodOp;
      forall i | 0 <= i < |ops| && CanonOf(ops[i].key) == CanonOf(key)
                 && (forall j | i < j < |ops| :: CanonOf(ops[j].key) != CanonOf(key))
        ensures CanonOf(key) in MapAll(ops) && MapAll(ops)[CanonOf(key)] == ops[i].val
      {
        if i < n {
          assert forall j | i < j < n :: CanonOf(front[j].key) != CanonOf(key);
          assert CanonOf(front[i].key) == CanonOf(key) != CanonOf(ops[n].key);
        }
      }
    }
  }
}
