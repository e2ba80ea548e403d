/** The ordered hash table of hashutils.go: buckets of entries, the order in which keys were
    added, and a counter. Keys are equal when `Compare` gives 0. */
module HashTables {
  import opened Sexps
  import opened Comparison
  import opened Encoding

  // ---------- hashing ----------

  /** 32-bit FNV-1. */
  function Fnv(h: bv32, bytes: seq<int>): bv32
    decreases |bytes|
  {
    if bytes == [] then h else Fnv((h * 16777619) ^ ((bytes[0] % 256) as bv32), bytes[1..])
  }

  function HashString(s: string): int {
    Fnv(2166136261, Bytes(s)) as int
  }

  /** The published values of 32-bit FNV-1: for each byte the prime first, then the byte. */
  lemma FnvStarts()
    ensures Fnv(0x811C9DC5, []) == 0x811C9DC5 && Fnv(0x811C9DC5, [0x61]) == 0x050C5D7E
  {
    FnvProduct();
    assert [0x61][0] % 256 == 0x61 && [0x61][1..] == [];
    assert Fnv(0x811C9DC5, [0x61]) == Fnv(0x050C5D1F ^ 0x61, []);
  }

  lemma FnvProduct()
    ensures (0x811C9DC5 as bv32) * 16777619 == 0x050C5D1F
  {
  }

  /** No result stands for the error of a value that cannot be a key. */
  function HashExpression<F>(e: Sexp<F>): Option<int> {
    match e
    case Int(i) => Some(i)
    case Char(c) => Some(c)
    case Sym(s) => Some(s.num)
    case Str(s) => Some(HashString(s))
    case _ => None
  }

  /** Numbers, characters and symbols hash to their numbers, a string to the hash of its
      UTF-8 bytes; nothing else can be a key. */
  lemma HashExact<F>(e: Sexp<F>, i: int)
    ensures HashExpression<F>(Int(i)) == HashExpression<F>(Char(i)) == Some(i)
    ensures forall name :: HashExpression<F>(Sym(Symbol(name, i))) == Some(i)
    ensures HashExpression<F>(Str("a")) == Some(0x050C5D7E) && HashExpression<F>(Str("")) == Some(0x811C9DC5)
    ensures HashExpression(e).None? <==> !e.Int? && !e.Char? && !e.Sym? && !e.Str?
  {
    FnvStarts();
    assert Bytes("a") == Utf8('a') + Bytes("") == [0x61];
  }

  // ---------- keys up to Compare ----------

  /** What makes two keys the same key: characters count as numbers. */
  datatype Canon = Num(i: int) | Named(num: int) | Text(s: string)

  predicate IsKey<F>(e: Sexp<F>) {
    (e.Int? || e.Char? || e.Sym? || e.Str?) && Machine64(e)
  }

  function CanonOf<F>(e: Sexp<F>): Canon
    requires IsKey(e)
  {
    match e
    case Int(i) => Num(i)
    case Char(c) => Num(c)
    case Sym(s) => Named(s.num)
    case Str(s) => Text(s)
  }

  predicate SameKey<F>(a: Sexp<F>, b: Sexp<F>) {
    Compare(a, b) == Some(0)
  }

  lemma WrapZero(d: int)
    requires -2 * TWO63 < d < 2 * TWO63
    ensures Wrap(d, TWO63) == 0 <==> d == 0
  {
  }

  lemma WrapZero32(d: int)
    requires -2 * TWO31 < d < 2 * TWO31
    ensures Wrap(d, TWO31) == 0 <==> d == 0
  {
  }

  lemma SameNumber<F>(a: Sexp<F>, b: Sexp<F>)
    requires IsKey(a) && IsKey(b) && (a.Int? || a.Char?) && (b.Int? || b.Char?)
    ensures SameKey(a, b) <==> Number(a) == Number(b)
  {
    hide Wrap;
    if a.Char? && b.Char? {
      WrapZero32(a.c - b.c);
    } else {
      WrapZero(Number(a) - Number(b));
    }
  }

  /** On keys, `Compare == 0` is an equivalence: having the same canonical form. Keys that
      are the same key hash alike. */
  lemma SameKeyIsCanon<F>(a: Sexp<F>, b: Sexp<F>)
    requires IsKey(a) && IsKey(b)
    ensures SameKey(a, b) <==> CanonOf(a) == CanonOf(b)
    ensures SameKey(a, b) ==> HashExpression(a) == HashExpression(b)
  {
    hide Wrap, HashString, CompareStrings;
    if (a.Int? || a.Char?) && (b.Int? || b.Char?) {
      SameNumber(a, b);
    } else if a.Sym? && b.Sym? {
      WrapZero(a.sym.num - b.sym.num);
    } else if a.Str? && b.Str? {
      StringsFlip(a.s, b.s);
    }
  }

  function HashCanon(c: Canon): int {
    match c
    case Num(i) => i
    case Named(n) => n
    case Text(s) => HashString(s)
  }

  // ---------- tables as values ----------

  datatype Entry<F> = Entry(key: Sexp<F>, val: Sexp<F>)
  type Bucket<F> = seq<Entry<F>>

  datatype Table<F> = Table(buckets: map<int, Bucket<F>>, order: seq<Sexp<F>>, count: int)

  function EmptyTable<F>(): Table<F> {
    Table(map[], [], 0)
  }

  function Find<F>(b: Bucket<F>, key: Sexp<F>): (i: nat)
    ensures i <= |b|
    ensures i < |b| ==> SameKey(b[i].key, key)
    ensures forall j | 0 <= j < i :: !SameKey(b[j].key, key)
  {
    if b == [] then 0 else if SameKey(b[0].key, key) then 0 else 1 + Find(b[1..], key)
  }

  function Get<F>(t: Table<F>, key: Sexp<F>, default: Sexp<F>): Option<Sexp<F>> {
    match HashExpression(key)
    case None => None
    case Some(h) =>
      if h !in t.buckets then Some(default)
      else
        var b := t.buckets[h];
        var i := Find(b, key);
        Some(if i < |b| then b[i].val else default)
  }

  /** Every matching entry is overwritten, key included. */
  function Replace<F>(b: Bucket<F>, key: Sexp<F>, val: Sexp<F>): Bucket<F> {
    seq(|b|, i requires 0 <= i < |b| => if SameKey(b[i].key, key) then Entry(key, val) else b[i])
  }

  function Set<F>(t: Table<F>, key: Sexp<F>, val: Sexp<F>): Option<Table<F>> {
    match HashExpression(key)
    case None => None
    case Some(h) =>
      if h !in t.buckets then
        Some(Table(t.buckets[h := [Entry(key, val)]], t.order + [key], t.count + 1))
      else
        var b := t.buckets[h];
        if Find(b, key) < |b| then Some(t.(buckets := t.buckets[h := Replace(b, key, val)]))
        else Some(Table(t.buckets[h := b + [Entry(key, val)]], t.order + [key], t.count + 1))
  }

  /** The counter goes down whenever the key's bucket exists. */
  function Delete<F>(t: Table<F>, key: Sexp<F>): Option<Table<F>> {
    match HashExpression(key)
    case None => None
    case Some(h) =>
      if h !in t.buckets then Some(t)
      else
        var b := t.buckets[h];
        var i := Find(b, key);
        var b' := if i < |b| then b[..i] + b[i + 1..] else b;
        Some(t.(buckets := t.buckets[h := b'], count := t.count - 1))
  }

  function Cleared<F>(t: Table<F>): Table<F> {
    Table(map[], t.order, 0)
  }

  // ---------- the invariant and the abstract map ----------

  ghost predicate InBucket<F>(b: Bucket<F>, h: int) {
    && (forall i | 0 <= i < |b| :: IsKey(b[i].key) && HashExpression(b[i].key) == Some(h))
    && (forall i, j | 0 <= i < j < |b| :: CanonOf(b[i].key) != CanonOf(b[j].key))
  }

  ghost predicate HasCanon<F>(b: Bucket<F>, c: Canon) {
    exists i | 0 <= i < |b| :: IsKey(b[i].key) && CanonOf(b[i].key) == c
  }

  /** Bucket `h` holds exactly the bindings of `m` whose keys hash to `h`, each once. */
  ghost predicate BucketRep<F>(b: Bucket<F>, h: int, m: map<Canon, Sexp<F>>) {
    && InBucket(b, h)
    && (forall i | 0 <= i < |b| :: CanonOf(b[i].key) in m && m[CanonOf(b[i].key)] == b[i].val)
    && (forall c | c in m && HashCanon(c) == h :: HasCanon(b, c))
  }

  function BucketAt<F>(t: Table<F>, h: int): Bucket<F> {
    if h in t.buckets then t.buckets[h] else []
  }

  /** The table holds exactly the bindings of `m`. */
  ghost predicate Represents<F>(t: Table<F>, m: map<Canon, Sexp<F>>) {
    forall h: int :: BucketRep(BucketAt(t, h), h, m)
  }

  lemma KeyHash<F>(key: Sexp<F>)
    requires IsKey(key)
    ensures HashExpression(key) == Some(HashCanon(CanonOf(key)))
  {
  }

  /** The only entry of a bucket that can match is the one found. */
  lemma Found<F>(b: Bucket<F>, h: int, key: Sexp<F>)
    requires InBucket(b, h) && IsKey(key)
    ensures var at := Find(b, key);
            forall i | 0 <= i < |b| :: (SameKey(b[i].key, key) <==> CanonOf(b[i].key) == CanonOf(key)) &&
                                       (SameKey(b[i].key, key) <==> i == at)
  {
    hide Compare, CanonOf, IsKey, SameKey, HashExpression;
    var at := Find(b, key);
    if at < |b| {
      SameKeyIsCanon(b[at].key, key);
    }
    forall i | 0 <= i < |b|
      ensures (SameKey(b[i].key, key) <==> CanonOf(b[i].key) == CanonOf(key)) && (SameKey(b[i].key, key) <==> i == at)
    {
      SameKeyIsCanon(b[i].key, key);
    }
  }

  /** Lookup in a table that represents `m` is lookup in `m`. */
  lemma GetRefines<F>(t: Table<F>, m: map<Canon, Sexp<F>>, key: Sexp<F>, default: Sexp<F>)
    requires Represents(t, m) && IsKey(key)
    ensures Get(t, key, default) == Some(if CanonOf(key) in m then m[CanonOf(key)] else default)
  {
    hide CanonOf, IsKey, SameKey, HashExpression, HashCanon, BucketRep, Find;
    KeyHash(key);
    var c, h := CanonOf(key), HashCanon(CanonOf(key));
    var b := BucketAt(t, h);
    assert BucketRep(b, h, m);
    NoneIn(key);
    FindInBucket(b, h, m, key);
  }

  lemma FindInBucket<F>(b: Bucket<F>, h: int, m: map<Canon, Sexp<F>>, key: Sexp<F>)
    requires BucketRep(b, h, m) && IsKey(key) && HashCanon(CanonOf(key)) == h
    ensures var at, c := Find(b, key), CanonOf(key);
            (at < |b| <==> c in m) && (at < |b| ==> b[at].val == m[c])
  {
    hide CanonOf, IsKey, SameKey, HashExpression, HashCanon, Find;
    Found(b, h, key);
    if CanonOf(key) in m {
      assert HasCanon(b, CanonOf(key));
    }
  }

  lemma SetBucket<F>(b: Bucket<F>, h: int, m: map<Canon, Sexp<F>>, key: Sexp<F>, val: Sexp<F>) returns (b': Bucket<F>)
    requires BucketRep(b, h, m) && IsKey(key) && HashExpression(key) == Some(h)
    ensures b' == if Find(b, key) < |b| then Replace(b, key, val) else b + [Entry(key, val)]
    ensures BucketRep(b', h, m[CanonOf(key) := val])
  {
    hide CanonOf, IsKey, SameKey, HashExpression, HashCanon;
    var at, c, m' := Find(b, key), CanonOf(key), m[CanonOf(key) := val];
    Found(b, h, key);
    b' := if at < |b| then b[at := Entry(key, val)] else b + [Entry(key, val)];
    if at < |b| {
      assert Replace(b, key, val) == b';
    }
    assert b'[at] == Entry(key, val);
    assert forall i | 0 <= i < |b| && i != at :: b'[i] == b[i];
    hide Find;
    assert InBucket(b', h);
    assert forall i | 0 <= i < |b'| :: CanonOf(b'[i].key) in m' && m'[CanonOf(b'[i].key)] == b'[i].val;
    hide InBucket;
    forall d | d in m' && HashCanon(d) == h ensures HasCanon(b', d) {
      if d == c {
        assert CanonOf(b'[at].key) == c;
      } else {
        assert HasCanon(b, d);
        var i :| 0 <= i < |b| && IsKey(b[i].key) && CanonOf(b[i].key) == d;
        assert b'[i] == b[i];
      }
    }
  }

  /** A bucket does not notice a change of the map at a key that hashes elsewhere. */
  lemma OtherBucket<F>(b: Bucket<F>, h: int, m: map<Canon, Sexp<F>>, m': map<Canon, Sexp<F>>, c: Canon)
    requires BucketRep(b, h, m) && HashCanon(c) != h
    requires forall d | d != c :: (d in m <==> d in m') && (d in m ==> m[d] == m'[d])
    ensures BucketRep(b, h, m')
  {
    hide CanonOf, IsKey, HashExpression, HashCanon;
    forall i | 0 <= i < |b| ensures CanonOf(b[i].key) in m' && m'[CanonOf(b[i].key)] == b[i].val {
      KeyHash(b[i].key);
      assert CanonOf(b[i].key) != c;
    }
  }

  /** Setting a key updates the map at its canonical form and nowhere else. */
  lemma SetRefines<F>(t: Table<F>, m: map<Canon, Sexp<F>>, key: Sexp<F>, val: Sexp<F>)
    requires Represents(t, m) && IsKey(key)
    ensures Set(t, key, val).Some? && Represents(Set(t, key, val).value, m[CanonOf(key) := val])
  {
    hide CanonOf, IsKey, SameKey, HashExpression, HashCanon, BucketRep, Find, Replace;
    KeyHash(key);
    var c, t' := CanonOf(key), Set(t, key, val).value;
    var h0, m' := HashCanon(c), m[c := val];
    NoneIn(key);
    forall h: int ensures BucketRep(BucketAt(t', h), h, m') {
      assert BucketRep(BucketAt(t, h), h, m);
      if h == h0 {
        var b' := SetBucket(BucketAt(t, h), h, m, key, val);
        assert [] + [Entry(key, val)] == [Entry(key, val)];
        assert BucketAt(t', h) == b';
      } else {
        OtherBucket(BucketAt(t, h), h, m, m', c);
      }
    }
  }

  lemma NoneIn<F>(key: Sexp<F>)
    ensures Find([], key) == 0
  {
  }

  function Without<F>(b: Bucket<F>, at: nat): Bucket<F>
    requires at < |b|
  {
    b[..at] + b[at + 1..]
  }

  lemma WithoutInBucket<F>(b: Bucket<F>, h: int, at: nat)
    requires InBucket(b, h) && at < |b|
    ensures InBucket(Without(b, at), h)
  {
    hide CanonOf, IsKey, HashExpression;
    var b' := Without(b, at);
    assert forall i | 0 <= i < |b'| :: b'[i] == if i >= at then b[i + 1] else b[i];
  }

  lemma DeleteBucket<F>(b: Bucket<F>, h: int, m: map<Canon, Sexp<F>>, key: Sexp<F>) returns (b': Bucket<F>)
    requires BucketRep(b, h, m) && IsKey(key) && HashExpression(key) == Some(h)
    ensures var at := Find(b, key); b' == if at < |b| then b[..at] + b[at + 1..] else b
    ensures BucketRep(b', h, m - {CanonOf(key)})
  {
    hide CanonOf, IsKey, SameKey, HashExpression, HashCanon, Find;
    var at, c, m' := Find(b, key), CanonOf(key), m - {CanonOf(key)};
    Found(b, h, key);
    if at == |b| {
      b' := b;
      assert !HasCanon(b, c);
    } else {
      b' := Without(b, at);
      WithoutInBucket(b, h, at);
      hide InBucket;
      assert CanonOf(b[at].key) == c;
      forall i | 0 <= i < |b'| ensures CanonOf(b'[i].key) in m' && m'[CanonOf(b'[i].key)] == b'[i].val {
        var j := if i >= at then i + 1 else i;
        assert b'[i] == b[j] && j != at;
      }
      forall d | d in m' && HashCanon(d) == h ensures HasCanon(b', d) {
        assert HasCanon(b, d);
        var i :| 0 <= i < |b| && IsKey(b[i].key) && CanonOf(b[i].key) == d;
        assert i != at && b'[if i > at then i - 1 else i] == b[i];
      }
    }
  }

  /** Deleting a key removes it from the map. */
  lemma DeleteRefines<F>(t: Table<F>, m: map<Canon, Sexp<F>>, key: Sexp<F>)
    requires Represents(t, m) && IsKey(key)
    ensures Delete(t, key).Some? && Represents(Delete(t, key).value, m - {CanonOf(key)})
  {
    hide CanonOf, IsKey, SameKey, HashExpression, HashCanon, BucketRep, Find;
    KeyHash(key);
    var c, t' := CanonOf(key), Delete(t, key).value;
    var h0, m' := HashCanon(c), m - {c};
    NoneIn(key);
    forall h: int ensures BucketRep(BucketAt(t', h), h, m') {
      assert BucketRep(BucketAt(t, h), h, m);
      if h == h0 {
        var b' := DeleteBucket(BucketAt(t, h), h, m, key);
        assert BucketAt(t', h) == b';
      } else {
        OtherBucket(BucketAt(t, h), h, m, m', c);
      }
    }
  }

  // ---------- histories ----------

  datatype Op<F> = SetOp(key: Sexp<F>, val: Sexp<F>) | DeleteOp(key: Sexp<F>) | ClearOp

  predicate GoodOp<F>(op: Op<F>) {
    op.ClearOp? || IsKey(op.key)
  }

  function Do<F>(t: Table<F>, op: Op<F>): (r: Table<F>) {
    match op
    case SetOp(k, v) => var r := Set(t, k, v); if r.Some? then r.value else t
    case DeleteOp(k) => var r := Delete(t, k); if r.Some? then r.value else t
    case ClearOp => Cleared(t)
  }

  function DoAll<F>(ops: seq<Op<F>>): Table<F> {
    if ops == [] then EmptyTable() else Do(DoAll(ops[..|ops| - 1]), ops[|ops| - 1])
  }

  /** The same history on a mathematical map. */
  function MapDo<F>(m: map<Canon, Sexp<F>>, op: Op<F>): map<Canon, Sexp<F>>
    requires GoodOp(op)
  {
    match op
    case SetOp(k, v) => m[CanonOf(k) := v]
    case DeleteOp(k) => m - {CanonOf(k)}
    case ClearOp => map[]
  }

  function MapAll<F>(ops: seq<Op<F>>): map<Canon, Sexp<F>>
    requires forall i | 0 <= i < |ops| :: GoodOp(ops[i])
  {
    if ops == [] then map[] else MapDo(MapAll(ops[..|ops| - 1]), ops[|ops| - 1])
  }

  /** Refinement: after any sequence of sets, deletes and clears the table represents what
      a map over keys modulo `Compare == 0` would be, so every lookup agrees with it. */
  lemma {:induction false} HistoryRefines<F>(ops: seq<Op<F>>)
    requires forall i | 0 <= i < |ops| :: GoodOp(ops[i])
    ensures Represents(DoAll(ops), MapAll(ops))
  {
    if ops == [] {
      EmptyRepresents<F>(EmptyTable());
    } else {
      var n := |ops| - 1;
      HistoryRefines(ops[..n]);
      DoRefines(DoAll(ops[..n]), MapAll(ops[..n]), ops[n]);
    }
  }

  lemma EmptyRepresents<F>(t: Table<F>)
    requires t.buckets == map[]
    ensures Represents(t, map[])
  {
  }

  lemma DoRefines<F>(t: Table<F>, m: map<Canon, Sexp<F>>, op: Op<F>)
    requires Represents(t, m) && GoodOp(op)
    ensures Represents(Do(t, op), MapDo(m, op))
  {
    hide Represents, CanonOf, Set, Delete, IsKey;
    match op
    case SetOp(k, v) => SetRefines(t, m, k, v);
    case DeleteOp(k) => DeleteRefines(t, m, k);
    case ClearOp => EmptyRepresents(Cleared(t));
  }

  lemma LookupAfterHistory<F>(ops: seq<Op<F>>, key: Sexp<F>, default: Sexp<F>)
    requires (forall i | 0 <= i < |ops| :: GoodOp(ops[i])) && IsKey(key)
    ensures var m := MapAll(ops);
            Get(DoAll(ops), key, default) == Some(if CanonOf(key) in m then m[CanonOf(key)] else default)
  {
    HistoryRefines(ops);
    GetRefines(DoAll(ops), MapAll(ops), key, default);
  }
}
