/** Structural comparison of values (comparisons.go). */
module Comparison {
  import opened Sexps

  // ---------- machine integers ----------

  const TWO63: int := 0x8000_0000_0000_0000
  const TWO31: int := 0x8000_0000

  /** Two's-complement wrap-around of the 64-bit and 32-bit subtractions. */
  function Wrap(i: int, half: int): int
    requires half > 0
  {
    (i + half) % (2 * half) - half
  }

  predicate InRange(i: int, half: int) {
    -half <= i < half
  }

  function Signum(i: int): int {
    if i > 0 then 1 else if i < 0 then -1 else 0
  }

  /** Integers, symbol numbers and characters as the Go types hold them. */
  predicate Machine64<F>(e: Sexp<F>) {
    match e
    case Int(i) => InRange(i, TWO63)
    case Char(c) => InRange(c, TWO31)
    case Sym(s) => InRange(s.num, TWO63)
    case Pair(h, t) => Machine64(h) && Machine64(t)
    case Arr(es) => forall i | 0 <= i < |es| :: Machine64(es[i])
    case _ => true
  }

  // ---------- Compare ----------

  /** `bytes.Compare`. Comparing characters agrees with comparing UTF-8 bytes. */
  function CompareStrings(a: string, b: string): int {
    if a == [] then (if b == [] then 0 else -1)
    else if b == [] then 1
    else if a[0] < b[0] then -1
    else if a[0] > b[0] then 1
    else CompareStrings(a[1..], b[1..])
  }

  /** No result stands for the error of values that cannot be compared. */
  function Compare<F>(a: Sexp<F>, b: Sexp<F>): Option<int>
    decreases Size(a), 0
  {
    match a
    case Int(i) =>
      if b.Int? then Some(Signum(Wrap(i - b.i, TWO63)))
      else if b.Char? then Some(Signum(Wrap(i - b.c, TWO63)))
      else None
    case Char(c) =>
      if b.Int? then Some(Signum(Wrap(c - b.i, TWO63)))
      else if b.Char? then Some(Signum(Wrap(c - b.c, TWO31)))
      else None
    case Bool(x) =>
      if !b.Bool? then None
      else if x == b.b then Some(0)
      else if x then Some(1)
      else Some(-1)
    case Str(s) => if b.Str? then Some(CompareStrings(s, b.s)) else None
    case Sym(s) => if b.Sym? then Some(Signum(Wrap(s.num - b.sym.num, TWO63))) else None
    case Pair(h, t) =>
      if !b.Pair? then None
      else
        (match Compare(h, b.head)
         case None => None
         case Some(r) => if r != 0 then Some(r) else Compare(t, b.tail))
    case Arr(es) => if b.Arr? then CompareFrom(es, b.elems) else None
    case Null => if b.Null? then Some(0) else Some(-1)
    case End => Some(-1)
    case Marker => Some(-1)
    case Fun(_) => None
  }

  /** `compareArray`: the common prefix first, then the lengths. */
  function CompareFrom<F>(a: seq<Sexp<F>>, b: seq<Sexp<F>>): Option<int>
    decreases SizeSeq(a), 1
  {
    if a == [] || b == [] then Some(Signum(Wrap(|a| - |b|, TWO63)))
    else
      match Compare(a[0], b[0])
      case None => None
      case Some(r) => if r != 0 then Some(r) else CompareFrom(a[1..], b[1..])
  }

  /** The index loop of `compareArray`. */
  method CompareArray<F>(a: seq<Sexp<F>>, b: seq<Sexp<F>>) returns (r: Option<int>)
    ensures r == CompareFrom(a, b)
  {
    var length := if |a| < |b| then |a| else |b|;
    var i := 0;
    while i < length
      invariant 0 <= i <= length
      invariant CompareFrom(a, b) == CompareFrom(a[i..], b[i..])
    {
      var res := Compare(a[i], b[i]);
      if res.None? {
        return None;
      }
      if res.value != 0 {
        return res;
      }
      assert a[i..][1..] == a[i + 1..] && b[i..][1..] == b[i + 1..];
      i := i + 1;
    }
    return Some(Signum(Wrap(|a| - |b|, TWO63)));
  }

  // ---------- when the wrap-around does no harm ----------

  lemma WrapInRange(i: int, half: int)
    requires half > 0 && InRange(i, half)
    ensures Wrap(i, half) == i
  {
    ModSmall(i + half, 2 * half);
  }

  lemma ModSmall(x: int, m: int)
    requires 0 <= x < m
    ensures x % m == x
  {
  }

  /** Comparing integers by subtraction is right exactly when the difference fits. */
  lemma CompareIntsExact<F>(i: int, j: int)
    requires InRange(i, TWO63) && InRange(j, TWO63)
    ensures Compare<F>(Int(i), Int(j)) == Some(Signum(i - j)) <==> InRange(i - j, TWO63)
  {
    var d := i - j;
    if d >= TWO63 {
      assert Wrap(d, TWO63) == d - 2 * TWO63;
    } else if d < -TWO63 {
      assert Wrap(d, TWO63) == d + 2 * TWO63;
    }
  }

  /** Characters are subtracted in 32 bits, a character and an integer in 64. */
  lemma CompareCharsExact<F>(i: int, j: int)
    requires InRange(i, TWO31) && InRange(j, TWO63)
    ensures InRange(j, TWO31) ==>
              (Compare<F>(Char(i), Char(j)) == Some(Signum(i - j)) <==> InRange(i - j, TWO31))
    ensures Compare<F>(Char(i), Int(j)) == Some(Signum(i - j)) <==> InRange(i - j, TWO63)
    ensures Compare<F>(Int(j), Char(i)) == Some(Signum(j - i)) <==> InRange(j - i, TWO63)
  {
    WrapSign(i - j, TWO63);
    WrapSign(j - i, TWO63);
    if InRange(j, TWO31) {
      WrapSign(i - j, TWO31);
    }
    hide Wrap;
  }

  lemma WrapSign(d: int, half: int)
    requires half in {TWO31, TWO63} && -2 * half < d < 2 * half
    ensures Signum(Wrap(d, half)) == Signum(d) <==> InRange(d, half)
  {
    if d >= half {
      assert Wrap(d, half) == d - 2 * half;
    } else if d < -half {
      assert Wrap(d, half) == d + 2 * half;
    } else {
      WrapInRange(d, half);
    }
  }

  predicate Near(d: int, half: int) {
    -half < d < half
  }

  /** The differences that comparing `a` with `b`, in either order, computes all fit; and
      none of the two contains a sentinel other than null. */
  predicate Fits<F>(a: Sexp<F>, b: Sexp<F>)
    decreases Size(a), 0
  {
    match a
    case Int(i) => (b.Int? ==> Near(i - b.i, TWO63)) && (b.Char? ==> Near(i - b.c, TWO63)) && !Odd(b)
    case Char(c) => (b.Int? ==> Near(c - b.i, TWO63)) && (b.Char? ==> Near(c - b.c, TWO31)) && !Odd(b)
    case Sym(s) => (b.Sym? ==> Near(s.num - b.sym.num, TWO63)) && !Odd(b)
    case Pair(h, t) => if b.Pair? then Fits(h, b.head) && Fits(t, b.tail) else !Odd(b)
    case Arr(es) => if b.Arr? then FitsAll(es, b.elems) else !Odd(b)
    case End => false
    case Marker => false
    case _ => !Odd(b)
  }

  predicate FitsAll<F>(a: seq<Sexp<F>>, b: seq<Sexp<F>>)
    decreases SizeSeq(a), 1
  {
    && Near(|a| - |b|, TWO63)
    && (a != [] && b != [] ==> Fits(a[0], b[0]) && FitsAll(a[1..], b[1..]))
  }

  predicate Odd<F>(e: Sexp<F>) {
    e.End? || e.Marker?
  }

  // ---------- Compare is an order ----------

  lemma {:induction false} CompareSign<F>(a: Sexp<F>, b: Sexp<F>)
    ensures Compare(a, b).Some? ==> Compare(a, b).value in {-1, 0, 1}
    decreases Size(a), 0
  {
    match a
    case Pair(h, t) =>
      if b.Pair? {
        CompareSign(h, b.head);
        CompareSign(t, b.tail);
      }
    case Arr(es) =>
      if b.Arr? {
        CompareFromSign(es, b.elems);
      }
    case Str(s) =>
      if b.Str? {
        StringsFlip(s, b.s);
      }
    case _ =>
  }

  lemma {:induction false} CompareFromSign<F>(a: seq<Sexp<F>>, b: seq<Sexp<F>>)
    ensures CompareFrom(a, b).Some? ==> CompareFrom(a, b).value in {-1, 0, 1}
    decreases SizeSeq(a), 1
  {
    if a != [] && b != [] {
      CompareSign(a[0], b[0]);
      CompareFromSign(a[1..], b[1..]);
    }
  }

  lemma {:induction false} StringsFlip(a: string, b: string)
    ensures CompareStrings(a, b) == -CompareStrings(b, a) && CompareStrings(a, b) in {-1, 0, 1}
    ensures CompareStrings(a, b) == 0 <==> a == b
    decreases |a|
  {
    if a != [] && b != [] {
      StringsFlip(a[1..], b[1..]);
      assert a == [a[0]] + a[1..] && b == [b[0]] + b[1..];
    }
  }

  lemma {:induction false} StringsOrder(a: string, b: string, c: string)
    requires CompareStrings(a, b) <= 0 && CompareStrings(b, c) <= 0
    ensures var x, y, z := CompareStrings(a, b), CompareStrings(b, c), CompareStrings(a, c);
            z <= 0 && (z < 0 <==> x < 0 || y < 0)
    decreases |a|
  {
    if a != [] && b != [] && c != [] {
      if a[0] == b[0] == c[0] {
        StringsOrder(a[1..], b[1..], c[1..]);
      }
    }
  }

  /** Swapping the arguments flips the sign whenever both directions succeed. */
  lemma {:induction false} CompareFlips<F>(a: Sexp<F>, b: Sexp<F>)
    requires Fits(a, b) && Compare(a, b).Some? && Compare(b, a).Some?
    ensures Compare(b, a).value == -Compare(a, b).value
    decreases Size(a), 0
  {
    match a
    case Int(i) => NearSigns(i - (if b.Int? then b.i else b.c), TWO63);
    case Char(c) =>
      if b.Int? {
        NearSigns(c - b.i, TWO63);
      } else {
        NearSigns(c - b.c, TWO31);
      }
    case Sym(s) => NearSigns(s.num - b.sym.num, TWO63);
    case Str(s) => StringsFlip(s, b.s);
    case Pair(h, t) =>
      CompareFlips(h, b.head);
      if Compare(h, b.head) == Some(0) {
        CompareFlips(t, b.tail);
      }
    case Arr(es) => CompareFromFlips(es, b.elems);
    case _ =>
  }

  lemma {:induction false} CompareFromFlips<F>(a: seq<Sexp<F>>, b: seq<Sexp<F>>)
    requires FitsAll(a, b) && CompareFrom(a, b).Some? && CompareFrom(b, a).Some?
    ensures CompareFrom(b, a).value == -CompareFrom(a, b).value
    decreases SizeSeq(a), 1
  {
    if a == [] || b == [] {
      NearSigns(|a| - |b|, TWO63);
    } else {
      CompareFlips(a[0], b[0]);
      if Compare(a[0], b[0]) == Some(0) {
        CompareFromFlips(a[1..], b[1..]);
      }
    }
  }

  lemma NearSigns(d: int, half: int)
    requires half > 0 && Near(d, half)
    ensures Signum(Wrap(d, half)) == Signum(d) == -Signum(Wrap(-d, half))
  {
    WrapInRange(d, half);
    WrapInRange(-d, half);
  }

  /** Two steps up give a step up, which succeeds and is strict if either of them is. */
  lemma {:induction false} CompareTransitive<F>(a: Sexp<F>, b: Sexp<F>, c: Sexp<F>)
    requires Fits(a, b) && Fits(b, c) && Fits(a, c)
    requires Compare(a, b).Some? && Compare(a, b).value <= 0
    requires Compare(b, c).Some? && Compare(b, c).value <= 0
    ensures Compare(a, c).Some? && Compare(a, c).value <= 0
    ensures Compare(a, c).value < 0 <==> Compare(a, b).value < 0 || Compare(b, c).value < 0
    decreases Size(a), 0
  {
    match a
    case Int(i) =>
      var j, k := Number(b), Number(c);
      NumbersCompare(a, b);
      NumbersCompare(b, c);
      NumbersCompare(a, c);
    case Char(i) =>
      NumbersCompare(a, b);
      NumbersCompare(b, c);
      NumbersCompare(a, c);
    case Sym(s) =>
      NearSigns(s.num - b.sym.num, TWO63);
      NearSigns(b.sym.num - c.sym.num, TWO63);
      NearSigns(s.num - c.sym.num, TWO63);
    case Str(s) => StringsOrder(s, b.s, c.s);
    case Pair(h, t) =>
      CompareSign(h, b.head);
      CompareSign(b.head, c.head);
      CompareTransitive(h, b.head, c.head);
      if Compare(h, b.head) == Some(0) && Compare(b.head, c.head) == Some(0) {
        CompareTransitive(t, b.tail, c.tail);
      }
    case Arr(es) => CompareFromTransitive(es, b.elems, c.elems);
    case _ =>
  }

  lemma {:induction false} CompareFromTransitive<F>(a: seq<Sexp<F>>, b: seq<Sexp<F>>, c: seq<Sexp<F>>)
    requires FitsAll(a, b) && FitsAll(b, c) && FitsAll(a, c)
    requires CompareFrom(a, b).Some? && CompareFrom(a, b).value <= 0
    requires CompareFrom(b, c).Some? && CompareFrom(b, c).value <= 0
    ensures CompareFrom(a, c).Some? && CompareFrom(a, c).value <= 0
    ensures CompareFrom(a, c).value < 0 <==> CompareFrom(a, b).value < 0 || CompareFrom(b, c).value < 0
    decreases SizeSeq(a), 1
  {
    NearSigns(|a| - |b|, TWO63);
    NearSigns(|b| - |c|, TWO63);
    NearSigns(|a| - |c|, TWO63);
    if a != [] && b != [] && c != [] {
      CompareSign(a[0], b[0]);
      CompareSign(b[0], c[0]);
      CompareTransitive(a[0], b[0], c[0]);
      if Compare(a[0], b[0]) == Some(0) && Compare(b[0], c[0]) == Some(0) {
        CompareFromTransitive(a[1..], b[1..], c[1..]);
      }
    }
  }

  /** The number a character or an integer stands for. */
  function Number<F>(e: Sexp<F>): int {
    if e.Int? then e.i else if e.Char? then e.c else 0
  }

  lemma NumbersCompare<F>(a: Sexp<F>, b: Sexp<F>)
    requires (a.Int? || a.Char?) && (b.Int? || b.Char?) && Fits(a, b)
    ensures Compare(a, b) == Some(Signum(Number(a) - Number(b)))
  {
    var d := Number(a) - Number(b);
    if a.Char? && b.Char? {
      NearSigns(d, TWO31);
    } else {
      NearSigns(d, TWO63);
    }
  }
}
