/** The order that `Compare` decides, said without it: numbers by size, false below true,
    strings and arrays by their first difference and then by length, symbols by number, pairs
    by head and then by tail, and null below everything else. */
module Ordering {
  import opened Sexps
  import opened Comparison
  import opened Encoding

  /** The strings differ first at `i`, where `a` ends or has the smaller character. */
  predicate DifferAt(a: string, b: string, i: nat) {
    && i <= |a| && i < |b| && a[..i] == b[..i]
    && (i == |a| || a[i] < b[i])
  }

  lemma {:induction false} StringsBelow(a: string, b: string)
    ensures CompareStrings(a, b) == -1 <==> exists i: nat :: DifferAt(a, b, i)
    ensures CompareStrings(a, b) == 0 <==> a == b
    decreases |a|
  {
    StringsFlip(a, b);
    if a == [] {
      assert b != [] ==> DifferAt(a, b, 0);
    } else if b != [] {
      if a[0] == b[0] {
        StringsBelow(a[1..], b[1..]);
        forall i: nat | DifferAt(a[1..], b[1..], i) ensures DifferAt(a, b, i + 1) {
          assert a[..i + 1] == [a[0]] + a[1..][..i] && b[..i + 1] == [b[0]] + b[1..][..i];
        }
        forall i: nat | DifferAt(a, b, i) ensures i > 0 && DifferAt(a[1..], b[1..], i - 1) {
          assert a[1..][..i - 1] == a[..i][1..] && b[1..][..i - 1] == b[..i][1..];
        }
      } else if a[0] < b[0] {
        assert DifferAt(a, b, 0);
      } else {
        forall i: nat ensures !DifferAt(a, b, i) {
          assert i > 0 && i <= |a| && i < |b| ==> a[..i][0] != b[..i][0];
        }
      }
    }
  }

  /** Comparing strings character by character is comparing their UTF-8 bytes, so strings
      with the same bytes are equal. */
  lemma {:induction false} StringsByBytes(a: string, b: string)
    ensures CompareStrings(a, b) == CompareBytes(Bytes(a), Bytes(b))
    decreases |a|
  {
    hide Utf8;
    if a != [] && b != [] {
      if a[0] == b[0] {
        StringsByBytes(a[1..], b[1..]);
        CompareAfter(Utf8(a[0]), Bytes(a[1..]), Bytes(b[1..]));
      } else if a[0] < b[0] {
        LowerFirst(a[0], b[0], Bytes(a[1..]), Bytes(b[1..]));
      } else {
        LowerFirst(b[0], a[0], Bytes(b[1..]), Bytes(a[1..]));
      }
    }
  }

  /** Two values that are level in the order. */
  predicate Level<F>(a: Sexp<F>, b: Sexp<F>)
    decreases Size(a)
  {
    match a
    case Int(_) => (b.Int? || b.Char?) && Number(a) == Number(b)
    case Char(_) => (b.Int? || b.Char?) && Number(a) == Number(b)
    case Bool(x) => b == Bool(x)
    case Str(s) => b == Str(s)
    case Sym(s) => b.Sym? && b.sym.num == s.num
    case Pair(h, t) => b.Pair? && Level(h, b.head) && Level(t, b.tail)
    case Arr(es) => b.Arr? && |es| == |b.elems| && forall i | 0 <= i < |es| :: (SizeAt(es, i); Level(es[i], b.elems[i]))
    case Null => b == Null
    case _ => false
  }

  /** `a` is below `b` (`down`), or above it: both are of one kind as far as they are level,
      and the first difference between them goes that way. */
  ghost predicate Apart<F>(down: bool, a: Sexp<F>, b: Sexp<F>)
    decreases Size(a), 0
  {
    match a
    case Int(_) => (b.Int? || b.Char?) && Less(down, Number(a), Number(b))
    case Char(_) => (b.Int? || b.Char?) && Less(down, Number(a), Number(b))
    case Bool(x) => b == Bool(down) && x == !down
    case Str(s) => b.Str? && exists i: nat :: if down then DifferAt(s, b.s, i) else DifferAt(b.s, s, i)
    case Sym(s) => b.Sym? && Less(down, s.num, b.sym.num)
    case Pair(h, t) => b.Pair? && (Apart(down, h, b.head) || (Level(h, b.head) && Apart(down, t, b.tail)))
    case Arr(es) => b.Arr? && ArraysApart(down, es, b.elems)
    case Null => down && b != Null
    case _ => false
  }

  predicate Less(down: bool, i: int, j: int) {
    if down then i < j else i > j
  }

  ghost predicate ArraysApart<F>(down: bool, a: seq<Sexp<F>>, b: seq<Sexp<F>>)
    decreases SizeSeq(a), 1
  {
    exists i: nat :: ApartAt(down, a, b, i)
  }

  /** The arrays differ first at `i`, by their elements or because one of them ends there. */
  ghost predicate ApartAt<F>(down: bool, a: seq<Sexp<F>>, b: seq<Sexp<F>>, i: nat)
    decreases SizeSeq(a), 0
  {
    && i <= |a| && i <= |b|
    && (forall j | 0 <= j < i :: Level(a[j], b[j]))
    && if i < |a| && i < |b| then (SizeAt(a, i); Apart(down, a[i], b[i])) else Less(down, |a|, |b|)
  }

  /** Where the differences that are computed fit their machine integers, -1 means below, 1
      means above and 0 means level; there is no result exactly when none of these holds. */
  lemma {:induction false} CompareExact<F>(a: Sexp<F>, b: Sexp<F>)
    requires Fits(a, b)
    ensures Compare(a, b) == Some(-1) <==> Apart(true, a, b)
    ensures Compare(a, b) == Some(1) <==> Apart(false, a, b)
    ensures Compare(a, b) == Some(0) <==> Level(a, b)
    decreases Size(a), 0
  {
    hide DifferAt, CompareStrings, ArraysApart, CompareFrom;
    match a
    case Int(i) =>
      if b.Int? || b.Char? {
        NumbersCompare(a, b);
      }
    case Char(c) =>
      if b.Int? || b.Char? {
        NumbersCompare(a, b);
      }
    case Sym(s) =>
      if b.Sym? {
        NearSigns(s.num - b.sym.num, TWO63);
      }
    case Str(s) =>
      if b.Str? {
        StringsBelow(s, b.s);
        StringsBelow(b.s, s);
        StringsFlip(s, b.s);
      }
    case Pair(h, t) =>
      if b.Pair? {
        CompareSign(h, b.head);
        CompareExact(h, b.head);
        CompareExact(t, b.tail);
      }
    case Arr(es) =>
      if b.Arr? {
        ArraysExact(es, b.elems);
      }
    case _ =>
  }

  lemma {:induction false} ArraysExact<F>(a: seq<Sexp<F>>, b: seq<Sexp<F>>)
    requires FitsAll(a, b)
    ensures CompareFrom(a, b) == Some(-1) <==> ArraysApart(true, a, b)
    ensures CompareFrom(a, b) == Some(1) <==> ArraysApart(false, a, b)
    ensures CompareFrom(a, b) == Some(0) <==> |a| == |b| && forall i | 0 <= i < |a| :: Level(a[i], b[i])
    decreases SizeSeq(a), 1
  {
    hide Level, Apart, Compare;
    NearSigns(|a| - |b|, TWO63);
    if a == [] || b == [] {
      EndsApart(true, a, b);
      EndsApart(false, a, b);
    } else {
      CompareExact(a[0], b[0]);
      CompareSign(a[0], b[0]);
      ArraysExact(a[1..], b[1..]);
      FirstApart(true, a, b);
      FirstApart(false, a, b);
      hide ApartAt, ArraysApart;
    }
  }

  lemma EndsApart<F>(down: bool, a: seq<Sexp<F>>, b: seq<Sexp<F>>)
    requires a == [] || b == []
    ensures ArraysApart(down, a, b) <==> Less(down, |a|, |b|)
  {
    hide Level, Apart;
    if Less(down, |a|, |b|) {
      assert ApartAt(down, a, b, 0);
    }
  }

  /** The first elements decide, or the rest does. */
  lemma FirstApart<F>(down: bool, a: seq<Sexp<F>>, b: seq<Sexp<F>>)
    requires a != [] && b != []
    ensures ArraysApart(down, a, b) <==>
            Apart(down, a[0], b[0]) || (Level(a[0], b[0]) && ArraysApart(down, a[1..], b[1..]))
  {
    AtOnce(down, a, b);
    hide Level, Apart, ApartAt;
    if i: nat :| ApartAt(down, a, b, i) {
      if i > 0 {
        Later(down, a, b, i - 1);
      }
    }
    if Level(a[0], b[0]) {
      if i: nat :| ApartAt(down, a[1..], b[1..], i) {
        Later(down, a, b, i);
      }
    }
  }

  lemma AtOnce<F>(down: bool, a: seq<Sexp<F>>, b: seq<Sexp<F>>)
    requires a != [] && b != []
    ensures ApartAt(down, a, b, 0) <==> Apart(down, a[0], b[0])
  {
    hide Level;
  }

  lemma Later<F>(down: bool, a: seq<Sexp<F>>, b: seq<Sexp<F>>, i: nat)
    requires a != [] && b != []
    ensures ApartAt(down, a, b, i + 1) <==> Level(a[0], b[0]) && ApartAt(down, a[1..], b[1..], i)
  {
    hide Level, Apart;
  }
}
