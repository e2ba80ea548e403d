/** S-expressions and proper lists (expressions.go, typeutils.go, listutils.go).

    The value type is generic in the representation of function values, because the
    virtual machine's functions hold bytecode and a captured scope while the
    reference evaluator's hold source text and an environment. */
module Sexps {
  datatype Option<+T> = None | Some(value: T)

  /** An interned symbol; scopes and the builtin table are keyed by `num`. */
  datatype Symbol = Symbol(name: string, num: int)

  datatype Sexp<F> =
    | Null
    | End
    | Marker
    | Int(i: int)
    | Bool(b: bool)
    | Char(c: int)
    | Str(s: string)
    | Sym(sym: Symbol)
    | Pair(head: Sexp<F>, tail: Sexp<F>)
    | Arr(elems: seq<Sexp<F>>)
    | Fun(fn: F)

  predicate IsTruthy<F>(e: Sexp<F>) {
    match e
    case Bool(b) => b
    case Int(i) => i != 0
    case Char(c) => c != 0
    case Null => false
    case _ => true
  }

  /** What counts as false: the zero of each kind that has one, and the empty list. */
  lemma TruthExact<F>(e: Sexp<F>)
    ensures IsTruthy(e) <==> e != Bool(false) && e != Int(0) && e != Char(0) && e != Null
  {
  }

  // ---------- proper lists ----------

  predicate IsList<F>(e: Sexp<F>) {
    match e
    case Null => true
    case Pair(_, t) => IsList(t)
    case _ => false
  }

  /** The elements of a proper list, in order. */
  function Elems<F>(e: Sexp<F>): (es: seq<Sexp<F>>)
    requires IsList(e)
    ensures SizeSeq(es) < Size(e)
  {
    if e.Null? then [] else [e.head] + Elems(e.tail)
  }

  function ListToArray<F>(e: Sexp<F>): Option<seq<Sexp<F>>> {
    if IsList(e) then Some(Elems(e)) else None
  }

  function MakeList<F>(es: seq<Sexp<F>>): Sexp<F> {
    if es == [] then Null else Pair(es[0], MakeList(es[1..]))
  }

  lemma {:induction false} MakeListElems<F>(es: seq<Sexp<F>>)
    ensures IsList(MakeList(es)) && Elems(MakeList(es)) == es
  {
    if es != [] {
      MakeListElems(es[1..]);
      assert es == [es[0]] + es[1..];
    }
  }

  lemma {:induction false} ElemsMakeList<F>(e: Sexp<F>)
    requires IsList(e)
    ensures MakeList(Elems(e)) == e
  {
    if e.Pair? {
      ElemsMakeList(e.tail);
      assert Elems(e)[1..] == Elems(e.tail);
    }
  }

  /** What is left of a chain of pairs after `i` tails. */
  function Tails<F>(e: Sexp<F>, i: nat): Sexp<F> {
    if i == 0 || !e.Pair? then e else Tails(e.tail, i - 1)
  }

  /** The element numbered `i` is the head after `i` tails, and null comes after them all. */
  lemma {:induction false} ElemsInOrder<F>(e: Sexp<F>)
    requires IsList(e)
    ensures Tails(e, |Elems(e)|) == Null
    ensures forall i | 0 <= i < |Elems(e)| :: Tails(e, i).Pair? && Tails(e, i).head == Elems(e)[i]
  {
    if e.Pair? {
      ElemsInOrder(e.tail);
      assert forall i | 0 < i < |Elems(e)| :: Elems(e)[i] == Elems(e.tail)[i - 1];
    }
  }

  lemma {:induction false} MakeListInOrder<F>(es: seq<Sexp<F>>)
    ensures Tails(MakeList(es), |es|) == Null
    ensures forall i | 0 <= i < |es| :: Tails(MakeList(es), i).Pair? && Tails(MakeList(es), i).head == es[i]
  {
    if es != [] {
      MakeListInOrder(es[1..]);
      assert forall i | 0 < i < |es| :: es[i] == es[1..][i - 1];
    }
  }

  /** A proper list is a chain of pairs that ends in null. */
  lemma ListExact<F>(e: Sexp<F>)
    ensures IsList(e) <==> exists n: nat :: Tails(e, n) == Null
  {
    if IsList(e) {
      ElemsInOrder(e);
    } else {
      forall n: nat ensures Tails(e, n) != Null {
        NeverEnds(e, n);
      }
    }
  }

  lemma {:induction false} NeverEnds<F>(e: Sexp<F>, n: nat)
    requires !IsList(e)
    ensures Tails(e, n) != Null
    decreases n
  {
    if n > 0 && e.Pair? {
      NeverEnds(e.tail, n - 1);
    }
  }

  // ---------- sizes, for recursion through lists and arrays ----------

  function Size<F>(e: Sexp<F>): nat {
    match e
    case Pair(h, t) => 1 + Size(h) + Size(t)
    case Arr(es) => 1 + SizeSeq(es)
    case _ => 1
  }

  function SizeSeq<F>(es: seq<Sexp<F>>): nat {
    if es == [] then 0 else 1 + Size(es[0]) + SizeSeq(es[1..])
  }

  lemma {:induction false} SizeAt<F>(es: seq<Sexp<F>>, i: nat)
    requires i < |es|
    ensures Size(es[i]) < SizeSeq(es)
    ensures SizeSeq(es[i..]) <= SizeSeq(es)
    ensures SizeSeq(es[..i]) < SizeSeq(es)
  {
    if i == 0 {
      assert es[0..] == es && es[..0] == [];
    } else {
      SizeAt(es[1..], i - 1);
      assert es[1..][i - 1..] == es[i..];
      assert es[..i][1..] == es[1..][..i - 1];
    }
  }

  // ---------- data without functions ----------

  /** No function value occurs in `e`: what the reader can produce. */
  predicate IsData<F>(e: Sexp<F>) {
    match e
    case Pair(h, t) => IsData(h) && IsData(t)
    case Arr(es) => forall i | 0 <= i < |es| :: IsData(es[i])
    case Fun(_) => false
    case _ => true
  }

  /** Function-free data does not depend on the representation of functions. */
  function Recast<F, G>(e: Sexp<F>): Sexp<G> {
    match e
    case Null => Null
    case End => End
    case Marker => Marker
    case Int(i) => Int(i)
    case Bool(b) => Bool(b)
    case Char(c) => Char(c)
    case Str(s) => Str(s)
    case Sym(s) => Sym(s)
    case Pair(h, t) => Pair(Recast(h), Recast(t))
    case Arr(es) => Arr(RecastAll(es))
    case Fun(_) => Null
  }

  function RecastAll<F, G>(es: seq<Sexp<F>>): seq<Sexp<G>> {
    seq(|es|, i requires 0 <= i < |es| => Recast(es[i]))
  }
}
