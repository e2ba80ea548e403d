/** Compiling a function under another name. The generator's `funcname` decides only between
    a jump and a call; so under a name that its text does not say, a function compiles, and
    is as regular as before, but calls itself where it jumped. */
module Renaming {
  import opened Sexps
  import opened Instructions
  import opened Codegen
  import opened Wellformed
  import opened Regularity

  // ---------- what does not depend on the name ----------

  /** Equal but for the code. */
  predicate Agrees(o: Out, o': Out) {
    o.st == o'.st && o.err == o'.err
  }

  lemma {:induction false} GExpr(a: Symbol, x: string, y: string, e: Value, g: Gst)
    ensures Agrees(Gen(a, x, e, g), Gen(a, y, e, g))
    decreases Size(e), 0
  {
    hide GenForm, GenDispatch, GenAll;
    match e
    case Pair(h, t) =>
      if IsList(e) {
        if h.Sym? {
          GForm(a, x, y, h.sym, Elems(t), g);
        } else {
          GDispatch(a, x, y, h, Elems(t), g);
        }
      }
    case Arr(es) => GAll(a, x, y, es, g);
    case _ =>
  }

  lemma {:induction false} GDispatch(a: Symbol, x: string, y: string, h: Value, args: seq<Value>, g: Gst)
    ensures Agrees(GenDispatch(a, x, h, args, g), GenDispatch(a, y, h, args, g))
    decreases Size(h) + SizeSeq(args), 3
  {
    hide Gen, GenAll;
    GAll(a, x, y, args, g);
    GExpr(a, x, y, h, GenAll(a, x, args, g).st);
  }

  lemma {:induction false} GAll(a: Symbol, x: string, y: string, es: seq<Value>, g: Gst)
    ensures Agrees(GenAll(a, x, es, g), GenAll(a, y, es, g))
    decreases SizeSeq(es), 1
  {
    hide Gen;
    if es != [] {
      GExpr(a, x, y, es[0], g);
      GAll(a, x, y, es[1..], Gen(a, x, es[0], g).st);
    }
  }

  lemma {:induction false} GPops(a: Symbol, x: string, y: string, es: seq<Value>, g: Gst)
    ensures Agrees(GenPops(a, x, es, g), GenPops(a, y, es, g))
    decreases SizeSeq(es), 1
  {
    hide Gen;
    if es != [] {
      GExpr(a, x, y, es[0], g);
      GPops(a, x, y, es[1..], Gen(a, x, es[0], g).st);
    }
  }

  lemma {:induction false} GBegin(a: Symbol, x: string, y: string, es: seq<Value>, g: Gst)
    ensures Agrees(GenBegin(a, x, es, g), GenBegin(a, y, es, g))
    decreases SizeSeq(es), 2
  {
    hide Gen, GenPops;
    if es != [] {
      var n := |es| - 1;
      SizeAt(es, n);
      GPops(a, x, y, es[..n], g.(tail := false));
      GExpr(a, x, y, es[n], GenPops(a, x, es[..n], g.(tail := false)).st.(tail := g.tail));
    }
  }

  lemma {:induction false} GShort(a: Symbol, x: string, y: string, or: bool, es: seq<Value>, g: Gst)
    requires es != []
    ensures Agrees(GenShort(a, x, or, es, g), GenShort(a, y, or, es, g))
    decreases SizeSeq(es), 3
  {
    hide Gen;
    if |es| == 1 {
      GExpr(a, x, y, es[0], g);
    } else {
      GShort(a, x, y, or, es[1..], g);
    }
  }

  lemma {:induction false} GCond(a: Symbol, x: string, y: string, es: seq<Value>, g: Gst)
    requires |es| % 2 == 1
    ensures Agrees(GenCond(a, x, es, g), GenCond(a, y, es, g))
    decreases SizeSeq(es), 3
  {
    hide Gen;
    if |es| == 1 {
      GExpr(a, x, y, es[0], g);
    } else {
      SizeAt(es, 1);
      SizeAt(es, 2);
      GCond(a, x, y, es[2..], g);
      GExpr(a, x, y, es[0], Gst(false, 0));
      GExpr(a, x, y, es[1], g);
    }
  }

  lemma {:induction false} GLetStar(a: Symbol, x: string, y: string, names: seq<Symbol>, rights: seq<Value>, g: Gst)
    requires |names| == |rights|
    ensures Agrees(GenLetStar(a, x, names, rights, g), GenLetStar(a, y, names, rights, g))
    decreases SizeSeq(rights), 1
  {
    hide Gen;
    if names != [] {
      GExpr(a, x, y, rights[0], g);
      GLetStar(a, x, y, names[1..], rights[1..], Gen(a, x, rights[0], g).st);
    }
  }

  lemma {:induction false} GBindings(a: Symbol, x: string, y: string, star: bool, b: Bindings, g: Gst)
    requires b.Bindings? && |b.names| == |b.rights|
    ensures Agrees(GenBindings(a, x, star, b, g), GenBindings(a, y, star, b, g))
    decreases SizeSeq(b.rights), 2
  {
    hide GenAll, GenLetStar;
    if star {
      GLetStar(a, x, y, b.names, b.rights, g);
    } else {
      GAll(a, x, y, b.rights, g);
    }
  }

  lemma {:induction false} GLet(a: Symbol, x: string, y: string, star: bool, args: seq<Value>, g: Gst)
    ensures Agrees(GenLet(a, x, star, args, g), GenLet(a, y, star, args, g))
    decreases SizeSeq(args), 3
  {
    hide GenBindings, GenBegin, ParseBindings;
    if |args| >= 2 && args[0].Arr? {
      var b := ParseBindings(args[0].elems);
      if b.Bindings? {
        SizeAt(args, 0);
        var inner := g.(scopes := g.scopes + 1);
        GBindings(a, x, y, star, b, inner);
        GBegin(a, x, y, args[1..], GenBindings(a, x, star, b, inner).st);
      }
    }
  }

  lemma {:induction false} GForm(a: Symbol, x: string, y: string, s: Symbol, args: seq<Value>, g: Gst)
    ensures Agrees(GenForm(a, x, s, args, g), GenForm(a, y, s, args, g))
    decreases SizeSeq(args), 4
  {
    hide FormOf, Gen, GenAll, GenBegin, GenShort, GenCond, GenLet, GenQuasi, BuildFun;
    match FormOf(s.name)
    case And =>
      if args != [] {
        GShort(a, x, y, false, args, g);
      }
    case Or =>
      if args != [] {
        GShort(a, x, y, true, args, g);
      }
    case Cond =>
      if |args| % 2 == 1 {
        GCond(a, x, y, args, g);
      }
    case Def =>
      if |args| == 2 {
        SizeAt(args, 1);
        GExpr(a, x, y, args[1], g.(tail := false));
      }
    case Begin => GBegin(a, x, y, args, g);
    case Let => GLet(a, x, y, false, args, g);
    case LetStar => GLet(a, x, y, true, args, g);
    case Assert =>
      if |args| == 1 {
        SizeAt(args, 0);
        GExpr(a, x, y, args[0], g);
      }
    case SyntaxQuote =>
      if |args| == 1 {
        SizeAt(args, 0);
        GQuasi(a, x, y, args[0], g);
      }
    case Ordinary => GAll(a, x, y, args, g.(tail := false));
    case _ =>
  }

  lemma {:induction false} GQuasi(a: Symbol, x: string, y: string, e: Value, g: Gst)
    ensures Agrees(GenQuasi(a, x, e, g), GenQuasi(a, y, e, g))
    decreases Size(e), 1
  {
    hide Gen, GenQuasiEach, GenQuasiAll, IsUnquote;
    if e.Arr? {
      GQuasiEach(a, x, y, e.elems, g);
    } else if e.Pair? && IsList(e) {
      var es := Elems(e);
      if IsUnquote(es, "unquote") || IsUnquote(es, "unquote-splicing") {
        TwoElements(es);
        SizeAt(es, 1);
        GExpr(a, x, y, es[1], g);
      } else {
        GQuasiAll(a, x, y, es, g);
      }
    }
  }

  lemma {:induction false} GQuasiAll(a: Symbol, x: string, y: string, es: seq<Value>, g: Gst)
    ensures Agrees(GenQuasiAll(a, x, es, g), GenQuasiAll(a, y, es, g))
    decreases SizeSeq(es), 2
  {
    hide GenQuasi;
    if es != [] {
      GQuasi(a, x, y, es[0], g);
      GQuasiAll(a, x, y, es[1..], GenQuasi(a, x, es[0], g).st);
    }
  }

  lemma {:induction false} GQuasiEach(a: Symbol, x: string, y: string, es: seq<Value>, g: Gst)
    ensures Agrees(GenQuasiEach(a, x, es, g), GenQuasiEach(a, y, es, g))
    decreases SizeSeq(es), 2
  {
    hide GenQuasi;
    if es != [] {
      GQuasi(a, x, y, es[0], g);
      GQuasiEach(a, x, y, es[1..], GenQuasi(a, x, es[0], g).st);
    }
  }

  // ---------- names that a text does not say ----------

  predicate Avoids(name: string, e: Value) {
    match e
    case Sym(s) => s.name != name
    case Pair(h, t) => Avoids(name, h) && Avoids(name, t)
    case Arr(es) => forall i | 0 <= i < |es| :: Avoids(name, es[i])
    case _ => true
  }

  predicate AvoidsAll(name: string, es: seq<Value>) {
    forall i | 0 <= i < |es| :: Avoids(name, es[i])
  }

  lemma {:induction false} AvoidsElems(name: string, e: Value)
    requires IsList(e) && Avoids(name, e)
    ensures AvoidsAll(name, Elems(e))
  {
    if e.Pair? {
      AvoidsElems(name, e.tail);
    }
  }

  lemma {:induction false} AvoidsRights(name: string, es: seq<Value>)
    requires AvoidsAll(name, es) && ParseBindings(es).Bindings?
    ensures AvoidsAll(name, ParseBindings(es).rights)
  {
    hide Avoids;
    if es != [] {
      AvoidsRights(name, es[2..]);
    }
  }

  /** Where `tail` is off no name is compared. */
  predicate Quiet(name: string, e: Value, g: Gst) {
    g.tail ==> Avoids(name, e)
  }

  predicate QuietAll(name: string, es: seq<Value>, g: Gst) {
    g.tail ==> AvoidsAll(name, es)
  }

  // ---------- well-formedness without loops ----------

  function Calls(cx: Ctx): Ctx {
    cx.(loops := false)
  }

  lemma {:induction false} WExpr(a: Symbol, x: string, y: string, e: Value, g: Gst, cx: Ctx)
    requires WF(a, x, e, g, cx) && Quiet(y, e, g)
    ensures WF(a, y, e, g, Calls(cx))
    decreases Size(e), 0
  {
    hide WFForm, WFAll, Gen, GenAll, Avoids;
    match e
    case Pair(h, t) =>
      if IsList(e) {
        QuietParts(y, e, g);
        if h.Sym? {
          WForm(a, x, y, h.sym, Elems(t), g, cx);
        } else {
          var args := Elems(t);
          WAll(a, x, y, args, g, cx.Unsafe());
          GAll(a, x, y, args, g);
          var st := GenAll(a, x, args, g).st;
          WExpr(a, x, y, h, st, cx.Unsafe());
          GExpr(a, x, y, h, st);
        }
      }
    case Arr(es) =>
      QuietArray(y, es, g);
      WAll(a, x, y, es, g, cx.Unsafe());
    case _ =>
  }

  lemma QuietParts(name: string, e: Value, g: Gst)
    requires e.Pair? && IsList(e) && Quiet(name, e, g)
    ensures Quiet(name, e.head, g) && QuietAll(name, Elems(e.tail), g)
    ensures g.tail && e.head.Sym? ==> e.head.sym.name != name
  {
    if g.tail {
      AvoidsElems(name, e.tail);
    }
  }

  lemma QuietArray(name: string, es: seq<Value>, g: Gst)
    requires Quiet(name, Arr(es), g)
    ensures QuietAll(name, es, g)
  {
  }

  lemma {:induction false} WAll(a: Symbol, x: string, y: string, es: seq<Value>, g: Gst, cx: Ctx)
    requires WFAll(a, x, es, g, cx) && QuietAll(y, es, g)
    ensures WFAll(a, y, es, g, Calls(cx))
    decreases SizeSeq(es), 1
  {
    hide WF, Gen, Avoids;
    if es != [] {
      WExpr(a, x, y, es[0], g, cx);
      GExpr(a, x, y, es[0], g);
      WAll(a, x, y, es[1..], Gen(a, x, es[0], g).st, cx);
    }
  }

  lemma {:induction false} WBegin(a: Symbol, x: string, y: string, es: seq<Value>, g: Gst, cx: Ctx)
    requires WFBegin(a, x, es, g, cx) && QuietAll(y, es, g)
    ensures WFBegin(a, y, es, g, Calls(cx))
    decreases SizeSeq(es), 2
  {
    hide WF, WFAll, Gen, GenPops, Avoids;
    var n := |es| - 1;
    SizeAt(es, n);
    WAll(a, x, y, es[..n], g.(tail := false), cx.Unsafe());
    GPops(a, x, y, es[..n], g.(tail := false));
    WExpr(a, x, y, es[n], GenPops(a, x, es[..n], g.(tail := false)).st.(tail := g.tail), cx);
  }

  lemma {:induction false} WShort(a: Symbol, x: string, y: string, es: seq<Value>, g: Gst, cx: Ctx)
    requires es != [] && WFShort(a, x, es, g, cx) && QuietAll(y, es, g)
    ensures WFShort(a, y, es, g, Calls(cx))
    decreases SizeSeq(es), 2
  {
    hide WF, Gen, Avoids;
    if |es| == 1 {
      WExpr(a, x, y, es[0], g, cx);
      GExpr(a, x, y, es[0], g);
    } else {
      WExpr(a, "", "", es[0], Gst(false, 0), cx.Unsafe());
      WShort(a, x, y, es[1..], g, cx);
    }
  }

  lemma {:induction false} WCond(a: Symbol, x: string, y: string, es: seq<Value>, g: Gst, cx: Ctx)
    requires |es| % 2 == 1 && WFCond(a, x, es, g, cx) && QuietAll(y, es, g)
    ensures WFCond(a, y, es, g, Calls(cx))
    decreases SizeSeq(es), 2
  {
    hide WF, Avoids;
    if |es| == 1 {
      WExpr(a, x, y, es[0], g, cx);
    } else {
      SizeAt(es, 1);
      SizeAt(es, 2);
      WExpr(a, x, y, es[0], Gst(false, 0), cx.Unsafe());
      WExpr(a, x, y, es[1], g, cx);
      WCond(a, x, y, es[2..], g, cx);
    }
  }

  lemma {:induction false} WLet(a: Symbol, x: string, y: string, star: bool, args: seq<Value>, g: Gst, cx: Ctx)
    requires WFLet(a, x, star, args, g, cx) && QuietAll(y, args, g)
    ensures WFLet(a, y, star, args, g, Calls(cx))
    decreases SizeSeq(args), 3
  {
    hide WFAll, WFBegin, GenBindings, ParseBindings;
    SizeAt(args, 0);
    var b := ParseBindings(args[0].elems);
    var inner, g1 := cx.(depth := cx.depth + 1), g.(scopes := g.scopes + 1);
    if g.tail {
      assert Avoids(y, args[0]);
      AvoidsRights(y, args[0].elems);
    }
    hide Avoids;
    WAll(a, x, y, b.rights, g1, inner.Unsafe());
    GBindings(a, x, y, star, b, g1);
    WBegin(a, x, y, args[1..], GenBindings(a, x, star, b, g1).st, inner);
  }

  lemma {:induction false} WForm(a: Symbol, x: string, y: string, s: Symbol, args: seq<Value>, g: Gst, cx: Ctx)
    requires WFForm(a, x, s, args, g, cx) && QuietAll(y, args, g) && (g.tail ==> s.name != y)
    ensures WFForm(a, y, s, args, g, Calls(cx))
    decreases SizeSeq(args), 4
  {
    hide FormOf, WF, WFAll, WFBegin, WFShort, WFCond, WFLet, WFQuasi, IsData, Avoids;
    match FormOf(s.name)
    case And => WShort(a, x, y, args, g, cx);
    case Or => WShort(a, x, y, args, g, cx);
    case Cond => WCond(a, x, y, args, g, cx);
    case Def =>
      SizeAt(args, 1);
      WExpr(a, x, y, args[1], g.(tail := false), cx.Unsafe());
    case Begin => WBegin(a, x, y, args, g, cx);
    case Let => WLet(a, x, y, false, args, g, cx);
    case LetStar => WLet(a, x, y, true, args, g, cx);
    case Assert =>
      SizeAt(args, 0);
      WExpr(a, x, y, args[0], g, cx.Unsafe());
    case SyntaxQuote =>
      SizeAt(args, 0);
      WQuasi(a, x, y, args[0], g, cx.Unsafe());
    case Ordinary => WAll(a, x, y, args, g.(tail := false), cx.Unsafe());
    case _ =>
  }

  lemma {:induction false} WQuasi(a: Symbol, x: string, y: string, e: Value, g: Gst, cx: Ctx)
    requires WFQuasi(a, x, e, g, cx) && Quiet(y, e, g)
    ensures WFQuasi(a, y, e, g, Calls(cx))
    decreases Size(e), 1
  {
    hide WF, WFQuasiAll, Gen, IsUnquote, Avoids, IsData;
    if e.Arr? {
      QuietArray(y, e.elems, g);
      WQuasiAll(a, x, y, e.elems, g, cx);
    } else if e.Pair? && IsList(e) {
      var es := Elems(e);
      if g.tail {
        AvoidsElems(y, e);
      }
      if IsUnquote(es, "unquote") || IsUnquote(es, "unquote-splicing") {
        TwoElements(es);
        SizeAt(es, 1);
        WExpr(a, x, y, es[1], g, cx);
        GExpr(a, x, y, es[1], g);
      } else {
        WQuasiAll(a, x, y, es, g, cx);
      }
    }
  }

  lemma {:induction false} WQuasiAll(a: Symbol, x: string, y: string, es: seq<Value>, g: Gst, cx: Ctx)
    requires WFQuasiAll(a, x, es, g, cx) && QuietAll(y, es, g)
    ensures WFQuasiAll(a, y, es, g, Calls(cx))
    decreases SizeSeq(es), 2
  {
    hide WFQuasi, GenQuasi, Avoids;
    if es != [] {
      WQuasi(a, x, y, es[0], g, cx);
      GQuasi(a, x, y, es[0], g);
      WQuasiAll(a, x, y, es[1..], GenQuasi(a, x, es[0], g).st, cx);
    }
  }

  /** Under a name that its text does not say, a regular function is regular without
      looping. */
  lemma Renamed(a: Symbol, may: bool, name: string, other: string, num: int, params: seq<Value>, body: seq<Value>)
    requires RegularFun(a, Inner({}), may, name, num, params, body) && AvoidsAll(other, body)
    ensures RegularFun(a, Inner({}), false, other, num, params, body)
  {
    hide RegularAll, GenBegin, WFBegin, ParseParams, Avoids, Mentions, Nested, BindsAll;
    GBegin(a, name, other, body, Gst(true, 0));
    var cx := Ctx(true, num, ParseParams(params).nargs, false, true, 0);
    if WFBegin(a, name, body, Gst(true, 0), cx) {
      WBegin(a, name, other, body, Gst(true, 0), cx);
    } else {
      WBegin(a, name, other, body, Gst(true, 0), cx.(loops := true));
    }
  }
}
