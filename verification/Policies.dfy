/** Restricting which functions may be applied only takes values away: whatever a
    restricted evaluation yields, the language itself, which applies every function, yields
    as well. So the correctness theorems speak about the language's own values. */
module Policies {
  import opened Sexps
  import opened Scoping
  import opened Builtins
  import opened Codegen
  import opened Evaluator

  /** The same scopes with no function excluded. */
  function Free(sc: Scopes): Scopes {
    sc.(ok := (f, g) => true)
  }

  lemma {:induction false} FreeEval(fuel: nat, e: Source, sc: Scopes)
    requires Eval(fuel, e, sc).Val?
    ensures var r := Eval(fuel, e, sc); Eval(fuel, e, Free(sc)) == Val(r.v, Free(r.sc))
    decreases fuel, Size(e), 0
  {
    hide EvalForm;
    match e
    case Pair(h, t) =>
      if IsList(e) {
        if h.Sym? {
          FreeForm(fuel, h.sym, Elems(t), sc);
        } else {
          FreeAll(fuel, Elems(t), sc);
          var r := EvalAll(fuel, Elems(t), sc);
          FreeEval(fuel, h, r.after);
          var q := Eval(fuel, h, r.after);
          FreeApply(fuel, q.v.fn, if q.v.fn.Builtin? then q.v.fn.which else q.v.fn.name, r.vs, q.sc);
        }
      }
    case Arr(es) => FreeAll(fuel, es, sc);
    case _ =>
  }

  lemma {:induction false} FreeAll(fuel: nat, es: seq<Source>, sc: Scopes)
    requires EvalAll(fuel, es, sc).Vals?
    ensures var r := EvalAll(fuel, es, sc); EvalAll(fuel, es, Free(sc)) == Vals(r.vs, Free(r.after))
    decreases fuel, SizeSeq(es), 1
  {
    hide Eval;
    if es != [] {
      FreeEval(fuel, es[0], sc);
      FreeAll(fuel, es[1..], Eval(fuel, es[0], sc).sc);
    }
  }

  lemma {:induction false} FreeBegin(fuel: nat, es: seq<Source>, sc: Scopes)
    requires EvalBegin(fuel, es, sc).Val?
    ensures var r := EvalBegin(fuel, es, sc); EvalBegin(fuel, es, Free(sc)) == Val(r.v, Free(r.sc))
    decreases fuel, SizeSeq(es), 2
  {
    hide Eval;
    FreeEval(fuel, es[0], sc);
    if |es| > 1 {
      FreeBegin(fuel, es[1..], Eval(fuel, es[0], sc).sc);
    }
  }

  lemma {:induction false} FreeShort(fuel: nat, or: bool, es: seq<Source>, sc: Scopes)
    requires es != [] && EvalShort(fuel, or, es, sc).Val?
    ensures var r := EvalShort(fuel, or, es, sc); EvalShort(fuel, or, es, Free(sc)) == Val(r.v, Free(r.sc))
    decreases fuel, SizeSeq(es), 2
  {
    hide Eval;
    FreeEval(fuel, es[0], sc);
    var r := Eval(fuel, es[0], sc);
    if |es| > 1 && IsTruthy(r.v) != or {
      FreeShort(fuel, or, es[1..], r.sc);
    }
  }

  lemma {:induction false} FreeCond(fuel: nat, es: seq<Source>, sc: Scopes)
    requires |es| % 2 == 1 && EvalCond(fuel, es, sc).Val?
    ensures var r := EvalCond(fuel, es, sc); EvalCond(fuel, es, Free(sc)) == Val(r.v, Free(r.sc))
    decreases fuel, SizeSeq(es), 2
  {
    hide Eval;
    FreeEval(fuel, es[0], sc);
    if |es| > 1 {
      SizeAt(es, 1);
      SizeAt(es, 2);
      var r := Eval(fuel, es[0], sc);
      if IsTruthy(r.v) {
        FreeEval(fuel, es[1], r.sc);
      } else {
        FreeCond(fuel, es[2..], r.sc);
      }
    }
  }

  lemma {:induction false} FreeLetStar(fuel: nat, names: seq<Symbol>, rights: seq<Source>, sc: Scopes)
    requires |names| == |rights| && EvalLetStar(fuel, names, rights, sc).Some?
    ensures EvalLetStar(fuel, names, rights, Free(sc)) == Some(Free(EvalLetStar(fuel, names, rights, sc).value))
    decreases fuel, SizeSeq(rights), 2
  {
    hide Eval;
    if names != [] {
      FreeEval(fuel, rights[0], sc);
      var r := Eval(fuel, rights[0], sc);
      FreeLetStar(fuel, names[1..], rights[1..], r.sc.Bind(names[0].num, r.v));
    }
  }

  lemma {:induction false} FreeLet(fuel: nat, star: bool, args: seq<Source>, sc: Scopes)
    requires EvalLet(fuel, star, args, sc).Val?
    ensures var r := EvalLet(fuel, star, args, sc); EvalLet(fuel, star, args, Free(sc)) == Val(r.v, Free(r.sc))
    decreases fuel, SizeSeq(args), 3
  {
    hide EvalBegin, EvalAll, EvalLetStar, ParseBindings;
    SizeAt(args, 0);
    var b := ParseBindings(args[0].elems);
    if star {
      FreeLetStar(fuel, b.names, b.rights, sc.Enter());
    } else {
      FreeAll(fuel, b.rights, sc.Enter());
    }
    FreeBegin(fuel, args[1..], EvalBindings(fuel, star, b, sc.Enter()).value);
  }

  lemma {:induction false} FreeForm(fuel: nat, s: Symbol, args: seq<Source>, sc: Scopes)
    requires EvalForm(fuel, s, args, sc).Val?
    ensures var r := EvalForm(fuel, s, args, sc); EvalForm(fuel, s, args, Free(sc)) == Val(r.v, Free(r.sc))
    decreases fuel, SizeSeq(args), 4
  {
    hide FormOf, Eval, EvalAll, EvalBegin, EvalShort, EvalCond, EvalLet, Expand, ApplyNamed, IsTruthy, Visible;
    match FormOf(s.name)
    case And => FreeShort(fuel, false, args, sc);
    case Or => FreeShort(fuel, true, args, sc);
    case Cond => FreeCond(fuel, args, sc);
    case Def =>
      SizeAt(args, 1);
      FreeEval(fuel, args[1], sc);
    case Begin => FreeBegin(fuel, args, sc);
    case Let => FreeLet(fuel, false, args, sc);
    case LetStar => FreeLet(fuel, true, args, sc);
    case Assert =>
      SizeAt(args, 0);
      FreeEval(fuel, args[0], sc);
    case SyntaxQuote =>
      SizeAt(args, 0);
      FreeExpand(fuel, args[0], sc);
    case Ordinary =>
      FreeAll(fuel, args, sc);
      var r := EvalAll(fuel, args, sc);
      var f := if s.num in r.after.host.builtins then Fun(Builtin(r.after.host.builtins[s.num]))
               else Lookup(r.after.glob, r.after.locals, s.num).value;
      FreeApply(fuel, f.fn, s.name, r.vs, r.after);
    case _ =>
  }

  lemma {:induction false} FreeExpand(fuel: nat, x: Source, sc: Scopes)
    requires Expand(fuel, x, sc).Vals?
    ensures var r := Expand(fuel, x, sc); Expand(fuel, x, Free(sc)) == Vals(r.vs, Free(r.after))
    decreases fuel, Size(x), 1
  {
    hide Eval, ExpandAll, IsUnquote;
    if x.Arr? {
      FreeExpandAll(fuel, x.elems, sc);
    } else if x.Pair? && IsList(x) {
      var es := Elems(x);
      if IsUnquote(es, "unquote") || IsUnquote(es, "unquote-splicing") {
        TwoElements(es);
        SizeAt(es, 1);
        FreeEval(fuel, es[1], sc);
      } else {
        FreeExpandAll(fuel, es, sc);
      }
    }
  }

  lemma {:induction false} FreeExpandAll(fuel: nat, xs: seq<Source>, sc: Scopes)
    requires ExpandAll(fuel, xs, sc).Vals?
    ensures var r := ExpandAll(fuel, xs, sc); ExpandAll(fuel, xs, Free(sc)) == Vals(r.vs, Free(r.after))
    decreases fuel, SizeSeq(xs), 2
  {
    hide Expand;
    if xs != [] {
      FreeExpand(fuel, xs[0], sc);
      FreeExpandAll(fuel, xs[1..], Expand(fuel, xs[0], sc).after);
    }
  }

  lemma {:induction false} FreeApply(fuel: nat, f: Closure, name: string, args: seq<V>, sc: Scopes)
    requires ApplyNamed(fuel, f, name, args, sc).Some?
    ensures ApplyNamed(fuel, f, name, args, Free(sc)) == ApplyNamed(fuel, f, name, args, sc)
    decreases fuel, 0, 0
  {
    hide EvalBegin, EvalBuiltin, ParseParams, ParamValues, BindAll;
    match f
    case Builtin(which) => FreeBuiltin(fuel - 1, which, name, args, sc);
    case Closure(_, _, params, body, env) =>
      var p := ParseParams(params);
      var vs := ParamValues(p, args).value;
      FreeBegin(fuel - 1, body, sc.(locals := [env, BindAll(map[], p.names, vs)]));
  }

  lemma {:induction false} FreeBuiltin(fuel: nat, which: string, name: string, args: seq<V>, sc: Scopes)
    requires EvalBuiltin(fuel, which, name, args, sc).Some?
    ensures EvalBuiltin(fuel, which, name, args, Free(sc)) == EvalBuiltin(fuel, which, name, args, sc)
    decreases fuel, 2, 0
  {
    hide ApplyNamed, MapValues, Prim;
    if which == "apply" {
      var f := args[0].fn;
      FreeApply(fuel, f, if f.Builtin? then f.which else f.name, ApplyArgs(args[1]).value, sc);
    } else if which == "map" {
      FreeMap(fuel, args[0].fn, if args[1].Arr? then args[1].elems else Elems(args[1]), sc);
    }
  }

  lemma {:induction false} FreeMap(fuel: nat, f: Closure, es: seq<V>, sc: Scopes)
    requires MapValues(fuel, f, es, sc).Some?
    ensures MapValues(fuel, f, es, Free(sc)) == MapValues(fuel, f, es, sc)
    decreases fuel, 1, |es|
  {
    hide ApplyNamed;
    if es != [] {
      FreeApply(fuel, f, if f.Builtin? then f.which else f.name, es[..1], sc);
      FreeMap(fuel, f, es[1..], sc);
    }
  }
}
