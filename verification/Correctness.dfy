/** Compiler correctness: where the evaluator gives an expression a value, the machine runs
    the generated code to its end with that value pushed and the evaluator's scopes. The
    proof follows the evaluator; calls use less fuel, subexpressions are smaller. */
module Correctness {
  import opened Sexps
  import opened Scoping
  import opened Builtins
  import opened Instructions
  import opened Codegen
  import opened Machines
  import opened Runs
  import opened Evaluator
  import opened Translation
  import opened Wellformed
  import opened Simulation

  /** `m` stands at the start of the code `o`. */
  ghost predicate Ready(m: Machine, sc: Scopes, c: Closure, cx: Ctx, g: Gst, o: Out) {
    && Rel(m, sc, c, cx) && (cx.safe ==> g.scopes == cx.depth)
    && o.err == Ok && CodeAt(m, 0, o.code)
  }

  // ---------- expressions ----------

  lemma {:induction false} CExpr(fuel: nat, fname: string, e: Source, g: Gst, cx: Ctx, c: Closure, sc: Scopes,
                                 m: Machine)
    requires Ready(m, sc, c, cx, g, Gen(m.host.arr, fname, e, g))
    requires WF(m.host.arr, fname, e, g, cx) && Eval(fuel, e, sc).Val?
    ensures var o, r := Gen(m.host.arr, fname, e, g), Eval(fuel, e, sc);
            Lands(m, c, cx, |o.code|, r.v, r.sc) && Keeps(g, o.st)
    decreases fuel, Size(e), 0
  {
    hide Rel, Yields, Reaches, Exits, TrVal, TrAll, TrFrame, TrFrames, Top, Below;
    hide GenForm, GenDispatch, GenAll, WFForm, WFAll, EvalForm, EvalDispatch, EvalAll;
    match e
    case Sym(s) =>
      StepGet(m, sc, c, cx, s, Eval(fuel, e, sc).v);
    case Pair(h, t) =>
      if !IsList(e) {
        CConstant(e, sc, c, cx, m);
      } else if h.Sym? {
        CForm(fuel, fname, h.sym, Elems(t), g, cx, c, sc, m);
      } else {
        CDispatch(fuel, fname, h, Elems(t), g, cx, c, sc, m);
      }
    case Arr(es) =>
      CArray(fuel, fname, es, g, cx, c, sc, m);
    case _ =>
      CConstant(e, sc, c, cx, m);
  }

  lemma CConstant(e: Source, sc: Scopes, c: Closure, cx: Ctx, m: Machine)
    requires Rel(m, sc, c, cx) && CodeAt(m, 0, [Push(e)]) && IsData(e)
    ensures Yields(m, c, cx, 1, [Recast(e)], sc)
  {
    hide Rel, Yields, Reaches, Exits, TrVal, TrAll, TrFrame, TrFrames, Top, Below;
    hide Recast, IsData;
    TrConstant(m.host.arr, e);
    AdvanceHere(m, sc, c, cx);
    assert [] + [Recast<Function, Closure>(e)] == [Recast(e)];
    StepPush(m, c, cx, 0, [], sc, Recast(e), [Recast(e)]);
  }

  /** An expression that does not stand in tail position. */
  lemma {:induction false} CValue(fuel: nat, fname: string, e: Source, g: Gst, cx: Ctx, c: Closure, sc: Scopes,
                                  m: Machine)
    requires Rel(m, sc, c, cx) && WF(m.host.arr, fname, e, g, cx.Unsafe()) && Eval(fuel, e, sc).Val?
    requires var o := Gen(m.host.arr, fname, e, g); o.err == Ok && CodeAt(m, 0, o.code)
    ensures var o, r := Gen(m.host.arr, fname, e, g), Eval(fuel, e, sc);
            && Yields(m, c, cx, |o.code|, [r.v], r.sc) && Keeps(g, o.st)
            && Rel(Advance(m, cx.Own(), |o.code|, [r.v], r.sc), r.sc, c, cx)
    decreases fuel, Size(e), 1
  {
    hide Rel, Yields, Reaches, Exits, TrVal, TrAll, TrFrame, TrFrames, Top, Below;
    hide Gen, WF;
    var o, r := Gen(m.host.arr, fname, e, g), Eval(fuel, e, sc);
    RelUnsafe(m, sc, c, cx);
    CExpr(fuel, fname, e, g, cx.Unsafe(), c, sc, m);
    YieldsUnsafe(m, c, cx, |o.code|, [r.v], r.sc);
    RelAdvance(m, sc, c, cx, |o.code|, [r.v], r.sc);
  }

  /** Code ahead of `m` is code ahead of where it gets to. */
  lemma Ahead(m: Machine, n: nat, off: int, vs: seq<V>, sc: Scopes, code: seq<Instr>)
    requires CodeAt(m, off, code)
    ensures CodeAt(Advance(m, n, off, vs, sc), 0, code) && Advance(m, n, off, vs, sc).host == m.host
  {
    hide TrAll, TrFrame, TrFrames;
  }

  lemma NoValues()
    ensures var none: seq<V> := []; none + none == none
  {
  }

  /** Operands, left to right, all left on the stack. */
  lemma {:induction false} CAll(fuel: nat, fname: string, es: seq<Source>, g: Gst, cx: Ctx, c: Closure, sc: Scopes,
                                m: Machine)
    requires Rel(m, sc, c, cx) && WFAll(m.host.arr, fname, es, g, cx.Unsafe()) && EvalAll(fuel, es, sc).Vals?
    requires var o := GenAll(m.host.arr, fname, es, g); o.err == Ok && CodeAt(m, 0, o.code)
    ensures var o, r := GenAll(m.host.arr, fname, es, g), EvalAll(fuel, es, sc);
            && Yields(m, c, cx, |o.code|, r.vs, r.after) && Keeps(g, o.st)
            && Rel(Advance(m, cx.Own(), |o.code|, r.vs, r.after), r.after, c, cx)
    decreases fuel, SizeSeq(es), 1
  {
    hide Rel, Yields, Reaches, Exits, TrVal, TrAll, TrFrame, TrFrames, Top, Below;
    hide Gen, WF, Eval;
    if es == [] {
      AdvanceHere(m, sc, c, cx);
      AdvanceIs(m, sc, c, cx);
    } else {
      var o, r := Gen(m.host.arr, fname, es[0], g), Eval(fuel, es[0], sc);
      var p, q := GenAll(m.host.arr, fname, es[1..], o.st), EvalAll(fuel, es[1..], r.sc);
      CodeSplit(m, 0, o.code, p.code);
      CValue(fuel, fname, es[0], g, cx, c, sc, m);
      CAll(fuel, fname, es[1..], o.st, cx, c, r.sc, Advance(m, cx.Own(), |o.code|, [r.v], r.sc));
      Chain(m, c, cx, |o.code|, [r.v], r.sc, |p.code|, q.vs, q.after);
      RelAdvance(m, sc, c, cx, |o.code| + |p.code|, [r.v] + q.vs, q.after);
    }
  }

  /** Expressions evaluated for their effect on the scopes. */
  lemma {:induction false} CPops(fuel: nat, fname: string, es: seq<Source>, g: Gst, cx: Ctx, c: Closure, sc: Scopes,
                                 m: Machine)
    requires Rel(m, sc, c, cx) && WFAll(m.host.arr, fname, es, g, cx.Unsafe()) && EvalAll(fuel, es, sc).Vals?
    requires var o := GenPops(m.host.arr, fname, es, g); o.err == Ok && CodeAt(m, 0, o.code)
    ensures var o, r := GenPops(m.host.arr, fname, es, g), EvalAll(fuel, es, sc);
            && Yields(m, c, cx, |o.code|, [], r.after) && Keeps(g, o.st)
            && Rel(Advance(m, cx.Own(), |o.code|, [], r.after), r.after, c, cx)
    decreases fuel, SizeSeq(es), 1
  {
    hide Rel, Yields, Reaches, Exits, TrVal, TrAll, TrFrame, TrFrames, Top, Below;
    hide Gen, WF, Eval;
    if es == [] {
      AdvanceHere(m, sc, c, cx);
      AdvanceIs(m, sc, c, cx);
    } else {
      var o, r := Gen(m.host.arr, fname, es[0], g), Eval(fuel, es[0], sc);
      var p, q := GenPops(m.host.arr, fname, es[1..], o.st), EvalAll(fuel, es[1..], r.sc);
      assert GenPops(m.host.arr, fname, es, g) == Out(o.code + [Pop] + p.code, p.st, Ok);
      assert WF(m.host.arr, fname, es[0], g, cx.Unsafe()) && WFAll(m.host.arr, fname, es[1..], o.st, cx.Unsafe());
      assert EvalAll(fuel, es, sc).after == q.after;
      hide GenPops, WFAll, EvalAll, Advance;
      CodeSplit(m, 0, o.code + [Pop], p.code);
      CodeSplit(m, 0, o.code, [Pop]);
      CValue(fuel, fname, es[0], g, cx, c, sc, m);
      StepPop(m, c, cx, |o.code|, [], r.v, r.sc, [r.v]);
      RelAdvance(m, sc, c, cx, |o.code| + 1, [], r.sc);
      CPops(fuel, fname, es[1..], o.st, cx, c, r.sc, Advance(m, cx.Own(), |o.code| + 1, [], r.sc));
      Chain(m, c, cx, |o.code| + 1, [], r.sc, |p.code|, [], q.after);
      NoValues();
      RelAdvance(m, sc, c, cx, |o.code| + 1 + |p.code|, [], q.after);
    }
  }

  /** A sequence is its front, evaluated for effect, and then its last expression. */
  lemma {:induction false} BeginSplit(fuel: nat, es: seq<Source>, sc: Scopes)
    requires EvalBegin(fuel, es, sc).Val?
    ensures var n := |es| - 1;
            && n >= 0 && EvalAll(fuel, es[..n], sc).Vals?
            && Eval(fuel, es[n], EvalAll(fuel, es[..n], sc).after) == EvalBegin(fuel, es, sc)
    decreases |es|
  {
    hide Eval;
    if |es| > 1 {
      var n := |es| - 1;
      BeginSplit(fuel, es[1..], Eval(fuel, es[0], sc).sc);
      assert es[..n][1..] == es[1..][..n - 1];
    }
  }

  lemma {:induction false} CBegin(fuel: nat, fname: string, es: seq<Source>, g: Gst, cx: Ctx, c: Closure, sc: Scopes,
                                  m: Machine)
    requires Ready(m, sc, c, cx, g, GenBegin(m.host.arr, fname, es, g))
    requires WFBegin(m.host.arr, fname, es, g, cx) && EvalBegin(fuel, es, sc).Val?
    ensures var o, r := GenBegin(m.host.arr, fname, es, g), EvalBegin(fuel, es, sc);
            Lands(m, c, cx, |o.code|, r.v, r.sc) && Keeps(g, o.st)
    decreases fuel, SizeSeq(es), 2
  {
    hide Rel, Yields, Reaches, Exits, TrVal, TrAll, TrFrame, TrFrames, Top, Below;
    hide Gen, GenPops, WF, WFAll, Eval, EvalAll, EvalBegin, Lands;
    var n, r := |es| - 1, EvalBegin(fuel, es, sc);
    SizeAt(es, n);
    BeginSplit(fuel, es, sc);
    var o := GenPops(m.host.arr, fname, es[..n], g.(tail := false));
    var p := Gen(m.host.arr, fname, es[n], o.st.(tail := g.tail));
    var sc1 := EvalAll(fuel, es[..n], sc).after;
    CodeSplit(m, 0, o.code, p.code);
    CPops(fuel, fname, es[..n], g.(tail := false), cx, c, sc, m);
    CExpr(fuel, fname, es[n], o.st.(tail := g.tail), cx, c, sc1, Advance(m, cx.Own(), |o.code|, [], sc1));
    ChainLands(m, sc, c, cx, |o.code|, sc1, |p.code|, r.v, r.sc);
  }

  // ---------- control ----------

  lemma ShortPieces(m: Machine, p: seq<Instr>, branch: Instr, rest: seq<Instr>)
    requires CodeAt(m, 0, p + [Dup, branch, Pop] + rest)
    ensures CodeAt(m, 0, p) && CodeAt(m, |p|, [Dup]) && CodeAt(m, |p| + 1, [branch]) && CodeAt(m, |p| + 2, [Pop])
    ensures CodeAt(m, |p| + 3, rest)
    ensures 0 <= m.pc && m.pc + |p| + 3 + |rest| <= |m.curfunc.fun|
  {
    CodeSplit(m, 0, p + [Dup, branch, Pop], rest);
    CodeSplit(m, 0, p, [Dup, branch, Pop]);
    assert [Dup, branch, Pop] == [Dup] + ([branch] + [Pop]);
    CodeSplit(m, |p|, [Dup], [branch] + [Pop]);
    CodeSplit(m, |p| + 1, [branch], [Pop]);
  }

  lemma {:induction false} CShort(fuel: nat, fname: string, or: bool, es: seq<Source>, g: Gst, cx: Ctx, c: Closure,
                                  sc: Scopes, m: Machine)
    requires es != [] && Ready(m, sc, c, cx, g, GenShort(m.host.arr, fname, or, es, g))
    requires WFShort(m.host.arr, fname, es, g, cx) && EvalShort(fuel, or, es, sc).Val?
    ensures var o, r := GenShort(m.host.arr, fname, or, es, g), EvalShort(fuel, or, es, sc);
            Lands(m, c, cx, |o.code|, r.v, r.sc) && Keeps(g, o.st)
    decreases fuel, SizeSeq(es), 2
  {
    hide Rel, Yields, Reaches, Exits, TrVal, TrAll, TrFrame, TrFrames, Top, Below;
    hide Gen, WF, Eval, CodeAt, Advance;
    var q := EvalShort(fuel, or, es, sc);
    if |es| == 1 {
      CExpr(fuel, fname, es[0], g, cx, c, sc, m);
    } else {
      var p, r := Gen(m.host.arr, "", es[0], Gst(false, 0)), Eval(fuel, es[0], sc);
      var rest := GenShort(m.host.arr, fname, or, es[1..], g);
      var l, branch := |p.code|, Branch(or, |rest.code| + 2);
      ShortPieces(m, p.code, branch, rest.code);
      CValue(fuel, "", es[0], Gst(false, 0), cx, c, sc, m);
      StepDup(m, c, cx, l, r.v, r.sc);
      assert [r.v] + [r.v] == [r.v, r.v];
      StepBranch(m, c, cx, l + 1, [r.v], r.v, r.sc, or, |rest.code| + 2, [r.v, r.v]);
      if IsTruthy(r.v) != or {
        StepPop(m, c, cx, l + 2, [], r.v, r.sc, [r.v]);
        RelAdvance(m, sc, c, cx, l + 3, [], r.sc);
        Ahead(m, cx.Own(), l + 3, [], r.sc, rest.code);
        CShort(fuel, fname, or, es[1..], g, cx, c, r.sc, Advance(m, cx.Own(), l + 3, [], r.sc));
        ChainLands(m, sc, c, cx, l + 3, r.sc, |rest.code|, q.v, q.sc);
      }
    }
  }

  lemma CondPieces(m: Machine, p: seq<Instr>, branch: Instr, b: seq<Instr>, jump: Instr, rest: seq<Instr>)
    requires CodeAt(m, 0, p + [branch] + b + [jump] + rest)
    ensures CodeAt(m, 0, p) && CodeAt(m, |p|, [branch]) && CodeAt(m, |p| + 1, b) && CodeAt(m, |p| + 1 + |b|, [jump])
    ensures CodeAt(m, |p| + |b| + 2, rest)
    ensures 0 <= m.pc && m.pc + |p| + |b| + 2 + |rest| <= |m.curfunc.fun|
  {
    CodeSplit(m, 0, p + [branch] + b + [jump], rest);
    CodeSplit(m, 0, p + [branch] + b, [jump]);
    CodeSplit(m, 0, p + [branch], b);
    CodeSplit(m, 0, p, [branch]);
    CodeInside(m, p, |p| + |b| + 2, rest);
    hide CodeAt;
  }

  lemma CodeInside(m: Machine, p: seq<Instr>, off: nat, code: seq<Instr>)
    requires CodeAt(m, 0, p) && CodeAt(m, off, code)
    ensures 0 <= m.pc && m.pc + off + |code| <= |m.curfunc.fun|
  {
  }

  lemma {:induction false} CCond(fuel: nat, fname: string, es: seq<Source>, g: Gst, cx: Ctx, c: Closure, sc: Scopes,
                                 m: Machine)
    requires |es| % 2 == 1 && Ready(m, sc, c, cx, g, GenCond(m.host.arr, fname, es, g))
    requires WFCond(m.host.arr, fname, es, g, cx) && EvalCond(fuel, es, sc).Val?
    ensures var o, r := GenCond(m.host.arr, fname, es, g), EvalCond(fuel, es, sc);
            Lands(m, c, cx, |o.code|, r.v, r.sc) && Keeps(g, o.st)
    decreases fuel, SizeSeq(es), 2
  {
    hide Rel, Yields, Reaches, Exits, Lands, TrVal, TrAll, TrFrame, TrFrames, Top, Below;
    hide Gen, WF, Eval, CodeAt, Advance;
    if |es| == 1 {
      CExpr(fuel, fname, es[0], g, cx, c, sc, m);
    } else {
      SizeAt(es, 1);
      SizeAt(es, 2);
      var p, r := Gen(m.host.arr, fname, es[0], Gst(false, 0)), Eval(fuel, es[0], sc);
      var b, rest := Gen(m.host.arr, fname, es[1], g), GenCond(m.host.arr, fname, es[2..], g);
      var branch, jump := Branch(false, |b.code| + 2), Jump(|rest.code| + 1);
      CondPieces(m, p.code, branch, b.code, jump, rest.code);
      CValue(fuel, fname, es[0], Gst(false, 0), cx, c, sc, m);
      assert [] + [r.v] == [r.v];
      StepBranch(m, c, cx, |p.code|, [], r.v, r.sc, false, |b.code| + 2, [r.v]);
      if IsTruthy(r.v) {
        CThen(fuel, fname, es[1], g, cx, c, sc, r.sc, m, |p.code| + 1, |rest.code|);
      } else {
        var off, q := |p.code| + |b.code| + 2, EvalCond(fuel, es[2..], r.sc);
        RelAdvance(m, sc, c, cx, off, [], r.sc);
        Ahead(m, cx.Own(), off, [], r.sc, rest.code);
        CCond(fuel, fname, es[2..], g, cx, c, r.sc, Advance(m, cx.Own(), off, [], r.sc));
        ChainLands(m, sc, c, cx, off, r.sc, |rest.code|, q.v, q.sc);
      }
    }
  }

  /** A clause that is taken: its body, then the jump over the `l` instructions left. */
  lemma {:induction false} CThen(fuel: nat, fname: string, e: Source, g: Gst, cx: Ctx, c: Closure, sc: Scopes,
                                 sc1: Scopes, m: Machine, off: nat, l: nat)
    requires Rel(m, sc, c, cx) && Follows(sc, sc1) && Yields(m, c, cx, off, [], sc1)
             && (cx.safe ==> g.scopes == cx.depth)
    requires WF(m.host.arr, fname, e, g, cx) && Eval(fuel, e, sc1).Val?
    requires var b := Gen(m.host.arr, fname, e, g);
             && b.err == Ok && CodeAt(m, off, b.code) && CodeAt(m, off + |b.code|, [Jump(l + 1)])
             && 0 <= m.pc && m.pc + off + |b.code| + 1 + l <= |m.curfunc.fun|
    ensures var b, r := Gen(m.host.arr, fname, e, g), Eval(fuel, e, sc1);
            Lands(m, c, cx, off + |b.code| + 1 + l, r.v, r.sc)
    decreases fuel, Size(e), 2
  {
    hide Rel, Yields, Reaches, Exits, TrVal, TrAll, TrFrame, TrFrames, Top, Below;
    hide Gen, WF, Eval, CodeAt, Advance;
    var b, r := Gen(m.host.arr, fname, e, g), Eval(fuel, e, sc1);
    RelAdvance(m, sc, c, cx, off, [], sc1);
    Ahead(m, cx.Own(), off, [], sc1, b.code);
    CExpr(fuel, fname, e, g, cx, c, sc1, Advance(m, cx.Own(), off, [], sc1));
    ChainLands(m, sc, c, cx, off, sc1, |b.code|, r.v, r.sc);
    if Yields(m, c, cx, off + |b.code|, [r.v], r.sc) {
      StepJump(m, c, cx, off + |b.code|, [r.v], r.sc, l + 1);
    }
  }

  lemma {:induction false} CAssert(fuel: nat, fname: string, e: Source, g: Gst, cx: Ctx, c: Closure, sc: Scopes,
                                   m: Machine, o: Out)
    requires o == Gen(m.host.arr, fname, e, g) && o.err == Ok && Rel(m, sc, c, cx)
    requires CodeAt(m, 0, o.code + [Branch(true, 2), Return(true), Push(Null)])
    requires WF(m.host.arr, fname, e, g, cx.Unsafe()) && Eval(fuel, e, sc).Val? && IsTruthy(Eval(fuel, e, sc).v)
    ensures Yields(m, c, cx, |o.code| + 3, [Null], Eval(fuel, e, sc).sc) && Keeps(g, o.st)
    decreases fuel, Size(e), 2
  {
    hide Rel, Yields, Reaches, TrAll, TrFrame, TrFrames, Top, Below;
    hide Gen, WF, Eval;
    var r, l := Eval(fuel, e, sc), |o.code|;
    var nulls: seq<V> := [Null];
    CodeSplit(m, 0, o.code, [Branch(true, 2), Return(true), Push(Null)]);
    assert [Branch(true, 2), Return(true), Push(Null)] == [Branch(true, 2)] + ([Return(true)] + [Push(Null)]);
    CodeSplit(m, l, [Branch(true, 2)], [Return(true)] + [Push(Null)]);
    CodeSplit(m, l + 1, [Return(true)], [Push(Null)]);
    hide CodeAt;
    assert [] + [r.v] == [r.v] && [] + nulls == nulls;
    CValue(fuel, fname, e, g, cx, c, sc, m);
    StepBranch(m, c, cx, l, [], r.v, r.sc, true, 2, [r.v]);
    StepPush(m, c, cx, l + 2, [], r.sc, Null, nulls);
  }

  // ---------- bindings ----------

  lemma {:induction false} CPuts(m: Machine, sc0: Scopes, c: Closure, cx: Ctx, off: int, names: seq<Symbol>,
                                 vs: seq<V>, sc: Scopes)
    requires Rel(m, sc0, c, cx) && Follows(sc0, sc) && |names| == |vs|
    requires Yields(m, c, cx, off, vs, sc) && CodeAt(m, off, Puts(names))
    requires forall i | 0 <= i < |names| :: MayBind(names[i], cx.depth, cx)
    ensures Yields(m, c, cx, off + |names|, [], sc.BindList(names, vs))
    decreases |names|
  {
    hide Rel, Yields, Reaches, Exits, TrVal, TrAll, TrFrame, TrFrames, Top, Below;
    hide MayBind;
    if names == [] {
      assert sc.BindList(names, vs) == sc;
    } else {
      var n := |names| - 1;
      var s, v := names[n], vs[n];
      CodeSplit(m, off, [Put(s)], Puts(names[..n]));
      assert vs == vs[..n] + [v];
      StepPut(m, sc0, c, cx, off, vs[..n], v, sc, s, vs);
      CPuts(m, sc0, c, cx, off + 1, names[..n], vs[..n], sc.Bind(s.num, v));
      assert sc.BindList(names, vs) == sc.Bind(s.num, v).BindList(names[..n], vs[..n]);
    }
  }

  lemma {:induction false} CLetStar(fuel: nat, fname: string, names: seq<Symbol>, rights: seq<Source>, g: Gst,
                                    cx: Ctx, c: Closure, sc: Scopes, m: Machine)
    requires |names| == |rights| && Rel(m, sc, c, cx)
    requires var o := GenLetStar(m.host.arr, fname, names, rights, g); o.err == Ok && CodeAt(m, 0, o.code)
    requires WFAll(m.host.arr, fname, rights, g, cx.Unsafe()) && EvalLetStar(fuel, names, rights, sc).Some?
    requires forall i | 0 <= i < |names| :: MayBind(names[i], cx.depth, cx)
    ensures var o, r := GenLetStar(m.host.arr, fname, names, rights, g), EvalLetStar(fuel, names, rights, sc);
            Yields(m, c, cx, |o.code|, [], r.value) && Keeps(g, o.st)
    decreases fuel, SizeSeq(rights), 2
  {
    hide Rel, Yields, Reaches, Exits, TrVal, TrAll, TrFrame, TrFrames, Top, Below;
    hide Gen, WF, Eval, MayBind, CodeAt, Advance;
    if names == [] {
      AdvanceHere(m, sc, c, cx);
    } else {
      var o, r := Gen(m.host.arr, fname, rights[0], g), Eval(fuel, rights[0], sc);
      var p := GenLetStar(m.host.arr, fname, names[1..], rights[1..], o.st);
      var l, sc1 := |o.code|, r.sc.Bind(names[0].num, r.v);
      CodeSplit(m, 0, o.code + [Put(names[0])], p.code);
      CodeSplit(m, 0, o.code, [Put(names[0])]);
      CValue(fuel, fname, rights[0], g, cx, c, sc, m);
      assert [] + [r.v] == [r.v];
      StepPut(m, sc, c, cx, l, [], r.v, r.sc, names[0], [r.v]);
      RelAdvance(m, sc, c, cx, l + 1, [], sc1);
      Ahead(m, cx.Own(), l + 1, [], sc1, p.code);
      CLetStar(fuel, fname, names[1..], rights[1..], o.st, cx, c, sc1, Advance(m, cx.Own(), l + 1, [], sc1));
      Chain(m, c, cx, l + 1, [], sc1, |p.code|, [], EvalLetStar(fuel, names[1..], rights[1..], sc1).value);
      NoValues();
    }
  }

  lemma {:induction false} CBindings(fuel: nat, fname: string, star: bool, b: Bindings, g: Gst, cx: Ctx, c: Closure,
                                     sc: Scopes, m: Machine)
    requires b.Bindings? && |b.names| == |b.rights| && Rel(m, sc, c, cx)
    requires var o := GenBindings(m.host.arr, fname, star, b, g); o.err == Ok && CodeAt(m, 0, o.code)
    requires WFAll(m.host.arr, fname, b.rights, g, cx.Unsafe()) && EvalBindings(fuel, star, b, sc).Some?
    requires forall i | 0 <= i < |b.names| :: MayBind(b.names[i], cx.depth, cx)
    ensures var o, r := GenBindings(m.host.arr, fname, star, b, g), EvalBindings(fuel, star, b, sc);
            Yields(m, c, cx, |o.code|, [], r.value) && Keeps(g, o.st)
    decreases fuel, SizeSeq(b.rights), 3
  {
    hide Rel, Yields, Reaches, Exits, TrVal, TrAll, TrFrame, TrFrames, Top, Below;
    hide GenAll, GenLetStar, WFAll, EvalAll, EvalLetStar, MayBind;
    if star {
      CLetStar(fuel, fname, b.names, b.rights, g, cx, c, sc, m);
    } else {
      var o, r := GenAll(m.host.arr, fname, b.rights, g), EvalAll(fuel, b.rights, sc);
      CodeSplit(m, 0, o.code, Puts(b.names));
      CAll(fuel, fname, b.rights, g, cx, c, sc, m);
      CPuts(m, sc, c, cx, |o.code|, b.names, r.vs, r.after);
    }
  }

  lemma PushTop<T>(s: seq<T>, x: T, n: nat)
    requires n <= |s|
    ensures Below(s + [x], n + 1) == Below(s, n) && Top(s + [x], n + 1) == Top(s, n) + [x]
  {
  }

  lemma EnterTidy(sc: Scopes, c: Closure, cx: Ctx)
    requires Tidy(sc, c, cx) && (cx.loops ==> cx.inFn)
    ensures Tidy(sc.Enter(), c, cx.(depth := cx.depth + 1))
  {
    hide ParseParams, Nums;
    if cx.loops {
      var n := cx.Own();
      assert sc.Enter().locals[|sc.locals| + 1 - (n + 1)] == sc.locals[|sc.locals| - n];
    }
  }

  lemma TrFramesPush(a: Symbol, fs: seq<EFrame>)
    ensures TrFrames(a, fs + [map[]]) == TrFrames(a, fs) + [map[]]
  {
    hide TrVal;
    assert TrFrame(a, map[]) == map[];
  }

  /** Opening and closing a `let` scope around code that runs inside it. */
  lemma Entering(m: Machine, sc: Scopes, c: Closure, cx: Ctx) returns (m': Machine)
    requires Rel(m, sc, c, cx) && CodeAt(m, 0, [AddScope])
    ensures m' == m.(pc := m.pc + 1, locals := m.locals + [map[]])
    ensures Reaches(m, m') && Rel(m', sc.Enter(), c, cx.(depth := cx.depth + 1))
  {
    hide Preserved, TrFn, Agree, TrVal, TrFrame, TrFrames, Reaches, NamesItself, Tidy, Top, Below, CloseFrames,
         ParseParams;
    CodeHead(m, 0, [AddScope]);
    m' := m.(pc := m.pc + 1, locals := m.locals + [map[]]);
    OneStep(0, m, m');
    PushTop(m.locals, map[], cx.Own());
    PushTop(sc.locals, map[], cx.Own());
    TrFramesPush(m.host.arr, Top(sc.locals, cx.Own()));
    EnterTidy(sc, c, cx);
  }

  lemma LeaveTop(a: Symbol, lower: seq<Frame>, frames: seq<EFrame>, n: nat)
    requires n + 1 <= |frames|
    ensures var full := lower + TrFrames(a, Top(frames, n + 1));
            full != [] && full[..|full| - 1] == lower + TrFrames(a, Top(frames[..|frames| - 1], n))
  {
    hide TrFrame;
    var own, own' := TrFrames(a, Top(frames, n + 1)), TrFrames(a, Top(frames[..|frames| - 1], n));
    assert own[..n] == own';
    var full := lower + own;
    assert full[..|full| - 1] == lower + own[..n];
  }

  lemma LeaveTidy(sc: Scopes, c: Closure, cx: Ctx)
    requires Tidy(sc, c, cx.(depth := cx.depth + 1)) && (cx.loops ==> cx.inFn) && cx.Own() + 1 <= |sc.locals|
    ensures Tidy(sc.Leave(), c, cx)
  {
    hide ParseParams, Nums;
    if cx.loops {
      var n := cx.Own();
      assert sc.Leave().locals[|sc.locals| - 1 - n] == sc.locals[|sc.locals| - (n + 1)];
    }
  }

  lemma Leaving(m: Machine, c: Closure, cx: Ctx, m1: Machine, off: int, v: V, sc: Scopes)
    requires m1 == m.(pc := m.pc + 1, locals := m.locals + [map[]]) && Reaches(m, m1)
    requires Yields(m1, c, cx.(depth := cx.depth + 1), off, [v], sc) && cx.Own() <= |m.locals|
    requires CodeAt(m, off + 1, [RemoveScope])
    requires cx.loops ==> cx.inFn
    ensures Yields(m, c, cx, off + 2, [v], sc.Leave())
  {
    hide TrVal, TrAll, TrFrame, TrFrames, Reaches, Tidy, Top, Below;
    var n, sc' := cx.Own(), sc.Leave();
    var last := Advance(m1, n + 1, off, [v], sc);
    CodeHead(m, off + 1, [RemoveScope]);
    PushTop(m.locals, map[], n);
    LeaveTop(m.host.arr, Below(m.locals, n), sc.locals, n);
    LeaveTidy(sc, c, cx);
    assert Exec(0, last) == Some(Advance(m, n, off + 2, [v], sc'));
    OneStep(0, last, Advance(m, n, off + 2, [v], sc'));
    Transitive(m, m1, last);
    Transitive(m, last, Advance(m, n, off + 2, [v], sc'));
  }

  lemma RelBounds(m: Machine, sc: Scopes, c: Closure, cx: Ctx)
    requires Rel(m, sc, c, cx)
    ensures cx.Own() <= |m.locals| && cx.Own() <= |sc.locals| && (cx.loops ==> cx.inFn)
    ensures cx.inFn ==> sc.locals != []
  {
    hide Strict, Preserved, TrFn, Agree, Tidy, TrFrames, TrFrame;
  }

  lemma LetPieces(m: Machine, o: seq<Instr>, p: seq<Instr>)
    requires CodeAt(m, 0, [AddScope] + o + p + [RemoveScope])
    ensures CodeAt(m, 0, [AddScope]) && CodeAt(m, 1, o) && CodeAt(m, 1 + |o|, p)
            && CodeAt(m, 1 + |o| + |p|, [RemoveScope])
  {
    CodeSplit(m, 0, [AddScope] + o + p, [RemoveScope]);
    CodeSplit(m, 0, [AddScope] + o, p);
    CodeSplit(m, 0, [AddScope], o);
  }

  lemma LetInside(m: Machine, m1: Machine, o: seq<Instr>, p: seq<Instr>)
    requires m1 == m.(pc := m.pc + 1, locals := m1.locals) && CodeAt(m, 1, o) && CodeAt(m, 1 + |o|, p)
    ensures CodeAt(m1, 0, o) && CodeAt(m1, |o|, p)
  {
  }

  /** What generation and well-formedness say of the parts of a `let`. */
  lemma LetGenerates(a: Symbol, fname: string, star: bool, args: seq<Source>, g: Gst, cx: Ctx)
    requires WFLet(a, fname, star, args, g, cx) && GenLet(a, fname, star, args, g).err == Ok
    ensures |args| >= 2 && args[0].Arr?
    ensures var b, g1, cx1 := ParseBindings(args[0].elems), g.(scopes := g.scopes + 1), cx.(depth := cx.depth + 1);
            && b.Bindings? && (forall i | 0 <= i < |b.names| :: MayBind(b.names[i], cx.depth + 1, cx))
            && var o := GenBindings(a, fname, star, b, g1);
               var p := GenBegin(a, fname, args[1..], o.st);
               && o.err == Ok && p.err == Ok
               && WFAll(a, fname, b.rights, g1, cx1.Unsafe()) && WFBegin(a, fname, args[1..], o.st, cx1)
               && GenLet(a, fname, star, args, g) ==
                  Out([AddScope] + o.code + p.code + [RemoveScope], p.st.(scopes := p.st.scopes - 1), Ok)
  {
    hide ParseBindings, GenBindings, GenBegin, WFAll, WFBegin, MayBind;
  }

  lemma LetEvaluates(fuel: nat, star: bool, args: seq<Source>, sc: Scopes)
    requires EvalLet(fuel, star, args, sc).Val?
    ensures |args| >= 2 && args[0].Arr? && ParseBindings(args[0].elems).Bindings?
    ensures var q := EvalBindings(fuel, star, ParseBindings(args[0].elems), sc.Enter());
            && q.Some?
            && var r := EvalBegin(fuel, args[1..], q.value);
               r.Val? && r.sc.locals != [] && EvalLet(fuel, star, args, sc) == Val(r.v, r.sc.Leave())
  {
    hide ParseBindings, EvalBindings, EvalBegin;
  }

  lemma {:induction false} CLet(fuel: nat, fname: string, star: bool, args: seq<Source>, g: Gst, cx: Ctx, c: Closure,
                                sc: Scopes, m: Machine)
    requires Ready(m, sc, c, cx, g, GenLet(m.host.arr, fname, star, args, g))
    requires WFLet(m.host.arr, fname, star, args, g, cx) && EvalLet(fuel, star, args, sc).Val?
    ensures var o, r := GenLet(m.host.arr, fname, star, args, g), EvalLet(fuel, star, args, sc);
            Lands(m, c, cx, |o.code|, r.v, r.sc) && Keeps(g, o.st)
    decreases fuel, SizeSeq(args), 3
  {
    hide Rel, Yields, Reaches, Exits, Lands, TrVal, TrAll, TrFrame, TrFrames, Top, Below, GenLet, EvalLet, WFLet;
    hide CodeAt, Advance, GenBindings, GenBegin, WFAll, WFBegin, EvalBindings, EvalBegin, MayBind, ParseBindings;
    LetGenerates(m.host.arr, fname, star, args, g, cx);
    LetEvaluates(fuel, star, args, sc);
    SizeAt(args, 0);
    var b, g1, cx1 := ParseBindings(args[0].elems), g.(scopes := g.scopes + 1), cx.(depth := cx.depth + 1);
    var o := GenBindings(m.host.arr, fname, star, b, g1);
    var p := GenBegin(m.host.arr, fname, args[1..], o.st);
    LetPieces(m, o.code, p.code);
    var m1 := Entering(m, sc, c, cx);
    LetInside(m, m1, o.code, p.code);
    var sc1 := EvalBindings(fuel, star, b, sc.Enter()).value;
    BindDeeper(b.names, cx);
    CBindings(fuel, fname, star, b, g1, cx1, c, sc.Enter(), m1);
    RelAdvance(m1, sc.Enter(), c, cx1, |o.code|, [], sc1);
    Ahead(m1, cx1.Own(), |o.code|, [], sc1, p.code);
    CBegin(fuel, fname, args[1..], o.st, cx1, c, sc1, Advance(m1, cx1.Own(), |o.code|, [], sc1));
    var r := EvalBegin(fuel, args[1..], sc1);
    ChainLands(m1, sc.Enter(), c, cx1, |o.code|, sc1, |p.code|, r.v, r.sc);
    LetLands(m, sc, c, cx, m1, |o.code| + |p.code|, r.v, r.sc);
  }

  /** From the inside of a `let` to what follows it, or to the function's return. */
  lemma LetLands(m: Machine, sc: Scopes, c: Closure, cx: Ctx, m1: Machine, off: int, v: V, sc1: Scopes)
    requires Rel(m, sc, c, cx) && m1 == m.(pc := m.pc + 1, locals := m.locals + [map[]]) && Reaches(m, m1)
    requires Lands(m1, c, cx.(depth := cx.depth + 1), off, v, sc1) && sc1.locals != []
    requires CodeAt(m, off + 1, [RemoveScope])
    ensures Lands(m, c, cx, off + 2, v, sc1.Leave())
  {
    hide Rel, Yields, Reaches, Exits, CodeAt;
    if Yields(m1, c, cx.(depth := cx.depth + 1), off, [v], sc1) {
      RelBounds(m, sc, c, cx);
      Leaving(m, c, cx, m1, off, v, sc1);
    } else {
      ExitsFrom(m, m1, v);
    }
  }

  lemma BindDeeper(names: seq<Symbol>, cx: Ctx)
    requires forall i | 0 <= i < |names| :: MayBind(names[i], cx.depth + 1, cx)
    ensures var cx1 := cx.(depth := cx.depth + 1); forall i | 0 <= i < |names| :: MayBind(names[i], cx1.depth, cx1)
  {
  }

  lemma {:induction false} CDef(fuel: nat, fname: string, s: Symbol, e: Source, g: Gst, cx: Ctx, c: Closure,
                                sc: Scopes, m: Machine, o: Out)
    requires o == Gen(m.host.arr, fname, e, g.(tail := false)) && o.err == Ok && Rel(m, sc, c, cx)
    requires CodeAt(m, 0, o.code + [Put(s), Push(Null)]) && MayBind(s, cx.depth, cx)
    requires WF(m.host.arr, fname, e, g.(tail := false), cx.Unsafe()) && Eval(fuel, e, sc).Val?
    ensures var r := Eval(fuel, e, sc);
            Yields(m, c, cx, |o.code| + 2, [Null], r.sc.Bind(s.num, r.v)) && Keeps(g, o.st)
    decreases fuel, Size(e), 2
  {
    hide Rel, Yields, Reaches, TrAll, TrFrame, TrFrames, Top, Below;
    hide Gen, WF, Eval, MayBind;
    var r, l := Eval(fuel, e, sc), |o.code|;
    var nulls: seq<V> := [Null];
    CodeSplit(m, 0, o.code, [Put(s), Push(Null)]);
    assert [Put(s), Push(Null)] == [Put(s)] + [Push(Null)];
    CodeSplit(m, l, [Put(s)], [Push(Null)]);
    CValue(fuel, fname, e, g.(tail := false), cx, c, sc, m);
    assert [] + [r.v] == [r.v] && [] + nulls == nulls;
    StepPut(m, sc, c, cx, l, [], r.v, r.sc, s, [r.v]);
    StepPush(m, c, cx, l + 1, [], r.sc.Bind(s.num, r.v), Null, nulls);
  }

  // ---------- functions ----------

  /** Flat closure conversion: what the machine captures is what the evaluator's closure,
      which keeps every visible binding, looks like in the machine. */
  lemma CaptureMatches(m: Machine, sc: Scopes, c: Closure, cx: Ctx, code: seq<Instr>)
    requires Rel(m, sc, c, cx) && Mentions(code) <= Needs(m.curfunc.fun)
    ensures var env, captured := Visible(sc.locals), Capture(code, m.locals);
            && (forall s :: s in captured <==> s in env && s in Mentions(code))
            && (forall s | s in captured :: captured[s] == TrVal(m.host.arr, env[s]))
  {
    hide Rel, TrVal, Needs, Mentions, Visible, LookupLocal;
    var env := Visible(sc.locals);
    forall s | s in Mentions(code)
      ensures LookupLocal(m.locals, s) == if s in env then Some(TrVal(m.host.arr, env[s])) else None
    {
      LookupRel(m, sc, c, cx, s);
      VisibleLookup(sc.locals, s);
    }
  }

  lemma TrAnonymous(a: Symbol, params: seq<Source>, body: seq<Source>, env: EFrame, captured: Frame)
    requires var code := BuildFun(a, ANON, params, body).fn.fun;
             && (forall s :: s in captured <==> s in env && s in Mentions(code))
             && (forall s | s in captured :: captured[s] == TrVal(a, env[s]))
    ensures TrVal(a, Fun(Closure(ANON, None, params, body, env))) ==
            Fun(BuildFun(a, ANON, params, body).fn.(close := Some([captured])))
  {
    hide BuildFun, Mentions;
    var fn, v := BuildFun(a, ANON, params, body).fn, Fun(Closure(ANON, None, params, body, env));
    var f := TrFn(a, v.fn);
    assert f == fn.(close := f.close) && f.close.Some? && |f.close.value| == 1;
    var kept := f.close.value[0];
    forall s ensures s in kept <==> s in captured {
    }
    forall s | s in kept ensures kept[s] == captured[s] {
      assert kept[s] == TrVal(a, env[s]);
    }
    assert kept == captured;
    assert f.close.value == [captured];
  }

  lemma CFn(params: seq<Source>, body: seq<Source>, cx: Ctx, c: Closure, sc: Scopes, m: Machine)
    requires Rel(m, sc, c, cx)
    requires var b := BuildFun(m.host.arr, ANON, params, body); b.err == Ok && CodeAt(m, 0, [PushClosure(b.fn)])
    ensures Yields(m, c, cx, 1, [Fun(Closure(ANON, None, params, body, Visible(sc.locals)))], sc)
  {
    var fn := BuildFun(m.host.arr, ANON, params, body).fn;
    assert !fn.user by {
      hide GenBegin, ParseParams;
    }
    hide Rel, Yields, Reaches, TrVal, TrAll, TrFrame, TrFrames, Top, Below, BuildFun, Visible, Needs, Mentions, Capture;
    var v: V := Fun(Closure(ANON, None, params, body, Visible(sc.locals)));
    CodeHead(m, 0, [PushClosure(fn)]);
    MentionsAt(m.curfunc.fun, m.pc);
    CaptureMatches(m, sc, c, cx, fn.fun);
    TrAnonymous(m.host.arr, params, body, Visible(sc.locals), Capture(fn.fun, m.locals));
    AdvanceHere(m, sc, c, cx);
    AdvanceIs(m, sc, c, cx);
    DataPush(m.host.arr, m.data, [], v);
    TrNothing(m.host.arr, m.data);
    assert [] + [v] == [v];
    Then(m, c, cx, 0, [], sc, 0, 1, [v]);
  }

  lemma CDefn(s: Symbol, params: seq<Source>, body: seq<Source>, cx: Ctx, c: Closure, sc: Scopes, m: Machine)
    requires Rel(m, sc, c, cx) && MayBind(s, cx.depth, cx)
    requires var b := BuildFun(m.host.arr, FunName(s.name), params, body);
             b.err == Ok && CodeAt(m, 0, [Push(Fun(b.fn)), Put(s), Push(Null)])
    ensures Yields(m, c, cx, 3, [Null], sc.Bind(s.num, Fun(Closure(FunName(s.name), Some(s.num), params, body, map[]))))
  {
    hide Rel, Yields, Reaches, TrAll, TrFrame, TrFrames, Top, Below, BuildFun, MayBind;
    var fn := BuildFun(m.host.arr, FunName(s.name), params, body).fn;
    var v: V := Fun(Closure(FunName(s.name), Some(s.num), params, body, map[]));
    var nulls: seq<V> := [Null];
    assert [Push(Fun(fn)), Put(s), Push(Null)] == [Push(Fun(fn))] + ([Put(s)] + [Push(Null)]);
    CodeSplit(m, 0, [Push(Fun(fn))], [Put(s)] + [Push(Null)]);
    CodeSplit(m, 1, [Put(s)], [Push(Null)]);
    AdvanceHere(m, sc, c, cx);
    assert [] + [v] == [v] && [] + nulls == nulls;
    StepPush(m, c, cx, 0, [], sc, v, [v]);
    StepPut(m, sc, c, cx, 1, [], v, sc, s, [v]);
    StepPush(m, c, cx, 2, [], sc.Bind(s.num, v), Null, nulls);
  }

  // ---------- forms ----------

  lemma {:induction false} CForm(fuel: nat, fname: string, s: Symbol, args: seq<Source>, g: Gst, cx: Ctx, c: Closure,
                                 sc: Scopes, m: Machine)
    requires Ready(m, sc, c, cx, g, GenForm(m.host.arr, fname, s, args, g))
    requires WFForm(m.host.arr, fname, s, args, g, cx) && EvalForm(fuel, s, args, sc).Val?
    ensures var o, r := GenForm(m.host.arr, fname, s, args, g), EvalForm(fuel, s, args, sc);
            Lands(m, c, cx, |o.code|, r.v, r.sc) && Keeps(g, o.st)
    decreases fuel, SizeSeq(args), 6
  {
    hide Rel, Yields, Reaches, Exits, TrVal, TrAll, TrFrame, TrFrames, Top, Below;
    hide Gen, GenAll, GenShort, GenCond, GenBegin, GenLet, GenQuasi, BuildFun, FormOf, MayBind;
    hide WF, WFAll, WFShort, WFCond, WFBegin, WFLet, WFQuasi;
    hide Eval, EvalAll, EvalShort, EvalCond, EvalBegin, EvalLet, Expand, ApplyNamed, Visible, Recast;
    if FormOf(s.name).Ordinary? {
      COrdinary(fuel, fname, s, args, g, cx, c, sc, m);
      return;
    }
    match FormOf(s.name)
    case And => CShort(fuel, fname, false, args, g, cx, c, sc, m);
    case Or => CShort(fuel, fname, true, args, g, cx, c, sc, m);
    case Cond => CCond(fuel, fname, args, g, cx, c, sc, m);
    case Quote =>
      assert GenForm(m.host.arr, fname, s, args, g).code == [Push(args[0])];
      CConstant(args[0], sc, c, cx, m);
    case Def =>
      SizeAt(args, 1);
      CDef(fuel, fname, args[0].sym, args[1], g, cx, c, sc, m, Gen(m.host.arr, fname, args[1], g.(tail := false)));
    case Fn => CFn(args[0].elems, args[1..], cx, c, sc, m);
    case Defn => CDefn(args[0].sym, args[1].elems, args[2..], cx, c, sc, m);
    case Begin => CBegin(fuel, fname, args, g, cx, c, sc, m);
    case Let => CLet(fuel, fname, false, args, g, cx, c, sc, m);
    case LetStar => CLet(fuel, fname, true, args, g, cx, c, sc, m);
    case Assert =>
      SizeAt(args, 0);
      CAssert(fuel, fname, args[0], g, cx, c, sc, m, Gen(m.host.arr, fname, args[0], g));
    case SyntaxQuote =>
      SizeAt(args, 0);
      CQuasi(fuel, fname, args[0], g, cx, c, sc, m);
      var vs := Expand(fuel, args[0], sc).vs;
      assert vs == [vs[0]];
    case _ =>
  }

  lemma {:induction false} CArray(fuel: nat, fname: string, es: seq<Source>, g: Gst, cx: Ctx, c: Closure, sc: Scopes,
                                  m: Machine)
    requires Rel(m, sc, c, cx) && WFAll(m.host.arr, fname, es, g, cx.Unsafe()) && EvalAll(fuel, es, sc).Vals?
    requires var o := GenAll(m.host.arr, fname, es, g); o.err == Ok && CodeAt(m, 0, o.code + [Call(m.host.arr, |es|)])
    ensures var o, r := GenAll(m.host.arr, fname, es, g), EvalAll(fuel, es, sc);
            Yields(m, c, cx, |o.code| + 1, [Arr(r.vs)], r.after) && Keeps(g, o.st)
    decreases fuel, SizeSeq(es), 2
  {
    hide Rel, Yields, Reaches, Exits, TrVal, TrAll, TrFrame, TrFrames, Top, Below;
    hide GenAll, WFAll, EvalAll, CallUserFunction;
    var a := m.host.arr;
    var o, r := GenAll(a, fname, es, g), EvalAll(fuel, es, sc);
    CodeSplit(m, 0, o.code, [Call(a, |es|)]);
    CAll(fuel, fname, es, g, cx, c, sc, m);
    CodeHead(m, |o.code|, [Call(a, |es|)]);
    RelHost(m, sc, c, cx);
    var m1 := Advance(m, cx.Own(), |o.code|, r.vs, r.after);
    var k := PrimCall(a, "array", a.name, r.vs, Arr(r.vs), m1, m.data);
    assert Exec(k, m1) == Some(After(m1, m.data, Arr(r.vs)));
    Resume(m, c, cx, |o.code|, r.vs, r.after, k, Arr(r.vs));
  }

  lemma RelHost(m: Machine, sc: Scopes, c: Closure, cx: Ctx)
    requires Rel(m, sc, c, cx)
    ensures m.host.Valid() && sc.host == m.host && Strict(sc) && m.glob == TrFrame(m.host.arr, sc.glob)
  {
    hide Preserved, TrFn, Agree, Tidy, TrFrames, TrFrame;
  }

  /** `m` after a call of one of its functions with the arguments above `base`. */
  function After(m: Machine, base: seq<Value>, v: V): Machine {
    m.(pc := m.pc + 1, data := base + [TrVal(m.host.arr, v)])
  }

  lemma PrimCall(a: Symbol, which: string, name: string, args: seq<V>, v: V, m: Machine,
                 base: seq<Value>)
    returns (k: nat)
    requires a == m.host.arr && !Reentrant(which) && Prim(m.host, which, name, args) == Some(v)
    requires m.data == base + TrAll(a, args)
    ensures CallUserFunction(k, BuiltinFunction(which), name, |args|, m) == Some(After(m, base, v))
  {
    k := 0;
    TrPrim(a, m.host, which, name, args);
    hide TrVal, Prim;
    var n := |m.data| - |args|;
    assert m.data[..n] == base && m.data[n..] == TrAll(a, args);
    assert (m.addrs + [Address(m.curfunc, m.pc + 1)])[..|m.addrs|] == m.addrs;
  }

  /** Back in the caller after an instruction that called and came back. */
  lemma Resume(m: Machine, c: Closure, cx: Ctx, off: int, vs: seq<V>, sc: Scopes, k: nat, v: V)
    requires Yields(m, c, cx, off, vs, sc)
    requires Exec(k, Advance(m, cx.Own(), off, vs, sc)) == Some(After(Advance(m, cx.Own(), off, vs, sc), m.data, v))
    ensures Yields(m, c, cx, off + 1, [v], sc)
  {
    hide Yields, Exec, TrVal, TrFrame, TrFrames;
    assert TrAll(m.host.arr, [v]) == [TrVal(m.host.arr, v)];
    Then(m, c, cx, off, vs, sc, k, off + 1, [v]);
  }

  lemma ResumeReach(m: Machine, c: Closure, cx: Ctx, off: int, vs: seq<V>, sc: Scopes, m2: Machine, v: V)
    requires Yields(m, c, cx, off, vs, sc)
    requires Exec(0, Advance(m, cx.Own(), off, vs, sc)) == Some(m2)
    requires Reaches(m2, After(Advance(m, cx.Own(), off, vs, sc), m.data, v))
    ensures Yields(m, c, cx, off + 1, [v], sc)
  {
    hide Reaches, Exec, TrVal, TrFrame, TrFrames, Tidy;
    var m1 := Advance(m, cx.Own(), off, vs, sc);
    assert TrAll(m.host.arr, [v]) == [TrVal(m.host.arr, v)];
    ThenStep(m, m1, 0, m2);
    Transitive(m, m2, Advance(m, cx.Own(), off + 1, [v], sc));
  }

  // ---------- calls ----------

  lemma {:induction false} COrdinary(fuel: nat, fname: string, s: Symbol, args: seq<Source>, g: Gst, cx: Ctx,
                                     c: Closure, sc: Scopes, m: Machine)
    requires FormOf(s.name) == Ordinary && Ready(m, sc, c, cx, g, GenForm(m.host.arr, fname, s, args, g))
    requires WFForm(m.host.arr, fname, s, args, g, cx) && EvalForm(fuel, s, args, sc).Val?
    ensures var o, r := GenForm(m.host.arr, fname, s, args, g), EvalForm(fuel, s, args, sc);
            Lands(m, c, cx, |o.code|, r.v, r.sc) && Keeps(g, o.st)
    decreases fuel, SizeSeq(args), 5
  {
    hide Rel, Yields, Reaches, Exits, TrVal, TrAll, TrFrame, TrFrames, Top, Below;
    hide FormOf, GenAll, WFAll, EvalAll, ApplyNamed, Lookup;
    var g0 := g.(tail := false);
    var o, r := GenAll(m.host.arr, fname, args, g0), EvalAll(fuel, args, sc);
    var v := EvalForm(fuel, s, args, sc).v;
    var l := |o.code|;
    if g.tail && s.name == fname {
      CodeSplit(m, 0, o.code, Removes(o.st.scopes) + [Goto(0)]);
      CAll(fuel, fname, args, g0, cx, c, sc, m);
      CSelf(fuel, s, r.vs, cx, c, sc, r.after, m, l, v);
    } else {
      CodeSplit(m, 0, o.code, [Call(s, |args|)]);
      CAll(fuel, fname, args, g0, cx, c, sc, m);
      CCall(fuel, s, r.vs, cx, c, r.after, m, l, v);
    }
  }

  /** What a name in call position means: a builtin first, then the innermost binding. */
  function Callee(sc: Scopes, s: Symbol): Option<V> {
    if s.num in sc.host.builtins then Some(Fun(Builtin(sc.host.builtins[s.num])))
    else Lookup(sc.glob, sc.locals, s.num)
  }

  lemma TrFun(a: Symbol, f: Closure)
    ensures TrVal(a, Fun(f)) == Fun(TrFn(a, f)) && (f.Builtin? ==> TrFn(a, f) == BuiltinFunction(f.which))
  {
  }

  lemma ExecCall(k: nat, m: Machine, s: Symbol, nargs: nat)
    requires CodeAt(m, 0, [Call(s, nargs)])
    ensures Exec(k, m) == CallNamed(k, s, nargs, m)
  {
    hide CallNamed;
    CodeHead(m, 0, [Call(s, nargs)]);
  }

  lemma ExecDispatch(k: nat, m: Machine, nargs: nat, d: seq<Value>, f: Function)
    requires CodeAt(m, 0, [Dispatch(nargs)]) && m.data == d + [Fun(f)]
    ensures var m0 := m.(data := d);
            Exec(k, m) == if f.user then CallUserFunction(k, f, f.name, nargs, m0) else CallFunction(f, nargs, m0)
  {
    hide CallUserFunction, CallFunction;
    CodeHead(m, 0, [Dispatch(nargs)]);
    assert m.data[..|m.data| - 1] == d;
  }

  lemma {:induction false} CCall(fuel: nat, s: Symbol, args: seq<V>, cx: Ctx, c: Closure, sc: Scopes, m: Machine,
                                 l: nat, v: V)
    requires Rel(Advance(m, cx.Own(), l, args, sc), sc, c, cx) && Yields(m, c, cx, l, args, sc)
    requires CodeAt(m, l, [Call(s, |args|)])
    requires Callee(sc, s).Some? && Callee(sc, s).value.Fun?
    requires ApplyNamed(fuel, Callee(sc, s).value.fn, s.name, args, sc) == Some(v)
    ensures Yields(m, c, cx, l + 1, [v], sc)
    decreases fuel, 0, 4
  {
    hide Rel, Yields, Reaches, TrAll, TrFrame, TrFrames, Top, Below, ApplyNamed, Lookup, Needs, CallUserFunction,
         CallFunction, BuildFun;
    var m1 := Advance(m, cx.Own(), l, args, sc);
    var f := Callee(sc, s).value.fn;
    TrFun(m.host.arr, f);
    RelHost(m1, sc, c, cx);
    CodeHead(m, l, [Call(s, |args|)]);
    if s.num !in sc.host.builtins {
      MentionsAt(m.curfunc.fun, m.pc + l);
      assert s.num in InstrMentions(m.curfunc.fun[m.pc + l]);
      LookupRel(m1, sc, c, cx, s.num);
    }
    if f.Builtin? {
      var k := InvokeBuiltin(fuel, f.which, s.name, args, sc, m1, m.data, v);
      ExecCall(k, m1, s, |args|);
      Resume(m, c, cx, l, args, sc, k, v);
    } else {
      InvokeClosure(fuel, f, s.name, args, sc, m1, m.data, v);
      ExecCall(0, m1, s, |args|);
      ResumeReach(m, c, cx, l, args, sc, CallFunction(TrFn(m.host.arr, f), |args|, m1).value, v);
    }
  }

  lemma {:induction false} CDispatch(fuel: nat, fname: string, h: Source, args: seq<Source>, g: Gst, cx: Ctx,
                                     c: Closure, sc: Scopes, m: Machine)
    requires Rel(m, sc, c, cx) && EvalDispatch(fuel, h, args, sc).Val?
    requires WFAll(m.host.arr, fname, args, g, cx.Unsafe()) && GenAll(m.host.arr, fname, args, g).err == Ok
    requires var st := GenAll(m.host.arr, fname, args, g).st;
             WF(m.host.arr, fname, h, st, cx.Unsafe()) && Gen(m.host.arr, fname, h, st).err == Ok
    requires CodeAt(m, 0, GenDispatch(m.host.arr, fname, h, args, g).code)
    ensures var o, r := GenDispatch(m.host.arr, fname, h, args, g), EvalDispatch(fuel, h, args, sc);
            Yields(m, c, cx, |o.code|, [r.v], r.sc) && Keeps(g, o.st)
    decreases fuel, Size(h) + SizeSeq(args), 3
  {
    hide Rel, Yields, Reaches, Exits, TrVal, TrAll, TrFrame, TrFrames, Top, Below;
    hide Gen, GenAll, WF, WFAll, Eval, EvalAll, ApplyNamed;
    var a := m.host.arr;
    var o, r := GenAll(a, fname, args, g), EvalAll(fuel, args, sc);
    var p, q := Gen(a, fname, h, o.st), Eval(fuel, h, r.after);
    var v, l := EvalDispatch(fuel, h, args, sc).v, |o.code| + |p.code|;
    CodeSplit(m, 0, o.code + p.code, [Dispatch(|args|)]);
    CodeSplit(m, 0, o.code, p.code);
    CAll(fuel, fname, args, g, cx, c, sc, m);
    CValue(fuel, fname, h, o.st, cx, c, r.after, Advance(m, cx.Own(), |o.code|, r.vs, r.after));
    Chain(m, c, cx, |o.code|, r.vs, r.after, |p.code|, [q.v], q.sc);
    RelAdvance(m, sc, c, cx, l, r.vs + [q.v], q.sc);
    CApply(fuel, q.v.fn, r.vs, cx, c, q.sc, m, l, v);
  }

  /** A computed call: the function on top, its arguments below. */
  lemma {:induction false} CApply(fuel: nat, f: Closure, args: seq<V>, cx: Ctx, c: Closure, sc: Scopes, m: Machine,
                                  l: nat, v: V)
    requires var vs := args + [Fun(f)]; Rel(Advance(m, cx.Own(), l, vs, sc), sc, c, cx) && Yields(m, c, cx, l, vs, sc)
    requires CodeAt(m, l, [Dispatch(|args|)])
    requires ApplyNamed(fuel, f, if f.Builtin? then f.which else f.name, args, sc) == Some(v)
    ensures Yields(m, c, cx, l + 1, [v], sc)
    decreases fuel, 0, 4
  {
    hide Rel, Yields, Reaches, TrAll, TrFrame, TrFrames, Top, Below, ApplyNamed, CallUserFunction, CallFunction,
         BuildFun;
    var a, n := m.host.arr, cx.Own();
    var vs: seq<V> := args + [Fun(f)];
    var m1, m0 := Advance(m, n, l, vs, sc), Advance(m, n, l, args, sc);
    RelHost(m1, sc, c, cx);
    DataPush(a, m.data, args, Fun(f));
    TrFun(a, f);
    if f.Builtin? {
      var k := InvokeBuiltin(fuel, f.which, f.which, args, sc, m0, m.data, v);
      ExecDispatch(k, m1, |args|, m0.data, TrFn(a, f));
      Resume(m, c, cx, l, vs, sc, k, v);
    } else {
      InvokeClosure(fuel, f, f.name, args, sc, m0, m.data, v);
      ExecDispatch(0, m1, |args|, m0.data, TrFn(a, f));
      ResumeReach(m, c, cx, l, vs, sc, CallFunction(TrFn(a, f), |args|, m0).value, v);
    }
  }

  /** A builtin, which may run functions on this machine, comes back with its value and
      with every stack as it was below its arguments. */
  lemma {:induction false} InvokeBuiltin(fuel: nat, which: string, name: string, args: seq<V>, sc: Scopes,
                                         m: Machine, base: seq<Value>, v: V)
    returns (k: nat)
    requires ApplyNamed(fuel, Builtin(which), name, args, sc) == Some(v)
    requires sc.host == m.host && Strict(sc) && m.glob == TrFrame(m.host.arr, sc.glob)
    requires m.data == base + TrAll(m.host.arr, args)
    ensures CallUserFunction(k, BuiltinFunction(which), name, |args|, m) == Some(After(m, base, v))
    decreases fuel, 0, 3
  {
    hide Strict, TrVal, TrFrame, RunBuiltin, EvalBuiltin;
    var a, n := m.host.arr, |m.data| - |args|;
    assert m.data[..n] == base && m.data[n..] == TrAll(a, args);
    var inside := m.(data := base, addrs := m.addrs + [Address(m.curfunc, m.pc + 1)],
                     curfunc := BuiltinFunction(which), pc := -1);
    k := BuiltinRuns(fuel - 1, which, name, args, sc, inside, v);
    assert inside.addrs[..|m.addrs|] == m.addrs;
  }

  /** A compiled function ends with the only `return` of its own level. */
  lemma CodeShape(a: Symbol, f: Closure)
    requires f.Closure? && ParseParams(f.params).Params? && BuildFun(a, f.name, f.params, f.body).err == Ok
    ensures var p, fn, o := ParseParams(f.params), TrFn(a, f), GenBegin(a, f.name, f.body, Gst(true, 0));
            && !fn.user && fn.nargs == p.nargs && fn.varargs == p.varargs && o.err == Ok
            && fn.fun == Puts(p.names) + o.code + [Return(false)]
            && (fn.close.Some? <==> f.num.None?)
            && (fn.close.Some? ==> |fn.close.value| == 1)
  {
    hide GenBegin, ParseParams, TrVal;
  }

  /** A call of a script function runs it to its `return` and resumes the caller. */
  lemma {:induction false} InvokeClosure(fuel: nat, f: Closure, name: string, args: seq<V>, sc: Scopes, m: Machine,
                                         base: seq<Value>, v: V)
    requires f.Closure? && ApplyNamed(fuel, f, name, args, sc) == Some(v)
    requires sc.host == m.host && Strict(sc) && m.glob == TrFrame(m.host.arr, sc.glob)
    requires m.data == base + TrAll(m.host.arr, args)
    ensures var r := CallFunction(TrFn(m.host.arr, f), |args|, m);
            r.Some? && Reaches(r.value, After(m, base, v)) && !r.value.IsDone()
    ensures !TrFn(m.host.arr, f).user
    decreases fuel, 0, 2
  {
    hide TrVal, TrAll, TrFrame, TrFn, Reaches, GenBegin, WFBegin, NamesItself, CapturesEnough, ParamValues, EvalBegin,
         Arguments, ParseParams, BuildFun;
    var a, p := m.host.arr, ParseParams(f.params);
    assert Preserved(sc.host, f, sc.glob);
    var vs := ParamValues(p, args).value;
    CodeShape(a, f);
    ArgumentsMatch(a, f, args, base);
    var m0 := CallFunction(TrFn(a, f), |args|, m).value;
    CBody(fuel - 1, f, vs, sc, m0, base, map[], v);
    var locals :| Reaches(m0, ReturnPoint(m0, base, v, locals));
    var m1 := ReturnPoint(m0, base, v, locals);
    assert m0.curfunc.fun[|m0.curfunc.fun| - 1] == Return(false);
    assert m0.addrs[..|m.addrs|] == m.addrs && m0.saved[..|m.saved|] == m.saved;
    assert Exec(0, m1) == Some(After(m, base, v));
    ThenStep(m0, m1, 0, After(m, base, v));
  }

  lemma WrangleMatch(base: seq<Value>, args: seq<Value>, n: nat)
    requires n <= |args|
    ensures Wrangle(base + args, n, |args|) == Some(base + args[..n] + [MakeList(args[n..])])
  {
    var data, l := base + args, |base| + n;
    assert data[..l] == base + args[..n] && data[l..] == args[n..];
    if |args| == n {
      assert data[..l] == data && args[n..] == [];
    }
  }

  lemma WrangleValues(a: Symbol, args: seq<V>, base: seq<Value>, n: nat)
    requires n <= |args|
    ensures Wrangle(base + TrAll(a, args), n, |args|) == Some(base + TrAll(a, args[..n] + [MakeList(args[n..])]))
  {
    hide TrVal, MakeList, Wrangle;
    var targs := TrAll(a, args);
    WrangleMatch(base, targs, n);
    TrMakeList(a, args[n..]);
    assert targs[..n] == TrAll(a, args[..n]) && targs[n..] == TrAll(a, args[n..]);
    DataPush(a, base, args[..n], MakeList(args[n..]));
  }

  lemma ArgumentsMatch(a: Symbol, f: Closure, args: seq<V>, base: seq<Value>)
    requires f.Closure? && ParseParams(f.params).Params? && BuildFun(a, f.name, f.params, f.body).err == Ok
    requires ParamValues(ParseParams(f.params), args).Some?
    ensures Arguments(TrFn(a, f), |args|, base + TrAll(a, args)) ==
            Some(base + TrAll(a, ParamValues(ParseParams(f.params), args).value))
  {
    hide TrVal, TrAll, TrFn, BuildFun, GenBegin, MakeList, ParseParams, Wrangle;
    CodeShape(a, f);
    var p := ParseParams(f.params);
    if p.varargs {
      WrangleValues(a, args, base, p.nargs);
    }
  }

  function ReturnPoint(m: Machine, base: seq<Value>, v: V, locals: seq<Frame>): Machine {
    m.(pc := |m.curfunc.fun| - 1, data := base + [TrVal(m.host.arr, v)], locals := locals)
  }

  /** `m` runs to the final `return` of its function, with `v` on top of `base`. */
  ghost predicate Returns(m: Machine, base: seq<Value>, v: V) {
    exists locals :: Reaches(m, ReturnPoint(m, base, v, locals))
  }

  /** The compiled prologue binds the parameters to the arguments and takes them off. */
  lemma {:induction false} Prologue(m: Machine, base: seq<Value>, lower: seq<Frame>, top: Frame, names: seq<Symbol>,
                                    vals: seq<Value>)
    requires |names| == |vals| && CodeAt(m, 0, Puts(names))
    requires m.data == base + vals && m.locals == lower + [top]
    ensures var m' := m.(pc := m.pc + |names|, data := base, locals := lower + [BindAll(top, names, vals)]);
            Steps(0, |names|, m) == Some(m') && Reaches(m, m')
    decreases |names|
  {
    hide Reaches, Exec;
    if names == [] {
      assert m.data == base;
      Stays(m);
    } else {
      var n := |names| - 1;
      CodeSplit(m, 0, [Put(names[n])], Puts(names[..n]));
      assert m.data == base + vals[..n] + [vals[n]];
      ExecPut(m, base + vals[..n], vals[n], names[n]);
      var m1 := m.(pc := m.pc + 1, data := base + vals[..n]).Bind(names[n].num, vals[n]);
      assert m1.locals == lower + [top[names[n].num := vals[n]]];
      OneStep(0, m, m1);
      Prologue(m1, base, lower, top[names[n].num := vals[n]], names[..n], vals[..n]);
      Transitive(m, m1, m.(pc := m.pc + |names|, data := base, locals := lower + [BindAll(top, names, vals)]));
    }
  }

  /** Whatever parameters the scope bound before, the prologue leaves what the evaluator
      gives a fresh scope. */
  lemma PrologueFrame(a: Symbol, top: Frame, names: seq<Symbol>, vs: seq<V>)
    requires |names| == |vs| && top.Keys <= Nums(names)
    ensures BindAll(top, names, TrAll(a, vs)) == TrFrame(a, BindAll(map[], names, vs))
  {
    hide TrVal, BindAll;
    var empty: Frame := map[];
    assert forall s | s in top :: s in Nums(names);
    assert top.Keys + Nums(names) == Nums(names) == empty.Keys + Nums(names);
    BindAllForgets(top, empty, names, TrAll(a, vs));
    TrBindAll(a, map[], names, vs);
    assert TrFrame(a, map[]) == map[];
  }

  /** The body of a function, entered with the arguments on the stack and in its own scope
      at most parameters: a fresh scope, or that of the previous iteration. */
  lemma {:induction false} CBody(fuel: nat, c: Closure, vs: seq<V>, sc: Scopes, m: Machine, base: seq<Value>,
                                 top: Frame, v: V)
    requires Strict(sc) && sc.host == m.host && m.glob == TrFrame(m.host.arr, sc.glob)
    requires Preserved(m.host, c, sc.glob) && m.curfunc == TrFn(m.host.arr, c) && m.pc == 0
    requires var p := ParseParams(c.params); |vs| == |p.names| && top.Keys <= Nums(p.names)
    requires m.data == base + TrAll(m.host.arr, vs) && m.locals == CloseFrames(m.host.arr, c) + [top]
    requires var start := sc.(locals := [c.env, BindAll(map[], ParseParams(c.params).names, vs)]);
             EvalBegin(fuel, c.body, start).Val? && EvalBegin(fuel, c.body, start).v == v
    ensures Returns(m, base, v)
    decreases fuel, SizeSeq(c.body), 3
  {
    hide Rel, Yields, Reaches, Exits, Strict, TrVal, TrFrame, TrFrames, TrFn, Top, Below, CloseFrames;
    hide GenBegin, WFBegin, EvalBegin, ParseParams, NamesItself, CapturesEnough, BindAll, Nums, BuildFun;
    var a, p := m.host.arr, ParseParams(c.params);
    var frame := BindAll(map[], p.names, vs);
    var start := sc.(locals := [c.env, frame]);
    var o := GenBegin(a, c.name, c.body, Gst(true, 0));
    CodeShape(a, c);
    assert m.curfunc.fun[0..|m.curfunc.fun|] == m.curfunc.fun;
    CodeSplit(m, 0, Puts(p.names) + o.code, [Return(false)]);
    CodeSplit(m, 0, Puts(p.names), o.code);
    Prologue(m, base, CloseFrames(a, c), top, p.names, TrAll(a, vs));
    PrologueFrame(a, top, p.names, vs);
    var m1 := m.(pc := |p.names|, data := base, locals := CloseFrames(a, c) + [TrFrame(a, frame)]);
    var loops := !WFBegin(a, c.name, c.body, Gst(true, 0), BodyCtx(c, false));
    var cx := BodyCtx(c, loops);
    BodyRel(c, vs, sc, m1, cx);
    CBegin(fuel, c.name, c.body, Gst(true, 0), cx, c, start, m1);
    BodyReturns(c, cx, m, m1, base, |o.code|, v, EvalBegin(fuel, c.body, start).sc);
  }

  lemma BodyReturns(c: Closure, cx: Ctx, m: Machine, m1: Machine, base: seq<Value>, l: nat, v: V, sc: Scopes)
    requires Reaches(m, m1) && Lands(m1, c, cx, l, v, sc)
    requires m1 == m.(pc := m1.pc, data := base, locals := m1.locals) && m1.pc + l == |m.curfunc.fun| - 1
    requires sc.host == m.host && TrFrame(m.host.arr, sc.glob) == m.glob
    ensures Returns(m, base, v)
  {
    hide Reaches, TrVal, TrFrame, TrFrames, Tidy, Top, Below;
    var a := m.host.arr;
    if Yields(m1, c, cx, l, [v], sc) {
      var end := Advance(m1, cx.Own(), l, [v], sc);
      assert TrAll(a, [v]) == [TrVal(a, v)];
      Transitive(m, m1, end);
      assert end == ReturnPoint(m, base, v, end.locals);
    } else {
      var locals :| Reaches(m1, AtReturn(m1, v, locals));
      Transitive(m, m1, AtReturn(m1, v, locals));
      assert AtReturn(m1, v, locals) == ReturnPoint(m, base, v, locals);
    }
  }

  lemma SameStrict(sc: Scopes, sc': Scopes)
    requires Strict(sc) && sc'.host == sc.host && sc'.ok == sc.ok
    ensures Strict(sc')
  {
    hide Preserved;
  }

  /** A function body starts with the scopes the evaluator gives it. */
  lemma BodyRel(c: Closure, vs: seq<V>, sc: Scopes, m: Machine, cx: Ctx)
    requires Strict(sc) && sc.host == m.host && m.glob == TrFrame(m.host.arr, sc.glob)
    requires Preserved(m.host, c, sc.glob) && m.curfunc == TrFn(m.host.arr, c)
    requires cx == BodyCtx(c, cx.loops) && (cx.loops ==> NamesItself(m.host, c, sc.glob))
    requires var p := ParseParams(c.params);
             |vs| == |p.names| && m.locals == CloseFrames(m.host.arr, c) +
                 [TrFrame(m.host.arr, BindAll(map[], p.names, vs))]
    ensures Rel(m, sc.(locals := [c.env, BindAll(map[], ParseParams(c.params).names, vs)]), c, cx)
  {
    hide Strict, TrVal, TrFrame, TrFn, BuildFun, WFBegin, ParseParams, Agree, BindAll, CloseFrames, CapturesEnough;
    var a, p := m.host.arr, ParseParams(c.params);
    var frame := BindAll(map[], p.names, vs);
    var start := sc.(locals := [c.env, frame]);
    assert Below(m.locals, 1) == CloseFrames(a, c);
    assert Below(start.locals, 1) == [c.env] && Top(start.locals, 1) == [frame];
    assert Top(m.locals, 1) == [TrFrame(a, frame)] == TrFrames(a, [frame]);
    BindAllKeys<V>(map[], p.names, vs);
    CodeShape(a, c);
    CapturedAgree(m.host, c, sc.glob);
    SameStrict(sc, start);
  }

  /** The captured scope and the whole environment agree on what the body needs. */
  lemma CapturedAgree(host: Host, c: Closure, glob: EFrame)
    requires Preserved(host, c, glob)
    ensures Agree(host.arr, CloseFrames(host.arr, c), [c.env], Needs(TrFn(host.arr, c).fun))
    ensures !TrFn(host.arr, c).user
  {
    hide WFBegin, NamesItself, TrVal, Mentions, Nested, GenBegin;
    var a, code := host.arr, TrFn(host.arr, c).fun;
    CodeShape(a, c);
    forall s | s in Needs(code)
      ensures LookupLocal(CloseFrames(a, c), s) == TrOption(a, LookupLocal([c.env], s))
    {
      LookupOne(c.env, s);
      if c.num.None? {
        LookupOne(CloseFrames(a, c)[0], s);
        assert CloseFrames(a, c) == [CloseFrames(a, c)[0]];
      }
    }
  }

  lemma LookupOne<T>(f: map<int, T>, s: int)
    ensures LookupLocal([f], s) == if s in f then Some(f[s]) else None
    ensures LookupLocal<T>([], s) == None
  {
    assert [f][..0] == [];
  }

  lemma ExecRemove(m: Machine)
    requires CodeAt(m, 0, [RemoveScope]) && m.locals != []
    ensures Exec(0, m) == Some(m.(pc := m.pc + 1, locals := m.locals[..|m.locals| - 1]))
  {
    CodeHead(m, 0, [RemoveScope]);
  }

  lemma RemoveOne(m: Machine, d: nat)
    requires CodeAt(m, 0, Removes(d)) && 0 < d <= |m.locals|
    ensures var m1 := m.(pc := m.pc + 1, locals := m.locals[..|m.locals| - 1]);
            && Exec(0, m) == Some(m1) && CodeAt(m1, 0, Removes(d - 1))
            && Below(m1.locals, d - 1) == Below(m.locals, d)
  {
    hide Exec;
    assert Removes(d) == [RemoveScope] + Removes(d - 1);
    hide Removes;
    CodeSplit(m, 0, [RemoveScope], Removes(d - 1));
    ExecRemove(m);
  }

  lemma {:induction false} Removing(m: Machine, d: nat)
    requires CodeAt(m, 0, Removes(d)) && d <= |m.locals|
    ensures Reaches(m, m.(pc := m.pc + d, locals := Below(m.locals, d)))
    decreases d
  {
    hide Reaches, Exec;
    if d == 0 {
      assert m.locals == Below(m.locals, 0);
      Stays(m);
    } else {
      hide CodeAt, Below, Removes;
      var m1 := m.(pc := m.pc + 1, locals := m.locals[..|m.locals| - 1]);
      var end := m.(pc := m.pc + d, locals := Below(m.locals, d));
      RemoveOne(m, d);
      assert m1.(pc := m1.pc + (d - 1), locals := Below(m1.locals, d - 1)) == end;
      OneStep(0, m, m1);
      Removing(m1, d - 1);
      Transitive(m, m1, end);
    }
  }

  /** The name of a looping function still means that function. */
  lemma SelfCallee(m: Machine, sc: Scopes, c: Closure, cx: Ctx, s: Symbol)
    requires Rel(m, sc, c, cx) && cx.loops && s.num == cx.num
    ensures Callee(sc, s) == Some(Fun(c))
    ensures Preserved(m.host, c, sc.glob) && NamesItself(m.host, c, sc.glob) && cx.nargs == ParseParams(c.params).nargs
  {
    hide Strict, TrFn, TrVal, TrFrame, TrFrames, Agree, LookupLocal, BuildFun, WFBegin, ParseParams, CapturesEnough;
    var n := cx.Own();
    assert sc.locals == Below(sc.locals, n) + Top(sc.locals, n);
    LookupAppend(Below(sc.locals, n), Top(sc.locals, n), s.num);
    Unbound(Top(sc.locals, n), s.num);
    Unbound([c.env], s.num);
  }

  lemma {:induction false} Unbound<T>(frames: seq<map<int, T>>, s: int)
    requires forall i | 0 <= i < |frames| :: s !in frames[i]
    ensures LookupLocal(frames, s) == None
  {
    if frames != [] {
      Unbound(frames[..|frames| - 1], s);
    }
  }

  /** After the `let` scopes are closed only the function's own scope is left, and it binds
      nothing but parameters. */
  lemma LoopScope(m: Machine, sc0: Scopes, sc: Scopes, c: Closure, cx: Ctx, l: int, args: seq<V>) returns (top: Frame)
    requires Rel(m, sc0, c, cx) && Rel(Advance(m, cx.Own(), l, args, sc), sc, c, cx) && cx.loops
    ensures var m1 := Advance(m, cx.Own(), l, args, sc);
            && cx.depth <= |m1.locals| && Below(m1.locals, cx.depth) == CloseFrames(m.host.arr, c) + [top]
    ensures top.Keys <= Nums(ParseParams(c.params).names)
  {
    hide Strict, TrVal, TrFn, Agree, Preserved, NamesItself, CloseFrames, Nums, ParseParams, TrAll;
    var a, n := m.host.arr, cx.Own();
    var first := sc.locals[|sc.locals| - n];
    top := TrFrame(a, first);
    var own := TrFrames(a, Top(sc.locals, n));
    assert (Below(m.locals, n) + own)[..|m.locals| - n + 1] == Below(m.locals, n) + own[..1];
    assert own[..1] == [top];
  }

  /** At a self tail call the generator's count of scopes is the number of `let` scopes that
      are open, and the stack holds exactly the arguments above the frame's base: closing
      the scopes and going to instruction 0 enters the body as a call would, without
      touching the address stack or the saved scope stacks. */
  lemma SelfJump(args: seq<V>, cx: Ctx, c: Closure, sc0: Scopes, sc: Scopes, m: Machine,
                 l: nat)
    returns (m': Machine, top: Frame)
    requires Rel(m, sc0, c, cx) && Follows(sc0, sc) && cx.safe && cx.loops
    requires Rel(Advance(m, cx.Own(), l, args, sc), sc, c, cx) && Yields(m, c, cx, l, args, sc)
    requires CodeAt(m, l, Removes(cx.depth) + [Goto(0)])
    ensures Reaches(m, m')
    ensures m' == m.(pc := 0, data := m.data + TrAll(m.host.arr, args), locals := CloseFrames(m.host.arr, c) + [top])
    ensures top.Keys <= Nums(ParseParams(c.params).names)
  {
    hide Rel, Reaches, Strict, Tidy, TrVal, TrAll, TrFrame, TrFrames, TrFn, CloseFrames, Below, Top, Nums, ParseParams;
    var m1 := Advance(m, cx.Own(), l, args, sc);
    InFunction(m, sc0, c, cx, sc);
    CodeSplit(m, l, Removes(cx.depth), [Goto(0)]);
    CodeHead(m, l + cx.depth, [Goto(0)]);
    top := LoopScope(m, sc0, sc, c, cx, l, args);
    Removing(m1, cx.depth);
    var m2 := m1.(pc := m1.pc + cx.depth, locals := Below(m1.locals, cx.depth));
    m' := m2.(pc := 0);
    ExecGoto(m2);
    hide Exec, CodeAt, Removes, Advance;
    Transitive(m, m1, m2);
    ThenStep(m, m2, 0, m');
  }

  lemma ExecGoto(m: Machine)
    requires !m.curfunc.user && 0 <= m.pc < |m.curfunc.fun| && m.curfunc.fun[m.pc] == Goto(0)
    ensures Exec(0, m) == Some(m.(pc := 0))
  {
  }

  /** From there the function runs to its `return` as an ordinary call of it would. */
  lemma {:induction false} CSelf(fuel: nat, s: Symbol, args: seq<V>, cx: Ctx, c: Closure, sc0: Scopes, sc: Scopes,
                                 m: Machine, l: nat, v: V)
    requires Rel(m, sc0, c, cx) && Follows(sc0, sc)
    requires Rel(Advance(m, cx.Own(), l, args, sc), sc, c, cx) && Yields(m, c, cx, l, args, sc)
    requires cx.safe && cx.loops && s.num == cx.num && |args| == cx.nargs
    requires CodeAt(m, l, Removes(cx.depth) + [Goto(0)])
    requires Callee(sc, s).Some? && Callee(sc, s).value.Fun?
    requires ApplyNamed(fuel, Callee(sc, s).value.fn, s.name, args, sc) == Some(v)
    ensures Exits(m, v)
    decreases fuel, 0, 4
  {
    hide Rel, Reaches, Yields, Strict, TrVal, TrAll, TrFrame, TrFn, Callee, CloseFrames, Preserved, EvalBegin,
         BindAll, Nums, ParseParams;
    var m1 := Advance(m, cx.Own(), l, args, sc);
    SelfCallee(m1, sc, c, cx, s);
    RelHost(m1, sc, c, cx);
    InFunction(m, sc0, c, cx, sc);
    var m3, top := SelfJump(args, cx, c, sc0, sc, m, l);
    CBody(fuel - 1, c, args, sc, m3, m.data, top, v);
    var locals :| Reaches(m3, ReturnPoint(m3, m.data, v, locals));
    assert ReturnPoint(m3, m.data, v, locals) == AtReturn(m, v, locals);
    Transitive(m, m3, AtReturn(m, v, locals));
  }

  /** Inside a function the global scope cannot change. */
  lemma InFunction(m: Machine, sc0: Scopes, c: Closure, cx: Ctx, sc: Scopes)
    requires Rel(m, sc0, c, cx) && cx.safe && Follows(sc0, sc)
    ensures m.curfunc == TrFn(m.host.arr, c) && TrFrame(m.host.arr, sc.glob) == m.glob
  {
    hide Strict, Preserved, Agree, Tidy, TrFn, TrFrame, TrFrames;
  }

  // ---------- builtins that re-enter the machine ----------

  /** Re-entrancy: whatever a builtin runs on the machine, to any depth, it returns its
      value and leaves every stack, the scopes and the program counter as it found them. */
  lemma {:induction false} BuiltinRuns(fuel: nat, which: string, name: string, args: seq<V>, sc: Scopes, m: Machine,
                                       v: V)
    returns (k: nat)
    requires EvalBuiltin(fuel, which, name, args, sc) == Some(v)
    requires sc.host == m.host && Strict(sc) && m.glob == TrFrame(m.host.arr, sc.glob) && m.pc == -1
    ensures RunBuiltin(k, which, name, TrAll(m.host.arr, args), m) == Some((TrVal(m.host.arr, v), m))
    decreases fuel, 2, 0
  {
    hide Strict, TrFrame, Apply, MapArray, MapList, ApplyValue, MapValues, IsList, Elems, MakeList, Prim, TrFn;
    var a := m.host.arr;
    var targs := TrAll(a, args);
    if which == "apply" {
      var es := ApplyArgs(args[1]).value;
      ApplyArgsMatch(a, args[1]);
      k := ApplyRuns(fuel, args[0].fn, es, sc, m, v);
    } else if which == "map" {
      if args[1].Arr? {
        var vs := MapValues(fuel, args[0].fn, args[1].elems, sc).value;
        k := MapRuns(fuel, args[0].fn, args[1].elems, sc, m, vs);
      } else {
        var es := Elems(args[1]);
        var vs := MapValues(fuel, args[0].fn, es, sc).value;
        TrList(a, args[1]);
        TrMakeList(a, vs);
        k := MapRuns(fuel, args[0].fn, es, sc, m, vs);
        ListLikeArray(k, TrFn(a, args[0].fn), targs[1], m);
      }
    } else {
      k := 0;
      TrPrim(a, m.host, which, name, args);
    }
  }

  lemma ApplyArgsMatch(a: Symbol, e: V)
    requires ApplyArgs(e).Some?
    ensures ApplyArgs(TrVal(a, e)) == Some(TrAll(a, ApplyArgs(e).value))
  {
    hide IsList, Elems;
    TrList(a, e);
    assert TrAll(a, []) == [];
  }

  lemma {:induction false} ApplyRuns(fuel: nat, f: Closure, args: seq<V>, sc: Scopes, m: Machine, v: V)
    returns (k: nat)
    requires ApplyValue(fuel, f, args, sc) == Some(v)
    requires sc.host == m.host && Strict(sc) && m.glob == TrFrame(m.host.arr, sc.glob) && m.pc == -1
    ensures Apply(k, TrFn(m.host.arr, f), TrAll(m.host.arr, args), m) == Some((TrVal(m.host.arr, v), m))
    decreases fuel, 0, 5
  {
    hide TrVal, TrFrame, Reaches, RunBuiltin, Run, CallFunction, EvalBuiltin, EvalBegin, BuildFun, ParseParams,
         ParamValues, WFBegin, NamesItself, CapturesEnough;
    var a := m.host.arr;
    var targs := TrAll(a, args);
    if f.Builtin? {
      k := BuiltinRuns(fuel - 1, f.which, f.which, args, sc, m, v);
      k := k + 1;
    } else {
      var m0 := m.(pc := -2).Pushed(targs);
      InvokeClosure(fuel, f, f.name, args, sc, m0, m.data, v);
      var m1 := CallFunction(TrFn(a, f), |args|, m0).value;
      var end := After(m0, m.data, v);
      assert Preserved(sc.host, f, sc.glob);
      CodeShape(a, f);
      k := RunReaches(m1, end);
      assert end.data[..|end.data| - 1] == m.data;
      k := k + 1;
    }
  }

  lemma {:induction false} MapRuns(fuel: nat, f: Closure, es: seq<V>, sc: Scopes, m: Machine, vs: seq<V>)
    returns (k: nat)
    requires MapValues(fuel, f, es, sc) == Some(vs)
    requires sc.host == m.host && Strict(sc) && m.glob == TrFrame(m.host.arr, sc.glob) && m.pc == -1
    ensures MapArray(k, TrFn(m.host.arr, f), TrAll(m.host.arr, es), m) == Some((TrAll(m.host.arr, vs), m))
    decreases fuel, 1, |es|
  {
    hide Strict, TrVal, TrFrame, TrFn, Apply, ApplyValue;
    var a := m.host.arr;
    var g, tes := TrFn(a, f), TrAll(a, es);
    if es == [] {
      k := 0;
    } else {
      var k1 := ApplyRuns(fuel, f, es[..1], sc, m, vs[0]);
      var k2 := MapRuns(fuel, f, es[1..], sc, m, vs[1..]);
      k := if k1 < k2 then k2 else k1;
      assert tes[..1] == TrAll(a, es[..1]) && tes[1..] == TrAll(a, es[1..]);
      MonoApply(k1, k, g, tes[..1], m);
      MonoMapArray(k2, k, g, tes[1..], m);
      assert TrAll(a, vs) == [TrVal(a, vs[0])] + TrAll(a, vs[1..]);
    }
  }

  /** Mapping over a list is mapping over its elements. */
  lemma {:induction false} ListLikeArray(k: nat, f: Function, e: Value, m: Machine)
    requires IsList(e) && MapArray(k, f, Elems(e), m).Some?
    ensures var r := MapArray(k, f, Elems(e), m).value;
            MapList(k, f, e, m) == Some((MakeList(r.0), r.1))
    decreases e
  {
    hide Apply;
    if e.Pair? {
      var es := Elems(e);
      assert es[..1] == [e.head] && es[1..] == Elems(e.tail);
      var (v, m') := Apply(k, f, [e.head], m).value;
      ListLikeArray(k, f, e.tail, m');
      var (vs, m'') := MapArray(k, f, es[1..], m').value;
      assert ([v] + vs)[1..] == vs;
    }
  }

  // ---------- quasi-quotation ----------

  /** The code of a template pushes exactly the values the template expands to. */
  lemma {:induction false} CQuasi(fuel: nat, fname: string, x: Source, g: Gst, cx: Ctx, c: Closure, sc: Scopes,
                                  m: Machine)
    requires Rel(m, sc, c, cx) && WFQuasi(m.host.arr, fname, x, g, cx.Unsafe()) && Expand(fuel, x, sc).Vals?
    requires var o := GenQuasi(m.host.arr, fname, x, g); o.err == Ok && CodeAt(m, 0, o.code)
    ensures var o, r := GenQuasi(m.host.arr, fname, x, g), Expand(fuel, x, sc);
            && Yields(m, c, cx, |o.code|, r.vs, r.after) && Keeps(g, o.st)
            && Rel(Advance(m, cx.Own(), |o.code|, r.vs, r.after), r.after, c, cx)
    decreases fuel, Size(x), 3
  {
    hide Rel, Yields, Reaches, Exits, TrVal, TrAll, TrFrame, TrFrames, Top, Below;
    hide Gen, GenQuasiEach, GenQuasiAll, WF, WFQuasiAll, Eval, ExpandAll, IsData, Recast, MakeList, IsList, Elems;
    var a, n := m.host.arr, cx.Own();
    var r := Expand(fuel, x, sc);
    if x.Arr? {
      CQuasiArray(fuel, fname, x.elems, g, cx, c, sc, m);
    } else if x.Pair? && IsList(x) {
      var es := Elems(x);
      if IsUnquote(es, "unquote") {
        SizeAt(es, 1);
        CValue(fuel, fname, es[1], g, cx, c, sc, m);
      } else if IsUnquote(es, "unquote-splicing") {
        SizeAt(es, 1);
        var o, q := Gen(a, fname, es[1], g), Eval(fuel, es[1], sc);
        CodeSplit(m, 0, o.code, [Explode]);
        CValue(fuel, fname, es[1], g, cx, c, sc, m);
        StepExplode(m, c, cx, |o.code|, q.v, q.sc);
      } else {
        var o, q := GenQuasiAll(a, fname, es, g), ExpandAll(fuel, es, sc);
        CMarked(sc, c, cx, m, o.code, Squash);
        CQuasiAll(fuel, fname, es, g, cx, c, sc, Advance(m, n, 1, [Marker], sc));
        CGathered(c, cx, m, sc, o.code, Squash, q.vs, q.after);
      }
    } else {
      CConstant(x, sc, c, cx, m);
    }
    RelAdvance(m, sc, c, cx, |GenQuasi(a, fname, x, g).code|, r.vs, r.after);
  }

  lemma {:induction false} CQuasiArray(fuel: nat, fname: string, xs: seq<Source>, g: Gst, cx: Ctx, c: Closure,
                                       sc: Scopes, m: Machine)
    requires Rel(m, sc, c, cx) && WFQuasiAll(m.host.arr, fname, xs, g, cx.Unsafe()) && ExpandAll(fuel, xs, sc).Vals?
    requires Marker !in ExpandAll(fuel, xs, sc).vs
    requires var o := GenQuasiEach(m.host.arr, fname, xs, g);
             o.err == Ok && CodeAt(m, 0, [Push(Marker)] + o.code + [Vectorize])
    ensures var o, r := GenQuasiEach(m.host.arr, fname, xs, g), ExpandAll(fuel, xs, sc);
            Yields(m, c, cx, |o.code| + 2, [Arr(r.vs)], r.after) && Keeps(g, o.st)
    decreases fuel, SizeSeq(xs), 5
  {
    hide Rel, Yields, Reaches, Exits, TrVal, TrAll, TrFrame, TrFrames, Top, Below;
    hide GenQuasiEach, WFQuasiAll, ExpandAll;
    var o, q := GenQuasiEach(m.host.arr, fname, xs, g), ExpandAll(fuel, xs, sc);
    CMarked(sc, c, cx, m, o.code, Vectorize);
    CQuasiEach(fuel, fname, xs, g, cx, c, sc, Advance(m, cx.Own(), 1, [Marker], sc));
    CGathered(c, cx, m, sc, o.code, Vectorize, q.vs, q.after);
  }

  /** The marker goes down first. */
  lemma CMarked(sc: Scopes, c: Closure, cx: Ctx, m: Machine, code: seq<Instr>, i: Instr)
    requires Rel(m, sc, c, cx) && CodeAt(m, 0, [Push(Marker)] + code + [i])
    ensures Yields(m, c, cx, 1, [Marker], sc)
    ensures var m1 := Advance(m, cx.Own(), 1, [Marker], sc); Rel(m1, sc, c, cx) && CodeAt(m1, 0, code)
    ensures CodeAt(m, 1 + |code|, [i])
  {
    hide Rel, Yields, TrAll, TrFrame, TrFrames, Top, Below;
    CodeSplit(m, 0, [Push(Marker)] + code, [i]);
    CodeSplit(m, 0, [Push(Marker)], code);
    AdvanceHere(m, sc, c, cx);
    var marks: seq<V> := [Marker];
    assert [] + marks == marks;
    StepPush(m, c, cx, 0, [], sc, Marker, marks);
    RelAdvance(m, sc, c, cx, 1, [Marker], sc);
  }

  /** The values pushed since the marker become one list or array, and only those. */
  lemma CGathered(c: Closure, cx: Ctx, m: Machine, sc: Scopes, code: seq<Instr>, i: Instr, vs: seq<V>, sc': Scopes)
    requires CodeAt(m, 1 + |code|, [i]) && (i == Squash || i == Vectorize)
    requires Yields(m, c, cx, 1, [Marker], sc) && Marker !in vs
    requires Yields(Advance(m, cx.Own(), 1, [Marker], sc), c, cx, |code|, vs, sc')
    ensures Yields(m, c, cx, |code| + 2, [Gathered(i, vs)], sc')
  {
    hide Yields, Advance, Gathered;
    Chain(m, c, cx, 1, [Marker], sc, |code|, vs, sc');
    StepGather(m, c, cx, 1 + |code|, vs, sc', i);
  }

  lemma {:induction false} CQuasiAll(fuel: nat, fname: string, xs: seq<Source>, g: Gst, cx: Ctx, c: Closure,
                                     sc: Scopes, m: Machine)
    requires Rel(m, sc, c, cx) && WFQuasiAll(m.host.arr, fname, xs, g, cx.Unsafe()) && ExpandAll(fuel, xs, sc).Vals?
    requires var o := GenQuasiAll(m.host.arr, fname, xs, g); o.err == Ok && CodeAt(m, 0, o.code)
    ensures var o, r := GenQuasiAll(m.host.arr, fname, xs, g), ExpandAll(fuel, xs, sc);
            Yields(m, c, cx, |o.code|, r.vs, r.after) && Keeps(g, o.st)
    decreases fuel, SizeSeq(xs), 4
  {
    hide Rel, Yields, Reaches, Exits, TrVal, TrAll, TrFrame, TrFrames, Top, Below;
    hide GenQuasi, WFQuasi, Expand;
    if xs == [] {
      AdvanceHere(m, sc, c, cx);
    } else {
      var o, r := GenQuasi(m.host.arr, fname, xs[0], g), Expand(fuel, xs[0], sc);
      var p, q := GenQuasiAll(m.host.arr, fname, xs[1..], o.st), ExpandAll(fuel, xs[1..], r.after);
      CodeSplit(m, 0, o.code, p.code);
      CQuasi(fuel, fname, xs[0], g, cx, c, sc, m);
      CQuasiAll(fuel, fname, xs[1..], o.st, cx, c, r.after, Advance(m, cx.Own(), |o.code|, r.vs, r.after));
      Chain(m, c, cx, |o.code|, r.vs, r.after, |p.code|, q.vs, q.after);
    }
  }

  lemma ElementPieces(sc: Scopes, c: Closure, cx: Ctx, m: Machine, code: seq<Instr>)
    requires Rel(m, sc, c, cx) && CodeAt(m, 0, [Push(Marker)] + code + [Squash, Explode])
    ensures Yields(m, c, cx, 1, [Marker], sc)
    ensures var m1 := Advance(m, cx.Own(), 1, [Marker], sc); Rel(m1, sc, c, cx) && CodeAt(m1, 0, code)
    ensures CodeAt(m, 1 + |code|, [Squash]) && CodeAt(m, 2 + |code|, [Explode])
  {
    hide Rel, Yields;
    assert [Push(Marker)] + code + [Squash, Explode] == [Push(Marker)] + code + [Squash] + [Explode];
    CodeSplit(m, 0, [Push(Marker)] + code + [Squash], [Explode]);
    CMarked(sc, c, cx, m, code, Squash);
  }

  lemma CElement(sc: Scopes, c: Closure, cx: Ctx, m: Machine, code: seq<Instr>, vs: seq<V>, sc': Scopes)
    requires Rel(m, sc, c, cx) && Yields(m, c, cx, 1, [Marker], sc) && Marker !in vs && Follows(sc, sc')
    requires CodeAt(m, 1 + |code|, [Squash]) && CodeAt(m, 2 + |code|, [Explode])
    requires Yields(Advance(m, cx.Own(), 1, [Marker], sc), c, cx, |code|, vs, sc')
    ensures Yields(m, c, cx, |code| + 3, vs, sc')
    ensures Rel(Advance(m, cx.Own(), |code| + 3, vs, sc'), sc', c, cx)
  {
    hide Rel, Yields, Advance, MakeList, IsList, Elems;
    CGathered(c, cx, m, sc, code, Squash, vs, sc');
    MakeListElems(vs);
    StepExplode(m, c, cx, |code| + 2, MakeList(vs), sc');
    RelAdvance(m, sc, c, cx, |code| + 3, vs, sc');
  }

  /** Squashing an array element and exploding it again gives back its values. */
  lemma {:induction false} CQuasiEach(fuel: nat, fname: string, xs: seq<Source>, g: Gst, cx: Ctx, c: Closure,
                                      sc: Scopes, m: Machine)
    requires Rel(m, sc, c, cx) && WFQuasiAll(m.host.arr, fname, xs, g, cx.Unsafe()) && ExpandAll(fuel, xs, sc).Vals?
    requires var o := GenQuasiEach(m.host.arr, fname, xs, g); o.err == Ok && CodeAt(m, 0, o.code)
    requires Marker !in ExpandAll(fuel, xs, sc).vs
    ensures var o, r := GenQuasiEach(m.host.arr, fname, xs, g), ExpandAll(fuel, xs, sc);
            Yields(m, c, cx, |o.code|, r.vs, r.after) && Keeps(g, o.st)
    decreases fuel, SizeSeq(xs), 4
  {
    hide Rel, Yields, Reaches, Exits, TrVal, TrAll, TrFrame, TrFrames, Top, Below;
    hide GenQuasi, WFQuasi, Expand, MakeList, IsList, Elems;
    if xs == [] {
      AdvanceHere(m, sc, c, cx);
    } else {
      var o, r := GenQuasi(m.host.arr, fname, xs[0], g), Expand(fuel, xs[0], sc);
      var p, q := GenQuasiEach(m.host.arr, fname, xs[1..], o.st), ExpandAll(fuel, xs[1..], r.after);
      var l := |o.code|;
      CodeSplit(m, 0, [Push(Marker)] + o.code + [Squash, Explode], p.code);
      ElementPieces(sc, c, cx, m, o.code);
      CQuasi(fuel, fname, xs[0], g, cx, c, sc, Advance(m, cx.Own(), 1, [Marker], sc));
      CElement(sc, c, cx, m, o.code, r.vs, r.after);
      CQuasiEach(fuel, fname, xs[1..], o.st, cx, c, r.after, Advance(m, cx.Own(), l + 3, r.vs, r.after));
      Chain(m, c, cx, l + 3, r.vs, r.after, |p.code|, q.vs, q.after);
    }
  }
}
