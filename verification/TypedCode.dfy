/** The code of a regular text has a stack typing. */
module TypedCode {
  import opened Sexps
  import opened Scoping
  import opened Instructions
  import opened Codegen
  import opened Wellformed
  import opened Regularity
  import opened StackTypes
  import opened Sealing
  import ClosedCode

  // ---------- typed pieces ----------

  /** `code` leads from shape `s` to shape `t`, and all functions in it are typed. */
  ghost predicate Flows(r: Rules, code: seq<Instr>, s: Shape, t: Shape) {
    && (forall p | 0 <= p < |code| :: GoodInstr(true, code[p]))
    && exists ts :: Leads(r, code, ts, s, t)
  }

  predicate Leads(r: Rules, code: seq<Instr>, ts: seq<Shape>, s: Shape, t: Shape) {
    |ts| == |code| + 1 && Typed(r, code, ts) && ts[0] == s && ts[|code|] == t
  }

  lemma FlowNone(r: Rules, s: Shape)
    requires s.depth >= r.own
    ensures Flows(r, [], s, s)
  {
    TypedNone(r, s);
    assert Leads(r, [], [s], s, s);
  }

  lemma FlowOne(r: Rules, i: Instr, s: Shape, t: Shape)
    requires !i.Jump? && !i.Branch? && !i.Goto? && !i.Return? && Effect(i, s, r.own) == Some(t)
    requires s.depth >= r.own && t.depth >= r.own && GoodInstr(true, i)
    ensures Flows(r, [i], s, t)
  {
    hide Effect, Typed;
    TypedOne(r, i, s, t);
    assert Leads(r, [i], [s, t], s, t);
  }

  lemma FlowJoin(r: Rules, x: seq<Instr>, s: Shape, t: Shape, y: seq<Instr>, u: Shape)
    requires Flows(r, x, s, t) && Flows(r, y, t, u)
    ensures Flows(r, x + y, s, u)
  {
    hide Typed, GoodInstr;
    var xs :| Leads(r, x, xs, s, t);
    var ys :| Leads(r, y, ys, t, u);
    TypedJoin(r, x, xs, y, ys);
    assert Leads(r, x + y, Join(xs, ys), s, u);
    forall p | 0 <= p < |x + y| ensures GoodInstr(true, (x + y)[p]) {
      assert (x + y)[p] == if p < |x| then x[p] else y[p - |x|];
    }
  }

  /** A branch or a jump in front of code that it leads into, or past. */
  lemma TypedFork(r: Rules, i: Instr, l: nat, s: Shape, code: seq<Instr>, ts: seq<Shape>)
    requires Typed(r, code, ts) && s.depth >= r.own && 0 < l <= |code| + 1
    requires (i == Jump(l) && ts[l - 1] == s) ||
             ((i == Branch(true, l) || i == Branch(false, l)) && Effect(i, s, r.own) == Some(ts[0])
                 && ts[l - 1] == ts[0])
    ensures Typed(r, [i] + code, [s] + ts)
  {
    hide Effect;
    var z, zs := [i] + code, [s] + ts;
    forall p | 0 <= p < |z| ensures TypedAt(r, z, zs, p) {
      assert p > 0 ==> TypedAt(r, code, ts, p - 1);
      assert p > 0 ==> z[p] == code[p - 1];
    }
  }

  lemma TopOne(s: Shape, own: nat)
    ensures Take(s.Push(One).slots, 1) == Some(s.slots)
    ensures Effect(Pop, s.Push(One), own) == Some(s)
    ensures forall d, l :: Effect(Branch(d, l), s.Push(One), own) == Some(s)
    ensures Effect(Dup, s.Push(One), own) == Some(s.Push(One).Push(One))
    ensures Effect(Explode, s.Push(One), own) == Some(s.Push(Many))
  {
    TakeOne(s.slots);
    assert s.slots + [One, One] == s.slots + [One] + [One] && s.slots + [] == s.slots;
  }

  lemma FlowShort(r: Rules, p: seq<Instr>, or: bool, rest: seq<Instr>, s: Shape)
    requires Flows(r, p, s, s.Push(One)) && Flows(r, rest, s, s.Push(One)) && s.depth >= r.own
    ensures Flows(r, p + [Dup, Branch(or, |rest| + 2), Pop] + rest, s, s.Push(One))
  {
    var t, branch := s.Push(One), Branch(or, |rest| + 2);
    TopOne(s, r.own);
    TopOne(t, r.own);
    assert Effect(branch, t.Push(One), r.own) == Some(t);
    FlowOne(r, Dup, t, t.Push(One));
    FlowOne(r, Pop, t, s);
    hide Effect, Typed, GoodInstr;
    FlowJoin(r, [Pop], t, s, rest, t);
    assert GoodInstr(true, branch) by {
      NoFunction(branch);
    }
    FlowFork(r, branch, |rest| + 2, t.Push(One), [Pop] + rest, t, t);
    FlowJoin(r, [Dup], t, t.Push(One), [branch] + ([Pop] + rest), t);
    FlowJoin(r, p, s, t, [Dup] + ([branch] + ([Pop] + rest)), t);
    assert p + ([Dup] + ([branch] + ([Pop] + rest))) == p + [Dup, branch, Pop] + rest;
  }

  lemma NoFunction(i: Instr)
    requires i.Jump? || i.Branch? || i.Return?
    ensures GoodInstr(true, i)
  {
  }

  /** A branch past the code that follows it. */
  lemma FlowFork(r: Rules, i: Instr, l: nat, s: Shape, code: seq<Instr>, t: Shape, u: Shape)
    requires Flows(r, code, t, u) && s.depth >= r.own && l == |code| + 1 && GoodInstr(true, i)
    requires (i == Jump(l) && u == s) || (i.Branch? && i.loc == l && Effect(i, s, r.own) == Some(t) && u == t)
    ensures Flows(r, [i] + code, s, u)
  {
    hide Effect, Typed, GoodInstr;
    var ts :| Leads(r, code, ts, t, u);
    TypedFork(r, i, l, s, code, ts);
    assert Leads(r, [i] + code, [s] + ts, s, u);
    forall p | 0 <= p < |code| + 1 ensures GoodInstr(true, ([i] + code)[p]) {
      assert ([i] + code)[p] == if p == 0 then i else code[p - 1];
    }
  }

  lemma FlowCond(r: Rules, p: seq<Instr>, b: seq<Instr>, rest: seq<Instr>, s: Shape)
    requires Flows(r, p, s, s.Push(One)) && Flows(r, b, s, s.Push(One)) && Flows(r, rest, s, s.Push(One))
             && s.depth >= r.own
    ensures Flows(r, p + [Branch(false, |b| + 2)] + b + [Jump(|rest| + 1)] + rest, s, s.Push(One))
  {
    var t, branch, jump := s.Push(One), Branch(false, |b| + 2), Jump(|rest| + 1);
    TopOne(s, r.own);
    assert Effect(branch, t, r.own) == Some(s);
    hide Effect, Typed, GoodInstr;
    NoFunction(branch);
    NoFunction(jump);
    var ys :| Leads(r, rest, ys, s, t);
    var bs :| Leads(r, b, bs, s, t);
    TypedFork(r, jump, |rest| + 1, t, rest, ys);
    var tail := [jump] + rest;
    TypedJoin(r, b, bs, tail, [t] + ys);
    var zs := Join(bs, [t] + ys);
    assert zs[|b| + 1] == s && zs[0] == s;
    TypedFork(r, branch, |b| + 2, t, b + tail, zs);
    var all := [branch] + (b + tail);
    assert Leads(r, all, [t] + zs, t, t);
    forall q | 0 <= q < |all| ensures GoodInstr(true, all[q]) {
      assert all[q] == if q == 0 then branch else if q <= |b| then b[q - 1] else if q == |b| + 1 then jump
             else rest[q - |b| - 2];
    }
    assert Flows(r, all, t, t);
    FlowJoin(r, p, s, t, all, t);
    assert p + all == p + [branch] + b + [jump] + rest;
  }

  lemma FlowAssert(r: Rules, p: seq<Instr>, s: Shape)
    requires Flows(r, p, s, s.Push(One)) && s.depth >= r.own
    ensures Flows(r, p + [Branch(true, 2), Return(true), Push(Null)], s, s.Push(One))
  {
    var t, branch, last := s.Push(One), Branch(true, 2), [Return(true), Push(Null)];
    TopOne(s, r.own);
    NoFunction(branch);
    NoFunction(Return(true));
    assert Effect(last[1], s, r.own) == Some(t) && GoodInstr(true, Push(Null)) && Effect(branch, t, r.own) == Some(s);
    hide Effect, GoodInstr;
    assert Typed(r, last, [s, s, t]);
    TypedFork(r, branch, 2, t, last, [s, s, t]);
    hide Typed;
    var all := [branch] + last;
    forall q | 0 <= q < |all| ensures GoodInstr(true, all[q]) {
      assert all[q] == if q == 0 then branch else if q == 1 then Return(true) else Push(Null);
    }
    assert Leads(r, all, [t] + [s, s, t], t, t);
    assert Flows(r, all, t, t);
    FlowJoin(r, p, s, t, all, t);
    assert p + all == p + [Branch(true, 2), Return(true), Push(Null)];
  }

  // ---------- the code of regular texts ----------

  /** What the generator knows of the shape that an expression starts with. */
  predicate Stands(r: Rules, cx: Ctx, g: Gst, s: Shape) {
    && s.depth >= r.own && (cx.safe ==> g.scopes == cx.depth)
    && (cx.safe && cx.loops ==> r.loop == Some(cx.nargs) && s == Shape([], r.own + cx.depth))
  }

  lemma {:induction false} TExpr(a: Symbol, fname: string, e: Value, g: Gst, at: Place, cx: Ctx,
                                 r: Rules, s: Shape)
    requires GoodVal(true, e) && Regular(a, at, e) && WF(a, fname, e, g, cx) && Stands(r, cx, g, s)
    requires Gen(a, fname, e, g).err == Ok
    ensures Flows(r, Gen(a, fname, e, g).code, s, s.Push(One)) && Keeps(g, Gen(a, fname, e, g).st)
    decreases Size(e), 0
  {
    hide Flows, Stands, GenForm, GenDispatch, GenAll, WFForm, WFAll, RegularForm, RegularAll;
    SameStart(r, cx, g, s);
    match e
    case Sym(x) => TStraight(r, Get(x), s);
    case Pair(h, t) =>
      if !IsList(e) {
        TStraight(r, Push(e), s);
      } else {
        GoodElems(true, t);
        if h.Sym? {
          TForm(a, fname, h.sym, Elems(t), g, at, cx, r, s);
        } else {
          TDispatch(a, fname, h, Elems(t), g, at, cx, r, s);
        }
      }
    case Arr(es) =>
      TAll(a, fname, es, g, at, cx.Unsafe(), r, s);
      TCall(r, Call(a, |es|), s, |es|);
      FlowJoin(r, GenAll(a, fname, es, g).code, s, Operands(s, |es|), [Call(a, |es|)], s.Push(One));
    case _ => TStraight(r, Push(e), s);
  }

  lemma SameStart(r: Rules, cx: Ctx, g: Gst, s: Shape)
    requires Stands(r, cx, g, s)
    ensures s.depth >= r.own && Stands(r, cx.Unsafe(), g, s)
  {
  }

  /** Outside tail position any state of the generator will do. */
  lemma Anywhere(r: Rules, cx: Ctx, g: Gst, s: Shape)
    requires s.depth >= r.own && !cx.safe
    ensures Stands(r, cx, g, s)
  {
  }

  /** `n` values on top. */
  function Operands(s: Shape, n: nat): Shape {
    s.(slots := s.slots + Ones(n))
  }

  lemma TStraight(r: Rules, i: Instr, s: Shape)
    requires s.depth >= r.own && GoodInstr(true, i)
    requires i.Get? || i.PushClosure? || (i.Push? && !i.e.Marker?)
    ensures Flows(r, [i], s, s.Push(One))
  {
    hide GoodInstr;
    FlowOne(r, i, s, s.Push(One));
  }

  lemma TCall(r: Rules, i: Instr, s: Shape, n: nat)
    requires s.depth >= r.own && i.Call? && i.nargs == n
    ensures Flows(r, [i], Operands(s, n), s.Push(One))
  {
    TakeOnes(s.slots, n);
    FlowOne(r, i, Operands(s, n), s.Push(One));
  }

  lemma OperandsMore(s: Shape, n: nat)
    ensures Operands(s.Push(One), n) == Operands(s, n + 1) && Operands(s, 0) == s
  {
    assert s.slots + [One] + Ones(n) == s.slots + Ones(n + 1);
  }

  lemma {:induction false} TDispatch(a: Symbol, fname: string, h: Value, args: seq<Value>, g: Gst,
                                     at: Place, cx: Ctx, r: Rules, s: Shape)
    requires GoodVal(true, h) && GoodVals(true, args) && Regular(a, at, h) && RegularAll(a, at, args)
             && s.depth >= r.own
    requires var o := GenAll(a, fname, args, g);
             && WFAll(a, fname, args, g, cx.Unsafe()) && o.err == Ok
             && WF(a, fname, h, o.st, cx.Unsafe()) && Gen(a, fname, h, o.st).err == Ok
    ensures Flows(r, GenDispatch(a, fname, h, args, g).code, s, s.Push(One))
            && Keeps(g, GenDispatch(a, fname, h, args, g).st)
    decreases Size(h) + SizeSeq(args), 3
  {
    hide Flows, Gen, GenAll, WF, WFAll, GoodVal, Regular, RegularAll, Stands;
    var o := GenAll(a, fname, args, g);
    var p, t, n := Gen(a, fname, h, o.st), Operands(s, |args|), |args|;
    Anywhere(r, cx.Unsafe(), g, s);
    Anywhere(r, cx.Unsafe(), o.st, t);
    TAll(a, fname, args, g, at, cx.Unsafe(), r, s);
    TExpr(a, fname, h, o.st, at, cx.Unsafe(), r, t);
    FlowJoin(r, o.code, s, t, p.code, t.Push(One));
    TDispatched(r, s, n);
    FlowJoin(r, o.code + p.code, s, t.Push(One), [Dispatch(n)], s.Push(One));
  }

  lemma TDispatched(r: Rules, s: Shape, n: nat)
    requires s.depth >= r.own
    ensures Flows(r, [Dispatch(n)], Operands(s, n).Push(One), s.Push(One))
  {
    TakeOnes(s.slots, n + 1);
    assert s.slots + Ones(n) + [One] == s.slots + Ones(n + 1);
    FlowOne(r, Dispatch(n), Operands(s, n).Push(One), s.Push(One));
  }

  lemma {:induction false} TAll(a: Symbol, fname: string, es: seq<Value>, g: Gst, at: Place, cx: Ctx,
                                r: Rules, s: Shape)
    requires GoodVals(true, es) && RegularAll(a, at, es) && WFAll(a, fname, es, g, cx) && s.depth >= r.own && !cx.safe
    requires GenAll(a, fname, es, g).err == Ok
    ensures Flows(r, GenAll(a, fname, es, g).code, s, Operands(s, |es|)) && Keeps(g, GenAll(a, fname, es, g).st)
    decreases SizeSeq(es), 1
  {
    hide Flows, Gen, WF, GoodVal, Regular, Stands;
    OperandsMore(s, if es == [] then 0 else |es| - 1);
    if es == [] {
      FlowNone(r, s);
    } else {
      var o := Gen(a, fname, es[0], g);
      Anywhere(r, cx, g, s);
      TExpr(a, fname, es[0], g, at, cx, r, s);
      TAll(a, fname, es[1..], o.st, at, cx, r, s.Push(One));
      FlowJoin(r, o.code, s, s.Push(One), GenAll(a, fname, es[1..], o.st).code, Operands(s, |es|));
    }
  }

  lemma {:induction false} TPops(a: Symbol, fname: string, es: seq<Value>, g: Gst, at: Place, cx: Ctx,
                                 r: Rules, s: Shape)
    requires GoodVals(true, es) && RegularAll(a, at, es) && WFAll(a, fname, es, g, cx) && s.depth >= r.own && !cx.safe
    requires GenPops(a, fname, es, g).err == Ok
    ensures Flows(r, GenPops(a, fname, es, g).code, s, s) && Keeps(g, GenPops(a, fname, es, g).st)
    decreases SizeSeq(es), 1
  {
    hide Flows, Gen, WF, GoodVal, Regular, Stands;
    if es == [] {
      FlowNone(r, s);
    } else {
      var o := Gen(a, fname, es[0], g);
      Anywhere(r, cx, g, s);
      TExpr(a, fname, es[0], g, at, cx, r, s);
      TPops(a, fname, es[1..], o.st, at, cx, r, s);
      TPop(r, Pop, s);
      FlowJoin(r, o.code, s, s.Push(One), [Pop], s);
      FlowJoin(r, o.code + [Pop], s, s, GenPops(a, fname, es[1..], o.st).code, s);
    }
  }

  /** What takes one value off. */
  lemma TPop(r: Rules, i: Instr, s: Shape)
    requires s.depth >= r.own && (i.Pop? || i.Put?)
    ensures Flows(r, [i], s.Push(One), s)
  {
    TopOne(s, r.own);
    assert s.slots + [] == s.slots;
    FlowOne(r, i, s.Push(One), s);
  }

  lemma {:induction false} RegularSplit(a: Symbol, at: Place, es: seq<Value>, n: nat)
    requires RegularAll(a, at, es) && n < |es|
    ensures RegularAll(a, at, es[..n]) && Regular(a, at, es[n])
    decreases n
  {
    hide Regular;
    if n > 0 {
      RegularSplit(a, at, es[1..], n - 1);
      assert es[..n][1..] == es[1..][..n - 1];
    }
  }

  lemma {:induction false} TBegin(a: Symbol, fname: string, es: seq<Value>, g: Gst, at: Place, cx: Ctx,
                                  r: Rules, s: Shape)
    requires GoodVals(true, es) && RegularAll(a, at, es) && WFBegin(a, fname, es, g, cx) && Stands(r, cx, g, s)
    requires GenBegin(a, fname, es, g).err == Ok
    ensures Flows(r, GenBegin(a, fname, es, g).code, s, s.Push(One)) && Keeps(g, GenBegin(a, fname, es, g).st)
    decreases SizeSeq(es), 2
  {
    hide Flows, Gen, GenPops, WF, WFAll, GoodVal, Regular, RegularAll;
    var n := |es| - 1;
    SizeAt(es, n);
    RegularSplit(a, at, es, n);
    var g0 := g.(tail := false);
    var o := GenPops(a, fname, es[..n], g0);
    TPops(a, fname, es[..n], g0, at, cx.Unsafe(), r, s);
    TExpr(a, fname, es[n], o.st.(tail := g.tail), at, cx, r, s);
    hide Stands;
    FlowJoin(r, o.code, s, s, Gen(a, fname, es[n], o.st.(tail := g.tail)).code, s.Push(One));
  }

  lemma {:induction false} TShort(a: Symbol, fname: string, or: bool, es: seq<Value>, g: Gst, at: Place,
                                  cx: Ctx, r: Rules, s: Shape)
    requires es != [] && GoodVals(true, es) && RegularAll(a, at, es) && WFShort(a, fname, es, g, cx)
             && Stands(r, cx, g, s)
    requires GenShort(a, fname, or, es, g).err == Ok
    ensures Flows(r, GenShort(a, fname, or, es, g).code, s, s.Push(One)) && Keeps(g, GenShort(a, fname, or, es, g).st)
    decreases SizeSeq(es), 2
  {
    hide Flows, Gen, WF, GoodVal, Regular, Stands;
    SameStart(r, cx, g, s);
    if |es| == 1 {
      TExpr(a, fname, es[0], g, at, cx, r, s);
    } else {
      Anywhere(r, cx.Unsafe(), Gst(false, 0), s);
      TExpr(a, "", es[0], Gst(false, 0), at, cx.Unsafe(), r, s);
      TShort(a, fname, or, es[1..], g, at, cx, r, s);
      FlowShort(r, Gen(a, "", es[0], Gst(false, 0)).code, or, GenShort(a, fname, or, es[1..], g).code, s);
    }
  }

  lemma {:induction false} TCond(a: Symbol, fname: string, es: seq<Value>, g: Gst, at: Place, cx: Ctx,
                                 r: Rules, s: Shape)
    requires |es| % 2 == 1 && GoodVals(true, es) && RegularAll(a, at, es) && WFCond(a, fname, es, g, cx)
             && Stands(r, cx, g, s)
    requires GenCond(a, fname, es, g).err == Ok
    ensures Flows(r, GenCond(a, fname, es, g).code, s, s.Push(One)) && Keeps(g, GenCond(a, fname, es, g).st)
    decreases SizeSeq(es), 2
  {
    hide Flows, Gen, WF, GoodVal, Regular, Stands;
    SameStart(r, cx, g, s);
    if |es| == 1 {
      TExpr(a, fname, es[0], g, at, cx, r, s);
    } else {
      SizeAt(es, 1);
      SizeAt(es, 2);
      RegularTail(a, at, es);
      Anywhere(r, cx.Unsafe(), Gst(false, 0), s);
      TExpr(a, fname, es[0], Gst(false, 0), at, cx.Unsafe(), r, s);
      TExpr(a, fname, es[1], g, at, cx, r, s);
      TCond(a, fname, es[2..], g, at, cx, r, s);
      FlowCond(r, Gen(a, fname, es[0], Gst(false, 0)).code, Gen(a, fname, es[1], g).code,
          GenCond(a, fname, es[2..], g).code, s);
    }
  }

  // ---------- bindings ----------

  lemma {:induction false} TPuts(r: Rules, names: seq<Symbol>, s: Shape)
    requires s.depth >= r.own
    ensures Flows(r, Puts(names), Operands(s, |names|), s)
  {
    hide Flows;
    if names == [] {
      OperandsMore(s, 0);
      FlowNone(r, s);
    } else {
      var n := |names| - 1;
      var t := Operands(s, n);
      assert s.slots + Ones(n) + [One] == s.slots + Ones(n + 1);
      TPop(r, Put(names[n]), t);
      TPuts(r, names[..n], s);
      FlowJoin(r, [Put(names[n])], t.Push(One), t, Puts(names[..n]), s);
    }
  }

  lemma {:induction false} TLetStar(a: Symbol, fname: string, names: seq<Symbol>, rights: seq<Value>, g: Gst,
                                    at: Place, cx: Ctx, r: Rules, s: Shape)
    requires |names| == |rights| && GoodVals(true, rights) && RegularAll(a, at, rights)
             && WFAll(a, fname, rights, g, cx)
    requires s.depth >= r.own && !cx.safe && GenLetStar(a, fname, names, rights, g).err == Ok
    ensures Flows(r, GenLetStar(a, fname, names, rights, g).code, s, s)
            && Keeps(g, GenLetStar(a, fname, names, rights, g).st)
    decreases SizeSeq(rights), 2
  {
    hide Flows, Gen, WF, GoodVal, Regular, Stands;
    if names == [] {
      FlowNone(r, s);
    } else {
      var o := Gen(a, fname, rights[0], g);
      var p := GenLetStar(a, fname, names[1..], rights[1..], o.st);
      Anywhere(r, cx, g, s);
      TExpr(a, fname, rights[0], g, at, cx, r, s);
      TLetStar(a, fname, names[1..], rights[1..], o.st, at, cx, r, s);
      TPop(r, Put(names[0]), s);
      FlowJoin(r, o.code, s, s.Push(One), [Put(names[0])], s);
      FlowJoin(r, o.code + [Put(names[0])], s, s, p.code, s);
    }
  }

  lemma {:induction false} TBindings(a: Symbol, fname: string, star: bool, b: Bindings, g: Gst,
                                     at: Place, cx: Ctx, r: Rules, s: Shape)
    requires b.Bindings? && |b.names| == |b.rights| && GoodVals(true, b.rights) && RegularAll(a, at, b.rights)
    requires WFAll(a, fname, b.rights, g, cx) && s.depth >= r.own && !cx.safe
             && GenBindings(a, fname, star, b, g).err == Ok
    ensures Flows(r, GenBindings(a, fname, star, b, g).code, s, s) && Keeps(g, GenBindings(a, fname, star, b, g).st)
    decreases SizeSeq(b.rights), 3
  {
    hide Flows, GenAll, GenLetStar, WFAll, GoodVal, RegularAll;
    if star {
      TLetStar(a, fname, b.names, b.rights, g, at, cx, r, s);
    } else {
      TAll(a, fname, b.rights, g, at, cx, r, s);
      TPuts(r, b.names, s);
      FlowJoin(r, GenAll(a, fname, b.rights, g).code, s, Operands(s, |b.rights|), Puts(b.names), s);
    }
  }

  lemma LetFlows(r: Rules, x: seq<Instr>, y: seq<Instr>, s: Shape)
    requires s.depth >= r.own
    requires var t := s.(depth := s.depth + 1); Flows(r, x, t, t) && Flows(r, y, t, t.Push(One))
    ensures Flows(r, [AddScope] + x + y + [RemoveScope], s, s.Push(One))
  {
    var t := s.(depth := s.depth + 1);
    FlowOne(r, AddScope, s, t);
    FlowOne(r, RemoveScope, t.Push(One), s.Push(One));
    hide Flows;
    FlowJoin(r, [AddScope], s, t, x, t);
    FlowJoin(r, [AddScope] + x, s, t, y, t.Push(One));
    FlowJoin(r, [AddScope] + x + y, s, t.Push(One), [RemoveScope], s.Push(One));
  }

  lemma {:induction false} TLet(a: Symbol, fname: string, star: bool, args: seq<Value>, g: Gst,
                                at: Place, cx: Ctx, r: Rules, s: Shape)
    requires GoodVals(true, args) && RegularLet(a, at, args) && WFLet(a, fname, star, args, g, cx)
             && Stands(r, cx, g, s)
    requires GenLet(a, fname, star, args, g).err == Ok
    ensures Flows(r, GenLet(a, fname, star, args, g).code, s, s.Push(One))
            && Keeps(g, GenLet(a, fname, star, args, g).st)
    decreases SizeSeq(args), 3
  {
    hide Flows, GenBindings, GenBegin, WFAll, WFBegin, RegularAll, ParseBindings, LetNames, MayBind;
    var b := ParseBindings(args[0].elems);
    SizeAt(args, 0);
    ClosedCode.GoodRights(true, args[0].elems);
    var inner := Wider(at, LetNames(b, args[1..]));
    var cx1, g1, t := cx.(depth := cx.depth + 1), g.(scopes := g.scopes + 1), s.(depth := s.depth + 1);
    var o := GenBindings(a, fname, star, b, g1);
    TBindings(a, fname, star, b, g1, inner, cx1.Unsafe(), r, t);
    assert Stands(r, cx1, o.st, t);
    hide Stands, GoodVal;
    TBegin(a, fname, args[1..], o.st, inner, cx1, r, t);
    LetFlows(r, o.code, GenBegin(a, fname, args[1..], o.st).code, s);
  }

  // ---------- functions ----------

  lemma FlowsWithin(r: Rules, code: seq<Instr>, s: Shape, t: Shape)
    requires Flows(r, code, s, t)
    ensures JumpsWithin(code)
  {
    hide Effect, GoodInstr;
    var ts :| Leads(r, code, ts, s, t);
    forall p | 0 <= p < |code|
      ensures match code[p] case Jump(l) => 0 < l && p + l <= |code| case Branch(_, l) => 0 < l && p + l <= |code|
              case Goto(l) => l == 0 case _ => true
    {
      assert TypedAt(r, code, ts, p);
    }
  }

  /** A function that is regular has a typed body, and so have all functions in it. */
  lemma {:induction false} TFun(a: Symbol, at: Place, may: bool, name: string, num: int,
                                params: seq<Value>, body: seq<Value>)
    requires GoodVals(true, body) && RegularFun(a, at, may, name, num, params, body)
    ensures GoodFun(true, BuildFun(a, name, params, body).fn)
    decreases SizeSeq(body), 3
  {
    hide Flows, GenBegin, WFBegin, GoodVal, Regular, RegularAll, ParseParams, Nested, Mentions;
    var p, fn := ParseParams(params), BuildFun(a, name, params, body).fn;
    var o := GenBegin(a, name, body, Gst(true, 0));
    var cx := Ctx(true, num, p.nargs, false, true, 0);
    if !WFBegin(a, name, body, Gst(true, 0), cx) {
      cx := cx.(loops := true);
    }
    var r, s := FunRules(fn), Shape([], 1);
    assert Stands(r, cx, Gst(true, 0), s);
    hide Stands;
    TBegin(a, name, body, Gst(true, 0), Wider(at, Nums(p.names) + BindsAll(body)), cx, r, s);
    TPuts(r, p.names, s);
    assert s.Push(One) == Shape([One], 1) by {
      assert [] + [One] == [One];
    }
    assert Operands(s, |p.names|) == Shape(Ones(Arity(fn)), 1) by {
      assert [] + Ones(Arity(fn)) == Ones(Arity(fn));
    }
    FlowJoin(r, Puts(p.names), Shape(Ones(Arity(fn)), 1), s, o.code, Shape([One], 1));
    BodyTyped(fn, Puts(p.names) + o.code);
  }

  lemma BodyTyped(f: Function, code: seq<Instr>)
    requires f.fun == code + [Return(false)] && !f.user && f.close.None? && 0 <= f.nargs
    requires Flows(FunRules(f), code, Shape(Ones(Arity(f)), 1), Shape([One], 1))
    ensures GoodFun(true, f)
  {
    var r, end, start := FunRules(f), Shape([One], 1), Shape(Ones(Arity(f)), 1);
    FlowsWithin(r, code, start, end);
    NoFunction(Return(false));
    assert Flows(r, [Return(false)], end, end) by {
      assert Leads(r, [Return(false)], [end, end], end, end);
    }
    hide Effect, GoodInstr, JumpsWithin;
    FlowJoin(r, code, start, end, [Return(false)], end);
    var ts :| Leads(r, f.fun, ts, start, end);
    hide Typed;
    assert Types(f, ts);
    assert f.fun[..|f.fun| - 1] == code;
    assert ClosedBody(f.fun);
  }

  lemma {:induction false} TFn(a: Symbol, args: seq<Value>, at: Place, r: Rules, s: Shape)
    requires GoodVals(true, args) && |args| >= 2 && args[0].Arr? && s.depth >= r.own
    requires RegularFun(a, at, false, ANON, 0, args[0].elems, args[1..])
    ensures Flows(r, [PushClosure(BuildFun(a, ANON, args[0].elems, args[1..]).fn)], s, s.Push(One))
    decreases SizeSeq(args), 3
  {
    hide GoodVal, GoodFun, BuildFun, Flows, RegularFun;
    SizeAt(args, 1);
    TFun(a, at, false, ANON, 0, args[0].elems, args[1..]);
    TStraight(r, PushClosure(BuildFun(a, ANON, args[0].elems, args[1..]).fn), s);
  }

  lemma {:induction false} TDefn(a: Symbol, args: seq<Value>, at: Place, may: bool, r: Rules, s: Shape)
    requires GoodVals(true, args) && |args| >= 3 && args[0].Sym? && args[1].Arr? && s.depth >= r.own
    requires RegularFun(a, at, may, FunName(args[0].sym.name), args[0].sym.num, args[1].elems, args[2..])
    ensures Flows(r, [Push(Fun(BuildFun(a, FunName(args[0].sym.name), args[1].elems, args[2..]).fn)),
            Put(args[0].sym), Push(Null)], s, s.Push(One))
    decreases SizeSeq(args), 3
  {
    hide GoodFun, BuildFun, Flows, RegularFun;
    SizeAt(args, 2);
    var fn := BuildFun(a, FunName(args[0].sym.name), args[1].elems, args[2..]).fn;
    TFun(a, at, may, FunName(args[0].sym.name), args[0].sym.num, args[1].elems, args[2..]);
    TStraight(r, Push(Fun(fn)), s);
    hide GoodVal;
    TBound(r, [Push(Fun(fn))], args[0].sym, s);
    assert [Push(Fun(fn))] + [Put(args[0].sym), Push(Null)] == [Push(Fun(fn)), Put(args[0].sym), Push(Null)];
  }

  /** A value that is bound, and null left. */
  lemma TBound(r: Rules, x: seq<Instr>, name: Symbol, s: Shape)
    requires Flows(r, x, s, s.Push(One)) && s.depth >= r.own
    ensures Flows(r, x + [Put(name), Push(Null)], s, s.Push(One))
  {
    TStraight(r, Push(Null), s);
    hide Flows;
    TPop(r, Put(name), s);
    FlowJoin(r, [Put(name)], s.Push(One), s, [Push(Null)], s.Push(One));
    FlowJoin(r, x, s, s.Push(One), [Put(name)] + [Push(Null)], s.Push(One));
    assert [Put(name)] + [Push(Null)] == [Put(name), Push(Null)];
  }

  // ---------- calls by name ----------

  lemma {:induction false} TRemoves(r: Rules, k: nat, s: Shape)
    requires s.depth == r.own + k
    ensures Flows(r, Removes(k), s, s.(depth := r.own))
    decreases k
  {
    hide Flows;
    if k == 0 {
      FlowNone(r, s);
    } else {
      var t := s.(depth := s.depth - 1);
      FlowOne(r, RemoveScope, s, t);
      TRemoves(r, k - 1, t);
      FlowJoin(r, [RemoveScope], s, t, Removes(k - 1), s.(depth := r.own));
    }
  }

  /** Nothing but the new arguments is on the stack at an emitted jump. */
  lemma TJump(r: Rules, n: nat, t: Shape)
    requires r.loop == Some(n) && t.depth >= r.own
    ensures Flows(r, [Goto(0)], Shape(Ones(n), r.own), t)
  {
    var i := Goto(0);
    assert GoodInstr(true, i);
    assert Leads(r, [i], [Shape(Ones(n), r.own), t], Shape(Ones(n), r.own), t);
  }

  lemma {:induction false} TOrdinary(a: Symbol, fname: string, x: Symbol, args: seq<Value>, g: Gst,
                                     at: Place, cx: Ctx, r: Rules, s: Shape)
    requires GoodVals(true, args) && RegularAll(a, at, args) && FormOf(x.name) == Ordinary
    requires WFForm(a, fname, x, args, g, cx) && Stands(r, cx, g, s) && GenForm(a, fname, x, args, g).err == Ok
    ensures Flows(r, GenForm(a, fname, x, args, g).code, s, s.Push(One)) && Keeps(g, GenForm(a, fname, x, args, g).st)
    decreases SizeSeq(args), 3
  {
    hide Flows, GenAll, WFAll, GoodVal, RegularAll, FormOf;
    var g0 := g.(tail := false);
    var o, n := GenAll(a, fname, args, g0), |args|;
    TAll(a, fname, args, g0, at, cx.Unsafe(), r, s);
    var t := Operands(s, n);
    if g.tail && x.name == fname {
      var d := cx.depth;
      assert t == Shape(Ones(n), r.own + d) by {
        assert [] + Ones(n) == Ones(n);
      }
      hide Stands;
      TRemoves(r, d, t);
      TJump(r, n, s.Push(One));
      FlowJoin(r, Removes(d), t, t.(depth := r.own), [Goto(0)], s.Push(One));
      FlowJoin(r, o.code, s, t, Removes(d) + [Goto(0)], s.Push(One));
    } else {
      hide Stands;
      TCall(r, Call(x, n), s, n);
      FlowJoin(r, o.code, s, t, [Call(x, n)], s.Push(One));
    }
  }

  lemma {:induction false} TForm(a: Symbol, fname: string, x: Symbol, args: seq<Value>, g: Gst,
                                 at: Place, cx: Ctx, r: Rules, s: Shape)
    requires GoodVals(true, args) && RegularForm(a, at, x, args) && WFForm(a, fname, x, args, g, cx)
             && Stands(r, cx, g, s)
    requires GenForm(a, fname, x, args, g).err == Ok
    ensures Flows(r, GenForm(a, fname, x, args, g).code, s, s.Push(One)) && Keeps(g, GenForm(a, fname, x, args, g).st)
    decreases SizeSeq(args), 4
  {
    hide Flows, Gen, GenAll, GenShort, GenCond, GenBegin, GenLet, GenQuasi, BuildFun, FormOf, MayBind, Stands;
    hide WF, WFAll, WFShort, WFCond, WFBegin, WFLet, WFQuasi, Regular, RegularAll, RegularFun, RegularLet, RegularQuasi;
    SameStart(r, cx, g, s);
    if FormOf(x.name).Ordinary? {
      TOrdinary(a, fname, x, args, g, at, cx, r, s);
      return;
    }
    match FormOf(x.name)
    case And => TShort(a, fname, false, args, g, at, cx, r, s);
    case Or => TShort(a, fname, true, args, g, at, cx, r, s);
    case Cond => TCond(a, fname, args, g, at, cx, r, s);
    case Quote =>
      assert GenForm(a, fname, x, args, g).code == [Push(args[0])];
      TStraight(r, Push(args[0]), s);
    case Def => TDef(a, fname, args, g, at, cx, r, s);
    case Fn => TFn(a, args, Enclosed(at), r, s);
    case Defn => TDefn(a, args, Apart(at), MayLoop(at, args[0].sym.num), r, s);
    case Begin => TBegin(a, fname, args, g, at, cx, r, s);
    case Let => TLet(a, fname, false, args, g, Enclosed(at), cx, r, s);
    case LetStar => TLet(a, fname, true, args, g, Enclosed(at), cx, r, s);
    case Assert => TAssert(a, fname, args, g, at, cx, r, s);
    case SyntaxQuote =>
      SizeAt(args, 0);
      var k := TQuasi(a, fname, args[0], g, at, cx.Unsafe(), r, s);
    case _ =>
  }

  lemma {:induction false} TDef(a: Symbol, fname: string, args: seq<Value>, g: Gst, at: Place, cx: Ctx,
                                r: Rules, s: Shape)
    requires GoodVals(true, args) && RegularAll(a, at, args) && |args| == 2 && args[0].Sym? && s.depth >= r.own
    requires WF(a, fname, args[1], g.(tail := false), cx.Unsafe())
             && Gen(a, fname, args[1], g.(tail := false)).err == Ok
    ensures var o := Gen(a, fname, args[1], g.(tail := false));
            Flows(r, o.code + [Put(args[0].sym), Push(Null)], s, s.Push(One)) && Keeps(g, o.st)
    decreases SizeSeq(args), 3
  {
    hide Flows, Gen, WF, GoodVal, Regular, Stands;
    SizeAt(args, 1);
    Anywhere(r, cx.Unsafe(), g.(tail := false), s);
    RegularTail(a, at, args);
    TExpr(a, fname, args[1], g.(tail := false), at, cx.Unsafe(), r, s);
    TBound(r, Gen(a, fname, args[1], g.(tail := false)).code, args[0].sym, s);
  }

  lemma {:induction false} TAssert(a: Symbol, fname: string, args: seq<Value>, g: Gst, at: Place,
                                   cx: Ctx, r: Rules, s: Shape)
    requires GoodVals(true, args) && RegularAll(a, at, args) && |args| == 1 && s.depth >= r.own
    requires WF(a, fname, args[0], g, cx.Unsafe()) && Gen(a, fname, args[0], g).err == Ok
    ensures var o := Gen(a, fname, args[0], g);
            Flows(r, o.code + [Branch(true, 2), Return(true), Push(Null)], s, s.Push(One)) && Keeps(g, o.st)
    decreases SizeSeq(args), 3
  {
    hide Flows, Gen, WF, GoodVal, Regular, Stands;
    SizeAt(args, 0);
    Anywhere(r, cx.Unsafe(), g, s);
    TExpr(a, fname, args[0], g, at, cx.Unsafe(), r, s);
    FlowAssert(r, Gen(a, fname, args[0], g).code, s);
  }

  // ---------- templates ----------

  lemma {:induction false} TopMark(slots: seq<Slot>, more: seq<Slot>)
    requires Mark !in more
    ensures BelowMark(slots + [Mark] + more) == Some(slots)
    decreases |more|
  {
    var all := slots + [Mark] + more;
    if more == [] {
      assert all[..|all| - 1] == slots;
    } else {
      var n := |more| - 1;
      assert all[..|all| - 1] == slots + [Mark] + more[..n];
      TopMark(slots, more[..n]);
    }
  }

  function Plus(s: Shape, more: seq<Slot>): Shape {
    s.(slots := s.slots + more)
  }

  /** Between a marker and the instruction that gathers. */
  lemma TGathered(r: Rules, code: seq<Instr>, s: Shape, more: seq<Slot>, i: Instr)
    requires Flows(r, code, s.Push(Mark), Plus(s.Push(Mark), more)) && Mark !in more && s.depth >= r.own
    requires i == Squash || i == Vectorize
    ensures Flows(r, [Push(Marker)] + code + [i], s, s.Push(One))
  {
    TopMark(s.slots, more);
    FlowOne(r, Push(Marker), s, s.Push(Mark));
    FlowOne(r, i, Plus(s.Push(Mark), more), s.Push(One));
    hide Flows;
    FlowJoin(r, [Push(Marker)], s, s.Push(Mark), code, Plus(s.Push(Mark), more));
    FlowJoin(r, [Push(Marker)] + code, s, Plus(s.Push(Mark), more), [i], s.Push(One));
  }

  lemma TExploded(r: Rules, code: seq<Instr>, s: Shape)
    requires Flows(r, code, s, s.Push(One)) && s.depth >= r.own
    ensures Flows(r, code + [Explode], s, s.Push(Many))
  {
    TopOne(s, r.own);
    FlowOne(r, Explode, s.Push(One), s.Push(Many));
    hide Flows;
    FlowJoin(r, code, s, s.Push(One), [Explode], s.Push(Many));
  }

  lemma {:induction false} TQuasi(a: Symbol, fname: string, x: Value, g: Gst, at: Place, cx: Ctx,
                                  r: Rules, s: Shape)
    returns (k: Slot)
    requires GoodVal(true, x) && RegularQuasi(a, at, x) && WFQuasi(a, fname, x, g, cx) && s.depth >= r.own && !cx.safe
    requires GenQuasi(a, fname, x, g).err == Ok
    ensures Flows(r, GenQuasi(a, fname, x, g).code, s, s.Push(k)) && Keeps(g, GenQuasi(a, fname, x, g).st)
    ensures k != Mark && (!Splice(x) ==> k == One)
    decreases Size(x), 1
  {
    hide Flows, Gen, GenQuasiAll, GenQuasiEach, WF, WFQuasiAll, Regular, RegularQuasiAll, Stands;
    Anywhere(r, cx, g, s);
    k := One;
    if x.Arr? {
      var more := TQuasiEach(a, fname, x.elems, g, at, cx, r, s.Push(Mark));
      TGathered(r, GenQuasiEach(a, fname, x.elems, g).code, s, more, Vectorize);
    } else if x.Pair? && IsList(x) {
      var es := Elems(x);
      GoodElems(true, x);
      if IsUnquote(es, "unquote") {
        SizeAt(es, 1);
        TExpr(a, fname, es[1], g, at, cx, r, s);
      } else if IsUnquote(es, "unquote-splicing") {
        SizeAt(es, 1);
        TExpr(a, fname, es[1], g, at, cx, r, s);
        TExploded(r, Gen(a, fname, es[1], g).code, s);
        k := Many;
      } else {
        var more := TQuasiAll(a, fname, es, g, at, cx, r, s.Push(Mark));
        TGathered(r, GenQuasiAll(a, fname, es, g).code, s, more, Squash);
      }
    } else {
      TStraight(r, Push(x), s);
    }
  }

  lemma PlusMore(s: Shape, k: Slot, more: seq<Slot>)
    ensures Plus(s.Push(k), more) == Plus(s, [k] + more) && Plus(s, []) == s
  {
    assert s.slots + [k] + more == s.slots + ([k] + more) && s.slots + [] == s.slots;
  }

  lemma {:induction false} TQuasiAll(a: Symbol, fname: string, xs: seq<Value>, g: Gst, at: Place,
                                     cx: Ctx, r: Rules, s: Shape)
    returns (more: seq<Slot>)
    requires GoodVals(true, xs) && RegularQuasiAll(a, at, xs) && WFQuasiAll(a, fname, xs, g, cx) && s.depth >= r.own
             && !cx.safe
    requires GenQuasiAll(a, fname, xs, g).err == Ok
    ensures Flows(r, GenQuasiAll(a, fname, xs, g).code, s, Plus(s, more)) && Keeps(g, GenQuasiAll(a, fname, xs, g).st)
    ensures Mark !in more
    decreases SizeSeq(xs), 2
  {
    hide Flows, GenQuasi, WFQuasi, RegularQuasi, GoodVal;
    PlusMore(s, One, []);
    if xs == [] {
      FlowNone(r, s);
      more := [];
    } else {
      var o := GenQuasi(a, fname, xs[0], g);
      var k := TQuasi(a, fname, xs[0], g, at, cx, r, s);
      var rest := TQuasiAll(a, fname, xs[1..], o.st, at, cx, r, s.Push(k));
      PlusMore(s, k, rest);
      FlowJoin(r, o.code, s, s.Push(k), GenQuasiAll(a, fname, xs[1..], o.st).code, Plus(s, [k] + rest));
      more := [k] + rest;
    }
  }

  lemma {:induction false} TQuasiEach(a: Symbol, fname: string, xs: seq<Value>, g: Gst, at: Place,
                                      cx: Ctx, r: Rules, s: Shape)
    returns (more: seq<Slot>)
    requires GoodVals(true, xs) && RegularQuasiAll(a, at, xs) && WFQuasiAll(a, fname, xs, g, cx) && s.depth >= r.own
             && !cx.safe
    requires GenQuasiEach(a, fname, xs, g).err == Ok
    ensures Flows(r, GenQuasiEach(a, fname, xs, g).code, s, Plus(s, more)) && Keeps(g, GenQuasiEach(a, fname, xs, g).st)
    ensures Mark !in more
    decreases SizeSeq(xs), 2
  {
    hide Flows, GenQuasi, WFQuasi, RegularQuasi, GoodVal;
    PlusMore(s, One, []);
    if xs == [] {
      FlowNone(r, s);
      more := [];
    } else {
      var o, p := GenQuasi(a, fname, xs[0], g), GenQuasiEach(a, fname, xs[1..], GenQuasi(a, fname, xs[0], g).st);
      var t := s.Push(Mark);
      var k := TQuasi(a, fname, xs[0], g, at, cx, r, t);
      PlusMore(t, k, []);
      TGathered(r, o.code, s, [k], Squash);
      TExploded(r, [Push(Marker)] + o.code + [Squash], s);
      assert [Push(Marker)] + o.code + [Squash] + [Explode] == [Push(Marker)] + o.code + [Squash, Explode];
      var rest := TQuasiEach(a, fname, xs[1..], o.st, at, cx, r, s.Push(Many));
      PlusMore(s, Many, rest);
      FlowJoin(r, [Push(Marker)] + o.code + [Squash, Explode], s, s.Push(Many), p.code, Plus(s, [Many] + rest));
      more := [Many] + rest;
    }
  }
}
