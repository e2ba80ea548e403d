/** Whatever the generator emits, jumps out of none of it: also where it drops errors and
    keeps half of the code, and wherever it leaves `tail` set. */
module ClosedCode {
  import opened Sexps
  import opened Instructions
  import opened Codegen
  import opened Sealing

  ghost predicate Sealed(code: seq<Instr>) {
    JumpsWithin(code) && forall p | 0 <= p < |code| :: GoodInstr(false, code[p])
  }

  lemma SealedJoin(x: seq<Instr>, y: seq<Instr>)
    requires Sealed(x) && Sealed(y)
    ensures Sealed(x + y)
  {
    hide GoodInstr;
    var z := x + y;
    forall p | 0 <= p < |z| ensures GoodInstr(false, z[p]) {
      assert z[p] == if p < |x| then x[p] else y[p - |x|];
    }
  }

  /** An instruction that does not jump, and holds no bad function. */
  predicate Straight(i: Instr) {
    !i.Jump? && !i.Branch? && !i.PushClosure? && (i.Goto? ==> i.loc == 0) && (i.Push? ==> i.e.Null? || i.e.Marker?)
  }

  lemma SealedStraight(code: seq<Instr>)
    requires forall p | 0 <= p < |code| :: Straight(code[p])
    ensures Sealed(code)
  {
    forall p | 0 <= p < |code| ensures GoodInstr(false, code[p]) {
      assert Straight(code[p]);
    }
  }

  lemma SealedPush(e: Value)
    requires GoodVal(false, e)
    ensures Sealed([Push(e)])
  {
  }

  lemma {:induction false} PutsStraight(names: seq<Symbol>)
    ensures forall p | 0 <= p < |names| :: Straight(Puts(names)[p])
  {
    if names != [] {
      PutsStraight(names[..|names| - 1]);
    }
  }

  lemma GoodElements(e: Value)
    requires IsList(e) && GoodVal(false, e)
    ensures GoodVals(false, Elems(e))
  {
    GoodElems(false, e);
  }

  lemma {:induction false} GoodRights(strict: bool, es: seq<Value>)
    requires GoodVals(strict, es) && ParseBindings(es).Bindings?
    ensures GoodVals(strict, ParseBindings(es).rights)
  {
    hide GoodVal;
    if es != [] {
      GoodRights(strict, es[2..]);
    }
  }

  lemma {:induction false} GenClosed(a: Symbol, fname: string, e: Value, g: Gst)
    requires GoodVal(false, e)
    ensures Sealed(Gen(a, fname, e, g).code)
    decreases Size(e), 0
  {
    hide Sealed, GenForm, GenDispatch, GenAll;
    match e
    case Sym(s) => SealedStraight([Get(s)]);
    case Pair(h, t) =>
      if !IsList(e) {
        SealedPush(e);
      } else {
        GoodElements(t);
        if h.Sym? {
          FormClosed(a, fname, h.sym, Elems(t), g);
        } else {
          DispatchClosed(a, fname, h, Elems(t), g);
        }
      }
    case Arr(es) =>
      AllClosed(a, fname, es, g);
      SealedStraight([Call(a, |es|)]);
      SealedJoin(GenAll(a, fname, es, g).code, [Call(a, |es|)]);
    case _ => SealedPush(e);
  }

  lemma {:induction false} DispatchClosed(a: Symbol, fname: string, h: Value, args: seq<Value>, g: Gst)
    requires GoodVal(false, h) && GoodVals(false, args)
    ensures Sealed(GenDispatch(a, fname, h, args, g).code)
    decreases Size(h) + SizeSeq(args), 3
  {
    hide Sealed, Gen, GenAll, GoodVal;
    var o := GenAll(a, fname, args, g);
    AllClosed(a, fname, args, g);
    if o.err == Ok || o.err == Failed {
      var p := Gen(a, fname, h, o.st);
      GenClosed(a, fname, h, o.st);
      SealedJoin(o.code, p.code);
      SealedStraight([Dispatch(|args|)]);
      SealedJoin(o.code + p.code, [Dispatch(|args|)]);
    }
  }

  lemma {:induction false} AllClosed(a: Symbol, fname: string, es: seq<Value>, g: Gst)
    requires GoodVals(false, es)
    ensures Sealed(GenAll(a, fname, es, g).code)
    decreases SizeSeq(es), 1
  {
    hide Sealed, Gen, GoodVal;
    if es == [] {
      SealedStraight([]);
    } else {
      var o := Gen(a, fname, es[0], g);
      GenClosed(a, fname, es[0], g);
      if o.err == Ok {
        AllClosed(a, fname, es[1..], o.st);
        SealedJoin(o.code, GenAll(a, fname, es[1..], o.st).code);
      }
    }
  }

  lemma {:induction false} PopsClosed(a: Symbol, fname: string, es: seq<Value>, g: Gst)
    requires GoodVals(false, es)
    ensures Sealed(GenPops(a, fname, es, g).code)
    decreases SizeSeq(es), 1
  {
    hide Sealed, Gen, GoodVal;
    if es == [] {
      SealedStraight([]);
    } else {
      var o := Gen(a, fname, es[0], g);
      GenClosed(a, fname, es[0], g);
      if o.err == Ok {
        PopsClosed(a, fname, es[1..], o.st);
        SealedStraight([Pop]);
        SealedJoin(o.code, [Pop]);
        SealedJoin(o.code + [Pop], GenPops(a, fname, es[1..], o.st).code);
      }
    }
  }

  lemma {:induction false} BeginClosed(a: Symbol, fname: string, es: seq<Value>, g: Gst)
    requires GoodVals(false, es)
    ensures Sealed(GenBegin(a, fname, es, g).code)
    decreases SizeSeq(es), 2
  {
    hide Sealed, Gen, GenPops, GoodVal;
    if es == [] {
      SealedStraight([]);
    } else {
      var n := |es| - 1;
      SizeAt(es, n);
      var o := GenPops(a, fname, es[..n], g.(tail := false));
      PopsClosed(a, fname, es[..n], g.(tail := false));
      if o.err == Ok {
        var g' := o.st.(tail := g.tail);
        GenClosed(a, fname, es[n], g');
        SealedJoin(o.code, Gen(a, fname, es[n], g').code);
      }
    }
  }

  /** A compiled function can be left only through its `return`. */
  lemma {:induction false} BuildClosed(a: Symbol, name: string, params: seq<Value>, body: seq<Value>)
    requires GoodVals(false, body)
    ensures GoodFun(false, BuildFun(a, name, params, body).fn)
    decreases SizeSeq(body), 3
  {
    hide GenBegin, GoodVal;
    var b := BuildFun(a, name, params, body);
    if b.err == Ok {
      var o := GenBegin(a, name, body, Gst(true, 0));
      var puts := Puts(ParseParams(params).names);
      BeginClosed(a, name, body, Gst(true, 0));
      PutsStraight(ParseParams(params).names);
      SealedStraight(puts);
      SealedJoin(puts, o.code);
      BodyClosed(b.fn, puts + o.code);
    }
  }

  lemma BodyClosed(f: Function, code: seq<Instr>)
    requires Sealed(code) && f.fun == code + [Return(false)] && !f.user && f.close.None?
    ensures GoodFun(false, f)
  {
    assert f.fun[..|f.fun| - 1] == code;
    forall p | 0 <= p < |f.fun| ensures GoodInstr(false, f.fun[p]) {
      assert f.fun[p] == if p < |code| then code[p] else Return(false);
    }
  }

  /** A branch and a jump over what follows them. */
  lemma SealedOver(i: Instr, rest: seq<Instr>)
    requires Sealed(rest)
    requires i == Jump(|rest| + 1) || i == Branch(true, |rest| + 1) || i == Branch(false, |rest| + 1)
    ensures Sealed([i] + rest)
  {
    hide GoodInstr;
    var z := [i] + rest;
    forall p | 0 <= p < |z| ensures GoodInstr(false, z[p]) {
      NoFunction(i);
      assert z[p] == if p == 0 then i else rest[p - 1];
    }
  }

  lemma NoFunction(i: Instr)
    requires i.Jump? || i.Branch?
    ensures GoodInstr(false, i)
  {
  }

  lemma {:induction false} ShortClosed(a: Symbol, fname: string, or: bool, args: seq<Value>, g: Gst)
    requires args != [] && GoodVals(false, args)
    ensures Sealed(GenShort(a, fname, or, args, g).code)
    decreases SizeSeq(args), 3
  {
    hide Sealed, Gen, GoodVal;
    if |args| == 1 {
      GenClosed(a, fname, args[0], g);
    } else {
      var rest := GenShort(a, fname, or, args[1..], g);
      ShortClosed(a, fname, or, args[1..], g);
      if rest.err == Ok {
        var p := Gen(a, "", args[0], Gst(false, 0));
        GenClosed(a, "", args[0], Gst(false, 0));
        ShortPieces(p.code, or, rest.code);
      }
    }
  }

  lemma ShortPieces(p: seq<Instr>, or: bool, rest: seq<Instr>)
    requires Sealed(p) && Sealed(rest)
    ensures Sealed(p + [Dup, Branch(or, |rest| + 2), Pop] + rest)
  {
    hide Sealed;
    SealedStraight([Dup]);
    SealedStraight([Pop]);
    SealedJoin([Pop], rest);
    SealedOver(Branch(or, |rest| + 2), [Pop] + rest);
    SealedJoin([Dup], [Branch(or, |rest| + 2)] + ([Pop] + rest));
    SealedJoin(p, [Dup] + ([Branch(or, |rest| + 2)] + ([Pop] + rest)));
    assert p + ([Dup] + ([Branch(or, |rest| + 2)] + ([Pop] + rest))) == p + [Dup, Branch(or, |rest| + 2), Pop] + rest;
  }

  lemma CondPieces(p: seq<Instr>, b: seq<Instr>, rest: seq<Instr>)
    requires Sealed(p) && Sealed(b) && Sealed(rest)
    ensures Sealed(p + [Branch(false, |b| + 2)] + b + [Jump(|rest| + 1)] + rest)
  {
    hide GoodInstr;
    var z := p + [Branch(false, |b| + 2)] + b + [Jump(|rest| + 1)] + rest;
    NoFunction(Branch(false, |b| + 2));
    NoFunction(Jump(|rest| + 1));
    var n, k := |p|, |p| + 1 + |b|;
    forall i | 0 <= i < |z|
      ensures z[i] == if i < n then p[i] else if i == n then Branch(false, |b| + 2) else if i < k then b[i - n - 1]
                      else if i == k then Jump(|rest| + 1) else rest[i - k - 1]
    {
    }
  }

  lemma {:induction false} CondClosed(a: Symbol, fname: string, args: seq<Value>, g: Gst)
    requires |args| % 2 == 1 && GoodVals(false, args)
    ensures Sealed(GenCond(a, fname, args, g).code)
    decreases SizeSeq(args), 3
  {
    hide Sealed, Gen, GoodVal;
    SealedStraight([]);
    if |args| == 1 {
      GenClosed(a, fname, args[0], g);
    } else {
      SizeAt(args, 1);
      SizeAt(args, 2);
      CondClosed(a, fname, args[2..], g);
      GenClosed(a, fname, args[0], Gst(false, 0));
      GenClosed(a, fname, args[1], g);
      var p, b := Gen(a, fname, args[0], Gst(false, 0)).code, Gen(a, fname, args[1], g).code;
      var rest, all := GenCond(a, fname, args[2..], g).code, GenCond(a, fname, args, g).code;
      assert all == [] || all == rest
             || all == p + [Branch(false, |b| + 2)] + b + [Jump(|rest| + 1)] + rest;
      hide GenCond, GoodVals;
      CondPieces(p, b, rest);
    }
  }

  lemma {:induction false} LetStarClosed(a: Symbol, fname: string, names: seq<Symbol>, rights: seq<Value>, g: Gst)
    requires |names| == |rights| && GoodVals(false, rights)
    ensures Sealed(GenLetStar(a, fname, names, rights, g).code)
    decreases SizeSeq(rights), 1
  {
    hide Sealed, Gen, GoodVal;
    if names == [] {
      SealedStraight([]);
    } else {
      var o := Gen(a, fname, rights[0], g);
      GenClosed(a, fname, rights[0], g);
      if o.err == Ok {
        LetStarClosed(a, fname, names[1..], rights[1..], o.st);
        SealedStraight([Put(names[0])]);
        SealedJoin(o.code, [Put(names[0])]);
        SealedJoin(o.code + [Put(names[0])], GenLetStar(a, fname, names[1..], rights[1..], o.st).code);
      }
    }
  }

  lemma {:induction false} BindingsClosed(a: Symbol, fname: string, star: bool, b: Bindings, g: Gst)
    requires b.Bindings? && |b.names| == |b.rights| && GoodVals(false, b.rights)
    ensures Sealed(GenBindings(a, fname, star, b, g).code)
    decreases SizeSeq(b.rights), 2
  {
    hide Sealed, GenAll, GenLetStar, GoodVal;
    if star {
      LetStarClosed(a, fname, b.names, b.rights, g);
    } else {
      AllClosed(a, fname, b.rights, g);
      PutsStraight(b.names);
      SealedStraight(Puts(b.names));
      SealedJoin(GenAll(a, fname, b.rights, g).code, Puts(b.names));
    }
  }

  lemma {:induction false} LetClosed(a: Symbol, fname: string, star: bool, args: seq<Value>, g: Gst)
    requires GoodVals(false, args)
    ensures Sealed(GenLet(a, fname, star, args, g).code)
    decreases SizeSeq(args), 3
  {
    hide Sealed, GenBindings, GenBegin;
    SealedStraight([]);
    if |args| >= 2 && args[0].Arr? {
      var b := ParseBindings(args[0].elems);
      if b.Bindings? {
        SizeAt(args, 0);
        GoodRights(false, args[0].elems);
        var g1 := g.(scopes := g.scopes + 1);
        var o := GenBindings(a, fname, star, b, g1);
        BindingsClosed(a, fname, star, b, g1);
        BeginClosed(a, fname, args[1..], o.st);
        hide GoodVal;
        LetPieces(o.code, GenBegin(a, fname, args[1..], o.st).code);
      }
    }
  }

  lemma LetPieces(x: seq<Instr>, y: seq<Instr>)
    requires Sealed(x) && Sealed(y)
    ensures Sealed([AddScope] + x) && Sealed([AddScope] + x + y) && Sealed([AddScope] + x + y + [RemoveScope])
  {
    hide Sealed;
    SealedStraight([AddScope]);
    SealedStraight([RemoveScope]);
    SealedJoin([AddScope], x);
    SealedJoin([AddScope] + x, y);
    SealedJoin([AddScope] + x + y, [RemoveScope]);
  }

  lemma QuoteClosed(args: seq<Value>)
    requires GoodVals(false, args)
    ensures Sealed(seq(|args|, i requires 0 <= i < |args| => Push(args[i])))
  {
  }

  lemma {:induction false} FormClosed(a: Symbol, fname: string, s: Symbol, args: seq<Value>, g: Gst)
    requires GoodVals(false, args)
    ensures Sealed(GenForm(a, fname, s, args, g).code)
    decreases SizeSeq(args), 4
  {
    hide Sealed, Gen, GenAll, GenShort, GenCond, GenBegin, GenLet, GenQuasi, BuildFun, FormOf;
    SealedStraight([]);
    match FormOf(s.name)
    case And => if args != [] { ShortClosed(a, fname, false, args, g); }
    case Or => if args != [] { ShortClosed(a, fname, true, args, g); }
    case Cond => if |args| % 2 == 1 { CondClosed(a, fname, args, g); }
    case Quote => QuoteClosed(args);
    case Def => if |args| == 2 && args[0].Sym? { DefClosed(a, fname, args, g); }
    case Fn => if |args| >= 2 && args[0].Arr? { FnClosed(a, args); }
    case Defn => if |args| >= 3 && args[1].Arr? && args[0].Sym? { DefnClosed(a, args); }
    case Begin => BeginClosed(a, fname, args, g);
    case Let => LetClosed(a, fname, false, args, g);
    case LetStar => LetClosed(a, fname, true, args, g);
    case Assert => if |args| == 1 { AssertClosed(a, fname, args, g); }
    case SyntaxQuote => if |args| == 1 { SizeAt(args, 0); QuasiClosed(a, fname, args[0], g); }
    case Elsewhere =>
    case Ordinary => OrdinaryClosed(a, fname, s, args, g);
  }

  lemma {:induction false} DefClosed(a: Symbol, fname: string, args: seq<Value>, g: Gst)
    requires GoodVals(false, args) && |args| == 2 && args[0].Sym?
    ensures var o := Gen(a, fname, args[1], g.(tail := false));
            Sealed(o.code) && Sealed(o.code + [Put(args[0].sym), Push(Null)])
    decreases SizeSeq(args), 3
  {
    hide Sealed, Gen, GoodVal;
    SizeAt(args, 1);
    GenClosed(a, fname, args[1], g.(tail := false));
    SealedStraight([Put(args[0].sym), Push(Null)]);
    SealedJoin(Gen(a, fname, args[1], g.(tail := false)).code, [Put(args[0].sym), Push(Null)]);
  }

  lemma {:induction false} FnClosed(a: Symbol, args: seq<Value>)
    requires GoodVals(false, args) && |args| >= 2 && args[0].Arr?
    ensures Sealed([PushClosure(BuildFun(a, ANON, args[0].elems, args[1..]).fn)])
    decreases SizeSeq(args), 3
  {
    hide GoodVal, GoodFun, BuildFun;
    SizeAt(args, 1);
    BuildClosed(a, ANON, args[0].elems, args[1..]);
  }

  lemma {:induction false} DefnClosed(a: Symbol, args: seq<Value>)
    requires GoodVals(false, args) && |args| >= 3 && args[1].Arr? && args[0].Sym?
    ensures Sealed([Push(Fun(BuildFun(a, FunName(args[0].sym.name), args[1].elems, args[2..]).fn)), Put(args[0].sym),
            Push(Null)])
    decreases SizeSeq(args), 3
  {
    hide GoodFun, BuildFun, Sealed;
    SizeAt(args, 2);
    var fn := BuildFun(a, FunName(args[0].sym.name), args[1].elems, args[2..]).fn;
    BuildClosed(a, FunName(args[0].sym.name), args[1].elems, args[2..]);
    SealedPush(Fun(fn));
    SealedStraight([Put(args[0].sym), Push(Null)]);
    SealedJoin([Push(Fun(fn))], [Put(args[0].sym), Push(Null)]);
    assert [Push(Fun(fn))] + [Put(args[0].sym), Push(Null)] == [Push(Fun(fn)), Put(args[0].sym), Push(Null)];
  }

  lemma {:induction false} AssertClosed(a: Symbol, fname: string, args: seq<Value>, g: Gst)
    requires GoodVals(false, args) && |args| == 1
    ensures var o := Gen(a, fname, args[0], g);
            Sealed(o.code) && Sealed(o.code + [Branch(true, 2), Return(true), Push(Null)])
    decreases SizeSeq(args), 3
  {
    hide Sealed, Gen, GoodVal;
    SizeAt(args, 0);
    GenClosed(a, fname, args[0], g);
    SealedStraight([Push(Null)]);
    SealedStraight([Return(true)]);
    SealedOver(Branch(true, 2), [Return(true)]);
    SealedJoin([Branch(true, 2)] + [Return(true)], [Push(Null)]);
    assert [Branch(true, 2)] + [Return(true)] + [Push(Null)] == [Branch(true, 2), Return(true), Push(Null)];
    SealedJoin(Gen(a, fname, args[0], g).code, [Branch(true, 2), Return(true), Push(Null)]);
  }

  lemma {:induction false} OrdinaryClosed(a: Symbol, fname: string, s: Symbol, args: seq<Value>, g: Gst)
    requires GoodVals(false, args)
    ensures var o := GenAll(a, fname, args, g.(tail := false));
            Sealed(o.code) && Sealed(o.code + (Removes(o.st.scopes) + [Goto(0)])) && Sealed(o.code + [Call(s, |args|)])
    decreases SizeSeq(args), 3
  {
    hide Sealed, GenAll, GoodVal;
    var o := GenAll(a, fname, args, g.(tail := false));
    AllClosed(a, fname, args, g.(tail := false));
    var jump := Removes(o.st.scopes) + [Goto(0)];
    SealedStraight(jump);
    SealedJoin(o.code, jump);
    SealedStraight([Call(s, |args|)]);
    SealedJoin(o.code, [Call(s, |args|)]);
  }

  lemma {:induction false} QuasiClosed(a: Symbol, fname: string, x: Value, g: Gst)
    requires GoodVal(false, x)
    ensures Sealed(GenQuasi(a, fname, x, g).code)
    decreases Size(x), 1
  {
    hide Sealed, Gen, GenQuasiAll, GenQuasiEach;
    SealedStraight([Push(Marker)]);
    SealedStraight([Explode]);
    SealedStraight([Squash]);
    SealedStraight([Vectorize]);
    if x.Arr? {
      QuasiEachClosed(a, fname, x.elems, g);
      var o := GenQuasiEach(a, fname, x.elems, g);
      SealedJoin([Push(Marker)], o.code);
      SealedJoin([Push(Marker)] + o.code, [Vectorize]);
    } else if x.Pair? && IsList(x) {
      var es := Elems(x);
      GoodElements(x);
      if IsUnquote(es, "unquote") || IsUnquote(es, "unquote-splicing") {
        SizeAt(es, 1);
        GenClosed(a, fname, es[1], g);
        SealedJoin(Gen(a, fname, es[1], g).code, [Explode]);
      } else {
        QuasiAllClosed(a, fname, es, g);
        var o := GenQuasiAll(a, fname, es, g);
        SealedJoin([Push(Marker)], o.code);
        SealedJoin([Push(Marker)] + o.code, [Squash]);
      }
    } else {
      SealedPush(x);
    }
  }

  lemma {:induction false} QuasiAllClosed(a: Symbol, fname: string, xs: seq<Value>, g: Gst)
    requires GoodVals(false, xs)
    ensures Sealed(GenQuasiAll(a, fname, xs, g).code)
    decreases SizeSeq(xs), 2
  {
    hide Sealed, GenQuasi, GoodVal;
    if xs == [] {
      SealedStraight([]);
    } else {
      var o := GenQuasi(a, fname, xs[0], g);
      QuasiClosed(a, fname, xs[0], g);
      if o.err == Ok {
        QuasiAllClosed(a, fname, xs[1..], o.st);
        SealedJoin(o.code, GenQuasiAll(a, fname, xs[1..], o.st).code);
      }
    }
  }

  lemma {:induction false} QuasiEachClosed(a: Symbol, fname: string, xs: seq<Value>, g: Gst)
    requires GoodVals(false, xs)
    ensures Sealed(GenQuasiEach(a, fname, xs, g).code)
    decreases SizeSeq(xs), 2
  {
    hide Sealed, GenQuasi, GoodVal;
    if xs == [] {
      SealedStraight([]);
    } else {
      var o := GenQuasi(a, fname, xs[0], g);
      QuasiClosed(a, fname, xs[0], g);
      if o.err == Ok {
        QuasiEachClosed(a, fname, xs[1..], o.st);
        SealedStraight([Push(Marker)]);
        SealedStraight([Squash, Explode]);
        SealedJoin([Push(Marker)], o.code);
        SealedJoin([Push(Marker)] + o.code, [Squash, Explode]);
        SealedJoin([Push(Marker)] + o.code + [Squash, Explode], GenQuasiEach(a, fname, xs[1..], o.st).code);
      }
    }
  }
}
