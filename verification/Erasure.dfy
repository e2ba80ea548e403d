/** The names that functions carry do not matter to the language: evaluating the same text in
    scopes that are equal up to the names of the functions in them gives values and scopes
    that are equal up to the names of the functions in them. */
module Erasure {
  import opened Sexps
  import opened Scoping
  import opened Builtins
  import opened Codegen
  import opened Evaluator

  function Nameless(v: V): V {
    match v
    case Pair(h, t) => Pair(Nameless(h), Nameless(t))
    case Arr(es) => Arr(NamelessAll(es))
    case Fun(f) => Fun(NamelessFn(f))
    case _ => v
  }

  function NamelessAll(vs: seq<V>): seq<V> {
    seq(|vs|, i requires 0 <= i < |vs| => Nameless(vs[i]))
  }

  function NamelessFn(f: Closure): Closure {
    match f
    case Builtin(_) => f
    case Closure(_, num, params, body, env) =>
      Closure("", num, params, body, map s | s in env :: Nameless(env[s]))
  }

  function NamelessFrame(f: EFrame): EFrame {
    map s | s in f :: Nameless(f[s])
  }

  function NamelessFrames(fs: seq<EFrame>): seq<EFrame> {
    seq(|fs|, i requires 0 <= i < |fs| => NamelessFrame(fs[i]))
  }

  function NamelessOption(v: Option<V>): Option<V> {
    if v.Some? then Some(Nameless(v.value)) else None
  }

  function NamelessList(vs: Option<seq<V>>): Option<seq<V>> {
    if vs.Some? then Some(NamelessAll(vs.value)) else None
  }

  // ---------- erasing names commutes with what programs do to values ----------

  lemma NamelessTruthy(v: V)
    ensures IsTruthy(Nameless(v)) == IsTruthy(v)
  {
  }

  lemma NamelessAppend(vs: seq<V>, ws: seq<V>)
    ensures NamelessAll(vs + ws) == NamelessAll(vs) + NamelessAll(ws)
  {
  }

  lemma {:induction false} NamelessElems(v: V)
    ensures IsList(Nameless(v)) == IsList(v)
    ensures IsList(v) ==> Elems(Nameless(v)) == NamelessAll(Elems(v))
  {
    if v.Pair? {
      NamelessElems(v.tail);
      if IsList(v) {
        NamelessAppend([v.head], Elems(v.tail));
        assert NamelessAll([v.head]) == [Nameless(v.head)];
      }
    }
  }

  lemma {:induction false} NamelessMakeList(vs: seq<V>)
    ensures Nameless(MakeList(vs)) == MakeList(NamelessAll(vs))
  {
    if vs != [] {
      NamelessMakeList(vs[1..]);
      assert NamelessAll(vs)[1..] == NamelessAll(vs[1..]);
    }
  }

  lemma {:induction false} NamelessData(v: V)
    ensures IsData(Nameless(v)) == IsData(v)
    ensures Recast<Closure, ()>(Nameless(v)) == Recast<Closure, ()>(v)
  {
    match v
    case Pair(h, t) =>
      NamelessData(h);
      NamelessData(t);
    case Arr(es) =>
      forall i | 0 <= i < |es|
        ensures IsData(Nameless(es[i])) == IsData(es[i])
                && Recast<Closure, ()>(Nameless(es[i])) == Recast<Closure, ()>(es[i])
      {
        NamelessData(es[i]);
      }
      assert forall i | 0 <= i < |es| :: NamelessAll(es)[i] == Nameless(es[i]);
      assert RecastAll<Closure, ()>(NamelessAll(es)) == RecastAll<Closure, ()>(es);
    case _ =>
  }

  /** Data has no names to erase. */
  lemma {:induction false} DataNameless(v: V)
    requires IsData(v)
    ensures Nameless(v) == v
  {
    match v
    case Pair(h, t) =>
      DataNameless(h);
      DataNameless(t);
    case Arr(es) =>
      forall i | 0 <= i < |es| ensures Nameless(es[i]) == es[i] {
        DataNameless(es[i]);
      }
      assert NamelessAll(es) == es;
    case _ =>
  }

  /** Values that are equal up to names, one of which has no functions in it, are equal. */
  lemma AlikeData(v: V, w: V)
    requires Nameless(v) == Nameless(w) && IsData(v)
    ensures v == w
  {
    NamelessData(v);
    NamelessData(w);
    DataNameless(v);
    DataNameless(w);
  }

  lemma {:induction false} NamelessLookup(fs: seq<EFrame>, s: int)
    ensures LookupLocal(NamelessFrames(fs), s) == NamelessOption(LookupLocal(fs, s))
  {
    if fs != [] {
      NamelessLookup(fs[..|fs| - 1], s);
      assert NamelessFrames(fs)[..|fs| - 1] == NamelessFrames(fs[..|fs| - 1]);
    }
  }

  lemma {:induction false} NamelessVisible(fs: seq<EFrame>)
    ensures NamelessFrame(Visible(fs)) == Visible(NamelessFrames(fs))
  {
    if fs != [] {
      NamelessVisible(fs[..|fs| - 1]);
      assert NamelessFrames(fs)[..|fs| - 1] == NamelessFrames(fs[..|fs| - 1]);
    }
  }

  lemma {:induction false} NamelessBindAll(f: EFrame, names: seq<Symbol>, vs: seq<V>)
    requires |names| == |vs|
    ensures BindAll(NamelessFrame(f), names, NamelessAll(vs)) == NamelessFrame(BindAll(f, names, vs))
    decreases |names|
  {
    if names != [] {
      var n := |names| - 1;
      assert NamelessFrame(f[names[n].num := vs[n]]) == NamelessFrame(f)[names[n].num := Nameless(vs[n])];
      assert NamelessAll(vs)[..n] == NamelessAll(vs[..n]);
      NamelessBindAll(f[names[n].num := vs[n]], names[..n], vs[..n]);
    }
  }

  // ---------- alike scopes and outcomes ----------

  /** Scopes in which every function may be applied, equal up to names. */
  ghost predicate Alike(sc: Scopes, sc': Scopes) {
    && sc.host == sc'.host && (forall f, g :: sc.ok(f, g)) && (forall f, g :: sc'.ok(f, g))
    && NamelessFrame(sc.glob) == NamelessFrame(sc'.glob) && NamelessFrames(sc.locals) == NamelessFrames(sc'.locals)
  }

  ghost predicate AlikeOutcome(r: Outcome, r': Outcome) {
    r.Val? ==> r'.Val? && Nameless(r.v) == Nameless(r'.v) && Alike(r.sc, r'.sc)
  }

  ghost predicate AlikeOutcomes(r: Outcomes, r': Outcomes) {
    r.Vals? ==> r'.Vals? && NamelessAll(r.vs) == NamelessAll(r'.vs) && Alike(r.after, r'.after)
  }

  lemma AlikeLookup(sc: Scopes, sc': Scopes, s: int)
    requires Alike(sc, sc')
    ensures NamelessOption(Lookup(sc.glob, sc.locals, s)) == NamelessOption(Lookup(sc'.glob, sc'.locals, s))
  {
    hide Nameless;
    NamelessLookup(sc.locals, s);
    NamelessLookup(sc'.locals, s);
    assert s in sc.glob <==> s in NamelessFrame(sc.glob);
    assert s in sc'.glob <==> s in NamelessFrame(sc'.glob);
  }

  lemma AlikeBind(sc: Scopes, sc': Scopes, s: int, v: V, v': V)
    requires Alike(sc, sc') && Nameless(v) == Nameless(v')
    ensures Alike(sc.Bind(s, v), sc'.Bind(s, v'))
  {
    hide Nameless;
    SameDepth(sc, sc');
    if sc.locals == [] {
      BindFrame(sc.glob, sc'.glob, s, v, v');
    } else {
      var n := |sc.locals| - 1;
      assert NamelessFrames(sc.locals)[n] == NamelessFrames(sc'.locals)[n];
      BindFrame(sc.locals[n], sc'.locals[n], s, v, v');
      hide NamelessFrame;
      assert NamelessFrames(sc.Bind(s, v).locals) ==
             NamelessFrames(sc.locals)[n := NamelessFrame(sc.locals[n][s := v])];
      assert NamelessFrames(sc'.Bind(s, v').locals) ==
             NamelessFrames(sc'.locals)[n := NamelessFrame(sc'.locals[n][s := v'])];
    }
  }

  lemma BindFrame(f: EFrame, f': EFrame, s: int, v: V, v': V)
    requires NamelessFrame(f) == NamelessFrame(f') && Nameless(v) == Nameless(v')
    ensures NamelessFrame(f[s := v]) == NamelessFrame(f'[s := v'])
  {
    hide Nameless, NamelessFrame;
    NamelessBind(f, s, v);
    NamelessBind(f', s, v');
  }

  lemma NamelessBind(f: EFrame, s: int, v: V)
    ensures NamelessFrame(f[s := v]) == NamelessFrame(f)[s := Nameless(v)]
  {
    hide Nameless;
  }

  lemma SameDepth(sc: Scopes, sc': Scopes)
    requires Alike(sc, sc')
    ensures |sc.locals| == |sc'.locals|
  {
    assert |NamelessFrames(sc.locals)| == |NamelessFrames(sc'.locals)|;
  }

  lemma AlikeBindList(sc: Scopes, sc': Scopes, names: seq<Symbol>, vs: seq<V>, vs': seq<V>)
    requires Alike(sc, sc') && NamelessAll(vs) == NamelessAll(vs') && |names| == |vs| == |vs'|
    ensures Alike(sc.BindList(names, vs), sc'.BindList(names, vs'))
  {
    hide Nameless, BindAll;
    SameDepth(sc, sc');
    if sc.locals == [] {
      NamelessBindAll(sc.glob, names, vs);
      NamelessBindAll(sc'.glob, names, vs');
    } else {
      var n := |sc.locals| - 1;
      assert NamelessFrames(sc.locals)[n] == NamelessFrames(sc'.locals)[n];
      NamelessBindAll(sc.locals[n], names, vs);
      NamelessBindAll(sc'.locals[n], names, vs');
      hide NamelessFrame;
      assert NamelessFrames(sc.BindList(names, vs).locals) ==
             NamelessFrames(sc.locals)[n := NamelessFrame(BindAll(sc.locals[n], names, vs))];
      assert NamelessFrames(sc'.BindList(names, vs').locals) ==
             NamelessFrames(sc'.locals)[n := NamelessFrame(BindAll(sc'.locals[n], names, vs'))];
    }
  }

  lemma AlikeEnter(sc: Scopes, sc': Scopes)
    requires Alike(sc, sc')
    ensures Alike(sc.Enter(), sc'.Enter())
  {
    hide Nameless;
    assert NamelessFrames(sc.Enter().locals) == NamelessFrames(sc.locals) + [map[]];
    assert NamelessFrames(sc'.Enter().locals) == NamelessFrames(sc'.locals) + [map[]];
  }

  lemma AlikeLeave(sc: Scopes, sc': Scopes)
    requires Alike(sc, sc') && sc.locals != []
    ensures sc'.locals != [] && Alike(sc.Leave(), sc'.Leave())
  {
    hide Nameless;
    SameDepth(sc, sc');
    var n := |sc.locals| - 1;
    assert NamelessFrames(sc.locals[..n]) == NamelessFrames(sc.locals)[..n];
    assert NamelessFrames(sc'.locals[..n]) == NamelessFrames(sc'.locals)[..n];
  }

  /** What a `fn` makes in alike scopes. */
  lemma AlikeFn(sc: Scopes, sc': Scopes, params: seq<Source>, body: seq<Source>)
    requires Alike(sc, sc')
    ensures Nameless(Fun(Closure(ANON, None, params, body, Visible(sc.locals)))) ==
            Nameless(Fun(Closure(ANON, None, params, body, Visible(sc'.locals))))
  {
    NamelessVisible(sc.locals);
    NamelessVisible(sc'.locals);
    hide Visible;
    SameFn(params, body, Visible(sc.locals), Visible(sc'.locals));
  }

  lemma SameFn(params: seq<Source>, body: seq<Source>, env: EFrame, env': EFrame)
    requires NamelessFrame(env) == NamelessFrame(env')
    ensures Nameless(Fun(Closure(ANON, None, params, body, env))) ==
            Nameless(Fun(Closure(ANON, None, params, body, env')))
  {
    var c, c' := Closure(ANON, None, params, body, env), Closure(ANON, None, params, body, env');
    assert NamelessFn(c).env == NamelessFrame(env) && NamelessFn(c').env == NamelessFrame(env');
  }

  lemma AlikeMarker(vs: seq<V>, vs': seq<V>)
    requires NamelessAll(vs) == NamelessAll(vs')
    ensures |vs| == |vs'| && (Marker in vs <==> Marker in vs')
  {
    assert |NamelessAll(vs)| == |NamelessAll(vs')|;
    MarkerStays(vs);
    MarkerStays(vs');
  }

  lemma MarkerStays(vs: seq<V>)
    ensures Marker in NamelessAll(vs) <==> Marker in vs
  {
    if Marker in vs {
      var i :| 0 <= i < |vs| && vs[i] == Marker;
      assert NamelessAll(vs)[i] == Marker;
    }
    if Marker in NamelessAll(vs) {
      var i :| 0 <= i < |vs| && NamelessAll(vs)[i] == Marker;
      assert Nameless(vs[i]) == Marker;
    }
  }

  lemma AlikePrim(host: Host, which: string, name: string, args: seq<V>, args': seq<V>)
    requires NamelessAll(args) == NamelessAll(args')
    ensures NamelessOption(Prim(host, which, name, args)) == NamelessOption(Prim(host, which, name, args'))
  {
    AlikeMarker(args, args');
    if which == "array" || which == "list" {
      NamelessMakeList(args);
      NamelessMakeList(args');
    } else if which == "cons" {
      if |args| == 2 {
        AlikeFirst(args, args');
      }
    } else {
      forall i | 0 <= i < |args|
        ensures IsData(args[i]) == IsData(args'[i]) && Recast<Closure, ()>(args[i]) == Recast<Closure, ()>(args'[i])
      {
        assert NamelessAll(args)[i] == NamelessAll(args')[i];
        NamelessData(args[i]);
        NamelessData(args'[i]);
      }
      assert RecastAll<Closure, ()>(args) == RecastAll<Closure, ()>(args');
    }
  }

  lemma AlikeApplyArgs(e: V, e': V)
    requires Nameless(e) == Nameless(e')
    ensures NamelessList(ApplyArgs(e)) == NamelessList(ApplyArgs(e'))
  {
    NamelessElems(e);
    NamelessElems(e');
  }

  lemma AlikeParams(p: Params, args: seq<V>, args': seq<V>)
    requires p.Params? && |p.names| == p.nargs + (if p.varargs then 1 else 0) && NamelessAll(args) == NamelessAll(args')
    ensures NamelessList(ParamValues(p, args)) == NamelessList(ParamValues(p, args'))
  {
    hide Nameless, MakeList;
    AlikeMarker(args, args');
    if p.varargs && |args| >= p.nargs {
      var n := p.nargs;
      assert NamelessAll(args)[..n] == NamelessAll(args[..n]) && NamelessAll(args)[n..] == NamelessAll(args[n..]);
      assert NamelessAll(args')[..n] == NamelessAll(args'[..n]) && NamelessAll(args')[n..] == NamelessAll(args'[n..]);
      NamelessMakeList(args[n..]);
      NamelessMakeList(args'[n..]);
      var x, x' := MakeList(args[n..]), MakeList(args'[n..]);
      assert NamelessAll([x]) == [Nameless(x)] && NamelessAll([x']) == [Nameless(x')];
      NamelessAppend(args[..n], [x]);
      NamelessAppend(args'[..n], [x']);
    }
  }

  lemma AlikeBody(env: EFrame, env': EFrame, names: seq<Symbol>, vs: seq<V>, vs': seq<V>, sc: Scopes, sc': Scopes)
    requires Alike(sc, sc') && NamelessFrame(env) == NamelessFrame(env') && |names| == |vs| == |vs'|
    requires NamelessAll(vs) == NamelessAll(vs')
    ensures Alike(sc.(locals := [env, BindAll(map[], names, vs)]), sc'.(locals := [env', BindAll(map[], names, vs')]))
  {
    hide Nameless;
    NamelessBindAll(map[], names, vs);
    NamelessBindAll(map[], names, vs');
    hide BindAll;
    var f, f' := BindAll(map[], names, vs), BindAll(map[], names, vs');
    assert NamelessFrame(map[]) == map[];
    hide NamelessFrame;
    assert NamelessFrames([env, f]) == [NamelessFrame(env), NamelessFrame(f)];
    assert NamelessFrames([env', f']) == [NamelessFrame(env'), NamelessFrame(f')];
  }

  // ---------- evaluation ----------

  lemma {:induction false} EExpr(fuel: nat, e: Source, sc: Scopes, sc': Scopes)
    requires Alike(sc, sc')
    ensures AlikeOutcome(Eval(fuel, e, sc), Eval(fuel, e, sc'))
    decreases fuel, Size(e), 0
  {
    hide Alike, NamelessFn, EvalForm, EvalDispatch, EvalAll, Lookup;
    match e
    case Sym(s) => AlikeLookup(sc, sc', s.num);
    case Pair(h, t) =>
      if IsList(e) {
        if h.Sym? {
          EForm(fuel, h.sym, Elems(t), sc, sc');
        } else {
          EDispatch(fuel, h, Elems(t), sc, sc');
        }
      }
    case Arr(es) => EAll(fuel, es, sc, sc');
    case _ =>
  }

  lemma {:induction false} EAll(fuel: nat, es: seq<Source>, sc: Scopes, sc': Scopes)
    requires Alike(sc, sc')
    ensures AlikeOutcomes(EvalAll(fuel, es, sc), EvalAll(fuel, es, sc'))
    decreases fuel, SizeSeq(es), 1
  {
    hide Alike, Nameless, Eval;
    if es != [] {
      EExpr(fuel, es[0], sc, sc');
      var r, r' := Eval(fuel, es[0], sc), Eval(fuel, es[0], sc');
      if r.Val? {
        EAll(fuel, es[1..], r.sc, r'.sc);
        var q, q' := EvalAll(fuel, es[1..], r.sc), EvalAll(fuel, es[1..], r'.sc);
        if q.Vals? {
          AlikeCons(r.v, r'.v, q.vs, q'.vs);
        }
      }
    }
  }

  lemma AlikeCons(v: V, v': V, vs: seq<V>, vs': seq<V>)
    requires Nameless(v) == Nameless(v') && NamelessAll(vs) == NamelessAll(vs')
    ensures NamelessAll([v] + vs) == NamelessAll([v'] + vs')
  {
    hide Nameless;
    assert NamelessAll([v] + vs) == [Nameless(v)] + NamelessAll(vs);
    assert NamelessAll([v'] + vs') == [Nameless(v')] + NamelessAll(vs');
  }

  lemma {:induction false} EDispatch(fuel: nat, h: Source, args: seq<Source>, sc: Scopes, sc': Scopes)
    requires Alike(sc, sc')
    ensures AlikeOutcome(EvalDispatch(fuel, h, args, sc), EvalDispatch(fuel, h, args, sc'))
    decreases fuel, Size(h) + SizeSeq(args), 3
  {
    hide Alike, NamelessAll, Eval, EvalAll, ApplyNamed;
    if EvalDispatch(fuel, h, args, sc).Val? {
      EAll(fuel, args, sc, sc');
      var r, r' := EvalAll(fuel, args, sc), EvalAll(fuel, args, sc');
      EExpr(fuel, h, r.after, r'.after);
      var q, q' := Eval(fuel, h, r.after), Eval(fuel, h, r'.after);
      var f, f' := q.v.fn, q'.v.fn;
      EApply(fuel, f, f', if f.Builtin? then f.which else f.name, if f'.Builtin? then f'.which else f'.name, r.vs,
          r'.vs, q.sc, q'.sc);
    }
  }

  lemma {:induction false} EBegin(fuel: nat, es: seq<Source>, sc: Scopes, sc': Scopes)
    requires Alike(sc, sc')
    ensures AlikeOutcome(EvalBegin(fuel, es, sc), EvalBegin(fuel, es, sc'))
    decreases fuel, SizeSeq(es), 2
  {
    hide Alike, Nameless, Eval;
    if es != [] {
      EExpr(fuel, es[0], sc, sc');
      if |es| > 1 && Eval(fuel, es[0], sc).Val? {
        EBegin(fuel, es[1..], Eval(fuel, es[0], sc).sc, Eval(fuel, es[0], sc').sc);
      }
    }
  }

  lemma {:induction false} EShort(fuel: nat, or: bool, es: seq<Source>, sc: Scopes, sc': Scopes)
    requires es != [] && Alike(sc, sc')
    ensures AlikeOutcome(EvalShort(fuel, or, es, sc), EvalShort(fuel, or, es, sc'))
    decreases fuel, SizeSeq(es), 2
  {
    hide Alike, Nameless, Eval, IsTruthy;
    EExpr(fuel, es[0], sc, sc');
    var r, r' := Eval(fuel, es[0], sc), Eval(fuel, es[0], sc');
    if r.Val? {
      NamelessTruthy(r.v);
      NamelessTruthy(r'.v);
      if |es| > 1 && IsTruthy(r.v) != or {
        EShort(fuel, or, es[1..], r.sc, r'.sc);
      }
    }
  }

  lemma {:induction false} ECond(fuel: nat, es: seq<Source>, sc: Scopes, sc': Scopes)
    requires |es| % 2 == 1 && Alike(sc, sc')
    ensures AlikeOutcome(EvalCond(fuel, es, sc), EvalCond(fuel, es, sc'))
    decreases fuel, SizeSeq(es), 2
  {
    hide Alike, Nameless, Eval, IsTruthy;
    EExpr(fuel, es[0], sc, sc');
    var r, r' := Eval(fuel, es[0], sc), Eval(fuel, es[0], sc');
    if |es| > 1 && r.Val? {
      SizeAt(es, 1);
      SizeAt(es, 2);
      NamelessTruthy(r.v);
      NamelessTruthy(r'.v);
      if IsTruthy(r.v) {
        EExpr(fuel, es[1], r.sc, r'.sc);
      } else {
        ECond(fuel, es[2..], r.sc, r'.sc);
      }
    }
  }

  lemma {:induction false} ELetStar(fuel: nat, names: seq<Symbol>, rights: seq<Source>, sc: Scopes, sc': Scopes)
    requires |names| == |rights| && Alike(sc, sc') && EvalLetStar(fuel, names, rights, sc).Some?
    ensures EvalLetStar(fuel, names, rights, sc').Some?
    ensures Alike(EvalLetStar(fuel, names, rights, sc).value, EvalLetStar(fuel, names, rights, sc').value)
    decreases fuel, SizeSeq(rights), 2
  {
    hide Alike, Nameless, Eval;
    if names != [] {
      EExpr(fuel, rights[0], sc, sc');
      var r, r' := Eval(fuel, rights[0], sc), Eval(fuel, rights[0], sc');
      AlikeBind(r.sc, r'.sc, names[0].num, r.v, r'.v);
      ELetStar(fuel, names[1..], rights[1..], r.sc.Bind(names[0].num, r.v), r'.sc.Bind(names[0].num, r'.v));
    }
  }

  lemma {:induction false} ELet(fuel: nat, star: bool, args: seq<Source>, sc: Scopes, sc': Scopes)
    requires Alike(sc, sc') && EvalLet(fuel, star, args, sc).Val?
    ensures AlikeOutcome(EvalLet(fuel, star, args, sc), EvalLet(fuel, star, args, sc'))
    decreases fuel, SizeSeq(args), 3
  {
    hide Alike, Nameless, NamelessAll, EvalBegin, EvalAll, EvalLetStar, ParseBindings;
    SizeAt(args, 0);
    var b := ParseBindings(args[0].elems);
    AlikeEnter(sc, sc');
    if star {
      ELetStar(fuel, b.names, b.rights, sc.Enter(), sc'.Enter());
    } else {
      EAll(fuel, b.rights, sc.Enter(), sc'.Enter());
      var r, r' := EvalAll(fuel, b.rights, sc.Enter()), EvalAll(fuel, b.rights, sc'.Enter());
      AlikeBindList(r.after, r'.after, b.names, r.vs, r'.vs);
    }
    var in1, in2 := EvalBindings(fuel, star, b, sc.Enter()).value, EvalBindings(fuel, star, b, sc'.Enter()).value;
    EBegin(fuel, args[1..], in1, in2);
    AlikeLeave(EvalBegin(fuel, args[1..], in1).sc, EvalBegin(fuel, args[1..], in2).sc);
  }

  lemma {:induction false} EForm(fuel: nat, s: Symbol, args: seq<Source>, sc: Scopes, sc': Scopes)
    requires Alike(sc, sc')
    ensures AlikeOutcome(EvalForm(fuel, s, args, sc), EvalForm(fuel, s, args, sc'))
    decreases fuel, SizeSeq(args), 4
  {
    hide Alike, Nameless, NamelessAll, FormOf, Eval, EvalAll, EvalBegin, EvalShort, EvalCond, EvalLet, Expand;
    hide ApplyNamed, IsTruthy, Visible, Lookup, Recast, IsData;
    if EvalForm(fuel, s, args, sc).Val? {
      match FormOf(s.name)
      case And => EShort(fuel, false, args, sc, sc');
      case Or => EShort(fuel, true, args, sc, sc');
      case Cond => ECond(fuel, args, sc, sc');
      case Def =>
        SizeAt(args, 1);
        EExpr(fuel, args[1], sc, sc');
        var r, r' := Eval(fuel, args[1], sc), Eval(fuel, args[1], sc');
        AlikeBind(r.sc, r'.sc, args[0].sym.num, r.v, r'.v);
      case Fn => AlikeFn(sc, sc', args[0].elems, args[1..]);
      case Defn =>
        var n := args[0].sym;
        var c := Closure(FunName(n.name), Some(n.num), args[1].elems, args[2..], map[]);
        AlikeBind(sc, sc', n.num, Fun(c), Fun(c));
      case Begin => EBegin(fuel, args, sc, sc');
      case Let => ELet(fuel, false, args, sc, sc');
      case LetStar => ELet(fuel, true, args, sc, sc');
      case Assert =>
        SizeAt(args, 0);
        EExpr(fuel, args[0], sc, sc');
        NamelessTruthy(Eval(fuel, args[0], sc).v);
        NamelessTruthy(Eval(fuel, args[0], sc').v);
      case SyntaxQuote =>
        SizeAt(args, 0);
        EExpand(fuel, args[0], sc, sc');
        AlikeFirst(Expand(fuel, args[0], sc).vs, Expand(fuel, args[0], sc').vs);
      case Ordinary => EOrdinary(fuel, s, args, sc, sc');
      case _ =>
    }
  }

  lemma AlikeFirst(vs: seq<V>, vs': seq<V>)
    requires NamelessAll(vs) == NamelessAll(vs')
    ensures |vs| == |vs'| && (forall i | 0 <= i < |vs| :: Nameless(vs[i]) == Nameless(vs'[i]))
  {
    hide Nameless;
    assert |NamelessAll(vs)| == |NamelessAll(vs')|;
    forall i | 0 <= i < |vs| ensures Nameless(vs[i]) == Nameless(vs'[i]) {
      assert NamelessAll(vs)[i] == NamelessAll(vs')[i];
    }
  }

  lemma {:induction false} EOrdinary(fuel: nat, s: Symbol, args: seq<Source>, sc: Scopes, sc': Scopes)
    requires Alike(sc, sc') && FormOf(s.name) == Ordinary && EvalForm(fuel, s, args, sc).Val?
    ensures AlikeOutcome(EvalForm(fuel, s, args, sc), EvalForm(fuel, s, args, sc'))
    decreases fuel, SizeSeq(args), 3
  {
    hide NamelessAll, FormOf, EvalAll, ApplyNamed, Lookup;
    EAll(fuel, args, sc, sc');
    var r, r' := EvalAll(fuel, args, sc), EvalAll(fuel, args, sc');
    assert r.after.host == r'.after.host;
    hide Alike;
    AlikeLookup(r.after, r'.after, s.num);
    var builtins := r.after.host.builtins;
    var f := if s.num in builtins then Fun(Builtin(builtins[s.num]))
             else Lookup(r.after.glob, r.after.locals, s.num).value;
    var f' := if s.num in builtins then Fun(Builtin(builtins[s.num]))
              else Lookup(r'.after.glob, r'.after.locals, s.num).value;
    EApply(fuel, f.fn, f'.fn, s.name, s.name, r.vs, r'.vs, r.after, r'.after);
  }

  lemma {:induction false} EExpand(fuel: nat, x: Source, sc: Scopes, sc': Scopes)
    requires Alike(sc, sc')
    ensures AlikeOutcomes(Expand(fuel, x, sc), Expand(fuel, x, sc'))
    decreases fuel, Size(x), 1
  {
    hide Alike, Eval, ExpandAll, IsUnquote, Recast, IsData, NamelessFn;
    if x.Arr? {
      EExpandAll(fuel, x.elems, sc, sc');
      var r, r' := ExpandAll(fuel, x.elems, sc), ExpandAll(fuel, x.elems, sc');
      if r.Vals? {
        AlikeMarker(r.vs, r'.vs);
        AlikeSingle(Arr(r.vs), Arr(r'.vs));
      }
    } else if x.Pair? && IsList(x) {
      var es := Elems(x);
      if IsUnquote(es, "unquote") || IsUnquote(es, "unquote-splicing") {
        TwoElements(es);
        SizeAt(es, 1);
        EExpr(fuel, es[1], sc, sc');
        var r, r' := Eval(fuel, es[1], sc), Eval(fuel, es[1], sc');
        if r.Val? {
          NamelessElems(r.v);
          NamelessElems(r'.v);
          AlikeSingle(r.v, r'.v);
        }
      } else {
        EExpandAll(fuel, es, sc, sc');
        var r, r' := ExpandAll(fuel, es, sc), ExpandAll(fuel, es, sc');
        if r.Vals? {
          AlikeMarker(r.vs, r'.vs);
          NamelessMakeList(r.vs);
          NamelessMakeList(r'.vs);
          AlikeSingle(MakeList(r.vs), MakeList(r'.vs));
        }
      }
    }
  }

  lemma AlikeSingle(v: V, v': V)
    requires Nameless(v) == Nameless(v')
    ensures NamelessAll([v]) == NamelessAll([v'])
  {
    hide Nameless;
  }

  lemma {:induction false} EExpandAll(fuel: nat, xs: seq<Source>, sc: Scopes, sc': Scopes)
    requires Alike(sc, sc')
    ensures AlikeOutcomes(ExpandAll(fuel, xs, sc), ExpandAll(fuel, xs, sc'))
    decreases fuel, SizeSeq(xs), 2
  {
    hide Alike, Nameless, NamelessAll, Expand;
    if xs != [] {
      EExpand(fuel, xs[0], sc, sc');
      var r, r' := Expand(fuel, xs[0], sc), Expand(fuel, xs[0], sc');
      if r.Vals? {
        EExpandAll(fuel, xs[1..], r.after, r'.after);
        var q, q' := ExpandAll(fuel, xs[1..], r.after), ExpandAll(fuel, xs[1..], r'.after);
        if q.Vals? {
          NamelessAppend(r.vs, q.vs);
          NamelessAppend(r'.vs, q'.vs);
        }
      }
    }
  }

  // ---------- application ----------

  /** Functions that are equal but for names, applied to arguments that are. */
  lemma {:induction false} EApply(fuel: nat, f: Closure, f': Closure, name: string, name': string, args: seq<V>,
                                  args': seq<V>, sc: Scopes, sc': Scopes)
    requires Alike(sc, sc') && NamelessFn(f) == NamelessFn(f') && NamelessAll(args) == NamelessAll(args')
    requires f.Builtin? ==> name == name'
    requires ApplyNamed(fuel, f, name, args, sc).Some?
    ensures var r, r' := ApplyNamed(fuel, f, name, args, sc), ApplyNamed(fuel, f', name', args', sc');
            r'.Some? && Nameless(r.value) == Nameless(r'.value)
    decreases fuel, 0, 0
  {
    hide EvalBegin, EvalBuiltin, ParseParams, ParamValues, BindAll, NamelessAll;
    match f
    case Builtin(which) => EBuiltin(fuel - 1, which, name, args, args', sc, sc');
    case Closure(_, _, params, body, env) =>
      assert NamelessFrame(env) == NamelessFrame(f'.env);
      var p := ParseParams(params);
      AlikeParams(p, args, args');
      var vs, vs' := ParamValues(p, args).value, ParamValues(p, args').value;
      AlikeBody(env, f'.env, p.names, vs, vs', sc, sc');
      EBegin(fuel - 1, body, sc.(locals := [env, BindAll(map[], p.names, vs)]),
          sc'.(locals := [f'.env, BindAll(map[], p.names, vs')]));
  }

  lemma {:induction false} EBuiltin(fuel: nat, which: string, name: string, args: seq<V>, args': seq<V>, sc: Scopes,
                                    sc': Scopes)
    requires Alike(sc, sc') && NamelessAll(args) == NamelessAll(args')
    requires EvalBuiltin(fuel, which, name, args, sc).Some?
    ensures var r, r' := EvalBuiltin(fuel, which, name, args, sc), EvalBuiltin(fuel, which, name, args', sc');
            r'.Some? && Nameless(r.value) == Nameless(r'.value)
    decreases fuel, 3, 0
  {
    hide ApplyNamed, MapValues, Prim, ApplyArgs, MakeList;
    AlikeFirst(args, args');
    if which == "apply" {
      var f, f' := args[0].fn, args'[0].fn;
      AlikeApplyArgs(args[1], args'[1]);
      hide NamelessAll;
      EApply(fuel, f, f', if f.Builtin? then f.which else f.name, if f'.Builtin? then f'.which else f'.name,
          ApplyArgs(args[1]).value, ApplyArgs(args'[1]).value, sc, sc');
    } else if which == "map" {
      EMapList(fuel, args, args', sc, sc');
    } else {
      AlikePrim(sc.host, which, name, args, args');
    }
  }

  lemma {:induction false} EMapList(fuel: nat, args: seq<V>, args': seq<V>, sc: Scopes, sc': Scopes)
    requires Alike(sc, sc') && |args| == |args'| == 2 && args[0].Fun? && EvalBuiltin(fuel, "map", "", args, sc).Some?
    requires Nameless(args[0]) == Nameless(args'[0]) && Nameless(args[1]) == Nameless(args'[1])
    ensures var r, r' := EvalBuiltin(fuel, "map", "", args, sc), EvalBuiltin(fuel, "map", "", args', sc');
            r'.Some? && Nameless(r.value) == Nameless(r'.value)
    decreases fuel, 2, 0
  {
    hide MapValues, Alike;
    var f, f' := args[0].fn, args'[0].fn;
    NamelessElems(args[1]);
    NamelessElems(args'[1]);
    var es := if args[1].Arr? then args[1].elems else Elems(args[1]);
    var es' := if args[1].Arr? then args'[1].elems else Elems(args'[1]);
    EMap(fuel, f, f', es, es', sc, sc');
    var vs, vs' := MapValues(fuel, f, es, sc).value, MapValues(fuel, f', es', sc').value;
    NamelessMakeList(vs);
    NamelessMakeList(vs');
  }

  lemma {:induction false} EMap(fuel: nat, f: Closure, f': Closure, es: seq<V>, es': seq<V>, sc: Scopes, sc': Scopes)
    requires Alike(sc, sc') && NamelessFn(f) == NamelessFn(f') && NamelessAll(es) == NamelessAll(es')
    requires MapValues(fuel, f, es, sc).Some?
    ensures var r, r' := MapValues(fuel, f, es, sc), MapValues(fuel, f', es', sc');
            r'.Some? && NamelessAll(r.value) == NamelessAll(r'.value)
    decreases fuel, 1, |es|
  {
    hide ApplyNamed, Alike, Nameless;
    AlikeFirst(es, es');
    if es != [] {
      assert NamelessAll(es[..1]) == NamelessAll(es'[..1]) && NamelessAll(es[1..]) == NamelessAll(es'[1..]);
      var name := if f.Builtin? then f.which else f.name;
      var name' := if f'.Builtin? then f'.which else f'.name;
      EApply(fuel, f, f', name, name', es[..1], es'[..1], sc, sc');
      EMap(fuel, f, f', es[1..], es'[1..], sc, sc');
      AlikeCons(ApplyNamed(fuel, f, name, es[..1], sc).value, ApplyNamed(fuel, f', name', es'[..1], sc').value,
          MapValues(fuel, f, es[1..], sc).value, MapValues(fuel, f', es'[1..], sc').value);
    }
  }
}
