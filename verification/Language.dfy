/** What the forms of the language mean, each by its own name: which expressions are evaluated,
    in which order and in which scopes, and what the value is. The evaluator that compiled
    code is compared with keeps these laws. */
module Language {
  import opened Sexps
  import opened Scoping
  import opened Codegen
  import opened Evaluator
  import opened Translation
  import opened Parameters
  import opened Meanings

  // ---------- names ----------

  const FORMS: set<string> := {
    "and", "or", "cond", "quote", "def", "fn", "defn", "begin", "let", "let*", "assert", "syntax-quote", "defmac",
    "macexpand", "include", "import"
  }

  /** A symbol in head position that names no form is a call: the operands first, from left
      to right; a builtin of that number wins over every binding, and then the innermost
      binding counts. */
  lemma CallMeans(fuel: nat, s: Symbol, args: seq<Source>, sc: Scopes, vs: seq<V>, sc': Scopes)
    requires s.name !in FORMS && EvalAll(fuel, args, sc) == Vals(vs, sc')
    ensures s.num in sc'.host.builtins ==>
              EvalForm(fuel, s, args, sc) ==
              match ApplyNamed(fuel, Builtin(sc'.host.builtins[s.num]), s.name, vs, sc')
              case None => Stuck
              case Some(v) => Val(v, sc')
    ensures forall f | s.num !in sc'.host.builtins && Lookup(sc'.glob, sc'.locals, s.num) == Some(Fun(f)) ::
              EvalForm(fuel, s, args, sc) ==
              match ApplyNamed(fuel, f, s.name, vs, sc')
              case None => Stuck
              case Some(v) => Val(v, sc')
  {
    hide EvalAll, ApplyNamed, Lookup;
  }

  /** A list whose head is no symbol is a call, too: the operands first, then the head, whose
      value is applied. */
  lemma ComputedCallMeans(fuel: nat, h: Source, args: seq<Source>, sc: Scopes, vs: seq<V>, sc1: Scopes, f: Closure,
                          sc2: Scopes)
    requires !h.Sym? && EvalAll(fuel, args, sc) == Vals(vs, sc1) && Eval(fuel, h, sc1) == Val(Fun(f), sc2)
    ensures Eval(fuel, Pair(h, MakeList(args)), sc) ==
            match ApplyValue(fuel, f, vs, sc2)
            case None => Stuck
            case Some(v) => Val(v, sc2)
  {
    MakeListElems(args);
    hide EvalAll, ApplyNamed, MakeList;
    assert IsList(Pair(h, MakeList(args)));
  }

  /** A symbol means what the innermost scope binds it to, an array the array of its
      elements' values, and other data means itself. */
  lemma AtomsMean(a: Symbol, fuel: nat, s: Symbol, es: seq<Source>, e: Source, sc: Scopes)
    ensures Eval(fuel, Sym(s), sc) ==
            match Lookup(sc.glob, sc.locals, s.num)
            case None => Stuck
            case Some(v) => Val(v, sc)
    ensures Eval(fuel, Arr(es), sc) ==
            match EvalAll(fuel, es, sc)
            case NoVals => Stuck
            case Vals(vs, sc') => Val(Arr(vs), sc')
    ensures !e.Sym? && !e.Pair? && !e.Arr? && !e.Fun? ==>
              var r := Eval(fuel, e, sc); r.Val? && r.sc == sc && TrVal(a, r.v) == e
  {
    hide EvalAll, Lookup;
    if !e.Sym? && !e.Pair? && !e.Arr? && !e.Fun? {
      TrConstant(a, e);
    }
  }

  /** Of two rows of expressions the first is evaluated before the second. */
  lemma {:induction false} AllInOrder(fuel: nat, xs: seq<Source>, ys: seq<Source>, sc: Scopes)
    ensures EvalAll(fuel, xs + ys, sc) ==
            match EvalAll(fuel, xs, sc)
            case NoVals => NoVals
            case Vals(vs, sc') =>
              match EvalAll(fuel, ys, sc')
              case NoVals => NoVals
              case Vals(ws, sc'') => Vals(vs + ws, sc'')
    decreases |xs|
  {
    hide Eval;
    if xs == [] {
      assert xs + ys == ys;
      var r := EvalAll(fuel, ys, sc);
      assert r.Vals? ==> [] + r.vs == r.vs;
    } else {
      assert (xs + ys)[1..] == xs[1..] + ys;
      var r := Eval(fuel, xs[0], sc);
      if r.Val? {
        AllInOrder(fuel, xs[1..], ys, r.sc);
        var q := EvalAll(fuel, xs[1..], r.sc);
        if q.Vals? && EvalAll(fuel, ys, q.after).Vals? {
          var ws := EvalAll(fuel, ys, q.after).vs;
          assert [r.v] + (q.vs + ws) == [r.v] + q.vs + ws;
        }
      }
    }
  }

  // ---------- and, or ----------

  /** The test at `i` decides: `or` goes on where `and` stops. */
  ghost predicate DecidedAt(fuel: nat, or: bool, es: seq<Source>, sc: Scopes, i: nat, v: V, sc': Scopes)
    requires i < |es|
  {
    var r := EvalAll(fuel, es[..i + 1], sc);
    && r.Vals? && r.after == sc' && r.vs[i] == v
    && (forall j | 0 <= j < i :: Falsy(r.vs[j]) == or)
    && (i == |es| - 1 || Falsy(v) != or)
  }

  lemma {:induction false} ShortExact(fuel: nat, or: bool, es: seq<Source>, sc: Scopes, v: V, sc': Scopes)
    requires es != []
    ensures EvalShort(fuel, or, es, sc) == Val(v, sc') <==>
            exists i | 0 <= i < |es| :: DecidedAt(fuel, or, es, sc, i, v, sc')
    decreases |es|
  {
    hide Eval, Falsy, IsTruthy, DecidedAt;
    FirstDecides(fuel, or, es, sc, v, sc');
    if |es| > 1 {
      var r := Eval(fuel, es[0], sc);
      if r.Val? {
        FalsyExact(r.v);
        ShortExact(fuel, or, es[1..], r.sc, v, sc');
      }
      forall i | 0 < i < |es|
        ensures DecidedAt(fuel, or, es, sc, i, v, sc') <==>
                r.Val? && Falsy(r.v) == or && DecidedAt(fuel, or, es[1..], r.sc, i - 1, v, sc')
      {
        LaterDecides(fuel, or, es, sc, i, v, sc');
      }
      forall i | r.Val? && 0 <= i < |es[1..]|
        ensures DecidedAt(fuel, or, es[1..], r.sc, i, v, sc') && Falsy(r.v) == or ==>
                  DecidedAt(fuel, or, es, sc, i + 1, v, sc')
      {
        LaterDecides(fuel, or, es, sc, i + 1, v, sc');
      }
    }
  }

  lemma FirstDecides(fuel: nat, or: bool, es: seq<Source>, sc: Scopes, v: V, sc': Scopes)
    requires es != []
    ensures DecidedAt(fuel, or, es, sc, 0, v, sc') <==>
            Eval(fuel, es[0], sc) == Val(v, sc') && (|es| == 1 || Falsy(v) != or)
  {
    hide Eval, Falsy;
    OneOfAll(fuel, es[0], sc);
    assert es[..1] == [es[0]];
  }

  lemma OneOfAll(fuel: nat, e: Source, sc: Scopes)
    ensures EvalAll(fuel, [e], sc) ==
            match Eval(fuel, e, sc)
            case Stuck => NoVals
            case Val(v, sc') => Vals([v], sc')
  {
    hide Eval;
    assert [e][1..] == [];
    var r := Eval(fuel, e, sc);
    assert r.Val? ==> EvalAll(fuel, [], r.sc) == Vals([], r.sc) && [r.v] + [] == [r.v];
  }

  lemma LaterDecides(fuel: nat, or: bool, es: seq<Source>, sc: Scopes, i: nat, v: V, sc': Scopes)
    requires 0 < i < |es|
    ensures var r := Eval(fuel, es[0], sc);
            DecidedAt(fuel, or, es, sc, i, v, sc') <==>
            r.Val? && Falsy(r.v) == or && DecidedAt(fuel, or, es[1..], r.sc, i - 1, v, sc')
  {
    hide Eval, Falsy;
    assert es[..i + 1][1..] == es[1..][..i];
    var r := Eval(fuel, es[0], sc);
    if r.Val? {
      var q := EvalAll(fuel, es[1..][..i], r.sc);
      if q.Vals? {
        var vs := [r.v] + q.vs;
        assert EvalAll(fuel, es[..i + 1], sc) == Vals(vs, q.after);
        FirstAndRest(r.v, q.vs, i, or);
      }
    }
  }

  lemma FirstAndRest(v: V, vs: seq<V>, n: nat, falls: bool)
    requires 0 < n <= |vs| + 1
    ensures (forall j | 0 <= j < n :: Falsy(([v] + vs)[j]) == falls) <==>
            Falsy(v) == falls && forall j | 0 <= j < n - 1 :: Falsy(vs[j]) == falls
  {
    hide Falsy;
    var all := [v] + vs;
    assert all[0] == v && forall j | 0 <= j < n - 1 :: all[j + 1] == vs[j];
    assert forall j | 0 < j < n :: all[j] == vs[j - 1];
  }

  /** `and` evaluates its operands in order up to the first one that is false, whose value
      it has, or else the last one. */
  lemma AndMeans(fuel: nat, num: int, es: seq<Source>, sc: Scopes, v: V, sc': Scopes)
    ensures EvalForm(fuel, Symbol("and", num), es, sc) == Val(v, sc') <==>
            exists i | 0 <= i < |es| :: DecidedAt(fuel, false, es, sc, i, v, sc')
  {
    hide EvalShort, DecidedAt;
    if es != [] {
      ShortExact(fuel, false, es, sc, v, sc');
    }
  }

  /** `or`, up to the first one that is not false. */
  lemma OrMeans(fuel: nat, num: int, es: seq<Source>, sc: Scopes, v: V, sc': Scopes)
    ensures EvalForm(fuel, Symbol("or", num), es, sc) == Val(v, sc') <==>
            exists i | 0 <= i < |es| :: DecidedAt(fuel, true, es, sc, i, v, sc')
  {
    hide EvalShort, DecidedAt;
    if es != [] {
      ShortExact(fuel, true, es, sc, v, sc');
    }
  }

  // ---------- cond ----------

  function Tests(es: seq<Source>, n: nat): seq<Source>
    requires 2 * n <= |es|
  {
    seq(n, i requires 0 <= i < n => es[2 * i])
  }

  /** Clause `i` is chosen and gives `r`; the one after all of them is the default. */
  ghost predicate ChosenAt(fuel: nat, es: seq<Source>, sc: Scopes, i: nat, r: Outcome)
    requires 2 * i < |es|
  {
    if 2 * i == |es| - 1 then
      var t := EvalAll(fuel, Tests(es, i), sc);
      t.Vals? && (forall j | 0 <= j < i :: Falsy(t.vs[j])) && Eval(fuel, es[2 * i], t.after) == r
    else
      var t := EvalAll(fuel, Tests(es, i + 1), sc);
      && t.Vals? && (forall j | 0 <= j < i :: Falsy(t.vs[j])) && !Falsy(t.vs[i])
      && Eval(fuel, es[2 * i + 1], t.after) == r
  }

  /** `cond` evaluates its tests in order up to the first one that is not false, and then
      only that test's expression; the last expression, where all of them are false. */
  lemma CondMeans(fuel: nat, num: int, es: seq<Source>, sc: Scopes, r: Outcome)
    requires r.Val?
    ensures EvalForm(fuel, Symbol("cond", num), es, sc) == r <==>
            |es| % 2 == 1 && exists i | 0 <= i <= |es| / 2 :: ChosenAt(fuel, es, sc, i, r)
  {
    hide EvalCond, ChosenAt;
    if |es| % 2 == 1 {
      CondExact(fuel, es, sc, r);
    }
  }

  lemma {:induction false} CondExact(fuel: nat, es: seq<Source>, sc: Scopes, r: Outcome)
    requires |es| % 2 == 1 && r.Val?
    ensures EvalCond(fuel, es, sc) == r <==> exists i | 0 <= i <= |es| / 2 :: ChosenAt(fuel, es, sc, i, r)
    decreases |es|
  {
    hide Eval, Falsy, IsTruthy, ChosenAt;
    FirstChosen(fuel, es, sc, r);
    if |es| > 1 {
      SizeAt(es, 1);
      SizeAt(es, 2);
      var t, n := Eval(fuel, es[0], sc), |es| / 2;
      assert |es[2..]| / 2 == n - 1;
      if t.Val? {
        FalsyExact(t.v);
        CondExact(fuel, es[2..], t.sc, r);
      }
      forall i | 0 < i <= n
        ensures ChosenAt(fuel, es, sc, i, r) <==> t.Val? && Falsy(t.v) && ChosenAt(fuel, es[2..], t.sc, i - 1, r)
      {
        LaterChosen(fuel, es, sc, i, r);
      }
      forall i | t.Val? && 0 <= i <= n - 1
        ensures ChosenAt(fuel, es[2..], t.sc, i, r) && Falsy(t.v) ==> ChosenAt(fuel, es, sc, i + 1, r)
      {
        LaterChosen(fuel, es, sc, i + 1, r);
      }
    }
  }

  lemma FirstChosen(fuel: nat, es: seq<Source>, sc: Scopes, r: Outcome)
    requires |es| % 2 == 1 && r.Val?
    ensures ChosenAt(fuel, es, sc, 0, r) <==>
            if |es| == 1 then Eval(fuel, es[0], sc) == r
            else var t := Eval(fuel, es[0], sc); t.Val? && !Falsy(t.v) && Eval(fuel, es[1], t.sc) == r
  {
    hide Eval, Falsy;
    OneOfAll(fuel, es[0], sc);
    assert Tests(es, 0) == [] && EvalAll(fuel, [], sc) == Vals([], sc);
    if |es| > 1 {
      assert Tests(es, 1) == [es[0]];
    }
  }

  lemma LaterChosen(fuel: nat, es: seq<Source>, sc: Scopes, i: nat, r: Outcome)
    requires |es| % 2 == 1 && r.Val? && 0 < i <= |es| / 2
    ensures var t := Eval(fuel, es[0], sc);
            ChosenAt(fuel, es, sc, i, r) <==> t.Val? && Falsy(t.v) && ChosenAt(fuel, es[2..], t.sc, i - 1, r)
  {
    hide Eval, Falsy;
    var n, rest, t := if 2 * i == |es| - 1 then i else i + 1, es[2..], Eval(fuel, es[0], sc);
    assert Tests(es, n)[1..] == Tests(rest, n - 1) && Tests(es, n)[0] == es[0];
    assert rest[2 * (i - 1)] == es[2 * i];
    if t.Val? {
      var q := EvalAll(fuel, Tests(rest, n - 1), t.sc);
      if q.Vals? {
        var vs := [t.v] + q.vs;
        assert EvalAll(fuel, Tests(es, n), sc) == Vals(vs, q.after);
        FirstAndRest(t.v, q.vs, i, true);
      }
    }
  }

  // ---------- begin, quote, assert ----------

  /** `begin` evaluates its expressions in order and has the value of the last one. */
  lemma BeginMeans(fuel: nat, num: int, es: seq<Source>, sc: Scopes, v: V, sc': Scopes)
    ensures EvalForm(fuel, Symbol("begin", num), es, sc) == Val(v, sc') <==>
            es != [] && var r := EvalAll(fuel, es, sc); r.Vals? && r.after == sc' && r.vs[|es| - 1] == v
  {
    if es != [] {
      hide EvalBegin, EvalAll;
      BeginExact(fuel, es, sc);
    }
  }

  lemma {:induction false} BeginExact(fuel: nat, es: seq<Source>, sc: Scopes)
    requires es != []
    ensures EvalBegin(fuel, es, sc) ==
            match EvalAll(fuel, es, sc)
            case NoVals => Stuck
            case Vals(vs, sc') => Val(vs[|es| - 1], sc')
    decreases |es|
  {
    hide Eval;
    if |es| == 1 {
      OneOfAll(fuel, es[0], sc);
      assert es == [es[0]];
    } else {
      var r := Eval(fuel, es[0], sc);
      if r.Val? {
        BeginExact(fuel, es[1..], r.sc);
      }
    }
  }

  /** `quote` has its operand as value, unevaluated; it has no value for functions. */
  lemma QuoteMeans(a: Symbol, fuel: nat, num: int, e: Source, sc: Scopes)
    ensures var r := EvalForm(fuel, Symbol("quote", num), [e], sc);
            if IsData(e) then r.Val? && r.sc == sc && TrVal(a, r.v) == e else r == Stuck
  {
    if IsData(e) {
      TrConstant(a, e);
    }
  }

  lemma AssertMeans(fuel: nat, num: int, e: Source, sc: Scopes, v: V, sc': Scopes)
    ensures EvalForm(fuel, Symbol("assert", num), [e], sc) == Val(v, sc') <==>
            v == Null && var r := Eval(fuel, e, sc); r.Val? && r.sc == sc' && !Falsy(r.v)
  {
    hide Eval, Falsy, IsTruthy;
    SizeAt([e], 0);
    var r := Eval(fuel, e, sc);
    if r.Val? {
      FalsyExact(r.v);
    }
  }

  // ---------- bindings ----------

  /** Binding changes what one name means, and nothing of the scopes below. */
  lemma BindMeans(sc: Scopes, s: int, v: V)
    ensures var sc' := sc.Bind(s, v);
            && Lookup(sc'.glob, sc'.locals, s) == Some(v)
            && (forall n | n != s :: Lookup(sc'.glob, sc'.locals, n) == Lookup(sc.glob, sc.locals, n))
            && |sc'.locals| == |sc.locals|
            && (sc.locals != [] ==>
                  sc'.glob == sc.glob && sc'.locals[..|sc.locals| - 1] == sc.locals[..|sc.locals| - 1])
  {
    var sc' := sc.Bind(s, v);
    if sc.locals != [] {
      var n := |sc.locals| - 1;
      assert sc'.locals[..n] == sc.locals[..n];
    }
  }

  /** `def` binds its name in the innermost scope, after evaluating the expression there. */
  lemma DefMeans(fuel: nat, num: int, s: Symbol, e: Source, sc: Scopes, v: V, sc': Scopes)
    ensures EvalForm(fuel, Symbol("def", num), [Sym(s), e], sc) == Val(v, sc') <==>
            v == Null && var r := Eval(fuel, e, sc); r.Val? && sc' == r.sc.Bind(s.num, r.v)
  {
    hide Eval;
    SizeAt([Sym(s), e], 1);
  }

  /** `fn` has as value a function of its own text that keeps the local bindings visible
      where it is made, and no others. */
  lemma FnMeans(fuel: nat, num: int, params: seq<Source>, body: seq<Source>, sc: Scopes) returns (c: Closure)
    requires body != []
    ensures EvalForm(fuel, Symbol("fn", num), [Arr(params)] + body, sc) == Val(Fun(c), sc)
    ensures c.Closure? && c.name == "__anon" && c.num == None && c.params == params && c.body == body
    ensures forall s :: LookupLocal(sc.locals, s) == if s in c.env then Some(c.env[s]) else None
  {
    c := Closure(ANON, None, params, body, Visible(sc.locals));
    assert ([Arr(params)] + body)[1..] == body;
    forall s ensures LookupLocal(sc.locals, s) == if s in c.env then Some(c.env[s]) else None {
      VisibleLookup(sc.locals, s);
    }
  }

  /** `defn` binds a function that keeps no local bindings. */
  lemma DefnMeans(fuel: nat, num: int, s: Symbol, params: seq<Source>, body: seq<Source>, sc: Scopes)
    returns (c: Closure)
    requires body != []
    ensures EvalForm(fuel, Symbol("defn", num), [Sym(s), Arr(params)] + body, sc) == Val(Null, sc.Bind(s.num, Fun(c)))
    ensures c.Closure? && c.num == Some(s.num) && c.params == params && c.body == body && c.env == map[]
    ensures c.name == if s.name == "" then "__anon" else s.name
  {
    c := Closure(FunName(s.name), Some(s.num), params, body, map[]);
    assert ([Sym(s), Arr(params)] + body)[2..] == body;
  }

  /** A vector of names and expressions in turn. */
  predicate Paired(bs: seq<Source>) {
    |bs| % 2 == 0 && forall i | 0 <= i < |bs| / 2 :: bs[2 * i].Sym?
  }

  function Rights(bs: seq<Source>): seq<Source> {
    seq(|bs| / 2, i requires 0 <= i < |bs| / 2 => bs[2 * i + 1])
  }

  /** The scope `frame` binds the names of `bs` to `vs`, the first one of a name counting,
      and all other names as `was` does. */
  ghost predicate Extends(bs: seq<Source>, vs: seq<V>, was: EFrame, frame: EFrame)
    requires Paired(bs) && |vs| == |bs| / 2
  {
    && (forall i | 0 <= i < |vs| && (forall j | 0 <= j < i :: bs[2 * j].sym.num != bs[2 * i].sym.num) ::
          bs[2 * i].sym.num in frame && frame[bs[2 * i].sym.num] == vs[i])
    && (forall s | (forall i | 0 <= i < |vs| :: bs[2 * i].sym.num != s) ::
          (s in frame <==> s in was) && (s in was ==> frame[s] == was[s]))
  }

  /** What a body in the innermost scope gives outside of it. */
  function Closing(r: Outcome, depth: nat): Outcome
    requires r.Val? ==> depth <= |r.sc.locals|
  {
    if r.Val? then Val(r.v, r.sc.(locals := r.sc.locals[..depth])) else Stuck
  }

  lemma LetUnfolds(fuel: nat, star: bool, bs: seq<Source>, body: seq<Source>, sc: Scopes)
    requires ParseBindings(bs).Bindings? && body != []
    ensures EvalBindings(fuel, star, ParseBindings(bs), sc.Enter()) == None ==>
              EvalLet(fuel, star, [Arr(bs)] + body, sc) == Stuck
    ensures forall sc1 | EvalBindings(fuel, star, ParseBindings(bs), sc.Enter()) == Some(sc1) ::
              var r := EvalBegin(fuel, body, sc1);
              && (r.Val? ==> |r.sc.locals| == |sc.locals| + 1)
              && EvalLet(fuel, star, [Arr(bs)] + body, sc) == Closing(r, |sc.locals|)
  {
    hide EvalBindings, EvalBegin, ParseBindings;
    var args := [Arr(bs)] + body;
    assert args[1..] == body;
    SizeAt(args, 0);
  }

  /** `let` evaluates all expressions in the new scope while none of its names is bound there
      yet, then binds the names, evaluates the body and closes the scope. */
  lemma LetMeans(fuel: nat, num: int, bs: seq<Source>, body: seq<Source>, sc: Scopes, vs: seq<V>, sc1: Scopes)
    returns (frame: EFrame)
    requires Paired(bs) && body != [] && EvalAll(fuel, Rights(bs), sc.(locals := sc.locals + [map[]])) == Vals(vs, sc1)
    ensures |vs| == |bs| / 2 && |sc1.locals| == |sc.locals| + 1
    ensures Extends(bs, vs, sc1.locals[|sc.locals|], frame)
    ensures EvalForm(fuel, Symbol("let", num), [Arr(bs)] + body, sc) ==
            Closing(EvalBegin(fuel, body, sc1.(locals := sc.locals + [frame])), |sc.locals|)
  {
    hide EvalAll, EvalBegin, ParseBindings, BindAll, Extends, EvalLet;
    var b, n := ParseBindings(bs), |sc.locals|;
    BindingsExact(bs);
    assert b.rights == Rights(bs);
    frame := BindAll(sc1.locals[n], b.names, vs);
    FrameExtends(bs, b.names, vs, sc1.locals[n]);
    assert sc1.locals[..n] == sc.Enter().locals[..n] == sc.locals;
    assert sc1.BindList(b.names, vs) == sc1.(locals := sc.locals + [frame]);
    LetUnfolds(fuel, false, bs, body, sc);
    assert ([Arr(bs)] + body)[0] == Arr(bs);
  }

  lemma FrameExtends(bs: seq<Source>, names: seq<Symbol>, vs: seq<V>, was: EFrame)
    requires Paired(bs) && |vs| == |bs| / 2 == |names| && forall i | 0 <= i < |vs| :: names[i] == bs[2 * i].sym
    ensures Extends(bs, vs, was, BindAll(was, names, vs))
  {
    forall i | 0 <= i < |vs| && (forall j | 0 <= j < i :: bs[2 * j].sym.num != bs[2 * i].sym.num)
      ensures bs[2 * i].sym.num in BindAll(was, names, vs) && BindAll(was, names, vs)[bs[2 * i].sym.num] == vs[i]
    {
      forall j | 0 <= j < i ensures names[j].num != names[i].num {
        assert names[j] == bs[2 * j].sym;
      }
      BindAllAt(was, names, vs, i);
    }
    forall s | (forall i | 0 <= i < |vs| :: bs[2 * i].sym.num != s)
      ensures (s in BindAll(was, names, vs) <==> s in was) && (s in was ==> BindAll(was, names, vs)[s] == was[s])
    {
      forall i | 0 <= i < |names| ensures names[i].num != s {
        assert names[i] == bs[2 * i].sym;
      }
      BindAllOther(was, names, vs, s);
    }
  }

  /** Each expression is evaluated in the scopes in which the names before it are bound. */
  ghost predicate Chain(fuel: nat, bs: seq<Source>, start: Scopes, scs: seq<Scopes>)
    requires Paired(bs)
  {
    && |scs| == |bs| / 2 + 1 && scs[0] == start
    && forall i | 0 <= i < |bs| / 2 :: Link(fuel, bs[2 * i], bs[2 * i + 1], scs[i], scs[i + 1])
  }

  ghost predicate Link(fuel: nat, name: Source, right: Source, sc: Scopes, sc': Scopes) {
    name.Sym? && var r := Eval(fuel, right, sc); r.Val? && sc' == r.sc.Bind(name.sym.num, r.v)
  }

  /** `let*` binds each name before it evaluates the expression of the next one. */
  lemma LetStarMeans(fuel: nat, num: int, bs: seq<Source>, body: seq<Source>, sc: Scopes, scs: seq<Scopes>)
    requires Paired(bs) && body != [] && Chain(fuel, bs, sc.(locals := sc.locals + [map[]]), scs)
    ensures |scs| == |bs| / 2 + 1
    ensures EvalBegin(fuel, body, scs[|bs| / 2]).Val? ==>
              |sc.locals| <= |EvalBegin(fuel, body, scs[|bs| / 2]).sc.locals|
    ensures EvalForm(fuel, Symbol("let*", num), [Arr(bs)] + body, sc) ==
            Closing(EvalBegin(fuel, body, scs[|bs| / 2]), |sc.locals|)
  {
    hide Eval, EvalBegin, Chain, EvalLet, Paired, Closing;
    LetStarCloses(fuel, bs, body, sc, scs);
  }

  lemma LetStarCloses(fuel: nat, bs: seq<Source>, body: seq<Source>, sc: Scopes, scs: seq<Scopes>)
    requires Paired(bs) && body != [] && Chain(fuel, bs, sc.(locals := sc.locals + [map[]]), scs)
    ensures |scs| == |bs| / 2 + 1
    ensures var r := EvalBegin(fuel, body, scs[|bs| / 2]);
            && (r.Val? ==> |sc.locals| <= |r.sc.locals|)
            && EvalLet(fuel, true, [Arr(bs)] + body, sc) == Closing(r, |sc.locals|)
  {
    assert |scs| == |bs| / 2 + 1;
    hide Eval, EvalBegin, EvalLetStar, ParseBindings, Chain, EvalLet, EvalForm;
    var b := ParseBindings(bs);
    BindingsExact(bs);
    ChainBinds(fuel, bs, b.names, b.rights, sc.Enter(), scs);
    LetUnfolds(fuel, true, bs, body, sc);
  }

  lemma {:induction false} ChainBinds(fuel: nat, bs: seq<Source>, names: seq<Symbol>, rights: seq<Source>, sc: Scopes,
                                      scs: seq<Scopes>)
    requires Paired(bs) && |names| == |rights| == |bs| / 2 && Chain(fuel, bs, sc, scs)
    requires forall i | 0 <= i < |names| :: names[i] == bs[2 * i].sym && rights[i] == bs[2 * i + 1]
    ensures EvalLetStar(fuel, names, rights, sc) == Some(scs[|bs| / 2])
    decreases |bs|
  {
    hide Eval;
    if names != [] {
      var rest, n := bs[2..], |bs| / 2;
      assert |rest| / 2 == n - 1;
      forall i | 0 <= i < n - 1
        ensures rest[2 * i] == bs[2 * (i + 1)] && rest[2 * i + 1] == bs[2 * (i + 1) + 1]
        ensures names[1..][i] == rest[2 * i].sym && rights[1..][i] == rest[2 * i + 1]
      {
        assert names[1..][i] == names[i + 1] && rights[1..][i] == rights[i + 1];
      }
      assert rights[0] == bs[2 * 0 + 1] && names[0] == bs[2 * 0].sym;
      assert Link(fuel, bs[2 * 0], bs[2 * 0 + 1], scs[0], scs[0 + 1]);
      assert Chain(fuel, rest, scs[1], scs[1..]) by {
        hide Link;
        forall i | 0 <= i < n - 1 ensures Link(fuel, rest[2 * i], rest[2 * i + 1], scs[1..][i], scs[1..][i + 1]) {
          var j := i + 1;
          assert scs[1..][i] == scs[j] && scs[1..][i + 1] == scs[j + 1];
          assert Link(fuel, bs[2 * j], bs[2 * j + 1], scs[j], scs[j + 1]);
        }
      }
      ChainBinds(fuel, rest, names[1..], rights[1..], scs[1], scs[1..]);
    }
  }

  // ---------- templates ----------

  /** An unquoted template is its expression. */
  lemma UnquoteMeans(fuel: nat, num: int, u: int, e: Source, sc: Scopes)
    ensures EvalForm(fuel, Symbol("syntax-quote", num), [MakeList([Sym(Symbol("unquote", u)), e])], sc) ==
            Eval(fuel, e, sc)
  {
    hide Eval, MakeList, ExpandAll;
    var es := [Sym(Symbol("unquote", u)), e];
    MakeListElems(es);
    SizeAt(es, 1);
    SizeAt([MakeList(es)], 0);
    assert MakeList(es).Pair? by {
      ElemsMakeList(MakeList(es));
      assert MakeList(es) != Null;
    }
  }

  /** A template that is neither a list nor an array is a constant. */
  lemma ConstantMeans(a: Symbol, fuel: nat, num: int, e: Source, sc: Scopes)
    requires !e.Arr? && !IsList(e) && IsData(e)
    ensures var r := EvalForm(fuel, Symbol("syntax-quote", num), [e], sc);
            r.Val? && r.sc == sc && TrVal(a, r.v) == e
  {
    TrConstant(a, e);
  }

  /** Template `xs[i]` contributes the values `vss[i]` and leaves the scopes for the next. */
  ghost predicate Contribute(fuel: nat, xs: seq<Source>, scs: seq<Scopes>, vss: seq<seq<V>>) {
    && |vss| == |xs| && |scs| == |xs| + 1
    && forall i | 0 <= i < |xs| :: Expand(fuel, xs[i], scs[i]) == Vals(vss[i], scs[i + 1])
  }

  function Joined<T>(vss: seq<seq<T>>): seq<T> {
    if vss == [] then [] else vss[0] + Joined(vss[1..])
  }

  predicate Unquotes(xs: seq<Source>) {
    |xs| == 2 && xs[0].Sym? && xs[0].sym.name in {"unquote", "unquote-splicing"}
  }

  /** A list template is the list, and an array template the array, of all that its parts
      contribute, from left to right. */
  lemma TemplateMeans(fuel: nat, num: int, xs: seq<Source>, scs: seq<Scopes>, vss: seq<seq<V>>)
    requires Contribute(fuel, xs, scs, vss) && Marker !in Joined(vss)
    ensures EvalForm(fuel, Symbol("syntax-quote", num), [Arr(xs)], scs[0]) == Val(Arr(Joined(vss)), scs[|xs|])
    ensures xs != [] && !Unquotes(xs) ==>
              EvalForm(fuel, Symbol("syntax-quote", num), [MakeList(xs)], scs[0])
              == Val(MakeList(Joined(vss)), scs[|xs|])
  {
    hide ExpandAll, MakeList, Eval, Constant, Contribute, Joined;
    AllExpand(fuel, xs, scs, vss);
    SizeAt([Arr(xs)], 0);
    if xs != [] && !Unquotes(xs) {
      MakeListElems(xs);
      ProperPair(xs);
      SizeAt([MakeList(xs)], 0);
    }
  }

  lemma ProperPair<F>(es: seq<Sexp<F>>)
    requires es != []
    ensures MakeList(es).Pair?
  {
  }

  lemma {:induction false} AllExpand(fuel: nat, xs: seq<Source>, scs: seq<Scopes>, vss: seq<seq<V>>)
    requires Contribute(fuel, xs, scs, vss)
    ensures ExpandAll(fuel, xs, scs[0]) == Vals(Joined(vss), scs[|xs|])
    decreases |xs|
  {
    hide Expand;
    if xs != [] {
      forall i | 0 <= i < |xs| - 1 ensures Expand(fuel, xs[1..][i], scs[1..][i]) == Vals(vss[1..][i], scs[1..][i + 1]) {
        assert xs[1..][i] == xs[i + 1] && scs[1..][i] == scs[i + 1] && scs[1..][i + 1] == scs[(i + 1) + 1];
      }
      assert Expand(fuel, xs[0], scs[0]) == Vals(vss[0], scs[0 + 1]);
      AllExpand(fuel, xs[1..], scs[1..], vss[1..]);
    }
  }

  /** An unquoted part contributes its value, and a spliced one the elements of its value,
      which must be a list. */
  lemma UnquotesMean(fuel: nat, u: int, e: Source, sc: Scopes, v: V, sc': Scopes)
    requires Eval(fuel, e, sc) == Val(v, sc')
    ensures Expand(fuel, MakeList([Sym(Symbol("unquote", u)), e]), sc) == Vals([v], sc')
    ensures forall vs | v == MakeList(vs) ::
              Expand(fuel, MakeList([Sym(Symbol("unquote-splicing", u)), e]), sc) == Vals(vs, sc')
    ensures !IsList(v) ==> Expand(fuel, MakeList([Sym(Symbol("unquote-splicing", u)), e]), sc) == NoVals
  {
    hide Eval, MakeList, ExpandAll, Constant;
    var xs, ys := [Sym(Symbol("unquote", u)), e], [Sym(Symbol("unquote-splicing", u)), e];
    MakeListElems(xs);
    MakeListElems(ys);
    SizeAt(xs, 1);
    SizeAt(ys, 1);
    ProperPair(xs);
    ProperPair(ys);
    forall vs | v == MakeList(vs) ensures IsList(v) && Elems(v) == vs {
      MakeListElems(vs);
    }
  }

  // ---------- what is refused ----------

  /** A malformed form emits no code: an error for the wrong number or kind of operands, but
      a panic for `and` and `or` without any. */
  lemma Refused(a: Symbol, fname: string, num: int, es: seq<Source>, g: Gst)
    ensures es == [] ==> forall name | name in {"and", "or"} ::
                           GenNamed(a, fname, name, num, es, g) == Out([], g, Panicked)
    ensures es == [] ==> GenNamed(a, fname, "begin", num, es, g) == Out([], g.(tail := false), Failed)
    ensures |es| % 2 == 0 ==> GenNamed(a, fname, "cond", num, es, g) == Out([], g, Failed)
    ensures |es| != 2 || !es[0].Sym? ==> GenNamed(a, fname, "def", num, es, g) == Out([], g, Failed)
    ensures |es| != 1 ==> forall name | name in {"assert", "syntax-quote"} ::
                            GenNamed(a, fname, name, num, es, g) == Out([], g, Failed)
  {
    hide Gen, GenShort, GenCond, GenBindings, GenQuasi, ParseBindings, ParseParams;
  }

  /** So do a function whose parameters are no vector of symbols or that has no body. */
  lemma RefusedFunctions(a: Symbol, fname: string, num: int, es: seq<Source>, g: Gst)
    ensures |es| < 2 || !es[0].Arr? || (exists i | 0 <= i < |es[0].elems| :: !es[0].elems[i].Sym?) ==>
              GenNamed(a, fname, "fn", num, es, g) == Out([], g, Failed)
    ensures |es| < 3 || !es[0].Sym? || !es[1].Arr? || (exists i | 0 <= i < |es[1].elems| :: !es[1].elems[i].Sym?) ==>
              GenNamed(a, fname, "defn", num, es, g) == Out([], g, Failed)
  {
    if |es| >= 2 && es[0].Arr? {
      ParamsExact(es[0].elems);
    }
    if |es| >= 2 && es[1].Arr? {
      ParamsExact(es[1].elems);
    }
    hide GenBegin, ParseParams;
    assert |es| >= 2 && es[0].Arr? && ParseParams(es[0].elems).BadParams? ==>
             BuildFun(a, ANON, es[0].elems, es[1..]).err == Failed;
    assert |es| >= 3 && es[0].Sym? && es[1].Arr? && ParseParams(es[1].elems).BadParams? ==>
             BuildFun(a, FunName(es[0].sym.name), es[1].elems, es[2..]).err == Failed;
  }

  /** And a `let` whose bindings are no vector of names and expressions in turn. */
  lemma RefusedLets(a: Symbol, fname: string, num: int, es: seq<Source>, g: Gst, name: string)
    requires name in {"let", "let*"} && (|es| < 2 || !es[0].Arr? || !Paired(es[0].elems))
    ensures GenNamed(a, fname, name, num, es, g) == Out([], g, Failed)
  {
    hide BuildFun, GenBegin, GenBindings;
    if |es| >= 2 && es[0].Arr? {
      BindingsExact(es[0].elems);
      hide ParseBindings;
      assert ParseBindings(es[0].elems).Bindings? <==> Paired(es[0].elems);
    }
    hide Paired, ParseBindings;
    assert GenNamed(a, fname, name, num, es, g) == GenLet(a, fname, name == "let*", es, g);
  }

  function GenNamed(a: Symbol, fname: string, name: string, num: int, es: seq<Source>, g: Gst): Out {
    GenForm(a, fname, Symbol(name, num), es, g)
  }
}
