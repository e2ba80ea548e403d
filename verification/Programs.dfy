/** Compiler correctness by a condition on the text of a program alone. The evaluator of the
    correctness theorem applies only functions that compilation preserves; here it is shown
    that of a program whose functions are regular, and which binds the name of a function that
    loops to nothing but that function, the unrestricted language never applies another. */
module Programs {
  import opened Sexps
  import opened Scoping
  import opened Builtins
  import opened Instructions
  import opened Codegen
  import opened Machines
  import opened Evaluator
  import opened Translation
  import opened Wellformed
  import opened Simulation
  import opened Correctness
  import opened Policies
  import opened Regularity
  import opened Loading

  /** The policy that applies exactly the functions that compilation preserves. */
  function Careful(host: Host): Policy {
    (f: Closure, g: EFrame) => Preserved(host, f, g)
  }

  // ---------- values ----------

  /** `loops` has the functions that call themselves by jumping and are defined by now. */
  ghost predicate GoodV(a: Symbol, loops: Loops, v: V) {
    match v
    case Pair(h, t) => GoodV(a, loops, h) && GoodV(a, loops, t)
    case Arr(es) => forall i | 0 <= i < |es| :: GoodV(a, loops, es[i])
    case Fun(f) => GoodC(a, loops, f)
    case _ => true
  }

  ghost predicate GoodC(a: Symbol, loops: Loops, c: Closure) {
    match c
    case Builtin(_) => true
    case Closure(name, num, params, body, env) =>
      (forall s | s in env :: GoodV(a, loops, env[s])) && exists loc, may :: MadeIn(a, loops, c, loc, may)
  }

  predicate InTable(loops: Loops, c: Closure) {
    c.Closure? && c.num.Some? && c.num.value in loops && loops[c.num.value] == c
  }

  /** A function made of a regular text, in a place where at most the names in `loc` were
      bound locally: none, for one that `defn` made. It may loop only if the table has it. */
  predicate MadeIn(a: Symbol, loops: Loops, c: Closure, loc: set<int>, may: bool) {
    && c.Closure? && c.env.Keys <= loc && (c.num.Some? ==> loc == {}) && (may ==> InTable(loops, c))
    && RegularFun(a, Inner(loc), may, c.name, if c.num.Some? then c.num.value else 0, c.params, c.body)
  }

  ghost predicate GoodVs(a: Symbol, loops: Loops, vs: seq<V>) {
    forall i | 0 <= i < |vs| :: GoodV(a, loops, vs[i])
  }

  ghost predicate GoodF(a: Symbol, loops: Loops, f: EFrame) {
    forall s | s in f :: GoodV(a, loops, f[s])
  }

  ghost predicate GoodFs(a: Symbol, loops: Loops, fs: seq<EFrame>) {
    forall i | 0 <= i < |fs| :: GoodF(a, loops, fs[i])
  }

  // ---------- the table of the functions that loop ----------

  /** The names of the table can be used for its functions. */
  predicate Usable(host: Host, loops: Loops) {
    forall n | n in loops ::
      && loops[n].Closure? && loops[n].num == Some(n) && n !in host.builtins
      && ParseParams(loops[n].params).Params? && n !in Nums(ParseParams(loops[n].params).names)
  }

  /** The functions of the table that are defined by now. */
  function Now(loops: Loops, glob: EFrame): Loops {
    map n | n in loops && n in glob && glob[n] == Fun(loops[n]) :: loops[n]
  }

  ghost predicate Less(loops: Loops, loops': Loops) {
    forall n | n in loops :: n in loops' && loops'[n] == loops[n]
  }

  // ---------- scopes ----------

  predicate Within(fs: seq<EFrame>, loc: set<int>) {
    forall i | 0 <= i < |fs| :: fs[i].Keys <= loc
  }

  ghost predicate Sits(sc: Scopes, p: Place, loops: Loops) {
    if sc.locals == [] then p == Outer(loops) else p.Inner? && Within(sc.locals, p.names)
  }

  ghost predicate GoodScopes(sc: Scopes, loops: Loops) {
    GoodF(sc.host.arr, loops, sc.glob) && GoodFs(sc.host.arr, loops, sc.locals)
  }

  ghost predicate Sane(sc: Scopes, p: Place, loops: Loops) {
    && sc.ok == Careful(sc.host) && Usable(sc.host, loops)
    && GoodScopes(sc, Now(loops, sc.glob)) && Sits(sc, p, loops)
  }

  /** The names that may be bound in a local scope. */
  predicate Room(p: Place, names: set<int>) {
    p.Inner? ==> names <= p.names
  }

  /** What evaluation gives: a good value, and sane scopes in which the functions that were
      defined still are. */
  ghost predicate Gives(sc: Scopes, p: Place, loops: Loops, r: Outcome) {
    && r.Val? && r.sc.host == sc.host && Sane(r.sc, p, loops)
    && Less(Now(loops, sc.glob), Now(loops, r.sc.glob)) && GoodV(sc.host.arr, Now(loops, r.sc.glob), r.v)
  }

  ghost predicate GivesAll(sc: Scopes, p: Place, loops: Loops, r: Outcomes) {
    && r.Vals? && r.after.host == sc.host && Sane(r.after, p, loops)
    && Less(Now(loops, sc.glob), Now(loops, r.after.glob)) && GoodVs(sc.host.arr, Now(loops, r.after.glob), r.vs)
  }

  /** A good function is one that compilation preserves. */
  lemma GoodPreserved(sc: Scopes, p: Place, loops: Loops, c: Closure)
    requires Sane(sc, p, loops) && GoodC(sc.host.arr, Now(loops, sc.glob), c) && c.Closure?
    ensures Preserved(sc.host, c, sc.glob) && sc.ok(c, sc.glob)
  {
    hide GoodV, GoodScopes, BuildFun, WFBegin, RegularAll, ParseParams, Nested, Mentions;
    var loc, may :| MadeIn(sc.host.arr, Now(loops, sc.glob), c, loc, may);
    assert CapturesEnough(c, BuildFun(sc.host.arr, c.name, c.params, c.body).fn.fun);
  }

  // ---------- what programs do to values ----------

  lemma {:induction false} GoodElems(a: Symbol, loops: Loops, v: V)
    requires IsList(v) && GoodV(a, loops, v)
    ensures GoodVs(a, loops, Elems(v))
  {
    if v.Pair? {
      GoodElems(a, loops, v.tail);
    }
  }

  lemma {:induction false} GoodList(a: Symbol, loops: Loops, vs: seq<V>)
    requires GoodVs(a, loops, vs)
    ensures GoodV(a, loops, MakeList(vs))
  {
    if vs != [] {
      GoodList(a, loops, vs[1..]);
    }
  }

  lemma {:induction false} GoodRecast<F>(a: Symbol, loops: Loops, e: Sexp<F>)
    ensures GoodV(a, loops, Recast(e))
  {
    match e
    case Pair(h, t) =>
      GoodRecast(a, loops, h);
      GoodRecast(a, loops, t);
    case Arr(es) =>
      forall i | 0 <= i < |es| ensures GoodV(a, loops, Recast(es[i])) {
        GoodRecast(a, loops, es[i]);
      }
    case _ =>
  }

  lemma GoodPrim(host: Host, loops: Loops, which: string, name: string, args: seq<V>)
    requires GoodVs(host.arr, loops, args) && Prim(host, which, name, args).Some?
    ensures GoodV(host.arr, loops, Prim(host, which, name, args).value)
  {
    GoodList(host.arr, loops, args);
    if forall i | 0 <= i < |args| :: IsData(args[i]) {
      var d := host.prims(which, name, RecastAll(args));
      if d.Some? {
        GoodRecast(host.arr, loops, d.value);
      }
    }
  }

  lemma {:induction false} GoodLookup(a: Symbol, loops: Loops, fs: seq<EFrame>, s: int)
    requires GoodFs(a, loops, fs) && LookupLocal(fs, s).Some?
    ensures GoodV(a, loops, LookupLocal(fs, s).value)
  {
    hide GoodV;
    if s !in fs[|fs| - 1] {
      GoodLookup(a, loops, fs[..|fs| - 1], s);
    }
  }

  lemma {:induction false} GoodVisible(a: Symbol, loops: Loops, fs: seq<EFrame>, loc: set<int>)
    requires GoodFs(a, loops, fs) && Within(fs, loc)
    ensures GoodF(a, loops, Visible(fs)) && Visible(fs).Keys <= loc
  {
    hide GoodV;
    if fs != [] {
      GoodVisible(a, loops, fs[..|fs| - 1], loc);
    }
  }

  lemma {:induction false} GoodBindAll(a: Symbol, loops: Loops, f: EFrame, names: seq<Symbol>, vs: seq<V>)
    requires |names| == |vs| && GoodF(a, loops, f) && GoodVs(a, loops, vs)
    ensures GoodF(a, loops, BindAll(f, names, vs))
    decreases |names|
  {
    hide GoodV;
    if names != [] {
      var n := |names| - 1;
      GoodBindAll(a, loops, f[names[n].num := vs[n]], names[..n], vs[..n]);
    }
  }

  /** A good value stays good when more functions are defined. */
  lemma {:induction false} GoodMore(a: Symbol, loops: Loops, loops': Loops, v: V)
    requires GoodV(a, loops, v) && Less(loops, loops')
    ensures GoodV(a, loops', v)
    decreases v
  {
    hide RegularFun;
    match v
    case Pair(h, t) =>
      GoodMore(a, loops, loops', h);
      GoodMore(a, loops, loops', t);
    case Arr(es) =>
      forall i | 0 <= i < |es| ensures GoodV(a, loops', es[i]) {
        GoodMore(a, loops, loops', es[i]);
      }
    case Fun(c) =>
      if c.Closure? {
        forall s | s in c.env ensures GoodV(a, loops', c.env[s]) {
          GoodMore(a, loops, loops', c.env[s]);
        }
        var loc, may :| MadeIn(a, loops, c, loc, may);
        assert MadeIn(a, loops', c, loc, may);
      }
    case _ =>
  }

  lemma GoodMoreAll(a: Symbol, loops: Loops, loops': Loops, vs: seq<V>)
    requires GoodVs(a, loops, vs) && Less(loops, loops')
    ensures GoodVs(a, loops', vs)
  {
    hide GoodV, Less;
    forall i | 0 <= i < |vs| ensures GoodV(a, loops', vs[i]) {
      GoodMore(a, loops, loops', vs[i]);
    }
  }

  lemma GoodMoreScopes(sc: Scopes, loops: Loops, loops': Loops)
    requires GoodScopes(sc, loops) && Less(loops, loops')
    ensures GoodScopes(sc, loops')
  {
    hide GoodV, Less;
    forall s | s in sc.glob ensures GoodV(sc.host.arr, loops', sc.glob[s]) {
      GoodMore(sc.host.arr, loops, loops', sc.glob[s]);
    }
    forall i, s | 0 <= i < |sc.locals| && s in sc.locals[i] ensures GoodV(sc.host.arr, loops', sc.locals[i][s]) {
      assert GoodF(sc.host.arr, loops, sc.locals[i]);
      GoodMore(sc.host.arr, loops, loops', sc.locals[i][s]);
    }
  }

  // ---------- what programs do to scopes ----------

  /** Binding a name that the table does not have. */
  lemma SaneBind(sc: Scopes, p: Place, loops: Loops, s: int, v: V)
    requires Sane(sc, p, loops) && GoodV(sc.host.arr, Now(loops, sc.glob), v) && Room(p, {s}) && KeepsTable(p, s, None)
    ensures Sane(sc.Bind(s, v), p, loops) && Now(loops, sc.Bind(s, v).glob) == Now(loops, sc.glob)
  {
    hide GoodV, Usable;
    var sc' := sc.Bind(s, v);
    assert Now(loops, sc'.glob) == Now(loops, sc.glob);
  }

  /** Binding the name of a function of the table, to that function. */
  lemma SaneDefine(sc: Scopes, loops: Loops, n: int, c: Closure)
    requires Sane(sc, Outer(loops), loops) && sc.locals == []
    requires n in loops && loops[n] == c && c.Closure? && c.env == map[]
    requires exists loc :: MadeIn(sc.host.arr, loops, c, loc, true)
    ensures Sane(sc.Bind(n, Fun(c)), Outer(loops), loops)
    ensures Less(Now(loops, sc.glob), Now(loops, sc.Bind(n, Fun(c)).glob))
  {
    hide RegularFun;
    var a, sc' := sc.host.arr, sc.Bind(n, Fun(c));
    assert c.num == Some(n);
    hide Usable;
    var now, now' := Now(loops, sc.glob), Now(loops, sc'.glob);
    assert n in now' && now'[n] == c;
    var loc :| MadeIn(a, loops, c, loc, true);
    assert MadeIn(a, now', c, loc, true);
    assert GoodV(a, now', Fun(c));
    GoodMoreScopes(sc, now, now');
    hide GoodV;
  }

  lemma SaneBindList(sc: Scopes, p: Place, loops: Loops, names: seq<Symbol>, vs: seq<V>)
    requires |names| == |vs| && sc.locals != [] && Room(p, Nums(names))
    requires Sane(sc, p, loops) && GoodVs(sc.host.arr, Now(loops, sc.glob), vs)
    ensures Sane(sc.BindList(names, vs), p, loops) && sc.BindList(names, vs).glob == sc.glob
  {
    hide GoodV, Nums, Careful, GoodF, Usable, Now;
    var n, now := |sc.locals| - 1, Now(loops, sc.glob);
    assert GoodF(sc.host.arr, now, sc.locals[n]);
    GoodBindAll(sc.host.arr, now, sc.locals[n], names, vs);
    BindAllKeys(sc.locals[n], names, vs);
    hide BindAll;
  }

  lemma SaneEnter(sc: Scopes, p: Place, loops: Loops, more: set<int>)
    requires Sane(sc, p, loops)
    ensures Sane(sc.Enter(), Wider(Enclosed(p), more), loops)
  {
    hide GoodV, Careful, Usable, Now;
  }

  lemma SaneLeave(sc: Scopes, sc': Scopes, p: Place, p': Place, loops: Loops)
    requires Sane(sc, p, loops) && Sane(sc', p', loops) && Follows(sc.Enter(), sc')
    ensures Sane(sc'.Leave(), p, loops) && sc'.glob == sc.glob
  {
    hide GoodV, Careful, GoodF, Usable, Now;
    assert sc.Enter().locals[..|sc.locals|] == sc.locals;
  }

  // ---------- what evaluation gives ----------

  lemma GivesHere(sc: Scopes, p: Place, loops: Loops, v: V)
    requires Sane(sc, p, loops) && GoodV(sc.host.arr, Now(loops, sc.glob), v)
    ensures Gives(sc, p, loops, Val(v, sc))
  {
    hide Sane, GoodV, Now;
  }

  lemma GivesLater(sc: Scopes, p: Place, loops: Loops, r: Outcome, q: Outcome)
    requires Gives(sc, p, loops, r) && Gives(r.sc, p, loops, q)
    ensures Gives(sc, p, loops, q)
  {
    hide Sane, GoodV, Now;
  }

  /** One value after another. */
  lemma GivesMore(sc: Scopes, p: Place, loops: Loops, r: Outcome, q: Outcomes)
    requires Gives(sc, p, loops, r) && GivesAll(r.sc, p, loops, q)
    ensures GivesAll(sc, p, loops, Vals([r.v] + q.vs, q.after))
  {
    hide Sane, GoodV, Now;
    GoodMore(sc.host.arr, Now(loops, r.sc.glob), Now(loops, q.after.glob), r.v);
  }

  lemma GivesBoth(sc: Scopes, p: Place, loops: Loops, r: Outcomes, q: Outcomes)
    requires GivesAll(sc, p, loops, r) && GivesAll(r.after, p, loops, q)
    ensures GivesAll(sc, p, loops, Vals(r.vs + q.vs, q.after))
  {
    hide Sane, GoodV, Now;
    GoodMoreAll(sc.host.arr, Now(loops, r.after.glob), Now(loops, q.after.glob), r.vs);
  }

  /** The values are still good after what follows them. */
  lemma GivesAfter(sc: Scopes, p: Place, loops: Loops, r: Outcomes, q: Outcome)
    requires GivesAll(sc, p, loops, r) && Gives(r.after, p, loops, q)
    ensures Gives(sc, p, loops, q) && GoodVs(sc.host.arr, Now(loops, q.sc.glob), r.vs)
  {
    hide Sane, GoodV, Now;
    GoodMoreAll(sc.host.arr, Now(loops, r.after.glob), Now(loops, q.sc.glob), r.vs);
  }

  lemma GivesNone(sc: Scopes, p: Place, loops: Loops)
    requires Sane(sc, p, loops)
    ensures GivesAll(sc, p, loops, Vals([], sc))
  {
    hide Sane, GoodV, Now;
  }

  /** What `Gives` says of the outcome alone. */
  lemma Given(sc: Scopes, p: Place, loops: Loops, r: Outcome)
    requires Gives(sc, p, loops, r)
    ensures r.Val? && r.sc.host == sc.host && Sane(r.sc, p, loops) && GoodV(sc.host.arr, Now(loops, r.sc.glob), r.v)
  {
    hide Sane, GoodV, Now;
  }

  lemma GivenAll(sc: Scopes, p: Place, loops: Loops, r: Outcomes)
    requires GivesAll(sc, p, loops, r)
    ensures r.Vals? && r.after.host == sc.host && Sane(r.after, p, loops)
            && GoodVs(sc.host.arr, Now(loops, r.after.glob), r.vs)
  {
    hide Sane, GoodV, Now;
  }

  /** Another good value in place of the one that was given. */
  lemma GivesInstead(sc: Scopes, p: Place, loops: Loops, r: Outcome, v: V)
    requires Gives(sc, p, loops, r) && GoodV(sc.host.arr, Now(loops, r.sc.glob), v)
    ensures Gives(sc, p, loops, Val(v, r.sc))
  {
    hide Sane, GoodV, Now;
  }

  lemma GivesThese(sc: Scopes, p: Place, loops: Loops, r: Outcome, vs: seq<V>)
    requires Gives(sc, p, loops, r) && GoodVs(sc.host.arr, Now(loops, r.sc.glob), vs)
    ensures GivesAll(sc, p, loops, Vals(vs, r.sc))
  {
    hide Sane, GoodV, Now;
  }

  lemma GivesOne(sc: Scopes, p: Place, loops: Loops, r: Outcomes, v: V)
    requires GivesAll(sc, p, loops, r) && GoodV(sc.host.arr, Now(loops, r.after.glob), v)
    ensures GivesAll(sc, p, loops, Vals([v], r.after))
  {
    hide Sane, GoodV, Now;
  }

  // ---------- evaluation applies preserved functions only ----------

  lemma {:induction false} SExpr(fuel: nat, e: Source, sc: Scopes, p: Place, loops: Loops)
    requires Sane(sc, p, loops) && Regular(sc.host.arr, p, e) && Room(p, Binds(e))
    requires Eval(fuel, e, Free(sc)).Val?
    ensures Gives(sc, p, loops, Eval(fuel, e, sc))
    decreases fuel, Size(e), 0
  {
    hide Sane, GoodV, Room, Less, Now, EvalForm, EvalDispatch, EvalAll, RegularForm, RegularAll, BindsForm, BindsAll;
    match e
    case Sym(s) =>
      SName(s.num, sc, p, loops);
      GivesHere(sc, p, loops, Lookup(sc.glob, sc.locals, s.num).value);
    case Pair(h, t) =>
      if !IsList(e) {
        SConstant(e, sc, p, loops);
      } else if h.Sym? {
        SForm(fuel, h.sym, Elems(t), sc, p, loops);
      } else {
        SDispatch(fuel, h, Elems(t), sc, p, loops);
      }
    case Arr(es) =>
      SAll(fuel, es, sc, p, loops);
      var r := EvalAll(fuel, es, sc);
      FreeAll(fuel, es, sc);
      GoodArray(sc.host.arr, Now(loops, r.after.glob), r.vs);
    case _ => SConstant(e, sc, p, loops);
  }

  lemma GoodArray(a: Symbol, loops: Loops, vs: seq<V>)
    requires GoodVs(a, loops, vs)
    ensures GoodV(a, loops, Arr(vs))
  {
  }

  lemma SConstant(e: Source, sc: Scopes, p: Place, loops: Loops)
    requires Sane(sc, p, loops)
    ensures Gives(sc, p, loops, Val(Recast(e), sc))
  {
    GoodRecast(sc.host.arr, Now(loops, sc.glob), e);
    hide Sane, GoodV, Now;
  }

  lemma SName(s: int, sc: Scopes, p: Place, loops: Loops)
    requires Sane(sc, p, loops) && Lookup(sc.glob, sc.locals, s).Some?
    ensures GoodV(sc.host.arr, Now(loops, sc.glob), Lookup(sc.glob, sc.locals, s).value)
  {
    hide GoodV, LookupLocal, Now;
    if LookupLocal(sc.locals, s).Some? {
      GoodLookup(sc.host.arr, Now(loops, sc.glob), sc.locals, s);
    }
  }

  lemma {:induction false} SAll(fuel: nat, es: seq<Source>, sc: Scopes, p: Place, loops: Loops)
    requires Sane(sc, p, loops) && RegularAll(sc.host.arr, p, es) && Room(p, BindsAll(es))
    requires EvalAll(fuel, es, Free(sc)).Vals?
    ensures GivesAll(sc, p, loops, EvalAll(fuel, es, sc))
    decreases fuel, SizeSeq(es), 1
  {
    hide Sane, GoodV, Less, Now, GoodVs, Eval, Regular, Binds;
    if es == [] {
      GivesNone(sc, p, loops);
    } else {
      SExpr(fuel, es[0], sc, p, loops);
      FreeEval(fuel, es[0], sc);
      var r := Eval(fuel, es[0], sc);
      SAll(fuel, es[1..], r.sc, p, loops);
      GivesMore(sc, p, loops, r, EvalAll(fuel, es[1..], r.sc));
    }
  }

  lemma {:induction false} SBegin(fuel: nat, es: seq<Source>, sc: Scopes, p: Place, loops: Loops)
    requires Sane(sc, p, loops) && RegularAll(sc.host.arr, p, es) && Room(p, BindsAll(es))
    requires EvalBegin(fuel, es, Free(sc)).Val?
    ensures Gives(sc, p, loops, EvalBegin(fuel, es, sc))
    decreases fuel, SizeSeq(es), 2
  {
    hide Sane, GoodV, Less, Now, Eval, Regular, Binds;
    SExpr(fuel, es[0], sc, p, loops);
    FreeEval(fuel, es[0], sc);
    if |es| > 1 {
      var r := Eval(fuel, es[0], sc);
      SBegin(fuel, es[1..], r.sc, p, loops);
      GivesLater(sc, p, loops, r, EvalBegin(fuel, es[1..], r.sc));
    }
  }

  lemma {:induction false} SShort(fuel: nat, or: bool, es: seq<Source>, sc: Scopes, p: Place, loops: Loops)
    requires es != [] && Sane(sc, p, loops) && RegularAll(sc.host.arr, p, es) && Room(p, BindsAll(es))
    requires EvalShort(fuel, or, es, Free(sc)).Val?
    ensures Gives(sc, p, loops, EvalShort(fuel, or, es, sc))
    decreases fuel, SizeSeq(es), 2
  {
    hide Sane, GoodV, Less, Now, Eval, Regular, Binds;
    SExpr(fuel, es[0], sc, p, loops);
    FreeEval(fuel, es[0], sc);
    var r := Eval(fuel, es[0], sc);
    if |es| > 1 && IsTruthy(r.v) != or {
      SShort(fuel, or, es[1..], r.sc, p, loops);
      GivesLater(sc, p, loops, r, EvalShort(fuel, or, es[1..], r.sc));
    }
  }

  lemma {:induction false} SCond(fuel: nat, es: seq<Source>, sc: Scopes, p: Place, loops: Loops)
    requires |es| % 2 == 1 && Sane(sc, p, loops) && RegularAll(sc.host.arr, p, es) && Room(p, BindsAll(es))
    requires EvalCond(fuel, es, Free(sc)).Val?
    ensures Gives(sc, p, loops, EvalCond(fuel, es, sc))
    decreases fuel, SizeSeq(es), 2
  {
    hide Sane, GoodV, Less, Now, Eval, Regular, Binds;
    SExpr(fuel, es[0], sc, p, loops);
    FreeEval(fuel, es[0], sc);
    if |es| > 1 {
      SizeAt(es, 1);
      SizeAt(es, 2);
      RegularTail(sc.host.arr, p, es);
      assert es[1..][1..] == es[2..];
      var r := Eval(fuel, es[0], sc);
      if IsTruthy(r.v) {
        SExpr(fuel, es[1], r.sc, p, loops);
        GivesLater(sc, p, loops, r, Eval(fuel, es[1], r.sc));
      } else {
        SCond(fuel, es[2..], r.sc, p, loops);
        GivesLater(sc, p, loops, r, EvalCond(fuel, es[2..], r.sc));
      }
    }
  }

  lemma {:induction false} SLetStar(fuel: nat, names: seq<Symbol>, rights: seq<Source>, sc: Scopes, p: Place,
                                    loops: Loops)
    requires |names| == |rights| && p.Inner? && Room(p, Nums(names)) && Room(p, BindsAll(rights))
    requires Sane(sc, p, loops) && RegularAll(sc.host.arr, p, rights)
    requires EvalLetStar(fuel, names, rights, Free(sc)).Some?
    ensures var r := EvalLetStar(fuel, names, rights, sc); r.Some? && Sane(r.value, p, loops)
    decreases fuel, SizeSeq(rights), 2
  {
    hide Sane, GoodV, Less, Now, Eval, Regular, Binds;
    if names != [] {
      SExpr(fuel, rights[0], sc, p, loops);
      FreeEval(fuel, rights[0], sc);
      var r := Eval(fuel, rights[0], sc);
      assert names[0].num in Nums(names);
      assert Nums(names[1..]) <= Nums(names) by {
        forall i | 0 <= i < |names[1..]| ensures names[1..][i].num in Nums(names) {
          assert names[1..][i] == names[i + 1];
        }
      }
      hide Nums;
      SaneBind(r.sc, p, loops, names[0].num, r.v);
      SLetStar(fuel, names[1..], rights[1..], r.sc.Bind(names[0].num, r.v), p, loops);
    }
  }

  lemma {:induction false} SBindings(fuel: nat, star: bool, b: Bindings, sc: Scopes, p: Place, loops: Loops)
    requires b.Bindings? && |b.names| == |b.rights| && sc.locals != [] && p.Inner?
    requires Room(p, Nums(b.names)) && Room(p, BindsAll(b.rights))
    requires Sane(sc, p, loops) && RegularAll(sc.host.arr, p, b.rights)
    requires EvalBindings(fuel, star, b, Free(sc)).Some?
    ensures var r := EvalBindings(fuel, star, b, sc); r.Some? && Sane(r.value, p, loops)
    decreases fuel, SizeSeq(b.rights), 3
  {
    hide Sane, GoodV, Less, Now, EvalAll, EvalLetStar, RegularAll, Nums;
    if star {
      SLetStar(fuel, b.names, b.rights, sc, p, loops);
    } else {
      SAll(fuel, b.rights, sc, p, loops);
      var r := EvalAll(fuel, b.rights, sc);
      SaneBindList(r.after, p, loops, b.names, r.vs);
    }
  }

  lemma {:induction false} SLet(fuel: nat, star: bool, args: seq<Source>, sc: Scopes, p: Place, loops: Loops)
    requires Sane(sc, p, loops) && RegularLet(sc.host.arr, Enclosed(p), args)
    requires EvalLet(fuel, star, args, Free(sc)).Val?
    ensures Gives(sc, p, loops, EvalLet(fuel, star, args, sc))
    decreases fuel, SizeSeq(args), 3
  {
    hide GoodV, Less, Now, EvalBegin, EvalBindings, ParseBindings, RegularAll, Nums, BindsAll, GoodScopes, Usable;
    hide Careful;
    SizeAt(args, 0);
    var b := ParseBindings(args[0].elems);
    var p' := Wider(Enclosed(p), LetNames(b, args[1..]));
    SaneEnter(sc, p, loops, LetNames(b, args[1..]));
    assert p'.Inner?;
    hide Sane;
    SBindings(fuel, star, b, sc.Enter(), p', loops);
    var sc' := EvalBindings(fuel, star, b, sc.Enter()).value;
    FreeBindings(fuel, star, b, sc.Enter());
    SBegin(fuel, args[1..], sc', p', loops);
    var r := EvalBegin(fuel, args[1..], sc');
    SaneLeave(sc, r.sc, p, p', loops);
    GivesInside(sc, p, loops, r);
  }

  lemma GivesInside(sc: Scopes, p: Place, loops: Loops, r: Outcome)
    requires r.Val? && r.sc.locals != [] && r.sc.host == sc.host && r.sc.glob == sc.glob && Sane(r.sc.Leave(), p, loops)
    requires GoodV(sc.host.arr, Now(loops, r.sc.glob), r.v)
    ensures Gives(sc, p, loops, Val(r.v, r.sc.Leave()))
  {
    hide Sane, GoodV, Now;
  }

  lemma FreeBindings(fuel: nat, star: bool, b: Bindings, sc: Scopes)
    requires b.Bindings? && |b.names| == |b.rights| && EvalBindings(fuel, star, b, sc).Some?
    ensures EvalBindings(fuel, star, b, Free(sc)) == Some(Free(EvalBindings(fuel, star, b, sc).value))
  {
    hide EvalAll, EvalLetStar;
    if star {
      FreeLetStar(fuel, b.names, b.rights, sc);
    } else {
      FreeAll(fuel, b.rights, sc);
    }
  }

  lemma {:induction false} SDispatch(fuel: nat, h: Source, args: seq<Source>, sc: Scopes, p: Place, loops: Loops)
    requires Sane(sc, p, loops) && Regular(sc.host.arr, p, h) && RegularAll(sc.host.arr, p, args)
    requires Room(p, Binds(h) + BindsAll(args)) && EvalDispatch(fuel, h, args, Free(sc)).Val?
    ensures Gives(sc, p, loops, EvalDispatch(fuel, h, args, sc))
    decreases fuel, Size(h) + SizeSeq(args), 3
  {
    hide Sane, GoodV, GoodVs, Gives, GivesAll, Now, Eval, EvalAll, ApplyNamed, Regular, RegularAll, Binds, BindsAll;
    hide GoodC;
    SAll(fuel, args, sc, p, loops);
    var r := EvalAll(fuel, args, sc);
    GivenAll(sc, p, loops, r);
    FreeAll(fuel, args, sc);
    SExpr(fuel, h, r.after, p, loops);
    var q := Eval(fuel, h, r.after);
    Given(r.after, p, loops, q);
    FreeEval(fuel, h, r.after);
    GivesAfter(sc, p, loops, r, q);
    GoodFunction(sc.host.arr, Now(loops, q.sc.glob), q.v);
    var name := if q.v.fn.Builtin? then q.v.fn.which else q.v.fn.name;
    SApply(fuel, q.v.fn, name, r.vs, q.sc, p, loops);
    GivesInstead(sc, p, loops, q, ApplyNamed(fuel, q.v.fn, name, r.vs, q.sc).value);
  }

  lemma {:induction false} SForm(fuel: nat, s: Symbol, args: seq<Source>, sc: Scopes, p: Place, loops: Loops)
    requires Sane(sc, p, loops) && RegularForm(sc.host.arr, p, s, args) && Room(p, BindsForm(s, args))
    requires EvalForm(fuel, s, args, Free(sc)).Val?
    ensures Gives(sc, p, loops, EvalForm(fuel, s, args, sc))
    decreases fuel, SizeSeq(args), 4
  {
    hide Sane, GoodV, Less, Now, FormOf, Eval, EvalAll, EvalBegin, EvalShort, EvalCond, EvalLet, Expand, ApplyNamed;
    hide IsTruthy, Visible, KeepsTable, MayLoop, Enclosed, Apart;
    hide Regular, RegularAll, RegularFun, RegularLet, RegularQuasi, Binds, BindsAll, BindsQuasi;
    match FormOf(s.name)
    case And => SShort(fuel, false, args, sc, p, loops);
    case Or => SShort(fuel, true, args, sc, p, loops);
    case Cond => SCond(fuel, args, sc, p, loops);
    case Quote => SConstant(args[0], sc, p, loops);
    case Def => SDef(fuel, args, sc, p, loops);
    case Fn => SFn(args, sc, p, loops);
    case Defn => SDefn(args, sc, p, loops);
    case Begin => SBegin(fuel, args, sc, p, loops);
    case Let => SLet(fuel, false, args, sc, p, loops);
    case LetStar => SLet(fuel, true, args, sc, p, loops);
    case Assert => SAssert(fuel, args, sc, p, loops);
    case SyntaxQuote =>
      SizeAt(args, 0);
      SQuasi(fuel, args[0], sc, p, loops);
      FreeExpand(fuel, args[0], sc);
    case Elsewhere =>
    case Ordinary => SOrdinary(fuel, s, args, sc, p, loops);
  }

  lemma GivesNull(sc: Scopes, p: Place, loops: Loops, sc': Scopes)
    requires Sane(sc', p, loops) && sc'.host == sc.host && Less(Now(loops, sc.glob), Now(loops, sc'.glob))
    ensures Gives(sc, p, loops, Val(Null, sc'))
  {
    hide Sane, Less, Now;
  }

  lemma {:induction false} SDef(fuel: nat, args: seq<Source>, sc: Scopes, p: Place, loops: Loops)
    requires |args| == 2 && args[0].Sym? && Sane(sc, p, loops) && RegularAll(sc.host.arr, p, args)
    requires KeepsTable(p, args[0].sym.num, None)
    requires Room(p, {args[0].sym.num} + Binds(args[1])) && Eval(fuel, args[1], Free(sc)).Val?
    ensures var r := Eval(fuel, args[1], sc);
            r.Val? && Gives(sc, p, loops, Val(Null, r.sc.Bind(args[0].sym.num, r.v)))
    decreases fuel, SizeSeq(args), 3
  {
    hide Sane, GoodV, Less, Now, Eval, Regular, Binds, KeepsTable;
    SizeAt(args, 1);
    RegularTail(sc.host.arr, p, args);
    SExpr(fuel, args[1], sc, p, loops);
    var r := Eval(fuel, args[1], sc);
    SaneBind(r.sc, p, loops, args[0].sym.num, r.v);
    GivesNull(sc, p, loops, r.sc.Bind(args[0].sym.num, r.v));
  }

  lemma SFn(args: seq<Source>, sc: Scopes, p: Place, loops: Loops)
    requires |args| >= 2 && args[0].Arr? && Sane(sc, p, loops)
    requires RegularFun(sc.host.arr, Enclosed(p), false, ANON, 0, args[0].elems, args[1..])
    ensures var c := Closure(ANON, None, args[0].elems, args[1..], Visible(sc.locals));
            Gives(sc, p, loops, Val(Fun(c), sc))
  {
    hide RegularFun, Visible, Now, Careful, Usable;
    var a, now := sc.host.arr, Now(loops, sc.glob);
    var c := Closure(ANON, None, args[0].elems, args[1..], Visible(sc.locals));
    assert Enclosed(p).Inner? && Within(sc.locals, Enclosed(p).names);
    GoodVisible(a, now, sc.locals, Enclosed(p).names);
    assert MadeIn(a, now, c, Enclosed(p).names, false);
    assert GoodV(a, now, Fun(c));
    hide Sane, GoodV;
    GivesHere(sc, p, loops, Fun(c));
  }

  lemma SDefn(args: seq<Source>, sc: Scopes, p: Place, loops: Loops)
    requires |args| >= 3 && args[0].Sym? && args[1].Arr? && Sane(sc, p, loops) && Room(p, {args[0].sym.num})
    requires KeepsTable(p, args[0].sym.num, Some(Defined(args[0].sym, args[1].elems, args[2..])))
    requires RegularFun(sc.host.arr, Apart(p), MayLoop(p, args[0].sym.num), FunName(args[0].sym.name), args[0].sym.num,
             args[1].elems, args[2..])
    ensures var s := args[0].sym;
            Gives(sc, p, loops, Val(Null, sc.Bind(s.num, Fun(Defined(s, args[1].elems, args[2..])))))
  {
    hide RegularFun, Now, Careful, Usable, GoodScopes, Less;
    var a, now, n := sc.host.arr, Now(loops, sc.glob), args[0].sym.num;
    var c := Defined(args[0].sym, args[1].elems, args[2..]);
    assert Apart(p) == Inner({});
    if p.Outer? && n in loops {
      assert MadeIn(a, loops, c, {}, true);
      SaneDefine(sc, loops, n, c);
    } else {
      assert MadeIn(a, now, c, {}, false);
      assert GoodV(a, now, Fun(c));
      hide Sane;
      SaneBind(sc, p, loops, n, Fun(c));
      LessSelf(now);
    }
    GivesNull(sc, p, loops, sc.Bind(n, Fun(c)));
  }

  lemma LessSelf(loops: Loops)
    ensures Less(loops, loops)
  {
  }

  lemma {:induction false} SAssert(fuel: nat, args: seq<Source>, sc: Scopes, p: Place, loops: Loops)
    requires |args| == 1 && Sane(sc, p, loops) && RegularAll(sc.host.arr, p, args)
    requires Room(p, BindsAll(args)) && Eval(fuel, args[0], Free(sc)).Val?
    ensures var r := Eval(fuel, args[0], sc);
            && r.Val? && r.v == Eval(fuel, args[0], Free(sc)).v && Gives(sc, p, loops, Val(Null, r.sc))
    decreases fuel, SizeSeq(args), 3
  {
    hide Sane, GoodV, Less, Now, Eval, Regular, Binds;
    SizeAt(args, 0);
    SExpr(fuel, args[0], sc, p, loops);
    FreeEval(fuel, args[0], sc);
    GivesNull(sc, p, loops, Eval(fuel, args[0], sc).sc);
  }

  lemma {:induction false} SOrdinary(fuel: nat, s: Symbol, args: seq<Source>, sc: Scopes, p: Place, loops: Loops)
    requires FormOf(s.name) == Ordinary && Sane(sc, p, loops) && RegularAll(sc.host.arr, p, args)
    requires Room(p, BindsAll(args)) && EvalForm(fuel, s, args, Free(sc)).Val?
    ensures Gives(sc, p, loops, EvalForm(fuel, s, args, sc))
    decreases fuel, SizeSeq(args), 3
  {
    hide Sane, GoodV, GoodVs, Less, Now, FormOf, EvalAll, ApplyNamed, RegularAll, BindsAll, LookupLocal, GoodC;
    SAll(fuel, args, sc, p, loops);
    FreeAll(fuel, args, sc);
    var r := EvalAll(fuel, args, sc);
    var now := Now(loops, r.after.glob);
    var f := if s.num in r.after.host.builtins then Fun(Builtin(r.after.host.builtins[s.num]))
             else Lookup(r.after.glob, r.after.locals, s.num).value;
    if s.num in r.after.host.builtins {
      BuiltinGood(sc.host.arr, now, f.fn);
    } else {
      SName(s.num, r.after, p, loops);
      GoodFunction(sc.host.arr, now, f);
    }
    SApply(fuel, f.fn, s.name, r.vs, r.after, p, loops);
  }

  lemma BuiltinGood(a: Symbol, loops: Loops, c: Closure)
    requires c.Builtin?
    ensures GoodC(a, loops, c)
  {
  }

  lemma GoodFunction(a: Symbol, loops: Loops, v: V)
    requires GoodV(a, loops, v) && v.Fun?
    ensures GoodC(a, loops, v.fn)
  {
  }

  lemma {:induction false} SQuasi(fuel: nat, x: Source, sc: Scopes, p: Place, loops: Loops)
    requires Sane(sc, p, loops) && RegularQuasi(sc.host.arr, p, x) && Room(p, BindsQuasi(x))
    requires Expand(fuel, x, Free(sc)).Vals?
    ensures GivesAll(sc, p, loops, Expand(fuel, x, sc))
    decreases fuel, Size(x), 1
  {
    hide Sane, GoodV, GoodVs, Gives, GivesAll, Now, Room, Eval, ExpandAll, IsUnquote, Regular, RegularQuasiAll, Binds;
    hide BindsQuasiAll, IsList, Elems, MakeList, Recast, IsData;
    if x.Arr? {
      SQuasiAll(fuel, x.elems, sc, p, loops);
      var r := ExpandAll(fuel, x.elems, sc);
      GivenAll(sc, p, loops, r);
      FreeExpandAll(fuel, x.elems, sc);
      GoodArray(sc.host.arr, Now(loops, r.after.glob), r.vs);
      GivesOne(sc, p, loops, r, Arr(r.vs));
    } else if x.Pair? && IsList(x) {
      var es := Elems(x);
      if IsUnquote(es, "unquote") || IsUnquote(es, "unquote-splicing") {
        TwoElements(es);
        SizeAt(es, 1);
        SExpr(fuel, es[1], sc, p, loops);
        var r := Eval(fuel, es[1], sc);
        Given(sc, p, loops, r);
        FreeEval(fuel, es[1], sc);
        GoodSingle(sc.host.arr, Now(loops, r.sc.glob), r.v);
        GivesThese(sc, p, loops, r, [r.v]);
        if IsList(r.v) {
          GoodElems(sc.host.arr, Now(loops, r.sc.glob), r.v);
          GivesThese(sc, p, loops, r, Elems(r.v));
        }
      } else {
        SQuasiAll(fuel, es, sc, p, loops);
        var r := ExpandAll(fuel, es, sc);
        GivenAll(sc, p, loops, r);
        FreeExpandAll(fuel, es, sc);
        GoodList(sc.host.arr, Now(loops, r.after.glob), r.vs);
        GivesOne(sc, p, loops, r, MakeList(r.vs));
      }
    } else {
      SConstant(x, sc, p, loops);
      GoodRecast(sc.host.arr, Now(loops, sc.glob), x);
      GoodSingle(sc.host.arr, Now(loops, sc.glob), Recast(x));
      GivesThese(sc, p, loops, Val(Recast(x), sc), [Recast(x)]);
    }
  }

  lemma GoodSingle(a: Symbol, loops: Loops, v: V)
    requires GoodV(a, loops, v)
    ensures GoodVs(a, loops, [v])
  {
    hide GoodV;
  }

  lemma {:induction false} SQuasiAll(fuel: nat, xs: seq<Source>, sc: Scopes, p: Place, loops: Loops)
    requires Sane(sc, p, loops) && RegularQuasiAll(sc.host.arr, p, xs) && Room(p, BindsQuasiAll(xs))
    requires ExpandAll(fuel, xs, Free(sc)).Vals?
    ensures GivesAll(sc, p, loops, ExpandAll(fuel, xs, sc))
    decreases fuel, SizeSeq(xs), 2
  {
    hide Sane, GoodV, GoodVs, Less, Now, Expand, RegularQuasi, BindsQuasi;
    if xs == [] {
      GivesNone(sc, p, loops);
    } else {
      SQuasi(fuel, xs[0], sc, p, loops);
      FreeExpand(fuel, xs[0], sc);
      var r := Expand(fuel, xs[0], sc);
      SQuasiAll(fuel, xs[1..], r.after, p, loops);
      GivesBoth(sc, p, loops, r, ExpandAll(fuel, xs[1..], r.after));
    }
  }

  // ---------- application ----------

  lemma {:induction false} SApply(fuel: nat, f: Closure, name: string, args: seq<V>, sc: Scopes, p: Place,
                                  loops: Loops)
    requires Sane(sc, p, loops) && GoodC(sc.host.arr, Now(loops, sc.glob), f)
    requires GoodVs(sc.host.arr, Now(loops, sc.glob), args) && ApplyNamed(fuel, f, name, args, Free(sc)).Some?
    ensures var r := ApplyNamed(fuel, f, name, args, sc);
            r.Some? && GoodV(sc.host.arr, Now(loops, sc.glob), r.value)
    decreases fuel, 0, 0
  {
    match f
    case Builtin(which) =>
      hide Sane, GoodV, GoodC, Now, EvalBuiltin;
      SBuiltin(fuel - 1, which, name, args, sc, p, loops);
    case Closure(_, _, params, body, env) =>
      hide Sane, GoodV, GoodC, Now, Less, EvalBegin, ParseParams, ParamValues, BindAll;
      var ps := ParseParams(params);
      GoodPreserved(sc, p, loops, f);
      var vs := ParamValues(ps, args).value;
      ArgumentsGood(sc.host.arr, Now(loops, sc.glob), ps, args);
      var sc' := sc.(locals := [env, BindAll(map[], ps.names, vs)]);
      var p' := SBody(f, vs, sc, p, loops);
      SBegin(fuel - 1, body, sc', p', loops);
  }

  lemma ArgumentsGood(a: Symbol, loops: Loops, p: Params, args: seq<V>)
    requires p.Params? && |p.names| == p.nargs + (if p.varargs then 1 else 0) && ParamValues(p, args).Some?
             && GoodVs(a, loops, args)
    ensures GoodVs(a, loops, ParamValues(p, args).value)
  {
    if p.varargs {
      GoodList(a, loops, args[p.nargs..]);
    }
    hide GoodV, MakeList;
  }

  /** The scopes a function's body starts with. */
  lemma SBody(c: Closure, vs: seq<V>, sc: Scopes, p: Place, loops: Loops) returns (p': Place)
    requires Sane(sc, p, loops) && c.Closure? && GoodC(sc.host.arr, Now(loops, sc.glob), c)
    requires GoodVs(sc.host.arr, Now(loops, sc.glob), vs)
    requires ParseParams(c.params).Params? && |ParseParams(c.params).names| == |vs|
    ensures var sc' := sc.(locals := [c.env, BindAll(map[], ParseParams(c.params).names, vs)]);
            Sane(sc', p', loops) && RegularAll(sc.host.arr, p', c.body) && Room(p', BindsAll(c.body))
  {
    hide GoodV, BuildFun, WFBegin, RegularAll, ParseParams, Nested, Mentions, Careful, BindAll, Nums, BindsAll, Usable;
    hide Now;
    var a, now, ps := sc.host.arr, Now(loops, sc.glob), ParseParams(c.params);
    var loc, may :| MadeIn(a, now, c, loc, may);
    p' := Wider(Inner(loc), Nums(ps.names) + BindsAll(c.body));
    GoodBindAll(a, now, map[], ps.names, vs);
    BindAllKeys<V>(map[], ps.names, vs);
    assert GoodF(a, now, c.env);
  }

  lemma {:induction false} SBuiltin(fuel: nat, which: string, name: string, args: seq<V>, sc: Scopes, p: Place,
                                    loops: Loops)
    requires Sane(sc, p, loops) && GoodVs(sc.host.arr, Now(loops, sc.glob), args)
             && EvalBuiltin(fuel, which, name, args, Free(sc)).Some?
    ensures var r := EvalBuiltin(fuel, which, name, args, sc);
            r.Some? && GoodV(sc.host.arr, Now(loops, sc.glob), r.value)
    decreases fuel, 2, 0
  {
    hide Sane, Now, ApplyNamed, MapValues, Prim, GoodC, Elems, MakeList, IsList, ApplyArgs;
    var a, now := sc.host.arr, Now(loops, sc.glob);
    if which == "apply" {
      assert GoodV(a, now, args[0]) && GoodV(a, now, args[1]);
      var f := args[0].fn;
      assert GoodC(a, now, f);
      hide GoodV;
      GoodApplyArgs(a, now, args[1]);
      SApply(fuel, f, if f.Builtin? then f.which else f.name, ApplyArgs(args[1]).value, sc, p, loops);
    } else if which == "map" {
      assert GoodV(a, now, args[0]) && GoodV(a, now, args[1]);
      var f := args[0].fn;
      assert GoodC(a, now, f);
      var es := if args[1].Arr? then args[1].elems else Elems(args[1]);
      assert GoodVs(a, now, es) by {
        if !args[1].Arr? {
          GoodElems(a, now, args[1]);
        }
      }
      hide GoodV;
      SMap(fuel, f, es, sc, p, loops);
      FreeMap(fuel, f, es, sc);
      GoodArray(a, now, MapValues(fuel, f, es, sc).value);
      GoodList(a, now, MapValues(fuel, f, es, sc).value);
    } else {
      GoodPrim(sc.host, now, which, name, args);
    }
  }

  lemma GoodApplyArgs(a: Symbol, loops: Loops, e: V)
    requires GoodV(a, loops, e) && ApplyArgs(e).Some?
    ensures GoodVs(a, loops, ApplyArgs(e).value)
  {
    if e.Pair? {
      GoodElems(a, loops, e);
    }
  }

  lemma {:induction false} SMap(fuel: nat, f: Closure, es: seq<V>, sc: Scopes, p: Place, loops: Loops)
    requires Sane(sc, p, loops) && GoodC(sc.host.arr, Now(loops, sc.glob), f)
             && GoodVs(sc.host.arr, Now(loops, sc.glob), es)
    requires MapValues(fuel, f, es, Free(sc)).Some?
    ensures var r := MapValues(fuel, f, es, sc); r.Some? && GoodVs(sc.host.arr, Now(loops, sc.glob), r.value)
    decreases fuel, 1, |es|
  {
    hide Sane, GoodV, GoodC, Now, ApplyNamed;
    if es != [] {
      var name := if f.Builtin? then f.which else f.name;
      SApply(fuel, f, name, es[..1], sc, p, loops);
      SMap(fuel, f, es[1..], sc, p, loops);
    }
  }

  // ---------- program texts ----------

  /** The functions that may loop after the programs that `loops` comes from and form `e`. */
  function Extended(host: Host, e: Source, loops: Loops): Loops {
    LoopsIn(host.arr, e) + loops
  }

  /** Every form is regular in the global scope: wherever in it a function that loops is
      defined, its name can be used for it, and stands for it alone from then on. */
  predicate Forms(host: Host, es: seq<Source>, loops: Loops) {
    es == [] ||
    var loops' := Extended(host, es[0], loops);
    Usable(host, loops') && Regular(host.arr, Outer(loops'), es[0]) && Forms(host, es[1..], loops')
  }

  /** The functions that may loop after a program. */
  function Table(host: Host, es: seq<Source>, loops: Loops): Loops {
    if es == [] then loops else Table(host, es[1..], Extended(host, es[0], loops))
  }

  /** The global scope of programs that were loaded before. */
  ghost predicate SaneTop(sc: Scopes, loops: Loops) {
    sc.locals == [] && Sane(sc, Outer(loops), loops)
  }

  lemma MoreLoops(sc: Scopes, loops: Loops, loops': Loops)
    requires SaneTop(sc, loops) && Usable(sc.host, loops') && Less(loops, loops')
    ensures SaneTop(sc, loops')
  {
    hide GoodV, Usable, Careful;
    GoodMoreScopes(sc, Now(loops, sc.glob), Now(loops', sc.glob));
  }

  /** A careful program: where the language gives it a value, every function that is applied
      on the way is one that compilation preserves. */
  lemma {:induction false} CarefulRun(fuel: nat, es: seq<Source>, sc: Scopes, loops: Loops)
    requires SaneTop(sc, loops) && Forms(sc.host, es, loops) && EvalBegin(fuel, es, Free(sc)).Val?
    ensures var r := EvalBegin(fuel, es, sc);
            && r.Val? && SaneTop(r.sc, Table(sc.host, es, loops))
            && EvalBegin(fuel, es, Free(sc)) == Val(r.v, Free(r.sc))
    decreases |es|
  {
    hide SaneTop, Eval, Regular, Extended, Usable;
    var loops' := Extended(sc.host, es[0], loops);
    TopExpr(fuel, es[0], sc, loops);
    if |es| > 1 {
      CarefulRun(fuel, es[1..], Eval(fuel, es[0], sc).sc, loops');
    } else {
      assert es[1..] == [];
    }
  }

  lemma TopExpr(fuel: nat, e: Source, sc: Scopes, loops: Loops)
    requires SaneTop(sc, loops) && Usable(sc.host, Extended(sc.host, e, loops))
    requires Regular(sc.host.arr, Outer(Extended(sc.host, e, loops)), e) && Eval(fuel, e, Free(sc)).Val?
    ensures var r := Eval(fuel, e, sc);
            && r.Val? && SaneTop(r.sc, Extended(sc.host, e, loops)) && Eval(fuel, e, Free(sc)) == Val(r.v, Free(r.sc))
  {
    hide Sane, Eval, Regular, Binds, LoopsIn, Usable, Now, GoodV;
    var loops' := Extended(sc.host, e, loops);
    MoreLoops(sc, loops, loops');
    SExpr(fuel, e, sc, Outer(loops'), loops');
    FreeEval(fuel, e, sc);
  }

  // ---------- compiler correctness for the language itself ----------

  /** Between loads, with the policy of the correctness theorem, which is then no
      restriction. */
  ghost predicate Waiting(m: Machine, sc: Scopes, loops: Loops) {
    Idle(m, sc) && SaneTop(sc, loops)
  }

  /** A condition on the text of a program, given the functions of the programs before it
      that may loop. */
  predicate CarefulText(host: Host, es: seq<Source>, loops: Loops) {
    Forms(host, es, loops) && GenBegin(host.arr, "", es, TOP).err == Ok && WFBegin(host.arr, "", es, TOP, MAIN)
  }

  /** Compiler correctness for the language: where the evaluator, applying every function
      without exception, gives a program with a careful text a value, the machine comes to
      rest with that value and that global scope. */
  lemma TextCorrect(fuel: nat, es: seq<Source>, sc: Scopes, loops: Loops, m: Machine) returns (k: nat, m': Machine)
    requires Waiting(m, sc, loops) && CarefulText(m.host, es, loops) && EvalBegin(fuel, es, Free(sc)).Val?
    ensures var r := EvalBegin(fuel, es, Free(sc));
            && EvalString(k, m, es) == Some((TrVal(m.host.arr, r.v), m'))
            && Waiting(m', r.sc.(ok := sc.ok), Table(m.host, es, loops)) && m'.host == m.host
  {
    hide SaneTop, Idle, EvalBegin, GenBegin, WFBegin, Forms, Table, EvalString, TrVal;
    SameHost(m, sc);
    CarefulRun(fuel, es, sc, loops);
    var r := EvalBegin(fuel, es, sc);
    k, m' := ProgramCorrect(fuel, es, sc, m);
    assert Free(r.sc).(ok := sc.ok) == r.sc;
  }

  lemma SameHost(m: Machine, sc: Scopes)
    requires Idle(m, sc)
    ensures sc.host == m.host
  {
    hide Strict, TrFrame;
  }

  /** Careful texts, each given the functions that may loop of those before it. */
  predicate CarefulTexts(host: Host, progs: seq<seq<Source>>, loops: Loops) {
    progs == [] || (CarefulText(host, progs[0], loops) && CarefulTexts(host, progs[1..], Table(host, progs[0], loops)))
  }

  lemma {:induction false} CarefulPrograms(fuel: nat, progs: seq<seq<Source>>, sc: Scopes, loops: Loops)
    requires progs != [] && SaneTop(sc, loops) && CarefulTexts(sc.host, progs, loops)
    requires EvalPrograms(fuel, progs, Free(sc)).Val?
    ensures var r := EvalPrograms(fuel, progs, sc);
            r.Val? && EvalPrograms(fuel, progs, Free(sc)) == Val(r.v, Free(r.sc)) && r.sc.host == sc.host
    decreases |progs|
  {
    hide SaneTop, EvalBegin, Table, Forms, GenBegin, WFBegin;
    CarefulRun(fuel, progs[0], sc, loops);
    if |progs| > 1 {
      CarefulPrograms(fuel, progs[1..], EvalBegin(fuel, progs[0], sc).sc, Table(sc.host, progs[0], loops));
    }
  }

  lemma {:induction false} TextsLoadable(host: Host, progs: seq<seq<Source>>, loops: Loops)
    requires CarefulTexts(host, progs, loops)
    ensures forall i | 0 <= i < |progs| :: Loadable(host.arr, progs[i])
    decreases |progs|
  {
    hide Table, Forms, GenBegin, WFBegin;
    if progs != [] {
      TextsLoadable(host, progs[1..], Table(host, progs[0], loops));
    }
  }

  /** Programs loaded one after another, and all of them loaded at once, mean what the
      language, applying every function, makes of them in turn. */
  lemma TextsCorrect(fuel: nat, progs: seq<seq<Source>>, sc: Scopes, loops: Loops, m: Machine)
    returns (k: nat, m1: Machine, m2: Machine)
    requires progs != [] && Waiting(m, sc, loops) && CarefulTexts(m.host, progs, loops)
    requires EvalPrograms(fuel, progs, Free(sc)).Val?
    ensures var r := EvalPrograms(fuel, progs, Free(sc));
            && EvalStrings(k, m, progs) == Some((TrVal(m.host.arr, r.v), m1))
            && EvalString(k, m, Flatten(progs)) == Some((TrVal(m.host.arr, r.v), m2))
            && m1.glob == m2.glob == TrFrame(m.host.arr, r.sc.glob)
  {
    hide Idle, SaneTop, EvalPrograms, EvalStrings, EvalString, TrVal, TrFrame, CarefulTexts, Loadable, Flatten;
    SameHost(m, sc);
    CarefulPrograms(fuel, progs, sc, loops);
    TextsLoadable(m.host, progs, loops);
    k, m1, m2 := IncrementalLoading(fuel, progs, sc, m);
    IdleGlobals(m1, EvalPrograms(fuel, progs, sc).sc, m);
  }

  lemma IdleGlobals(m: Machine, sc: Scopes, m0: Machine)
    requires Idle(m, sc) && sc.host.arr == m0.host.arr
    ensures m.glob == TrFrame(m0.host.arr, sc.glob)
  {
    hide Strict, TrFrame;
  }

  // ---------- applications from outside ----------

  /** `Apply`, for the language itself: where the evaluator, applying every function, gives
      an application of a function that careful programs made a value, the machine returns
      that value and is unchanged. */
  lemma ApplyCorrect(fuel: nat, f: Closure, args: seq<V>, sc: Scopes, p: Place, loops: Loops, m: Machine, v: V)
    returns (k: nat)
    requires Sane(sc, p, loops) && sc.host == m.host && m.host.Valid() && m.pc == -1
    requires m.glob == TrFrame(m.host.arr, sc.glob)
    requires GoodC(sc.host.arr, Now(loops, sc.glob), f) && GoodVs(sc.host.arr, Now(loops, sc.glob), args)
    requires ApplyValue(fuel, f, args, Free(sc)) == Some(v)
    ensures Apply(k, TrFn(m.host.arr, f), TrAll(m.host.arr, args), m) == Some((TrVal(m.host.arr, v), m))
  {
    hide GoodV, GoodC, GoodVs, GoodScopes, Usable, Sits, Now, ApplyNamed, Apply, TrFn, TrAll, TrVal, TrFrame, Preserved;
    var name := if f.Builtin? then f.which else f.name;
    assert Strict(sc);
    hide Sane, Strict;
    SApply(fuel, f, name, args, sc, p, loops);
    FreeApply(fuel, f, name, args, sc);
    k := ApplyRuns(fuel, f, args, sc, m, v);
  }

  // ---------- a new environment ----------

  /** The evaluator's view of a new environment. */
  function NewScopes(host: Host): Scopes {
    Scopes(host, Careful(host), map s | s in host.builtins :: Fun(Builtin(host.builtins[s])), [])
  }

  lemma NewGood(host: Host, loops: Loops)
    ensures GoodScopes(NewScopes(host), loops)
  {
  }

  /** A new environment waits for its first program. */
  lemma NewWaits(host: Host)
    requires host.Valid()
    ensures Waiting(NewMachine(host), NewScopes(host), map[])
  {
    hide Preserved, GoodScopes;
    var sc := NewScopes(host);
    forall s | s in host.builtins ensures TrVal(host.arr, sc.glob[s]) == Fun(BuiltinFunction(host.builtins[s])) {
    }
    assert TrFrame(host.arr, sc.glob) == BuiltinFrame(host);
    NewGood(host, Now(map[], sc.glob));
    assert Strict(sc);
    assert Sane(sc, Outer(map[]), map[]);
    hide Strict, TrFrame;
    assert Idle(NewMachine(host), sc);
  }
}
