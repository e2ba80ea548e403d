/** Self tail calls mean what calls mean. */
module TailCalls {
  import opened Sexps
  import opened Scoping
  import opened Instructions
  import opened Codegen
  import opened Machines
  import opened Runs
  import opened Evaluator
  import opened Translation
  import opened Wellformed
  import opened Simulation
  import opened Correctness
  import opened StackTypes
  import opened Sealing
  import opened Regularity
  import opened TypedCode
  import opened Policies
  import opened Erasure
  import opened Renaming
  import opened Programs

  /** `w` is the machine at the self call, in a function that differs only in having an
      ordinary `call` there. Where the evaluator gives the call the value `v`, the emitted
      jump takes `m` to its function's `return` with `v`, and the `call` brings `w` to its
      next instruction with `v`; neither changes any stack below. */
  lemma SelfTailCallIsCall(fuel: nat, s: Symbol, args: seq<V>, cx: Ctx, c: Closure, sc0: Scopes, sc: Scopes,
                           m: Machine, l: nat, v: V, w: Machine)
    requires Rel(m, sc0, c, cx) && Follows(sc0, sc)
    requires Rel(Advance(m, cx.Own(), l, args, sc), sc, c, cx) && Yields(m, c, cx, l, args, sc)
    requires cx.safe && cx.loops && s.num == cx.num && |args| == cx.nargs
    requires CodeAt(m, l, Removes(cx.depth) + [Goto(0)])
    requires ApplyNamed(fuel, c, s.name, args, sc) == Some(v)
    requires w == Advance(m, cx.Own(), l, args, sc).(curfunc := w.curfunc, pc := w.pc)
             && CodeAt(w, 0, [Call(s, |args|)])
    ensures exists locals :: Reaches(m, AtReturn(m, v, locals))
    ensures Reaches(w, After(w, m.data, v))
  {
    hide Rel, Yields, Reaches, Strict, TrVal, TrAll, TrFrame, TrFrames, TrFn, Preserved, CallFunction, Top, Below,
         Lookup, ParseParams;
    var m1 := Advance(m, cx.Own(), l, args, sc);
    SelfCallee(m1, sc, c, cx, s);
    RelHost(m1, sc, c, cx);
    CSelf(fuel, s, args, cx, c, sc0, sc, m, l, v);
    InvokeClosure(fuel, c, s.name, args, sc, w, m.data, v);
    SelfLookup(m1, sc, c, cx, s);
    TrFun(m.host.arr, c);
    ExecCall(0, w, s, |args|);
    OneStep(0, w, CallFunction(TrFn(m.host.arr, c), |args|, w).value);
    Transitive(w, CallFunction(TrFn(m.host.arr, c), |args|, w).value, After(w, m.data, v));
  }

  /** The machine, too, finds the looping function under its name. */
  lemma SelfLookup(m: Machine, sc: Scopes, c: Closure, cx: Ctx, s: Symbol)
    requires Rel(m, sc, c, cx) && cx.loops && s.num == cx.num
    ensures s.num !in m.host.builtins
    ensures Lookup(m.glob, m.locals, s.num) == Some(TrVal(m.host.arr, Fun(c)))
  {
    hide Rel, TrVal, LookupLocal;
    var n := cx.Own();
    SelfUnbound(m, sc, c, cx, s);
    SelfGlobal(m, sc, c, cx, s);
    assert m.locals == Below(m.locals, n) + Top(m.locals, n);
    LookupAppend(Below(m.locals, n), Top(m.locals, n), s.num);
  }

  lemma SelfGlobal(m: Machine, sc: Scopes, c: Closure, cx: Ctx, s: Symbol)
    requires Rel(m, sc, c, cx) && cx.loops && s.num == cx.num
    ensures s.num !in m.host.builtins && cx.Own() <= |m.locals|
    ensures s.num in m.glob && m.glob[s.num] == TrVal(m.host.arr, Fun(c))
  {
    hide Strict, TrFn, TrFrames, TrVal, Agree, Preserved, ParseParams, Tidy, Top, Below;
  }

  lemma SelfUnbound(m: Machine, sc: Scopes, c: Closure, cx: Ctx, s: Symbol)
    requires Rel(m, sc, c, cx) && cx.loops && s.num == cx.num
    ensures LookupLocal(Below(m.locals, cx.Own()), s.num) == None
    ensures LookupLocal(Top(m.locals, cx.Own()), s.num) == None
  {
    hide Strict, TrVal, Agree, LookupLocal, BuildFun, WFBegin, ParseParams, CapturesEnough;
    var n, a := cx.Own(), m.host.arr;
    TrLookupLocal(a, Top(sc.locals, n), s.num);
    Unbound(Top(sc.locals, n), s.num);
    NoClose(m, sc, c, cx);
    Unbound<Value>([], s.num);
  }

  lemma NoClose(m: Machine, sc: Scopes, c: Closure, cx: Ctx)
    requires Rel(m, sc, c, cx) && cx.loops
    ensures Below(m.locals, cx.Own()) == []
  {
    hide Strict, TrVal, TrFn, Agree, WFBegin, CapturesEnough, Tidy, TrFrames, GenBegin, BuildFun, ParseParams,
         NamesItself;
    assert c.num.Some?;
    CodeShape(m.host.arr, c);
  }

  // ---------- whole functions ----------

  /** A function compiled under a name that its body does not call in tail position has no
      jump back to its start: every self call is an ordinary call. */
  lemma NoJumps(a: Symbol, at: Place, name: string, params: seq<Source>, body: seq<Source>, num: int)
    requires GoodVals(true, body) && RegularFun(a, at, false, name, num, params, body)
    ensures var code := BuildFun(a, name, params, body).fn.fun; forall i | 0 <= i < |code| :: !code[i].Goto?
  {
    hide GenBegin, WFBegin, Regular, RegularAll, GoodVal, Flows, ParseParams, Mentions, Nested, BindsAll;
    var p, o := ParseParams(params), GenBegin(a, name, body, Gst(true, 0));
    var r, s := Rules(1, None, true), Shape([], 1);
    var inside := Wider(at, Nums(p.names) + BindsAll(body));
    TBegin(a, name, body, Gst(true, 0), inside, Ctx(true, num, p.nargs, false, true, 0), r, s);
    TPuts(r, p.names, s);
    FlowJoin(r, Puts(p.names), Operands(s, |p.names|), s, o.code, s.Push(One));
    NoGoto(r, Puts(p.names) + o.code, Operands(s, |p.names|), s.Push(One));
  }

  lemma NoGoto(r: Rules, code: seq<Instr>, s: Shape, t: Shape)
    requires Flows(r, code, s, t) && r.loop.None?
    ensures forall i | 0 <= i < |code| :: !code[i].Goto?
  {
    hide Effect, GoodInstr;
    var ts :| Leads(r, code, ts, s, t);
    forall i | 0 <= i < |code| ensures !code[i].Goto? {
      assert TypedAt(r, code, ts, i);
    }
  }

  /** Self tail calls preserve meaning. The same text compiled under another name calls the
      looping function where the looping function jumps. Called with the same arguments in
      the same place, both return the value that the language gives the call, after however
      many iterations, and leave the caller alike. */
  lemma JumpsLikeCalls(fuel: nat, c: Closure, other: string, args: seq<V>, sc: Scopes, m: Machine, base: seq<Value>,
                       v: V)
    requires c.Closure? && ApplyNamed(fuel, c, c.name, args, sc) == Some(v) && sc.ok(c.(name := other), sc.glob)
    requires sc.host == m.host && Strict(sc) && m.glob == TrFrame(m.host.arr, sc.glob)
    requires m.data == base + TrAll(m.host.arr, args)
    ensures var jumping, calling := TrFn(m.host.arr, c), TrFn(m.host.arr, c.(name := other));
            var r, q := CallFunction(jumping, |args|, m), CallFunction(calling, |args|, m);
            && r.Some? && Reaches(r.value, After(m, base, v))
            && q.Some? && Reaches(q.value, After(m, base, v))
  {
    hide Reaches, Strict, TrVal, TrAll, TrFrame, TrFn, CallFunction, EvalBegin, ParseParams, ParamValues, BindAll;
    assert ApplyNamed(fuel, c.(name := other), other, args, sc) == Some(v);
    hide ApplyNamed;
    InvokeClosure(fuel, c, c.name, args, sc, m, base, v);
    InvokeClosure(fuel, c.(name := other), other, args, sc, m, base, v);
  }

  // ---------- whole environments ----------

  /** For each function that loops, a name that its text does not say. */
  type Others = map<int, string>

  predicate Unsaid(loops: Loops, others: Others) {
    forall n | n in loops :: n in others && loops[n].Closure? && AvoidsAll(others[n], loops[n].body)
  }

  /** `v` with every function of the table, wherever it hides, under its other name:
      compiled to calls where it jumps. */
  function Calling(loops: Loops, others: Others, v: V): V {
    match v
    case Pair(h, t) => Pair(Calling(loops, others, h), Calling(loops, others, t))
    case Arr(es) => Arr(CallingAll(loops, others, es))
    case Fun(f) => Fun(CallingFn(loops, others, f))
    case _ => v
  }

  function CallingAll(loops: Loops, others: Others, vs: seq<V>): seq<V> {
    seq(|vs|, i requires 0 <= i < |vs| => Calling(loops, others, vs[i]))
  }

  function CallingFn(loops: Loops, others: Others, f: Closure): Closure {
    match f
    case Builtin(_) => f
    case Closure(name, num, params, body, env) =>
      if InTable(loops, f) && num.value in others then f.(name := others[num.value])
      else Closure(name, num, params, body, map s | s in env :: Calling(loops, others, env[s]))
  }

  function CallingFrame(loops: Loops, others: Others, f: EFrame): EFrame {
    map s | s in f :: Calling(loops, others, f[s])
  }

  /** The scopes of an environment without jumps. */
  function CallingScopes(loops: Loops, others: Others, sc: Scopes): Scopes {
    sc.(glob := CallingFrame(loops, others, sc.glob),
        locals := seq(|sc.locals|, i requires 0 <= i < |sc.locals| => CallingFrame(loops, others, sc.locals[i])))
  }

  /** The replacement changes nothing but names. */
  lemma {:induction false} CallingNameless(loops: Loops, others: Others, v: V)
    ensures Nameless(Calling(loops, others, v)) == Nameless(v)
    decreases v
  {
    match v
    case Pair(h, t) =>
      CallingNameless(loops, others, h);
      CallingNameless(loops, others, t);
    case Arr(es) =>
      forall i | 0 <= i < |es| ensures Nameless(Calling(loops, others, es[i])) == Nameless(es[i]) {
        CallingNameless(loops, others, es[i]);
      }
      assert NamelessAll(CallingAll(loops, others, es)) == NamelessAll(es);
    case Fun(f) =>
      if f.Closure? && !(InTable(loops, f) && f.num.value in others) {
        forall s | s in f.env ensures Nameless(Calling(loops, others, f.env[s])) == Nameless(f.env[s]) {
          CallingNameless(loops, others, f.env[s]);
        }
        assert NamelessFn(CallingFn(loops, others, f)).env == NamelessFn(f).env;
      }
    case _ =>
  }

  lemma CallingAlike(loops: Loops, others: Others, sc: Scopes)
    ensures Alike(Free(sc), Free(CallingScopes(loops, others, sc)))
  {
    hide Nameless, Calling;
    var sc' := CallingScopes(loops, others, sc);
    CallingFrameNameless(loops, others, sc.glob);
    forall i | 0 <= i < |sc.locals|
      ensures NamelessFrame(CallingFrame(loops, others, sc.locals[i])) == NamelessFrame(sc.locals[i])
    {
      CallingFrameNameless(loops, others, sc.locals[i]);
    }
    hide NamelessFrame, CallingFrame;
    assert NamelessFrames(sc'.locals) == NamelessFrames(sc.locals);
  }

  lemma CallingFrameNameless(loops: Loops, others: Others, f: EFrame)
    ensures NamelessFrame(CallingFrame(loops, others, f)) == NamelessFrame(f)
  {
    hide Nameless, Calling;
    forall s | s in f ensures Nameless(Calling(loops, others, f[s])) == Nameless(f[s]) {
      CallingNameless(loops, others, f[s]);
    }
  }

  /** What the replacement makes of good values is good where no function loops. */
  lemma {:induction false} CallingGood(a: Symbol, loops: Loops, others: Others, v: V)
    requires GoodV(a, loops, v) && Unsaid(loops, others)
    ensures GoodV(a, map[], Calling(loops, others, v))
    decreases v
  {
    hide RegularFun, AvoidsAll;
    match v
    case Pair(h, t) =>
      CallingGood(a, loops, others, h);
      CallingGood(a, loops, others, t);
    case Arr(es) =>
      forall i | 0 <= i < |es| ensures GoodV(a, map[], Calling(loops, others, es[i])) {
        CallingGood(a, loops, others, es[i]);
      }
    case Fun(c) =>
      if c.Closure? {
        forall s | s in c.env ensures GoodV(a, map[], Calling(loops, others, c.env[s])) {
          CallingGood(a, loops, others, c.env[s]);
        }
        var c' := CallingFn(loops, others, c);
        var loc, may :| MadeIn(a, loops, c, loc, may);
        if InTable(loops, c) {
          Renamed(a, may, c.name, c'.name, c.num.value, c.params, c.body);
        }
        assert MadeIn(a, map[], c', loc, false);
      }
    case _ =>
  }

  lemma CallingSane(sc: Scopes, p: Place, loops: Loops, others: Others)
    requires Sane(sc, p, loops) && Unsaid(Now(loops, sc.glob), others)
    ensures Sane(CallingScopes(Now(loops, sc.glob), others, sc), if p.Outer? then Outer(map[]) else p, map[])
  {
    hide GoodV, Unsaid, Calling, Careful;
    var a, now := sc.host.arr, Now(loops, sc.glob);
    var sc' := CallingScopes(now, others, sc);
    forall s | s in sc.glob ensures GoodV(a, map[], Calling(now, others, sc.glob[s])) {
      CallingGood(a, now, others, sc.glob[s]);
    }
    forall i, s | 0 <= i < |sc.locals| && s in sc.locals[i]
      ensures GoodV(a, map[], Calling(now, others, sc.locals[i][s]))
    {
      assert GoodF(a, now, sc.locals[i]);
      CallingGood(a, now, others, sc.locals[i][s]);
    }
    assert Now(map[], sc'.glob) == map[];
  }

  /** Self tail calls preserve meaning, at every depth. In an environment that careful
      programs made, let every function that loops be compiled under a name that its text
      does not say. Then every application that has a value in the language has in both
      environments, up to the names that functions carry, that same value, and leaves either
      machine as it was. */
  lemma JumpsAreCalls(fuel: nat, f: Closure, args: seq<V>, sc: Scopes, p: Place, loops: Loops, others: Others,
                      m: Machine, v: V)
    returns (k: nat, k': nat, v': V)
    requires Sane(sc, p, loops) && sc.host == m.host && m.host.Valid() && m.pc == -1
    requires m.glob == TrFrame(m.host.arr, sc.glob) && Unsaid(Now(loops, sc.glob), others)
    requires GoodC(sc.host.arr, Now(loops, sc.glob), f) && GoodVs(sc.host.arr, Now(loops, sc.glob), args)
    requires ApplyValue(fuel, f, args, Free(sc)) == Some(v)
    ensures Apply(k, TrFn(m.host.arr, f), TrAll(m.host.arr, args), m) == Some((TrVal(m.host.arr, v), m))
    ensures var now := Now(loops, sc.glob);
            var m' := m.(glob := TrFrame(m.host.arr, CallingFrame(now, others, sc.glob)));
            Apply(k', TrFn(m.host.arr, CallingFn(now, others, f)), TrAll(m.host.arr, CallingAll(now, others, args)), m')
            == Some((TrVal(m.host.arr, v'), m'))
    ensures Nameless(v') == Nameless(v) && (IsData(v) ==> v' == v)
  {
    hide GoodV, GoodC, Sane, ApplyNamed, Apply, TrFn, TrAll, TrVal, TrFrame, Unsaid, Calling, Nameless, IsData;
    k := ApplyCorrect(fuel, f, args, sc, p, loops, m, v);
    var a, now := sc.host.arr, Now(loops, sc.glob);
    var sc', f', args' := CallingScopes(now, others, sc), CallingFn(now, others, f), CallingAll(now, others, args);
    CallingSane(sc, p, loops, others);
    CallingFunction(a, now, others, f);
    CallingArguments(a, now, others, args);
    CallingAlike(now, others, sc);
    EApply(fuel, f, f', if f.Builtin? then f.which else f.name, if f'.Builtin? then f'.which else f'.name, args, args',
        Free(sc), Free(sc'));
    v' := ApplyValue(fuel, f', args', Free(sc')).value;
    assert Now(map[], sc'.glob) == map[];
    k' := ApplyCorrect(fuel, f', args', sc', if p.Outer? then Outer(map[]) else p, map[],
        m.(glob := TrFrame(m.host.arr, sc'.glob)), v');
    if IsData(v) {
      AlikeData(v, v');
    }
  }

  lemma CallingFunction(a: Symbol, loops: Loops, others: Others, f: Closure)
    requires GoodC(a, loops, f) && Unsaid(loops, others)
    ensures GoodC(a, map[], CallingFn(loops, others, f))
    ensures NamelessFn(CallingFn(loops, others, f)) == NamelessFn(f)
  {
    hide Unsaid, MadeIn;
    assert GoodV(a, loops, Fun(f));
    CallingGood(a, loops, others, Fun(f));
    CallingNameless(loops, others, Fun(f));
  }

  lemma CallingArguments(a: Symbol, loops: Loops, others: Others, args: seq<V>)
    requires GoodVs(a, loops, args) && Unsaid(loops, others)
    ensures GoodVs(a, map[], CallingAll(loops, others, args))
    ensures NamelessAll(CallingAll(loops, others, args)) == NamelessAll(args)
  {
    hide Unsaid, GoodV, Calling, Nameless;
    forall i | 0 <= i < |args|
      ensures GoodV(a, map[], Calling(loops, others, args[i]))
      ensures Nameless(Calling(loops, others, args[i])) == Nameless(args[i])
    {
      CallingGood(a, loops, others, args[i]);
      CallingNameless(loops, others, args[i]);
    }
  }

  /** And after the replacement no function has a jump to its start. */
  lemma CallingNeverJumps(a: Symbol, loops: Loops, others: Others, c: Closure)
    requires GoodC(a, loops, c) && c.Closure? && GoodVals(true, c.body) && Unsaid(loops, others)
    ensures var code := TrFn(a, CallingFn(loops, others, c)).fun; forall i | 0 <= i < |code| :: !code[i].Goto?
  {
    hide RegularFun, BuildFun, GoodVal, TrFn;
    CallingFunction(a, loops, others, c);
    var c' := CallingFn(loops, others, c);
    var loc, may :| MadeIn(a, map[], c', loc, may);
    StraightCode(a, loc, c');
  }

  lemma StraightCode(a: Symbol, loc: set<int>, c: Closure)
    requires c.Closure? && GoodVals(true, c.body) && MadeIn(a, map[], c, loc, false)
    ensures var code := TrFn(a, c).fun; forall i | 0 <= i < |code| :: !code[i].Goto?
  {
    hide RegularFun, GoodVal;
    NoJumps(a, Inner(loc), c.name, c.params, c.body, if c.num.Some? then c.num.value else 0);
    assert TrFn(a, c).fun == BuildFun(a, c.name, c.params, c.body).fn.fun;
  }
}
