/** Whole programs: loading expressions into the main function and running them, one load
    after another (LoadExpressions, EvalString and Run of environment.go). */
module Loading {
  import opened Sexps
  import opened Instructions
  import opened Codegen
  import opened Machines
  import opened Runs
  import opened Evaluator
  import opened Translation
  import opened Wellformed
  import opened Simulation
  import opened Correctness

  const TOP := Gst(false, 0)

  /** Appends the code of a program to the main function and makes that the current one; a
      leftover value of an unfinished run is popped first. */
  function LoadInto(main: Function, m: Machine, es: seq<Source>): Result {
    var o := GenBegin(m.host.arr, "", es, TOP);
    if o.err != Ok then None
    else
      var pop := if m.pc == m.FunctionSize() then [] else [Pop];
      Some(m.(curfunc := main.(fun := main.fun + (pop + o.code))))
  }

  function EvalInto(k: nat, main: Function, m: Machine, es: seq<Source>): Option<(Value, Machine)> {
    match LoadInto(main, m, es)
    case None => None
    case Some(m') => Run(k, m')
  }

  /** Between runs the main function is the current one. */
  function LoadExpressions(m: Machine, es: seq<Source>): Result {
    LoadInto(m.curfunc, m, es)
  }

  function EvalString(k: nat, m: Machine, es: seq<Source>): Option<(Value, Machine)> {
    EvalInto(k, m.curfunc, m, es)
  }

  /** Programs fed one after another; the value of the last one. */
  function EvalStrings(k: nat, m: Machine, progs: seq<seq<Source>>): Option<(Value, Machine)>
    requires progs != []
    decreases |progs|
  {
    match EvalString(k, m, progs[0])
    case None => None
    case Some((v, m')) => if |progs| == 1 then Some((v, m')) else EvalStrings(k, m', progs[1..])
  }

  /** Between loads: at the end of the main function, with every stack empty. */
  ghost predicate Idle(m: Machine, sc: Scopes) {
    && sc.host == m.host && Strict(sc) && sc.locals == []
    && m.glob == TrFrame(m.host.arr, sc.glob)
    && !m.curfunc.user && m.pc == |m.curfunc.fun|
    && m.locals == [] && m.data == [] && m.addrs == [] && m.saved == []
  }

  /** A program that generates without error and keeps to the preserved shapes. */
  ghost predicate Loadable(a: Symbol, es: seq<Source>) {
    GenBegin(a, "", es, TOP).err == Ok && WFBegin(a, "", es, TOP, MAIN)
  }

  /** Compiler correctness for a whole program: the machine comes to rest with exactly the
      evaluator's value and the evaluator's global scope. */
  lemma ProgramCorrect(fuel: nat, es: seq<Source>, sc: Scopes, m: Machine) returns (k: nat, m': Machine)
    requires Idle(m, sc) && Loadable(m.host.arr, es) && EvalBegin(fuel, es, sc).Val?
    ensures var r := EvalBegin(fuel, es, sc);
            && EvalString(k, m, es) == Some((TrVal(m.host.arr, r.v), m'))
            && Idle(m', r.sc) && m'.host == m.host
            && Keeps(TOP, GenBegin(m.host.arr, "", es, TOP).st)
  {
    hide Idle, LoadExpressions, EvalString, GenBegin, WFBegin, EvalBegin, Rel, Lands, TrVal;
    var r, o := EvalBegin(fuel, es, sc), GenBegin(m.host.arr, "", es, TOP);
    LoadedStarts(es, sc, m);
    SomeCode(m.host.arr, es);
    var m0 := LoadExpressions(m, es).value;
    CBegin(fuel, "", es, TOP, MAIN, Builtin(""), sc, m0);
    k, m' := LoadedEnds(es, sc, m, m0, r.v, r.sc);
  }

  /** A loaded program is about to run in the scopes it was loaded in. */
  lemma LoadedStarts(es: seq<Source>, sc: Scopes, m: Machine)
    requires Idle(m, sc) && GenBegin(m.host.arr, "", es, TOP).err == Ok
    ensures var r := LoadExpressions(m, es);
            r.Some? && CodeAt(r.value, 0, GenBegin(m.host.arr, "", es, TOP).code)
            && Rel(r.value, sc, Builtin(""), MAIN) && r.value.host == m.host
  {
    hide Strict, GenBegin, TrVal, TrFrame, Agree, Preserved, NamesItself, Needs;
    var m0, code := LoadExpressions(m, es).value, GenBegin(m.host.arr, "", es, TOP).code;
    assert m0.curfunc.fun[m.pc..m.pc + |code|] == code;
    EmptyAgree(m.host.arr, Needs(m0.curfunc.fun));
    assert Below(m0.locals, 0) == [] && Below(sc.locals, 0) == [];
  }

  /** Where its code ends the machine is done: the value is popped, and it is idle again. */
  lemma LoadedEnds(es: seq<Source>, sc: Scopes, m: Machine, m0: Machine, v: V, sc': Scopes)
    returns (k: nat, m': Machine)
    requires Idle(m, sc) && LoadExpressions(m, es) == Some(m0) && GenBegin(m.host.arr, "", es, TOP).code != []
    requires Lands(m0, Builtin(""), MAIN, |GenBegin(m.host.arr, "", es, TOP).code|, v, sc') && Follows(sc, sc')
    ensures EvalString(k, m, es) == Some((TrVal(m.host.arr, v), m')) && Idle(m', sc') && m'.host == m.host
  {
    hide Strict, GenBegin, TrVal, TrFrame, Reaches, Run;
    var end := Advance(m0, 0, |GenBegin(m.host.arr, "", es, TOP).code|, [v], sc');
    assert end.data == [TrVal(m.host.arr, v)];
    k := RunReaches(m0, end);
    m' := end.(data := []);
    SameStrict(sc, sc');
  }

  lemma EmptyAgree(a: Symbol, names: set<int>)
    ensures Agree(a, [], [], names)
  {
  }

  /** The generator emits at least one instruction for a program. */
  lemma SomeCode(a: Symbol, es: seq<Source>)
    requires Loadable(a, es)
    ensures GenBegin(a, "", es, TOP).code != []
  {
    hide GenPops, WFAll;
    var n := |es| - 1;
    EmitsCode(a, "", es[n], GenPops(a, "", es[..n], TOP).st.(tail := false), MAIN);
  }

  lemma {:induction false} EmitsCode(a: Symbol, fname: string, e: Source, g: Gst, cx: Ctx)
    requires WF(a, fname, e, g, cx) && Gen(a, fname, e, g).err == Ok
    ensures Gen(a, fname, e, g).code != []
    decreases Size(e)
  {
    if e.Pair? && IsList(e) && e.head.Sym? {
      EmitsForm(a, fname, e.head.sym, Elems(e.tail), g, cx);
    }
  }

  lemma {:induction false} EmitsForm(a: Symbol, fname: string, s: Symbol, args: seq<Source>, g: Gst, cx: Ctx)
    requires WFForm(a, fname, s, args, g, cx) && GenForm(a, fname, s, args, g).err == Ok
    ensures GenForm(a, fname, s, args, g).code != []
    decreases SizeSeq(args)
  {
    hide FormOf, BuildFun, ParseBindings;
    match FormOf(s.name)
    case And => EmitsShort(a, fname, false, args, g, cx);
    case Or => EmitsShort(a, fname, true, args, g, cx);
    case Cond =>
      if |args| == 1 {
        SizeAt(args, 0);
        EmitsCode(a, fname, args[0], g, cx);
      }
    case Begin =>
      var n := |args| - 1;
      SizeAt(args, n);
      var o := GenPops(a, fname, args[..n], g.(tail := false));
      EmitsCode(a, fname, args[n], o.st.(tail := g.tail), cx);
    case SyntaxQuote =>
      var x := args[0];
      if !x.Arr? && x.Pair? && IsList(x) && IsUnquote(Elems(x), "unquote") {
        SizeAt(args, 0);
        SizeAt(Elems(x), 1);
        EmitsCode(a, fname, Elems(x)[1], g, cx.Unsafe());
      }
    case _ =>
  }

  lemma {:induction false} EmitsShort(a: Symbol, fname: string, or: bool, args: seq<Source>, g: Gst, cx: Ctx)
    requires args != [] && WFShort(a, fname, args, g, cx) && GenShort(a, fname, or, args, g).err == Ok
    ensures GenShort(a, fname, or, args, g).code != []
    decreases SizeSeq(args), 0
  {
    if |args| == 1 {
      SizeAt(args, 0);
      EmitsCode(a, fname, args[0], g, cx);
    }
  }

  // ---------- incremental loading ----------

  /** Evaluating programs one after another, each on the scopes the last one left. */
  function EvalPrograms(fuel: nat, progs: seq<seq<Source>>, sc: Scopes): Outcome
    requires progs != []
    decreases |progs|
  {
    match EvalBegin(fuel, progs[0], sc)
    case Stuck => Stuck
    case Val(v, sc') => if |progs| == 1 then Val(v, sc') else EvalPrograms(fuel, progs[1..], sc')
  }

  function Flatten(progs: seq<seq<Source>>): seq<Source> {
    if progs == [] then [] else progs[0] + Flatten(progs[1..])
  }

  lemma {:induction false} BeginAppend(fuel: nat, es: seq<Source>, fs: seq<Source>, sc: Scopes)
    requires es != [] && fs != [] && EvalBegin(fuel, es, sc).Val?
    ensures EvalBegin(fuel, es + fs, sc) == EvalBegin(fuel, fs, EvalBegin(fuel, es, sc).sc)
    decreases |es|
  {
    hide Eval;
    var r := Eval(fuel, es[0], sc);
    assert (es + fs)[1..] == es[1..] + fs;
    if |es| > 1 {
      BeginAppend(fuel, es[1..], fs, r.sc);
    } else {
      assert es[1..] + fs == fs;
    }
  }

  /** The code of a concatenation is the two codes with a `pop` between them. */
  lemma {:induction false} LoadableAppend(a: Symbol, es: seq<Source>, fs: seq<Source>)
    requires Loadable(a, es) && Loadable(a, fs) && Keeps(TOP, GenBegin(a, "", es, TOP).st)
    ensures Loadable(a, es + fs)
    ensures GenBegin(a, "", es + fs, TOP).code ==
            GenBegin(a, "", es, TOP).code + [Pop] + GenBegin(a, "", fs, TOP).code
    ensures GenBegin(a, "", es + fs, TOP).st == GenBegin(a, "", fs, TOP).st
  {
    hide Gen, WF;
    var n := |fs| - 1;
    assert (es + fs)[..|es| + n] == es + fs[..n] && (es + fs)[|es| + n] == fs[n];
    PopsBegin(a, es);
    PopsAppend(a, es, fs[..n], TOP);
  }

  /** The code of a whole sequence evaluated for effect. */
  lemma {:induction false} PopsBegin(a: Symbol, es: seq<Source>)
    requires Loadable(a, es) && Keeps(TOP, GenBegin(a, "", es, TOP).st)
    ensures var o, b := GenPops(a, "", es, TOP), GenBegin(a, "", es, TOP);
            o.err == Ok && o.code == b.code + [Pop] && o.st == TOP && WFAll(a, "", es, TOP, MAIN)
  {
    hide Gen, WF;
    var n := |es| - 1;
    var o := GenPops(a, "", es[..n], TOP);
    assert es == es[..n] + [es[n]] && MAIN.Unsafe() == MAIN;
    assert [es[n]][1..] == [] && o.st.(tail := false) == o.st;
    PopsAppend(a, es[..n], [es[n]], TOP);
    assert WFAll(a, "", [es[n]], o.st, MAIN);
  }

  lemma {:induction false} PopsAppend(a: Symbol, es: seq<Source>, fs: seq<Source>, g: Gst)
    requires GenPops(a, "", es, g).err == Ok
    ensures var o := GenPops(a, "", es, g);
            var p := GenPops(a, "", fs, o.st);
            && GenPops(a, "", es + fs, g) == Out(o.code + p.code, p.st, p.err)
            && (WFAll(a, "", es, g, MAIN) && WFAll(a, "", fs, o.st, MAIN) ==> WFAll(a, "", es + fs, g, MAIN))
    decreases |es|
  {
    hide Gen, WF;
    if es == [] {
      assert es + fs == fs;
    } else {
      var o := Gen(a, "", es[0], g);
      assert (es + fs)[1..] == es[1..] + fs;
      PopsAppend(a, es[1..], fs, o.st);
      var q := GenPops(a, "", es[1..], o.st);
      var p := GenPops(a, "", fs, q.st);
      assert o.code + [Pop] + (q.code + p.code) == o.code + [Pop] + q.code + p.code;
    }
  }

  lemma {:induction false} FlattenSome(a: Symbol, progs: seq<seq<Source>>)
    requires progs != [] && forall i | 0 <= i < |progs| :: Loadable(a, progs[i])
    ensures Flatten(progs) != []
  {
    hide WFBegin;
    assert Loadable(a, progs[0]);
  }

  /** Incremental loading: programs fed one by one, where the evaluator gives them values,
      leave the global scope and the last value of one load of all of them together. Code
      that has run is never run again, and nothing is left on the stacks in between. */
  lemma {:induction false} IncrementalLoading(fuel: nat, progs: seq<seq<Source>>, sc: Scopes, m: Machine)
    returns (k: nat, m1: Machine, m2: Machine)
    requires progs != [] && Idle(m, sc) && EvalPrograms(fuel, progs, sc).Val?
    requires forall i | 0 <= i < |progs| :: Loadable(m.host.arr, progs[i])
    ensures var r := EvalPrograms(fuel, progs, sc);
            && EvalStrings(k, m, progs) == Some((TrVal(m.host.arr, r.v), m1))
            && EvalString(k, m, Flatten(progs)) == Some((TrVal(m.host.arr, r.v), m2))
            && Idle(m1, r.sc) && Idle(m2, r.sc) && m1.glob == m2.glob
    decreases |progs|
  {
    hide Idle, Loadable, EvalBegin, EvalString, TrVal;
    var a, r := m.host.arr, EvalPrograms(fuel, progs, sc);
    var k1, m' := ProgramCorrect(fuel, progs[0], sc, m);
    var k2: nat;
    if |progs| == 1 {
      assert Flatten(progs) == progs[0] + Flatten(progs[1..]) == progs[0];
      k, m1, m2 := k1, m', m';
    } else {
      var sc' := EvalBegin(fuel, progs[0], sc).sc;
      forall i | 0 <= i < |progs[1..]| ensures Loadable(a, progs[1..][i]) {
        assert progs[1..][i] == progs[i + 1];
      }
      var k3: nat;
      k3, m1, m2 := IncrementalLoading(fuel, progs[1..], sc', m');
      FlattenLoads(fuel, progs, sc, m);
      k2, m2 := ProgramCorrect(fuel, Flatten(progs), sc, m);
      k := k1 + k2 + k3;
      MonoString(k1, k, m, progs[0]);
      MonoStrings(k3, k, m', progs[1..]);
      MonoString(k2, k, m, Flatten(progs));
    }
    SameGlobals(m1, m2, r.sc);
  }

  lemma SameGlobals(m1: Machine, m2: Machine, sc: Scopes)
    requires Idle(m1, sc) && Idle(m2, sc)
    ensures m1.glob == m2.glob
  {
    hide Strict, TrFrame;
  }

  lemma {:induction false} FlattenLoads(fuel: nat, progs: seq<seq<Source>>, sc: Scopes, m: Machine)
    requires progs != [] && Idle(m, sc) && EvalPrograms(fuel, progs, sc).Val?
    requires forall i | 0 <= i < |progs| :: Loadable(m.host.arr, progs[i])
    ensures Loadable(m.host.arr, Flatten(progs))
    ensures EvalBegin(fuel, Flatten(progs), sc) == EvalPrograms(fuel, progs, sc)
    decreases |progs|
  {
    hide Idle, Loadable, EvalBegin, EvalString, TrVal, GenBegin;
    var a := m.host.arr;
    var k1, next := ProgramCorrect(fuel, progs[0], sc, m);
    if |progs| == 1 {
      assert Flatten(progs) == progs[0] + Flatten(progs[1..]) == progs[0];
    } else {
      var sc' := EvalBegin(fuel, progs[0], sc).sc;
      forall i | 0 <= i < |progs[1..]| ensures Loadable(a, progs[1..][i]) {
        assert progs[1..][i] == progs[i + 1];
      }
      FlattenLoads(fuel, progs[1..], sc', next);
      FlattenSome(a, progs[1..]);
      LoadableAppend(a, progs[0], Flatten(progs[1..]));
      LoadableSome(a, progs[0]);
      BeginAppend(fuel, progs[0], Flatten(progs[1..]), sc);
    }
  }

  lemma LoadableSome(a: Symbol, es: seq<Source>)
    requires Loadable(a, es)
    ensures es != []
  {
  }

  lemma MonoString(k: nat, k': nat, m: Machine, es: seq<Source>)
    requires k <= k' && EvalString(k, m, es).Some?
    ensures EvalString(k', m, es) == EvalString(k, m, es)
  {
    hide Run, LoadInto;
    MonoRun(k, k', LoadExpressions(m, es).value);
  }

  lemma {:induction false} MonoStrings(k: nat, k': nat, m: Machine, progs: seq<seq<Source>>)
    requires progs != [] && k <= k' && EvalStrings(k, m, progs).Some?
    ensures EvalStrings(k', m, progs) == EvalStrings(k, m, progs)
    decreases |progs|
  {
    hide EvalString;
    MonoString(k, k', m, progs[0]);
    if |progs| > 1 {
      MonoStrings(k, k', EvalString(k, m, progs[0]).value.1, progs[1..]);
    }
  }
}
