/** Stack safety of generated code: of single expressions in any place, of calls, and of
    programs loaded one after another. */
module SafePrograms {
  import opened Sexps
  import opened Scoping
  import opened Builtins
  import opened Instructions
  import opened Codegen
  import opened Machines
  import opened Runs
  import opened Wellformed
  import opened StackTypes
  import opened Sealing
  import opened Regularity
  import opened TypedCode
  import opened Troubles
  import opened Activations
  import opened Safety
  import Simulation
  import Loading

  // ---------- single expressions ----------

  /** The code of one expression, started from `x`: of the scopes that are open only the
      innermost may change, and none of them may be closed. */
  function Region(x: Machine, ts: seq<Shape>): Act
    requires 0 <= x.pc
  {
    var own := if x.locals == [] then 0 else 1;
    Act(x.curfunc, x.pc, Rules(own, None, false), ts, x.locals[..|x.locals| - own], x.data, x.addrs, x.saved, x.host,
        x.glob)
  }

  function Here(x: Machine): Shape {
    Shape([], if x.locals == [] then 0 else 1)
  }

  lemma RegionStarts(x: Machine, code: seq<Instr>, ts: seq<Shape>)
    requires Simulation.CodeAt(x, 0, code) && code != []
    requires (forall p | 0 <= p < |code| :: GoodInstr(true, code[p]))
    requires Leads(Region(x, ts).rules, code, ts, Here(x), Here(x).Push(One))
    ensures var r := Region(x, ts); Well(r) && At(r, x) && x.pc < r.End() == x.pc + |code|
  {
    hide Typed, GoodInstr;
    var r := Region(x, ts);
    assert r.End() == x.pc + |code| && r.fn.fun[r.off..r.End()] == code;
    forall p | r.off <= p < r.End() ensures GoodInstr(true, r.fn.fun[p]) {
      assert r.fn.fun[p] == code[p - x.pc];
    }
    assert Holds(r, x, ts[0]) by {
      assert x.data[|x.data|..] == [] && x.data[..|x.data|] == x.data;
    }
  }

  /** Where the code of an expression ends: one value more, the same scopes open. */
  ghost predicate OneMore(x: Machine, off: nat, z: Machine) {
    && GoodState(true, z) && z.host == x.host
    && z.curfunc == x.curfunc && z.pc == x.pc + off && z.addrs == x.addrs && z.saved == x.saved
    && |z.data| == |x.data| + 1 && z.data[..|x.data|] == x.data && !z.data[|x.data|].Marker?
    && |z.locals| == |x.locals|
    && (x.locals != [] ==> z.glob == x.glob && z.locals[..|x.locals| - 1] == x.locals[..|x.locals| - 1])
  }

  lemma RegionEnds(x: Machine, code: seq<Instr>, ts: seq<Shape>, z: Machine)
    requires 0 <= x.pc && Leads(Region(x, ts).rules, code, ts, Here(x), Here(x).Push(One))
    requires Leaves(Region(x, ts), z)
    ensures OneMore(x, |code|, z)
  {
    hide Typed, GoodState;
    var top := z.data[|x.data|..];
    assert [One][..0] == [] && [] + [One] == [One];
    assert Fits(top, [One]);
    assert |top| == 1 && top[0] == z.data[|x.data|];
  }

  /** The code of a well-formed expression, in any function and from any state: it never
      takes a value from below, never jumps out, and where it ends there is exactly one
      value more and the scopes that were open before. */
  lemma ExpressionSafe(k: nat, n: nat, fname: string, e: Value, g: Gst, cx: Ctx, x: Machine)
    returns (r: Act, left: Option<nat>)
    requires GoodVal(true, e) && Regular(x.host.arr, Anyhow, e) && WF(x.host.arr, fname, e, g, cx.Unsafe())
    requires var o := Gen(x.host.arr, fname, e, g); o.err == Ok && Simulation.CodeAt(x, 0, o.code)
    requires GoodState(true, x) && Steps(k, n, x).Some?
    ensures r == Region(x, r.ts) && Outcome(k, n, r, x, left)
    ensures left.Some? ==> OneMore(x, |Gen(x.host.arr, fname, e, g).code|, Steps(k, left.value, x).value)
  {
    hide WF, GoodState, Regular, GoodVal, Gen, Steps, GoodInstr, Typed;
    var code := Gen(x.host.arr, fname, e, g).code;
    var own := if x.locals == [] then 0 else 1;
    Loading.EmitsCode(x.host.arr, fname, e, g, cx.Unsafe());
    TExpr(x.host.arr, fname, e, g, Anyhow, cx.Unsafe(), Rules(own, None, false), Here(x));
    var ts :| Leads(Rules(own, None, false), code, ts, Here(x), Here(x).Push(One));
    hide Leads;
    r := Region(x, ts);
    RegionStarts(x, code, ts);
    hide Well, At, Leaves, Keeping;
    left := StackSafe(k, n, r, x);
    if left.Some? {
      RegionEnds(x, code, ts, Steps(k, left.value, x).value);
    }
  }

  // ---------- calls ----------

  /** A call of any function that is regular, from any state: it stays above the caller's
      part of the data stack until it returns, and then gives back the caller's machine with
      the value in place of the arguments. */
  lemma FunctionSafe(k: nat, n: nat, f: Function, base: seq<Value>, args: seq<Value>, c: Machine)
    returns (r: Act, left: Option<nat>)
    requires GoodState(true, c) && !f.user && GoodFun(true, f) && GoodVals(true, args) && c.data == base + args
    requires CallFunction(f, |args|, c).Some? && Steps(k, n, CallFunction(f, |args|, c).value).Some?
    ensures r == Entry(f, r.ts, base, c) && Well(r) && Outcome(k, n, r, CallFunction(f, |args|, c).value, left)
    ensures left.Some? ==>
              var z := Steps(k, left.value, CallFunction(f, |args|, c).value).value;
              z.data != [] && z == c.(pc := c.pc + 1, data := base + [z.data[|z.data| - 1]])
  {
    hide GoodState, GoodFun, GoodVals, CallFunction, Steps, Well, At, Keeping, GoodVal;
    r := Enters(f, |args|, c, base, args);
    var y := CallFunction(f, |args|, c).value;
    left := StackSafe(k, n, r, y);
    if left.Some? {
      var z := Steps(k, left.value, y).value;
      BackFromEntry(f, r.ts, base, c, z.data[|base|]);
    }
  }

  /** Every jump back to the start that an activation comes to finds on its part of the data
      stack exactly the new arguments, and of its scopes exactly its own one left open; the
      stacks of addresses and saved scopes are as at every other such jump. */
  lemma JumpExact(k: nat, r: Act, z: Machine, l: int) returns (args: seq<Value>)
    requires Well(r) && Keeping(k, r, z) && |z.addrs| == |r.addrs| && z.curfunc.fun[z.pc] == Goto(l)
    ensures l == 0 && r.rules.loop == Some(|args|) && z.data == r.base + args && Plainly(args)
    ensures |z.locals| == |r.floor| + r.rules.own && z.locals[..|r.floor|] == r.floor
    ensures z.addrs == r.addrs && z.saved == r.saved
  {
    hide Well, Smooth;
    var i, s := TypedHere(r, z);
    args := z.data[|r.base|..];
    hide Ones, Holds, Typed;
    var all := Ones(|s.slots|);
    assert Take(s.slots, |s.slots|) == Some([]) by {
      assert s.slots[0..] == s.slots && s.slots[..0] == [];
    }
    AllTaken(r, z, s);
  }

  lemma AllTaken(r: Act, z: Machine, s: Shape)
    requires Holds(r, z, s) && Take(s.slots, |s.slots|) == Some([])
    ensures |z.data| == |r.base| + |s.slots| && Plainly(z.data[|r.base|..]) && z.data == r.base + z.data[|r.base|..]
    ensures |z.locals| == |r.floor| + s.depth && z.locals[..|r.floor|] == r.floor
  {
    var vs := SplitBase(r, z, s);
    FitsTake(vs, s.slots, |s.slots|);
    assert vs[..|vs| - |s.slots|] == [];
    assert z.data[|r.base|..] == vs == vs[0..];
  }

  // ---------- programs ----------

  /** What the reader can give: no functions, no markers. */
  predicate Text(es: seq<Value>) {
    forall i | 0 <= i < |es| :: IsData(es[i]) && NoMarker(es[i])
  }

  lemma {:induction false} TextGood(e: Value)
    requires IsData(e) && NoMarker(e)
    ensures GoodVal(true, e)
  {
    match e
    case Pair(h, t) =>
      TextGood(h);
      TextGood(t);
    case Arr(es) =>
      forall i | 0 <= i < |es| ensures GoodVal(true, es[i]) {
        TextGood(es[i]);
      }
    case _ =>
  }

  /** A program every part of which is regular. */
  ghost predicate Sound(a: Symbol, es: seq<Value>) {
    Text(es) && Loading.Loadable(a, es) && RegularAll(a, Anyhow, es)
  }

  /** Between loads. */
  ghost predicate AtRest(m: Machine) {
    && GoodState(true, m) && !m.curfunc.user && m.pc == |m.curfunc.fun|
    && m.locals == [] && m.data == [] && m.addrs == [] && m.saved == []
  }

  /** At the end of a program: its value, and nothing else on any stack. */
  ghost predicate Finished(m: Machine, host: Host) {
    && m.host == host && GoodState(true, m) && !m.curfunc.user && m.pc == |m.curfunc.fun|
    && m.locals == [] && |m.data| == 1 && GoodVal(true, m.data[0]) && m.addrs == [] && m.saved == []
  }

  lemma ProgramStarts(es: seq<Value>, m: Machine) returns (m0: Machine, r: Act, code: seq<Instr>)
    requires AtRest(m) && Sound(m.host.arr, es)
    ensures Loading.LoadExpressions(m, es) == Some(m0) && m0.addrs == [] && m0.saved == [] && GoodState(true, m0)
    ensures code == GenBegin(m.host.arr, "", es, Loading.TOP).code && m0.pc + |code| == |m0.curfunc.fun|
    ensures r == Region(m0, r.ts) && (code != [] ==> Well(r) && At(r, m0) && m0.pc < r.End())
    ensures Leads(r.rules, code, r.ts, Here(m0), Here(m0).Push(One))
    ensures !m0.curfunc.user && m0.locals == [] && m0.data == [] && m0.host == m.host
  {
    hide GenBegin, WFBegin, Regular, RegularAll, GoodInstr, Typed;
    m0 := Loading.LoadExpressions(m, es).value;
    code := GenBegin(m.host.arr, "", es, Loading.TOP).code;
    assert m0.curfunc.fun[m.pc..m.pc + |code|] == code;
    forall i | 0 <= i < |es| ensures GoodVal(true, es[i]) {
      TextGood(es[i]);
    }
    TBegin(m.host.arr, "", es, Loading.TOP, Anyhow, MAIN, Rules(0, None, false), Shape([], 0));
    var ts :| Leads(Rules(0, None, false), code, ts, Shape([], 0), Shape([], 0).Push(One));
    r := Region(m0, ts);
    hide Leads, GoodState;
    if code != [] {
      RegionStarts(m0, code, ts);
    }
    assert GoodState(true, m0) by {
      SameGood(m, m0);
    }
  }

  lemma SameGood(m: Machine, m0: Machine)
    requires GoodState(true, m) && m0 == m.(curfunc := m0.curfunc, pc := m0.pc)
    ensures GoodState(true, m0)
  {
  }

  /** Every state of every run of a sound program, loaded into a machine at rest whatever was
      run on it before: it is the end of the program, with exactly one value, or an
      instruction that raises no jump, stack, marker or scope error, and neither do those of
      the functions that a builtin called there runs. */
  lemma ProgramSafe(k: nat, n: nat, es: seq<Value>, m: Machine)
    requires AtRest(m) && Sound(m.host.arr, es)
    requires Steps(k, n, Loading.LoadExpressions(m, es).value).Some?
    ensures var z := Steps(k, n, Loading.LoadExpressions(m, es).value).value; Finished(z, m.host) || Smooth(k, 0, z)
  {
    hide AtRest, Sound, Finished, Smooth, Steps, Leads;
    var m0, r, code := ProgramStarts(es, m);
    ProgramCode(m.host.arr, es);
    hide Well, At, GoodState, Loading.LoadInto, GenBegin, Keeping, Leaves;
    var left := StackSafe(k, n, r, m0);
    if left.None? {
      assert Smooth(k, |r.base|, Steps(k, n, m0).value) by {
        KeepsSmooth(k, r, Steps(k, n, m0).value);
      }
    } else {
      var w := Steps(k, left.value, m0).value;
      RegionEnds(m0, code, r.ts, w);
      AtEnd(m0, |code|, w);
      StepsAppend(k, left.value, n - left.value, m0);
      NoFurther(k, n - left.value, w);
    }
  }

  lemma KeepsSmooth(k: nat, r: Act, z: Machine)
    requires Keeping(k, r, z)
    ensures Smooth(k, |r.base|, z)
  {
  }

  lemma AtEnd(m0: Machine, off: nat, w: Machine)
    requires OneMore(m0, off, w) && m0.pc + off == |m0.curfunc.fun| && !m0.curfunc.user
    requires m0.locals == [] && m0.data == [] && m0.addrs == [] && m0.saved == []
    ensures Finished(w, m0.host)
  {
    hide GoodVal, GoodFrame, MarkerFree;
  }

  lemma NoFurther(k: nat, n: nat, w: Machine)
    requires Steps(k, n, w).Some? && w.pc == |w.curfunc.fun|
    ensures n == 0
  {
    hide CallNamed, CallTop, Plain;
    assert Exec(k, w).None?;
  }

  lemma ProgramCode(a: Symbol, es: seq<Value>)
    requires Sound(a, es)
    ensures GenBegin(a, "", es, Loading.TOP).code != []
  {
    hide GenBegin, WFBegin, RegularAll;
    Loading.SomeCode(a, es);
  }

  /** A sound program that ends without error leaves the machine at rest for the next. */
  lemma LoadKeepsRest(k: nat, es: seq<Value>, m: Machine)
    requires AtRest(m) && Sound(m.host.arr, es) && Loading.EvalString(k, m, es).Some?
    ensures var (v, m') := Loading.EvalString(k, m, es).value; AtRest(m') && m'.host == m.host && GoodVal(true, v)
  {
    hide AtRest, Sound, Smooth, Steps, Loading.LoadInto, GenBegin, Run, Finished;
    var m0 := Loading.LoadExpressions(m, es).value;
    var n := RunAsSteps(k, m0);
    var w := Steps(k - 1, n, m0).value;
    ProgramSafe(k - 1, n, es, m);
    DoneAtEnd(k - 1, w, m.host);
    RestAfter(w, m.host);
  }

  lemma DoneAtEnd(k: nat, w: Machine, host: Host)
    requires w.IsDone() && (Finished(w, host) || Smooth(k, 0, w))
    ensures Finished(w, host)
  {
    hide SmoothUser, LookupLocal;
  }

  lemma RestAfter(w: Machine, host: Host)
    requires Finished(w, host)
    ensures w.host == host && AtRest(w.(data := w.data[..|w.data| - 1])) && GoodVal(true, w.data[|w.data| - 1])
  {
    hide GoodVal, GoodFrame, MarkerFree;
  }

  /** A new environment is at rest. */
  lemma NewAtRest(host: Host)
    requires MarkerFree(host)
    ensures AtRest(NewMachine(host))
  {
    hide MarkerFree;
    var f := BuiltinFrame(host);
    forall s | s in f ensures GoodVal(true, f[s]) {
      assert GoodFun(true, f[s].fn);
    }
  }

  /** And programs loaded one after another, where each ends without error, leave it so. */
  lemma {:induction false} LoadsKeepRest(k: nat, progs: seq<seq<Value>>, m: Machine)
    requires AtRest(m) && progs != [] && forall i | 0 <= i < |progs| :: Sound(m.host.arr, progs[i])
    requires Loading.EvalStrings(k, m, progs).Some?
    ensures AtRest(Loading.EvalStrings(k, m, progs).value.1)
    decreases |progs|
  {
    hide AtRest, Sound, Loading.EvalString;
    LoadKeepsRest(k, progs[0], m);
    if |progs| > 1 {
      LoadsKeepRest(k, progs[1..], Loading.EvalString(k, m, progs[0]).value.1);
    }
  }
}
