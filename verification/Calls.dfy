/** Calls and returns match in every run without error of generated code, whatever its
    builtins run in between: a builtin, to any nesting of script, builtin and script, gives
    the machine back as it found it, and a script call ends in the return that restores its
    caller. No evaluator is involved, and the code may be as badly placed as it likes. */
module Calls {
  import opened Sexps
  import opened Scoping
  import opened Builtins
  import opened Instructions
  import opened Machines
  import opened Sealing

  /** `x` runs inside a script function that was called from `c`: the return address and
      the scope stack of `c` are kept in the same relative place of their stacks. */
  predicate Within(c: Machine, x: Machine) {
    var n, k := |c.addrs|, |c.saved|;
    && n < |x.addrs| && |x.addrs| - n == |x.saved| - k
    && x.addrs[..n] == c.addrs && x.addrs[n] == Address(c.curfunc, c.pc + 1)
    && x.saved[..k] == c.saved && x.saved[k] == c.locals
  }

  /** Back in the caller: its function, the instruction after the call, its scope stack. */
  predicate BackIn(c: Machine, x: Machine) {
    x.curfunc == c.curfunc && x.pc == c.pc + 1 && x.locals == c.locals && x.addrs == c.addrs && x.saved == c.saved
  }

  /** At an instruction of a function that control can leave only by return. */
  ghost predicate Standing(f: Function, pos: int) {
    !f.user && GoodFun(false, f) && 0 <= pos < |f.fun|
  }

  /** Within a call from `c`, where every function is a good one. */
  ghost predicate InCall(c: Machine, x: Machine) {
    && Within(c, x) && GoodState(false, x) && Standing(x.curfunc, x.pc)
    && forall i | |c.addrs| < i < |x.addrs| :: Standing(x.addrs[i].fn, x.addrs[i].pos)
  }

  /** What a builtin must give back. */
  predicate Same(m: Machine, m': Machine) {
    m'.curfunc == m.curfunc && m'.pc == m.pc && m'.locals == m.locals && m'.addrs == m.addrs && m'.saved == m.saved
  }

  // ---------- one instruction ----------

  lemma PlainStays(i: Instr, x: Machine)
    requires Standing(x.curfunc, x.pc) && i == x.curfunc.fun[x.pc] && Plain(i, x).Some?
    ensures var y := Plain(i, x).value;
            y.addrs == x.addrs && y.saved == x.saved && y.curfunc == x.curfunc && Standing(y.curfunc, y.pc)
  {
    hide LookupLocal, Capture, ToMarker, GoodFrame, GoodInstr;
    var n := |x.curfunc.fun| - 1;
    assert x.pc < n ==> x.curfunc.fun[..n][x.pc] == i;
  }

  lemma PlainInCall(i: Instr, c: Machine, x: Machine)
    requires InCall(c, x) && i == x.curfunc.fun[x.pc] && Plain(i, x).Some?
    ensures InCall(c, Plain(i, x).value)
  {
    PlainStays(i, x);
    assert GoodInstr(false, i);
    PlainGood(false, i, x);
    hide Plain, GoodState, Standing;
  }

  lemma GoodData'(vs: seq<Value>)
    requires GoodData(false, vs)
    ensures GoodVals(false, vs)
  {
  }

  lemma ArgumentsGood(f: Function, nargs: int, data: seq<Value>)
    requires GoodData(false, data) && Arguments(f, nargs, data).Some?
    ensures GoodData(false, Arguments(f, nargs, data).value)
  {
    if f.varargs && nargs > f.nargs {
      GoodData'(data);
      GoodMakeList(false, data[|data| - (nargs - f.nargs)..]);
    }
    hide MakeList;
  }

  /** A call enters a good function. */
  lemma CallEnters(f: Function, nargs: int, c: Machine)
    requires GoodState(false, c) && !f.user && GoodFun(false, f) && CallFunction(f, nargs, c).Some?
    ensures InCall(c, CallFunction(f, nargs, c).value)
  {
    ArgumentsGood(f, nargs, c.data);
    hide Arguments, GoodVal, MarkerFree;
  }

  /** A call from inside a call. */
  lemma CallDeeper(f: Function, nargs: int, c: Machine, x: Machine)
    requires InCall(c, x) && x.pc < |x.curfunc.fun| - 1 && !f.user && GoodFun(false, f)
             && CallFunction(f, nargs, x).Some?
    ensures InCall(c, CallFunction(f, nargs, x).value)
  {
    CallEnters(f, nargs, x);
    var y := CallFunction(f, nargs, x).value;
    assert Standing(x.curfunc, x.pc + 1);
    hide GoodState, Standing, Arguments;
    assert y.addrs == x.addrs + [Address(x.curfunc, x.pc + 1)] && y.saved == x.saved + [x.locals];
    hide CallFunction;
  }

  lemma ReturnBack(c: Machine, x: Machine)
    requires InCall(c, x) && ReturnFromFunction(x).Some?
    ensures var y := ReturnFromFunction(x).value;
            InCall(c, y) || (BackIn(c, y) && GoodState(false, y))
  {
    hide GoodVal, MarkerFree, Standing, GoodFrames;
    var y, n, k := ReturnFromFunction(x).value, |c.addrs|, |c.saved|;
    assert x.saved[|x.saved| - 1] == y.locals;
    assert GoodState(false, y);
    if |y.addrs| > n {
      assert y.addrs[..n] == x.addrs[..n] && y.saved[..k] == x.saved[..k];
    } else {
      assert y.addrs == x.addrs[..n] && y.saved == x.saved[..k];
    }
  }

  // ---------- builtins and what they run ----------

  /** A nested run comes back to the machine that started it. */
  lemma {:induction false} RunRestores(k: nat, c: Machine, x: Machine)
    requires InCall(c, x) && c.pc == -2 && Run(k, x).Some?
    ensures var (v, y) := Run(k, x).value; BackIn(c, y) && GoodState(false, y) && GoodVal(false, v)
    decreases k, 0
  {
    hide Exec, GoodVal, MarkerFree;
    ExecInCall(k - 1, c, x);
    var y := Exec(k - 1, x).value;
    hide Within, GoodFrame, GoodFrames;
    if InCall(c, y) {
      hide GoodState;
      RunRestores(k - 1, c, y);
    } else {
      assert GoodData(false, y.data);
      GoodData'(y.data);
    }
  }

  /** Applying a function inside a builtin leaves function, instruction, scopes and both
      stacks as they were. */
  lemma {:induction false} ApplyRestores(k: nat, f: Function, args: seq<Value>, m: Machine)
    requires GoodFun(false, f) && GoodVals(false, args) && GoodState(false, m) && m.pc == -1
             && Apply(k, f, args, m).Some?
    ensures var (v, m') := Apply(k, f, args, m).value; Same(m, m') && GoodState(false, m') && GoodVal(false, v)
    decreases k, 1
  {
    hide Run, RunBuiltin, GoodVal, GoodFun, MarkerFree, CallFunction;
    if f.user {
      BuiltinRestores(k - 1, f.name, f.name, args, m);
    } else {
      var c := m.(pc := -2).Pushed(args);
      assert GoodState(false, c);
      hide GoodFrame, GoodFrames, GoodData, GoodVals;
      CallEnters(f, |args|, c);
      RunRestores(k - 1, c, CallFunction(f, |args|, c).value);
    }
  }

  lemma {:induction false} MapArrayRestores(k: nat, f: Function, es: seq<Value>, m: Machine)
    requires GoodFun(false, f) && GoodVals(false, es) && GoodState(false, m) && m.pc == -1
             && MapArray(k, f, es, m).Some?
    ensures var (vs, m') := MapArray(k, f, es, m).value; Same(m, m') && GoodState(false, m') && GoodVals(false, vs)
    decreases k, 2, |es|
  {
    hide Apply, GoodVal, GoodFun, GoodState;
    if es != [] {
      ApplyRestores(k, f, es[..1], m);
      MapArrayRestores(k, f, es[1..], Apply(k, f, es[..1], m).value.1);
    }
  }

  lemma {:induction false} MapListRestores(k: nat, f: Function, e: Value, m: Machine)
    requires GoodFun(false, f) && GoodVal(false, e) && GoodState(false, m) && m.pc == -1 && MapList(k, f, e, m).Some?
    ensures var (v, m') := MapList(k, f, e, m).value; Same(m, m') && GoodState(false, m') && GoodVal(false, v)
    decreases k, 2, Size(e)
  {
    hide Apply, GoodFun, GoodState;
    if e.Pair? {
      ApplyRestores(k, f, [e.head], m);
      MapListRestores(k, f, e.tail, Apply(k, f, [e.head], m).value.1);
    }
  }

  lemma {:induction false} BuiltinRestores(k: nat, which: string, name: string, args: seq<Value>, m: Machine)
    requires GoodVals(false, args) && GoodState(false, m) && m.pc == -1 && RunBuiltin(k, which, name, args, m).Some?
    ensures var (v, m') := RunBuiltin(k, which, name, args, m).value;
            Same(m, m') && GoodState(false, m') && GoodVal(false, v)
    decreases k, 3
  {
    hide Apply, MapArray, MapList, Prim, ApplyArgs, GoodState;
    if which == "apply" {
      GoodApplyArgs(false, args[1]);
      assert GoodVal(false, args[0]);
      ApplyRestores(k, args[0].fn, ApplyArgs(args[1]).value, m);
    } else if which == "map" {
      assert GoodVal(false, args[0]) && GoodVal(false, args[1]);
      if args[1].Arr? {
        MapArrayRestores(k, args[0].fn, args[1].elems, m);
      } else {
        MapListRestores(k, args[0].fn, args[1], m);
      }
    } else {
      GoodPrim(false, m.host, which, name, args);
    }
  }

  /** A call of a builtin, whatever it runs, keeps both stacks, the scopes and the caller. */
  lemma {:induction false} BuiltinBalanced(k: nat, f: Function, name: string, nargs: nat, m: Machine)
    requires GoodState(false, m) && CallUserFunction(k, f, name, nargs, m).Some?
    ensures BackIn(m, CallUserFunction(k, f, name, nargs, m).value)
            && GoodState(false, CallUserFunction(k, f, name, nargs, m).value)
    decreases k, 4
  {
    hide RunBuiltin, GoodVal, MarkerFree, GoodFrame, GoodFrames;
    var n := |m.data| - nargs;
    var inside := m.(data := m.data[..n], addrs := m.addrs + [Address(m.curfunc, m.pc + 1)], curfunc := f, pc := -1);
    GoodData'(m.data);
    BuiltinRestores(k, f.name, name, m.data[n..], inside);
    var m' := RunBuiltin(k, f.name, name, m.data[n..], inside).value.1;
    assert m'.addrs[..|m.addrs|] == m.addrs;
  }

  lemma GoodNamed(m: Machine, s: int)
    requires GoodState(false, m) && Lookup(m.glob, m.locals, s).Some?
    ensures GoodVal(false, Lookup(m.glob, m.locals, s).value)
  {
    hide LookupLocal, GoodVal, MarkerFree;
    GoodLookup(false, m.locals, s);
  }

  lemma {:induction false} NamedInCall(k: nat, s: Symbol, nargs: nat, c: Machine, x: Machine)
    requires InCall(c, x) && x.pc < |x.curfunc.fun| - 1 && CallNamed(k, s, nargs, x).Some?
    ensures InCall(c, CallNamed(k, s, nargs, x).value)
    decreases k, 5
  {
    hide LookupLocal, CallUserFunction, CallFunction, GoodState;
    if s.num in x.host.builtins {
      var f := BuiltinFunction(x.host.builtins[s.num]);
      BuiltinBalanced(k, f, s.name, nargs, x);
      BackInCall(c, x, CallUserFunction(k, f, s.name, nargs, x).value);
    } else {
      GoodNamed(x, s.num);
      var v := Lookup(x.glob, x.locals, s.num).value;
      if v.fn.user {
        BuiltinBalanced(k, v.fn, s.name, nargs, x);
        BackInCall(c, x, CallUserFunction(k, v.fn, s.name, nargs, x).value);
      } else {
        CallDeeper(v.fn, nargs, c, x);
      }
    }
  }

  /** The caller, one instruction on, is still in the same call. */
  lemma BackInCall(c: Machine, x: Machine, y: Machine)
    requires InCall(c, x) && x.pc < |x.curfunc.fun| - 1 && BackIn(x, y) && GoodState(false, y)
    ensures InCall(c, y)
  {
    hide GoodState;
  }

  lemma {:induction false} TopInCall(k: nat, nargs: nat, c: Machine, x: Machine)
    requires InCall(c, x) && x.pc < |x.curfunc.fun| - 1 && CallTop(k, nargs, x).Some?
    ensures InCall(c, CallTop(k, nargs, x).value)
    decreases k, 5
  {
    hide CallUserFunction, CallFunction;
    var n := |x.data| - 1;
    var f, popped := x.data[n].fn, x.(data := x.data[..n]);
    Popped(c, x);
    hide GoodState;
    if f.user {
      BuiltinBalanced(k, f, f.name, nargs, popped);
      BackInCall(c, popped, CallUserFunction(k, f, f.name, nargs, popped).value);
    } else {
      CallDeeper(f, nargs, c, popped);
    }
  }

  lemma Popped(c: Machine, x: Machine)
    requires InCall(c, x) && x.data != []
    ensures InCall(c, x.(data := x.data[..|x.data| - 1])) && GoodState(false, x.(data := x.data[..|x.data| - 1]))
    ensures x.data[|x.data| - 1].Fun? ==> GoodFun(false, x.data[|x.data| - 1].fn)
  {
    hide MarkerFree, GoodFrame, Standing;
    var v := x.data[|x.data| - 1];
    assert v.Marker? || GoodVal(false, v);
  }

  /** Every instruction of a run inside a call stays inside, or returns to the caller. */
  lemma {:induction false} ExecInCall(k: nat, c: Machine, x: Machine)
    requires InCall(c, x) && Exec(k, x).Some?
    ensures var y := Exec(k, x).value; InCall(c, y) || (BackIn(c, y) && GoodState(false, y))
    decreases k, 6
  {
    hide Plain, CallNamed, CallTop, ReturnFromFunction, GoodState, Within;
    NotLast(x.curfunc, x.pc);
    match x.curfunc.fun[x.pc]
    case Call(s, nargs) => NamedInCall(k, s, nargs, c, x);
    case Dispatch(nargs) => TopInCall(k, nargs, c, x);
    case Return(_) => ReturnBack(c, x);
    case i => PlainInCall(i, c, x);
  }

  lemma NotLast(f: Function, pos: int)
    requires Standing(f, pos)
    ensures f.fun[pos] != Return(false) ==> pos < |f.fun| - 1
  {
  }

  // ---------- whole runs ----------

  /** Every run from inside a call that comes back to the depth of its caller does so
      through a return that restores exactly the caller's function, next instruction and
      scope stack; until then every saved scope stack belongs to an active script call. */
  lemma {:induction false} CallsMatch(k: nat, n: nat, c: Machine, x: Machine) returns (i: nat)
    requires InCall(c, x) && Steps(k, n, x).Some? && |Steps(k, n, x).value.addrs| <= |c.addrs|
    ensures 0 < i <= n && Steps(k, i, x).Some? && BackIn(c, Steps(k, i, x).value)
    ensures forall j: nat | j < i :: Steps(k, j, x).Some? && InCall(c, Steps(k, j, x).value)
    decreases n
  {
    hide Exec, InCall, BackIn;
    assert n > 0 by {
      Deeper(c, x);
    }
    var y := Exec(k, x).value;
    ExecInCall(k, c, x);
    StepsOne(k, x);
    if BackIn(c, y) {
      i := 1;
      assert Steps(k, 0, x) == Some(x);
    } else {
      var i' := CallsMatch(k, n - 1, c, y);
      i := i' + 1;
      forall j: nat | j < i ensures Steps(k, j, x).Some? && InCall(c, Steps(k, j, x).value) {
        if j > 0 {
          assert Steps(k, j, x) == Steps(k, j - 1, y);
        }
      }
    }
  }

  lemma Deeper(c: Machine, x: Machine)
    requires InCall(c, x)
    ensures |x.addrs| > |c.addrs|
  {
  }

  lemma StepsOne(k: nat, x: Machine)
    requires Exec(k, x).Some?
    ensures Steps(k, 1, x) == Exec(k, x)
  {
    hide Exec;
  }
}
