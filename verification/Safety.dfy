/** Stack safety: typed code keeps to its part of the stacks in every run, with an error or
    without, whatever its builtins run in between. It never jumps out of its function, never
    takes a value from below the height it was entered with, never misses a marker; a nested
    run gives back the very machine it was started on. No evaluator is involved. */
module Safety {
  import opened Sexps
  import opened Scoping
  import opened Builtins
  import opened Instructions
  import opened Machines
  import opened Runs
  import opened StackTypes
  import opened Sealing
  import opened Troubles
  import opened Activations

  // ---------- runs ----------

  /** A state of a run that is still inside the activation: in it, and then as its shape
      says, or in a function called from it. */
  ghost predicate Keeping(k: nat, r: Act, z: Machine) {
    && |r.base| <= |z.data| && z.data[..|r.base|] == r.base && Smooth(k, |r.base|, z)
    && |r.addrs| <= |z.addrs| && z.addrs[..|r.addrs|] == r.addrs
    && |z.saved| - |r.saved| == |z.addrs| - |r.addrs| && z.saved[..|r.saved|] == r.saved
    && (r.rules.own > 0 ==> z.glob == r.glob)
    && (|z.addrs| == |r.addrs| ==> At(r, z) && z.pc < r.End())
  }

  /** What `n` instructions from `x` do: none leaves the activation, or the `left`th does. */
  ghost predicate Outcome(k: nat, n: nat, r: Act, x: Machine, left: Option<nat>) {
    var last := if left.None? then n + 1 else left.value;
    && (forall j: nat | j < last :: Steps(k, j, x).Some? && Keeping(k, r, Steps(k, j, x).value))
    && (left.Some? ==> 0 < last <= n && Steps(k, last, x).Some? && Leaves(r, Steps(k, last, x).value))
  }

  lemma {:induction false} SmoothMono(k: nat, h: nat, h': nat, m: Machine)
    requires Smooth(k, h, m) && h' <= h
    ensures Smooth(k, h', m)
  {
    hide ToMarker, SmoothUser, LookupLocal;
  }

  /** Inside a function called from the activation. */
  lemma KeepingOuter(k: nat, r: Act, r': Act, z: Machine)
    requires Keeping(k, r', z) && |r'.base| >= |r.base| && r'.base[..|r.base|] == r.base
    requires |r'.addrs| == |r.addrs| + 1 && r'.addrs[..|r.addrs|] == r.addrs && r'.rules.own > 0
    requires |r'.saved| == |r.saved| + 1 && r'.saved[..|r.saved|] == r.saved && (r.rules.own > 0 ==> r'.glob == r.glob)
    ensures Keeping(k, r, z)
  {
    hide Smooth, At;
    SmoothMono(k, |r'.base|, |r.base|, z);
    assert z.data[..|r.base|] == z.data[..|r'.base|][..|r.base|];
    assert z.addrs[..|r.addrs|] == z.addrs[..|r'.addrs|][..|r.addrs|];
    assert z.saved[..|r.saved|] == z.saved[..|r'.saved|][..|r.saved|];
  }

  lemma KeepingHere(k: nat, r: Act, x: Machine)
    requires At(r, x) && x.pc < r.End() && Smooth(k, |r.base|, x)
    ensures Keeping(k, r, x)
  {
    hide Smooth, Fits;
  }

  lemma {:induction false} Combine(k: nat, n: nat, r: Act, x: Machine, i: nat, w: Machine,
                                   rest: Option<nat>)
    returns (left: Option<nat>)
    requires i <= n && Steps(k, i, x) == Some(w) && Outcome(k, n - i, r, w, rest)
    requires forall j: nat | j < i :: Steps(k, j, x).Some? && Keeping(k, r, Steps(k, j, x).value)
    ensures Outcome(k, n, r, x, left)
  {
    hide Keeping, Leaves, Exec, Steps;
    left := if rest.None? then None else Some(i + rest.value);
    var last := if left.None? then n + 1 else left.value;
    forall j: nat | i <= j <= last && j <= n ensures Steps(k, j, x) == Steps(k, j - i, w) {
      StepsAppend(k, i, j - i, x);
    }
  }

  /** A run of the machine is a sequence of steps. */
  lemma {:induction false} RunAsSteps(k: nat, m: Machine) returns (n: nat)
    requires Run(k, m).Some?
    ensures k > 0 && n > 0 && Steps(k - 1, n, m).Some? && Steps(k - 1, n, m).value.IsDone()
    ensures var m' := Steps(k - 1, n, m).value;
            && m'.data != [] && Run(k, m) == Some((m'.data[|m'.data| - 1], m'.(data := m'.data[..|m'.data| - 1])))
    decreases k
  {
    var y := Exec(k - 1, m).value;
    assert Exec(k - 1, m) == Some(y);
    if y.IsDone() {
      n := 1;
      hide Exec;
      assert Steps(k - 1, 1, m) == Steps(k - 1, 0, y) == Some(y);
    } else {
      var n' := RunAsSteps(k - 1, y);
      MonoSteps(k - 2, k - 1, n', y);
      n := n' + 1;
      hide Exec;
    }
  }

  // ---------- builtins and the runs they start ----------

  /** A builtin, and all that it runs, is smooth and gives back the machine it was given. */
  lemma {:induction false} BuiltinSafe(k: nat, which: string, name: string, args: seq<Value>, m: Machine)
    requires GoodState(true, m) && m.pc == -1 && GoodVals(true, args)
    ensures SmoothBuiltin(k, which, args, m)
    ensures var y := RunBuiltin(k, which, name, args, m); y.Some? ==> y.value.1 == m && GoodVal(true, y.value.0)
    decreases k, 3
  {
    hide GoodState, SmoothApply, SmoothMapArray, SmoothMapList, Apply, MapArray, MapList, ApplyArgs, Prim;
    if |args| == 2 && args[0].Fun? {
      assert GoodVal(true, args[0]) && GoodVal(true, args[1]);
      if which == "apply" && ApplyArgs(args[1]).Some? {
        GoodApplyArgs(true, args[1]);
        ApplySafe(k, args[0].fn, ApplyArgs(args[1]).value, m);
      }
      if which == "map" && args[1].Arr? {
        MapArraySafe(k, args[0].fn, args[1].elems, m);
      }
      if which == "map" && args[1].Pair? {
        MapListSafe(k, args[0].fn, args[1], m);
      }
    }
    if which != "apply" && which != "map" && Prim(m.host, which, name, args).Some? {
      GoodHost(m);
      GoodPrim(true, m.host, which, name, args);
    }
  }

  lemma GoodHost(m: Machine)
    requires GoodState(true, m)
    ensures MarkerFree(m.host)
  {
  }

  lemma {:induction false} MapArraySafe(k: nat, f: Function, es: seq<Value>, m: Machine)
    requires GoodState(true, m) && m.pc == -1 && GoodFun(true, f) && GoodVals(true, es)
    ensures SmoothMapArray(k, f, es, m)
    ensures var y := MapArray(k, f, es, m); y.Some? ==> y.value.1 == m && GoodVals(true, y.value.0)
    decreases k, 2, |es|
  {
    hide GoodState, GoodFun, GoodVal, SmoothApply, Apply;
    if es != [] {
      ApplySafe(k, f, es[..1], m);
      if Apply(k, f, es[..1], m).Some? {
        MapArraySafe(k, f, es[1..], m);
      }
    }
  }

  lemma {:induction false} MapListSafe(k: nat, f: Function, e: Value, m: Machine)
    requires GoodState(true, m) && m.pc == -1 && GoodFun(true, f) && GoodVal(true, e)
    ensures SmoothMapList(k, f, e, m)
    ensures var y := MapList(k, f, e, m); y.Some? ==> y.value.1 == m && GoodVal(true, y.value.0)
    decreases k, 2, Size(e)
  {
    hide GoodState, GoodFun, SmoothApply, Apply;
    if e.Pair? {
      ApplySafe(k, f, [e.head], m);
      if Apply(k, f, [e.head], m).Some? {
        MapListSafe(k, f, e.tail, m);
      }
    }
  }

  /** Re-entrancy, for any function at all: whatever an `Apply` inside a builtin runs, it is
      smooth, and if it comes back, it is to the same machine. */
  lemma {:induction false} ApplySafe(k: nat, f: Function, args: seq<Value>, m: Machine)
    requires GoodState(true, m) && m.pc == -1 && GoodFun(true, f) && GoodVals(true, args)
    ensures SmoothApply(k, f, args, m)
    ensures var y := Apply(k, f, args, m); y.Some? ==> y.value.1 == m && GoodVal(true, y.value.0)
    decreases k, 1
  {
    if k == 0 {
    } else if f.user {
      hide GoodFun, GoodState, GoodVals, SmoothBuiltin, RunBuiltin;
      BuiltinSafe(k - 1, f.name, f.name, args, m);
    } else {
      var c := m.(pc := -2).Pushed(args);
      assert GoodState(true, c) by {
        hide GoodVal, GoodFrame, MarkerFree;
      }
      hide GoodState, GoodVals, GoodFun, SmoothRun, Run, CallFunction;
      if CallFunction(f, |args|, c).Some? {
        var r := Enters(f, |args|, c, m.data, args);
        var y := CallFunction(f, |args|, c).value;
        EntryBack(f, r.ts, m, c);
        if k > 1 {
          RunSafe(k - 2, r, y);
          if Run(k - 1, y).Some? {
            RunBack(k - 1, r, y);
          }
        } else {
          NoRun(y);
        }
      }
    }
  }

  lemma NoRun(m: Machine)
    ensures Run(0, m).None?
  {
  }

  /** What the return of a function applied inside a builtin leaves. */
  lemma EntryBack(f: Function, ts: seq<Shape>, m: Machine, c: Machine)
    requires m.pc == -1 && c == m.(pc := -2, data := c.data)
    ensures var r := Entry(f, ts, m.data, c);
            && r.addrs != [] && r.addrs[|r.addrs| - 1].pos == -1 && r.saved != [] && r.rules.back
            && forall v :: Back(r, v) == m.(data := m.data + [v])
  {
    var r := Entry(f, ts, m.data, c);
    forall v ensures Back(r, v) == m.(data := m.data + [v]) {
      BackFromEntry(f, ts, m.data, c, v);
    }
  }

  /** A state inside an activation is not one in which the machine is done. */
  lemma NotDone(k: nat, r: Act, z: Machine)
    requires Keeping(k, r, z)
    ensures !z.IsDone()
  {
    hide At, SmoothUser, LookupLocal;
  }

  /** A run that starts a function is over when that function returns. */
  lemma {:induction false} RunSafe(k: nat, r: Act, y: Machine)
    requires Well(r) && At(r, y) && y.pc < r.End() && GoodState(true, y)
    requires r.rules.back && r.addrs != [] && r.addrs[|r.addrs| - 1].pos == -1
    ensures SmoothRun(k, |r.base|, y)
    decreases k, 7
  {
    hide Well, At, GoodState, Exec, Smooth, Steps, Leaves;
    forall j: nat | Steps(k, j, y).Some? && !Steps(k, j, y).value.IsDone()
      ensures Smooth(k, |r.base|, Steps(k, j, y).value)
    {
      var left := StackSafe(k, j, r, y);
      StaysInside(k, j, r, y, left);
    }
  }

  lemma StaysInside(k: nat, j: nat, r: Act, y: Machine, left: Option<nat>)
    requires Outcome(k, j, r, y, left) && Steps(k, j, y).Some? && r.rules.back && r.addrs != []
             && r.addrs[|r.addrs| - 1].pos == -1
    ensures if left.None? then Keeping(k, r, Steps(k, j, y).value)
            else left.value == j && Leaves(r, Steps(k, j, y).value)
    ensures left.Some? ==> Steps(k, j, y).value.IsDone()
  {
    hide Keeping, GoodState;
    if left.Some? {
      var w := Steps(k, left.value, y).value;
      assert w.pc == -1;
      StepsAppend(k, left.value, j - left.value, y);
      assert Exec(k, w).None?;
    }
  }

  lemma {:induction false} RunBack(k: nat, r: Act, y: Machine)
    requires k > 0 && Well(r) && At(r, y) && y.pc < r.End() && GoodState(true, y) && Run(k, y).Some?
    requires r.rules.back && r.saved != [] && r.addrs != [] && r.addrs[|r.addrs| - 1].pos == -1
    ensures var (v, m') := Run(k, y).value; GoodVal(true, v) && m' == Back(r, v).(data := r.base)
    decreases k, 0
  {
    hide Well, At, GoodState, Exec, Steps, Keeping, Run, GoodVal;
    var n := RunAsSteps(k, y);
    var left := StackSafe(k - 1, n, r, y);
    StaysInside(k - 1, n, r, y, left);
    var w := Steps(k - 1, n, y).value;
    if left.None? {
      NotDone(k - 1, r, w);
    }
    assert w.data == r.base + [w.data[|r.base|]];
  }

  /** A call of a builtin. */
  lemma {:induction false} UserSafe(k: nat, f: Function, name: string, nargs: nat, x: Machine)
    requires GoodState(true, x) && nargs <= |x.data| && GoodVals(true, x.data[|x.data| - nargs..])
    ensures SmoothUser(k, f, nargs, x)
    ensures var y := CallUserFunction(k, f, name, nargs, x);
            y.Some? ==> y.value.data != [] && var v := y.value.data[|y.value.data| - 1];
              GoodVal(true, v) && y.value == x.(pc := x.pc + 1, data := x.data[..|x.data| - nargs] + [v])
    decreases k, 4
  {
    var n := |x.data| - nargs;
    var inside := Inside(f, x.data[..n], x);
    assert GoodState(true, inside) by {
      hide GoodVal, GoodFrame, MarkerFree;
    }
    assert inside.addrs[..|x.addrs|] == x.addrs;
    hide GoodState, GoodVals, GoodVal, SmoothBuiltin, RunBuiltin;
    BuiltinSafe(k, f.name, name, x.data[n..], inside);
  }

  // ---------- the theorem ----------

  lemma NamedGood(x: Machine, s: int)
    requires GoodState(true, x) && Lookup(x.glob, x.locals, s).Some?
    ensures GoodVal(true, Lookup(x.glob, x.locals, s).value)
  {
    hide LookupLocal, GoodVal, MarkerFree;
    GoodLookup(true, x.locals, s);
  }

  lemma {:induction false} SmoothHere(k: nat, r: Act, x: Machine)
    requires Well(r) && At(r, x) && x.pc < r.End() && GoodState(true, x)
    ensures Smooth(k, |r.base|, x)
    decreases k, 5, 1
  {
    hide Well, At, GoodState, GoodVal, GoodVals, SmoothUser, Awaits;
    var i, s := TypedHere(r, x);
    hide Holds, TypedAt, Settled, GoodInstr, Short, Strays;
    match i
    case Call(_, n) =>
      CallAt(r, x, n);
      SmoothCall(k, x, i.sym, n);
    case Dispatch(n) =>
      DispatchAt(r, x, n);
      var f := x.data[|x.data| - 1];
      if f.Fun? && f.fn.user {
        UserSafe(k, f.fn, f.fn.name, n, x.(data := x.data[..|x.data| - 1]));
      }
    case Return(fails) => ReturnAt(r, x, fails);
    case _ => PlainAt(r, x);
  }

  /** What a call by name runs. */
  lemma {:induction false} SmoothCall(k: nat, x: Machine, s: Symbol, n: nat)
    requires GoodState(true, x) && n <= |x.data| && GoodVals(true, x.data[|x.data| - n..])
    ensures if s.num in x.host.builtins then SmoothUser(k, BuiltinFunction(x.host.builtins[s.num]), n, x)
            else var v := Lookup(x.glob, x.locals, s.num);
                 v.Some? && v.value.Fun? && v.value.fn.user ==> SmoothUser(k, v.value.fn, n, x)
    decreases k, 5, 0
  {
    hide GoodState, GoodVals, SmoothUser, LookupLocal;
    if s.num in x.host.builtins {
      UserSafe(k, BuiltinFunction(x.host.builtins[s.num]), s.name, n, x);
    } else {
      var v := Lookup(x.glob, x.locals, s.num);
      if v.Some? && v.value.Fun? && v.value.fn.user {
        UserSafe(k, v.value.fn, s.name, n, x);
      }
    }
  }

  /** Stack safety. Typed code that is run from inside an activation stays inside it, in
      every state it comes to and in all that builtins run in between, or leaves it with one
      value on what it had to leave alone, and everything else as it was. */
  lemma {:induction false} StackSafe(k: nat, n: nat, r: Act, x: Machine) returns (left: Option<nat>)
    requires Well(r) && At(r, x) && x.pc < r.End() && GoodState(true, x) && Steps(k, n, x).Some?
    ensures Outcome(k, n, r, x, left)
    decreases k, 6, n, 5
  {
    SmoothHere(k, r, x);
    KeepingHere(k, r, x);
    assert Steps(k, 0, x) == Some(x);
    if n == 0 {
      left := None;
    } else {
      left := StepSafe(k, n, r, x);
    }
  }

  lemma {:induction false} StepSafe(k: nat, n: nat, r: Act, x: Machine) returns (left: Option<nat>)
    requires Well(r) && At(r, x) && x.pc < r.End() && GoodState(true, x) && Keeping(k, r, x)
    requires n > 0 && Steps(k, n, x).Some?
    ensures Outcome(k, n, r, x, left)
    decreases k, 6, n, 4
  {
    hide Keeping, Well, At, GoodState, GoodVals, GoodVal, Awaits, Leaves, Smooth, Outcome;
    var i, s := TypedHere(r, x);
    hide Holds, TypedAt, Settled, GoodInstr, Trouble, Steps, Plain, ReturnFromFunction, CallNamed, CallTop;
    match i
    case Call(_, m) => left := CallSafe(k, n, r, x, i.sym, m);
    case Dispatch(m) => left := DispatchSafe(k, n, r, x, m);
    case Return(fails) =>
      ReturnAt(r, x, fails);
      FirstStep(k, n, x);
      left := Returned(k, n, r, x);
    case _ =>
      PlainAt(r, x);
      FirstStep(k, n, x);
      left := Onward(k, n, r, x, 1, Plain(i, x).value);
  }

  lemma FirstStep(k: nat, n: nat, x: Machine)
    requires n > 0 && Steps(k, n, x).Some?
    ensures Exec(k, x).Some? && Steps(k, 0, x) == Some(x) && Steps(k, 1, x) == Exec(k, x)
    ensures Steps(k, n - 1, Exec(k, x).value) == Steps(k, n, x)
  {
    hide Exec;
  }

  lemma Returned(k: nat, n: nat, r: Act, x: Machine) returns (left: Option<nat>)
    requires n > 0 && Steps(k, 0, x) == Some(x) && Keeping(k, r, x) && Steps(k, 1, x).Some?
             && Leaves(r, Steps(k, 1, x).value)
    ensures Outcome(k, n, r, x, left)
  {
    hide Steps, Keeping, Leaves;
    left := Some(1);
  }

  /** Back in the activation after `i` instructions. */
  lemma {:induction false} Onward(k: nat, n: nat, r: Act, x: Machine, i: nat, w: Machine) returns (left: Option<nat>)
    requires 0 < i <= n && Steps(k, n, x).Some? && Steps(k, i, x) == Some(w)
    requires forall j: nat | j < i :: Steps(k, j, x).Some? && Keeping(k, r, Steps(k, j, x).value)
    requires Well(r) && At(r, w) && GoodState(true, w) && (r.rules.back ==> w.pc < r.End())
    ensures Outcome(k, n, r, x, left)
    decreases k, 6, n, 0
  {
    hide Keeping, Well, GoodState, Steps, Exec, Holds;
    if w.pc == r.End() {
      left := Some(i);
    } else {
      StepsAppend(k, i, n - i, x);
      var rest := StackSafe(k, n - i, r, w);
      hide Leaves, At, Outcome;
      left := Combine(k, n, r, x, i, w, rest);
    }
  }

  lemma {:induction false} CallSafe(k: nat, n: nat, r: Act, x: Machine, s: Symbol, m: nat) returns (left: Option<nat>)
    requires Well(r) && At(r, x) && x.pc < r.End() && GoodState(true, x) && Keeping(k, r, x)
    requires n > 0 && Steps(k, n, x).Some? && x.curfunc.fun[x.pc] == Call(s, m)
    ensures Outcome(k, n, r, x, left)
    decreases k, 6, n, 3
  {
    hide Keeping, Well, At, GoodState, GoodVals, Awaits, Outcome, Steps, CallUserFunction, CallFunction, LookupLocal;
    CallAt(r, x, m);
    FirstStep(k, n, x);
    hide Trouble;
    if s.num in x.host.builtins {
      left := Called(k, n, r, x, x, BuiltinFunction(x.host.builtins[s.num]), s.name, m);
    } else {
      NamedGood(x, s.num);
      left := Called(k, n, r, x, x, Lookup(x.glob, x.locals, s.num).value.fn, s.name, m);
    }
  }

  lemma {:induction false} DispatchSafe(k: nat, n: nat, r: Act, x: Machine, m: nat) returns (left: Option<nat>)
    requires Well(r) && At(r, x) && x.pc < r.End() && GoodState(true, x) && Keeping(k, r, x)
    requires n > 0 && Steps(k, n, x).Some? && x.curfunc.fun[x.pc] == Dispatch(m)
    ensures Outcome(k, n, r, x, left)
    decreases k, 6, n, 3
  {
    hide Keeping, Well, At, GoodState, GoodVals, Awaits, Outcome, Steps, CallUserFunction, CallFunction;
    DispatchAt(r, x, m);
    FirstStep(k, n, x);
    hide Trouble;
    var f := x.data[|x.data| - 1].fn;
    left := Called(k, n, r, x, x.(data := x.data[..|x.data| - 1]), f, f.name, m);
  }

  /** A call, of a builtin or of a script function, and what follows it. */
  lemma {:induction false} Called(k: nat, n: nat, r: Act, x: Machine, x0: Machine, f: Function, name: string, m: nat)
    returns (left: Option<nat>)
    requires Well(r) && Keeping(k, r, x) && GoodState(true, x0) && GoodFun(true, f)
    requires m <= |x0.data| && Awaits(r, x0, x0.data[..|x0.data| - m]) && GoodVals(true, x0.data[|x0.data| - m..])
    requires n > 0 && Steps(k, n, x).Some?
    requires Exec(k, x) == if f.user then CallUserFunction(k, f, name, m, x0) else CallFunction(f, m, x0)
    ensures Outcome(k, n, r, x, left)
    decreases k, 6, n, 2
  {
    hide Keeping, Well, At, GoodState, GoodVals, Awaits, Outcome, Steps, CallUserFunction, CallFunction, GoodFun,
         GoodVal;
    FirstStep(k, n, x);
    var base, args := x0.data[..|x0.data| - m], x0.data[|x0.data| - m..];
    var y := Exec(k, x).value;
    hide Exec;
    if f.user {
      UserSafe(k, f, name, m, x0);
      var v := y.data[|y.data| - 1];
      AwaitsAt(r, x0, base, v, y);
      left := Onward(k, n, r, x, 1, y);
    } else {
      assert x0.data == base + args;
      var r' := Enters(f, m, x0, base, args);
      AwaitsWithin(r, x0, base, r');
      var inner := StackSafe(k, n - 1, r', y);
      left := Entered(k, n, r, x, x0, base, r', y, inner);
    }
  }

  /** The value has come. */
  lemma AwaitsAt(r: Act, x: Machine, base: seq<Value>, v: Value, y: Machine)
    requires Awaits(r, x, base) && GoodVal(true, v) && y == x.(pc := x.pc + 1, data := base + [v])
    requires GoodState(true, x) && base <= x.data
    ensures At(r, y) && GoodState(true, y) && (r.rules.back ==> y.pc < r.End())
  {
    hide Holds, At;
    Comes(r, x, base, v);
    hide GoodFrame, MarkerFree;
    assert !v.Marker?;
    hide GoodVal;
  }

  /** The activation that is called lies above the one that calls. */
  ghost predicate Over(r: Act, r': Act) {
    && |r'.base| >= |r.base| && r'.base[..|r.base|] == r.base
    && |r'.addrs| == |r.addrs| + 1 && r'.addrs[..|r.addrs|] == r.addrs && r'.rules.own > 0
    && |r'.saved| == |r.saved| + 1 && r'.saved[..|r.saved|] == r.saved && (r.rules.own > 0 ==> r'.glob == r.glob)
  }

  lemma AwaitsWithin(r: Act, x: Machine, base: seq<Value>, r': Act)
    requires Awaits(r, x, base) && r' == Entry(r'.fn, r'.ts, base, x)
    ensures Over(r, r')
  {
    hide Holds;
  }

  lemma {:induction false} Entered(k: nat, n: nat, r: Act, x: Machine, x0: Machine, base: seq<Value>, r': Act,
                                   y: Machine,
                                   inner: Option<nat>)
    returns (left: Option<nat>)
    requires Well(r) && Keeping(k, r, x) && GoodState(true, x0) && Awaits(r, x0, base) && base <= x0.data
    requires n > 0 && Steps(k, n, x).Some? && Exec(k, x) == Some(y)
    requires r' == Entry(r'.fn, r'.ts, base, x0) && Over(r, r') && Outcome(k, n - 1, r', y, inner)
    ensures Outcome(k, n, r, x, left)
    decreases k, 6, n, 1
  {
    hide Keeping, Well, At, GoodState, Awaits, Steps, Exec, GoodVal, Over;
    FirstStep(k, n, x);
    var last := if inner.None? then n else inner.value;
    forall j: nat | j <= last && j < n + 1 && (inner.Some? ==> j <= last)
      ensures Steps(k, j, x).Some? && Keeping(k, r, Steps(k, j, x).value)
    {
      if j > 0 {
        StepsAppend(k, 1, j - 1, x);
        WithinOuter(k, r, r', Steps(k, j - 1, y).value);
      }
    }
    if inner.None? {
      left := None;
    } else {
      var w := Steps(k, last, y).value;
      StepsAppend(k, 1, last, x);
      var v := w.data[|r'.base|];
      BackFromEntry(r'.fn, r'.ts, base, x0, v);
      AwaitsAt(r, x0, base, v, w);
      hide Outcome, Leaves;
      left := Onward(k, n, r, x, last + 1, w);
    }
  }

  lemma WithinOuter(k: nat, r: Act, r': Act, z: Machine)
    requires Over(r, r') && Keeping(k, r', z)
    ensures Keeping(k, r, z)
  {
    hide Keeping;
    KeepingOuter(k, r, r', z);
  }
}
